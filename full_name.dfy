/** The derived full_name field: the first and last names joined by one space. */
module FullNames {

  /** The full name; it splits back into the first name, a space and the
      last name. */
  function FullName(first: string, last: string): (r: string)
    ensures |r| == |first| + 1 + |last|
    ensures r[..|first|] == first && r[|first|] == ' ' && r[|first| + 1..] == last
  {
    first + " " + last
  }

  /** When first names contain no space, the full name determines both
      names: the first space separates them. */
  lemma FullNameInjective(first1: string, last1: string, first2: string, last2: string)
    requires ' ' !in first1 && ' ' !in first2
    requires FullName(first1, last1) == FullName(first2, last2)
    ensures first1 == first2 && last1 == last2
  {
  }
}
