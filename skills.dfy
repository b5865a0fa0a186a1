/** The skills list editor on sequences: append-if-absent, remove-at-index,
    and the duplicate-freedom both preserve. */
module Skills {

  /** No tag occurs twice. */
  predicate NoDuplicates(s: seq<string>) {
    forall i, j :: 0 <= i < j < |s| ==> s[i] != s[j]
  }

  /** addSkill's guard: a non-empty string not yet in the list. Only "" is
      rejected; a blank string such as " " is accepted. */
  predicate Accepts(skills: seq<string>, skill: string) {
    skill != "" && skill !in skills
  }

  /** The list after addSkill(skill). */
  function WithSkill(skills: seq<string>, skill: string): (r: seq<string>)
    ensures |r| == if Accepts(skills, skill) then |skills| + 1 else |skills|
    ensures r[..|skills|] == skills
    ensures Accepts(skills, skill) ==> r[|skills|] == skill
    ensures forall x :: x in r <==> x in skills || (x == skill && skill != "")
  {
    if Accepts(skills, skill) then skills + [skill] else skills
  }

  /** The list after removeSkill(index). */
  function WithoutIndex(skills: seq<string>, index: nat): (r: seq<string>)
    requires index < |skills|
    ensures |r| == |skills| - 1
    ensures forall k :: 0 <= k < index ==> r[k] == skills[k]
    ensures forall k :: index <= k < |r| ==> r[k] == skills[k + 1]
  {
    skills[..index] + skills[index + 1..]
  }

  /** Adding the same skill twice is the same as adding it once. */
  lemma WithSkillIdempotent(skills: seq<string>, skill: string)
    ensures WithSkill(WithSkill(skills, skill), skill) == WithSkill(skills, skill)
  {
  }

  /** addSkill keeps the list free of duplicates. */
  lemma WithSkillKeepsNoDuplicates(skills: seq<string>, skill: string)
    requires NoDuplicates(skills)
    ensures NoDuplicates(WithSkill(skills, skill))
  {
  }

  /** removeSkill keeps the list free of duplicates. */
  lemma WithoutIndexKeepsNoDuplicates(skills: seq<string>, index: nat)
    requires index < |skills|
    requires NoDuplicates(skills)
    ensures NoDuplicates(WithoutIndex(skills, index))
  {
  }

  /** removeSkill takes away exactly the entry at the index. */
  lemma {:induction false} WithoutIndexRemovesOne(skills: seq<string>, index: nat)
    requires index < |skills|
    ensures multiset(WithoutIndex(skills, index)) == multiset(skills) - multiset{skills[index]}
  {
    assert skills == skills[..index] + [skills[index]] + skills[index + 1..];
  }

  /** setSkills appends without checking: a loaded tag already in the list
      ends up twice. */
  lemma AppendingPresentSkillDuplicates(skills: seq<string>, loaded: seq<string>, i: nat, j: nat)
    requires i < |skills| && j < |loaded| && skills[i] == loaded[j]
    ensures !NoDuplicates(skills + loaded)
  {
    assert (skills + loaded)[i] == (skills + loaded)[|skills| + j];
  }
}
