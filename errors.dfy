/** The error-message resolver of the user form: a first-match table from a
    control's name and the validator errors set on it to the text shown under
    the field. */
module ErrorMessages {
  import opened Wrappers

  /** The three validator error keys the resolver looks at on a control's
      `errors` object. An object with none of them set is treated like no
      errors at all. */
  datatype ErrorFlags = ErrorFlags(required: bool, email: bool, min: bool)
  {
    predicate Any() { required || email || min }
  }

  const RequiredDefault := "This field is required"
  const InvalidEmailMessage := "Enter a valid email"
  const BelowMinAgeMessage := "Age must be greater than or equal to 18"

  /** The controls that carry validators; each has its own "required" message. */
  const ValidatedControls: set<string> := {"first_name", "last_name", "age", "email", "skills"}

  /** The "required" message for a control: field-specific for the five
      validated controls, the generic default for any other name. */
  function RequiredMessage(controlName: string): (m: string)
    ensures m == RequiredDefault <==> controlName !in ValidatedControls
    ensures m != InvalidEmailMessage && m != BelowMinAgeMessage
  {
    if controlName == "first_name" then "First Name is required"
    else if controlName == "last_name" then "Last Name is required"
    else if controlName == "age" then "Age is required"
    else if controlName == "email" then "Email is required"
    else if controlName == "skills" then "At least one skill is required"
    else RequiredDefault
  }

  /** getErrorMessage: None when the control has no errors (or does not
      exist); otherwise the message of the first error in the order
      required, email, min. */
  function ErrorMessage(controlName: string, errors: Option<ErrorFlags>): (r: Option<string>)
    ensures r.None? <==> errors.None? || !errors.value.Any()
    ensures r == Some(RequiredMessage(controlName)) <==> errors.Some? && errors.value.required
    ensures r == Some(InvalidEmailMessage) <==> errors.Some? && !errors.value.required && errors.value.email
    ensures r == Some(BelowMinAgeMessage) <==>
              errors.Some? && !errors.value.required && !errors.value.email && errors.value.min
  {
    match errors
    case None => None
    case Some(flags) =>
      if flags.required then Some(RequiredMessage(controlName))
      else if flags.email then Some(InvalidEmailMessage)
      else if flags.min then Some(BelowMinAgeMessage)
      else None
  }

  /** Each validated control has a "required" message of its own. */
  lemma RequiredMessagesDistinct(name1: string, name2: string)
    requires name1 in ValidatedControls && name2 in ValidatedControls
    requires name1 != name2
    ensures RequiredMessage(name1) != RequiredMessage(name2)
  {
  }

  /** A "required" error hides whatever else is wrong with the control. */
  lemma RequiredWins(controlName: string, email1: bool, min1: bool, email2: bool, min2: bool)
    ensures ErrorMessage(controlName, Some(ErrorFlags(true, email1, min1)))
         == ErrorMessage(controlName, Some(ErrorFlags(true, email2, min2)))
         == Some(RequiredMessage(controlName))
  {
  }

  /** Without "required", an "email" error hides a "min" error. */
  lemma EmailWinsOverMin(controlName: string, min1: bool, min2: bool)
    ensures ErrorMessage(controlName, Some(ErrorFlags(false, true, min1)))
         == ErrorMessage(controlName, Some(ErrorFlags(false, true, min2)))
         == Some(InvalidEmailMessage)
  {
  }

  /** The message shown tells which error won: different winning errors
      never produce the same text, whatever the control. */
  lemma MessageDeterminesError(controlName: string, e1: ErrorFlags, e2: ErrorFlags)
    requires ErrorMessage(controlName, Some(e1)) == ErrorMessage(controlName, Some(e2))
    ensures e1.required == e2.required
    ensures !e1.required ==> e1.email == e2.email
    ensures !e1.required && !e1.email ==> e1.min == e2.min
  {
  }
}
