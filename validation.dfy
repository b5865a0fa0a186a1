/** The validators declared on the user form's controls, the errors they set,
    and the validity of the whole form that gates saving. The syntax check of
    Validators.email is not modelled: it is the parameter `validEmail`. */
module Validation {
  import opened Wrappers
  import opened ErrorMessages

  const MinAge := 18

  /** The current values of the form's controls. `age` is None while the
      control is empty (it is created holding ""). */
  datatype FormValues = FormValues(
    firstName: string,
    lastName: string,
    fullName: string,
    age: Option<int>,
    email: string,
    skills: seq<string>,
    newSkill: string)

  /** The `errors` of the control named `controlName`: None when no validator
      fails, or when there is no such control. full_name and newSkill have no
      validators. The email and min validators pass on an empty value. */
  function ControlErrors(f: FormValues, controlName: string, validEmail: string -> bool): (e: Option<ErrorFlags>)
    ensures e.Some? ==> e.value.Any() && controlName in ValidatedControls
    ensures (e.Some? && e.value.required) <==>
              || (controlName == "first_name" && f.firstName == "")
              || (controlName == "last_name" && f.lastName == "")
              || (controlName == "age" && f.age.None?)
              || (controlName == "email" && f.email == "")
              || (controlName == "skills" && f.skills == [])
    ensures (e.Some? && e.value.email) <==> controlName == "email" && f.email != "" && !validEmail(f.email)
    ensures (e.Some? && e.value.min) <==> controlName == "age" && f.age.Some? && f.age.value < MinAge
  {
    var flags :=
      if controlName == "first_name" then ErrorFlags(f.firstName == "", false, false)
      else if controlName == "last_name" then ErrorFlags(f.lastName == "", false, false)
      else if controlName == "age" then ErrorFlags(f.age.None?, false, f.age.Some? && f.age.value < MinAge)
      else if controlName == "email" then ErrorFlags(f.email == "", f.email != "" && !validEmail(f.email), false)
      else if controlName == "skills" then ErrorFlags(f.skills == [], false, false)
      else ErrorFlags(false, false, false);
    if flags.Any() then Some(flags) else None
  }

  /** The form is valid: both names non-empty, an age of at least 18, a
      non-empty syntactically valid email, and at least one skill. */
  predicate FormValid(f: FormValues, validEmail: string -> bool) {
    && f.firstName != ""
    && f.lastName != ""
    && f.age.Some? && f.age.value >= MinAge
    && f.email != "" && validEmail(f.email)
    && f.skills != []
  }

  /** The form is valid exactly when no control reports an error. */
  lemma {:induction false} FormValidIffNoControlErrors(f: FormValues, validEmail: string -> bool)
    ensures FormValid(f, validEmail) <==> forall name :: ControlErrors(f, name, validEmail).None?
  {
    if !FormValid(f, validEmail) {
      var name :=
        if f.firstName == "" then "first_name"
        else if f.lastName == "" then "last_name"
        else if f.age.None? || f.age.value < MinAge then "age"
        else if f.email == "" || !validEmail(f.email) then "email"
        else "skills";
      assert ControlErrors(f, name, validEmail).Some?;
    }
  }

  /** The save gate and the error messages agree: the form is valid exactly
      when getErrorMessage returns null for every control name. */
  lemma FormValidIffNoMessages(f: FormValues, validEmail: string -> bool)
    ensures FormValid(f, validEmail) <==>
            forall name :: ErrorMessage(name, ControlErrors(f, name, validEmail)).None?
  {
    FormValidIffNoControlErrors(f, validEmail);
    if !FormValid(f, validEmail) {
      var name :| ControlErrors(f, name, validEmail).Some?;
      assert ErrorMessage(name, ControlErrors(f, name, validEmail)).Some?;
    }
  }

  /** A non-empty email has no errors exactly when it is syntactically
      valid; otherwise the message is "Enter a valid email". An empty one
      shows the email's "required" message. */
  lemma EmailBoundary(f: FormValues, validEmail: string -> bool)
    ensures f.email != "" ==> (ControlErrors(f, "email", validEmail).None? <==> validEmail(f.email))
    ensures f.email != "" && !validEmail(f.email) ==>
              ErrorMessage("email", ControlErrors(f, "email", validEmail)) == Some(InvalidEmailMessage)
    ensures f.email == "" ==>
              ErrorMessage("email", ControlErrors(f, "email", validEmail)) == Some(RequiredMessage("email"))
  {
  }

  /** The age boundary: 18 passes, anything below shows the minimum-age message. */
  lemma AgeBoundary(f: FormValues, validEmail: string -> bool)
    requires f.age.Some?
    ensures ControlErrors(f, "age", validEmail).None? <==> f.age.value >= MinAge
    ensures f.age.value < MinAge ==>
              ErrorMessage("age", ControlErrors(f, "age", validEmail)) == Some(BelowMinAgeMessage)
  {
  }
}
