/** UserFormComponent: the state of the user-profile form and the operations
    that change it. Angular's value-change subscriptions are explicit calls:
    an edit of either name is followed by UpdateFullName. The HTTP calls of
    the user service are left out; the outcome of loading is delivered by
    calling OnUserLoaded or OnLoadFailed, and OnSave returns whether it hands
    the form to the service. */
module UserForm {
  import opened Wrappers
  import opened ErrorMessages
  import opened Validation
  import opened FullNames
  import opened Skills

  const DefaultSuggestions: seq<string> := ["UX/UI Design", "PHP Development", "JavaScript", "Angular"]
  const LoadFailedMessage := "Failed to load user data"

  /** The user record the service returns. */
  datatype User = User(firstName: string, lastName: string, age: int, email: string, skills: seq<string>)

  /** What FormArray.patchValue does to the skills controls: the entries that
      already exist take the loaded values at their index; none is added or
      removed. */
  function PatchedSkills(skills: seq<string>, loaded: seq<string>): (r: seq<string>)
    ensures |r| == |skills|
    ensures forall k :: 0 <= k < |r| && k < |loaded| ==> r[k] == loaded[k]
    ensures forall k :: |loaded| <= k < |r| ==> r[k] == skills[k]
  {
    if |loaded| < |skills| then loaded + skills[|loaded|..] else loaded[..|skills|]
  }

  class UserFormComponent {
    var firstName: string
    var lastName: string
    var fullName: string
    var age: Option<int>
    var email: string
    var skills: seq<string>
    var newSkill: string
    var predefinedSkills: seq<string>
    var loading: bool
    var error: Option<string>
    /** The syntax test of Validators.email. */
    const validEmail: string -> bool

    /** The suggestion list starts with the four defaults, only grows, and
        never holds a tag twice. */
    ghost predicate Valid()
      reads this
    {
      DefaultSuggestions <= predefinedSkills && NoDuplicates(predefinedSkills)
    }

    /** full_name agrees with the two name fields. */
    predicate FullNameSynced()
      reads this
    {
      fullName == FullName(firstName, lastName)
    }

    /** The value of every control. */
    function Values(): FormValues
      reads this
    {
      FormValues(firstName, lastName, fullName, age, email, skills, newSkill)
    }

    constructor (validEmail: string -> bool)
      ensures Valid()
      ensures firstName == "" && lastName == "" && fullName == "" && age == None && email == ""
      ensures skills == [] && newSkill == ""
      ensures predefinedSkills == DefaultSuggestions
      ensures !loading && error == None
      ensures this.validEmail == validEmail
    {
      firstName, lastName, fullName := "", "", "";
      age, email := None, "";
      skills, newSkill := [], "";
      predefinedSkills := DefaultSuggestions;
      loading, error := false, None;
      this.validEmail := validEmail;
    }

    /** Recomputes full_name from the two names; nothing else changes. */
    method UpdateFullName()
      modifies this`fullName
      ensures FullNameSynced()
    {
      fullName := FullName(firstName, lastName);
    }

    /** An edit of first_name, followed by its value-change reaction. */
    method EditFirstName(value: string)
      modifies this`firstName, this`fullName
      ensures firstName == value && lastName == old(lastName)
      ensures FullNameSynced()
    {
      firstName := value;
      UpdateFullName();
    }

    /** An edit of last_name, followed by its value-change reaction. */
    method EditLastName(value: string)
      modifies this`lastName, this`fullName
      ensures lastName == value && firstName == old(firstName)
      ensures FullNameSynced()
    {
      lastName := value;
      UpdateFullName();
    }

    /** An edit of the free-text skill input. */
    method EditNewSkill(value: string)
      modifies this`newSkill
      ensures newSkill == value
    {
      newSkill := value;
    }

    /** Appends each loaded skill in turn, keeping what is already there and
        any duplicates. */
    method SetSkills(loaded: seq<string>)
      modifies this`skills
      ensures skills == old(skills) + loaded
    {
      var i := 0;
      while i < |loaded|
        invariant 0 <= i <= |loaded|
        invariant skills == old(skills) + loaded[..i]
      {
        skills := skills + [loaded[i]];
        i := i + 1;
      }
      assert loaded[..i] == loaded;
    }

    /** Appends `skill` when it is non-empty and not yet listed, and then
        clears the free-text input; otherwise changes nothing. */
    method AddSkill(skill: string)
      modifies this`skills, this`newSkill
      ensures skills == WithSkill(old(skills), skill)
      ensures newSkill == if Accepts(old(skills), skill) then "" else old(newSkill)
      ensures NoDuplicates(old(skills)) ==> NoDuplicates(skills)
    {
      if skill != "" && skill !in skills {
        skills := skills + [skill];
        newSkill := "";
      }
      if NoDuplicates(old(skills)) {
        WithSkillKeepsNoDuplicates(old(skills), skill);
      }
    }

    /** Removes the entry at `index`. */
    method RemoveSkill(index: nat)
      requires index < |skills|
      modifies this`skills
      ensures skills == WithoutIndex(old(skills), index)
      ensures multiset(skills) == multiset(old(skills)) - multiset{old(skills)[index]}
      ensures NoDuplicates(old(skills)) ==> NoDuplicates(skills)
    {
      skills := skills[..index] + skills[index + 1..];
      WithoutIndexRemovesOne(old(skills), index);
      if NoDuplicates(old(skills)) {
        WithoutIndexKeepsNoDuplicates(old(skills), index);
      }
    }

    /** Choosing a suggestion from the drop-down adds it like addSkill. */
    method OnSkillSelect(selected: string)
      modifies this`skills, this`newSkill
      ensures skills == WithSkill(old(skills), selected)
      ensures newSkill == if Accepts(old(skills), selected) then "" else old(newSkill)
    {
      AddSkill(selected);
    }

    /** Adds the free-text skill to the suggestions when it is non-empty and
        not yet suggested, and then adds it to the skills; otherwise changes
        nothing. The input is cleared only when the skill was appended. */
    method AddNewSkill()
      requires Valid()
      modifies this`predefinedSkills, this`skills, this`newSkill
      ensures Valid()
      ensures old(predefinedSkills) <= predefinedSkills
      ensures Accepts(old(predefinedSkills), old(newSkill)) ==>
                && predefinedSkills == old(predefinedSkills) + [old(newSkill)]
                && skills == WithSkill(old(skills), old(newSkill))
                && newSkill == if old(newSkill) in old(skills) then old(newSkill) else ""
      ensures !Accepts(old(predefinedSkills), old(newSkill)) ==>
                predefinedSkills == old(predefinedSkills) && skills == old(skills) && newSkill == old(newSkill)
    {
      var value := newSkill;
      if value != "" && value !in predefinedSkills {
        WithSkillKeepsNoDuplicates(predefinedSkills, value);
        predefinedSkills := predefinedSkills + [value];
        AddSkill(value);
      }
    }

    /** Starts loading the current user. */
    method LoadUserData()
      modifies this`loading
      ensures loading
    {
      loading := true;
    }

    /** The load succeeded: the record is patched into the form, its skills
        are appended, full_name is recomputed and loading ends. */
    method OnUserLoaded(user: User)
      modifies this`firstName, this`lastName, this`fullName, this`age, this`email, this`skills, this`loading
      ensures firstName == user.firstName && lastName == user.lastName
      ensures age == Some(user.age) && email == user.email
      ensures skills == PatchedSkills(old(skills), user.skills) + user.skills
      ensures old(skills) == [] ==> skills == user.skills
      ensures FullNameSynced()
      ensures !loading
    {
      firstName, lastName := user.firstName, user.lastName;
      age, email := Some(user.age), user.email;
      skills := PatchedSkills(skills, user.skills);
      SetSkills(user.skills);
      UpdateFullName();
      loading := false;
    }

    /** The load failed: the error is recorded and loading ends. */
    method OnLoadFailed()
      modifies this`error, this`loading
      ensures error == Some(LoadFailedMessage)
      ensures !loading
    {
      error := Some(LoadFailedMessage);
      loading := false;
    }

    /** The error message for a control, from the errors its validators set. */
    function GetErrorMessage(controlName: string): (r: Option<string>)
      reads this
      ensures r.None? <==> ControlErrors(Values(), controlName, validEmail).None?
      ensures controlName !in ValidatedControls ==> r.None?
    {
      ErrorMessage(controlName, ControlErrors(Values(), controlName, validEmail))
    }

    /** Whether onSave hands the form to the service: exactly when the form
        is valid, which is exactly when no control shows an error message. */
    method OnSave() returns (submitted: bool)
      ensures submitted <==> FormValid(Values(), validEmail)
      ensures submitted <==> forall name :: GetErrorMessage(name).None?
    {
      submitted := firstName != "" && lastName != "" && age.Some? && age.value >= MinAge
                   && email != "" && validEmail(email) && skills != [];
      FormValidIffNoControlErrors(Values(), validEmail);
      assert forall name :: GetErrorMessage(name).None? <==> ControlErrors(Values(), name, validEmail).None?;
    }
  }

  /** Load succeeds with Ann Lee's record: the form shows "Ann Lee" and a
      save without edits is submitted. */
  method AnnLeeScenario(validEmail: string -> bool) returns (fullName: string, submitted: bool)
    requires validEmail("a@b.com")
    ensures fullName == "Ann Lee" && submitted
  {
    var form := new UserFormComponent(validEmail);
    form.LoadUserData();
    form.OnUserLoaded(User("Ann", "Lee", 30, "a@b.com", ["Angular"]));
    fullName := form.fullName;
    submitted := form.OnSave();
  }

  /** Typing a new skill and adding it: the suggestions and the skills gain
      it and the input is cleared. */
  method FreeTextSkillScenario(validEmail: string -> bool)
    returns (suggestions: seq<string>, skills: seq<string>, input: string)
    ensures suggestions == DefaultSuggestions + ["Rust"] && skills == ["Rust"] && input == ""
  {
    var form := new UserFormComponent(validEmail);
    form.EditNewSkill("Rust");
    form.AddNewSkill();
    suggestions, skills, input := form.predefinedSkills, form.skills, form.newSkill;
  }
}
