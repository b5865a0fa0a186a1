# User form component — a Dafny model

This project models `UserFormComponent`, the Angular component that edits a user profile. The model covers the state the component keeps and the rules that change it:

- the profile fields: first name, last name, the derived full name, age, email and the skill tags;
- the free-text skill input and the list of suggested skills;
- the `loading` and `error` flags of the user load;
- the validators declared on the form and the save gate they control;
- the error-message resolver.

Modules:

- `Wrappers` (wrappers.dfy): the `Option` type, for the source's nullable fields and results.
- `ErrorMessages` (errors.dfy): the first-match table of `getErrorMessage` over the `required`, `email` and `min` error keys, and the names of the five validated controls.
- `Validation` (validation.dfy): the controls' values (`FormValues`), the errors each control's validators set (`ControlErrors`), and form validity (`FormValid`). It proves that validity, "no control has errors" and "no control has a message" are the same thing.
- `FullNames` (full_name.dfy): the derived full name, `first + " " + last`.
- `Skills` (skills.dfy): append-if-absent (`WithSkill`) and remove-at-index (`WithoutIndex`) on `seq<string>`, with the duplicate-freedom both keep.
- `UserForm` (user_form.dfy): the class `UserFormComponent`. Its fields are the controls' values and the component's own fields. Its methods are the component's operations. Each method's `ensures` gives the whole new state in terms of the functions above.

Angular's value-change subscriptions are explicit calls: `EditFirstName` and `EditLastName` update the name and then call `UpdateFullName`, as the subscriptions do. The syntax check of `Validators.email` is the component's `validEmail` constant, a function the caller supplies. Age is `Option<int>`, where `None` is the empty control the form starts with.

The model follows the code in these details:

- `addSkill` rejects only the empty string. A blank string such as `" "` is accepted. Its default argument `""` is the call `AddSkill("")`, which changes nothing.
- `setSkills` appends without clearing the list and without removing duplicates. So "no duplicate skills" holds only for lists built by `addSkill` and `removeSkill` (`AppendingPresentSkillDuplicates`).
- `removeSkill` has no bounds guard. An out-of-range index is excluded by a precondition, not treated as a no-op.
- `addNewSkill` clears the input only when `addSkill` actually appends. A new suggestion that is already in the skills list leaves the input as it was.
- The full name starts as `""`, not `" "`. It is consistent with the names only after a name edit or a load, so `FullNameSynced` is an `ensures` of those methods and not an object invariant.

## Model

| member | source | states |
|---|---|---|
| ErrorMessages.RequiredMessage | src/app/components/user-form/user-form.component.ts:123-137 | the generic "This field is required" is used exactly for names other than the five validated controls; a required message never equals the email or age message |
| ErrorMessages.RequiredMessagesDistinct | src/app/components/user-form/user-form.component.ts:124-134 | the five validated controls have pairwise different "required" messages |
| ErrorMessages.ErrorMessage | src/app/components/user-form/user-form.component.ts:120-145 | null exactly when the control has no errors; the required message exactly when `required` is set; the email message exactly when `email` is set without `required`; the age message exactly when only `min` is set |
| ErrorMessages.RequiredWins | src/app/components/user-form/user-form.component.ts:123-137 | with `required` set, the message does not depend on the `email` and `min` flags |
| ErrorMessages.EmailWinsOverMin | src/app/components/user-form/user-form.component.ts:138-141 | without `required`, an `email` error hides a `min` error |
| ErrorMessages.MessageDeterminesError | src/app/components/user-form/user-form.component.ts:120-145 | two error sets that give the same message agree on the error that wins |
| Validation.ControlErrors | src/app/components/user-form/user-form.component.ts:34-41 | only the five validated controls can have errors; `required` is set exactly on an empty name, age, email or skills list; `email` exactly on a non-empty invalid email; `min` exactly on an age below 18 |
| Validation.FormValidIffNoControlErrors | src/app/components/user-form/user-form.component.ts:34-41 | the form is valid (both names, age at least 18, valid email, at least one skill) exactly when no control has errors |
| Validation.FormValidIffNoMessages | src/app/components/user-form/user-form.component.ts:110-145 | the form is valid exactly when the error-message resolver returns null for every control name |
| Validation.EmailBoundary | src/app/components/user-form/user-form.component.ts:39 | a non-empty email has no errors exactly when it is valid, and otherwise shows "Enter a valid email"; an empty email shows "Email is required" |
| Validation.AgeBoundary | src/app/components/user-form/user-form.component.ts:38 | a present age has no errors exactly when it is at least 18; below 18 the message is "Age must be greater than or equal to 18" |
| FullNames.FullName | src/app/components/user-form/user-form.component.ts:71-75 | the full name splits back into the first name, one space and the last name |
| FullNames.FullNameInjective | src/app/components/user-form/user-form.component.ts:74 | when first names hold no space, equal full names come from equal first and last names |
| Skills.WithSkill | src/app/components/user-form/user-form.component.ts:86-91 | the list grows by one exactly when the skill is non-empty and absent; earlier entries keep their places; the new entry is last; the members afterwards are the old ones plus the skill if non-empty |
| Skills.WithoutIndex | src/app/components/user-form/user-form.component.ts:93-95 | the length drops by one; entries before the index stay; entries after it shift down by one |
| Skills.WithSkillIdempotent | src/app/components/user-form/user-form.component.ts:86-91 | adding the same skill twice is the same as adding it once |
| Skills.WithSkillKeepsNoDuplicates | src/app/components/user-form/user-form.component.ts:87-88 | adding a skill keeps a duplicate-free list duplicate-free |
| Skills.WithoutIndexKeepsNoDuplicates | src/app/components/user-form/user-form.component.ts:93-95 | removing an entry keeps a duplicate-free list duplicate-free |
| Skills.WithoutIndexRemovesOne | src/app/components/user-form/user-form.component.ts:93-95 | removal takes away exactly one occurrence of the entry at the index |
| Skills.AppendingPresentSkillDuplicates | src/app/components/user-form/user-form.component.ts:77-80 | appending a loaded list that shares a tag with the current list leaves a duplicate |
| UserForm.PatchedSkills | src/app/components/user-form/user-form.component.ts:59 | patching the skills array keeps its length; existing entries take the loaded value at their index where there is one |
| UserForm.UserFormComponent.constructor | src/app/components/user-form/user-form.component.ts:24-42 | every control starts empty, the suggestions are the four defaults, not loading, no error |
| UserForm.UserFormComponent.UpdateFullName | src/app/components/user-form/user-form.component.ts:71-75 | afterwards full_name is first_name, a space and last_name; only full_name changes |
| UserForm.UserFormComponent.EditFirstName | src/app/components/user-form/user-form.component.ts:47-49 | after a first-name edit, full_name agrees with the new names |
| UserForm.UserFormComponent.EditLastName | src/app/components/user-form/user-form.component.ts:50-52 | after a last-name edit, full_name agrees with the new names |
| UserForm.UserFormComponent.EditNewSkill | src/app/components/user-form/user-form.component.ts:41 | the free-text input holds the typed value |
| UserForm.UserFormComponent.SetSkills | src/app/components/user-form/user-form.component.ts:77-80 | the skills become the old list followed by the loaded list, in order, duplicates kept |
| UserForm.UserFormComponent.AddSkill | src/app/components/user-form/user-form.component.ts:86-91 | the skills become `WithSkill` of the old list; the input is cleared exactly when the skill was appended; a duplicate-free list stays so |
| UserForm.UserFormComponent.RemoveSkill | src/app/components/user-form/user-form.component.ts:93-95 | the skills become `WithoutIndex` of the old list, one occurrence fewer of the removed entry; a duplicate-free list stays so |
| UserForm.UserFormComponent.OnSkillSelect | src/app/components/user-form/user-form.component.ts:97-100 | selecting a suggestion behaves as `addSkill` |
| UserForm.UserFormComponent.AddNewSkill | src/app/components/user-form/user-form.component.ts:102-108 | the suggestions never shrink and stay duplicate-free with the defaults first; a new non-empty input is appended to them and then added as by `addSkill`; otherwise nothing changes |
| UserForm.UserFormComponent.LoadUserData | src/app/components/user-form/user-form.component.ts:55-56 | loading is on while the request is pending |
| UserForm.UserFormComponent.OnUserLoaded | src/app/components/user-form/user-form.component.ts:58-63 | the record's fields are in the form, its skills appended after the patched ones (exactly the record's skills on an empty list), full_name agrees, loading is off |
| UserForm.UserFormComponent.OnLoadFailed | src/app/components/user-form/user-form.component.ts:64-67 | error is "Failed to load user data" and loading is off |
| UserForm.UserFormComponent.GetErrorMessage | src/app/components/user-form/user-form.component.ts:120-145 | null exactly when the control has no errors, and always for names without validators |
| UserForm.UserFormComponent.OnSave | src/app/components/user-form/user-form.component.ts:110-117 | the form goes to the service exactly when it is valid, which is exactly when no control shows an error message |
| UserForm.AnnLeeScenario | src/app/components/user-form/user-form.component.ts:55-117 | loading Ann Lee's record shows "Ann Lee", and a save without edits is submitted |
| UserForm.FreeTextSkillScenario | src/app/components/user-form/user-form.component.ts:102-108 | adding "Rust" as free text adds it to the suggestions and to the skills, and clears the input |

## Left out

- The HTTP calls of the user service (`getUser`, `updateUser`) and their asynchronous delivery. A load is `LoadUserData` followed by a call to `OnUserLoaded` or `OnLoadFailed`. A save is the boolean `OnSave` returns.
- The `alert` notifications after a save. They are UI side effects.
- The shape of the save payload, `userForm.value`. How Angular treats the disabled `full_name` control in it is not part of this model.
- The `User` model type is not part of this model. The record is assumed to carry the two names, a numeric age, an email and a list of skills.
- The email syntax of `Validators.email`. It is the `validEmail` function the component is given.
- Ages that are not whole numbers. Age is an integer or absent.
- Reading the selected value out of the DOM event in `onSkillSelect`. `OnSkillSelect` takes the selected string.
- `UserForm.UserFormComponent.RemoveSkill`: requires an index within the list. `FormArray.removeAt` decides what happens otherwise, and it is not part of this model.
- `UserForm.UserFormComponent.OnUserLoaded`: `patchValue` is modelled only for the controls the record fills. Its effect on the skills array (`PatchedSkills`) assumes the documented behaviour of Angular's `FormArray.patchValue`, whose code is not shown: existing entries take the loaded value at their index.
- Angular's `@Component` decorator, dependency injection, `ngOnInit` and the value-change observables. The template and the styles.
