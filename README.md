# Peer-review wireframes: login, submission wizard and review picker

This project models the small amount of logic inside a browser prototype for a
peer-review platform. In the prototype, students and professors sign in with a
Boston University address, submit work through a four-step wizard, and rate
submissions assigned to them. Everything else in the prototype is rendering
over mock data.

The model has four parts, one per component:

- **The login page, first iteration** (`LegacyLogin.LoginPage`). The page has
  three modes: login, signup, and email verification. Submit checks only that
  the email ends in `@bu.edu`. A valid submit in signup moves to verification.
  A valid submit in login hands the chosen role (student or professor) to
  `onLogin`. Verification accepts any code. Social sign-in only shows an error
  that names the provider.
- **The login page, second iteration** (`AuthLogin.LoginPage`). It has the same
  modes and handlers, plus controlled signup fields. On submit, `validateForm`
  builds a per-field error record (`FormValidation`). The page proceeds only
  when that record is empty.
- **The submission wizard** (`SubmissionWizard`). It has four steps. Continue
  on step 1 stays disabled until a submission type is chosen. Back and Continue
  move one step at a time. Progress circles and connectors are highlighted from
  the current step.
- **The review picker** (`ReviewPicker`). It shows either the list of three
  assigned submissions or the detail view of the selected one. The detail view
  has a five-star rating.

### How the model is organised

- **State.** Each component's state variables are fields of a class, and each
  click handler is a method with a `modifies` clause.
- **Callbacks.** Calls to the parent's `onLogin` callback are recorded in a
  `logins` log. A call to `onBack` is the method's `leave` result.
- **Transitions.** For the wizard and the picker, a pure `Next` function gives
  the effect of one click. `Run` applies a sequence of clicks. The class
  methods are proved equal to `Next`. Lemmas show that every reachable state
  satisfies the component's invariant.
- **Hidden buttons.** Clicking a button that the current view does not render,
  or that is disabled, changes nothing. On both login pages the verification
  screen replaces the login/signup form, so the verification handlers act only
  in verification mode and the form's handlers only outside it.
- **Error record.** The form's error record is specified declaratively: each
  field has one rule, and `FormErrors` builds the record from them.
  `CollectErrors` builds the same record the way the component does, with
  overwriting assignments in source order. It is proved to agree with
  `FormErrors`.
- **JavaScript strings.** Strings are sequences of Unicode scalar values, and
  `JsText` gives them JavaScript's meaning:
  - `endsWith` is a case-sensitive suffix test.
  - `trim` strips the ECMAScript WhiteSpace and LineTerminator characters.
  - `.length` counts UTF-16 code units, so a character outside the Basic
    Multilingual Plane counts twice.

Each component keeps local state (`mode`, `step`, `selectedReview`,
`rating`, the field values) and updates it in its click and input handlers;
those handlers are what the model states.

## Model

| member | source | states |
|---|---|---|
| JsText.EndsWithIffConcat | peer-feedback-ui/src/components/auth/LoginPage.tsx:39 | The suffix test holds exactly when the string is some prefix followed by the suffix. |
| JsText.Trim | peer-feedback-ui/src/components/auth/LoginPage.tsx:75-76 | Trimming never lengthens a string. The result is empty exactly when every character is JavaScript whitespace. |
| JsText.TrimSlice | peer-feedback-ui/src/components/auth/LoginPage.tsx:75-76 | The trimmed string is a slice of the input, and everything cut off on either side is whitespace. |
| JsText.TrimmedEnds | peer-feedback-ui/src/components/auth/LoginPage.tsx:75-76 | A non-empty trimmed string starts and ends with a non-whitespace character. |
| JsText.Utf16Length | peer-feedback-ui/src/components/auth/LoginPage.tsx:82 | `.length` is between the number of characters and twice that number. |
| JsText.Utf16LengthBmp | peer-feedback-ui/src/components/auth/LoginPage.tsx:82 | `.length` equals the number of characters exactly when every character lies in the Basic Multilingual Plane. |
| AuthCommon.SuffixCheckExamples | peer-feedback-ui/src/components/LoginPage.tsx:19 | The domain check accepts "@bu.edu" itself and "alice@bu.edu". It rejects "", "x@BU.EDU" (case-sensitive) and "x@bu.edu " (no trimming). |
| AuthCommon.EmailCheckError | peer-feedback-ui/src/components/LoginPage.tsx:18-25 | `validateEmail` stores "" exactly for an `@bu.edu` address and the fixed domain message otherwise. |
| AuthCommon.LiveEmailError | peer-feedback-ui/src/components/LoginPage.tsx:27-35 | After typing, an empty value clears the error without validating. A non-empty value gets no error exactly when it ends in `@bu.edu`. Only "" or the domain message can appear. |
| AuthCommon.FooterToggle | peer-feedback-ui/src/components/LoginPage.tsx:492 | The footer link never leads to verification. It leads to signup exactly from login. |
| AuthCommon.FooterToggleTwice | peer-feedback-ui/src/components/LoginPage.tsx:492 | Following the footer link twice from login or signup returns to the starting mode. |
| AuthCommon.SocialLoginMessage | peer-feedback-ui/src/components/LoginPage.tsx:45-47 | The social-login error is the fixed BU prefix, then the provider's display name, then the fixed suffix. |
| AuthCommon.SocialLoginMessageNamesProvider | peer-feedback-ui/src/components/LoginPage.tsx:45-47 | Two providers get the same message exactly when they are the same provider. |
| LegacyLogin.LoginPage.constructor | peer-feedback-ui/src/components/LoginPage.tsx:10-16 | The page starts in login mode as a student, with every text field empty and nobody logged in. |
| LegacyLogin.LoginPage.ValidateEmail | peer-feedback-ui/src/components/LoginPage.tsx:18-25 | Returns true exactly for an `@bu.edu` address. Sets the error to "" on success and to the domain message on failure. |
| LegacyLogin.LoginPage.HandleEmailChange | peer-feedback-ui/src/components/LoginPage.tsx:27-35 | On the form, always stores the value, and the error becomes the live error for that value. On the verification screen nothing changes. |
| LegacyLogin.LoginPage.HandleSocialLogin | peer-feedback-ui/src/components/LoginPage.tsx:37-51 | On the form, sets only the social-login error, to the message naming the provider; it logs nobody in. On the verification screen nothing changes. |
| LegacyLogin.LoginPage.HandleSubmit | peer-feedback-ui/src/components/LoginPage.tsx:53-67 | On the form: a rejected email changes neither the mode nor the login log. A valid signup moves to verification without logging in. A valid login appends the role to the log once and stays in login. On the verification screen nothing changes. |
| LegacyLogin.LoginPage.HandleVerification | peer-feedback-ui/src/components/LoginPage.tsx:69-74 | On the verification screen, logs in with the current role whatever code was typed. Elsewhere it logs nobody in. |
| LegacyLogin.LoginPage.BackToLogin | peer-feedback-ui/src/components/LoginPage.tsx:148 | "Back to login" on the verification screen sets the mode to login. Elsewhere the mode is unchanged. |
| LegacyLogin.LoginPage.SelectTab | peer-feedback-ui/src/components/LoginPage.tsx:205-215 | On the form, the tabs set login or signup directly. On the verification screen the mode stays. |
| LegacyLogin.LoginPage.ToggleFooter | peer-feedback-ui/src/components/LoginPage.tsx:492 | On the form, the footer link sets the mode to the toggle of the previous mode. On the verification screen the mode stays. |
| LegacyLogin.LoginPage.SelectRole | peer-feedback-ui/src/components/LoginPage.tsx:247-262 | On the form, the role buttons set the role. On the verification screen the role stays. |
| LegacyLogin.LoginPage.EnterVerificationCode | peer-feedback-ui/src/components/LoginPage.tsx:118 | On the verification screen, the code input stores what was typed. Elsewhere the code is unchanged. |
| FormValidation.IdRequired | peer-feedback-ui/src/components/auth/LoginPage.tsx:76-80 | The ID message names a student ID for students and an employee ID for professors. |
| FormValidation.EmailRule | peer-feedback-ui/src/components/auth/LoginPage.tsx:66-68 | At most one email message. It fires exactly when the address is not `@bu.edu`: "required" for an empty email, the domain message otherwise. |
| FormValidation.PasswordRule | peer-feedback-ui/src/components/auth/LoginPage.tsx:71-83 | Outside signup, the rule fires exactly for an empty password, with "required". In signup, it fires exactly below 8 UTF-16 units, with the length message. An empty password in signup therefore ends with the length message. |
| FormValidation.RequiredTextRule | peer-feedback-ui/src/components/auth/LoginPage.tsx:75-80 | Name and ID fire exactly in signup, when the value is empty after trimming. |
| FormValidation.ConfirmRule | peer-feedback-ui/src/components/auth/LoginPage.tsx:85-88 | Fires exactly in signup when the confirmation is empty or differs from the password. It says "Please confirm" when empty and "do not match" otherwise. |
| FormValidation.TermsRule | peer-feedback-ui/src/components/auth/LoginPage.tsx:90 | Fires exactly in signup when the terms are not accepted. |
| FormValidation.FormErrors | peer-feedback-ui/src/components/auth/LoginPage.tsx:62-94 | Outside signup, only "email" and "password" can appear. "email" appears exactly for a non-`@bu.edu` address. "password" appears exactly for an empty password in login and below 8 units in signup. |
| FormValidation.FormErrorsEmptyIffNoRuleFires | peer-feedback-ui/src/components/auth/LoginPage.tsx:62-94 | The record is empty exactly when none of the six field rules fires. |
| FormValidation.FormErrorsEmptyIff | peer-feedback-ui/src/components/auth/LoginPage.tsx:62-94 | The form passes exactly when the email is `@bu.edu` and a password is present. In signup it also needs: non-blank name and ID, at least 8 units of password, a matching confirmation, and accepted terms. |
| FormValidation.CollectErrors | peer-feedback-ui/src/components/auth/LoginPage.tsx:63-91 | The source-order assignments, including the overwrite of the password message, produce exactly the declarative record. |
| FormValidation.AddSignupErrors | peer-feedback-ui/src/components/auth/LoginPage.tsx:74-91 | The signup block keeps the email entry. It replaces the password entry by the signup password rule and records the name, ID, confirmation and terms rules. |
| FormValidation.AddIdentityErrors | peer-feedback-ui/src/components/auth/LoginPage.tsx:75-80 | The name and ID checks record their rules' outcomes and leave every other key as it was. |
| FormValidation.AddCredentialErrors | peer-feedback-ui/src/components/auth/LoginPage.tsx:82-90 | The length, confirmation and terms checks record their rules' outcomes. The length check overwrites "required". Email, name and ID are untouched. |
| FormValidation.SameRecord | peer-feedback-ui/src/components/auth/LoginPage.tsx:63-91 | A record that holds each rule's outcome under its key is the declarative record. |
| AuthLogin.LoginPage.constructor | peer-feedback-ui/src/components/auth/LoginPage.tsx:19-35 | The page starts in login mode as a student, with empty fields, unaccepted terms, an empty error record and nobody logged in. |
| AuthLogin.LoginPage.DisplayedEmailError | peer-feedback-ui/src/components/auth/LoginPage.tsx:192 | The email field shows the submit-time entry when there is one; that entry is never empty text. Otherwise it shows the live error. |
| AuthLogin.LoginPage.ValidateEmail | peer-feedback-ui/src/components/auth/LoginPage.tsx:38-45 | Returns true exactly for an `@bu.edu` address and stores the matching inline error. |
| AuthLogin.LoginPage.HandleEmailChange | peer-feedback-ui/src/components/auth/LoginPage.tsx:47-51 | On the form, stores the value and the live error. While the submit-time record has an email entry, the displayed error does not change. On the verification screen nothing changes. |
| AuthLogin.LoginPage.HandleSocialLogin | peer-feedback-ui/src/components/auth/LoginPage.tsx:53-60 | On the form, sets only the social-login error, to the message naming the provider; it logs nobody in. On the verification screen nothing changes. |
| AuthLogin.LoginPage.ValidateForm | peer-feedback-ui/src/components/auth/LoginPage.tsx:62-95 | Stores the declarative record for the current mode, role and fields. Returns true exactly when that record is empty. |
| AuthLogin.LoginPage.HandleSubmit | peer-feedback-ui/src/components/auth/LoginPage.tsx:98-105 | On the form: an invalid form keeps the mode and logs nobody in. A valid signup moves to verification. A valid login logs the role in once and stays in login. Both tests use the mode from before the submit. On the verification screen nothing changes. |
| AuthLogin.LoginPage.HandleVerification | peer-feedback-ui/src/components/auth/LoginPage.tsx:107-110 | On the verification screen, logs in with the current role whatever code was typed. Elsewhere it logs nobody in. |
| AuthLogin.LoginPage.EnterVerificationCode | peer-feedback-ui/src/components/auth/LoginPage.tsx:117 | On the verification screen, the code input stores what was typed. Elsewhere the code is unchanged. |
| AuthLogin.LoginPage.BackToLogin | peer-feedback-ui/src/components/auth/LoginPage.tsx:119 | "Back to login" on the verification screen sets the mode to login. Elsewhere the mode is unchanged. |
| AuthLogin.LoginPage.SelectTab | peer-feedback-ui/src/components/auth/LoginPage.tsx:156 | On the form, the tabs set login or signup; their argument type excludes verification. On the verification screen the mode stays. |
| AuthLogin.LoginPage.ToggleFooter | peer-feedback-ui/src/components/auth/LoginPage.tsx:277 | On the form, the footer link sets the mode to the toggle of the previous mode. On the verification screen the mode stays. |
| AuthLogin.LoginPage.SelectRole | peer-feedback-ui/src/components/auth/LoginPage.tsx:170 | On the form, the role selector sets the role. On the verification screen the role stays. |
| AuthLogin.LoginIgnoresSignupFields | peer-feedback-ui/src/components/auth/LoginPage.tsx:71-74 | In login mode, forms that agree on email and password get the same record, whatever the role and signup fields. |
| SubmissionWizard.Next | my-app/src/components/SubmissionFlow.tsx:76-298 | One click preserves the invariant. Only option cards change the type, and they never change the step. Continue on step 1 without a type does nothing. Continue moves one step forward and Back one step back, within 1..4. The leaving buttons change nothing. |
| SubmissionWizard.RunKeepsInv | my-app/src/components/SubmissionFlow.tsx:96-292 | Any click sequence from a valid state keeps the step in 1..4. It keeps the type empty or a known option, and never passes step 1 without a type. |
| SubmissionWizard.RunKeepsChoice | my-app/src/components/SubmissionFlow.tsx:96-292 | Clicks other than the option cards never change the chosen type, so returning to step 1 keeps the choice. |
| SubmissionWizard.ReachableIsValid | my-app/src/components/SubmissionFlow.tsx:9-10 | From the initial state (step 1, no type), every reachable state is valid. |
| SubmissionWizard.SubmitNeedsChoice | my-app/src/components/SubmissionFlow.tsx:96-298 | From the initial state, "Submit for Review" leaves the flow only on step 4 and only once a submission type has been chosen. |
| SubmissionWizard.ProgressMatchesStep | my-app/src/components/SubmissionFlow.tsx:40-52 | Of the four circles (filled when step >= num) and three connectors (filled when step > num), exactly the first s circles and the first s-1 connectors are highlighted on step s. |
| SubmissionWizard.SubmissionFlow.constructor | my-app/src/components/SubmissionFlow.tsx:9-10 | The wizard starts on step 1 with no type, in a valid state. |
| SubmissionWizard.SubmissionFlow.SelectType | my-app/src/components/SubmissionFlow.tsx:76 | An option card has the effect `Next` gives it and keeps the invariant. |
| SubmissionWizard.SubmissionFlow.Continue | my-app/src/components/SubmissionFlow.tsx:96-231 | The three Continue buttons have the effect `Next` gives and keep the invariant. |
| SubmissionWizard.SubmissionFlow.Back | my-app/src/components/SubmissionFlow.tsx:162-292 | The three Back buttons have the effect `Next` gives and keep the invariant. |
| SubmissionWizard.SubmissionFlow.SubmitForReview | my-app/src/components/SubmissionFlow.tsx:298 | Leaves the flow exactly on step 4, which is what `LeavesFlow` says of that button. |
| SubmissionWizard.SubmissionFlow.BackToDashboard | my-app/src/components/SubmissionFlow.tsx:17 | Always leaves the flow, which is what `LeavesFlow` says of the header link. |
| ReviewPicker.AssignedIds | my-app/src/components/ReviewFlow.tsx:12-16 | The assigned ids are exactly 1, 2 and 3, all distinct. |
| ReviewPicker.ViewGatesClicks | my-app/src/components/ReviewFlow.tsx:18-152 | The list is shown exactly when nothing is selected. Star and "Back to Reviews" clicks do nothing on the list. Entry buttons do nothing on the detail view, and no click leaves the flow from it. |
| ReviewPicker.Next | my-app/src/components/ReviewFlow.tsx:55-152 | One click preserves the invariant. Choosing entry i from the list selects that entry's id and keeps the rating. Back to Reviews clears the selection and keeps the rating. A star click in the detail view sets the rating to the star's number. Only a star changes the rating, and only within 1..5. |
| ReviewPicker.ChooseThenBack | my-app/src/components/ReviewFlow.tsx:55-77 | Opening an entry shows the detail view. Going back restores the list state exactly, rating included. |
| ReviewPicker.RunKeepsInv | my-app/src/components/ReviewFlow.tsx:9-152 | Any click sequence from a valid state keeps the selection empty or an assigned id, and the rating within 0..5. |
| ReviewPicker.ReachableIsValid | my-app/src/components/ReviewFlow.tsx:9-16 | From the initial state (no selection, rating 0), every reached selection is 1, 2 or 3 and every rating lies in 0..5. |
| ReviewPicker.LabelFollowsStatus | my-app/src/components/ReviewFlow.tsx:62 | An entry's button reads "Start Review" exactly when it is pending, and "View Review" exactly when it is not. |
| ReviewPicker.FilledStarsMatchRating | my-app/src/components/ReviewFlow.tsx:149-157 | Of the five stars, star s is filled exactly when s <= rating; with a rating r in 0..5 exactly the first r stars are filled. |
| ReviewPicker.ReviewFlow.constructor | my-app/src/components/ReviewFlow.tsx:9-10 | The picker starts on the list with rating 0, in a valid state. |
| ReviewPicker.ReviewFlow.ChooseReview | my-app/src/components/ReviewFlow.tsx:55 | An entry's button has the effect `Next` gives it and keeps the invariant. |
| ReviewPicker.ReviewFlow.BackToReviews | my-app/src/components/ReviewFlow.tsx:77 | "Back to Reviews" has the effect `Next` gives it and keeps the invariant. |
| ReviewPicker.ReviewFlow.ClickStar | my-app/src/components/ReviewFlow.tsx:152 | A star button has the effect `Next` gives it and keeps the invariant. |
| ReviewPicker.ReviewFlow.BackToDashboard | my-app/src/components/ReviewFlow.tsx:24 | Leaves the flow exactly from the list view, which is what `LeavesFlow` says of that button. |

## Left out

- The timer that clears the social-login error after five seconds: it is event-loop behaviour, and the model keeps the message until another handler changes it.
- Rendering, styling, icons and the mock summary text, including the detail view's fixed title and the wizard's fixed step 4 summary.
- The show-password toggle: it affects only how the password input is rendered.
- The setters of the plain controlled inputs (name, ID, password, confirmation, terms) in the second iteration: they are direct writes of the corresponding fields.
- The browser's own input constraints (`required`, `maxLength`, `min`/`max`) and the uncontrolled inputs of wizard steps 2 and 3: the browser enforces these, and the component never reads them.
- The first iteration's name, ID, password, confirmation and terms inputs: they are uncontrolled, and no handler reads them.
- The email input's `type="email"` constraint in both iterations: the browser may block a submit the model accepts, for example one whose address is not well-formed but still ends in `@bu.edu`.
- The review detail view's other buttons (feedback, draft and submit) and its checkboxes and text areas: they have no handlers and hold no state.
- The dashboard, the presentational sub-components of the second login page, and the top-level app: they render or forward callbacks only. The `types` module beside the second login page is not part of this model. Its mode and role unions are taken to be the values the first iteration spells out.
- What happens after `onLogin` or `onBack`: the parent switches screens. The model records a login as an entry of `logins` and a departure as a `leave` result.
- Clicks on buttons the current view does not render, or that are disabled: they are modelled as doing nothing, not as excluded inputs.
- JsText.Utf16Length: strings are sequences of Unicode scalar values, so lone surrogates, which JavaScript strings can hold, are not represented.
