/**
 * The field rules of the newer signup/login form (`validateForm`): which
 * field gets which message, for a given mode and role. `FormErrors` states the
 * final error record declaratively, one rule per field; `CollectErrors` builds
 * it the way the component does, by assignments in source order, a later one
 * overwriting an earlier one.
 */
module FormValidation {
  import opened JsText
  import opened AuthCommon
  import opened Util

  /** The keys of the error record: "email", "password", "fullName", "idNumber", "confirmPassword", "terms". */
  datatype Key = Email | Password | FullName | IdNumber | ConfirmPassword | Terms

  /** The messages the rules can record; `Text` gives each one's wording. */
  datatype Message =
    | EmailRequired
    | DomainNotAllowed
    | PasswordRequired
    | PasswordTooShort
    | FullNameRequired
    | StudentIdRequired
    | EmployeeIdRequired
    | ConfirmRequired
    | PasswordsDiffer
    | TermsRequired

  function Text(m: Message): string
  {
    match m
    case EmailRequired => "Email is required"
    case DomainNotAllowed => DomainMessage
    case PasswordRequired => "Password is required"
    case PasswordTooShort => "Password must be at least 8 characters"
    case FullNameRequired => "Full name is required"
    case StudentIdRequired => "Student ID is required"
    case EmployeeIdRequired => "Employee ID is required"
    case ConfirmRequired => "Please confirm your password"
    case PasswordsDiffer => "Passwords do not match"
    case TermsRequired => "You must accept the terms to continue"
  }

  /** The controlled fields the rules read. */
  datatype Form = Form(
    email: string,
    password: string,
    fullName: string,
    idNumber: string,
    confirmPassword: string,
    acceptedTerms: bool)

  /** Signup passwords need at least this many UTF-16 code units. */
  const MinPasswordLength: nat := 8

  /** The ID message names a student ID or an employee ID, following the role. */
  function IdRequired(role: Role): (m: Message)
    ensures role == Student ==> Text(m) == "Student ID is required"
    ensures role == Professor ==> Text(m) == "Employee ID is required"
  {
    if role == Student then StudentIdRequired else EmployeeIdRequired
  }

  /** Email rule: at most one message, and none exactly for an `@bu.edu` address. */
  function EmailRule(email: string): (m: Option<Message>)
    ensures m.Some? <==> !IsBuEmail(email)
    ensures m.Some? ==> m.value == if email == "" then EmailRequired else DomainNotAllowed
  {
    if email == "" then Some(EmailRequired)
    else if !EndsWith(email, BuSuffix) then Some(DomainNotAllowed)
    else None
  }

  /**
   * Password rule, as left by the last assignment that fires: outside signup
   * any non-empty password passes; in signup a password shorter than 8 code
   * units, the empty one included, gets the length message.
   */
  function PasswordRule(mode: Mode, password: string): (m: Option<Message>)
    ensures mode != Signup ==> (m.Some? <==> password == "")
    ensures mode != Signup && m.Some? ==> m.value == PasswordRequired
    ensures mode == Signup ==> (m.Some? <==> Utf16Length(password) < MinPasswordLength)
    ensures mode == Signup && m.Some? ==> m.value == PasswordTooShort
    ensures mode == Signup && password == "" ==> m == Some(PasswordTooShort)
  {
    if mode == Signup && Utf16Length(password) < MinPasswordLength then Some(PasswordTooShort)
    else if password == "" then Some(PasswordRequired)
    else None
  }

  /** Name and ID rule: in signup, a value that trims to nothing is reported with `msg`. */
  function RequiredTextRule(mode: Mode, value: string, msg: Message): (m: Option<Message>)
    ensures m.Some? <==> mode == Signup && IsBlank(value)
    ensures m.Some? ==> m.value == msg
  {
    if mode == Signup && Trim(value) == "" then Some(msg) else None
  }

  /** Confirmation rule: in signup the confirmation must be present and equal to the password. */
  function ConfirmRule(mode: Mode, password: string, confirm: string): (m: Option<Message>)
    ensures m.Some? <==> mode == Signup && (confirm == "" || confirm != password)
    ensures m.Some? ==> m.value == if confirm == "" then ConfirmRequired else PasswordsDiffer
  {
    if mode != Signup then None
    else if confirm == "" then Some(ConfirmRequired)
    else if password != confirm then Some(PasswordsDiffer)
    else None
  }

  /** Terms rule: in signup the terms must be accepted. */
  function TermsRule(mode: Mode, accepted: bool): (m: Option<Message>)
    ensures m.Some? <==> mode == Signup && !accepted
    ensures m.Some? ==> m.value == TermsRequired
  {
    if mode == Signup && !accepted then Some(TermsRequired) else None
  }

  /** The rule that decides the entry under key `k`. */
  function RuleFor(k: Key, mode: Mode, role: Role, f: Form): Option<Message>
  {
    match k
    case Email => EmailRule(f.email)
    case Password => PasswordRule(mode, f.password)
    case FullName => RequiredTextRule(mode, f.fullName, FullNameRequired)
    case IdNumber => RequiredTextRule(mode, f.idNumber, IdRequired(role))
    case ConfirmPassword => ConfirmRule(mode, f.password, f.confirmPassword)
    case Terms => TermsRule(mode, f.acceptedTerms)
  }

  /**
   * The error record `validateForm` stores in `fieldErrors`: one entry per
   * field whose rule fires, holding that rule's message. Outside signup only
   * "email" and "password" can appear.
   */
  function FormErrors(mode: Mode, role: Role, f: Form): (errs: map<Key, Message>)
    ensures mode != Signup ==> errs.Keys <= {Email, Password}
    ensures Email in errs <==> !IsBuEmail(f.email)
    ensures mode != Signup ==> (Password in errs <==> f.password == "")
    ensures mode == Signup ==> (Password in errs <==> Utf16Length(f.password) < MinPasswordLength)
  {
    map k: Key | RuleFor(k, mode, role, f).Some? :: RuleFor(k, mode, role, f).value
  }

  /** The record is empty exactly when no field's rule fires. */
  lemma FormErrorsEmptyIffNoRuleFires(mode: Mode, role: Role, f: Form)
    ensures FormErrors(mode, role, f) == map[] <==>
      && EmailRule(f.email).None?
      && PasswordRule(mode, f.password).None?
      && RequiredTextRule(mode, f.fullName, FullNameRequired).None?
      && RequiredTextRule(mode, f.idNumber, IdRequired(role)).None?
      && ConfirmRule(mode, f.password, f.confirmPassword).None?
      && TermsRule(mode, f.acceptedTerms).None?
  {
    var errs := FormErrors(mode, role, f);
    if errs == map[] {
      assert Email !in errs && Password !in errs && FullName !in errs;
      assert IdNumber !in errs && ConfirmPassword !in errs && Terms !in errs;
    } else {
      var k :| k in errs;
      assert RuleFor(k, mode, role, f).Some?;
    }
  }

  /** When the form passes: the record is empty exactly when every rule of the mode is met. */
  lemma FormErrorsEmptyIff(mode: Mode, role: Role, f: Form)
    ensures FormErrors(mode, role, f) == map[] <==>
      && IsBuEmail(f.email)
      && f.password != ""
      && (mode == Signup ==>
            && !IsBlank(f.fullName)
            && !IsBlank(f.idNumber)
            && Utf16Length(f.password) >= MinPasswordLength
            && f.confirmPassword == f.password
            && f.acceptedTerms)
  {
    FormErrorsEmptyIffNoRuleFires(mode, role, f);
  }

  /** `errors` holds `m` under `k`, and nothing under `k` when `m` is None. */
  ghost predicate Holds(errors: map<Key, Message>, k: Key, m: Option<Message>)
  {
    (k in errors <==> m.Some?) && (m.Some? ==> errors[k] == m.value)
  }

  /**
   * `validateForm`'s own construction of the record: the assignments in source
   * order, each writing or overwriting one key.
   */
  method CollectErrors(mode: Mode, role: Role, f: Form) returns (errors: map<Key, Message>)
    ensures errors == FormErrors(mode, role, f)
  {
    errors := map[];

    if f.email == "" {
      errors := errors[Email := EmailRequired];
    } else if !EndsWith(f.email, BuSuffix) {
      errors := errors[Email := DomainNotAllowed];
    }

    if f.password == "" {
      errors := errors[Password := PasswordRequired];
    }
    assert Holds(errors, Email, EmailRule(f.email));
    assert Holds(errors, Password, PasswordRule(Login, f.password));

    if mode == Signup {
      errors := AddSignupErrors(errors, role, f);
    }
    SameRecord(errors, mode, role, f);
  }

  /** `after` has the same entry under `k` as `before`, or the same absence. */
  ghost predicate Agrees(after: map<Key, Message>, before: map<Key, Message>, k: Key)
  {
    (k in after <==> k in before) && (k in before ==> after[k] == before[k])
  }

  /**
   * The signup-only block of `validateForm`, in source order: the name and ID
   * checks, then the password, confirmation and terms checks. The length
   * check overwrites the "required" message an empty password got before.
   */
  method AddSignupErrors(before: map<Key, Message>, role: Role, f: Form) returns (errors: map<Key, Message>)
    requires before.Keys <= {Email, Password}
    requires Holds(before, Password, PasswordRule(Login, f.password))
    ensures Agrees(errors, before, Email)
    ensures Holds(errors, Password, PasswordRule(Signup, f.password))
    ensures Holds(errors, FullName, RequiredTextRule(Signup, f.fullName, FullNameRequired))
    ensures Holds(errors, IdNumber, RequiredTextRule(Signup, f.idNumber, IdRequired(role)))
    ensures Holds(errors, ConfirmPassword, ConfirmRule(Signup, f.password, f.confirmPassword))
    ensures Holds(errors, Terms, TermsRule(Signup, f.acceptedTerms))
  {
    errors := AddIdentityErrors(before, role, f);
    errors := AddCredentialErrors(errors, f);
  }

  /** The name and ID checks: each records its message when the value trims to nothing. */
  method AddIdentityErrors(before: map<Key, Message>, role: Role, f: Form) returns (errors: map<Key, Message>)
    requires FullName !in before && IdNumber !in before
    ensures Agrees(errors, before, Email) && Agrees(errors, before, Password)
    ensures Agrees(errors, before, ConfirmPassword) && Agrees(errors, before, Terms)
    ensures Holds(errors, FullName, RequiredTextRule(Signup, f.fullName, FullNameRequired))
    ensures Holds(errors, IdNumber, RequiredTextRule(Signup, f.idNumber, IdRequired(role)))
  {
    errors := before;
    if Trim(f.fullName) == "" {
      errors := errors[FullName := FullNameRequired];
    }
    if Trim(f.idNumber) == "" {
      errors := errors[IdNumber := IdRequired(role)];
    }
  }

  /**
   * The password length, confirmation and terms checks. Confirmation reports
   * a missing value before a mismatch.
   */
  method AddCredentialErrors(before: map<Key, Message>, f: Form) returns (errors: map<Key, Message>)
    requires ConfirmPassword !in before && Terms !in before
    requires Holds(before, Password, PasswordRule(Login, f.password))
    ensures Agrees(errors, before, Email) && Agrees(errors, before, FullName) && Agrees(errors, before, IdNumber)
    ensures Holds(errors, Password, PasswordRule(Signup, f.password))
    ensures Holds(errors, ConfirmPassword, ConfirmRule(Signup, f.password, f.confirmPassword))
    ensures Holds(errors, Terms, TermsRule(Signup, f.acceptedTerms))
  {
    errors := before;
    if Utf16Length(f.password) < MinPasswordLength {
      errors := errors[Password := PasswordTooShort];
    }

    if f.confirmPassword == "" {
      errors := errors[ConfirmPassword := ConfirmRequired];
    } else if f.password != f.confirmPassword {
      errors := errors[ConfirmPassword := PasswordsDiffer];
    }

    if !f.acceptedTerms {
      errors := errors[Terms := TermsRequired];
    }
  }

  /** A record that holds every rule's outcome is the record `FormErrors` describes. */
  lemma SameRecord(errors: map<Key, Message>, mode: Mode, role: Role, f: Form)
    requires Holds(errors, Email, EmailRule(f.email))
    requires Holds(errors, Password, PasswordRule(mode, f.password))
    requires Holds(errors, FullName, RequiredTextRule(mode, f.fullName, FullNameRequired))
    requires Holds(errors, IdNumber, RequiredTextRule(mode, f.idNumber, IdRequired(role)))
    requires Holds(errors, ConfirmPassword, ConfirmRule(mode, f.password, f.confirmPassword))
    requires Holds(errors, Terms, TermsRule(mode, f.acceptedTerms))
    ensures errors == FormErrors(mode, role, f)
  {
    var expected := FormErrors(mode, role, f);
    forall k ensures Holds(errors, k, RuleFor(k, mode, role, f)) {
      match k
      case Email =>
      case Password =>
      case FullName =>
      case IdNumber =>
      case ConfirmPassword =>
      case Terms =>
    }
    assert errors.Keys == expected.Keys;
  }
}
