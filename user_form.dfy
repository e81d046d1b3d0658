/**
 * components/CreateUserModal.tsx: the user creation form, its field-by-field
 * validation and its change and close handlers.
 */
module UserForm {
  import opened Wrappers
  import opened Strings
  import opened Forms

  /** The keys of `UserFormData`. */
  datatype Field = FirstName | LastName | Email | Role | Password

  datatype UserFormData = UserFormData(firstName: string, lastName: string, email: string, role: string, password: string)

  /** The form as it opens and as `handleClose` leaves it. */
  const EmptyForm := UserFormData("", "", "", "user", "")

  const FirstNameRequired := "Le prénom est requis"
  const LastNameRequired := "Le nom est requis"
  const EmailRequired := "L'email est requis"
  const EmailInvalid := "Email invalide"
  const PasswordRequired := "Le mot de passe est requis"
  const PasswordTooShort := "Minimum 8 caractères"

  /** `formData[field]`. */
  function Get(form: UserFormData, field: Field): string {
    match field
    case FirstName => form.firstName
    case LastName => form.lastName
    case Email => form.email
    case Role => form.role
    case Password => form.password
  }

  /** `{ ...prev, [field]: value }`: only the named field takes the new value. */
  function With(form: UserFormData, field: Field, value: string): (r: UserFormData)
    ensures Get(r, field) == value
    ensures forall f :: f != field ==> Get(r, f) == Get(form, f)
  {
    match field
    case FirstName => form.(firstName := value)
    case LastName => form.(lastName := value)
    case Email => form.(email := value)
    case Role => form.(role := value)
    case Password => form.(password := value)
  }

  /**
   * `/^[^\s@]+@[^\s@]+\.[^\s@]+$/` matches `s` with its `@` at `i` and the
   * separating `.` at `j`: three non-empty parts, and apart from that one `@`
   * no character is `@` or white space.
   */
  ghost predicate EmailSplitsAt(s: string, i: int, j: int) {
    && 0 < i && i + 1 < j && j + 1 < |s|
    && s[i] == '@' && s[j] == '.'
    && (forall k :: 0 <= k < |s| && k != i ==> s[k] != '@')
    && (forall k :: 0 <= k < |s| ==> !IsSpace(s[k]))
  }

  /** No white space anywhere in `s`. */
  predicate NoSpace(s: string) {
    forall k :: 0 <= k < |s| ==> !IsSpace(s[k])
  }

  /** The position of the first `@`, or `|s|`. */
  function FirstAt(s: string): (i: nat)
    ensures i <= |s|
    ensures forall k :: 0 <= k < i ==> s[k] != '@'
    ensures i < |s| ==> s[i] == '@'
  {
    if s == [] || s[0] == '@' then 0 else 1 + FirstAt(s[1..])
  }

  /** The email test of `validateForm`, decided without a regular expression engine. */
  predicate ValidEmail(s: string) {
    var i := FirstAt(s);
    && NoSpace(s)
    && 0 < i < |s|
    && (forall k :: i < k < |s| ==> s[k] != '@')
    && (exists j :: i + 1 < j < |s| - 1 && s[j] == '.')
  }

  /** `ValidEmail` accepts exactly the strings the pattern matches. */
  lemma ValidEmailMatchesPattern(s: string)
    ensures ValidEmail(s) <==> exists i, j :: EmailSplitsAt(s, i, j)
  {
    if ValidEmail(s) {
      var i := FirstAt(s);
      var j :| i + 1 < j < |s| - 1 && s[j] == '.';
      assert EmailSplitsAt(s, i, j);
    }
    if exists i, j :: EmailSplitsAt(s, i, j) {
      var i, j :| EmailSplitsAt(s, i, j);
      assert FirstAt(s) == i;
    }
  }

  /** An accepted email has one `@`, no white space, and a `.` after the `@` with text on both of its sides. */
  lemma AcceptedEmailShape(s: string)
    requires ValidEmail(s)
    ensures exists i :: 0 < i < |s| && s[i] == '@' && forall k :: 0 <= k < |s| && k != i ==> s[k] != '@'
    ensures NoSpace(s)
    ensures exists i, j :: 0 < i && i + 1 < j && j + 1 < |s| && s[i] == '@' && s[j] == '.'
  {
    ValidEmailMatchesPattern(s);
    var i, j :| EmailSplitsAt(s, i, j);
    assert 0 < i < |s| && s[i] == '@';
  }

  /** A blank email fails the pattern too, so it is always reported one way or the other. */
  lemma BlankEmailFailsPattern(s: string)
    ensures AllSpace(s) ==> !ValidEmail(s)
  {
    if AllSpace(s) && |s| > 0 {
      assert IsSpace(s[0]);
    }
  }

  /**
   * The error map `validateForm` builds, given the outcome of each check: a
   * field is recorded only when it fails, and the emptiness check of the email
   * and of the password comes before the format and length checks.
   */
  function ErrorMap(firstBlank: bool, lastBlank: bool, emailBlank: bool, emailBad: bool,
                    passwordEmpty: bool, passwordShort: bool): (m: map<Field, string>)
    ensures FirstName in m <==> firstBlank
    ensures LastName in m <==> lastBlank
    ensures Email in m <==> emailBlank || emailBad
    ensures Password in m <==> passwordEmpty || passwordShort
    ensures Role !in m
    ensures firstBlank ==> m[FirstName] == FirstNameRequired
    ensures lastBlank ==> m[LastName] == LastNameRequired
    ensures emailBlank ==> m[Email] == EmailRequired
    ensures !emailBlank && emailBad ==> m[Email] == EmailInvalid
    ensures passwordEmpty ==> m[Password] == PasswordRequired
    ensures !passwordEmpty && passwordShort ==> m[Password] == PasswordTooShort
  {
    var m0: map<Field, string> := map[];
    var m1 := if firstBlank then m0[FirstName := FirstNameRequired] else m0;
    var m2 := if lastBlank then m1[LastName := LastNameRequired] else m1;
    var m3 := if emailBlank then m2[Email := EmailRequired] else if emailBad then m2[Email := EmailInvalid] else m2;
    if passwordEmpty then m3[Password := PasswordRequired] else if passwordShort then m3[Password := PasswordTooShort] else m3
  }

  /** `newErrors` filled field by field, in the order `validateForm` checks them. */
  method CollectErrors(firstBlank: bool, lastBlank: bool, emailBlank: bool, emailBad: bool,
                       passwordEmpty: bool, passwordShort: bool) returns (newErrors: map<Field, string>)
    ensures newErrors == ErrorMap(firstBlank, lastBlank, emailBlank, emailBad, passwordEmpty, passwordShort)
  {
    newErrors := map[];
    if firstBlank {
      newErrors := newErrors[FirstName := FirstNameRequired];
    }
    if lastBlank {
      newErrors := newErrors[LastName := LastNameRequired];
    }
    if emailBlank {
      newErrors := newErrors[Email := EmailRequired];
    } else if emailBad {
      newErrors := newErrors[Email := EmailInvalid];
    }
    if passwordEmpty {
      newErrors := newErrors[Password := PasswordRequired];
    } else if passwordShort {
      newErrors := newErrors[Password := PasswordTooShort];
    }
  }

  /** The map has no entry exactly when no check failed. */
  lemma ErrorMapEmpty(firstBlank: bool, lastBlank: bool, emailBlank: bool, emailBad: bool,
                      passwordEmpty: bool, passwordShort: bool)
    ensures |ErrorMap(firstBlank, lastBlank, emailBlank, emailBad, passwordEmpty, passwordShort)| == 0
      <==> !(firstBlank || lastBlank || emailBlank || emailBad || passwordEmpty || passwordShort)
  {
    var m := ErrorMap(firstBlank, lastBlank, emailBlank, emailBad, passwordEmpty, passwordShort);
    if firstBlank { assert FirstName in m; }
    else if lastBlank { assert LastName in m; }
    else if emailBlank || emailBad { assert Email in m; }
    else if passwordEmpty || passwordShort { assert Password in m; }
    else { assert m == map[]; }
  }

  /** The errors `validateForm` reports for a form. */
  function FormErrors(form: UserFormData): (errors: map<Field, string>)
    ensures FirstName in errors <==> AllSpace(form.firstName)
    ensures LastName in errors <==> AllSpace(form.lastName)
    ensures Email in errors <==> !ValidEmail(form.email)
    ensures Password in errors <==> |form.password| < 8
    ensures Role !in errors
  {
    BlankEmailFailsPattern(form.email);
    ErrorMap(AllSpace(form.firstName), AllSpace(form.lastName), AllSpace(form.email),
             !ValidEmail(form.email), form.password == "", |form.password| < 8)
  }

  /** The form is accepted exactly when both names have text, the email matches and the password has 8 characters. */
  predicate Valid(form: UserFormData) {
    && !AllSpace(form.firstName) && !AllSpace(form.lastName)
    && ValidEmail(form.email) && |form.password| >= 8
  }

  lemma NoErrorsIffValid(form: UserFormData)
    ensures |FormErrors(form)| == 0 <==> Valid(form)
  {
    ErrorMapEmpty(AllSpace(form.firstName), AllSpace(form.lastName), AllSpace(form.email),
                  !ValidEmail(form.email), form.password == "", |form.password| < 8);
    BlankEmailFailsPattern(form.email);
  }

  /** A blank email is reported as missing, not as malformed. */
  lemma BlankEmailIsRequired(form: UserFormData)
    requires AllSpace(form.email)
    ensures Email in FormErrors(form) && FormErrors(form)[Email] == EmailRequired
  {
  }

  /** A text email that does not match is reported as malformed. */
  lemma UnmatchedEmailIsInvalid(form: UserFormData)
    requires !AllSpace(form.email) && !ValidEmail(form.email)
    ensures Email in FormErrors(form) && FormErrors(form)[Email] == EmailInvalid
  {
  }

  /** The password is not trimmed: eight spaces pass the length check. */
  lemma SpacesPassword(form: UserFormData)
    requires form.password == "        "
    ensures Password !in FormErrors(form)
  {
  }

  /** The state of the modal: the form and the errors last reported. */
  class CreateUserModal {
    var form: UserFormData
    var errors: map<Field, string>

    constructor ()
      ensures form == EmptyForm && errors == map[]
    {
      form := EmptyForm;
      errors := map[];
    }

    /** `handleChange(field, value)`. */
    method HandleChange(field: Field, value: string)
      modifies this
      ensures form == With(old(form), field, value)
      ensures errors == ClearError(old(errors), field)
    {
      form := With(form, field, value);
      if field in errors && errors[field] != "" {
        errors := errors[field := ""];
      }
    }

    /** `validateForm()`: run each check, rebuild the errors from them and report whether there are none. */
    method ValidateForm() returns (ok: bool)
      modifies this`errors
      ensures errors == FormErrors(form)
      ensures ok <==> Valid(form)
    {
      BlankEmailFailsPattern(form.email);
      var newErrors := CollectErrors(AllSpace(form.firstName), AllSpace(form.lastName), AllSpace(form.email),
                                     !ValidEmail(form.email), form.password == "", |form.password| < 8);
      errors := newErrors;
      NoErrorsIffValid(form);
      ok := |newErrors| == 0;
    }

    /** `handleClose()`: back to the empty form with no errors. */
    method HandleClose()
      modifies this
      ensures form == EmptyForm && errors == map[]
    {
      form := EmptyForm;
      errors := map[];
    }
  }
}
