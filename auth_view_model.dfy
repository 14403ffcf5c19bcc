/** The form state of the login, registration and change-password screens
    (app/src/main/java/com/example/uinavegacion/ui/viewmodel/AuthViewModel.kt):
    the field handlers, which store a value together with its validation
    error, and the rules that enable each form's submit button. */
module AuthForms {
  import opened Wrappers
  import opened Text
  import opened Validators
  import opened PhoneFormat

  // ----- nickname filter (`onNameChange`) -----

  predicate IsNicknameChar(c: char) { IsLetterOrDigit(c) || c == '_' }

  predicate NicknameOnly(s: string) {
    forall i :: 0 <= i < |s| ==> IsNicknameChar(s[i])
  }

  /** The letters, digits and underscores of `value`, in order. */
  function FilterNickname(value: string): (r: string)
    ensures |r| <= |value|
    ensures NicknameOnly(r)
    ensures forall c :: IsNicknameChar(c) ==> multiset(r)[c] == multiset(value)[c]
    ensures forall c :: !IsNicknameChar(c) ==> multiset(r)[c] == 0
  {
    if value == [] then []
    else
      assert value == [value[0]] + value[1..];
      (if IsNicknameChar(value[0]) then [value[0]] else []) + FilterNickname(value[1..])
  }

  /** The filter changes a value exactly when it holds some other character. */
  lemma {:induction false} FilterNicknameFixedPoint(value: string)
    ensures FilterNickname(value) == value <==> NicknameOnly(value)
  {
    if value != [] {
      FilterNicknameFixedPoint(value[1..]);
      if NicknameOnly(value) {
        assert NicknameOnly(value[1..]);
      }
    }
  }

  /** The filter works character by character: a character is kept alone
      exactly when it is a letter, a digit or an underscore ... */
  lemma FilterNicknameChar(c: char)
    ensures FilterNickname([c]) == if IsNicknameChar(c) then [c] else []
  {
    assert [c][1..] == [];
  }

  lemma ConcatAssociative(a: string, b: string, c: string)
    ensures a + (b + c) == (a + b) + c
  {
  }

  /** ... and filtering a concatenation concatenates the filtered parts, so
      the kept characters stay in their order. */
  lemma {:induction false} FilterNicknameConcat(a: string, b: string)
    ensures FilterNickname(a + b) == FilterNickname(a) + FilterNickname(b)
  {
    if a == [] {
      assert a + b == b;
    } else {
      var head := if IsNicknameChar(a[0]) then [a[0]] else [];
      assert (a + b)[0] == a[0];
      assert (a + b)[1..] == a[1..] + b;
      assert FilterNickname(a + b) == head + FilterNickname(a[1..] + b);
      FilterNicknameConcat(a[1..], b);
      assert FilterNickname(a) == head + FilterNickname(a[1..]);
      ConcatAssociative(head, FilterNickname(a[1..]), FilterNickname(b));
    }
  }

  lemma FilterNicknameIdempotent(value: string)
    ensures FilterNickname(FilterNickname(value)) == FilterNickname(value)
  {
    FilterNicknameFixedPoint(FilterNickname(value));
  }

  // ----- form states -----

  datatype LoginUiState = LoginUiState(
    email: string, pass: string,
    emailError: Option<string>, passError: Option<string>,
    isSubmitting: bool, canSubmit: bool, success: bool,
    errorMsg: Option<string>, isAdmin: bool)

  datatype RegisterUiState = RegisterUiState(
    name: string, email: string, phone: string, pass: string, confirm: string,
    nameError: Option<string>, emailError: Option<string>, phoneError: Option<string>,
    passError: Option<string>, confirmError: Option<string>,
    isSubmitting: bool, canSubmit: bool, success: bool, errorMsg: Option<string>)

  datatype ChangePasswordUiState = ChangePasswordUiState(
    currentPassword: string, newPassword: string, confirmPassword: string,
    currentPasswordError: Option<string>, newPasswordError: Option<string>,
    confirmPasswordError: Option<string>,
    isSubmitting: bool, canSubmit: bool, success: bool,
    errorMsg: Option<string>, successMsg: Option<string>)

  const INITIAL_LOGIN := LoginUiState("", "", None, None, false, false, false, None, false)
  const INITIAL_REGISTER := RegisterUiState("", "", "", "", "", None, None, None, None, None,
    false, false, false, None)
  const INITIAL_CHANGE_PASSWORD := ChangePasswordUiState("", "", "", None, None, None,
    false, false, false, None, None)

  // ----- submit rules -----

  /** "Entrar" is enabled when the email has no error and both fields are filled. */
  predicate LoginCanSubmit(s: LoginUiState) {
    s.emailError.None? && !IsBlank(s.email) && !IsBlank(s.pass)
  }

  /** "Registrar" is enabled when no field has an error and all five are filled. */
  predicate RegisterCanSubmit(s: RegisterUiState) {
    && s.nameError.None? && s.emailError.None? && s.phoneError.None?
    && s.passError.None? && s.confirmError.None?
    && !IsBlank(s.name) && !IsBlank(s.email) && !IsBlank(s.phone)
    && !IsBlank(s.pass) && !IsBlank(s.confirm)
  }

  /** The change-password form also asks that the new password be confirmed
      and differ from the current one. */
  predicate ChangePasswordCanSubmit(s: ChangePasswordUiState) {
    && s.currentPasswordError.None? && s.newPasswordError.None? && s.confirmPasswordError.None?
    && !IsBlank(s.currentPassword) && !IsBlank(s.newPassword) && !IsBlank(s.confirmPassword)
    && s.newPassword == s.confirmPassword
    && s.currentPassword != s.newPassword
  }

  /** What the registration handlers maintain: every field the model can
      validate carries the error of its current value (or is still empty
      and untouched), the stored phone is a formatted number and the name
      went through the nickname filter. */
  predicate RegisterFieldsChecked(s: RegisterUiState) {
    && NicknameOnly(s.name)
    && s.phone == FormatChileanPhone(s.phone)
    && (s.phoneError == ValidatePhoneDigitsOnly(s.phone) || (s.phone == "" && s.phoneError.None?))
    && (s.passError == ValidateStrongPasswordAsWritten(s.pass) || (s.pass == "" && s.passError.None?))
    && (s.confirmError == ValidateConfirm(s.pass, s.confirm)
        || (s.pass == "" && s.confirm == "" && s.confirmError.None?))
  }

  predicate ChangePasswordFieldsChecked(s: ChangePasswordUiState) {
    && s.currentPasswordError.None?
    && (s.newPasswordError == ValidateStrongPasswordAsWritten(s.newPassword)
        || (s.newPassword == "" && s.newPasswordError.None?))
    && (s.confirmPasswordError == ValidateConfirm(s.newPassword, s.confirmPassword)
        || (s.newPassword == "" && s.confirmPassword == "" && s.confirmPasswordError.None?))
  }

  /** A registration the button lets through has a nickname, a formatted
      Chilean mobile number "+56 9 DDDD DDDD", a password the validator as
      written accepts (eight characters or more, an upper-case letter, a
      lower-case letter, a digit, no space) and a matching confirmation. */
  lemma RegisterSubmittable(s: RegisterUiState)
    requires RegisterFieldsChecked(s) && s.canSubmit == RegisterCanSubmit(s) && s.canSubmit
    ensures NicknameOnly(s.name) && !IsBlank(s.name)
    ensures ValidatePhoneDigitsOnly(s.phone).None?
    ensures FullShape(s.phone) && |DigitsOf(s.phone)| == 11 && DigitsOf(s.phone)[..3] == "569"
    ensures ValidateStrongPasswordAsWritten(s.pass).None?
    ensures s.confirm == s.pass
  {
    assert s.phone != "";
    FormattedPhoneValid(s.phone);
    FormatKeepsDigits(s.phone);
    FormatFullShape(s.phone);
  }

  /** A password change the button lets through has a new password the
      validator as written accepts, confirmed, and different from the
      current one. */
  lemma ChangePasswordSubmittable(s: ChangePasswordUiState)
    requires ChangePasswordFieldsChecked(s) && s.canSubmit == ChangePasswordCanSubmit(s) && s.canSubmit
    ensures ValidateStrongPasswordAsWritten(s.newPassword).None?
    ensures s.confirmPassword == s.newPassword && s.currentPassword != s.newPassword
    ensures !IsBlank(s.currentPassword)
  {
    assert s.newPassword != "";
  }

  /** The symbol check that never fires shows through the form: any
      registration the button lets through still does so with the password
      and confirmation "Abcdefg1", which has no symbol. */
  lemma SymbolLessRegistrationSubmittable(s: RegisterUiState)
    requires RegisterFieldsChecked(s) && RegisterCanSubmit(s)
    ensures var t := s.(pass := "Abcdefg1", confirm := "Abcdefg1",
      passError := ValidateStrongPasswordAsWritten("Abcdefg1"),
      confirmError := ValidateConfirm("Abcdefg1", "Abcdefg1"));
      RegisterFieldsChecked(t) && RegisterCanSubmit(t) && !HasSymbol(t.pass)
  {
    var p := "Abcdefg1";
    PasswordWithoutSymbolAccepted();
    assert ValidateConfirm(p, p) == None;
    var t := s.(pass := p, confirm := p, passError := None, confirmError := None);
    assert RegisterFieldsChecked(t);
  }

  /** The three form states of `AuthViewModel`. The email and nickname
      validators are not part of this model: the handlers that use them
      take the validator as a parameter. */
  class AuthViewModel {
    var login: LoginUiState
    var register: RegisterUiState
    var changePassword: ChangePasswordUiState

    ghost predicate Valid()
      reads this
    {
      && login.canSubmit == LoginCanSubmit(login)
      && register.canSubmit == RegisterCanSubmit(register)
      && RegisterFieldsChecked(register)
      && changePassword.canSubmit == ChangePasswordCanSubmit(changePassword)
      && ChangePasswordFieldsChecked(changePassword)
    }

    constructor ()
      ensures Valid()
      ensures login == INITIAL_LOGIN && register == INITIAL_REGISTER
      ensures changePassword == INITIAL_CHANGE_PASSWORD
    {
      login := INITIAL_LOGIN;
      register := INITIAL_REGISTER;
      changePassword := INITIAL_CHANGE_PASSWORD;
    }

    // ----- login -----

    method RecomputeLoginCanSubmit()
      modifies this
      ensures login == old(login).(canSubmit := LoginCanSubmit(old(login)))
      ensures register == old(register) && changePassword == old(changePassword)
    {
      var s := login;
      var can := s.emailError.None? && !IsBlank(s.email) && !IsBlank(s.pass);
      login := login.(canSubmit := can);
    }

    method OnLoginEmailChange(value: string, validateEmail: string -> Option<string>)
      requires Valid()
      modifies this
      ensures Valid()
      ensures login == old(login).(email := value, emailError := validateEmail(value),
        canSubmit := login.canSubmit)
      ensures register == old(register) && changePassword == old(changePassword)
    {
      login := login.(email := value, emailError := validateEmail(value));
      RecomputeLoginCanSubmit();
    }

    method OnLoginPassChange(value: string)
      requires Valid()
      modifies this
      ensures Valid()
      ensures login == old(login).(pass := value, canSubmit := login.canSubmit)
      ensures register == old(register) && changePassword == old(changePassword)
    {
      login := login.(pass := value);
      RecomputeLoginCanSubmit();
    }

    // ----- registration -----

    method RecomputeRegisterCanSubmit()
      modifies this
      ensures register == old(register).(canSubmit := RegisterCanSubmit(old(register)))
      ensures login == old(login) && changePassword == old(changePassword)
    {
      var s := register;
      var noErrors := s.nameError.None? && s.emailError.None? && s.phoneError.None?
        && s.passError.None? && s.confirmError.None?;
      var filled := !IsBlank(s.name) && !IsBlank(s.email) && !IsBlank(s.phone)
        && !IsBlank(s.pass) && !IsBlank(s.confirm);
      register := register.(canSubmit := noErrors && filled);
    }

    method OnNameChange(value: string, validateNickname: string -> Option<string>)
      requires Valid()
      modifies this
      ensures Valid()
      ensures register == old(register).(name := FilterNickname(value),
        nameError := validateNickname(FilterNickname(value)), canSubmit := register.canSubmit)
      ensures login == old(login) && changePassword == old(changePassword)
    {
      var filtered := FilterNickname(value);
      register := register.(name := filtered, nameError := validateNickname(filtered));
      RecomputeRegisterCanSubmit();
    }

    method OnRegisterEmailChange(value: string, validateEmail: string -> Option<string>)
      requires Valid()
      modifies this
      ensures Valid()
      ensures register == old(register).(email := value, emailError := validateEmail(value),
        canSubmit := register.canSubmit)
      ensures login == old(login) && changePassword == old(changePassword)
    {
      register := register.(email := value, emailError := validateEmail(value));
      RecomputeRegisterCanSubmit();
    }

    /** The phone is stored formatted, with the error of the formatted value. */
    method OnPhoneChange(value: string)
      requires Valid()
      modifies this
      ensures Valid()
      ensures register == old(register).(phone := FormatChileanPhone(value),
        phoneError := ValidatePhoneDigitsOnly(FormatChileanPhone(value)),
        canSubmit := register.canSubmit)
      ensures login == old(login) && changePassword == old(changePassword)
    {
      var formatted := FormatChileanPhone(value);
      FormatIdempotent(value);
      register := register.(phone := formatted, phoneError := ValidatePhoneDigitsOnly(formatted));
      RecomputeRegisterCanSubmit();
    }

    /** A new password is validated, and the confirmation is checked again
        against it. */
    method OnRegisterPassChange(value: string)
      requires Valid()
      modifies this
      ensures Valid()
      ensures register == old(register).(pass := value, passError := ValidateStrongPasswordAsWritten(value),
        confirmError := ValidateConfirm(value, old(register).confirm),
        canSubmit := register.canSubmit)
      ensures login == old(login) && changePassword == old(changePassword)
    {
      register := register.(pass := value, passError := ValidateStrongPasswordAsWritten(value));
      register := register.(confirmError := ValidateConfirm(register.pass, register.confirm));
      RecomputeRegisterCanSubmit();
    }

    method OnConfirmChange(value: string)
      requires Valid()
      modifies this
      ensures Valid()
      ensures register == old(register).(confirm := value,
        confirmError := ValidateConfirm(old(register).pass, value), canSubmit := register.canSubmit)
      ensures login == old(login) && changePassword == old(changePassword)
    {
      register := register.(confirm := value, confirmError := ValidateConfirm(register.pass, value));
      RecomputeRegisterCanSubmit();
    }

    // ----- change password -----

    method RecomputeChangePasswordCanSubmit()
      modifies this
      ensures changePassword == old(changePassword).(
        canSubmit := ChangePasswordCanSubmit(old(changePassword)))
      ensures login == old(login) && register == old(register)
    {
      var s := changePassword;
      var noErrors := s.currentPasswordError.None? && s.newPasswordError.None?
        && s.confirmPasswordError.None?;
      var filled := !IsBlank(s.currentPassword) && !IsBlank(s.newPassword)
        && !IsBlank(s.confirmPassword);
      var passwordsMatch := s.newPassword == s.confirmPassword;
      var differentPasswords := s.currentPassword != s.newPassword;
      changePassword := changePassword.(
        canSubmit := noErrors && filled && passwordsMatch && differentPasswords);
    }

    method OnCurrentPasswordChange(value: string)
      requires Valid()
      modifies this
      ensures Valid()
      ensures changePassword == old(changePassword).(currentPassword := value,
        currentPasswordError := None, canSubmit := changePassword.canSubmit)
      ensures login == old(login) && register == old(register)
    {
      changePassword := changePassword.(currentPassword := value, currentPasswordError := None);
      RecomputeChangePasswordCanSubmit();
    }

    method OnNewPasswordChange(value: string)
      requires Valid()
      modifies this
      ensures Valid()
      ensures changePassword == old(changePassword).(newPassword := value,
        newPasswordError := ValidateStrongPasswordAsWritten(value),
        confirmPasswordError := ValidateConfirm(value, old(changePassword).confirmPassword),
        canSubmit := changePassword.canSubmit)
      ensures login == old(login) && register == old(register)
    {
      changePassword := changePassword.(newPassword := value,
        newPasswordError := ValidateStrongPasswordAsWritten(value),
        confirmPasswordError := ValidateConfirm(value, changePassword.confirmPassword));
      RecomputeChangePasswordCanSubmit();
    }

    method OnConfirmPasswordChange(value: string)
      requires Valid()
      modifies this
      ensures Valid()
      ensures changePassword == old(changePassword).(confirmPassword := value,
        confirmPasswordError := ValidateConfirm(old(changePassword).newPassword, value),
        canSubmit := changePassword.canSubmit)
      ensures login == old(login) && register == old(register)
    {
      changePassword := changePassword.(confirmPassword := value,
        confirmPasswordError := ValidateConfirm(changePassword.newPassword, value));
      RecomputeChangePasswordCanSubmit();
    }
  }
}
