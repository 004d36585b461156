/** The registration page: its form state, the password check and the submit gate. */
module RegisterPage {
  import opened Common
  import opened Text

  const MISMATCH := "Passwords do not match"
  const TOO_SHORT := "Password must be at least 8 characters long"
  const TOO_WEAK := "Password must contain at least one uppercase letter, one lowercase letter, one number, and one special character"

  /** `[@$!%*?&]` */
  predicate IsSpecial(c: char) {
    c == '@' || c == '$' || c == '!' || c == '%' || c == '*' || c == '?' || c == '&'
  }

  /** `[A-Za-z\d@$!%*?&]` */
  predicate IsPasswordChar(c: char) {
    IsAlnum(c) || IsSpecial(c)
  }

  /** The password policy
      `^(?=.*[a-z])(?=.*[A-Z])(?=.*\d)(?=.*[@$!%*?&])[A-Za-z\d@$!%*?&]{8,}$`:
      each look-ahead asks for one character of its class somewhere, and the body asks that
      every character is allowed and that there are at least eight. */
  predicate StrongPassword(p: string) {
    && (exists i :: 0 <= i < |p| && IsLower(p[i]))
    && (exists i :: 0 <= i < |p| && IsUpper(p[i]))
    && (exists i :: 0 <= i < |p| && IsDigit(p[i]))
    && (exists i :: 0 <= i < |p| && IsSpecial(p[i]))
    && (forall i :: 0 <= i < |p| ==> IsPasswordChar(p[i]))
    && |p| >= 8
  }

  /** The message `validatePassword` shows, or `None` when it returns true. It checks
      that the two fields match, then the length, then the policy. */
  function PasswordProblem(password: string, confirm: string): (r: Option<string>)
    ensures r.None? <==> password == confirm && StrongPassword(password)
    ensures password != confirm ==> r == Some(MISMATCH)
    ensures password == confirm && JsLength(password) < 8 ==> r == Some(TOO_SHORT)
    ensures password == confirm && JsLength(password) >= 8 && !StrongPassword(password) ==>
      r == Some(TOO_WEAK)
    ensures r.Some? ==> r.value in {MISMATCH, TOO_SHORT, TOO_WEAK}
  {
    if password != confirm then Some(MISMATCH)
    else if JsLength(password) < 8 then Some(TOO_SHORT)
    else if !StrongPassword(password) then Some(TOO_WEAK)
    else None
  }

  /** The length check is implied by the policy: an allowed password is plain ASCII, so its
      JavaScript length is its character count. */
  lemma StrongIsWithoutLengthCheck(p: string)
    ensures StrongPassword(p) ==> JsLength(p) == |p| >= 8
  {
    if StrongPassword(p) {
      JsLengthAscii(p);
    }
  }

  /** The complexity message is shown only for matching passwords of length 8 or more. */
  lemma WeakMessageOnlyWhenLongEnough(password: string, confirm: string)
    requires PasswordProblem(password, confirm) == Some(TOO_WEAK)
    ensures password == confirm && JsLength(password) >= 8 && !StrongPassword(password)
  {
  }

  /** The four inputs of the form, by their `name` attribute. */
  datatype Field = Name | Email | Password | ConfirmPassword

  datatype FormData = FormData(name: string, email: string, password: string, confirmPassword: string)

  function Get(f: FormData, field: Field): string {
    match field
    case Name => f.name
    case Email => f.email
    case Password => f.password
    case ConfirmPassword => f.confirmPassword
  }

  /** `{ ...prev, [name]: value }` */
  function Put(f: FormData, field: Field, value: string): (g: FormData)
    ensures Get(g, field) == value
    ensures forall other :: other != field ==> Get(g, other) == Get(f, other)
  {
    match field
    case Name => f.(name := value)
    case Email => f.(email := value)
    case Password => f.(password := value)
    case ConfirmPassword => f.(confirmPassword := value)
  }

  /** What `register` is called with. */
  datatype RegisterCall = RegisterCall(name: string, email: string, password: string)

  class RegisterForm {
    var formData: FormData
    var passwordError: string

    constructor ()
      ensures formData == FormData("", "", "", "") && passwordError == ""
    {
      formData := FormData("", "", "", "");
      passwordError := "";
    }

    /** `handleChange`: only the named field takes the new value; editing either password
        field also clears the password error. */
    method HandleChange(field: Field, value: string)
      modifies this
      ensures formData == Put(old(formData), field, value)
      ensures passwordError == if field == Password || field == ConfirmPassword then "" else old(passwordError)
    {
      formData := Put(formData, field, value);
      if field == Password || field == ConfirmPassword {
        passwordError := "";
      }
    }

    /** `validatePassword`: on a failure it shows the message; on success it leaves the
        displayed error as it was. */
    method ValidatePassword() returns (ok: bool)
      modifies this`passwordError
      ensures ok <==> formData.password == formData.confirmPassword && StrongPassword(formData.password)
      ensures passwordError == match PasswordProblem(formData.password, formData.confirmPassword)
        case None => old(passwordError)
        case Some(m) => m
    {
      if formData.password != formData.confirmPassword {
        passwordError := MISMATCH;
        return false;
      } else if JsLength(formData.password) < 8 {
        passwordError := TOO_SHORT;
        return false;
      } else if !StrongPassword(formData.password) {
        passwordError := TOO_WEAK;
        return false;
      }
      ok := true;
    }

    /** `handleSubmit`: `register` is called, with the form's name, e-mail and password,
        only when the password check passes. */
    method HandleSubmit() returns (call: Option<RegisterCall>)
      modifies this`passwordError
      ensures call.Some? <==> PasswordProblem(formData.password, formData.confirmPassword).None?
      ensures call.Some? ==> call.value == RegisterCall(formData.name, formData.email, formData.password)
      ensures passwordError == match PasswordProblem(formData.password, formData.confirmPassword)
        case None => old(passwordError)
        case Some(m) => m
    {
      var ok := ValidatePassword();
      if !ok {
        return None;
      }
      call := Some(RegisterCall(formData.name, formData.email, formData.password));
    }
  }
}
