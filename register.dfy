/**
 * The sign-up form: its validation, which fills an error list field by
 * field, the field edits, and the submit.
 */
module Register {
  import opened Common
  import opened Forms

  const NameRequired := "Tên là bắt buộc"
  const ConfirmRequired := "Xác nhận mật khẩu là bắt buộc"
  const ConfirmMismatch := "Mật khẩu xác nhận không khớp"

  /**
   * The form is acceptable: a name, an e-mail the pattern accepts, a
   * password of at least six characters, and the same password again.
   */
  predicate RegisterOk(formData: map<string, string>) {
    Field(formData, "name") != "" && EmailLike(Field(formData, "email"))
    && |Field(formData, "password")| >= 6 && Field(formData, "confirmPassword") == Field(formData, "password")
  }

  /**
   * `validateForm`: the error list it builds, one entry per failing field.
   * Each field is first required; then the e-mail is checked against the
   * pattern, the password for length, and the confirmation for equality.
   * The form is valid exactly when the list is empty.
   */
  method ValidateForm(formData: map<string, string>) returns (errors: map<string, string>)
    ensures "name" in errors <==> Field(formData, "name") == ""
    ensures "name" in errors ==> errors["name"] == NameRequired
    ensures "email" in errors <==> !EmailLike(Field(formData, "email"))
    ensures "email" in errors ==>
      errors["email"] == if Field(formData, "email") == "" then EmailRequired else EmailInvalid
    ensures "password" in errors <==> |Field(formData, "password")| < 6
    ensures "password" in errors ==>
      errors["password"] == if Field(formData, "password") == "" then PasswordRequired else PasswordTooShort
    ensures "confirmPassword" in errors <==>
      Field(formData, "confirmPassword") == "" || Field(formData, "confirmPassword") != Field(formData, "password")
    ensures "confirmPassword" in errors ==>
      errors["confirmPassword"] == if Field(formData, "confirmPassword") == "" then ConfirmRequired else ConfirmMismatch
    ensures errors.Keys <= {"name", "email", "password", "confirmPassword"}
    ensures errors == map[] <==> RegisterOk(formData)
  {
    errors := map[];
    var name := Field(formData, "name");
    if name == "" {
      errors := errors["name" := NameRequired];
    }
    var email := Field(formData, "email");
    if email == "" {
      errors := errors["email" := EmailRequired];
    } else if !EmailLike(email) {
      errors := errors["email" := EmailInvalid];
    }
    var password := Field(formData, "password");
    if password == "" {
      errors := errors["password" := PasswordRequired];
    } else if |password| < 6 {
      errors := errors["password" := PasswordTooShort];
    }
    var confirm := Field(formData, "confirmPassword");
    if confirm == "" {
      errors := errors["confirmPassword" := ConfirmRequired];
    } else if password != confirm {
      errors := errors["confirmPassword" := ConfirmMismatch];
    }
    if errors == map[] {
      assert "name" !in errors && "email" !in errors && "password" !in errors && "confirmPassword" !in errors;
    } else {
      assert "name" in errors || "email" in errors || "password" in errors || "confirmPassword" in errors;
    }
  }

  /** A confirmation that differs from the password is refused whatever else the form holds. */
  lemma MismatchRefused(formData: map<string, string>)
    requires Field(formData, "confirmPassword") != Field(formData, "password")
    ensures !RegisterOk(formData)
  {
  }

  /** The message shown when the sign-up call throws. */
  const RegisterFailed := "Đăng ký thất bại. Vui lòng thử lại."

  class RegisterPage {
    var formData: map<string, string>
    var errors: map<string, string>
    var loading: bool

    constructor ()
      ensures formData == map["name" := "", "email" := "", "password" := "", "confirmPassword" := ""]
      ensures errors == map[] && !loading
    {
      formData := map["name" := "", "email" := "", "password" := "", "confirmPassword" := ""];
      errors := map[];
      loading := false;
    }

    /** `handleChange`: the named field takes the value, and only that field's error is cleared. */
    method Change(name: string, value: string)
      modifies this
      ensures formData == old(formData)[name := value]
      ensures errors == ClearError(old(errors), name)
      ensures loading == old(loading)
    {
      formData := formData[name := value];
      errors := ClearError(errors, name);
    }

    /**
     * `handleSubmit`: an invalid form shows its errors and sends nothing; a
     * valid one is sent, and the visitor goes to the sign-in page unless the
     * call throws, in which case a general error is shown.
     */
    method Submit(reply: AuthReply) returns (nav: Option<string>)
      modifies this
      ensures nav.Some? <==> RegisterOk(old(formData)) && reply.AuthOk?
      ensures nav.Some? ==> nav.value == "/auth/login"
      ensures !RegisterOk(old(formData)) ==>
        errors != map[] && errors.Keys <= {"name", "email", "password", "confirmPassword"}
      ensures RegisterOk(old(formData)) && reply.AuthOk? ==> errors == map[]
      ensures RegisterOk(old(formData)) && reply.AuthThrew? ==> errors == map["general" := RegisterFailed + reply.error]
      ensures formData == old(formData)
      ensures RegisterOk(old(formData)) ==> !loading
      ensures !RegisterOk(old(formData)) ==> loading == old(loading)
    {
      var newErrors := ValidateForm(formData);
      errors := newErrors;
      if newErrors != map[] {
        return None;
      }
      loading := true;
      if reply.AuthOk? {
        nav := Some("/auth/login");
      } else {
        errors := map["general" := RegisterFailed + reply.error];
        nav := None;
      }
      loading := false;
    }
  }
}
