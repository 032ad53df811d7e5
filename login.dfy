/**
 * The sign-in form: its validation, which fills an error list field by
 * field, the field edits, and the submit.
 */
module Login {
  import opened Common
  import opened Forms

  /** The form is acceptable: an e-mail the pattern accepts and a password of at least six characters. */
  predicate LoginOk(formData: map<string, string>) {
    EmailLike(Field(formData, "email")) && |Field(formData, "password")| >= 6
  }

  /**
   * `validateForm`: the error list it builds. The e-mail is first required,
   * then checked against the pattern; the password is first required, then
   * checked for length. The form is valid exactly when the list is empty.
   */
  method ValidateForm(formData: map<string, string>) returns (errors: map<string, string>)
    ensures "email" in errors <==> !EmailLike(Field(formData, "email"))
    ensures "email" in errors ==>
      errors["email"] == if Field(formData, "email") == "" then EmailRequired else EmailInvalid
    ensures "password" in errors <==> |Field(formData, "password")| < 6
    ensures "password" in errors ==>
      errors["password"] == if Field(formData, "password") == "" then PasswordRequired else PasswordTooShort
    ensures errors.Keys <= {"email", "password"}
    ensures errors == map[] <==> LoginOk(formData)
  {
    errors := map[];
    var email := Field(formData, "email");
    if email == "" {
      errors := errors["email" := EmailRequired];
    } else if !EmailLike(email) {
      errors := errors["email" := EmailInvalid];
    }
    var password := Field(formData, "password");
    if password == "" {
      errors := errors["password" := PasswordRequired];
    } else if |password| < 6 {
      errors := errors["password" := PasswordTooShort];
    }
    if errors == map[] {
      assert "email" !in errors && "password" !in errors;
    } else {
      assert "email" in errors || "password" in errors;
    }
  }

  /** The message shown when the sign-in call throws. */
  const LoginFailed := "Đăng nhập thất bại. Vui lòng thử lại."

  class LoginPage {
    var formData: map<string, string>
    var errors: map<string, string>
    var loading: bool

    constructor ()
      ensures formData == map["email" := "", "password" := ""] && errors == map[] && !loading
    {
      formData := map["email" := "", "password" := ""];
      errors := map[];
      loading := false;
    }

    /** `handleChange`: the named field takes the value, and only that field's error is cleared. */
    method Change(name: string, value: string)
      modifies this
      ensures formData == old(formData)[name := value]
      ensures errors == ClearError(old(errors), name)
      ensures loading == old(loading)
    {
      formData := formData[name := value];
      errors := ClearError(errors, name);
    }

    /**
     * `handleSubmit`: an invalid form shows its errors and sends nothing; a
     * valid one is sent, and the visitor goes to the home page unless the
     * call throws, in which case a general error is shown.
     */
    method Submit(reply: AuthReply) returns (nav: Option<string>)
      modifies this
      ensures nav.Some? <==> LoginOk(old(formData)) && reply.AuthOk?
      ensures nav.Some? ==> nav.value == "/"
      ensures !LoginOk(old(formData)) ==> errors != map[] && errors.Keys <= {"email", "password"}
      ensures LoginOk(old(formData)) && reply.AuthOk? ==> errors == map[]
      ensures LoginOk(old(formData)) && reply.AuthThrew? ==> errors == map["general" := LoginFailed + reply.error]
      ensures formData == old(formData)
      ensures LoginOk(old(formData)) ==> !loading
      ensures !LoginOk(old(formData)) ==> loading == old(loading)
    {
      var newErrors := ValidateForm(formData);
      errors := newErrors;
      if newErrors != map[] {
        return None;
      }
      loading := true;
      if reply.AuthOk? {
        nav := Some("/");
      } else {
        errors := map["general" := LoginFailed + reply.error];
        nav := None;
      }
      loading := false;
    }
  }
}
