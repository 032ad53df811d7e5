/**
 * The profile page: the profile and password forms with their validation,
 * the avatar picker and its size limit, the field edits, what a successful
 * submit does to the page, and the user name shown.
 * The signed-in user and the form data are objects of string fields.
 */
module Profile {
  import opened Common
  import opened Forms

  const FullNameRequired := "Họ tên là bắt buộc"
  const PhoneInvalid := "Số điện thoại không hợp lệ"
  const CurrentPasswordRequired := "Mật khẩu hiện tại là bắt buộc"
  const NewPasswordRequired := "Mật khẩu mới là bắt buộc"
  const ConfirmMismatch := "Xác nhận mật khẩu không khớp"
  const AvatarTooLarge := "Kích thước file không được vượt quá 1MB"
  const ProfileSaved := "Cập nhật thông tin thành công!"
  const PasswordChanged := "Đổi mật khẩu thành công!"
  const ProfileSaveFailed := "Có lỗi xảy ra khi cập nhật thông tin"
  const PasswordChangeFailed := "Có lỗi xảy ra khi đổi mật khẩu"

  /** The largest avatar accepted, in bytes: 1 MB. */
  const AvatarLimit := 1024 * 1024

  /** `/^[0-9]{10,11}$/.test(phone)`: ten or eleven digits and nothing else. */
  predicate PhoneOk(phone: string) {
    10 <= |phone| <= 11 && AllDigits(phone)
  }

  /**
   * The profile form is acceptable: a name and an e-mail that are not blank,
   * an e-mail the pattern accepts, and a phone that is empty or well formed.
   */
  predicate ProfileOk(formData: map<string, string>) {
    !Blank(Field(formData, "fullName")) && EmailLike(Field(formData, "email"))
    && (Field(formData, "phone") == "" || PhoneOk(Field(formData, "phone")))
  }

  /** An e-mail the pattern accepts is never blank, so the pattern alone decides the e-mail field. */
  lemma EmailLikeNotBlank(s: string)
    requires EmailLike(s)
    ensures !Blank(s)
  {
    var at, dot :| 0 <= at < |s| && 0 <= dot < |s| && EmailAt(s, at, dot);
    assert !IsSpace(s[at]);
  }

  /**
   * `validateProfileForm`: the error list it builds. Name and e-mail are
   * required after trimming; the e-mail must then match the pattern; a
   * non-empty phone must be ten or eleven digits.
   */
  method ValidateProfileForm(formData: map<string, string>) returns (errors: map<string, string>)
    ensures "fullName" in errors <==> Blank(Field(formData, "fullName"))
    ensures "fullName" in errors ==> errors["fullName"] == FullNameRequired
    ensures "email" in errors <==> !EmailLike(Field(formData, "email"))
    ensures "email" in errors ==>
      errors["email"] == if Blank(Field(formData, "email")) then EmailRequired else EmailInvalid
    ensures "phone" in errors <==> Field(formData, "phone") != "" && !PhoneOk(Field(formData, "phone"))
    ensures "phone" in errors ==> errors["phone"] == PhoneInvalid
    ensures errors.Keys <= {"fullName", "email", "phone"}
    ensures errors == map[] <==> ProfileOk(formData)
  {
    errors := map[];
    var fullName, email, phone := Field(formData, "fullName"), Field(formData, "email"), Field(formData, "phone");
    // `x.trim()` is empty exactly when `x` is blank (Common.TrimProperties).
    if Blank(fullName) {
      errors := errors["fullName" := FullNameRequired];
    }
    if Blank(email) {
      errors := errors["email" := EmailRequired];
    } else if !EmailLike(email) {
      errors := errors["email" := EmailInvalid];
    }
    if EmailLike(email) {
      EmailLikeNotBlank(email);
    }
    if phone != "" && !PhoneOk(phone) {
      errors := errors["phone" := PhoneInvalid];
    }
    if errors == map[] {
      assert "fullName" !in errors && "email" !in errors && "phone" !in errors;
    } else {
      assert "fullName" in errors || "email" in errors || "phone" in errors;
    }
  }

  /** The password form is acceptable: a current password, a new one of at least six characters, typed twice. */
  predicate PasswordFormOk(formData: map<string, string>) {
    Field(formData, "currentPassword") != "" && |Field(formData, "newPassword")| >= 6
    && Field(formData, "confirmPassword") == Field(formData, "newPassword")
  }

  /**
   * `validatePasswordForm`: the error list it builds. The confirmation is
   * compared with the new password whether or not the new password is empty.
   */
  method ValidatePasswordForm(formData: map<string, string>) returns (errors: map<string, string>)
    ensures "currentPassword" in errors <==> Field(formData, "currentPassword") == ""
    ensures "currentPassword" in errors ==> errors["currentPassword"] == CurrentPasswordRequired
    ensures "newPassword" in errors <==> |Field(formData, "newPassword")| < 6
    ensures "newPassword" in errors ==>
      errors["newPassword"] == if Field(formData, "newPassword") == "" then NewPasswordRequired else PasswordTooShort
    ensures "confirmPassword" in errors <==> Field(formData, "confirmPassword") != Field(formData, "newPassword")
    ensures "confirmPassword" in errors ==> errors["confirmPassword"] == ConfirmMismatch
    ensures errors.Keys <= {"currentPassword", "newPassword", "confirmPassword"}
    ensures errors == map[] <==> PasswordFormOk(formData)
  {
    errors := map[];
    if Field(formData, "currentPassword") == "" {
      errors := errors["currentPassword" := CurrentPasswordRequired];
    }
    var newPassword := Field(formData, "newPassword");
    if newPassword == "" {
      errors := errors["newPassword" := NewPasswordRequired];
    } else if |newPassword| < 6 {
      errors := errors["newPassword" := PasswordTooShort];
    }
    if newPassword != Field(formData, "confirmPassword") {
      errors := errors["confirmPassword" := ConfirmMismatch];
    }
    if errors == map[] {
      assert "currentPassword" !in errors && "newPassword" !in errors && "confirmPassword" !in errors;
    } else {
      assert "currentPassword" in errors || "newPassword" in errors || "confirmPassword" in errors;
    }
  }

  /** `user?.email?.split('@')[0] || ''`: the e-mail up to its first `@`, or `''` without a user or e-mail. */
  function UserName(user: Option<map<string, string>>): (name: string)
    ensures '@' !in name
    ensures user.None? ==> name == ""
  {
    if user.None? then "" else SplitOn(Field(user.value, "email"), '@')[0]
  }

  /** For `local@domain` the user name is `local`; an e-mail without `@` is shown whole. */
  lemma UserNameIsLocalPart(user: map<string, string>, local: string, domain: string)
    requires '@' !in local
    ensures Field(user, "email") == local + "@" + domain ==> UserName(Some(user)) == local
    ensures '@' !in Field(user, "email") ==> UserName(Some(user)) == Field(user, "email")
  {
    SplitFirst(local, domain, '@');
    if '@' !in Field(user, "email") {
      SplitWithoutSeparator(Field(user, "email"), '@');
    }
  }

  /** `{ ...user, ...response.user }`: the stored user overlaid with the fields the answer carries. */
  function MergeUser(user: Option<map<string, string>>, answered: Option<map<string, string>>): (u: map<string, string>)
    ensures u.Keys == user.GetOr(map[]).Keys + answered.GetOr(map[]).Keys
    ensures forall k :: k in answered.GetOr(map[]) ==> u[k] == answered.GetOr(map[])[k]
    ensures forall k :: k in user.GetOr(map[]) && k !in answered.GetOr(map[]) ==> u[k] == user.GetOr(map[])[k]
  {
    user.GetOr(map[]) + answered.GetOr(map[])
  }

  /** Merging an answer again changes nothing: the overlay is idempotent. */
  lemma MergeIdempotent(user: Option<map<string, string>>, answered: Option<map<string, string>>)
    ensures MergeUser(Some(MergeUser(user, answered)), answered) == MergeUser(user, answered)
  {
  }

  /** The picked file's size in bytes; its content is read by the browser and is not modelled. */
  datatype AvatarFile = AvatarFile(name: string, size: int)

  /** The fields the profile submit sends. */
  datatype ProfileUpdate = ProfileUpdate(fullName: string, email: string, phone: string, avatar: Option<AvatarFile>)

  /** What the profile or password call did: it answered (with the user it may carry), or threw with a message. */
  datatype SaveReply = Saved(user: Option<map<string, string>>) | SaveThrew(message: string)

  /** The six fields of the two forms, all empty. */
  const EmptyForm: map<string, string> := map[
    "fullName" := "", "email" := "", "phone" := "",
    "currentPassword" := "", "newPassword" := "", "confirmPassword" := ""]

  /** The form filled from a stored user: its name, e-mail and phone, or `''` for each one missing. */
  function FormFor(user: map<string, string>): (f: map<string, string>)
    ensures f.Keys == EmptyForm.Keys
    ensures f["fullName"] == Field(user, "fullName") && f["email"] == Field(user, "email") && f["phone"] == Field(user, "phone")
    ensures f["currentPassword"] == "" && f["newPassword"] == "" && f["confirmPassword"] == ""
  {
    EmptyForm["fullName" := Field(user, "fullName")]["email" := Field(user, "email")]["phone" := Field(user, "phone")]
  }

  class ProfilePage {
    var user: Option<map<string, string>>
    var formData: map<string, string>
    var loading: bool
    var errors: map<string, string>
    var success: string
    var avatarFile: Option<AvatarFile>
    var avatarPreview: string

    constructor ()
      ensures user.None? && formData == EmptyForm && !loading && errors == map[] && success == ""
      ensures avatarFile.None? && avatarPreview == ""
    {
      user := None;
      formData := EmptyForm;
      loading := false;
      errors := map[];
      success := "";
      avatarFile := None;
      avatarPreview := "";
    }

    /** On mount: a stored user fills the form, with empty password fields, and the avatar preview. */
    method Mount(stored: Option<map<string, string>>)
      modifies this
      ensures stored.Some? ==>
        user == stored && formData == FormFor(stored.value) && avatarPreview == Field(stored.value, "image_avatar")
      ensures stored.None? ==> user == old(user) && formData == old(formData) && avatarPreview == old(avatarPreview)
      ensures errors == old(errors) && avatarFile == old(avatarFile) && success == old(success) && loading == old(loading)
    {
      if stored.Some? {
        user := stored;
        formData := FormFor(stored.value);
        avatarPreview := Field(stored.value, "image_avatar");
      }
    }

    /** `handleInputChange`: the named field takes the value, and only that field's error is cleared. */
    method InputChange(name: string, value: string)
      modifies this
      ensures formData == old(formData)[name := value]
      ensures errors == ClearError(old(errors), name)
      ensures user == old(user) && avatarFile == old(avatarFile) && avatarPreview == old(avatarPreview)
      ensures success == old(success) && loading == old(loading)
    {
      formData := formData[name := value];
      errors := ClearError(errors, name);
    }

    /**
     * `handleAvatarChange`: no file changes nothing; a file over 1 MB only
     * sets the avatar error, keeping the stored file and the preview; any
     * other file is kept and its error cleared.
     */
    method AvatarChange(file: Option<AvatarFile>)
      modifies this
      ensures file.Some? && file.value.size > AvatarLimit ==>
        errors == old(errors)["avatar" := AvatarTooLarge] && avatarFile == old(avatarFile)
      ensures file.Some? && file.value.size <= AvatarLimit ==>
        errors == ClearError(old(errors), "avatar") && avatarFile == file
      ensures file.None? ==> errors == old(errors) && avatarFile == old(avatarFile)
      ensures avatarPreview == old(avatarPreview) && formData == old(formData) && user == old(user)
      ensures success == old(success) && loading == old(loading)
    {
      if file.None? {
        return;
      }
      if file.value.size > AvatarLimit {
        errors := errors["avatar" := AvatarTooLarge];
        return;
      }
      avatarFile := file;
      errors := ClearError(errors, "avatar");
    }

    /** The browser has read an accepted file: the preview shows it. */
    method AvatarRead(dataUrl: string)
      modifies this
      ensures avatarPreview == dataUrl
      ensures avatarFile == old(avatarFile) && errors == old(errors) && formData == old(formData) && user == old(user)
      ensures success == old(success) && loading == old(loading)
    {
      avatarPreview := dataUrl;
    }

    /**
     * `handleProfileSubmit`: an invalid form only shows its errors. A valid
     * one sends name, e-mail, phone and the picked avatar; on an answer the
     * user becomes the old user overlaid with the answered one and a success
     * message shows; on a throw a general error shows.
     */
    method ProfileSubmit(reply: SaveReply) returns (sent: Option<ProfileUpdate>)
      modifies this
      ensures sent.Some? <==> ProfileOk(old(formData))
      ensures sent.Some? ==> sent.value == ProfileUpdate(
        Field(old(formData), "fullName"), Field(old(formData), "email"), Field(old(formData), "phone"), old(avatarFile))
      ensures !ProfileOk(old(formData)) ==>
        errors != map[] && errors.Keys <= {"fullName", "email", "phone"}
        && user == old(user) && success == old(success) && loading == old(loading)
      ensures ProfileOk(old(formData)) && reply.Saved? ==>
        user == Some(MergeUser(old(user), reply.user)) && success == ProfileSaved && errors == map[]
      ensures ProfileOk(old(formData)) && reply.SaveThrew? ==>
        user == old(user) && success == ""
        && errors == map["general" := if reply.message != "" then reply.message else ProfileSaveFailed]
      ensures ProfileOk(old(formData)) ==> !loading
      ensures formData == old(formData) && avatarFile == old(avatarFile) && avatarPreview == old(avatarPreview)
    {
      var newErrors := ValidateProfileForm(formData);
      errors := newErrors;
      if newErrors != map[] {
        return None;
      }
      sent := Some(ProfileUpdate(Field(formData, "fullName"), Field(formData, "email"), Field(formData, "phone"), avatarFile));
      ApplyProfileReply(reply);
    }

    /** The part of `handleProfileSubmit` after the form passed: the request is in flight, then its reply is applied. */
    method ApplyProfileReply(reply: SaveReply)
      modifies this
      ensures reply.Saved? ==> user == Some(MergeUser(old(user), reply.user)) && success == ProfileSaved && errors == old(errors)
      ensures reply.SaveThrew? ==>
        user == old(user) && success == ""
        && errors == map["general" := if reply.message != "" then reply.message else ProfileSaveFailed]
      ensures !loading
      ensures formData == old(formData) && avatarFile == old(avatarFile) && avatarPreview == old(avatarPreview)
    {
      loading := true;
      success := "";
      match reply {
        case Saved(answered) =>
          user := Some(MergeUser(user, answered));
          success := ProfileSaved;
        case SaveThrew(message) =>
          errors := map["general" := if message != "" then message else ProfileSaveFailed];
      }
      loading := false;
    }

    /**
     * `handlePasswordSubmit`: an invalid form only shows its errors. A valid
     * one sends the current and new passwords; on an answer exactly the three
     * password fields are emptied and a success message shows; on a throw a
     * general error shows.
     */
    method PasswordSubmit(reply: SaveReply) returns (sent: Option<(string, string)>)
      modifies this
      ensures sent.Some? <==> PasswordFormOk(old(formData))
      ensures sent.Some? ==> sent.value == (Field(old(formData), "currentPassword"), Field(old(formData), "newPassword"))
      ensures !PasswordFormOk(old(formData)) ==>
        errors != map[] && errors.Keys <= {"currentPassword", "newPassword", "confirmPassword"}
        && formData == old(formData) && success == old(success) && loading == old(loading)
      ensures PasswordFormOk(old(formData)) && reply.Saved? ==>
        formData == old(formData)["currentPassword" := ""]["newPassword" := ""]["confirmPassword" := ""]
        && success == PasswordChanged && errors == map[]
      ensures PasswordFormOk(old(formData)) && reply.SaveThrew? ==>
        formData == old(formData) && success == ""
        && errors == map["general" := if reply.message != "" then reply.message else PasswordChangeFailed]
      ensures PasswordFormOk(old(formData)) ==> !loading
      ensures user == old(user) && avatarFile == old(avatarFile) && avatarPreview == old(avatarPreview)
    {
      var newErrors := ValidatePasswordForm(formData);
      errors := newErrors;
      if newErrors != map[] {
        return None;
      }
      loading := true;
      success := "";
      sent := Some((Field(formData, "currentPassword"), Field(formData, "newPassword")));
      match reply {
        case Saved(_) =>
          formData := formData["currentPassword" := ""]["newPassword" := ""]["confirmPassword" := ""];
          success := PasswordChanged;
        case SaveThrew(message) =>
          errors := map["general" := if message != "" then message else PasswordChangeFailed];
      }
      loading := false;
    }
  }

  /** A password change keeps the name, e-mail and phone typed in the profile form. */
  lemma PasswordResetKeepsProfileFields(formData: map<string, string>)
    ensures var f := formData["currentPassword" := ""]["newPassword" := ""]["confirmPassword" := ""];
      Field(f, "fullName") == Field(formData, "fullName") && Field(f, "email") == Field(formData, "email")
      && Field(f, "phone") == Field(formData, "phone")
      && Field(f, "currentPassword") == "" && Field(f, "newPassword") == "" && Field(f, "confirmPassword") == ""
  {
  }
}
