/** The password-reset landing page (`app/update-password/page.tsx`): two guards, then the
    identity provider's password update, a sign-out and a redirect to the login page. */
module UpdatePassword {
  import opened Common
  import opened Store

  const MismatchText: string := "รหัสผ่านยืนยันไม่ตรงกัน"
  const TooShortText: string := "รหัสผ่านต้องมีความยาวอย่างน้อย 6 ตัวอักษร"
  const UpdatedText: string := "เปลี่ยนรหัสผ่านสำเร็จ! กรุณาเข้าสู่ระบบด้วยรหัสใหม่"
  const ErrorPrefix: string := "เกิดข้อผิดพลาด: "
  const ErrorFallback: string := "ไม่สามารถเปลี่ยนรหัสผ่านได้"
  const LoginPath: string := "/login"
  const MinLength: nat := 6

  /** The guards of `handleUpdatePassword`, in their order: the confirmation must match, then
      the password must be at least six UTF-16 code units long. */
  function PasswordGuard(password: string, confirm: string): (r: Option<string>)
    ensures r == Some(MismatchText) <==> password != confirm
    ensures r == Some(TooShortText) <==> password == confirm && JsLength(password) < MinLength
    ensures r.None? <==> password == confirm && JsLength(password) >= MinLength
  {
    if password != confirm then Some(MismatchText)
    else if JsLength(password) < MinLength then Some(TooShortText)
    else None
  }

  /** The text of the error toast: `error.message || fallback`. */
  function UpdateErrorText(message: string): (t: string)
    ensures message != "" ==> t == ErrorPrefix + message
    ensures message == "" ==> t == ErrorPrefix + ErrorFallback
  {
    ErrorPrefix + if message != "" then message else ErrorFallback
  }

  class UpdatePasswordPage {
    var password: string
    var confirmPassword: string
    var loading: bool
    var toast: Option<Toast>
    var route: Option<string>
    /** The calls made to the identity provider, oldest first. */
    var authCalls: seq<AuthCall>

    constructor ()
      ensures password == "" && confirmPassword == "" && !loading
      ensures toast.None? && route.None? && authCalls == []
    {
      password, confirmPassword, loading := "", "", false;
      toast, route, authCalls := None, None, [];
    }

    /** `handleUpdatePassword`, given the error message `updateUser` answers with (None when it
        succeeds). A failing guard shows its message and calls nothing; otherwise the update is
        requested, and only a successful one is followed by a sign-out and the redirect. */
    method HandleUpdatePassword(updateError: Option<string>)
      modifies this
      ensures password == old(password) && confirmPassword == old(confirmPassword)
      ensures PasswordGuard(password, confirmPassword).Some? ==>
        && toast == Some(Failure(PasswordGuard(password, confirmPassword).value))
        && authCalls == old(authCalls) && loading == old(loading) && route == old(route)
      ensures PasswordGuard(password, confirmPassword).None? && updateError.None? ==>
        && authCalls == old(authCalls) + [UpdateUser(password), SignOut]
        && toast == Some(Success(UpdatedText)) && route == Some(LoginPath) && !loading
      ensures PasswordGuard(password, confirmPassword).None? && updateError.Some? ==>
        && authCalls == old(authCalls) + [UpdateUser(password)]
        && toast == Some(Failure(UpdateErrorText(updateError.value))) && route == old(route) && !loading
    {
      var refusal := PasswordGuard(password, confirmPassword);
      if refusal.Some? {
        toast := Some(Failure(refusal.value));
        return;
      }
      loading := true;
      authCalls := authCalls + [UpdateUser(password)];
      if updateError.Some? {
        toast := Some(Failure(UpdateErrorText(updateError.value)));
      } else {
        toast := Some(Success(UpdatedText));
        authCalls := authCalls + [SignOut];
        route := Some(LoginPath);
      }
      loading := false;
    }
  }
}
