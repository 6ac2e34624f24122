/** The sign-in page (`app/login/page.tsx`): password-strength scoring, the province list, the
    sign-up guard chain, the sign-in / sign-up / reset submission with its writes, the error
    message mapping and the view switch. The identity provider's answers are inputs. */
module Login {
  import opened Common
  import opened Store

  // ---------------------------------------------------------------------------------------------
  // Password strength

  datatype Criterion = LongEnough | HasCapital | HasDigit | HasSymbol

  const AllCriteria: seq<Criterion> := [LongEnough, HasCapital, HasDigit, HasSymbol]

  predicate IsAsciiAlnum(c: char) {
    ('A' <= c <= 'Z') || ('a' <= c <= 'z') || ('0' <= c <= '9')
  }

  /** The four tests: `length` (UTF-16 code units) at least 8, `/[A-Z]/`, `/[0-9]/`,
      `/[^A-Za-z0-9]/`. */
  predicate Meets(p: string, c: Criterion) {
    match c
    case LongEnough => JsLength(p) >= 8
    case HasCapital => exists i :: 0 <= i < |p| && 'A' <= p[i] <= 'Z'
    case HasDigit => exists i :: 0 <= i < |p| && '0' <= p[i] <= '9'
    case HasSymbol => exists i :: 0 <= i < |p| && !IsAsciiAlnum(p[i])
  }

  /** The criteria a password meets; none for the empty password. */
  function MetCriteria(p: string): seq<Criterion> {
    if p == [] then [] else Filter(AllCriteria, (c: Criterion) => Meets(p, c))
  }

  function Indicator(b: bool): nat {
    if b then 1 else 0
  }

  /** `checkPasswordStrength`: a running score, one point per criterion met. */
  method CheckPasswordStrength(pass: string) returns (score: nat)
    ensures score == |MetCriteria(pass)|
    ensures score <= 4
  {
    StrengthIsSum(pass);
    if |pass| == 0 {
      return 0;
    }
    score := 0;
    if JsLength(pass) >= 8 {
      score := score + 1;
    }
    if Meets(pass, HasCapital) {
      score := score + 1;
    }
    if Meets(pass, HasDigit) {
      score := score + 1;
    }
    if Meets(pass, HasSymbol) {
      score := score + 1;
    }
  }

  /** The score of a non-empty password is the sum of four independent indicators, one per
      criterion; hence it lies in [0, 4], and the empty password scores 0. */
  lemma StrengthIsSum(p: string)
    ensures p == [] ==> |MetCriteria(p)| == 0
    ensures p != [] ==>
      |MetCriteria(p)| == Indicator(JsLength(p) >= 8) + Indicator(Meets(p, HasCapital))
        + Indicator(Meets(p, HasDigit)) + Indicator(Meets(p, HasSymbol))
    ensures |MetCriteria(p)| <= 4
  {
    if p != [] {
      var keep := (c: Criterion) => Meets(p, c);
      var s := AllCriteria;
      assert s[1..][1..][1..][1..] == [];
      assert |Filter(s[1..][1..][1..], keep)| == Indicator(Meets(p, HasSymbol));
      assert |Filter(s[1..][1..], keep)| == Indicator(Meets(p, HasDigit)) + Indicator(Meets(p, HasSymbol));
    }
  }

  /** Every password of at least 8 code units with a capital, a digit and a symbol scores 4. */
  lemma FullScore(p: string)
    requires JsLength(p) >= 8
    requires exists i :: 0 <= i < |p| && 'A' <= p[i] <= 'Z'
    requires exists i :: 0 <= i < |p| && '0' <= p[i] <= '9'
    requires exists i :: 0 <= i < |p| && !IsAsciiAlnum(p[i])
    ensures |MetCriteria(p)| == 4
  {
    StrengthIsSum(p);
  }

  /** Four characters beyond the Basic Multilingual Plane are eight code units long, so they
      meet the length test as well as the symbol test. */
  lemma AstralPasswordScoresTwo()
    ensures |MetCriteria("🐍🐍🐍🐍")| == 2
  {
    var p := "🐍🐍🐍🐍";
    assert JsLength(p) == 8 by {
      assert p[1..][1..][1..][1..] == [];
    }
    assert forall i :: 0 <= i < |p| ==> p[i] == '🐍';
    assert !IsAsciiAlnum(p[0]);
    StrengthIsSum(p);
  }

  // ---------------------------------------------------------------------------------------------
  // Provinces

  /** The 77 province names as listed in the source, before sorting. */
  const RawProvinces: seq<string> := [
    "กรุงเทพมหานคร", "กระบี่", "กาญจนบุรี", "กาฬสินธุ์", "กำแพงเพชร", "ขอนแก่น", "จันทบุรี",
    "ฉะเชิงเทรา", "ชลบุรี", "ชัยนาท", "ชัยภูมิ", "ชุมพร", "เชียงราย", "เชียงใหม่", "ตรัง",
    "ตราด", "ตาก", "นครนายก", "นครปฐม", "นครพนม", "นครราชสีมา", "นครศรีธรรมราช", "นครสวรรค์",
    "นนทบุรี", "นราธิวาส", "น่าน", "บึงกาฬ", "บุรีรัมย์", "ปทุมธานี", "ประจวบคีรีขันธ์",
    "ปราจีนบุรี", "ปัตตานี", "พระนครศรีอยุธยา", "พะเยา", "พังงา", "พัทลุง", "พิจิตร",
    "พิษณุโลก", "เพชรบุรี", "เพชรบูรณ์", "แพร่", "ภูเก็ต", "มหาสารคาม", "มุกดาหาร",
    "แม่ฮ่องสอน", "ยโสธร", "ยะลา", "ร้อยเอ็ด", "ระนอง", "ระยอง", "ราชบุรี", "ลพบุรี", "ลำปาง",
    "ลำพูน", "เลย", "ศรีสะเกษ", "สกลนคร", "สงขลา", "สตูล", "สมุทรปราการ", "สมุทรสงคราม",
    "สมุทรสาคร", "สระแก้ว", "สระบุรี", "สิงห์บุรี", "สุโขทัย", "สุพรรณบุรี", "สุราษฎร์ธานี",
    "สุรินทร์", "หนองคาย", "หนองบัวลำภู", "อ่างทอง", "อำนาจเจริญ", "อุดรธานี", "อุตรดิตถ์",
    "อุทัยธานี", "อุบลราชธานี"
  ]

  /** `a <= b` in the default `Array.prototype.sort` order: lexicographic on code units (every
      character here lies in the Basic Multilingual Plane, where code units are code points). */
  predicate LexLeq(a: string, b: string)
    decreases |a|
  {
    a == [] || (b != [] && (a[0] < b[0] || (a[0] == b[0] && LexLeq(a[1..], b[1..]))))
  }

  lemma {:induction false} LexTotal(a: string, b: string)
    ensures LexLeq(a, b) || LexLeq(b, a)
    decreases |a|
  {
    if a != [] && b != [] && a[0] == b[0] {
      LexTotal(a[1..], b[1..]);
    }
  }

  lemma LexTotalAll()
    ensures Total(LexLeq)
  {
    forall a: string, b: string ensures LexLeq(a, b) || LexLeq(b, a) {
      LexTotal(a, b);
    }
  }

  predicate Sorted(s: seq<string>) {
    SortedBy(s, LexLeq)
  }

  /** `.sort()` on the province names: an insertion sort, ordered and a permutation of its
      input. */
  method SortNames(names: seq<string>) returns (sorted: seq<string>)
    ensures Sorted(sorted)
    ensures multiset(sorted) == multiset(names)
  {
    LexTotalAll();
    sorted := [];
    var i := 0;
    while i < |names|
      invariant 0 <= i <= |names|
      invariant Sorted(sorted)
      invariant multiset(sorted) == multiset(names[..i])
    {
      InsertBySorted(names[i], sorted, LexLeq);
      sorted := InsertBy(names[i], sorted, LexLeq);
      assert names[..i + 1] == names[..i] + [names[i]];
      i := i + 1;
    }
    assert names[..|names|] == names;
  }

  // ---------------------------------------------------------------------------------------------
  // Sign-up guards

  datatype SignupError = Mismatch | NotAgreed | TooWeak | MissingInfo | NotProvince

  function GuardToast(e: SignupError): Toast {
    match e
    case Mismatch => Failure("รหัสผ่านยืนยันไม่ตรงกัน")
    case NotAgreed => Failure("กรุณายอมรับนโยบายความเป็นส่วนตัว")
    case TooWeak => Warning("รหัสผ่านง่ายเกินไป")
    case MissingInfo => Failure("กรุณากรอกข้อมูลให้ครบ")
    case NotProvince => Failure("กรุณาเลือกจังหวัดจากรายการ")
  }

  /** The sign-up guard chain: the first failing guard, in source order, or None when all pass. */
  function SignupCheck(password: string, confirm: string, agreed: bool, strength: int,
                       birthDate: string, location: string, provinces: seq<string>): (r: Option<SignupError>)
    ensures r.None? ==>
      password == confirm && agreed && strength >= 2 && birthDate != "" && location in provinces
    ensures r == Some(Mismatch) <==> password != confirm
    ensures r == Some(NotAgreed) <==> password == confirm && !agreed
    ensures r == Some(TooWeak) <==> password == confirm && agreed && strength < 2
    ensures r == Some(MissingInfo) <==>
      password == confirm && agreed && strength >= 2 && (birthDate == "" || location == "")
    ensures r == Some(NotProvince) <==>
      password == confirm && agreed && strength >= 2 && birthDate != "" && location != ""
      && location !in provinces
  {
    if password != confirm then Some(Mismatch)
    else if !agreed then Some(NotAgreed)
    else if strength < 2 then Some(TooWeak)
    else if birthDate == "" || location == "" then Some(MissingInfo)
    else if location !in provinces then Some(NotProvince)
    else None
  }

  /** An accepted sign-up names one of the listed provinces, checked against the sorted list
      `provinces` built from the listed `names`, and its password is non-empty and scores at
      least 2. */
  lemma AcceptedSignup(password: string, confirm: string, agreed: bool, birthDate: string, location: string,
                       names: seq<string>, provinces: seq<string>)
    requires Sorted(provinces) && multiset(provinces) == multiset(names)
    requires SignupCheck(password, confirm, agreed, |MetCriteria(password)|, birthDate, location, provinces).None?
    ensures location in provinces && location in names
    ensures password != "" && |MetCriteria(password)| >= 2 && password == confirm && agreed
  {
    PermutationMembers(provinces, names, location);
  }

  // ---------------------------------------------------------------------------------------------
  // Error messages

  const InvalidLogin: string := "Invalid login"
  const AlreadyRegistered: string := "already registered"
  const InvalidCredentialsText: string := "อีเมลหรือรหัสผ่านไม่ถูกต้อง"
  const DuplicateEmailText: string := "อีเมลนี้มีผู้ใช้งานแล้ว"

  /** The message shown for an error: the first rule that applies, in order. */
  function ShownError(message: string): string {
    if Includes(message, InvalidLogin) then InvalidCredentialsText
    else if Includes(message, AlreadyRegistered) then DuplicateEmailText
    else message
  }

  /** The `catch` block's `let msg` and its two reassignments. The second test runs on the
      already replaced text, which never includes "already registered", so a message holding both
      phrases shows the invalid-credentials text. */
  method MapErrorMessage(message: string) returns (msg: string)
    ensures msg == ShownError(message)
  {
    msg := message;
    if Includes(msg, InvalidLogin) {
      msg := InvalidCredentialsText;
    }
    if Includes(msg, AlreadyRegistered) {
      msg := DuplicateEmailText;
    }
    assert 'a' !in InvalidCredentialsText;
    MissingCharNotIncluded(InvalidCredentialsText, AlreadyRegistered, 0);
  }

  // ---------------------------------------------------------------------------------------------
  // The page

  datatype View = LoginView | SignupView | ResetView

  /** The identity provider's answer: an error message, or the user it returns (possibly none). */
  datatype AuthReply = AuthReply(error: Option<string>, user: Option<UserId>)

  const ResetRedirectPath: string := "/auth/callback?next=/update-password"
  const DashboardPath: string := "/dashboard"
  const SignupSuccessText: string := "สมัครสมาชิกสำเร็จ! ยินดีต้อนรับ"
  const LoginSuccessText: string := "เข้าสู่ระบบสำเร็จ"
  const ResetSentText: string := "ส่งลิงก์รีเซ็ตรหัสผ่านไปที่อีเมลแล้ว"

  /** The rows written after a sign-up that returns a user: the profile fields, the privacy
      consent and the REGISTER audit entry, in that order. */
  function RegisterWrites(u: UserId, gender: string, birthDate: string, location: string, now: Timestamp)
    : seq<Write>
  {
    [ UpdateProfile(u, gender, birthDate, location),
      InsertConsent(ConsentRow(u, "pdpa_privacy_policy", true)),
      InsertAudit(AuditRow(u, "REGISTER", RegisterDetails("email", now))) ]
  }

  function LoginWrites(u: UserId, now: Timestamp): seq<Write> {
    [InsertAudit(AuditRow(u, "LOGIN", LoginDetails(now)))]
  }

  /** The profile update, the consent row and the REGISTER entry, in that order. */
  method WriteRegistration(db: Database, u: UserId, gender: string, birthDate: string, location: string,
                           now: Timestamp)
    requires db.Valid()
    modifies db
    ensures db.Valid()
    ensures db.log == old(db.log) + RegisterWrites(u, gender, birthDate, location, now)
  {
    db.Perform(UpdateProfile(u, gender, birthDate, location));
    db.Perform(InsertConsent(ConsentRow(u, "pdpa_privacy_policy", true)));
    db.Perform(InsertAudit(AuditRow(u, "REGISTER", RegisterDetails("email", now))));
  }

  class LoginPage {
    var view: View
    var email: string
    var password: string
    var confirmPassword: string
    var birthDate: string
    var gender: string
    var location: string
    var agreed: bool
    var loading: bool
    var passwordStrength: nat
    var toast: Option<Toast>
    var route: Option<string>
    /** `THAI_PROVINCES`: the names, sorted once when the page module loads. */
    const provinces: seq<string>

    /** The strength shown is always that of the current password (the effect on `password`). */
    ghost predicate Valid()
      reads this
    {
      passwordStrength == |MetCriteria(password)|
    }

    /** A fresh page over the province names `names`; the application passes `RawProvinces`
        (see `OpenLoginPage`). */
    constructor (names: seq<string>)
      ensures Valid()
      ensures Sorted(provinces) && multiset(provinces) == multiset(names)
      ensures view == LoginView && email == "" && password == "" && confirmPassword == ""
      ensures birthDate == "" && gender == "prefer_not_to_say" && location == ""
      ensures !agreed && !loading && passwordStrength == 0 && toast.None? && route.None?
    {
      view, email, password, confirmPassword := LoginView, "", "", "";
      birthDate, gender, location := "", "prefer_not_to_say", "";
      agreed, loading, passwordStrength := false, false, 0;
      toast, route := None, None;
      var sorted := SortNames(names);
      provinces := sorted;
    }

    /** Typing a password; the effect recomputes its strength. */
    method SetPassword(p: string)
      requires Valid()
      modifies this
      ensures Valid() && password == p
      ensures view == old(view) && confirmPassword == old(confirmPassword) && agreed == old(agreed)
      ensures email == old(email) && birthDate == old(birthDate) && gender == old(gender)
      ensures location == old(location) && loading == old(loading)
      ensures toast == old(toast) && route == old(route)
    {
      password := p;
      passwordStrength := CheckPasswordStrength(p);
    }

    /** `switchView`: going back to sign-in clears the confirmation and the consent box. */
    method SwitchView(newView: View)
      requires newView == LoginView || newView == SignupView
      modifies this
      ensures view == newView
      ensures newView == LoginView ==> confirmPassword == "" && !agreed
      ensures newView == SignupView ==> confirmPassword == old(confirmPassword) && agreed == old(agreed)
      ensures email == old(email) && password == old(password) && passwordStrength == old(passwordStrength)
      ensures birthDate == old(birthDate) && gender == old(gender) && location == old(location)
      ensures loading == old(loading) && toast == old(toast) && route == old(route)
    {
      view := newView;
      if newView == LoginView {
        confirmPassword := "";
        agreed := false;
      }
    }

    /** The form fields a submission leaves as they were. */
    twostate predicate FormUnchanged()
      reads this
    {
      && email == old(email) && password == old(password) && confirmPassword == old(confirmPassword)
      && birthDate == old(birthDate) && gender == old(gender) && location == old(location)
      && agreed == old(agreed) && passwordStrength == old(passwordStrength)
    }

    /** A sign-up submission: the first failing guard's toast and no call at all, or, when
        every guard passes, the account creation. */
    ghost predicate SignupDone(db: Database, log0: seq<Write>, view0: View, route0: Option<string>,
                              reply: AuthReply, now: Timestamp, authCalls: seq<AuthCall>)
      reads this, db
    {
      var check := SignupCheck(password, confirmPassword, agreed, passwordStrength, birthDate, location, provinces);
      && view == view0
      && if check.Some? then
           authCalls == [] && db.log == log0 && toast == Some(GuardToast(check.value)) && route == route0
         else
           AccountDone(db, log0, route0, reply, now, authCalls)
    }

    /** The account call; then on an error its mapped message, and otherwise the profile,
        consent and REGISTER rows when a user comes back, the welcome toast and the dashboard. */
    ghost predicate AccountDone(db: Database, log0: seq<Write>, route0: Option<string>,
                               reply: AuthReply, now: Timestamp, authCalls: seq<AuthCall>)
      reads this, db
    {
      && authCalls == [SignUp(email, password)]
      && (reply.error.Some? ==>
            db.log == log0 && toast == Some(Failure(ShownError(reply.error.value))) && route == route0)
      && (reply.error.None? ==>
            && db.log == log0
                 + (if reply.user.Some? then RegisterWrites(reply.user.value, gender, birthDate, location, now) else [])
            && toast == Some(Success(SignupSuccessText)) && route == Some(DashboardPath))
    }

    /** A sign-in submission: the password call, then the mapped error, or the LOGIN row when a
        user comes back, the success toast and the dashboard. */
    ghost predicate LoginDone(db: Database, log0: seq<Write>, view0: View, route0: Option<string>,
                              reply: AuthReply, now: Timestamp, authCalls: seq<AuthCall>)
      reads this, db
    {
      && authCalls == [SignIn(email, password)]
      && view == view0
      && (reply.error.Some? ==>
            db.log == log0 && toast == Some(Failure(ShownError(reply.error.value))) && route == route0)
      && (reply.error.None? ==>
            && db.log == log0 + (if reply.user.Some? then LoginWrites(reply.user.value, now) else [])
            && toast == Some(Success(LoginSuccessText)) && route == Some(DashboardPath))
    }

    /** A reset submission: the reset mail whose link leads through the callback to the
        password-update page; on success the page returns to sign-in. Nothing is written. */
    ghost predicate ResetDone(db: Database, log0: seq<Write>, view0: View, route0: Option<string>,
                              reply: AuthReply, origin: string, authCalls: seq<AuthCall>)
      reads this, db
    {
      && authCalls == [ResetForEmail(email, origin + ResetRedirectPath)]
      && db.log == log0 && route == route0
      && (reply.error.Some? ==> toast == Some(Failure(ShownError(reply.error.value))) && view == view0)
      && (reply.error.None? ==> toast == Some(Success(ResetSentText)) && view == LoginView)
    }

    /** `handleAuth`: `loading` is set, the branch for the current view runs, and `loading` is
        cleared on every exit. `reply` is the identity provider's answer to the one call made,
        `origin` the page's origin, `now` the clock. */
    method HandleAuth(db: Database, reply: AuthReply, origin: string, now: Timestamp)
      returns (authCalls: seq<AuthCall>)
      requires Valid() && db.Valid()
      modifies this, db
      ensures Valid() && db.Valid() && FormUnchanged() && !loading
      ensures old(view) == SignupView ==> SignupDone(db, old(db.log), old(view), old(route), reply, now, authCalls)
      ensures old(view) == LoginView ==> LoginDone(db, old(db.log), old(view), old(route), reply, now, authCalls)
      ensures old(view) == ResetView ==> ResetDone(db, old(db.log), old(view), old(route), reply, origin, authCalls)
    {
      loading := true;
      if view == SignupView {
        authCalls := SubmitSignup(db, reply, now);
      } else if view == LoginView {
        authCalls := SubmitLogin(db, reply, now);
      } else {
        authCalls := SubmitReset(db, reply, origin);
      }
      loading := false;
    }

    method SubmitSignup(db: Database, reply: AuthReply, now: Timestamp) returns (authCalls: seq<AuthCall>)
      requires db.Valid()
      modifies this, db
      ensures db.Valid() && FormUnchanged() && loading == old(loading)
      ensures SignupDone(db, old(db.log), old(view), old(route), reply, now, authCalls)
    {
      var check := SignupCheck(password, confirmPassword, agreed, passwordStrength, birthDate, location, provinces);
      if check.Some? {
        toast := Some(GuardToast(check.value));
        return [];
      }
      authCalls := CreateAccount(db, reply, now);
    }

    method CreateAccount(db: Database, reply: AuthReply, now: Timestamp) returns (authCalls: seq<AuthCall>)
      requires db.Valid()
      modifies this, db
      ensures db.Valid() && FormUnchanged() && loading == old(loading) && view == old(view)
      ensures AccountDone(db, old(db.log), old(route), reply, now, authCalls)
    {
      authCalls := [SignUp(email, password)];
      if reply.error.Some? {
        var msg := MapErrorMessage(reply.error.value);
        toast := Some(Failure(msg));
        return;
      }
      if reply.user.Some? {
        WriteRegistration(db, reply.user.value, gender, birthDate, location, now);
      }
      toast := Some(Success(SignupSuccessText));
      route := Some(DashboardPath);
    }

    method SubmitLogin(db: Database, reply: AuthReply, now: Timestamp) returns (authCalls: seq<AuthCall>)
      requires db.Valid()
      modifies this, db
      ensures db.Valid() && FormUnchanged() && loading == old(loading)
      ensures LoginDone(db, old(db.log), old(view), old(route), reply, now, authCalls)
    {
      authCalls := [SignIn(email, password)];
      if reply.error.Some? {
        var msg := MapErrorMessage(reply.error.value);
        toast := Some(Failure(msg));
        return;
      }
      if reply.user.Some? {
        db.Perform(InsertAudit(AuditRow(reply.user.value, "LOGIN", LoginDetails(now))));
      }
      toast := Some(Success(LoginSuccessText));
      route := Some(DashboardPath);
    }

    method SubmitReset(db: Database, reply: AuthReply, origin: string) returns (authCalls: seq<AuthCall>)
      modifies this
      ensures FormUnchanged() && loading == old(loading)
      ensures ResetDone(db, old(db.log), old(view), old(route), reply, origin, authCalls)
    {
      authCalls := [ResetForEmail(email, origin + ResetRedirectPath)];
      if reply.error.Some? {
        var msg := MapErrorMessage(reply.error.value);
        toast := Some(Failure(msg));
        return;
      }
      toast := Some(Success(ResetSentText));
      view := LoginView;
    }
  }

  /** The page as the application opens it: over `THAI_PROVINCES`, the 77 raw names sorted (so,
      by `AcceptedSignup`, an accepted location is one of them). */
  method OpenLoginPage() returns (page: LoginPage)
    ensures fresh(page) && page.Valid() && page.view == LoginView
    ensures Sorted(page.provinces) && multiset(page.provinces) == multiset(RawProvinces)
  {
    page := new LoginPage(RawProvinces);
  }
}
