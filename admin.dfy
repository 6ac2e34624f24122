/** The administrator page (`app/admin/page.tsx`): the role gate, the search filters, the CSV
    report, the audit helper and the moderation actions. The analytics views the page loads are
    inputs; reloading them after an action is counted, not modelled. */
module Admin {
  import opened Common
  import opened Store

  // ---------------------------------------------------------------------------------------------
  // Access

  /** The answer of `users.select('role').eq('id', user.id).single()`. */
  datatype RoleLookup = LookupError | RoleRow(role: Option<string>)

  datatype Access = RedirectLogin | Denied | Granted

  /** `checkAdmin`: no session goes to sign-in; a failed lookup or any role but `admin` is
      denied. */
  function AdminAccess(user: Option<UserId>, lookup: RoleLookup): (a: Access)
    ensures a == RedirectLogin <==> user.None?
    ensures a == Granted <==> user.Some? && lookup == RoleRow(Some("admin"))
    ensures a == Denied <==> user.Some? && (lookup.LookupError? || lookup.role != Some("admin"))
  {
    if user.None? then RedirectLogin
    else if lookup.LookupError? || lookup.role != Some("admin") then Denied
    else Granted
  }

  // ---------------------------------------------------------------------------------------------
  // Search

  datatype AdminUser = AdminUser(id: UserId, email: Option<string>, role: Option<string>)

  /** A row of the moderation list: the dream, its owner's email and its interpretations' ids. */
  datatype AdminDream = AdminDream(id: nat, dreamText: Option<string>, ownerEmail: Option<string>,
                                   interpretationIds: seq<nat>)

  /** `field?.toLowerCase().includes(term.toLowerCase())`: an absent field never matches. */
  predicate FieldMatches(field: Option<string>, term: string) {
    field.Some? && Includes(Lower(field.value), Lower(term))
  }

  predicate UserMatches(u: AdminUser, term: string) {
    FieldMatches(u.email, term) || FieldMatches(u.role, term)
  }

  predicate DreamMatches(d: AdminDream, term: string) {
    FieldMatches(d.dreamText, term) || FieldMatches(d.ownerEmail, term)
  }

  function FilterUsers(users: seq<AdminUser>, term: string): seq<AdminUser> {
    Filter(users, (u: AdminUser) => UserMatches(u, term))
  }

  function FilterDreams(dreams: seq<AdminDream>, term: string): seq<AdminDream> {
    Filter(dreams, (d: AdminDream) => DreamMatches(d, term))
  }

  /** The user filter keeps the list's order and keeps a user exactly when its email or its
      role contains the term, ignoring case. */
  lemma FilterUsersSpec(users: seq<AdminUser>, term: string)
    ensures IsSubsequence(FilterUsers(users, term), users)
    ensures forall k :: 0 <= k < |FilterUsers(users, term)| ==>
      FilterUsers(users, term)[k] in users && UserMatches(FilterUsers(users, term)[k], term)
    ensures forall k :: 0 <= k < |users| && UserMatches(users[k], term) ==> users[k] in FilterUsers(users, term)
  {
    FilterIsSubsequence(users, (u: AdminUser) => UserMatches(u, term));
  }

  /** With an empty search every user that has an email or a role is listed. */
  lemma EmptyTermKeepsUsersWithFields(users: seq<AdminUser>)
    ensures FilterUsers(users, "") == Filter(users, (u: AdminUser) => u.email.Some? || u.role.Some?)
  {
    forall k | 0 <= k < |users|
      ensures UserMatches(users[k], "") == (users[k].email.Some? || users[k].role.Some?)
    {
      if users[k].email.Some? {
        IncludesEmpty(Lower(users[k].email.value));
      }
      if users[k].role.Some? {
        IncludesEmpty(Lower(users[k].role.value));
      }
    }
    FilterAgree(users, (u: AdminUser) => UserMatches(u, ""), (u: AdminUser) => u.email.Some? || u.role.Some?);
  }

  /** The search ignores the case of the term: lowercasing it first lists the same users. */
  lemma UserSearchIgnoresCase(users: seq<AdminUser>, term: string)
    ensures FilterUsers(users, Lower(term)) == FilterUsers(users, term)
  {
    LowerIdempotent(term);
    FilterAgree(users, (u: AdminUser) => UserMatches(u, Lower(term)), (u: AdminUser) => UserMatches(u, term));
  }

  /** The dream filter keeps the list's order and keeps a dream exactly when its text or its
      owner's email contains the term, ignoring case. */
  lemma FilterDreamsSpec(dreams: seq<AdminDream>, term: string)
    ensures IsSubsequence(FilterDreams(dreams, term), dreams)
    ensures forall k :: 0 <= k < |FilterDreams(dreams, term)| ==>
      FilterDreams(dreams, term)[k] in dreams && DreamMatches(FilterDreams(dreams, term)[k], term)
    ensures forall k :: 0 <= k < |dreams| && DreamMatches(dreams[k], term) ==> dreams[k] in FilterDreams(dreams, term)
  {
    FilterIsSubsequence(dreams, (d: AdminDream) => DreamMatches(d, term));
  }

  /** With an empty search every dream that has a text or an owner email is listed. */
  lemma EmptyTermKeepsDreamsWithFields(dreams: seq<AdminDream>)
    ensures FilterDreams(dreams, "") == Filter(dreams, (d: AdminDream) => d.dreamText.Some? || d.ownerEmail.Some?)
  {
    forall k | 0 <= k < |dreams|
      ensures DreamMatches(dreams[k], "") == (dreams[k].dreamText.Some? || dreams[k].ownerEmail.Some?)
    {
      if dreams[k].dreamText.Some? {
        IncludesEmpty(Lower(dreams[k].dreamText.value));
      }
      if dreams[k].ownerEmail.Some? {
        IncludesEmpty(Lower(dreams[k].ownerEmail.value));
      }
    }
    FilterAgree(dreams, (d: AdminDream) => DreamMatches(d, ""),
      (d: AdminDream) => d.dreamText.Some? || d.ownerEmail.Some?);
  }

  // ---------------------------------------------------------------------------------------------
  // The CSV report

  /** A row of the `admin_daily_dreams` view. */
  datatype GrowthRow = GrowthRow(name: string, dreams: int, users: int)

  const CsvHeaders: seq<string> := ["Date", "Dreams Count", "Active Users"]

  function CsvRow(g: GrowthRow): string {
    g.name + "," + Decimal(g.dreams) + "," + Decimal(g.users)
  }

  function CsvLines(growth: seq<GrowthRow>): (r: seq<string>)
    ensures |r| == |growth| + 1
  {
    [Join(CsvHeaders, ',')] + seq(|growth|, i requires 0 <= i < |growth| => CsvRow(growth[i]))
  }

  /** `handleExportCSV`'s content; None (no export) when there is no data. */
  function CsvContent(growth: seq<GrowthRow>): Option<string> {
    if |growth| == 0 then None else Some(Join(CsvLines(growth), '\n'))
  }

  lemma DecimalHasNoSeparator(n: int, sep: char)
    requires sep == ',' || sep == '\n'
    ensures sep !in Decimal(n)
  {
  }

  lemma CsvHeaderLine()
    ensures Join(CsvHeaders, ',') == "Date,Dreams Count,Active Users"
  {
    assert CsvHeaders[1..][1..] == ["Active Users"];
  }

  lemma CsvLinesHaveNoBreak(growth: seq<GrowthRow>)
    requires forall i :: 0 <= i < |growth| ==> '\n' !in growth[i].name
    ensures forall k :: 0 <= k < |CsvLines(growth)| ==> '\n' !in CsvLines(growth)[k]
  {
    var ls := CsvLines(growth);
    CsvHeaderLine();
    forall k | 0 <= k < |ls| ensures '\n' !in ls[k] {
      if k > 0 {
        var g := growth[k - 1];
        assert ls[k] == CsvRow(g);
        DecimalHasNoSeparator(g.dreams, '\n');
        DecimalHasNoSeparator(g.users, '\n');
      }
    }
  }

  /** With data, the report has one line per entry after the header line
      `Date,Dreams Count,Active Users`, and line i + 1 is entry i's name and two counts. A date
      name without a line break is assumed, as the view produces. */
  lemma CsvShape(growth: seq<GrowthRow>)
    requires forall i :: 0 <= i < |growth| ==> '\n' !in growth[i].name
    ensures CsvContent(growth).None? <==> growth == []
    ensures growth != [] ==>
      var lines := Split(CsvContent(growth).value, '\n');
      && |lines| == |growth| + 1
      && lines[0] == "Date,Dreams Count,Active Users"
      && forall i :: 0 <= i < |growth| ==>
           lines[i + 1] == growth[i].name + "," + Decimal(growth[i].dreams) + "," + Decimal(growth[i].users)
  {
    if growth != [] {
      CsvHeaderLine();
      CsvLinesHaveNoBreak(growth);
      SplitJoin(CsvLines(growth), '\n');
      assert forall i :: 0 <= i < |growth| ==> CsvLines(growth)[i + 1] == CsvRow(growth[i]);
    }
  }

  /** A report line splits back into its three fields when the name holds no comma. */
  lemma CsvRowFields(g: GrowthRow)
    requires ',' !in g.name
    ensures Split(CsvRow(g), ',') == [g.name, Decimal(g.dreams), Decimal(g.users)]
  {
    DecimalHasNoSeparator(g.dreams, ',');
    DecimalHasNoSeparator(g.users, ',');
    var parts := [g.name, Decimal(g.dreams), Decimal(g.users)];
    assert Join(parts, ',') == CsvRow(g) by {
      assert parts[1..][1..] == [Decimal(g.users)];
      assert Join(parts[1..], ',') == Decimal(g.dreams) + [','] + Decimal(g.users);
      assert Join(parts, ',') == g.name + [','] + (Decimal(g.dreams) + [','] + Decimal(g.users));
    }
    SplitJoin(parts, ',');
  }

  // ---------------------------------------------------------------------------------------------
  // Audit helper

  /** `logAdminAction`: one `ADMIN_`-prefixed audit row for the signed-in administrator, none
      without a session. */
  function AdminLogWrites(session: Option<UserId>, action: string, details: Details): (ws: seq<Write>)
    ensures |ws| <= 1
    ensures session.None? <==> ws == []
    ensures ws != [] ==> ws[0] == InsertAudit(AuditRow(session.value, "ADMIN_" + action, details))
  {
    if session.Some? then [InsertAudit(AuditRow(session.value, "ADMIN_" + action, details))] else []
  }

  method LogAdminAction(db: Database, session: Option<UserId>, action: string, details: Details)
    requires db.Valid()
    modifies db
    ensures db.Valid() && db.log == old(db.log) + AdminLogWrites(session, action, details)
  {
    if session.Some? {
      db.Perform(InsertAudit(AuditRow(session.value, "ADMIN_" + action, details)));
    }
  }

  /** `toggleSetting`: the setting gets the negated value, which the log records too. */
  function ToggleWrites(session: Option<UserId>, key: string, current: bool): seq<Write> {
    [UpdateSetting(key, !current)] + AdminLogWrites(session, "TOGGLE_SETTING", SettingDetails(key, !current))
  }

  /** A toggle changes that one setting, to the negation of the value shown, and logs the new
      value; every other setting keeps its value. */
  lemma ToggleEffect(t: Tables, session: Option<UserId>, key: string, current: bool)
    ensures var t' := ApplyAll(t, ToggleWrites(session, key, current));
      && t'.settings.Keys == t.settings.Keys
      && (key in t.settings ==> t'.settings[key] == !current)
      && (forall k :: k in t.settings && k != key ==> t'.settings[k] == t.settings[k])
    ensures forall w :: w in ToggleWrites(session, key, current) && w.InsertAudit? ==>
      w.entry.details == SettingDetails(key, !current)
  {
    var update := UpdateSetting(key, !current);
    var settings := if key in t.settings then t.settings[key := !current] else t.settings;
    ApplyAllSnoc(t, [], update);
    assert ApplyAll(t, [update]).settings == settings;
    if session.Some? {
      var entry := AdminLogWrites(session, "TOGGLE_SETTING", SettingDetails(key, !current))[0];
      assert ToggleWrites(session, key, current) == [update] + [entry];
      ApplyAllSnoc(t, [update], entry);
    } else {
      assert ToggleWrites(session, key, current) == [update];
    }
    assert ApplyAll(t, ToggleWrites(session, key, current)).settings == settings;
  }

  /** The note `handleSaveEdit` stores; `localDate` is the Thai-locale date text. */
  function EditNote(localDate: string): string {
    "Edited by Admin on " + localDate
  }

  /** A saved edit rewrites one interpretation's analysis and note; every other row is kept. */
  lemma SaveEditTouchesOneRow(t: Tables, id: nat, text: string, localDate: string)
    requires WellFormed(t) && id < |t.interpretations|
    ensures var rs := Apply(t, UpdateInterpretation(id, text, EditNote(localDate))).interpretations;
      && |rs| == |t.interpretations|
      && rs[id] == t.interpretations[id].(analysisText := text, researcherNote := Some(EditNote(localDate)))
      && forall i :: 0 <= i < |rs| && i != id ==> rs[i] == t.interpretations[i]
  {
  }

  // ---------------------------------------------------------------------------------------------
  // The page

  datatype Download = Download(fileName: string, content: string)

  const AccessDeniedText: string := "สำหรับผู้ดูแลระบบเท่านั้น (Access Denied)"

  class AdminPage {
    var isAuthorized: bool
    var growthData: seq<GrowthRow>
    var editingDream: Option<AdminDream>
    var newAnalysis: string
    var toast: Option<Toast>
    var route: Option<string>
    var download: Option<Download>
    /** How many times `fetchAllData` has been started. */
    var reloads: nat

    constructor ()
      ensures !isAuthorized && growthData == [] && editingDream.None? && newAnalysis == ""
      ensures toast.None? && route.None? && download.None? && reloads == 0
    {
      isAuthorized, growthData, editingDream, newAnalysis := false, [], None, "";
      toast, route, download, reloads := None, None, None, 0;
    }

    /** `checkAdmin`: only a granted administrator sees the page and triggers a load. */
    method CheckAdmin(user: Option<UserId>, lookup: RoleLookup)
      modifies this
      ensures isAuthorized <==> old(isAuthorized) || AdminAccess(user, lookup) == Granted
      ensures AdminAccess(user, lookup) == RedirectLogin ==>
        route == Some("/login") && toast == old(toast) && reloads == old(reloads)
      ensures AdminAccess(user, lookup) == Denied ==>
        route == Some("/dashboard") && toast == Some(Failure(AccessDeniedText)) && reloads == old(reloads)
      ensures AdminAccess(user, lookup) == Granted ==>
        route == old(route) && toast == old(toast) && reloads == old(reloads) + 1
      ensures growthData == old(growthData) && editingDream == old(editingDream)
      ensures newAnalysis == old(newAnalysis) && download == old(download)
    {
      if user.None? {
        route := Some("/login");
        return;
      }
      if lookup.LookupError? || lookup.role != Some("admin") {
        toast := Some(Failure(AccessDeniedText));
        route := Some("/dashboard");
        return;
      }
      isAuthorized := true;
      reloads := reloads + 1;
    }

    /** `handleExportCSV`: without data a warning and nothing else; otherwise the report file
        for `today` and one EXPORT_REPORT entry. */
    method ExportCsv(db: Database, session: Option<UserId>, today: Day)
      requires db.Valid()
      modifies this, db
      ensures db.Valid()
      ensures growthData == [] ==>
        db.log == old(db.log) && download == old(download) && toast == Some(Warning("ไม่มีข้อมูลให้ Export"))
      ensures growthData != [] ==>
        && download == Some(Download("dreampsyche_report_" + today + ".csv", CsvContent(growthData).value))
        && db.log == old(db.log) + AdminLogWrites(session, "EXPORT_REPORT", ExportDetails("csv"))
        && toast == old(toast)
      ensures growthData == old(growthData) && editingDream == old(editingDream) && reloads == old(reloads)
      ensures isAuthorized == old(isAuthorized) && route == old(route) && newAnalysis == old(newAnalysis)
    {
      if |growthData| == 0 {
        toast := Some(Warning("ไม่มีข้อมูลให้ Export"));
        return;
      }
      var csvContent := Join(CsvLines(growthData), '\n');
      download := Some(Download("dreampsyche_report_" + today + ".csv", csvContent));
      LogAdminAction(db, session, "EXPORT_REPORT", ExportDetails("csv"));
    }

    /** `handleDeleteDream`: after confirmation, a soft delete, its log entry and a reload. */
    method DeleteDream(db: Database, session: Option<UserId>, confirmed: bool, id: nat, now: Timestamp)
      requires db.Valid()
      modifies this, db
      ensures db.Valid()
      ensures !confirmed ==> db.log == old(db.log) && reloads == old(reloads) && toast == old(toast)
      ensures confirmed ==>
        && db.log == old(db.log) + [SoftDeleteDream(id, now)] + AdminLogWrites(session, "DELETE_DREAM", DreamDetails(id))
        && toast == Some(Success("ลบสำเร็จ")) && reloads == old(reloads) + 1
      ensures growthData == old(growthData) && editingDream == old(editingDream) && download == old(download)
      ensures isAuthorized == old(isAuthorized) && route == old(route) && newAnalysis == old(newAnalysis)
    {
      if !confirmed {
        return;
      }
      db.Perform(SoftDeleteDream(id, now));
      LogAdminAction(db, session, "DELETE_DREAM", DreamDetails(id));
      toast := Some(Success("ลบสำเร็จ"));
      reloads := reloads + 1;
    }

    /** `handleSaveEdit`: nothing without a dream whose first interpretation exists; otherwise
        the update of that interpretation only, and, when the store accepts it, the
        EDIT_INTERPRETATION entry, the closed dialog and a reload. */
    method SaveEdit(db: Database, session: Option<UserId>, updateOk: bool, localDate: string)
      requires db.Valid()
      modifies this, db
      ensures db.Valid()
      ensures old(editingDream).None? || old(editingDream).value.interpretationIds == [] ==>
        db.log == old(db.log) && editingDream == old(editingDream) && toast == old(toast) && reloads == old(reloads)
      ensures old(editingDream).Some? && old(editingDream).value.interpretationIds != [] ==>
        var d := old(editingDream).value;
        if updateOk then
          && db.log == old(db.log) + [UpdateInterpretation(d.interpretationIds[0], newAnalysis, EditNote(localDate))]
                       + AdminLogWrites(session, "EDIT_INTERPRETATION", DreamDetails(d.id))
          && toast == Some(Success("แก้ไขเรียบร้อย")) && editingDream.None? && reloads == old(reloads) + 1
        else
          db.log == old(db.log) && toast == Some(Failure("บันทึกไม่สำเร็จ"))
          && editingDream == old(editingDream) && reloads == old(reloads)
      ensures growthData == old(growthData) && download == old(download) && newAnalysis == old(newAnalysis)
      ensures isAuthorized == old(isAuthorized) && route == old(route)
    {
      if editingDream.None? || editingDream.value.interpretationIds == [] {
        return;
      }
      var d := editingDream.value;
      if !updateOk {
        toast := Some(Failure("บันทึกไม่สำเร็จ"));
        return;
      }
      db.Perform(UpdateInterpretation(d.interpretationIds[0], newAnalysis, EditNote(localDate)));
      LogAdminAction(db, session, "EDIT_INTERPRETATION", DreamDetails(d.id));
      toast := Some(Success("แก้ไขเรียบร้อย"));
      editingDream := None;
      reloads := reloads + 1;
    }

    /** `toggleSetting`: the negated value is stored and logged, then a reload. */
    method ToggleSetting(db: Database, session: Option<UserId>, key: string, currentValue: bool)
      requires db.Valid()
      modifies this, db
      ensures db.Valid()
      ensures db.log == old(db.log) + ToggleWrites(session, key, currentValue)
      ensures reloads == old(reloads) + 1 && toast == old(toast)
      ensures growthData == old(growthData) && editingDream == old(editingDream) && download == old(download)
      ensures isAuthorized == old(isAuthorized) && route == old(route) && newAnalysis == old(newAnalysis)
    {
      db.Perform(UpdateSetting(key, !currentValue));
      LogAdminAction(db, session, "TOGGLE_SETTING", SettingDetails(key, !currentValue));
      reloads := reloads + 1;
    }

    /** `handleBanUser`: after confirmation, the user's soft delete, the BAN_USER entry naming
        the email, and a reload. */
    method BanUser(db: Database, session: Option<UserId>, confirmed: bool, userId: UserId, email: string,
                   now: Timestamp)
      requires db.Valid()
      modifies this, db
      ensures db.Valid()
      ensures !confirmed ==> db.log == old(db.log) && reloads == old(reloads) && toast == old(toast)
      ensures confirmed ==>
        && db.log == old(db.log) + [SoftDeleteUser(userId, now)] + AdminLogWrites(session, "BAN_USER", BanDetails(email))
        && toast == Some(Success("แบนผู้ใช้สำเร็จ")) && reloads == old(reloads) + 1
      ensures growthData == old(growthData) && editingDream == old(editingDream) && download == old(download)
      ensures isAuthorized == old(isAuthorized) && route == old(route) && newAnalysis == old(newAnalysis)
    {
      if !confirmed {
        return;
      }
      db.Perform(SoftDeleteUser(userId, now));
      LogAdminAction(db, session, "BAN_USER", BanDetails(email));
      toast := Some(Success("แบนผู้ใช้สำเร็จ"));
      reloads := reloads + 1;
    }
  }
}
