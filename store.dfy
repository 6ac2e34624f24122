/** The hosted relational store as the application sees it: the tables it reads and writes, the
    writes it issues (in order), and the identity provider's calls. Row identifiers are serial:
    the n-th row inserted into `dreams` or `interpretations` gets id n. */
module Store {
  import opened Common

  type UserId = string
  /** The calendar-day key `new Date().toISOString().split('T')[0]`, taken as given. */
  type Day = string
  type Timestamp = int

  datatype DreamRow = DreamRow(
    id: nat,
    userId: Option<UserId>,
    dreamText: string,
    embedding: seq<real>,
    tags: seq<string>,
    createdAt: Timestamp,
    deletedAt: Option<Timestamp>)

  /** `luckyNumbers` is the `number_text` inside the `lucky_numbers` JSON column (None when the
      column or the key is absent). */
  datatype InterpretationRow = InterpretationRow(
    id: nat,
    dreamId: nat,
    analysisText: string,
    luckyNumbers: Option<string>,
    stress: int,
    anxiety: int,
    happiness: int,
    researcherNote: Option<string>)

  /** The `details` payload of an `audit_logs` row, one shape per action that writes one. */
  datatype Details =
    | InterpretDetails(dreamId: nat, inputType: string, timestamp: Timestamp)
    | RegisterDetails(signupMethod: string, timestamp: Timestamp)
    | LoginDetails(timestamp: Timestamp)
    | ExportDetails(kind: string)
    | DreamDetails(dreamId: nat)
    | SettingDetails(key: string, newValue: bool)
    | BanDetails(targetUser: string)

  datatype AuditRow = AuditRow(userId: UserId, action: string, details: Details)

  datatype SymbolEntry = SymbolEntry(meaning: string, culturalContext: string)

  datatype UserRow = UserRow(
    email: Option<string>,
    role: Option<string>,
    gender: string,
    birthDate: string,
    location: string,
    deletedAt: Option<Timestamp>)

  datatype ConsentRow = ConsentRow(userId: UserId, consentType: string, isAccepted: bool)

  datatype Tables = Tables(
    usage: map<(UserId, Day), int>,
    dreams: seq<DreamRow>,
    interpretations: seq<InterpretationRow>,
    auditLogs: seq<AuditRow>,
    symbols: map<string, SymbolEntry>,
    users: map<UserId, UserRow>,
    consents: seq<ConsentRow>,
    settings: map<string, bool>)

  /** One write the application sends to the store. Updates filter on a key (`.eq(...)`) and
      leave the tables alone when no row has it; upserts insert or overwrite by their key. */
  datatype Write =
    | InsertDream(dream: DreamRow)
    | InsertInterpretation(interpretation: InterpretationRow)
    | UpsertUsage(user: UserId, day: Day, count: int)
    | InsertAudit(entry: AuditRow)
    | UpsertSymbol(word: string, symbol: SymbolEntry)
    | UpdateProfile(profileOf: UserId, gender: string, birthDate: string, location: string)
    | InsertConsent(consent: ConsentRow)
    | UpdateSetting(key: string, value: bool)
    | UpdateInterpretation(interpretationId: nat, analysisText: string, researcherNote: string)
    | SoftDeleteDream(dreamId: nat, at: Timestamp)
    | SoftDeleteUser(bannedUser: UserId, at: Timestamp)

  /** Calls to the identity provider. */
  datatype AuthCall =
    | SignUp(email: string, password: string)
    | SignIn(email: string, password: string)
    | ResetForEmail(resetEmail: string, redirectTo: string)
    | UpdateUser(newPassword: string)
    | SignOut

  /** The `user_usage` count for (user, day); a missing row reads as 0. */
  function UsageOf(t: Tables, u: UserId, d: Day): int {
    if (u, d) in t.usage then t.usage[(u, d)] else 0
  }

  function MarkDreamDeleted(ds: seq<DreamRow>, id: nat, at: Timestamp): (r: seq<DreamRow>)
    ensures |r| == |ds|
  {
    seq(|ds|, i requires 0 <= i < |ds| =>
      if ds[i].id == id then ds[i].(deletedAt := Some(at)) else ds[i])
  }

  function EditInterpretation(rs: seq<InterpretationRow>, id: nat, text: string, note: string)
    : (r: seq<InterpretationRow>)
    ensures |r| == |rs|
  {
    seq(|rs|, i requires 0 <= i < |rs| =>
      if rs[i].id == id then rs[i].(analysisText := text, researcherNote := Some(note)) else rs[i])
  }

  function Apply(t: Tables, w: Write): Tables {
    match w
    case InsertDream(d) => t.(dreams := t.dreams + [d])
    case InsertInterpretation(r) => t.(interpretations := t.interpretations + [r])
    case UpsertUsage(u, d, n) => t.(usage := t.usage[(u, d) := n])
    case InsertAudit(a) => t.(auditLogs := t.auditLogs + [a])
    case UpsertSymbol(word, e) => t.(symbols := t.symbols[word := e])
    case UpdateProfile(u, g, b, l) =>
      if u in t.users then t.(users := t.users[u := t.users[u].(gender := g, birthDate := b, location := l)])
      else t
    case InsertConsent(c) => t.(consents := t.consents + [c])
    case UpdateSetting(k, v) =>
      if k in t.settings then t.(settings := t.settings[k := v]) else t
    case UpdateInterpretation(id, text, note) =>
      t.(interpretations := EditInterpretation(t.interpretations, id, text, note))
    case SoftDeleteDream(id, at) => t.(dreams := MarkDreamDeleted(t.dreams, id, at))
    case SoftDeleteUser(u, at) =>
      if u in t.users then t.(users := t.users[u := t.users[u].(deletedAt := Some(at))]) else t
  }

  /** The tables after the writes `ws`, in order. */
  function ApplyAll(t: Tables, ws: seq<Write>): Tables
    decreases |ws|
  {
    if ws == [] then t else Apply(ApplyAll(t, ws[..|ws| - 1]), ws[|ws| - 1])
  }

  lemma {:induction false} ApplyAllConcat(t: Tables, a: seq<Write>, b: seq<Write>)
    ensures ApplyAll(t, a + b) == ApplyAll(ApplyAll(t, a), b)
    decreases |b|
  {
    if b == [] {
      assert a + b == a;
    } else {
      ApplyAllConcat(t, a, b[..|b| - 1]);
      assert (a + b)[..|a + b| - 1] == a + b[..|b| - 1];
    }
  }

  lemma ApplyAllSnoc(t: Tables, ws: seq<Write>, w: Write)
    ensures ApplyAll(t, ws + [w]) == Apply(ApplyAll(t, ws), w)
  {
    assert (ws + [w])[..|ws|] == ws;
  }

  /** Serial identifiers: row i of `dreams` and of `interpretations` has id i. */
  ghost predicate WellFormed(t: Tables) {
    && (forall i :: 0 <= i < |t.dreams| ==> t.dreams[i].id == i)
    && (forall i :: 0 <= i < |t.interpretations| ==> t.interpretations[i].id == i)
  }

  /** An insert carries the next serial id. */
  predicate Admissible(t: Tables, w: Write) {
    match w
    case InsertDream(d) => d.id == |t.dreams|
    case InsertInterpretation(r) => r.id == |t.interpretations|
    case _ => true
  }

  lemma ApplyKeepsWellFormed(t: Tables, w: Write)
    requires WellFormed(t) && Admissible(t, w)
    ensures WellFormed(Apply(t, w))
  {
  }

  /** A soft delete changes exactly the one row with that id, and only its `deletedAt`. */
  lemma SoftDeleteTouchesOneRow(t: Tables, id: nat, at: Timestamp)
    requires WellFormed(t) && id < |t.dreams|
    ensures var ds := Apply(t, SoftDeleteDream(id, at)).dreams;
      && |ds| == |t.dreams|
      && ds[id] == t.dreams[id].(deletedAt := Some(at))
      && forall i :: 0 <= i < |ds| && i != id ==> ds[i] == t.dreams[i]
  {
  }

  class Database {
    var usage: map<(UserId, Day), int>
    var dreams: seq<DreamRow>
    var interpretations: seq<InterpretationRow>
    var auditLogs: seq<AuditRow>
    var symbols: map<string, SymbolEntry>
    var users: map<UserId, UserRow>
    var consents: seq<ConsentRow>
    var settings: map<string, bool>
    /** Every write this store has received, oldest first. */
    var log: seq<Write>
    /** The tables as they were when the store was opened. */
    ghost const initial: Tables

    function State(): Tables
      reads this
    {
      Tables(usage, dreams, interpretations, auditLogs, symbols, users, consents, settings)
    }

    /** Serial ids, and the tables are the opening tables after the logged writes. */
    ghost predicate Valid()
      reads this
    {
      WellFormed(State()) && State() == ApplyAll(initial, log)
    }

    constructor (opening: Tables)
      requires WellFormed(opening)
      ensures Valid() && State() == opening && log == []
    {
      usage, dreams, interpretations := opening.usage, opening.dreams, opening.interpretations;
      auditLogs, symbols, users := opening.auditLogs, opening.symbols, opening.users;
      consents, settings := opening.consents, opening.settings;
      log := [];
      initial := opening;
    }

    /** The writes since an earlier state of the log take that state's tables to the current
        ones. */
    lemma LogDeterminesState(earlier: seq<Write>, ws: seq<Write>)
      requires Valid() && log == earlier + ws
      ensures State() == ApplyAll(ApplyAll(initial, earlier), ws)
    {
      ApplyAllConcat(initial, earlier, ws);
    }

    /** Carry out one write and record it in the log. */
    method Perform(w: Write)
      requires Valid() && Admissible(State(), w)
      modifies this
      ensures Valid()
      ensures State() == Apply(old(State()), w)
      ensures log == old(log) + [w]
    {
      ApplyKeepsWellFormed(State(), w);
      ApplyAllSnoc(initial, log, w);
      var t := Apply(State(), w);
      usage, dreams, interpretations := t.usage, t.dreams, t.interpretations;
      auditLogs, symbols, users := t.auditLogs, t.symbols, t.users;
      consents, settings := t.consents, t.settings;
      log := log + [w];
      assert State() == t;
    }
  }
}
