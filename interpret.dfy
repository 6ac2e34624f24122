/** The dream-interpretation endpoint (`POST /api/interpret`). The embedding API, the
    `match_dreams` similarity RPC, the chat completion and the clock are inputs (`Env`); the store
    is a `Database`. `Run` states what the handler answers, which external calls it makes and
    which writes it sends, in order; `Handle` is the handler and is proved to do exactly that. */
module Interpret {
  import opened Common
  import opened Store

  const EmptyTextError: string := "กรุณาระบุความฝัน"
  const ThaiOnlyError: string := "ระบบรองรับเฉพาะภาษาไทยครับ"
  const QuotaError: string := "โควต้าวันนี้เต็มแล้ว (5/5)"
  /** The apology the model writes when it declines; such answers are not stored. */
  const RefusalMarker: string := "ขออภัย"
  const ContextHeader: string := "\n[ประวัติเดิม]: \n"
  const InterpretAction: string := "INTERPRET_DREAM"
  const AiSymbol: SymbolEntry := SymbolEntry("AI Generated", "Thai")
  const DailyQuota: int := 5
  const ExactMatchSimilarity: real := 0.96
  const MatchCount: nat := 3

  // ---------------------------------------------------------------------------------------------
  // Validation and classification

  /** The Unicode Standard's Thai block, U+0E00..U+0E7F (`THAI_REGEX`). */
  predicate IsThaiChar(c: char) {
    '\U{0E00}' <= c <= '\U{0E7F}'
  }

  function ContainsThai(s: string): (b: bool)
    ensures b <==> exists i :: 0 <= i < |s| && IsThaiChar(s[i])
  {
    if s == [] then false
    else
      var rest := ContainsThai(s[1..]);
      assert forall j :: 0 <= j < |s| - 1 ==> s[1..][j] == s[j + 1];
      IsThaiChar(s[0]) || rest
  }

  datatype Mode = SingleSymbol | FullStory

  function ModeName(m: Mode): string {
    match m
    case SingleSymbol => "single_symbol"
    case FullStory => "full_story"
  }

  /** `isSingleWord`: shorter than 20 UTF-16 code units and no space character. */
  function ModeOf(text: string): Mode {
    if JsLength(text) < 20 && !Includes(text, " ") then SingleSymbol else FullStory
  }

  /** The `match_threshold` sent to the similarity RPC. */
  function Threshold(m: Mode): real {
    if m == SingleSymbol then 0.85 else 0.75
  }

  lemma SpaceIncludedIff(s: string)
    ensures Includes(s, " ") <==> exists i :: 0 <= i < |s| && s[i] == ' '
  {
    if exists i :: 0 <= i < |s| && s[i] == ' ' {
      var i :| 0 <= i < |s| && s[i] == ' ';
      assert IsPrefix(" ", s[i..]);
    }
    if Includes(s, " ") {
      var i :| 0 <= i <= |s| && IsPrefix(" ", s[i..]);
      assert s[i..][..1][0] == s[i];
    }
  }

  /** Single-symbol mode, and with it the 0.85 threshold, exactly for texts under 20 characters
      without a space (U+0020; other white space does not count). */
  lemma SingleSymbolIff(s: string)
    ensures ModeOf(s) == SingleSymbol <==> JsLength(s) < 20 && forall i :: 0 <= i < |s| ==> s[i] != ' '
    ensures Threshold(ModeOf(s)) == if ModeOf(s) == SingleSymbol then 0.85 else 0.75
  {
    SpaceIncludedIff(s);
  }

  // ---------------------------------------------------------------------------------------------
  // Retrieval and the semantic cache

  /** One row of the similarity RPC's answer. */
  datatype Candidate = Candidate(id: nat, dreamText: string, similarity: real)

  /** `similarDreams.find(d => d.similarity > 0.96)`. */
  function ExactMatch(cs: seq<Candidate>): (r: Option<Candidate>)
    ensures r.None? <==> forall i :: 0 <= i < |cs| ==> cs[i].similarity <= ExactMatchSimilarity
    ensures r.Some? ==>
      exists i :: 0 <= i < |cs| && cs[i] == r.value && cs[i].similarity > ExactMatchSimilarity
        && forall j :: 0 <= j < i ==> cs[j].similarity <= ExactMatchSimilarity
  {
    if cs == [] then None
    else if cs[0].similarity > ExactMatchSimilarity then Some(cs[0])
    else
      var rest := ExactMatch(cs[1..]);
      assert forall j :: 0 <= j < |cs| - 1 ==> cs[1..][j] == cs[j + 1];
      rest
  }

  /** The interpretation read back for a cached dream: `.single()` yields a row only when exactly
      one interpretation belongs to that dream. */
  function StoredInterpretation(t: Tables, dreamId: nat): (r: Option<InterpretationRow>)
    ensures r.Some? <==> |Filter(t.interpretations, (x: InterpretationRow) => x.dreamId == dreamId)| == 1
    ensures r.Some? ==> r.value in t.interpretations && r.value.dreamId == dreamId
  {
    var rows := Filter(t.interpretations, (x: InterpretationRow) => x.dreamId == dreamId);
    if |rows| == 1 then Some(rows[0]) else None
  }

  /** `cachedInterp.lucky_numbers?.number_text || "-"`. */
  function LuckyNumbersShown(o: Option<string>): string {
    if o.Some? && o.value != "" then o.value else "-"
  }

  function Bullets(cs: seq<Candidate>): (r: seq<string>)
    ensures |r| == |cs|
  {
    seq(|cs|, i requires 0 <= i < |cs| => "- " + cs[i].dreamText)
  }

  /** The grounding text put into the prompt: empty without similar dreams, otherwise the header
      and one `- dream_text` line per candidate. */
  function ContextText(cs: seq<Candidate>): string {
    if |cs| > 0 then ContextHeader + Join(Bullets(cs), '\n') else ""
  }

  /** The context is empty exactly without similar dreams, and otherwise starts with the header. */
  lemma ContextTextShape(cs: seq<Candidate>)
    ensures ContextText(cs) == "" <==> cs == []
    ensures cs != [] ==> IsPrefix(ContextHeader, ContextText(cs))
  {
    if cs != [] {
      assert ContextText(cs)[..|ContextHeader|] == ContextHeader;
    }
  }

  /** After the header, the context splits back into one bullet line per candidate, in order,
      as long as no candidate's text holds a line break of its own. */
  lemma ContextTextLines(cs: seq<Candidate>)
    requires forall i :: 0 <= i < |cs| ==> '\n' !in cs[i].dreamText
    ensures cs != [] ==>
      var lines := Split(ContextText(cs)[|ContextHeader|..], '\n');
      |lines| == |cs| && forall i :: 0 <= i < |cs| ==> lines[i] == "- " + cs[i].dreamText
  {
    if cs != [] {
      var c := ContextText(cs);
      assert c[..|ContextHeader|] == ContextHeader;
      assert c[|ContextHeader|..] == Join(Bullets(cs), '\n');
      forall k | 0 <= k < |cs| ensures '\n' !in Bullets(cs)[k] {
        assert Bullets(cs)[k] == "- " + cs[k].dreamText;
      }
      SplitJoin(Bullets(cs), '\n');
    }
  }

  // ---------------------------------------------------------------------------------------------
  // The completion and what is stored from it

  datatype Metrics = Metrics(stress: Option<int>, anxiety: Option<int>, happiness: Option<int>)

  /** The parsed JSON answer: `analysis`, `lucky_numbers`, `metrics`, `tags`, each possibly absent. */
  datatype Completion = Completion(
    analysis: Option<string>,
    luckyNumbers: Option<string>,
    metrics: Option<Metrics>,
    tags: Option<seq<string>>)

  datatype CompletionOutcome =
    | UpstreamFailure        // the completion API call failed
    | Unparseable            // `JSON.parse` threw
    | Parsed(result: Completion)

  /** `result.metrics?.x || 0`: an absent metrics object or score is stored as 0. */
  function MetricOrZero(ms: Option<Metrics>, pick: Metrics -> Option<int>): int {
    if ms.Some? && pick(ms.value).Some? then pick(ms.value).value else 0
  }

  function TagsOf(r: Completion): seq<string> {
    if r.tags.Some? then r.tags.value else []
  }

  /** The refusal gate: only an authenticated caller's answer without the apology is stored. */
  predicate ShouldPersist(user: Option<UserId>, r: Completion) {
    user.Some? && r.analysis.Some? && !Includes(r.analysis.value, RefusalMarker)
  }

  // ---------------------------------------------------------------------------------------------
  // The handler as a function of its inputs

  /** Everything the handler learns from outside the store. */
  datatype Env = Env(
    user: Option<UserId>,            // `supabase.auth.getUser()`
    today: Day,
    now: Timestamp,
    embedding: Option<seq<real>>,    // None: the embedding API failed
    similar: seq<Candidate>,         // the RPC's rows in its order (a null answer reads as [])
    completion: CompletionOutcome,
    dreamInsertOk: bool)             // whether `dreams.insert(...).select().single()` returns a row

  /** The external calls and store reads the handler makes, in order. */
  datatype Call =
    | GetUser
    | ReadUsage(usageOf: UserId, day: Day)
    | Embed(input: string)
    | MatchDreams(queryEmbedding: seq<real>, threshold: real, count: nat, ownerFilter: Option<UserId>)
    | ReadInterpretation(dreamId: nat)
    | Complete(mode: Mode, context: string, userText: string)

  datatype Response =
    | BadRequest(error: string)                         // 400
    | TooMany(error: string)                            // 429
    | Cached(analysis: string, luckyNumbers: string)    // 200, is_cached: true
    | Fresh(result: Completion)                         // 200, the parsed answer as it came
    | ServerError                                       // 500


  datatype Outcome = Outcome(response: Response, calls: seq<Call>, writes: seq<Write>)

  predicate Accepted(body: Option<string>) {
    body.Some? && body.value != "" && ContainsThai(body.value)
  }

  /** `currentUsageCount`: the day's count for a signed-in caller, 0 for a guest. */
  function CountBefore(t: Tables, env: Env): int {
    if env.user.Some? then UsageOf(t, env.user.value, env.today) else 0
  }

  /** The usage upsert after a counted request: the absolute value count + 1, for a signed-in
      caller only. */
  function UsageWrite(env: Env, count: int): seq<Write> {
    if env.user.Some? then [UpsertUsage(env.user.value, env.today, count + 1)] else []
  }

  function SymbolWrites(tags: seq<string>): (ws: seq<Write>)
    ensures |ws| == |tags|
  {
    seq(|tags|, i requires 0 <= i < |tags| => UpsertSymbol(tags[i], AiSymbol))
  }

  function NewDream(t: Tables, env: Env, text: string, r: Completion): DreamRow
    requires env.user.Some? && env.embedding.Some?
  {
    DreamRow(|t.dreams|, env.user, text, env.embedding.value, TagsOf(r), env.now, None)
  }

  function NewInterpretation(t: Tables, dreamId: nat, r: Completion): InterpretationRow
    requires r.analysis.Some?
  {
    InterpretationRow(|t.interpretations|, dreamId, r.analysis.value, r.luckyNumbers,
      MetricOrZero(r.metrics, (m: Metrics) => m.stress),
      MetricOrZero(r.metrics, (m: Metrics) => m.anxiety),
      MetricOrZero(r.metrics, (m: Metrics) => m.happiness),
      None)
  }

  /** The four rows a stored answer adds, in the order they are written. */
  function PersistHead(t: Tables, env: Env, text: string, mode: Mode, count: int, r: Completion)
    : seq<Write>
    requires env.user.Some? && env.embedding.Some? && r.analysis.Some?
  {
    var d := NewDream(t, env, text, r);
    [ InsertDream(d),
      InsertInterpretation(NewInterpretation(t, d.id, r)),
      UpsertUsage(env.user.value, env.today, count + 1),
      InsertAudit(AuditRow(env.user.value, InterpretAction, InterpretDetails(d.id, ModeName(mode), env.now))) ]
  }

  /** The writes of the save step once the gate has passed: nothing when the dream insert returns
      no row; otherwise dream, interpretation, usage, audit entry, then one upsert per tag. */
  function PersistWrites(t: Tables, env: Env, text: string, mode: Mode, count: int, r: Completion)
    : seq<Write>
    requires env.user.Some? && env.embedding.Some? && r.analysis.Some?
  {
    if !env.dreamInsertOk then [] else PersistHead(t, env, text, mode, count, r) + SymbolWrites(TagsOf(r))
  }

  /** The generation step, after a cache miss. */
  function Generate(t: Tables, env: Env, text: string, mode: Mode, count: int, calls: seq<Call>): Outcome
    requires env.embedding.Some?
  {
    var calls' := calls + [Complete(mode, ContextText(env.similar), text)];
    match env.completion
    case UpstreamFailure => Outcome(ServerError, calls', [])
    case Unparseable => Outcome(ServerError, calls', [])
    case Parsed(r) =>
      if env.user.None? then Outcome(Fresh(r), calls', [])
      // `result.analysis.includes(...)` on a missing analysis throws
      else if r.analysis.None? then Outcome(ServerError, calls', [])
      else if Includes(r.analysis.value, RefusalMarker) then Outcome(Fresh(r), calls', [])
      else Outcome(Fresh(r), calls', PersistWrites(t, env, text, mode, count, r))
  }

  /** The semantic cache and, on a miss, generation; `calls` are those made so far. */
  function Answer(t: Tables, env: Env, text: string, mode: Mode, count: int, calls: seq<Call>): Outcome
    requires env.embedding.Some?
  {
    var hit := ExactMatch(env.similar);
    if hit.None? then Generate(t, env, text, mode, count, calls)
    else
      var calls' := calls + [ReadInterpretation(hit.value.id)];
      var cached := StoredInterpretation(t, hit.value.id);
      if cached.Some? then
        Outcome(Cached(cached.value.analysisText, LuckyNumbersShown(cached.value.luckyNumbers)),
          calls', UsageWrite(env, count))
      else Generate(t, env, text, mode, count, calls')
  }

  function Run(body: Option<string>, env: Env, t: Tables): Outcome {
    if body.None? || body.value == "" then Outcome(BadRequest(EmptyTextError), [], [])
    else if !ContainsThai(body.value) then Outcome(BadRequest(ThaiOnlyError), [], [])
    else
      var text := body.value;
      var mode := ModeOf(text);
      var count := CountBefore(t, env);
      var lookup := [GetUser] + (if env.user.Some? then [ReadUsage(env.user.value, env.today)] else []);
      if env.user.Some? && count >= DailyQuota then Outcome(TooMany(QuotaError), lookup, [])
      else if env.embedding.None? then Outcome(ServerError, lookup + [Embed(text)], [])
      else
        Answer(t, env, text, mode, count,
          lookup + [Embed(text), MatchDreams(env.embedding.value, Threshold(mode), MatchCount, env.user)])
  }

  // ---------------------------------------------------------------------------------------------
  // Properties of the handler

  /** An empty or missing text is a 400 before any lookup, call or write. */
  lemma EmptyTextRejected(body: Option<string>, env: Env, t: Tables)
    requires body.None? || body.value == ""
    ensures Run(body, env, t) == Outcome(BadRequest(EmptyTextError), [], [])
  {
  }

  /** A text with no Thai character is a 400, whoever calls, with no call and no write. */
  lemma NonThaiRejected(s: string, env: Env, t: Tables)
    requires s != "" && forall i :: 0 <= i < |s| ==> !IsThaiChar(s[i])
    ensures Run(Some(s), env, t) == Outcome(BadRequest(ThaiOnlyError), [], [])
  {
  }

  /** 429 exactly for an accepted text from a signed-in caller whose count for the day is at
      least 5; then only the user and usage lookups happen and nothing is written. Guests are
      never looked up and never refused. */
  lemma QuotaCheck(body: Option<string>, env: Env, t: Tables)
    ensures Run(body, env, t).response.TooMany?
      <==> Accepted(body) && env.user.Some? && UsageOf(t, env.user.value, env.today) >= DailyQuota
    ensures Run(body, env, t).response.TooMany? ==>
      Run(body, env, t).calls == [GetUser, ReadUsage(env.user.value, env.today)]
      && Run(body, env, t).writes == []
    ensures env.user.None? ==> forall c :: c in Run(body, env, t).calls ==> !c.ReadUsage?
  {
  }

  /** Once past the quota, the similarity RPC gets the mode's threshold, three results and the
      caller as owner filter, and the completion gets the mode (the system instruction). */
  lemma RetrievalUsesMode(s: string, env: Env, t: Tables)
    requires Accepted(Some(s)) && env.embedding.Some?
    requires env.user.None? || UsageOf(t, env.user.value, env.today) < DailyQuota
    ensures MatchDreams(env.embedding.value, Threshold(ModeOf(s)), MatchCount, env.user) in Run(Some(s), env, t).calls
    ensures forall c :: c in Run(Some(s), env, t).calls && c.Complete? ==> c.mode == ModeOf(s)
  {
  }

  /** A cache hit: the first candidate above 0.96 has exactly one stored interpretation. The
      answer is that analysis, no completion is requested, and the only write is the usage
      upsert of a signed-in caller; no dream, interpretation or audit row is added. */
  lemma CacheHit(s: string, env: Env, t: Tables, c: Candidate, row: InterpretationRow)
    requires Accepted(Some(s)) && env.embedding.Some?
    requires env.user.None? || UsageOf(t, env.user.value, env.today) < DailyQuota
    requires ExactMatch(env.similar) == Some(c) && StoredInterpretation(t, c.id) == Some(row)
    ensures var o := Run(Some(s), env, t);
      && o.response == Cached(row.analysisText, LuckyNumbersShown(row.luckyNumbers))
      && (forall k :: k in o.calls ==> !k.Complete?)
      && o.writes == UsageWrite(env, CountBefore(t, env))
      && ApplyAll(t, o.writes).dreams == t.dreams
      && ApplyAll(t, o.writes).interpretations == t.interpretations
      && ApplyAll(t, o.writes).auditLogs == t.auditLogs
      && (env.user.Some? ==>
            UsageOf(ApplyAll(t, o.writes), env.user.value, env.today) == UsageOf(t, env.user.value, env.today) + 1)
  {
    var o := Run(Some(s), env, t);
    if env.user.Some? {
      assert o.writes == [UpsertUsage(env.user.value, env.today, CountBefore(t, env) + 1)];
      assert ApplyAll(t, o.writes) == Apply(ApplyAll(t, []), o.writes[0]);
    }
  }

  /** A match above 0.96 whose interpretation cannot be read back falls through to generation. */
  lemma CacheMissFallsThrough(s: string, env: Env, t: Tables, c: Candidate)
    requires Accepted(Some(s)) && env.embedding.Some?
    requires env.user.None? || UsageOf(t, env.user.value, env.today) < DailyQuota
    requires ExactMatch(env.similar) == Some(c) && StoredInterpretation(t, c.id).None?
    ensures !Run(Some(s), env, t).response.Cached?
    ensures Complete(ModeOf(s), ContextText(env.similar), s) in Run(Some(s), env, t).calls
  {
  }

  /** The parsed completion is returned as it came, stored or not, and something is stored on a
      fresh answer only when the caller is signed in and the analysis lacks the apology. */
  lemma FreshAnswerUnchanged(body: Option<string>, env: Env, t: Tables)
    ensures Run(body, env, t).response.Fresh? ==> env.completion == Parsed(Run(body, env, t).response.result)
    ensures Run(body, env, t).response.Fresh? && Run(body, env, t).writes != [] ==>
      ShouldPersist(env.user, Run(body, env, t).response.result) && env.dreamInsertOk
    ensures (Run(body, env, t).response.Fresh? && ShouldPersist(env.user, Run(body, env, t).response.result)
             && env.dreamInsertOk) ==> Run(body, env, t).writes != []
  {
  }

  /** The writes of a stored answer, in order: the dream, its interpretation (each absent score
      as 0; a score of 0 is falsy and stays 0), the usage count + 1, the INTERPRET_DREAM entry
      with the mode, one upsert per tag. */
  lemma PersistOrder(t: Tables, env: Env, text: string, mode: Mode, count: int, r: Completion)
    requires env.user.Some? && env.embedding.Some? && r.analysis.Some? && env.dreamInsertOk
    ensures var ws := PersistWrites(t, env, text, mode, count, r);
      var u := env.user.value;
      && |ws| == 4 + |TagsOf(r)|
      && ws[0] == InsertDream(DreamRow(|t.dreams|, Some(u), text, env.embedding.value, TagsOf(r), env.now, None))
      && ws[1].InsertInterpretation? && ws[1].interpretation.dreamId == |t.dreams|
      && ws[1].interpretation.analysisText == r.analysis.value
      && ws[1].interpretation.luckyNumbers == r.luckyNumbers
      && ws[1].interpretation.stress
           == (if r.metrics.Some? && r.metrics.value.stress.Some? then r.metrics.value.stress.value else 0)
      && ws[1].interpretation.anxiety
           == (if r.metrics.Some? && r.metrics.value.anxiety.Some? then r.metrics.value.anxiety.value else 0)
      && ws[1].interpretation.happiness
           == (if r.metrics.Some? && r.metrics.value.happiness.Some? then r.metrics.value.happiness.value else 0)
      && ws[2] == UpsertUsage(u, env.today, count + 1)
      && ws[3] == InsertAudit(AuditRow(u, InterpretAction, InterpretDetails(|t.dreams|, ModeName(mode), env.now)))
      && forall k :: 0 <= k < |TagsOf(r)| ==> ws[4 + k] == UpsertSymbol(TagsOf(r)[k], AiSymbol)
  {
  }

  lemma {:induction false} SymbolWritesEffect(t: Tables, tags: seq<string>)
    ensures var t' := ApplyAll(t, SymbolWrites(tags));
      && t'.symbols.Keys == t.symbols.Keys + (set k | 0 <= k < |tags| :: tags[k])
      && (forall k :: 0 <= k < |tags| ==> t'.symbols[tags[k]] == AiSymbol)
      && (forall w :: w in t.symbols && w !in tags ==> t'.symbols[w] == t.symbols[w])
      && t'.(symbols := t.symbols) == t
    decreases |tags|
  {
    if tags != [] {
      var init, last := tags[..|tags| - 1], tags[|tags| - 1];
      var step := UpsertSymbol(last, AiSymbol);
      SymbolWritesEffect(t, init);
      assert SymbolWrites(tags) == SymbolWrites(init) + [step];
      ApplyAllSnoc(t, SymbolWrites(init), step);
      var before := ApplyAll(t, SymbolWrites(init));
      assert ApplyAll(t, SymbolWrites(tags)) == before.(symbols := before.symbols[last := AiSymbol]);
      assert tags == init + [last];
      assert (set k | 0 <= k < |tags| :: tags[k]) == (set k | 0 <= k < |init| :: init[k]) + {last};
    }
  }

  lemma HeadEffect(t: Tables, env: Env, text: string, mode: Mode, count: int, r: Completion)
    requires env.user.Some? && env.embedding.Some? && r.analysis.Some?
    ensures ApplyAll(t, PersistHead(t, env, text, mode, count, r)) == t.(
      dreams := t.dreams + [NewDream(t, env, text, r)],
      interpretations := t.interpretations + [NewInterpretation(t, |t.dreams|, r)],
      usage := t.usage[(env.user.value, env.today) := count + 1],
      auditLogs := t.auditLogs
        + [AuditRow(env.user.value, InterpretAction, InterpretDetails(|t.dreams|, ModeName(mode), env.now))])
  {
    var h := PersistHead(t, env, text, mode, count, r);
    assert [] + [h[0]] == [h[0]];
    assert [h[0]] + [h[1]] == [h[0], h[1]];
    assert [h[0], h[1]] + [h[2]] == [h[0], h[1], h[2]];
    ApplyAllSnoc(t, [], h[0]);
    ApplyAllSnoc(t, [h[0]], h[1]);
    ApplyAllSnoc(t, [h[0], h[1]], h[2]);
    ApplyAllSnoc(t, [h[0], h[1], h[2]], h[3]);
    assert h == [h[0], h[1], h[2]] + [h[3]];
  }

  /** What a stored answer does to the tables: one dream and one interpretation more, linked;
      the day's usage is count + 1 and no other count changes; one audit entry more; every tag
      is in the symbol dictionary; users, consents and settings are untouched. */
  lemma PersistEffect(t: Tables, env: Env, text: string, mode: Mode, count: int, r: Completion)
    requires env.user.Some? && env.embedding.Some? && r.analysis.Some? && env.dreamInsertOk
    ensures var t' := ApplyAll(t, PersistWrites(t, env, text, mode, count, r));
      && t'.dreams == t.dreams + [NewDream(t, env, text, r)]
      && t'.interpretations == t.interpretations + [NewInterpretation(t, |t.dreams|, r)]
      && t'.usage == t.usage[(env.user.value, env.today) := count + 1]
      && t'.auditLogs == t.auditLogs
           + [AuditRow(env.user.value, InterpretAction, InterpretDetails(|t.dreams|, ModeName(mode), env.now))]
      && (forall k :: 0 <= k < |TagsOf(r)| ==> TagsOf(r)[k] in t'.symbols)
      && t'.users == t.users && t'.consents == t.consents && t'.settings == t.settings
  {
    var head := PersistHead(t, env, text, mode, count, r);
    ApplyAllConcat(t, head, SymbolWrites(TagsOf(r)));
    HeadEffect(t, env, text, mode, count, r);
    SymbolWritesEffect(ApplyAll(t, head), TagsOf(r));
  }

  /** No request takes a caller's count for the day past 5: if it was at most 5 before, it is
      at most 5 after, and nobody else's count changes. */
  lemma QuotaNeverExceeded(body: Option<string>, env: Env, t: Tables, u: UserId, d: Day)
    requires UsageOf(t, u, d) <= DailyQuota
    ensures UsageOf(ApplyAll(t, Run(body, env, t).writes), u, d) <= DailyQuota
    ensures env.user != Some(u) || d != env.today ==>
      UsageOf(ApplyAll(t, Run(body, env, t).writes), u, d) == UsageOf(t, u, d)
  {
    var o := Run(body, env, t);
    if o.writes != [] {
      if o.response.Cached? {
        assert o.writes == UsageWrite(env, CountBefore(t, env));
        assert ApplyAll(t, o.writes) == Apply(ApplyAll(t, []), o.writes[0]);
      } else {
        var r := o.response.result;
        var text := body.value;
        assert o.writes == PersistWrites(t, env, text, ModeOf(text), CountBefore(t, env), r);
        PersistEffect(t, env, text, ModeOf(text), CountBefore(t, env), r);
      }
    }
  }

  // ---------------------------------------------------------------------------------------------
  // The handler

  /** `POST`: answers `body` (the request's `dreamText`) against the store and the inputs in
      `env`, performing the writes `Run` lists, in order. */
  method Handle(db: Database, body: Option<string>, env: Env) returns (response: Response, calls: seq<Call>)
    requires db.Valid()
    modifies db
    ensures db.Valid()
    ensures var o := Run(body, env, old(db.State()));
      && response == o.response && calls == o.calls
      && db.log == old(db.log) + o.writes
      && db.State() == ApplyAll(old(db.State()), o.writes)
  {
    if body.None? || body.value == "" {
      return BadRequest(EmptyTextError), [];
    }
    var text := body.value;
    if !ContainsThai(text) {
      return BadRequest(ThaiOnlyError), [];
    }
    var mode := ModeOf(text);
    var threshold := Threshold(mode);

    calls := [GetUser];
    var currentUsageCount := 0;
    if env.user.Some? {
      calls := calls + [ReadUsage(env.user.value, env.today)];
      currentUsageCount := UsageOf(db.State(), env.user.value, env.today);
      if currentUsageCount >= DailyQuota {
        return TooMany(QuotaError), calls;
      }
    }
    assert currentUsageCount == CountBefore(db.State(), env);

    ghost var lookup := calls;
    calls := calls + [Embed(text)];
    if env.embedding.None? {
      return ServerError, calls;
    }
    calls := calls + [MatchDreams(env.embedding.value, threshold, MatchCount, env.user)];
    assert calls == lookup + [Embed(text), MatchDreams(env.embedding.value, Threshold(mode), MatchCount, env.user)];
    assert Run(body, env, db.State())
      == Answer(db.State(), env, text, mode, currentUsageCount, calls);
    response, calls := Respond(db, env, text, mode, currentUsageCount, calls);
  }

  /** The cache lookup and, on a miss, the completion and the save step. */
  method Respond(db: Database, env: Env, text: string, mode: Mode, count: int, calls0: seq<Call>)
    returns (response: Response, calls: seq<Call>)
    requires db.Valid() && env.embedding.Some?
    modifies db
    ensures db.Valid()
    ensures var o := Answer(old(db.State()), env, text, mode, count, calls0);
      && response == o.response && calls == o.calls
      && db.log == old(db.log) + o.writes
      && db.State() == ApplyAll(old(db.State()), o.writes)
  {
    calls := calls0;
    // semantic cache
    if |env.similar| > 0 {
      var exactMatch := ExactMatch(env.similar);
      if exactMatch.Some? {
        calls := calls + [ReadInterpretation(exactMatch.value.id)];
        var cachedInterp := StoredInterpretation(db.State(), exactMatch.value.id);
        if cachedInterp.Some? {
          if env.user.Some? {
            db.Perform(UpsertUsage(env.user.value, env.today, count + 1));
            assert [UpsertUsage(env.user.value, env.today, count + 1)][..0] == [];
          }
          return Cached(cachedInterp.value.analysisText, LuckyNumbersShown(cachedInterp.value.luckyNumbers)), calls;
        }
      }
    }

    var contextText := ContextText(env.similar);
    calls := calls + [Complete(mode, contextText, text)];
    if !env.completion.Parsed? {
      return ServerError, calls;
    }
    var result := env.completion.result;
    response := Fresh(result);

    if env.user.Some? {
      if result.analysis.None? {
        return ServerError, calls;
      }
      if !Includes(result.analysis.value, RefusalMarker) && env.dreamInsertOk {
        Persist(db, env, text, mode, count, result);
      }
    }
  }

  /** The save step: the dream, its interpretation, the usage count, the audit entry and the
      tags, written in that order. */
  method Persist(db: Database, env: Env, text: string, mode: Mode, count: int, result: Completion)
    requires db.Valid() && env.user.Some? && env.embedding.Some? && result.analysis.Some?
    modifies db
    ensures db.Valid()
    ensures var ws := PersistHead(old(db.State()), env, text, mode, count, result) + SymbolWrites(TagsOf(result));
      db.log == old(db.log) + ws && db.State() == ApplyAll(old(db.State()), ws)
  {
    ghost var log0 := db.log;
    ghost var ws := PersistHead(db.State(), env, text, mode, count, result) + SymbolWrites(TagsOf(result));
    WriteHead(db, env, text, mode, count, result);
    UpsertTags(db, TagsOf(result));
    assert db.log == log0 + ws;
    db.LogDeterminesState(log0, ws);
  }

  /** The dream, its interpretation, the usage count and the audit entry, in that order. */
  method WriteHead(db: Database, env: Env, text: string, mode: Mode, count: int, result: Completion)
    requires db.Valid() && env.user.Some? && env.embedding.Some? && result.analysis.Some?
    modifies db
    ensures db.Valid()
    ensures db.log == old(db.log) + PersistHead(old(db.State()), env, text, mode, count, result)
  {
    var userId := env.user.value;
    var before := db.State();
    var dream := NewDream(before, env, text, result);
    db.Perform(InsertDream(dream));
    db.Perform(InsertInterpretation(NewInterpretation(before, dream.id, result)));
    db.Perform(UpsertUsage(userId, env.today, count + 1));
    db.Perform(InsertAudit(AuditRow(userId, InterpretAction, InterpretDetails(dream.id, ModeName(mode), env.now))));
  }

  /** `for (const tag of result.tags)`: one symbol-dictionary upsert per tag, in order. */
  method UpsertTags(db: Database, tags: seq<string>)
    requires db.Valid()
    modifies db
    ensures db.Valid()
    ensures db.log == old(db.log) + SymbolWrites(tags)
    ensures db.State() == ApplyAll(old(db.State()), SymbolWrites(tags))
  {
    var i := 0;
    while i < |tags|
      invariant 0 <= i <= |tags|
      invariant db.Valid()
      invariant db.log == old(db.log) + SymbolWrites(tags)[..i]
      invariant db.State() == ApplyAll(old(db.State()), SymbolWrites(tags)[..i])
    {
      db.Perform(UpsertSymbol(tags[i], AiSymbol));
      assert SymbolWrites(tags)[..i + 1] == SymbolWrites(tags)[..i] + [UpsertSymbol(tags[i], AiSymbol)];
      ApplyAllSnoc(old(db.State()), SymbolWrites(tags)[..i], UpsertSymbol(tags[i], AiSymbol));
      i := i + 1;
    }
    assert SymbolWrites(tags)[..|tags|] == SymbolWrites(tags);
  }
}
