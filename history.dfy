/** The dream-history page (`app/history/page.tsx`): the listing of the signed-in user's
    dreams, the search box, the mood icon and the soft delete. */
module History {
  import opened Common
  import opened Store

  // ---------------------------------------------------------------------------------------------
  // The listing

  /** A listed dream with the interpretations that belong to it. */
  datatype HistoryEntry = HistoryEntry(dream: DreamRow, interpretations: seq<InterpretationRow>)

  /** `order('created_at', { ascending: false })` */
  predicate NewerOrSame(a: DreamRow, b: DreamRow) {
    a.createdAt >= b.createdAt
  }

  predicate Listed(u: UserId, d: DreamRow) {
    d.userId == Some(u) && d.deletedAt.None?
  }

  function EntryOf(t: Tables, d: DreamRow): HistoryEntry {
    HistoryEntry(d, Filter(t.interpretations, (r: InterpretationRow) => r.dreamId == d.id))
  }

  /** The query of `fetchHistory`: the user's dreams without `deleted_at`, newest first, each
      with its interpretations. */
  function Listing(t: Tables, u: UserId): (r: seq<HistoryEntry>) {
    var rows := ListedRows(t, u);
    seq(|rows|, i requires 0 <= i < |rows| => EntryOf(t, rows[i]))
  }

  lemma NewerOrSameTotal()
    ensures Total(NewerOrSame)
  {
  }

  /** The rows the listing is built from: the sorted selection. */
  function ListedRows(t: Tables, u: UserId): seq<DreamRow> {
    SortBy(Filter(t.dreams, (d: DreamRow) => Listed(u, d)), NewerOrSame)
  }

  /** The listed rows are a reordering of the user's dreams without `deleted_at`, newest first. */
  lemma ListedRowsSpec(t: Tables, u: UserId)
    ensures multiset(ListedRows(t, u)) == multiset(Filter(t.dreams, (d: DreamRow) => Listed(u, d)))
    ensures SortedBy(ListedRows(t, u), NewerOrSame)
    ensures |Listing(t, u)| == |ListedRows(t, u)|
    ensures forall k :: 0 <= k < |Listing(t, u)| ==> Listing(t, u)[k] == EntryOf(t, ListedRows(t, u)[k])
  {
    NewerOrSameTotal();
    SortByCorrect(Filter(t.dreams, (d: DreamRow) => Listed(u, d)), NewerOrSame);
  }

  /** Every listed dream is one of the user's dreams that is not deleted. */
  lemma ListingOnlyListed(t: Tables, u: UserId)
    ensures forall k :: 0 <= k < |Listing(t, u)| ==>
      Listing(t, u)[k].dream in t.dreams && Listed(u, Listing(t, u)[k].dream)
  {
    var owned := Filter(t.dreams, (d: DreamRow) => Listed(u, d));
    var rows := ListedRows(t, u);
    ListedRowsSpec(t, u);
    forall k | 0 <= k < |Listing(t, u)| ensures Listing(t, u)[k].dream in t.dreams && Listed(u, Listing(t, u)[k].dream) {
      PermutationMembers(rows, owned, rows[k]);
    }
  }

  /** Every dream of the user that is not deleted is listed. */
  lemma ListingComplete(t: Tables, u: UserId)
    ensures forall d :: d in t.dreams && Listed(u, d) ==>
      exists k :: 0 <= k < |Listing(t, u)| && Listing(t, u)[k].dream == d
  {
    var owned := Filter(t.dreams, (d: DreamRow) => Listed(u, d));
    var rows := ListedRows(t, u);
    ListedRowsSpec(t, u);
    forall d | d in t.dreams && Listed(u, d)
      ensures exists k :: 0 <= k < |Listing(t, u)| && Listing(t, u)[k].dream == d
    {
      var i :| 0 <= i < |t.dreams| && t.dreams[i] == d;
      PermutationMembers(rows, owned, d);
      var k :| 0 <= k < |rows| && rows[k] == d;
      assert Listing(t, u)[k].dream == d;
    }
  }

  /** `order('created_at', { ascending: false })`: newest first. */
  lemma ListingNewestFirst(t: Tables, u: UserId)
    ensures forall k :: 0 < k < |Listing(t, u)| ==>
      Listing(t, u)[k - 1].dream.createdAt >= Listing(t, u)[k].dream.createdAt
  {
    var rows := ListedRows(t, u);
    ListedRowsSpec(t, u);
    forall k | 0 < k < |Listing(t, u)|
      ensures Listing(t, u)[k - 1].dream.createdAt >= Listing(t, u)[k].dream.createdAt
    {
      assert NewerOrSame(rows[k - 1], rows[k]);
    }
  }

  /** A listed dream carries exactly the interpretations that refer to it. */
  lemma EntryInterpretations(t: Tables, d: DreamRow)
    ensures forall r :: r in EntryOf(t, d).interpretations <==> r in t.interpretations && r.dreamId == d.id
  {
    var keep := (r: InterpretationRow) => r.dreamId == d.id;
    forall r ensures r in Filter(t.interpretations, keep) <==> r in t.interpretations && r.dreamId == d.id {
      if r in t.interpretations && r.dreamId == d.id {
        var i :| 0 <= i < |t.interpretations| && t.interpretations[i] == r;
      }
      if r in Filter(t.interpretations, keep) {
        var i :| 0 <= i < |Filter(t.interpretations, keep)| && Filter(t.interpretations, keep)[i] == r;
      }
    }
  }

  /** A deleted dream leaves the listing, while its row stays in the table with only
      `deleted_at` set. */
  lemma SoftDeleteLeavesListing(t: Tables, u: UserId, id: nat, at: Timestamp)
    requires WellFormed(t) && id < |t.dreams|
    ensures var t' := Apply(t, SoftDeleteDream(id, at));
      && |t'.dreams| == |t.dreams|
      && t'.dreams[id] == t.dreams[id].(deletedAt := Some(at))
      && forall k :: 0 <= k < |Listing(t', u)| ==> Listing(t', u)[k].dream.id != id
  {
    var t' := Apply(t, SoftDeleteDream(id, at));
    SoftDeleteTouchesOneRow(t, id, at);
    ListingOnlyListed(t', u);
    forall k | 0 <= k < |Listing(t', u)| ensures Listing(t', u)[k].dream.id != id {
      var d := Listing(t', u)[k].dream;
      var i :| 0 <= i < |t'.dreams| && t'.dreams[i] == d;
      assert d.id == t.dreams[i].id == i;
    }
  }

  // ---------------------------------------------------------------------------------------------
  // Search and mood

  /** `dreams.filter(d => d.dream_text.includes(search))`: case-sensitive. */
  function FilterEntries(entries: seq<HistoryEntry>, search: string): seq<HistoryEntry> {
    Filter(entries, (e: HistoryEntry) => Includes(e.dream.dreamText, search))
  }

  /** The search keeps the listing's order and keeps an entry exactly when its text contains
      the search string; an empty search keeps everything. */
  lemma FilterEntriesSpec(entries: seq<HistoryEntry>, search: string)
    ensures IsSubsequence(FilterEntries(entries, search), entries)
    ensures forall k :: 0 <= k < |FilterEntries(entries, search)| ==>
      Includes(FilterEntries(entries, search)[k].dream.dreamText, search)
    ensures forall k :: 0 <= k < |entries| && Includes(entries[k].dream.dreamText, search) ==>
      entries[k] in FilterEntries(entries, search)
    ensures search == "" ==> FilterEntries(entries, search) == entries
  {
    FilterIsSubsequence(entries, (e: HistoryEntry) => Includes(e.dream.dreamText, search));
    if search == "" {
      forall k | 0 <= k < |entries| ensures Includes(entries[k].dream.dreamText, search) {
        IncludesEmpty(entries[k].dream.dreamText);
      }
      FilterKeepsAll(entries, (e: HistoryEntry) => Includes(e.dream.dreamText, search));
    }
  }

  /** `interpretations?.[0]?.happiness_score`: no interpretation, a NULL column, or a number. */
  datatype Score = Absent | NullScore | Value(n: int)

  datatype Mood = Smile | Meh | Frown

  /** The icon: `>= 7` smiles, `<= 3` frowns, anything else is neutral. JavaScript compares
      `undefined` false both ways but coerces `null` to 0, so a NULL score frowns. */
  /** The score the page reads from an entry: its first interpretation's happiness, if any. The
      modelled column is never NULL, because the handler stores `happiness_score || 0`. */
  function ScoreOf(e: HistoryEntry): (s: Score)
    ensures s == Absent <==> e.interpretations == []
    ensures s != NullScore
    ensures s.Value? ==> s.n == e.interpretations[0].happiness
  {
    if e.interpretations == [] then Absent else Value(e.interpretations[0].happiness)
  }

  function MoodOf(s: Score): (m: Mood)
    ensures m == Smile <==> s.Value? && s.n >= 7
    ensures m == Frown <==> s == NullScore || (s.Value? && s.n <= 3)
    ensures m == Meh <==> s == Absent || (s.Value? && 3 < s.n < 7)
  {
    match s
    case Absent => Meh
    case NullScore => Frown
    case Value(n) => if n >= 7 then Smile else if n <= 3 then Frown else Meh
  }

  // ---------------------------------------------------------------------------------------------
  // The page

  class HistoryPage {
    var dreams: seq<HistoryEntry>
    var loading: bool
    var search: string
    var toast: Option<Toast>

    constructor ()
      ensures dreams == [] && loading && search == "" && toast.None?
    {
      dreams, loading, search, toast := [], true, "", None;
    }

    /** `fetchHistory`: without a session it stops before the query and `loading` stays true;
        a failed query keeps the old list; otherwise the list is the store's listing. */
    method FetchHistory(db: Database, user: Option<UserId>, queryOk: bool)
      modifies this
      ensures user.None? ==> loading && dreams == old(dreams) && toast == old(toast)
      ensures user.Some? && !queryOk ==>
        !loading && dreams == old(dreams) && toast == Some(Failure("โหลดข้อมูลไม่สำเร็จ"))
      ensures user.Some? && queryOk ==>
        !loading && dreams == Listing(db.State(), user.value) && toast == old(toast)
      ensures search == old(search)
    {
      loading := true;
      if user.None? {
        return;
      }
      if !queryOk {
        toast := Some(Failure("โหลดข้อมูลไม่สำเร็จ"));
      } else {
        dreams := Listing(db.State(), user.value);
      }
      loading := false;
    }

    /** `handleDelete`: after confirmation, the soft delete of that one dream; a rejected update
        shows its message and does not refetch, a successful one refetches. */
    method HandleDelete(db: Database, user: Option<UserId>, confirmed: bool, id: nat, now: Timestamp,
                        updateError: Option<string>, queryOk: bool)
      requires db.Valid()
      modifies this, db
      ensures db.Valid()
      ensures !confirmed || updateError.Some? ==>
        db.log == old(db.log) && dreams == old(dreams) && loading == old(loading)
      ensures confirmed && updateError.Some? ==> toast == Some(Failure("ลบไม่สำเร็จ: " + updateError.value))
      ensures confirmed && updateError.None? ==>
        && db.log == old(db.log) + [SoftDeleteDream(id, now)]
        && db.State() == Apply(old(db.State()), SoftDeleteDream(id, now))
        && (user.Some? && queryOk ==> dreams == Listing(db.State(), user.value) && !loading)
        && (user.Some? && !queryOk ==>
              !loading && dreams == old(dreams) && toast == Some(Failure("โหลดข้อมูลไม่สำเร็จ")))
        && (user.None? ==> loading && dreams == old(dreams))
        && (user.None? || queryOk ==> toast == Some(Success("ลบรายการเรียบร้อย")))
      ensures !confirmed ==> toast == old(toast)
      ensures search == old(search)
    {
      if !confirmed {
        return;
      }
      if updateError.Some? {
        toast := Some(Failure("ลบไม่สำเร็จ: " + updateError.value));
        return;
      }
      db.Perform(SoftDeleteDream(id, now));
      toast := Some(Success("ลบรายการเรียบร้อย"));
      FetchHistory(db, user, queryOk);
    }
  }
}
