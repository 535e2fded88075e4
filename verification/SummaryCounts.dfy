/**
 What the save-status store computes: the counts of one cycle over the records, and when a cached summary
 is still what a recount would give.
 */
module SummaryCounts {
  import opened Options
  import opened Sequences
  import opened Drafts
  import opened EditorProtocol

  /** The identity of a retry callback: the editor whose `retryNow` it runs. */
  type Retry = nat

  datatype EntrySaveRecord =
    EntrySaveRecord(cycleId: CycleId, status: SaveStatus, errorMessage: Option<string>, retry: Option<Retry>)

  /** The counts of one cycle, and the retry handles of its failed rows in the order of the records. */
  datatype Tally = Tally(saving: nat, dirty: nat, error: nat, conflict: nat, retries: seq<Retry>) {
    function Total(): nat { saving + dirty + error + conflict }
  }

  predicate IsPendingStatus(s: SaveStatus) {
    s != Idle && s != Saved
  }

  /** One turn of the counting loop. */
  function AddRecord(t: Tally, record: EntrySaveRecord, cycleId: CycleId): (r: Tally)
    ensures IsPendingStatus(record.status) ==> r.Total() == t.Total() + (if record.cycleId == cycleId then 1 else 0)
  {
    if record.cycleId != cycleId then t
    else
      match record.status
      case Saving => t.(saving := t.saving + 1)
      case Dirty => t.(dirty := t.dirty + 1)
      case Error => t.(error := t.error + 1,
                       retries := if record.retry.Some? then t.retries + [record.retry.value] else t.retries)
      case Conflict => t.(conflict := t.conflict + 1)
      case _ => t
  }

  /** A fresh recount of one cycle over the records in their order. */
  function Recount(order: seq<EntryId>, records: map<EntryId, EntrySaveRecord>, cycleId: CycleId): Tally
  {
    if order == [] then Tally(0, 0, 0, 0, [])
    else
      var before := Recount(order[..|order| - 1], records, cycleId);
      if order[|order| - 1] in records then AddRecord(before, records[order[|order| - 1]], cycleId) else before
  }

  lemma RecountSnoc(order: seq<EntryId>, id: EntryId, records: map<EntryId, EntrySaveRecord>, cycleId: CycleId)
    requires forall x :: x in order ==> x in records
    requires id in records
    ensures forall x :: x in order + [id] ==> x in records
    ensures Recount(order + [id], records, cycleId) == AddRecord(Recount(order, records, cycleId), records[id], cycleId)
  {
    assert (order + [id])[..|order|] == order;
  }

  // ---------------------------------------------------------------- recounting

  /** The recount of a cycle only depends on the records of that cycle. */
  lemma {:induction false} RecountFrame(order: seq<EntryId>, a: map<EntryId, EntrySaveRecord>,
                                           b: map<EntryId, EntrySaveRecord>, cycleId: CycleId)
    requires forall id :: id in order ==> id in a && id in b
    requires forall id :: id in order ==> a[id] == b[id] || (a[id].cycleId != cycleId && b[id].cycleId != cycleId)
    ensures Recount(order, a, cycleId) == Recount(order, b, cycleId)
  {
    if order != [] {
      RecountFrame(order[..|order| - 1], a, b, cycleId);
    }
  }

  /** Removing an entry: other cycles are recounted as before, its own loses exactly one. */
  lemma {:induction false} RecountRemove(order: seq<EntryId>, records: map<EntryId, EntrySaveRecord>,
                                            id: EntryId, cycleId: CycleId)
    requires forall x :: x in order ==> x in records && IsPendingStatus(records[x].status)
    requires Distinct(order) && id in order
    ensures forall x :: x in Remove(order, id) ==> x in records
    ensures records[id].cycleId != cycleId ==>
              Recount(Remove(order, id), records, cycleId) == Recount(order, records, cycleId)
    ensures records[id].cycleId == cycleId ==>
              Recount(Remove(order, id), records, cycleId).Total() + 1 == Recount(order, records, cycleId).Total()
  {
    RemoveMembers(order, id);
    var init, last := order[..|order| - 1], order[|order| - 1];
    assert order == init + [last] && last !in init;
    if last == id {
      RemoveAbsent(init, id);
    } else {
      RecountRemove(init, records, id, cycleId);
      RemoveMembers(init, id);
      RecountSnoc(Remove(init, id), last, records, cycleId);
    }
  }

  /** Overwriting an entry's record by one of another cycle takes exactly one off its old cycle. */
  lemma {:induction false} RecountMoved(order: seq<EntryId>, records: map<EntryId, EntrySaveRecord>, id: EntryId,
                                           record: EntrySaveRecord, cycleId: CycleId)
    requires forall x :: x in order ==> x in records && IsPendingStatus(records[x].status)
    requires Distinct(order) && id in order && records[id].cycleId == cycleId != record.cycleId
    ensures Recount(order, records[id := record], cycleId).Total() + 1 == Recount(order, records, cycleId).Total()
  {
    var init, last := order[..|order| - 1], order[|order| - 1];
    if last == id {
      RecountFrame(init, records[id := record], records, cycleId);
    } else {
      RecountMoved(init, records, id, record, cycleId);
    }
  }

  function SumTotals(cycles: seq<CycleId>, order: seq<EntryId>, records: map<EntryId, EntrySaveRecord>): nat
    requires forall id :: id in order ==> id in records
  {
    if cycles == [] then 0
    else SumTotals(cycles[1..], order, records) + Recount(order, records, cycles[0]).Total()
  }

  lemma {:induction false} SumGrows(cycles: seq<CycleId>, order: seq<EntryId>, records: map<EntryId, EntrySaveRecord>)
    requires forall id :: id in order ==> id in records && IsPendingStatus(records[id].status)
    requires Distinct(cycles) && order != []
    ensures SumTotals(cycles, order, records) == SumTotals(cycles, order[..|order| - 1], records)
              + (if records[order[|order| - 1]].cycleId in cycles then 1 else 0)
  {
    if cycles != [] {
      SumGrows(cycles[1..], order, records);
      assert cycles == [cycles[0]] + cycles[1..];
    }
  }

  /** The totals of the cycles that have records add up to the number of records. */
  lemma {:induction false} TotalsSumToRecords(cycles: seq<CycleId>, order: seq<EntryId>,
                                              records: map<EntryId, EntrySaveRecord>)
    requires forall id :: id in order ==> id in records && IsPendingStatus(records[id].status)
    requires Distinct(cycles) && forall id :: id in order ==> records[id].cycleId in cycles
    ensures SumTotals(cycles, order, records) == |order|
  {
    if order == [] {
      NothingToSum(cycles, records);
    } else {
      SumGrows(cycles, order, records);
      TotalsSumToRecords(cycles, order[..|order| - 1], records);
    }
  }

  lemma {:induction false} NothingToSum(cycles: seq<CycleId>, records: map<EntryId, EntrySaveRecord>)
    ensures SumTotals(cycles, [], records) == 0
  {
    if cycles != [] { NothingToSum(cycles[1..], records); }
  }

  /** A cycle has something pending exactly if some record belongs to it. */
  lemma {:induction false} PendingIff(order: seq<EntryId>, records: map<EntryId, EntrySaveRecord>, cycleId: CycleId)
    requires forall id :: id in order ==> id in records && IsPendingStatus(records[id].status)
    ensures Recount(order, records, cycleId).Total() > 0 <==> exists id :: id in order && records[id].cycleId == cycleId
  {
    if order != [] {
      var init, last := order[..|order| - 1], order[|order| - 1];
      PendingIff(init, records, cycleId);
      RecountSnoc(init, last, records, cycleId);
      assert order == init + [last];
      if records[last].cycleId == cycleId { assert last in order; }
      else { assert forall id :: id in order && records[id].cycleId == cycleId ==> id in init; }
    }
  }

  // ---------------------------------------------------------------- cached summaries

  /**
   A summary object. It never changes, so it is its creation number, which stands for the identity of the
   object, and the counts and retry handles collected when it was made.
   */
  datatype CycleSaveSummary = CycleSaveSummary(created: nat, tally: Tally) {
    function PendingCount(): nat { tally.Total() }
    predicate HasSaving() { tally.saving > 0 }
  }

  /** The creation number of the one object that all cycles without records share. */
  const EMPTY_SUMMARY: nat := 0

  /** A cycle without records has the counts and handles of the shared object: none at all. */
  lemma {:induction false} NothingCounted(order: seq<EntryId>, records: map<EntryId, EntrySaveRecord>, cycleId: CycleId)
    requires forall id :: id in order ==> id in records && IsPendingStatus(records[id].status)
    requires Recount(order, records, cycleId).Total() == 0
    ensures Recount(order, records, cycleId) == Tally(0, 0, 0, 0, [])
  {
    if order != [] {
      var init, last := order[..|order| - 1], order[|order| - 1];
      RecountSnoc(init, last, records, cycleId);
      assert order == init + [last];
      NothingCounted(init, records, cycleId);
    }
  }

  type Records = map<EntryId, EntrySaveRecord>
  type Summaries = map<CycleId, CycleSaveSummary>

  ghost predicate Ordered(order: seq<EntryId>, records: Records) {
    && Distinct(order)
    && (forall id :: id in order <==> id in records)
    && (forall id :: id in records ==> IsPendingStatus(records[id].status))
  }

  /** Every cached summary is what a recount would give now. */
  ghost predicate Coherent(order: seq<EntryId>, records: Records, cache: Summaries) {
    forall c :: c in cache ==> cache[c].tally == Recount(order, records, c)
  }

  /** The record of the entry counts in the cached summary of another cycle than the one written under. */
  predicate LeavesStale(records: Records, cache: Summaries, entryId: EntryId, cycleId: CycleId) {
    entryId in records && records[entryId].cycleId != cycleId && records[entryId].cycleId in cache
  }

  function OrderAfterSet(order: seq<EntryId>, records: Records, id: EntryId): seq<EntryId> {
    if id in records then order else order + [id]
  }

  /** Storing a record changes the recount of no cycle but its own, old and new. */
  lemma SetFrame(order: seq<EntryId>, records: Records, id: EntryId, record: EntrySaveRecord, c: CycleId)
    requires Ordered(order, records)
    requires c != record.cycleId && !(id in records && records[id].cycleId == c)
    ensures Recount(OrderAfterSet(order, records, id), records[id := record], c) == Recount(order, records, c)
  {
    RecountFrame(order, records[id := record], records, c);
    if id !in records { RecountSnoc(order, id, records[id := record], c); }
  }

  /** A cached summary of a cycle that a record leaves without notice is stale. */
  lemma SetMakesStale(order: seq<EntryId>, records: Records, id: EntryId, record: EntrySaveRecord)
    requires Ordered(order, records) && id in records && records[id].cycleId != record.cycleId
    ensures Recount(order, records[id := record], records[id].cycleId) != Recount(order, records, records[id].cycleId)
  {
    RecountMoved(order, records, id, record, records[id].cycleId);
  }

  lemma SetCoherent(order: seq<EntryId>, records: Records, cache: Summaries, id: EntryId, record: EntrySaveRecord)
    requires Ordered(order, records) && Coherent(order, records, cache)
             && !LeavesStale(records, cache, id, record.cycleId)
    ensures Coherent(OrderAfterSet(order, records, id), records[id := record], cache - {record.cycleId})
  {
    forall c | c in cache && c != record.cycleId
      ensures Recount(OrderAfterSet(order, records, id), records[id := record], c) == Recount(order, records, c)
    {
      SetFrame(order, records, id, record, c);
    }
  }

  lemma SetIncoherent(order: seq<EntryId>, records: Records, cache: Summaries, id: EntryId, record: EntrySaveRecord)
    requires Ordered(order, records) && Coherent(order, records, cache)
             && LeavesStale(records, cache, id, record.cycleId)
    ensures !Coherent(OrderAfterSet(order, records, id), records[id := record], cache - {record.cycleId})
  {
    SetMakesStale(order, records, id, record);
    assert records[id].cycleId in cache - {record.cycleId};
  }

  lemma ClearFrame(order: seq<EntryId>, records: Records, id: EntryId, c: CycleId)
    requires Ordered(order, records) && id in records
    ensures records[id].cycleId != c <==> Recount(Remove(order, id), records - {id}, c) == Recount(order, records, c)
  {
    RemoveMembers(order, id);
    RecountRemove(order, records, id, c);
    RecountFrame(Remove(order, id), records - {id}, records, c);
  }

  lemma ClearCoherent(order: seq<EntryId>, records: Records, cache: Summaries, id: EntryId, cycleId: CycleId)
    requires Ordered(order, records) && Coherent(order, records, cache) && id in records
             && !LeavesStale(records, cache, id, cycleId)
    ensures Coherent(Remove(order, id), records - {id}, cache - {cycleId})
  {
    forall c | c in cache && c != cycleId
      ensures Recount(Remove(order, id), records - {id}, c) == Recount(order, records, c)
    {
      ClearFrame(order, records, id, c);
    }
  }

  lemma ClearIncoherent(order: seq<EntryId>, records: Records, cache: Summaries, id: EntryId, cycleId: CycleId)
    requires Ordered(order, records) && Coherent(order, records, cache) && LeavesStale(records, cache, id, cycleId)
    ensures !Coherent(Remove(order, id), records - {id}, cache - {cycleId})
  {
    ClearFrame(order, records, id, records[id].cycleId);
    assert records[id].cycleId in cache - {cycleId};
  }

  // ---------------------------------------------------------------- what the counts mean

  function Rows(order: seq<EntryId>, records: Records, c: CycleId, s: SaveStatus): set<EntryId> {
    set id | id in order && id in records && records[id].cycleId == c && records[id].status == s
  }

  function CountOf(t: Tally, s: SaveStatus): nat {
    match s
    case Saving => t.saving
    case Dirty => t.dirty
    case Error => t.error
    case Conflict => t.conflict
    case _ => 0
  }

  lemma RowsSnoc(init: seq<EntryId>, last: EntryId, records: Records, c: CycleId, s: SaveStatus)
    requires last in records
    ensures Rows(init + [last], records, c, s)
         == Rows(init, records, c, s) + (if records[last].cycleId == c && records[last].status == s then {last} else {})
  {
  }

  lemma RowsGrow(init: seq<EntryId>, last: EntryId, records: Records, c: CycleId, s: SaveStatus)
    requires last in records && last !in init
    ensures |Rows(init + [last], records, c, s)|
         == |Rows(init, records, c, s)| + (if records[last].cycleId == c && records[last].status == s then 1 else 0)
  {
    RowsSnoc(init, last, records, c, s);
    assert last !in Rows(init, records, c, s);
  }

  lemma AddRecordCounts(t: Tally, record: EntrySaveRecord, c: CycleId, s: SaveStatus)
    requires IsPendingStatus(s)
    ensures CountOf(AddRecord(t, record, c), s)
         == CountOf(t, s) + (if record.cycleId == c && record.status == s then 1 else 0)
  {
  }

  /** Each counter is the number of rows of the cycle in that status. */
  lemma {:induction false} CountsAreSizes(order: seq<EntryId>, records: Records, c: CycleId, s: SaveStatus)
    requires Distinct(order) && forall id :: id in order ==> id in records
    requires IsPendingStatus(s)
    ensures CountOf(Recount(order, records, c), s) == |Rows(order, records, c, s)|
  {
    if order != [] {
      var init, last := order[..|order| - 1], order[|order| - 1];
      assert order == init + [last] && last !in init;
      CountsAreSizes(init, records, c, s);
      AddRecordCounts(Recount(init, records, c), records[last], c, s);
      RowsGrow(init, last, records, c, s);
    }
  }

  /** The failed rows of a cycle that have a retry handle, in the order of their records. */
  function FailedRows(order: seq<EntryId>, records: Records, c: CycleId): seq<EntryId> {
    if order == [] then []
    else
      var init, last := FailedRows(order[..|order| - 1], records, c), order[|order| - 1];
      if last in Rows(order, records, c, Error) && records[last].retry.Some? then init + [last] else init
  }

  lemma {:induction false} FailedRowsAreAll(order: seq<EntryId>, records: Records, c: CycleId)
    requires Distinct(order) && forall id :: id in order ==> id in records
    ensures Distinct(FailedRows(order, records, c))
    ensures forall id :: id in FailedRows(order, records, c) <==>
              id in Rows(order, records, c, Error) && records[id].retry.Some?
  {
    if order != [] {
      var init, last := order[..|order| - 1], order[|order| - 1];
      assert order == init + [last] && last !in init;
      FailedRowsAreAll(init, records, c);
      RowsSnoc(init, last, records, c, Error);
    }
  }

  /** The collected handles are those of the failed rows that have one, one for each. */
  lemma {:induction false} RetriesOfFailedRows(order: seq<EntryId>, records: Records, c: CycleId)
    requires Distinct(order) && forall id :: id in order ==> id in records
    ensures var failed, retries := FailedRows(order, records, c), Recount(order, records, c).retries;
            && |retries| == |failed|
            && (forall k :: 0 <= k < |failed| ==> failed[k] in records && records[failed[k]].retry == Some(retries[k]))
  {
    if order != [] {
      var init, last := order[..|order| - 1], order[|order| - 1];
      assert order == init + [last] && last !in init;
      RetriesOfFailedRows(init, records, c);
      RecountSnoc(init, last, records, c);
    }
  }

  // ---------------------------------------------------------------- any sequence of calls

  datatype Memory = Memory(records: Records, order: seq<EntryId>, summaries: Summaries, created: nat)

  function AfterClear(m: Memory, entryId: EntryId, cycleId: CycleId): Memory {
    if entryId !in m.records then m
    else m.(records := m.records - {entryId}, order := Remove(m.order, entryId), summaries := m.summaries - {cycleId})
  }

  function AfterSet(m: Memory, entryId: EntryId, record: EntrySaveRecord): Memory {
    if !IsPendingStatus(record.status) then AfterClear(m, entryId, record.cycleId)
    else m.(records := m.records[entryId := record], order := OrderAfterSet(m.order, m.records, entryId),
            summaries := m.summaries - {record.cycleId})
  }

  ghost predicate Sound(m: Memory) {
    Ordered(m.order, m.records) && Coherent(m.order, m.records, m.summaries)
  }

  /**
   Storing or removing a record keeps right summaries right if and only if the entry was not recorded under
   another cycle whose summary was cached: only the summary of the reported cycle is dropped.
   */
  lemma AfterSetSoundIff(m: Memory, id: EntryId, record: EntrySaveRecord)
    requires Sound(m)
    ensures Sound(AfterSet(m, id, record)) <==> !LeavesStale(m.records, m.summaries, id, record.cycleId)
  {
    if !IsPendingStatus(record.status) {
      AfterClearSoundIff(m, id, record.cycleId);
    } else if LeavesStale(m.records, m.summaries, id, record.cycleId) {
      SetIncoherent(m.order, m.records, m.summaries, id, record);
    } else {
      SetCoherent(m.order, m.records, m.summaries, id, record);
    }
  }

  lemma AfterClearSoundIff(m: Memory, id: EntryId, c: CycleId)
    requires Sound(m)
    ensures Sound(AfterClear(m, id, c)) <==> !LeavesStale(m.records, m.summaries, id, c)
  {
    if id in m.records {
      RemoveMembers(m.order, id);
      if LeavesStale(m.records, m.summaries, id, c) {
        ClearIncoherent(m.order, m.records, m.summaries, id, c);
      } else {
        ClearCoherent(m.order, m.records, m.summaries, id, c);
      }
    }
  }

  datatype Call =
    | Set(entryId: EntryId, record: EntrySaveRecord)
    | Clear(entryId: EntryId, cycleId: CycleId)
    | Read(cycleId: CycleId)

  /** The object a read returns. */
  function Summary(m: Memory, cycleId: CycleId): CycleSaveSummary {
    if cycleId in m.summaries then m.summaries[cycleId]
    else
      var t := Recount(m.order, m.records, cycleId);
      CycleSaveSummary(if t.Total() == 0 then EMPTY_SUMMARY else m.created + 1, t)
  }

  function AfterRead(m: Memory, cycleId: CycleId): Memory {
    var s := Summary(m, cycleId);
    m.(summaries := m.summaries[cycleId := s],
       created := if cycleId !in m.summaries && s.PendingCount() > 0 then m.created + 1 else m.created)
  }

  function After(m: Memory, call: Call): Memory {
    match call
    case Set(id, record) => AfterSet(m, id, record)
    case Clear(id, c) => AfterClear(m, id, c)
    case Read(c) => AfterRead(m, c)
  }

  function AfterAll(m: Memory, calls: seq<Call>): Memory
    decreases |calls|
  {
    if calls == [] then m else AfterAll(After(m, calls[0]), calls[1..])
  }

  /** The call names the cycle its entry belongs to. */
  predicate AtHome(call: Call, home: EntryId -> CycleId) {
    match call
    case Set(id, record) => record.cycleId == home(id)
    case Clear(id, c) => c == home(id)
    case Read(_) => true
  }

  /** Every cached summary is right, and every record is under its entry's own cycle. */
  ghost predicate Housed(m: Memory, home: EntryId -> CycleId) {
    Sound(m) && forall id :: id in m.records ==> m.records[id].cycleId == home(id)
  }

  predicate Changes(call: Call, c: CycleId) {
    match call
    case Set(_, record) => record.cycleId == c
    case Clear(_, cycleId) => cycleId == c
    case Read(_) => false
  }

  lemma AfterClearHoused(m: Memory, id: EntryId, c: CycleId, home: EntryId -> CycleId)
    requires Housed(m, home) && c == home(id)
    ensures Housed(AfterClear(m, id, c), home)
  {
    AfterClearSoundIff(m, id, c);
  }

  lemma AfterSetHoused(m: Memory, id: EntryId, record: EntrySaveRecord, home: EntryId -> CycleId)
    requires Housed(m, home) && record.cycleId == home(id)
    ensures Housed(AfterSet(m, id, record), home)
  {
    AfterSetSoundIff(m, id, record);
  }

  lemma SummaryIsRecount(m: Memory, c: CycleId)
    requires Coherent(m.order, m.records, m.summaries)
    ensures Summary(m, c).tally == Recount(m.order, m.records, c)
  {
  }

  lemma CachingStaysCoherent(order: seq<EntryId>, records: Records, cache: Summaries, c: CycleId, s: CycleSaveSummary)
    requires Coherent(order, records, cache) && s.tally == Recount(order, records, c)
    ensures Coherent(order, records, cache[c := s])
  {
  }

  lemma AfterReadSound(m: Memory, c: CycleId)
    requires Sound(m)
    ensures Sound(AfterRead(m, c)) && Summary(m, c).tally == Recount(m.order, m.records, c)
  {
    SummaryIsRecount(m, c);
    CachingStaysCoherent(m.order, m.records, m.summaries, c, Summary(m, c));
  }

  lemma AfterHoused(m: Memory, call: Call, home: EntryId -> CycleId)
    requires Housed(m, home) && AtHome(call, home)
    ensures Housed(After(m, call), home)
  {
    match call
    case Set(id, record) => AfterSetHoused(m, id, record, home);
    case Clear(id, cycleId) => AfterClearHoused(m, id, cycleId, home);
    case Read(cycleId) => AfterReadSound(m, cycleId);
  }

  lemma AfterKeepsOthers(m: Memory, call: Call, c: CycleId)
    requires c in m.summaries && !Changes(call, c)
    ensures c in After(m, call).summaries && After(m, call).summaries[c] == m.summaries[c]
  {
  }

  predicate AllAtHome(calls: seq<Call>, home: EntryId -> CycleId)
    decreases |calls|
  {
    calls == [] || (AtHome(calls[0], home) && AllAtHome(calls[1..], home))
  }

  /** The call takes an entry's record out of another cycle whose summary is cached, and leaves that summary. */
  predicate Stales(m: Memory, call: Call) {
    match call
    case Set(id, record) => LeavesStale(m.records, m.summaries, id, record.cycleId)
    case Clear(id, c) => LeavesStale(m.records, m.summaries, id, c)
    case Read(_) => false
  }

  lemma AfterSoundIff(m: Memory, call: Call)
    requires Sound(m)
    ensures Sound(After(m, call)) <==> !Stales(m, call)
  {
    match call
    case Set(id, record) => AfterSetSoundIff(m, id, record);
    case Clear(id, c) => AfterClearSoundIff(m, id, c);
    case Read(c) => AfterReadSound(m, c);
  }

  ghost predicate AlwaysSound(m: Memory, calls: seq<Call>)
    decreases |calls|
  {
    Sound(m) && (calls != [] ==> AlwaysSound(After(m, calls[0]), calls[1..]))
  }

  predicate NoneStales(m: Memory, calls: seq<Call>)
    decreases |calls|
  {
    calls != [] ==> !Stales(m, calls[0]) && NoneStales(After(m, calls[0]), calls[1..])
  }

  /** Every summary is right after every call of a sequence if and only if no call leaves one behind. */
  lemma {:induction false} SoundIff(m: Memory, calls: seq<Call>)
    requires Sound(m)
    ensures AlwaysSound(m, calls) <==> NoneStales(m, calls)
    decreases |calls|
  {
    if calls != [] {
      AfterSoundIff(m, calls[0]);
      if !Stales(m, calls[0]) { SoundIff(After(m, calls[0]), calls[1..]); }
    }
  }

  /** If every entry is only ever reported under its own cycle, no summary is ever stale. */
  lemma {:induction false} NeverStale(m: Memory, calls: seq<Call>, home: EntryId -> CycleId)
    requires Housed(m, home) && AllAtHome(calls, home)
    ensures Housed(AfterAll(m, calls), home)
    decreases |calls|
  {
    if calls != [] {
      AfterHoused(m, calls[0], home);
      NeverStale(After(m, calls[0]), calls[1..], home);
    }
  }

  /** A cached object is replaced only by calls for its own cycle. */
  lemma {:induction false} StaysTheSameObject(m: Memory, calls: seq<Call>, c: CycleId)
    requires c in m.summaries
    requires forall i :: 0 <= i < |calls| ==> !Changes(calls[i], c)
    ensures Summary(AfterAll(m, calls), c) == m.summaries[c]
    decreases |calls|
  {
    if calls != [] {
      AfterKeepsOthers(m, calls[0], c);
      StaysTheSameObject(After(m, calls[0]), calls[1..], c);
    }
  }
}
