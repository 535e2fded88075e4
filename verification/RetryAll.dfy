/**
 The page-level "retry all failed" action over the editors behind a summary, after any number of turns of theirs.
 */
module RetryAll {
  import opened Options
  import opened Sequences
  import opened Drafts
  import opened ServerModel
  import opened EditorProtocol
  import opened SummaryCounts
  import opened SaveStatusStore
  import opened EntryEditor

  type Editors = map<Retry, PayrollEntryEditor>

  /** The retry handle of a record is that of the registered editor of its entry. */
  ghost predicate Tended(records: Records, editors: Editors) {
    forall id :: id in records ==>
      && records[id].retry.Some? && records[id].retry.value in editors
      && editors[records[id].retry.value].entryId == id
  }

  /** One live editor per entry, all reporting to the store, where every record is that of one of them. */
  ghost predicate Registered(store: Store, editors: Editors)
    reads store, editors.Values
  {
    && store.Valid() && Tended(store.records, editors)
    && (forall h :: h in editors ==> editors[h].handle == h && editors[h].store == store && editors[h].Valid())
    && (forall h, g :: h in editors && g in editors && h != g ==> editors[h].entryId != editors[g].entryId)
  }

  // ---------------------------------------------------------------- what registered editors keep

  /** A turn of an editor: something the user did, a timer, the continuation of a request, or a render. */
  datatype Turn =
    | TypeEntry(field: EntryField, value: Value)
    | TypeLine(id: LineId, lineField: LineField, value: Value)
    | SaveTimerFired
    | RetryTimerFired(stray: bool)
    | RetryClicked
    | ReloadClicked
    | LineAdded(line: map<LineField, Value>)
    | LineDeleted(id: LineId)
    | Accepted(j: nat, version: nat)
    | Failure(j: nat, failure: EditorProtocol.Failure)
    | Rendered(entry: Snapshot)

  /** There is a request for a reply to continue. */
  predicate IsOut(ed: Editor, j: nat) {
    j < |ed.flights| && (ed.flights[j].Flush? ==> ed.flights[j].next < |ed.flights[j].patches|)
  }

  /** The step of the protocol a turn is; a timer that is not armed and a request that is not out have none. */
  function Step(l: Local, turn: Turn): Local {
    match turn
    case TypeEntry(f, v) => Edit(l, EntryKey(f), v)
    case TypeLine(id, f, v) => Edit(l, LineKey(id, f), v)
    case SaveTimerFired => SaveTimerFires(l)
    case RetryTimerFired(stray) =>
      if (if stray then l.ed.strayTimers > 0 else l.ed.retryTimer) then RetryTimerFires(l, stray) else l
    case RetryClicked => RetryNow(l)
    case ReloadClicked => Reload(l)
    case LineAdded(line) => StartStructural(l, AddOp(line))
    case LineDeleted(id) => StartStructural(l, DeleteOp(id))
    case Accepted(j, v) => if IsOut(l.ed, j) then Succeed(l, j, v) else l
    case Failure(j, failure) => if IsOut(l.ed, j) then Fail(l, j, failure) else l
    case Rendered(entry) => Render(l, entry)
  }

  /** What the editor with handle `h` goes through in a sequence of turns of all editors. */
  function Steps(l: Local, h: Retry, turns: seq<(Retry, Turn)>): Local {
    if turns == [] then l
    else
      var before, (handle, turn) := Steps(l, h, turns[..|turns| - 1]), turns[|turns| - 1];
      if handle == h then Step(before, turn) else before
  }

  predicate IsReply(turn: Turn) {
    turn.Accepted? || turn.Failure? || turn.Rendered?
  }

  method Perform(e: PayrollEntryEditor, turn: Turn)
    requires e.Valid()
    modifies e, e.store
    ensures e.Valid() && e.View() == Step(old(e.View()), turn)
    ensures e.OnlyOwnRecord(old(e.store.records))
    ensures old(Sound(e.store.View())) ==> Sound(e.store.View())
  {
    if IsReply(turn) { PerformReply(e, turn); } else { PerformInput(e, turn); }
  }

  lemma IsStep(l: Local, turn: Turn)
    requires (turn.Failure? || turn.Accepted?) && IsOut(l.ed, turn.j)
    ensures Step(l, turn) == if turn.Failure? then Fail(l, turn.j, turn.failure) else Succeed(l, turn.j, turn.version)
  {
  }

  method PerformReply(e: PayrollEntryEditor, turn: Turn)
    requires e.Valid() && IsReply(turn)
    modifies e, e.store
    ensures e.Valid() && e.View() == Step(old(e.View()), turn)
    ensures e.OnlyOwnRecord(old(e.store.records))
    ensures old(Sound(e.store.View())) ==> Sound(e.store.View())
  {
    if turn.Rendered? { e.OnRender(turn.entry); }
    else if turn.j < |e.flights| {
      assert Resumable(e.flights[turn.j]);
      IsStep(e.View(), turn);
      if turn.Failure? { e.OnFailure(turn.j, turn.failure); } else { PerformAccepted(e, turn.j, turn.version); }
    }
  }

  method PerformAccepted(e: PayrollEntryEditor, j: nat, version: nat)
    requires e.Valid() && IsOut(e.Model(), j)
    modifies e, e.store
    ensures e.Valid() && e.View() == Succeed(old(e.View()), j, version)
    ensures e.OnlyOwnRecord(old(e.store.records))
    ensures old(Sound(e.store.View())) ==> Sound(e.store.View())
  {
    if e.flights[j].Flush? { e.OnPatchAccepted(j, version); } else { e.OnLineChanged(j, version); }
  }

  method PerformInput(e: PayrollEntryEditor, turn: Turn)
    requires e.Valid() && !IsReply(turn)
    modifies e, e.store
    ensures e.Valid() && e.View() == Step(old(e.View()), turn)
    ensures e.OnlyOwnRecord(old(e.store.records))
    ensures old(Sound(e.store.View())) ==> Sound(e.store.View())
  {
    match turn
    case TypeEntry(f, v) => e.SetEntryField(f, v);
    case TypeLine(id, f, v) => e.SetLineField(id, f, v);
    case SaveTimerFired => e.OnSaveTimer();
    case RetryTimerFired(stray) =>
      if if stray then e.strayTimers > 0 else e.retryTimer { e.OnRetryTimer(stray); }
    case RetryClicked => e.RetryNow();
    case ReloadClicked => e.Reload();
    case LineAdded(line) => e.AddLine(line);
    case LineDeleted(id) => e.DeleteLine(id);
  }

  /** One turn of one editor; the others do not notice. */
  method PerformOne(store: Store, editors: Editors, handle: Retry, turn: Turn)
    requires Registered(store, editors) && handle in editors
    modifies store, editors.Values
    ensures Registered(store, editors)
    ensures old(Sound(store.View())) ==> Sound(store.View())
    ensures forall h :: h in editors ==>
              editors[h].View() == if h == handle then Step(old(editors[h].View()), turn) else old(editors[h].View())
  {
    var e := editors[handle];
    Perform(e, turn);
    forall h | h in editors && h != handle
      ensures editors[h].Valid() && editors[h].View() == old(editors[h].View())
    {
      assert editors[h] != e && editors[h].entryId != e.entryId;
    }
  }

  /** Registered editors stay so over any turns of theirs in any order, and none takes a step of another. */
  method PerformAll(store: Store, editors: Editors, turns: seq<(Retry, Turn)>)
    requires Registered(store, editors) && Sound(store.View())
    modifies store, editors.Values
    ensures Registered(store, editors) && Sound(store.View())
    ensures forall h :: h in editors ==> editors[h].View() == Steps(old(editors[h].View()), h, turns)
  {
    for i := 0 to |turns|
      invariant Registered(store, editors) && Sound(store.View())
      invariant forall h :: h in editors ==> editors[h].View() == Steps(old(editors[h].View()), h, turns[..i])
    {
      assert turns[..i + 1][..i] == turns[..i];
      if turns[i].0 in editors {
        PerformOne(store, editors, turns[i].0, turns[i].1);
      }
    }
    assert turns[..|turns|] == turns;
  }

  // ---------------------------------------------------------------- retry all

  method RetryOne(store: Store, handle: Retry, editors: Editors)
    requires Registered(store, editors) && handle in editors
    modifies store, editors.Values
    ensures Registered(store, editors)
    ensures forall h :: h in editors ==>
              editors[h].View() == if h == handle then RetryNow(old(editors[h].View())) else old(editors[h].View())
  {
    PerformOne(store, editors, handle, RetryClicked);
  }

  /** Calls each collected handle once, although every call changes the records. */
  method RetryEach(store: Store, retries: seq<Retry>, editors: Editors)
    requires Registered(store, editors)
    requires Distinct(retries) && forall h :: h in retries ==> h in editors
    modifies store, editors.Values
    ensures Registered(store, editors)
    ensures forall h :: h in editors ==>
              editors[h].View() == if h in retries then RetryNow(old(editors[h].View())) else old(editors[h].View())
  {
    for i := 0 to |retries|
      invariant Registered(store, editors)
      invariant forall h :: h in editors ==>
        editors[h].View() == if h in retries[..i] then RetryNow(old(editors[h].View())) else old(editors[h].View())
    {
      assert retries[i] !in retries[..i];
      assert retries[..i + 1] == retries[..i] + [retries[i]];
      RetryOne(store, retries[i], editors);
    }
    assert retries[..|retries|] == retries;
  }

  predicate Failed(records: Records, id: EntryId, cycleId: CycleId) {
    id in records && records[id].cycleId == cycleId && records[id].status == Error
  }

  /** Every record has a retry handle, and no two have the same. */
  ghost predicate OwnHandles(records: Records) {
    && (forall id :: id in records ==> records[id].retry.Some?)
    && (forall id, other :: id in records && other in records && id != other ==>
          records[id].retry != records[other].retry)
  }

  predicate FailedWith(records: Records, id: EntryId, cycleId: CycleId, handle: Retry) {
    Failed(records, id, cycleId) && records[id].retry == Some(handle)
  }

  lemma HandlesOfFailedRows(order: seq<EntryId>, records: Records, c: CycleId)
    requires Ordered(order, records) && OwnHandles(records)
    ensures var retries := Recount(order, records, c).retries;
            Distinct(retries) && forall h :: h in retries <==> exists id :: FailedWith(records, id, c, h)
  {
    var failed, retries := FailedRows(order, records, c), Recount(order, records, c).retries;
    FailedRowsAreAll(order, records, c);
    RetriesOfFailedRows(order, records, c);
    forall i, j | 0 <= i < j < |retries| ensures retries[i] != retries[j] {
      assert failed[i] != failed[j] && failed[i] in failed && failed[j] in failed;
    }
    forall h ensures h in retries <==> exists id :: FailedWith(records, id, c, h) {
      if h in retries {
        var k :| 0 <= k < |retries| && retries[k] == h;
        assert failed[k] in failed && FailedWith(records, failed[k], c, h);
      }
      if exists id :: FailedWith(records, id, c, h) {
        var id :| FailedWith(records, id, c, h);
        assert id in failed;
        var k :| 0 <= k < |failed| && failed[k] == id;
        assert retries[k] == h;
      }
    }
  }

  /** Reading the summary changes no record. */
  method OpenSummary(store: Store, cycleId: CycleId) returns (retries: seq<Retry>)
    requires store.Valid() && Sound(store.View())
    modifies store`summaryCache, store`created
    ensures store.Valid() && retries == Recount(store.order, store.records, cycleId).retries
  {
    SummaryIsRecount(store.View(), cycleId);
    var s := store.GetSummary(cycleId);
    retries := s.tally.retries;
  }

  /** So it changes no editor either. */
  method CollectRetries(store: Store, cycleId: CycleId, editors: Editors) returns (retries: seq<Retry>)
    requires Registered(store, editors) && store.Valid() && Sound(store.View())
    modifies store`summaryCache, store`created
    ensures Registered(store, editors)
    ensures forall h :: h in editors ==> editors[h].View() == old(editors[h].View())
    ensures retries == Recount(store.order, store.records, cycleId).retries
  {
    retries := OpenSummary(store, cycleId);
  }

  /** The collected handles are those of the editors of failed rows. */
  lemma HandlesAreEditors(order: seq<EntryId>, records: Records, c: CycleId, editors: Editors)
    requires Ordered(order, records) && Tended(records, editors)
    requires forall h, g :: h in editors && g in editors && h != g ==> editors[h].entryId != editors[g].entryId
    ensures var retries := Recount(order, records, c).retries;
            && Distinct(retries) && (forall h :: h in retries ==> h in editors)
            && forall h :: h in editors ==> (h in retries <==> Failed(records, editors[h].entryId, c))
  {
    HandlesOfFailedRows(order, records, c);
    forall h | h in editors && Failed(records, editors[h].entryId, c)
      ensures FailedWith(records, editors[h].entryId, c, h)
    {
    }
  }

  /** Retries each failed row of the cycle exactly once, and no other row. */
  method RetryAllFailed(store: Store, cycleId: CycleId, editors: Editors)
    requires Registered(store, editors) && Sound(store.View())
    modifies store, editors.Values
    ensures Registered(store, editors)
    ensures forall h :: h in editors ==>
              var e := editors[h];
              var failed := old(Failed(store.records, e.entryId, cycleId));
              e.View() == if failed then RetryNow(old(e.View())) else old(e.View())
  {
    HandlesAreEditors(store.order, store.records, cycleId, editors);
    var retries := CollectRetries(store, cycleId, editors);
    RetryEach(store, retries, editors);
  }

  datatype RowProps = RowProps(entryId: EntryId, cycleId: CycleId, entry: Snapshot)

  predicate DistinctEntries(rows: seq<RowProps>) {
    forall i, j :: 0 <= i < j < |rows| ==> rows[i].entryId != rows[j].entryId
  }

  predicate IsRow(e: PayrollEntryEditor, row: RowProps) {
    e.entryId == row.entryId && e.cycleId == row.cycleId
  }

  function NewRow(row: RowProps): Local {
    Local(NewEditor(row.entry), None)
  }

  /** A page that has just loaded: an empty store, and one editor for each of its rows. */
  method OpenPage(rows: seq<RowProps>) returns (store: Store, editors: Editors)
    requires DistinctEntries(rows)
    ensures fresh(store) && fresh(editors.Values)
    ensures Registered(store, editors) && Sound(store.View())
    ensures forall h :: h in editors <==> 0 <= h < |rows|
    ensures forall h :: h in editors ==>
              IsRow(editors[h], rows[h]) && editors[h].View() == NewRow(rows[h])
  {
    store := new Store();
    editors := map[];
    for i := 0 to |rows|
      invariant fresh(store) && store.Valid() && store.records == map[] && store.summaryCache == map[]
      invariant fresh(editors.Values) && Registered(store, editors)
      invariant forall h :: h in editors <==> 0 <= h < i
      invariant forall h :: h in editors ==>
        IsRow(editors[h], rows[h]) && editors[h].View() == NewRow(rows[h])
    {
      var e := new PayrollEntryEditor(store, rows[i].entryId, rows[i].cycleId, i, rows[i].entry);
      editors := editors[i := e];
    }
  }

  /** So whatever happened on the page, "retry all" retries the rows of the cycle that have failed, and no other. */
  method RetryAllOnPage(rows: seq<RowProps>, turns: seq<(Retry, Turn)>, cycleId: CycleId)
    returns (editors: Editors)
    requires DistinctEntries(rows)
    ensures forall h :: h in editors <==> 0 <= h < |rows|
    ensures forall h :: h in editors ==>
              var l := Steps(NewRow(rows[h]), h, turns);
              editors[h].View() == if rows[h].cycleId == cycleId && l.record == Some(Error) then RetryNow(l) else l
  {
    var store;
    store, editors := OpenPage(rows);
    PerformAll(store, editors, turns);
    RetryAllFailed(store, cycleId, editors);
  }
}
