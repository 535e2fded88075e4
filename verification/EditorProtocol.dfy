/**
 The autosave protocol of one row editor, one JavaScript turn at a time.

 A turn runs without interruption: a timer callback, a user event, or the continuation of an awaited
 request. So the acknowledgement of one PATCH, the clearing of the draft keys it sent, and the sending
 of the next PATCH are one step.
 */
module EditorProtocol {
  import opened Options
  import opened Sequences
  import opened Drafts
  import opened ServerModel

  datatype SaveStatus = Idle | Dirty | Saving | Saved | Error | Conflict

  /** How a request can fail, as `commit` tells the failures apart: 409, whatever its cause, 400, anything else. */
  datatype Failure = ConflictReply | BadRequest | OtherFailure

  /** Where a request is: on its way, written by the server, or refused; the latter two are unanswered yet. */
  datatype Transit = InTransit | Applied(version: nat) | Refused(failure: Failure)

  /**
   One outstanding chain of requests of an editor, suspended at an `await`.
   `base` and `sent` are not program state: the version the flush started from, and everything it sends.
   `clear` is what the draft is compared against when the current request is acknowledged.
   */
  datatype Flight =
    | Flush(patches: seq<Patch>, next: nat, version: nat, clear: map<Key, Value>, wire: Transit,
            base: nat, sent: map<Key, Value>)
    | Structural(op: Op, version: nat, wire: Transit)

  /**
   The refs and state of one `usePayrollEntryEditor` instance.
   `status` is the state, `seenStatus` and `seen` the refs assigned from status and entry at render.
   `typed`, `acked` and `rejected` are not program state: the last typed value and last acknowledged
   payload value of each key, and whether the last report was a failure with 400.
   */
  datatype Editor = Editor(
    mounted: bool,
    draft: Draft,
    status: SaveStatus,
    seenStatus: SaveStatus,
    seen: Snapshot,
    saving: bool,
    pending: bool,
    retryCount: nat,
    saveTimer: bool,
    retryTimer: bool,
    strayTimers: nat,
    flights: seq<Flight>,
    typed: map<Key, Value>,
    acked: map<Key, Value>,
    rejected: bool)

  /** An editor together with the store record of its entry. */
  datatype Local = Local(ed: Editor, record: Option<SaveStatus>)

  const MAX_AUTO_RETRIES := 3

  /** What entering `commit` never touches: the draft, what the row shows, the timers and the retry count. */
  predicate SameData(a: Editor, b: Editor) {
    && a.mounted == b.mounted && a.draft == b.draft && a.typed == b.typed && a.acked == b.acked
    && a.seen == b.seen && a.seenStatus == b.seenStatus && a.retryCount == b.retryCount
    && a.saveTimer == b.saveTimer && a.retryTimer == b.retryTimer && a.strayTimers == b.strayTimers
  }

  function NewEditor(entry: Snapshot): Editor {
    Editor(true, map[], Idle, Idle, entry, false, false, 0, false, false, 0, [], map[], map[], false)
  }

  /** The store keeps a record only for a status that is not `idle` or `saved`. */
  function RecordFor(s: SaveStatus): Option<SaveStatus> {
    if s == Idle || s == Saved then None else Some(s)
  }

  function Report(l: Local, s: SaveStatus): Local {
    Local(l.ed.(status := s, rejected := false), RecordFor(s))
  }

  /** What the draft is compared with after the acknowledgement: the payload, but for Cycle Days the
      text in the draft at the moment of sending. */
  function ClearFor(p: Patch, draft: Draft): map<Key, Value> {
    map k | k in p.fields && (IsCycleDays(k) ==> k in draft) :: if IsCycleDays(k) then draft[k] else p.fields[k]
  }

  function StartFlush(l: Local, ps: seq<Patch>): (r: Local)
    requires ps != []
    ensures SameData(l.ed, r.ed) && r.ed.pending == l.ed.pending
  {
    var ed := l.ed;
    var f := Flush(ps, 0, ed.seen.version, ClearFor(ps[0], ed.draft), InTransit, ed.seen.version, Union(ps));
    Report(l.(ed := ed.(saving := true, flights := ed.flights + [f])), Saving)
  }

  function Commit(l: Local): (r: Local)
    ensures SameData(l.ed, r.ed)
  {
    if l.ed.seenStatus == Conflict then l
    else
      var ps := Patches(l.ed.draft, l.ed.seen.content.lines);
      if ps == [] then l
      else if l.ed.saving then l.(ed := l.ed.(pending := true))
      else StartFlush(l, ps)
  }

  function ScheduleSave(l: Local): Local {
    var l1 := if l.ed.seenStatus != Conflict then Report(l, Dirty) else l;
    l1.(ed := l1.ed.(saveTimer := true))
  }

  function Edit(l: Local, k: Key, v: Value): Local {
    ScheduleSave(l.(ed := l.ed.(draft := l.ed.draft[k := v], typed := l.ed.typed[k := v])))
  }

  function SaveTimerFires(l: Local): Local {
    Commit(l.(ed := l.ed.(saveTimer := false)))
  }

  /** The timer the ref points at, or one that was armed earlier and overwritten without being cleared. */
  function RetryTimerFires(l: Local, stray: bool): Local
    requires if stray then l.ed.strayTimers > 0 else l.ed.retryTimer
  {
    Commit(l.(ed := if stray then l.ed.(strayTimers := l.ed.strayTimers - 1) else l.ed.(retryTimer := false)))
  }

  function RetryNow(l: Local): Local {
    Commit(l.(ed := l.ed.(retryTimer := false, retryCount := 0)))
  }

  /** The synchronous part of `reload`; React renders a click's updates before the next event. */
  function Reload(l: Local): Local {
    var ed := l.ed.(saveTimer := false, retryTimer := false, retryCount := 0, saving := false,
                    pending := false, draft := map[], typed := map[], acked := map[]);
    var l1 := Report(l.(ed := ed), Idle);
    l1.(ed := l1.ed.(seenStatus := Idle))
  }

  function StartStructural(l: Local, op: Op): Local {
    if l.ed.seenStatus == Conflict || l.ed.saving then l
    else
      var ed := l.ed;
      var ed1 := if op.DeleteOp? then
                   ed.(saveTimer := false, draft := DropLine(ed.draft, op.id),
                       typed := DropLine(ed.typed, op.id), acked := DropLine(ed.acked, op.id))
                 else ed;
      Report(l.(ed := ed1.(saving := true, flights := ed.flights + [Structural(op, ed.seen.version, InTransit)])),
             Saving)
  }

  /** The `finally` block: the flight is over, and a flush that was asked for meanwhile runs. */
  function Finish(l: Local, j: nat): (r: Local)
    requires j < |l.ed.flights|
    ensures SameData(l.ed, r.ed)
  {
    var ed := l.ed.(saving := false, flights := Without(l.ed.flights, j));
    if ed.pending then Commit(l.(ed := ed.(pending := false))) else l.(ed := ed)
  }

  /** An acknowledged PATCH: the keys it sent leave the draft unless they were changed meanwhile. */
  function Acknowledge(l: Local, f: Flight): (r: Local)
    requires f.Flush? && f.next < |f.patches|
    ensures r.ed.flights == l.ed.flights && r.ed.mounted == l.ed.mounted && r.ed.seen == l.ed.seen
    ensures r.ed.pending == l.ed.pending && r.ed.saveTimer == l.ed.saveTimer && r.ed.seenStatus == l.ed.seenStatus
  {
    l.(ed := l.ed.(draft := Cleared(l.ed.draft, f.clear), acked := l.ed.acked + f.patches[f.next].fields))
  }

  /** The flight once its next request is under way, stamped with the version the last response carried. */
  function Advanced(f: Flight, version: nat, draft: Draft): Flight
    requires f.Flush? && f.next + 1 < |f.patches|
  {
    f.(next := f.next + 1, version := version, clear := ClearFor(f.patches[f.next + 1], draft), wire := InTransit)
  }

  function CloseFlush(l: Local): (r: Local)
    ensures r.ed.flights == l.ed.flights && r.ed.mounted == l.ed.mounted && r.ed.seen == l.ed.seen
    ensures r.ed.pending == l.ed.pending && r.ed.saveTimer == l.ed.saveTimer && r.ed.seenStatus == l.ed.seenStatus
  {
    Report(l.(ed := l.ed.(retryCount := 0)), if l.ed.draft != map[] then Dirty else Saved)
  }

  function CloseStructural(l: Local): (r: Local)
    ensures r.ed.flights == l.ed.flights && r.ed.mounted == l.ed.mounted && r.ed.seen == l.ed.seen
    ensures r.ed.pending == l.ed.pending && r.ed.saveTimer == l.ed.saveTimer && r.ed.seenStatus == l.ed.seenStatus
  {
    Report(l.(ed := l.ed.(retryCount := 0)), Saved)
  }

  /** The continuation after a successful response carrying version `version`. */
  function Succeed(l: Local, j: nat, version: nat): (r: Local)
    requires j < |l.ed.flights|
    requires l.ed.flights[j].Flush? ==> l.ed.flights[j].next < |l.ed.flights[j].patches|
    ensures r.ed.mounted == l.ed.mounted
  {
    var f := l.ed.flights[j];
    if f.Structural? then Finish(CloseStructural(l), j)
    else
      var l1 := Acknowledge(l, f);
      if f.next + 1 < |f.patches| then
        l1.(ed := l1.ed.(flights := l1.ed.flights[j := Advanced(f, version, l1.ed.draft)]))
      else Finish(CloseFlush(l1), j)
  }

  function ArmRetry(ed: Editor): Editor {
    ed.(strayTimers := ed.strayTimers + (if ed.retryTimer then 1 else 0), retryTimer := true)
  }

  /** The `catch` block. Only a flush retries, and only after a failure that is neither 409 nor 400. */
  function CloseFailed(l: Local, f: Flight, failure: Failure): (r: Local)
    ensures r.ed.flights == l.ed.flights && r.ed.draft == l.ed.draft && r.ed.seenStatus == l.ed.seenStatus
    ensures r.ed.mounted == l.ed.mounted && r.ed.seen == l.ed.seen && r.ed.typed == l.ed.typed
            && r.ed.acked == l.ed.acked
    ensures r.ed.pending == l.ed.pending && r.ed.saveTimer == l.ed.saveTimer
  {
    if failure == ConflictReply then Report(l, Conflict)
    else
      var l1 := Report(l, Error);
      var ed := l1.ed;
      if f.Structural? then l1
      else if failure == BadRequest then l1.(ed := ed.(rejected := true))
      else
        var ed1 := ed.(retryCount := ed.retryCount + 1);
        l1.(ed := if ed1.retryCount <= MAX_AUTO_RETRIES then ArmRetry(ed1) else ed1)
  }

  function Fail(l: Local, j: nat, failure: Failure): (r: Local)
    requires j < |l.ed.flights|
    ensures r.ed.mounted == l.ed.mounted
  {
    Finish(CloseFailed(l, l.ed.flights[j], failure), j)
  }

  function Render(l: Local, entry: Snapshot): Local {
    l.(ed := l.ed.(seenStatus := l.ed.status, seen := entry))
  }
}
