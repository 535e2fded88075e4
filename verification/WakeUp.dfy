/**
 No lost wake-up: while no request is under way and the row is not in conflict, a draft that could be sent
 has an armed timer, or the row shows an error that retrying does not lift: retries used up, or a 400.
 */
module WakeUp {
  import opened Options
  import opened Sequences
  import opened Drafts
  import opened ServerModel
  import opened EditorProtocol
  import opened RowSystem
  import opened Invariants

  /** A flush started now would send something. */
  predicate HasWork(draft: Draft, lines: seq<LineId>) {
    Patches(draft, lines) != []
  }

  predicate TimerArmed(ed: Editor) {
    ed.saveTimer || ed.retryTimer || ed.strayTimers > 0
  }

  /** The row shows an error that is not retried by itself any more. */
  predicate GaveUp(ed: Editor) {
    ed.status == Error && (ed.retryCount > MAX_AUTO_RETRIES || ed.rejected)
  }

  predicate Awake(ed: Editor) {
    || ed.flights != [] || ed.status == Conflict
    || !HasWork(ed.draft, ed.seen.content.lines)
    || TimerArmed(ed) || GaveUp(ed)
  }

  /** The draft still holds for `k` what a request of the flush, sent or waiting, carries. */
  ghost predicate StillAsSent(draft: Draft, f: Flight, k: Key)
    requires f.Flush? && k in draft
  {
    exists j :: f.next <= j < |f.patches| && k in f.patches[j].fields
      && (j == f.next ==> k in f.clear && f.clear[k] == draft[k])
      && Wire(k, draft[k]) == Some(f.patches[j].fields[k])
  }

  ghost predicate Covered(draft: Draft, lines: seq<LineId>, f: Flight)
    requires f.Flush?
  {
    forall k :: k in draft && Sendable(draft, lines, k) ==> StillAsSent(draft, f, k)
  }

  /** While a request is under way: what it does not take care of has a timer, or a flush to follow. */
  ghost predicate MidFlight(ed: Editor, f: Flight) {
    if f.Flush? then ed.saveTimer || ed.pending || Covered(ed.draft, ed.seen.content.lines, f)
    else TimerArmed(ed) || ed.pending || !HasWork(ed.draft, ed.seen.content.lines)
  }

  ghost predicate Watched(ed: Editor) {
    Awake(ed) && (ed.flights != [] ==> MidFlight(ed, ed.flights[0]))
  }

  ghost predicate RowWatched(r: Row) {
    forall i :: 0 <= i < |r.editors| ==> Watched(r.editors[i])
  }

  // ---------------------------------------------------------------- what the steps need

  /** Adding or removing a line leaves no sendable draft without a timer. */
  predicate StrandsNothing(ed: Editor, op: Op) {
    var draft := if op.DeleteOp? then DropLine(ed.draft, op.id) else ed.draft;
    || ed.seenStatus == Conflict || ed.saving
    || ed.retryTimer || ed.strayTimers > 0 || (ed.saveTimer && !op.DeleteOp?)
    || !HasWork(draft, ed.seen.content.lines)
  }

  /** Whatever its draft holds: in conflict, a timer armed, given up, or a flush that will look at the draft again. */
  predicate BusyAnyway(ed: Editor) {
    if ed.flights == [] then ed.status == Conflict || TimerArmed(ed) || GaveUp(ed)
    else if ed.flights[0].Flush? then ed.saveTimer || ed.pending
    else TimerArmed(ed) || ed.pending
  }

  /** The flush under way carries the key as it is in the draft. */
  ghost predicate InFlight(ed: Editor, k: Key)
    requires k in ed.draft
  {
    ed.flights != [] && ed.flights[0].Flush? && StillAsSent(ed.draft, ed.flights[0], k)
  }

  /** A render brings back no line with a sendable draft that nothing is about to send. */
  ghost predicate NoWorkReturns(ed: Editor, entry: Snapshot) {
    forall k :: k in ed.draft && Sendable(ed.draft, entry.content.lines, k) && !Listed(k, ed.seen.content.lines) ==>
      InFlight(ed, k)
  }

  /** The two steps that can strand a draft do not. */
  ghost predicate Orderly(r: Row, a: Action) {
    && (a.ChangeLines? && a.i < |r.editors| ==> StrandsNothing(r.editors[a.i], a.op))
    && (a.RenderRow? && a.i < |r.editors| ==> BusyAnyway(r.editors[a.i]) || NoWorkReturns(r.editors[a.i], r.cache))
  }

  // ---------------------------------------------------------------- one editor

  lemma WorkIsSendable(draft: Draft, lines: seq<LineId>)
    requires Distinct(lines)
    ensures HasWork(draft, lines) <==> exists k :: k in draft && Sendable(draft, lines, k)
  {
    PatchesAreTheSendablePart(draft, lines);
    if HasWork(draft, lines) {
      assert SendablePart(draft, lines).Keys != {};
      var k :| k in SendablePart(draft, lines).Keys;
      assert Sendable(draft, lines, k);
    }
    if k :| k in draft && Sendable(draft, lines, k) {
      assert k in SendablePart(draft, lines);
    }
  }

  lemma StartFlushCovers(l: Local, ps: seq<Patch>)
    requires ps != [] && ps == Patches(l.ed.draft, l.ed.seen.content.lines)
    requires l.ed.flights == [] && Distinct(l.ed.seen.content.lines)
    ensures Watched(StartFlush(l, ps).ed)
  {
    var draft, lines := l.ed.draft, l.ed.seen.content.lines;
    var f := StartFlush(l, ps).ed.flights[0];
    PatchesShape(draft, lines);
    forall k | k in draft && Sendable(draft, lines, k) ensures StillAsSent(draft, f, k) {
      UnionSendable(draft, lines, k);
      assert k in SendablePart(draft, lines);
      UnionMember(ps, k);
      var j :| 0 <= j < |ps| && k in ps[j].fields;
      assert ps[j].fields == FieldsFor(draft, ps[j].target);
      assert f.next <= j < |f.patches| && (j == f.next ==> k in f.clear && f.clear[k] == draft[k]);
    }
    assert Covered(draft, lines, f);
  }

  /** Entering commit: whatever is sendable is sent, or will be after the running flush. */
  lemma CommitWatches(l: Local)
    requires Distinct(l.ed.seen.content.lines)
    requires l.ed.seenStatus == Conflict ==> l.ed.status == Conflict && l.ed.flights == []
    requires l.ed.saving <==> l.ed.flights != []
    ensures Watched(Commit(l).ed)
  {
    var draft, lines := l.ed.draft, l.ed.seen.content.lines;
    var ps := Patches(draft, lines);
    if l.ed.seenStatus == Conflict { CommitInConflict(l); }
    else if ps == [] { CommitIdle(l); }
    else if l.ed.saving { CommitMidFlight(l); }
    else {
      StartFlushCovers(l, ps);
      assert Commit(l) == StartFlush(l, ps);
    }
  }

  lemma CommitInConflict(l: Local)
    requires l.ed.seenStatus == Conflict && l.ed.status == Conflict && l.ed.flights == []
    ensures Watched(Commit(l).ed)
  {
  }

  lemma CommitIdle(l: Local)
    requires Patches(l.ed.draft, l.ed.seen.content.lines) == [] && Distinct(l.ed.seen.content.lines)
    ensures Watched(Commit(l).ed)
  {
    WorkIsSendable(l.ed.draft, l.ed.seen.content.lines);
    assert Commit(l) == l;
  }

  lemma CommitMidFlight(l: Local)
    requires Patches(l.ed.draft, l.ed.seen.content.lines) != [] && l.ed.saving && l.ed.flights != []
    requires l.ed.seenStatus != Conflict
    ensures Watched(Commit(l).ed)
  {
  }

  lemma FinishWatches(l: Local)
    requires |l.ed.flights| == 1 && l.ed.seenStatus != Conflict && Distinct(l.ed.seen.content.lines)
    requires l.ed.pending || l.ed.status == Conflict || TimerArmed(l.ed) || GaveUp(l.ed)
             || !HasWork(l.ed.draft, l.ed.seen.content.lines)
    ensures Watched(Finish(l, 0).ed)
  {
    var l1 := l.(ed := l.ed.(saving := false, pending := false, flights := Without(l.ed.flights, 0)));
    assert Without(l.ed.flights, 0) == [];
    if l.ed.pending {
      CommitWatches(l1);
      assert Finish(l, 0) == Commit(l1);
    } else {
      assert Finish(l, 0) == l1;
    }
  }

  /** Acknowledging a request takes its undisturbed keys out; the others are covered by the next requests. */
  lemma CoverAdvances(draft: Draft, lines: seq<LineId>, f: Flight, v: nat)
    requires f.Flush? && f.next + 1 < |f.patches| && Covered(draft, lines, f)
    ensures Covered(Cleared(draft, f.clear), lines, Advanced(f, v, Cleared(draft, f.clear)))
  {
    var left := Cleared(draft, f.clear);
    var f1 := Advanced(f, v, left);
    forall k | k in left && Sendable(left, lines, k) ensures StillAsSent(left, f1, k) {
      assert StillAsSent(draft, f, k);
      var j :| f.next <= j < |f.patches| && k in f.patches[j].fields
        && (j == f.next ==> k in f.clear && f.clear[k] == draft[k])
        && Wire(k, draft[k]) == Some(f.patches[j].fields[k]);
      assert j != f.next && left[k] == draft[k];
      assert j == f1.next ==> k in f1.clear && f1.clear[k] == left[k];
    }
  }

  lemma CoverEnds(draft: Draft, lines: seq<LineId>, f: Flight)
    requires f.Flush? && f.next + 1 == |f.patches| && Covered(draft, lines, f) && Distinct(lines)
    ensures !HasWork(Cleared(draft, f.clear), lines)
  {
    var left := Cleared(draft, f.clear);
    forall k | k in draft && Sendable(draft, lines, k) ensures k !in left {
      assert StillAsSent(draft, f, k);
    }
    WorkIsSendable(left, lines);
  }

  lemma AdvanceWatches(l: Local, f: Flight)
    requires l.ed.flights == [f] && f.Flush? && f.wire.Applied? && f.next + 1 < |f.patches| && MidFlight(l.ed, f)
    ensures Watched(Succeed(l, 0, f.wire.version).ed)
  {
    var lines := l.ed.seen.content.lines;
    var ed := Succeed(l, 0, f.wire.version).ed;
    assert ed.flights == [Advanced(f, f.wire.version, Cleared(l.ed.draft, f.clear))];
    if !l.ed.saveTimer && !l.ed.pending { CoverAdvances(l.ed.draft, lines, f, f.wire.version); }
    assert MidFlight(ed, ed.flights[0]);
  }

  /** After the last acknowledgement of an undisturbed flush nothing sendable is left. */
  lemma LastAckWatches(l: Local, f: Flight)
    requires l.ed.flights == [f] && f.Flush? && f.next + 1 == |f.patches| && MidFlight(l.ed, f)
    requires l.ed.seenStatus != Conflict && Distinct(l.ed.seen.content.lines)
    ensures Watched(Finish(CloseFlush(Acknowledge(l, f)), 0).ed)
  {
    var lines := l.ed.seen.content.lines;
    var l1 := CloseFlush(Acknowledge(l, f));
    if l.ed.saveTimer || l.ed.pending {
      FinishWatches(l1);
    } else {
      CoverEnds(l.ed.draft, lines, f);
      assert l1.ed.draft == Cleared(l.ed.draft, f.clear);
      FinishWatches(l1);
    }
  }

  lemma StructuralAckWatches(l: Local, f: Flight)
    requires l.ed.flights == [f] && f.Structural? && MidFlight(l.ed, f)
    requires l.ed.seenStatus != Conflict && Distinct(l.ed.seen.content.lines)
    ensures Watched(Finish(CloseStructural(l), 0).ed)
  {
    FinishWatches(CloseStructural(l));
  }

  lemma CloseFailedFlush(l: Local, f: Flight, failure: Failure)
    requires f.Flush?
    ensures var ed := CloseFailed(l, f, failure).ed; ed.status == Conflict || TimerArmed(ed) || GaveUp(ed)
  {
  }

  lemma CloseFailedStructural(l: Local, f: Flight, failure: Failure)
    requires f.Structural? && (TimerArmed(l.ed) || l.ed.pending || !HasWork(l.ed.draft, l.ed.seen.content.lines))
    ensures var ed := CloseFailed(l, f, failure).ed;
            TimerArmed(ed) || ed.pending || !HasWork(ed.draft, ed.seen.content.lines)
  {
  }

  lemma FailWatches(l: Local, failure: Failure)
    requires |l.ed.flights| == 1 && MidFlight(l.ed, l.ed.flights[0])
    requires l.ed.seenStatus != Conflict && Distinct(l.ed.seen.content.lines)
    ensures Watched(Fail(l, 0, failure).ed)
  {
    var f := l.ed.flights[0];
    if f.Flush? { CloseFailedFlush(l, f, failure); } else { CloseFailedStructural(l, f, failure); }
    FinishWatches(CloseFailed(l, f, failure));
  }

  lemma EditWatches(l: Local, k: Key, v: Value)
    ensures Watched(Edit(l, k, v).ed)
  {
  }

  lemma StructuralWatchesIff(l: Local, op: Op)
    requires Watched(l.ed) && (l.ed.saving <==> l.ed.flights != []) && (l.ed.pending ==> l.ed.saving)
    ensures Watched(StartStructural(l, op).ed) <==> StrandsNothing(l.ed, op)
  {
  }

  lemma RenderIdleIff(l: Local, entry: Snapshot)
    requires Watched(l.ed) && !BusyAnyway(l.ed)
    requires l.ed.flights == [] || l.ed.flights[0].Structural?
    requires Distinct(l.ed.seen.content.lines) && Distinct(entry.content.lines)
    ensures Watched(Render(l, entry).ed) <==> NoWorkReturns(l.ed, entry)
  {
    var draft, lines := l.ed.draft, entry.content.lines;
    WorkIsSendable(draft, l.ed.seen.content.lines);
    WorkIsSendable(draft, lines);
    assert forall k :: k in draft && Sendable(draft, lines, k) ==> !Listed(k, l.ed.seen.content.lines);
    assert forall k :: k in draft ==> !InFlight(l.ed, k);
  }

  lemma RenderFlushIff(l: Local, entry: Snapshot)
    requires Watched(l.ed) && !BusyAnyway(l.ed) && l.ed.flights != [] && l.ed.flights[0].Flush?
    ensures Watched(Render(l, entry).ed) <==> NoWorkReturns(l.ed, entry)
  {
    var ed := Render(l, entry).ed;
    var f, draft := l.ed.flights[0], l.ed.draft;
    assert Covered(draft, l.ed.seen.content.lines, f);
    assert Watched(ed) <==> Covered(draft, entry.content.lines, f);
    forall k | k in draft && Sendable(draft, entry.content.lines, k) && Listed(k, l.ed.seen.content.lines)
      ensures InFlight(l.ed, k)
    {
      assert Sendable(draft, l.ed.seen.content.lines, k);
    }
  }

  /** A render keeps the editor watched exactly if no unsent draft returns with a line, or it is busy anyway. */
  lemma RenderWatchesIff(l: Local, entry: Snapshot)
    requires Watched(l.ed) && Distinct(l.ed.seen.content.lines) && Distinct(entry.content.lines)
    ensures Watched(Render(l, entry).ed) <==> BusyAnyway(l.ed) || NoWorkReturns(l.ed, entry)
  {
    if BusyAnyway(l.ed) { assert Watched(Render(l, entry).ed); }
    else if l.ed.flights != [] && l.ed.flights[0].Flush? { RenderFlushIff(l, entry); }
    else { RenderIdleIff(l, entry); }
  }

  lemma EmptyDraftIsAwake(ed: Editor)
    requires ed.draft == map[] && ed.flights == [] && Distinct(ed.seen.content.lines)
    ensures Watched(ed)
  {
    WorkIsSendable(ed.draft, ed.seen.content.lines);
  }

  // ---------------------------------------------------------------- the row

  predicate ActorFacts(ed: Editor) {
    && Distinct(ed.seen.content.lines) && |ed.flights| <= 1
    && (ed.saving <==> ed.flights != []) && (ed.pending ==> ed.saving)
    && (ed.seenStatus == Conflict ==> ed.status == Conflict && ed.flights == [])
  }

  lemma ActorFactsHold(r: Row, i: nat)
    requires RowOk(r) && i < |r.editors|
    ensures ActorFacts(r.editors[i])
  {
    assert EditorOk(r.history, r.writers, i, r.editors[i]);
  }

  lemma PutWatched(r: Row, i: nat, l: Local)
    requires RowWatched(r) && i < |r.editors|
    ensures RowWatched(Put(r, i, l)) <==> Watched(l.ed)
  {
    if RowWatched(Put(r, i, l)) { assert Watched(Put(r, i, l).editors[i]); }
  }

  lemma AckWatched(r: Row, i: nat)
    requires RowWatched(r) && Enabled(r, Answer(i, 0)) && r.editors[i].flights[0].wire.Applied?
    requires ActorFacts(r.editors[i])
    ensures RowWatched(Next(r, Answer(i, 0)))
  {
    var l := At(r, i);
    var f := l.ed.flights[0];
    var v := f.wire.version;
    assert Watched(l.ed) && l.ed.flights == [f];
    if f.Structural? { StructuralAckWatches(l, f); }
    else if f.next + 1 < |f.patches| { AdvanceWatches(l, f); }
    else { LastAckWatches(l, f); }
    assert Watched(Succeed(l, 0, v).ed);
    PutWatched(r.(cache := Snapshot(v, r.history[v])), i, Succeed(l, 0, v));
  }

  lemma FailWatched(r: Row, i: nat, failure: Failure)
    requires RowWatched(r) && HasFlight(r, i, 0) && ActorFacts(r.editors[i])
    ensures RowWatched(Put(r, i, Fail(At(r, i), 0, failure)))
  {
    assert Watched(r.editors[i]);
    FailWatches(At(r, i), failure);
    PutWatched(r, i, Fail(At(r, i), 0, failure));
  }

  lemma TimerWatched(r: Row, a: Action)
    requires RowWatched(r) && Enabled(r, a) && IsTimerAction(a) && ActorFacts(r.editors[a.i])
    ensures RowWatched(Next(r, a))
  {
    CommitWatches(BeforeCommit(r, a));
    PutWatched(r, a.i, Commit(BeforeCommit(r, a)));
    TimerActionCommits(r, a);
  }

  lemma UserWatched(r: Row, a: Action)
    requires RowWatched(r) && Enabled(r, a) && Distinct(r.cache.content.lines)
    requires a.Type? || a.ChangeLines? || a.RenderRow? || a.ClickReload?
    requires ActorFacts(r.editors[a.i])
    ensures RowWatched(Next(r, a)) <==> Orderly(r, a)
  {
    assert Watched(r.editors[a.i]);
    match a
    case Type(i, k, v) => EditWatches(At(r, i), k, v); PutWatched(r, i, Edit(At(r, i), k, v));
    case ChangeLines(i, op) => StructuralWatchesIff(At(r, i), op); PutWatched(r, i, StartStructural(At(r, i), op));
    case RenderRow(i) => RenderWatchesIff(At(r, i), r.cache); PutWatched(r, i, Render(At(r, i), r.cache));
    case ClickReload(i) => EmptyDraftIsAwake(Reload(At(r, i)).ed); PutWatched(r, i, Reload(At(r, i)));
  }

  lemma ProcessWatched(r: Row, i: nat, j: nat, verdict: Verdict)
    requires RowWatched(r) && Enabled(r, Process(i, j, verdict)) && |r.editors[i].flights| == 1
    ensures RowWatched(Next(r, Process(i, j, verdict)))
  {
    var ed := r.editors[i];
    var f := ed.flights[j];
    var w := if verdict.Apply? then Applied(|r.history|) else Refused(verdict.failure);
    var ed1 := SetWire(ed, j, w);
    assert Watched(ed);
    if f.Flush? && Covered(ed.draft, ed.seen.content.lines, f) {
      forall k | k in ed.draft && Sendable(ed.draft, ed.seen.content.lines, k)
        ensures StillAsSent(ed.draft, ed1.flights[j], k)
      {
        assert StillAsSent(ed.draft, f, k);
      }
    }
    assert Watched(ed1);
    assert Next(r, Process(i, j, verdict)).editors == r.editors[i := ed1];
  }

  lemma MountWatched(r: Row)
    requires RowWatched(r) && Enabled(r, Mount) && Distinct(r.cache.content.lines)
    ensures RowWatched(Next(r, Mount))
  {
    EmptyDraftIsAwake(NewEditor(r.cache));
  }

  lemma UnmountWatched(r: Row, i: nat)
    requires RowWatched(r) && Enabled(r, Unmount(i))
    ensures RowWatched(Next(r, Unmount(i)))
  {
    assert Watched(r.editors[i]);
    PutWatched(r, i, Local(r.editors[i].(mounted := false), r.record));
  }

  lemma AnswerWatched(r: Row, i: nat)
    requires RowWatched(r) && Enabled(r, Answer(i, 0)) && ActorFacts(r.editors[i])
    ensures RowWatched(Next(r, Answer(i, 0)))
  {
    match r.editors[i].flights[0].wire
    case Applied(_) => AckWatched(r, i);
    case Refused(failure) => FailWatched(r, i, failure);
  }

  lemma AnswerStepWatched(r: Row, i: nat, j: nat)
    requires RowOk(r) && RowWatched(r) && Enabled(r, Answer(i, j))
    ensures RowWatched(Next(r, Answer(i, j)))
  {
    ActorFactsHold(r, i);
    AnswerWatched(r, i);
  }

  lemma LoseStepWatched(r: Row, i: nat, j: nat)
    requires RowOk(r) && RowWatched(r) && Enabled(r, Lose(i, j))
    ensures RowWatched(Next(r, Lose(i, j)))
  {
    ActorFactsHold(r, i);
    FailWatched(r, i, OtherFailure);
  }

  lemma ProcessStepWatched(r: Row, i: nat, j: nat, verdict: Verdict)
    requires RowOk(r) && RowWatched(r) && Enabled(r, Process(i, j, verdict))
    ensures RowWatched(Next(r, Process(i, j, verdict)))
  {
    ActorFactsHold(r, i);
    ProcessWatched(r, i, j, verdict);
  }

  lemma ActorWatched(r: Row, a: Action)
    requires RowOk(r) && RowWatched(r) && Enabled(r, a)
    requires a.Type? || a.ChangeLines? || a.RenderRow? || a.ClickReload? || IsTimerAction(a)
    ensures RowWatched(Next(r, a)) <==> Orderly(r, a)
  {
    ActorFactsHold(r, a.i);
    if IsTimerAction(a) { TimerWatched(r, a); } else { UserWatched(r, a); }
  }

  /** A step keeps every editor watched if and only if it is not a line change or a render that strands a draft. */
  lemma StepWatchedIff(r: Row, a: Action)
    requires RowOk(r) && RowWatched(r) && Enabled(r, a)
    ensures RowWatched(Next(r, a)) <==> Orderly(r, a)
  {
    if a.Answer? { AnswerStepWatched(r, a.i, a.j); }
    else if a.Lose? { LoseStepWatched(r, a.i, a.j); }
    else if a.Process? { ProcessStepWatched(r, a.i, a.j, a.verdict); }
    else if a.Type? || a.ChangeLines? || a.RenderRow? || a.ClickReload? || IsTimerAction(a) { ActorWatched(r, a); }
    else if a.Mount? { MountWatched(r); }
    else if a.Unmount? { UnmountWatched(r, a.i); }
  }

  ghost predicate AllOrderly(r: Row, acts: seq<Action>)
    requires Valid(r, acts)
    decreases |acts|
  {
    acts != [] ==> Orderly(r, acts[0]) && AllOrderly(Next(r, acts[0]), acts[1..])
  }

  ghost predicate AlwaysWatched(r: Row, acts: seq<Action>)
    requires Valid(r, acts)
    decreases |acts|
  {
    RowWatched(r) && (acts != [] ==> AlwaysWatched(Next(r, acts[0]), acts[1..]))
  }

  /** Every state of a run is watched if and only if no line change and no render of it strands a draft. */
  lemma {:induction false} WatchedIff(r: Row, acts: seq<Action>)
    requires RowOk(r) && RowWatched(r) && Valid(r, acts)
    ensures AlwaysWatched(r, acts) <==> AllOrderly(r, acts)
    decreases |acts|
  {
    if acts != [] {
      NextKeeps(r, acts[0]);
      StepWatchedIff(r, acts[0]);
      if RowWatched(Next(r, acts[0])) { WatchedIff(Next(r, acts[0]), acts[1..]); }
    }
  }

  lemma {:induction false} WatchedEnd(r: Row, acts: seq<Action>)
    requires Valid(r, acts) && AlwaysWatched(r, acts)
    ensures RowWatched(Run(r, acts))
    decreases |acts|
  {
    if acts != [] { WatchedEnd(Next(r, acts[0]), acts[1..]); }
  }

  /** No wake-up is lost: after any run without such steps every editor, mounted or not, is awake. */
  lemma NoLostWakeUp(r: Row, acts: seq<Action>)
    requires RowOk(r) && RowWatched(r) && Valid(r, acts) && AllOrderly(r, acts)
    ensures RowWatched(Run(r, acts))
    ensures forall i :: 0 <= i < |Run(r, acts).editors| ==> Awake(Run(r, acts).editors[i])
  {
    WatchedIff(r, acts);
    WatchedEnd(r, acts);
    assert forall i :: 0 <= i < |Run(r, acts).editors| ==> Watched(Run(r, acts).editors[i]);
  }

  // ---------------------------------------------------------------- a line change over a draft

  /** What is left of an editor when a line change it just started is answered. */
  predicate AfterLineChange(before: Editor, after: Editor, op: Op) {
    && after.flights == [] && after.seen == before.seen && after.retryCount <= before.retryCount
    && after.draft == (if op.DeleteOp? then DropLine(before.draft, op.id) else before.draft)
    && after.retryTimer == before.retryTimer && after.strayTimers == before.strayTimers
    && after.saveTimer == (before.saveTimer && !op.DeleteOp?)
  }

  lemma AcceptedLineChange(l: Local, op: Op, f: Flight, v: nat)
    requires l.ed.flights == [] && !l.ed.saving && !l.ed.pending && l.ed.seenStatus != Conflict && f.Structural?
    ensures var s := StartStructural(l, op);
            var ed := Succeed(s.(ed := s.ed.(flights := [f])), 0, v).ed;
            AfterLineChange(l.ed, ed, op) && ed.status == Saved
  {
    var s := StartStructural(l, op);
    assert Without(CloseStructural(s.(ed := s.ed.(flights := [f]))).ed.flights, 0) == [];
  }

  lemma FailedLineChange(l: Local, op: Op, f: Flight, failure: Failure)
    requires l.ed.flights == [] && !l.ed.saving && !l.ed.pending && l.ed.seenStatus != Conflict && f.Structural?
    ensures var s := StartStructural(l, op);
            var ed := Fail(s.(ed := s.ed.(flights := [f])), 0, failure).ed;
            && AfterLineChange(l.ed, ed, op) && ed.retryCount == l.ed.retryCount && !ed.rejected
            && ed.status == (if failure == ConflictReply then Conflict else Error)
  {
    var s := StartStructural(l, op);
    var l1 := CloseFailed(s.(ed := s.ed.(flights := [f])), f, failure);
    assert Without(l1.ed.flights, 0) == [];
  }

  /**
   When a line change is answered, or its answer is lost, its editor is awake exactly if the line change
   stranded no draft, or ended in a conflict, or failed in an editor that had given up before.
   */
  lemma LineChangeStrandsIff(l: Local, op: Op, f: Flight, v: nat, failure: Failure)
    requires l.ed.flights == [] && !l.ed.saving && !l.ed.pending && l.ed.seenStatus != Conflict && f.Structural?
    ensures var s := StartStructural(l, op);
            var answered := s.(ed := s.ed.(flights := [f]));
            && (Awake(Succeed(answered, 0, v).ed) <==> StrandsNothing(l.ed, op))
            && (Awake(Fail(answered, 0, failure).ed) <==>
                  StrandsNothing(l.ed, op) || failure == ConflictReply || l.ed.retryCount > MAX_AUTO_RETRIES)
  {
    AcceptedLineChange(l, op, f, v);
    FailedLineChange(l, op, f, failure);
  }

  /** A line change starts with its request on its way. */
  lemma LineChangeStarts(r: Row, i: nat, op: Op)
    requires i < |r.editors| && ActorFacts(r.editors[i]) && Enabled(r, ChangeLines(i, op))
    requires !r.editors[i].saving && r.editors[i].seenStatus != Conflict
    ensures r.editors[i].flights == [] && !r.editors[i].pending
    ensures var q := Next(r, ChangeLines(i, op));
            && i < |q.editors| && At(q, i) == StartStructural(At(r, i), op)
            && q.editors[i].flights == [Structural(op, r.editors[i].seen.version, InTransit)]
  {
  }

  lemma LineChangeProcessed(q: Row, i: nat, p: Row, verdict: Verdict)
    requires Enabled(q, Process(i, 0, verdict)) && p == Next(q, Process(i, 0, verdict))
    requires |q.editors[i].flights| == 1 && q.editors[i].flights[0].Structural?
    ensures Enabled(p, Answer(i, 0)) && p.editors[i].flights == [p.editors[i].flights[0]]
            && p.editors[i].flights[0].Structural?
    ensures At(p, i) == At(q, i).(ed := q.editors[i].(flights := p.editors[i].flights))
    ensures p.editors[i].flights[0].wire == if verdict.Apply? then Applied(|q.history|) else Refused(verdict.failure)
  {
  }

  lemma LineChangeAnswered(q: Row, i: nat, p: Row, verdict: Verdict)
    requires Enabled(q, Process(i, 0, verdict)) && p == Next(q, Process(i, 0, verdict))
    requires |q.editors[i].flights| == 1 && q.editors[i].flights[0].Structural?
    ensures Enabled(p, Answer(i, 0)) && p.editors[i].flights == [p.editors[i].flights[0]]
            && p.editors[i].flights[0].Structural?
    ensures At(p, i) == At(q, i).(ed := q.editors[i].(flights := p.editors[i].flights))
    ensures Next(p, Answer(i, 0)).editors[i]
         == if verdict.Apply? then Succeed(At(p, i), 0, |q.history|).ed else Fail(At(p, i), 0, verdict.failure).ed
  {
    LineChangeProcessed(q, i, p, verdict);
  }

  /**
   A line change over a draft, in the row: `q` is the row when its request leaves, `p` when the server has
   decided. Accepted or refused, the answer leaves the editor awake only as the lemma says.
   */
  lemma StrandedDraftSleepsIff(r: Row, i: nat, op: Op, q: Row, verdict: Verdict, p: Row)
    requires RowOk(r) && Enabled(r, ChangeLines(i, op)) && q == Next(r, ChangeLines(i, op))
    requires Enabled(q, Process(i, 0, verdict)) && p == Next(q, Process(i, 0, verdict)) && Enabled(p, Answer(i, 0))
    requires !r.editors[i].saving && r.editors[i].seenStatus != Conflict
    ensures Awake(Next(p, Answer(i, 0)).editors[i]) <==>
            StrandsNothing(r.editors[i], op)
            || (verdict.Refuse? && (verdict.failure == ConflictReply || r.editors[i].retryCount > MAX_AUTO_RETRIES))
  {
    ActorFactsHold(r, i);
    LineChangeStarts(r, i, op);
    LineChangeAnswered(q, i, p, verdict);
    AnsweredAwakeIff(At(r, i), op, At(q, i), At(p, i), |q.history|,
                     if verdict.Refuse? then verdict.failure else OtherFailure);
  }

  lemma LostAnswer(q: Row, i: nat)
    requires Enabled(q, Lose(i, 0))
    ensures Next(q, Lose(i, 0)).editors[i] == Fail(At(q, i), 0, OtherFailure).ed
  {
  }

  /** The same when the answer is lost, whatever the server made of the request. */
  lemma LostLineChangeSleepsIff(r: Row, i: nat, op: Op, q: Row)
    requires RowOk(r) && Enabled(r, ChangeLines(i, op)) && q == Next(r, ChangeLines(i, op)) && Enabled(q, Lose(i, 0))
    requires !r.editors[i].saving && r.editors[i].seenStatus != Conflict
    ensures Awake(Next(q, Lose(i, 0)).editors[i]) <==>
            StrandsNothing(r.editors[i], op) || r.editors[i].retryCount > MAX_AUTO_RETRIES
  {
    ActorFactsHold(r, i);
    LineChangeStarts(r, i, op);
    LostAnswer(q, i);
    AnsweredAwakeIff(At(r, i), op, At(q, i), At(q, i), 0, OtherFailure);
  }

  lemma AnsweredAwakeIff(l: Local, op: Op, started: Local, answered: Local, v: nat, failure: Failure)
    requires l.ed.flights == [] && !l.ed.saving && !l.ed.pending && l.ed.seenStatus != Conflict
    requires started == StartStructural(l, op) && |answered.ed.flights| == 1 && answered.ed.flights[0].Structural?
    requires answered == started.(ed := started.ed.(flights := answered.ed.flights))
    ensures Awake(Succeed(answered, 0, v).ed) <==> StrandsNothing(l.ed, op)
    ensures Awake(Fail(answered, 0, failure).ed) <==>
            StrandsNothing(l.ed, op) || failure == ConflictReply || l.ed.retryCount > MAX_AUTO_RETRIES
  {
    var f := answered.ed.flights[0];
    assert answered.ed.flights == [f];
    LineChangeStrandsIff(l, op, f, v, failure);
  }

  // ---------------------------------------------------------------- the retry budget

  /** At rest with something to send, and not known to be in conflict. */
  predicate ReadyToRetry(ed: Editor) {
    && ed.flights == [] && !ed.saving && !ed.pending && ed.seenStatus != Conflict
    && HasWork(ed.draft, ed.seen.content.lines)
  }

  /** An attempt that fails uses up one retry, and arms the timer exactly if any was left. */
  lemma FailedAttempt(l: Local)
    requires ReadyToRetry(l.ed) && !l.ed.retryTimer
    ensures |Commit(l).ed.flights| == 1
    ensures var ed := Fail(Commit(l), 0, OtherFailure).ed;
            && ReadyToRetry(ed) && ed.status == Error && ed.retryCount == l.ed.retryCount + 1
            && ed.retryTimer == (ed.retryCount <= MAX_AUTO_RETRIES) && ed.strayTimers == l.ed.strayTimers
  {
    var l1 := Commit(l);
    assert l1 == StartFlush(l, Patches(l.ed.draft, l.ed.seen.content.lines));
    var l2 := CloseFailed(l1, l1.ed.flights[0], OtherFailure);
    assert Without(l2.ed.flights, 0) == [];
  }

  /**
   A manual retry gives a row its full budget back, also after it gave up: when everything keeps failing, its
   own attempt is followed by exactly three automatic ones, and the row gives up again.
   */
  lemma ManualRetryRestoresTheBudget(l: Local)
    requires ReadyToRetry(l.ed)
    ensures |RetryNow(l).ed.flights| == 1
    ensures var a := Fail(RetryNow(l), 0, OtherFailure);
            && a.ed.retryTimer && |RetryTimerFires(a, false).ed.flights| == 1
            && var b := Fail(RetryTimerFires(a, false), 0, OtherFailure);
               && b.ed.retryTimer && |RetryTimerFires(b, false).ed.flights| == 1
               && var c := Fail(RetryTimerFires(b, false), 0, OtherFailure);
                  && c.ed.retryTimer && |RetryTimerFires(c, false).ed.flights| == 1
                  && var d := Fail(RetryTimerFires(c, false), 0, OtherFailure);
                     !d.ed.retryTimer && GaveUp(d.ed)
  {
    FailedAttempt(l.(ed := l.ed.(retryTimer := false, retryCount := 0)));
    var a := Fail(RetryNow(l), 0, OtherFailure);
    FailedAttempt(a.(ed := a.ed.(retryTimer := false)));
    var b := Fail(RetryTimerFires(a, false), 0, OtherFailure);
    FailedAttempt(b.(ed := b.ed.(retryTimer := false)));
    var c := Fail(RetryTimerFires(b, false), 0, OtherFailure);
    FailedAttempt(c.(ed := c.ed.(retryTimer := false)));
  }
}
