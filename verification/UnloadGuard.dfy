/**
 The unload guard, the navigation guard and the release interlock trust one thing: no store record means
 that nothing of the entry is unsaved, in any editor this tab has for it. That is so in every state of a run
 exactly if none of three kinds of steps goes wrong: one that reports saved, a reload, and typing in a row
 that is in conflict.
 */
module UnloadGuard {
  import opened Options
  import opened Sequences
  import opened Drafts
  import opened ServerModel
  import opened EditorProtocol
  import opened RowSystem
  import opened Invariants

  predicate Quiet(ed: Editor) {
    ed.draft == map[] && ed.flights == []
  }

  /** No record: every editor of the entry, unmounted ones included, has saved everything. */
  predicate Guarded(r: Row) {
    r.record == None ==> forall i :: 0 <= i < |r.editors| ==> Quiet(r.editors[i])
  }

  predicate OthersQuiet(r: Row, i: nat) {
    forall x :: 0 <= x < |r.editors| && x != i ==> Quiet(r.editors[x])
  }

  predicate IsAck(r: Row, a: Action) {
    a.Answer? && HasFlight(r, a.i, a.j) && r.editors[a.i].flights[a.j].wire.Applied?
  }

  /** The acknowledgement ends a line change, or a flush that leaves nothing in the draft. */
  predicate ReportsSaved(ed: Editor, f: Flight) {
    f.Structural? || (f.next + 1 == |f.patches| && Cleared(ed.draft, f.clear) == map[])
  }

  /** After a line change a flush of what is left in the draft was asked for, and starts at once. */
  predicate FlushFollows(ed: Editor, f: Flight) {
    f.Structural? && ed.pending && Patches(ed.draft, ed.seen.content.lines) != []
  }

  /** What is reported as saved is saved: nothing is left here, nor in another editor of the entry. */
  predicate SavedInTruth(r: Row, i: nat, f: Flight)
    requires i < |r.editors|
  {
    FlushFollows(r.editors[i], f) || ((f.Structural? ==> r.editors[i].draft == map[]) && OthersQuiet(r, i))
  }

  /** The step is not one of the three kinds, or does no harm. */
  predicate Safe(r: Row, a: Action) {
    && (IsAck(r, a) && ReportsSaved(r.editors[a.i], r.editors[a.i].flights[a.j]) ==>
          SavedInTruth(r, a.i, r.editors[a.i].flights[a.j]))
    && (a.ClickReload? ==> OthersQuiet(r, a.i))
    && (a.Type? && a.i < |r.editors| && r.editors[a.i].seenStatus == Conflict ==> r.record.Some?)
  }

  // ---------------------------------------------------------------- one editor

  predicate LocalGuarded(l: Local) {
    l.record == None ==> Quiet(l.ed)
  }

  /** A step of one editor keeps the row guarded: a record, or this editor and all others quiet. */
  lemma PutGuardedIff(r: Row, i: nat, l: Local)
    requires i < |r.editors|
    ensures Guarded(Put(r, i, l)) <==> l.record.Some? || (Quiet(l.ed) && OthersQuiet(r, i))
  {
    var q := Put(r, i, l);
    assert q.editors[i] == l.ed;
    assert forall x :: 0 <= x < |r.editors| && x != i ==> q.editors[x] == r.editors[x];
    if Guarded(q) && l.record == None {
      assert Quiet(q.editors[i]);
      forall x | 0 <= x < |r.editors| && x != i ensures Quiet(r.editors[x]) { assert Quiet(q.editors[x]); }
    }
  }

  lemma PutKeepsGuarded(r: Row, i: nat, l: Local)
    requires Guarded(r) && i < |r.editors|
    requires l.record.Some? || (l.record == r.record && Quiet(l.ed))
    ensures Guarded(Put(r, i, l))
  {
    PutGuardedIff(r, i, l);
  }

  lemma CommitGuarded(l: Local)
    requires LocalGuarded(l)
    ensures Commit(l).record.Some? || (Commit(l).record == l.record && Quiet(Commit(l).ed))
  {
  }

  lemma EmptyDraftHasNoPatches(lines: seq<LineId>)
    requires Distinct(lines)
    ensures Patches(map[], lines) == []
  {
    PatchesAreTheSendablePart(map[], lines);
    assert SendablePart(map[], lines) == map[];
  }

  lemma FinishRecorded(l: Local)
    requires |l.ed.flights| == 1 && l.record.Some?
    ensures Finish(l, 0).record.Some?
  {
  }

  /** After `saved` is reported the record is gone; a flush that starts at once brings it back. */
  lemma FinishUnrecorded(l: Local)
    requires |l.ed.flights| == 1 && l.record == None && l.ed.seenStatus != Conflict
    ensures var follows := l.ed.pending && Patches(l.ed.draft, l.ed.seen.content.lines) != [];
            && (Finish(l, 0).record.Some? <==> follows)
            && (!follows ==> (Quiet(Finish(l, 0).ed) <==> l.ed.draft == map[]))
  {
    var l1 := l.(ed := l.ed.(saving := false, pending := false, flights := Without(l.ed.flights, 0)));
    assert Without(l.ed.flights, 0) == [];
    assert Finish(l, 0) == if l.ed.pending then Commit(l1) else l1;
    CommitRecords(l1);
  }

  lemma CommitRecords(l: Local)
    requires l.ed.seenStatus != Conflict && !l.ed.saving && l.record == None
    ensures Commit(l).record.Some? <==> Patches(l.ed.draft, l.ed.seen.content.lines) != []
    ensures Commit(l).record == None ==> Commit(l) == l
  {
  }

  lemma FailRecorded(l: Local, failure: Failure)
    requires |l.ed.flights| == 1
    ensures Fail(l, 0, failure).record.Some?
  {
    CloseFailedRecorded(l, l.ed.flights[0], failure);
    FinishRecorded(CloseFailed(l, l.ed.flights[0], failure));
  }

  lemma CloseFailedRecorded(l: Local, f: Flight, failure: Failure)
    ensures CloseFailed(l, f, failure).record.Some?
  {
  }

  /** What the invariant says of the editor that acts. */
  predicate ActorFacts(r: Row, i: nat) {
    && i < |r.editors| && Distinct(r.editors[i].seen.content.lines) && LocalGuarded(At(r, i))
    && |r.editors[i].flights| <= 1
    && (r.editors[i].seenStatus == Conflict ==> r.editors[i].flights == [])
  }

  lemma ActorFactsHold(r: Row, i: nat)
    requires RowOk(r) && Guarded(r) && i < |r.editors|
    ensures ActorFacts(r, i)
  {
    assert EditorOk(r.history, r.writers, i, r.editors[i]);
  }

  // ---------------------------------------------------------------- acknowledgements

  lemma LineAckGuardedIff(r: Row, i: nat, v: nat)
    requires ActorFacts(r, i) && |r.editors[i].flights| == 1 && r.editors[i].flights[0].Structural?
    ensures Guarded(Put(r, i, Succeed(At(r, i), 0, v))) <==> SavedInTruth(r, i, r.editors[i].flights[0])
  {
    FinishUnrecorded(CloseStructural(At(r, i)));
    PutGuardedIff(r, i, Succeed(At(r, i), 0, v));
  }

  lemma AdvanceGuarded(r: Row, i: nat, v: nat)
    requires ActorFacts(r, i) && |r.editors[i].flights| == 1
    requires var f := r.editors[i].flights[0]; f.Flush? && f.next + 1 < |f.patches|
    ensures Guarded(Put(r, i, Succeed(At(r, i), 0, v)))
  {
    assert Succeed(At(r, i), 0, v).record == r.record;
    PutGuardedIff(r, i, Succeed(At(r, i), 0, v));
  }

  lemma LastAckGuardedIff(r: Row, i: nat, v: nat)
    requires ActorFacts(r, i) && |r.editors[i].flights| == 1
    requires var f := r.editors[i].flights[0]; f.Flush? && f.next + 1 == |f.patches|
    ensures Guarded(Put(r, i, Succeed(At(r, i), 0, v))) <==>
            (ReportsSaved(r.editors[i], r.editors[i].flights[0]) ==> OthersQuiet(r, i))
  {
    var l := At(r, i);
    var l1 := CloseFlush(Acknowledge(l, l.ed.flights[0]));
    if l1.ed.draft == map[] {
      EmptyDraftHasNoPatches(l.ed.seen.content.lines);
      FinishUnrecorded(l1);
    } else {
      FinishRecorded(l1);
    }
    PutGuardedIff(r, i, Succeed(l, 0, v));
  }

  lemma AckGuardedIff(r: Row, i: nat)
    requires Guarded(r) && ActorFacts(r, i) && Enabled(r, Answer(i, 0)) && IsAck(r, Answer(i, 0))
    ensures Guarded(Next(r, Answer(i, 0))) <==> Safe(r, Answer(i, 0))
  {
    var f := r.editors[i].flights[0];
    var v := f.wire.version;
    var cached := r.(cache := Snapshot(v, r.history[v]));
    assert Next(r, Answer(i, 0)) == Put(cached, i, Succeed(At(r, i), 0, v));
    assert OthersQuiet(cached, i) <==> OthersQuiet(r, i);
    if f.Structural? { LineAckGuardedIff(cached, i, v); }
    else if f.next + 1 < |f.patches| { AdvanceGuarded(cached, i, v); }
    else { LastAckGuardedIff(cached, i, v); }
  }

  // ---------------------------------------------------------------- the other steps

  lemma FailGuarded(r: Row, i: nat, failure: Failure)
    requires ActorFacts(r, i) && HasFlight(r, i, 0)
    ensures Guarded(Put(r, i, Fail(At(r, i), 0, failure)))
  {
    FailRecorded(At(r, i), failure);
    PutGuardedIff(r, i, Fail(At(r, i), 0, failure));
  }

  lemma AnswerGuardedIff(r: Row, i: nat, j: nat)
    requires RowOk(r) && Guarded(r) && Enabled(r, Answer(i, j))
    ensures Guarded(Next(r, Answer(i, j))) <==> Safe(r, Answer(i, j))
  {
    ActorFactsHold(r, i);
    if IsAck(r, Answer(i, j)) { AckGuardedIff(r, i); }
    else { FailGuarded(r, i, r.editors[i].flights[0].wire.failure); }
  }

  lemma LoseGuarded(r: Row, i: nat, j: nat)
    requires RowOk(r) && Guarded(r) && Enabled(r, Lose(i, j))
    ensures Guarded(Next(r, Lose(i, j)))
  {
    ActorFactsHold(r, i);
    FailGuarded(r, i, OtherFailure);
  }

  lemma TimerGuarded(r: Row, a: Action)
    requires Guarded(r) && Enabled(r, a) && IsTimerAction(a)
    ensures Guarded(Next(r, a))
  {
    TimerActionCommits(r, a);
    var l := BeforeCommit(r, a);
    CommitGuarded(l);
    PutKeepsGuarded(r, a.i, Commit(l));
  }

  /** Typing is recorded as dirty unless the row is in conflict; then only an earlier record shows it. */
  lemma TypeGuardedIff(r: Row, i: nat, k: Key, v: Value)
    requires Enabled(r, Type(i, k, v))
    ensures Guarded(Next(r, Type(i, k, v))) <==> Safe(r, Type(i, k, v))
  {
    var l := Edit(At(r, i), k, v);
    assert k in l.ed.draft;
    PutGuardedIff(r, i, l);
  }

  lemma ReloadGuardedIff(r: Row, i: nat)
    requires Enabled(r, ClickReload(i)) && ActorFacts(r, i)
    ensures Guarded(Next(r, ClickReload(i))) <==> Safe(r, ClickReload(i))
  {
    PutGuardedIff(r, i, Reload(At(r, i)));
  }

  lemma ChangeLinesGuarded(r: Row, i: nat, op: Op)
    requires Guarded(r) && Enabled(r, ChangeLines(i, op))
    ensures Guarded(Next(r, ChangeLines(i, op)))
  {
    assert Guarded(r) && r.record == None ==> Quiet(r.editors[i]);
    PutKeepsGuarded(r, i, StartStructural(At(r, i), op));
  }

  lemma ProcessGuarded(r: Row, i: nat, j: nat, verdict: Verdict)
    requires Guarded(r) && Enabled(r, Process(i, j, verdict))
    ensures Guarded(Next(r, Process(i, j, verdict)))
  {
    var q := Next(r, Process(i, j, verdict));
    assert forall x :: 0 <= x < |r.editors| ==> (Quiet(q.editors[x]) <==> Quiet(r.editors[x]));
  }

  lemma OtherGuarded(r: Row, a: Action)
    requires Guarded(r) && Enabled(r, a)
    requires a.Mount? || a.Unmount? || a.RenderRow? || a.ForeignWrite? || a.FetchRead? || a.FetchArrive?
    ensures Guarded(Next(r, a))
  {
    var q := Next(r, a);
    assert forall x :: 0 <= x < |r.editors| ==> (Quiet(q.editors[x]) <==> Quiet(r.editors[x]));
  }

  /** The steps after which the guard can be wrong are exactly the three kinds, when they do harm. */
  lemma StepIsGuardedIff(r: Row, a: Action)
    requires RowOk(r) && Guarded(r) && Enabled(r, a)
    ensures Guarded(Next(r, a)) <==> Safe(r, a)
  {
    match a
    case Answer(i, j) => AnswerGuardedIff(r, i, j);
    case Lose(i, j) => LoseGuarded(r, i, j);
    case Process(i, j, verdict) => ProcessGuarded(r, i, j, verdict);
    case Type(i, k, v) => TypeGuardedIff(r, i, k, v);
    case ChangeLines(i, op) => ChangeLinesGuarded(r, i, op);
    case ClickReload(i) => ActorFactsHold(r, i); ReloadGuardedIff(r, i);
    case SaveTimer(_) => TimerGuarded(r, a);
    case RetryTimer(_, _) => TimerGuarded(r, a);
    case ClickRetry(_) => TimerGuarded(r, a);
    case _ => OtherGuarded(r, a);
  }

  // ---------------------------------------------------------------- whole runs

  predicate AlwaysGuarded(r: Row, acts: seq<Action>)
    requires Valid(r, acts)
    decreases |acts|
  {
    Guarded(r) && (acts != [] ==> AlwaysGuarded(Next(r, acts[0]), acts[1..]))
  }

  predicate AllSafe(r: Row, acts: seq<Action>)
    requires Valid(r, acts)
    decreases |acts|
  {
    acts != [] ==> Safe(r, acts[0]) && AllSafe(Next(r, acts[0]), acts[1..])
  }

  /** The guard is right in every state of a run, however many editors the entry has, iff every step is safe. */
  lemma {:induction false} GuardedIff(r: Row, acts: seq<Action>)
    requires RowOk(r) && Guarded(r) && Valid(r, acts)
    ensures AlwaysGuarded(r, acts) <==> AllSafe(r, acts)
    ensures AllSafe(r, acts) ==> Guarded(Run(r, acts))
    decreases |acts|
  {
    if acts != [] {
      var q := Next(r, acts[0]);
      NextKeeps(r, acts[0]);
      StepIsGuardedIff(r, acts[0]);
      if Guarded(q) { GuardedIff(q, acts[1..]); }
    }
  }

  /** A state reached from the start by safe steps. */
  ghost predicate SafelyReachable(q: Row) {
    exists r, acts :: Init(r) && Valid(r, acts) && AllSafe(r, acts) && Run(r, acts) == q
  }

  /** The unload guard: without a record there is no unsaved draft and no request of the entry under way. */
  lemma NoRecordMeansSaved(q: Row)
    requires SafelyReachable(q)
    ensures RowOk(q) && Guarded(q)
  {
    var r, acts :| Init(r) && Valid(r, acts) && AllSafe(r, acts) && Run(r, acts) == q;
    InitOk(r);
    RunKeeps(r, acts);
    GuardedIff(r, acts);
  }
}
