/**
 Once the user stops and nobody else writes, all editors of an entry together take finitely many steps, whatever
 order their timers, requests, responses, renders and reads come in and however often requests fail. What each of
 them settles in is a row without sendable draft, a conflict, or an error that is not retried by itself any more.
 */
module Quiescence {
  import opened Options
  import opened Sequences
  import opened Drafts
  import opened ServerModel
  import opened EditorProtocol
  import opened RowSystem
  import opened Invariants
  import opened WakeUp
  import opened Ranks

  /** The flush carries exactly what the draft holds: nothing it has not acknowledged was typed over. */
  ghost predicate Undisturbed(draft: Draft, f: Flight) {
    && f.Flush? && f.next < |f.patches|
    && (forall j, k :: f.next <= j < |f.patches| && k in f.patches[j].fields ==>
          k in draft && Wire(k, draft[k]) == Some(f.patches[j].fields[k]))
    && (forall k :: k in f.clear ==> k in draft && f.clear[k] == draft[k])
  }

  ghost function Stale(ed: Editor): nat {
    if ed.flights == [] || Undisturbed(ed.draft, ed.flights[0]) then 0 else 1
  }

  function Retries(ed: Editor): nat {
    if ed.retryCount > MAX_AUTO_RETRIES then 0 else MAX_AUTO_RETRIES + 1 - ed.retryCount
  }

  function Bit(b: bool): nat { if b then 1 else 0 }

  function WakeUps(ed: Editor): nat {
    2 * (Bit(ed.saveTimer) + Bit(ed.retryTimer) + ed.strayTimers) + Bit(ed.pending)
  }

  function Phase(ed: Editor): nat {
    if ed.flights == [] then 0
    else
      var f := ed.flights[0];
      Bit(f.wire == InTransit) + (if f.Flush? && f.next < |f.patches| then 2 * (|f.patches| - f.next) else 1)
  }

  function Lag(ed: Editor, cache: Snapshot): nat {
    Bit(ed.seenStatus != ed.status || ed.seen != cache)
  }

  ghost function RankOf(ed: Editor): Rank {
    Rank(Stale(ed), |ed.draft|, Retries(ed), WakeUps(ed), Phase(ed))
  }

  /** A step of the editor's work: a timer, its request at the server, or the end of the request. */
  predicate Works(a: Action, i: nat) {
    match a
    case SaveTimer(x) => x == i
    case RetryTimer(x, _) => x == i
    case Process(x, _, _) => x == i
    case Answer(x, _) => x == i
    case Lose(x, _) => x == i
    case _ => false
  }

  /** A render that changes what the editor sees. */
  predicate Renders(r: Row, a: Action, i: nat) {
    a == RenderRow(i) && i < |r.editors| && Lag(r.editors[i], r.cache) == 1
  }

  /** What goes on by itself: the work of every editor of the entry, renders, and responses that arrive. */
  predicate Moves(r: Row, a: Action) {
    && Enabled(r, a)
    && match a
       case SaveTimer(_) => true
       case RetryTimer(_, _) => true
       case Process(_, _, _) => true
       case Answer(_, _) => true
       case Lose(_, _) => true
       case RenderRow(i) => Renders(r, a, i)
       case FetchArrive(_) => true
       case _ => false
  }

  lemma ProperSubsetIsSmaller(a: Draft, b: Draft, k: Key)
    requires a.Keys <= b.Keys && k in b && k !in a
    ensures |a| < |b|
  {
    assert b.Keys == a.Keys + (b.Keys - a.Keys) && k in b.Keys - a.Keys;
    assert |b.Keys| == |a.Keys| + |b.Keys - a.Keys|;
    assert |a| == |a.Keys| && |b| == |b.Keys|;
  }

  lemma SubsetIsNoLarger(a: Draft, b: Draft)
    requires a.Keys <= b.Keys
    ensures |a| <= |b|
  {
    assert b.Keys == a.Keys + (b.Keys - a.Keys);
    assert |a| == |a.Keys| && |b| == |b.Keys|;
  }

  /** A flush that starts carries what the draft holds. */
  lemma StartFlushUndisturbed(l: Local, ps: seq<Patch>)
    requires ps != [] && ps == Patches(l.ed.draft, l.ed.seen.content.lines)
    requires l.ed.flights == [] && Distinct(l.ed.seen.content.lines)
    ensures Stale(StartFlush(l, ps).ed) == 0
  {
    PatchesShape(l.ed.draft, l.ed.seen.content.lines);
    var f := StartFlush(l, ps).ed.flights[0];
    forall j, k | 0 <= j < |ps| && k in ps[j].fields ensures Wire(k, l.ed.draft[k]) == Some(ps[j].fields[k]) {
      assert ps[j].fields == FieldsFor(l.ed.draft, ps[j].target);
    }
  }

  /** Entering commit keeps the first three components when it runs beside a flight, and `stale` at 0 otherwise. */
  lemma CommitRank(l: Local)
    requires Distinct(l.ed.seen.content.lines) && (l.ed.saving <==> l.ed.flights != [])
    ensures var ed := Commit(l).ed;
            && ed.flights != [] && l.ed.flights != [] ==> ed.flights == l.ed.flights
    ensures l.ed.flights == [] ==> Stale(Commit(l).ed) == 0 && Commit(l).ed.pending == l.ed.pending
    ensures Stale(Commit(l).ed) <= Stale(l.ed)
    ensures WakeUps(Commit(l).ed) <= WakeUps(l.ed) + 1
  {
    var ps := Patches(l.ed.draft, l.ed.seen.content.lines);
    if l.ed.seenStatus == Conflict || ps == [] { assert Commit(l) == l; }
    else if l.ed.saving { assert Commit(l) == l.(ed := l.ed.(pending := true)); }
    else {
      StartFlushUndisturbed(l, ps);
      assert Commit(l) == StartFlush(l, ps);
    }
  }

  /** The end of a flight: nothing is stale, the first three components stay, and either a flush that was
      waiting starts, or no request is left. */
  lemma FinishRank(l: Local)
    requires |l.ed.flights| == 1 && Distinct(l.ed.seen.content.lines)
    ensures var ed := Finish(l, 0).ed;
            && Stale(ed) == 0 && ed.draft == l.ed.draft && ed.retryCount == l.ed.retryCount
            && (WakeUps(ed) < WakeUps(l.ed) || (WakeUps(ed) == WakeUps(l.ed) && Phase(ed) == 0))
  {
    var l1 := l.(ed := l.ed.(saving := false, pending := false, flights := Without(l.ed.flights, 0)));
    assert Without(l.ed.flights, 0) == [];
    if l.ed.pending {
      CommitRank(l1);
      assert Finish(l, 0) == Commit(l1);
    } else {
      assert Finish(l, 0) == l1;
    }
  }

  lemma PhasePositive(ed: Editor)
    requires ed.flights != []
    ensures Phase(ed) > 0
  {
  }

  /** A failure uses up a retry, a wake-up, or the flight. */
  lemma FailGoesDown(l: Local, failure: Failure)
    requires |l.ed.flights| == 1 && Distinct(l.ed.seen.content.lines)
    ensures Below(RankOf(Fail(l, 0, failure).ed), RankOf(l.ed))
  {
    var l1 := CloseFailed(l, l.ed.flights[0], failure);
    CloseFailedRank(l, l.ed.flights[0], failure);
    FinishRank(l1);
    PhasePositive(l.ed);
  }

  lemma CloseFailedRank(l: Local, f: Flight, failure: Failure)
    ensures var ed := CloseFailed(l, f, failure).ed;
            Retries(ed) < Retries(l.ed) || (Retries(ed) == Retries(l.ed) && WakeUps(ed) == WakeUps(l.ed))
  {
  }

  /** An acknowledged request of an undisturbed flush takes its keys out of the draft. */
  lemma AckShrinksDraft(draft: Draft, f: Flight)
    requires Undisturbed(draft, f) && WellFormed(f.patches[f.next])
    requires f.clear.Keys == f.patches[f.next].fields.Keys
    ensures |Cleared(draft, f.clear)| < |draft|
  {
    assert f.patches[f.next].fields.Keys != {};
    var k :| k in f.patches[f.next].fields.Keys;
    ProperSubsetIsSmaller(Cleared(draft, f.clear), draft, k);
  }

  lemma AdvanceUndisturbed(draft: Draft, f: Flight, v: nat)
    requires Undisturbed(draft, f) && f.next + 1 < |f.patches| && PayloadOk(draft, f)
    ensures Undisturbed(Cleared(draft, f.clear), Advanced(f, v, Cleared(draft, f.clear)))
  {
    var left := Cleared(draft, f.clear);
    forall j, k | f.next + 1 <= j < |f.patches| && k in f.patches[j].fields
      ensures k in left && Wire(k, left[k]) == Some(f.patches[j].fields[k])
    {
      assert TargetOf(k) == f.patches[j].target && f.patches[j].target != f.patches[f.next].target;
      assert WellFormed(f.patches[f.next]) && k !in f.clear;
    }
  }

  lemma AdvanceInStep(l: Local, f: Flight)
    requires l.ed.flights == [f] && f.Flush? && f.wire.Applied? && f.next + 1 < |f.patches|
    requires var left := Cleared(l.ed.draft, f.clear);
             |left| < |l.ed.draft| && Stale(l.ed) == 0
             && Stale(l.ed.(draft := left, flights := [Advanced(f, f.wire.version, left)])) == 0
    ensures Below(RankOf(Succeed(l, 0, f.wire.version).ed), RankOf(l.ed))
  {
    var left := Cleared(l.ed.draft, f.clear);
    var ed := Succeed(l, 0, f.wire.version).ed;
    var f1 := Advanced(f, f.wire.version, left);
    assert ed.flights == [f1] && ed.draft == left;
    assert Stale(ed) == Stale(l.ed.(draft := left, flights := [f1]));
  }

  lemma AdvanceBehind(l: Local, f: Flight)
    requires l.ed.flights == [f] && f.Flush? && f.wire.Applied? && f.next + 1 < |f.patches|
    requires !Undisturbed(l.ed.draft, f)
    ensures Below(RankOf(Succeed(l, 0, f.wire.version).ed), RankOf(l.ed))
  {
    var left := Cleared(l.ed.draft, f.clear);
    SubsetIsNoLarger(left, l.ed.draft);
    var ed := Succeed(l, 0, f.wire.version).ed;
    assert ed.flights == [Advanced(f, f.wire.version, left)] && ed.draft == left;
    assert Stale(l.ed) == 1 && Stale(ed) <= 1 && WakeUps(ed) == WakeUps(l.ed);
  }

  /** An acknowledgement that is not the last one. */
  lemma AdvanceGoesDown(l: Local, f: Flight)
    requires l.ed.flights == [f] && f.Flush? && f.wire.Applied? && f.next + 1 < |f.patches| && PayloadOk(l.ed.draft, f)
    ensures Below(RankOf(Succeed(l, 0, f.wire.version).ed), RankOf(l.ed))
  {
    if Undisturbed(l.ed.draft, f) {
      AckShrinksDraft(l.ed.draft, f);
      AdvanceUndisturbed(l.ed.draft, f, f.wire.version);
      AdvanceInStep(l, f);
    } else { AdvanceBehind(l, f); }
  }

  lemma LastAckGoesDown(l: Local, f: Flight)
    requires l.ed.flights == [f] && f.Flush? && f.next + 1 == |f.patches| && PayloadOk(l.ed.draft, f)
    requires Distinct(l.ed.seen.content.lines)
    ensures Below(RankOf(Finish(CloseFlush(Acknowledge(l, f)), 0).ed), RankOf(l.ed))
  {
    var l1 := CloseFlush(Acknowledge(l, f));
    assert l1.ed.draft == Cleared(l.ed.draft, f.clear);
    FinishRank(l1);
    if Undisturbed(l.ed.draft, f) { AckShrinksDraft(l.ed.draft, f); }
  }

  lemma StructuralAckGoesDown(l: Local, f: Flight)
    requires l.ed.flights == [f] && f.Structural? && Distinct(l.ed.seen.content.lines)
    ensures Below(RankOf(Finish(CloseStructural(l), 0).ed), RankOf(l.ed))
  {
    FinishRank(CloseStructural(l));
  }

  // ---------------------------------------------------------------- every step

  ghost predicate ActorReady(ed: Editor) {
    && ActorFacts(ed)
    && (ed.flights != [] && ed.flights[0].Flush? ==> PayloadOk(ed.draft, ed.flights[0]))
  }

  lemma ActorReadyHolds(r: Row, i: nat)
    requires RowOk(r) && i < |r.editors|
    ensures ActorReady(r.editors[i])
  {
    assert EditorOk(r.history, r.writers, i, r.editors[i]);
  }

  lemma AnswerGoesDown(r: Row, i: nat)
    requires Enabled(r, Answer(i, 0)) && ActorReady(r.editors[i])
    ensures Below(RankOf(Next(r, Answer(i, 0)).editors[i]), RankOf(r.editors[i]))
  {
    match r.editors[i].flights[0].wire
    case Applied(v) => AckGoesDown(r, i);
    case Refused(failure) => FailGoesDown(At(r, i), failure);
  }

  lemma AckGoesDown(r: Row, i: nat)
    requires Enabled(r, Answer(i, 0)) && ActorReady(r.editors[i]) && r.editors[i].flights[0].wire.Applied?
    ensures Below(RankOf(Next(r, Answer(i, 0)).editors[i]), RankOf(r.editors[i]))
  {
    var l := At(r, i);
    var f := l.ed.flights[0];
    assert Next(r, Answer(i, 0)).editors[i] == Succeed(l, 0, f.wire.version).ed;
    if f.Structural? { StructuralAckGoesDown(l, f); }
    else if f.next + 1 < |f.patches| { AdvanceGoesDown(l, f); }
    else { LastAckGoesDown(l, f); }
  }

  lemma CommitGoesDown(before: Editor, l: Local)
    requires Distinct(l.ed.seen.content.lines) && (l.ed.saving <==> l.ed.flights != [])
    requires l.ed.flights == before.flights && l.ed.draft == before.draft && l.ed.retryCount == before.retryCount
    requires WakeUps(l.ed) + 2 == WakeUps(before)
    ensures Below(RankOf(Commit(l).ed), RankOf(before))
  {
    CommitRank(l);
    assert SameData(l.ed, Commit(l).ed) && Stale(l.ed) == Stale(before);
  }

  lemma SaveTimerSpent(ed: Editor)
    requires ed.saveTimer
    ensures WakeUps(ed.(saveTimer := false)) + 2 == WakeUps(ed)
  {
  }

  lemma RetryTimerSpent(ed: Editor)
    ensures ed.retryTimer ==> WakeUps(ed.(retryTimer := false)) + 2 == WakeUps(ed)
    ensures ed.strayTimers > 0 ==> WakeUps(ed.(strayTimers := ed.strayTimers - 1)) + 2 == WakeUps(ed)
  {
  }

  lemma TimerGoesDown(r: Row, a: Action)
    requires Enabled(r, a) && (a.SaveTimer? || a.RetryTimer?) && ActorReady(r.editors[a.i])
    ensures Below(RankOf(Next(r, a).editors[a.i]), RankOf(r.editors[a.i]))
  {
    if a.SaveTimer? { SaveTimerSpent(r.editors[a.i]); } else { RetryTimerSpent(r.editors[a.i]); }
    CommitGoesDown(r.editors[a.i], BeforeCommit(r, a));
    TimerActionCommits(r, a);
  }

  lemma SameStale(draft: Draft, f: Flight, f1: Flight)
    requires f.Flush? && f1.Flush? && f1.patches == f.patches && f1.next == f.next && f1.clear == f.clear
    ensures Undisturbed(draft, f) <==> Undisturbed(draft, f1)
  {
  }

  lemma DecideGoesDown(ed: Editor, w: Transit)
    requires |ed.flights| == 1 && ed.flights[0].wire == InTransit && w != InTransit
    ensures Below(RankOf(SetWire(ed, 0, w)), RankOf(ed))
  {
    var ed1 := SetWire(ed, 0, w);
    assert ed1.flights == [ed.flights[0].(wire := w)];
    if ed.flights[0].Flush? { SameStale(ed.draft, ed.flights[0], ed1.flights[0]); }
    assert Stale(ed1) <= Stale(ed) && WakeUps(ed1) == WakeUps(ed) && Phase(ed1) < Phase(ed);
  }

  lemma ProcessGoesDown(r: Row, i: nat, j: nat, verdict: Verdict)
    requires Enabled(r, Process(i, j, verdict)) && ActorReady(r.editors[i])
    ensures Below(RankOf(Next(r, Process(i, j, verdict)).editors[i]), RankOf(r.editors[i]))
  {
    match verdict
    case Apply(_) => DecideGoesDown(r.editors[i], Applied(|r.history|));
    case Refuse(failure) => DecideGoesDown(r.editors[i], Refused(failure));
  }

  /** A step of an editor's work makes its rank smaller. */
  lemma WorkGoesDown(r: Row, i: nat, a: Action)
    requires RowOk(r) && Enabled(r, a) && Works(a, i)
    ensures i < |r.editors| && i < |Next(r, a).editors|
    ensures Below(RankOf(Next(r, a).editors[i]), RankOf(r.editors[i]))
  {
    ActorReadyHolds(r, i);
    match a
    case SaveTimer(_) => TimerGoesDown(r, a);
    case RetryTimer(_, _) => TimerGoesDown(r, a);
    case Process(_, j, verdict) => ProcessGoesDown(r, i, j, verdict);
    case Answer(_, j) => AnswerGoesDown(r, i);
    case Lose(_, j) => FailGoesDown(At(r, i), OtherFailure);
  }

  /** No step makes the rank of an editor that does not work in it larger: it does not change it. */
  lemma OthersKeepRank(r: Row, i: nat, a: Action)
    requires i < |r.editors| && Moves(r, a) && !Works(a, i)
    ensures |Next(r, a).editors| == |r.editors| && RankOf(Next(r, a).editors[i]) == RankOf(r.editors[i])
  {
    if a.RenderRow? && a.i == i {
      assert Next(r, a).editors[i] == Render(At(r, i), r.cache).ed;
    } else {
      assert Next(r, a).editors[i] == r.editors[i];
    }
  }

  // ---------------------------------------------------------------- renders

  function LagSum(editors: seq<Editor>, cache: Snapshot): nat {
    if editors == [] then 0
    else LagSum(editors[..|editors| - 1], cache) + Lag(editors[|editors| - 1], cache)
  }

  lemma {:induction false} LagOfUpdate(editors: seq<Editor>, i: nat, ed: Editor, cache: Snapshot)
    requires i < |editors|
    ensures LagSum(editors[i := ed], cache) == LagSum(editors, cache) - Lag(editors[i], cache) + Lag(ed, cache)
  {
    var n := |editors| - 1;
    if i < n {
      assert editors[i := ed][..n] == editors[..n][i := ed];
      LagOfUpdate(editors[..n], i, ed, cache);
    } else {
      assert editors[i := ed][..n] == editors[..n];
    }
  }

  /** Without work, every step uses up a response under way, or brings a row up to date. */
  lemma IdleGoesDown(r: Row, a: Action)
    requires Moves(r, a) && (a.RenderRow? || a.FetchArrive?)
    ensures var q := Next(r, a);
            || |q.fetches| < |r.fetches|
            || (|q.fetches| == |r.fetches| && LagSum(q.editors, q.cache) < LagSum(r.editors, r.cache))
  {
    if a.RenderRow? {
      LagOfUpdate(r.editors, a.i, Render(At(r, a.i), r.cache).ed, r.cache);
    }
  }

  // ---------------------------------------------------------------- no infinite run

  ghost predicate StepsAt(rows: nat -> Row, acts: nat -> Action, x: nat) {
    Moves(rows(x), acts(x)) && rows(x + 1) == Next(rows(x), acts(x))
  }

  /** Each row is what a step that goes on by itself makes of the one before. */
  ghost predicate GoesOn(rows: nat -> Row, acts: nat -> Action) {
    RowOk(rows(0)) && forall x: nat :: StepsAt(rows, acts, x)
  }

  lemma StepAt(rows: nat -> Row, acts: nat -> Action, x: nat)
    requires GoesOn(rows, acts)
    ensures Moves(rows(x), acts(x)) && rows(x + 1) == Next(rows(x), acts(x))
  {
    assert StepsAt(rows, acts, x);
  }

  lemma MovesKeepsEditors(r: Row, a: Action)
    requires Moves(r, a)
    ensures |Next(r, a).editors| == |r.editors|
  {
  }

  lemma MovesKeeps(r: Row, a: Action)
    requires RowOk(r) && Moves(r, a)
    ensures RowOk(Next(r, a)) && |Next(r, a).editors| == |r.editors|
  {
    NextKeeps(r, a);
    MovesKeepsEditors(r, a);
  }

  lemma {:induction false} RowsStayOk(rows: nat -> Row, acts: nat -> Action, n: nat)
    requires GoesOn(rows, acts)
    ensures RowOk(rows(n)) && |rows(n).editors| == |rows(0).editors|
  {
    if n > 0 {
      RowsStayOk(rows, acts, n - 1);
      StepAt(rows, acts, n - 1);
      MovesKeeps(rows(n - 1), acts(n - 1));
    }
  }

  ghost function RankAt(rows: nat -> Row, i: nat, n: nat): Rank {
    if i < |rows(n).editors| then RankOf(rows(n).editors[i]) else Rank(0, 0, 0, 0, 0)
  }

  lemma StepRank(r: Row, a: Action, i: nat)
    requires RowOk(r) && Moves(r, a) && i < |r.editors|
    ensures |Next(r, a).editors| == |r.editors| && AtMost(RankOf(Next(r, a).editors[i]), RankOf(r.editors[i]))
  {
    if Works(a, i) {
      MovesKeepsEditors(r, a);
      WorkGoesDown(r, i, a);
    } else {
      OthersKeepRank(r, i, a);
    }
  }

  lemma RankStep(rows: nat -> Row, acts: nat -> Action, i: nat, n: nat)
    requires GoesOn(rows, acts) && i < |rows(0).editors|
    ensures AtMost(RankAt(rows, i, n + 1), RankAt(rows, i, n))
    ensures Works(acts(n), i) ==> Below(RankAt(rows, i, n + 1), RankAt(rows, i, n))
  {
    RowsStayOk(rows, acts, n);
    StepAt(rows, acts, n);
    StepRank(rows(n), acts(n), i);
    if Works(acts(n), i) { WorkGoesDown(rows(n), i, acts(n)); }
  }

  /** An editor works only finitely often. */
  lemma StopsWorking(rows: nat -> Row, acts: nat -> Action, i: nat) returns (m: nat)
    requires GoesOn(rows, acts) && i < |rows(0).editors|
    ensures forall x: nat :: m <= x ==> !Works(acts(x), i)
  {
    var ranks: nat -> Rank := (x: nat) => RankAt(rows, i, x);
    var falls: nat -> bool := (x: nat) => Works(acts(x), i);
    forall x: nat ensures DownAt(ranks, falls, x) {
      RankStep(rows, acts, i, x);
    }
    m := StopsFalling(ranks, falls, 0);
    forall x: nat | m <= x ensures !Works(acts(x), i) {
      assert !falls(x);
    }
  }

  lemma {:induction false} AllStopWorking(rows: nat -> Row, acts: nat -> Action, k: nat) returns (m: nat)
    requires GoesOn(rows, acts) && k <= |rows(0).editors|
    ensures forall x, i :: m <= x && 0 <= i < k ==> !Works(acts(x), i)
    decreases k
  {
    if k == 0 {
      m := 0;
    } else {
      var m1 := AllStopWorking(rows, acts, k - 1);
      var m2 := StopsWorking(rows, acts, k - 1);
      m := if m1 < m2 then m2 else m1;
    }
  }

  lemma {:induction false} NoInfiniteIdleRun(rows: nat -> Row, acts: nat -> Action, n: nat)
    requires GoesOn(rows, acts) && forall x :: n <= x ==> acts(x).RenderRow? || acts(x).FetchArrive?
    ensures false
    decreases |rows(n).fetches|, LagSum(rows(n).editors, rows(n).cache)
  {
    StepAt(rows, acts, n);
    IdleGoesDown(rows(n), acts(n));
    NoInfiniteIdleRun(rows, acts, n + 1);
  }

  /** There is no infinite run of what goes on by itself, however many editors the entry has. */
  lemma NoInfiniteRun(rows: nat -> Row, acts: nat -> Action)
    requires GoesOn(rows, acts)
    ensures false
  {
    var m := AllStopWorking(rows, acts, |rows(0).editors|);
    forall x | m <= x ensures acts(x).RenderRow? || acts(x).FetchArrive? {
      StepAt(rows, acts, x);
      RowsStayOk(rows, acts, x);
      if !acts(x).RenderRow? && !acts(x).FetchArrive? { assert Works(acts(x), acts(x).i); }
    }
    NoInfiniteIdleRun(rows, acts, m);
  }

  // ---------------------------------------------------------------- settling

  ghost predicate CanMove(r: Row, i: nat) {
    exists a :: Moves(r, a) && (Works(a, i) || Renders(r, a, i))
  }

  ghost predicate RowCanMove(r: Row) {
    exists a :: Moves(r, a)
  }

  lemma CannotMove(r: Row, i: nat, a: Action)
    requires !CanMove(r, i) && (Works(a, i) || Renders(r, a, i))
    ensures !Moves(r, a)
  {
  }

  lemma AtRest(q: Row, i: nat)
    requires RowOk(q) && i < |q.editors| && Watched(q.editors[i]) && !CanMove(q, i)
    ensures Settled(q, i)
  {
    ActorReadyHolds(q, i);
    CannotMove(q, i, Lose(i, 0));
    CannotMove(q, i, SaveTimer(i));
    CannotMove(q, i, RetryTimer(i, false));
    CannotMove(q, i, RetryTimer(i, true));
    if Renders(q, RenderRow(i), i) { CannotMove(q, i, RenderRow(i)); }
  }

  /** No request, no timer, and nothing to send, or a conflict, or given up; a mounted row is up to date. */
  predicate Settled(q: Row, i: nat)
    requires i < |q.editors|
  {
    var ed := q.editors[i];
    && ed.flights == [] && !ed.saving && !TimerArmed(ed)
    && (!HasWork(ed.draft, ed.seen.content.lines) || ed.status == Conflict || GaveUp(ed))
    && (ed.mounted ==> ed.seenStatus == ed.status && ed.seen == q.cache)
  }

  /**
   What an editor that cannot move any more looks like, after any run in which no line change and no render
   strands a draft.
   */
  lemma SettledState(r: Row, acts: seq<Action>, i: nat)
    requires Init(r) && Valid(r, acts) && AllOrderly(r, acts)
    requires i < |Run(r, acts).editors| && !CanMove(Run(r, acts), i)
    ensures Settled(Run(r, acts), i)
  {
    InitOk(r);
    RunKeeps(r, acts);
    NoLostWakeUp(r, acts);
    AtRest(Run(r, acts), i);
  }

  /** The row after `n` picks, or fewer if the row comes to rest before. */
  ghost function Trace(r: Row, pick: Row -> Action, n: nat): Row {
    if n == 0 then r
    else
      var q := Trace(r, pick, n - 1);
      if Moves(q, pick(q)) then Next(q, pick(q)) else q
  }

  lemma TraceEnds(r: Row, pick: Row -> Action) returns (n: nat)
    requires RowOk(r)
    ensures !Moves(Trace(r, pick, n), pick(Trace(r, pick, n)))
  {
    if x: nat :| !Moves(Trace(r, pick, x), pick(Trace(r, pick, x))) {
      n := x;
    } else {
      var rows: nat -> Row := (x: nat) => Trace(r, pick, x);
      var acts: nat -> Action := (x: nat) => pick(Trace(r, pick, x));
      assert forall x: nat :: StepsAt(rows, acts, x);
      NoInfiniteRun(rows, acts);
    }
  }

  predicate AllMove(r: Row, acts: seq<Action>)
    requires Valid(r, acts)
    decreases |acts|
  {
    acts != [] ==> Moves(r, acts[0]) && AllMove(Next(r, acts[0]), acts[1..])
  }

  lemma {:induction false} MoveAfter(r: Row, acts: seq<Action>, a: Action)
    requires Valid(r, acts) && AllMove(r, acts) && Moves(Run(r, acts), a)
    ensures Valid(r, acts + [a]) && AllMove(r, acts + [a]) && Run(r, acts + [a]) == Next(Run(r, acts), a)
    decreases |acts|
  {
    if acts == [] {
      assert [a][1..] == [];
    } else {
      assert (acts + [a])[1..] == acts[1..] + [a];
      MoveAfter(Next(r, acts[0]), acts[1..], a);
    }
  }

  lemma {:induction false} TraceIsRun(r: Row, pick: Row -> Action, n: nat) returns (acts: seq<Action>)
    ensures Valid(r, acts) && AllMove(r, acts) && Run(r, acts) == Trace(r, pick, n)
    decreases n
  {
    if n == 0 {
      acts := [];
    } else {
      acts := TraceIsRun(r, pick, n - 1);
      var q := Trace(r, pick, n - 1);
      if Moves(q, pick(q)) {
        MoveAfter(r, acts, pick(q));
        acts := acts + [pick(q)];
      }
    }
  }

  lemma NoResponseIsLeft(q: Row)
    requires !RowCanMove(q)
    ensures q.fetches == []
  {
    assert Moves(q, FetchArrive(0)) <==> 0 < |q.fetches|;
  }

  lemma StuckEditor(q: Row, i: nat)
    requires !RowCanMove(q)
    ensures !CanMove(q, i)
  {
  }

  /**
   Whatever a scheduler picks among the steps that go on by themselves, the row comes to rest, with no response under
   way. If no render on the way strands a draft, every editor has settled: with nothing left to send, in conflict,
   or in an error that is not retried by itself.
   */
  lemma EverySchedulerSettles(r: Row, pick: Row -> Action) returns (acts: seq<Action>)
    requires RowOk(r) && forall q: Row :: RowCanMove(q) ==> Moves(q, pick(q))
    ensures Valid(r, acts) && AllMove(r, acts) && !RowCanMove(Run(r, acts)) && Run(r, acts).fetches == []
    ensures RowWatched(r) && AllOrderly(r, acts) ==>
              forall i :: 0 <= i < |Run(r, acts).editors| ==> Settled(Run(r, acts), i)
  {
    var n := TraceEnds(r, pick);
    acts := TraceIsRun(r, pick, n);
    var q := Run(r, acts);
    assert !RowCanMove(q);
    NoResponseIsLeft(q);
    RunKeeps(r, acts);
    if RowWatched(r) && AllOrderly(r, acts) {
      NoLostWakeUp(r, acts);
      forall i | 0 <= i < |q.editors| ensures Settled(q, i) {
        StuckEditor(q, i);
        assert Watched(q.editors[i]);
        AtRest(q, i);
      }
    }
  }
}
