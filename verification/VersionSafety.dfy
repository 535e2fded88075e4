/**
 What the version chain guarantees over whole runs: one flush at a time, a flush that is accepted
 completely is one atomic write, a failed flush has written exactly its acknowledged prefix, and a
 version that was overtaken is never accepted again.
 */
module VersionSafety {
  import opened Options
  import opened Sequences
  import opened Drafts
  import opened ServerModel
  import opened EditorProtocol
  import opened RowSystem
  import opened Invariants

  /** The cached entry, every response under way and every editor's copy is the server's content at its version. */
  lemma CacheIsASnapshot(q: Row)
    requires Reachable(q)
    ensures IsSnapshot(q.history, q.cache)
    ensures forall j :: 0 <= j < |q.fetches| ==> IsSnapshot(q.history, q.fetches[j])
    ensures forall i :: 0 <= i < |q.editors| ==> IsSnapshot(q.history, q.editors[i].seen)
  {
    ReachableOk(q);
  }

  /** Across commit, adding and removing lines, the saving flag is set exactly while one flush is active. */
  lemma OneFlushAtATime(q: Row, i: nat)
    requires Reachable(q) && i < |q.editors|
    ensures var ed := q.editors[i];
            |ed.flights| <= 1 && (ed.saving <==> |ed.flights| == 1) && (ed.pending ==> ed.saving)
  {
    ReachableOk(q);
  }

  // ---------------------------------------------------------------- a flush as one write

  /** What a flush sets out to write: the sendable part of the draft, on top of the entry the row shows. */
  lemma FlushSendsTheSendablePart(r: Row, i: nat)
    requires RowOk(r) && i < |r.editors|
    requires var ed := r.editors[i]; !ed.saving && ed.seenStatus != Conflict
    ensures var ed := r.editors[i];
            var started := Commit(At(r, i)).ed;
            var sendable := SendablePart(ed.draft, ed.seen.content.lines);
            if sendable == map[] then started == ed
            else |started.flights| == 1 && started.flights[0].Flush?
                 && started.flights[0].sent == sendable && started.flights[0].base == ed.seen.version
                 && r.history[started.flights[0].base] == ed.seen.content
                 && started.draft == ed.draft && Commit(At(r, i)).record == Some(Saving)
  {
    var ed := r.editors[i];
    PatchesAreTheSendablePart(ed.draft, ed.seen.content.lines);
  }

  /** Editor `i`, and nobody else, wrote the versions after `from` up to `to`. */
  predicate OnlyWriter(writers: seq<Writer>, i: nat, from: int, to: int) {
    -1 <= from && to < |writers| && forall v :: from < v <= to ==> writers[v] == ByEditor(i)
  }

  /** The last request of the flush was accepted by the server. */
  predicate FullyAccepted(f: Flight) {
    f.Flush? && f.wire.Applied? && f.next == |f.patches| - 1
  }

  lemma FullChainIsOneWrite(history: seq<Content>, writers: seq<Writer>, i: nat, f: Flight)
    requires |writers| == |history| && f.Flush? && ChainOk(history, writers, i, f) && f.sent == Union(f.patches)
    requires FullyAccepted(f)
    ensures f.wire.version == f.base + |f.patches| < |history|
    ensures history[f.wire.version] == Overlay(history[f.base], f.sent)
    ensures OnlyWriter(writers, i, f.base, f.wire.version)
  {
    var init := f.patches[..|f.patches| - 1];
    ApplyAllIsOneWrite(history[f.base], init);
    OverlayTwice(history[f.base], Union(init), f.patches[f.next].fields);
  }

  /**
   Once the last request of a flush is accepted: nobody else wrote between its requests, the version
   went up by exactly the number of requests, and the content is that of one write of everything sent.
   */
  lemma AcceptedFlushIsOneWrite(q: Row, i: nat)
    requires Reachable(q) && i < |q.editors| && q.editors[i].flights != []
    requires FullyAccepted(q.editors[i].flights[0])
    ensures var f := q.editors[i].flights[0];
            && f.wire.version == f.base + |f.patches| < |q.history|
            && q.history[f.wire.version] == Overlay(q.history[f.base], f.sent)
            && OnlyWriter(q.writers, i, f.base, f.wire.version)
  {
    ReachableOk(q);
    FullChainIsOneWrite(q.history, q.writers, i, q.editors[i].flights[0]);
  }

  predicate Fails(r: Row, a: Action) {
    && Enabled(r, a)
    && (a.Lose? || (a.Answer? && r.editors[a.i].flights[a.j].wire.Refused?))
  }

  /** What an acknowledged PATCH changes of the draft and of the bookkeeping beside it. */
  predicate AckedDraft(before: Editor, after: Editor, f: Flight)
    requires f.Flush? && f.next < |f.patches|
  {
    && after.draft == Cleared(before.draft, f.clear) && after.typed == before.typed
    && after.acked == before.acked + f.patches[f.next].fields
  }

  lemma AdvanceDraft(l: Local, j: nat, v: nat)
    requires j < |l.ed.flights| && l.ed.flights[j].Flush? && l.ed.flights[j].next + 1 < |l.ed.flights[j].patches|
    ensures AckedDraft(l.ed, Succeed(l, j, v).ed, l.ed.flights[j])
  {
  }

  lemma CloseFlushDraft(l: Local, j: nat, v: nat)
    requires j < |l.ed.flights| && l.ed.flights[j].Flush? && l.ed.flights[j].next + 1 == |l.ed.flights[j].patches|
    ensures AckedDraft(l.ed, Succeed(l, j, v).ed, l.ed.flights[j])
  {
    assert AckedDraft(l.ed, CloseFlush(Acknowledge(l, l.ed.flights[j])).ed, l.ed.flights[j]);
  }

  lemma SucceedDraft(l: Local, j: nat, v: nat)
    requires j < |l.ed.flights| && l.ed.flights[j].Flush? && l.ed.flights[j].next < |l.ed.flights[j].patches|
    ensures AckedDraft(l.ed, Succeed(l, j, v).ed, l.ed.flights[j])
  {
    if l.ed.flights[j].next + 1 < |l.ed.flights[j].patches| { AdvanceDraft(l, j, v); }
    else { CloseFlushDraft(l, j, v); }
  }

  /** The server's side of a flush that stops at request `next`. */
  ghost predicate PrefixWritten(history: seq<Content>, writers: seq<Writer>, i: nat, f: Flight)
    requires f.Flush?
  {
    && f.next < |f.patches| && f.version == f.base + f.next < |history|
    && history[f.version] == ApplyAll(history[f.base], f.patches[..f.next])
    && OnlyWriter(writers, i, f.base, f.version)
    && (f.wire.Applied? ==>
          && f.version + 1 < |history|
          && history[f.version + 1] == ApplyAll(history[f.base], f.patches[..f.next + 1])
          && OnlyWriter(writers, i, f.base, f.version + 1))
  }

  lemma ChainIsPrefix(history: seq<Content>, writers: seq<Writer>, i: nat, f: Flight)
    requires |writers| == |history| && f.Flush? && ChainOk(history, writers, i, f)
    ensures PrefixWritten(history, writers, i, f)
  {
    var done := f.patches[..f.next + 1];
    assert done[..|done| - 1] == f.patches[..f.next] && done[|done| - 1] == f.patches[f.next];
  }

  /** Every key of the requests from `next` on is still in the draft, with the value typed last. */
  ghost predicate UnsentKept(ed: Editor, f: Flight)
    requires f.Flush?
  {
    forall j, k :: f.next <= j < |f.patches| && k in f.patches[j].fields ==>
      k in ed.draft && k in ed.typed && ed.draft[k] == ed.typed[k]
  }

  lemma FailureEffect(q: Row, a: Action)
    requires RowOk(q) && Fails(q, a)
    ensures var after := Next(q, a);
            && after.history == q.history && after.writers == q.writers && after.cache == q.cache
            && |after.editors| == |q.editors|
            && after.editors[a.i].draft == q.editors[a.i].draft && after.editors[a.i].typed == q.editors[a.i].typed
  {
    var l := At(q, a.i);
    var f := l.ed.flights[a.j];
    var failure := if a.Lose? then OtherFailure else f.wire.failure;
    assert Next(q, a) == Put(q, a.i, Fail(l, a.j, failure));
  }

  lemma FailingFlushOk(q: Row, a: Action)
    requires RowOk(q) && Fails(q, a) && q.editors[a.i].flights[a.j].Flush?
    ensures |q.writers| == |q.history| && q.history != []
    ensures var f := q.editors[a.i].flights[a.j];
            ChainOk(q.history, q.writers, a.i, f) && UnsentKept(q.editors[a.i], f)
  {
    assert EditorOk(q.history, q.writers, a.i, q.editors[a.i]);
  }

  lemma UnsentStaysKept(before: Editor, after: Editor, f: Flight)
    requires f.Flush? && UnsentKept(before, f) && after.draft == before.draft && after.typed == before.typed
    ensures UnsentKept(after, f)
  {
  }

  /**
   When request `next` of a flush fails: the server has written exactly the requests before it, and this
   one only if its acknowledgement was lost. Nothing unacknowledged leaves the draft.
   */
  lemma FailedFlushIsExact(q: Row, a: Action)
    requires Reachable(q) && Fails(q, a) && q.editors[a.i].flights[a.j].Flush?
    ensures var f := q.editors[a.i].flights[a.j];
            var after := Next(q, a);
            && after.history == q.history && after.editors[a.i].draft == q.editors[a.i].draft
            && PrefixWritten(after.history, after.writers, a.i, f)
            && UnsentKept(after.editors[a.i], f)
            && (f.wire.Applied? ==> a.Lose?)
  {
    ReachableOk(q);
    FailingFlushOk(q, a);
    ChainIsPrefix(q.history, q.writers, a.i, q.editors[a.i].flights[a.j]);
    FailureEffect(q, a);
    UnsentStaysKept(q.editors[a.i], Next(q, a).editors[a.i], q.editors[a.i].flights[a.j]);
  }

  /** An acknowledged key stays in the draft only if it no longer holds what was compared against. */
  lemma AcknowledgedKeysLeave(q: Row, i: nat, k: Key)
    requires Reachable(q) && HasFlight(q, i, 0)
    requires var f := q.editors[i].flights[0]; f.Flush? && f.wire.Applied? && k in f.patches[f.next].fields
    ensures Enabled(q, Answer(i, 0))
    ensures var ed, f := q.editors[i], q.editors[i].flights[0];
            var after := Next(q, Answer(i, 0)).editors[i];
            && k in ed.draft && k in f.clear
            && (k in after.draft <==> ed.draft[k] != f.clear[k])
            && (k in after.draft ==> after.draft[k] == ed.draft[k])
  {
    ReachableOk(q);
    var l := At(q, i);
    var f := l.ed.flights[0];
    assert f.patches[f.next].fields.Keys <= l.ed.draft.Keys;
    SucceedDraft(l, 0, f.wire.version);
  }

  // ---------------------------------------------------------------- overtaken versions

  lemma HistoryOnlyGrows(r: Row, a: Action)
    requires Enabled(r, a)
    ensures r.history <= Next(r, a).history
    ensures |Next(r, a).history| == |r.history| + (if a.ForeignWrite? || (a.Process? && a.verdict.Apply?) then 1 else 0)
  {
  }

  /** The versions the accepted requests of a run were stamped with, in the order of acceptance. */
  function AcceptedBases(r: Row, acts: seq<Action>): seq<nat>
    requires Valid(r, acts)
    decreases |acts|
  {
    if acts == [] then []
    else
      var rest := AcceptedBases(Next(r, acts[0]), acts[1..]);
      match acts[0]
      case Process(i, j, Apply(_)) => [r.editors[i].flights[j].version] + rest
      case _ => rest
  }

  /**
   Accepted versions strictly increase, for all editors together, and none is older than the version
   the run starts from: a version that was overtaken is dead, whatever is reloaded or rendered later.
   */
  lemma {:induction false} AcceptedVersionsIncrease(r: Row, acts: seq<Action>)
    requires Valid(r, acts)
    ensures forall x :: 0 <= x < |AcceptedBases(r, acts)| ==> AcceptedBases(r, acts)[x] >= Version(r)
    ensures forall x, y :: 0 <= x < y < |AcceptedBases(r, acts)| ==>
              AcceptedBases(r, acts)[x] < AcceptedBases(r, acts)[y]
    decreases |acts|
  {
    if acts != [] {
      HistoryOnlyGrows(r, acts[0]);
      AcceptedVersionsIncrease(Next(r, acts[0]), acts[1..]);
      var rest := AcceptedBases(Next(r, acts[0]), acts[1..]);
      if acts[0].Process? && acts[0].verdict.Apply? {
        assert AcceptedBases(r, acts) == [r.editors[acts[0].i].flights[acts[0].j].version] + rest;
      } else {
        assert AcceptedBases(r, acts) == rest;
      }
    }
  }

  /** A write whose acknowledgement was lost is never written a second time from the same version. */
  lemma LostWriteIsNotRepeated(r: Row, i: nat, j: nat, acts: seq<Action>)
    requires RowOk(r) && Enabled(r, Lose(i, j)) && r.editors[i].flights[j].wire.Applied?
    requires Valid(Next(r, Lose(i, j)), acts)
    ensures r.editors[i].flights[j].version !in AcceptedBases(Next(r, Lose(i, j)), acts)
  {
    HistoryOnlyGrows(r, Lose(i, j));
    AcceptedVersionsIncrease(Next(r, Lose(i, j)), acts);
  }

  predicate OlderThan(ed: Editor, n: int) {
    && ed.seen.version < n
    && forall j :: 0 <= j < |ed.flights| ==>
         ed.flights[j].version < n && (ed.flights[j].wire.Applied? ==> ed.flights[j].wire.version < n)
  }

  /** Neither the cache, nor what a row shows, nor a request under way has the server's current version. */
  predicate Behind(r: Row) {
    && r.cache.version < Version(r)
    && (forall i :: 0 <= i < |r.editors| ==> OlderThan(r.editors[i], Version(r)))
  }

  /** A response with the server's current version reaches the cache. */
  predicate Refreshes(r: Row, a: Action)
    requires Enabled(r, a)
  {
    a.FetchArrive? && r.fetches[a.j].version == Version(r)
  }

  predicate NeverRefreshed(r: Row, acts: seq<Action>)
    requires Valid(r, acts)
    decreases |acts|
  {
    acts != [] ==> !Refreshes(r, acts[0]) && NeverRefreshed(Next(r, acts[0]), acts[1..])
  }

  lemma CommitStaysOlder(l: Local, n: int)
    requires OlderThan(l.ed, n)
    ensures OlderThan(Commit(l).ed, n)
  {
  }

  lemma FinishStaysOlder(l: Local, j: nat, n: int)
    requires j < |l.ed.flights| && l.ed.seen.version < n
    requires forall x :: 0 <= x < |l.ed.flights| && x != j ==>
               l.ed.flights[x].version < n && (l.ed.flights[x].wire.Applied? ==> l.ed.flights[x].wire.version < n)
    ensures OlderThan(Finish(l, j).ed, n)
  {
    CommitStaysOlder(l.(ed := l.ed.(saving := false, pending := false, flights := Without(l.ed.flights, j))), n);
  }

  lemma AdvanceStaysOlder(l: Local, j: nat, v: nat, n: int)
    requires j < |l.ed.flights| && OlderThan(l.ed, n) && v < n
    requires l.ed.flights[j].Flush? && l.ed.flights[j].next + 1 < |l.ed.flights[j].patches|
    ensures OlderThan(Succeed(l, j, v).ed, n)
  {
  }

  lemma CloseFlushStaysOlder(l: Local, j: nat, v: nat, n: int)
    requires j < |l.ed.flights| && OlderThan(l.ed, n)
    requires l.ed.flights[j].Flush? && l.ed.flights[j].next + 1 == |l.ed.flights[j].patches|
    ensures OlderThan(Succeed(l, j, v).ed, n)
  {
    FinishStaysOlder(CloseFlush(Acknowledge(l, l.ed.flights[j])), j, n);
  }

  lemma CloseStructuralStaysOlder(l: Local, j: nat, v: nat, n: int)
    requires j < |l.ed.flights| && OlderThan(l.ed, n) && l.ed.flights[j].Structural?
    ensures OlderThan(Succeed(l, j, v).ed, n)
  {
    FinishStaysOlder(CloseStructural(l), j, n);
  }

  lemma SucceedStaysOlder(l: Local, j: nat, v: nat, n: int)
    requires j < |l.ed.flights| && OlderThan(l.ed, n) && v < n
    requires l.ed.flights[j].Flush? ==> l.ed.flights[j].next < |l.ed.flights[j].patches|
    ensures OlderThan(Succeed(l, j, v).ed, n)
  {
    var f := l.ed.flights[j];
    if f.Structural? { CloseStructuralStaysOlder(l, j, v, n); }
    else if f.next + 1 == |f.patches| { CloseFlushStaysOlder(l, j, v, n); }
    else { AdvanceStaysOlder(l, j, v, n); }
  }

  lemma FailStaysOlder(l: Local, j: nat, failure: Failure, n: int)
    requires j < |l.ed.flights| && OlderThan(l.ed, n)
    ensures OlderThan(Fail(l, j, failure).ed, n)
  {
    FinishStaysOlder(CloseFailed(l, l.ed.flights[j], failure), j, n);
  }

  lemma PutStaysBehind(r: Row, i: nat, l: Local)
    requires Behind(r) && i < |r.editors| && OlderThan(l.ed, Version(r))
    ensures Behind(Put(r, i, l))
  {
  }

  lemma BehindAnswer(r: Row, i: nat, j: nat)
    requires Behind(r) && Enabled(r, Answer(i, j))
    ensures Behind(Next(r, Answer(i, j)))
  {
    match r.editors[i].flights[j].wire
    case Applied(v) =>
      SucceedStaysOlder(At(r, i), j, v, Version(r));
      PutStaysBehind(r.(cache := Snapshot(v, r.history[v])), i, Succeed(At(r, i), j, v));
      assert Behind(Next(r, Answer(i, j)));
    case Refused(failure) =>
      FailStaysOlder(At(r, i), j, failure, Version(r));
      PutStaysBehind(r, i, Fail(At(r, i), j, failure));
      assert Behind(Next(r, Answer(i, j)));
  }

  lemma BehindLose(r: Row, i: nat, j: nat)
    requires Behind(r) && Enabled(r, Lose(i, j))
    ensures Behind(Next(r, Lose(i, j)))
  {
    FailStaysOlder(At(r, i), j, OtherFailure, Version(r));
    PutStaysBehind(r, i, Fail(At(r, i), j, OtherFailure));
  }

  lemma BehindTimer(r: Row, a: Action)
    requires Behind(r) && Enabled(r, a) && IsTimerAction(a)
    ensures Behind(Next(r, a))
  {
    CommitStaysOlder(BeforeCommit(r, a), Version(r));
    PutStaysBehind(r, a.i, Commit(BeforeCommit(r, a)));
    TimerActionCommits(r, a);
  }

  lemma BehindType(r: Row, i: nat, k: Key, v: Value)
    requires Behind(r) && Enabled(r, Type(i, k, v))
    ensures Behind(Next(r, Type(i, k, v)))
  {
    assert OlderThan(Edit(At(r, i), k, v).ed, Version(r));
    PutStaysBehind(r, i, Edit(At(r, i), k, v));
  }

  lemma BehindChangeLines(r: Row, i: nat, op: Op)
    requires Behind(r) && Enabled(r, ChangeLines(i, op))
    ensures Behind(Next(r, ChangeLines(i, op)))
  {
    assert OlderThan(StartStructural(At(r, i), op).ed, Version(r));
    PutStaysBehind(r, i, StartStructural(At(r, i), op));
  }

  lemma BehindRenderOrReload(r: Row, a: Action)
    requires Behind(r) && Enabled(r, a) && (a.RenderRow? || a.ClickReload?)
    ensures Behind(Next(r, a))
  {
    if a.RenderRow? {
      PutStaysBehind(r, a.i, Render(At(r, a.i), r.cache));
      assert Behind(Next(r, a));
    } else {
      PutStaysBehind(r, a.i, Reload(At(r, a.i)));
      assert Behind(Next(r, a));
    }
  }

  lemma BehindProcess(r: Row, i: nat, j: nat, verdict: Verdict)
    requires RowOk(r) && Behind(r) && Enabled(r, Process(i, j, verdict))
    ensures verdict.Refuse? && Behind(Next(r, Process(i, j, verdict)))
  {
    assert r.editors[i].flights[j].version < Version(r);
    assert OlderThan(SetWire(r.editors[i], j, Refused(verdict.failure)), Version(r));
  }

  lemma BehindOther(r: Row, a: Action)
    requires Behind(r) && Enabled(r, a) && !Refreshes(r, a)
    requires a.Mount? || a.Unmount? || a.ForeignWrite? || a.FetchRead? || a.FetchArrive?
    requires forall j :: 0 <= j < |r.fetches| ==> IsSnapshot(r.history, r.fetches[j])
    ensures Behind(Next(r, a))
  {
    match a
    case FetchRead => assert Behind(Next(r, a));
    case Mount => assert Behind(Next(r, a));
    case Unmount(i) => assert Behind(Next(r, a));
    case ForeignWrite(_) => assert Behind(Next(r, a));
    case FetchArrive(_) => assert Behind(Next(r, a));
  }

  lemma BehindStep(r: Row, a: Action)
    requires RowOk(r) && Behind(r) && Enabled(r, a) && !Refreshes(r, a)
    ensures Behind(Next(r, a)) && !(a.Process? && a.verdict.Apply?)
  {
    match a
    case Answer(i, j) => BehindAnswer(r, i, j);
    case Lose(i, j) => BehindLose(r, i, j);
    case Process(i, j, verdict) => BehindProcess(r, i, j, verdict);
    case Type(i, k, v) => BehindType(r, i, k, v);
    case ChangeLines(i, op) => BehindChangeLines(r, i, op);
    case RenderRow(_) => BehindRenderOrReload(r, a);
    case ClickReload(_) => BehindRenderOrReload(r, a);
    case SaveTimer(_) => BehindTimer(r, a);
    case RetryTimer(_, _) => BehindTimer(r, a);
    case ClickRetry(_) => BehindTimer(r, a);
    case _ => BehindOther(r, a);
  }

  /** Being behind ends exactly when a response with the current version reaches the cache. */
  lemma StaysBehindIff(r: Row, a: Action)
    requires RowOk(r) && Behind(r) && Enabled(r, a)
    ensures Behind(Next(r, a)) <==> !Refreshes(r, a)
  {
    if !Refreshes(r, a) { BehindStep(r, a); }
  }

  /** Once behind, every later PATCH, new line and removal is rejected until the cached version is refreshed. */
  lemma {:induction false} OnceBehindAlwaysRejected(r: Row, acts: seq<Action>)
    requires RowOk(r) && Behind(r) && Valid(r, acts) && NeverRefreshed(r, acts)
    ensures AcceptedBases(r, acts) == [] && Behind(Run(r, acts))
    decreases |acts|
  {
    if acts != [] {
      BehindStep(r, acts[0]);
      NextKeeps(r, acts[0]);
      OnceBehindAlwaysRejected(Next(r, acts[0]), acts[1..]);
    }
  }

  /** Apart from the flight of editor `i`, nothing this tab works with has the server's current version. */
  predicate RestBehind(r: Row, i: nat) {
    && i < |r.editors|
    && r.cache.version < Version(r) && r.editors[i].seen.version < Version(r)
    && (forall x :: 0 <= x < |r.editors| && x != i ==> OlderThan(r.editors[x], Version(r)))
  }

  lemma FailedEditor(r: Row, i: nat, failure: Failure)
    requires i < |r.editors| && |r.editors[i].flights| == 1
    ensures var q := Put(r, i, Fail(At(r, i), 0, failure));
            && q.editors[i].seen == r.editors[i].seen
            && (r.editors[i].seen.version < Version(r) ==> OlderThan(q.editors[i], Version(r)))
  {
    var n := Version(r);
    if r.editors[i].seen.version < n {
      FinishStaysOlder(CloseFailed(At(r, i), r.editors[i].flights[0], failure), 0, n);
    }
  }

  lemma FailedRowBehindIff(r: Row, i: nat, failure: Failure)
    requires i < |r.editors| && |r.editors[i].flights| == 1
    ensures Behind(Put(r, i, Fail(At(r, i), 0, failure))) <==> RestBehind(r, i)
  {
    FailedEditor(r, i, failure);
    var q := Put(r, i, Fail(At(r, i), 0, failure));
    assert Version(q) == Version(r);
    assert forall x :: 0 <= x < |r.editors| && x != i ==> q.editors[x] == r.editors[x];
    if RestBehind(r, i) {
      assert Behind(q);
    }
    if Behind(q) {
      assert OlderThan(q.editors[i], Version(q));
      assert forall x :: 0 <= x < |r.editors| && x != i ==> OlderThan(q.editors[x], Version(q));
    }
  }

  lemma FailedFlight(r: Row, a: Action)
    requires RowOk(r) && Fails(r, a)
    ensures |r.editors[a.i].flights| == 1
    ensures exists failure :: Next(r, a) == Put(r, a.i, Fail(At(r, a.i), 0, failure))
  {
    assert EditorOk(r.history, r.writers, a.i, r.editors[a.i]);
    var failure := if a.Lose? then OtherFailure else r.editors[a.i].flights[a.j].wire.failure;
    assert Next(r, a) == Put(r, a.i, Fail(At(r, a.i), 0, failure));
  }

  /**
   Whatever made a request fail: it leaves the tab behind exactly if nothing else in the tab has the server's
   current version. Then every further request is rejected until the cache is refreshed.
   */
  lemma FailureLeavesBehind(r: Row, a: Action, acts: seq<Action>)
    requires Reachable(r) && Fails(r, a) && Valid(Next(r, a), acts) && NeverRefreshed(Next(r, a), acts)
    ensures Behind(Next(r, a)) <==> RestBehind(r, a.i)
    ensures RestBehind(r, a.i) ==> AcceptedBases(Next(r, a), acts) == []
  {
    ReachableOk(r);
    FailedFlight(r, a);
    var failure :| Next(r, a) == Put(r, a.i, Fail(At(r, a.i), 0, failure));
    FailedRowBehindIff(r, a.i, failure);
    NextKeeps(r, a);
    if RestBehind(r, a.i) { OnceBehindAlwaysRejected(Next(r, a), acts); }
  }

  /**
   A 409 has one of two causes: there is a newer version, or the request gives a work line a unit that another
   line of the entry has, or that was deleted. The latter can meet the server's current version.
   */
  lemma ConflictHasACause(q: Row, i: nat)
    requires Reachable(q) && HasFlight(q, i, 0) && q.editors[i].flights[0].wire == Refused(ConflictReply)
    ensures HasCause(q.history, q.editors[i].flights[0])
  {
    ReachableOk(q);
    assert EditorOk(q.history, q.writers, i, q.editors[i]);
  }
}
