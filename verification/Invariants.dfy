/**
 What every step of the autosave protocol keeps, for any number of editors of the same entry, any
 interleaving with other clients, lost responses and a render that lags behind.
 */
module Invariants {
  import opened Sequences
  import opened Drafts
  import opened ServerModel
  import opened EditorProtocol
  import opened RowSystem

  /** A 409 has one of two causes: a newer version, or the unit the request gives a work line. */
  predicate HasCause(history: seq<Content>, f: Flight)
    requires f.Flush? ==> f.next < |f.patches|
  {
    f.version < |history| - 1 || NamesUnit(OpOf(f))
  }

  /** Versions `base + 1 .. version` are exactly the writes of the first `next` requests, nobody else's. */
  ghost predicate ChainOk(history: seq<Content>, writers: seq<Writer>, i: nat, f: Flight)
    requires f.Flush? && |writers| == |history|
  {
    && f.next < |f.patches| && f.version == f.base + f.next && f.version < |history|
    && history[f.version] == ApplyAll(history[f.base], f.patches[..f.next])
    && (forall v :: f.base < v <= f.version ==> writers[v] == ByEditor(i))
    && (f.wire.Applied? ==>
          && f.wire.version == f.version + 1 < |history|
          && history[f.wire.version] == Overlay(history[f.version], f.patches[f.next].fields)
          && writers[f.wire.version] == ByEditor(i))
    && (f.wire == Refused(ConflictReply) ==> HasCause(history, f))
  }

  /** What the draft is compared with: the payload itself, except for the text of Cycle Days. */
  ghost predicate ClearOk(clear: map<Key, Value>, p: Patch) {
    clear.Keys == p.fields.Keys && forall k :: k in clear && !IsCycleDays(k) ==> clear[k] == p.fields[k]
  }

  /** The requests have distinct targets, and the draft still holds every key not yet acknowledged. */
  ghost predicate PayloadOk(draft: Draft, f: Flight)
    requires f.Flush?
  {
    && f.next < |f.patches|
    && DistinctTargets(f.patches) && AllWellFormed(f.patches) && f.sent == Union(f.patches)
    && (forall j :: f.next <= j < |f.patches| ==> f.patches[j].fields.Keys <= draft.Keys)
    && ClearOk(f.clear, f.patches[f.next])
  }

  ghost predicate StructuralOk(history: seq<Content>, writers: seq<Writer>, i: nat, f: Flight)
    requires f.Structural? && |writers| == |history|
  {
    && f.version < |history| && !f.op.PatchOp?
    && (f.wire.Applied? ==>
          && f.wire.version == f.version + 1 < |history| && writers[f.wire.version] == ByEditor(i)
          && exists newId :: history[f.wire.version] == Effect(history[f.version], f.op, newId))
    && (f.wire == Refused(ConflictReply) ==> HasCause(history, f))
  }

  ghost predicate FlightOk(history: seq<Content>, writers: seq<Writer>, i: nat, draft: Draft, f: Flight)
    requires |writers| == |history|
  {
    if f.Flush? then ChainOk(history, writers, i, f) && PayloadOk(draft, f)
    else StructuralOk(history, writers, i, f)
  }

  /** The part that does not speak of flights. */
  ghost predicate BaseOk(history: seq<Content>, ed: Editor) {
    && IsSnapshot(history, ed.seen) && Distinct(ed.seen.content.lines)
    && (forall k :: k in ed.draft ==> k in ed.typed && ed.typed[k] == ed.draft[k])
    && (ed.seenStatus == Conflict ==> ed.status == Conflict)
  }

  ghost predicate EditorOk(history: seq<Content>, writers: seq<Writer>, i: nat, ed: Editor)
    requires |writers| == |history|
  {
    && BaseOk(history, ed)
    && |ed.flights| <= 1 && ed.saving == (|ed.flights| == 1)
    && (ed.pending ==> ed.flights != [])
    && (ed.status == Conflict ==> ed.flights == [])
    && (ed.flights != [] ==> FlightOk(history, writers, i, ed.draft, ed.flights[0]))
  }

  ghost predicate ServerOk(r: Row) {
    && r.history != [] && |r.writers| == |r.history|
    && (forall v :: 0 <= v < |r.history| ==> Distinct(r.history[v].lines))
  }

  ghost predicate RowOk(r: Row) {
    && ServerOk(r)
    && IsSnapshot(r.history, r.cache)
    && (forall j :: 0 <= j < |r.fetches| ==> IsSnapshot(r.history, r.fetches[j]))
    && (forall i :: 0 <= i < |r.editors| ==> EditorOk(r.history, r.writers, i, r.editors[i]))
    && (forall i :: 0 <= i < |r.editors| - 1 ==> !r.editors[i].mounted)
  }

  // ---------------------------------------------------------------- one editor

  lemma ClearForOk(p: Patch, draft: Draft)
    requires p.fields.Keys <= draft.Keys
    ensures ClearOk(ClearFor(p, draft), p)
  {
  }

  lemma ClearedKeepsOtherTargets(draft: Draft, clear: map<Key, Value>, p: Patch, q: Patch)
    requires ClearOk(clear, p) && WellFormed(p) && WellFormed(q) && p.target != q.target
    requires q.fields.Keys <= draft.Keys
    ensures q.fields.Keys <= Cleared(draft, clear).Keys
  {
  }

  lemma StartFlushKeeps(history: seq<Content>, writers: seq<Writer>, i: nat, l: Local, ps: seq<Patch>)
    requires |writers| == |history| && BaseOk(history, l.ed)
    requires l.ed.flights == [] && !l.ed.pending && l.ed.seenStatus != Conflict
    requires ps == Patches(l.ed.draft, l.ed.seen.content.lines) && ps != []
    ensures EditorOk(history, writers, i, StartFlush(l, ps).ed)
  {
    var draft := l.ed.draft;
    PatchesShape(draft, l.ed.seen.content.lines);
    var f := StartFlush(l, ps).ed.flights[0];
    assert f.patches[..0] == [];
    forall j | 0 <= j < |ps| ensures ps[j].fields.Keys <= draft.Keys {
      assert ps[j].fields == FieldsFor(draft, ps[j].target);
    }
    ClearForOk(ps[0], draft);
  }

  lemma CommitKeeps(history: seq<Content>, writers: seq<Writer>, i: nat, l: Local)
    requires |writers| == |history| && EditorOk(history, writers, i, l.ed)
    ensures EditorOk(history, writers, i, Commit(l).ed)
  {
    var ps := Patches(l.ed.draft, l.ed.seen.content.lines);
    if l.ed.seenStatus != Conflict && ps != [] && !l.ed.saving {
      StartFlushKeeps(history, writers, i, l, ps);
      assert Commit(l) == StartFlush(l, ps);
    }
  }

  lemma FinishKeeps(history: seq<Content>, writers: seq<Writer>, i: nat, l: Local)
    requires |writers| == |history| && BaseOk(history, l.ed) && |l.ed.flights| == 1
    ensures EditorOk(history, writers, i, Finish(l, 0).ed)
  {
    var l1 := l.(ed := l.ed.(saving := false, pending := false, flights := Without(l.ed.flights, 0)));
    assert Without(l.ed.flights, 0) == [];
    CommitKeeps(history, writers, i, l1);
    assert Finish(l, 0) == if l.ed.pending then Commit(l1) else l1;
  }

  lemma EditKeeps(history: seq<Content>, writers: seq<Writer>, i: nat, l: Local, k: Key, v: Value)
    requires |writers| == |history| && EditorOk(history, writers, i, l.ed)
    ensures EditorOk(history, writers, i, Edit(l, k, v).ed)
  {
  }

  lemma ReloadKeeps(history: seq<Content>, writers: seq<Writer>, i: nat, l: Local)
    requires |writers| == |history| && EditorOk(history, writers, i, l.ed) && l.ed.seenStatus == Conflict
    ensures EditorOk(history, writers, i, Reload(l).ed)
  {
  }

  lemma StructuralKeeps(history: seq<Content>, writers: seq<Writer>, i: nat, l: Local, op: Op)
    requires |writers| == |history| && EditorOk(history, writers, i, l.ed) && !op.PatchOp?
    ensures EditorOk(history, writers, i, StartStructural(l, op).ed)
  {
  }

  lemma ChainAdvances(history: seq<Content>, writers: seq<Writer>, i: nat, f: Flight, draft: Draft)
    requires |writers| == |history| && f.Flush? && ChainOk(history, writers, i, f)
    requires f.wire.Applied? && f.next + 1 < |f.patches|
    ensures ChainOk(history, writers, i, Advanced(f, f.wire.version, draft))
  {
    var done := f.patches[..f.next + 1];
    assert done[..|done| - 1] == f.patches[..f.next] && done[|done| - 1] == f.patches[f.next];
    assert ApplyAll(history[f.base], done) == Overlay(history[f.version], f.patches[f.next].fields);
  }

  lemma PayloadAdvances(f: Flight, draft: Draft)
    requires f.Flush? && PayloadOk(draft, f) && f.wire.Applied? && f.next + 1 < |f.patches|
    ensures PayloadOk(Cleared(draft, f.clear), Advanced(f, f.wire.version, Cleared(draft, f.clear)))
  {
    forall j | f.next + 1 <= j < |f.patches| ensures f.patches[j].fields.Keys <= Cleared(draft, f.clear).Keys {
      ClearedKeepsOtherTargets(draft, f.clear, f.patches[f.next], f.patches[j]);
    }
    ClearForOk(f.patches[f.next + 1], Cleared(draft, f.clear));
  }

  lemma AcknowledgeBase(history: seq<Content>, l: Local, f: Flight)
    requires BaseOk(history, l.ed) && f.Flush? && f.next < |f.patches|
    ensures BaseOk(history, Acknowledge(l, f).ed)
  {
  }

  lemma AdvanceKeeps(history: seq<Content>, writers: seq<Writer>, i: nat, l: Local, f: Flight)
    requires |writers| == |history| && EditorOk(history, writers, i, l.ed) && l.ed.flights == [f]
    requires f.Flush? && f.wire.Applied? && f.next + 1 < |f.patches|
    ensures EditorOk(history, writers, i, Succeed(l, 0, f.wire.version).ed)
  {
    var l1 := Acknowledge(l, f);
    ChainAdvances(history, writers, i, f, l1.ed.draft);
    PayloadAdvances(f, l.ed.draft);
    AcknowledgeBase(history, l, f);
  }

  lemma CloseFlushKeeps(history: seq<Content>, writers: seq<Writer>, i: nat, l: Local, f: Flight)
    requires |writers| == |history| && EditorOk(history, writers, i, l.ed) && l.ed.flights == [f]
    requires f.Flush? && f.next + 1 == |f.patches|
    ensures EditorOk(history, writers, i, Finish(CloseFlush(Acknowledge(l, f)), 0).ed)
  {
    AcknowledgeBase(history, l, f);
    var l1 := CloseFlush(Acknowledge(l, f));
    assert BaseOk(history, l1.ed);
    FinishKeeps(history, writers, i, l1);
  }

  lemma CloseStructuralKeeps(history: seq<Content>, writers: seq<Writer>, i: nat, l: Local)
    requires |writers| == |history| && EditorOk(history, writers, i, l.ed) && l.ed.flights != []
    ensures EditorOk(history, writers, i, Finish(CloseStructural(l), 0).ed)
  {
    FinishKeeps(history, writers, i, CloseStructural(l));
  }

  lemma SucceedKeeps(history: seq<Content>, writers: seq<Writer>, i: nat, l: Local)
    requires |writers| == |history| && EditorOk(history, writers, i, l.ed)
    requires l.ed.flights != [] && l.ed.flights[0].wire.Applied?
    ensures EditorOk(history, writers, i, Succeed(l, 0, l.ed.flights[0].wire.version).ed)
  {
    var f := l.ed.flights[0];
    if f.Structural? {
      CloseStructuralKeeps(history, writers, i, l);
    } else if f.next + 1 < |f.patches| {
      AdvanceKeeps(history, writers, i, l, f);
    } else {
      CloseFlushKeeps(history, writers, i, l, f);
    }
  }

  lemma CloseFailedBase(history: seq<Content>, l: Local, f: Flight, failure: Failure)
    requires BaseOk(history, l.ed) && l.ed.seenStatus != Conflict
    ensures BaseOk(history, CloseFailed(l, f, failure).ed)
  {
  }

  lemma FailKeeps(history: seq<Content>, writers: seq<Writer>, i: nat, l: Local, failure: Failure)
    requires |writers| == |history| && EditorOk(history, writers, i, l.ed) && l.ed.flights != []
    ensures EditorOk(history, writers, i, Fail(l, 0, failure).ed)
  {
    CloseFailedBase(history, l, l.ed.flights[0], failure);
    FinishKeeps(history, writers, i, CloseFailed(l, l.ed.flights[0], failure));
  }

  // ---------------------------------------------------------------- the whole row

  lemma GrowKeeps(r: Row, c: Content, w: Writer, i: nat, ed: Editor)
    requires ServerOk(r) && EditorOk(r.history, r.writers, i, ed)
    ensures EditorOk(r.history + [c], r.writers + [w], i, ed)
  {
    if ed.flights != [] && ed.flights[0].Structural? && ed.flights[0].wire.Applied? {
      var f := ed.flights[0];
      var newId :| r.history[f.wire.version] == Effect(r.history[f.version], f.op, newId);
      assert (r.history + [c])[f.wire.version] == Effect((r.history + [c])[f.version], f.op, newId);
    }
  }

  lemma ForeignWriteKeeps(r: Row, c: Content, w: Writer)
    requires RowOk(r) && Distinct(c.lines)
    ensures RowOk(r.(history := r.history + [c], writers := r.writers + [w]))
  {
    forall i | 0 <= i < |r.editors|
      ensures EditorOk(r.history + [c], r.writers + [w], i, r.editors[i])
    {
      GrowKeeps(r, c, w, i, r.editors[i]);
    }
  }

  lemma PutKeeps(r: Row, i: nat, l: Local)
    requires RowOk(r) && i < |r.editors| && EditorOk(r.history, r.writers, i, l.ed)
    requires l.ed.mounted ==> r.editors[i].mounted
    ensures RowOk(Put(r, i, l))
  {
  }

  lemma RefuseKeeps(r: Row, i: nat, failure: Failure)
    requires RowOk(r) && Enabled(r, Process(i, 0, Refuse(failure)))
    ensures RowOk(Next(r, Process(i, 0, Refuse(failure))))
  {
    var ed := SetWire(r.editors[i], 0, Refused(failure));
    assert EditorOk(r.history, r.writers, i, ed);
    PutKeeps(r, i, Local(ed, r.record));
  }

  /** The server accepts request f of editor i: the history grows by exactly what the request says. */
  lemma AppliedFlightOk(history: seq<Content>, writers: seq<Writer>, i: nat, draft: Draft, f: Flight, newId: LineId)
    requires history != [] && |writers| == |history| && FlightOk(history, writers, i, draft, f)
    requires f.version == |history| - 1
    ensures var c := Effect(history[f.version], OpOf(f), newId);
            FlightOk(history + [c], writers + [ByEditor(i)], i, draft, f.(wire := Applied(|history|)))
  {
    var c := Effect(history[f.version], OpOf(f), newId);
    assert (history + [c])[|history|] == Effect((history + [c])[f.version], OpOf(f), newId);
  }

  lemma ApplyKeeps(r: Row, i: nat, newId: LineId)
    requires RowOk(r) && Enabled(r, Process(i, 0, Apply(newId)))
    ensures RowOk(Next(r, Process(i, 0, Apply(newId))))
  {
    var ed := r.editors[i];
    var f := ed.flights[0];
    var c := Effect(r.history[Version(r)], OpOf(f), newId);
    EffectKeepsDistinct(r.history[Version(r)], OpOf(f), newId);
    ForeignWriteKeeps(r, c, ByEditor(i));
    var grown := r.(history := r.history + [c], writers := r.writers + [ByEditor(i)]);
    AppliedFlightOk(r.history, r.writers, i, ed.draft, f, newId);
    var ed1 := SetWire(ed, 0, Applied(|r.history|));
    assert EditorOk(grown.history, grown.writers, i, ed1);
    PutKeeps(grown, i, Local(ed1, r.record));
  }

  lemma ProcessKeeps(r: Row, i: nat, j: nat, verdict: Verdict)
    requires RowOk(r) && Enabled(r, Process(i, j, verdict))
    ensures RowOk(Next(r, Process(i, j, verdict)))
  {
    match verdict
    case Refuse(failure) => RefuseKeeps(r, i, failure);
    case Apply(newId) => ApplyKeeps(r, i, newId);
  }

  lemma AnswerKeeps(r: Row, i: nat, j: nat)
    requires RowOk(r) && Enabled(r, Answer(i, j))
    ensures RowOk(Next(r, Answer(i, j)))
  {
    var l := At(r, i);
    match r.editors[i].flights[j].wire
    case Applied(v) =>
      SucceedKeeps(r.history, r.writers, i, l);
      PutKeeps(r.(cache := Snapshot(v, r.history[v])), i, Succeed(l, j, v));
    case Refused(failure) =>
      FailKeeps(r.history, r.writers, i, l, failure);
      PutKeeps(r, i, Fail(l, j, failure));
  }

  lemma LoseKeeps(r: Row, i: nat, j: nat)
    requires RowOk(r) && Enabled(r, Lose(i, j))
    ensures RowOk(Next(r, Lose(i, j)))
  {
    FailKeeps(r.history, r.writers, i, At(r, i), OtherFailure);
    PutKeeps(r, i, Fail(At(r, i), j, OtherFailure));
  }

  predicate IsTimerAction(a: Action) {
    a.SaveTimer? || a.RetryTimer? || a.ClickRetry?
  }

  /** The three actions that only enter `commit`: the editor that does so, before the call. */
  function BeforeCommit(r: Row, a: Action): Local
    requires IsTimerAction(a) && Enabled(r, a)
  {
    var ed := r.editors[a.i];
    match a
    case SaveTimer(_) => Local(ed.(saveTimer := false), r.record)
    case RetryTimer(_, stray) =>
      Local(if stray then ed.(strayTimers := ed.strayTimers - 1) else ed.(retryTimer := false), r.record)
    case ClickRetry(_) => Local(ed.(retryTimer := false, retryCount := 0), r.record)
  }

  lemma TimerActionCommits(r: Row, a: Action)
    requires IsTimerAction(a) && Enabled(r, a)
    ensures Next(r, a) == Put(r, a.i, Commit(BeforeCommit(r, a)))
  {
  }

  lemma TimerActionKeeps(r: Row, a: Action)
    requires RowOk(r) && Enabled(r, a) && IsTimerAction(a)
    ensures RowOk(Next(r, a))
  {
    var l := BeforeCommit(r, a);
    CommitKeeps(r.history, r.writers, a.i, l);
    PutKeeps(r, a.i, Commit(l));
    TimerActionCommits(r, a);
  }

  lemma UserActionKeeps(r: Row, a: Action)
    requires RowOk(r) && Enabled(r, a) && (a.RenderRow? || a.Type? || a.ClickReload? || a.ChangeLines?)
    ensures RowOk(Next(r, a))
  {
    var h, w := r.history, r.writers;
    match a
    case RenderRow(i) => PutKeeps(r, i, Render(At(r, i), r.cache));
    case Type(i, k, v) => EditKeeps(h, w, i, At(r, i), k, v); PutKeeps(r, i, Edit(At(r, i), k, v));
    case ClickReload(i) => ReloadKeeps(h, w, i, At(r, i)); PutKeeps(r, i, Reload(At(r, i)));
    case ChangeLines(i, op) => StructuralKeeps(h, w, i, At(r, i), op); PutKeeps(r, i, StartStructural(At(r, i), op));
  }

  /** Every action keeps the invariant. */
  lemma NextKeeps(r: Row, a: Action)
    requires RowOk(r) && Enabled(r, a)
    ensures RowOk(Next(r, a))
  {
    match a
    case Process(i, j, verdict) => ProcessKeeps(r, i, j, verdict);
    case Answer(i, j) => AnswerKeeps(r, i, j);
    case Lose(i, j) => LoseKeeps(r, i, j);
    case ForeignWrite(c) => ForeignWriteKeeps(r, c, Foreign);
    case Unmount(i) => PutKeeps(r, i, Local(r.editors[i].(mounted := false), r.record));
    case Mount => case FetchRead => case FetchArrive(_) =>
    case SaveTimer(_) => TimerActionKeeps(r, a);
    case RetryTimer(_, _) => TimerActionKeeps(r, a);
    case ClickRetry(_) => TimerActionKeeps(r, a);
    case RenderRow(_) => UserActionKeeps(r, a);
    case Type(_, _, _) => UserActionKeeps(r, a);
    case ClickReload(_) => UserActionKeeps(r, a);
    case ChangeLines(_, _) => UserActionKeeps(r, a);
  }

  /** The invariant holds in every state of every run. */
  lemma {:induction false} RunKeeps(r: Row, acts: seq<Action>)
    requires RowOk(r) && Valid(r, acts)
    ensures RowOk(Run(r, acts))
    decreases |acts|
  {
    if acts != [] {
      NextKeeps(r, acts[0]);
      RunKeeps(Next(r, acts[0]), acts[1..]);
    }
  }

  lemma InitOk(r: Row)
    requires Init(r)
    ensures RowOk(r)
  {
  }

  lemma ReachableOk(q: Row)
    requires Reachable(q)
    ensures RowOk(q)
  {
    var r, acts :| Init(r) && Valid(r, acts) && Run(r, acts) == q;
    InitOk(r);
    RunKeeps(r, acts);
  }
}
