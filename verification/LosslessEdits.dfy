/**
 Does the editor lose a typed value? Every value typed since the last reload is still in the draft, or it
 is the value this editor's latest acknowledged request for that field carried. That is exactly so as
 long as no acknowledgement clears a Cycle Days text that is not the text its payload was parsed from.
 */
module LosslessEdits {
  import opened Options
  import opened Sequences
  import opened Drafts
  import opened ServerModel
  import opened EditorProtocol
  import opened RowSystem
  import opened Invariants
  import opened VersionSafety
  import opened TypedLaw

  predicate KeptOrAcked(ed: Editor, k: Key)
    requires k in ed.typed
  {
    k in ed.draft || (k in ed.acked && Wire(k, ed.typed[k]) == Some(ed.acked[k]))
  }

  /** No value typed in this editor is lost. */
  predicate NoLoss(ed: Editor) {
    forall k :: k in ed.typed ==> KeptOrAcked(ed, k)
  }

  predicate NoLossRow(r: Row) {
    forall i :: 0 <= i < |r.editors| ==> NoLoss(r.editors[i])
  }

  /** Every text the acknowledgement of flight `f` takes out of the draft is what its payload says. */
  predicate ClearsFaithfully(draft: Draft, f: Flight)
    requires f.Flush? && f.next < |f.patches|
  {
    forall k :: k in f.clear && k in draft && draft[k] == f.clear[k] && k in f.patches[f.next].fields ==>
      Wire(k, f.clear[k]) == Some(f.patches[f.next].fields[k])
  }

  predicate IsPatchAck(r: Row, a: Action) {
    && a.Answer? && HasFlight(r, a.i, a.j)
    && r.editors[a.i].flights[a.j].Flush? && r.editors[a.i].flights[a.j].wire.Applied?
  }

  predicate Faithful(r: Row, a: Action) {
    IsPatchAck(r, a) ==> ClearsFaithfully(r.editors[a.i].draft, r.editors[a.i].flights[a.j])
  }

  // ---------------------------------------------------------------- one step

  lemma AckIsLosslessIff(before: Editor, after: Editor, f: Flight)
    requires f.Flush? && f.next < |f.patches| && AckedDraft(before, after, f)
    requires forall k :: k in before.draft ==> k in before.typed && before.typed[k] == before.draft[k]
    requires ClearOk(f.clear, f.patches[f.next]) && f.patches[f.next].fields.Keys <= before.draft.Keys
    requires NoLoss(before)
    ensures NoLoss(after) <==> ClearsFaithfully(before.draft, f)
  {
    var fields := f.patches[f.next].fields;
    forall k | k in before.typed
      ensures k !in fields ==> KeptOrAcked(after, k)
      ensures k in fields && before.draft[k] != f.clear[k] ==> KeptOrAcked(after, k)
      ensures k in fields && before.draft[k] == f.clear[k] ==>
                (KeptOrAcked(after, k) <==> Wire(k, f.clear[k]) == Some(fields[k]))
    {
      assert KeptOrAcked(before, k);
    }
    if NoLoss(after) {
      forall k | k in f.clear && k in before.draft && before.draft[k] == f.clear[k] && k in fields
        ensures Wire(k, f.clear[k]) == Some(fields[k])
      {
        assert KeptOrAcked(after, k);
      }
    }
  }

  lemma PutNoLoss(r: Row, i: nat, l: Local)
    requires NoLossRow(r) && i < |r.editors|
    ensures NoLossRow(Put(r, i, l)) <==> NoLoss(l.ed)
  {
    if NoLossRow(Put(r, i, l)) { assert NoLoss(Put(r, i, l).editors[i]); }
  }

  lemma SameDataNoLoss(a: Editor, b: Editor)
    requires NoLoss(a) && b.draft == a.draft && b.typed == a.typed && b.acked == a.acked
    ensures NoLoss(b)
  {
    forall k | k in b.typed ensures KeptOrAcked(b, k) { assert KeptOrAcked(a, k); }
  }

  lemma PatchAckStep(r: Row, i: nat, j: nat)
    requires RowOk(r) && NoLossRow(r) && Enabled(r, Answer(i, j)) && IsPatchAck(r, Answer(i, j))
    ensures NoLossRow(Next(r, Answer(i, j))) <==> Faithful(r, Answer(i, j))
  {
    var l := At(r, i);
    var f := l.ed.flights[j];
    var l1 := Succeed(l, j, f.wire.version);
    SucceedDraft(l, j, f.wire.version);
    AckIsLosslessIff(l.ed, l1.ed, f);
    PutNoLoss(r.(cache := Snapshot(f.wire.version, r.history[f.wire.version])), i, l1);
  }

  lemma OtherAnswerStep(r: Row, i: nat, j: nat)
    requires NoLossRow(r) && Enabled(r, Answer(i, j)) && !IsPatchAck(r, Answer(i, j))
    ensures NoLossRow(Next(r, Answer(i, j)))
  {
    var l := At(r, i);
    match l.ed.flights[j].wire
    case Applied(v) =>
      SameDataNoLoss(l.ed, Succeed(l, j, v).ed);
      PutNoLoss(r.(cache := Snapshot(v, r.history[v])), i, Succeed(l, j, v));
      assert NoLossRow(Next(r, Answer(i, j)));
    case Refused(failure) => FailStep(r, i, j, failure);
  }

  lemma FailStep(r: Row, i: nat, j: nat, failure: Failure)
    requires NoLossRow(r) && HasFlight(r, i, j)
    ensures NoLossRow(Put(r, i, Fail(At(r, i), j, failure)))
  {
    SameDataNoLoss(r.editors[i], Fail(At(r, i), j, failure).ed);
    PutNoLoss(r, i, Fail(At(r, i), j, failure));
  }

  lemma TimerStep(r: Row, a: Action)
    requires NoLossRow(r) && Enabled(r, a) && IsTimerAction(a)
    ensures NoLossRow(Next(r, a))
  {
    TimerActionCommits(r, a);
    var l := Commit(BeforeCommit(r, a));
    SameDataNoLoss(r.editors[a.i], l.ed);
    PutNoLoss(r, a.i, l);
  }

  lemma TypeStep(r: Row, i: nat, k: Key, v: Value)
    requires NoLossRow(r) && Enabled(r, Type(i, k, v))
    ensures NoLossRow(Next(r, Type(i, k, v)))
  {
    var ed, ed1 := r.editors[i], Edit(At(r, i), k, v).ed;
    forall x | x in ed1.typed ensures KeptOrAcked(ed1, x) {
      if x != k { assert KeptOrAcked(ed, x); }
    }
    PutNoLoss(r, i, Edit(At(r, i), k, v));
  }

  lemma ChangeLinesStep(r: Row, i: nat, op: Op)
    requires NoLossRow(r) && Enabled(r, ChangeLines(i, op))
    ensures NoLossRow(Next(r, ChangeLines(i, op)))
  {
    var ed, ed1 := r.editors[i], StartStructural(At(r, i), op).ed;
    forall x | x in ed1.typed ensures KeptOrAcked(ed1, x) {
      assert KeptOrAcked(ed, x);
    }
    PutNoLoss(r, i, StartStructural(At(r, i), op));
  }

  lemma QuietStep(r: Row, a: Action)
    requires NoLossRow(r) && Enabled(r, a)
    requires a.Mount? || a.Unmount? || a.RenderRow? || a.ClickReload? || a.Process? || a.ForeignWrite?
             || a.FetchRead? || a.FetchArrive?
    ensures NoLossRow(Next(r, a))
  {
    forall x | 0 <= x < |Next(r, a).editors| ensures NoLoss(Next(r, a).editors[x]) {
      if x < |r.editors| && !(a.ClickReload? && a.i == x) {
        SameDataNoLoss(r.editors[x], Next(r, a).editors[x]);
      }
    }
  }

  /** From a state in which nothing is lost, a step loses nothing if and only if it clears faithfully. */
  lemma StepIsLosslessIff(r: Row, a: Action)
    requires RowOk(r) && NoLossRow(r) && Enabled(r, a)
    ensures NoLossRow(Next(r, a)) <==> Faithful(r, a)
  {
    match a
    case Answer(i, j) => if IsPatchAck(r, a) { PatchAckStep(r, i, j); } else { OtherAnswerStep(r, i, j); }
    case Lose(i, j) => FailStep(r, i, j, OtherFailure);
    case Type(i, k, v) => TypeStep(r, i, k, v);
    case ChangeLines(i, op) => ChangeLinesStep(r, i, op);
    case SaveTimer(_) => TimerStep(r, a);
    case RetryTimer(_, _) => TimerStep(r, a);
    case ClickRetry(_) => TimerStep(r, a);
    case _ => QuietStep(r, a);
  }

  // ---------------------------------------------------------------- whole runs

  /** Nothing is lost in any state of the run. */
  predicate AlwaysLossless(r: Row, acts: seq<Action>)
    requires Valid(r, acts)
    decreases |acts|
  {
    NoLossRow(r) && (acts != [] ==> AlwaysLossless(Next(r, acts[0]), acts[1..]))
  }

  predicate AllFaithful(r: Row, acts: seq<Action>)
    requires Valid(r, acts)
    decreases |acts|
  {
    acts != [] ==> Faithful(r, acts[0]) && AllFaithful(Next(r, acts[0]), acts[1..])
  }

  /** No typed value is ever lost in a run exactly if each of its acknowledgements clears faithfully. */
  lemma {:induction false} LosslessIff(r: Row, acts: seq<Action>)
    requires RowOk(r) && NoLossRow(r) && Valid(r, acts)
    ensures AlwaysLossless(r, acts) <==> AllFaithful(r, acts)
    decreases |acts|
  {
    if acts != [] {
      var q := Next(r, acts[0]);
      NextKeeps(r, acts[0]);
      StepIsLosslessIff(r, acts[0]);
      if NoLossRow(q) { LosslessIff(q, acts[1..]); }
    }
  }

  lemma {:induction false} LosslessAt(r: Row, acts: seq<Action>, n: nat)
    requires Valid(r, acts) && AlwaysLossless(r, acts) && n <= |acts|
    ensures NoLossRow(StateAt(r, acts, n))
    decreases n
  {
    if n > 0 { LosslessAt(Next(r, acts[0]), acts[1..], n - 1); }
  }

  lemma {:induction false} SomewhereLost(r: Row, acts: seq<Action>) returns (n: nat)
    requires Valid(r, acts) && !AlwaysLossless(r, acts)
    ensures n <= |acts| && !NoLossRow(StateAt(r, acts, n))
    decreases |acts|
  {
    n := 0;
    if NoLossRow(r) {
      var m := SomewhereLost(Next(r, acts[0]), acts[1..]);
      n := m + 1;
    }
  }

  /** The value is in the draft of its field, or is what the latest acknowledged request for the field carried. */
  predicate Kept(ed: Editor, k: Key, v: Value) {
    (k in ed.draft && ed.draft[k] == v) || (k !in ed.draft && k in ed.acked && Wire(k, v) == Some(ed.acked[k]))
  }

  /** After `n` actions of the run the editors keep whatever was typed last. */
  ghost predicate KeepsLastTyped(r: Row, acts: seq<Action>, n: nat)
    requires Valid(r, acts) && n <= |acts|
  {
    var q := StateAt(r, acts, n);
    forall i: nat, k :: i < |q.editors| && LastTyped(acts, n, Started(r, acts), i, k).Some? ==>
      Kept(q.editors[i], k, LastTyped(acts, n, Started(r, acts), i, k).value)
  }

  lemma {:induction false} StateIsOk(r: Row, acts: seq<Action>, n: nat)
    requires RowOk(r) && Valid(r, acts) && n <= |acts|
    ensures RowOk(StateAt(r, acts, n))
  {
    if n > 0 {
      StateIsOk(r, acts, n - 1);
      StateStep(r, acts, n - 1);
      NextKeeps(StateAt(r, acts, n - 1), acts[n - 1]);
    }
  }

  lemma DraftIsTyped(q: Row, i: nat, k: Key)
    requires RowOk(q) && i < |q.editors| && k in q.editors[i].draft
    ensures k in q.editors[i].typed && q.editors[i].typed[k] == q.editors[i].draft[k]
  {
    assert EditorOk(q.history, q.writers, i, q.editors[i]);
  }

  lemma NoLossIsKeeping(r: Row, acts: seq<Action>, n: nat)
    requires Init(r) && Valid(r, acts) && n <= |acts|
    ensures NoLossRow(StateAt(r, acts, n)) <==> KeepsLastTyped(r, acts, n)
  {
    var q := StateAt(r, acts, n);
    InitOk(r);
    StateIsOk(r, acts, n);
    forall i: nat, k | i < |q.editors|
      ensures LastTyped(acts, n, Started(r, acts), i, k) == TypedOf(q, i, k)
      ensures var ed := q.editors[i]; k in ed.typed ==> (KeptOrAcked(ed, k) <==> Kept(ed, k, ed.typed[k]))
    {
      TypedAt(r, acts, n, i, k);
      if k in q.editors[i].draft { DraftIsTyped(q, i, k); }
    }
  }

  /**
   The same of what was typed, as the list of actions tells it: in every state of a run every editor still keeps the
   last value typed into each of its fields, exactly if each acknowledgement of the run clears faithfully.
   */
  lemma LastTypedIsKeptIff(r: Row, acts: seq<Action>)
    requires Init(r) && Valid(r, acts)
    ensures (forall n: nat :: n <= |acts| ==> KeepsLastTyped(r, acts, n)) <==> AllFaithful(r, acts)
  {
    InitIsLossless(r);
    LosslessIff(r, acts);
    if AlwaysLossless(r, acts) {
      forall n: nat | n <= |acts| ensures KeepsLastTyped(r, acts, n) {
        LosslessAt(r, acts, n);
        NoLossIsKeeping(r, acts, n);
      }
    } else {
      var n := SomewhereLost(r, acts);
      NoLossIsKeeping(r, acts, n);
    }
  }

  lemma PatchAckFacts(r: Row, a: Action)
    requires RowOk(r) && IsPatchAck(r, a)
    ensures var ed := r.editors[a.i];
            var f := ed.flights[a.j];
            WellFormed(f.patches[f.next]) && ClearOk(f.clear, f.patches[f.next])
  {
    assert EditorOk(r.history, r.writers, a.i, r.editors[a.i]);
  }

  /** Without Cycle Days in its payload, a request cannot clear anything but what it sent. */
  lemma OnlyCycleDaysIsAtRisk(q: Row, a: Action)
    requires Reachable(q) && Enabled(q, a)
    requires IsPatchAck(q, a) ==>
               var f := q.editors[a.i].flights[a.j];
               forall k :: k in f.patches[f.next].fields ==> !IsCycleDays(k)
    ensures Faithful(q, a)
  {
    ReachableOk(q);
    if IsPatchAck(q, a) { PatchAckFacts(q, a); }
  }

  // ---------------------------------------------------------------- a condition on typing

  /** The Cycle Days payloads not yet acknowledged are still what the text in the draft parses to. */
  ghost predicate PayloadCurrent(draft: Draft, f: Flight)
    requires f.Flush? && f.next < |f.patches|
  {
    && (forall j, k :: f.next < j < |f.patches| && k in f.patches[j].fields && IsCycleDays(k) && k in draft ==>
          Wire(k, draft[k]) == Some(f.patches[j].fields[k]))
    && (forall k :: k in f.clear && k in f.patches[f.next].fields && IsCycleDays(k) ==>
          Wire(k, f.clear[k]) == Some(f.patches[f.next].fields[k]))
  }

  ghost predicate EditorCurrent(ed: Editor) {
    forall j :: 0 <= j < |ed.flights| && ed.flights[j].Flush? ==>
      ed.flights[j].next < |ed.flights[j].patches| && PayloadCurrent(ed.draft, ed.flights[j])
  }

  ghost predicate RowCurrent(r: Row) {
    forall i :: 0 <= i < |r.editors| ==> EditorCurrent(r.editors[i])
  }

  /** The key is in a request of a running flush that has not been sent yet. */
  predicate Waiting(ed: Editor, k: Key) {
    exists x, j :: 0 <= x < |ed.flights| && ed.flights[x].Flush?
      && ed.flights[x].next < j < |ed.flights[x].patches| && k in ed.flights[x].patches[j].fields
  }

  /** Cycle Days is not typed while a request with its earlier text waits for its turn. */
  predicate Undisturbed(r: Row, a: Action) {
    a.Type? && a.i < |r.editors| && IsCycleDays(a.key) ==> !Waiting(r.editors[a.i], a.key)
  }

  lemma StartFlushCurrent(l: Local, ps: seq<Patch>)
    requires ps != [] && l.ed.flights == [] && Distinct(l.ed.seen.content.lines)
    requires ps == Patches(l.ed.draft, l.ed.seen.content.lines)
    ensures EditorCurrent(StartFlush(l, ps).ed)
  {
    PatchesShape(l.ed.draft, l.ed.seen.content.lines);
    var f := StartFlush(l, ps).ed.flights[0];
    forall j, k | 0 <= j < |ps| && k in ps[j].fields ensures Wire(k, l.ed.draft[k]) == Some(ps[j].fields[k]) {
      assert ps[j].fields == FieldsFor(l.ed.draft, ps[j].target);
    }
    assert PayloadCurrent(l.ed.draft, f);
  }

  lemma CommitCurrent(l: Local)
    requires EditorCurrent(l.ed) && Distinct(l.ed.seen.content.lines) && (l.ed.flights != [] ==> l.ed.saving)
    ensures EditorCurrent(Commit(l).ed)
  {
    var ps := Patches(l.ed.draft, l.ed.seen.content.lines);
    if l.ed.seenStatus != Conflict && ps != [] && !l.ed.saving {
      StartFlushCurrent(l, ps);
      assert Commit(l) == StartFlush(l, ps);
    }
  }

  lemma FinishCurrent(l: Local)
    requires |l.ed.flights| == 1 && Distinct(l.ed.seen.content.lines)
    ensures EditorCurrent(Finish(l, 0).ed)
  {
    var l1 := l.(ed := l.ed.(saving := false, pending := false, flights := Without(l.ed.flights, 0)));
    assert Without(l.ed.flights, 0) == [];
    CommitCurrent(l1);
    assert Finish(l, 0) == if l.ed.pending then Commit(l1) else l1;
  }

  lemma AdvanceCurrent(l: Local, f: Flight)
    requires l.ed.flights == [f] && f.Flush? && f.wire.Applied? && f.next + 1 < |f.patches|
    requires PayloadOk(l.ed.draft, f) && PayloadCurrent(l.ed.draft, f)
    ensures EditorCurrent(Succeed(l, 0, f.wire.version).ed)
  {
    var draft := Cleared(l.ed.draft, f.clear);
    var f1 := Advanced(f, f.wire.version, draft);
    forall k | k in f1.clear && k in f1.patches[f1.next].fields && IsCycleDays(k)
      ensures Wire(k, f1.clear[k]) == Some(f1.patches[f1.next].fields[k])
    {
      assert k in draft && draft[k] == l.ed.draft[k];
    }
    assert PayloadCurrent(draft, f1);
  }

  lemma SucceedCurrent(l: Local)
    requires |l.ed.flights| == 1 && Distinct(l.ed.seen.content.lines) && EditorCurrent(l.ed)
    requires l.ed.flights[0].wire.Applied?
    requires l.ed.flights[0].Flush? ==> PayloadOk(l.ed.draft, l.ed.flights[0])
    ensures EditorCurrent(Succeed(l, 0, l.ed.flights[0].wire.version).ed)
  {
    var f := l.ed.flights[0];
    if f.Structural? { FinishCurrent(CloseStructural(l)); }
    else if f.next + 1 < |f.patches| { AdvanceCurrent(l, f); }
    else { FinishCurrent(CloseFlush(Acknowledge(l, f))); }
  }

  lemma TypeCurrent(l: Local, k: Key, v: Value)
    requires EditorCurrent(l.ed) && (IsCycleDays(k) ==> !Waiting(l.ed, k))
    ensures EditorCurrent(Edit(l, k, v).ed)
  {
    var ed1 := Edit(l, k, v).ed;
    forall x | 0 <= x < |ed1.flights| && ed1.flights[x].Flush?
      ensures ed1.flights[x].next < |ed1.flights[x].patches| && PayloadCurrent(ed1.draft, ed1.flights[x])
    {
      assert PayloadCurrent(l.ed.draft, l.ed.flights[x]);
    }
  }

  lemma PutCurrent(r: Row, i: nat, l: Local)
    requires RowCurrent(r) && i < |r.editors| && EditorCurrent(l.ed)
    ensures RowCurrent(Put(r, i, l))
  {
  }

  ghost predicate AnswerFacts(ed: Editor) {
    && |ed.flights| == 1 && Distinct(ed.seen.content.lines)
    && (ed.flights[0].Flush? ==> PayloadOk(ed.draft, ed.flights[0]))
  }

  lemma AcceptedCurrent(r: Row, i: nat)
    requires RowCurrent(r) && Enabled(r, Answer(i, 0)) && r.editors[i].flights[0].wire.Applied?
    requires AnswerFacts(r.editors[i])
    ensures RowCurrent(Next(r, Answer(i, 0)))
  {
    var l := At(r, i);
    var v := l.ed.flights[0].wire.version;
    SucceedCurrent(l);
    PutCurrent(r.(cache := Snapshot(v, r.history[v])), i, Succeed(l, 0, v));
  }

  lemma FailedCurrent(r: Row, i: nat, j: nat, failure: Failure)
    requires RowOk(r) && RowCurrent(r) && HasFlight(r, i, j)
    ensures RowCurrent(Put(r, i, Fail(At(r, i), j, failure)))
  {
    assert EditorOk(r.history, r.writers, i, r.editors[i]);
    FinishCurrent(CloseFailed(At(r, i), r.editors[i].flights[j], failure));
    PutCurrent(r, i, Fail(At(r, i), j, failure));
  }

  lemma AnswerCurrent(r: Row, i: nat, j: nat)
    requires RowOk(r) && RowCurrent(r) && Enabled(r, Answer(i, j))
    ensures RowCurrent(Next(r, Answer(i, j)))
  {
    assert EditorOk(r.history, r.writers, i, r.editors[i]);
    match r.editors[i].flights[j].wire
    case Applied(_) => AcceptedCurrent(r, i);
    case Refused(failure) => FailedCurrent(r, i, j, failure);
  }

  lemma TimerCurrent(r: Row, a: Action)
    requires RowOk(r) && RowCurrent(r) && Enabled(r, a) && IsTimerAction(a)
    ensures RowCurrent(Next(r, a))
  {
    TimerActionCommits(r, a);
    assert EditorOk(r.history, r.writers, a.i, r.editors[a.i]) && EditorCurrent(r.editors[a.i]);
    CommitCurrent(BeforeCommit(r, a));
    PutCurrent(r, a.i, Commit(BeforeCommit(r, a)));
  }

  lemma ChangeLinesCurrent(r: Row, i: nat, op: Op)
    requires RowOk(r) && RowCurrent(r) && Enabled(r, ChangeLines(i, op))
    ensures RowCurrent(Next(r, ChangeLines(i, op)))
  {
    assert EditorOk(r.history, r.writers, i, r.editors[i]) && EditorCurrent(r.editors[i]);
    PutCurrent(r, i, StartStructural(At(r, i), op));
  }

  lemma ProcessCurrent(r: Row, i: nat, j: nat, verdict: Verdict)
    requires RowCurrent(r) && Enabled(r, Process(i, j, verdict))
    ensures RowCurrent(Next(r, Process(i, j, verdict)))
  {
    var ed := r.editors[i];
    assert EditorCurrent(ed);
    var w := if verdict.Apply? then Applied(|r.history|) else Refused(verdict.failure);
    var ed1 := SetWire(ed, j, w);
    forall x | 0 <= x < |ed1.flights| && ed1.flights[x].Flush?
      ensures ed1.flights[x].next < |ed1.flights[x].patches| && PayloadCurrent(ed1.draft, ed1.flights[x])
    {
      assert PayloadCurrent(ed.draft, ed.flights[x]);
    }
    assert Next(r, Process(i, j, verdict)).editors == r.editors[i := ed1];
  }

  lemma OtherCurrent(r: Row, a: Action)
    requires RowCurrent(r) && Enabled(r, a)
    requires a.Mount? || a.Unmount? || a.RenderRow? || a.ForeignWrite? || a.FetchRead? || a.FetchArrive?
    ensures RowCurrent(Next(r, a))
  {
    forall x | 0 <= x < |Next(r, a).editors| ensures EditorCurrent(Next(r, a).editors[x]) {
      if x < |r.editors| {
        assert EditorCurrent(r.editors[x]);
        assert Next(r, a).editors[x].flights == r.editors[x].flights
               && Next(r, a).editors[x].draft == r.editors[x].draft;
      }
    }
  }

  lemma ReloadCurrent(r: Row, i: nat)
    requires RowOk(r) && RowCurrent(r) && Enabled(r, ClickReload(i))
    ensures RowCurrent(Next(r, ClickReload(i)))
  {
    assert EditorOk(r.history, r.writers, i, r.editors[i]);
    PutCurrent(r, i, Reload(At(r, i)));
  }

  lemma StepCurrent(r: Row, a: Action)
    requires RowOk(r) && RowCurrent(r) && Enabled(r, a) && Undisturbed(r, a)
    ensures RowCurrent(Next(r, a))
  {
    match a
    case Answer(i, j) => AnswerCurrent(r, i, j);
    case Lose(i, j) => FailedCurrent(r, i, j, OtherFailure);
    case Type(i, k, v) => TypeCurrent(At(r, i), k, v); PutCurrent(r, i, Edit(At(r, i), k, v));
    case ChangeLines(i, op) => ChangeLinesCurrent(r, i, op);
    case ClickReload(i) => ReloadCurrent(r, i);
    case Process(i, j, verdict) => ProcessCurrent(r, i, j, verdict);
    case SaveTimer(_) => TimerCurrent(r, a);
    case RetryTimer(_, _) => TimerCurrent(r, a);
    case ClickRetry(_) => TimerCurrent(r, a);
    case _ => OtherCurrent(r, a);
  }

  lemma CurrentIsFaithful(r: Row, a: Action)
    requires RowOk(r) && RowCurrent(r)
    ensures Faithful(r, a)
  {
    if IsPatchAck(r, a) {
      var ed := r.editors[a.i];
      var f := ed.flights[a.j];
      PatchAckFacts(r, a);
      assert EditorCurrent(ed);
      forall k | k in f.clear && k in ed.draft && ed.draft[k] == f.clear[k] && k in f.patches[f.next].fields
        ensures Wire(k, f.clear[k]) == Some(f.patches[f.next].fields[k])
      {
        if !IsCycleDays(k) { assert f.clear[k] == f.patches[f.next].fields[k]; }
      }
    }
  }

  predicate AllUndisturbed(r: Row, acts: seq<Action>)
    requires Valid(r, acts)
    decreases |acts|
  {
    acts != [] ==> Undisturbed(r, acts[0]) && AllUndisturbed(Next(r, acts[0]), acts[1..])
  }

  /** If Cycle Days is never typed while its earlier text waits to be sent, no typed value is ever lost. */
  lemma {:induction false} LosslessIfUndisturbed(r: Row, acts: seq<Action>)
    requires RowOk(r) && RowCurrent(r) && NoLossRow(r) && Valid(r, acts) && AllUndisturbed(r, acts)
    ensures AlwaysLossless(r, acts)
    decreases |acts|
  {
    if acts != [] {
      CurrentIsFaithful(r, acts[0]);
      StepIsLosslessIff(r, acts[0]);
      NextKeeps(r, acts[0]);
      StepCurrent(r, acts[0]);
      LosslessIfUndisturbed(Next(r, acts[0]), acts[1..]);
    }
  }

  lemma InitIsLossless(r: Row)
    requires Init(r)
    ensures RowOk(r) && RowCurrent(r) && NoLossRow(r)
  {
  }
}
