/**
 From the keystroke to the server: what an editor counts as acknowledged is, on the server, this editor's
 latest write of that field. So a typed value is in the draft or is that write, and once the editor has
 settled the server holds it unless somebody else changed the field since.
 */
module EndToEnd {
  import opened Options
  import opened Sequences
  import opened Drafts
  import opened ServerModel
  import opened EditorProtocol
  import opened RowSystem
  import opened Invariants
  import opened VersionSafety
  import opened TypedLaw
  import opened LosslessEdits
  import opened WakeUp
  import opened Quiescence

  /** The version holds the value, as the server stores it, and editor `i` wrote the version. */
  predicate StoredAt(c: Content, w: Writer, i: nat, k: Key, v: Value) {
    w == ByEditor(i) && k in c.fields && c.fields[k] == Stored(k, v)
  }

  predicate Untouched(before: Content, after: Content, k: Key) {
    (k in before.fields <==> k in after.fields) && (k in before.fields ==> before.fields[k] == after.fields[k])
  }

  /** No version after `n` that editor `i` wrote changes the field. */
  ghost predicate NotRewritten(history: seq<Content>, writers: seq<Writer>, i: nat, k: Key, n: nat) {
    forall m :: n < m < |history| && m < |writers| && writers[m] == ByEditor(i) ==>
      Untouched(history[m - 1], history[m], k)
  }

  /** The value is what editor `i` wrote to the field last. */
  ghost predicate LatestBy(history: seq<Content>, writers: seq<Writer>, i: nat, k: Key, v: Value) {
    exists n :: 0 <= n < |history| && n < |writers| && StoredAt(history[n], writers[n], i, k, v)
      && NotRewritten(history, writers, i, k, n)
  }

  /** Every acknowledged value without a newer draft is the editor's latest write of its field. */
  ghost predicate AcksAreLatest(history: seq<Content>, writers: seq<Writer>, i: nat, ed: Editor) {
    forall k :: k in ed.acked && k !in ed.draft ==> LatestBy(history, writers, i, k, ed.acked[k])
  }

  ghost predicate NoLaterWrite(writers: seq<Writer>, i: nat, n: nat) {
    forall m :: n < m < |writers| ==> writers[m] != ByEditor(i)
  }

  /** A request the server applied is the editor's last write; a line being removed has nothing acknowledged. */
  ghost predicate FlightsClean(writers: seq<Writer>, i: nat, ed: Editor) {
    forall f :: f in ed.flights ==>
      && (f.wire.Applied? ==> NoLaterWrite(writers, i, f.wire.version))
      && (f.Structural? && f.op.DeleteOp? ==> forall k :: k in ed.acked ==> TargetOf(k) != LineTarget(f.op.id))
  }

  ghost predicate AcksStored(r: Row) {
    forall i :: 0 <= i < |r.editors| ==>
      AcksAreLatest(r.history, r.writers, i, r.editors[i]) && FlightsClean(r.writers, i, r.editors[i])
  }

  // ---------------------------------------------------------------- steps that acknowledge nothing

  /** No acknowledged key leaves the draft, and nothing is acknowledged anew. */
  predicate NoNewClaims(before: Editor, after: Editor) {
    && (forall k :: k in after.acked ==> k in before.acked && after.acked[k] == before.acked[k])
    && (forall k :: k in after.acked && k !in after.draft ==> k !in before.draft)
  }

  /** A flight is one there was before, or a flush that just started. */
  predicate FlightsKept(before: Editor, after: Editor) {
    forall f :: f in after.flights ==> f in before.flights || (f.Flush? && f.wire == InTransit)
  }

  predicate Harmless(before: Editor, after: Editor) {
    NoNewClaims(before, after) && FlightsKept(before, after)
  }

  lemma HarmlessKeeps(history: seq<Content>, writers: seq<Writer>, i: nat, before: Editor, after: Editor)
    requires AcksAreLatest(history, writers, i, before) && FlightsClean(writers, i, before) && Harmless(before, after)
    ensures AcksAreLatest(history, writers, i, after) && FlightsClean(writers, i, after)
  {
  }

  lemma CommitHarmless(l: Local)
    ensures Harmless(l.ed, Commit(l).ed)
  {
  }

  lemma FinishHarmless(l: Local, j: nat)
    requires j < |l.ed.flights|
    ensures Harmless(l.ed, Finish(l, j).ed)
  {
    var l1 := l.(ed := l.ed.(saving := false, pending := false, flights := Without(l.ed.flights, j)));
    CommitHarmless(l1);
    assert Finish(l, j) == if l.ed.pending then Commit(l1) else l1;
  }

  lemma FailHarmless(l: Local, j: nat, failure: Failure)
    requires j < |l.ed.flights|
    ensures Harmless(l.ed, Fail(l, j, failure).ed)
  {
    FinishHarmless(CloseFailed(l, l.ed.flights[j], failure), j);
  }

  lemma LineAckHarmless(l: Local, j: nat, v: nat)
    requires j < |l.ed.flights| && l.ed.flights[j].Structural?
    ensures Harmless(l.ed, Succeed(l, j, v).ed)
  {
    FinishHarmless(CloseStructural(l), j);
  }

  lemma TimerHarmless(r: Row, a: Action)
    requires Enabled(r, a) && IsTimerAction(a)
    ensures Harmless(r.editors[a.i], Next(r, a).editors[a.i])
  {
    CommitHarmless(BeforeCommit(r, a));
    TimerActionCommits(r, a);
  }

  lemma EditHarmless(l: Local, k: Key, v: Value)
    ensures Harmless(l.ed, Edit(l, k, v).ed)
  {
  }

  lemma ReloadHarmless(l: Local)
    ensures Harmless(l.ed, Reload(l).ed)
  {
  }

  /** The acknowledged values of the line being removed are dropped when its removal starts. */
  lemma LineChangeKeeps(history: seq<Content>, writers: seq<Writer>, i: nat, l: Local, op: Op)
    requires AcksAreLatest(history, writers, i, l.ed) && FlightsClean(writers, i, l.ed)
    ensures var ed := StartStructural(l, op).ed;
            AcksAreLatest(history, writers, i, ed) && FlightsClean(writers, i, ed)
  {
    assert NoNewClaims(l.ed, StartStructural(l, op).ed);
  }

  // ---------------------------------------------------------------- an acknowledged request

  lemma AckFlights(l: Local, f: Flight, v: nat)
    requires l.ed.flights == [f] && f.Flush? && f.next < |f.patches|
    ensures forall g :: g in Succeed(l, 0, v).ed.flights ==> g.Flush? && g.wire == InTransit
  {
    if f.next + 1 < |f.patches| {
      assert Succeed(l, 0, v).ed.flights == [Advanced(f, v, Cleared(l.ed.draft, f.clear))];
    } else {
      LastAckFlights(l, f, v);
    }
  }

  lemma LastAckFlights(l: Local, f: Flight, v: nat)
    requires l.ed.flights == [f] && f.Flush? && f.next + 1 == |f.patches|
    ensures forall g :: g in Succeed(l, 0, v).ed.flights ==> g.Flush? && g.wire == InTransit
  {
    var l1 := CloseFlush(Acknowledge(l, f));
    var l2 := l1.(ed := l1.ed.(saving := false, pending := false, flights := []));
    assert Without(l1.ed.flights, 0) == [];
    assert Finish(l1, 0) == if l1.ed.pending then Commit(l2) else l2;
    CommitHarmless(l2);
  }

  /** The payload stands in the version whose number the response carries, and that is the editor's last write. */
  lemma PayloadIsLatest(history: seq<Content>, writers: seq<Writer>, i: nat, f: Flight, k: Key)
    requires f.Flush? && |writers| == |history| && ChainOk(history, writers, i, f) && f.wire.Applied?
    requires NoLaterWrite(writers, i, f.wire.version) && k in f.patches[f.next].fields
    ensures LatestBy(history, writers, i, k, f.patches[f.next].fields[k])
  {
    var n := f.wire.version;
    assert StoredAt(history[n], writers[n], i, k, f.patches[f.next].fields[k])
           && NotRewritten(history, writers, i, k, n);
  }

  lemma PatchAckKeeps(history: seq<Content>, writers: seq<Writer>, i: nat, l: Local, f: Flight)
    requires |writers| == |history| && l.ed.flights == [f] && f.Flush? && f.wire.Applied?
    requires ChainOk(history, writers, i, f) && ClearOk(f.clear, f.patches[f.next])
    requires AcksAreLatest(history, writers, i, l.ed) && NoLaterWrite(writers, i, f.wire.version)
    ensures var ed := Succeed(l, 0, f.wire.version).ed;
            AcksAreLatest(history, writers, i, ed) && FlightsClean(writers, i, ed)
  {
    var ed := Succeed(l, 0, f.wire.version).ed;
    SucceedDraft(l, 0, f.wire.version);
    AckFlights(l, f, f.wire.version);
    forall k | k in ed.acked && k !in ed.draft ensures LatestBy(history, writers, i, k, ed.acked[k]) {
      if k in f.patches[f.next].fields { PayloadIsLatest(history, writers, i, f, k); }
    }
  }

  // ---------------------------------------------------------------- new versions

  /** A version somebody else wrote leaves the editor's latest write its latest write. */
  lemma OtherWriteKeeps(history: seq<Content>, writers: seq<Writer>, i: nat, ed: Editor, c: Content, w: Writer)
    requires |writers| == |history| && w != ByEditor(i)
    requires AcksAreLatest(history, writers, i, ed) && FlightsClean(writers, i, ed)
    ensures AcksAreLatest(history + [c], writers + [w], i, ed) && FlightsClean(writers + [w], i, ed)
  {
    forall k | k in ed.acked && k !in ed.draft ensures LatestBy(history + [c], writers + [w], i, k, ed.acked[k]) {
      assert LatestBy(history, writers, i, k, ed.acked[k]);
      var n :| 0 <= n < |history| && StoredAt(history[n], writers[n], i, k, ed.acked[k])
        && NotRewritten(history, writers, i, k, n);
      assert StoredAt((history + [c])[n], (writers + [w])[n], i, k, ed.acked[k]);
      assert NotRewritten(history + [c], writers + [w], i, k, n);
    }
  }

  lemma NewLineUntouched(c: Content, line: map<LineField, Value>, newId: LineId, k: Key)
    requires k.LineKey? ==> k.line != newId
    ensures Untouched(c, Effect(c, AddOp(line), newId), k)
  {
  }

  lemma RemovedLineUntouched(c: Content, id: LineId, newId: LineId, k: Key)
    requires TargetOf(k) != LineTarget(id)
    ensures Untouched(c, Effect(c, DeleteOp(id), newId), k)
  {
  }

  /** The keys a request of the editor changes are still in its draft, or belong to no line it has acknowledged. */
  lemma OwnWriteUntouched(history: seq<Content>, writers: seq<Writer>, i: nat, ed: Editor, f: Flight, newId: LineId,
                          k: Key, n: nat)
    requires history != [] && |writers| == |history| && ed.flights == [f] && FlightsClean(writers, i, ed)
    requires if f.Flush? then PayloadOk(ed.draft, f) else !f.op.PatchOp? && (f.op.AddOp? ==> NeverUsed(history, newId))
    requires k in ed.acked && k !in ed.draft && n < |history| && k in history[n].fields
    ensures Untouched(history[|history| - 1], Effect(history[|history| - 1], OpOf(f), newId), k)
  {
    var c := history[|history| - 1];
    if f.Flush? {
      assert k !in f.patches[f.next].fields;
    } else if f.op.AddOp? {
      assert k.LineKey? ==> k.line != newId;
      NewLineUntouched(c, f.op.line, newId, k);
    } else {
      assert f in ed.flights;
      RemovedLineUntouched(c, f.op.id, newId, k);
    }
  }

  lemma OwnWriteIsLatest(history: seq<Content>, writers: seq<Writer>, i: nat, k: Key, v: Value, c: Content, n: nat)
    requires history != [] && |writers| == |history| && n < |history|
    requires StoredAt(history[n], writers[n], i, k, v) && NotRewritten(history, writers, i, k, n)
    requires Untouched(history[|history| - 1], c, k)
    ensures LatestBy(history + [c], writers + [ByEditor(i)], i, k, v)
  {
    var h, w := history + [c], writers + [ByEditor(i)];
    assert StoredAt(h[n], w[n], i, k, v);
    assert NotRewritten(h, w, i, k, n);
  }

  lemma OwnWriteKeeps(history: seq<Content>, writers: seq<Writer>, i: nat, ed: Editor, f: Flight, newId: LineId)
    requires history != [] && |writers| == |history| && ed.flights == [f]
    requires AcksAreLatest(history, writers, i, ed) && FlightsClean(writers, i, ed)
    requires if f.Flush? then PayloadOk(ed.draft, f) else !f.op.PatchOp? && (f.op.AddOp? ==> NeverUsed(history, newId))
    ensures var c := Effect(history[|history| - 1], OpOf(f), newId);
            AcksAreLatest(history + [c], writers + [ByEditor(i)], i, SetWire(ed, 0, Applied(|history|)))
  {
    var c := Effect(history[|history| - 1], OpOf(f), newId);
    forall k | k in ed.acked && k !in ed.draft
      ensures LatestBy(history + [c], writers + [ByEditor(i)], i, k, ed.acked[k])
    {
      assert LatestBy(history, writers, i, k, ed.acked[k]);
      var n :| 0 <= n < |history| && StoredAt(history[n], writers[n], i, k, ed.acked[k])
        && NotRewritten(history, writers, i, k, n);
      OwnWriteUntouched(history, writers, i, ed, f, newId, k, n);
      OwnWriteIsLatest(history, writers, i, k, ed.acked[k], c, n);
    }
  }

  lemma AppliedFlightClean(writers: seq<Writer>, i: nat, ed: Editor, f: Flight)
    requires ed.flights == [f] && FlightsClean(writers, i, ed)
    ensures FlightsClean(writers + [ByEditor(i)], i, SetWire(ed, 0, Applied(|writers|)))
  {
    assert SetWire(ed, 0, Applied(|writers|)).flights == [f.(wire := Applied(|writers|))];
  }

  // ---------------------------------------------------------------- the row

  ghost predicate EditorAcks(r: Row, i: nat, ed: Editor) {
    AcksAreLatest(r.history, r.writers, i, ed) && FlightsClean(r.writers, i, ed)
  }

  lemma PutAcks(r: Row, i: nat, l: Local)
    requires AcksStored(r) && i < |r.editors| && EditorAcks(r, i, l.ed)
    ensures AcksStored(Put(r, i, l))
  {
  }

  lemma PutHarmless(r: Row, i: nat, l: Local)
    requires AcksStored(r) && i < |r.editors| && Harmless(r.editors[i], l.ed)
    ensures AcksStored(Put(r, i, l))
  {
    HarmlessKeeps(r.history, r.writers, i, r.editors[i], l.ed);
    PutAcks(r, i, l);
  }

  lemma FlightFacts(r: Row, i: nat)
    requires RowOk(r) && HasFlight(r, i, 0)
    ensures var f := r.editors[i].flights[0];
            && r.editors[i].flights == [f]
            && if f.Flush? then PayloadOk(r.editors[i].draft, f) && ChainOk(r.history, r.writers, i, f)
               else !f.op.PatchOp?
  {
    assert EditorOk(r.history, r.writers, i, r.editors[i]);
  }

  lemma SingleFlight(r: Row, i: nat, j: nat)
    requires RowOk(r) && HasFlight(r, i, j)
    ensures j == 0
  {
    assert EditorOk(r.history, r.writers, i, r.editors[i]);
  }

  lemma AnswerKeepsAcks(r: Row, i: nat)
    requires RowOk(r) && AcksStored(r) && Enabled(r, Answer(i, 0))
    ensures AcksStored(Next(r, Answer(i, 0)))
  {
    var l := At(r, i);
    var f := l.ed.flights[0];
    FlightFacts(r, i);
    match f.wire
    case Applied(v) =>
      var cached := r.(cache := Snapshot(v, r.history[v]));
      if f.Structural? {
        LineAckHarmless(l, 0, v);
        PutHarmless(cached, i, Succeed(l, 0, v));
      } else {
        assert f in l.ed.flights;
        PatchAckKeeps(r.history, r.writers, i, l, f);
        PutAcks(cached, i, Succeed(l, 0, v));
      }
    case Refused(failure) =>
      FailHarmless(l, 0, failure);
      PutHarmless(r, i, Fail(l, 0, failure));
  }

  lemma RefuseKeepsAcks(r: Row, i: nat, failure: Failure)
    requires AcksStored(r) && Enabled(r, Process(i, 0, Refuse(failure))) && |r.editors[i].flights| == 1
    ensures AcksStored(Next(r, Process(i, 0, Refuse(failure))))
  {
    var ed := r.editors[i];
    var ed1 := SetWire(ed, 0, Refused(failure));
    assert ed.flights[0] in ed.flights && ed1.flights == [ed.flights[0].(wire := Refused(failure))];
    assert AcksAreLatest(r.history, r.writers, i, ed1) && FlightsClean(r.writers, i, ed1);
    PutAcks(r, i, Local(ed1, r.record));
    assert Next(r, Process(i, 0, Refuse(failure))) == Put(r, i, Local(ed1, r.record));
  }

  function GrownBy(r: Row, c: Content, w: Writer): Row {
    r.(history := r.history + [c], writers := r.writers + [w])
  }

  lemma GrownByOther(r: Row, c: Content, w: Writer, i: nat)
    requires AcksStored(r) && |r.writers| == |r.history| && i < |r.editors| && w != ByEditor(i)
    ensures EditorAcks(GrownBy(r, c, w), i, r.editors[i])
  {
    OtherWriteKeeps(r.history, r.writers, i, r.editors[i], c, w);
  }

  lemma GrownAcks(r: Row, i: nat, c: Content, w: Writer, ed: Editor)
    requires AcksAreLatest(r.history + [c], r.writers + [w], i, ed) && FlightsClean(r.writers + [w], i, ed)
    ensures EditorAcks(GrownBy(r, c, w), i, ed)
  {
  }

  /** Editor `i` wrote the new version and is changed, the others are not. */
  lemma WriteKeepsAcks(r: Row, i: nat, c: Content, ed: Editor)
    requires AcksStored(r) && |r.writers| == |r.history| && i < |r.editors|
    requires EditorAcks(GrownBy(r, c, ByEditor(i)), i, ed)
    ensures AcksStored(GrownBy(r, c, ByEditor(i)).(editors := r.editors[i := ed]))
  {
    var grown := GrownBy(r, c, ByEditor(i));
    forall x | 0 <= x < |r.editors| && x != i ensures EditorAcks(grown, x, r.editors[x]) {
      GrownByOther(r, c, ByEditor(i), x);
    }
    UpdatedAcks(grown, i, ed);
  }

  lemma AppliedRow(r: Row, i: nat, newId: LineId)
    requires Enabled(r, Process(i, 0, Apply(newId)))
    ensures r.history != []
    ensures var c := Effect(r.history[Version(r)], OpOf(r.editors[i].flights[0]), newId);
            var ed := SetWire(r.editors[i], 0, Applied(|r.history|));
            Next(r, Process(i, 0, Apply(newId))) == GrownBy(r, c, ByEditor(i)).(editors := r.editors[i := ed])
  {
  }

  lemma ApplierFacts(r: Row, i: nat, newId: LineId)
    requires RowOk(r) && AcksStored(r) && Enabled(r, Process(i, 0, Apply(newId)))
    ensures i < |r.editors| && |r.editors[i].flights| == 1 && r.history != [] && |r.writers| == |r.history|
    ensures EditorAcks(r, i, r.editors[i])
    ensures var ed := r.editors[i];
            var f := ed.flights[0];
            ed.flights == [f]
            && if f.Flush? then PayloadOk(ed.draft, f)
               else !f.op.PatchOp? && (f.op.AddOp? ==> NeverUsed(r.history, newId))
  {
    FlightFacts(r, i);
  }

  lemma AppliedAcks(r: Row, i: nat, newId: LineId, ed: Editor, f: Flight)
    requires AcksStored(r) && |r.writers| == |r.history| && r.history != [] && i < |r.editors|
    requires ed == r.editors[i] && ed.flights == [f] && EditorAcks(r, i, ed)
    requires if f.Flush? then PayloadOk(ed.draft, f)
             else !f.op.PatchOp? && (f.op.AddOp? ==> NeverUsed(r.history, newId))
    ensures var c, ed1 := Effect(r.history[Version(r)], OpOf(f), newId), SetWire(ed, 0, Applied(|r.history|));
            AcksStored(GrownBy(r, c, ByEditor(i)).(editors := r.editors[i := ed1]))
  {
    var c, ed1 := Effect(r.history[Version(r)], OpOf(f), newId), SetWire(ed, 0, Applied(|r.history|));
    OwnWriteKeeps(r.history, r.writers, i, ed, f, newId);
    AppliedFlightClean(r.writers, i, ed, f);
    GrownAcks(r, i, c, ByEditor(i), ed1);
    WriteKeepsAcks(r, i, c, ed1);
  }

  lemma ApplyKeepsAcks(r: Row, i: nat, newId: LineId)
    requires RowOk(r) && AcksStored(r) && Enabled(r, Process(i, 0, Apply(newId)))
    ensures AcksStored(Next(r, Process(i, 0, Apply(newId))))
  {
    ApplierFacts(r, i, newId);
    AppliedAcks(r, i, newId, r.editors[i], r.editors[i].flights[0]);
    AppliedRow(r, i, newId);
  }

  lemma UpdatedAcks(r: Row, i: nat, ed: Editor)
    requires i < |r.editors| && EditorAcks(r, i, ed)
    requires forall x :: 0 <= x < |r.editors| && x != i ==> EditorAcks(r, x, r.editors[x])
    ensures AcksStored(r.(editors := r.editors[i := ed]))
  {
  }

  lemma ForeignKeepsAcks(r: Row, c: Content)
    requires RowOk(r) && AcksStored(r) && Enabled(r, ForeignWrite(c))
    ensures AcksStored(Next(r, ForeignWrite(c)))
  {
    var q := Next(r, ForeignWrite(c));
    forall x | 0 <= x < |q.editors| ensures EditorAcks(q, x, q.editors[x]) {
      GrownByOther(r, c, Foreign, x);
    }
  }

  lemma UserKeepsAcks(r: Row, a: Action)
    requires AcksStored(r) && Enabled(r, a)
             && (a.Type? || a.ChangeLines? || a.ClickReload? || a.RenderRow? || a.Unmount?)
    ensures AcksStored(Next(r, a))
  {
    match a
    case Type(i, k, v) => EditHarmless(At(r, i), k, v); PutHarmless(r, i, Edit(At(r, i), k, v));
    case ClickReload(i) => ReloadHarmless(At(r, i)); PutHarmless(r, i, Reload(At(r, i)));
    case ChangeLines(i, op) =>
      LineChangeKeeps(r.history, r.writers, i, At(r, i), op);
      PutAcks(r, i, StartStructural(At(r, i), op));
    case RenderRow(i) => PutHarmless(r, i, Render(At(r, i), r.cache));
    case Unmount(i) => PutHarmless(r, i, Local(r.editors[i].(mounted := false), r.record));
  }

  lemma TimerKeepsAcks(r: Row, a: Action)
    requires AcksStored(r) && Enabled(r, a) && IsTimerAction(a)
    ensures AcksStored(Next(r, a))
  {
    TimerHarmless(r, a);
    TimerActionCommits(r, a);
    PutHarmless(r, a.i, Commit(BeforeCommit(r, a)));
  }

  lemma OtherKeepsAcks(r: Row, a: Action)
    requires AcksStored(r) && Enabled(r, a) && (a.Mount? || a.FetchRead? || a.FetchArrive?)
    ensures AcksStored(Next(r, a))
  {
    if a.Mount? {
      assert EditorAcks(r, |r.editors|, NewEditor(r.cache));
    }
  }

  lemma NetworkKeepsAcks(r: Row, a: Action)
    requires RowOk(r) && AcksStored(r) && Enabled(r, a) && (a.Answer? || a.Lose? || a.Process?)
    ensures AcksStored(Next(r, a))
  {
    SingleFlight(r, a.i, a.j);
    match a
    case Answer(i, _) => AnswerKeepsAcks(r, i);
    case Lose(i, _) =>
      FailHarmless(At(r, i), 0, OtherFailure);
      PutHarmless(r, i, Fail(At(r, i), 0, OtherFailure));
    case Process(i, _, Apply(newId)) => ApplyKeepsAcks(r, i, newId);
    case Process(i, _, Refuse(failure)) => FlightFacts(r, i); RefuseKeepsAcks(r, i, failure);
  }

  /** Every step keeps: acknowledged and not typed again means latest write. */
  lemma StepKeepsAcks(r: Row, a: Action)
    requires RowOk(r) && AcksStored(r) && Enabled(r, a)
    ensures AcksStored(Next(r, a))
  {
    if a.Answer? || a.Lose? || a.Process? { NetworkKeepsAcks(r, a); }
    else if IsTimerAction(a) { TimerKeepsAcks(r, a); }
    else if a.ForeignWrite? { ForeignKeepsAcks(r, a.content); }
    else if a.Mount? || a.FetchRead? || a.FetchArrive? { OtherKeepsAcks(r, a); }
    else { UserKeepsAcks(r, a); }
  }

  lemma {:induction false} RunKeepsAcks(r: Row, acts: seq<Action>)
    requires RowOk(r) && AcksStored(r) && Valid(r, acts)
    ensures AcksStored(Run(r, acts))
    decreases |acts|
  {
    if acts != [] {
      StepKeepsAcks(r, acts[0]);
      NextKeeps(r, acts[0]);
      RunKeepsAcks(Next(r, acts[0]), acts[1..]);
    }
  }

  // ---------------------------------------------------------------- main results

  /** What was typed last into field `k` of editor `i` in the run, if that was not reloaded or removed since. */
  function LastTypedIn(r: Row, acts: seq<Action>, i: nat, k: Key): Option<Value>
    requires Valid(r, acts)
  {
    LastTyped(acts, |acts|, Started(r, acts), i, k)
  }

  /** Every value typed last since the last reload is in the draft, or is what this editor wrote to the field last. */
  lemma TypedIsDraftedOrStored(r: Row, acts: seq<Action>, i: nat, k: Key)
    requires Init(r) && Valid(r, acts) && AllFaithful(r, acts)
    requires i < |Run(r, acts).editors| && LastTypedIn(r, acts, i, k).Some?
    ensures var q := Run(r, acts);
            var ed := q.editors[i];
            var v := LastTypedIn(r, acts, i, k).value;
            || (k in ed.draft && ed.draft[k] == v)
            || (k !in ed.draft && Wire(k, v).Some? && LatestBy(q.history, q.writers, i, k, Wire(k, v).value))
  {
    InitIsLossless(r);
    LastTypedIsKeptIff(r, acts);
    assert KeepsLastTyped(r, acts, |acts|);
    StateEnd(r, acts);
    RunKeepsAcks(r, acts);
    var q := Run(r, acts);
    assert AcksAreLatest(q.history, q.writers, i, q.editors[i]);
  }

  /** The server's current content holds the value. */
  predicate HeldNow(q: Row, k: Key, v: Value) {
    q.history != [] && k in q.history[Version(q)].fields && q.history[Version(q)].fields[k] == Stored(k, v)
  }

  /** After editor `i` wrote the value, another client or another editor changed the field. */
  ghost predicate ChangedSince(q: Row, i: nat, k: Key, v: Value) {
    exists n, m :: 0 <= n < m < |q.history| && m < |q.writers| && StoredAt(q.history[n], q.writers[n], i, k, v)
      && q.writers[m] != ByEditor(i) && !Untouched(q.history[m - 1], q.history[m], k)
  }

  /** If nobody else changes the field from version `n` on, it stays as it is there. */
  lemma {:induction false} StaysFrom(history: seq<Content>, writers: seq<Writer>, k: Key, n: nat, m: nat)
    requires |writers| == |history| && n <= m < |history|
    requires forall x :: n < x <= m ==> Untouched(history[x - 1], history[x], k)
    ensures Untouched(history[n], history[m], k)
    decreases m
  {
    if n < m { StaysFrom(history, writers, k, n, m - 1); }
  }

  lemma LatestIsHeld(q: Row, i: nat, k: Key, v: Value)
    requires q.history != [] && |q.writers| == |q.history| && LatestBy(q.history, q.writers, i, k, v)
    ensures HeldNow(q, k, v) || ChangedSince(q, i, k, v)
  {
    var n :| 0 <= n < |q.history| && StoredAt(q.history[n], q.writers[n], i, k, v)
      && NotRewritten(q.history, q.writers, i, k, n);
    if m :| n < m < |q.history| && !Untouched(q.history[m - 1], q.history[m], k) {
      assert q.writers[m] != ByEditor(i);
    } else {
      StaysFrom(q.history, q.writers, k, n, Version(q));
    }
  }

  lemma NothingSendableIsLeft(q: Row, i: nat, k: Key)
    requires RowOk(q) && i < |q.editors| && !HasWork(q.editors[i].draft, q.editors[i].seen.content.lines)
    ensures !Sendable(q.editors[i].draft, q.editors[i].seen.content.lines, k)
  {
    assert EditorOk(q.history, q.writers, i, q.editors[i]);
    WorkIsSendable(q.editors[i].draft, q.editors[i].seen.content.lines);
  }

  /**
   The promise of the autosave. Take any run in which no acknowledgement clears a text it did not send, and no
   line change or render strands a draft. An editor at rest, neither in conflict nor given up, has every complete
   value typed into the row's fields on the server: as its own latest write of the field, and as the current
   value unless somebody else changed the field afterwards.
   */
  lemma SettledIsStored(r: Row, acts: seq<Action>, i: nat, k: Key)
    requires Init(r) && Valid(r, acts) && AllFaithful(r, acts) && AllOrderly(r, acts)
    requires var q := Run(r, acts);
             && i < |q.editors| && !CanMove(q, i)
             && var ed := q.editors[i];
                ed.status != Conflict && !GaveUp(ed) && Listed(k, ed.seen.content.lines)
    requires LastTypedIn(r, acts, i, k).Some? && Wire(k, LastTypedIn(r, acts, i, k).value).Some?
    ensures var q := Run(r, acts);
            var v := Wire(k, LastTypedIn(r, acts, i, k).value).value;
            LatestBy(q.history, q.writers, i, k, v) && (HeldNow(q, k, v) || ChangedSince(q, i, k, v))
  {
    var q := Run(r, acts);
    InitOk(r);
    RunKeeps(r, acts);
    SettledState(r, acts, i);
    TypedIsDraftedOrStored(r, acts, i, k);
    NothingSendableIsLeft(q, i, k);
    LatestIsHeld(q, i, k, Wire(k, LastTypedIn(r, acts, i, k).value).value);
  }
}
