/**
 Concrete runs in which the editor breaks what it promises, one for each condition the positive theorems
 carry. Every run starts in a state as loaded and takes only possible actions: what is typed is what the cells of
 the row produce, and what the server applies passes its request schemas.
 */
module FailingRuns {
  import opened Options
  import opened Sequences
  import opened NumericText
  import opened Drafts
  import opened RequestSchema
  import opened ServerModel
  import opened EditorProtocol
  import opened DraftObjects
  import opened RowSystem
  import opened Invariants
  import opened UnloadGuard
  import opened LosslessEdits
  import opened WakeUp
  import opened PlausibleRuns
  import opened Release

  const CONTENT := Content(map[], [1, 2], false, false)

  /** An entry with two work lines as it was loaded. */
  const LOADED := Row([CONTENT], [Foreign], Snapshot(0, CONTENT), [], [], None)

  const EOBI := EntryKey(EobiApplicable)
  const DAYS := LineKey(1, CycleDays)

  function PatchFor(draft: Draft, t: Target): seq<Patch> {
    if FieldsFor(draft, t) == map[] then [] else [Patch(t, FieldsFor(draft, t))]
  }

  lemma PatchesOfThree(draft: Draft)
    ensures Patches(draft, [1, 2])
         == PatchFor(draft, EntryTarget) + PatchFor(draft, LineTarget(1)) + PatchFor(draft, LineTarget(2))
  {
    var ts := [EntryTarget] + ([LineTarget(1)] + [LineTarget(2)]);
    assert Targets([1, 2]) == ts;
    PatchesForConcat(draft, [EntryTarget], [LineTarget(1)] + [LineTarget(2)]);
    PatchesForConcat(draft, [LineTarget(1)], [LineTarget(2)]);
    PatchesForOne(draft, EntryTarget);
    PatchesForOne(draft, LineTarget(1));
    PatchesForOne(draft, LineTarget(2));
  }

  lemma EobiPatches(v: Value)
    ensures Patches(map[EOBI := v], [1, 2]) == [Patch(EntryTarget, map[EOBI := v])]
  {
    var draft: Draft := map[EOBI := v];
    PatchesOfThree(draft);
    assert FieldsFor(draft, EntryTarget) == map[EOBI := v];
    assert EOBI in FieldsFor(draft, EntryTarget);
    assert FieldsFor(draft, LineTarget(1)) == map[] && FieldsFor(draft, LineTarget(2)) == map[];
  }

  lemma AnswerGives(r: Row, v: nat, l: Local, q: Row)
    requires Enabled(r, Answer(0, 0)) && r.editors[0].flights[0].wire == Applied(v)
    requires Succeed(At(r, 0), 0, v) == l
    requires q == Put(r.(cache := Snapshot(v, r.history[v])), 0, l)
    ensures Step(r, Answer(0, 0), q)
  {
  }

  lemma ServeGives(r: Row, c: Content, q: Row)
    requires Enabled(r, Process(0, 0, Apply(0))) && Plausible(r, Process(0, 0, Apply(0)))
    requires Effect(r.history[Version(r)], OpOf(r.editors[0].flights[0]), 0) == c
    requires q == r.(history := r.history + [c], writers := r.writers + [ByEditor(0)],
                     editors := r.editors[0 := SetWire(r.editors[0], 0, Applied(|r.history|))])
    ensures Step(r, Process(0, 0, Apply(0)), q)
  {
  }

  lemma TimerSends(l: Local, ps: seq<Patch>)
    requires l.ed.flights == [] && !l.ed.saving && l.ed.seenStatus != Conflict
    requires ps == Patches(l.ed.draft, l.ed.seen.content.lines) && ps != []
    ensures var f := Flush(ps, 0, l.ed.seen.version, ClearFor(ps[0], l.ed.draft), InTransit, l.ed.seen.version,
                           Union(ps));
            var ed := l.ed.(saveTimer := false, saving := true, status := Saving, rejected := false, flights := [f]);
            SaveTimerFires(l) == Local(ed, Some(Saving))
  {
  }

  lemma FirstAck(l: Local, f: Flight, v: nat)
    requires l.ed.flights == [f] && f.Flush? && f.next + 1 < |f.patches|
    ensures var draft := Cleared(l.ed.draft, f.clear);
            Succeed(l, 0, v) == l.(ed := l.ed.(draft := draft, acked := l.ed.acked + f.patches[f.next].fields,
                                               flights := [Advanced(f, v, draft)]))
  {
  }

  lemma LastAck(l: Local, f: Flight, v: nat)
    requires l.ed.flights == [f] && f.Flush? && f.next + 1 == |f.patches| && !l.ed.pending
    requires Cleared(l.ed.draft, f.clear) == map[]
    ensures Succeed(l, 0, v)
         == Local(l.ed.(draft := map[], acked := l.ed.acked + f.patches[f.next].fields, retryCount := 0,
                        status := Saved, rejected := false, saving := false, flights := []), None)
  {
    var l1 := CloseFlush(Acknowledge(l, f));
    assert Without(l1.ed.flights, 0) == [];
  }

  // ---------------------------------------------------------------- a box is ticked

  const YES := Flag(true)
  const NO := Flag(false)

  const MOUNTED := LOADED.(editors := [NewEditor(LOADED.cache)])
  const TICKED_EDITOR := NewEditor(LOADED.cache).(draft := map[EOBI := YES], typed := map[EOBI := YES], status := Dirty,
                                                  saveTimer := true)
  const TICKED := LOADED.(editors := [TICKED_EDITOR], record := Some(Dirty))

  lemma TickedReached()
    ensures Reaches(TICKED)
  {
    StartsLoaded(LOADED);
    Then(LOADED, Mount, MOUNTED);
    assert Next(MOUNTED, Type(0, EOBI, YES)).editors[0] == TICKED_EDITOR;
    Then(MOUNTED, Type(0, EOBI, YES), TICKED);
  }

  // ---------------------------------------------------------------- removing a line over a draft

  function Removing(w: Transit): Editor {
    TICKED_EDITOR.(status := Saving, saving := true, saveTimer := false, flights := [Structural(DeleteOp(2), 0, w)])
  }

  const ONE_LINE_LEFT := Content(map[], [1], false, false)
  const REMOVING := TICKED.(editors := [Removing(InTransit)], record := Some(Saving))
  const REMOVED := REMOVING.(history := [CONTENT, ONE_LINE_LEFT], writers := [Foreign, ByEditor(0)],
                             editors := [Removing(Applied(1))])
  const STRANDED := REMOVED.(cache := Snapshot(1, ONE_LINE_LEFT), record := None,
                             editors := [TICKED_EDITOR.(status := Saved, saveTimer := false)])

  lemma StartRemoval()
    ensures Step(TICKED, ChangeLines(0, DeleteOp(2)), REMOVING)
  {
    assert DropLine(map[EOBI := YES], 2) == map[EOBI := YES];
    assert DropLine(map[], 2) == map[];
    assert StartStructural(At(TICKED, 0), DeleteOp(2)).ed == Removing(InTransit);
  }

  lemma RemovalEffect()
    ensures Effect(CONTENT, DeleteOp(2), 0) == ONE_LINE_LEFT
  {
    assert Remove([1, 2], 2) == [1] by {
      assert [1, 2][..1] == [1] && [1][..0] == [];
      assert Remove([1], 2) == [1];
    }
    assert DropLine(map[], 2) == map[];
  }

  lemma ServeRemoval()
    ensures Step(REMOVING, Process(0, 0, Apply(0)), REMOVED)
  {
    RemovalEffect();
    RemovalIsServed();
    RemovedRow();
    ServeGives(REMOVING, ONE_LINE_LEFT, REMOVED);
  }

  lemma RemovalIsServed()
    ensures Enabled(REMOVING, Process(0, 0, Apply(0))) && Plausible(REMOVING, Process(0, 0, Apply(0)))
    ensures REMOVING.history[Version(REMOVING)] == CONTENT && OpOf(REMOVING.editors[0].flights[0]) == DeleteOp(2)
  {
  }

  lemma RemovedRow()
    ensures REMOVED == REMOVING.(history := [CONTENT] + [ONE_LINE_LEFT], writers := [Foreign] + [ByEditor(0)],
                                 editors := [SetWire(Removing(InTransit), 0, Applied(1))])
  {
    assert [CONTENT] + [ONE_LINE_LEFT] == [CONTENT, ONE_LINE_LEFT];
    assert [Foreign] + [ByEditor(0)] == [Foreign, ByEditor(0)];
    assert SetWire(Removing(InTransit), 0, Applied(1)) == Removing(Applied(1));
  }

  lemma AnswerRemoval()
    ensures Step(REMOVED, Answer(0, 0), STRANDED)
  {
    var l := CloseStructural(At(REMOVED, 0));
    assert Without(l.ed.flights, 0) == [];
    assert Succeed(At(REMOVED, 0), 0, 1).ed == STRANDED.editors[0];
  }

  lemma StrandedReached()
    ensures Reaches(STRANDED)
  {
    TickedReached();
    StartRemoval();
    ServeRemoval();
    AnswerRemoval();
    Then(TICKED, ChangeLines(0, DeleteOp(2)), REMOVING);
    Then(REMOVING, Process(0, 0, Apply(0)), REMOVED);
    Then(REMOVED, Answer(0, 0), STRANDED);
  }

  /** A removed line is reported as saved over a draft: no record, no timer, nothing on its way. */
  lemma DeleteLineStrandsADraft() returns (q: Row)
    ensures Reaches(q) && |q.editors| == 1 && q.editors[0].draft == map[EOBI := YES]
    ensures q.editors[0].status == Saved && q.record == None && !Guarded(q) && !Awake(q.editors[0])
  {
    StrandedReached();
    EobiPatches(YES);
    q := STRANDED;
  }

  // ---------------------------------------------------------------- Cycle Days typed during a flush

  lemma DigitText(c: char)
    requires '1' <= c <= '9'
    ensures Wire(DAYS, Text([c])) == Some(Number(c as int - '0' as int))
  {
    assert AllDigits([c]);
  }

  const FIVE := Text("5")
  const SIX := Text("6")

  function TwoPatches(): seq<Patch> {
    [Patch(EntryTarget, map[EOBI := YES]), Patch(LineTarget(1), map[DAYS := Number(5)])]
  }

  lemma EobiAndDaysPatches()
    ensures Patches(map[EOBI := YES, DAYS := FIVE], [1, 2]) == TwoPatches()
  {
    var draft: Draft := map[EOBI := YES, DAYS := FIVE];
    PatchesOfThree(draft);
    DigitText('5');
    assert FieldsFor(draft, EntryTarget) == map[EOBI := YES];
    assert EOBI in FieldsFor(draft, EntryTarget);
    assert FieldsFor(draft, LineTarget(1)) == map[DAYS := Number(5)];
    assert DAYS in FieldsFor(draft, LineTarget(1));
    assert FieldsFor(draft, LineTarget(2)) == map[];
  }

  const SENT := map[EOBI := YES, DAYS := Number(5)]

  function Flushing(next: nat, clear: map<Key, Value>, w: Transit): Flight {
    Flush(TwoPatches(), next, next, clear, w, 0, SENT)
  }

  const BOTH_EDITOR := TICKED_EDITOR.(draft := map[EOBI := YES, DAYS := FIVE], typed := map[EOBI := YES, DAYS := FIVE])
  const BOTH := TICKED.(editors := [BOTH_EDITOR])

  function Flusher(days: Value, f: Flight): Editor {
    BOTH_EDITOR.(draft := map[EOBI := YES, DAYS := days], typed := map[EOBI := YES, DAYS := days],
                 status := Saving, saving := true, saveTimer := false, flights := [f])
  }

  const FLUSHING := BOTH.(editors := [Flusher(FIVE, Flushing(0, map[EOBI := YES], InTransit))], record := Some(Saving))

  lemma StartOfFlush()
    ensures Step(BOTH, SaveTimer(0), FLUSHING)
  {
    EobiAndDaysPatches();
    TwoPatchesUnion();
    TimerSends(At(BOTH, 0), TwoPatches());
    assert ClearFor(TwoPatches()[0], BOTH_EDITOR.draft) == map[EOBI := YES];
  }

  lemma TwoPatchesUnion()
    ensures Union(TwoPatches()) == SENT
  {
    var ps := TwoPatches();
    assert ps[..1] == [ps[0]] && ps[..1][..0] == [];
    assert Union(ps[..1]) == map[EOBI := YES];
  }

  const FIRST := Content(map[EOBI := YES], [1, 2], false, false)
  const SECOND := Content(map[EOBI := YES, DAYS := Number(5)], [1, 2], false, false)

  function Overtyped(w: Transit): Editor {
    Flusher(SIX, Flushing(0, map[EOBI := YES], w)).(status := Dirty, saveTimer := true)
  }

  const OVERTYPED := FLUSHING.(editors := [Overtyped(InTransit)], record := Some(Dirty))
  const SERVED_FIRST := OVERTYPED.(history := [CONTENT, FIRST], writers := [Foreign, ByEditor(0)],
                                   editors := [Overtyped(Applied(1))])

  function Advancing(w: Transit): Editor {
    Overtyped(InTransit).(draft := map[DAYS := SIX], acked := map[EOBI := YES],
                          flights := [Flushing(1, map[DAYS := SIX], w)])
  }

  const ADVANCED := SERVED_FIRST.(cache := Snapshot(1, FIRST), editors := [Advancing(InTransit)])
  const SERVED_SECOND := ADVANCED.(history := [CONTENT, FIRST, SECOND], writers := [Foreign, ByEditor(0), ByEditor(0)],
                                   editors := [Advancing(Applied(2))])
  const LOST := SERVED_SECOND.(cache := Snapshot(2, SECOND), record := None,
                               editors := [Advancing(InTransit).(draft := map[], acked := SENT, status := Saved,
                                                                 saving := false, flights := [])])

  lemma TypeOver()
    ensures Step(FLUSHING, Type(0, DAYS, SIX), OVERTYPED)
  {
    assert Edit(At(FLUSHING, 0), DAYS, SIX).ed == Overtyped(InTransit);
  }

  lemma FirstEffect()
    ensures Effect(CONTENT, PatchOp(TwoPatches()[0]), 0) == FIRST && PatchAccepted(TwoPatches()[0])
  {
    assert StoredAll(map[EOBI := YES]) == map[EOBI := YES];
  }

  lemma ServeFirst()
    ensures Step(OVERTYPED, Process(0, 0, Apply(0)), SERVED_FIRST)
  {
    FirstEffect();
    assert SetWire(Overtyped(InTransit), 0, Applied(1)) == Overtyped(Applied(1));
    ServeGives(OVERTYPED, FIRST, SERVED_FIRST);
  }

  lemma AnswerFirst()
    ensures Step(SERVED_FIRST, Answer(0, 0), ADVANCED)
  {
    ContinueFlush(At(SERVED_FIRST, 0));
    AnswerGives(SERVED_FIRST, 1, Local(Advancing(InTransit), Some(Dirty)), ADVANCED);
  }

  lemma ContinueFlush(l: Local)
    requires l == Local(Overtyped(Applied(1)), Some(Dirty))
    ensures Succeed(l, 0, 1) == Local(Advancing(InTransit), Some(Dirty))
  {
    var f := Flushing(0, map[EOBI := YES], Applied(1));
    assert Cleared(l.ed.draft, f.clear) == map[DAYS := SIX];
    assert ClearFor(TwoPatches()[1], map[DAYS := SIX]) == map[DAYS := SIX];
    assert map[] + map[EOBI := YES] == map[EOBI := YES];
    FirstAck(l, f, 1);
  }

  lemma SecondEffect()
    ensures Effect(FIRST, PatchOp(TwoPatches()[1]), 0) == SECOND && PatchAccepted(TwoPatches()[1])
  {
    assert StoredAll(map[DAYS := Number(5)]) == map[DAYS := Number(5)];
  }

  lemma ServeSecond()
    ensures Step(ADVANCED, Process(0, 0, Apply(0)), SERVED_SECOND)
  {
    SecondEffect();
    assert SetWire(Advancing(InTransit), 0, Applied(2)) == Advancing(Applied(2));
    ServeGives(ADVANCED, SECOND, SERVED_SECOND);
  }

  lemma AnswerSecond()
    ensures Step(SERVED_SECOND, Answer(0, 0), LOST)
  {
    EndFlush(At(SERVED_SECOND, 0));
    AnswerGives(SERVED_SECOND, 2, Local(LOST.editors[0], None), LOST);
  }

  lemma EndFlush(l: Local)
    requires l == Local(Advancing(Applied(2)), Some(Dirty))
    ensures Succeed(l, 0, 2) == Local(LOST.editors[0], None)
  {
    var f := Flushing(1, map[DAYS := SIX], Applied(2));
    assert Cleared(l.ed.draft, f.clear) == map[];
    assert map[EOBI := YES] + map[DAYS := Number(5)] == SENT;
    LastAck(l, f, 2);
  }

  /**
   Cycle Days was 5 when the payload was made and 6 when its request was sent: 6 is cleared as if it had
   been sent, the server keeps 5, and the row says saved.
   */
  lemma LateCycleDaysIsLost() returns (q: Row)
    ensures Reaches(q) && !NoLossRow(q) && q.record == None
    ensures |q.editors| == 1 && q.editors[0].draft == map[] && q.editors[0].status == Saved
    ensures q.editors[0].typed == map[EOBI := YES, DAYS := SIX]
    ensures |q.history| == 3 && q.cache == Snapshot(2, q.history[2])
            && q.history[2].fields == map[EOBI := YES, DAYS := Number(5)]
  {
    FlushingReached();
    LoseCycleDays();
    DigitText('6');
    q := LOST;
    assert !KeptOrAcked(q.editors[0], DAYS);
  }

  lemma FlushingReached()
    ensures Reaches(FLUSHING)
  {
    TickedReached();
    assert Edit(At(TICKED, 0), DAYS, FIVE).ed == BOTH_EDITOR;
    Then(TICKED, Type(0, DAYS, FIVE), BOTH);
    StartOfFlush();
    Then(BOTH, SaveTimer(0), FLUSHING);
  }

  lemma LoseCycleDays()
    requires Reaches(FLUSHING)
    ensures Reaches(LOST)
  {
    TypeOver();
    ServeFirst();
    AnswerFirst();
    ServeSecond();
    AnswerSecond();
    Then(FLUSHING, Type(0, DAYS, SIX), OVERTYPED);
    Then(OVERTYPED, Process(0, 0, Apply(0)), SERVED_FIRST);
    Then(SERVED_FIRST, Answer(0, 0), ADVANCED);
    Then(ADVANCED, Process(0, 0, Apply(0)), SERVED_SECOND);
    Then(SERVED_SECOND, Answer(0, 0), LOST);
  }

  // ---------------------------------------------------------------- a flush that conflicts with its own predecessor

  function TickFlush(v: Value, w: Transit): Flight {
    Flush([Patch(EntryTarget, map[EOBI := v])], 0, 0, map[EOBI := v], w, 0, map[EOBI := v])
  }

  /** The box was ticked, sent, and unticked while the request was on its way. */
  function Unticked(pending: bool, w: Transit): Editor {
    TICKED_EDITOR.(draft := map[EOBI := NO], typed := map[EOBI := NO], saveTimer := !pending,
                  saving := true, pending := pending, flights := [TickFlush(YES, w)])
  }

  const TICK_SENT := TICKED.(editors := [TICKED_EDITOR.(status := Saving, saving := true, saveTimer := false,
                                                      flights := [TickFlush(YES, InTransit)])], record := Some(Saving))
  const UNTICKED := TICK_SENT.(editors := [Unticked(false, InTransit)], record := Some(Dirty))
  const ASKED := UNTICKED.(editors := [Unticked(true, InTransit)])
  const TICK_SERVED := ASKED.(history := [CONTENT, FIRST], writers := [Foreign, ByEditor(0)],
                              editors := [Unticked(true, Applied(1))])

  function Resent(w: Transit): Editor {
    Unticked(false, w).(acked := map[EOBI := YES], status := Saving, saveTimer := false, flights := [TickFlush(NO, w)])
  }

  const RESENT := TICK_SERVED.(cache := Snapshot(1, FIRST), editors := [Resent(InTransit)], record := Some(Saving))
  const REFUSED := RESENT.(editors := [Resent(Refused(ConflictReply))])
  const SELF_CONFLICT := REFUSED.(record := Some(Conflict),
                                  editors := [Resent(InTransit).(status := Conflict, saving := false, flights := [])])

  lemma UnionOfOne(p: Patch)
    ensures Union([p]) == p.fields
  {
    assert [p][..0] == [];
  }

  lemma SendTick()
    ensures Step(TICKED, SaveTimer(0), TICK_SENT)
  {
    EobiPatches(YES);
    UnionOfOne(Patch(EntryTarget, map[EOBI := YES]));
    assert ClearFor(Patch(EntryTarget, map[EOBI := YES]), TICKED_EDITOR.draft) == map[EOBI := YES];
    TimerSends(At(TICKED, 0), [Patch(EntryTarget, map[EOBI := YES])]);
  }

  lemma AskAgain()
    ensures Step(TICK_SENT, Type(0, EOBI, NO), UNTICKED) && Step(UNTICKED, SaveTimer(0), ASKED)
  {
    assert Edit(At(TICK_SENT, 0), EOBI, NO).ed == Unticked(false, InTransit);
    EobiPatches(NO);
    assert SaveTimerFires(At(UNTICKED, 0)).ed == Unticked(true, InTransit);
  }

  lemma ServeTick()
    ensures Step(ASKED, Process(0, 0, Apply(0)), TICK_SERVED)
  {
    assert StoredAll(map[EOBI := YES]) == map[EOBI := YES];
    assert Effect(CONTENT, PatchOp(Patch(EntryTarget, map[EOBI := YES])), 0) == FIRST;
    assert SetWire(Unticked(true, InTransit), 0, Applied(1)) == Unticked(true, Applied(1));
  }

  lemma AnswerTick()
    ensures Step(TICK_SERVED, Answer(0, 0), RESENT)
  {
    Recommit(At(TICK_SERVED, 0));
    TickAnswerable();
    ResentIsPut();
    AnswerGives(TICK_SERVED, 1, Local(Resent(InTransit), Some(Saving)), RESENT);
  }

  lemma TickAnswerable()
    ensures Enabled(TICK_SERVED, Answer(0, 0)) && TICK_SERVED.editors[0].flights[0].wire == Applied(1)
  {
  }

  lemma ResentIsPut()
    ensures RESENT == Put(TICK_SERVED.(cache := Snapshot(1, FIRST)), 0, Local(Resent(InTransit), Some(Saving)))
  {
  }

  lemma Recommit(l: Local)
    requires l == Local(Unticked(true, Applied(1)), Some(Dirty))
    ensures Succeed(l, 0, 1) == Local(Resent(InTransit), Some(Saving))
  {
    var l1 := CloseFlush(Acknowledge(l, TickFlush(YES, Applied(1))));
    assert l1.ed == l.ed.(acked := map[EOBI := YES]) && l1.record == Some(Dirty) by {
      assert Cleared(map[EOBI := NO], map[EOBI := YES]) == map[EOBI := NO];
      assert map[] + map[EOBI := YES] == map[EOBI := YES];
      assert EOBI in map[EOBI := NO];
    }
    assert Without(l1.ed.flights, 0) == [];
    var ended := Local(l1.ed.(saving := false, pending := false, flights := []), Some(Dirty));
    assert Succeed(l, 0, 1) == Commit(ended);
    SendUntick(ended);
  }

  lemma SendUntick(l: Local)
    requires l.ed.draft == map[EOBI := NO] && l.ed.seen == LOADED.cache && l.ed.flights == [] && !l.ed.saving
    requires l.ed.seenStatus == Idle
    ensures Commit(l) == Local(l.ed.(saving := true, status := Saving, rejected := false,
                                     flights := [TickFlush(NO, InTransit)]), Some(Saving))
  {
    EobiPatches(NO);
    UnionOfOne(Patch(EntryTarget, map[EOBI := NO]));
    assert ClearFor(Patch(EntryTarget, map[EOBI := NO]), map[EOBI := NO]) == map[EOBI := NO];
  }

  lemma RefuseUntick()
    ensures Step(RESENT, Process(0, 0, Refuse(ConflictReply)), REFUSED) && Step(REFUSED, Answer(0, 0), SELF_CONFLICT)
  {
    assert SetWire(Resent(InTransit), 0, Refused(ConflictReply)) == Resent(Refused(ConflictReply));
    var l := CloseFailed(At(REFUSED, 0), REFUSED.editors[0].flights[0], ConflictReply);
    assert Without(l.ed.flights, 0) == [];
    assert Fail(At(REFUSED, 0), 0, ConflictReply).ed == SELF_CONFLICT.editors[0];
  }

  /**
   The flush that was asked for mid-flight starts before the row is rendered with the new version, is
   refused, and the row reports a change "elsewhere" although nobody else wrote anything.
   */
  lemma OwnWriteConflicts() returns (q: Row)
    ensures Reaches(q) && |q.editors| == 1 && q.editors[0].status == Conflict
    ensures forall v :: 1 <= v < |q.writers| ==> q.writers[v] == ByEditor(0)
  {
    TickSent();
    AskAgain();
    Then(TICK_SENT, Type(0, EOBI, NO), UNTICKED);
    Then(UNTICKED, SaveTimer(0), ASKED);
    EndInConflict();
    q := SELF_CONFLICT;
  }

  lemma EndInConflict()
    requires Reaches(ASKED)
    ensures Reaches(SELF_CONFLICT)
  {
    ServeTick();
    Then(ASKED, Process(0, 0, Apply(0)), TICK_SERVED);
    AnswerTick();
    Then(TICK_SERVED, Answer(0, 0), RESENT);
    RefuseUntick();
    Then(RESENT, Process(0, 0, Refuse(ConflictReply)), REFUSED);
    Then(REFUSED, Answer(0, 0), SELF_CONFLICT);
  }

  lemma RecommitStarts(l: Local, f: Flight, v: nat)
    requires l.ed.flights == [f] && f.Flush? && f.next + 1 == |f.patches| && l.ed.pending
    ensures var ed := Succeed(l, 0, v).ed;
            ed.flights != [] ==>
              && |ed.flights| == 1 && ed.flights[0].Flush? && ed.flights[0].patches != [] && ed.flights[0].next == 0
              && ed.flights[0].version == l.ed.seen.version && ed.flights[0].wire == InTransit
              && ed.flights[0].patches == Patches(ed.draft, l.ed.seen.content.lines)
  {
    var l1 := CloseFlush(Acknowledge(l, f));
    assert Without(l1.ed.flights, 0) == [];
  }

  /** A flush that starts now sends only to lines the row shows. */
  lemma FirstPatchListed(draft: Draft, lines: seq<LineId>)
    requires Distinct(lines) && Patches(draft, lines) != []
    ensures var t := Patches(draft, lines)[0].target; t.LineTarget? ==> t.id in lines
  {
    PatchesShape(draft, lines);
  }

  lemma AnswerKeepsHistory(r: Row, i: nat)
    requires Enabled(r, Answer(i, 0)) && r.editors[i].flights[0].wire.Applied?
    ensures var q := Next(r, Answer(i, 0));
            && q.history == r.history && i < |q.editors|
            && q.editors[i] == Succeed(At(r, i), 0, r.editors[i].flights[0].wire.version).ed
  {
  }

  /** A flush that starts from a snapshot can be accepted exactly if the snapshot is current and no unit clashes. */
  lemma FirstRequestIff(q: Row, seen: Snapshot, f: Flight)
    requires q.history != [] && IsSnapshot(q.history, seen) && f.Flush? && f.next == 0 < |f.patches|
    requires f.wire == InTransit && f.version == seen.version
    requires var t := f.patches[0].target; t.LineTarget? ==> t.id in seen.content.lines
    ensures var current, op := seen.version == Version(q), PatchOp(f.patches[0]);
            && ((exists newId :: CanProcess(q, f, Apply(newId))) <==> current && !Collides(q.history[Version(q)], op))
            && (CanProcess(q, f, Refuse(ConflictReply)) <==> !current || NamesUnit(op))
  {
    if seen.version == Version(q) && !Collides(q.history[Version(q)], PatchOp(f.patches[0])) {
      assert CanProcess(q, f, Apply(0));
    }
  }

  lemma RecommitFacts(r: Row, i: nat)
    requires RowOk(r) && HasFlight(r, i, 0)
    ensures r.history != [] && IsSnapshot(r.history, r.editors[i].seen) && Distinct(r.editors[i].seen.content.lines)
    ensures r.editors[i].flights == [r.editors[i].flights[0]]
  {
    assert EditorOk(r.history, r.writers, i, r.editors[i]);
  }

  lemma RecommittedFlight(r: Row, i: nat, q: Row, f: Flight)
    requires Enabled(r, Answer(i, 0)) && IsPatchAck(r, Answer(i, 0)) && q == Next(r, Answer(i, 0))
    requires var ed := r.editors[i];
             && ed.flights == [ed.flights[0]] && ed.pending && ed.flights[0].next + 1 == |ed.flights[0].patches|
             && Distinct(ed.seen.content.lines)
    requires q.editors[i].flights == [f]
    ensures q.history == r.history && f.Flush? && f.next == 0 < |f.patches| && f.wire == InTransit
    ensures f.version == r.editors[i].seen.version
    ensures var t := f.patches[0].target; t.LineTarget? ==> t.id in r.editors[i].seen.content.lines
  {
    var ed := r.editors[i];
    AnswerKeepsHistory(r, i);
    RecommitStarts(At(r, i), ed.flights[0], ed.flights[0].wire.version);
    FirstPatchListed(q.editors[i].draft, ed.seen.content.lines);
  }

  /**
   The flush that was asked for mid-flight starts in the very turn that acknowledges the last request. Its first
   request can be accepted if and only if the row was already rendered with the server's current version and the
   request gives no line the unit of another one. It can meet a conflict if and only if the row was not, or the
   request gives a line a unit, which another line may have and which may have been deleted.
   */
  lemma RecommitIsAcceptedIff(r: Row, i: nat, q: Row, f: Flight)
    requires RowOk(r) && Enabled(r, Answer(i, 0)) && IsPatchAck(r, Answer(i, 0)) && q == Next(r, Answer(i, 0))
    requires var ed := r.editors[i]; ed.pending && ed.flights[0].next + 1 == |ed.flights[0].patches|
    requires q.editors[i].flights == [f]
    ensures f.Flush? && f.next == 0 < |f.patches| && q.history == r.history != []
    ensures var current, op := r.editors[i].seen.version == Version(q), PatchOp(f.patches[0]);
            && ((exists newId :: CanProcess(q, f, Apply(newId))) <==> current && !Collides(q.history[Version(q)], op))
            && (CanProcess(q, f, Refuse(ConflictReply)) <==> !current || NamesUnit(op))
  {
    RecommitFacts(r, i);
    RecommittedFlight(r, i, q, f);
    FirstRequestIff(q, r.editors[i].seen, f);
  }

  // ---------------------------------------------------------------- two lines exchange a unit

  const UNIT1 := LineKey(1, UnitId)
  const UNIT2 := LineKey(2, UnitId)

  function TwoUnits(a: string, b: string): Content {
    Content(map[UNIT1 := Text(a), UNIT2 := Text(b)], [1, 2], false, false)
  }

  function LoadedUnits(a: string, b: string): Row {
    Row([TwoUnits(a, b)], [Foreign], Snapshot(0, TwoUnits(a, b)), [], [], None)
  }

  /** The second line was moved to a free unit, then the first line to the unit the second one leaves. */
  function Moved(a: string, b: string, c: string): Editor {
    NewEditor(LoadedUnits(a, b).cache).(draft := map[UNIT2 := Text(c), UNIT1 := Text(b)],
                                        typed := map[UNIT2 := Text(c), UNIT1 := Text(b)],
                                        status := Dirty, saveTimer := true)
  }

  function MovedRow(a: string, b: string, c: string): Row {
    LoadedUnits(a, b).(editors := [Moved(a, b, c)], record := Some(Dirty))
  }

  function MovePatches(b: string, c: string): seq<Patch> {
    [Patch(LineTarget(1), map[UNIT1 := Text(b)]), Patch(LineTarget(2), map[UNIT2 := Text(c)])]
  }

  function MoveFlight(b: string, c: string): Flight {
    var ps := MovePatches(b, c);
    Flush(ps, 0, 0, ClearFor(ps[0], map[UNIT2 := Text(c), UNIT1 := Text(b)]), InTransit, 0, Union(ps))
  }

  function MovingRow(a: string, b: string, c: string): Row {
    MovedRow(a, b, c).(editors := [Moved(a, b, c).(saveTimer := false, saving := true, status := Saving,
                                                   flights := [MoveFlight(b, c)])], record := Some(Saving))
  }

  lemma MovedIsSent(b: string, c: string)
    ensures Patches(map[UNIT2 := Text(c), UNIT1 := Text(b)], [1, 2]) == MovePatches(b, c)
  {
    var draft: Draft := map[UNIT2 := Text(c), UNIT1 := Text(b)];
    PatchesOfThree(draft);
    assert FieldsFor(draft, EntryTarget) == map[];
    assert FieldsFor(draft, LineTarget(1)) == map[UNIT1 := Text(b)] && UNIT1 in FieldsFor(draft, LineTarget(1));
    assert FieldsFor(draft, LineTarget(2)) == map[UNIT2 := Text(c)] && UNIT2 in FieldsFor(draft, LineTarget(2));
  }

  /** Typing a value that the cell produces. */
  lemma Typed(r: Row, k: Key, v: Value, q: Row)
    requires Reaches(r) && |r.editors| == 1 && Enabled(r, Type(0, k, v)) && CellValue(k, v)
    requires q == Put(r, 0, Edit(At(r, 0), k, v))
    ensures Reaches(q)
  {
    Then(r, Type(0, k, v), q);
  }

  function FirstMove(a: string, b: string, c: string): Row {
    var r := LoadedUnits(a, b);
    r.(editors := [NewEditor(r.cache).(draft := map[UNIT2 := Text(c)], typed := map[UNIT2 := Text(c)],
                                       status := Dirty, saveTimer := true)], record := Some(Dirty))
  }

  lemma FirstUnitTyped(a: string, b: string, c: string)
    requires IsUuid(c)
    ensures Reaches(FirstMove(a, b, c))
  {
    var r := LoadedUnits(a, b);
    StartsLoaded(r);
    var mounted := r.(editors := [NewEditor(r.cache)]);
    Then(r, Mount, mounted);
    assert Edit(At(mounted, 0), UNIT2, Text(c)).ed == FirstMove(a, b, c).editors[0];
    Typed(mounted, UNIT2, Text(c), FirstMove(a, b, c));
  }

  lemma UnitsTyped(a: string, b: string, c: string)
    requires IsUuid(b) && IsUuid(c)
    ensures Reaches(MovedRow(a, b, c))
  {
    FirstUnitTyped(a, b, c);
    assert Edit(At(FirstMove(a, b, c), 0), UNIT1, Text(b)).ed == Moved(a, b, c);
    Typed(FirstMove(a, b, c), UNIT1, Text(b), MovedRow(a, b, c));
  }

  lemma MoveIsSent(a: string, b: string, c: string)
    ensures Step(MovedRow(a, b, c), SaveTimer(0), MovingRow(a, b, c))
  {
    MovedIsSent(b, c);
    TimerSends(At(MovedRow(a, b, c), 0), MovePatches(b, c));
  }

  /** The server refuses the only request of the only editor. */
  lemma RefusedInConflict(s: Row)
    requires |s.editors| == 1 && |s.editors[0].flights| == 1 && s.editors[0].flights[0].Flush? && !s.editors[0].pending
    requires Enabled(s, Process(0, 0, Refuse(ConflictReply)))
    ensures var p := Next(s, Process(0, 0, Refuse(ConflictReply)));
            Enabled(p, Answer(0, 0)) && var q := Next(p, Answer(0, 0));
            && |q.editors| == 1 && q.editors[0].status == Conflict && q.editors[0].draft == s.editors[0].draft
            && q.history == s.history && q.writers == s.writers && q.cache == s.cache
  {
    var p := Next(s, Process(0, 0, Refuse(ConflictReply)));
    var l := CloseFailed(At(p, 0), p.editors[0].flights[0], ConflictReply);
    assert Finish(l, 0).ed == l.ed.(saving := false, flights := Without(l.ed.flights, 0));
  }

  /**
   The line that is sent first gets the unit the other line still has on the server: a conflict at the current
   version, though nobody else ever wrote anything.
   */
  lemma MovingAUnitConflicts(a: string, b: string, c: string) returns (q: Row)
    requires IsUuid(b) && IsUuid(c)
    ensures Reaches(q) && |q.editors| == 1 && q.editors[0].status == Conflict
    ensures q.editors[0].draft == map[UNIT2 := Text(c), UNIT1 := Text(b)]
    ensures q.history == [TwoUnits(a, b)] && q.cache == Snapshot(0, TwoUnits(a, b))
    ensures Collides(TwoUnits(a, b), PatchOp(MovePatches(b, c)[0]))
  {
    UnitsTyped(a, b, c);
    MoveIsSent(a, b, c);
    Then(MovedRow(a, b, c), SaveTimer(0), MovingRow(a, b, c));
    var s := MovingRow(a, b, c);
    assert TwoUnits(a, b).lines[1] == 2 && HoldsUnit(TwoUnits(a, b), 2, Text(b));
    assert Collides(TwoUnits(a, b), PatchOp(MovePatches(b, c)[0]));
    RefusedInConflict(s);
    var p := Next(s, Process(0, 0, Refuse(ConflictReply)));
    Then(s, Process(0, 0, Refuse(ConflictReply)), p);
    q := Next(p, Answer(0, 0));
    Then(p, Answer(0, 0), q);
  }

  // ---------------------------------------------------------------- two editors of one entry

  const SCROLLED := TICKED.(editors := [TICKED_EDITOR.(mounted := false), NewEditor(LOADED.cache)])

  function Newer(f: Flight): Editor {
    TICK_SENT.editors[0].(flights := [f])
  }

  const OLD := TICKED_EDITOR.(mounted := false)
  const BOTH_DIRTY := SCROLLED.(editors := [OLD, TICKED_EDITOR])
  const NEWER_SENT := SCROLLED.(editors := [OLD, Newer(TickFlush(YES, InTransit))], record := Some(Saving))
  const NEWER_SERVED := NEWER_SENT.(history := [CONTENT, FIRST], writers := [Foreign, ByEditor(1)],
                                    editors := [OLD, Newer(TickFlush(YES, Applied(1)))])
  const SAVED_NEWER := Newer(TickFlush(YES, InTransit)).(draft := map[], acked := map[EOBI := YES], status := Saved,
                                                         saving := false, flights := [])
  const FORGOTTEN := NEWER_SERVED.(cache := Snapshot(1, FIRST), record := None,
                                   editors := [OLD, SAVED_NEWER])

  lemma ScrollAwayAndBack()
    requires Reaches(TICKED)
    ensures Reaches(BOTH_DIRTY)
  {
    var away := TICKED.(editors := [OLD]);
    Then(TICKED, Unmount(0), away);
    Then(away, Mount, SCROLLED);
    assert Edit(At(SCROLLED, 1), EOBI, YES).ed == TICKED_EDITOR;
    Then(SCROLLED, Type(1, EOBI, YES), BOTH_DIRTY);
  }

  lemma NewerSends()
    ensures Step(BOTH_DIRTY, SaveTimer(1), NEWER_SENT)
  {
    SendTick();
    assert At(BOTH_DIRTY, 1) == At(TICKED, 0);
  }

  lemma NewerServed()
    ensures Step(NEWER_SENT, Process(1, 0, Apply(0)), NEWER_SERVED)
  {
    assert StoredAll(map[EOBI := YES]) == map[EOBI := YES];
    assert Effect(CONTENT, PatchOp(Patch(EntryTarget, map[EOBI := YES])), 0) == FIRST;
    assert SetWire(NEWER_SENT.editors[1], 0, Applied(1)) == NEWER_SERVED.editors[1];
  }

  lemma NewerSaved()
    ensures Step(NEWER_SERVED, Answer(1, 0), FORGOTTEN)
  {
    var l := At(NEWER_SERVED, 1);
    assert Cleared(map[EOBI := YES], map[EOBI := YES]) == map[];
    LastAck(l, l.ed.flights[0], 1);
    assert map[] + map[EOBI := YES] == map[EOBI := YES];
  }

  /** A row scrolled away and back has two editors; the newer one's save removes the record of both. */
  lemma SecondEditorHidesTheFirst() returns (q: Row)
    ensures Reaches(q) && q.record == None && !Guarded(q)
    ensures |q.editors| == 2 && q.editors[0].draft == map[EOBI := YES] && q.editors[0].status == Dirty
  {
    TickedReached();
    ScrollAwayAndBack();
    SaveTheNewer();
    q := FORGOTTEN;
    assert q.editors[0] == OLD && EOBI in OLD.draft;
  }

  lemma SaveTheNewer()
    requires Reaches(BOTH_DIRTY)
    ensures Reaches(FORGOTTEN)
  {
    NewerSends();
    Then(BOTH_DIRTY, SaveTimer(1), NEWER_SENT);
    NewerServed();
    Then(NEWER_SENT, Process(1, 0, Apply(0)), NEWER_SERVED);
    NewerSaved();
    Then(NEWER_SERVED, Answer(1, 0), FORGOTTEN);
  }

  const FRESH := NewEditor(LOADED.cache)
  const IN_CONFLICT := FRESH.(status := Conflict, seenStatus := Conflict)

  function Dropping(w: Transit): Editor {
    FRESH.(status := Saving, saving := true, flights := [Structural(DeleteOp(2), 0, w)])
  }

  lemma DroppingStarts(s: Row, x: Editor)
    requires s.editors == [x, FRESH]
    ensures Step(s, ChangeLines(1, DeleteOp(2)), s.(editors := [x, Dropping(InTransit)], record := Some(Saving)))
  {
    assert DropLine(map[], 2) == map[];
    assert StartStructural(At(s, 1), DeleteOp(2)) == Local(Dropping(InTransit), Some(Saving));
  }

  lemma DroppingIsRefused(s: Row, x: Editor)
    requires s.editors == [x, Dropping(InTransit)] && |s.history| == 2
    ensures Step(s, Process(1, 0, Refuse(ConflictReply)), s.(editors := [x, Dropping(Refused(ConflictReply))]))
  {
    assert SetWire(Dropping(InTransit), 0, Refused(ConflictReply)) == Dropping(Refused(ConflictReply));
  }

  lemma DroppingFails(s: Row, x: Editor)
    requires s.editors == [x, Dropping(Refused(ConflictReply))]
    ensures Step(s, Answer(1, 0), s.(editors := [x, FRESH.(status := Conflict)], record := Some(Conflict)))
  {
    var l := CloseFailed(At(s, 1), s.editors[1].flights[0], ConflictReply);
    assert Without(l.ed.flights, 0) == [];
    assert Fail(At(s, 1), 0, ConflictReply) == Local(FRESH.(status := Conflict), Some(Conflict));
  }

  /** A newer editor without a draft removes a line, meets a newer version, and shows the conflict. */
  lemma NewerInConflict(s: Row, x: Editor)
    requires Reaches(s) && s.editors == [x, FRESH] && |s.history| == 2 && s.cache == LOADED.cache
    ensures Reaches(s.(editors := [x, IN_CONFLICT], record := Some(Conflict)))
  {
    DroppingStarts(s, x);
    var s1 := s.(editors := [x, Dropping(InTransit)], record := Some(Saving));
    Then(s, ChangeLines(1, DeleteOp(2)), s1);
    DroppingIsRefused(s1, x);
    var s2 := s1.(editors := [x, Dropping(Refused(ConflictReply))]);
    Then(s1, Process(1, 0, Refuse(ConflictReply)), s2);
    DroppingFails(s2, x);
    var s3 := s2.(editors := [x, FRESH.(status := Conflict)], record := Some(Conflict));
    Then(s2, Answer(1, 0), s3);
    Then(s3, RenderRow(1), s3.(editors := [x, IN_CONFLICT]));
  }

  const CHANGED_ELSEWHERE := SCROLLED.(history := [CONTENT, ONE_LINE_LEFT], writers := [Foreign, Foreign])

  lemma ScrolledReached()
    ensures Reaches(SCROLLED)
  {
    TickedReached();
    Then(TICKED, Unmount(0), TICKED.(editors := [OLD]));
    Then(TICKED.(editors := [OLD]), Mount, SCROLLED);
  }

  /** Reloading the newer row removes the record while the older editor is dirty. */
  lemma ReloadHidesTheOther() returns (q: Row)
    ensures Reaches(q) && q.record == None && !Guarded(q)
    ensures |q.editors| == 2 && q.editors[0].draft == map[EOBI := YES] && q.editors[0].status == Dirty
  {
    ScrolledReached();
    Then(SCROLLED, ForeignWrite(ONE_LINE_LEFT), CHANGED_ELSEWHERE);
    NewerInConflict(CHANGED_ELSEWHERE, OLD);
    var s := CHANGED_ELSEWHERE.(editors := [OLD, IN_CONFLICT], record := Some(Conflict));
    q := s.(editors := [OLD, Reload(At(s, 1)).ed], record := None);
    Then(s, ClickReload(1), q);
    assert EOBI in q.editors[0].draft;
  }

  function Leaving(w: Transit): Editor {
    TICK_SENT.editors[0].(mounted := false, flights := [TickFlush(YES, w)])
  }

  const LEFT_SAVING := TICK_SENT.(editors := [Leaving(InTransit), FRESH])
  const LEFT_SERVED := LEFT_SAVING.(history := [CONTENT, FIRST], writers := [Foreign, ByEditor(0)],
                                    editors := [Leaving(Applied(1)), FRESH])
  const NEWER_CONFLICTS := LEFT_SERVED.(editors := [Leaving(Applied(1)), IN_CONFLICT], record := Some(Conflict))
  const LEFT := Leaving(InTransit).(draft := map[], acked := map[EOBI := YES], status := Saved, saving := false,
                                    flights := [])
  const LEFT_SAVED := NEWER_CONFLICTS.(cache := Snapshot(1, FIRST), editors := [LEFT, IN_CONFLICT], record := None)

  lemma TickSent()
    ensures Reaches(TICK_SENT)
  {
    TickedReached();
    SendTick();
    Then(TICKED, SaveTimer(0), TICK_SENT);
  }

  lemma LeftWhileSaving()
    ensures Reaches(LEFT_SAVING)
  {
    TickSent();
    var away := TICK_SENT.(editors := [Leaving(InTransit)]);
    Then(TICK_SENT, Unmount(0), away);
    Then(away, Mount, LEFT_SAVING);
  }

  lemma LeavingIsServed()
    ensures Enabled(LEFT_SAVING, Process(0, 0, Apply(0))) && Plausible(LEFT_SAVING, Process(0, 0, Apply(0)))
    ensures Version(LEFT_SAVING) == 0 && LEFT_SAVING.history[0] == CONTENT
    ensures OpOf(LEFT_SAVING.editors[0].flights[0]) == PatchOp(TwoPatches()[0])
  {
  }

  lemma LeftServedRow()
    ensures LEFT_SERVED == LEFT_SAVING.(history := [CONTENT] + [FIRST], writers := [Foreign] + [ByEditor(0)],
                                        editors := [SetWire(Leaving(InTransit), 0, Applied(1)), FRESH])
  {
    assert [CONTENT] + [FIRST] == [CONTENT, FIRST] && [Foreign] + [ByEditor(0)] == [Foreign, ByEditor(0)];
    assert SetWire(Leaving(InTransit), 0, Applied(1)) == Leaving(Applied(1));
  }

  lemma LeftServed()
    ensures Reaches(LEFT_SERVED)
  {
    LeftWhileSaving();
    FirstEffect();
    LeavingIsServed();
    LeftServedRow();
    ServeGives(LEFT_SAVING, FIRST, LEFT_SERVED);
    Then(LEFT_SAVING, Process(0, 0, Apply(0)), LEFT_SERVED);
  }

  lemma LeftIsSaved()
    ensures Step(NEWER_CONFLICTS, Answer(0, 0), LEFT_SAVED)
  {
    var l := At(NEWER_CONFLICTS, 0);
    assert Cleared(map[EOBI := YES], map[EOBI := YES]) == map[];
    assert map[] + map[EOBI := YES] == map[EOBI := YES];
    LastAck(l, TickFlush(YES, Applied(1)), 1);
    AnswerGives(NEWER_CONFLICTS, 1, Local(LEFT, None), LEFT_SAVED);
  }

  lemma LeftSavedReached()
    ensures Reaches(LEFT_SAVED)
  {
    LeftServed();
    NewerInConflict(LEFT_SERVED, Leaving(Applied(1)));
    LeftIsSaved();
    Then(NEWER_CONFLICTS, Answer(0, 0), LEFT_SAVED);
  }

  /** A row in conflict whose record another editor removed: what is typed into it is recorded nowhere. */
  lemma TypingInConflictIsUnrecorded() returns (q: Row)
    ensures Reaches(q) && q.record == None && !Guarded(q)
    ensures |q.editors| == 2 && q.editors[1].status == Conflict && q.editors[1].draft == map[EOBI := NO]
  {
    LeftSavedReached();
    var l := Edit(At(LEFT_SAVED, 1), EOBI, NO);
    q := LEFT_SAVED.(editors := [LEFT, l.ed]);
    Then(LEFT_SAVED, Type(1, EOBI, NO), q);
    assert l.ed.draft == map[EOBI := NO] && EOBI in l.ed.draft;
    assert !Quiet(q.editors[1]);
  }

  // ---------------------------------------------------------------- reload during a flush

  /**
   `reload` gives up the gate although a flush may be on its way, so called then it lets the next save start
   a second one. The row only offers it in conflict, when no request is under way.
   */
  lemma ReloadMidFlightLetsASecondFlushStart(l: Local, k: Key, v: Value)
    requires |l.ed.flights| == 1 && Distinct(l.ed.seen.content.lines)
    requires Listed(k, l.ed.seen.content.lines) && Wire(k, v).Some?
    ensures |SaveTimerFires(Edit(Reload(l), k, v)).ed.flights| == 2
  {
    var draft: Draft := map[k := v];
    assert Edit(Reload(l), k, v).ed.draft == draft;
    PatchesAreTheSendablePart(draft, l.ed.seen.content.lines);
    assert k in SendablePart(draft, l.ed.seen.content.lines);
  }

  // ---------------------------------------------------------------- a release of an entry nobody listed

  /** An entry with one work line at the unit, on hold or not. */
  function AtUnit(unitId: string, hold: bool): Content {
    Content(map[EntryKey(Hold) := Flag(hold), LineKey(1, UnitId) := Text(unitId)], [1], false, false)
  }

  function LoadedHeld(unitId: string): Row {
    Row([AtUnit(unitId, true)], [Foreign], Snapshot(0, AtUnit(unitId, true)), [], [], None)
  }

  function HoldLifted(unitId: string): Row {
    LoadedHeld(unitId).(history := [AtUnit(unitId, true), AtUnit(unitId, false)], writers := [Foreign, Foreign])
  }

  lemma HoldLiftedElsewhere(unitId: string)
    ensures SafelyReachable(HoldLifted(unitId))
  {
    var r, acts := LoadedHeld(unitId), [ForeignWrite(AtUnit(unitId, false))];
    assert acts[1..] == [];
    assert Next(r, acts[0]) == HoldLifted(unitId);
    assert Init(r) && Valid(r, acts) && AllSafe(r, acts);
    assert Run(r, acts) == HoldLifted(unitId);
  }

  /** Somebody else lifts a hold: the release lists nothing, is accepted, and resolves an entry cached as held. */
  lemma LiftedHoldIsSwept(id: EntryId, unitId: string)
    ensures var rows: Cycle, ids := map[id := HoldLifted(unitId)], [id];
            && NothingPending(rows, ids)
            && ReleaseAccepted(rows, unitId, ExpectedVersionsForUnit(CachedList(rows, ids), unitId))
            && !SweptAsCached(rows, ids, unitId)
  {
    HoldLiftedElsewhere(unitId);
    var rows: Cycle, ids := map[id := HoldLifted(unitId)], [id];
    var entries := CachedList(rows, ids);
    forall x ensures x !in ExpectedVersionsForUnit(entries, unitId) {
      ListsExactlyTheCandidates(entries, unitId, x);
    }
    var lifted := AtUnit(unitId, false);
    assert lifted.lines[0] == 1 && lifted.fields[LineKey(1, UnitId)] in LineValues(lifted, UnitId);
    assert IsCandidate(Current(rows[ids[0]]), unitId);
  }

  /** An entry created after the list was fetched: nothing names it, and the release resolves it unseen. */
  lemma NewEntryIsSwept(id: EntryId, unitId: string)
    ensures var c := AtUnit(unitId, false);
            var rows: Cycle := map[id := Row([c], [Foreign], Snapshot(0, c), [], [], None)];
            && NothingPending(rows, [])
            && ReleaseAccepted(rows, unitId, ExpectedVersionsForUnit(CachedList(rows, []), unitId))
            && !SweptAsCached(rows, [], unitId)
  {
    var c := AtUnit(unitId, false);
    var rows: Cycle := map[id := Row([c], [Foreign], Snapshot(0, c), [], [], None)];
    assert c.lines[0] == 1 && c.fields[LineKey(1, UnitId)] in LineValues(c, UnitId);
    assert id in rows && IsCandidate(Current(rows[id]), unitId);
  }

  // ---------------------------------------------------------------- a line that comes back

  const RATE := LineKey(2, OtRate)
  const BLANK := Text("")

  const RATED_EDITOR := NewEditor(LOADED.cache).(draft := map[RATE := BLANK], typed := map[RATE := BLANK],
                                                 status := Dirty, saveTimer := true)
  const RATED := LOADED.(editors := [RATED_EDITOR], record := Some(Dirty))
  const READ_BEFORE := RATED.(fetches := [LOADED.cache])
  const LINE_GONE := READ_BEFORE.(history := [CONTENT, ONE_LINE_LEFT], writers := [Foreign, Foreign])
  const READ_AFTER := LINE_GONE.(fetches := [LOADED.cache, Snapshot(1, ONE_LINE_LEFT)])
  const AFTER_ARRIVED := READ_AFTER.(cache := Snapshot(1, ONE_LINE_LEFT), fetches := [LOADED.cache])
  const NARROW_EDITOR := RATED_EDITOR.(seen := Snapshot(1, ONE_LINE_LEFT), seenStatus := Dirty)
  const NARROW := AFTER_ARRIVED.(editors := [NARROW_EDITOR])
  const TIMER_SPENT := NARROW.(editors := [NARROW_EDITOR.(saveTimer := false)])
  const BEFORE_ARRIVED := TIMER_SPENT.(cache := LOADED.cache, fetches := [])
  const ASLEEP := BEFORE_ARRIVED.(editors := [RATED_EDITOR.(saveTimer := false, seenStatus := Dirty)])

  /** A blank rate is a complete value: it means that the rate is worked out. */
  lemma BlankRateIsSendable()
    ensures Wire(RATE, BLANK) == Some(BLANK) && CellValue(RATE, BLANK)
    ensures HasWork(map[RATE := BLANK], [1, 2]) && !HasWork(map[RATE := BLANK], [1])
  {
    var draft: Draft := map[RATE := BLANK];
    PatchesAreTheSendablePart(draft, [1, 2]);
    PatchesAreTheSendablePart(draft, [1]);
    assert RATE in SendablePart(draft, [1, 2]);
    assert SendablePart(draft, [1]) == map[];
  }

  lemma RateTyped()
    ensures Reaches(RATED)
  {
    StartsLoaded(LOADED);
    Then(LOADED, Mount, MOUNTED);
    BlankRateIsSendable();
    assert Edit(At(MOUNTED, 0), RATE, BLANK).ed == RATED_EDITOR;
    Then(MOUNTED, Type(0, RATE, BLANK), RATED);
  }

  lemma LineRemovedElsewhere()
    requires Reaches(RATED)
    ensures Reaches(LINE_GONE)
  {
    Then(RATED, FetchRead, READ_BEFORE);
    Then(READ_BEFORE, ForeignWrite(ONE_LINE_LEFT), LINE_GONE);
  }

  lemma NewerReadFirst()
    requires Reaches(LINE_GONE)
    ensures Reaches(AFTER_ARRIVED)
  {
    Then(LINE_GONE, FetchRead, READ_AFTER);
    assert Without(READ_AFTER.fetches, 1) == [LOADED.cache];
    Then(READ_AFTER, FetchArrive(1), AFTER_ARRIVED);
  }

  lemma TimerFindsNothing()
    requires Reaches(AFTER_ARRIVED)
    ensures Reaches(TIMER_SPENT)
  {
    Then(AFTER_ARRIVED, RenderRow(0), NARROW);
    BlankRateIsSendable();
    assert SaveTimerFires(At(NARROW, 0)).ed == NARROW_EDITOR.(saveTimer := false);
    Then(NARROW, SaveTimer(0), TIMER_SPENT);
  }

  lemma OlderReadLast()
    requires Reaches(TIMER_SPENT)
    ensures Reaches(ASLEEP)
  {
    assert Without(TIMER_SPENT.fetches, 0) == [];
    Then(TIMER_SPENT, FetchArrive(0), BEFORE_ARRIVED);
    Then(BEFORE_ARRIVED, RenderRow(0), ASLEEP);
  }

  lemma AsleepReached()
    ensures Reaches(ASLEEP)
  {
    RateTyped();
    LineRemovedElsewhere();
    NewerReadFirst();
    TimerFindsNothing();
    OlderReadLast();
  }

  /**
   A line with a draft is removed elsewhere; the row is rendered without it when the save timer fires, and with
   it again when an older response arrives late. The draft is sendable again, and nothing will send it.
   */
  lemma ReturnedLineSleeps() returns (q: Row)
    ensures Reaches(q) && |q.editors| == 1 && q.editors[0].draft == map[RATE := BLANK]
    ensures q.editors[0].seen == q.cache && HasWork(q.editors[0].draft, q.cache.content.lines) && !Awake(q.editors[0])
  {
    AsleepReached();
    BlankRateIsSendable();
    q := ASLEEP;
  }
}
