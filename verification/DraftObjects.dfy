/**
 The drafts as the editor keeps them: one object of entry fields, and one object of fields per work line.
 The loops over these objects are proved against the flat draft they stand for.
 */
module DraftObjects {
  import opened NumericText
  import opened Drafts
  import opened ServerModel
  import opened EditorProtocol

  type EntryDraft = map<EntryField, Value>
  type LineDraft = map<LineField, Value>
  type LineDrafts = map<LineId, LineDraft>

  /** A line whose last key is cleared is removed, so no line draft is empty. */
  predicate NoEmptyLine(lineDrafts: LineDrafts) {
    forall id :: id in lineDrafts ==> lineDrafts[id] != map[]
  }

  function KeyedEntry(m: EntryDraft): map<Key, Value> {
    map k | k in (set f | f in m :: EntryKey(f)) :: m[k.ef]
  }

  function KeyedLine(id: LineId, m: LineDraft): map<Key, Value> {
    map k | k in (set f | f in m :: LineKey(id, f)) :: m[k.lf]
  }

  predicate Holds(entryDraft: EntryDraft, lineDrafts: LineDrafts, k: Key) {
    match k
    case EntryKey(f) => f in entryDraft
    case LineKey(id, f) => id in lineDrafts && f in lineDrafts[id]
  }

  function ValueOf(entryDraft: EntryDraft, lineDrafts: LineDrafts, k: Key): Value
    requires Holds(entryDraft, lineDrafts, k)
  {
    match k
    case EntryKey(f) => entryDraft[f]
    case LineKey(id, f) => lineDrafts[id][f]
  }

  function HeldKeys(entryDraft: EntryDraft, lineDrafts: LineDrafts): set<Key> {
    (set f | f in entryDraft :: EntryKey(f)) + (set id, f | id in lineDrafts && f in lineDrafts[id] :: LineKey(id, f))
  }

  /** The one draft both objects stand for. */
  function Flat(entryDraft: EntryDraft, lineDrafts: LineDrafts): Draft {
    map k | k in HeldKeys(entryDraft, lineDrafts) && Holds(entryDraft, lineDrafts, k)
      :: ValueOf(entryDraft, lineDrafts, k)
  }

  lemma FlatHolds(entryDraft: EntryDraft, lineDrafts: LineDrafts)
    ensures forall k :: k in Flat(entryDraft, lineDrafts) <==> Holds(entryDraft, lineDrafts, k)
    ensures forall k :: k in Flat(entryDraft, lineDrafts) ==>
              Flat(entryDraft, lineDrafts)[k] == ValueOf(entryDraft, lineDrafts, k)
  {
    forall k ensures k in HeldKeys(entryDraft, lineDrafts) <==> Holds(entryDraft, lineDrafts, k) {
      match k
      case EntryKey(f) =>
      case LineKey(id, f) =>
    }
  }

  lemma FlatIs(entryDraft: EntryDraft, lineDrafts: LineDrafts, draft: Draft)
    requires forall k :: k in draft <==> Holds(entryDraft, lineDrafts, k)
    requires forall k :: k in draft ==> draft[k] == ValueOf(entryDraft, lineDrafts, k)
    ensures Flat(entryDraft, lineDrafts) == draft
  {
    FlatHolds(entryDraft, lineDrafts);
  }

  /** The test for a remaining draft asks both objects for keys. */
  lemma FlatIsEmptyIff(entryDraft: EntryDraft, lineDrafts: LineDrafts)
    requires NoEmptyLine(lineDrafts)
    ensures Flat(entryDraft, lineDrafts) == map[] <==> entryDraft == map[] && lineDrafts == map[]
  {
    var d := Flat(entryDraft, lineDrafts);
    FlatHolds(entryDraft, lineDrafts);
    if entryDraft != map[] {
      assert entryDraft.Keys != {};
      var f :| f in entryDraft.Keys;
      assert EntryKey(f) in d;
    }
    if lineDrafts != map[] {
      assert lineDrafts.Keys != {};
      var id :| id in lineDrafts.Keys;
      assert lineDrafts[id].Keys != {};
      var f :| f in lineDrafts[id].Keys;
      assert LineKey(id, f) in d;
    }
    if entryDraft == map[] && lineDrafts == map[] {
      assert forall k :: k !in d;
    }
  }

  // ---------------------------------------------------------------- typing

  lemma FlatSetEntry(entryDraft: EntryDraft, lineDrafts: LineDrafts, f: EntryField, v: Value)
    ensures Flat(entryDraft[f := v], lineDrafts) == Flat(entryDraft, lineDrafts)[EntryKey(f) := v]
  {
    FlatHolds(entryDraft, lineDrafts);
    FlatIs(entryDraft[f := v], lineDrafts, Flat(entryDraft, lineDrafts)[EntryKey(f) := v]);
  }

  function LineDraftOf(lineDrafts: LineDrafts, id: LineId): LineDraft {
    if id in lineDrafts then lineDrafts[id] else map[]
  }

  lemma FlatSetLine(entryDraft: EntryDraft, lineDrafts: LineDrafts, id: LineId, f: LineField, v: Value)
    ensures Flat(entryDraft, lineDrafts[id := LineDraftOf(lineDrafts, id)[f := v]])
         == Flat(entryDraft, lineDrafts)[LineKey(id, f) := v]
  {
    FlatHolds(entryDraft, lineDrafts);
    FlatIs(entryDraft, lineDrafts[id := LineDraftOf(lineDrafts, id)[f := v]],
           Flat(entryDraft, lineDrafts)[LineKey(id, f) := v]);
  }

  // ---------------------------------------------------------------- what may be sent

  /** The loop over the entries of the draft: an incomplete number is skipped. */
  method SanitizeEntryDraft(draft: EntryDraft) returns (sendable: EntryDraft)
    ensures forall f :: f in sendable <==> f in draft && Wire(EntryKey(f), draft[f]).Some?
    ensures forall f :: f in sendable ==> sendable[f] == Wire(EntryKey(f), draft[f]).value
  {
    sendable := map[];
    var left := draft.Keys;
    while left != {}
      invariant left <= draft.Keys
      invariant forall f :: f in sendable <==> f in draft && f !in left && Wire(EntryKey(f), draft[f]).Some?
      invariant forall f :: f in sendable ==> sendable[f] == Wire(EntryKey(f), draft[f]).value
      decreases left
    {
      var f :| f in left;
      left := left - {f};
      var value := draft[f];
      if IsEntryDecimal(f) {
        if value.Text? && !IsValidDecimalDraft(value.s, f == LeaveRate) {
          continue;
        }
      }
      sendable := sendable[f := value];
    }
  }

  /** Only a decimal field of a line; a draft value that is not a complete number is skipped. */
  method SanitizeLineDraft(id: LineId, draft: LineDraft) returns (sendable: LineDraft)
    ensures forall f :: f in sendable <==> f in draft && Wire(LineKey(id, f), draft[f]).Some?
    ensures forall f :: f in sendable ==> sendable[f] == Wire(LineKey(id, f), draft[f]).value
    ensures CycleDays in sendable ==>
              && sendable[CycleDays].Number? && draft[CycleDays].Text?
              && MeansDays(draft[CycleDays].s, sendable[CycleDays].n)
    ensures CycleDays in draft && CycleDays !in sendable ==>
              forall n :: draft[CycleDays].Text? ==> !MeansDays(draft[CycleDays].s, n)
  {
    sendable := map[];
    if UnitId in draft { sendable := sendable[UnitId := draft[UnitId]]; }
    var fields := [Days, OtHours, OtRate];
    for i := 0 to |fields|
      invariant forall f :: f in sendable <==>
        f in draft && (f == UnitId || f in fields[..i]) && Wire(LineKey(id, f), draft[f]).Some?
      invariant forall f :: f in sendable ==> sendable[f] == Wire(LineKey(id, f), draft[f]).value
    {
      var f := fields[i];
      assert fields[..i + 1] == fields[..i] + [f];
      if f !in draft { continue; }
      var value := draft[f];
      if value.Text? && !IsValidDecimalDraft(value.s, f == OtRate) { continue; }
      sendable := sendable[f := value];
    }
    assert fields[..3] == fields;
    if CycleDays in draft && draft[CycleDays].Text? {
      var parsed := ParseValidCycleDays(draft[CycleDays].s);
      if parsed.Some? { sendable := sendable[CycleDays := Number(parsed.value)]; }
    }
    if CycleDays in draft { WireOfCycleDays(LineKey(id, CycleDays), draft[CycleDays]); }
  }

  lemma KeyedEntryIsPayload(entryDraft: EntryDraft, lineDrafts: LineDrafts, sendable: EntryDraft)
    requires forall f :: f in sendable <==> f in entryDraft && Wire(EntryKey(f), entryDraft[f]).Some?
    requires forall f :: f in sendable ==> sendable[f] == Wire(EntryKey(f), entryDraft[f]).value
    ensures KeyedEntry(sendable) == FieldsFor(Flat(entryDraft, lineDrafts), EntryTarget)
  {
    FlatHolds(entryDraft, lineDrafts);
  }

  lemma KeyedLineIsPayload(entryDraft: EntryDraft, lineDrafts: LineDrafts, id: LineId, sendable: LineDraft)
    requires id in lineDrafts
    requires forall f :: f in sendable <==> f in lineDrafts[id] && Wire(LineKey(id, f), lineDrafts[id][f]).Some?
    requires forall f :: f in sendable ==> sendable[f] == Wire(LineKey(id, f), lineDrafts[id][f]).value
    ensures KeyedLine(id, sendable) == FieldsFor(Flat(entryDraft, lineDrafts), LineTarget(id))
  {
    FlatHolds(entryDraft, lineDrafts);
  }

  lemma NoLineNoPayload(entryDraft: EntryDraft, lineDrafts: LineDrafts, id: LineId)
    requires id !in lineDrafts
    ensures FieldsFor(Flat(entryDraft, lineDrafts), LineTarget(id)) == map[]
  {
    FlatHolds(entryDraft, lineDrafts);
  }

  lemma {:induction false} PatchesForConcat(draft: Draft, a: seq<Target>, b: seq<Target>)
    ensures PatchesFor(draft, a + b) == PatchesFor(draft, a) + PatchesFor(draft, b)
  {
    if a == [] {
      assert a + b == b;
    } else {
      var fields := FieldsFor(draft, a[0]);
      var first := if fields == map[] then [] else [Patch(a[0], fields)];
      assert (a + b)[1..] == a[1..] + b;
      PatchesForConcat(draft, a[1..], b);
      assert PatchesFor(draft, a + b) == first + (PatchesFor(draft, a[1..]) + PatchesFor(draft, b));
    }
  }

  lemma PatchesForOne(draft: Draft, t: Target)
    ensures PatchesFor(draft, [t]) == if FieldsFor(draft, t) == map[] then [] else [Patch(t, FieldsFor(draft, t))]
  {
    assert PatchesFor(draft, [t][1..]) == [];
  }

  method EntryPatch(entryDraft: EntryDraft, ghost lineDrafts: LineDrafts) returns (patches: seq<Patch>)
    ensures patches == PatchesFor(Flat(entryDraft, lineDrafts), [EntryTarget])
  {
    var sentEntry := SanitizeEntryDraft(entryDraft);
    KeyedEntryIsPayload(entryDraft, lineDrafts, sentEntry);
    PatchesForOne(Flat(entryDraft, lineDrafts), EntryTarget);
    patches := if KeyedEntry(sentEntry) != map[] then [Patch(EntryTarget, KeyedEntry(sentEntry))] else [];
  }

  method LinePatch(ghost entryDraft: EntryDraft, lineDrafts: LineDrafts, id: LineId) returns (patches: seq<Patch>)
    ensures patches == PatchesFor(Flat(entryDraft, lineDrafts), [LineTarget(id)])
  {
    PatchesForOne(Flat(entryDraft, lineDrafts), LineTarget(id));
    if id !in lineDrafts {
      NoLineNoPayload(entryDraft, lineDrafts, id);
      return [];
    }
    var fields := SanitizeLineDraft(id, lineDrafts[id]);
    KeyedLineIsPayload(entryDraft, lineDrafts, id, fields);
    patches := if KeyedLine(id, fields) != map[] then [Patch(LineTarget(id), KeyedLine(id, fields))] else [];
  }

  /** The requests of one flush: the entry's, then one per work line with something to send. */
  method BuildPayload(entryDraft: EntryDraft, lineDrafts: LineDrafts, lines: seq<LineId>) returns (patches: seq<Patch>)
    ensures patches == Patches(Flat(entryDraft, lineDrafts), lines)
  {
    ghost var draft := Flat(entryDraft, lineDrafts);
    patches := EntryPatch(entryDraft, lineDrafts);
    assert Targets(lines)[..1] == [EntryTarget];
    for i := 0 to |lines|
      invariant patches == PatchesFor(draft, Targets(lines)[..i + 1])
    {
      var more := LinePatch(entryDraft, lineDrafts, lines[i]);
      assert Targets(lines)[..i + 2] == Targets(lines)[..i + 1] + [LineTarget(lines[i])];
      PatchesForConcat(draft, Targets(lines)[..i + 1], [LineTarget(lines[i])]);
      patches := patches + more;
    }
    assert Targets(lines)[..|lines| + 1] == Targets(lines);
  }

  // ---------------------------------------------------------------- clearing what was acknowledged

  /** A key leaves the draft if it still holds what was sent. */
  method ClearKeysOfEntry(draft: EntryDraft, sent: map<Key, Value>) returns (next: EntryDraft)
    requires forall k :: k in sent ==> k.EntryKey?
    ensures forall f :: f in next <==> f in draft && !(EntryKey(f) in sent && sent[EntryKey(f)] == draft[f])
    ensures forall f :: f in next ==> next[f] == draft[f]
  {
    next := draft;
    var left := sent.Keys;
    while left != {}
      invariant left <= sent.Keys
      invariant forall f :: f in next <==>
        f in draft && !(EntryKey(f) in sent && EntryKey(f) !in left && sent[EntryKey(f)] == draft[f])
      invariant forall f :: f in next ==> next[f] == draft[f]
      decreases left
    {
      var k :| k in left;
      left := left - {k};
      if k.ef in next && next[k.ef] == sent[k] {
        next := next - {k.ef};
      }
    }
  }

  lemma FlatClearEntry(entryDraft: EntryDraft, lineDrafts: LineDrafts, next: EntryDraft, sent: map<Key, Value>)
    requires forall k :: k in sent ==> k.EntryKey?
    requires forall f :: f in next <==> f in entryDraft && !(EntryKey(f) in sent && sent[EntryKey(f)] == entryDraft[f])
    requires forall f :: f in next ==> next[f] == entryDraft[f]
    ensures Flat(next, lineDrafts) == Cleared(Flat(entryDraft, lineDrafts), sent)
  {
    FlatHolds(entryDraft, lineDrafts);
    FlatIs(next, lineDrafts, Cleared(Flat(entryDraft, lineDrafts), sent));
  }

  method ClearSavedEntryKeys(entryDraft: EntryDraft, ghost lineDrafts: LineDrafts, sent: map<Key, Value>)
    returns (next: EntryDraft)
    requires forall k :: k in sent ==> k.EntryKey?
    ensures Flat(next, lineDrafts) == Cleared(Flat(entryDraft, lineDrafts), sent)
  {
    next := ClearKeysOfEntry(entryDraft, sent);
    FlatClearEntry(entryDraft, lineDrafts, next, sent);
  }

  /** What to clear once a request is acknowledged: what it carries, but for Cycle Days the text typed now. */
  function ClearKeys(p: Patch, lineDrafts: LineDrafts): map<Key, Value> {
    map k | k in p.fields && (IsCycleDays(k) ==> k.line in lineDrafts && k.lf in lineDrafts[k.line])
      :: if IsCycleDays(k) then lineDrafts[k.line][k.lf] else p.fields[k]
  }

  lemma ClearKeysAreClearFor(p: Patch, entryDraft: EntryDraft, lineDrafts: LineDrafts)
    ensures ClearKeys(p, lineDrafts) == ClearFor(p, Flat(entryDraft, lineDrafts))
  {
    FlatHolds(entryDraft, lineDrafts);
  }

  method ClearKeysOfLine(id: LineId, line: LineDraft, sent: map<Key, Value>) returns (next: LineDraft)
    requires forall k :: k in sent ==> k.LineKey? && k.line == id
    ensures forall f :: f in next <==> f in line && !(LineKey(id, f) in sent && sent[LineKey(id, f)] == line[f])
    ensures forall f :: f in next ==> next[f] == line[f]
  {
    next := line;
    var left := sent.Keys;
    while left != {}
      invariant left <= sent.Keys
      invariant forall f :: f in next <==>
        f in line && !(LineKey(id, f) in sent && LineKey(id, f) !in left && sent[LineKey(id, f)] == line[f])
      invariant forall f :: f in next ==> next[f] == line[f]
      decreases left
    {
      var k :| k in left;
      left := left - {k};
      if k.lf in next && next[k.lf] == sent[k] {
        next := next - {k.lf};
      }
    }
  }

  /** A line whose draft becomes empty is removed. */
  function PutLine(lineDrafts: LineDrafts, id: LineId, line: LineDraft): LineDrafts {
    if line == map[] then lineDrafts - {id} else lineDrafts[id := line]
  }

  lemma PutLineHolds(entryDraft: EntryDraft, lineDrafts: LineDrafts, id: LineId, line: LineDraft, k: Key)
    ensures Holds(entryDraft, PutLine(lineDrafts, id, line), k) <==>
            if k.LineKey? && k.line == id then k.lf in line else Holds(entryDraft, lineDrafts, k)
  {
  }

  lemma FlatClearLine(entryDraft: EntryDraft, lineDrafts: LineDrafts, id: LineId, line: LineDraft,
                      sent: map<Key, Value>)
    requires forall k :: k in sent ==> k.LineKey? && k.line == id
    requires id in lineDrafts
    requires forall f :: f in line <==>
               f in lineDrafts[id] && !(LineKey(id, f) in sent && sent[LineKey(id, f)] == lineDrafts[id][f])
    requires forall f :: f in line ==> line[f] == lineDrafts[id][f]
    ensures Flat(entryDraft, PutLine(lineDrafts, id, line)) == Cleared(Flat(entryDraft, lineDrafts), sent)
  {
    var cleared := Cleared(Flat(entryDraft, lineDrafts), sent);
    FlatHolds(entryDraft, lineDrafts);
    forall k
      ensures k in cleared <==> Holds(entryDraft, PutLine(lineDrafts, id, line), k)
      ensures k in cleared ==> cleared[k] == ValueOf(entryDraft, PutLine(lineDrafts, id, line), k)
    {
      PutLineHolds(entryDraft, lineDrafts, id, line, k);
    }
    FlatIs(entryDraft, PutLine(lineDrafts, id, line), cleared);
  }

  method ClearSavedLineKeys(ghost entryDraft: EntryDraft, lineDrafts: LineDrafts, id: LineId, sent: map<Key, Value>)
    returns (next: LineDrafts)
    requires forall k :: k in sent ==> k.LineKey? && k.line == id
    requires NoEmptyLine(lineDrafts)
    ensures Flat(entryDraft, next) == Cleared(Flat(entryDraft, lineDrafts), sent)
    ensures NoEmptyLine(next)
  {
    if id !in lineDrafts {
      NothingToClear(entryDraft, lineDrafts, id, sent);
      return lineDrafts;
    }
    var nextLine := ClearKeysOfLine(id, lineDrafts[id], sent);
    FlatClearLine(entryDraft, lineDrafts, id, nextLine, sent);
    next := PutLine(lineDrafts, id, nextLine);
  }

  lemma NothingToClear(entryDraft: EntryDraft, lineDrafts: LineDrafts, id: LineId, sent: map<Key, Value>)
    requires forall k :: k in sent ==> k.LineKey? && k.line == id
    requires id !in lineDrafts
    ensures Cleared(Flat(entryDraft, lineDrafts), sent) == Flat(entryDraft, lineDrafts)
  {
    FlatHolds(entryDraft, lineDrafts);
  }

  // ---------------------------------------------------------------- removing a line

  lemma FlatDropLine(entryDraft: EntryDraft, lineDrafts: LineDrafts, id: LineId)
    ensures Flat(entryDraft, lineDrafts - {id}) == DropLine(Flat(entryDraft, lineDrafts), id)
  {
    FlatHolds(entryDraft, lineDrafts);
    FlatIs(entryDraft, lineDrafts - {id}, DropLine(Flat(entryDraft, lineDrafts), id));
  }
}
