/**
 Draft overlays of one payroll entry: which fields a row can edit, when a typed value may be sent,
 and how the sendable part of a draft is cut into PATCH requests.

 A draft is one map from keys to typed values. The entry draft is the part with `EntryKey` keys,
 the draft of a work line is the part with its `LineKey` keys.
 */
module Drafts {
  import opened Options
  import opened Sequences
  import opened NumericText

  /** Identities are UUIDs; only their equality matters. */
  type EntryId = nat
  type CycleId = nat
  type LineId = nat

  datatype EntryField =
    | Allowance | LeaveDays | LeaveRate | EobiAmount | EobiApplicable
    | AdvanceDeduction | EidAdvanceDeduction | Fine | Hold | Remarks | SortOrder

  datatype LineField = UnitId | Days | OtHours | OtRate | CycleDays

  /** A JavaScript value a field can hold: the kinds the input cells produce. */
  datatype Value = Text(s: string) | Null | Flag(b: bool) | Number(n: int)

  /** What one request changes: the entry's own fields, or the fields of one work line. */
  datatype Target = EntryTarget | LineTarget(id: LineId)

  datatype Key = EntryKey(ef: EntryField) | LineKey(line: LineId, lf: LineField)

  type Draft = map<Key, Value>

  function TargetOf(k: Key): Target {
    match k
    case EntryKey(_) => EntryTarget
    case LineKey(line, _) => LineTarget(line)
  }

  predicate IsCycleDays(k: Key) {
    k.LineKey? && k.lf == CycleDays
  }

  // ---------------------------------------------------------------- what may be sent

  predicate IsEntryDecimal(f: EntryField) {
    !(f.EobiApplicable? || f.Hold? || f.Remarks? || f.SortOrder?)
  }

  predicate IsNullable(k: Key) {
    k == EntryKey(LeaveRate) || (k.LineKey? && k.lf == OtRate)
  }

  predicate IsDecimal(k: Key) {
    match k
    case EntryKey(f) => IsEntryDecimal(f)
    case LineKey(_, f) => f.Days? || f.OtHours? || f.OtRate?
  }

  /** The value a typed value is sent as; None while it is incomplete and has to stay in the draft. */
  function Wire(k: Key, v: Value): (r: Option<Value>)
    ensures r.Some? && !IsCycleDays(k) ==> r.value == v
  {
    if IsCycleDays(k) then
      if v.Text? then
        match ParseValidCycleDays(v.s)
        case Some(n) => Some(Number(n))
        case None => None
      else None
    else if IsDecimal(k) && v.Text? && !IsValidDecimalDraft(v.s, IsNullable(k)) then None
    else Some(v)
  }

  /** What Cycle Days is sent as: the number of days its text means, and nothing while it means none. */
  lemma WireOfCycleDays(k: Key, v: Value)
    requires IsCycleDays(k)
    ensures forall w :: Wire(k, v) == Some(w) <==> v.Text? && w.Number? && MeansDays(v.s, w.n)
  {
    forall w ensures Wire(k, v) == Some(w) <==> v.Text? && w.Number? && MeansDays(v.s, w.n) {
      if v.Text? && w.Number? { ParseIsInverseOfPrint(v.s, w.n); }
    }
  }

  datatype Patch = Patch(target: Target, fields: map<Key, Value>)

  /** The payload for one target: every key of that target whose typed value may be sent. */
  function FieldsFor(draft: Draft, t: Target): map<Key, Value> {
    map k | k in draft && TargetOf(k) == t && Wire(k, draft[k]).Some? :: Wire(k, draft[k]).value
  }

  /** One PATCH per target that has something to send, in the order of the targets. */
  function PatchesFor(draft: Draft, targets: seq<Target>): seq<Patch> {
    if targets == [] then []
    else
      var rest := PatchesFor(draft, targets[1..]);
      var fields := FieldsFor(draft, targets[0]);
      if fields == map[] then rest else [Patch(targets[0], fields)] + rest
  }

  /** The entry first, then its work lines in their own order. */
  function Targets(lines: seq<LineId>): (ts: seq<Target>)
    ensures |ts| == |lines| + 1
  {
    [EntryTarget] + seq(|lines|, i requires 0 <= i < |lines| => LineTarget(lines[i]))
  }

  function Patches(draft: Draft, lines: seq<LineId>): seq<Patch> {
    PatchesFor(draft, Targets(lines))
  }

  predicate Listed(k: Key, lines: seq<LineId>) {
    k.EntryKey? || k.line in lines
  }

  predicate Sendable(draft: Draft, lines: seq<LineId>, k: Key) {
    k in draft && Listed(k, lines) && Wire(k, draft[k]).Some?
  }

  /** Everything a flush started now would send. */
  function SendablePart(draft: Draft, lines: seq<LineId>): map<Key, Value> {
    map k | k in draft && Sendable(draft, lines, k) :: Wire(k, draft[k]).value
  }

  /** Removes every key that still holds exactly the value that was sent. */
  function Cleared(draft: Draft, sent: map<Key, Value>): Draft {
    map k | k in draft && !(k in sent && sent[k] == draft[k]) :: draft[k]
  }

  // ---------------------------------------------------------------- properties of the cut

  predicate DistinctTargets(ps: seq<Patch>) {
    forall i, j :: 0 <= i < j < |ps| ==> ps[i].target != ps[j].target
  }

  /** All payloads together. */
  function Union(ps: seq<Patch>): map<Key, Value> {
    if ps == [] then map[] else Union(ps[..|ps| - 1]) + ps[|ps| - 1].fields
  }

  /** A payload of one target. Only Cycle Days is sent as something else than what was typed. */
  predicate WellFormed(p: Patch) {
    && p.fields != map[]
    && forall k :: k in p.fields ==>
         TargetOf(k) == p.target && (!IsCycleDays(k) ==> Wire(k, p.fields[k]) == Some(p.fields[k]))
  }

  predicate AllWellFormed(ps: seq<Patch>) {
    forall j :: 0 <= j < |ps| ==> WellFormed(ps[j])
  }

  lemma PayloadWellFormed(draft: Draft, t: Target)
    requires FieldsFor(draft, t) != map[]
    ensures WellFormed(Patch(t, FieldsFor(draft, t)))
  {
  }

  lemma {:induction false} PatchesForTargets(draft: Draft, targets: seq<Target>)
    ensures var ps := PatchesFor(draft, targets);
            && AllWellFormed(ps)
            && (forall j :: 0 <= j < |ps| ==> ps[j].target in targets && ps[j].fields == FieldsFor(draft, ps[j].target))
  {
    if targets != [] {
      PatchesForTargets(draft, targets[1..]);
      if FieldsFor(draft, targets[0]) != map[] { PayloadWellFormed(draft, targets[0]); }
    }
  }

  lemma {:induction false} PatchesForDistinct(draft: Draft, targets: seq<Target>)
    requires Distinct(targets)
    ensures DistinctTargets(PatchesFor(draft, targets))
  {
    if targets != [] {
      PatchesForDistinct(draft, targets[1..]);
      PatchesForTargets(draft, targets[1..]);
      assert targets[0] !in targets[1..];
    }
  }

  lemma {:induction false} PatchesForComplete(draft: Draft, targets: seq<Target>, t: Target)
    requires t in targets && FieldsFor(draft, t) != map[]
    ensures exists j :: 0 <= j < |PatchesFor(draft, targets)| && PatchesFor(draft, targets)[j].target == t
  {
    var rest := PatchesFor(draft, targets[1..]);
    var ps := PatchesFor(draft, targets);
    if t == targets[0] {
      assert ps[0].target == t;
    } else {
      PatchesForComplete(draft, targets[1..], t);
      var j :| 0 <= j < |rest| && rest[j].target == t;
      assert ps[if FieldsFor(draft, targets[0]) == map[] then j else j + 1].target == t;
    }
  }

  lemma PatchHasPosition(draft: Draft, targets: seq<Target>, b: nat) returns (y: nat)
    requires b < |PatchesFor(draft, targets)|
    ensures y < |targets| && PatchesFor(draft, targets)[b].target == targets[y]
  {
    PatchesForTargets(draft, targets);
    y :| y < |targets| && targets[y] == PatchesFor(draft, targets)[b].target;
  }

  lemma {:induction false} PatchPositions(draft: Draft, targets: seq<Target>, a: nat, b: nat) returns (x: nat, y: nat)
    requires a < b < |PatchesFor(draft, targets)|
    ensures x < y < |targets|
    ensures PatchesFor(draft, targets)[a].target == targets[x] && PatchesFor(draft, targets)[b].target == targets[y]
  {
    if FieldsFor(draft, targets[0]) == map[] {
      x, y := PatchPositions(draft, targets[1..], a, b);
      x, y := x + 1, y + 1;
    } else if a == 0 {
      y := PatchHasPosition(draft, targets[1..], b - 1);
      x, y := 0, y + 1;
    } else {
      x, y := PatchPositions(draft, targets[1..], a - 1, b - 1);
      x, y := x + 1, y + 1;
    }
  }

  /** The requests of a flush go out in the row's order: the entry first, then its lines as the row has them. */
  lemma PatchesInOrder(draft: Draft, lines: seq<LineId>, a: nat, b: nat) returns (x: nat, y: nat)
    requires Distinct(lines) && a < b < |Patches(draft, lines)|
    ensures var ps := Patches(draft, lines);
            && y < |lines| && ps[b].target == LineTarget(lines[y])
            && (ps[a].target == EntryTarget || (x < y && ps[a].target == LineTarget(lines[x])))
  {
    x, y := PatchPositions(draft, Targets(lines), a, b);
    assert Targets(lines)[y] == LineTarget(lines[y - 1]);
    if x > 0 { assert Targets(lines)[x] == LineTarget(lines[x - 1]); x, y := x - 1, y - 1; } else { y := y - 1; }
  }

  lemma TargetsDistinct(lines: seq<LineId>)
    requires Distinct(lines)
    ensures Distinct(Targets(lines))
    ensures forall t :: t in Targets(lines) <==> t == EntryTarget || t.id in lines
  {
    var ts := Targets(lines);
    assert forall i :: 0 <= i < |lines| ==> ts[i + 1] == LineTarget(lines[i]);
    forall t ensures t in ts <==> t == EntryTarget || t.id in lines {
      if t in ts {
        var i :| 0 <= i < |ts| && ts[i] == t;
        if i > 0 { assert t == LineTarget(lines[i - 1]); }
      }
      if t.LineTarget? && t.id in lines {
        var i :| 0 <= i < |lines| && lines[i] == t.id;
        assert ts[i + 1] == t;
      }
      if t == EntryTarget { assert ts[0] == t; }
    }
  }

  lemma {:induction false} UnionMember(ps: seq<Patch>, k: Key)
    ensures k in Union(ps) <==> exists j :: 0 <= j < |ps| && k in ps[j].fields
  {
    if ps != [] {
      var init := ps[..|ps| - 1];
      UnionMember(init, k);
      if k in Union(init) {
        var j :| 0 <= j < |init| && k in init[j].fields;
        assert ps[j] == init[j];
      }
      if exists j :: 0 <= j < |ps| && k in ps[j].fields {
        var j :| 0 <= j < |ps| && k in ps[j].fields;
        if j < |ps| - 1 { assert init[j] == ps[j]; }
      }
    }
  }

  lemma {:induction false} UnionValue(ps: seq<Patch>, j: nat, k: Key)
    requires j < |ps| && k in ps[j].fields
    requires DistinctTargets(ps) && AllWellFormed(ps)
    ensures k in Union(ps) && Union(ps)[k] == ps[j].fields[k]
  {
    if j < |ps| - 1 {
      var init := ps[..|ps| - 1];
      assert init[j] == ps[j];
      UnionValue(init, j, k);
      assert ps[|ps| - 1].target != ps[j].target;
    }
  }

  lemma PatchesShape(draft: Draft, lines: seq<LineId>)
    requires Distinct(lines)
    ensures var ps := Patches(draft, lines);
            && DistinctTargets(ps) && AllWellFormed(ps)
            && (forall j :: 0 <= j < |ps| ==> ps[j].fields == FieldsFor(draft, ps[j].target)
                                              && (ps[j].target.LineTarget? ==> ps[j].target.id in lines))
  {
    TargetsDistinct(lines);
    PatchesForTargets(draft, Targets(lines));
    PatchesForDistinct(draft, Targets(lines));
  }

  lemma PatchOfTarget(draft: Draft, lines: seq<LineId>, t: Target)
    requires Distinct(lines) && FieldsFor(draft, t) != map[] && (t.LineTarget? ==> t.id in lines)
    ensures Patch(t, FieldsFor(draft, t)) in Patches(draft, lines)
  {
    TargetsDistinct(lines);
    PatchesForComplete(draft, Targets(lines), t);
    PatchesForTargets(draft, Targets(lines));
    var ps := Patches(draft, lines);
    var j :| 0 <= j < |ps| && ps[j].target == t;
    assert ps[j] == Patch(t, FieldsFor(draft, t));
  }

  lemma UnionIsSendable(draft: Draft, lines: seq<LineId>, k: Key)
    requires Distinct(lines) && k in Union(Patches(draft, lines))
    ensures k in SendablePart(draft, lines) && Union(Patches(draft, lines))[k] == SendablePart(draft, lines)[k]
  {
    var ps := Patches(draft, lines);
    PatchesShape(draft, lines);
    UnionMember(ps, k);
    var j :| 0 <= j < |ps| && k in ps[j].fields;
    UnionValue(ps, j, k);
  }

  lemma SendableInUnion(draft: Draft, lines: seq<LineId>, k: Key)
    requires Distinct(lines) && k in SendablePart(draft, lines)
    ensures k in Union(Patches(draft, lines))
  {
    var ps := Patches(draft, lines);
    var t := TargetOf(k);
    assert k in FieldsFor(draft, t);
    TargetsDistinct(lines);
    PatchesForComplete(draft, Targets(lines), t);
    var j :| 0 <= j < |ps| && ps[j].target == t;
    PatchesShape(draft, lines);
    assert k in ps[j].fields;
    UnionMember(ps, k);
  }

  lemma UnionSendable(draft: Draft, lines: seq<LineId>, k: Key)
    requires Distinct(lines)
    ensures var u, s := Union(Patches(draft, lines)), SendablePart(draft, lines);
            (k in u <==> k in s) && (k in u ==> u[k] == s[k])
  {
    if k in Union(Patches(draft, lines)) { UnionIsSendable(draft, lines, k); }
    if k in SendablePart(draft, lines) { SendableInUnion(draft, lines, k); }
  }

  /** A flush sends exactly the sendable part of the draft, each key once, grouped by target. */
  lemma PatchesAreTheSendablePart(draft: Draft, lines: seq<LineId>)
    requires Distinct(lines)
    ensures var ps := Patches(draft, lines);
            && DistinctTargets(ps) && AllWellFormed(ps)
            && Union(ps) == SendablePart(draft, lines)
            && (ps == [] <==> SendablePart(draft, lines) == map[])
  {
    var ps := Patches(draft, lines);
    PatchesShape(draft, lines);
    forall k
      ensures k in Union(ps) <==> k in SendablePart(draft, lines)
      ensures k in Union(ps) ==> Union(ps)[k] == SendablePart(draft, lines)[k]
    {
      UnionSendable(draft, lines, k);
    }
    assert Union(ps) == SendablePart(draft, lines);
    if ps != [] {
      assert WellFormed(ps[0]) && ps[0].fields.Keys != {};
      var k :| k in ps[0].fields.Keys;
      UnionMember(ps, k);
    }
  }
}
