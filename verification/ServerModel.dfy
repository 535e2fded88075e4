/**
 The server's side of one payroll entry: its versioned content and what an accepted write does to it.
 Every write is guarded by `WHERE id = … AND version = …` and increments the version, so the content
 is a history indexed by version.
 */
module ServerModel {
  import opened Sequences
  import opened NumericText
  import opened Drafts

  /** What one version of an entry holds. `resolved` stands for a payout outcome that is not null. */
  datatype Content = Content(fields: map<Key, Value>, lines: seq<LineId>, released: bool, resolved: bool)

  /** An entry as some response carried it. */
  datatype Snapshot = Snapshot(version: nat, content: Content)

  /** Who wrote a version: one of this tab's editors of the entry, or anybody else. */
  datatype Writer = Foreign | ByEditor(editor: nat)

  /** The value the request schema turns a sent value into before it is stored. */
  function Stored(k: Key, v: Value): Value {
    if !v.Text? then v
    else if v.s == "" && (IsNullable(k) || k == EntryKey(Remarks)) then Null
    else if IsDecimal(k) || k == EntryKey(Remarks) then Text(Trim(v.s))
    else v
  }

  function StoredAll(m: map<Key, Value>): map<Key, Value> {
    map k | k in m :: Stored(k, m[k])
  }

  /** One write of a set of fields. */
  function Overlay(c: Content, m: map<Key, Value>): Content {
    c.(fields := c.fields + StoredAll(m))
  }

  /** The writes of several requests, one after the other. */
  function ApplyAll(c: Content, ps: seq<Patch>): Content {
    if ps == [] then c else Overlay(ApplyAll(c, ps[..|ps| - 1]), ps[|ps| - 1].fields)
  }

  /** A request to write: a PATCH of fields, a new work line, or the removal of one. */
  datatype Op = PatchOp(patch: Patch) | AddOp(line: map<LineField, Value>) | DeleteOp(id: LineId)

  function DropLine(draft: map<Key, Value>, id: LineId): map<Key, Value> {
    map k | k in draft && TargetOf(k) != LineTarget(id) :: draft[k]
  }

  /** What the server requires besides the version: the work line exists, and it is not the last one. */
  predicate Admissible(c: Content, op: Op, newId: LineId) {
    match op
    case PatchOp(p) => p.target.LineTarget? ==> p.target.id in c.lines
    case AddOp(_) => newId !in c.lines
    case DeleteOp(id) => id in c.lines && |c.lines| > 1
  }

  predicate HoldsUnit(c: Content, line: LineId, unit: Value) {
    LineKey(line, UnitId) in c.fields && c.fields[LineKey(line, UnitId)] == unit
  }

  /** The write gives a work line a unit: it changes the unit of a line, or adds a line with one. */
  predicate NamesUnit(op: Op) {
    match op
    case PatchOp(p) => p.target.LineTarget? && LineKey(p.target.id, UnitId) in p.fields
    case AddOp(line) => UnitId in line
    case DeleteOp(_) => false
  }

  /** The unit is that of another line: the database allows each unit once per entry. */
  predicate Collides(c: Content, op: Op) {
    NamesUnit(op) &&
    match op
    case PatchOp(p) =>
      var unit := p.fields[LineKey(p.target.id, UnitId)];
      exists other :: other in c.lines && other != p.target.id && HoldsUnit(c, other, unit)
    case AddOp(line) => exists other :: other in c.lines && HoldsUnit(c, other, line[UnitId])
    case DeleteOp(_) => false
  }

  /** The content after an accepted write; `newId` is the identity the server gives a new line. */
  function Effect(c: Content, op: Op, newId: LineId): Content {
    match op
    case PatchOp(p) => Overlay(c, p.fields)
    case AddOp(line) =>
      var given := map k | k in (set f | f in line :: LineKey(newId, f)) :: line[k.lf];
      var defaults := map[LineKey(newId, Days) := Text("0"), LineKey(newId, OtHours) := Text("0"),
                          LineKey(newId, OtRate) := Null, LineKey(newId, CycleDays) := Number(30)];
      Content(c.fields + defaults + StoredAll(given), c.lines + [newId], c.released, c.resolved)
    case DeleteOp(id) => Content(DropLine(c.fields, id), Remove(c.lines, id), c.released, c.resolved)
  }

  predicate IsSnapshot(history: seq<Content>, s: Snapshot) {
    s.version < |history| && history[s.version] == s.content
  }

  // ---------------------------------------------------------------- properties

  lemma OverlayTwice(c: Content, a: map<Key, Value>, b: map<Key, Value>)
    ensures Overlay(Overlay(c, a), b) == Overlay(c, a + b)
  {
    assert c.fields + StoredAll(a) + StoredAll(b) == c.fields + StoredAll(a + b);
  }

  /** A chain of requests writes what one request with all their fields would write. */
  lemma {:induction false} ApplyAllIsOneWrite(c: Content, ps: seq<Patch>)
    ensures ApplyAll(c, ps) == Overlay(c, Union(ps))
  {
    if ps == [] {
      assert c.fields + StoredAll(map[]) == c.fields;
    } else {
      var init := ps[..|ps| - 1];
      ApplyAllIsOneWrite(c, init);
      OverlayTwice(c, Union(init), ps[|ps| - 1].fields);
    }
  }

  /** Fields other than those of the line are the same. */
  ghost predicate SameElsewhere(c: Content, after: Content, line: LineId) {
    forall k :: TargetOf(k) != LineTarget(line) ==>
      (k in after.fields <==> k in c.fields) && (k in c.fields ==> after.fields[k] == c.fields[k])
  }

  /** A new line is the last one, and has what the request gives. */
  lemma AddedLine(c: Content, line: map<LineField, Value>, newId: LineId, f: LineField)
    ensures var after := Effect(c, AddOp(line), newId);
            && after.lines == c.lines + [newId] && after.released == c.released && after.resolved == c.resolved
            && (f in line ==>
                  var k := LineKey(newId, f); k in after.fields && after.fields[k] == Stored(k, line[f]))
  {
    var given := map k | k in (set g | g in line :: LineKey(newId, g)) :: line[k.lf];
    if f in line { assert LineKey(newId, f) in StoredAll(given); }
  }

  /** Nothing else changes. */
  lemma AddedLineOnly(c: Content, line: map<LineField, Value>, newId: LineId)
    ensures SameElsewhere(c, Effect(c, AddOp(line), newId), newId)
  {
  }

  /** What the request does not give has the service's default. */
  lemma AddedLineDefaults(c: Content, line: map<LineField, Value>, newId: LineId, f: LineField)
    requires f !in line && f != UnitId
    ensures var after := Effect(c, AddOp(line), newId);
            && LineKey(newId, f) in after.fields
            && after.fields[LineKey(newId, f)]
               == match f { case OtRate => Null case CycleDays => Number(30) case _ => Text("0") }
  {
    var given := map k | k in (set g | g in line :: LineKey(newId, g)) :: line[k.lf];
    assert LineKey(newId, f) !in StoredAll(given);
  }

  /** A removed line is gone with its fields, and nothing else is. */
  lemma RemovedLine(c: Content, id: LineId, newId: LineId)
    ensures var after := Effect(c, DeleteOp(id), newId);
            && (forall k :: k in after.fields ==> TargetOf(k) != LineTarget(id))
            && (forall x :: x in after.lines <==> x in c.lines && x != id)
            && after.released == c.released && after.resolved == c.resolved && SameElsewhere(c, after, id)
  {
    RemoveMembers(c.lines, id);
  }

  lemma EffectKeepsDistinct(c: Content, op: Op, newId: LineId)
    requires Distinct(c.lines) && Admissible(c, op, newId)
    ensures Distinct(Effect(c, op, newId).lines)
  {
    if op.DeleteOp? { RemoveMembers(c.lines, op.id); }
  }
}
