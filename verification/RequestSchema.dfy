/**
 The request schemas the server checks a payload against, and whether the payloads an editor makes can fail
 them. The editor holds back what its own checks reject and counts on the server accepting the rest.
 */
module RequestSchema {
  import opened Options
  import opened Sequences
  import opened NumericText
  import opened Drafts
  import opened ServerModel

  const MAX_REMARKS := 2000

  predicate IsHexDigit(c: char) {
    IsDigit(c) || 'a' <= c <= 'f' || 'A' <= c <= 'F'
  }

  /** Thirty-two hexadecimal digits in groups of 8, 4, 4, 4 and 12. */
  predicate IsUuid(s: string) {
    |s| == 36 && forall i :: 0 <= i < 36 ==> if i in {8, 13, 18, 23} then s[i] == '-' else IsHexDigit(s[i])
  }

  /** The schema a field has, as the shared request schemas list them. */
  datatype Schema = Decimal(nullable: bool) | Boolean | Integer(least: int, most: int) | AnyInteger | Uuid | Note

  function EntrySchema(f: EntryField): Schema {
    match f
    case Allowance => Decimal(false)
    case LeaveDays => Decimal(false)
    case LeaveRate => Decimal(true)
    case EobiAmount => Decimal(false)
    case EobiApplicable => Boolean
    case AdvanceDeduction => Decimal(false)
    case EidAdvanceDeduction => Decimal(false)
    case Fine => Decimal(false)
    case Hold => Boolean
    case Remarks => Note
    case SortOrder => AnyInteger
  }

  function SchemaOf(k: Key): Schema {
    match k
    case EntryKey(f) => EntrySchema(f)
    case LineKey(_, f) =>
      match f
      case UnitId => Uuid
      case Days => Decimal(false)
      case OtHours => Decimal(false)
      case OtRate => Decimal(true)
      case CycleDays => Integer(1, 31)
  }

  /** What a schema lets pass, after an empty text of a nullable field was turned into null. */
  predicate Accepts(k: Key, v: Value) {
    match SchemaOf(k)
    case Decimal(nullable) => (v.Text? && IsDecimalString(Trim(v.s))) || (nullable && (v.Null? || v == Text("")))
    case Boolean => v.Flag?
    case Integer(least, most) => v.Number? && least <= v.n <= most
    case AnyInteger => v.Number?
    case Uuid => v.Text? && IsUuid(v.s)
    case Note => v.Null? || (v.Text? && |Trim(v.s)| <= MAX_REMARKS)
  }

  predicate PatchAccepted(p: Patch) {
    forall k :: k in p.fields ==> Accepts(k, p.fields[k])
  }

  /** The kind of value the cell of a field produces; a unit is picked from a list of existing ones. */
  predicate CellValue(k: Key, v: Value) {
    match SchemaOf(k)
    case Decimal(nullable) => v.Text? || (v.Null? && nullable)
    case Boolean => v.Flag?
    case Integer(_, _) => v.Text?
    case AnyInteger => v.Number?
    case Uuid => v.Text? && IsUuid(v.s)
    case Note => v.Text? || v.Null?
  }

  predicate TooLong(k: Key, v: Value) {
    k == EntryKey(Remarks) && v.Text? && |Trim(v.s)| > MAX_REMARKS
  }

  lemma TrimmedEmpty()
    ensures Trim("") == ""
  {
  }

  lemma NoEmptyDecimal()
    ensures !IsDecimalString("")
  {
  }

  /** What the editor sends for a field is accepted unless it is an overlong note. */
  lemma WireIsAcceptedIff(k: Key, v: Value)
    requires CellValue(k, v) && Wire(k, v).Some?
    ensures Accepts(k, Wire(k, v).value) <==> !TooLong(k, v)
  {
    TrimmedEmpty();
    NoEmptyDecimal();
  }

  /** What it holds back, apart from an overlong note, the server would have rejected. */
  lemma HeldBackIsRejected(k: Key, v: Value)
    requires CellValue(k, v) && !IsCycleDays(k) && Wire(k, v) == None
    ensures !Accepts(k, v)
  {
    TrimmedEmpty();
    NoEmptyDecimal();
  }

  /**
   A whole flush passes the schemas exactly if its draft holds no overlong note: nothing but the length limit
   of the note's cell stands between the editor and a 400 for its payload, which it never retries.
   */
  lemma FlushIsAcceptedIff(draft: Draft, lines: seq<LineId>)
    requires Distinct(lines)
    requires forall k :: k in draft ==> CellValue(k, draft[k])
    ensures (forall j :: 0 <= j < |Patches(draft, lines)| ==> PatchAccepted(Patches(draft, lines)[j])) <==>
            (forall k :: k in draft ==> !TooLong(k, draft[k]))
  {
    var ps := Patches(draft, lines);
    PatchesShape(draft, lines);
    if forall k :: k in draft ==> !TooLong(k, draft[k]) {
      forall j | 0 <= j < |ps| ensures PatchAccepted(ps[j]) {
        forall k | k in ps[j].fields ensures Accepts(k, ps[j].fields[k]) {
          WireIsAcceptedIff(k, draft[k]);
        }
      }
    } else {
      OverlongNoteIsSent(draft, lines);
    }
  }

  lemma OverlongNoteIsSent(draft: Draft, lines: seq<LineId>)
    requires Distinct(lines) && EntryKey(Remarks) in draft && TooLong(EntryKey(Remarks), draft[EntryKey(Remarks)])
    ensures exists j :: 0 <= j < |Patches(draft, lines)| && !PatchAccepted(Patches(draft, lines)[j])
  {
    var k := EntryKey(Remarks);
    var p := Patch(EntryTarget, FieldsFor(draft, EntryTarget));
    assert k in p.fields && p.fields[k] == draft[k];
    PatchOfTarget(draft, lines, EntryTarget);
    assert p in Patches(draft, lines) && !Accepts(k, p.fields[k]);
  }

  // ---------------------------------------------------------------- what is stored

  predicate BlankNote(k: Key, v: Value) {
    SchemaOf(k) == Note && v.Text? && v.s != "" && Trim(v.s) == ""
  }

  /**
   What the server stores would be accepted again. Storing it again changes nothing, but for one input: a note of
   nothing but spaces is stored as an empty text, while an empty text is stored as null.
   */
  lemma StoredIsAccepted(k: Key, v: Value)
    requires Accepts(k, v)
    ensures Accepts(k, Stored(k, v))
    ensures Stored(k, Stored(k, v)) == Stored(k, v) <==> !BlankNote(k, v)
  {
    NoEmptyDecimal();
    if v.Text? {
      var front, back := TrimCuts(v.s);
      TrimKeepsTight(Trim(v.s));
    }
  }

  /** A cleared nullable field is stored as null; any other text without the spaces around it, if at all changed. */
  lemma StoredMeans(k: Key, v: Value)
    requires Accepts(k, v)
    ensures !v.Text? ==> Stored(k, v) == v
    ensures v == Text("") ==> Stored(k, v) == Null
    ensures v.Text? && v.s != "" ==> Stored(k, v) == (if SchemaOf(k) == Uuid then v else Text(Trim(v.s)))
  {
  }
}
