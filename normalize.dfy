/** The exercise-shape normaliser (`normalizeExercises`): a flat-map that turns each
    exercise-like value into zero or more exercise records. Four rules are tried in
    order: a string, a block (checked before the name), a named object, and
    pass-through. Reading a property of a `null` item, or mapping over a block's
    movement list that is not an array, throws a TypeError; the model returns None
    for the whole list then, as the exception aborts the flat-map. */
module Normalize {

  import opened Wrappers
  import opened Text
  import opened JsValue
  import opened Types

  /** The rule an item falls under. `Unreadable` is a `null` or `undefined` item, whose
      property read throws before any rule applies. */
  datatype Shape = StringForm | Unreadable | BlockForm | NamedForm | OpaqueForm

  /** `ex.Block || ex.block` */
  function BlockName(ex: Value): Value {
    Or(GetOpt(ex, "Block"), GetOpt(ex, "block"))
  }

  /** `ex.Movements || ex.movements || []` */
  function Movements(ex: Value): Value {
    Or(Or(GetOpt(ex, "Movements"), GetOpt(ex, "movements")), Arr([]))
  }

  /** `ex.name || ex.movement` */
  function NameOf(ex: Value): Value {
    Or(GetOpt(ex, "name"), GetOpt(ex, "movement"))
  }

  function Classify(ex: Value): Shape {
    if ex.Str? then StringForm
    else if ex.Null? || ex.Undefined? then Unreadable
    else if Truthy(BlockName(ex)) then BlockForm
    else if Truthy(NameOf(ex)) then NamedForm
    else OpaqueForm
  }

  const StringNotes: string := "Complete as described"

  /** `ex.match(/\d+/)?.[0] + ' min'`: a missing match converts to "undefined". */
  function DurationText(s: string): string {
    (match FirstDigitRun(s) case Some(d) => d case None => "undefined") + " min"
  }

  /** The record rule 1 builds from a string. */
  function StringRecord(s: string): (r: Value)
    ensures r.Obj?
    ensures GetOpt(r, "name") == Str(s)
    ensures GetOpt(r, "duration") == if Contains(s, "minute") then Str(DurationText(s)) else Undefined
    ensures GetOpt(r, "notes") == Str(StringNotes)
    ensures GetOpt(r, "sets") == Undefined && GetOpt(r, "reps") == Undefined
  {
    var props := [
      ("name", Str(s)),
      ("duration", if Contains(s, "minute") then Str(DurationText(s)) else Undefined),
      ("notes", Str(StringNotes))];
    LookupFirst(props, 0);
    LookupFirst(props, 1);
    LookupFirst(props, 2);
    LookupAbsent(props, "sets");
    LookupAbsent(props, "reps");
    Obj(props)
  }

  /** What rule 2 makes of one movement of a block. */
  function BlockEntry(ex: Value, movement: Value): (r: Value)
    ensures movement.Str? ==>
      && r.Obj?
      && GetOpt(r, "name") == movement
      && GetOpt(r, "sets") == Or(GetOpt(ex, "sets"), Str("3"))
      && GetOpt(r, "reps") == Or(GetOpt(ex, "reps"), Str("10"))
      && GetOpt(r, "notes") == Or(Or(GetOpt(ex, "Details"), GetOpt(ex, "details")), BlockName(ex))
      && GetOpt(r, "duration") == Undefined
    ensures !movement.Str? ==> r == movement
  {
    if movement.Str? then
      var props := [
        ("name", movement),
        ("sets", Or(GetOpt(ex, "sets"), Str("3"))),
        ("reps", Or(GetOpt(ex, "reps"), Str("10"))),
        ("notes", Or(Or(GetOpt(ex, "Details"), GetOpt(ex, "details")), BlockName(ex)))];
      LookupFirst(props, 0);
      LookupFirst(props, 1);
      LookupFirst(props, 2);
      LookupFirst(props, 3);
      LookupAbsent(props, "duration");
      Obj(props)
    else movement
  }

  /** The record rule 3 builds. `ex.notes || ex.RPE ? ... : undefined` parses as
      `(ex.notes || ex.RPE) ? ... : undefined`. */
  function NamedNotes(ex: Value): Value {
    if Truthy(Or(GetOpt(ex, "notes"), GetOpt(ex, "RPE")))
    then Str("RPE: " + ToJsString(GetOpt(ex, "RPE")))
    else Undefined
  }

  function NamedRecord(ex: Value): (r: Value)
    ensures r.Obj?
    ensures GetOpt(r, "name") == NameOf(ex)
    ensures GetOpt(r, "sets") == GetOpt(ex, "sets")
    ensures GetOpt(r, "reps") == GetOpt(ex, "reps")
    ensures GetOpt(r, "duration") == GetOpt(ex, "duration")
    ensures GetOpt(r, "notes") == NamedNotes(ex)
  {
    var props := [
      ("name", NameOf(ex)),
      ("sets", GetOpt(ex, "sets")),
      ("reps", GetOpt(ex, "reps")),
      ("duration", GetOpt(ex, "duration")),
      ("notes", NamedNotes(ex))];
    LookupFirst(props, 0);
    LookupFirst(props, 1);
    LookupFirst(props, 2);
    LookupFirst(props, 3);
    LookupFirst(props, 4);
    Obj(props)
  }

  function MapBlock(ex: Value, ms: seq<Value>): (r: seq<Value>)
    ensures |r| == |ms|
    ensures forall i :: 0 <= i < |ms| ==> r[i] == BlockEntry(ex, ms[i])
  {
    if |ms| == 0 then [] else [BlockEntry(ex, ms[0])] + MapBlock(ex, ms[1..])
  }

  /** The expansion of one item, or None when it throws. */
  function NormalizeItem(ex: Value): (r: Option<seq<Value>>)
    ensures r.None? <==> Classify(ex) == Unreadable || (Classify(ex) == BlockForm && !Movements(ex).Arr?)
  {
    match Classify(ex)
    case StringForm => Some([StringRecord(ex.s)])
    case Unreadable => None
    case BlockForm =>
      var ms := Movements(ex);
      if ms.Arr? then Some(MapBlock(ex, ms.items)) else None
    case NamedForm => Some([NamedRecord(ex)])
    case OpaqueForm => Some([ex])
  }

  /** The flat-map over a list of items: None as soon as one item throws. */
  function NormalizeList(items: seq<Value>): (r: Option<seq<Value>>)
    ensures r.Some? <==> forall i :: 0 <= i < |items| ==> NormalizeItem(items[i]).Some?
  {
    if |items| == 0 then Some([])
    else
      match NormalizeItem(items[0])
      case None => None
      case Some(head) =>
        var rest := NormalizeList(items[1..]);
        assert forall i :: 0 < i < |items| ==> items[i] == items[1..][i - 1];
        match rest
        case None => None
        case Some(tail) => Some(head + tail)
  }

  /** `normalizeExercises(v)`: `[]` for anything that is not an array. */
  function NormalizeExercises(v: Value): (r: Option<seq<Value>>)
    ensures !v.Arr? ==> r == Some([])
    ensures v.Arr? ==> r == NormalizeList(v.items)
  {
    if v.Arr? then NormalizeList(v.items) else Some([])
  }

  // ---------------------------------------------------------------- the flat-map laws

  function Combine(a: Option<seq<Value>>, b: Option<seq<Value>>): Option<seq<Value>> {
    if a.Some? && b.Some? then Some(a.value + b.value) else None
  }

  /** One item expands to exactly its own expansion. */
  lemma NormalizeSingle(x: Value)
    ensures NormalizeList([x]) == NormalizeItem(x)
  {
    if NormalizeItem(x).Some? {
      assert NormalizeItem(x).value + [] == NormalizeItem(x).value;
    }
  }

  /** Normalising a concatenation concatenates the normalised parts, in order:
      the normaliser is a homomorphism, so it preserves order and never reorders,
      merges or drops what the items produce. */
  lemma {:induction false} NormalizeAppend(a: seq<Value>, b: seq<Value>)
    ensures NormalizeList(a + b) == Combine(NormalizeList(a), NormalizeList(b))
  {
    if |a| == 0 {
      assert a + b == b;
      if NormalizeList(b).Some? {
        assert [] + NormalizeList(b).value == NormalizeList(b).value;
      }
    } else {
      assert (a + b)[0] == a[0];
      assert (a + b)[1..] == a[1..] + b;
      NormalizeAppend(a[1..], b);
      match NormalizeItem(a[0])
      case None =>
      case Some(head) =>
        if NormalizeList(a[1..]).Some? && NormalizeList(b).Some? {
          assert head + (NormalizeList(a[1..]).value + NormalizeList(b).value)
              == (head + NormalizeList(a[1..]).value) + NormalizeList(b).value;
        }
    }
  }

  // ---------------------------------------------------------------- the four rules

  /** Rule 1: a string yields one record named by the string (even ""), with the
      fixed notes, and a duration only when the text mentions "minute": its first
      digit run followed by " min", or "undefined min" when it has no digits. */
  lemma StringItemRule(s: string)
    ensures NormalizeItem(Str(s)) == Some([StringRecord(s)])
    ensures var r := StringRecord(s);
      && GetOpt(r, "name") == Str(s)
      && GetOpt(r, "notes") == Str("Complete as described")
      && GetOpt(r, "sets") == Undefined && GetOpt(r, "reps") == Undefined
      && (GetOpt(r, "duration") != Undefined <==> Contains(s, "minute"))
      && (Contains(s, "minute") && FirstDigitRun(s).Some? ==>
            GetOpt(r, "duration") == Str(FirstDigitRun(s).value + " min"))
      && (Contains(s, "minute") && FirstDigitRun(s).None? ==>
            GetOpt(r, "duration") == Str("undefined min"))
  {
  }

  /** Rule 2: an item with a truthy `Block` or `block` (tried before its name) yields
      one entry per element of `Movements || movements || []`: a string movement
      becomes a record with the block's sets and reps (default "3" and "10") and the
      block's details (else its name) as notes; any other movement is kept as it is. */
  lemma BlockItemRule(ex: Value)
    requires !ex.Str? && !ex.Null? && !ex.Undefined? && Truthy(BlockName(ex))
    requires Movements(ex).Arr?
    ensures var ms := Movements(ex).items;
      && NormalizeItem(ex).Some?
      && |NormalizeItem(ex).value| == |ms|
      && forall i :: 0 <= i < |ms| ==>
           var e := NormalizeItem(ex).value[i];
           (ms[i].Str? ==>
              && GetOpt(e, "name") == ms[i]
              && GetOpt(e, "sets") == Or(GetOpt(ex, "sets"), Str("3"))
              && GetOpt(e, "reps") == Or(GetOpt(ex, "reps"), Str("10"))
              && GetOpt(e, "notes") == Or(Or(GetOpt(ex, "Details"), GetOpt(ex, "details")), BlockName(ex)))
           && (!ms[i].Str? ==> e == ms[i])
  {
  }

  /** A block whose movement field is truthy but not an array throws (`.map` is not a
      function), and so does a `null` or `undefined` item. */
  lemma ThrowingItems(ex: Value)
    ensures (ex.Null? || ex.Undefined?) ==> NormalizeItem(ex).None?
    ensures !ex.Str? && !ex.Null? && !ex.Undefined? && Truthy(BlockName(ex)) && !Movements(ex).Arr?
            ==> NormalizeItem(ex).None?
  {
  }

  /** Rule 3: an object with a truthy `name` or `movement` and no block marker yields
      one record: that name, `sets`/`reps`/`duration` copied, and notes
      "RPE: <RPE>" whenever `notes` or `RPE` is truthy (so the original notes text is
      replaced), absent otherwise. */
  lemma NamedItemRule(ex: Value)
    requires !ex.Str? && !ex.Null? && !ex.Undefined? && !Truthy(BlockName(ex))
    requires Truthy(GetOpt(ex, "name")) || Truthy(GetOpt(ex, "movement"))
    ensures NormalizeItem(ex) == Some([NamedRecord(ex)])
    ensures var r := NamedRecord(ex);
      && GetOpt(r, "name") == (if Truthy(GetOpt(ex, "name")) then GetOpt(ex, "name") else GetOpt(ex, "movement"))
      && GetOpt(r, "sets") == GetOpt(ex, "sets")
      && GetOpt(r, "reps") == GetOpt(ex, "reps")
      && GetOpt(r, "duration") == GetOpt(ex, "duration")
      && (Truthy(GetOpt(ex, "notes")) || Truthy(GetOpt(ex, "RPE")) ==>
            GetOpt(r, "notes") == Str("RPE: " + ToJsString(GetOpt(ex, "RPE"))))
      && (!Truthy(GetOpt(ex, "notes")) && !Truthy(GetOpt(ex, "RPE")) ==> GetOpt(r, "notes") == Undefined)
  {
  }

  /** Rule 4: anything else that can be read is passed through unchanged. */
  lemma PassThroughRule(ex: Value)
    requires !ex.Str? && !ex.Null? && !ex.Undefined?
    requires !Truthy(BlockName(ex)) && !Truthy(NameOf(ex))
    ensures NormalizeItem(ex) == Some([ex])
  {
  }

  // ---------------------------------------------------------------- declared shape

  /** A string item always yields a record of the declared Exercise shape. */
  lemma StringRecordIsExercise(s: string)
    ensures IsExercise(StringRecord(s))
  {
  }

  /** A named item yields a declared Exercise exactly when the fields it copies have
      the declared types. */
  lemma NamedRecordIsExercise(ex: Value)
    ensures IsExercise(NamedRecord(ex)) <==>
      NameOf(ex).Str? && OptionalString(GetOpt(ex, "sets")) && OptionalString(GetOpt(ex, "reps"))
      && OptionalString(GetOpt(ex, "duration"))
  {
  }

  /** A string record carries no key besides its three. */
  lemma StringRecordKeys(s: string, k: string)
    requires k != "name" && k != "duration" && k != "notes"
    ensures GetOpt(StringRecord(s), k) == Undefined
  {
    LookupAbsent(StringRecord(s).props, k);
  }

  // ---------------------------------------------------------------- worked cases

  const MobilityBlock: Value := Obj([
    ("Block", Str("Mobility")),
    ("Movements", Arr([Str("Hip Circles"), Str("Arm Swings")])),
    ("Details", Str("Go slow"))])

  /** What the block rule reads of the mobility block. */
  lemma MobilityBlockReads()
    ensures Classify(MobilityBlock) == BlockForm
    ensures Movements(MobilityBlock) == Arr([Str("Hip Circles"), Str("Arm Swings")])
    ensures GetOpt(MobilityBlock, "sets") == Undefined && GetOpt(MobilityBlock, "reps") == Undefined
    ensures Or(Or(GetOpt(MobilityBlock, "Details"), GetOpt(MobilityBlock, "details")), BlockName(MobilityBlock))
      == Str("Go slow")
  {
    var props := MobilityBlock.props;
    LookupFirst(props, 0);
    LookupFirst(props, 1);
    LookupFirst(props, 2);
    LookupAbsent(props, "movements");
    LookupAbsent(props, "sets");
    LookupAbsent(props, "reps");
  }

  /** Each string movement of the mobility block becomes a record with sets "3", reps
      "10" and notes "Go slow". */
  lemma MobilityEntry(m: string)
    ensures BlockEntry(MobilityBlock, Str(m))
      == Obj([("name", Str(m)), ("sets", Str("3")), ("reps", Str("10")), ("notes", Str("Go slow"))])
  {
    MobilityBlockReads();
  }

  /** `{Block:"Mobility", Movements:["Hip Circles","Arm Swings"], Details:"Go slow"}`
      yields two records, each with sets "3", reps "10" and notes "Go slow". */
  lemma MobilityBlockExample()
    ensures NormalizeItem(MobilityBlock) == Some([
      Obj([("name", Str("Hip Circles")), ("sets", Str("3")), ("reps", Str("10")), ("notes", Str("Go slow"))]),
      Obj([("name", Str("Arm Swings")), ("sets", Str("3")), ("reps", Str("10")), ("notes", Str("Go slow"))])])
  {
    MobilityBlockReads();
    MobilityEntry("Hip Circles");
    MobilityEntry("Arm Swings");
    var ms := [Str("Hip Circles"), Str("Arm Swings")];
    assert MapBlock(MobilityBlock, ms) == [BlockEntry(MobilityBlock, ms[0]), BlockEntry(MobilityBlock, ms[1])];
  }

  /** A block with no movement list yields nothing: that item disappears from the
      output although the overall input was an array. */
  lemma EmptyBlockIsDropped()
    ensures NormalizeExercises(Arr([Obj([("Block", Str("Mobility"))])])) == Some([])
  {
    var ex := Obj([("Block", Str("Mobility"))]);
    LookupFirst(ex.props, 0);
    LookupAbsent(ex.props, "Movements");
    LookupAbsent(ex.props, "movements");
    assert Classify(ex) == BlockForm;
    NormalizeSingle(ex);
    assert NormalizeItem(ex) == Some([]);
  }

  lemma RowFirstPass()
    ensures NormalizeExercises(Arr([Str("Row")])) == Some([StringRecord("Row")])
  {
    NormalizeSingle(Str("Row"));
  }

  /** The string record of "Row" has a name and no block marker: rule 3 applies to it. */
  lemma RowRecordIsNamed()
    ensures Classify(StringRecord("Row")) == NamedForm
  {
    StringRecordKeys("Row", "Block");
    StringRecordKeys("Row", "block");
  }

  lemma RowSecondPass()
    ensures NormalizeExercises(Arr([StringRecord("Row")])) == Some([NamedRecord(StringRecord("Row"))])
  {
    RowRecordIsNamed();
    NormalizeSingle(StringRecord("Row"));
  }

  /** Rule 3 reads the record's truthy notes and its missing RPE. */
  lemma RowSecondNotes()
    ensures GetOpt(NamedRecord(StringRecord("Row")), "notes") == Str("RPE: undefined")
  {
    var r := StringRecord("Row");
    StringRecordKeys("Row", "RPE");
    assert Truthy(GetOpt(r, "notes"));
    assert NamedNotes(r) == Str("RPE: " + ToJsString(Undefined));
    assert "RPE: " + ToJsString(Undefined) == "RPE: undefined";
  }

  /** Normalising is not idempotent: a string item's notes "Complete as described"
      make the record's second pass go through rule 3, which replaces them by
      "RPE: undefined". */
  lemma RenormalizingRewritesNotes()
    ensures var once := NormalizeExercises(Arr([Str("Row")]));
      && once.Some?
      && var twice := NormalizeExercises(Arr(once.value));
      && twice.Some? && |twice.value| == 1
      && GetOpt(once.value[0], "notes") == Str("Complete as described")
      && GetOpt(twice.value[0], "notes") == Str("RPE: undefined")
  {
    RowFirstPass();
    RowSecondPass();
    RowSecondNotes();
  }
}
