/**
 * The line recognizer and driver of `MtlObject`: a line either starts a new
 * material, is dropped because no material exists yet, is ignored because no
 * keyword matches, or sets one field of the last material when its value lexes.
 *
 * `Step` states what one call of `parseLine` does to the material list;
 * `MtlObject.ParseLine` does it step by step as `parseLine` does, and is
 * proved to agree with `Step`.
 */
module MtlParser {
  import opened Wrappers
  import opened StdString
  import opened NumberConversion
  import opened MtlMaterial
  import opened MtlSchema
  import opened MtlLexer

  /** `MATERIAL_SENINTEL` and `MATERIAL_SENINTEL_LEN`: a six-letter word, but seven characters are skipped. */
  const Sentinel: string := "newmtl"
  const SentinelLen: nat := 7

  /** The contents of the local `floatData`/`intData` buffers after a successful read. */
  datatype Value = FloatValue(f: real) | IntValue(n: Int32) | ColorValue(c: Color)

  function TypeOf(v: Value): ValType
  {
    match v
    case FloatValue(_) => VtFloat
    case IntValue(_) => VtInt
    case ColorValue(_) => Vt3Floats
  }

  /** An exception the `try` block catches: a failed `stof`/`stoi`, or `MtlParseException` for a type the switch cannot read. */
  datatype Failure = ConversionFailed(error: ConversionError) | UnsupportedValueType(valType: ValType)

  /** What no `catch` handles: reading past the end of the line, or `substr` throwing out of `parseLine`. */
  datatype Fault =
    | NewmtlAtEnd   // a line that is exactly `newmtl` after the optional characters
    | ReadAtNpos    // a three-float value with fewer than three space-separated tokens

  /** Which branch of `parseLine` a line took. */
  datatype LineOutcome =
    | Created(name: string)                        // a material was appended
    | Orphaned                                     // no material yet: line skipped
    | Ignored                                      // no keyword matched
    | Committed(key: KeyType)                      // the value was stored
    | NotCommitted(key: KeyType, failure: Failure) // an exception was caught; nothing stored
    | InvalidKeyType(key: KeyType)                 // the commit switch has no case for the key
    | Aborted(fault: Fault)                        // undefined behaviour or an uncaught exception

  /** The line at `pos` starts a new material: `pos == data.find("newmtl", pos)`, which holds exactly when `newmtl` occurs there. */
  function IsBoundary(data: string, pos: nat): (b: bool)
    ensures b <==> OccursAt(data, Sentinel, pos)
  {
    FindAtStartIffOccurs(data, Sentinel, pos);
    Find(data, Sentinel, pos) == Some(pos)
  }

  /**
   * Key `k` matches at `pos`: its name compares equal there and the character
   * at index `|k.keyName|` of the line, counted from the line's start rather than
   * from `pos`, is a space. (The bound on `|k.keyName|` follows from the comparison.)
   */
  function KeyMatches(k: Key, data: string, pos: nat): (b: bool)
    requires pos <= |data|
    ensures b <==> OccursAt(data, k.keyName, pos) && |k.keyName| < |data| && data[|k.keyName|] == ' '
  {
    CompareEqual(data, pos, k.keyName) && |k.keyName| <= |data| && At(data, |k.keyName|) == ' '
  }

  /** The first key at index `i` or later, in table order, that matches at `pos`. */
  function FirstKeyFrom(data: string, pos: nat, i: nat): (r: Option<nat>)
    requires pos <= |data| && i <= |KeyTable()|
    ensures r.Some? ==> i <= r.value < |KeyTable()| && KeyMatches(KeyTable()[r.value], data, pos)
    ensures forall j | i <= j < (if r.Some? then r.value else |KeyTable()|) :: !KeyMatches(KeyTable()[j], data, pos)
    decreases |KeyTable()| - i
  {
    if i == |KeyTable()| then None
    else if KeyMatches(KeyTable()[i], data, pos) then Some(i)
    else FirstKeyFrom(data, pos, i + 1)
  }

  function FirstKey(data: string, pos: nat): (r: Option<nat>)
    requires pos <= |data|
    ensures r.Some? ==> r.value < |KeyTable()| && KeyMatches(KeyTable()[r.value], data, pos)
    ensures forall j | 0 <= j < (if r.Some? then r.value else |KeyTable()|) :: !KeyMatches(KeyTable()[j], data, pos)
  {
    FirstKeyFrom(data, pos, 0)
  }

  /** Key `i` is the first match when it matches and no earlier key does. */
  lemma FirstKeyIs(data: string, pos: nat, i: nat)
    requires pos <= |data| && i < |KeyTable()| && KeyMatches(KeyTable()[i], data, pos)
    requires forall l | 0 <= l < i :: !KeyMatches(KeyTable()[l], data, pos)
    ensures FirstKey(data, pos) == Some(i)
  {
  }

  /** Shape `v` is selected at `pos`: it is unnamed, or its qualifier compares equal there (and is not consumed). */
  function ShapeSelected(v: Val, data: string, pos: nat): (b: bool)
    requires pos <= |data|
    ensures b <==> v.valName.None? || OccursAt(data, v.valName.value, pos)
  {
    if v.valName.None? then true
    else
      CompareEqual(data, pos, v.valName.value)
  }

  /** The first shape at index `j` or later that is selected at `pos`. */
  function FirstShapeFrom(values: seq<Val>, data: string, pos: nat, j: nat): (r: nat)
    requires pos <= |data| && j <= |values|
    requires HasUnnamedShape(values[j..])
    ensures j <= r < |values| && ShapeSelected(values[r], data, pos)
    ensures forall l | j <= l < r :: !ShapeSelected(values[l], data, pos)
    decreases |values| - j
  {
    if ShapeSelected(values[j], data, pos) then j
    else
      assert HasUnnamedShape(values[j + 1..]) by {
        var w :| 0 <= w < |values[j..]| && values[j..][w].valName.None?;
        assert w != 0;
        assert values[j + 1..][w - 1] == values[j..][w];
      }
      FirstShapeFrom(values, data, pos, j + 1)
  }

  function FirstShape(values: seq<Val>, data: string, pos: nat): (r: nat)
    requires pos <= |data| && HasUnnamedShape(values)
    ensures r < |values| && ShapeSelected(values[r], data, pos)
    ensures forall l | 0 <= l < r :: !ShapeSelected(values[l], data, pos)
  {
    assert values[0..] == values;
    FirstShapeFrom(values, data, pos, 0)
  }

  /** The outcome of the lexing switch for one shape. */
  datatype ShapeResult = Read(value: Value) | Threw(failure: Failure) | ReadUndefined

  /** The lexing switch on the shape's value type; the types it has no case for throw. */
  function LexShape(vt: ValType, data: string, pos: nat): (r: ShapeResult)
    requires pos <= |data|
    ensures r.Read? ==> TypeOf(r.value) == vt
    ensures !Lexable(vt) ==> r == Threw(UnsupportedValueType(vt))
    ensures r.ReadUndefined? ==> vt == Vt3Floats
  {
    match vt
    case VtFloat =>
      (match LexFloat(data, pos)
       case Ok((v, _)) => Read(FloatValue(v))
       case Err(e) => Threw(ConversionFailed(e)))
    case Vt3Floats =>
      (match Lex3Floats(data, pos)
       case Lexed(c, _) => Read(ColorValue(c))
       case Caught(e) => Threw(ConversionFailed(e))
       case Undefined => ReadUndefined)
    case VtInt =>
      (match LexInt(data, pos)
       case Ok((n, _)) => Read(IntValue(n))
       case Err(e) => Threw(ConversionFailed(e)))
    case _ => Threw(UnsupportedValueType(vt))
  }

  /** The value fills the buffer the commit case for `kt` reads. */
  predicate Fits(kt: KeyType, v: Value)
  {
    StoredType(kt).None? || StoredType(kt) == Some(TypeOf(v))
  }

  /** The field a key type's commit case writes, as a value; `None` for the key types the switch has no case for. */
  function FieldValue(m: Material, kt: KeyType): (v: Option<Value>)
    ensures v.Some? <==> StoredType(kt).Some?
    ensures v.Some? ==> TypeOf(v.value) == StoredType(kt).value
  {
    match kt
    case KtKa => Some(ColorValue(m.ambientColor))
    case KtKd => Some(ColorValue(m.diffuseColor))
    case KtKs => Some(ColorValue(m.specularColor))
    case KtTf => Some(ColorValue(m.transformFilter))
    case KtIllum => Some(IntValue(m.illumination))
    case KtD => Some(FloatValue(m.dissolve))
    case KtNs => Some(IntValue(m.specularExponent))
    case _ => None
  }

  /** `m2` agrees with `m` on every field except the one the commit case for `kt` writes. */
  predicate SameExceptField(m: Material, m2: Material, kt: KeyType)
  {
    match kt
    case KtKa => m2.(ambientColor := m.ambientColor) == m
    case KtKd => m2.(diffuseColor := m.diffuseColor) == m
    case KtKs => m2.(specularColor := m.specularColor) == m
    case KtTf => m2.(transformFilter := m.transformFilter) == m
    case KtIllum => m2.(illumination := m.illumination) == m
    case KtD => m2.(dissolve := m.dissolve) == m
    case KtNs => m2.(specularExponent := m.specularExponent) == m
    case _ => m2 == m
  }

  /**
   * The commit switch: the material with the key's field set to the value, or
   * `None` for its default branch. Exactly that one field changes.
   */
  function Commit(m: Material, kt: KeyType, v: Value): (r: Option<Material>)
    requires Fits(kt, v)
    ensures r.Some? <==> StoredType(kt).Some?
    ensures r.Some? ==> FieldValue(r.value, kt) == Some(v) && SameExceptField(m, r.value, kt)
  {
    match kt
    case KtKa => Some(m.(ambientColor := v.c))
    case KtKd => Some(m.(diffuseColor := v.c))
    case KtKs => Some(m.(specularColor := v.c))
    case KtTf => Some(m.(transformFilter := v.c))
    case KtIllum => Some(m.(illumination := v.n))
    case KtD => Some(m.(dissolve := v.f))
    case KtNs => Some(m.(specularExponent := v.n))
    case _ => None
  }

  /** The materials with the last one replaced. */
  function ReplaceLast(ms: seq<Material>, m: Material): (r: seq<Material>)
    requires ms != []
    ensures |r| == |ms| && r[..|ms| - 1] == ms[..|ms| - 1] && r[|ms| - 1] == m
  {
    ms[..|ms| - 1] + [m]
  }

  /** What the `try` block and the commit switch do with the outcome of the lexing switch. */
  function ApplyRead(ms: seq<Material>, kt: KeyType, read: ShapeResult): (r: (seq<Material>, LineOutcome))
    requires ms != []
    requires read.Read? ==> Fits(kt, read.value)
    ensures r.1.Committed? <==> read.Read? && StoredType(kt).Some?
    ensures r.1.Aborted? <==> read.ReadUndefined?
    ensures r.1.Committed? ==>
      |r.0| == |ms| && r.0[..|ms| - 1] == ms[..|ms| - 1] && FieldValue(r.0[|ms| - 1], kt) == Some(read.value)
    ensures !r.1.Committed? ==> r.0 == ms
  {
    match read
    case ReadUndefined => (ms, Aborted(ReadAtNpos))
    case Threw(f) => (ms, NotCommitted(kt, f))
    case Read(v) =>
      match Commit(ms[|ms| - 1], kt, v)
      case None => (ms, InvalidKeyType(kt))
      case Some(m) => (ReplaceLast(ms, m), Committed(kt))
  }

  /** Where the value of key `i`, matched at `pos`, starts: after the key name and the optional characters. */
  function ValuePos(data: string, pos: nat, i: nat): (vpos: nat)
    requires pos <= |data| && i < |KeyTable()|
    requires KeyMatches(KeyTable()[i], data, pos)
    ensures pos + |KeyTable()[i].keyName| <= vpos <= |data|
  {
    SkipEnd(data, pos + |KeyTable()[i].keyName|)
  }

  /** The field line that matched key `i` at `pos`, applied to the last of `ms`. */
  function FieldStep(ms: seq<Material>, data: string, pos: nat, i: nat): (r: (seq<Material>, LineOutcome))
    requires ms != [] && pos <= |data| && i < |KeyTable()|
    requires KeyMatches(KeyTable()[i], data, pos)
    ensures var kt := KeyTable()[i].keyType;
      r.1 == Committed(kt) || r.1 == InvalidKeyType(kt) || r.1 == Aborted(ReadAtNpos) || (r.1.NotCommitted? && r.1.key == kt)
    ensures r.1.Committed? ==> |r.0| == |ms| && r.0[..|ms| - 1] == ms[..|ms| - 1]
    ensures !r.1.Committed? ==> r.0 == ms
  {
    var k := KeyTable()[i];
    var vpos := ValuePos(data, pos, i);
    EveryKeyHasUnnamedShape(i);
    var j := FirstShape(k.values, data, vpos);
    var read := LexShape(k.values[j].valType, data, vpos);
    if read.Read? then ShapesFitCommit(i, j); ApplyRead(ms, k.keyType, read)
    else ApplyRead(ms, k.keyType, read)
  }

  /** What `parseLine(data)` does to the material list, and which branch it took. */
  function Step(ms: seq<Material>, data: string): (r: (seq<Material>, LineOutcome))
    ensures r.1.Created? ==> r.0 == ms + [NewMaterial(r.1.name)]
    ensures r.1.Committed? ==> ms != [] && |r.0| == |ms| && r.0[..|ms| - 1] == ms[..|ms| - 1]
    ensures !r.1.Created? && !r.1.Committed? ==> r.0 == ms
  {
    var pos := SkipEnd(data, 0);
    if IsBoundary(data, pos) then
      if pos + SentinelLen > |data| then (ms, Aborted(NewmtlAtEnd))
      else
        var name := data[SkipEnd(data, pos + SentinelLen)..];
        (ms + [NewMaterial(name)], Created(name))
    else if ms == [] then (ms, Orphaned)
    else
      match FirstKey(data, pos)
      case None => (ms, Ignored)
      case Some(i) => FieldStep(ms, data, pos, i)
  }

  /**
   * The driver loop: each line in turn, stopping at the first line whose
   * processing is undefined or throws out of `parseLine`.
   */
  function ParseLines(ms: seq<Material>, lines: seq<string>): (r: (seq<Material>, Option<Fault>))
    ensures |ms| <= |r.0|
    ensures r.1.Some? ==> lines != []
    decreases |lines|
  {
    if lines == [] then (ms, None)
    else
      var (next, outcome) := Step(ms, lines[0]);
      if outcome.Aborted? then (ms, Some(outcome.fault)) else ParseLines(next, lines[1..])
  }

  /** The driver at line `i`: that line's step, then the lines after it unless the step aborted. */
  lemma ParseLinesAt(ms: seq<Material>, lines: seq<string>, i: nat)
    requires i < |lines|
    ensures var (next, outcome) := Step(ms, lines[i]);
      ParseLines(ms, lines[i..]) == if outcome.Aborted? then (ms, Some(outcome.fault)) else ParseLines(next, lines[i + 1..])
  {
    assert lines[i..][0] == lines[i] && lines[i..][1..] == lines[i + 1..];
  }

  /** The lexing switch of the `try` block, reading through the cursor lexer. */
  method ReadValue(vt: ValType, data: string, pos: nat) returns (read: ShapeResult)
    requires pos <= |data|
    ensures read == LexShape(vt, data, pos)
  {
    match vt {
      case VtFloat =>
        var r := ParseParamFloat(data, pos);
        read := if r.Ok? then Read(FloatValue(r.value.0)) else Threw(ConversionFailed(r.error));
      case Vt3Floats =>
        var r := ParseParam3Floats(data, pos);
        read := match r
                case Lexed(c, _) => Read(ColorValue(c))
                case Caught(e) => Threw(ConversionFailed(e))
                case Undefined => ReadUndefined;
      case VtInt =>
        var r := ParseParamInt(data, pos);
        read := if r.Ok? then Read(IntValue(r.value.0)) else Threw(ConversionFailed(r.error));
      case _ =>
        read := Threw(UnsupportedValueType(vt));
    }
  }

  /** `MtlObject`: the ordered list of materials parsed so far. */
  class MtlObject {
    var materials: seq<Material>

    constructor ()
      ensures materials == []
    {
      materials := [];
    }

    /** `parseLine(data)`. */
    method ParseLine(data: string) returns (outcome: LineOutcome)
      modifies this
      ensures (materials, outcome) == Step(old(materials), data)
    {
      var pos := SkipOptionalChars(data, 0);

      if Find(data, Sentinel, pos) == Some(pos) {
        pos := pos + SentinelLen;
        if pos > |data| {
          // skipOptionalChars reads data[size() + 1], then substr throws out of parseLine
          return Aborted(NewmtlAtEnd);
        }
        pos := SkipOptionalChars(data, pos);
        var mat := NewMaterial(data[pos..]);
        materials := materials + [mat];
        return Created(mat.name);
      }

      if |materials| == 0 {
        return Orphaned;
      }

      outcome := ParseKeys(data, pos);
    }

    /** The key loop of `parseLine`: try each entry of `keys[]` in table order and parse the field of the first that matches. */
    method ParseKeys(data: string, pos: nat) returns (outcome: LineOutcome)
      requires materials != [] && pos <= |data|
      modifies this
      ensures (materials, outcome) == match FirstKey(data, pos)
                                      case None => (old(materials), Ignored)
                                      case Some(i) => FieldStep(old(materials), data, pos, i)
    {
      var keys := KeyTable();
      outcome := Ignored;
      for i := 0 to |keys|
        invariant materials == old(materials) && outcome == Ignored
        invariant forall l | 0 <= l < i :: !KeyMatches(keys[l], data, pos)
      {
        var k := keys[i];
        if !CompareEqual(data, pos, k.keyName) || At(data, |k.keyName|) != ' ' {
          continue;
        }
        FirstKeyIs(data, pos, i);

        outcome := ParseField(data, pos, i);
        break;
      }
    }

    /** The body of the key loop once key `i` matched: pick the first shape, lex into local buffers, commit on success. */
    method ParseField(data: string, pos: nat, i: nat) returns (outcome: LineOutcome)
      requires materials != [] && pos <= |data| && i < |KeyTable()|
      requires KeyMatches(KeyTable()[i], data, pos)
      modifies this
      ensures (materials, outcome) == FieldStep(old(materials), data, pos, i)
    {
      var k := KeyTable()[i];
      var mat := materials[|materials| - 1];
      var vpos := SkipOptionalChars(data, pos + |k.keyName|);
      assert vpos == ValuePos(data, pos, i);
      EveryKeyHasUnnamedShape(i);
      assert k.values[0..] == k.values;
      // the shape loop: continue past every named shape whose qualifier is not at vpos
      var j := 0;
      while k.values[j].valName.Some? && !CompareEqual(data, vpos, k.values[j].valName.value)
        invariant j < |k.values|
        invariant HasUnnamedShape(k.values[j..])
        invariant forall l | 0 <= l < j :: !ShapeSelected(k.values[l], data, vpos)
        decreases |k.values| - j
      {
        assert HasUnnamedShape(k.values[j + 1..]) by {
          var w :| 0 <= w < |k.values[j..]| && k.values[j..][w].valName.None?;
          assert w != 0;
          assert k.values[j + 1..][w - 1] == k.values[j..][w];
        }
        j := j + 1;
      }
      assert FirstShape(k.values, data, vpos) == j;
      var read := ReadValue(k.values[j].valType, data, vpos);
      if read.Read? {
        ShapesFitCommit(i, j);
      }
      assert FieldStep(old(materials), data, pos, i) == ApplyRead(materials, k.keyType, read);
      match read {
        case ReadUndefined =>
          outcome := Aborted(ReadAtNpos);
        case Threw(f) =>
          outcome := NotCommitted(k.keyType, f);
        case Read(value) =>
          var updated := Commit(mat, k.keyType, value);
          if updated.Some? {
            materials := ReplaceLast(materials, updated.value);
            outcome := Committed(k.keyType);
          } else {
            outcome := InvalidKeyType(k.keyType);
          }
      }
    }

    /** The constructor's `getline` loop over the lines of the file. */
    method ParseAll(lines: seq<string>) returns (fault: Option<Fault>)
      modifies this
      ensures (materials, fault) == ParseLines(old(materials), lines)
    {
      for i := 0 to |lines|
        invariant ParseLines(old(materials), lines) == ParseLines(materials, lines[i..])
      {
        ParseLinesAt(materials, lines, i);
        var outcome := ParseLine(lines[i]);
        if outcome.Aborted? {
          return Some(outcome.fault);
        }
      }
      fault := None;
    }
  }
}
