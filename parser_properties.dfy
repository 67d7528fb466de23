/**
 * What one call of `parseLine` does, stated over `Step`: which branch a line
 * takes, what it may change, and what the field lines of each keyword store.
 */
module MtlParserProperties {
  import opened Wrappers
  import opened StdString
  import opened NumberConversion
  import opened MtlMaterial
  import opened MtlSchema
  import opened MtlLexer
  import opened MtlLexerProperties
  import opened MtlParser

  // ------------------------------------------------------------ newmtl lines

  /**
   * A line made of optional characters, `newmtl`, any one character and a
   * name appends exactly one material with that name, whatever the list held;
   * the character after `newmtl` is skipped without being looked at.
   */
  lemma NewmtlAppends(ms: seq<Material>, lead: string, sep: char, name: string)
    requires forall k | 0 <= k < |lead| :: IsOptionalChar(lead[k])
    requires name == [] || !IsOptionalChar(name[0])
    ensures Step(ms, lead + Sentinel + [sep] + name) == (ms + [NewMaterial(name)], Created(name))
  {
    var data := lead + Sentinel + [sep] + name;
    var p := |lead|;
    assert data[p..p + 6] == Sentinel;
    assert data[p + 7..] == name;
    SkipEndAt(data, 0, p);
    FindAtStartIffOccurs(data, Sentinel, p);
    SkipEndAt(data, p + 7, p + 7);
  }

  /** A line that is exactly `newmtl` after the optional characters makes `parseLine` read past the line and throw. */
  lemma NewmtlAloneAborts(ms: seq<Material>, lead: string)
    requires forall k | 0 <= k < |lead| :: IsOptionalChar(lead[k])
    ensures Step(ms, lead + Sentinel) == (ms, Aborted(NewmtlAtEnd))
  {
    var data := lead + Sentinel;
    var p := |lead|;
    assert data[p..p + 6] == Sentinel;
    SkipEndAt(data, 0, p);
    FindAtStartIffOccurs(data, Sentinel, p);
  }

  // ------------------------------------------------------------ branches

  /**
   * The branches of `parseLine` in order: a `newmtl` line creates (or aborts)
   * whatever the list holds; otherwise an empty list drops the line; otherwise
   * a line matching no keyword is ignored, and a matching one reports the
   * first matching keyword of the table.
   */
  lemma StepBranches(ms: seq<Material>, data: string)
    ensures var pos := SkipEnd(data, 0);
      var o := Step(ms, data).1;
      (IsBoundary(data, pos) <==> o.Created? || o == Aborted(NewmtlAtEnd)) &&
      (!IsBoundary(data, pos) && ms == [] <==> o.Orphaned?) &&
      (!IsBoundary(data, pos) && ms != [] ==>
        (FirstKey(data, pos).None? <==> o.Ignored?) &&
        (FirstKey(data, pos).Some? ==>
           var kt := KeyTable()[FirstKey(data, pos).value].keyType;
           o == Committed(kt) || o == Aborted(ReadAtNpos) || (o.NotCommitted? && o.key == kt)))
  {
    var pos := SkipEnd(data, 0);
    if !IsBoundary(data, pos) && ms != [] && FirstKey(data, pos).Some? {
      FieldStepOutcome(ms, data, pos, FirstKey(data, pos).value);
    }
  }

  /**
   * A field line for table entry `i` commits exactly when the value of the
   * first selected shape lexes, and then stores that value in the key's field
   * of the last material and nothing else; a failed read stores nothing and
   * tries no later shape.
   */
  lemma FieldStepOutcome(ms: seq<Material>, data: string, pos: nat, i: nat)
    requires ms != [] && pos <= |data| && i < |KeyTable()|
    requires KeyMatches(KeyTable()[i], data, pos)
    ensures HasUnnamedShape(KeyTable()[i].values)
    ensures var k := KeyTable()[i];
      var vpos := ValuePos(data, pos, i);
      var read := LexShape(k.values[FirstShape(k.values, data, vpos)].valType, data, vpos);
      var (ms2, o) := FieldStep(ms, data, pos, i);
      (o.Committed? <==> read.Read?) &&
      (read.Read? ==>
         o == Committed(k.keyType) && |ms2| == |ms| && ms2[..|ms| - 1] == ms[..|ms| - 1] &&
         FieldValue(ms2[|ms| - 1], k.keyType) == Some(read.value) &&
         SameExceptField(ms[|ms| - 1], ms2[|ms| - 1], k.keyType)) &&
      (read.Threw? ==> ms2 == ms && o == NotCommitted(k.keyType, read.failure)) &&
      (read.ReadUndefined? ==> ms2 == ms && o == Aborted(ReadAtNpos))
  {
    var k := KeyTable()[i];
    var vpos := ValuePos(data, pos, i);
    EveryKeyHasUnnamedShape(i);
    var j := FirstShape(k.values, data, vpos);
    var read := LexShape(k.values[j].valType, data, vpos);
    if read.Read? {
      ShapesFitCommit(i, j);
    }
  }

  /**
   * What `parseLine` may change: a created material is appended; a commit
   * replaces only the last material, and in it only the key's field; every
   * other outcome leaves the list as it was.
   */
  lemma StepFrame(ms: seq<Material>, data: string)
    ensures var (ms2, o) := Step(ms, data);
      (o.Created? ==> ms2 == ms + [NewMaterial(o.name)]) &&
      (o.Committed? ==>
         ms != [] && |ms2| == |ms| && ms2[..|ms| - 1] == ms[..|ms| - 1] &&
         SameExceptField(ms[|ms| - 1], ms2[|ms| - 1], o.key)) &&
      (!o.Created? && !o.Committed? ==> ms2 == ms)
  {
    var pos := SkipEnd(data, 0);
    if !IsBoundary(data, pos) && ms != [] && FirstKey(data, pos).Some? {
      FieldStepOutcome(ms, data, pos, FirstKey(data, pos).value);
    }
  }

  /** Every keyword of the table has a commit case: the commit switch's default branch is never reached. */
  lemma NoInvalidKeyType(ms: seq<Material>, data: string)
    ensures !Step(ms, data).1.InvalidKeyType?
  {
    StepBranches(ms, data);
  }

  /** A committed line changes no material's name. */
  lemma CommitKeepsName(m: Material, kt: KeyType, m2: Material)
    requires SameExceptField(m, m2, kt)
    ensures m2.name == m.name
  {
  }

  /** A material that differs from `m` only in the field of `kt`, and holds `v` there, is what the commit switch makes of `m`. */
  lemma CommitDeterminedByField(m: Material, kt: KeyType, v: Value, m2: Material)
    requires SameExceptField(m, m2, kt) && FieldValue(m2, kt) == Some(v)
    ensures Fits(kt, v) && Commit(m, kt, v) == Some(m2)
  {
  }

  // ------------------------------------------------------------ field lines

  /** The text a field line for table entry `i` starts with: the keyword and one space. */
  function KeyPrefix(i: nat): string
    requires i < |KeyOrder|
  {
    KeyOrder[i] + " "
  }

  /** A keyword's first two characters (its only one and the space, for `d`) differ from those of every earlier keyword. */
  lemma EarlierKeywordDiffers(i: nat, j: nat)
    requires j < i < |KeyOrder|
    ensures KeyPrefix(j)[0] != KeyPrefix(i)[0] || KeyPrefix(j)[1] != KeyPrefix(i)[1]
  {
  }

  /** No keyword before `i` in the table matches a line that starts with keyword `i` and a space. */
  lemma EarlierKeyMisses(data: string, i: nat, j: nat)
    requires j < i < |KeyOrder| && |KeyPrefix(i)| <= |data| && data[..|KeyPrefix(i)|] == KeyPrefix(i)
    ensures !KeyMatches(KeyTable()[j], data, 0)
  {
    var w := KeyOrder[j];
    assert data[0] == KeyPrefix(i)[0] && data[1] == KeyPrefix(i)[1];
    EarlierKeywordDiffers(i, j);
    assert KeyPrefix(j)[0] == w[0] && KeyPrefix(j)[1] == (if |w| > 1 then w[1] else ' ');
    if |w| <= |data| {
      var head := data[0..|w|];
      assert head[0] == data[0];
      if |w| > 1 {
        assert head[1] == data[1];
      }
    }
  }

  /** No keyword starts with an optional character or with the `n` of `newmtl`. */
  lemma KeywordFirstCharacter(i: nat)
    requires i < |KeyOrder|
    ensures KeyPrefix(i)[0] != 'n' && !IsOptionalChar(KeyPrefix(i)[0])
  {
  }

  /** A position holding a character other than the `n` of `newmtl` is no `newmtl` boundary. */
  lemma NoBoundaryAt(data: string, pos: nat)
    requires pos < |data| && data[pos] != 'n'
    ensures !IsBoundary(data, pos)
  {
    FindAtStartIffOccurs(data, Sentinel, pos);
  }

  /** A line that starts with a keyword is read from its first character and is no `newmtl` line. */
  lemma KeyLineStart(data: string, i: nat)
    requires i < |KeyOrder| && |KeyPrefix(i)| <= |data| && data[..|KeyPrefix(i)|] == KeyPrefix(i)
    ensures SkipEnd(data, 0) == 0 && !IsBoundary(data, 0)
  {
    KeywordFirstCharacter(i);
    assert data[0] == KeyPrefix(i)[0];
    SkipEndAt(data, 0, 0);
    NoBoundaryAt(data, 0);
  }

  /** Entry `i` matches a line that starts with its keyword and a space. */
  lemma KeyLineMatches(data: string, i: nat)
    requires i < |KeyOrder| && |KeyPrefix(i)| <= |data| && data[..|KeyPrefix(i)|] == KeyPrefix(i)
    ensures KeyMatches(KeyTable()[i], data, 0)
  {
    var name := KeyOrder[i];
    assert data[|name|] == ' ';
    assert data[0..|name|] == name;
  }

  /**
   * A line that starts with keyword `i` and a space is not a `newmtl` line,
   * matches entry `i` first, and its value starts after the space and the
   * optional characters that follow it.
   */
  lemma KeyLine(data: string, i: nat)
    requires i < |KeyOrder| && |KeyPrefix(i)| <= |data| && data[..|KeyPrefix(i)|] == KeyPrefix(i)
    ensures SkipEnd(data, 0) == 0 && !IsBoundary(data, 0) && FirstKey(data, 0) == Some(i)
    ensures ValuePos(data, 0, i) == SkipEnd(data, |KeyPrefix(i)|)
  {
    KeyLineStart(data, i);
    KeyLineMatches(data, i);
    forall j | 0 <= j < i
      ensures !KeyMatches(KeyTable()[j], data, 0)
    {
      EarlierKeyMisses(data, i, j);
    }
    FirstKeyIs(data, 0, i);
    assert data[|KeyOrder[i]|] == ' ';
  }

  /** A shape list that starts with an unnamed shape selects that shape. */
  lemma UnnamedShapeFirst(values: seq<Val>, data: string, vpos: nat)
    requires vpos <= |data| && values != [] && values[0].valName.None?
    ensures HasUnnamedShape(values)
    ensures FirstShape(values, data, vpos) == 0
  {
    assert values[0].valName.None?;
  }

  /** A colour value that does not start with `spectral` is read by a three-float shape (`xyz` or the unnamed one). */
  lemma ColorShapeReadsThreeFloats(data: string, vpos: nat)
    requires vpos <= |data| && !OccursAt(data, "spectral", vpos)
    ensures HasUnnamedShape(KVals)
    ensures KVals[FirstShape(KVals, data, vpos)].valType == Vt3Floats
  {
    assert KVals[2].valName.None?;
    assert !ShapeSelected(KVals[1], data, vpos);
  }

  /**
   * A colour line `Ka`, `Kd`, `Ks` or `Tf` whose value, at `vpos`, does not
   * start with `spectral`: what `parseParam3Floats` reads there decides the
   * outcome. An undefined read aborts, a failed conversion stores nothing, and
   * three converted values become the key's colour.
   */
  lemma ColorLineAt(ms: seq<Material>, data: string, i: nat, vpos: nat)
    requires ms != [] && i < 4
    requires vpos == |KeyPrefix(i)| <= |data| && data[..vpos] == KeyPrefix(i)
    requires SkipEnd(data, vpos) == vpos && !OccursAt(data, "spectral", vpos)
    ensures var kt := KeyTable()[i].keyType;
      var l := Lex3Floats(data, vpos);
      var (ms2, o) := Step(ms, data);
      (l.Undefined? ==> ms2 == ms && o == Aborted(ReadAtNpos)) &&
      (l.Caught? ==> ms2 == ms && o == NotCommitted(kt, ConversionFailed(l.error))) &&
      (l.Lexed? ==> o == Committed(kt) && |ms2| == |ms| && FieldValue(ms2[|ms| - 1], kt) == Some(ColorValue(l.value)))
  {
    KeyLineStep(ms, data, i);
    ColorKeyShapes(i);
    ColorShapeReadsThreeFloats(data, vpos);
    FieldStepOutcome(ms, data, 0, i);
  }

  /** A value whose first character, the first of token `t`, is not `s` does not start with `spectral`. */
  lemma NotSpectral(data: string, vpos: nat, t: string)
    requires vpos < |data| && t != [] && data[vpos] == t[0] && t[0] != 's'
    ensures !OccursAt(data, "spectral", vpos)
  {
    if vpos + 8 <= |data| {
      assert data[vpos..vpos + 8][0] == data[vpos];
    }
  }

  /**
   * A colour line `Ka`, `Kd`, `Ks` or `Tf` with three plain tokens, the first
   * not starting with `s` (which could select `spectral`): it commits
   * exactly when all three convert, and then the key's colour is the three
   * values in order; otherwise nothing is stored.
   */
  lemma ColorLine(ms: seq<Material>, i: nat, t1: string, t2: string, t3: string)
    requires ms != [] && i < 4
    requires IsPlainToken(t1) && IsPlainToken(t2) && IsPlainToken(t3) && t1[0] != 's'
    ensures var (ms2, o) := Step(ms, KeyPrefix(i) + t1 + " " + t2 + " " + t3);
      var kt := KeyTable()[i].keyType;
      (o == if Stof(t1).Ok? && Stof(t2).Ok? && Stof(t3).Ok? then Committed(kt)
            else NotCommitted(kt, ConversionFailed(InvalidArgument))) &&
      (o.Committed? ==> |ms2| == |ms| && FieldValue(ms2[|ms| - 1], kt) == Some(ColorValue(Color(Stof(t1).value.0, Stof(t2).value.0, Stof(t3).value.0))))
  {
    var data := KeyPrefix(i) + t1 + " " + t2 + " " + t3;
    var vpos := |KeyPrefix(i)|;
    SplitAfter(data, KeyPrefix(i), t1 + " " + t2 + " " + t3);
    assert data[vpos] == data[vpos..][0] == t1[0];
    SkipEndAt(data, vpos, vpos);
    NotSpectral(data, vpos, t1);
    ReadThreeTokens(data, vpos, t1, t2, t3);
    ColorLineAt(ms, data, i, vpos);
  }

  /** A colour line with only two converting tokens reads the third at `data[npos]`. */
  lemma ShortColorLineAborts(ms: seq<Material>, i: nat, t1: string, t2: string)
    requires ms != [] && i < 4
    requires IsPlainToken(t1) && IsPlainToken(t2) && t1[0] != 's'
    requires Stof(t1).Ok? && Stof(t2).Ok?
    ensures Step(ms, KeyPrefix(i) + t1 + " " + t2) == (ms, Aborted(ReadAtNpos))
  {
    var data := KeyPrefix(i) + t1 + " " + t2;
    var vpos := |KeyPrefix(i)|;
    SplitAfter(data, KeyPrefix(i), t1 + " " + t2);
    assert data[vpos] == data[vpos..][0] == t1[0];
    SkipEndAt(data, vpos, vpos);
    NotSpectral(data, vpos, t1);
    ReadTwoTokens(data, vpos, t1, t2);
    ColorLineAt(ms, data, i, vpos);
  }

  /** On a non-empty list, a line that starts with keyword `i` and a space is the field line of entry `i`. */
  lemma KeyLineStep(ms: seq<Material>, data: string, i: nat)
    requires ms != [] && i < |KeyOrder| && |KeyPrefix(i)| <= |data| && data[..|KeyPrefix(i)|] == KeyPrefix(i)
    ensures KeyMatches(KeyTable()[i], data, 0)
    ensures Step(ms, data) == FieldStep(ms, data, 0, i)
    ensures ValuePos(data, 0, i) == SkipEnd(data, |KeyPrefix(i)|)
  {
    KeyLine(data, i);
  }

  /** A value whose first character cannot begin a number: the first of the three tokens does not convert. */
  lemma FirstTokenFails(data: string, pos: nat)
    requires pos < |data| && !IsOptionalChar(data[pos]) && !IsSpace(data[pos])
    requires !IsSign(data[pos]) && !IsDigit(data[pos]) && data[pos] != '.'
    ensures Lex3Floats(data, pos) == Caught(InvalidArgument)
  {
    SkipEndAt(data, pos, pos);
    var t := NextToken(data, pos).0;
    assert t != [] && t[0] == data[pos] by {
      if NextToken(data, pos).1.Index? {
        assert data[pos..NextToken(data, pos).1.i][0] == data[pos];
      } else {
        assert data[pos..][0] == data[pos];
      }
    }
    assert SpaceEnd(t, 0) == 0;
    assert t[0..] == t;
  }

  /**
   * `xyz` selects the first shape of a colour keyword but is not consumed, so
   * the first token handed to `stof` starts with `x` and nothing is stored.
   */
  lemma QualifierNotConsumed(ms: seq<Material>, i: nat, rest: string)
    requires ms != [] && i < 4
    ensures Step(ms, KeyPrefix(i) + "xyz" + rest) == (ms, NotCommitted(KeyTable()[i].keyType, ConversionFailed(InvalidArgument)))
  {
    var data := KeyPrefix(i) + "xyz" + rest;
    var vpos := |KeyPrefix(i)|;
    SplitAfter(data, KeyPrefix(i), "xyz" + rest);
    assert data[vpos] == data[vpos..][0] == 'x';
    SkipEndAt(data, vpos, vpos);
    NotSpectral(data, vpos, "x");
    FirstTokenFails(data, vpos);
    ColorLineAt(ms, data, i, vpos);
  }

  /** `spectral` selects the string-and-float shape of a colour value. */
  lemma SpectralShapeSelected(data: string, vpos: nat)
    requires OccursAt(data, "spectral", vpos)
    ensures HasUnnamedShape(KVals)
    ensures KVals[FirstShape(KVals, data, vpos)].valType == VtStringAndFloat
  {
    assert KVals[2].valName.None?;
    assert data[vpos..vpos + 3] != "xyz" by {
      assert data[vpos..vpos + 3][0] == data[vpos..vpos + 8][0];
    }
    assert !ShapeSelected(KVals[0], data, vpos) && ShapeSelected(KVals[1], data, vpos);
  }

  /** A colour line whose value starts with `spectral` throws from the lexing switch and stores nothing. */
  lemma SpectralLineAt(ms: seq<Material>, data: string, i: nat, vpos: nat)
    requires ms != [] && i < 4
    requires vpos == |KeyPrefix(i)| <= |data| && data[..vpos] == KeyPrefix(i)
    requires SkipEnd(data, vpos) == vpos && OccursAt(data, "spectral", vpos)
    ensures Step(ms, data) == (ms, NotCommitted(KeyTable()[i].keyType, UnsupportedValueType(VtStringAndFloat)))
  {
    KeyLineStep(ms, data, i);
    ColorKeyShapes(i);
    SpectralShapeSelected(data, vpos);
    FieldStepOutcome(ms, data, 0, i);
  }

  /** `spectral` selects the string-and-float shape, which the lexing switch cannot read: it throws and nothing is stored. */
  lemma SpectralThrows(ms: seq<Material>, i: nat, rest: string)
    requires ms != [] && i < 4
    ensures Step(ms, KeyPrefix(i) + "spectral" + rest) ==
              (ms, NotCommitted(KeyTable()[i].keyType, UnsupportedValueType(VtStringAndFloat)))
  {
    var data := KeyPrefix(i) + "spectral" + rest;
    var vpos := |KeyPrefix(i)|;
    SplitAfter(data, KeyPrefix(i), "spectral" + rest);
    assert data[vpos..][..8] == "spectral";
    assert data[vpos] == 's';
    SkipEndAt(data, vpos, vpos);
    SpectralLineAt(ms, data, i, vpos);
  }

  /** The decimal rendering of an `int` starts with a digit or a minus sign, never with an optional character. */
  lemma DecimalStart(n: int)
    ensures IntToDecimal(n) != [] && !IsOptionalChar(IntToDecimal(n)[0])
  {
    var d := NatToDecimal(if n < 0 then -n else n);
    assert IsDigit(d[0]);
  }

  /** Where no optional character stands at `vpos`, `parseParamInt` is `stoi` on the rest of the line. */
  lemma LexIntFrom(data: string, vpos: nat, v: Int32, k: nat)
    requires vpos <= |data| && SkipEnd(data, vpos) == vpos && Stoi(data[vpos..]) == Ok((v, k))
    ensures LexInt(data, vpos).Ok? && LexInt(data, vpos).value.0 == v && LexInt(data, vpos).value.1 == vpos + k
  {
  }

  /** `parseParamInt` reads the decimal rendering of `n` back as `n`. */
  lemma LexIntReadsDecimal(data: string, vpos: nat, n: Int32, rest: string)
    requires vpos <= |data| && data[vpos..] == IntToDecimal(n as int) + rest
    requires rest == [] || !IsDigit(rest[0])
    ensures SkipEnd(data, vpos) == vpos
    ensures LexInt(data, vpos).Ok? && LexInt(data, vpos).value.0 == n
    ensures LexInt(data, vpos).value.1 == vpos + |IntToDecimal(n as int)|
  {
    DecimalStart(n as int);
    assert data[vpos] == data[vpos..][0];
    SkipEndAt(data, vpos, vpos);
    StoiReadsDecimal(n, rest);
    LexIntFrom(data, vpos, n, |IntToDecimal(n as int)|);
  }

  /** An `illum` or `Ns` line whose value `parseParamInt` reads as `n` stores `n` in the key's field. */
  lemma IntLineAt(ms: seq<Material>, data: string, i: nat, vpos: nat, n: Int32)
    requires ms != [] && (i == 4 || i == 6)
    requires vpos == |KeyPrefix(i)| <= |data| && data[..vpos] == KeyPrefix(i)
    requires SkipEnd(data, vpos) == vpos && LexInt(data, vpos).Ok? && LexInt(data, vpos).value.0 == n
    ensures var (ms2, o) := Step(ms, data);
      o == Committed(KeyTable()[i].keyType) && |ms2| == |ms| && FieldValue(ms2[|ms| - 1], KeyTable()[i].keyType) == Some(IntValue(n))
  {
    KeyLineStep(ms, data, i);
    IntKeyShapes(i);
    UnnamedShapeFirst(KeyTable()[i].values, data, vpos);
    FieldStepOutcome(ms, data, 0, i);
  }

  /**
   * Round trip for `illum` (entry 4) and `Ns` (entry 6): the line with the
   * decimal rendering of `n`, followed by anything that is not a digit, stores
   * exactly `n` in the key's field.
   */
  lemma IntLine(ms: seq<Material>, i: nat, n: Int32, rest: string)
    requires ms != [] && (i == 4 || i == 6)
    requires rest == [] || !IsDigit(rest[0])
    ensures var (ms2, o) := Step(ms, KeyPrefix(i) + IntToDecimal(n as int) + rest);
      o == Committed(KeyTable()[i].keyType) && |ms2| == |ms| && FieldValue(ms2[|ms| - 1], KeyTable()[i].keyType) == Some(IntValue(n))
  {
    var data := KeyPrefix(i) + IntToDecimal(n as int) + rest;
    var vpos := |KeyPrefix(i)|;
    SplitAfter(data, KeyPrefix(i), IntToDecimal(n as int) + rest);
    LexIntReadsDecimal(data, vpos, n, rest);
    IntLineAt(ms, data, i, vpos, n);
  }

  /**
   * A `d` line: the dissolve becomes what `stof` reads from the value exactly
   * when it converts; otherwise nothing is stored.
   */
  lemma FloatLine(ms: seq<Material>, t: string)
    requires ms != [] && (t == [] || !IsOptionalChar(t[0]))
    ensures var (ms2, o) := Step(ms, KeyPrefix(5) + t);
      (o == if Stof(t).Ok? then Committed(KtD) else NotCommitted(KtD, ConversionFailed(InvalidArgument))) &&
      (o.Committed? ==> |ms2| == |ms| && ms2[|ms| - 1].dissolve == Stof(t).value.0)
  {
    var data := KeyPrefix(5) + t;
    assert data[..2] == KeyPrefix(5);
    assert data[2..] == t;
    KeyLine(data, 5);
    SkipEndAt(data, 2, 2);
    assert KeyTable()[5].values == [FloatVal];
    UnnamedShapeFirst(KeyTable()[5].values, data, 2);
    FieldStepOutcome(ms, data, 0, 5);
  }

  /** Option parsing is disabled: `-halo` is handed to `stof` as the value, which fails, and nothing is stored. */
  lemma HaloNotConsumed(ms: seq<Material>, rest: string)
    requires ms != []
    ensures Step(ms, KeyPrefix(5) + "-halo" + rest) == (ms, NotCommitted(KtD, ConversionFailed(InvalidArgument)))
  {
    var t := "-halo" + rest;
    assert KeyPrefix(5) + "-halo" + rest == KeyPrefix(5) + t;
    assert t[0] == '-' && t[1] == 'h';
    StofRejectsSignedWord(t);
    FloatLine(ms, t);
    StepFrame(ms, KeyPrefix(5) + t);
  }

  // ------------------------------------------------------------ indentation

  /** No keyword ends in a space. */
  lemma KeywordLastCharacter(j: nat)
    requires j < |KeyOrder|
    ensures KeyOrder[j] != [] && KeyOrder[j][|KeyOrder[j]| - 1] != ' '
  {
  }

  /**
   * A field line indented by one optional character is ignored: the keyword
   * compares equal after the indentation, but the character checked for the
   * following space is the keyword's own last character, counted from the
   * start of the line.
   */
  lemma IndentedByOneIgnored(ms: seq<Material>, c: char, rest: string)
    requires ms != [] && IsOptionalChar(c) && (rest == [] || !IsOptionalChar(rest[0]))
    requires !IsBoundary([c] + rest, 1)
    ensures Step(ms, [c] + rest) == (ms, Ignored)
  {
    var data := [c] + rest;
    SkipEndAt(data, 0, 1);
    forall j | 0 <= j < |KeyTable()|
      ensures !KeyMatches(KeyTable()[j], data, 1)
    {
      var w := KeyOrder[j];
      KeywordLastCharacter(j);
      if OccursAt(data, w, 1) {
        assert data[1..1 + |w|][|w| - 1] == w[|w| - 1];
      }
    }
  }

  /** A line `"  d "` followed by the value is read from the `d` and is no `newmtl` line. */
  lemma IndentedDissolveStart(data: string)
    requires |data| >= 4 && data[..4] == "  d "
    ensures SkipEnd(data, 0) == 2 && !IsBoundary(data, 2)
  {
    assert data[0] == ' ' && data[1] == ' ' && data[2] == 'd';
    SkipEndAt(data, 0, 2);
    NoBoundaryAt(data, 2);
  }

  /** In a line `"  d "` followed by the value, `d` is the first key that matches after the indentation. */
  lemma IndentedDissolveFirstKey(data: string)
    requires |data| >= 4 && data[..4] == "  d "
    ensures KeyMatches(KeyTable()[5], data, 2) && FirstKey(data, 2) == Some(5)
  {
    assert data[1] == ' ' && data[2] == 'd';
    assert data[2..3] == "d";
    forall j | 0 <= j < 5
      ensures !KeyMatches(KeyTable()[j], data, 2)
    {
      var w := KeyOrder[j];
      if OccursAt(data, w, 2) {
        assert data[2..2 + |w|][0] == w[0];
      }
    }
    FirstKeyIs(data, 2, 5);
  }

  /** In a line `"  d "` followed by the value, the value starts after the keyword's space and the optional characters after it. */
  lemma IndentedDissolveValuePos(data: string)
    requires |data| >= 4 && data[..4] == "  d "
    requires KeyMatches(KeyTable()[5], data, 2)
    ensures ValuePos(data, 2, 5) == SkipEnd(data, 4)
  {
    assert KeyTable()[5].keyName == KeyOrder[5] == "d";
    assert data[3] == data[..4][3] == ' ';
    assert IsOptionalChar(At(data, 3));
    assert SkipEnd(data, 3) == SkipEnd(data, 4);
  }

  /** A line `"  d "` followed by the value is the field line of `d` matched after the indentation. */
  lemma IndentedDissolveMatches(ms: seq<Material>, data: string)
    requires ms != [] && |data| >= 4 && data[..4] == "  d "
    ensures KeyMatches(KeyTable()[5], data, 2)
    ensures Step(ms, data) == FieldStep(ms, data, 2, 5)
    ensures ValuePos(data, 2, 5) == SkipEnd(data, 4)
  {
    IndentedDissolveStart(data);
    IndentedDissolveFirstKey(data);
    IndentedDissolveValuePos(data);
  }

  /**
   * A `d` line indented by two spaces is accepted: the character checked for
   * the space after `d` is the second indentation space. It stores what the
   * unindented line stores.
   */
  lemma IndentedDissolveAccepted(ms: seq<Material>, t: string)
    requires ms != [] && (t == [] || !IsOptionalChar(t[0]))
    ensures var (ms2, o) := Step(ms, "  " + KeyPrefix(5) + t);
      (o == if Stof(t).Ok? then Committed(KtD) else NotCommitted(KtD, ConversionFailed(InvalidArgument))) &&
      (o.Committed? ==> |ms2| == |ms| && ms2[|ms| - 1].dissolve == Stof(t).value.0)
  {
    var data := "  " + KeyPrefix(5) + t;
    assert data[..4] == "  d " && data[4..] == t;
    IndentedDissolveMatches(ms, data);
    SkipEndAt(data, 4, 4);
    assert KeyTable()[5].values == [FloatVal];
    UnnamedShapeFirst(KeyTable()[5].values, data, 4);
    FieldStepOutcome(ms, data, 2, 5);
  }
}
