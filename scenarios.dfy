/**
 * What `ParseLines` yields on three small files: a complete material, a
 * field line before any material, and a colour with a value that does not
 * convert.
 */
module MtlScenarios {
  import opened Wrappers
  import opened NumberConversion
  import opened MtlMaterial
  import opened MtlSchema
  import opened MtlLexer
  import opened MtlLexerProperties
  import opened MtlParser
  import opened MtlParserProperties
  import opened MtlDriverProperties

  /** `stof` on a digit, a point and a digit reads all three characters as that decimal fraction. */
  lemma StofOneDecimal(ip: char, fp: char)
    requires IsDigit(ip) && IsDigit(fp)
    ensures Stof([ip, '.', fp]).Ok?
    ensures Stof([ip, '.', fp]).value.0 == (10 * DigitValue(ip) + DigitValue(fp)) as real / 10.0
  {
    StofReadsFixedPoint([ip], [fp], []);
    assert [ip] + "." + [fp] + [] == [ip, '.', fp];
    assert [ip, fp][..1] == [ip] && [ip][..0] == [];
    assert [ip] + [fp] == [ip, fp];
    assert DigitsValue([ip]) == DigitValue(ip);
    assert DigitsValue([ip, fp]) == 10 * DigitValue(ip) + DigitValue(fp);
    assert Pow10(1) == 10;
  }

  /** The three tokens of a colour value, each a digit, a point and a digit. */
  lemma StofColor(a: char, b: char, c: char)
    requires IsDigit(a) && IsDigit(b) && IsDigit(c)
    ensures Stof(['0', '.', a]).Ok? && Stof(['0', '.', b]).Ok? && Stof(['0', '.', c]).Ok?
    ensures Stof(['0', '.', a]).value.0 == DigitValue(a) as real / 10.0
    ensures Stof(['0', '.', b]).value.0 == DigitValue(b) as real / 10.0
    ensures Stof(['0', '.', c]).value.0 == DigitValue(c) as real / 10.0
  {
    StofOneDecimal('0', a);
    StofOneDecimal('0', b);
    StofOneDecimal('0', c);
  }

  /** A committed field line: the list with the last material as the commit switch makes it. */
  lemma CommittedStep(ms: seq<Material>, line: string, kt: KeyType, v: Value)
    requires Step(ms, line).1 == Committed(kt) && |Step(ms, line).0| == |ms|
    requires FieldValue(Step(ms, line).0[|ms| - 1], kt) == Some(v)
    ensures ms != [] && Fits(kt, v) && Commit(ms[|ms| - 1], kt, v).Some?
    ensures Step(ms, line).0 == ReplaceLast(ms, Commit(ms[|ms| - 1], kt, v).value)
  {
    StepFrame(ms, line);
    var ms2 := Step(ms, line).0;
    CommitDeterminedByField(ms[|ms| - 1], kt, v, ms2[|ms| - 1]);
    assert ms2 == ms2[..|ms| - 1] + [ms2[|ms| - 1]];
  }

  const Brick: Material := NewMaterial("brick")
  const BrickAmbient: Material := Brick.(ambientColor := Color(0.1, 0.2, 0.3))
  const BrickDiffuse: Material := BrickAmbient.(diffuseColor := Color(0.4, 0.5, 0.6))

  /** A line `newmtl ` and a name that starts with no optional character appends a material with that name. */
  lemma NewmtlNamed(ms: seq<Material>, name: string, line: string)
    requires line == "newmtl " + name && (name == [] || !IsOptionalChar(name[0]))
    ensures Step(ms, line) == (ms + [NewMaterial(name)], Created(name))
  {
    assert [] + Sentinel + [' '] + name == line;
    NewmtlAppends(ms, [], ' ', name);
  }

  /** A colour line whose three tokens convert to `c` stores `c` in the key's colour of the last material. */
  lemma ColorStep(ms: seq<Material>, i: nat, t1: string, t2: string, t3: string, line: string, c: Color)
    requires ms != [] && i < 4 && line == KeyPrefix(i) + t1 + " " + t2 + " " + t3
    requires IsPlainToken(t1) && IsPlainToken(t2) && IsPlainToken(t3) && t1[0] != 's'
    requires Stof(t1).Ok? && Stof(t2).Ok? && Stof(t3).Ok?
    requires c == Color(Stof(t1).value.0, Stof(t2).value.0, Stof(t3).value.0)
    ensures var kt := KeyTable()[i].keyType;
      Fits(kt, ColorValue(c)) && Commit(ms[|ms| - 1], kt, ColorValue(c)).Some? &&
      Step(ms, line) == (ReplaceLast(ms, Commit(ms[|ms| - 1], kt, ColorValue(c)).value), Committed(kt))
  {
    ColorLine(ms, i, t1, t2, t3);
    CommittedStep(ms, line, KeyTable()[i].keyType, ColorValue(c));
  }

  /** The three tokens `0.a`, `0.b` and `0.c` are plain tokens that do not start a qualifier. */
  lemma TenthsArePlain(a: char, b: char, c: char)
    requires IsDigit(a) && IsDigit(b) && IsDigit(c)
    ensures IsPlainToken(['0', '.', a]) && IsPlainToken(['0', '.', b]) && IsPlainToken(['0', '.', c])
  {
  }

  /** A colour line `0.a 0.b 0.c` stores those three tenths in the key's colour of the last material. */
  lemma TenthsColorStep(ms: seq<Material>, i: nat, kt: KeyType, a: char, b: char, c: char, line: string)
    requires ms != [] && i < 4 && kt == KeyTable()[i].keyType && IsDigit(a) && IsDigit(b) && IsDigit(c)
    requires line == KeyPrefix(i) + ['0', '.', a] + " " + ['0', '.', b] + " " + ['0', '.', c]
    ensures var v := ColorValue(Color(DigitValue(a) as real / 10.0, DigitValue(b) as real / 10.0, DigitValue(c) as real / 10.0));
      Fits(kt, v) && Commit(ms[|ms| - 1], kt, v).Some? &&
      Step(ms, line) == (ReplaceLast(ms, Commit(ms[|ms| - 1], kt, v).value), Committed(kt))
  {
    StofColor(a, b, c);
    TenthsArePlain(a, b, c);
    ColorStep(ms, i, ['0', '.', a], ['0', '.', b], ['0', '.', c], line,
              Color(DigitValue(a) as real / 10.0, DigitValue(b) as real / 10.0, DigitValue(c) as real / 10.0));
  }

  lemma BrickKaText(line: string)
    requires line == "Ka 0.1 0.2 0.3"
    ensures line == KeyPrefix(0) + ['0', '.', '1'] + " " + ['0', '.', '2'] + " " + ['0', '.', '3']
  {
  }

  lemma BrickKa(m: Material, line: string)
    requires line == "Ka 0.1 0.2 0.3"
    ensures Step([m], line) == ([m.(ambientColor := Color(0.1, 0.2, 0.3))], Committed(KtKa))
  {
    BrickKaText(line);
    TenthsColorStep([m], 0, KtKa, '1', '2', '3', line);
  }

  lemma BrickKdText(line: string)
    requires line == "Kd 0.4 0.5 0.6"
    ensures line == KeyPrefix(1) + ['0', '.', '4'] + " " + ['0', '.', '5'] + " " + ['0', '.', '6']
  {
  }

  lemma BrickKd(m: Material, line: string)
    requires line == "Kd 0.4 0.5 0.6"
    ensures Step([m], line) == ([m.(diffuseColor := Color(0.4, 0.5, 0.6))], Committed(KtKd))
  {
    BrickKdText(line);
    TenthsColorStep([m], 1, KtKd, '4', '5', '6', line);
  }

  lemma BrickIllumText(line: string)
    requires line == "illum 2"
    ensures line == KeyPrefix(4) + IntToDecimal(2 as Int32 as int) + []
  {
    assert IntToDecimal(2) == "2";
  }

  lemma BrickIllum(m: Material, line: string)
    requires line == "illum 2"
    ensures Step([m], line) == ([m.(illumination := 2)], Committed(KtIllum))
  {
    BrickIllumText(line);
    IntLine([m], 4, 2, []);
    CommittedStep([m], line, KtIllum, IntValue(2));
  }

  /**
   * A complete material: one material named `brick` with the ambient and
   * diffuse colours and the illumination model of its lines, every other
   * field at its constructor's value, and no fault.
   */
  lemma BrickFile(lines: seq<string>)
    requires lines == ["newmtl brick", "Ka 0.1 0.2 0.3", "Kd 0.4 0.5 0.6", "illum 2"]
    ensures ParseLines([], lines) ==
              ([NewMaterial("brick").(ambientColor := Color(0.1, 0.2, 0.3),
                                      diffuseColor := Color(0.4, 0.5, 0.6),
                                      illumination := 2)], None)
  {
    NewmtlNamed([], "brick", lines[0]);
    assert [] + [Brick] == [Brick];
    BrickKa(Brick, lines[1]);
    BrickKd(BrickAmbient, lines[2]);
    BrickIllum(BrickDiffuse, lines[3]);
    ParseLinesAt([], lines, 0);
    ParseLinesAt([Brick], lines, 1);
    ParseLinesAt([BrickAmbient], lines, 2);
    ParseLinesAt([BrickDiffuse], lines, 3);
    assert lines[0..] == lines && lines[4..] == [];
  }

  // ------------------------------------------------------------ a field line before any material

  lemma OrphanKaText(line: string)
    requires line == "Ka 0.1 0.2 0.3"
    ensures |KeyPrefix(0)| <= |line| && line[..|KeyPrefix(0)|] == KeyPrefix(0)
  {
  }


  /** A colour line before the first `newmtl` line is dropped: only the later material exists, at its defaults. */
  lemma OrphanFieldFile(lines: seq<string>)
    requires lines == ["Ka 0.1 0.2 0.3", "newmtl x"]
    ensures ParseLines([], lines) == ([NewMaterial("x")], None)
  {
    OrphanKaText(lines[0]);
    KeyLineStart(lines[0], 0);
    assert lines == [lines[0]] + [lines[1]];
    OrphanLinesDropped([lines[0]], [lines[1]]);
    NewmtlNamed([], "x", lines[1]);
    ParseLinesFirst([], lines[1], []);
    assert [lines[1]] == [lines[1]] + [];
    assert [] + [NewMaterial("x")] == [NewMaterial("x")];
  }

  // ------------------------------------------------------------ a value that does not convert

  lemma BadKaText(line: string)
    requires line == "Ka 0.1 notanumber 0.3"
    ensures line == KeyPrefix(0) + ['0', '.', '1'] + " " + "notanumber" + " " + ['0', '.', '3']
  {
  }

  lemma BadKa(m: Material, line: string)
    requires line == "Ka 0.1 notanumber 0.3"
    ensures Step([m], line) == ([m], NotCommitted(KtKa, ConversionFailed(InvalidArgument)))
  {
    BadKaText(line);
    StofRejectsWord("notanumber");
    TenthsArePlain('1', '2', '3');
    ColorLine([m], 0, ['0', '.', '1'], "notanumber", ['0', '.', '3']);
    StepFrame([m], line);
  }


  /** A colour line with a token that does not convert stores nothing, and parsing goes on: the ambient colour keeps its default. */
  lemma BadValueFile(lines: seq<string>)
    requires lines == ["newmtl y", "Ka 0.1 notanumber 0.3"]
    ensures ParseLines([], lines) == ([NewMaterial("y")], None)
    ensures ParseLines([], lines).0[0].ambientColor == Black
  {
    NewmtlNamed([], "y", lines[0]);
    assert [] + [NewMaterial("y")] == [NewMaterial("y")];
    BadKa(NewMaterial("y"), lines[1]);
    assert lines == [lines[0]] + [lines[1]];
    ParseLinesFirst([], lines[0], [lines[1]]);
    ParseLinesFirst([NewMaterial("y")], lines[1], []);
    assert [lines[1]] == [lines[1]] + [];
  }
}
