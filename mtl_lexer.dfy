/**
 * The cursor lexer: each operation takes the line and a position in it and
 * moves the position forward past what it read.
 */
module MtlLexer {
  import opened Wrappers
  import opened StdString
  import opened NumberConversion
  import opened MtlMaterial

  /** The characters `skipOptionalChars` steps over: `'`, space and `"` (not tab). */
  predicate IsOptionalChar(c: char)
  {
    c == '\'' || c == ' ' || c == '"'
  }

  /** Where `skipOptionalChars` leaves the cursor: the first index at or after `pos` that is not an optional character. */
  function SkipEnd(data: string, pos: nat): (r: nat)
    requires pos <= |data|
    ensures pos <= r <= |data|
    ensures forall i | pos <= i < r :: IsOptionalChar(data[i])
    ensures !IsOptionalChar(At(data, r))
    decreases |data| - pos
  {
    if IsOptionalChar(At(data, pos)) then SkipEnd(data, pos + 1) else pos
  }

  /** `skipOptionalChars(data, pos)`; the terminating `'\0'` of the string stops the loop at the end of the line. */
  method SkipOptionalChars(data: string, pos: nat) returns (newPos: nat)
    requires pos <= |data|
    ensures newPos == SkipEnd(data, pos)
  {
    newPos := pos;
    while IsOptionalChar(At(data, newPos))
      invariant pos <= newPos <= |data|
      invariant SkipEnd(data, newPos) == SkipEnd(data, pos)
      decreases |data| - newPos
    {
      newPos := newPos + 1;
    }
  }

  predicate IsBlank(c: char)
  {
    c == ' ' || c == '\t'
  }

  /** The first index at or after `i` that holds neither a space nor a tab. */
  function BlankEnd(data: string, i: nat): (r: nat)
    requires i <= |data|
    ensures i <= r <= |data|
    ensures forall k | i <= k < r :: IsBlank(data[k])
    ensures !IsBlank(At(data, r))
    decreases |data| - i
  {
    if IsBlank(At(data, i)) then BlankEnd(data, i + 1) else i
  }

  /**
   * Where `skipToNextLine` leaves the cursor: one past the first `'\n'` at or
   * after `pos` and past the spaces and tabs after it; `pos` itself when there
   * is no such `'\n'`.
   */
  function NextLineStart(data: string, pos: nat): (r: nat)
    ensures (forall k | pos <= k < |data| :: data[k] != '\n') ==> r == pos
    ensures forall nl | pos <= nl < |data| && data[nl] == '\n' && (forall k | pos <= k < nl :: data[k] != '\n') ::
              nl < r <= |data| && (forall k | nl < k < r :: IsBlank(data[k])) && !IsBlank(At(data, r))
  {
    var found := FindFirstOf(data, '\n', pos);
    if found.Some? then
      BlankEnd(data, found.value + 1)
    else
      pos
  }

  /** `skipToNextLine(data, pos)`. */
  method SkipToNextLine(data: string, pos: nat) returns (newPos: nat)
    ensures newPos == NextLineStart(data, pos)
  {
    newPos := pos;
    var localPos := FindFirstOf(data, '\n', pos);
    if localPos.Some? {
      var p := localPos.value + 1;
      while IsBlank(At(data, p))
        invariant localPos.value + 1 <= p <= |data|
        invariant BlankEnd(data, p) == BlankEnd(data, localPos.value + 1)
        decreases |data| - p
      {
        p := p + 1;
      }
      newPos := p;
    }
  }

  /**
   * `parseParamFloat`: skip optional characters, then `stof` on the rest of the
   * line; the value and the cursor advanced by the characters `stof` consumed.
   */
  function LexFloat(data: string, pos: nat): (r: Result<(real, nat), ConversionError>)
    requires pos <= |data|
    ensures r.Ok? ==> pos < r.value.1 <= |data|
    ensures r.Ok? ==> r.value.1 == |data| || !IsDigit(data[r.value.1])
    ensures r.Err? ==> r.error == InvalidArgument
  {
    var p := SkipEnd(data, pos);
    match Stof(data[p..])
    case Err(e) => Err(e)
    case Ok((v, n)) => Ok((v, p + n))
  }

  /** `parseParamInt`: as `LexFloat`, with `stoi`. */
  function LexInt(data: string, pos: nat): (r: Result<(Int32, nat), ConversionError>)
    requires pos <= |data|
    ensures r.Ok? ==> pos < r.value.1 <= |data|
    ensures r.Ok? ==> r.value.1 == |data| || !IsDigit(data[r.value.1])
  {
    var p := SkipEnd(data, pos);
    match Stoi(data[p..])
    case Err(e) => Err(e)
    case Ok((v, n)) => Ok((v, p + n))
  }

  method ParseParamFloat(data: string, pos: nat) returns (r: Result<(real, nat), ConversionError>)
    requires pos <= |data|
    ensures r == LexFloat(data, pos)
    ensures r.Ok? <==> Stof(data[SkipEnd(data, pos)..]).Ok?
    ensures r.Ok? ==> r.value == (Stof(data[SkipEnd(data, pos)..]).value.0,
                                  SkipEnd(data, pos) + Stof(data[SkipEnd(data, pos)..]).value.1)
  {
    var p := SkipOptionalChars(data, pos);
    var converted := Stof(data[p..]);
    if converted.Err? {
      return Err(converted.error);
    }
    var (value, left) := converted.value;
    r := Ok((value, p + left));
  }

  method ParseParamInt(data: string, pos: nat) returns (r: Result<(Int32, nat), ConversionError>)
    requires pos <= |data|
    ensures r == LexInt(data, pos)
    ensures r.Ok? <==> Stoi(data[SkipEnd(data, pos)..]).Ok?
    ensures r.Ok? ==> r.value == (Stoi(data[SkipEnd(data, pos)..]).value.0,
                                  SkipEnd(data, pos) + Stoi(data[SkipEnd(data, pos)..]).value.1)
  {
    var p := SkipOptionalChars(data, pos);
    var converted := Stoi(data[p..]);
    if converted.Err? {
      return Err(converted.error);
    }
    var (value, left) := converted.value;
    r := Ok((value, p + left));
  }

  /** A cursor that may be `std::string::npos`. */
  datatype Cursor = Index(i: nat) | Npos

  /**
   * One token of `parseParam3Floats` at `p`: the text up to the next space (or
   * to the end of the line) and the position of that space (or `npos`).
   */
  function Token(data: string, p: nat): (r: (string, Cursor))
    requires p <= |data|
    ensures r.1.Index? ==> p <= r.1.i < |data| && data[r.1.i] == ' ' && r.0 == data[p..r.1.i]
    ensures r.1.Npos? ==> r.0 == data[p..]
    ensures ' ' !in r.0
  {
    match FindFirstOf(data, ' ', p)
    case None => (data[p..], Npos)
    case Some(e) => (data[p..e], Index(e))
  }

  /** The result of `parseParam3Floats`: the colour and the final cursor, a caught exception, or an undefined read. */
  datatype Lexed3 = Lexed(value: Color, next: Cursor) | Caught(error: ConversionError) | Undefined

  /**
   * The token one "Extract float" block of `parseParam3Floats` hands to `stof`:
   * optional characters are skipped first, then the text is cut at the next
   * space, where the cursor stops (or becomes `npos`).
   */
  function NextToken(data: string, pos: nat): (r: (string, Cursor))
    requires pos <= |data|
    ensures r.1.Index? ==> pos <= r.1.i < |data| && data[r.1.i] == ' '
  {
    Token(data, SkipEnd(data, pos))
  }

  /**
   * `parseParam3Floats`: three float tokens in turn, each converted by `stof`
   * (which ignores what follows the number inside the token). When the first
   * or second token runs to the end of the line the cursor becomes `npos` and
   * the next `skipOptionalChars` reads `data[npos]`: `Undefined`.
   */
  function Lex3Floats(data: string, pos: nat): (r: Lexed3)
    requires pos <= |data|
    ensures r.Lexed? && r.next.Index? ==> pos <= r.next.i < |data| && data[r.next.i] == ' '
  {
    var (t1, c1) := NextToken(data, pos);
    match Stof(t1)
    case Err(e) => Caught(e)
    case Ok((red, _)) =>
      match c1
      case Npos => Undefined
      case Index(q1) =>
        var (t2, c2) := NextToken(data, q1);
        match Stof(t2)
        case Err(e) => Caught(e)
        case Ok((green, _)) =>
          match c2
          case Npos => Undefined
          case Index(q2) =>
            var (t3, c3) := NextToken(data, q2);
            match Stof(t3)
            case Err(e) => Caught(e)
            case Ok((blue, _)) => Lexed(Color(red, green, blue), c3)
  }

  method ParseParam3Floats(data: string, pos: nat) returns (r: Lexed3)
    requires pos <= |data|
    ensures r == Lex3Floats(data, pos)
  {
    var p := SkipOptionalChars(data, pos);
    var cut := Token(data, p);
    var token, endPos := cut.0, cut.1;
    var red := Stof(token);
    if red.Err? { return Caught(red.error); }
    if endPos.Npos? { return Undefined; }
    p := SkipOptionalChars(data, endPos.i);
    cut := Token(data, p);
    token, endPos := cut.0, cut.1;
    var green := Stof(token);
    if green.Err? { return Caught(green.error); }
    if endPos.Npos? { return Undefined; }
    p := SkipOptionalChars(data, endPos.i);
    cut := Token(data, p);
    token, endPos := cut.0, cut.1;
    var blue := Stof(token);
    if blue.Err? { return Caught(blue.error); }
    r := Lexed(Color(red.value.0, green.value.0, blue.value.0), endPos);
  }
}
