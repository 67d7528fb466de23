/** What the cursor lexer reads from well-formed and short values. */
module MtlLexerProperties {
  import opened StdString
  import opened NumberConversion
  import opened MtlMaterial
  import opened MtlLexer

  /** `SkipEnd` is determined by where the run of optional characters stops. */
  lemma SkipEndAt(data: string, pos: nat, e: nat)
    requires pos <= e <= |data|
    requires forall k | pos <= k < e :: IsOptionalChar(data[k])
    requires !IsOptionalChar(At(data, e))
    ensures SkipEnd(data, pos) == e
  {
  }

  /** A token as `parseParam3Floats` cuts it: non-empty, no space, not starting with an optional character. */
  predicate IsPlainToken(t: string)
  {
    t != [] && ' ' !in t && !IsOptionalChar(t[0])
  }

  /** A plain token followed by a space or the end of the line is cut exactly, and the cursor stops at that space or at `npos`. */
  lemma TokenOfPlain(data: string, p: nat, t: string)
    requires p + |t| <= |data| && data[p..p + |t|] == t && IsPlainToken(t)
    requires p + |t| == |data| || data[p + |t|] == ' '
    ensures Token(data, p) == (t, if p + |t| == |data| then Npos else Index(p + |t|))
  {
    forall k | p <= k < p + |t|
      ensures data[k] != ' '
    {
      assert data[k] == t[k - p];
    }
    if p + |t| == |data| {
      assert data[p..] == t;
    }
  }

  /** A plain token at `p`, followed by a space or the end of the line, is the token one block cuts there. */
  lemma NextTokenOfPlain(data: string, p: nat, t: string)
    requires p + |t| <= |data| && data[p..p + |t|] == t && IsPlainToken(t)
    requires p + |t| == |data| || data[p + |t|] == ' '
    ensures NextToken(data, p) == (t, if p + |t| == |data| then Npos else Index(p + |t|))
  {
    SkipEndAt(data, p, p);
    TokenOfPlain(data, p, t);
  }

  /** A block started on the space before a plain token skips that space and cuts the token. */
  lemma NextTokenAfterSpace(data: string, q: nat, t: string)
    requires q + 1 + |t| <= |data| && data[q] == ' ' && data[q + 1..q + 1 + |t|] == t && IsPlainToken(t)
    requires q + 1 + |t| == |data| || data[q + 1 + |t|] == ' '
    ensures NextToken(data, q) == (t, if q + 1 + |t| == |data| then Npos else Index(q + 1 + |t|))
  {
    assert data[q + 1] == t[0];
    SkipEndAt(data, q, q + 1);
    TokenOfPlain(data, q + 1, t);
  }

  /** A block started on the space before the line's last plain token cuts that token and ends at `npos`. */
  lemma NextTokenLast(data: string, q: nat, t: string)
    requires q < |data| && data[q] == ' ' && data[q + 1..] == t && IsPlainToken(t)
    ensures NextToken(data, q) == (t, Npos)
  {
    assert q + 1 + |t| == |data|;
    assert data[q + 1..q + 1 + |t|] == t;
    NextTokenAfterSpace(data, q, t);
  }

  /** A line made of a head and a tail: the head is its prefix and the tail what follows it. */
  lemma SplitAfter(data: string, head: string, tail: string)
    requires data == head + tail
    ensures |head| <= |data| && data[..|head|] == head && data[|head|..] == tail
  {
  }

  /** A line that continues with `t + " " + rest` at `pos` has its space right after `t`. */
  lemma SplitAtSpace(data: string, pos: nat, t: string, rest: string)
    requires pos <= |data| && data[pos..] == t + " " + rest
    ensures pos + |t| < |data| && data[pos..pos + |t|] == t && data[pos + |t|] == ' '
    ensures data[pos + |t| + 1..] == rest
  {
    assert data[pos..][..|t|] == t;
    assert data[pos..][|t| + 1..] == rest;
  }

  /** Where each block stops on three plain tokens at `pos`, `q1 + 1` and `q2 + 1`, separated by single spaces. */
  lemma ThreeTokenBlocks(data: string, pos: nat, q1: nat, q2: nat, t1: string, t2: string, t3: string)
    requires pos + |t1| == q1 && q1 + 1 + |t2| == q2 && q2 + 1 + |t3| == |data|
    requires data[pos..q1] == t1 && data[q1] == ' ' && data[q1 + 1..q2] == t2 && data[q2] == ' ' && data[q2 + 1..] == t3
    requires IsPlainToken(t1) && IsPlainToken(t2) && IsPlainToken(t3)
    ensures NextToken(data, pos) == (t1, Index(q1))
    ensures NextToken(data, q1) == (t2, Index(q2))
    ensures NextToken(data, q2) == (t3, Npos)
  {
    NextTokenOfPlain(data, pos, t1);
    NextTokenAfterSpace(data, q1, t2);
    NextTokenLast(data, q2, t3);
  }

  /** `Lex3Floats` on three plain tokens laid out as in `ThreeTokenBlocks`. */
  lemma ReadThreeTokensAt(data: string, pos: nat, q1: nat, q2: nat, t1: string, t2: string, t3: string)
    requires pos + |t1| == q1 && q1 + 1 + |t2| == q2 && q2 + 1 + |t3| == |data|
    requires data[pos..q1] == t1 && data[q1] == ' ' && data[q1 + 1..q2] == t2 && data[q2] == ' ' && data[q2 + 1..] == t3
    requires IsPlainToken(t1) && IsPlainToken(t2) && IsPlainToken(t3)
    ensures Lex3Floats(data, pos) ==
              if Stof(t1).Err? then Caught(Stof(t1).error)
              else if Stof(t2).Err? then Caught(Stof(t2).error)
              else if Stof(t3).Err? then Caught(Stof(t3).error)
              else Lexed(Color(Stof(t1).value.0, Stof(t2).value.0, Stof(t3).value.0), Npos)
  {
    ThreeTokenBlocks(data, pos, q1, q2, t1, t2, t3);
  }

  /**
   * Three plain tokens separated by single spaces: `parseParam3Floats` reads
   * them in order, the first conversion failure wins, and on success the
   * cursor ends at `npos`.
   */
  lemma ReadThreeTokens(data: string, pos: nat, t1: string, t2: string, t3: string)
    requires pos <= |data| && data[pos..] == t1 + " " + t2 + " " + t3
    requires IsPlainToken(t1) && IsPlainToken(t2) && IsPlainToken(t3)
    ensures Lex3Floats(data, pos) ==
              if Stof(t1).Err? then Caught(Stof(t1).error)
              else if Stof(t2).Err? then Caught(Stof(t2).error)
              else if Stof(t3).Err? then Caught(Stof(t3).error)
              else Lexed(Color(Stof(t1).value.0, Stof(t2).value.0, Stof(t3).value.0), Npos)
  {
    var q1 := pos + |t1|;
    var q2 := q1 + 1 + |t2|;
    assert t1 + " " + t2 + " " + t3 == t1 + " " + (t2 + " " + t3);
    SplitAtSpace(data, pos, t1, t2 + " " + t3);
    SplitAtSpace(data, q1 + 1, t2, t3);
    ReadThreeTokensAt(data, pos, q1, q2, t1, t2, t3);
  }

  /** One plain token and then the end of the line: a failed conversion wins, and otherwise the second token is read at `data[npos]`. */
  lemma ReadOneToken(data: string, pos: nat, t1: string)
    requires pos <= |data| && data[pos..] == t1 && IsPlainToken(t1)
    ensures Lex3Floats(data, pos) == if Stof(t1).Err? then Caught(Stof(t1).error) else Undefined
  {
    assert data[pos..pos + |t1|] == t1;
    NextTokenOfPlain(data, pos, t1);
  }

  /** Two plain tokens separated by one space: the first block stops at that space, the second at `npos`. */
  lemma TwoTokenBlocks(data: string, pos: nat, t1: string, t2: string)
    requires pos <= |data| && data[pos..] == t1 + " " + t2
    requires IsPlainToken(t1) && IsPlainToken(t2)
    ensures pos + |t1| < |data|
    ensures NextToken(data, pos) == (t1, Index(pos + |t1|)) && NextToken(data, pos + |t1|) == (t2, Npos)
  {
    SplitAtSpace(data, pos, t1, t2);
    NextTokenOfPlain(data, pos, t1);
    NextTokenLast(data, pos + |t1|, t2);
  }

  /** Two blocks, the second ending the line: the first conversion failure wins, and otherwise the third block reads `data[npos]`. */
  lemma TwoBlocksRead(data: string, pos: nat, q1: nat, t1: string, t2: string)
    requires pos <= q1 < |data| && NextToken(data, pos) == (t1, Index(q1)) && NextToken(data, q1) == (t2, Npos)
    ensures Lex3Floats(data, pos) ==
              if Stof(t1).Err? then Caught(Stof(t1).error)
              else if Stof(t2).Err? then Caught(Stof(t2).error)
              else Undefined
  {
  }

  /**
   * Two plain tokens separated by one space and then the end of the line:
   * the first conversion failure wins, and when both convert the third token
   * is read at `data[npos]`.
   */
  lemma ReadTwoTokens(data: string, pos: nat, t1: string, t2: string)
    requires pos <= |data| && data[pos..] == t1 + " " + t2
    requires IsPlainToken(t1) && IsPlainToken(t2)
    ensures Lex3Floats(data, pos) ==
              if Stof(t1).Err? then Caught(Stof(t1).error)
              else if Stof(t2).Err? then Caught(Stof(t2).error)
              else Undefined
  {
    TwoTokenBlocks(data, pos, t1, t2);
    TwoBlocksRead(data, pos, pos + |t1|, t1, t2);
  }
}
