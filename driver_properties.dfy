/**
 * What the constructor's line loop does over a whole file, stated over
 * `ParseLines`: where it stops, which materials it creates, and what it
 * leaves alone.
 */
module MtlDriverProperties {
  import opened Wrappers
  import opened MtlMaterial
  import opened MtlLexer
  import opened MtlParser
  import opened MtlParserProperties

  /** The material names, in list order. */
  function Names(ms: seq<Material>): seq<string>
  {
    seq(|ms|, k requires 0 <= k < |ms| => ms[k].name)
  }

  /** A `newmtl` line: `newmtl` after the optional characters, with room for the character skipped after it. */
  predicate StartsMaterial(line: string)
  {
    IsBoundary(line, SkipEnd(line, 0)) && SkipEnd(line, 0) + SentinelLen <= |line|
  }

  /** The name a `newmtl` line gives: the rest of the line after that character and the optional characters that follow. */
  function MaterialName(line: string): string
    requires StartsMaterial(line)
  {
    line[SkipEnd(line, SkipEnd(line, 0) + SentinelLen)..]
  }

  /** The names the `newmtl` lines among `lines` give, in order. */
  function NewNames(lines: seq<string>): seq<string>
    decreases |lines|
  {
    if lines == [] then []
    else (if StartsMaterial(lines[0]) then [MaterialName(lines[0])] else []) + NewNames(lines[1..])
  }

  /** A line that does not abort adds its `newmtl` name, if it is a `newmtl` line, and changes no other name. */
  lemma StepNames(ms: seq<Material>, line: string)
    requires !Step(ms, line).1.Aborted?
    ensures Names(Step(ms, line).0) == Names(ms) + (if StartsMaterial(line) then [MaterialName(line)] else [])
  {
    StepBranches(ms, line);
    StepFrame(ms, line);
    var (ms2, o) := Step(ms, line);
    if o.Committed? {
      CommitKeepsName(ms[|ms| - 1], o.key, ms2[|ms| - 1]);
      forall k | 0 <= k < |ms| - 1
        ensures ms2[k].name == ms[k].name
      {
        assert ms2[k] == ms2[..|ms| - 1][k];
      }
      assert Names(ms2) == Names(ms);
    }
  }

  /** One step of the driver: a line that does not abort hands its new list to the rest of the lines. */
  lemma ParseLinesFirst(ms: seq<Material>, line: string, rest: seq<string>)
    ensures var (next, o) := Step(ms, line);
      ParseLines(ms, [line] + rest) == if o.Aborted? then (ms, Some(o.fault)) else ParseLines(next, rest)
  {
    assert ([line] + rest)[0] == line && ([line] + rest)[1..] == rest;
  }

  /** The driver runs the first lines and then the others, unless one of the first lines faults. */
  lemma {:induction false} ParseLinesAppend(ms: seq<Material>, a: seq<string>, b: seq<string>)
    ensures var (r, f) := ParseLines(ms, a);
      ParseLines(ms, a + b) == if f.Some? then (r, f) else ParseLines(r, b)
    decreases |a|
  {
    if a == [] {
      assert a + b == b;
    } else {
      assert a == [a[0]] + a[1..];
      assert a + b == [a[0]] + (a[1..] + b);
      ParseLinesFirst(ms, a[0], a[1..]);
      ParseLinesFirst(ms, a[0], a[1..] + b);
      var (next, o) := Step(ms, a[0]);
      if !o.Aborted? {
        ParseLinesAppend(next, a[1..], b);
      }
    }
  }

  /**
   * The line where the driver stopped: every line before it ran without a
   * fault and built the final list, and that line aborts on it.
   */
  function FaultLine(ms: seq<Material>, lines: seq<string>): (k: nat)
    requires ParseLines(ms, lines).1.Some?
    ensures k < |lines|
    ensures ParseLines(ms, lines[..k]) == (ParseLines(ms, lines).0, None)
    ensures Step(ParseLines(ms, lines).0, lines[k]).1 == Aborted(ParseLines(ms, lines).1.value)
    decreases |lines|
  {
    var (next, o) := Step(ms, lines[0]);
    if o.Aborted? then
      assert lines[..0] == [];
      0
    else
      var k := FaultLine(next, lines[1..]);
      FaultLineShift(ms, lines, k);
      k + 1
  }

  /** The driver on the first `k + 1` lines is the driver on the first `k` of the lines after a first line that does not abort. */
  lemma FaultLineShift(ms: seq<Material>, lines: seq<string>, k: nat)
    requires k < |lines| - 1 && !Step(ms, lines[0]).1.Aborted?
    ensures ParseLines(ms, lines[..k + 1]) == ParseLines(Step(ms, lines[0]).0, lines[1..][..k])
    ensures ParseLines(ms, lines) == ParseLines(Step(ms, lines[0]).0, lines[1..])
    ensures lines[1..][k] == lines[k + 1]
  {
    assert lines[..k + 1] == [lines[0]] + lines[1..][..k];
    ParseLinesFirst(ms, lines[0], lines[1..][..k]);
  }

  /** When no line faults, the names are the old ones followed by those of the `newmtl` lines, in file order. */
  lemma {:induction false} NamesFollowNewmtlLines(ms: seq<Material>, lines: seq<string>)
    requires ParseLines(ms, lines).1.None?
    ensures Names(ParseLines(ms, lines).0) == Names(ms) + NewNames(lines)
    decreases |lines|
  {
    if lines != [] {
      var next := Step(ms, lines[0]).0;
      var created := if StartsMaterial(lines[0]) then [MaterialName(lines[0])] else [];
      assert ParseLines(ms, lines) == ParseLines(next, lines[1..]);
      assert NewNames(lines) == created + NewNames(lines[1..]);
      StepNames(ms, lines[0]);
      NamesFollowNewmtlLines(next, lines[1..]);
      assert Names(ms) + created + NewNames(lines[1..]) == Names(ms) + (created + NewNames(lines[1..]));
    }
  }

  /**
   * The driver never removes a material and only ever writes the last one:
   * every material but the last of the starting list is kept as it was, and
   * the last keeps its name.
   */
  lemma {:induction false} EarlierMaterialsKept(ms: seq<Material>, lines: seq<string>)
    requires ms != []
    ensures var r := ParseLines(ms, lines).0;
      |ms| <= |r| && r[..|ms| - 1] == ms[..|ms| - 1] && r[|ms| - 1].name == ms[|ms| - 1].name
    decreases |lines|
  {
    if lines != [] {
      var (next, o) := Step(ms, lines[0]);
      if !o.Aborted? {
        StepFrame(ms, lines[0]);
        if o.Committed? {
          CommitKeepsName(ms[|ms| - 1], o.key, next[|ms| - 1]);
        }
        assert |ms| <= |next| && next[..|ms| - 1] == ms[..|ms| - 1] && next[|ms| - 1].name == ms[|ms| - 1].name;
        EarlierMaterialsKept(next, lines[1..]);
        var r := ParseLines(next, lines[1..]).0;
        assert r[..|ms| - 1] == r[..|next| - 1][..|ms| - 1];
        assert next[..|ms| - 1] == next[..|next| - 1][..|ms| - 1];
        if |next| > |ms| {
          assert r[|ms| - 1] == r[..|next| - 1][|ms| - 1];
          assert next[|ms| - 1] == next[..|next| - 1][|ms| - 1];
        }
      }
    }
  }

  /** Lines before the first `newmtl` line leave the empty list empty and never fault. */
  lemma {:induction false} OrphanLinesOnly(lines: seq<string>)
    requires forall k | 0 <= k < |lines| :: !IsBoundary(lines[k], SkipEnd(lines[k], 0))
    ensures ParseLines([], lines) == ([], None)
    decreases |lines|
  {
    if lines != [] {
      StepBranches([], lines[0]);
      StepFrame([], lines[0]);
      OrphanLinesOnly(lines[1..]);
    }
  }

  /** Lines before the first `newmtl` line are dropped: the file parses as if they were not there. */
  lemma OrphanLinesDropped(prefix: seq<string>, rest: seq<string>)
    requires forall k | 0 <= k < |prefix| :: !IsBoundary(prefix[k], SkipEnd(prefix[k], 0))
    ensures ParseLines([], prefix + rest) == ParseLines([], rest)
  {
    OrphanLinesOnly(prefix);
    ParseLinesAppend([], prefix, rest);
  }
}
