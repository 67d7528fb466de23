/**
 * The few `std::string` operations the parser relies on, stated on `seq<char>`.
 * Positions are `nat`; `std::string::npos` is `None`.
 */
module StdString {
  import opened Wrappers

  /** `data[i]` for `i <= data.size()`: the character at `i`, or the terminating `'\0'` at `size()`. */
  function At(data: string, i: nat): (c: char)
    requires i <= |data|
    ensures c == (data + ['\0'])[i]
  {
    if i < |data| then data[i] else '\0'
  }

  /** `word` occurs in `data` starting at index `i`. */
  predicate OccursAt(data: string, word: string, i: nat)
  {
    i + |word| <= |data| && data[i..i + |word|] == word
  }

  /**
   * `data.compare(pos, word.size(), word) == 0`: the substring of at most
   * `|word|` characters at `pos` equals `word`, which is `word` occurring at
   * `pos`; a comparison cut short by the end of `data` fails.
   */
  function CompareEqual(data: string, pos: nat, word: string): (r: bool)
    requires pos <= |data|
    ensures r <==> OccursAt(data, word, pos)
  {
    if pos + |word| <= |data| then data[pos..pos + |word|] == word
    else
      assert |data[pos..|data|]| < |word|;
      data[pos..|data|] == word
  }

  /** `data.find(word, from)`: the least index at or after `from` where `word` occurs, or `npos`. */
  function Find(data: string, word: string, from: nat): (r: Option<nat>)
    requires word != []
    ensures r.Some? ==> from <= r.value && OccursAt(data, word, r.value)
    ensures r.Some? ==> forall i | from <= i < r.value :: !OccursAt(data, word, i)
    ensures r.None? ==> forall i | from <= i :: !OccursAt(data, word, i)
    decreases |data| - from
  {
    if from + |word| > |data| then None
    else if data[from..from + |word|] == word then Some(from)
    else Find(data, word, from + 1)
  }

  /** `data.find(word, pos) == pos` holds exactly when `word` occurs at `pos`. */
  lemma FindAtStartIffOccurs(data: string, word: string, pos: nat)
    requires word != []
    ensures Find(data, word, pos) == Some(pos) <==> OccursAt(data, word, pos)
  {
  }

  /**
   * `data.find_first_of(c, from)` for a single character `c`: the least index
   * at or after `from` holding `c`, or `npos`.
   */
  function FindFirstOf(data: string, c: char, from: nat): (r: Option<nat>)
    ensures r.Some? ==> from <= r.value < |data| && data[r.value] == c
    ensures r.Some? ==> forall k | from <= k < r.value :: data[k] != c
    ensures r.None? ==> forall k | from <= k < |data| :: data[k] != c
    decreases |data| - from
  {
    if from >= |data| then None
    else if data[from] == c then Some(from)
    else FindFirstOf(data, c, from + 1)
  }

  /** Searching for a one-character string finds what searching for that character finds. */
  lemma {:induction false} FindOneCharacter(data: string, c: char, from: nat)
    ensures Find(data, [c], from) == FindFirstOf(data, c, from)
    decreases |data| - from
  {
    if from < |data| {
      assert OccursAt(data, [c], from) <==> data[from] == c by {
        assert data[from..from + 1] == [data[from]];
      }
      if data[from] != c {
        FindOneCharacter(data, c, from + 1);
      }
    }
  }
}
