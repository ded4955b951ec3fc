/**
 * The parts of Python's `str` that the pipeline relies on: `isspace`, `strip()`,
 * `replace(old, '')`, `sep.join(...)`, `split(sep)` and `split()`.
 * Strings are sequences of Unicode scalar values, as Python's `len` counts them.
 */
module Text {

  /** Python's whitespace: the characters for which `str.isspace()` holds. */
  predicate IsSpace(c: char) {
    || ('\t' <= c <= '\r')
    || ('\U{1C}' <= c <= '\U{1F}')
    || c == ' '
    || c == '\U{85}'
    || c == '\U{A0}'
    || c == '\U{1680}'
    || ('\U{2000}' <= c <= '\U{200A}')
    || c == '\U{2028}'
    || c == '\U{2029}'
    || c == '\U{202F}'
    || c == '\U{205F}'
    || c == '\U{3000}'
  }

  predicate NoSpace(s: string) {
    forall k :: 0 <= k < |s| ==> !IsSpace(s[k])
  }

  /** `s.lstrip()`: the suffix of `s` that starts at its first non-space character. */
  function TrimStart(s: string): (r: string)
    ensures |r| <= |s| && r == s[|s| - |r|..]
    ensures r == [] || !IsSpace(r[0])
    ensures forall k :: 0 <= k < |s| - |r| ==> IsSpace(s[k])
  {
    if s == [] || !IsSpace(s[0]) then s else TrimStart(s[1..])
  }

  /** `s.rstrip()`: the prefix of `s` that ends at its last non-space character. */
  function TrimEnd(s: string): (r: string)
    ensures |r| <= |s| && r == s[..|r|]
    ensures r == [] || !IsSpace(r[|r| - 1])
    ensures forall k :: |r| <= k < |s| ==> IsSpace(s[k])
  {
    if s == [] || !IsSpace(s[|s| - 1]) then s else TrimEnd(s[..|s| - 1])
  }

  /** `s.strip()`. */
  function Strip(s: string): (r: string)
    ensures r == [] || (!IsSpace(r[0]) && !IsSpace(r[|r| - 1]))
  {
    TrimEnd(TrimStart(s))
  }

  /** Stripping a string that neither starts nor ends with whitespace changes nothing. */
  lemma StripKeepsTrimmed(s: string)
    requires s == [] || (!IsSpace(s[0]) && !IsSpace(s[|s| - 1]))
    ensures Strip(s) == s
  {
  }

  /** `s.replace(pat, '')`: every occurrence of `pat`, scanned left to right without overlap, removed. */
  function RemoveAll(s: string, pat: string): (r: string)
    requires pat != []
    ensures |r| <= |s|
    decreases |s|
  {
    if |s| < |pat| then s
    else if s[..|pat|] == pat then RemoveAll(s[|pat|..], pat)
    else [s[0]] + RemoveAll(s[1..], pat)
  }

  predicate OccursAt(s: string, pat: string, i: nat) {
    i + |pat| <= |s| && s[i..i + |pat|] == pat
  }

  /** Removing a pattern that does not occur leaves the string as it is. */
  lemma {:induction false} RemoveAllAbsent(s: string, pat: string)
    requires pat != []
    requires forall i: nat :: !OccursAt(s, pat, i)
    ensures RemoveAll(s, pat) == s
    decreases |s|
  {
    if |s| >= |pat| {
      assert !OccursAt(s, pat, 0);
      assert s[..|pat|] != pat;
      forall i: nat ensures !OccursAt(s[1..], pat, i) {
        assert !OccursAt(s, pat, i + 1);
        if i + |pat| <= |s[1..]| {
          assert s[1..][i..i + |pat|] == s[i + 1..i + 1 + |pat|];
        }
      }
      RemoveAllAbsent(s[1..], pat);
    }
  }

  /** A pattern at the front is removed: `(pat + s).replace(pat, '') == s.replace(pat, '')`. */
  lemma RemoveAllLeading(pat: string, s: string)
    requires pat != []
    ensures RemoveAll(pat + s, pat) == RemoveAll(s, pat)
  {
    assert (pat + s)[..|pat|] == pat;
    assert (pat + s)[|pat|..] == s;
  }

  /** `pat` followed by `n` needs no stripping when it starts and ends with a non-space character. */
  lemma StripPrefixed(pat: string, n: string)
    requires pat != [] && !IsSpace(pat[0])
    requires if n == [] then !IsSpace(pat[|pat| - 1]) else !IsSpace(n[|n| - 1])
    ensures Strip(pat + n) == pat + n
  {
    var text := pat + n;
    assert text[0] == pat[0];
    if n == [] {
      assert text == pat;
    } else {
      assert text[|text| - 1] == n[|n| - 1];
    }
    StripKeepsTrimmed(text);
  }

  /**
   * A text that is `pat` followed by `n` and trimmed at both ends, once stripped and rid
   * of `pat`, is `n`, provided `pat` does not occur in `n`.
   */
  lemma StripRemoveLeading(pat: string, n: string)
    requires pat != [] && !IsSpace(pat[0])
    requires if n == [] then !IsSpace(pat[|pat| - 1]) else !IsSpace(n[|n| - 1])
    requires forall i: nat :: !OccursAt(n, pat, i)
    ensures RemoveAll(Strip(pat + n), pat) == n
  {
    assert RemoveAll(n, pat) == n by { RemoveAllAbsent(n, pat); }
    assert RemoveAll(pat + n, pat) == RemoveAll(n, pat) by { RemoveAllLeading(pat, n); }
    assert Strip(pat + n) == pat + n by { StripPrefixed(pat, n); }
  }

  /** `sep.join(ws)`. */
  function Join(sep: string, ws: seq<string>): (r: string)
    ensures ws == [] ==> r == []
    ensures |ws| == 1 ==> r == ws[0]
  {
    if ws == [] then []
    else if |ws| == 1 then ws[0]
    else ws[0] + sep + Join(sep, ws[1..])
  }

  /** Total length of the strings in `ws`. */
  function SumLen(ws: seq<string>): nat {
    if ws == [] then 0 else |ws[0]| + SumLen(ws[1..])
  }

  /** The joined string is as long as its pieces plus one separator between each two. */
  lemma {:induction false} JoinLength(sep: string, ws: seq<string>)
    requires ws != []
    ensures |Join(sep, ws)| == SumLen(ws) + (|ws| - 1) * |sep|
  {
    if |ws| > 1 {
      JoinLength(sep, ws[1..]);
    }
  }

  lemma {:induction false} SumLenAppend(ws: seq<string>, w: string)
    ensures SumLen(ws + [w]) == SumLen(ws) + |w|
  {
    if ws != [] {
      assert (ws + [w])[1..] == ws[1..] + [w];
      SumLenAppend(ws[1..], w);
    }
  }

  /** The strings of `ws` concatenated, the same as `''.join(ws)`. */
  function Concat(ws: seq<string>): string {
    if ws == [] then [] else ws[0] + Concat(ws[1..])
  }

  lemma {:induction false} ConcatAppend(a: seq<string>, b: seq<string>)
    ensures Concat(a + b) == Concat(a) + Concat(b)
  {
    if a != [] {
      assert (a + b)[1..] == a[1..] + b;
      ConcatAppend(a[1..], b);
    } else {
      assert a + b == b;
    }
  }

  /**
   * `s.split(sep)` for a one-character separator: the pieces between separators,
   * including empty ones; it never returns an empty list.
   */
  function SplitOn(s: string, sep: char): (pieces: seq<string>)
    ensures |pieces| >= 1
  {
    if s == [] then [""]
    else
      var rest := SplitOn(s[1..], sep);
      if s[0] == sep then [""] + rest else [[s[0]] + rest[0]] + rest[1..]
  }

  /** Splitting loses nothing: no piece holds the separator, and joining the pieces with it restores `s`. */
  lemma {:induction false} SplitOnJoin(s: string, sep: char)
    ensures forall p <- SplitOn(s, sep) :: sep !in p
    ensures Join([sep], SplitOn(s, sep)) == s
  {
    if s != [] {
      var rest := SplitOn(s[1..], sep);
      SplitOnJoin(s[1..], sep);
      if s[0] != sep {
        var pieces := [[s[0]] + rest[0]] + rest[1..];
        assert rest[0] in rest;
        assert forall p <- rest[1..] :: p in rest;
        if |rest| > 1 {
          assert pieces[1..] == rest[1..];
        }
        assert s == [s[0]] + s[1..];
      } else {
        assert ([""] + rest)[1..] == rest;
        assert s == [s[0]] + s[1..];
      }
    }
  }

  /** Splitting after a piece without separators yields that piece, then the split of the rest. */
  lemma {:induction false} SplitOnAfterPiece(x: string, y: string, sep: char)
    requires sep !in x
    ensures SplitOn(x + [sep] + y, sep) == [x] + SplitOn(y, sep)
  {
    if x == [] {
      assert (x + [sep] + y)[1..] == y;
    } else {
      assert (x + [sep] + y)[1..] == x[1..] + [sep] + y;
      SplitOnAfterPiece(x[1..], y, sep);
      assert [x[0]] + x[1..] == x;
    }
  }

  /** A string without the separator splits into itself alone. */
  lemma {:induction false} SplitOnWithoutSeparator(s: string, sep: char)
    requires sep !in s
    ensures SplitOn(s, sep) == [s]
  {
    if s != [] {
      assert s[0] != sep;
      SplitOnWithoutSeparator(s[1..], sep);
      assert [s[0]] + s[1..] == s;
    }
  }

  /** Index of the first whitespace character of `s`, or `|s|` when there is none. */
  function SpaceIndex(s: string): (k: nat)
    ensures k <= |s|
    ensures NoSpace(s[..k])
    ensures k < |s| ==> IsSpace(s[k])
  {
    if s == [] || IsSpace(s[0]) then 0 else 1 + SpaceIndex(s[1..])
  }

  /**
   * `s.split()`: the maximal runs of non-whitespace characters, in order;
   * leading, trailing and repeated whitespace produce no empty words.
   */
  function Words(s: string): (ws: seq<string>)
    ensures forall w <- ws :: w != [] && NoSpace(w)
    decreases |s|
  {
    var t := TrimStart(s);
    if t == [] then []
    else
      var k := SpaceIndex(t);
      [t[..k]] + Words(t[k..])
  }

  /** The non-whitespace characters of `s`, in order. */
  function NonSpace(s: string): string {
    if s == [] then []
    else if IsSpace(s[0]) then NonSpace(s[1..])
    else [s[0]] + NonSpace(s[1..])
  }

  lemma {:induction false} NonSpaceAppend(a: string, b: string)
    ensures NonSpace(a + b) == NonSpace(a) + NonSpace(b)
  {
    if a != [] {
      assert (a + b)[1..] == a[1..] + b;
      NonSpaceAppend(a[1..], b);
    } else {
      assert a + b == b;
    }
  }

  lemma {:induction false} NonSpaceOfSpaces(s: string)
    requires forall k :: 0 <= k < |s| ==> IsSpace(s[k])
    ensures NonSpace(s) == []
  {
    if s != [] {
      NonSpaceOfSpaces(s[1..]);
    }
  }

  lemma {:induction false} NonSpaceOfWord(s: string)
    requires NoSpace(s)
    ensures NonSpace(s) == s
  {
    if s != [] {
      NonSpaceOfWord(s[1..]);
    }
  }

  lemma NonSpaceAfterWord(t: string, k: nat)
    requires k <= |t| && NoSpace(t[..k])
    ensures NonSpace(t) == t[..k] + NonSpace(t[k..])
  {
    var w, rest := t[..k], t[k..];
    assert t == w + rest;
    NonSpaceAppend(w, rest);
    NonSpaceOfWord(w);
  }

  /** `split()` loses nothing but whitespace: its words, concatenated, are the non-space characters of `s`. */
  lemma {:induction false} WordsKeepNonSpace(s: string)
    ensures Concat(Words(s)) == NonSpace(s)
    decreases |s|
  {
    var t := TrimStart(s);
    assert NonSpace(s) == NonSpace(t) by {
      var lead := s[..|s| - |t|];
      assert s == lead + t;
      NonSpaceAppend(lead, t);
      NonSpaceOfSpaces(lead);
    }
    if t != [] {
      var k := SpaceIndex(t);
      var ws := Words(t[k..]);
      assert Words(s) == [t[..k]] + ws;
      assert Concat(Words(s)) == t[..k] + Concat(ws) by {
        assert ([t[..k]] + ws)[1..] == ws;
      }
      NonSpaceAfterWord(t, k);
      WordsKeepNonSpace(t[k..]);
    }
  }

  /** The first whitespace of a word followed by whitespace is just past the word. */
  lemma {:induction false} SpaceIndexAfterWord(w: string, r: string)
    requires NoSpace(w) && (r == [] || IsSpace(r[0]))
    ensures SpaceIndex(w + r) == |w|
  {
    if w != [] {
      assert (w + r)[1..] == w[1..] + r;
      SpaceIndexAfterWord(w[1..], r);
    } else {
      assert w + r == r;
    }
  }

  /** A word followed by a blank and more text splits into the word, then the split of the rest. */
  lemma WordsAfterWord(w: string, rest: string)
    requires w != [] && NoSpace(w)
    ensures Words(w + " " + rest) == [w] + Words(rest)
  {
    var s := w + " " + rest;
    assert TrimStart(s) == s;
    SpaceIndexAfterWord(w, " " + rest);
    assert s == w + (" " + rest);
    assert s[..|w|] == w && s[|w|..] == " " + rest;
    assert TrimStart(" " + rest) == TrimStart(rest) by {
      assert (" " + rest)[1..] == rest;
    }
  }

  /** A single word splits into itself. */
  lemma WordsOfWord(w: string)
    requires w != [] && NoSpace(w)
    ensures Words(w) == [w]
  {
    assert TrimStart(w) == w;
    SpaceIndexAfterWord(w, []);
    assert w + [] == w && w[..|w|] == w && w[|w|..] == [];
  }

  /** `' '.join(ws).split() == ws` for words without whitespace: joining with blanks loses nothing. */
  lemma {:induction false} WordsOfJoin(ws: seq<string>)
    requires forall w <- ws :: w != [] && NoSpace(w)
    ensures Words(Join(" ", ws)) == ws
  {
    if ws != [] {
      var w, rest := ws[0], ws[1..];
      assert w in ws;
      if rest == [] {
        WordsOfWord(w);
      } else {
        assert forall x <- rest :: x in ws;
        WordsOfJoin(rest);
        assert Join(" ", ws) == w + " " + Join(" ", rest);
        WordsAfterWord(w, Join(" ", rest));
        assert ws == [w] + rest;
      }
    }
  }
}
