/**
 * The clean-up `extract_field` applies to a captured group:
 * `re.sub(r'\s+', ' ', value.strip())`.
 *
 * `Normalize` follows those two steps. Its reference definition is
 * `Join(Words(s))`, Python's `' '.join(s.split())`. `NormalizeIsJoinedWords`
 * proves that the two agree on every string.
 */
module Normalize {
  import opened Chars

  /** `s[lo..hi]` holds no whitespace */
  predicate NoSpaceIn(s: string, lo: int, hi: int)
  {
    forall i :: lo <= i < hi && 0 <= i < |s| ==> !IsSpace(s[i])
  }

  /** `s[lo..hi]` is all whitespace */
  predicate AllSpaceIn(s: string, lo: int, hi: int)
  {
    forall i :: lo <= i < hi && 0 <= i < |s| ==> IsSpace(s[i])
  }

  /** `s.lstrip()`: the suffix of `s` after its leading whitespace */
  function StripLeft(s: string): (r: string)
    ensures |r| <= |s| && r == s[|s| - |r|..]
    ensures r == [] || !IsSpace(r[0])
    ensures AllSpaceIn(s, 0, |s| - |r|)
  {
    if |s| > 0 && IsSpace(s[0]) then StripLeft(s[1..]) else s
  }

  /** `s.rstrip()`: the prefix of `s` before its trailing whitespace */
  function StripRight(s: string): (r: string)
    ensures |r| <= |s| && r == s[..|r|]
    ensures r == [] || !IsSpace(r[|r| - 1])
    ensures AllSpaceIn(s, |r|, |s|)
  {
    if |s| > 0 && IsSpace(s[|s| - 1]) then
      var r := StripRight(s[..|s| - 1]);
      assert forall i :: |r| <= i < |s| - 1 ==> s[i] == s[..|s| - 1][i];
      r
    else s
  }

  /** `s.strip()` */
  function Strip(s: string): string
  {
    StripRight(StripLeft(s))
  }

  /** `re.sub(r'\s+', ' ', s)`: each maximal run of whitespace becomes a single ' ' */
  function Collapse(s: string): string
    decreases |s|
  {
    if s == [] then []
    else if IsSpace(s[0]) then " " + Collapse(StripLeft(s[1..]))
    else [s[0]] + Collapse(s[1..])
  }

  /** The value `extract_field` returns for a captured group `s` */
  function Normalize(s: string): string
  {
    Collapse(Strip(s))
  }

  /** Every whitespace character is a ' ' that is followed by a non-whitespace character or ends the string. */
  predicate SingleSpaced(s: string)
  {
    forall i :: 0 <= i < |s| && IsSpace(s[i]) ==> s[i] == ' ' && (i + 1 == |s| || !IsSpace(s[i + 1]))
  }

  /** No leading or trailing whitespace, and inside only single ' ' between non-whitespace characters */
  predicate Normalized(s: string)
  {
    && (|s| > 0 ==> !IsSpace(s[0]) && !IsSpace(s[|s| - 1]))
    && SingleSpaced(s)
  }

  /** The longest prefix of `s` that holds no whitespace */
  function Word(s: string): (w: string)
    ensures |w| <= |s| && w == s[..|w|]
    ensures NoSpaceIn(s, 0, |w|)
    ensures |w| == |s| || IsSpace(s[|w|])
  {
    if s == [] || IsSpace(s[0]) then [] else [s[0]] + Word(s[1..])
  }

  /** `s.split()`: the maximal whitespace-free pieces of `s`, in order */
  function Words(s: string): seq<string>
    decreases |s|
  {
    var t := StripLeft(s);
    if t == [] then []
    else
      var w := Word(t);
      [w] + Words(t[|w|..])
  }

  /** `' '.join(ws)` */
  function Join(ws: seq<string>): string
  {
    if ws == [] then ""
    else if |ws| == 1 then ws[0]
    else ws[0] + " " + Join(ws[1..])
  }

  /** The leading whitespace of `s` ends at `k` when `s[..k]` is whitespace and `s[k]` is not. */
  lemma StripLeftAt(s: string, k: nat)
    requires k <= |s| && AllSpaceIn(s, 0, k)
    requires k == |s| || !IsSpace(s[k])
    ensures StripLeft(s) == s[k..]
  {
  }

  /** The trailing whitespace of `s` starts at `k` when `s[k..]` is whitespace and `s[k - 1]` is not. */
  lemma StripRightAt(s: string, k: nat)
    requires k <= |s| && AllSpaceIn(s, k, |s|)
    requires k == 0 || !IsSpace(s[k - 1])
    ensures StripRight(s) == s[..k]
  {
    var r := StripRight(s);
    if |r| > k {
      assert r[|r| - 1] == s[|r| - 1];
    }
  }

  /** The first word of `s` ends at `k` when `s[..k]` is whitespace-free and `s[k]` is whitespace. */
  lemma WordAt(s: string, k: nat)
    requires k <= |s| && NoSpaceIn(s, 0, k)
    requires k == |s| || IsSpace(s[k])
    ensures Word(s) == s[..k]
  {
  }

  /** Collapsing leaves whitespace-free text before the first run untouched. */
  lemma {:induction false} CollapseKeepsPrefix(s: string, k: nat)
    requires k <= |s| && NoSpaceIn(s, 0, k)
    ensures Collapse(s) == s[..k] + Collapse(s[k..])
    decreases k
  {
    if k > 0 {
      var s' := s[1..];
      assert NoSpaceIn(s', 0, k - 1) by {
        forall i | 0 <= i < k - 1
          ensures !IsSpace(s'[i])
        {
          assert s'[i] == s[i + 1];
        }
      }
      CollapseKeepsPrefix(s', k - 1);
      assert Collapse(s) == [s[0]] + Collapse(s') by {
        assert !IsSpace(s[0]);
      }
      ConsPrefix(s, k, Collapse(s[k..]));
    }
  }

  lemma ConsPrefix(s: string, k: nat, c: string)
    requires 0 < k <= |s|
    ensures s[1..][k - 1..] == s[k..]
    ensures [s[0]] + (s[1..][..k - 1] + c) == s[..k] + c
  {
    assert s[..k] == [s[0]] + s[1..][..k - 1];
    AppendAssoc([s[0]], s[1..][..k - 1], c);
  }

  /** Putting a character before a single-spaced string keeps it single-spaced unless it makes a run. */
  lemma SingleSpacedCons(c: char, r: string)
    requires SingleSpaced(r)
    requires IsSpace(c) ==> c == ' ' && (r == [] || !IsSpace(r[0]))
    ensures SingleSpaced([c] + r)
  {
    var cr := [c] + r;
    forall i | 0 <= i < |cr| && IsSpace(cr[i])
      ensures cr[i] == ' ' && (i + 1 == |cr| || !IsSpace(cr[i + 1]))
    {
      if i > 0 {
        assert cr[i] == r[i - 1];
        assert i + 1 < |cr| ==> cr[i + 1] == r[i];
      }
    }
  }

  /** A string is all whitespace when stripping its leading whitespace leaves nothing. */
  lemma StripLeftEmpty(s: string)
    requires |s| > 0 && StripLeft(s) == []
    ensures IsSpace(s[|s| - 1])
  {
  }

  /**
   * What collapsing produces: whitespace only as single ' ', never empty unless the
   * input is, and starting and ending with whitespace exactly when the input does.
   */
  lemma {:induction false} CollapseShape(s: string)
    ensures SingleSpaced(Collapse(s))
    ensures |Collapse(s)| == 0 <==> |s| == 0
    ensures |s| > 0 ==> (IsSpace(Collapse(s)[0]) <==> IsSpace(s[0]))
    ensures |s| > 0 ==> (IsSpace(Collapse(s)[|Collapse(s)| - 1]) <==> IsSpace(s[|s| - 1]))
    decreases |s|
  {
    if s == [] {
    } else if IsSpace(s[0]) {
      var t := StripLeft(s[1..]);
      CollapseShape(t);
      var c := Collapse(t);
      assert Collapse(s) == [' '] + c;
      SingleSpacedCons(' ', c);
      if t == [] {
        if |s| > 1 {
          StripLeftEmpty(s[1..]);
          assert s[1..][|s| - 2] == s[|s| - 1];
        }
      } else {
        assert t[|t| - 1] == s[|s| - 1];
      }
    } else {
      var c := Collapse(s[1..]);
      CollapseShape(s[1..]);
      assert Collapse(s) == [s[0]] + c;
      SingleSpacedCons(s[0], c);
      if |s| > 1 {
        assert s[1..][|s| - 2] == s[|s| - 1];
      }
    }
  }

  /** Stripping removes every leading and trailing whitespace character. */
  lemma StripShape(s: string)
    ensures Strip(s) == [] || (!IsSpace(Strip(s)[0]) && !IsSpace(Strip(s)[|Strip(s)| - 1]))
  {
    var x := StripLeft(s);
    var t := StripRight(x);
    if t != [] {
      assert t[0] == x[0];
    }
  }

  /** Every value `Normalize` returns is normalised. */
  lemma NormalizeIsNormalized(s: string)
    ensures Normalized(Normalize(s))
  {
    var t := Strip(s);
    StripShape(s);
    CollapseShape(t);
  }

  /** A single-spaced string is left unchanged by collapsing. */
  lemma {:induction false} CollapseFixpoint(s: string)
    requires SingleSpaced(s)
    ensures Collapse(s) == s
    decreases |s|
  {
    if s != [] {
      var s' := s[1..];
      assert SingleSpaced(s') by {
        forall i | 0 <= i < |s'| && IsSpace(s'[i])
          ensures s'[i] == ' ' && (i + 1 == |s'| || !IsSpace(s'[i + 1]))
        {
          assert s'[i] == s[i + 1];
          assert i + 1 < |s'| ==> s'[i + 1] == s[i + 2];
        }
      }
      CollapseFixpoint(s');
      if IsSpace(s[0]) {
        assert s' == [] || !IsSpace(s'[0]);
        assert StripLeft(s') == s';
        assert Collapse(s) == " " + s';
      }
    }
  }

  /** A normalised string is a fixed point of `Normalize`. */
  lemma NormalizedFixpoint(s: string)
    requires Normalized(s)
    ensures Normalize(s) == s
  {
    assert StripLeft(s) == s;
    assert StripRight(s) == s;
    CollapseFixpoint(s);
  }

  /** `s` is normalised exactly when normalising leaves it unchanged. */
  lemma NormalizedIffFixpoint(s: string)
    ensures Normalized(s) <==> Normalize(s) == s
  {
    if Normalized(s) {
      NormalizedFixpoint(s);
    } else {
      NormalizeIsNormalized(s);
    }
  }

  /** Normalising twice is normalising once. */
  lemma NormalizeIdempotent(s: string)
    ensures Normalize(Normalize(s)) == Normalize(s)
  {
    NormalizeIsNormalized(s);
    NormalizedFixpoint(Normalize(s));
  }

  /** `Join` of at least two words puts one ' ' after the first. */
  lemma JoinCons(w: string, ws: seq<string>)
    requires ws != []
    ensures Join([w] + ws) == w + " " + Join(ws)
  {
    assert ([w] + ws)[1..] == ws;
  }

  /** The words of a string that starts with a word: that word, then the words of the rest. */
  lemma WordsOfWord(t: string)
    requires t != [] && !IsSpace(t[0])
    ensures Words(t) == [Word(t)] + Words(t[|Word(t)|..])
  {
    assert StripLeft(t) == t;
  }

  /** Leading whitespace adds no word. */
  lemma WordsIgnoreLeadingSpace(s: string)
    ensures Words(s) == Words(StripLeft(s))
  {
    var t := StripLeft(s);
    assert StripLeft(t) == t;
  }

  /** Collapsing a string that starts with whitespace gives one space, then the collapsed rest. */
  lemma CollapseOfSpace(u: string)
    requires u != [] && IsSpace(u[0])
    ensures StripLeft(u) == StripLeft(u[1..])
    ensures Collapse(u) == " " + Collapse(StripLeft(u))
  {
  }

  /** One space when `t` ends with whitespace, which collapsing keeps after the last word */
  function TrailingSpace(t: string): string
  {
    if |t| > 0 && IsSpace(t[|t| - 1]) then " " else ""
  }

  lemma SplitAt(s: string, k: nat)
    requires k <= |s|
    ensures s == s[..k] + s[k..]
  {
  }

  lemma AppendAssoc(a: string, b: string, c: string)
    ensures a + (b + c) == (a + b) + c
  {
  }

  /** After a word, whitespace with nothing behind it collapses to one trailing space. */
  lemma CollapseSpaceTail(t: string, w: string, u: string)
    requires t == w + u && u != [] && IsSpace(u[0])
    requires StripLeft(u) == []
    ensures Words(u) == [] && Collapse(u) == " " && TrailingSpace(t) == " "
  {
    CollapseOfSpace(u);
    WordsIgnoreLeadingSpace(u);
    assert t[|t| - 1] == u[|u| - 1];
    StripLeftEmpty(u);
  }

  /** `t` and the non-empty remainder of `t` after a word and some whitespace end alike. */
  lemma TrailingSpaceOfRest(t: string, w: string, u: string)
    requires t == w + u && StripLeft(u) != []
    ensures TrailingSpace(StripLeft(u)) == TrailingSpace(t)
  {
    var v := StripLeft(u);
    assert t[|t| - 1] == u[|u| - 1];
    assert v[|v| - 1] == u[|u| - 1];
  }

  /** After a word, whitespace followed by more words collapses to one space before those words. */
  lemma CollapseSpaceThenWords(t: string, w: string, u: string)
    requires t == w + u && u != [] && IsSpace(u[0])
    requires StripLeft(u) != []
    requires Collapse(StripLeft(u)) == Join(Words(StripLeft(u))) + TrailingSpace(StripLeft(u))
    ensures Collapse(u) == " " + Join(Words(u)) + TrailingSpace(t)
    ensures Words(u) != []
  {
    var v := StripLeft(u);
    var j := Join(Words(v));
    var x := TrailingSpace(t);
    assert Collapse(u) == " " + (j + x) by {
      CollapseOfSpace(u);
      TrailingSpaceOfRest(t, w, u);
    }
    assert Words(u) == Words(v) by {
      WordsIgnoreLeadingSpace(u);
    }
    assert Words(v) != [] by {
      WordsOfWord(v);
    }
    AppendAssoc(" ", j, x);
  }

  /** A word, one space and the joined remaining words is the join of all of them. */
  lemma JoinAfterWord(w: string, ws: seq<string>, x: string)
    requires ws != []
    ensures w + (" " + Join(ws) + x) == Join([w] + ws) + x
  {
    var j := Join(ws);
    JoinCons(w, ws);
    AppendAssoc(" ", j, x);
    AppendAssoc(w, " " + j, x);
    AppendAssoc(w, " ", j);
  }

  /** A string that starts with a word is that word and a remainder that collapses on its own. */
  lemma FirstWord(t: string, w: string, u: string)
    requires t != [] && !IsSpace(t[0]) && w == Word(t) && u == t[|w|..]
    ensures t == w + u && NoSpaceIn(t, 0, |w|) && (u == [] || IsSpace(u[0]))
    ensures Words(t) == [w] + Words(u) && Collapse(t) == w + Collapse(u)
  {
    WordsOfWord(t);
    CollapseKeepsPrefix(t, |w|);
    assert t[..|w|] == w;
    SplitAt(t, |w|);
  }

  /** `CollapseIsJoin` when `t` is a single word. */
  lemma CollapseIsJoinOneWord(t: string)
    requires t != [] && !IsSpace(t[0]) && Word(t) == t
    ensures Collapse(t) == Join(Words(t)) + TrailingSpace(t)
  {
    FirstWord(t, t, []);
    assert Words(t) == [t];
  }

  /** `CollapseIsJoin` when `t` is a word followed by whitespace only. */
  lemma CollapseIsJoinTrailing(t: string, w: string, u: string)
    requires t != [] && !IsSpace(t[0]) && w == Word(t) && u == t[|w|..]
    requires u != [] && StripLeft(u) == []
    ensures Collapse(t) == Join(Words(t)) + TrailingSpace(t)
  {
    FirstWord(t, w, u);
    CollapseSpaceTail(t, w, u);
    assert Words(t) == [w];
  }

  /** `CollapseIsJoin` when `t` is a word, whitespace and more words, given the claim for those words. */
  lemma CollapseIsJoinMore(t: string, w: string, u: string)
    requires t != [] && !IsSpace(t[0]) && w == Word(t) && u == t[|w|..]
    requires u != [] && StripLeft(u) != []
    requires Collapse(StripLeft(u)) == Join(Words(StripLeft(u))) + TrailingSpace(StripLeft(u))
    ensures Collapse(t) == Join(Words(t)) + TrailingSpace(t)
  {
    FirstWord(t, w, u);
    CollapseSpaceThenWords(t, w, u);
    JoinAfterWord(w, Words(u), TrailingSpace(t));
  }

  /**
   * Collapsing a string that does not start with whitespace joins its words
   * with single spaces, and keeps one space for trailing whitespace.
   */
  lemma {:induction false} CollapseIsJoin(t: string)
    requires t == [] || !IsSpace(t[0])
    ensures Collapse(t) == Join(Words(t)) + TrailingSpace(t)
    decreases |t|
  {
    if t != [] {
      var w := Word(t);
      var u := t[|w|..];
      if u == [] {
        assert w == t;
        CollapseIsJoinOneWord(t);
      } else if StripLeft(u) == [] {
        CollapseIsJoinTrailing(t, w, u);
      } else {
        assert |StripLeft(u)| < |t|;
        CollapseIsJoin(StripLeft(u));
        CollapseIsJoinMore(t, w, u);
      }
    }
  }

  /** Whitespace appended to a string that has a non-whitespace character is kept by `lstrip`. */
  lemma StripLeftAppendSpace(x: string, y: string)
    requires AllSpaceIn(y, 0, |y|)
    ensures StripLeft(x) == [] ==> StripLeft(x + y) == []
    ensures StripLeft(x) != [] ==> StripLeft(x + y) == StripLeft(x) + y
  {
    if StripLeft(x) == [] {
      StripLeftAppendSpaceToSpace(x, y);
    } else {
      StripLeftAppendSpaceToWord(x, y);
    }
  }

  lemma {:induction false} StripLeftAppendSpaceToSpace(x: string, y: string)
    requires AllSpaceIn(y, 0, |y|) && StripLeft(x) == []
    ensures StripLeft(x + y) == []
  {
    if x == [] {
      assert x + y == y;
      StripLeftAt(y, |y|);
    } else {
      assert (x + y)[1..] == x[1..] + y;
      StripLeftAppendSpaceToSpace(x[1..], y);
    }
  }

  lemma {:induction false} StripLeftAppendSpaceToWord(x: string, y: string)
    requires StripLeft(x) != []
    ensures StripLeft(x + y) == StripLeft(x) + y
  {
    if IsSpace(x[0]) {
      assert (x + y)[1..] == x[1..] + y;
      StripLeftAppendSpaceToWord(x[1..], y);
    }
  }

  /** Whitespace appended after a word does not lengthen it. */
  lemma WordAppendSpace(t: string, y: string)
    requires AllSpaceIn(y, 0, |y|)
    ensures Word(t + y) == Word(t)
  {
    var w := Word(t);
    var ty := t + y;
    assert NoSpaceIn(ty, 0, |w|) by {
      forall i | 0 <= i < |w|
        ensures !IsSpace(ty[i])
      {
        assert ty[i] == t[i];
      }
    }
    if |w| < |t| {
      assert ty[|w|] == t[|w|];
    } else if y != [] {
      assert ty[|w|] == y[0];
    }
    WordAt(ty, |w|);
  }

  /** The words of a string that starts with a word, in terms of the word and the shorter rest. */
  lemma WordsAfterWord(t: string, w: string, u: string)
    requires t != [] && !IsSpace(t[0]) && w == Word(t) && u == t[|w|..]
    ensures |u| < |t| && Words(t) == [w] + Words(u)
  {
    WordsOfWord(t);
  }

  /** Whitespace appended after a string that starts with a word keeps that word first. */
  lemma WordsAfterWordThenSpace(t: string, y: string, w: string, u: string)
    requires t != [] && !IsSpace(t[0]) && AllSpaceIn(y, 0, |y|)
    requires w == Word(t) && u == t[|w|..]
    ensures Words(t + y) == [w] + Words(u + y)
  {
    var ty := t + y;
    assert ty[0] == t[0];
    assert Word(ty) == w by {
      WordAppendSpace(t, y);
    }
    assert ty[|w|..] == u + y;
    WordsOfWord(ty);
  }

  /** Trailing whitespace adds no word. */
  lemma {:induction false} WordsIgnoreTrailingSpace(x: string, y: string)
    requires AllSpaceIn(y, 0, |y|)
    ensures Words(x + y) == Words(x)
    decreases |x|
  {
    var t := StripLeft(x);
    StripLeftAppendSpace(x, y);
    WordsIgnoreLeadingSpace(x);
    WordsIgnoreLeadingSpace(x + y);
    if t != [] {
      var w := Word(t);
      var u := t[|w|..];
      WordsAfterWord(t, w, u);
      WordsAfterWordThenSpace(t, y, w, u);
      WordsIgnoreTrailingSpace(u, y);
    }
  }

  /**
   * The clean-up equals Python's `' '.join(s.split())`: the value keeps exactly the
   * whitespace-separated words of the captured group, in order, one space apart.
   */
  lemma NormalizeIsJoinedWords(s: string)
    ensures Normalize(s) == Join(Words(s))
  {
    var x := StripLeft(s);
    var t := StripRight(x);
    assert Collapse(t) == Join(Words(t)) by {
      assert t == [] || t[0] == x[0];
      CollapseIsJoin(t);
    }
    WordsIgnoreLeadingSpace(s);
    WordsOfStripRight(x);
  }

  /** `rstrip` removes no word. */
  lemma WordsOfStripRight(x: string)
    ensures Words(StripRight(x)) == Words(x)
  {
    var t := StripRight(x);
    var tail := x[|t|..];
    assert x == t + tail by {
      SplitAt(x, |t|);
    }
    assert AllSpaceIn(tail, 0, |tail|) by {
      forall i | 0 <= i < |tail|
        ensures IsSpace(tail[i])
      {
        assert tail[i] == x[|t| + i];
      }
    }
    WordsIgnoreTrailingSpace(t, tail);
  }
}
