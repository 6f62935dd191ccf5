/** The two functions of Go's `strings` package the plugin uses on text:
    `TrimSpace` and `Split` with a one-character separator, with `Join` as the
    inverse of `Split`. Strings are sequences of characters; every separator the
    plugin uses is ASCII, so splitting characters and splitting UTF-8 bytes agree. */
module GoStrings {

  /** Go's `unicode.IsSpace`: the Latin-1 spaces and the other characters with
      Unicode's White_Space property. */
  predicate IsSpace(c: char) {
    c == ' ' || c == '\t' || c == '\n' || c == '\U{B}' || c == '\U{C}' || c == '\r'
    || c == '\U{85}' || c == '\U{A0}' || c == '\U{1680}'
    || ('\U{2000}' <= c <= '\U{200A}')
    || c == '\U{2028}' || c == '\U{2029}' || c == '\U{202F}' || c == '\U{205F}' || c == '\U{3000}'
  }

  predicate AllSpace(s: string) {
    forall i :: 0 <= i < |s| ==> IsSpace(s[i])
  }

  /** A string that `TrimSpace` leaves alone: empty, or neither end is a space. */
  predicate Trimmed(s: string) {
    s == [] || (!IsSpace(s[0]) && !IsSpace(s[|s| - 1]))
  }

  /** Drops the leading spaces. */
  function TrimLeft(s: string): (r: string)
    decreases |s|
  {
    if |s| > 0 && IsSpace(s[0]) then TrimLeft(s[1..]) else s
  }

  /** `TrimLeft` keeps the suffix that starts at the first non-space. */
  lemma {:induction false} TrimLeftSuffix(s: string)
    ensures var r := TrimLeft(s);
      && |r| <= |s| && r == s[|s| - |r|..]
      && AllSpace(s[..|s| - |r|])
      && (r == [] || !IsSpace(r[0]))
    decreases |s|
  {
    if |s| > 0 && IsSpace(s[0]) {
      TrimLeftSuffix(s[1..]);
      var r := TrimLeft(s[1..]);
      assert s[..|s| - |r|] == [s[0]] + s[1..][..|s| - 1 - |r|];
    }
  }

  /** Drops the trailing spaces. */
  function TrimRight(s: string): (r: string)
    decreases |s|
  {
    if |s| > 0 && IsSpace(s[|s| - 1]) then TrimRight(s[..|s| - 1]) else s
  }

  /** `TrimRight` keeps the prefix that ends at the last non-space. */
  lemma {:induction false} TrimRightPrefix(s: string)
    ensures var r := TrimRight(s);
      && |r| <= |s| && r == s[..|r|]
      && AllSpace(s[|r|..])
      && (r == [] || !IsSpace(r[|r| - 1]))
    decreases |s|
  {
    if |s| > 0 && IsSpace(s[|s| - 1]) {
      TrimRightPrefix(s[..|s| - 1]);
      var r := TrimRight(s[..|s| - 1]);
      assert s[|r|..] == s[..|s| - 1][|r|..] + [s[|s| - 1]];
    }
  }

  /** Go's `strings.TrimSpace`: `s` without its leading and trailing white space. */
  function TrimSpace(s: string): string {
    TrimRight(TrimLeft(s))
  }

  /** `TrimSpace` returns the slice of `s` between its leading and its
      trailing white space, and that slice neither starts nor ends with a space. */
  lemma TrimSpaceSlice(s: string)
    ensures Trimmed(TrimSpace(s))
    ensures exists i, j ::
      0 <= i <= j <= |s| && TrimSpace(s) == s[i..j] && AllSpace(s[..i]) && AllSpace(s[j..])
  {
    var l := TrimLeft(s);
    var r := TrimRight(l);
    TrimLeftSuffix(s);
    TrimRightPrefix(l);
    var i, j := |s| - |l|, |s| - |l| + |r|;
    assert r != [] ==> r[0] == l[0];
    assert r == s[i..j];
    assert s[j..] == l[|r|..];
  }

  lemma TrimSpaceOfTrimmed(s: string)
    requires Trimmed(s)
    ensures TrimSpace(s) == s
  {
    assert TrimLeft(s) == s;
    assert TrimRight(s) == s;
  }

  /** Go's `strings.Split(s, string(sep))`: the pieces between the separators,
      one more piece than there are separators. */
  function Split(s: string, sep: char): (r: seq<string>)
    ensures |r| >= 1
    decreases |s|
  {
    if |s| == 0 then [""]
    else
      var rest := Split(s[1..], sep);
      if s[0] == sep then [""] + rest else [[s[0]] + rest[0]] + rest[1..]
  }

  /** Go's `strings.Join(pieces, string(sep))`. */
  function Join(pieces: seq<string>, sep: char): string
    requires |pieces| >= 1
  {
    if |pieces| == 1 then pieces[0] else pieces[0] + [sep] + Join(pieces[1..], sep)
  }

  /** A string without the separator is a single piece. */
  lemma {:induction false} SplitWithoutSep(s: string, sep: char)
    requires sep !in s
    ensures Split(s, sep) == [s]
    decreases |s|
  {
    if |s| > 0 {
      SplitWithoutSep(s[1..], sep);
      assert [s[0]] + s[1..] == s;
    }
  }

  /** One character in front: a separator starts a new piece, anything else
      joins the first piece. */
  lemma SplitCons(t: string, c: char, s: string, sep: char)
    requires |t| > 0 && t[0] == c && t[1..] == s
    ensures Split(t, sep) ==
      if c == sep then [""] + Split(s, sep) else [[c] + Split(s, sep)[0]] + Split(s, sep)[1..]
  {
  }

  lemma JoinFirstPiece(c: char, p: seq<string>, q: seq<string>)
    requires |p| >= 1
    ensures [[c] + (p + q)[0]] + (p + q)[1..] == ([[c] + p[0]] + p[1..]) + q
  {
    assert (p + q)[0] == p[0];
    assert (p + q)[1..] == p[1..] + q;
  }

  /** Splitting distributes over a separator: the pieces of `a` then the pieces of `b`. */
  lemma {:induction false} SplitAtSep(a: string, b: string, sep: char)
    ensures Split(a + [sep] + b, sep) == Split(a, sep) + Split(b, sep)
    decreases |a|
  {
    var t := a + [sep] + b;
    if |a| == 0 {
      assert t[1..] == b;
      SplitCons(t, sep, b, sep);
    } else {
      var u := a[1..] + [sep] + b;
      assert t[1..] == u;
      SplitAtSep(a[1..], b, sep);
      SplitCons(t, a[0], u, sep);
      SplitCons(a, a[0], a[1..], sep);
      var p, q := Split(a[1..], sep), Split(b, sep);
      if a[0] == sep {
        assert ([""] + p) + q == [""] + (p + q);
      } else {
        JoinFirstPiece(a[0], p, q);
      }
    }
  }

  /** A string has at least two pieces exactly when it holds the separator. */
  lemma {:induction false} SplitHasSecondPiece(s: string, sep: char)
    ensures |Split(s, sep)| >= 2 <==> sep in s
    decreases |s|
  {
    if |s| > 0 {
      SplitHasSecondPiece(s[1..], sep);
      assert sep in s <==> s[0] == sep || sep in s[1..] by {
        if sep in s {
          var k :| 0 <= k < |s| && s[k] == sep;
          if k > 0 { assert s[1..][k - 1] == sep; }
        }
        if sep in s[1..] {
          var k :| 0 <= k < |s[1..]| && s[1..][k] == sep;
          assert s[k + 1] == sep;
        }
      }
    }
  }

  /** `Split` undoes `Join` when no piece holds the separator. */
  lemma {:induction false} SplitJoin(pieces: seq<string>, sep: char)
    requires |pieces| >= 1
    requires forall i :: 0 <= i < |pieces| ==> sep !in pieces[i]
    ensures Split(Join(pieces, sep), sep) == pieces
    decreases |pieces|
  {
    SplitWithoutSep(pieces[0], sep);
    if |pieces| > 1 {
      SplitJoin(pieces[1..], sep);
      SplitAtSep(pieces[0], Join(pieces[1..], sep), sep);
    }
  }

  /** Joining a piece list whose first piece gained a leading character. */
  lemma JoinConsFirst(c: char, p: seq<string>, sep: char)
    requires |p| >= 1
    ensures Join([[c] + p[0]] + p[1..], sep) == [c] + Join(p, sep)
  {
    var q := [[c] + p[0]] + p[1..];
    if |p| > 1 {
      assert q[1..] == p[1..];
    }
  }

  /** `Join` undoes `Split`: the pieces and the separators between them are the text. */
  lemma {:induction false} JoinSplit(s: string, sep: char)
    ensures Join(Split(s, sep), sep) == s
    decreases |s|
  {
    if |s| > 0 {
      JoinSplit(s[1..], sep);
      var rest := Split(s[1..], sep);
      if s[0] == sep {
        assert ([""] + rest)[1..] == rest;
        assert s == [sep] + s[1..];
      } else {
        JoinConsFirst(s[0], rest, sep);
        assert s == [s[0]] + s[1..];
      }
    }
  }

  /** No piece of a split holds the separator. */
  lemma {:induction false} SplitPiecesHaveNoSep(s: string, sep: char)
    ensures forall i :: 0 <= i < |Split(s, sep)| ==> sep !in Split(s, sep)[i]
    decreases |s|
  {
    if |s| > 0 {
      SplitPiecesHaveNoSep(s[1..], sep);
    }
  }

  /** A join starts with the first piece. */
  lemma JoinStartsWithFirst(pieces: seq<string>, sep: char)
    requires |pieces| >= 1
    ensures |Join(pieces, sep)| >= |pieces[0]| && Join(pieces, sep)[..|pieces[0]|] == pieces[0]
  {
  }

  /** A join ends with the last piece. */
  lemma {:induction false} JoinEndsWithLast(pieces: seq<string>, sep: char)
    requires |pieces| >= 1
    ensures var j := Join(pieces, sep); var last := pieces[|pieces| - 1];
      |j| >= |last| && j[|j| - |last|..] == last
    decreases |pieces|
  {
    if |pieces| > 1 {
      JoinEndsWithLast(pieces[1..], sep);
    }
  }

  /** The first two pieces of `a`, separator, `b`, separator, `c` are `a` and
      `b` when neither holds the separator. */
  lemma SplitTwoSeparators(a: string, b: string, c: string, sep: char)
    requires sep !in a && sep !in b
    ensures var p := Split(a + [sep] + b + [sep] + c, sep);
      |p| >= 2 && p[0] == a && p[1] == b
  {
    assert a + [sep] + b + [sep] + c == a + [sep] + (b + [sep] + c);
    SplitAtSep(a, b + [sep] + c, sep);
    SplitAtSep(b, c, sep);
    SplitWithoutSep(a, sep);
    SplitWithoutSep(b, sep);
  }
}
