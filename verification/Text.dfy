/** Strings as the Go standard library cuts, trims and joins them. */
module Text {

  datatype Option<+T> = None | Some(value: T)

  lemma Assoc<T>(x: seq<T>, y: seq<T>, z: seq<T>)
    ensures (x + y) + z == x + (y + z)
  {}

  // --- Split and join --------------------------------------------------------

  /** strings.Split on one character: at least one piece, no piece holds the separator. */
  function Split(s: string, sep: char): (pieces: seq<string>)
    ensures pieces != []
    ensures forall p | p in pieces :: sep !in p
  {
    if s == [] then [""]
    else
      var rest := Split(s[1..], sep);
      if s[0] == sep then [""] + rest else [[s[0]] + rest[0]] + rest[1..]
  }

  /** strings.Join with one character between the pieces. */
  function Join(pieces: seq<string>, sep: char): string {
    if pieces == [] then ""
    else if |pieces| == 1 then pieces[0]
    else pieces[0] + [sep] + Join(pieces[1..], sep)
  }

  lemma {:induction false} JoinSplit(s: string, sep: char)
    ensures Join(Split(s, sep), sep) == s
  {
    if s != [] {
      JoinSplit(s[1..], sep);
      var rest := Split(s[1..], sep);
      if s[0] == sep {
        assert ([""] + rest)[1..] == rest;
      } else {
        var all := [[s[0]] + rest[0]] + rest[1..];
        assert all[1..] == rest[1..];
        assert s == [s[0]] + s[1..];
      }
    }
  }

  lemma {:induction false} SplitPiece(p: string, s: string, sep: char)
    requires sep !in p
    ensures Split(p + [sep] + s, sep) == [p] + Split(s, sep)
    ensures Split(p, sep) == [p]
  {
    if p == [] {
      assert p + [sep] + s == [sep] + s;
    } else {
      SplitPiece(p[1..], s, sep);
      assert (p + [sep] + s)[1..] == p[1..] + [sep] + s;
      assert [p[0]] + p[1..] == p;
    }
  }

  lemma {:induction false} SplitJoin(pieces: seq<string>, sep: char)
    requires pieces != []
    requires forall p | p in pieces :: sep !in p
    ensures Split(Join(pieces, sep), sep) == pieces
  {
    assert pieces[0] in pieces;
    if |pieces| == 1 {
      SplitPiece(pieces[0], "", sep);
      assert pieces == [pieces[0]];
    } else {
      SplitJoin(pieces[1..], sep);
      SplitPiece(pieces[0], Join(pieces[1..], sep), sep);
      assert pieces == [pieces[0]] + pieces[1..];
    }
  }

  lemma {:induction false} JoinAppend(a: seq<string>, b: seq<string>, sep: char)
    requires a != [] && b != []
    ensures Join(a + b, sep) == Join(a, sep) + [sep] + Join(b, sep)
  {
    if |a| == 1 {
      assert (a + b)[1..] == b;
    } else {
      JoinAppend(a[1..], b, sep);
      assert (a + b)[1..] == a[1..] + b;
      assert Join(a + b, sep) == a[0] + [sep] + (Join(a[1..], sep) + [sep] + Join(b, sep));
    }
  }

  // --- Space -----------------------------------------------------------------

  /** unicode.IsSpace. */
  predicate IsSpace(c: char) {
    || c == ' ' || c == '\t' || c == '\n' || c == '\r' || c == '\U{000B}' || c == '\U{000C}'
    || c == '\U{0085}' || c == '\U{00A0}' || c == '\U{1680}' || '\U{2000}' <= c <= '\U{200A}'
    || c == '\U{2028}' || c == '\U{2029}' || c == '\U{202F}' || c == '\U{205F}' || c == '\U{3000}'
  }

  predicate AllSpace(s: string) {
    forall c | c in s :: IsSpace(c)
  }

  function TrimLeft(s: string): string {
    if s != [] && IsSpace(s[0]) then TrimLeft(s[1..]) else s
  }

  function TrimRight(s: string): string {
    if s != [] && IsSpace(s[|s| - 1]) then TrimRight(s[..|s| - 1]) else s
  }

  /** strings.TrimSpace. */
  function TrimSpace(s: string): string {
    TrimRight(TrimLeft(s))
  }

  /** No space at either end: TrimSpace leaves it as it is. */
  predicate Trimmed(s: string) {
    s == [] || (!IsSpace(s[0]) && !IsSpace(s[|s| - 1]))
  }

  lemma {:induction false} TrimLeftDrops(a: string, s: string)
    requires AllSpace(a)
    ensures TrimLeft(a + s) == TrimLeft(s)
  {
    if a == [] {
      assert a + s == s;
    } else {
      assert (a + s)[1..] == a[1..] + s;
      TrimLeftDrops(a[1..], s);
    }
  }

  lemma {:induction false} TrimRightDrops(s: string, b: string)
    requires AllSpace(b)
    ensures TrimRight(s + b) == TrimRight(s)
  {
    if b == [] {
      assert s + b == s;
    } else {
      assert (s + b)[..|s + b| - 1] == s + b[..|b| - 1];
      TrimRightDrops(s, b[..|b| - 1]);
    }
  }

  /** TrimSpace finds the trimmed middle, whatever space surrounds it. */
  lemma TrimSpaceIs(a: string, m: string, b: string)
    requires AllSpace(a) && AllSpace(b) && Trimmed(m)
    ensures TrimSpace(a + m + b) == m
  {
    if m == [] {
      assert a + m + b == (a + b) + "";
      TrimLeftDrops(a + b, "");
    } else {
      assert a + m + b == a + (m + b);
      TrimLeftDrops(a, m + b);
      assert TrimLeft(m + b) == m + b;
      TrimRightDrops(m, b);
    }
  }

  /** Every string is its trimmed middle with space around it. */
  lemma {:induction false} TrimSpaceSplits(s: string) returns (a: string, b: string)
    ensures s == a + TrimSpace(s) + b
    ensures AllSpace(a) && AllSpace(b) && Trimmed(TrimSpace(s))
  {
    var l := TrimLeft(s);
    a := TrimLeftSplits(s);
    b := TrimRightSplits(l);
  }

  lemma {:induction false} TrimLeftSplits(s: string) returns (a: string)
    ensures s == a + TrimLeft(s) && AllSpace(a)
    ensures TrimLeft(s) == [] || !IsSpace(TrimLeft(s)[0])
  {
    a := "";
    if s != [] && IsSpace(s[0]) {
      var b := TrimLeftSplits(s[1..]);
      a := [s[0]] + b;
      assert s == [s[0]] + s[1..];
    }
  }

  lemma {:induction false} TrimRightSplits(s: string) returns (b: string)
    ensures s == TrimRight(s) + b && AllSpace(b)
    ensures TrimRight(s) == [] || !IsSpace(TrimRight(s)[|TrimRight(s)| - 1])
  {
    b := "";
    if s != [] && IsSpace(s[|s| - 1]) {
      var c := TrimRightSplits(s[..|s| - 1]);
      b := c + [s[|s| - 1]];
      assert s == s[..|s| - 1] + [s[|s| - 1]];
    }
  }

  // --- Order -----------------------------------------------------------------

  /** Go's order of strings. */
  predicate Less(a: string, b: string) {
    if b == "" then false
    else if a == "" then true
    else a[0] < b[0] || (a[0] == b[0] && Less(a[1..], b[1..]))
  }

  // --- Case ------------------------------------------------------------------

  /**
   * unicode.ToLower as far as a comparison with an ASCII word can see it: the
   * ASCII letters, and the two other characters whose lower case is ASCII.
   */
  function ToLower(c: char): char {
    if 'A' <= c <= 'Z' then c - 'A' + 'a'
    else if c == '\U{0130}' then 'i'
    else if c == '\U{212A}' then 'k'
    else c
  }

  function Lower(s: string): (r: string)
    ensures |r| == |s|
  {
    seq(|s|, i requires 0 <= i < |s| => ToLower(s[i]))
  }
}
