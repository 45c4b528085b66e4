/**
 * The WAL files of an archive generation (tools/kluster/internal/db/wal.go): their names, and
 * the segments and timelines db create picks among them.
 */
module Wal {
  import opened Text

  datatype WalFile = WalFile(key: string, timeline: nat, pos: string, history: bool, partial: bool)

  // --- Hexadecimal names -----------------------------------------------------------

  predicate HexDigit(c: char) {
    '0' <= c <= '9' || 'A' <= c <= 'F' || 'a' <= c <= 'f'
  }

  predicate IsHex(s: string) {
    s != "" && forall c | c in s :: HexDigit(c)
  }

  predicate UpperHex(s: string) {
    forall c | c in s :: '0' <= c <= '9' || 'A' <= c <= 'F'
  }

  function DigitValue(c: char): (v: nat)
    requires HexDigit(c)
    ensures v < 16
  {
    if c <= '9' then (c - '0') as nat else if c <= 'F' then (c - 'A') as nat + 10 else (c - 'a') as nat + 10
  }

  function HexValue(s: string): nat
    requires forall c | c in s :: HexDigit(c)
  {
    if s == "" then 0
    else
      var d := s[|s| - 1];
      assert d in s;
      16 * HexValue(s[..|s| - 1]) + DigitValue(d)
  }

  function HexChar(v: nat): (c: char)
    requires v < 16
    ensures HexDigit(c) && DigitValue(c) == v && !('a' <= c <= 'f')
  {
    if v < 10 then v as char + '0' else (v - 10) as char + 'A'
  }

  /** n in width upper-case digits, as the server prints it; higher digits are lost. */
  function Hex(n: nat, width: nat): (s: string)
    ensures |s| == width && UpperHex(s) && (forall c | c in s :: HexDigit(c))
  {
    if width == 0 then "" else Hex(n / 16, width - 1) + [HexChar(n % 16)]
  }

  function Pow16(w: nat): (p: nat)
    ensures p > 0
  {
    if w == 0 then 1 else 16 * Pow16(w - 1)
  }

  lemma {:induction false} HexPrints(n: nat, w: nat)
    requires n < Pow16(w)
    ensures HexValue(Hex(n, w)) == n
  {
    if w > 0 {
      HexPrints(n / 16, w - 1);
      assert Hex(n, w)[..w - 1] == Hex(n / 16, w - 1);
    }
  }

  function UpperChar(c: char): char {
    if 'a' <= c <= 'z' then c - 'a' + 'A' else c
  }

  /** strings.ToUpper of ASCII text. */
  function Upper(s: string): (r: string)
    ensures |r| == |s|
  {
    seq(|s|, i requires 0 <= i < |s| => UpperChar(s[i]))
  }

  /** Upper case changes no number. */
  lemma {:induction false} UpperValue(s: string)
    requires forall c | c in s :: HexDigit(c)
    ensures UpperHex(Upper(s)) && (forall c | c in Upper(s) :: HexDigit(c)) && HexValue(Upper(s)) == HexValue(s)
  {
    forall c | c in Upper(s)
      ensures '0' <= c <= '9' || 'A' <= c <= 'F'
    {
      var i :| 0 <= i < |s| && Upper(s)[i] == c;
      assert s[i] in s;
    }
    if s != "" {
      assert forall c | c in s[..|s| - 1] :: c in s;
      UpperValue(s[..|s| - 1]);
      assert Upper(s)[..|s| - 1] == Upper(s[..|s| - 1]);
      assert s[|s| - 1] in s;
    }
  }

  lemma {:induction false} HexBound(s: string)
    requires forall c | c in s :: HexDigit(c)
    ensures HexValue(s) < Pow16(|s|)
  {
    if s != "" {
      assert forall c | c in s[..|s| - 1] :: c in s;
      HexBound(s[..|s| - 1]);
    }
  }

  /** The value by the first digit. */
  lemma {:induction false} HexHead(s: string)
    requires s != "" && forall c | c in s :: HexDigit(c)
    ensures s[0] in s && (forall c | c in s[1..] :: c in s)
    ensures HexValue(s) == DigitValue(s[0]) * Pow16(|s| - 1) + HexValue(s[1..])
  {
    assert s[0] in s;
    if |s| == 1 {
      assert HexValue(s[..0]) == 0;
    } else {
      var d, t := s[|s| - 1], s[..|s| - 1];
      assert d in s && forall c | c in t :: c in s;
      assert t[0] == s[0];
      HexHead(t);
      HexTail(s);
      Times16(DigitValue(s[0]), Pow16(|t| - 1));
    }
  }

  lemma HexTail(s: string)
    requires |s| > 1 && forall c | c in s :: HexDigit(c)
    ensures forall c | c in s[1..] || c in s[..|s| - 1] || c in s[..|s| - 1][1..] :: HexDigit(c)
    ensures s[|s| - 1] in s && HexValue(s[1..]) == 16 * HexValue(s[..|s| - 1][1..]) + DigitValue(s[|s| - 1])
  {
    var u := s[1..];
    assert forall c | c in u :: c in s;
    assert u[..|u| - 1] == s[..|s| - 1][1..];
    assert forall c | c in s[..|s| - 1] :: c in s;
    assert forall c | c in s[..|s| - 1][1..] :: c in s;
    assert s[|s| - 1] in s;
  }

  lemma Times16(d: nat, p: nat)
    ensures d * (16 * p) == 16 * (d * p)
  {}

  /** On upper-case digits of one width, Go's order of strings is the order of the numbers. */
  lemma {:induction false} HexOrder(a: string, b: string)
    requires |a| == |b| && UpperHex(a) && UpperHex(b)
    ensures (forall c | c in a :: HexDigit(c)) && (forall c | c in b :: HexDigit(c))
    ensures Less(a, b) <==> HexValue(a) < HexValue(b)
    ensures a == b <==> HexValue(a) == HexValue(b)
    decreases |a|
  {
    if a != "" {
      HexHead(a);
      HexHead(b);
      HexOrder(a[1..], b[1..]);
      HexBound(a[1..]);
      HexBound(b[1..]);
      assert a == [a[0]] + a[1..] && b == [b[0]] + b[1..];
      DigitOrder(a[0], b[0], HexValue(a[1..]), HexValue(b[1..]), Pow16(|a| - 1));
    }
  }

  lemma DigitOrder(c: char, d: char, x: nat, y: nat, p: nat)
    requires UpperHex([c]) && UpperHex([d]) && x < p && y < p
    ensures HexDigit(c) && HexDigit(d) && (c < d <==> DigitValue(c) < DigitValue(d)) && (c == d <==> DigitValue(c) == DigitValue(d))
    ensures c < d ==> DigitValue(c) * p + x < DigitValue(d) * p + y
    ensures c == d ==> DigitValue(c) * p == DigitValue(d) * p
    ensures d < c ==> DigitValue(d) * p + y < DigitValue(c) * p + x
  {
    assert c in [c] && d in [d];
    var m, n := DigitValue(c), DigitValue(d);
    if m < n {
      MulStep(m, n, p);
    } else if n < m {
      MulStep(n, m, p);
    }
  }

  lemma {:induction false} MulStep(m: nat, n: nat, p: nat)
    requires m < n
    ensures m * p + p <= n * p
  {
    if m + 1 < n {
      MulStep(m, n - 1, p);
      assert n * p == (n - 1) * p + p;
    } else {
      assert n * p == m * p + p;
    }
  }

  // --- parseWAL ------------------------------------------------------------------

  predicate Contains(s: string, t: string) {
    if |s| < |t| then false else t <= s || Contains(s[1..], t)
  }

  function TrimSlashes(s: string): string {
    if s != "" && s[|s| - 1] == '/' then TrimSlashes(s[..|s| - 1]) else s
  }

  /** path.Base. */
  function Base(key: string): string {
    if key == "" then "."
    else
      var t := TrimSlashes(key);
      if t == "" then "/"
      else
        var pieces := Split(t, '/');
        pieces[|pieces| - 1]
  }

  /** strings.Cut at the first dot: what stands before and after it. */
  function CutDot(s: string): (string, string) {
    if s == "" then ("", "")
    else if s[0] == '.' then ("", s[1..])
    else
      var r := CutDot(s[1..]);
      ([s[0]] + r.0, r.1)
  }

  function ParseWal(key: string): Option<WalFile> {
    var (name, rest) := CutDot(Base(key));
    if |name| == 8 && IsHex(name) && "history" <= rest then
      Some(WalFile(key, Timeline(name), "", true, false))
    else if |name| == 24 && IsHex(name) && !Contains(rest, "backup") then
      Some(WalFile(key, Timeline(name), Upper(name[8..]), false, Contains(rest, "partial")))
    else None
  }

  function Timeline(name: string): nat
    requires IsHex(name) && |name| >= 8
  {
    assert forall c | c in name[..8] :: c in name;
    HexValue(name[..8])
  }

  lemma {:induction false} CutDotIs(name: string, rest: string)
    requires '.' !in name
    ensures CutDot(name) == (name, "") && CutDot(name + "." + rest) == (name, rest)
  {
    if name == "" {
      assert name + "." + rest == "." + rest;
    } else {
      assert (name + "." + rest)[1..] == name[1..] + "." + rest;
      CutDotIs(name[1..], rest);
      assert [name[0]] + name[1..] == name;
    }
  }

  lemma BaseIs(dir: string, file: string)
    requires '/' !in file && file != ""
    ensures Base(dir + "/" + file) == file
  {
    var key := dir + "/" + file;
    assert key[|key| - 1] == file[|file| - 1] && file[|file| - 1] in file;
    SplitLast(dir, file);
  }

  lemma {:induction false} SplitLast(dir: string, file: string)
    requires '/' !in file
    ensures var p := Split(dir + "/" + file, '/'); |p| > 1 && p[|p| - 1] == file
  {
    if dir == "" {
      assert dir + "/" + file == "/" + file;
      assert ("/" + file)[1..] == file;
      SplitPiece(file, "", '/');
    } else {
      assert (dir + "/" + file)[1..] == dir[1..] + "/" + file;
      SplitLast(dir[1..], file);
    }
  }

  /** A segment's name as the server prints it. */
  function SegmentName(timeline: nat, pos: nat): string {
    Hex(timeline, 8) + Hex(pos, 16)
  }

  lemma HexChars(n: nat, w: nat)
    requires w > 0
    ensures IsHex(Hex(n, w)) && '.' !in Hex(n, w) && '/' !in Hex(n, w)
  {}

  /** parseWAL gives back the timeline and the position of every printed segment, with any suffix but a backup label's. */
  lemma {:induction false} ParsesSegment(dir: string, timeline: nat, pos: nat, suffix: string)
    requires timeline < Pow16(8) && pos < Pow16(16) && '/' !in suffix
    ensures var key := dir + "/" + (SegmentName(timeline, pos) + "." + suffix);
            ParseWal(key) == if Contains(suffix, "backup") then None
                             else Some(WalFile(key, timeline, Hex(pos, 16), false, Contains(suffix, "partial")))
    ensures var key := dir + "/" + SegmentName(timeline, pos);
            ParseWal(key) == Some(WalFile(key, timeline, Hex(pos, 16), false, false))
  {
    var name := SegmentName(timeline, pos);
    NameIs(timeline, pos);
    HexPrints(timeline, 8);
    HexChars(pos, 16);
    UpperSame(Hex(pos, 16));
    hide Hex, SegmentName, Base, CutDot, HexValue;
    var file := name + "." + suffix;
    BaseIs(dir, file);
    BaseIs(dir, name);
    CutDotIs(name, suffix);
  }

  lemma NameIs(timeline: nat, pos: nat)
    ensures var name := SegmentName(timeline, pos);
            |name| == 24 && IsHex(name) && '.' !in name && '/' !in name && name[..8] == Hex(timeline, 8) && name[8..] == Hex(pos, 16)
  {
    HexChars(timeline, 8);
    HexChars(pos, 16);
    hide Hex;
  }

  lemma UpperSame(s: string)
    requires UpperHex(s)
    ensures Upper(s) == s
  {
    forall i | 0 <= i < |s|
      ensures Upper(s)[i] == s[i]
    {
      assert s[i] in s;
    }
  }

  /** parseWAL gives back the timeline a history file opens. */
  lemma {:induction false} ParsesHistory(dir: string, timeline: nat, suffix: string)
    requires timeline < Pow16(8) && '/' !in suffix
    ensures var key := dir + "/" + (Hex(timeline, 8) + "." + ("history" + suffix));
            ParseWal(key) == Some(WalFile(key, timeline, "", true, false))
  {
    var name := Hex(timeline, 8);
    HexChars(timeline, 8);
    HexPrints(timeline, 8);
    hide Hex, Base, CutDot, HexValue;
    assert name[..8] == name;
    BaseIs(dir, name + "." + ("history" + suffix));
    CutDotIs(name, "history" + suffix);
  }

  // --- readWALs and the selectors ----------------------------------------------------

  datatype Wals = Wals(segments: seq<WalFile>, histories: seq<nat>)

  /** What parseWAL promises of a segment. */
  predicate Segment(f: WalFile) {
    |f.pos| == 16 && UpperHex(f.pos)
  }

  /** Every segment readWALs lists has 16 upper-case digits, whatever the keys were. */
  lemma {:induction false} ParsedSegment(key: string)
    ensures var f := ParseWal(key); f.Some? && !f.value.history ==> Segment(f.value)
  {
    hide Base, CutDot, HexValue;
    var (name, rest) := CutDot(Base(key));
    if |name| == 24 && IsHex(name) {
      assert forall c | c in name[8..] :: c in name;
      UpperValue(name[8..]);
    }
  }

  method ReadWals(keys: seq<string>) returns (w: Wals)
    ensures forall f :: f in w.segments <==> exists k :: k in keys && ParseWal(k) == Some(f) && !f.partial && !f.history
    ensures forall t :: t in w.histories <==> exists k :: k in keys && ParseWal(k).Some? && ParseWal(k).value.history &&
                                                           !ParseWal(k).value.partial && ParseWal(k).value.timeline == t
    ensures forall f | f in w.segments :: Segment(f)
  {
    hide ParseWal;
    w := Wals([], []);
    for i := 0 to |keys|
      invariant forall f :: f in w.segments <==> exists k :: k in keys[..i] && ParseWal(k) == Some(f) && !f.partial && !f.history
      invariant forall t :: t in w.histories <==> exists k :: k in keys[..i] && ParseWal(k).Some? && ParseWal(k).value.history &&
                                                               !ParseWal(k).value.partial && ParseWal(k).value.timeline == t
      invariant forall f | f in w.segments :: Segment(f)
    {
      var f := ParseWal(keys[i]);
      ParsedSegment(keys[i]);
      assert keys[..i + 1] == keys[..i] + [keys[i]];
      assert forall k :: k in keys[..i + 1] <==> k in keys[..i] || k == keys[i];
      if f.None? || f.value.partial {
      } else if f.value.history {
        w := w.(histories := w.histories + [f.value.timeline]);
      } else {
        w := w.(segments := w.segments + [f.value]);
      }
    }
    assert keys[..|keys|] == keys;
  }

  /** a is not after b. */
  predicate AtMost(a: string, b: string) {
    a == b || Less(a, b)
  }

  lemma LessSome(a: string, b: string)
    requires Position(a) && Position(b)
    ensures Less("", a) && !Less(a, "") && (Less(a, b) <==> HexAt(a) < HexAt(b)) && (a == b <==> HexAt(a) == HexAt(b))
  {
    HexOrder(a, b);
  }

  predicate Position(pos: string) {
    |pos| == 16 && UpperHex(pos)
  }

  /** The number a position stands for. */
  function HexAt(pos: string): nat {
    if UpperHex(pos) then HexValue(pos) else 0
  }

  /** newest: a segment at the highest position, in whatever order the files were listed. */
  method Newest(segments: seq<WalFile>) returns (n: WalFile, ok: bool)
    requires forall s | s in segments :: Segment(s)
    ensures ok <==> segments != []
    ensures ok ==> n in segments && forall s | s in segments :: HexAt(s.pos) <= HexAt(n.pos)
  {
    hide HexAt, Less, UpperHex;
    n := WalFile("", 0, "", false, false);
    for i := 0 to |segments|
      invariant n.pos == "" <==> i == 0
      invariant i > 0 ==> n in segments[..i] && Segment(n) && forall s | s in segments[..i] :: HexAt(s.pos) <= HexAt(n.pos)
    {
      var s := segments[i];
      assert segments[..i + 1] == segments[..i] + [s] && s in segments;
      LessSome(s.pos, if i == 0 then s.pos else n.pos);
      LessSome(if i == 0 then s.pos else n.pos, s.pos);
      if Less(n.pos, s.pos) {
        n := s;
      }
    }
    assert segments[..|segments|] == segments;
    ok := n.pos != "";
  }

  method LatestTimeline(histories: seq<nat>) returns (tl: nat)
    ensures tl >= 1 && (tl == 1 || tl in histories) && forall h | h in histories :: h <= tl
  {
    tl := 1;
    for i := 0 to |histories|
      invariant tl >= 1 && (tl == 1 || tl in histories[..i]) && forall h | h in histories[..i] :: h <= tl
    {
      assert histories[..i + 1] == histories[..i] + [histories[i]];
      tl := if histories[i] > tl then histories[i] else tl;
    }
    assert histories[..|histories|] == histories;
  }

  /** What the loop of lowestTimeline holds after the segments: 0 stands for none yet. */
  function Lowest(segments: seq<WalFile>): nat {
    if segments == [] then 0
    else
      var tl, s := Lowest(segments[..|segments| - 1]), segments[|segments| - 1];
      if tl == 0 || s.timeline < tl then s.timeline else tl
  }

  method LowestTimeline(segments: seq<WalFile>) returns (tl: nat, ok: bool)
    ensures tl == Lowest(segments) && ok == (tl != 0)
  {
    tl := 0;
    for i := 0 to |segments|
      invariant tl == Lowest(segments[..i])
    {
      var s := segments[i];
      assert segments[..i + 1][..i] == segments[..i];
      if tl == 0 || s.timeline < tl {
        tl := s.timeline;
      }
    }
    assert segments[..|segments|] == segments;
    ok := tl != 0;
  }

  ghost predicate IsLowest(segments: seq<WalFile>, tl: nat, ok: bool) {
    && (ok <==> segments != [])
    && (ok ==> (exists s :: s in segments && s.timeline == tl) && forall s | s in segments :: tl <= s.timeline)
  }

  /** lowestTimeline finds the lowest timeline exactly when no segment has timeline 0, its mark for none. */
  lemma {:induction false} LowestIff(segments: seq<WalFile>)
    ensures IsLowest(segments, Lowest(segments), Lowest(segments) != 0) <==> forall s | s in segments :: s.timeline >= 1
  {
    if forall s | s in segments :: s.timeline >= 1 {
      LowestOk(segments);
    } else {
      var s :| s in segments && s.timeline == 0;
    }
  }

  lemma {:induction false} LowestOk(segments: seq<WalFile>)
    requires forall s | s in segments :: s.timeline >= 1
    ensures IsLowest(segments, Lowest(segments), Lowest(segments) != 0)
  {
    if segments != [] {
      var init, s := segments[..|segments| - 1], segments[|segments| - 1];
      assert forall x :: x in segments <==> x in init || x == s;
      LowestOk(init);
    }
  }

  /** With a timeline 0 the answer depends on the order of the listing. */
  lemma LowestByOrder(s: WalFile, t: WalFile)
    requires s.timeline == 0 && t.timeline > 0
    ensures Lowest([s, t]) == t.timeline && Lowest([t, s]) == 0
  {
    assert [s, t][..1] == [s] && [t, s][..1] == [t];
    assert [s][..0] == [] && [t][..0] == [];
  }

  /** firstOn: the lowest segment of one timeline. */
  method FirstOn(segments: seq<WalFile>, tl: nat) returns (f: WalFile, ok: bool)
    requires forall s | s in segments :: Segment(s)
    ensures ok <==> exists s :: s in segments && s.timeline == tl
    ensures ok ==> f in segments && f.timeline == tl && forall s | s in segments && s.timeline == tl :: HexAt(f.pos) <= HexAt(s.pos)
  {
    hide HexAt, Less, UpperHex;
    f := WalFile("", 0, "", false, false);
    for i := 0 to |segments|
      invariant f.pos == "" <==> forall s | s in segments[..i] :: s.timeline != tl
      invariant f.pos != "" ==> f in segments[..i] && f.timeline == tl && Segment(f) &&
                                forall s | s in segments[..i] && s.timeline == tl :: HexAt(f.pos) <= HexAt(s.pos)
    {
      var s := segments[i];
      assert segments[..i + 1] == segments[..i] + [s] && s in segments;
      LessSome(s.pos, if f.pos == "" then s.pos else f.pos);
      if s.timeline == tl && (f.pos == "" || Less(s.pos, f.pos)) {
        f := s;
      }
    }
    assert segments[..|segments|] == segments;
    ok := f.pos != "";
  }

  // --- db-archive -----------------------------------------------------------------------

  /** Done and Short name the first segment a recovered Cluster archived. */
  datatype Reading = NotYet | Done(first: WalFile) | Short(first: WalFile)

  /** A full segment's key. */
  predicate IsSegment(k: string) {
    ParseWal(k).Some? && !ParseWal(k).value.partial && !ParseWal(k).value.history
  }

  /** The key of a file that opens a timeline. */
  predicate IsHistory(k: string) {
    ParseWal(k).Some? && !ParseWal(k).value.partial && ParseWal(k).value.history
  }

  ghost predicate NoTimelineZero(keys: seq<string>) {
    forall k | k in keys && ParseWal(k).Some? :: ParseWal(k).value.timeline >= 1
  }

  /** f is the first segment of the lowest timeline. */
  ghost predicate IsFirst(keys: seq<string>, f: WalFile) {
    && f.key in keys && IsSegment(f.key) && ParseWal(f.key) == Some(f) && Segment(f)
    && forall k | k in keys && IsSegment(k) ::
         var g := ParseWal(k).value;
         f.timeline <= g.timeline && (f.timeline == g.timeline ==> Segment(g) && HexAt(f.pos) <= HexAt(g.pos))
  }

  /** Archive.Probe of a fresh Cluster: a segment is there. */
  method FreshProbe(keys: seq<string>) returns (done: bool)
    ensures done <==> exists k :: k in keys && IsSegment(k)
  {
    hide ParseWal;
    var w := ReadWals(keys);
    KeysRead(keys, w);
    done := w.segments != [];
  }

  /**
   * Archive.Probe of a recovery, over the keys under its generation's wals/. source is the
   * newest segment the preflight saw; None: a resumed run or a target time. Where no file
   * has timeline 0, it is done or refused exactly when a timeline and a segment are there,
   * and the first segment of the lowest timeline decides: done says that it is at or after
   * the end of the source's WAL, and a refusal that it is before.
   */
  method ArchiveProbe(keys: seq<string>, source: Option<WalFile>) returns (r: Reading)
    requires source.Some? ==> Segment(source.value)
    ensures r.Done? && source.Some? ==> Segment(r.first) && HexAt(source.value.pos) <= HexAt(r.first.pos)
    ensures r.Short? ==> source.Some? && Segment(r.first) && HexAt(r.first.pos) < HexAt(source.value.pos)
    ensures NoTimelineZero(keys) ==>
              (r.NotYet? <==> !((exists k :: k in keys && IsHistory(k)) && exists k :: k in keys && IsSegment(k)))
    ensures NoTimelineZero(keys) && !r.NotYet? ==> IsFirst(keys, r.first)
  {
    hide ParseWal, HexAt, Less, UpperHex, Lowest, IsFirst, IsLowest;
    var w := ReadWals(keys);
    KeysRead(keys, w);
    if w.histories == [] {
      return NotYet;
    }
    var tl, some := LowestTimeline(w.segments);
    if NoTimelineZero(keys) {
      ParsedKeys(keys, w);
      LowestOk(w.segments);
      LowestIs(w.segments, tl, some);
    }
    if w.segments == [] || !some {
      return NotYet;
    }
    var first, found := FirstOn(w.segments, tl);
    LowestAmong(w.segments);
    if NoTimelineZero(keys) {
      FirstIs(keys, w, first);
    }
    if source.Some? {
      LessSome(first.pos, source.value.pos);
      if Less(first.pos, source.value.pos) {
        return Short(first);
      }
    }
    r := Done(first);
  }

  ghost predicate ReadAs(keys: seq<string>, w: Wals) {
    && (forall f :: f in w.segments <==> exists k :: k in keys && ParseWal(k) == Some(f) && !f.partial && !f.history)
    && (forall f | f in w.segments :: Segment(f))
  }

  lemma KeysRead(keys: seq<string>, w: Wals)
    requires ReadAs(keys, w)
    requires forall t :: t in w.histories <==> exists k :: k in keys && ParseWal(k).Some? && ParseWal(k).value.history &&
                                                           !ParseWal(k).value.partial && ParseWal(k).value.timeline == t
    ensures w.histories == [] <==> forall k | k in keys :: !IsHistory(k)
    ensures w.segments == [] <==> forall k | k in keys :: !IsSegment(k)
  {
    hide ParseWal;
    forall k | k in keys
      ensures IsHistory(k) ==> ParseWal(k).value.timeline in w.histories
      ensures IsSegment(k) ==> ParseWal(k).value in w.segments
    {}
    if w.histories != [] {
      assert w.histories[0] in w.histories;
    }
    if w.segments != [] {
      assert w.segments[0] in w.segments;
    }
  }

  lemma LowestIs(segments: seq<WalFile>, tl: nat, ok: bool)
    requires IsLowest(segments, tl, ok)
    ensures ok <==> segments != []
    ensures ok ==> forall s | s in segments :: tl <= s.timeline
  {}

  /** The first segment of the lowest timeline, among the keys. */
  lemma FirstIs(keys: seq<string>, w: Wals, f: WalFile)
    requires ReadAs(keys, w) && f in w.segments
    requires forall s | s in w.segments :: f.timeline <= s.timeline && (f.timeline == s.timeline ==> HexAt(f.pos) <= HexAt(s.pos))
    ensures IsFirst(keys, f)
  {
    hide ParseWal, HexAt, Segment;
    var k :| k in keys && ParseWal(k) == Some(f);
    KeyKept(k);
    forall x | x in keys && IsSegment(x)
      ensures ParseWal(x).value in w.segments && Segment(ParseWal(x).value)
    {}
  }

  /** A timeline that was found is a segment's. */
  lemma {:induction false} LowestAmong(segments: seq<WalFile>)
    ensures Lowest(segments) != 0 ==> exists s :: s in segments && s.timeline == Lowest(segments)
  {
    if segments != [] {
      LowestAmong(segments[..|segments| - 1]);
      assert forall s | s in segments[..|segments| - 1] :: s in segments;
      assert segments[|segments| - 1] in segments;
    }
  }

  lemma ParsedKeys(keys: seq<string>, w: Wals)
    requires ReadAs(keys, w) && NoTimelineZero(keys)
    ensures forall f | f in w.segments :: f.timeline >= 1
  {
    hide ParseWal, Segment;
    forall f | f in w.segments
      ensures f.timeline >= 1
    {
      var k :| k in keys && ParseWal(k) == Some(f);
    }
  }

  lemma KeyKept(k: string)
    ensures ParseWal(k).Some? ==> ParseWal(k).value.key == k
  {}
}
