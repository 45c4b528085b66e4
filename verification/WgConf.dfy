/**
 * The wg-quick editor (tools/kluster/internal/wgconf). A config is its lines; Text.Split
 * and Text.Join, proved inverse, lead to the text and back. Each loop of the source is a
 * method proved equal to a function on the config's blocks: one header line and the lines
 * up to the next header.
 */
module WgConf {
  import opened Text

  type Lines = seq<string>

  datatype Section = Section(name: string, start: nat, end: nat)

  datatype Peer = Peer(name: string, publicKey: string, allowedIPs: string)

  datatype HubPeer = HubPeer(publicKey: string, endpoint: string)

  // --- One line --------------------------------------------------------------

  predicate IsHeader(line: string) {
    var t := TrimSpace(line);
    t != [] && t[0] == '[' && t[|t| - 1] == ']'
  }

  predicate IsBracket(c: char) {
    c == '[' || c == ']'
  }

  /** strings.Trim(t, "[]"). */
  function TrimBrackets(t: string): string {
    if t != [] && IsBracket(t[0]) then TrimBrackets(t[1..])
    else if t != [] && IsBracket(t[|t| - 1]) then TrimBrackets(t[..|t| - 1])
    else t
  }

  function SectionName(line: string): string {
    Lower(TrimBrackets(TrimSpace(line)))
  }

  /** The first index of c in t, or |t|. */
  function IndexOf(t: string, c: char): (i: nat)
    ensures i <= |t|
    ensures c !in t[..i]
    ensures i < |t| ==> t[i] == c
  {
    if t == [] || t[0] == c then 0
    else
      var i := 1 + IndexOf(t[1..], c);
      assert t[..i] == [t[0]] + t[1..][..i - 1];
      i
  }

  /** The lower-case key and the value of a `Key = Value` line; "" for any other line. */
  function KeyValue(line: string): (string, string, bool) {
    var t := TrimSpace(line);
    if t == "" || t[0] == '#' then ("", "", false)
    else
      var i := IndexOf(t, '=');
      if i == |t| then ("", "", false)
      else (Lower(TrimSpace(t[..i])), TrimSpace(t[i + 1..]), true)
  }

  predicate HasKey(line: string, key: string) {
    KeyValue(line).0 == key
  }

  predicate IsBlank(line: string) {
    TrimSpace(line) == ""
  }

  /** A word kluster writes as a key. */
  predicate IsWord(w: string) {
    w != [] && w[0] != '#' && w[0] != '[' && forall c | c in w :: c != '=' && !IsSpace(c)
  }

  lemma {:induction false} IndexOfSkips(a: string, c: char, rest: string)
    requires c !in a
    ensures IndexOf(a + [c] + rest, c) == |a|
  {
    if a != [] {
      assert (a + [c] + rest)[1..] == a[1..] + [c] + rest;
      IndexOfSkips(a[1..], c, rest);
    }
  }

  /** A `Word = value` line reads back as its word and value, whatever the space around them. */
  lemma KeyLinePadded(lead: string, word: string, pad: string, gap: string, v: string, tail: string)
    requires IsWord(word) && Trimmed(v) && AllSpace(lead) && AllSpace(pad) && AllSpace(gap) && AllSpace(tail)
    ensures KeyValue(lead + word + pad + "=" + gap + v + tail) == (Lower(word), v, true)
    ensures !IsHeader(lead + word + pad + "=" + gap + v + tail)
  {
    hide TrimSpace, Lower, IndexOf, IsSpace;
    var rest := if v == "" then "" else gap + v;
    var key := word + pad;
    var t := key + ['='] + rest;
    PaddedTrims(lead, word, pad, gap, v, tail);
    SpaceChars();
    assert '=' !in key by {
      assert IsWord(word) && !IsSpace('=');
    }
    IndexOfSkips(key, '=', rest);
    assert t[..|key|] == "" + word + pad;
    TrimSpaceIs("", word, pad);
    assert t[|key| + 1..] == rest;
    if v != "" {
      assert rest == gap + v + "";
      TrimSpaceIs(gap, v, "");
    } else {
      TrimSpaceIs("", "", "");
      assert "" + "" + "" == "";
    }
    assert t[0] == word[0];
  }

  lemma PaddedTrims(lead: string, word: string, pad: string, gap: string, v: string, tail: string)
    requires IsWord(word) && Trimmed(v) && AllSpace(lead) && AllSpace(pad) && AllSpace(gap) && AllSpace(tail)
    ensures TrimSpace(lead + word + pad + "=" + gap + v + tail) == word + pad + ['='] + (if v == "" then "" else gap + v)
  {
    hide TrimSpace, IsSpace;
    SpaceChars();
    var line := lead + word + pad + "=" + gap + v + tail;
    var t := word + pad + ['='] + (if v == "" then "" else gap + v);
    assert t[0] == word[0] && word[0] in word;
    if v == "" {
      assert line == lead + t + (gap + tail);
      TrimSpaceIs(lead, t, gap + tail);
    } else {
      assert line == lead + t + tail;
      assert t[|t| - 1] == v[|v| - 1];
      TrimSpaceIs(lead, t, tail);
    }
  }

  /** The lines kluster writes. */
  lemma KeyLine(word: string, pad: string, v: string)
    requires IsWord(word) && AllSpace(pad) && Trimmed(v)
    ensures KeyValue(word + pad + "= " + v) == (Lower(word), v, true)
    ensures !IsHeader(word + pad + "= " + v)
  {
    hide KeyValue, IsHeader, IsWord, IsSpace, Trimmed;
    SpaceChars();
    KeyLinePadded("", word, pad, " ", v, "");
    assert "" + word + pad + "=" + " " + v + "" == word + pad + "= " + v;
  }

  lemma SpaceChars()
    ensures IsSpace(' ') && !IsSpace('=') && !IsSpace('#') && !IsSpace('[') && !IsSpace(']')
    ensures AllSpace("") && AllSpace(" ") && Trimmed("")
  {}

  /** A header line holds no key kluster reads: its key would start with a bracket. */
  lemma HeaderHasNoKey(line: string, key: string)
    requires IsHeader(line) && key != "" && key[0] != '['
    ensures !HasKey(line, key)
  {
    hide TrimSpace, IndexOf, IsSpace;
    var t := TrimSpace(line);
    var i := IndexOf(t, '=');
    if i < |t| {
      assert t[..i][0] == '[';
      SpaceChars();
      FirstChar(t[..i]);
      assert Lower(TrimSpace(t[..i]))[0] == '[';
    }
  }

  lemma FirstChar(line: string)
    requires line != [] && !IsSpace(line[0])
    ensures TrimSpace(line) != [] && TrimSpace(line)[0] == line[0]
  {
    hide IsSpace;
    assert TrimLeft(line) == line;
    var b := TrimRightSplits(line);
    assert b != [] ==> b[0] in b;
    assert line == TrimRight(line) + b;
  }

  // --- Blocks ----------------------------------------------------------------

  /** A config as the lines before its first header and one block for each header. */
  datatype Doc = Doc(pre: Lines, blocks: seq<Lines>)

  ghost predicate NoHeader(lines: Lines) {
    forall l | l in lines :: !IsHeader(l)
  }

  ghost predicate IsBlock(b: Lines) {
    b != [] && IsHeader(b[0]) && NoHeader(b[1..])
  }

  ghost predicate AreBlocks(bs: seq<Lines>) {
    forall b | b in bs :: IsBlock(b)
  }

  function Concat(bs: seq<Lines>): Lines {
    if bs == [] then [] else bs[0] + Concat(bs[1..])
  }

  function Parse(lines: Lines): (d: Doc)
    ensures NoHeader(d.pre) && AreBlocks(d.blocks) && NonEmpty(d.blocks)
    ensures d.pre + Concat(d.blocks) == lines
  {
    if lines == [] then Doc([], [])
    else
      var d := Parse(lines[1..]);
      if IsHeader(lines[0]) then
        var b := [lines[0]] + d.pre;
        assert b[1..] == d.pre && ([b] + d.blocks)[1..] == d.blocks;
        Doc([], [b] + d.blocks)
      else
        Doc([lines[0]] + d.pre, d.blocks)
  }

  /** Lines without a header become part of the last block. */
  function Extend(d: Doc, t: Lines): Doc {
    if d.blocks == [] then Doc(d.pre + t, [])
    else
      var n := |d.blocks| - 1;
      Doc(d.pre, d.blocks[..n] + [d.blocks[n] + t])
  }

  /** One line before a parsed config. */
  function Cons(l: string, d: Doc): Doc {
    if IsHeader(l) then Doc([], [[l] + d.pre] + d.blocks) else Doc([l] + d.pre, d.blocks)
  }

  lemma ParseCons(lines: Lines)
    requires lines != []
    ensures Parse(lines) == Cons(lines[0], Parse(lines[1..]))
  {
    hide IsHeader;
  }

  lemma ConsExtend(l: string, d: Doc, t: Lines)
    ensures Cons(l, Extend(d, t)) == Extend(Cons(l, d), t)
  {
    hide IsHeader;
    var c := Cons(l, d);
    assert [l] + (d.pre + t) == ([l] + d.pre) + t;
    if d.blocks != [] && IsHeader(l) {
      assert c.blocks[..|c.blocks| - 1] == [[l] + d.pre] + d.blocks[..|d.blocks| - 1];
    } else if IsHeader(l) {
      assert c.blocks[..0] == [];
    }
  }

  lemma {:induction false} ParseNoHeader(t: Lines)
    requires NoHeader(t)
    ensures Parse(t) == Doc(t, [])
  {
    hide IsHeader;
    if t != [] {
      assert t[0] in t && forall l | l in t[1..] :: l in t;
      ParseNoHeader(t[1..]);
      assert t == [t[0]] + t[1..];
    }
  }

  lemma {:induction false} ParseExtend(a: Lines, t: Lines)
    requires NoHeader(t)
    ensures Parse(a + t) == Extend(Parse(a), t)
    decreases |a|
  {
    hide IsHeader, Parse, Cons, Extend;
    if a == [] {
      assert a + t == t;
      ParseNoHeader(t);
      ParseNone(t);
    } else {
      assert (a + t)[1..] == a[1..] + t;
      ParseExtend(a[1..], t);
      ParseCons(a + t);
      ParseCons(a);
      ConsExtend(a[0], Parse(a[1..]), t);
    }
  }

  lemma ParseNone(t: Lines)
    ensures Extend(Parse([]), t) == Doc(t, [])
  {
    assert [] + t == t;
  }

  /** A header always opens a new block, so the blocks before it stay as they are. */
  lemma {:induction false} ParseAppend(a: Lines, b: Lines)
    requires b == [] || IsHeader(b[0])
    ensures Parse(b).pre == []
    ensures Parse(a + b) == Doc(Parse(a).pre, Parse(a).blocks + Parse(b).blocks)
  {
    hide IsHeader;
    if a == [] {
      assert a + b == b;
    } else {
      assert (a + b)[1..] == a[1..] + b;
      ParseAppend(a[1..], b);
      assert Parse(a + b).blocks == Parse(a).blocks + Parse(b).blocks;
    }
  }

  lemma {:induction false} ParseHeader(l: string)
    requires IsHeader(l)
    ensures Parse([l]) == Doc([], [[l]])
  {
    hide IsHeader;
    assert [l][1..] == [];
    assert [l] + [] == [l];
  }

  /** Blocks put together parse to the same blocks. */
  lemma {:induction false} ParseConcat(bs: seq<Lines>)
    requires AreBlocks(bs)
    ensures Parse(Concat(bs)) == Doc([], bs)
    ensures bs != [] ==> IsHeader(Concat(bs)[0])
  {
    hide IsHeader;
    if bs != [] {
      var b := bs[0];
      assert IsBlock(b);
      ParseConcat(bs[1..]);
      ParseHeader(b[0]);
      ParseExtend([b[0]], b[1..]);
      assert [b[0]] + b[1..] == b;
      ParseAppend(b, Concat(bs[1..]));
      assert [b] + bs[1..] == bs;
    }
  }

  lemma {:induction false} ConcatAppend(a: seq<Lines>, b: seq<Lines>)
    ensures Concat(a + b) == Concat(a) + Concat(b)
  {
    if a == [] {
      assert a + b == b;
    } else {
      assert (a + b)[1..] == a[1..] + b;
      ConcatAppend(a[1..], b);
      assert Concat(a + b) == a[0] + (Concat(a[1..]) + Concat(b));
    }
  }

  // --- sections --------------------------------------------------------------

  ghost predicate NonEmpty(bs: seq<Lines>) {
    forall b | b in bs :: b != []
  }

  function Locate(at: nat, bs: seq<Lines>): (out: seq<Section>)
    requires NonEmpty(bs)
    ensures |out| == |bs|
    decreases |bs|
  {
    if bs == [] then []
    else
      assert bs[0] in bs && forall x | x in bs[1..] :: x in bs;
      [Section(SectionName(bs[0][0]), at, at + |bs[0]|)] + Locate(at + |bs[0]|, bs[1..])
  }

  function SectionsOf(lines: Lines): seq<Section> {
    var d := Parse(lines);
    Locate(|d.pre|, d.blocks)
  }

  lemma {:induction false} LocateAppend(at: nat, a: seq<Lines>, b: seq<Lines>)
    requires NonEmpty(a) && NonEmpty(b)
    ensures NonEmpty(a + b)
    ensures Locate(at, a + b) == Locate(at, a) + Locate(at + |Concat(a)|, b)
    decreases |a|
  {
    hide SectionName;
    if a == [] {
      assert a + b == b;
    } else {
      assert (a + b)[1..] == a[1..] + b;
      assert a[0] in a;
      assert forall x | x in a[1..] :: x in a;
      LocateAppend(at + |a[0]|, a[1..], b);
      LocateCons(at, a);
      LocateCons(at, a + b);
      assert |Concat(a)| == |a[0]| + |Concat(a[1..])|;
      var head := [Section(SectionName(a[0][0]), at, at + |a[0]|)];
      hide Locate, Concat;
      Assoc(head, Locate(at + |a[0]|, a[1..]), Locate(at + |Concat(a)|, b));
    }
  }

  lemma LocateCons(at: nat, bs: seq<Lines>)
    requires NonEmpty(bs) && bs != []
    ensures bs[0] != [] && NonEmpty(bs[1..])
    ensures Locate(at, bs) == [Section(SectionName(bs[0][0]), at, at + |bs[0]|)] + Locate(at + |bs[0]|, bs[1..])
  {
    hide SectionName;
    assert bs[0] in bs && forall x | x in bs[1..] :: x in bs;
  }

  /** Section k covers exactly the lines of block k. */
  lemma SectionIsBlock(lines: Lines, k: nat)
    requires k < |Parse(lines).blocks|
    ensures Parse(lines).blocks[k] != []
    ensures |SectionsOf(lines)| == |Parse(lines).blocks|
    ensures var s, d := SectionsOf(lines)[k], Parse(lines);
            && s.start == |d.pre + Concat(d.blocks[..k])| < s.end <= |lines|
            && s.name == SectionName(d.blocks[k][0])
            && lines[s.start..s.end] == d.blocks[k]
            && lines[..s.start] == d.pre + Concat(d.blocks[..k])
            && lines[s.end..] == Concat(d.blocks[k + 1..])
  {
    var d := Parse(lines);
    SplitBlocks(d, k);
    LocateAt(|d.pre|, d.blocks, k);
    hide *;
    Slices(d.pre + Concat(d.blocks[..k]), d.blocks[k], Concat(d.blocks[k + 1..]));
  }

  lemma Slices(a: Lines, b: Lines, c: Lines)
    ensures (a + b + c)[..|a|] == a
    ensures (a + b + c)[|a|..|a| + |b|] == b
    ensures (a + b + c)[|a| + |b|..] == c
  {}

  lemma SplitBlocks(d: Doc, k: nat)
    requires k < |d.blocks|
    ensures d.pre + Concat(d.blocks) == d.pre + Concat(d.blocks[..k]) + d.blocks[k] + Concat(d.blocks[k + 1..])
  {
    var a, b, c := d.blocks[..k], d.blocks[k], d.blocks[k + 1..];
    assert d.blocks == a + ([b] + c);
    ConcatAppend(a, [b] + c);
    assert ([b] + c)[1..] == c;
    hide Concat;
    assert d.pre + (Concat(a) + (b + Concat(c))) == d.pre + Concat(a) + b + Concat(c);
  }

  lemma {:induction false} LocateAt(at: nat, bs: seq<Lines>, k: nat)
    requires NonEmpty(bs) && k < |bs|
    ensures bs[k] != []
    ensures var i := at + |Concat(bs[..k])|; Locate(at, bs)[k] == Section(SectionName(bs[k][0]), i, i + |bs[k]|)
    decreases k
  {
    hide SectionName;
    assert bs[0] in bs;
    if k > 0 {
      assert forall x | x in bs[1..] :: x in bs;
      LocateAt(at + |bs[0]|, bs[1..], k - 1);
      assert bs[1..][..k - 1] == bs[..k][1..];
    }
  }

  /** The open section list of the loop, closed at line i. */
  function Closed(out: seq<Section>, i: nat): seq<Section> {
    if out == [] then [] else out[..|out| - 1] + [out[|out| - 1].(end := i)]
  }

  lemma SectionsStep(lines: Lines, l: string)
    ensures IsHeader(l) ==>
              SectionsOf(lines + [l]) == SectionsOf(lines) + [Section(SectionName(l), |lines|, |lines| + 1)]
    ensures !IsHeader(l) ==>
              SectionsOf(lines + [l]) == Closed(SectionsOf(lines), |lines| + 1)
  {
    hide *;
    var d := Parse(lines);
    SectionsAre(lines);
    SectionsAre(lines + [l]);
    if IsHeader(l) {
      ParseHeader(l);
      ParseAppend(lines, [l]);
      LocateAppend(|d.pre|, d.blocks, [[l]]);
      LocateOne(|d.pre| + |Concat(d.blocks)|, [l]);
      assert |lines| == |d.pre| + |Concat(d.blocks)|;
    } else {
      OneNoHeader(l);
      ParseExtend(lines, [l]);
      ExtendLocates(d, l);
    }
  }

  lemma OneNoHeader(l: string)
    requires !IsHeader(l)
    ensures NoHeader([l])
  {
    hide IsHeader;
  }

  lemma SectionsAre(lines: Lines)
    ensures SectionsOf(lines) == Locate(|Parse(lines).pre|, Parse(lines).blocks)
  {
    hide Parse, Locate;
  }

  lemma LocateOne(at: nat, b: Lines)
    requires b != []
    ensures Locate(at, [b]) == [Section(SectionName(b[0]), at, at + |b|)]
  {
    hide SectionName;
    assert [b][1..] == [];
  }

  /** A line more in the last block moves that block's end. */
  lemma ExtendLocates(d: Doc, l: string)
    requires NonEmpty(d.blocks)
    ensures NonEmpty(Extend(d, [l]).blocks)
    ensures Locate(|Extend(d, [l]).pre|, Extend(d, [l]).blocks) ==
            Closed(Locate(|d.pre|, d.blocks), |d.pre + Concat(d.blocks)| + 1)
  {
    hide SectionName, Locate, Concat;
    if d.blocks == [] {
      assert Locate(|d.pre|, []) == [] && Locate(|d.pre + [l]|, []) == [];
    } else {
      var n := |d.blocks| - 1;
      var a, b := d.blocks[..n], d.blocks[n];
      assert d.blocks == a + [b] && b in d.blocks && forall x | x in a :: x in d.blocks;
      LocateAppend(|d.pre|, a, [b]);
      LocateAppend(|d.pre|, a, [b + [l]]);
      LocateOne(|d.pre| + |Concat(a)|, b);
      LocateOne(|d.pre| + |Concat(a)|, b + [l]);
      ConcatAppend(a, [b]);
      ConcatOne(b);
    }
  }

  lemma ConcatOne(b: Lines)
    ensures Concat([b]) == b
  {
    assert [b][1..] == [];
  }

  lemma NoSections()
    ensures SectionsOf([]) == []
  {}

  method Sections(lines: Lines) returns (out: seq<Section>)
    ensures out == SectionsOf(lines)
  {
    hide SectionsOf, TrimSpace, Lower, TrimBrackets;
    out := [];
    assert SectionsOf([]) == [] by { NoSections(); }
    assert lines[..0] == [];
    for i := 0 to |lines|
      invariant out != [] ==> out[|out| - 1].start < i
      invariant Closed(out, i) == SectionsOf(lines[..i])
    {
      assert lines[..i + 1] == lines[..i] + [lines[i]];
      SectionsStep(lines[..i], lines[i]);
      var t := TrimSpace(lines[i]);
      if t != [] && t[0] == '[' && t[|t| - 1] == ']' {
        if |out| > 0 {
          out := out[|out| - 1 := out[|out| - 1].(end := i)];
        }
        out := out + [Section(Lower(TrimBrackets(t)), i, 0)];
      }
    }
    if |out| > 0 {
      out := out[|out| - 1 := out[|out| - 1].(end := |lines|)];
    }
    assert lines[..|lines|] == lines;
  }

  // --- Peers -----------------------------------------------------------------

  /** What one line of a [Peer] section adds to the peer read so far. */
  function PeerLine(p: Peer, line: string): Peer {
    var t := TrimSpace(line);
    if p.name == "" && t != "" && t[0] == '#' then p.(name := TrimSpace(t[1..]))
    else
      var (k, v, _) := KeyValue(line);
      if k == "publickey" then p.(publicKey := v)
      else if k == "allowedips" then p.(allowedIPs := v)
      else p
  }

  function ReadPeer(p: Peer, lines: Lines): Peer
    decreases |lines|
  {
    if lines == [] then p else ReadPeer(PeerLine(p, lines[0]), lines[1..])
  }

  predicate IsPeerBlock(b: Lines) {
    b != [] && SectionName(b[0]) == "peer"
  }

  function PeersOf(bs: seq<Lines>): seq<Peer> {
    if bs == [] then []
    else PeerOf(bs[0]) + PeersOf(bs[1..])
  }

  /** A block's peer, if it is one. */
  function PeerOf(b: Lines): seq<Peer> {
    if IsPeerBlock(b) then [ReadPeer(Peer("", "", ""), b[1..])] else []
  }

  lemma PeersOfCons(bs: seq<Lines>)
    requires bs != []
    ensures PeersOf(bs) == PeerOf(bs[0]) + PeersOf(bs[1..])
  {
    hide PeerOf;
  }

  function PeersIn(lines: Lines): seq<Peer> {
    PeersOf(Parse(lines).blocks)
  }

  lemma {:induction false} ReadPeerAppend(p: Peer, a: Lines, b: Lines)
    ensures ReadPeer(p, a + b) == ReadPeer(ReadPeer(p, a), b)
    decreases |a|
  {
    hide PeerLine;
    if a == [] {
      assert a + b == b;
    } else {
      assert (a + b)[1..] == a[1..] + b;
      ReadPeerAppend(PeerLine(p, a[0]), a[1..], b);
    }
  }

  lemma {:induction false} PeersOfAppend(a: seq<Lines>, b: seq<Lines>)
    ensures PeersOf(a + b) == PeersOf(a) + PeersOf(b)
  {
    if a == [] {
      assert a + b == b;
    } else {
      assert (a + b)[1..] == a[1..] + b;
      PeersOfAppend(a[1..], b);
      PeersOfCons(a);
      PeersOfCons(a + b);
      hide PeersOf, PeerOf;
      Assoc(PeerOf(a[0]), PeersOf(a[1..]), PeersOf(b));
    }
  }

  /** The inner loop of Peers over one section's body. */
  method ReadBody(body: Lines) returns (p: Peer)
    ensures p == ReadPeer(Peer("", "", ""), body)
  {
    hide TrimSpace, KeyValue, ReadPeer;
    p := Peer("", "", "");
    ReadNothing();
    for j := 0 to |body|
      invariant p == ReadPeer(Peer("", "", ""), body[..j])
    {
      ReadStep(body, j);
      var t := TrimSpace(body[j]);
      if p.name == "" && t != "" && t[0] == '#' {
        p := p.(name := TrimSpace(t[1..]));
      } else {
        var (k, v, _) := KeyValue(body[j]);
        if k == "publickey" {
          p := p.(publicKey := v);
        } else if k == "allowedips" {
          p := p.(allowedIPs := v);
        }
      }
    }
    assert body[..|body|] == body;
  }

  lemma ReadNothing()
    ensures ReadPeer(Peer("", "", ""), []) == Peer("", "", "")
  {}

  lemma ReadStep(body: Lines, j: nat)
    requires j < |body|
    ensures ReadPeer(Peer("", "", ""), body[..j + 1]) == PeerLine(ReadPeer(Peer("", "", ""), body[..j]), body[j])
  {
    hide PeerLine;
    assert body[..j + 1] == body[..j] + [body[j]];
    ReadPeerAppend(Peer("", "", ""), body[..j], [body[j]]);
    assert [body[j]][1..] == [];
  }

  method Peers(lines: Lines) returns (out: seq<Peer>)
    ensures out == PeersIn(lines)
  {
    hide Parse, SectionName, ReadPeer, PeersOf, SectionsOf;
    out := [];
    var ss := Sections(lines);
    ghost var bs := Parse(lines).blocks;
    NoBlocks();
    SectionsCount(lines);
    for i := 0 to |ss|
      invariant out == PeersOf(bs[..i])
    {
      SectionIsBlock(lines, i);
      PeersStep(bs, i);
      if ss[i].name == "peer" {
        var body := lines[ss[i].start + 1..ss[i].end];
        assert body == lines[ss[i].start..ss[i].end][1..];
        var p := ReadBody(body);
        out := out + [p];
      }
    }
    assert bs[..|bs|] == bs;
  }

  lemma NoBlocks()
    ensures PeersOf([]) == []
  {}

  lemma SectionsCount(lines: Lines)
    ensures |SectionsOf(lines)| == |Parse(lines).blocks|
  {
    hide Parse;
  }

  lemma PeersStep(bs: seq<Lines>, i: nat)
    requires i < |bs|
    ensures PeersOf(bs[..i + 1]) == PeersOf(bs[..i]) + PeerOf(bs[i])
  {
    hide PeerOf;
    assert bs[..i + 1] == bs[..i] + [bs[i]];
    PeersOfAppend(bs[..i], [bs[i]]);
    assert [bs[i]][1..] == [];
  }

  // --- AddPeer ---------------------------------------------------------------

  ghost predicate NoNewline(s: string) {
    '\n' !in s
  }

  /** strings.TrimRight(conf, "\n") on the lines: at least one line stays. */
  function StripEmpty(lines: Lines): Lines {
    if |lines| > 1 && lines[|lines| - 1] == "" then StripEmpty(lines[..|lines| - 1]) else lines
  }

  function PeerSection(p: Peer): Lines {
    ["[Peer]", "# " + p.name, "PublicKey  = " + p.publicKey, "AllowedIPs = " + p.allowedIPs]
  }

  predicate Clashes(ps: seq<Peer>, p: Peer) {
    exists q | q in ps :: q.publicKey == p.publicKey || q.allowedIPs == p.allowedIPs
  }

  function Added(lines: Lines, p: Peer): Lines {
    StripEmpty(lines) + [""] + PeerSection(p) + [""]
  }

  function AddPeerIn(lines: Lines, p: Peer): Option<Lines> {
    if Clashes(PeersIn(lines), p) then None else Some(Added(lines, p))
  }

  method AddPeer(lines: Lines, p: Peer) returns (r: Option<Lines>)
    ensures r == AddPeerIn(lines, p)
  {
    hide PeersIn;
    var ps := Peers(lines);
    for i := 0 to |ps|
      invariant forall j | 0 <= j < i :: ps[j].publicKey != p.publicKey && ps[j].allowedIPs != p.allowedIPs
    {
      if ps[i].publicKey == p.publicKey || ps[i].allowedIPs == p.allowedIPs {
        assert ps[i] in ps;
        return None;
      }
    }
    var section := ["", "[Peer]", "# " + p.name, "PublicKey  = " + p.publicKey, "AllowedIPs = " + p.allowedIPs, ""];
    assert section == [""] + PeerSection(p) + [""];
    assert StripEmpty(lines) + section == Added(lines, p);
    r := Some(StripEmpty(lines) + section);
  }

  /** A field kluster writes: one line, no space at its ends. */
  ghost predicate IsField(s: string) {
    Trimmed(s) && NoNewline(s)
  }

  ghost predicate IsPeer(p: Peer) {
    IsField(p.name) && IsField(p.publicKey) && IsField(p.allowedIPs)
  }

  lemma EmptyLine()
    ensures !IsHeader("") && IsBlank("") && KeyValue("") == ("", "", false)
  {}

  /** The section AddPeer writes is one block and reads back as the peer. */
  lemma PeerSectionReads(p: Peer)
    requires IsPeer(p)
    ensures IsBlock(PeerSection(p)) && IsPeerBlock(PeerSection(p))
    ensures ReadPeer(Peer("", "", ""), PeerSection(p)[1..]) == p
    ensures KeyValue("# " + p.name).2 == false
    ensures KeyValue("PublicKey  = " + p.publicKey) == ("publickey", p.publicKey, true)
    ensures KeyValue("AllowedIPs = " + p.allowedIPs) == ("allowedips", p.allowedIPs, true)
  {
    hide IsHeader, KeyValue, TrimSpace, SectionName, Lower, IsSpace;
    var b := PeerSection(p);
    HeaderReads();
    CommentReads(p.name);
    Words();
    KeyLine("PublicKey", "  ", p.publicKey);
    KeyLine("AllowedIPs", " ", p.allowedIPs);
    assert "PublicKey" + "  " + "= " + p.publicKey == b[2];
    assert "AllowedIPs" + " " + "= " + p.allowedIPs == b[3];
    FirstChar(b[2]);
    FirstChar(b[3]);
    assert b[1..] == [b[1], b[2], b[3]];
    ReadPeerThree(Peer("", "", ""), b[1], b[2], b[3]);
  }

  lemma ReadPeerThree(p: Peer, a: string, b: string, c: string)
    ensures ReadPeer(p, [a, b, c]) == PeerLine(PeerLine(PeerLine(p, a), b), c)
  {
    hide PeerLine;
    var p1, p2 := PeerLine(p, a), PeerLine(PeerLine(p, a), b);
    assert [a, b, c][1..] == [b, c] && [b, c][1..] == [c] && [c][1..] == [];
    assert ReadPeer(p, [a, b, c]) == ReadPeer(p1, [b, c]);
    assert ReadPeer(p1, [b, c]) == ReadPeer(p2, [c]);
    assert ReadPeer(p2, [c]) == ReadPeer(PeerLine(p2, c), []);
  }

  lemma Words()
    ensures IsWord("PublicKey") && IsWord("AllowedIPs") && IsWord("Endpoint")
    ensures Lower("PublicKey") == "publickey" && Lower("AllowedIPs") == "allowedips" && Lower("Endpoint") == "endpoint"
    ensures AllSpace(" ") && AllSpace("  ")
    ensures !IsSpace('P') && !IsSpace('A') && !IsSpace('E')
  {
    LowerWords();
    WordChars();
    hide Lower;
  }

  lemma LowerWords()
    ensures Lower("PublicKey") == "publickey" && Lower("AllowedIPs") == "allowedips" && Lower("Endpoint") == "endpoint"
  {}

  lemma WordChars()
    ensures IsWord("PublicKey") && IsWord("AllowedIPs") && IsWord("Endpoint")
  {
    hide Lower;
  }

  lemma HeaderReads()
    ensures IsHeader("[Peer]") && SectionName("[Peer]") == "peer"
  {
    assert TrimSpace("[Peer]") == "[Peer]" by {
      assert "" + "[Peer]" + "" == "[Peer]";
      TrimSpaceIs("", "[Peer]", "");
    }
    var t := "[Peer]";
    assert t[1..] == "Peer]";
    assert "Peer]"[..4] == "Peer";
    assert TrimBrackets("Peer") == "Peer";
    assert TrimBrackets("Peer]") == "Peer";
    assert Lower("Peer") == "peer";
  }

  lemma CommentReads(name: string)
    requires Trimmed(name)
    ensures TrimSpace("# " + name) != "" && TrimSpace("# " + name)[0] == '#'
    ensures TrimSpace(TrimSpace("# " + name)[1..]) == name
    ensures !IsHeader("# " + name) && !KeyValue("# " + name).2
  {
    if name == "" {
      assert "# " + name == "" + "#" + " ";
      TrimSpaceIs("", "#", " ");
      assert "#"[1..] == "";
    } else {
      var c := "# " + name;
      assert c[|c| - 1] == name[|name| - 1];
      assert c == "" + c + "";
      TrimSpaceIs("", c, "");
      assert c[1..] == " " + name + "";
      TrimSpaceIs(" ", name, "");
    }
  }

  /** Trailing lines that hold no header and no peer field change no peer. */
  lemma PeersBlankTail(a: Lines, t: Lines)
    requires forall l | l in t :: IsBlank(l)
    ensures PeersIn(a + t) == PeersIn(a)
  {
    hide *;
    BlankNoHeader(t);
    ParseExtend(a, t);
    PeersDef(a);
    PeersDef(a + t);
    PeersExtend(Parse(a), t);
  }

  /** Blank lines at the end of the last block change no peer. */
  lemma PeersExtend(d: Doc, t: Lines)
    requires NonEmpty(d.blocks) && forall l | l in t :: IsBlank(l)
    ensures PeersOf(Extend(d, t).blocks) == PeersOf(d.blocks)
  {
    hide IsBlank, PeersOf, PeerOf;
    if d.blocks != [] {
      var n := |d.blocks| - 1;
      var b := d.blocks[n];
      assert b in d.blocks && d.blocks == d.blocks[..n] + [b];
      PeersOfAppend(d.blocks[..n], [b]);
      PeersOfAppend(d.blocks[..n], [b + t]);
      OnePeer(b);
      OnePeer(b + t);
      PeerBlank(b, t);
    }
  }

  lemma OnePeer(b: Lines)
    ensures PeersOf([b]) == PeerOf(b)
  {
    hide PeerOf;
    assert [b][1..] == [];
  }

  lemma PeerBlank(b: Lines, t: Lines)
    requires b != [] && forall l | l in t :: IsBlank(l)
    ensures PeerOf(b + t) == PeerOf(b)
  {
    hide IsBlank, ReadPeer, IsPeerBlock;
    SameHead(b, t);
    assert (b + t)[1..] == b[1..] + t;
    ReadPeerAppend(Peer("", "", ""), b[1..], t);
    ReadPeerBlank(ReadPeer(Peer("", "", ""), b[1..]), t);
  }

  lemma BlankNoHeader(t: Lines)
    requires forall l | l in t :: IsBlank(l)
    ensures NoHeader(t)
  {
    hide TrimSpace;
    assert forall l | l in t :: IsBlank(l) && !IsHeader(l);
  }

  lemma BlankLine(p: Peer, l: string)
    requires IsBlank(l)
    ensures PeerLine(p, l) == p && !HasKey(l, "publickey")
  {
    hide TrimSpace;
  }

  lemma SameHead(b: Lines, t: Lines)
    requires b != []
    ensures IsPeerBlock(b) == IsPeerBlock(b + t)
  {
    hide SectionName;
  }

  lemma {:induction false} ReadPeerBlank(p: Peer, t: Lines)
    requires forall l | l in t :: IsBlank(l)
    ensures ReadPeer(p, t) == p
  {
    hide TrimSpace, IsBlank;
    if t != [] {
      assert IsBlank(t[0]) && forall l | l in t[1..] :: l in t;
      BlankLine(p, t[0]);
      ReadPeerBlank(p, t[1..]);
    }
  }

  lemma {:induction false} StripEmptySplits(lines: Lines) returns (t: Lines)
    ensures lines == StripEmpty(lines) + t
    ensures forall l | l in t :: l == ""
    ensures lines != [] ==> StripEmpty(lines) != []
  {
    t := [];
    if |lines| > 1 && lines[|lines| - 1] == "" {
      var u := StripEmptySplits(lines[..|lines| - 1]);
      t := u + [""];
      assert lines == lines[..|lines| - 1] + [""];
    }
  }

  /** What AddPeer writes has the blocks of the stripped config and one more. */
  lemma AddedParses(lines: Lines, p: Peer)
    requires IsPeer(p)
    ensures PeersIn(StripEmpty(lines)) == PeersIn(lines)
    ensures var d := Parse(StripEmpty(lines) + [""]);
            Parse(Added(lines, p)) == Doc(d.pre, d.blocks + [PeerSection(p) + [""]])
  {
    hide IsHeader, KeyValue, IsBlank, ReadPeer, IsPeerBlock, PeerSection, PeersOf, Parse, StripEmpty, Trimmed;
    EmptyLine();
    PeerSectionReads(p);
    var t := StripEmptySplits(lines);
    PeersBlankTail(StripEmpty(lines), t);
    var b := PeerSection(p) + [""];
    assert b[1..] == PeerSection(p)[1..] + [""];
    assert IsBlock(b);
    ParseConcat([b]);
    assert Concat([b]) == b;
    ParseAppend(StripEmpty(lines) + [""], b);
    assert Added(lines, p) == (StripEmpty(lines) + [""]) + b;
  }

  /** AddPeer appends exactly the peer, and refuses exactly a key or an address another peer holds. */
  lemma {:induction false} PeersAdd(lines: Lines, p: Peer)
    requires IsPeer(p)
    ensures AddPeerIn(lines, p).None? <==>
            exists q | q in PeersIn(lines) :: q.publicKey == p.publicKey || q.allowedIPs == p.allowedIPs
    ensures AddPeerIn(lines, p).Some? ==> PeersIn(AddPeerIn(lines, p).value) == PeersIn(lines) + [p]
  {
    hide IsHeader, KeyValue, IsBlank, ReadPeer, PeerSection, Parse, StripEmpty, Trimmed;
    if AddPeerIn(lines, p).Some? {
      EmptyLine();
      AddedParses(lines, p);
      PeerSectionReads(p);
      var d := Parse(StripEmpty(lines) + [""]);
      var b := PeerSection(p) + [""];
      PeersOfAppend(d.blocks, [b]);
      PeersBlankTail(StripEmpty(lines), [""]);
      assert b[1..] == PeerSection(p)[1..] + [""];
      ReadPeerAppend(Peer("", "", ""), PeerSection(p)[1..], [""]);
      ReadPeerBlank(p, [""]);
      assert PeersOf([b]) == [p];
    }
  }

  /** The lines AddPeer returns are the text the source builds. */
  lemma {:induction false} AddedText(lines: Lines, p: Peer)
    requires lines != []
    ensures Join(Added(lines, p), '\n') ==
            Join(StripEmpty(lines), '\n') + ['\n'] + ['\n'] +
            ("[Peer]" + ['\n'] + ("# " + p.name) + ['\n'] + ("PublicKey  = " + p.publicKey) + ['\n'] +
             ("AllowedIPs = " + p.allowedIPs)) + ['\n']
  {
    hide StripEmpty, Join;
    var t := StripEmptySplits(lines);
    var base := StripEmpty(lines);
    var c, k, a := "# " + p.name, "PublicKey  = " + p.publicKey, "AllowedIPs = " + p.allowedIPs;
    JoinAppend(base + [""] + ["[Peer]", c, k, a], [""], '\n');
    JoinAppend(base + [""], ["[Peer]", c, k, a], '\n');
    JoinAppend(base, [""], '\n');
    JoinOne("");
    JoinFour("[Peer]", c, k, a);
    assert PeerSection(p) == ["[Peer]", c, k, a];
    assert Join(base, '\n') + ['\n'] + "" == Join(base, '\n') + ['\n'];
  }

  lemma JoinOne(a: string)
    ensures Join([a], '\n') == a
  {}

  lemma {:induction false} JoinFour(a: string, b: string, c: string, d: string)
    ensures Join([a, b, c, d], '\n') == a + ['\n'] + b + ['\n'] + c + ['\n'] + d
  {
    assert [a, b, c, d][1..] == [b, c, d] && [b, c, d][1..] == [c, d] && [c, d][1..] == [d];
    assert Join([c, d], '\n') == c + ['\n'] + d;
    assert Join([b, c, d], '\n') == b + ['\n'] + (c + ['\n'] + d);
    assert a + ['\n'] + (b + ['\n'] + (c + ['\n'] + d)) == a + ['\n'] + b + ['\n'] + c + ['\n'] + d;
  }

  // --- RemovePeer ------------------------------------------------------------

  predicate HoldsKey(b: Lines, key: string) {
    exists l | l in b :: HasKey(l, "publickey") && KeyValue(l).1 == key
  }

  /** The first [Peer] block that holds key, or |bs|. */
  function FirstHolding(bs: seq<Lines>, key: string): (k: nat)
    ensures k <= |bs|
    ensures k < |bs| ==> IsPeerBlock(bs[k]) && HoldsKey(bs[k], key)
    ensures forall j | 0 <= j < k :: !(IsPeerBlock(bs[j]) && HoldsKey(bs[j], key))
  {
    hide IsPeerBlock, HoldsKey;
    if bs == [] || (IsPeerBlock(bs[0]) && HoldsKey(bs[0], key)) then 0
    else 1 + FirstHolding(bs[1..], key)
  }

  /** The lines without the blank ones at their end. */
  function StripBlank(lines: Lines): Lines {
    if lines != [] && IsBlank(lines[|lines| - 1]) then StripBlank(lines[..|lines| - 1]) else lines
  }

  /** The lines of strings.Join(lines, "\n"): no lines and one empty line are the same text. */
  function OneLine(lines: Lines): Lines {
    if lines == [] then [""] else lines
  }

  function RemovePeerIn(lines: Lines, key: string): Option<Lines> {
    var d := Parse(lines);
    var k := FirstHolding(d.blocks, key);
    if k == |d.blocks| then None
    else Some(OneLine(StripBlank(d.pre + Concat(d.blocks[..k])) + Concat(d.blocks[k + 1..])))
  }

  method RemovePeer(lines: Lines, key: string) returns (r: Option<Lines>)
    ensures r == RemovePeerIn(lines, key)
  {
    hide Parse, Concat, SectionName, KeyValue, TrimSpace, StripBlank, FirstHolding;
    var ss := Sections(lines);
    ghost var d := Parse(lines);
    ghost var first := FirstHolding(d.blocks, key);
    for i := 0 to |ss|
      invariant |ss| == |d.blocks|
      invariant i <= first
    {
      SectionIsBlock(lines, i);
      if ss[i].name == "peer" {
        var body := lines[ss[i].start..ss[i].end];
        for j := 0 to |body|
          invariant forall m | 0 <= m < j :: !(HasKey(body[m], "publickey") && KeyValue(body[m]).1 == key)
        {
          var (k, v, _) := KeyValue(body[j]);
          if k == "publickey" && v == key {
            assert body[j] in d.blocks[i];
            assert first == i;
            var start := ss[i].start;
            while start > 0 && TrimSpace(lines[start - 1]) == ""
              invariant 0 <= start <= ss[i].start <= |lines|
              invariant StripBlank(lines[..start]) == StripBlank(lines[..ss[i].start])
            {
              StripBlankStep(lines, start);
              start := start - 1;
            }
            StripBlankStop(lines[..start]);
            return Some(OneLine(lines[..start] + lines[ss[i].end..]));
          }
        }
        assert forall l | l in body :: !(HasKey(l, "publickey") && KeyValue(l).1 == key);
      }
    }
    r := None;
  }

  lemma StripBlankStep(lines: Lines, i: nat)
    requires 0 < i <= |lines| && IsBlank(lines[i - 1])
    ensures StripBlank(lines[..i]) == StripBlank(lines[..i - 1])
  {
    hide IsBlank;
    assert lines[..i][..i - 1] == lines[..i - 1];
  }

  lemma StripBlankStop(lines: Lines)
    requires lines != [] ==> !IsBlank(lines[|lines| - 1])
    ensures StripBlank(lines) == lines
  {
    hide IsBlank;
  }

  lemma {:induction false} StripBlankSplits(lines: Lines) returns (t: Lines)
    ensures lines == StripBlank(lines) + t
    ensures forall l | l in t :: IsBlank(l)
  {
    hide IsBlank;
    t := [];
    if lines != [] && IsBlank(lines[|lines| - 1]) {
      var u := StripBlankSplits(lines[..|lines| - 1]);
      t := u + [lines[|lines| - 1]];
      assert lines == lines[..|lines| - 1] + [lines[|lines| - 1]];
    }
  }

  /**
   * RemovePeer drops exactly one peer, the first that holds the key. Every line outside its
   * section and the blank lines before it stays, in order; the section runs to the next
   * header, so a comment above that header goes with it.
   */
  lemma {:induction false} RemoveDropsOne(lines: Lines, key: string) returns (k: nat, before: seq<Peer>, gone: Peer, after: seq<Peer>)
    requires RemovePeerIn(lines, key).Some?
    ensures k < |Parse(lines).blocks| && IsPeerBlock(Parse(lines).blocks[k]) && HoldsKey(Parse(lines).blocks[k], key)
    ensures forall j | 0 <= j < k :: IsPeerBlock(Parse(lines).blocks[j]) ==> !HoldsKey(Parse(lines).blocks[j], key)
    ensures PeersIn(lines) == before + [gone] + after
    ensures before == PeersOf(Parse(lines).blocks[..k]) && gone == ReadPeer(Peer("", "", ""), Parse(lines).blocks[k][1..])
    ensures PeersIn(RemovePeerIn(lines, key).value) == before + after
    ensures var s := SectionsOf(lines);
            |s| == |Parse(lines).blocks| && s[k].end <= |lines| && s[k].start <= |lines| &&
            RemovePeerIn(lines, key).value == OneLine(StripBlank(lines[..s[k].start]) + lines[s[k].end..])
  {
    var d := Parse(lines);
    k := FirstHolding(d.blocks, key);
    SectionIsBlock(lines, k);
    before, gone, after := PeersSplit(d.blocks, k);
    assert AreBlocks(d.blocks[..k]) && AreBlocks(d.blocks[k + 1..]) by { SubBlocks(d.blocks, k); }
    PeersRejoin(d.pre, d.blocks[..k], d.blocks[k + 1..]);
    hide *;
  }

  lemma SubBlocks(bs: seq<Lines>, k: nat)
    requires AreBlocks(bs) && k < |bs|
    ensures AreBlocks(bs[..k]) && AreBlocks(bs[k + 1..])
  {
    hide IsBlock;
    assert forall x | x in bs[..k] || x in bs[k + 1..] :: x in bs;
  }

  lemma PeersSplit(bs: seq<Lines>, k: nat) returns (before: seq<Peer>, gone: Peer, after: seq<Peer>)
    requires k < |bs| && IsPeerBlock(bs[k])
    ensures before == PeersOf(bs[..k]) && after == PeersOf(bs[k + 1..])
    ensures bs[k] != [] && gone == ReadPeer(Peer("", "", ""), bs[k][1..])
    ensures PeersOf(bs) == before + [gone] + after
  {
    hide ReadPeer, IsPeerBlock, PeersOf;
    var a, b, c := bs[..k], bs[k], bs[k + 1..];
    assert bs == a + [b] + c;
    PeersOfAppend(a + [b], c);
    PeersOfAppend(a, [b]);
    PeersOfOne(b);
    assert b != [] by { PeerBlockNonEmpty(b); }
    before, gone, after := PeersOf(a), ReadPeer(Peer("", "", ""), b[1..]), PeersOf(c);
  }

  lemma PeerBlockNonEmpty(b: Lines)
    requires IsPeerBlock(b)
    ensures b != []
  {}

  /** The peers of the blocks around a removed one, whatever blank lines went with it. */
  lemma PeersRejoin(pre: Lines, a: seq<Lines>, c: seq<Lines>)
    requires NoHeader(pre) && AreBlocks(a) && AreBlocks(c)
    ensures PeersIn(OneLine(StripBlank(pre + Concat(a)) + Concat(c))) == PeersOf(a) + PeersOf(c)
  {
    var head := pre + Concat(a);
    hide *;
    var t := StripBlankSplits(head);
    PeersBlankTail(StripBlank(head), t);
    ParseHead(pre, a);
    assert PeersIn(head) == PeersOf(a) by { PeersDef(head); }
    PeersAppendBlocks(StripBlank(head), c);
    PeersOneLine(StripBlank(head) + Concat(c));
  }

  lemma PeersDef(lines: Lines)
    ensures PeersIn(lines) == PeersOf(Parse(lines).blocks)
  {}

  lemma {:induction false} PeersAppendBlocks(h: Lines, c: seq<Lines>)
    requires AreBlocks(c)
    ensures PeersIn(h + Concat(c)) == PeersIn(h) + PeersOf(c)
  {
    assert c == [] ==> Concat(c) == [];
    hide Parse, Concat, PeersOf, IsBlock, IsHeader;
    ParseConcat(c);
    ParseAppend(h, Concat(c));
    PeersOfAppend(Parse(h).blocks, c);
  }

  lemma PeersOneLine(lines: Lines)
    ensures PeersIn(OneLine(lines)) == PeersIn(lines)
  {
    hide PeersIn;
    NoPeers();
  }

  lemma PeersOfOne(b: Lines)
    requires IsPeerBlock(b)
    ensures PeersOf([b]) == [ReadPeer(Peer("", "", ""), b[1..])]
  {
    hide ReadPeer, IsPeerBlock;
    assert [b][1..] == [];
  }

  lemma NoPeers()
    ensures PeersIn([""]) == [] && PeersIn([]) == []
  {
    hide IsHeader;
    EmptyLine();
    assert [""][1..] == [];
  }

  lemma ParseHead(pre: Lines, bs: seq<Lines>)
    requires NoHeader(pre) && AreBlocks(bs)
    ensures Parse(pre + Concat(bs)) == Doc(pre, bs)
  {
    hide IsHeader, Concat;
    ParseConcat(bs);
    ParseExtend([], pre);
    assert [] + pre == pre;
    assert bs == [] ==> Concat(bs) == [] by { ConcatAppend([], []); }
    ParseAppend(pre, Concat(bs));
  }

  /** Removing the peer just added gives back the config without its trailing blank lines. */
  lemma {:induction false} RemoveAdded(lines: Lines, p: Peer)
    requires IsPeer(p) && !Clashes(PeersIn(lines), p)
    requires !AnyHolds(Parse(lines).blocks, p.publicKey)
    ensures RemovePeerIn(Added(lines, p), p.publicKey) == Some(OneLine(StripBlank(lines)))
  {
    var base, b := StripEmpty(lines) + [""], PeerSection(p) + [""];
    var d := Parse(base);
    AddedParses(lines, p);
    PeerSectionReads(p);
    assert IsPeerBlock(b) && HoldsKey(b, p.publicKey) by {
      hide KeyValue, SectionName;
      assert b[2] in b && b[2] == "PublicKey  = " + p.publicKey;
    }
    hide *;
    EmptyLine();
    var u := StripEmptySplits(lines);
    StripBlankTail(StripEmpty(lines), u);
    StripBlankTail(StripEmpty(lines), [""]);
    HoldsBlankTail(StripEmpty(lines), u, p.publicKey);
    HoldsBlankTail(StripEmpty(lines), [""], p.publicKey);
    RemoveLast(Added(lines, p), d.pre, d.blocks, b, p.publicKey);
  }

  /** Some [Peer] block holds the key. */
  ghost predicate AnyHolds(bs: seq<Lines>, key: string) {
    exists b | b in bs :: IsPeerBlock(b) && HoldsKey(b, key)
  }

  lemma {:induction false} HoldsBlankTail(a: Lines, t: Lines, key: string)
    requires forall l | l in t :: IsBlank(l)
    ensures AnyHolds(Parse(a + t).blocks, key) == AnyHolds(Parse(a).blocks, key)
  {
    hide Parse, IsHeader, IsBlank, HasKey;
    BlankNoHeader(t);
    ParseExtend(a, t);
    var bs := Parse(a).blocks;
    if bs != [] {
      var x, b := bs[..|bs| - 1], bs[|bs| - 1];
      assert bs == x + [b] && Parse(a + t).blocks == x + [b + t];
      forall l | l in t ensures !HasKey(l, "publickey") { BlankLine(Peer("", "", ""), l); }
      assert HoldsKey(b + t, key) == HoldsKey(b, key);
      assert b in Parse(a).blocks && b != [];
      SameHead(b, t);
      hide HoldsKey, IsPeerBlock;
      assert AnyHolds(x + [b], key) == (AnyHolds(x, key) || (IsPeerBlock(b) && HoldsKey(b, key)));
      assert AnyHolds(x + [b + t], key) == (AnyHolds(x, key) || (IsPeerBlock(b + t) && HoldsKey(b + t, key)));
    }
  }

  /** Removing the last block when no block before it holds the key. */
  lemma {:induction false} RemoveLast(lines: Lines, pre: Lines, bs: seq<Lines>, b: Lines, key: string)
    requires Parse(lines) == Doc(pre, bs + [b])
    requires !AnyHolds(bs, key) && IsPeerBlock(b) && HoldsKey(b, key)
    ensures RemovePeerIn(lines, key) == Some(OneLine(StripBlank(pre + Concat(bs))))
  {
    var all := bs + [b];
    var k := FirstHolding(all, key);
    hide Parse, IsPeerBlock, HoldsKey, StripBlank, FirstHolding;
    assert forall j | 0 <= j < |bs| :: all[j] in bs;
    assert all[|bs|] == b;
    assert k == |bs|;
    assert all[..k] == bs && all[k + 1..] == [];
    assert StripBlank(pre + Concat(bs)) + [] == StripBlank(pre + Concat(bs));
  }

  lemma {:induction false} StripBlankTail(a: Lines, t: Lines)
    requires forall l | l in t :: IsBlank(l)
    ensures StripBlank(a + t) == StripBlank(a)
  {
    hide IsBlank;
    if t == [] {
      assert a + t == a;
    } else {
      var n := |t| - 1;
      assert IsBlank(t[n]);
      assert (a + t)[..|a + t| - 1] == a + t[..n];
      StripBlankTail(a, t[..n]);
    }
  }

  /** With one PublicKey line in a section, the key it is found by is the key it is read with. */
  lemma OneKeyHolds(b: Lines, i: nat, key: string)
    requires IsBlock(b) && i < |b| && HasKey(b[i], "publickey")
    requires forall j | 0 <= j < |b| && j != i :: !HasKey(b[j], "publickey")
    ensures HoldsKey(b, key) <==> ReadPeer(Peer("", "", ""), b[1..]).publicKey == key
  {
    hide IsHeader, KeyValue, TrimSpace;
    HeaderHasNoKey(b[0], "publickey");
    assert i != 0;
    var x, y := b[1..i], b[i + 1..];
    assert b[1..] == x + ([b[i]] + y);
    var p0 := Peer("", "", "");
    ReadPeerAppend(p0, x, [b[i]] + y);
    var p1 := ReadPeer(p0, x);
    var p2 := PeerLine(p1, b[i]);
    assert ([b[i]] + y)[1..] == y;
    KeyLineSets(p1, b[i]);
    NoKeyKeeps(p2, y);
    assert b[i] in b;
    if HoldsKey(b, key) {
      var l :| l in b && HasKey(l, "publickey") && KeyValue(l).1 == key;
      assert l == b[i];
    }
  }

  /** Each [Peer] section has one PublicKey line. */
  ghost predicate OneKeyEach(bs: seq<Lines>) {
    forall b | b in bs && IsPeerBlock(b) :: exists i ::
      0 <= i < |b| && HasKey(b[i], "publickey") && forall j | 0 <= j < |b| && j != i :: !HasKey(b[j], "publickey")
  }

  /**
   * With one PublicKey line in each [Peer] section and no peer that holds the new one's key
   * or address, adding and then removing gives back the config without its trailing blank
   * lines.
   */
  lemma {:induction false} RemoveUndoesAdd(lines: Lines, p: Peer)
    requires IsPeer(p) && OneKeyEach(Parse(lines).blocks)
    requires forall q | q in PeersIn(lines) :: q.publicKey != p.publicKey && q.allowedIPs != p.allowedIPs
    ensures AddPeerIn(lines, p).Some?
    ensures RemovePeerIn(AddPeerIn(lines, p).value, p.publicKey) == Some(OneLine(StripBlank(lines)))
  {
    var bs := Parse(lines).blocks;
    hide RemovePeerIn, Added, StripBlank, PeersIn, ReadPeer, IsPeerBlock, HoldsKey, KeyValue, IsPeer;
    forall b | b in bs && IsPeerBlock(b)
      ensures !HoldsKey(b, p.publicKey)
    {
      var i :| 0 <= i < |b| && HasKey(b[i], "publickey") && forall j | 0 <= j < |b| && j != i :: !HasKey(b[j], "publickey");
      BlockOf(lines, b);
      OneKeyHolds(b, i, p.publicKey);
    }
    RemoveAdded(lines, p);
  }

  /** A [Peer] block of the config is one of its blocks, and its peer one of its peers. */
  lemma BlockOf(lines: Lines, b: Lines)
    requires b in Parse(lines).blocks && IsPeerBlock(b)
    ensures IsBlock(b) && ReadPeer(Peer("", "", ""), b[1..]) in PeersIn(lines)
  {
    hide ReadPeer, IsPeerBlock, Parse;
    var d := Parse(lines);
    assert AreBlocks(d.blocks);
    PeerInBlocks(d.blocks, b);
  }

  lemma {:induction false} PeerInBlocks(bs: seq<Lines>, b: Lines)
    requires b in bs && IsPeerBlock(b)
    ensures b != [] && ReadPeer(Peer("", "", ""), b[1..]) in PeersOf(bs)
  {
    PeersOfCons(bs);
    hide ReadPeer, PeersOf;
    if bs[0] != b {
      PeerInBlocks(bs[1..], b);
    }
  }

  lemma KeyLineSets(p: Peer, l: string)
    requires HasKey(l, "publickey")
    ensures PeerLine(p, l).publicKey == KeyValue(l).1
  {
    hide TrimSpace, IndexOf, Lower;
  }

  lemma {:induction false} NoKeyKeeps(p: Peer, ls: Lines)
    requires forall l | l in ls :: !HasKey(l, "publickey")
    ensures ReadPeer(p, ls).publicKey == p.publicKey
    decreases |ls|
  {
    hide TrimSpace, KeyValue;
    if ls != [] {
      assert ls[0] in ls;
      NoKeyKeeps(PeerLine(p, ls[0]), ls[1..]);
    }
  }

  // --- Runs of both ----------------------------------------------------------

  datatype Edit = Add(peer: Peer) | Remove(key: string)

  /** An edit that is refused leaves the file as it is. */
  function Apply(lines: Lines, e: Edit): Lines {
    var r := match e case Add(p) => AddPeerIn(lines, p) case Remove(k) => RemovePeerIn(lines, k);
    if r.Some? then r.value else lines
  }

  function Run(lines: Lines, es: seq<Edit>): Lines
    decreases |es|
  {
    if es == [] then lines else Run(Apply(lines, es[0]), es[1..])
  }

  ghost predicate Distinct(ps: seq<Peer>) {
    forall i, j | 0 <= i < j < |ps| :: ps[i].publicKey != ps[j].publicKey && ps[i].allowedIPs != ps[j].allowedIPs
  }

  lemma {:induction false} RunKeepsDistinct(lines: Lines, es: seq<Edit>)
    requires Distinct(PeersIn(lines))
    requires forall e | e in es && e.Add? :: IsPeer(e.peer)
    ensures Distinct(PeersIn(Run(lines, es)))
    decreases |es|
  {
    hide PeersIn, Apply, Distinct, IsPeer;
    if es != [] {
      assert es[0] in es && forall e | e in es[1..] :: e in es;
      ApplyKeepsDistinct(lines, es[0]);
      RunKeepsDistinct(Apply(lines, es[0]), es[1..]);
    }
  }

  lemma ApplyKeepsDistinct(lines: Lines, e: Edit)
    requires Distinct(PeersIn(lines))
    requires e.Add? ==> IsPeer(e.peer)
    ensures Distinct(PeersIn(Apply(lines, e)))
  {
    hide PeersIn, RemovePeerIn, IsPeer, Added;
    match e
    case Add(p) =>
      PeersAdd(lines, p);
    case Remove(key) =>
      if RemovePeerIn(lines, key).Some? {
        hide Parse, SectionsOf, IsPeerBlock, HoldsKey, OneLine, StripBlank;
        var _, before, gone, after := RemoveDropsOne(lines, key);
        DistinctWithout(before, gone, after);
      }
  }

  lemma DistinctWithout(before: seq<Peer>, gone: Peer, after: seq<Peer>)
    requires Distinct(before + [gone] + after)
    ensures Distinct(before + after)
  {
    var all, n := before + [gone] + after, |before|;
    forall i, j | 0 <= i < j < |before + after|
      ensures (before + after)[i].publicKey != (before + after)[j].publicKey
      ensures (before + after)[i].allowedIPs != (before + after)[j].allowedIPs
    {
      var i', j' := if i < n then i else i + 1, if j < n then j else j + 1;
      assert all[i'] == (before + after)[i] && all[j'] == (before + after)[j];
    }
  }

  // --- The hub's section -----------------------------------------------------

  /** A [Peer] whose AllowedIPs hold the hub; routes is the prefix test of that address. */
  predicate RoutesHub(b: Lines, routes: string -> bool) {
    IsPeerBlock(b) && exists l | l in b :: HasKey(l, "allowedips") && routes(KeyValue(l).1)
  }

  /** The blocks before n that route the hub, in order. */
  function HubsBefore(bs: seq<Lines>, routes: string -> bool, n: nat): (hubs: seq<nat>)
    requires n <= |bs|
    ensures forall k | k in hubs :: k < n
    ensures forall i, j | 0 <= i < j < |hubs| :: hubs[i] < hubs[j]
  {
    hide RoutesHub;
    if n == 0 then []
    else
      var hubs := HubsBefore(bs, routes, n - 1);
      assert forall i | 0 <= i < |hubs| :: hubs[i] in hubs;
      if RoutesHub(bs[n - 1], routes) then hubs + [n - 1] else hubs
  }

  lemma {:induction false} HubsRoute(bs: seq<Lines>, routes: string -> bool, n: nat)
    requires n <= |bs|
    ensures forall k | 0 <= k < n :: k in HubsBefore(bs, routes, n) <==> RoutesHub(bs[k], routes)
  {
    hide RoutesHub;
    if n > 0 {
      HubsRoute(bs, routes, n - 1);
    }
  }

  function HubBlocks(bs: seq<Lines>, routes: string -> bool): seq<nat> {
    HubsBefore(bs, routes, |bs|)
  }

  datatype HubSection = HubAt(section: Section) | NoHub | ManyHubs(found: nat)

  function HubSectionIn(lines: Lines, routes: string -> bool): HubSection {
    var hubs := HubBlocks(Parse(lines).blocks, routes);
    if |hubs| == 1 then
      assert hubs[0] in hubs;
      HubAt(SectionsOf(lines)[hubs[0]])
    else if |hubs| == 0 then NoHub
    else ManyHubs(|hubs|)
  }

  /** The inner loop of hubSection: some AllowedIPs line of the section holds the hub. */
  method RoutesIn(body: Lines, routes: string -> bool) returns (hit: bool)
    ensures hit <==> exists l | l in body :: HasKey(l, "allowedips") && routes(KeyValue(l).1)
  {
    hide KeyValue;
    hit := false;
    var j := 0;
    while j < |body| && !hit
      invariant j <= |body|
      invariant hit <==> exists l | l in body[..j] :: HasKey(l, "allowedips") && routes(KeyValue(l).1)
    {
      var (k, v, ok) := KeyValue(body[j]);
      hit := ok && k == "allowedips" && routes(v);
      if k == "allowedips" {
        KeyIsOk(body[j], k);
      }
      assert body[..j + 1] == body[..j] + [body[j]];
      assert body[j] in body[..j + 1];
      j := j + 1;
    }
    if !hit {
      assert body[..j] == body;
    }
  }

  method FindHubSection(lines: Lines, routes: string -> bool) returns (r: HubSection)
    ensures r == HubSectionIn(lines, routes)
  {
    hide Parse, KeyValue, SectionName, SectionsOf, HasKey, HubsBefore;
    var found: seq<Section> := [];
    var ss := Sections(lines);
    ghost var bs := Parse(lines).blocks;
    assert |ss| == |bs| by { SectionsCount(lines); }
    HubsNone(bs, routes);
    for i := 0 to |ss|
      invariant Matches(found, ss, HubsBefore(bs, routes, i))
    {
      SectionIsBlock(lines, i);
      HubsStep(bs, routes, i);
      if ss[i].name == "peer" {
        var hit := RoutesIn(lines[ss[i].start..ss[i].end], routes);
        if hit {
          found := found + [ss[i]];
        }
        assert hit <==> RoutesHub(bs[i], routes);
      }
    }
    r := if |found| == 1 then HubAt(found[0]) else if |found| == 0 then NoHub else ManyHubs(|found|);
  }

  /** found are the sections with the numbers hubs. */
  ghost predicate Matches(found: seq<Section>, ss: seq<Section>, hubs: seq<nat>) {
    |found| == |hubs| && forall j | 0 <= j < |found| :: hubs[j] < |ss| && found[j] == ss[hubs[j]]
  }

  lemma HubsNone(bs: seq<Lines>, routes: string -> bool)
    ensures HubsBefore(bs, routes, 0) == []
  {}

  lemma HubsStep(bs: seq<Lines>, routes: string -> bool, i: nat)
    requires i < |bs|
    ensures HubsBefore(bs, routes, i + 1) == HubsBefore(bs, routes, i) + if RoutesHub(bs[i], routes) then [i] else []
  {
    hide RoutesHub;
  }

  lemma KeyIsOk(l: string, key: string)
    requires HasKey(l, key) && key != ""
    ensures KeyValue(l).2
  {
    hide TrimSpace, Lower, IndexOf;
  }

  // --- Hub and SetHub --------------------------------------------------------

  /** The last line of b with the key, or -1. */
  function LastKey(b: Lines, key: string): (i: int)
    ensures -1 <= i < |b|
  {
    hide HasKey;
    if b == [] then -1
    else if HasKey(b[|b| - 1], key) then |b| - 1
    else LastKey(b[..|b| - 1], key)
  }

  lemma {:induction false} LastKeyHas(b: Lines, key: string)
    ensures var i := LastKey(b, key);
            (i >= 0 ==> HasKey(b[i], key)) && forall j | i < j < |b| :: !HasKey(b[j], key)
  {
    hide HasKey;
    if b != [] && !HasKey(b[|b| - 1], key) {
      LastKeyHas(b[..|b| - 1], key);
    }
  }

  function LastValue(b: Lines, key: string): string {
    var i := LastKey(b, key);
    if i < 0 then "" else KeyValue(b[i]).1
  }

  /** What Hub reads from the section: the last line of each key wins. */
  function HubOf(b: Lines): HubPeer {
    HubPeer(LastValue(b, "publickey"), LastValue(b, "endpoint"))
  }

  function HubIn(lines: Lines, routes: string -> bool): Option<HubPeer> {
    var bs := Parse(lines).blocks;
    var hubs := HubBlocks(bs, routes);
    if |hubs| != 1 then None
    else
      assert hubs[0] in hubs;
      Some(HubOf(bs[hubs[0]]))
  }

  function KeyText(h: HubPeer): string {
    "PublicKey = " + h.publicKey
  }

  function EndpointText(h: HubPeer): string {
    "Endpoint = " + h.endpoint
  }

  function SetBlock(b: Lines, h: HubPeer): Option<Lines> {
    var keyAt, endpointAt := LastKey(b, "publickey"), LastKey(b, "endpoint");
    if keyAt < 0 then None else Some(Edited(b, keyAt, endpointAt, h))
  }

  function SetHubIn(lines: Lines, routes: string -> bool, h: HubPeer): Option<Lines> {
    var d := Parse(lines);
    var hubs := HubBlocks(d.blocks, routes);
    if |hubs| != 1 then None
    else
      var k := hubs[0];
      assert k in hubs;
      var b := SetBlock(d.blocks[k], h);
      if b.None? then None
      else Some(d.pre + Concat(d.blocks[..k]) + b.value + Concat(d.blocks[k + 1..]))
  }

  /** Block k alone routes the hub. */
  ghost predicate OnlyHub(bs: seq<Lines>, routes: string -> bool, k: nat) {
    k < |bs| && forall j | 0 <= j < |bs| :: RoutesHub(bs[j], routes) <==> j == k
  }

  lemma {:induction false} HubsIff(bs: seq<Lines>, routes: string -> bool)
    ensures |HubBlocks(bs, routes)| == 1 <==> exists k: nat :: OnlyHub(bs, routes, k)
    ensures forall k: nat | OnlyHub(bs, routes, k) :: HubBlocks(bs, routes) == [k]
  {
    hide RoutesHub, HubsBefore;
    HubsRoute(bs, routes, |bs|);
    var hubs := HubBlocks(bs, routes);
    if |hubs| == 1 {
      var k := hubs[0];
      assert hubs == [k] && k in hubs;
      assert k < |bs|;
      forall j | 0 <= j < |bs|
        ensures RoutesHub(bs[j], routes) <==> j == k
      {
        assert j in hubs <==> j in [k];
      }
      assert OnlyHub(bs, routes, k);
    }
    forall k: nat | OnlyHub(bs, routes, k)
      ensures hubs == [k]
    {
      OnlyIs(bs, routes, k);
      assert RoutesHub(bs[k], routes) && k in hubs;
      assert |hubs| > 1 ==> hubs[0] < hubs[1];
      forall i | 0 <= i < |hubs|
        ensures hubs[i] == k
      {
        assert hubs[i] in hubs && RoutesHub(bs[hubs[i]], routes);
      }
    }
  }

  /** One section routes the hub, and it has a PublicKey line. */
  ghost predicate KeyedHub(bs: seq<Lines>, routes: string -> bool) {
    exists k: nat :: OnlyHub(bs, routes, k) && HasKeyLine(bs[k])
  }

  /** Hub succeeds over exactly one hub section, and SetHub when that has a PublicKey line. */
  lemma {:induction false} SetHubIff(lines: Lines, routes: string -> bool, h: HubPeer)
    ensures HubIn(lines, routes).Some? <==> exists k: nat :: OnlyHub(Parse(lines).blocks, routes, k)
    ensures SetHubIn(lines, routes, h).Some? <==> KeyedHub(Parse(lines).blocks, routes)
  {
    hide *;
    HubsIff(Parse(lines).blocks, routes);
    KeyedHubIs(Parse(lines).blocks, routes);
    SetHubIs(lines, routes, h);
  }

  lemma SetHubIs(lines: Lines, routes: string -> bool, h: HubPeer)
    ensures var bs := Parse(lines).blocks; var hubs := HubBlocks(bs, routes);
            && (|hubs| == 1 ==> hubs[0] < |bs| && (SetHubIn(lines, routes, h).Some? <==> LastKey(bs[hubs[0]], "publickey") >= 0))
            && (|hubs| != 1 ==> SetHubIn(lines, routes, h).None?)
            && (HubIn(lines, routes).Some? <==> |hubs| == 1)
  {
    hide Parse, LastKey, Concat, Edited, HubsBefore;
    var hubs := HubBlocks(Parse(lines).blocks, routes);
    if |hubs| == 1 {
      assert hubs[0] in hubs;
    }
  }

  lemma {:induction false} KeyedHubIs(bs: seq<Lines>, routes: string -> bool)
    ensures var hubs := HubBlocks(bs, routes);
            && (|hubs| == 1 ==> hubs[0] < |bs| && (KeyedHub(bs, routes) <==> LastKey(bs[hubs[0]], "publickey") >= 0))
            && (|hubs| != 1 ==> !KeyedHub(bs, routes))
  {
    hide HubBlocks, HasKeyLine, LastKey, OnlyHub;
    HubsIff(bs, routes);
    var hubs := HubBlocks(bs, routes);
    if |hubs| == 1 {
      var k: nat :| OnlyHub(bs, routes, k);
      assert hubs == [k] && hubs[0] == k;
      OnlyIs(bs, routes, k);
      KeyThere(bs[k]);
      forall m: nat | OnlyHub(bs, routes, m)
        ensures m == k
      {
        assert [m] == [k] && [m][0] == [k][0];
      }
    }
  }

  ghost predicate HasKeyLine(b: Lines) {
    exists l | l in b :: HasKey(l, "publickey")
  }

  lemma KeyThere(b: Lines)
    ensures LastKey(b, "publickey") >= 0 <==> HasKeyLine(b)
  {
    hide HasKey, LastKey;
    LastKeyHas(b, "publickey");
    var i := LastKey(b, "publickey");
    if i >= 0 {
      assert b[i] in b;
    }
  }

  lemma OnlyIs(bs: seq<Lines>, routes: string -> bool, k: nat)
    requires OnlyHub(bs, routes, k)
    ensures k < |bs|
  {}

  method Hub(lines: Lines, routes: string -> bool) returns (r: Option<HubPeer>)
    ensures r == HubIn(lines, routes)
  {
    hide Parse, KeyValue, LastKey;
    var s := FindHubSection(lines, routes);
    if !s.HubAt? {
      return None;
    }
    ghost var bs := Parse(lines).blocks;
    ghost var k := HubBlocks(bs, routes)[0];
    assert k in HubBlocks(bs, routes);
    SectionIsBlock(lines, k);
    var body := lines[s.section.start..s.section.end];
    var h := HubPeer("", "");
    NoHubLines(body);
    for i := 0 to |body|
      invariant h == HubOf(body[..i])
    {
      LastKeyStep(body, i, "publickey");
      LastKeyStep(body, i, "endpoint");
      var (k, v, _) := KeyValue(body[i]);
      if k == "publickey" {
        h := h.(publicKey := v);
      } else if k == "endpoint" {
        h := h.(endpoint := v);
      }
    }
    assert body[..|body|] == body;
    r := Some(h);
  }

  lemma NoHubLines(b: Lines)
    ensures b[..0] == [] && HubOf([]) == HubPeer("", "") && LastKey([], "publickey") == LastKey([], "endpoint") == -1
  {}

  lemma LastKeyStep(b: Lines, i: nat, key: string)
    requires i < |b|
    ensures LastKey(b[..i + 1], key) == if HasKey(b[i], key) then i else LastKey(b[..i], key)
    ensures LastValue(b[..i + 1], key) == if HasKey(b[i], key) then KeyValue(b[i]).1 else LastValue(b[..i], key)
  {
    hide KeyValue;
    assert b[..i + 1][..i] == b[..i];
  }

  method SetHub(lines: Lines, routes: string -> bool, h: HubPeer) returns (r: Option<Lines>)
    ensures r == SetHubIn(lines, routes, h)
  {
    hide HubSectionIn, SetHubIn, KeyValue, LastKey, KeyText, EndpointText;
    var f := FindHubSection(lines, routes);
    if !f.HubAt? {
      SetHubNone(lines, routes, h);
      return None;
    }
    var s := f.section;
    SetHubAt(lines, routes, h, s);
    var keyAt, endpointAt := -1, -1;
    NoHubLines(lines[s.start..s.start]);
    for i := s.start to s.end
      invariant keyAt == KeyAt(lines, s.(end := i), "publickey")
      invariant endpointAt == KeyAt(lines, s.(end := i), "endpoint")
    {
      KeyAtStep(lines, s, i, "publickey");
      KeyAtStep(lines, s, i, "endpoint");
      var (k, _, _) := KeyValue(lines[i]);
      if k == "publickey" {
        keyAt := i;
      } else if k == "endpoint" {
        endpointAt := i;
      }
    }
    if keyAt < 0 {
      return None;
    }
    HubLineText(h);
    var out := lines[keyAt := "PublicKey = " + h.publicKey];
    if endpointAt >= 0 {
      out := out[endpointAt := "Endpoint = " + h.endpoint];
    } else {
      out := out[..keyAt + 1] + ["Endpoint = " + h.endpoint] + out[keyAt + 1..];
    }
    r := Some(out);
  }

  lemma KeyAtStep(lines: Lines, s: Section, i: nat, key: string)
    requires s.start <= i < |lines|
    ensures KeyAt(lines, s.(end := i + 1), key) == if HasKey(lines[i], key) then i else KeyAt(lines, s.(end := i), key)
  {
    hide LastKey, KeyValue;
    var b := lines[s.start..i + 1];
    LastKeyStep(b, i - s.start, key);
    assert b[..i - s.start] == lines[s.start..i] && b[..i - s.start + 1] == b;
  }

  lemma HubLineText(h: HubPeer)
    ensures KeyText(h) == "PublicKey = " + h.publicKey && EndpointText(h) == "Endpoint = " + h.endpoint
  {}

  lemma SetHubNone(lines: Lines, routes: string -> bool, h: HubPeer)
    requires !HubSectionIn(lines, routes).HubAt?
    ensures SetHubIn(lines, routes, h).None?
  {
    hide Parse, HubsBefore, Concat, SectionsOf;
  }

  /** Where the last line of a key is among the config's lines, -1 when the section has none. */
  function KeyAt(lines: Lines, s: Section, key: string): (i: int)
    requires s.start <= s.end <= |lines|
    ensures i == -1 || s.start <= i < s.end
  {
    var i := LastKey(lines[s.start..s.end], key);
    if i < 0 then -1 else s.start + i
  }

  /** The edit of the hub's section as an edit of the config's lines. */
  lemma SetHubAt(lines: Lines, routes: string -> bool, h: HubPeer, s: Section)
    requires HubSectionIn(lines, routes) == HubAt(s)
    ensures s.start < s.end <= |lines| && IsHeader(lines[s.start])
    ensures SetHubIn(lines, routes, h) ==
            if KeyAt(lines, s, "publickey") < 0 then None
            else Some(Edited(lines, KeyAt(lines, s, "publickey"), KeyAt(lines, s, "endpoint"), h))
  {
    var b := HubLines(lines, routes, h, s);
    if LastKey(b, "publickey") >= 0 {
      EditSection(lines, s, h);
    }
    hide *;
  }

  lemma EditSection(lines: Lines, s: Section, h: HubPeer)
    requires s.start < s.end <= |lines| && LastKey(lines[s.start..s.end], "publickey") >= 0
    ensures var b := lines[s.start..s.end];
            lines[..s.start] + Edited(b, LastKey(b, "publickey"), LastKey(b, "endpoint"), h) + lines[s.end..] ==
            Edited(lines, KeyAt(lines, s, "publickey"), KeyAt(lines, s, "endpoint"), h)
  {
    hide LastKey, Edited;
    var b := lines[s.start..s.end];
    Rejoin(lines, s.start, s.end);
    EditLines(lines, lines[..s.start], b, lines[s.end..], LastKey(b, "publickey"), LastKey(b, "endpoint"), h);
  }

  lemma HubLines(lines: Lines, routes: string -> bool, h: HubPeer, s: Section) returns (b: Lines)
    requires HubSectionIn(lines, routes) == HubAt(s)
    ensures s.start < s.end <= |lines| && b == lines[s.start..s.end] && IsHeader(b[0])
    ensures SetHubIn(lines, routes, h) ==
            if LastKey(b, "publickey") < 0 then None
            else Some(lines[..s.start] + Edited(b, LastKey(b, "publickey"), LastKey(b, "endpoint"), h) + lines[s.end..])
  {
    hide Edited, Parse, HubsBefore, Concat, IsHeader, RoutesHub, LastKey, KeyText, EndpointText, KeyValue;
    var d := Parse(lines);
    var k := HubBlocks(d.blocks, routes)[0];
    assert k in HubBlocks(d.blocks, routes);
    assert d.blocks[k] in d.blocks;
    SectionIsBlock(lines, k);
    b := d.blocks[k];
  }

  lemma Rejoin(lines: Lines, i: nat, j: nat)
    requires i <= j <= |lines|
    ensures lines[..i] + lines[i..j] + lines[j..] == lines
  {}

  /** The lines with the two hub lines written at i and j, the second after the first when j < 0. */
  function Edited(lines: Lines, i: nat, j: int, h: HubPeer): Lines
    requires i < |lines| && j < |lines|
  {
    var c := lines[i := KeyText(h)];
    if j >= 0 then c[j := EndpointText(h)] else c[..i + 1] + [EndpointText(h)] + c[i + 1..]
  }

  /** Editing a block among its neighbours is editing the lines at the block's place. */
  lemma EditLines(lines: Lines, head: Lines, b: Lines, tail: Lines, i: nat, j: int, h: HubPeer)
    requires lines == head + b + tail && i < |b| && j < |b|
    ensures head + Edited(b, i, j, h) + tail == Edited(lines, |head| + i, if j < 0 then -1 else |head| + j, h)
  {
    hide KeyText, EndpointText;
    SetAt(head, b, tail, i, KeyText(h));
    if j >= 0 {
      SetAt(head, b[i := KeyText(h)], tail, j, EndpointText(h));
    } else {
      InsertAt(head, b[i := KeyText(h)], tail, i + 1, EndpointText(h));
    }
  }

  lemma SetAt(head: Lines, b: Lines, tail: Lines, i: nat, x: string)
    requires i < |b|
    ensures (head + b + tail)[|head| + i := x] == head + b[i := x] + tail
  {}

  lemma InsertAt(head: Lines, b: Lines, tail: Lines, i: nat, x: string)
    requires i <= |b|
    ensures var all := head + b + tail;
            all[..|head| + i] + [x] + all[|head| + i..] == head + (b[..i] + [x] + b[i..]) + tail
  {
    var all := head + b + tail;
    assert all[..|head| + i] == head + b[..i];
    assert all[|head| + i..] == b[i..] + tail;
  }

  ghost predicate IsHubPeer(h: HubPeer) {
    IsField(h.publicKey) && IsField(h.endpoint)
  }

  /** The lines SetHub never touches: all but PublicKey and Endpoint lines. */
  function Kept(ls: Lines): Lines {
    if ls == [] then []
    else (if HasKey(ls[0], "publickey") || HasKey(ls[0], "endpoint") then [] else [ls[0]]) + Kept(ls[1..])
  }

  lemma {:induction false} KeptAppend(a: Lines, b: Lines)
    ensures Kept(a + b) == Kept(a) + Kept(b)
  {
    hide KeyValue;
    if a == [] {
      assert a + b == b;
    } else {
      assert (a + b)[1..] == a[1..] + b;
      KeptAppend(a[1..], b);
    }
  }

  lemma DroppedLine(x: string)
    requires HasKey(x, "publickey") || HasKey(x, "endpoint")
    ensures Kept([x]) == []
  {
    hide KeyValue;
    assert [x][1..] == [];
  }

  lemma KeptSet(b: Lines, i: nat, x: string)
    requires i < |b|
    requires HasKey(b[i], "publickey") || HasKey(b[i], "endpoint")
    requires HasKey(x, "publickey") || HasKey(x, "endpoint")
    ensures Kept(b[i := x]) == Kept(b)
  {
    hide Kept, KeyValue;
    DroppedLine(b[i]);
    DroppedLine(x);
    KeptDrop(b[..i], b[i], b[i + 1..]);
    KeptDrop(b[..i], x, b[i + 1..]);
    assert b == b[..i] + [b[i]] + b[i + 1..];
    assert b[i := x] == b[..i] + [x] + b[i + 1..];
  }

  lemma KeptDrop(a: Lines, x: string, c: Lines)
    requires Kept([x]) == []
    ensures Kept(a + [x] + c) == Kept(a) + Kept(c)
  {
    hide Kept, KeyValue;
    KeptAppend(a + [x], c);
    KeptAppend(a, [x]);
  }

  lemma KeptInsert(b: Lines, i: nat, x: string)
    requires i <= |b|
    requires HasKey(x, "publickey") || HasKey(x, "endpoint")
    ensures Kept(b[..i] + [x] + b[i..]) == Kept(b)
  {
    hide Kept, KeyValue;
    DroppedLine(x);
    KeptDrop(b[..i], x, b[i..]);
    KeptAppend(b[..i], b[i..]);
    assert b == b[..i] + b[i..];
  }

  lemma {:induction false} KeptMember(b: Lines, l: string)
    ensures l in Kept(b) <==> l in b && !HasKey(l, "publickey") && !HasKey(l, "endpoint")
  {
    hide KeyValue;
    if b != [] {
      KeptMember(b[1..], l);
      assert b == [b[0]] + b[1..];
    }
  }

  /** A peer's name and AllowedIPs come from the kept lines alone. */
  lemma {:induction false} KeptReads(p: Peer, q: Peer, ls: Lines)
    requires p.name == q.name && p.allowedIPs == q.allowedIPs
    ensures ReadPeer(p, ls).name == ReadPeer(q, Kept(ls)).name
    ensures ReadPeer(p, ls).allowedIPs == ReadPeer(q, Kept(ls)).allowedIPs
    decreases |ls|
  {
    if ls != [] {
      KeptLine(p, q, ls[0]);
      hide PeerLine, KeyValue;
      if HasKey(ls[0], "publickey") || HasKey(ls[0], "endpoint") {
        KeptReads(PeerLine(p, ls[0]), q, ls[1..]);
        assert [] + Kept(ls[1..]) == Kept(ls[1..]);
      } else {
        assert ([ls[0]] + Kept(ls[1..]))[1..] == Kept(ls[1..]);
        KeptReads(PeerLine(p, ls[0]), PeerLine(q, ls[0]), ls[1..]);
      }
    }
  }

  lemma KeptLine(p: Peer, q: Peer, l: string)
    requires p.name == q.name && p.allowedIPs == q.allowedIPs
    ensures HasKey(l, "publickey") || HasKey(l, "endpoint") ==>
              PeerLine(p, l).name == p.name && PeerLine(p, l).allowedIPs == p.allowedIPs
    ensures PeerLine(p, l).name == PeerLine(q, l).name && PeerLine(p, l).allowedIPs == PeerLine(q, l).allowedIPs
  {
    hide TrimSpace, Lower, IndexOf;
  }

  /** A peer's key is the value of its last PublicKey line. */
  lemma {:induction false} LastKeyReads(p: Peer, ls: Lines)
    ensures ReadPeer(p, ls).publicKey ==
            if LastKey(ls, "publickey") < 0 then p.publicKey else LastValue(ls, "publickey")
    decreases |ls|
  {
    if ls != [] {
      var n := |ls| - 1;
      assert ls == ls[..n] + [ls[n]];
      ReadPeerAppend(p, ls[..n], [ls[n]]);
      LastKeyReads(p, ls[..n]);
      LastKeyStep(ls, n, "publickey");
      assert ls[..n + 1] == ls;
      var q := ReadPeer(p, ls[..n]);
      assert [ls[n]][1..] == [];
      assert ReadPeer(p, ls) == PeerLine(q, ls[n]) by { hide PeerLine; }
      if HasKey(ls[n], "publickey") {
        KeyLineSets(q, ls[n]);
      } else {
        hide TrimSpace, KeyValue;
        assert PeerLine(q, ls[n]).publicKey == q.publicKey;
      }
    }
  }

  lemma HubTexts(h: HubPeer)
    requires IsHubPeer(h)
    ensures KeyValue(KeyText(h)) == ("publickey", h.publicKey, true) && !IsHeader(KeyText(h))
    ensures KeyValue(EndpointText(h)) == ("endpoint", h.endpoint, true) && !IsHeader(EndpointText(h))
  {
    hide IsHeader, KeyValue, Lower;
    Words();
    KeyLine("PublicKey", " ", h.publicKey);
    KeyLine("Endpoint", " ", h.endpoint);
    assert "PublicKey" + " " + "= " + h.publicKey == KeyText(h);
    assert "Endpoint" + " " + "= " + h.endpoint == EndpointText(h);
  }

  /** The edited section is the same block but for the two lines, and reads as h. */
  lemma SetBlockReads(b: Lines, h: HubPeer)
    requires IsBlock(b) && IsHubPeer(h) && SetBlock(b, h).Some?
    ensures var c := SetBlock(b, h).value;
            IsBlock(c) && c[0] == b[0] && Kept(c) == Kept(b) && HubOf(c) == h && SetBlock(c, h) == Some(c)
  {
    HubTexts(h);
    HeaderHasNoKey(b[0], "publickey");
    HeaderHasNoKey(b[0], "endpoint");
    LastKeyHas(b, "publickey");
    LastKeyHas(b, "endpoint");
    hide IsHeader, KeyValue, LastKey, Kept, KeyText, EndpointText, IsField, HubOf, IsBlock;
    assert LastKey(b, "publickey") > 0 && LastKey(b, "endpoint") != 0;
    if LastKey(b, "endpoint") >= 0 {
      SetBoth(b, h);
    } else {
      SetAndInsert(b, h);
    }
  }

  lemma SetBoth(b: Lines, h: HubPeer)
    requires IsBlock(b) && IsHubPeer(h) && LastKey(b, "publickey") > 0 && LastKey(b, "endpoint") > 0
    ensures var c := SetBlock(b, h).value;
            IsBlock(c) && c[0] == b[0] && Kept(c) == Kept(b) && HubOf(c) == h && SetBlock(c, h) == Some(c)
  {
    hide *;
    HubTexts(h);
    TextKeys(h);
    var i, j := LastKey(b, "publickey"), LastKey(b, "endpoint");
    KeysApart(b);
    SetBlockBoth(b, h);
    var d := b[i := KeyText(h)];
    KeptSet(b, i, KeyText(h));
    BlockSet(b, i, KeyText(h));
    KeptSet(d, j, EndpointText(h));
    BlockSet(d, j, EndpointText(h));
    SetBlockIs(d[j := EndpointText(h)], h, i, j);
  }

  lemma TextKeys(h: HubPeer)
    requires IsHubPeer(h)
    ensures HasKey(KeyText(h), "publickey") && !HasKey(KeyText(h), "endpoint")
    ensures HasKey(EndpointText(h), "endpoint") && !HasKey(EndpointText(h), "publickey")
  {
    HubTexts(h);
    hide KeyValue, KeyText, EndpointText;
  }

  lemma SetBlockBoth(b: Lines, h: HubPeer)
    requires LastKey(b, "publickey") >= 0 && LastKey(b, "endpoint") >= 0
    ensures SetBlock(b, h) == Some(b[LastKey(b, "publickey") := KeyText(h)][LastKey(b, "endpoint") := EndpointText(h)])
  {
    hide LastKey, KeyText, EndpointText;
  }

  lemma KeysApart(b: Lines)
    ensures var i, j := LastKey(b, "publickey"), LastKey(b, "endpoint");
            && (i >= 0 ==> HasKey(b[i], "publickey") && i != j) && (j >= 0 ==> HasKey(b[j], "endpoint"))
            && (forall k | i < k < |b| :: !HasKey(b[k], "publickey")) && (forall k | j < k < |b| :: !HasKey(b[k], "endpoint"))
  {
    LastKeyHas(b, "publickey");
    LastKeyHas(b, "endpoint");
    hide KeyValue, LastKey;
  }

  lemma SetAndInsert(b: Lines, h: HubPeer)
    requires IsBlock(b) && IsHubPeer(h) && LastKey(b, "publickey") > 0 && LastKey(b, "endpoint") < 0
    ensures var c := SetBlock(b, h).value;
            IsBlock(c) && c[0] == b[0] && Kept(c) == Kept(b) && HubOf(c) == h && SetBlock(c, h) == Some(c)
  {
    HubTexts(h);
    LastKeyHas(b, "publickey");
    LastKeyHas(b, "endpoint");
    hide IsHeader, KeyValue, LastKey, Kept, KeyText, EndpointText, IsField, HubOf, IsBlock;
    var i := LastKey(b, "publickey");
    KeptSet(b, i, KeyText(h));
    BlockSet(b, i, KeyText(h));
    InsertEndpoint(b[i := KeyText(h)], h, i);
  }

  lemma InsertEndpoint(d: Lines, h: HubPeer, i: nat)
    requires IsBlock(d) && IsHubPeer(h) && 0 < i < |d| && d[i] == KeyText(h)
    requires forall m | i < m < |d| :: !HasKey(d[m], "publickey")
    requires forall m | i < m < |d| :: !HasKey(d[m], "endpoint")
    ensures var c := d[..i + 1] + [EndpointText(h)] + d[i + 1..];
            IsBlock(c) && c[0] == d[0] && Kept(c) == Kept(d) && HubOf(c) == h && SetBlock(c, h) == Some(c)
  {
    HubTexts(h);
    hide IsHeader, KeyValue, LastKey, Kept, KeyText, EndpointText, IsField, HubOf, IsBlock, SetBlock;
    KeptInsert(d, i + 1, EndpointText(h));
    BlockInsert(d, i + 1, EndpointText(h));
    Inserted(d, i + 1, EndpointText(h));
    SetBlockIs(d[..i + 1] + [EndpointText(h)] + d[i + 1..], h, i, i + 1);
  }

  lemma BlockSet(b: Lines, i: nat, x: string)
    requires IsBlock(b) && 0 < i < |b| && !IsHeader(x)
    ensures IsBlock(b[i := x])
  {
    hide IsHeader;
    assert b[i := x][1..] == b[1..][i - 1 := x];
  }

  lemma BlockInsert(b: Lines, i: nat, x: string)
    requires IsBlock(b) && 0 < i <= |b| && !IsHeader(x)
    ensures IsBlock(b[..i] + [x] + b[i..])
  {
    hide IsHeader;
    assert (b[..i] + [x] + b[i..])[1..] == b[1..][..i - 1] + [x] + b[1..][i - 1..];
  }

  lemma Inserted(d: Lines, i: nat, x: string)
    requires 0 < i <= |d|
    ensures var c := d[..i] + [x] + d[i..];
            |c| == |d| + 1 && forall m | 0 <= m < |c| :: c[m] == if m < i then d[m] else if m == i then x else d[m - 1]
  {}

  lemma SetBlockIs(c: Lines, h: HubPeer, i: nat, j: nat)
    requires i < |c| && j < |c| && c[i] == KeyText(h) && c[j] == EndpointText(h) && IsHubPeer(h)
    requires forall m | i < m < |c| :: !HasKey(c[m], "publickey")
    requires forall m | j < m < |c| :: !HasKey(c[m], "endpoint")
    ensures HubOf(c) == h && SetBlock(c, h) == Some(c)
  {
    HubTexts(h);
    assert c[i := KeyText(h)][j := EndpointText(h)] == c;
    hide KeyValue, LastKey, KeyText, EndpointText;
    LastKeyIs(c, "publickey", i);
    LastKeyIs(c, "endpoint", j);
  }

  lemma LastKeyIs(b: Lines, key: string, i: nat)
    requires i < |b| && HasKey(b[i], key)
    requires forall j | i < j < |b| :: !HasKey(b[j], key)
    ensures LastKey(b, key) == i && LastValue(b, key) == KeyValue(b[i]).1
  {
    LastKeyHas(b, key);
    hide KeyValue, LastKey;
  }

  /** The edited config has the same blocks but the hub's. */
  lemma SetHubParses(lines: Lines, routes: string -> bool, h: HubPeer) returns (k: nat, b: Lines)
    requires IsHubPeer(h) && SetHubIn(lines, routes, h).Some?
    ensures k < |Parse(lines).blocks| && HubBlocks(Parse(lines).blocks, routes) == [k]
    ensures SetBlock(Parse(lines).blocks[k], h) == Some(b)
    ensures IsBlock(Parse(lines).blocks[k]) && IsBlock(b) && b[0] == Parse(lines).blocks[k][0]
    ensures Kept(b) == Kept(Parse(lines).blocks[k]) && HubOf(b) == h && SetBlock(b, h) == Some(b)
    ensures Parse(SetHubIn(lines, routes, h).value) == Doc(Parse(lines).pre, Parse(lines).blocks[k := b])
    ensures HubBlocks(Parse(SetHubIn(lines, routes, h).value).blocks, routes) == [k]
    ensures SetHubIn(lines, routes, h).value == Parse(lines).pre + Concat(Parse(lines).blocks[k := b])
  {
    hide *;
    var d := Parse(lines);
    k := OneHubIs(lines, routes, h);
    b := SetBlock(d.blocks[k], h).value;
    SetBlockReads(d.blocks[k], h);
    BlocksWith(d, k, b);
    ParseHead(d.pre, d.blocks[k := b]);
    BlockSome(d.blocks[k], b);
    SameRoutes(d.blocks[k], b, routes);
    HubsAre(d.blocks, routes, k);
    OneHub(d.blocks[k := b], routes, k, HubBlocks(d.blocks[k := b], routes));
  }

  lemma BlockSome(b: Lines, c: Lines)
    requires IsBlock(b) && IsBlock(c)
    ensures b != [] && c != []
  {}

  /** SetHub edits the one block that routes the hub. */
  lemma OneHubIs(lines: Lines, routes: string -> bool, h: HubPeer) returns (k: nat)
    requires SetHubIn(lines, routes, h).Some?
    ensures var d := Parse(lines);
            && k < |d.blocks| && HubBlocks(d.blocks, routes) == [k] && IsBlock(d.blocks[k]) && AreBlocks(d.blocks)
            && SetBlock(d.blocks[k], h).Some?
            && SetHubIn(lines, routes, h).value ==
               d.pre + Concat(d.blocks[..k]) + SetBlock(d.blocks[k], h).value + Concat(d.blocks[k + 1..])
  {
    hide Parse, HubsBefore, SetBlock, Concat, IsBlock;
    var hubs := HubBlocks(Parse(lines).blocks, routes);
    k := hubs[0];
    assert k in hubs;
    assert Parse(lines).blocks[k] in Parse(lines).blocks;
  }

  lemma HubsAre(bs: seq<Lines>, routes: string -> bool, k: nat)
    requires HubBlocks(bs, routes) == [k]
    ensures k < |bs| && RoutesHub(bs[k], routes) && forall j | 0 <= j < |bs| && j != k :: !RoutesHub(bs[j], routes)
  {
    hide RoutesHub, HubsBefore;
    HubsRoute(bs, routes, |bs|);
    assert k in HubBlocks(bs, routes);
  }

  lemma BlocksWith(d: Doc, k: nat, b: Lines)
    requires AreBlocks(d.blocks) && k < |d.blocks| && IsBlock(b)
    ensures AreBlocks(d.blocks[k := b])
    ensures d.pre + Concat(d.blocks[..k]) + b + Concat(d.blocks[k + 1..]) == d.pre + Concat(d.blocks[k := b])
  {
    hide IsBlock, Concat;
    var bs := d.blocks[k := b];
    SplitBlocks(Doc(d.pre, bs), k);
    assert bs[..k] == d.blocks[..k] && bs[k + 1..] == d.blocks[k + 1..];
    forall x | x in bs ensures IsBlock(x) { assert x == b || x in d.blocks; }
  }

  lemma SameRoutes(b: Lines, c: Lines, routes: string -> bool)
    requires b != [] && c != [] && b[0] == c[0] && Kept(b) == Kept(c)
    ensures RoutesHub(b, routes) == RoutesHub(c, routes)
  {
    hide KeyValue, SectionName, Kept;
    forall l ensures l in Kept(b) <==> l in b && !HasKey(l, "publickey") && !HasKey(l, "endpoint")
    {
      KeptMember(b, l);
    }
    forall l ensures l in Kept(c) <==> l in c && !HasKey(l, "publickey") && !HasKey(l, "endpoint")
    {
      KeptMember(c, l);
    }
  }

  lemma OneHub(bs: seq<Lines>, routes: string -> bool, k: nat, hubs: seq<nat>)
    requires k < |bs| && RoutesHub(bs[k], routes) && hubs == HubBlocks(bs, routes)
    requires forall j | 0 <= j < |bs| && j != k :: !RoutesHub(bs[j], routes)
    ensures hubs == [k]
  {
    hide HubsBefore, RoutesHub;
    HubsRoute(bs, routes, |bs|);
    assert k in hubs;
    assert forall i | 0 <= i < |hubs| :: hubs[i] in hubs && hubs[i] == k;
    assert hubs[|hubs| - 1] == hubs[0];
  }

  /** What Hub reads back is what SetHub wrote, and SetHub is idempotent. */
  lemma HubAfterSetHub(lines: Lines, routes: string -> bool, h: HubPeer)
    requires IsHubPeer(h) && SetHubIn(lines, routes, h).Some?
    ensures HubIn(SetHubIn(lines, routes, h).value, routes) == Some(h)
    ensures SetHubIn(SetHubIn(lines, routes, h).value, routes, h) == SetHubIn(lines, routes, h)
  {
    hide Parse, HubsBefore, SetBlock, Kept, HubOf, Concat, IsHeader, IsBlock, RoutesHub, IsField;
    var k, b := SetHubParses(lines, routes, h);
    var bs := Parse(lines).blocks[k := b];
    SplitBlocks(Doc(Parse(lines).pre, bs), k);
  }

  /**
   * SetHub changes the last PublicKey line and the last Endpoint line of the one section
   * that routes the hub, or writes the Endpoint line in after the PublicKey line; every
   * other line stays.
   */
  lemma SetHubChanges(lines: Lines, routes: string -> bool, h: HubPeer)
    returns (s: Section, keyAt: nat, endpointAt: int)
    requires IsHubPeer(h) && SetHubIn(lines, routes, h).Some?
    ensures HubSectionIn(lines, routes) == HubAt(s) && s.end <= |lines|
    ensures s.start < keyAt < s.end && HasKey(lines[keyAt], "publickey")
    ensures forall i | keyAt < i < s.end :: !HasKey(lines[i], "publickey")
    ensures endpointAt < 0 ==> forall i | s.start <= i < s.end :: !HasKey(lines[i], "endpoint")
    ensures endpointAt >= 0 ==> s.start < endpointAt < s.end && HasKey(lines[endpointAt], "endpoint")
    ensures SetHubIn(lines, routes, h).value == Edited(lines, keyAt, endpointAt, h)
  {
    s := SetHubSection(lines, routes, h);
    hide HubSectionIn, SetHubIn, Edited, IsHeader, LastKey, KeyValue, KeyAt;
    SetHubAt(lines, routes, h, s);
    keyAt, endpointAt := KeyAt(lines, s, "publickey"), KeyAt(lines, s, "endpoint");
    KeyAtIs(lines, s, "publickey");
    KeyAtIs(lines, s, "endpoint");
  }

  lemma KeyAtIs(lines: Lines, s: Section, key: string)
    requires s.start < s.end <= |lines| && IsHeader(lines[s.start]) && key != "" && key[0] != '['
    ensures KeyAt(lines, s, key) >= 0 ==> s.start < KeyAt(lines, s, key) < s.end && HasKey(lines[KeyAt(lines, s, key)], key)
    ensures forall i | s.start <= i < s.end && i > KeyAt(lines, s, key) :: !HasKey(lines[i], key)
  {
    hide IsHeader, LastKey, KeyValue;
    var b := lines[s.start..s.end];
    LastKeyHas(b, key);
    HeaderHasNoKey(b[0], key);
    assert forall m | s.start <= m < s.end :: lines[m] == b[m - s.start];
  }

  lemma SetHubSection(lines: Lines, routes: string -> bool, h: HubPeer) returns (s: Section)
    requires SetHubIn(lines, routes, h).Some?
    ensures HubSectionIn(lines, routes) == HubAt(s)
  {
    if !HubSectionIn(lines, routes).HubAt? {
      SetHubNone(lines, routes, h);
    }
    s := HubSectionIn(lines, routes).section;
  }

  /** Every peer but the hub's stays as it was, and the hub's changes in its key alone. */
  lemma SetHubKeepsPeers(lines: Lines, routes: string -> bool, h: HubPeer)
    returns (before: seq<Peer>, hub: Peer, after: seq<Peer>)
    requires IsHubPeer(h) && SetHubIn(lines, routes, h).Some?
    ensures PeersIn(lines) == before + [hub] + after
    ensures PeersIn(SetHubIn(lines, routes, h).value) == before + [hub.(publicKey := h.publicKey)] + after
  {
    hide *;
    var k, b := SetHubParses(lines, routes, h);
    var bs := Parse(lines).blocks;
    HubsAre(bs, routes, k);
    BlockSome(bs[k], b);
    RoutesPeer(bs[k], routes);
    SamePeerBlock(bs[k], b);
    var r := SetHubIn(lines, routes, h).value;
    PeersDef(r);
    PeersDef(lines);
    before, hub, after := PeersSplit(bs, k);
    var _, hub', _ := PeersSplit(bs[k := b], k);
    assert bs[k := b][..k] == bs[..k] && bs[k := b][k + 1..] == bs[k + 1..];
    EditedPeer(bs[k], b, h);
  }

  lemma RoutesPeer(b: Lines, routes: string -> bool)
    requires RoutesHub(b, routes)
    ensures IsPeerBlock(b)
  {
    hide IsPeerBlock;
  }

  lemma SamePeerBlock(b: Lines, c: Lines)
    requires b != [] && c != [] && b[0] == c[0]
    ensures IsPeerBlock(b) == IsPeerBlock(c)
  {
    hide SectionName;
  }

  lemma KeptTail(b: Lines)
    requires b != [] && !HasKey(b[0], "publickey") && !HasKey(b[0], "endpoint")
    ensures Kept(b) != [] && Kept(b[1..]) == Kept(b)[1..]
  {
    hide KeyValue;
    KeptAppend([b[0]], b[1..]);
    assert [b[0]][1..] == [];
    assert b == [b[0]] + b[1..];
  }

  lemma EditedPeer(b: Lines, c: Lines, h: HubPeer)
    requires IsBlock(b) && IsBlock(c) && b[0] == c[0] && Kept(b) == Kept(c)
    requires SetBlock(b, h) == Some(c) && HubOf(c) == h
    ensures ReadPeer(Peer("", "", ""), c[1..]) == ReadPeer(Peer("", "", ""), b[1..]).(publicKey := h.publicKey)
  {
    HeaderHasNoKey(b[0], "publickey");
    HeaderHasNoKey(b[0], "endpoint");
    var p := Peer("", "", "");
    hide IsHeader, KeyValue, Kept, ReadPeer, LastKey, SetBlock;
    KeptTail(b);
    KeptTail(c);
    KeptReads(p, p, b[1..]);
    KeptReads(p, p, c[1..]);
    LastKeyReads(p, c[1..]);
    LastKeyTail(c, "publickey");
  }

  lemma LastKeyTail(b: Lines, key: string)
    requires b != [] && !HasKey(b[0], key)
    ensures LastKey(b[1..], key) == if LastKey(b, key) < 0 then -1 else LastKey(b, key) - 1
    ensures LastValue(b[1..], key) == LastValue(b, key)
  {
    hide KeyValue, LastKey;
    LastKeyHas(b, key);
    LastKeyHas(b[1..], key);
    var i := LastKey(b, key);
    if i >= 0 {
      LastKeyIs(b[1..], key, i - 1);
    }
  }
}
