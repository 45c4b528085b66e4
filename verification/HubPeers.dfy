/**
 * The hub's peers in two stores: the wg-quick file and the live interface
 * (tools/kluster/internal/stages/worker_wireguard.go, worker_remove.go). HubPeer and
 * HubPeerRemove write the file first, then the live interface, and can be cut between.
 */
module HubPeers {
  import opened Text
  import opened WgConf

  /** The live interface routes an address to at most one key. */
  datatype World = World(conf: Lines, live: map<string, string>)

  /** The addresses an AllowedIPs value lists. */
  function Listed(allowed: string): seq<string> {
    var parts := Split(allowed, ',');
    seq(|parts|, i requires 0 <= i < |parts| => TrimSpace(parts[i]))
  }

  /** wg set wg0 peer key allowed-ips a: the key routes a alone, and no other key does. */
  function WgSet(live: map<string, string>, key: string, a: string): map<string, string> {
    (map b | b in live && live[b] != key && b != a :: live[b])[a := key]
  }

  /** wg set wg0 peer key remove. */
  function WgRemove(live: map<string, string>, key: string): map<string, string> {
    map b | b in live && live[b] != key :: live[b]
  }

  // --- HubPeer ---------------------------------------------------------------

  /** Text written with one newline more is the lines with one empty line more. */
  function PlusNewline(lines: Lines): Lines {
    lines + [""]
  }

  /** The file after HubPeer's edit, None when AddPeer refuses. */
  function AddEdit(conf: Lines, p: Peer): Option<Lines> {
    if exists q | q in PeersIn(conf) :: q.publicKey == p.publicKey && q.allowedIPs == p.allowedIPs then Some(conf)
    else
      var r := AddPeerIn(conf, p);
      if r.None? then None else Some(PlusNewline(r.value))
  }

  /** The states of one call, each reached by one effect, and its answer when nothing cuts it. */
  datatype Trace = Trace(states: seq<World>, ok: bool)

  function AddTrace(w: World, p: Peer): (t: Trace)
    ensures t.states != []
  {
    var edit := AddEdit(w.conf, p);
    if edit.None? then Trace([w], false)
    else
      var w1 := w.(conf := edit.value);
      var w2 := w1.(live := WgSet(w.live, p.publicKey, p.allowedIPs));
      Trace(if w1 == w then [w, w2] else [w, w1, w2], true)
  }

  // --- HubPeerRemove ---------------------------------------------------------

  datatype Held = NotHeld | HeldBy(peer: Peer) | Refused

  /** The peers whose AllowedIPs list a. */
  function Holders(ps: seq<Peer>, a: string): seq<Peer> {
    if ps == [] then []
    else (if a in Listed(ps[0].allowedIPs) then [ps[0]] else []) + Holders(ps[1..], a)
  }

  /** The one file peer of a; a peer that lists another address too, or a second peer, is refused. */
  function FileHolder(ps: seq<Peer>, a: string): Held {
    var hs := Holders(ps, a);
    if exists q | q in hs :: |Listed(q.allowedIPs)| > 1 then Refused
    else if |hs| == 0 then NotHeld
    else if |hs| == 1 then HeldBy(hs[0])
    else Refused
  }

  /** The inner loop of filePeer over one peer: whether it lists a, and then others beside it. */
  method Lists(allowed: string, a: string) returns (hit: bool, shared: bool)
    ensures hit <==> a in Listed(allowed)
    ensures shared <==> hit && |Listed(allowed)| > 1
  {
    hide TrimSpace;
    hit, shared := false, false;
    var ips := Split(allowed, ',');
    for j := 0 to |ips|
      invariant hit <==> exists k :: 0 <= k < j && Listed(allowed)[k] == a
      invariant shared <==> hit && |ips| > 1
    {
      if TrimSpace(ips[j]) == a {
        assert Listed(allowed)[j] == a;
        hit := true;
        shared := |ips| > 1;
      }
    }
  }

  /** filePeer: a peer that lists the address with others is refused where the loop meets it. */
  method FilePeer(conf: Lines, a: string) returns (r: Held)
    ensures r == FileHolder(PeersIn(conf), a)
  {
    hide PeersIn, Listed, Holders;
    var ps := Peers(conf);
    var found: seq<Peer> := [];
    HoldersNone(a);
    for i := 0 to |ps|
      invariant found == Holders(ps[..i], a)
      invariant forall q | q in found :: |Listed(q.allowedIPs)| <= 1
    {
      HoldersStep(ps, i, a);
      var hit, shared := Lists(ps[i].allowedIPs, a);
      if shared {
        HoldersRest(ps, i + 1, a);
        assert ps[i] in Holders(ps[..i + 1], a);
        return Refused;
      }
      if hit {
        found := found + [ps[i]];
      }
    }
    assert ps[..|ps|] == ps;
    r := if |found| == 0 then NotHeld else if |found| == 1 then HeldBy(found[0]) else Refused;
  }

  lemma HoldersNone(a: string)
    ensures Holders([], a) == []
  {}

  lemma HoldersStep(ps: seq<Peer>, i: nat, a: string)
    requires i < |ps|
    ensures Holders(ps[..i + 1], a) == Holders(ps[..i], a) + if a in Listed(ps[i].allowedIPs) then [ps[i]] else []
  {
    hide Listed;
    assert ps[..i + 1] == ps[..i] + [ps[i]];
    HoldersAppend(ps[..i], [ps[i]], a);
    assert [ps[i]][1..] == [];
  }

  lemma HoldersRest(ps: seq<Peer>, i: nat, a: string)
    requires i <= |ps|
    ensures forall q | q in Holders(ps[..i], a) :: q in Holders(ps, a)
  {
    hide Listed, Holders;
    HoldersAppend(ps[..i], ps[i..], a);
    assert ps == ps[..i] + ps[i..];
  }

  lemma {:induction false} HoldersAppend(x: seq<Peer>, y: seq<Peer>, a: string)
    ensures Holders(x + y, a) == Holders(x, a) + Holders(y, a)
  {
    hide Listed, Holders;
    if x == [] {
      HoldersNone(a);
      assert x + y == y;
    } else {
      assert (x + y)[1..] == x[1..] + y;
      HoldersAppend(x[1..], y, a);
      HoldersCons(x, a);
      HoldersCons(x + y, a);
      Assoc(OneHolder(x[0], a), Holders(x[1..], a), Holders(y, a));
    }
  }

  function OneHolder(q: Peer, a: string): seq<Peer> {
    if a in Listed(q.allowedIPs) then [q] else []
  }

  lemma HoldersCons(ps: seq<Peer>, a: string)
    requires ps != []
    ensures Holders(ps, a) == OneHolder(ps[0], a) + Holders(ps[1..], a)
  {}

  /** The config text with its trailing newlines cut to one. */
  function OneNewline(lines: Lines): Lines {
    StripEmpty(lines) + [""]
  }

  function RemoveTrace(w: World, a: string): (t: Trace)
    ensures t.states != []
  {
    match FileHolder(PeersIn(w.conf), a)
    case Refused => Trace([w], false)
    case NotHeld =>
      Trace(if a in w.live then [w, w.(live := WgRemove(w.live, w.live[a]))] else [w], true)
    case HeldBy(q) =>
      if a in w.live && w.live[a] != q.publicKey then Trace([w], false)
      else
        var r := RemovePeerIn(w.conf, q.publicKey);
        if r.None? then Trace([w], false)
        else
          var w1 := w.(conf := OneNewline(r.value));
          Trace(if a in w.live then [w, w1, w1.(live := WgRemove(w.live, w.live[a]))] else [w, w1], true)
  }

  // --- The Stages ------------------------------------------------------------

  class Hub {
    var conf: Lines
    var live: map<string, string>

    constructor (w: World)
      ensures Value() == w
    {
      conf, live := w.conf, w.live;
    }

    ghost function Value(): World
      reads this
    {
      World(conf, live)
    }

    /** HubPeer.Act, cut after the given number of effects: the file, then wg set. */
    method AddPeerStage(p: Peer, cut: nat) returns (ok: bool)
      modifies this
      ensures Value() == Cut(AddTrace(old(Value()), p), cut)
      ensures ok <==> var t := AddTrace(old(Value()), p); t.ok && cut >= |t.states| - 1
    {
      hide PeersIn, AddPeerIn;
      var updated := conf;
      var ps := Peers(conf);
      var found := false;
      for i := 0 to |ps|
        invariant found <==> exists j | 0 <= j < i :: ps[j].publicKey == p.publicKey && ps[j].allowedIPs == p.allowedIPs
      {
        found := found || (ps[i].publicKey == p.publicKey && ps[i].allowedIPs == p.allowedIPs);
      }
      if !found {
        var r := AddPeer(conf, p);
        if r.None? {
          return false;
        }
        updated := r.value + [""];
      }
      assert AddEdit(conf, p) == Some(updated);
      var n := cut;
      if updated != conf {
        if n == 0 { return false; }
        conf, n := updated, n - 1;
      }
      if n == 0 { return false; }
      live := WgSet(live, p.publicKey, p.allowedIPs);
      return true;
    }

    /** HubPeerRemove.Act: the file when it holds the peer, then the live peer when there is one. */
    method RemovePeerStage(a: string, cut: nat) returns (ok: bool)
      modifies this
      ensures Value() == Cut(RemoveTrace(old(Value()), a), cut)
      ensures ok <==> var t := RemoveTrace(old(Value()), a); t.ok && cut >= |t.states| - 1
    {
      hide PeersIn, RemovePeerIn, FileHolder, StripEmpty;
      var file := FilePeer(conf, a);
      if file.Refused? || (file.HeldBy? && a in live && live[a] != file.peer.publicKey) {
        return false;
      }
      var n := cut;
      if file.HeldBy? {
        var r := RemovePeer(conf, file.peer.publicKey);
        if r.None? || n == 0 {
          return false;
        }
        conf, n := StripEmpty(r.value) + [""], n - 1;
      }
      if a in live {
        if n == 0 { return false; }
        live := WgRemove(live, live[a]);
      }
      return true;
    }
  }

  /** The state a call leaves that is cut after n effects. */
  function Cut(t: Trace, n: nat): World
    requires t.states != []
  {
    if n < |t.states| then t.states[n] else t.states[|t.states| - 1]
  }

  function Last(t: Trace): World
    requires t.states != []
  {
    t.states[|t.states| - 1]
  }

  // --- What a hub kluster keeps holds ----------------------------------------

  /** Each [Peer] has a PublicKey line, and all of its PublicKey lines say the same key. */
  ghost predicate Keyed(b: Lines) {
    b != [] && (exists l | l in b :: HasKey(l, "publickey")) &&
    forall l | l in b && HasKey(l, "publickey") :: KeyValue(l).1 == ReadPeer(Peer("", "", ""), b[1..]).publicKey
  }

  ghost predicate AllKeyed(bs: seq<Lines>) {
    forall b | b in bs && IsPeerBlock(b) :: Keyed(b)
  }

  ghost predicate OneAddress(p: Peer) {
    Listed(p.allowedIPs) == [p.allowedIPs]
  }

  /** The peer lists a. */
  predicate Routes(q: Peer, a: string) {
    a in Listed(q.allowedIPs)
  }

  /** The peer lists one address. */
  predicate Sole(q: Peer) {
    |Listed(q.allowedIPs)| == 1
  }

  /** A peer that lists other addresses too lists a. */
  ghost predicate Shared(ps: seq<Peer>, a: string) {
    exists q | q in ps :: Routes(q, a) && !Sole(q)
  }

  /** File and live interface route the same addresses to the same keys. */
  ghost predicate Agree(ps: seq<Peer>, live: map<string, string>) {
    && (forall q, a | q in ps && Routes(q, a) :: a in live && live[a] == q.publicKey)
    && (forall a | a in live :: exists q | q in ps :: Routes(q, a))
  }

  /** No two peers list one address. */
  ghost predicate Disjoint(ps: seq<Peer>) {
    forall i, j, a | 0 <= i < j < |ps| && Routes(ps[i], a) :: !Routes(ps[j], a)
  }

  /** The file alone: no key and no address twice, every peer keyed. */
  ghost predicate FileOk(conf: Lines) {
    && Distinct(PeersIn(conf)) && Disjoint(PeersIn(conf))
    && AllKeyed(Parse(conf).blocks)
  }

  ghost predicate Inv(w: World) {
    FileOk(w.conf) && Agree(PeersIn(w.conf), w.live)
  }

  lemma {:induction false} HoldersOf(ps: seq<Peer>, a: string)
    requires Disjoint(ps)
    ensures forall q :: q in Holders(ps, a) <==> q in ps && Routes(q, a)
    ensures |Holders(ps, a)| <= 1
  {
    hide Listed;
    if ps != [] {
      assert ps[0] in ps && forall q | q in ps[1..] :: q in ps;
      assert forall i | 0 <= i < |ps| - 1 :: ps[1..][i] == ps[i + 1];
      HoldersOf(ps[1..], a);
      assert ps == [ps[0]] + ps[1..];
      assert Routes(ps[0], a) ==> forall q | q in ps[1..] :: !Routes(q, a);
      var rest := Holders(ps[1..], a);
      assert rest == [] || rest[0] in rest;
    }
  }

  /** In a kept file the holder of an address is the one peer that lists it, unless that lists others too. */
  lemma HolderIs(conf: Lines, a: string)
    requires FileOk(conf)
    ensures FileHolder(PeersIn(conf), a).Refused? <==> Shared(PeersIn(conf), a)
    ensures FileHolder(PeersIn(conf), a).NotHeld? <==> forall q | q in PeersIn(conf) :: !Routes(q, a)
    ensures forall q | q in PeersIn(conf) && Routes(q, a) && Sole(q) :: FileHolder(PeersIn(conf), a) == HeldBy(q)
  {
    hide PeersIn, Listed, Holders, AllKeyed, Routes;
    var ps := PeersIn(conf);
    HoldersOf(ps, a);
    var hs := Holders(ps, a);
    forall q | q in hs
      ensures |Listed(q.allowedIPs)| >= 1
    {
      SomeListed(q);
    }
    assert hs != [] ==> hs[0] in hs;
    assert forall q | q in hs :: hs[0] == q;
    assert forall q | q in ps && Routes(q, a) :: q in hs;
  }

  /** A peer lists something, even if it is the empty string. */
  lemma SomeListed(q: Peer)
    ensures |Listed(q.allowedIPs)| >= 1
  {}

  /** A file's values are read without the space around them, so a sole address is the whole value. */
  lemma {:induction false} SoleIsValue(conf: Lines, q: Peer)
    requires q in PeersIn(conf)
    ensures Sole(q) ==> OneAddress(q)
  {
    hide TrimSpace, Parse, ReadPeer, IsPeerBlock, Trimmed;
    var b := PeerHasBlock(Parse(conf).blocks, q);
    NothingTrimmed();
    ReadTrimmed(Peer("", "", ""), b[1..]);
    JoinSplit(q.allowedIPs, ',');
    TrimSpaceIs("", q.allowedIPs, "");
    assert "" + q.allowedIPs + "" == q.allowedIPs;
  }

  lemma NothingTrimmed()
    ensures Trimmed("") && AllSpace("")
  {}

  lemma {:induction false} ReadTrimmed(p: Peer, lines: Lines)
    requires Trimmed(p.allowedIPs)
    ensures Trimmed(ReadPeer(p, lines).allowedIPs)
    decreases |lines|
  {
    hide Trimmed, PeerLine;
    if lines != [] {
      LineTrimmed(p, lines[0]);
      ReadTrimmed(PeerLine(p, lines[0]), lines[1..]);
    }
  }

  lemma LineTrimmed(p: Peer, line: string)
    requires Trimmed(p.allowedIPs)
    ensures Trimmed(PeerLine(p, line).allowedIPs)
  {
    hide TrimSpace, Lower, IndexOf, Trimmed;
    NothingTrimmed();
    var t := TrimSpace(line);
    if t != "" {
      var i := IndexOf(t, '=');
      if i < |t| {
        var _, _ := TrimSpaceSplits(t[i + 1..]);
      }
    }
  }

  // --- Add keeps -------------------------------------------------------------

  ghost predicate IsSpoke(p: Peer) {
    IsPeer(p) && OneAddress(p)
  }

  lemma {:induction false} PlusNewlineKeeps(conf: Lines)
    ensures PeersIn(PlusNewline(conf)) == PeersIn(conf)
    ensures AllKeyed(Parse(conf).blocks) ==> AllKeyed(Parse(PlusNewline(conf)).blocks)
  {
    hide PeersIn, Parse, AllKeyed, IsBlank;
    EmptyLine();
    PeersBlankTail(conf, [""]);
    KeyedBlankTail(conf, [""]);
  }

  lemma {:induction false} KeyedBlankTail(conf: Lines, t: Lines)
    requires forall l | l in t :: IsBlank(l)
    ensures AllKeyed(Parse(conf + t).blocks) <==> AllKeyed(Parse(conf).blocks)
  {
    hide *;
    BlankNoHeader(t);
    ParseExtend(conf, t);
    KeyedExtend(Parse(conf), t);
  }

  lemma KeyedExtend(d: Doc, t: Lines)
    requires NonEmpty(d.blocks) && forall l | l in t :: IsBlank(l)
    ensures AllKeyed(Extend(d, t).blocks) <==> AllKeyed(d.blocks)
  {
    hide IsBlank, Keyed, IsPeerBlock, AllKeyed;
    var bs := d.blocks;
    if bs != [] {
      var x, b := bs[..|bs| - 1], bs[|bs| - 1];
      assert b in bs && bs == x + [b];
      SameHead(b, t);
      KeyedBlank(b, t);
      AllKeyedAppend(x, b);
      AllKeyedAppend(x, b + t);
    }
  }

  lemma AllKeyedAppend(x: seq<Lines>, b: Lines)
    ensures AllKeyed(x + [b]) <==> AllKeyed(x) && (IsPeerBlock(b) ==> Keyed(b))
  {
    hide IsPeerBlock, Keyed;
    assert forall y :: y in x + [b] <==> y in x || y == b;
  }

  lemma KeyedBlank(b: Lines, t: Lines)
    requires b != [] && forall l | l in t :: IsBlank(l)
    ensures Keyed(b + t) <==> Keyed(b)
  {
    hide IsBlank, ReadPeer, KeyValue;
    assert (b + t)[1..] == b[1..] + t;
    ReadPeerAppend(Peer("", "", ""), b[1..], t);
    ReadPeerBlank(ReadPeer(Peer("", "", ""), b[1..]), t);
    forall l | l in t ensures !HasKey(l, "publickey") { BlankLine(Peer("", "", ""), l); }
  }

  lemma {:induction false} SectionKeyed(p: Peer)
    requires IsPeer(p)
    ensures Keyed(PeerSection(p) + [""]) && IsPeerBlock(PeerSection(p) + [""])
  {
    PeerSectionReads(p);
    var b := PeerSection(p);
    assert b == ["[Peer]", "# " + p.name, "PublicKey  = " + p.publicKey, "AllowedIPs = " + p.allowedIPs];
    hide PeerSection, ReadPeer, KeyValue, IsHeader, IsBlank, IsPeerBlock, Keyed;
    EmptyLine();
    HeaderHasNoKey(b[0], "publickey");
    CommentKey(p.name);
    KeyedFour(b[0], b[1], b[2], b[3]);
    KeyedBlank(b, [""]);
    SameHead(b, [""]);
  }

  lemma KeyedFour(a: string, b: string, c: string, d: string)
    requires !HasKey(a, "publickey") && !HasKey(b, "publickey") && HasKey(c, "publickey") && !HasKey(d, "publickey")
    requires KeyValue(c).1 == ReadPeer(Peer("", "", ""), [b, c, d]).publicKey
    ensures Keyed([a, b, c, d])
  {
    hide HasKey, KeyValue, ReadPeer;
    var all := [a, b, c, d];
    assert all[1..] == [b, c, d] && c in all;
    assert forall l | l in all && HasKey(l, "publickey") :: l == c;
  }

  lemma CommentKey(name: string)
    requires Trimmed(name)
    ensures !HasKey("# " + name, "publickey")
  {
    hide TrimSpace, IndexOf, Lower;
    CommentReads(name);
  }

  predicate HasPeer(conf: Lines, p: Peer) {
    exists q | q in PeersIn(conf) :: q.publicKey == p.publicKey && q.allowedIPs == p.allowedIPs
  }

  /** HubPeer's edit keeps a kept file, and appends exactly the peer when the file does not hold it. */
  lemma {:induction false} AddEditKeeps(conf: Lines, p: Peer)
    requires FileOk(conf) && IsSpoke(p) && !Shared(PeersIn(conf), p.allowedIPs) && AddEdit(conf, p).Some?
    ensures FileOk(AddEdit(conf, p).value)
    ensures PeersIn(AddEdit(conf, p).value) == PeersIn(conf) + if HasPeer(conf, p) then [] else [p]
  {
    hide AddEdit, PeersIn, AllKeyed, IsPeer, OneAddress, Disjoint, Routes, Sole;
    AddEditCases(conf, p);
    if HasPeer(conf, p) {
      assert PeersIn(conf) + [] == PeersIn(conf);
    } else {
      PeersAdd(conf, p);
      PlusNewlineKeeps(Added(conf, p));
      AddedKeyed(conf, p);
      DistinctAdd(PeersIn(conf), p);
      forall q | q in PeersIn(conf)
        ensures !Routes(q, p.allowedIPs)
      {
        HolderHas(conf, q, p.allowedIPs);
      }
      DisjointAdd(PeersIn(conf), p);
    }
  }

  /** A peer that lists the address alone has it as its value. */
  lemma HolderHas(conf: Lines, q: Peer, a: string)
    requires q in PeersIn(conf) && !Shared(PeersIn(conf), a)
    ensures Routes(q, a) <==> q.allowedIPs == a && Sole(q)
  {
    hide PeersIn, Listed;
    SoleIsValue(conf, q);
    if Sole(q) {
      assert Routes(q, a) <==> a in [q.allowedIPs];
    }
  }

  lemma DisjointAdd(ps: seq<Peer>, p: Peer)
    requires Disjoint(ps) && OneAddress(p) && forall q | q in ps :: !Routes(q, p.allowedIPs)
    ensures Disjoint(ps + [p])
  {
    hide Listed;
    forall a
      ensures Routes(p, a) <==> a == p.allowedIPs
    {
      assert Routes(p, a) <==> a in [p.allowedIPs];
    }
    hide Routes;
    forall i, j, a | 0 <= i < j < |ps + [p]| && Routes((ps + [p])[i], a)
      ensures !Routes((ps + [p])[j], a)
    {
      assert (ps + [p])[i] == ps[i] && ps[i] in ps;
    }
  }

  lemma AddEditCases(conf: Lines, p: Peer)
    requires AddEdit(conf, p).Some?
    ensures HasPeer(conf, p) ==> AddEdit(conf, p) == Some(conf)
    ensures !HasPeer(conf, p) ==>
              AddPeerIn(conf, p).Some? && AddPeerIn(conf, p).value == Added(conf, p) &&
              AddEdit(conf, p) == Some(PlusNewline(Added(conf, p)))
  {
    hide PeersIn, Added;
  }

  lemma DistinctAdd(ps: seq<Peer>, p: Peer)
    requires Distinct(ps)
    requires forall q | q in ps :: q.publicKey != p.publicKey && q.allowedIPs != p.allowedIPs
    ensures Distinct(ps + [p])
  {}

  lemma {:induction false} AddedKeyed(conf: Lines, p: Peer)
    requires AllKeyed(Parse(conf).blocks) && IsPeer(p)
    ensures AllKeyed(Parse(Added(conf, p)).blocks)
  {
    hide Parse, AllKeyed, IsPeer, StripEmpty, PeerSection, IsPeerBlock, Keyed, IsBlank;
    AddedParses(conf, p);
    EmptyLine();
    var t := StripEmptySplits(conf);
    KeyedBlankTail(StripEmpty(conf), t);
    KeyedBlankTail(StripEmpty(conf), [""]);
    SectionKeyed(p);
    AllKeyedAppend(Parse(StripEmpty(conf) + [""]).blocks, PeerSection(p) + [""]);
  }

  // --- Remove keeps ----------------------------------------------------------

  lemma {:induction false} PeerHasBlock(bs: seq<Lines>, q: Peer) returns (b: Lines)
    requires q in PeersOf(bs)
    ensures b in bs && IsPeerBlock(b) && q == ReadPeer(Peer("", "", ""), b[1..])
  {
    hide ReadPeer;
    if IsPeerBlock(bs[0]) && q == ReadPeer(Peer("", "", ""), bs[0][1..]) {
      b := bs[0];
    } else {
      b := PeerHasBlock(bs[1..], q);
    }
  }

  /** The blocks around a removed one stay keyed. */
  lemma {:induction false} KeyedRejoin(pre: Lines, a: seq<Lines>, c: seq<Lines>)
    requires NoHeader(pre) && AreBlocks(a) && AreBlocks(c) && AllKeyed(a) && AllKeyed(c)
    ensures AllKeyed(Parse(OneLine(StripBlank(pre + Concat(a)) + Concat(c))).blocks)
  {
    var head := pre + Concat(a);
    assert c == [] ==> Concat(c) == [];
    assert AllKeyed(Parse([""]).blocks) by { assert [""][1..] == []; EmptyLine(); hide IsHeader; }
    hide Parse, Keyed, IsPeerBlock, IsBlock, IsBlank, IsHeader, StripBlank, Concat;
    var t := StripBlankSplits(head);
    ParseHead(pre, a);
    KeyedBlankTail(StripBlank(head), t);
    ParseConcat(c);
    ParseAppend(StripBlank(head), Concat(c));
  }

  /** Removing a peer of a kept file by its key removes that peer and keeps the file. */
  lemma {:induction false} RemoveKeeps(conf: Lines, q: Peer)
    requires FileOk(conf) && q in PeersIn(conf)
    ensures RemovePeerIn(conf, q.publicKey).Some?
    ensures FileOk(RemovePeerIn(conf, q.publicKey).value)
    ensures forall p :: p in PeersIn(RemovePeerIn(conf, q.publicKey).value) <==> p in PeersIn(conf) && p != q
  {
    hide *;
    var d := Parse(conf);
    FileIs(conf);
    PeerIsHeld(conf, q);
    var k, before, gone, after := RemoveDropsOne(conf, q.publicKey);
    KeyedHolds(d.blocks, k, q.publicKey);
    DistinctWithout(before, gone, after);
    DisjointWithout(before, gone, after);
    GoneIs(before, gone, after, q);
    KeyedRest(d.blocks, k);
    SubBlocks(d.blocks, k);
    KeyedRejoin(d.pre, d.blocks[..k], d.blocks[k + 1..]);
    SectionIsBlock(conf, k);
    FileIf(RemovePeerIn(conf, q.publicKey).value);
  }

  lemma FileIs(conf: Lines)
    requires FileOk(conf)
    ensures Distinct(PeersIn(conf)) && Disjoint(PeersIn(conf)) && AllKeyed(Parse(conf).blocks)
  {
    hide PeersIn, Distinct, Disjoint, AllKeyed, Parse;
  }

  lemma FileIf(conf: Lines)
    requires Distinct(PeersIn(conf)) && Disjoint(PeersIn(conf)) && AllKeyed(Parse(conf).blocks)
    ensures FileOk(conf)
  {
    hide PeersIn, Distinct, Disjoint, AllKeyed, Parse;
  }

  lemma DisjointWithout(before: seq<Peer>, gone: Peer, after: seq<Peer>)
    requires Disjoint(before + [gone] + after)
    ensures Disjoint(before + after)
  {
    hide Routes;
    var all, rest, n := before + [gone] + after, before + after, |before|;
    forall i, j, a | 0 <= i < j < |rest| && Routes(rest[i], a)
      ensures !Routes(rest[j], a)
    {
      assert rest[i] == all[if i < n then i else i + 1] && rest[j] == all[if j < n then j else j + 1];
    }
  }

  /** A peer of a keyed file is found by its key. */
  lemma PeerIsHeld(conf: Lines, q: Peer)
    requires AllKeyed(Parse(conf).blocks) && q in PeersIn(conf)
    ensures RemovePeerIn(conf, q.publicKey).Some?
  {
    var bs := Parse(conf).blocks;
    var b := PeerHasBlock(bs, q);
    BlockHolds(bs, b);
    hide HoldsKey, IsPeerBlock, Parse, StripBlank, Concat, OneLine, ReadPeer;
  }

  lemma BlockHolds(bs: seq<Lines>, b: Lines)
    requires AllKeyed(bs) && b in bs && IsPeerBlock(b)
    ensures b != [] && HoldsKey(b, ReadPeer(Peer("", "", ""), b[1..]).publicKey)
  {
    hide ReadPeer, KeyValue;
    assert Keyed(b);
  }

  lemma KeyedRest(bs: seq<Lines>, k: nat)
    requires AllKeyed(bs) && k < |bs|
    ensures AllKeyed(bs[..k]) && AllKeyed(bs[k + 1..])
  {
    hide Keyed;
    assert forall x | x in bs[..k] || x in bs[k + 1..] :: x in bs;
  }

  lemma KeyedHolds(bs: seq<Lines>, k: nat, key: string)
    requires AllKeyed(bs) && k < |bs| && IsPeerBlock(bs[k]) && HoldsKey(bs[k], key)
    ensures bs[k] != [] && ReadPeer(Peer("", "", ""), bs[k][1..]).publicKey == key
  {
    hide ReadPeer, KeyValue;
    assert Keyed(bs[k]);
  }

  lemma GoneIs(before: seq<Peer>, gone: Peer, after: seq<Peer>, q: Peer)
    requires Distinct(before + [gone] + after) && q in before + [gone] + after && gone.publicKey == q.publicKey
    ensures gone == q
    ensures forall p :: p in before + after <==> p in before + [gone] + after && p != q
  {
    var all, n := before + [gone] + after, |before|;
    assert all[n] == gone;
    assert forall i | 0 <= i < |all| :: all[i].publicKey == q.publicKey ==> i == n;
    assert forall i | 0 <= i < n :: before[i] == all[i];
    assert forall i | 0 <= i < |after| :: after[i] == all[n + 1 + i];
  }

  // --- One Stage, cut anywhere -----------------------------------------------

  /** Live routes of every other address are as before. */
  ghost predicate OthersKeep(w: World, v: World, a: string) {
    forall b | b != a :: (b in v.live <==> b in w.live) && (b in w.live ==> v.live[b] == w.live[b])
  }

  /** A finished HubPeer: file and live interface agree, and nobody else's route or section changed. */
  lemma {:induction false} AddStageKeeps(w: World, p: Peer)
    requires Inv(w) && IsSpoke(p) && !Shared(PeersIn(w.conf), p.allowedIPs)
    ensures var t := AddTrace(w, p); var v := Last(t);
            if t.ok then
              && Inv(v) && HasPeer(v.conf, p) && p.allowedIPs in v.live && v.live[p.allowedIPs] == p.publicKey
              && PeersIn(v.conf) == PeersIn(w.conf) + (if HasPeer(w.conf, p) then [] else [p])
              && OthersKeep(w, v, p.allowedIPs)
            else v == w
  {
    hide PeersIn, FileOk, IsSpoke, AddEdit, Agree, WgSet, Shared, Routes;
    if AddTrace(w, p).ok {
      SpokeSole(p);
      AddEditKeeps(w.conf, p);
      AddEditClashes(w.conf, p);
      var conf := AddEdit(w.conf, p).value;
      var ps := PeersIn(conf);
      assert Last(AddTrace(w, p)) == World(conf, WgSet(w.live, p.publicKey, p.allowedIPs));
      SetAgrees(PeersIn(w.conf), ps, w.live, p);
    }
  }

  /**
   * HubPeer succeeds exactly when the file holds this very peer, or no peer of the file has
   * its key or lists its address.
   */
  lemma {:induction false} AddStageIff(w: World, p: Peer)
    requires FileOk(w.conf) && IsSpoke(p) && !Shared(PeersIn(w.conf), p.allowedIPs)
    ensures AddTrace(w, p).ok <==>
            || (exists q | q in PeersIn(w.conf) :: q.publicKey == p.publicKey && q.allowedIPs == p.allowedIPs)
            || (forall q | q in PeersIn(w.conf) :: q.publicKey != p.publicKey && !Routes(q, p.allowedIPs))
  {
    hide FileOk, PeersIn, AddPeerIn, Routes, Sole, WgSet;
    var ps := PeersIn(w.conf);
    PeersAdd(w.conf, p);
    forall q | q in ps
      ensures Routes(q, p.allowedIPs) <==> q.allowedIPs == p.allowedIPs
    {
      HolderHas(w.conf, q, p.allowedIPs);
      if q.allowedIPs == p.allowedIPs {
        SameValue(p, q);
      }
    }
  }

  /**
   * Whatever the live interface holds, HubPeerRemove goes on exactly when no peer of several
   * addresses lists this one and the interface routes it to the key the file has, or to none.
   * Refused, it changes nothing.
   */
  lemma {:induction false} RemoveStageIff(w: World, a: string)
    requires FileOk(w.conf)
    ensures RemoveTrace(w, a).ok <==>
            && !Shared(PeersIn(w.conf), a)
            && (forall q | q in PeersIn(w.conf) && Routes(q, a) :: a in w.live ==> w.live[a] == q.publicKey)
    ensures !RemoveTrace(w, a).ok ==> RemoveTrace(w, a).states == [w]
  {
    hide PeersIn, FileOk, FileHolder, RemovePeerIn, Routes, Sole, OneNewline, WgRemove;
    HolderIs(w.conf, a);
    FileIs(w.conf);
    if !Shared(PeersIn(w.conf), a) && exists q | q in PeersIn(w.conf) :: Routes(q, a) {
      var q :| q in PeersIn(w.conf) && Routes(q, a);
      assert Sole(q);
      OnlyHolder(PeersIn(w.conf), q, a);
      RemoveKeeps(w.conf, q);
    }
  }

  /** A file peer with the key of an accepted one, or that lists its address, has both and nothing else. */
  lemma {:induction false} AddEditClashes(conf: Lines, p: Peer)
    requires FileOk(conf) && OneAddress(p) && AddEdit(conf, p).Some? && !Shared(PeersIn(conf), p.allowedIPs)
    ensures forall q | q in PeersIn(conf) :: q.publicKey == p.publicKey <==> Routes(q, p.allowedIPs)
    ensures forall q | q in PeersIn(conf) && Routes(q, p.allowedIPs) :: q.allowedIPs == p.allowedIPs && Sole(q)
  {
    hide PeersIn, AllKeyed, OneAddress, Added, Disjoint, Routes, Shared, Sole;
    AddEditCases(conf, p);
    var ps := PeersIn(conf);
    forall q | q in ps
      ensures Routes(q, p.allowedIPs) <==> q.allowedIPs == p.allowedIPs && Sole(q)
    {
      HolderHas(conf, q, p.allowedIPs);
    }
    if HasPeer(conf, p) {
      var q :| q in ps && q.publicKey == p.publicKey && q.allowedIPs == p.allowedIPs;
      assert forall r | r in ps :: r == q || (r.publicKey != q.publicKey && r.allowedIPs != q.allowedIPs);
      SameValue(p, q);
    }
  }

  lemma SameValue(p: Peer, q: Peer)
    requires OneAddress(p) && q.allowedIPs == p.allowedIPs
    ensures Routes(q, p.allowedIPs)
  {
    hide Listed;
    assert p.allowedIPs in [p.allowedIPs];
  }

  lemma SetAgrees(was: seq<Peer>, ps: seq<Peer>, live: map<string, string>, p: Peer)
    requires Agree(was, live) && OneAddress(p)
    requires forall q | q in was :: q.publicKey == p.publicKey <==> Routes(q, p.allowedIPs)
    requires forall q | q in was && Routes(q, p.allowedIPs) :: q.allowedIPs == p.allowedIPs && Sole(q)
    requires ps == was ==> exists q | q in was :: q.publicKey == p.publicKey && q.allowedIPs == p.allowedIPs
    requires ps == was || ps == was + [p]
    ensures Agree(ps, WgSet(live, p.publicKey, p.allowedIPs))
    ensures exists q | q in ps :: q.publicKey == p.publicKey && q.allowedIPs == p.allowedIPs
    ensures var v := WgSet(live, p.publicKey, p.allowedIPs);
            && p.allowedIPs in v && v[p.allowedIPs] == p.publicKey
            && forall b | b != p.allowedIPs :: (b in v <==> b in live) && (b in live ==> v[b] == live[b])
  {
    OnlyRoute(p);
    hide Listed, Routes, OneAddress;
    assert ps != was ==> p in ps;
    assert forall q :: q in ps <==> q in was || (ps != was && q == p);
    forall q | q in was && Routes(q, p.allowedIPs)
      ensures forall a :: Routes(q, a) <==> a == p.allowedIPs
    {
      SoleRoute(q, p.allowedIPs);
    }
    forall b | b in live && b != p.allowedIPs
      ensures live[b] != p.publicKey
    {
      var q :| q in was && Routes(q, b);
    }
  }

  lemma OnlyRoute(p: Peer)
    requires OneAddress(p)
    ensures forall a :: Routes(p, a) <==> a == p.allowedIPs
  {
    hide Listed;
    assert forall a :: a in [p.allowedIPs] <==> a == p.allowedIPs;
  }

  lemma SoleRoute(q: Peer, a: string)
    requires Sole(q) && Routes(q, a)
    ensures forall b :: Routes(q, b) <==> b == a
  {
    hide Listed;
    var l := Listed(q.allowedIPs);
    assert l == [l[0]];
  }

  /** The file after HubPeerRemove of q's address. */
  function RemovedConf(conf: Lines, q: Peer): Lines {
    var r := RemovePeerIn(conf, q.publicKey);
    if r.None? then conf else OneNewline(r.value)
  }

  lemma RemoveHeld(w: World, a: string, q: Peer)
    requires Inv(w) && q in PeersIn(w.conf) && Routes(q, a) && Sole(q)
    ensures a in w.live && w.live[a] == q.publicKey && !Shared(PeersIn(w.conf), a)
    ensures RemoveTrace(w, a) ==
            Trace([w, w.(conf := RemovedConf(w.conf, q)), World(RemovedConf(w.conf, q), WgRemove(w.live, q.publicKey))], true)
    ensures FileOk(RemovedConf(w.conf, q))
    ensures forall p :: p in PeersIn(RemovedConf(w.conf, q)) <==> p in PeersIn(w.conf) && p != q
  {
    hide PeersIn, Parse, Listed, RemovePeerIn, FileOk, FileHolder, OneNewline, WgRemove, Routes, Sole, Shared;
    HolderIs(w.conf, a);
    RemoveKeeps(w.conf, q);
    FileIs(RemovePeerIn(w.conf, q.publicKey).value);
    OneNewlineKeeps(RemovePeerIn(w.conf, q.publicKey).value);
    FileIf(OneNewline(RemovePeerIn(w.conf, q.publicKey).value));
  }

  lemma {:induction false} RemoveFree(w: World, a: string)
    requires Inv(w) && forall q | q in PeersIn(w.conf) :: !Routes(q, a)
    ensures a !in w.live && RemoveTrace(w, a) == Trace([w], true) && !Shared(PeersIn(w.conf), a)
  {
    hide PeersIn, FileOk, FileHolder, RemovePeerIn, Routes;
    HolderIs(w.conf, a);
  }

  lemma {:induction false} RemoveRefused(w: World, a: string)
    requires Inv(w) && Shared(PeersIn(w.conf), a)
    ensures RemoveTrace(w, a) == Trace([w], false)
  {
    hide PeersIn, FileOk, FileHolder, RemovePeerIn, Shared;
    HolderIs(w.conf, a);
  }

  lemma OnlyHolder(ps: seq<Peer>, q: Peer, a: string)
    requires Disjoint(ps) && q in ps && Routes(q, a)
    ensures forall p | p in ps && Routes(p, a) :: p == q
  {
    hide Routes;
  }

  lemma RemoveLive(live: map<string, string>, key: string)
    ensures forall b | b in WgRemove(live, key) :: b in live && WgRemove(live, key)[b] == live[b]
  {}

  /**
   * HubPeerRemove refuses exactly when a peer that lists other addresses too lists this one,
   * and then changes nothing. Finished, neither store holds the address, and nobody else's
   * route or section changed.
   */
  lemma {:induction false} RemoveStageKeeps(w: World, a: string)
    requires Inv(w)
    ensures var t := RemoveTrace(w, a); var v := Last(t);
            && (t.ok <==> !Shared(PeersIn(w.conf), a))
            && (!t.ok ==> v == w)
            && (t.ok ==>
                  && Inv(v) && a !in v.live
                  && (forall q :: q in PeersIn(v.conf) <==> q in PeersIn(w.conf) && !Routes(q, a))
                  && OthersKeep(w, v, a))
  {
    hide PeersIn, FileOk, FileHolder, RemoveTrace, OneNewline, WgRemove, Routes, Sole, Agree;
    if Shared(PeersIn(w.conf), a) {
      RemoveRefused(w, a);
    } else if exists q | q in PeersIn(w.conf) :: Routes(q, a) {
      var q :| q in PeersIn(w.conf) && Routes(q, a);
      assert Sole(q);
      RemoveHeld(w, a, q);
      var ps := PeersIn(RemovedConf(w.conf, q));
      FileIs(w.conf);
      OnlyHolder(PeersIn(w.conf), q, a);
      RemoveAgrees(PeersIn(w.conf), ps, w.live, q, a);
      RemoveLive(w.live, q.publicKey);
    } else {
      RemoveFree(w, a);
    }
  }

  lemma {:induction false} OneNewlineKeeps(conf: Lines)
    ensures PeersIn(OneNewline(conf)) == PeersIn(conf)
    ensures AllKeyed(Parse(conf).blocks) ==> AllKeyed(Parse(OneNewline(conf)).blocks)
  {
    hide PeersIn, Parse, AllKeyed, IsBlank, StripEmpty;
    EmptyLine();
    var t := StripEmptySplits(conf);
    PeersBlankTail(StripEmpty(conf), t);
    PeersBlankTail(StripEmpty(conf), [""]);
    KeyedBlankTail(StripEmpty(conf), t);
    KeyedBlankTail(StripEmpty(conf), [""]);
  }

  lemma RemoveAgrees(was: seq<Peer>, ps: seq<Peer>, live: map<string, string>, q: Peer, a: string)
    requires Agree(was, live) && Distinct(was) && q in was && Sole(q) && Routes(q, a)
    requires forall p :: p in ps <==> p in was && p != q
    ensures Agree(ps, WgRemove(live, q.publicKey)) && a !in WgRemove(live, q.publicKey)
    ensures forall b | b != a :: b in WgRemove(live, q.publicKey) <==> b in live
  {
    SoleRoute(q, a);
    hide Routes;
    forall p | p in ps
      ensures p.publicKey != q.publicKey
    {
      assert p in was && p != q;
    }
    forall b | b in live && b != a
      ensures live[b] != q.publicKey && exists p | p in ps :: Routes(p, b)
    {
      var p :| p in was && Routes(p, b);
      assert p in ps;
    }
  }

  /** However a HubPeer is cut, its file stays kept and its rerun ends where the uncut run ends. */
  lemma {:induction false} AddRerun(w: World, p: Peer, n: nat)
    requires Inv(w) && IsSpoke(p) && !Shared(PeersIn(w.conf), p.allowedIPs)
    ensures var t := AddTrace(w, p); var v := Cut(t, n);
            FileOk(v.conf) && (t.ok ==> AddTrace(v, p).ok) && Last(AddTrace(v, p)) == Last(t)
  {
    hide PeersIn, Parse, IsPeer, Listed, AddPeerIn, AllKeyed, Disjoint, Shared;
    var t := AddTrace(w, p);
    if t.ok {
      AddEditKeeps(w.conf, p);
      var conf := AddEdit(w.conf, p).value;
      assert HasPeer(conf, p);
      assert AddEdit(conf, p) == Some(conf);
      assert WgSet(WgSet(w.live, p.publicKey, p.allowedIPs), p.publicKey, p.allowedIPs) == WgSet(w.live, p.publicKey, p.allowedIPs);
    }
  }

  /** However a HubPeerRemove is cut, its file stays kept and its rerun ends where the uncut run ends. */
  lemma {:induction false} RemoveRerun(w: World, a: string, n: nat)
    requires Inv(w)
    ensures var t := RemoveTrace(w, a); var v := Cut(t, n);
            FileOk(v.conf) && RemoveTrace(v, a).ok == t.ok && Last(RemoveTrace(v, a)) == Last(t)
  {
    hide PeersIn, FileOk, FileHolder, RemovedConf, WgRemove, Routes, Sole, Agree;
    if Shared(PeersIn(w.conf), a) {
      RemoveRefused(w, a);
    } else if exists q | q in PeersIn(w.conf) :: Routes(q, a) {
      var q :| q in PeersIn(w.conf) && Routes(q, a);
      assert Sole(q);
      RemoveHeld(w, a, q);
      FileIs(w.conf);
      OnlyHolder(PeersIn(w.conf), q, a);
      HolderIs(RemovedConf(w.conf, q), a);
      RemoveStageKeeps(w, a);
    } else {
      RemoveFree(w, a);
    }
  }

  // --- Every run -------------------------------------------------------------

  datatype Op = Add(peer: Peer, cut: nat) | Remove(address: string, cut: nat)

  /** A Stage cut after some effects, and its rerun. */
  function Do(w: World, op: Op): World {
    match op
    case Add(p, n) => Last(AddTrace(Cut(AddTrace(w, p), n), p))
    case Remove(a, n) => Last(RemoveTrace(Cut(RemoveTrace(w, a), n), a))
  }

  function Run(w: World, ops: seq<Op>): World
    decreases |ops|
  {
    if ops == [] then w else Run(Do(w, ops[0]), ops[1..])
  }

  /** The same peers of several addresses. */
  ghost predicate SharedSame(w: World, v: World) {
    forall q | !Sole(q) :: q in PeersIn(w.conf) <==> q in PeersIn(v.conf)
  }

  /** One Stage, cut and rerun, adds and removes no peer of several addresses. */
  lemma {:induction false} DoKeeps(w: World, op: Op)
    requires Inv(w) && (op.Add? ==> IsSpoke(op.peer) && !Shared(PeersIn(w.conf), op.peer.allowedIPs))
    ensures Inv(Do(w, op)) && SharedSame(w, Do(w, op))
  {
    hide Inv, AddTrace, RemoveTrace, IsSpoke, PeersIn, Routes, HasPeer, Shared;
    match op {
      case Add(p, n) =>
        AddStageKeeps(w, p);
        AddRerun(w, p, n);
        SpokeSole(p);
      case Remove(a, n) =>
        RemoveStageKeeps(w, a);
        RemoveRerun(w, a, n);
        SharedStay(w, a);
    }
  }

  lemma SpokeSole(p: Peer)
    requires IsSpoke(p)
    ensures Sole(p) && OneAddress(p)
  {
    hide IsPeer, Listed;
  }

  lemma SharedStay(w: World, a: string)
    ensures !Shared(PeersIn(w.conf), a) ==> forall q | q in PeersIn(w.conf) && Routes(q, a) :: Sole(q)
  {
    hide PeersIn, Routes, Sole;
  }

  /**
   * Over any run whose added addresses are listed by no peer of several addresses, the file
   * stays kept, both stores route the same addresses to the same keys, and the peers of
   * several addresses are the ones there were.
   */
  lemma {:induction false} RunKeeps(w: World, ops: seq<Op>)
    requires Inv(w) && forall op | op in ops && op.Add? :: IsSpoke(op.peer) && !Shared(PeersIn(w.conf), op.peer.allowedIPs)
    ensures Inv(Run(w, ops)) && SharedSame(w, Run(w, ops))
    decreases |ops|
  {
    hide Inv, AddTrace, RemoveTrace, IsSpoke, PeersIn, Do, Routes, Sole;
    if ops != [] {
      var op := ops[0];
      assert op in ops && forall o | o in ops[1..] :: o in ops;
      DoKeeps(w, op);
      RunKeeps(Do(w, op), ops[1..]);
    }
  }

  /** A HubPeer its Probe skips, because the live interface routes the address to the key, is in the file too. */
  lemma SkippedAgrees(w: World, p: Peer)
    requires Inv(w) && p.allowedIPs in w.live && w.live[p.allowedIPs] == p.publicKey && !Shared(PeersIn(w.conf), p.allowedIPs)
    ensures HasPeer(w.conf, p)
  {
    hide PeersIn, FileOk, Routes, Shared;
    var q :| q in PeersIn(w.conf) && Routes(q, p.allowedIPs);
    HolderHas(w.conf, q, p.allowedIPs);
  }

  /**
   * AddPeer compares whole AllowedIPs values: after an accepted edit of any file the address
   * is held once exactly when no peer listed it before, alone or among others.
   */
  lemma {:induction false} AddHoldsOnce(conf: Lines, p: Peer)
    requires IsSpoke(p) && AddEdit(conf, p).Some? && !HasPeer(conf, p)
    ensures Holders(PeersIn(AddEdit(conf, p).value), p.allowedIPs) == Holders(PeersIn(conf), p.allowedIPs) + [p]
    ensures |Holders(PeersIn(AddEdit(conf, p).value), p.allowedIPs)| == 1 <==>
            forall q | q in PeersIn(conf) :: p.allowedIPs !in Listed(q.allowedIPs)
  {
    hide PeersIn, IsPeer, Listed;
    PeersAdd(conf, p);
    PlusNewlineKeeps(Added(conf, p));
    HoldersAppend(PeersIn(conf), [p], p.allowedIPs);
    assert p.allowedIPs == [p.allowedIPs][0];
    assert Holders([p], p.allowedIPs) == [p] by { assert [p][1..] == []; }
    NoHolder(PeersIn(conf), p.allowedIPs);
  }

  /**
   * A file with one peer of the addresses a and b: AddPeer accepts a peer of b, and the file
   * then holds b twice; HubPeerRemove refuses it from there on.
   */
  lemma {:induction false} AddedTwice()
    ensures var conf := Added([""], Peer("x", "k", "a,b"));
            && PeersIn(conf) == [Peer("x", "k", "a,b")]
            && AddPeerIn(conf, Peer("y", "l", "b")).Some?
            && Holders(PeersIn(AddPeerIn(conf, Peer("y", "l", "b")).value), "b") == [Peer("x", "k", "a,b"), Peer("y", "l", "b")]
            && FileHolder(PeersIn(AddPeerIn(conf, Peer("y", "l", "b")).value), "b") == Refused
  {
    var p, q := Peer("x", "k", "a,b"), Peer("y", "l", "b");
    TwoPeers();
    ListedTwo();
    NoPeers();
    hide *;
    PeersAdd([""], p);
    assert !Clashes([], p) by { NoClash(p); }
    AddedIs([""], p);
    assert PeersIn(Added([""], p)) == [] + [p] == [p];
    PeersAdd(Added([""], p), q);
    assert PeersIn(AddPeerIn(Added([""], p), q).value) == [p] + [q] == [p, q];
    TwoHolders(p, q, "b");
  }

  lemma NoClash(p: Peer)
    ensures !Clashes([], p)
  {}

  lemma AddedIs(conf: Lines, p: Peer)
    ensures !Clashes(PeersIn(conf), p) ==> AddPeerIn(conf, p) == Some(Added(conf, p))
  {
    hide PeersIn, Clashes, Added;
  }

  lemma TwoHolders(p: Peer, q: Peer, a: string)
    requires a in Listed(p.allowedIPs) && a in Listed(q.allowedIPs) && |Listed(p.allowedIPs)| > 1
    ensures Holders([p, q], a) == [p, q] && FileHolder([p, q], a) == Refused
  {
    hide Listed;
    assert [p, q][1..] == [q] && [q][1..] == [];
    assert Holders([q], a) == [q];
    assert Holders([p, q], a) == [p, q] && p in [p, q];
  }

  lemma TwoPeers()
    ensures IsPeer(Peer("x", "k", "a,b")) && IsPeer(Peer("y", "l", "b"))
  {}

  lemma ListedTwo()
    ensures Listed("a,b") == ["a", "b"] && Listed("b") == ["b"]
  {
    SplitPiece("a", "b", ',');
    SplitPiece("b", "", ',');
    assert "a" + [','] + "b" == "a,b";
    assert Split("a,b", ',') == ["a", "b"] && Split("b", ',') == ["b"];
    assert TrimSpace("a") == "a" && TrimSpace("b") == "b" by {
      TrimSpaceIs("", "a", "");
      TrimSpaceIs("", "b", "");
      assert "" + "a" + "" == "a" && "" + "b" + "" == "b";
    }
    hide Split, TrimSpace;
  }

  lemma {:induction false} NoHolder(ps: seq<Peer>, a: string)
    ensures Holders(ps, a) == [] <==> forall q | q in ps :: a !in Listed(q.allowedIPs)
  {
    hide Listed;
    if ps != [] {
      NoHolder(ps[1..], a);
      assert ps == [ps[0]] + ps[1..];
    }
  }
}
