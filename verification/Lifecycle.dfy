/**
 * One Worker's life in an environment: node replace, node add and the Reset over every Worker
 * (tools/kluster/cmd/node_replace.go, node_add.go, node_remove.go and reset.go), each cut
 * after any of its effects.
 */
module Lifecycle {
  import opened Text
  import I = Intent

  type Name = string

  type Addr = nat

  type Key = nat

  /**
   * A server: its host key, whether that key is rotated, its WireGuard key once it has one,
   * and whether it joined, which leaves kubelet.conf on it and the kubelet running.
   */
  datatype Server = Server(id: nat, ip: Addr, host: Key, rotated: bool, wg: Option<Key>, joined: bool)

  /** A Node, and the server whose kubelet registered it: taints and labels come from there. */
  datatype Node = Node(ready: bool, cordoned: bool, id: nat)

  datatype World = World(
    servers: map<Name, Server>,
    nodes: map<Name, Node>,
    file: map<Addr, Key>,        // the hub's peers in its file
    live: map<Addr, Key>,        // and on its interface
    pins: map<Addr, seq<Key>>)

  /** What a run makes anew: the server Terraform creates, and keys. */
  datatype Fresh = Fresh(id: nat, ip: Addr, seed: Key, host: Key, wg: Key)

  /** One Worker's run. */
  datatype Job = Job(name: Name, vpn: Addr, anew: Fresh)

  // --- Effects ----------------------------------------------------------------------

  datatype Effect =
    | Drain | DeleteNode | FileOut | LiveOut              // retireStages
    | DropPin(addr: Addr)                                 // dropPins
    | Destroy | Create | PinSeed                          // Replacement.Apply, CreateWorkers
    | RotatePin | RotateHost | RotateDone                 // RotateHostKey
    | Spoke                                               // preJoinStages
    | FileIn | LiveIn                                     // HubPeer
    | PinVpn                                              // pinVPNAddress
    | Join | Ready                                        // Ready: the wait in which the Node turns Ready

  /** An effect takes place; without it the run stops with an error. */
  predicate Can(j: Job, e: Effect, w: World) {
    match e
    case RotatePin | RotateHost | RotateDone =>
      j.name in w.servers && w.servers[j.name].ip in w.pins && w.servers[j.name].host in w.pins[w.servers[j.name].ip]
    case FileIn | LiveIn =>
      // AddPeer refuses an address that another key holds.
      && j.name in w.servers && w.servers[j.name].wg.Some?
      && (j.vpn in w.file ==> w.file[j.vpn] == w.servers[j.name].wg.value)
    case PinSeed | Spoke | PinVpn | Join => j.name in w.servers
    case Ready => j.name in w.nodes && j.name in w.servers && w.nodes[j.name].id == w.servers[j.name].id
    case DeleteNode => j.name in w.nodes ==> w.nodes[j.name].cordoned
    case _ => true
  }

  function Do(j: Job, e: Effect, w: World): World
    requires Can(j, e, w)
  {
    var name, anew := j.name, j.anew;
    match e
    case Drain => if name in w.nodes then w.(nodes := w.nodes[name := w.nodes[name].(cordoned := true)]) else w
    case DeleteNode => w.(nodes := w.nodes - {name})
    case FileOut => w.(file := w.file - {j.vpn})
    case LiveOut => w.(live := w.live - {j.vpn})
    case DropPin(a) => w.(pins := w.pins - {a})
    case Destroy => w.(servers := w.servers - {name})
    case Create => w.(servers := w.servers[name := Server(anew.id, anew.ip, anew.seed, false, None, false)])
    case PinSeed => w.(pins := w.pins[w.servers[name].ip := [anew.seed]])
    case RotatePin =>
      var s := w.servers[name];
      if s.rotated then w else w.(pins := w.pins[s.ip := w.pins[s.ip] + [anew.host]])
    case RotateHost =>
      var s := w.servers[name];
      if s.rotated then w else w.(servers := w.servers[name := s.(host := anew.host, rotated := true)])
    case RotateDone =>
      var s := w.servers[name];
      w.(pins := w.pins[s.ip := [s.host]])
    case Spoke =>
      var s := w.servers[name];
      if s.wg.Some? then w else w.(servers := w.servers[name := s.(wg := Some(anew.wg))])
    case FileIn => w.(file := w.file[j.vpn := w.servers[name].wg.value])
    case LiveIn => w.(live := w.live[j.vpn := w.servers[name].wg.value])
    case PinVpn => w.(pins := w.pins[j.vpn := [w.servers[name].host]])
    case Join =>
      // Skipped over a server that joined: a Node deleted since is not registered again.
      var s := w.servers[name];
      if s.joined then w
      else
        w.(servers := w.servers[name := s.(joined := true)],
           nodes := if name in w.nodes then w.nodes else w.nodes[name := Node(false, false, s.id)])
    case Ready => w.(nodes := w.nodes[name := w.nodes[name].(ready := true)])
  }

  datatype End = End(w: World, ok: bool)

  /** The effects in order, up to the first that cannot take place. */
  function After(j: Job, es: seq<Effect>, w: World): End
    decreases |es|
  {
    if es == [] then End(w, true)
    else if !Can(j, es[0], w) then End(w, false)
    else After(j, es[1..], Do(j, es[0], w))
  }

  function RetireEffects(vpn: Addr, ip: Addr): seq<Effect> {
    [Drain, DeleteNode, FileOut, LiveOut, DropPin(vpn), DropPin(ip)]
  }

  function BuildEffects(): seq<Effect> {
    [RotatePin, RotateHost, RotateDone, Spoke, FileIn, LiveIn, PinVpn, Join, Ready]
  }

  function ReplaceEffects(vpn: Addr, ip: Addr): seq<Effect> {
    RetireEffects(vpn, ip) + [Destroy, Create, PinSeed] + BuildEffects()
  }

  function AddEffects(absent: bool): seq<Effect> {
    (if absent then [Create, PinSeed] else []) + BuildEffects()
  }

  lemma {:induction false} AfterAppend(j: Job, a: seq<Effect>, b: seq<Effect>, w: World)
    ensures After(j, a + b, w) == if After(j, a, w).ok then After(j, b, After(j, a, w).w) else After(j, a, w)
    decreases |a|
  {
    hide Can, Do;
    if a == [] {
      assert a + b == b;
    } else {
      assert (a + b)[1..] == a[1..] + b;
      if Can(j, a[0], w) {
        AfterAppend(j, a[1..], b, Do(j, a[0], w));
      }
    }
  }

  // --- What a Worker's runs keep --------------------------------------------------------

  /** The Node is the server's own, which joined, and so is the hub's peer, in the file and on the interface. */
  predicate Sound(j: Job, w: World) {
    && (j.name in w.nodes ==> j.name in w.servers && w.nodes[j.name].id == w.servers[j.name].id && w.servers[j.name].joined)
    && (j.vpn in w.file ==> j.name in w.servers && w.servers[j.name].wg == Some(w.file[j.vpn]))
    && (j.vpn in w.live ==> j.name in w.servers && w.servers[j.name].wg == Some(w.live[j.vpn]))
  }

  /** The server is a Ready Node of its own, a peer of the hub, and pinned at both addresses. */
  predicate Joined(j: Job, w: World) {
    && j.name in w.servers && w.servers[j.name].rotated && w.servers[j.name].wg.Some? && w.servers[j.name].joined
    && var s := w.servers[j.name];
       && j.name in w.nodes && w.nodes[j.name] == Node(true, false, s.id)
       && j.vpn in w.file && j.vpn in w.live && w.file[j.vpn] == s.wg.value && w.live[j.vpn] == s.wg.value
       && s.ip in w.pins && w.pins[s.ip] == [s.host] && j.vpn in w.pins && w.pins[j.vpn] == [s.host]
  }

  /** Nothing of the Worker but its server is left: Terraform may destroy it. */
  predicate Out(j: Job, w: World) {
    j.name !in w.nodes && j.vpn !in w.file && j.vpn !in w.live
  }

  /** kluster can log in: the server shows a key that is pinned at its address. */
  predicate LogsIn(j: Job, w: World) {
    j.name in w.servers && w.servers[j.name].ip in w.pins && w.servers[j.name].host in w.pins[w.servers[j.name].ip]
  }

  predicate Tame(e: Effect) {
    !e.Destroy? && !e.Create?
  }

  /** Every effect but the destruction of a server that is still a member keeps Sound, and so does creating one over nothing. */
  lemma DoKeepsSound(j: Job, e: Effect, w: World)
    requires Can(j, e, w) && Sound(j, w) && (Tame(e) || Out(j, w))
    ensures Sound(j, Do(j, e, w))
    ensures Out(j, w) && !e.FileIn? && !e.LiveIn? && !e.Join? ==> Out(j, Do(j, e, w))
  {}

  /** Any cut of effects that destroy and create nothing, or of any effects while the Worker is out and stays out. */
  lemma {:induction false} CutSound(j: Job, es: seq<Effect>, w: World, cut: nat)
    requires Sound(j, w) && cut <= |es|
    requires (forall e | e in es :: Tame(e)) || (Out(j, w) && forall e | e in es :: !e.FileIn? && !e.LiveIn? && !e.Join?)
    ensures Sound(j, After(j, es[..cut], w).w)
    ensures Out(j, w) && (forall e | e in es :: !e.FileIn? && !e.LiveIn? && !e.Join?) ==> Out(j, After(j, es[..cut], w).w)
    decreases |es|
  {
    hide Can, Do, Sound, Out;
    if cut > 0 {
      assert es[0] in es && es[..cut][0] == es[0] && es[..cut][1..] == es[1..][..cut - 1];
      assert forall e | e in es[1..] :: e in es;
      if Can(j, es[0], w) {
        DoKeepsSound(j, es[0], w);
        CutSound(j, es[1..], Do(j, es[0], w), cut - 1);
      }
    }
  }

  lemma RetireEnds(j: Job, ip: Addr, w: World)
    ensures var r := After(j, RetireEffects(j.vpn, ip), w);
            && r.ok && Out(j, r.w) && r.w.servers == w.servers && j.vpn !in r.w.pins && ip !in r.w.pins
  {
    var w4 := Do(j, LiveOut, Do(j, FileOut, Do(j, DeleteNode, Do(j, Drain, w))));
    After4(j, Drain, DeleteNode, FileOut, LiveOut, w);
    After2(j, DropPin(j.vpn), DropPin(ip), w4);
    assert RetireEffects(j.vpn, ip) == [Drain, DeleteNode, FileOut, LiveOut] + [DropPin(j.vpn), DropPin(ip)];
    AfterAppend(j, [Drain, DeleteNode, FileOut, LiveOut], [DropPin(j.vpn), DropPin(ip)], w);
    hide After;
  }

  lemma After2(j: Job, a: Effect, b: Effect, w: World)
    requires Can(j, a, w) && Can(j, b, Do(j, a, w))
    ensures After(j, [a, b], w) == End(Do(j, b, Do(j, a, w)), true)
  {
    hide Can, Do;
    assert [a, b][1..] == [b] && [b][1..] == [];
    assert After(j, [b], Do(j, a, w)) == End(Do(j, b, Do(j, a, w)), true);
  }

  lemma CreateEnds(j: Job, w: World)
    requires Out(j, w)
    ensures var r := After(j, [Create, PinSeed], w);
            && r.ok && Out(j, r.w) && Sound(j, r.w) && LogsIn(j, r.w)
            && r.w.servers[j.name] == Server(j.anew.id, j.anew.ip, j.anew.seed, false, None, false)
            && (forall a | a != j.anew.ip && a !in w.pins :: a !in r.w.pins)
  {
    var w1 := Do(j, Create, w);
    assert [Create, PinSeed][1..] == [PinSeed];
    assert [PinSeed][1..] == [];
    assert After(j, [PinSeed], w1) == End(Do(j, PinSeed, w1), true);
  }

  /** The rotation and the spoke: the served key alone is pinned, and the server has a WireGuard key. */
  lemma {:induction false} RotateEnds(j: Job, w: World)
    requires LogsIn(j, w) && Sound(j, w)
    ensures var r := After(j, [RotatePin, RotateHost, RotateDone, Spoke], w);
            && r.ok && Sound(j, r.w) && j.name in r.w.servers
            && var s, o := r.w.servers[j.name], w.servers[j.name];
               && s.id == o.id && s.ip == o.ip && s.joined == o.joined && s.rotated && s.wg.Some?
               && s.ip in r.w.pins && r.w.pins[s.ip] == [s.host]
               && r.w.nodes == w.nodes && r.w.file == w.file && r.w.live == w.live
  {
    hide *;
    RotateSteps(j, w);
    var w2 := Do(j, RotateHost, Do(j, RotatePin, w));
    SpokeSteps(j, w2);
    After4(j, RotatePin, RotateHost, RotateDone, Spoke, w);
  }

  lemma RotateSteps(j: Job, w: World)
    requires LogsIn(j, w) && Sound(j, w)
    ensures Can(j, RotatePin, w) && Can(j, RotateHost, Do(j, RotatePin, w))
    ensures var w2 := Do(j, RotateHost, Do(j, RotatePin, w));
            && LogsIn(j, w2) && Sound(j, w2) && j.name in w.servers && j.name in w2.servers && w2.servers[j.name].rotated
            && w2.servers[j.name].id == w.servers[j.name].id && w2.servers[j.name].ip == w.servers[j.name].ip
            && w2.servers[j.name].joined == w.servers[j.name].joined
            && w2.nodes == w.nodes && w2.file == w.file && w2.live == w.live
  {}

  lemma SpokeSteps(j: Job, w: World)
    requires LogsIn(j, w) && Sound(j, w) && j.name in w.servers && w.servers[j.name].rotated
    ensures Can(j, RotateDone, w) && Can(j, Spoke, Do(j, RotateDone, w))
    ensures var v := Do(j, Spoke, Do(j, RotateDone, w));
            && Sound(j, v) && j.name in v.servers
            && var s, o := v.servers[j.name], w.servers[j.name];
               && s.id == o.id && s.ip == o.ip && s.joined == o.joined && s.rotated && s.wg.Some?
               && s.ip in v.pins && v.pins[s.ip] == [s.host]
               && v.nodes == w.nodes && v.file == w.file && v.live == w.live
  {}

  /** Four effects that can all take place. */
  lemma After4(j: Job, a: Effect, b: Effect, c: Effect, d: Effect, w: World)
    requires Can(j, a, w) && Can(j, b, Do(j, a, w)) && Can(j, c, Do(j, b, Do(j, a, w))) &&
             Can(j, d, Do(j, c, Do(j, b, Do(j, a, w))))
    ensures After(j, [a, b, c, d], w) == End(Do(j, d, Do(j, c, Do(j, b, Do(j, a, w)))), true)
  {
    hide Can, Do;
    var w1 := Do(j, a, w);
    var w2 := Do(j, b, w1);
    var w3 := Do(j, c, w2);
    assert [a, b, c, d][1..] == [b, c, d] && [b, c, d][1..] == [c, d] && [c, d][1..] == [d] && [d][1..] == [];
    assert After(j, [d], w3) == End(Do(j, d, w3), true);
    assert After(j, [c, d], w2) == After(j, [d], w3);
    assert After(j, [b, c, d], w1) == After(j, [c, d], w2);
  }

  /** The Node is there, or the join will register it. */
  predicate Joinable(j: Job, w: World)
    requires j.name in w.servers
  {
    j.name in w.nodes || !w.servers[j.name].joined
  }

  /** The Node is there and takes pods, or the join will register one that does. */
  predicate Fit(j: Job, w: World)
    requires j.name in w.servers
  {
    if j.name in w.nodes then !w.nodes[j.name].cordoned else !w.servers[j.name].joined
  }

  lemma JoinEnds(j: Job, w: World)
    requires Sound(j, w) && j.name in w.servers && w.servers[j.name].rotated && w.servers[j.name].wg.Some?
    requires w.servers[j.name].ip in w.pins && w.pins[w.servers[j.name].ip] == [w.servers[j.name].host]
    ensures var r := After(j, [FileIn, LiveIn, PinVpn, Join, Ready], w);
            && (r.ok <==> Joinable(j, w)) && (r.ok && Joined(j, r.w) <==> Fit(j, w))
            && r.w.servers == w.servers[j.name := w.servers[j.name].(joined := true)]
  {
    hide *;
    PeerSteps(j, w);
    var w2 := Do(j, LiveIn, Do(j, FileIn, w));
    MemberSteps(j, w2);
    FitSame(j, w, w2);
    After4(j, FileIn, LiveIn, PinVpn, Join, w);
    ReadyEnds(j, Do(j, Join, Do(j, PinVpn, w2)));
    AfterAppend(j, [FileIn, LiveIn, PinVpn, Join], [Ready], w);
    assert [FileIn, LiveIn, PinVpn, Join] + [Ready] == [FileIn, LiveIn, PinVpn, Join, Ready];
  }

  lemma FitSame(j: Job, w: World, v: World)
    requires j.name in w.servers && v.servers == w.servers && v.nodes == w.nodes
    ensures Fit(j, w) == Fit(j, v) && Joinable(j, w) == Joinable(j, v)
  {}

  lemma PeerSteps(j: Job, w: World)
    requires Sound(j, w) && j.name in w.servers && w.servers[j.name].wg.Some?
    ensures Can(j, FileIn, w) && Can(j, LiveIn, Do(j, FileIn, w))
    ensures var v := Do(j, LiveIn, Do(j, FileIn, w));
            && Sound(j, v) && v.servers == w.servers && v.nodes == w.nodes && v.pins == w.pins
            && j.vpn in v.file && j.vpn in v.live
  {}

  lemma MemberSteps(j: Job, w: World)
    requires Sound(j, w) && j.name in w.servers && w.servers[j.name].rotated && w.servers[j.name].wg.Some?
    requires w.servers[j.name].ip in w.pins && w.pins[w.servers[j.name].ip] == [w.servers[j.name].host]
    requires j.vpn in w.file && j.vpn in w.live
    ensures Can(j, PinVpn, w) && Can(j, Join, Do(j, PinVpn, w))
    ensures var v := Do(j, Join, Do(j, PinVpn, w));
            && v.servers == w.servers[j.name := w.servers[j.name].(joined := true)]
            && (Can(j, Ready, v) <==> Joinable(j, w)) && (Can(j, Ready, v) <==> j.name in v.nodes)
            && (j.name in v.nodes ==> (Joined(j, v.(nodes := v.nodes[j.name := v.nodes[j.name].(ready := true)])) <==> Fit(j, w)))
            && (Fit(j, w) ==> Joinable(j, w))
  {}

  lemma ReadyEnds(j: Job, w: World)
    ensures After(j, [Ready], w) ==
            if Can(j, Ready, w) && j.name in w.nodes then End(w.(nodes := w.nodes[j.name := w.nodes[j.name].(ready := true)]), true)
            else End(w, false)
  {
    assert [Ready][1..] == [];
  }

  /**
   * A build that can log in ends without an error exactly when the Node is there or the
   * server never joined, and joined exactly when besides no Node is left cordoned.
   */
  lemma {:induction false} BuildEnds(j: Job, w: World)
    requires LogsIn(j, w) && Sound(j, w)
    ensures var r := After(j, BuildEffects(), w);
            && (r.ok <==> Joinable(j, w)) && (r.ok && Joined(j, r.w) <==> Fit(j, w))
            && j.name in r.w.servers && r.w.servers[j.name].id == w.servers[j.name].id && r.w.servers[j.name].ip == w.servers[j.name].ip
            && (forall a | a != j.vpn && a != w.servers[j.name].ip && a !in w.pins :: a !in r.w.pins)
  {
    var a, b := [RotatePin, RotateHost, RotateDone, Spoke], [FileIn, LiveIn, PinVpn, Join, Ready];
    assert BuildEffects() == a + b;
    hide After, Sound, Joined;
    AfterAppend(j, a, b, w);
    RotateEnds(j, w);
    JoinEnds(j, After(j, a, w).w);
    BuildPins(j, w);
  }

  /** The build pins the VPN address and the server's own, and no other. */
  lemma BuildPins(j: Job, w: World)
    requires LogsIn(j, w)
    ensures forall a | a != j.vpn && a != w.servers[j.name].ip && a !in w.pins :: a !in After(j, BuildEffects(), w).w.pins
  {
    assert forall e | e in BuildEffects() :: Tame(e) && !e.DropPin?;
    TamePins(j, BuildEffects(), {j.vpn, w.servers[j.name].ip}, w);
  }

  lemma {:induction false} TamePins(j: Job, es: seq<Effect>, own: set<Addr>, w: World)
    requires j.vpn in own && (j.name in w.servers ==> w.servers[j.name].ip in own) && forall e | e in es :: Tame(e) && !e.DropPin?
    ensures forall a | a !in own && a !in w.pins :: a !in After(j, es, w).w.pins
    decreases |es|
  {
    if es != [] && Can(j, es[0], w) {
      assert es[0] in es && forall e | e in es[1..] :: e in es;
      TamePin(j, es[0], own, w);
      hide Can, Do;
      TamePins(j, es[1..], own, Do(j, es[0], w));
    }
  }

  lemma TamePin(j: Job, e: Effect, own: set<Addr>, w: World)
    requires j.vpn in own && (j.name in w.servers ==> w.servers[j.name].ip in own) && Tame(e) && !e.DropPin? && Can(j, e, w)
    ensures var v := Do(j, e, w);
            (j.name in v.servers ==> v.servers[j.name].ip in own) && forall a | a !in own && a !in w.pins :: a !in v.pins
  {}

  lemma {:induction false} ReplaceEnds(j: Job, ip: Addr, w: World)
    ensures var r := After(j, ReplaceEffects(j.vpn, ip), w);
            && r.ok && Joined(j, r.w) && r.w.servers[j.name].id == j.anew.id && r.w.servers[j.name].ip == j.anew.ip
            && (ip != j.anew.ip && ip != j.vpn ==> ip !in r.w.pins)
  {
    var a, b := RetireEffects(j.vpn, ip), [Create, PinSeed];
    assert ReplaceEffects(j.vpn, ip) == a + ([Destroy] + (b + BuildEffects()));
    AfterAppend(j, a, [Destroy] + (b + BuildEffects()), w);
    RetireEnds(j, ip, w);
    var w1 := After(j, a, w).w;
    AfterAppend(j, [Destroy], b + BuildEffects(), w1);
    DestroyEnds(j, w1);
    var w2 := Do(j, Destroy, w1);
    AfterAppend(j, b, BuildEffects(), w2);
    CreateEnds(j, w2);
    hide After, Sound, LogsIn, Joined, BuildEffects, RetireEffects;
    BuildEnds(j, After(j, b, w2).w);
  }

  lemma DestroyEnds(j: Job, w: World)
    requires Out(j, w)
    ensures After(j, [Destroy], w) == End(Do(j, Destroy, w), true) && Out(j, Do(j, Destroy, w)) && Do(j, Destroy, w).pins == w.pins
  {
    assert [Destroy][1..] == [];
  }

  /** A node add run through: over nothing it ends joined; over a server as the build does, or at the login. */
  lemma {:induction false} AddEnds(j: Job, w: World)
    requires Sound(j, w)
    ensures var r := After(j, AddEffects(j.name !in w.servers), w);
            if j.name !in w.servers then r.ok && Joined(j, r.w) && r.w.servers[j.name].id == j.anew.id
            else
              && (r.ok <==> LogsIn(j, w) && Joinable(j, w))
              && (r.ok && Joined(j, r.w) <==> LogsIn(j, w) && Fit(j, w))
              && (r.ok ==> j.name in r.w.servers && r.w.servers[j.name].id == w.servers[j.name].id)
  {
    if j.name in w.servers {
      assert AddEffects(false) == BuildEffects();
      if LogsIn(j, w) {
        BuildEnds(j, w);
      } else {
        assert BuildEffects()[0] == RotatePin && !Can(j, RotatePin, w);
      }
    } else {
      AfterAppend(j, [Create, PinSeed], BuildEffects(), w);
      CreateEnds(j, w);
      hide After, Sound, LogsIn, Joined, BuildEffects;
      BuildEnds(j, After(j, [Create, PinSeed], w).w);
    }
  }

  /** A node replace cut after any effect leaves the Worker's records sound. */
  lemma {:induction false} ReplaceCutSound(j: Job, ip: Addr, w: World, cut: nat)
    requires Sound(j, w) && cut <= |ReplaceEffects(j.vpn, ip)|
    ensures Sound(j, After(j, ReplaceEffects(j.vpn, ip)[..cut], w).w)
  {
    var a, m, b := RetireEffects(j.vpn, ip), [Destroy, Create, PinSeed], BuildEffects();
    var all := ReplaceEffects(j.vpn, ip);
    assert all == a + (m + b);
    if cut <= |a| {
      assert all[..cut] == a[..cut];
      CutSound(j, a, w, cut);
    } else {
      var w1 := After(j, a, w).w;
      RetireEnds(j, ip, w);
      CutSound(j, a, w, |a|);
      assert a[..|a|] == a;
      SwapCutSound(j, w1, cut - |a|);
      assert all[..cut] == a + (m + b)[..cut - |a|];
      AfterAppend(j, a, (m + b)[..cut - |a|], w);
    }
  }

  lemma {:induction false} SwapCutSound(j: Job, w: World, cut: nat)
    requires Sound(j, w) && Out(j, w) && cut <= |[Destroy, Create, PinSeed] + BuildEffects()|
    ensures Sound(j, After(j, ([Destroy, Create, PinSeed] + BuildEffects())[..cut], w).w)
  {
    hide After, Sound, Out, BuildEffects;
    TameBuild();
    var m, b := [Destroy, Create, PinSeed], BuildEffects();
    if cut <= |m| {
      assert (m + b)[..cut] == m[..cut];
      CutSound(j, m, w, cut);
    } else {
      assert (m + b)[..cut] == m + b[..cut - |m|];
      AfterAppend(j, m, b[..cut - |m|], w);
      CutSound(j, m, w, |m|);
      assert m[..|m|] == m;
      if After(j, m, w).ok {
        CutSound(j, b, After(j, m, w).w, cut - |m|);
      }
    }
  }

  lemma TameBuild()
    ensures forall e | e in BuildEffects() :: Tame(e)
  {}

  /** And so does a node add, over no server or over one it resumes. */
  lemma {:induction false} AddCutSound(j: Job, w: World, cut: nat)
    requires Sound(j, w) && cut <= |AddEffects(j.name !in w.servers)|
    ensures Sound(j, After(j, AddEffects(j.name !in w.servers)[..cut], w).w)
  {
    var m, b := [Create, PinSeed], BuildEffects();
    assert j.name in w.servers ==> AddEffects(false) == b;
    assert j.name !in w.servers ==> AddEffects(true) == m + b && Out(j, w);
    TameBuild();
    hide *;
    if j.name in w.servers {
      CutSound(j, b, w, cut);
    } else if cut <= |m| {
      assert (m + b)[..cut] == m[..cut];
      CutSound(j, m, w, cut);
    } else {
      assert (m + b)[..cut] == m + b[..cut - |m|];
      AfterAppend(j, m, b[..cut - |m|], w);
      CutSound(j, m, w, |m|);
      assert m[..|m|] == m;
      if After(j, m, w).ok {
        CutSound(j, b, After(j, m, w).w, cut - |m|);
      }
    }
  }

  // --- What a Worker's runs leave alone ----------------------------------------------------

  ghost predicate MembersSame(name: Name, w: World, v: World) {
    && (forall m | m != name :: (m in w.servers <==> m in v.servers) && (m in w.nodes <==> m in v.nodes))
    && (forall m | m != name && m in w.servers :: v.servers[m] == w.servers[m])
    && (forall m | m != name && m in w.nodes :: v.nodes[m] == w.nodes[m])
  }

  ghost predicate PeersSame(vpn: Addr, w: World, v: World) {
    && (forall a | a != vpn :: (a in w.file <==> a in v.file) && (a in w.live <==> a in v.live))
    && (forall a | a != vpn && a in w.file :: v.file[a] == w.file[a])
    && (forall a | a != vpn && a in w.live :: v.live[a] == w.live[a])
  }

  ghost predicate PinsSame(own: set<Addr>, w: World, v: World) {
    && (forall a | a !in own :: a in w.pins <==> a in v.pins)
    && (forall a | a !in own && a in w.pins :: v.pins[a] == w.pins[a])
  }

  /** v differs from w in what is the job's own: its name, its VPN address' peer, the pins at own. */
  ghost predicate OthersSame(j: Job, own: set<Addr>, w: World, v: World) {
    MembersSame(j.name, w, v) && PeersSame(j.vpn, w, v) && PinsSame(own, w, v)
  }

  predicate Owns(j: Job, own: set<Addr>, w: World) {
    j.vpn in own && j.anew.ip in own && (j.name in w.servers ==> w.servers[j.name].ip in own)
  }

  lemma DoOthers(j: Job, e: Effect, own: set<Addr>, w: World)
    requires Can(j, e, w) && Owns(j, own, w) && (e.DropPin? ==> e.addr in own)
    ensures OthersSame(j, own, w, Do(j, e, w)) && Owns(j, own, Do(j, e, w))
  {
    DoMembers(j, e, w);
    DoPeers(j, e, w);
    DoPins(j, e, own, w);
    hide MembersSame, PeersSame, PinsSame, Can, Do, Owns;
  }

  lemma DoMembers(j: Job, e: Effect, w: World)
    requires Can(j, e, w)
    ensures MembersSame(j.name, w, Do(j, e, w))
  {}

  lemma DoPeers(j: Job, e: Effect, w: World)
    requires Can(j, e, w)
    ensures PeersSame(j.vpn, w, Do(j, e, w))
  {}

  lemma DoPins(j: Job, e: Effect, own: set<Addr>, w: World)
    requires Can(j, e, w) && Owns(j, own, w) && (e.DropPin? ==> e.addr in own)
    ensures PinsSame(own, w, Do(j, e, w)) && Owns(j, own, Do(j, e, w))
  {}

  lemma {:induction false} AfterOthers(j: Job, es: seq<Effect>, own: set<Addr>, w: World)
    requires Owns(j, own, w) && forall e | e in es && e.DropPin? :: e.addr in own
    ensures OthersSame(j, own, w, After(j, es, w).w) && Owns(j, own, After(j, es, w).w)
    decreases |es|
  {
    hide Can, Do, Owns;
    if es != [] && Can(j, es[0], w) {
      assert es[0] in es && forall e | e in es[1..] :: e in es;
      DoOthers(j, es[0], own, w);
      AfterOthers(j, es[1..], own, Do(j, es[0], w));
    }
  }

  // --- The gates ------------------------------------------------------------------------------

  datatype Database = Database(instances: int, ready: int)

  predicate Healthy(d: Database) {
    d.instances > 0 && d.ready >= d.instances
  }

  predicate AllHealthy(dbs: seq<Database>) {
    forall d | d in dbs :: Healthy(d)
  }

  method DatabaseGate(dbs: seq<Database>) returns (pass: bool)
    ensures pass <==> AllHealthy(dbs)
  {
    if dbs == [] {
      return true;
    }
    var ok, not := 0, 0;
    for i := 0 to |dbs|
      invariant ok >= 0 && not >= 0 && (not == 0 <==> AllHealthy(dbs[..i]))
    {
      assert dbs[..i + 1] == dbs[..i] + [dbs[i]];
      if Healthy(dbs[i]) {
        ok := ok + 1;
      } else {
        not := not + 1;
      }
    }
    assert dbs[..|dbs|] == dbs;
    pass := not == 0;
  }

  datatype Row = Row(name: Name, controlPlane: bool, ready: bool)

  predicate ReadyWorker(r: Row) {
    !r.controlPlane && r.ready
  }

  /** Another Worker is Ready, or this one is not. */
  ghost predicate NotLast(rows: seq<Row>, name: Name) {
    (exists r :: r in rows && ReadyWorker(r) && r.name != name) || (forall r | r in rows && r.name == name :: !ReadyWorker(r))
  }

  method NotLastReadyWorker(rows: seq<Row>, name: Name) returns (ok: bool)
    ensures ok <==> NotLast(rows, name)
  {
    var serving := false;
    for i := 0 to |rows|
      invariant forall r | r in rows[..i] && ReadyWorker(r) :: r.name == name
      invariant serving <==> exists r :: r in rows[..i] && ReadyWorker(r)
    {
      var r := rows[i];
      assert rows[..i + 1] == rows[..i] + [r] && r in rows;
      assert forall x :: x in rows[..i + 1] <==> x in rows[..i] || x == r;
      if r.controlPlane || !r.ready {
        continue;
      }
      assert ReadyWorker(r) && r in rows[..i + 1];
      if r.name != name {
        return true;
      }
      serving := true;
    }
    assert rows[..|rows|] == rows;
    ok := !serving;
  }

  predicate IsReady(w: World, name: Name) {
    name in w.nodes && w.nodes[name].ready
  }

  /** What kubectl lists of the Workers. */
  ghost predicate Lists(rows: seq<Row>, w: World) {
    && (forall r | r in rows && !r.controlPlane :: r.name in w.nodes && r.ready == w.nodes[r.name].ready)
    && (forall m | m in w.nodes :: Row(m, false, w.nodes[m].ready) in rows)
  }

  ghost predicate AnotherReady(w: World, name: Name) {
    exists m :: m != name && IsReady(w, m)
  }

  lemma NotLastListed(rows: seq<Row>, w: World, name: Name)
    requires Lists(rows, w)
    ensures NotLast(rows, name) <==> AnotherReady(w, name) || !IsReady(w, name)
  {
    forall r | r in rows && ReadyWorker(r)
      ensures IsReady(w, r.name)
    {}
    forall m | IsReady(w, m)
      ensures Row(m, false, true) in rows && ReadyWorker(Row(m, false, true))
    {}
  }

  /** A Worker may leave: every database is healthy, and it is not the only Ready Worker. */
  ghost predicate Retirable(w: World, dbs: seq<Database>, name: Name) {
    AllHealthy(dbs) && (AnotherReady(w, name) || !IsReady(w, name))
  }

  // --- The commands -----------------------------------------------------------------------------

  /** What a run reads outside the World: Terraform's plan, the databases, the addresses kluster.yaml reserves. */
  datatype Reading = Reading(plan: Option<seq<I.Change>>, dbs: seq<Database>, reserved: set<Addr>)

  /** Terraform's plan is the one replace. */
  ghost predicate Exact(r: Reading, name: Name) {
    r.plan.Some? && r.plan.value != [] && forall c | c in r.plan.value :: c == I.Change(I.WorkerAddress(name), I.Replace)
  }

  ghost predicate ReplaceAccepts(j: Job, w: World, r: Reading) {
    j.name in w.servers && j.vpn !in r.reserved && Exact(r, j.name) && Retirable(w, r.dbs, j.name)
  }

  /** others: the other declared Workers. */
  ghost predicate AddAccepts(j: Job, w: World, others: set<Name>) {
    if j.name in w.servers then w.servers[j.name].ip in w.pins
    else j.name !in w.nodes && forall m | m in others :: m in w.servers
  }

  datatype Result = Refused | Stopped | Built

  /** A node replace that was accepted in w made its effects up to the cut, and each state it passed through is in the history. */
  ghost predicate ReplaceMade(j: Job, cut: nat, w: World, past: seq<World>, v: World, now: seq<World>, res: Result)
    requires j.name in w.servers
  {
    var es := ReplaceEffects(j.vpn, w.servers[j.name].ip);
    && v == After(j, es[..if cut < |es| then cut else |es|], w).w
    && (res == Built <==> cut >= |es|) && res != Refused
    && |now| >= |past| && now[..|past|] == past
    && forall h | |past| <= h < |now| :: exists n: nat :: n <= |es| && now[h] == After(j, es[..n], w).w
  }

  /** cut: how many of its effects a run makes before it dies. */
  class Operator {
    var w: World
    var left: nat
    ghost var history: seq<World>

    constructor (w: World)
      ensures this.w == w && history == []
    {
      this.w, left, history := w, 0, [];
    }

    /** Effects one after another, while the run lives and each can take place. */
    method Carry(j: Job, es: seq<Effect>) returns (alive: bool)
      modifies this
      ensures var k := if old(left) < |es| then old(left) else |es|;
              && w == After(j, es[..k], old(w)).w
              && (alive <==> k == |es| && After(j, es, old(w)).ok)
              && (alive ==> left == old(left) - k)
      ensures |history| >= |old(history)| && history[..|old(history)|] == old(history)
      ensures forall h | |old(history)| <= h < |history| :: exists n: nat :: n <= |es| && history[h] == After(j, es[..n], old(w)).w
    {
      hide Can, Do;
      ghost var was := left;
      for i := 0 to |es|
        invariant left == was - i && left >= 0
        invariant After(j, es[..i], old(w)) == End(w, true)
        invariant |history| >= |old(history)| && history[..|old(history)|] == old(history)
        invariant forall h | |old(history)| <= h < |history| :: exists n: nat :: n <= |es| && history[h] == After(j, es[..n], old(w)).w
      {
        ghost var now := w;
        assert es[..i + 1] == es[..i] + [es[i]];
        AfterAppend(j, es[..i], [es[i]], old(w));
        assert [es[i]][1..] == [];
        if left == 0 {
          return false;
        }
        if !Can(j, es[i], w) {
          StuckAfter(j, es, i, if was < |es| then was else |es|, old(w));
          return false;
        }
        w := Do(j, es[i], w);
        left := left - 1;
        assert After(j, [es[i]], now) == End(w, true);
        history := history + [w];
        assert history[|history| - 1] == After(j, es[..i + 1], old(w)).w;
      }
      assert es[..|es|] == es;
      alive := true;
    }

    /** kubectl get nodes. */
    method Nodes() returns (rows: seq<Row>)
      ensures Lists(rows, w)
    {
      rows := [];
      var names := w.nodes.Keys;
      while names != {}
        invariant names <= w.nodes.Keys
        invariant forall r | r in rows :: !r.controlPlane && r.name in w.nodes && r.ready == w.nodes[r.name].ready
        invariant forall m | m in w.nodes && m !in names :: Row(m, false, w.nodes[m].ready) in rows
        decreases |names|
      {
        var m :| m in names;
        rows := rows + [Row(m, false, w.nodes[m].ready)];
        names := names - {m};
      }
    }

    /** checkRetirable. */
    method CheckRetirable(name: Name, dbs: seq<Database>) returns (ok: bool)
      ensures ok <==> Retirable(w, dbs, name)
    {
      ok := DatabaseGate(dbs);
      if ok {
        var rows := Nodes();
        ok := NotLastReadyWorker(rows, name);
        NotLastListed(rows, w, name);
      }
    }

    /**
     * node replace: the plan is checked while the Worker is whole, and applied once it has
     * left. A plan that is not exactly the one replace changes nothing, unless it is allowed;
     * what Terraform then does to the servers is not modelled.
     */
    method Replace(j: Job, r: Reading, mode: I.Gate, cut: nat) returns (res: Result)
      requires I.Label(j.name)
      modifies this
      ensures !mode.apply ==> w == old(w) && history == old(history)
      ensures mode.apply && !mode.allowUnexpected && !Exact(r, j.name) ==> res == Refused && w == old(w) && history == old(history)
      ensures mode.apply && !ReplaceAccepts(j, old(w), r) && !(mode.allowUnexpected && !Exact(r, j.name)) ==>
                res == Refused && w == old(w) && history == old(history)
      ensures mode.apply && ReplaceAccepts(j, old(w), r) ==>
                ReplaceMade(j, cut, old(w), old(history), w, history, res)
      ensures j.vpn in r.reserved || !AllHealthy(r.dbs) || (IsReady(old(w), j.name) && !AnotherReady(old(w), j.name)) ==>
                res == Refused && w == old(w)
    {
      I.OneAdmits(j.name, I.Replace, if r.plan.Some? then r.plan.value else []);
      hide After, Do, ReplaceEffects, RetireEffects, BuildEffects, AllHealthy, I.Label, I.WorkerAddress, I.Satisfied;
      left := cut;
      if j.name !in w.servers || j.vpn in r.reserved || r.plan.None? {
        return Refused;
      }
      var ip := w.servers[j.name].ip;
      var mm := I.Check(I.One(j.name, I.Replace), r.plan.value);
      if mm != [] && mode.apply && !mode.allowUnexpected {
        return Refused;
      }
      var may := CheckRetirable(j.name, r.dbs);
      if !may {
        return Refused;
      }
      if !mode.apply {
        return Refused;
      }
      if mm != [] || r.plan.value == [] {
        var any: map<Name, Server> := *;
        w := w.(servers := any);
        return Stopped;
      }
      var alive := Carry(j, ReplaceEffects(j.vpn, ip));
      ReplaceEnds(j, ip, old(w));
      res := if alive then Built else Stopped;
    }

    /** retireWorker; removed: the entry left the Worker set. */
    method Retire(j: Job, r: Reading, mode: I.Gate, cut: nat) returns (removed: bool)
      modifies this
      ensures !mode.apply || j.vpn in r.reserved || !Retirable(old(w), r.dbs, j.name) ==> w == old(w) && !removed
      ensures !AllHealthy(r.dbs) || (IsReady(old(w), j.name) && !AnotherReady(old(w), j.name)) ==> w == old(w) && !removed
      ensures mode.apply && j.vpn !in r.reserved && Retirable(old(w), r.dbs, j.name) ==>
                var es := RetireRun(j.vpn);
                w == After(j, es[..if cut < |es| then cut else |es|], old(w)).w && (removed <==> cut >= |es|)
    {
      hide After, Do, AllHealthy;
      left := cut;
      if j.vpn in r.reserved {
        return false;
      }
      var may := CheckRetirable(j.name, r.dbs);
      if !may || !mode.apply {
        return false;
      }
      removed := Carry(j, RetireRun(j.vpn));
      RemoveEnds(j, 0, old(w));
    }

    /** deleteWorkerServer: refused over a Node, and over any plan but the one delete. */
    method Delete(j: Job, plan: Option<seq<I.Change>>, mode: I.Gate, cut: nat) returns (gone: bool)
      requires I.Label(j.name) && j.name in w.servers
      modifies this
      ensures var exact := plan.Some? && plan.value != [] && forall c | c in plan.value :: c == I.Change(I.WorkerAddress(j.name), I.Delete);
              if mode.apply && j.name !in old(w).nodes && exact then
                var es := DeleteRun(old(w).servers[j.name].ip);
                w == After(j, es[..if cut < |es| then cut else |es|], old(w)).w && (gone <==> cut >= |es|)
              else (mode.allowUnexpected && plan.Some? && !exact && mode.apply && j.name !in old(w).nodes) || (w == old(w) && !gone)
    {
      hide After, Do, I.WorkerAddress, I.Satisfied, I.Label;
      left := cut;
      if plan.None? || j.name in w.nodes {
        return false;
      }
      I.OneAdmits(j.name, I.Delete, plan.value);
      var d := I.Decide(plan.value, I.One(j.name, I.Delete), mode);
      if d != I.ToApply {
        return false;
      }
      var mm := I.Check(I.One(j.name, I.Delete), plan.value);
      if mm != [] {
        var any: map<Name, Server> := *;
        w := w.(servers := any);
        return false;
      }
      gone := Carry(j, DeleteRun(w.servers[j.name].ip));
      DeleteEnds(j, old(w).servers[j.name].ip, old(w));
    }

    /** node add of a declared Worker: its server is created, or its build resumed. */
    method Add(j: Job, others: set<Name>, mode: I.Gate, cut: nat) returns (res: Result)
      modifies this
      ensures !mode.apply || !AddAccepts(j, old(w), others) ==> res == Refused && w == old(w)
      ensures j.name !in old(w).servers && (j.name in old(w).nodes || exists m :: m in others && m !in old(w).servers) ==>
                res == Refused && w == old(w)
      ensures j.name in old(w).servers && old(w).servers[j.name].ip !in old(w).pins ==> res == Refused && w == old(w)
      ensures mode.apply && AddAccepts(j, old(w), others) ==>
                var es := AddEffects(j.name !in old(w).servers);
                && w == After(j, es[..if cut < |es| then cut else |es|], old(w)).w
                && (res == Built <==> cut >= |es| && After(j, es, old(w)).ok)
    {
      hide After, Do, AddEffects;
      left := cut;
      if j.name in w.servers {
        if w.servers[j.name].ip !in w.pins {
          return Refused;
        }
      } else {
        if j.name in w.nodes {
          return Refused;
        }
        var missing := others;
        var creates := 0;
        while missing != {}
          invariant missing <= others && creates >= 0
          invariant creates == 0 <==> forall m | m in others && m !in missing :: m in w.servers
          decreases |missing|
        {
          var m :| m in missing;
          missing := missing - {m};
          if m !in w.servers {
            creates := creates + 1;
          }
        }
        // The workers plan would create another Worker too.
        if creates > 0 {
          return Refused;
        }
      }
      if !mode.apply {
        return Refused;
      }
      var alive := Carry(j, AddEffects(j.name !in w.servers));
      res := if alive then Built else Stopped;
    }
  }

  // --- node remove ------------------------------------------------------------------------------

  /** Run 1: out of the cluster and the hub; the entry leaves the Worker set last. */
  function RetireRun(vpn: Addr): seq<Effect> {
    [Drain, DeleteNode, FileOut, LiveOut] + [DropPin(vpn)]
  }

  /** Run 2: the server. */
  function DeleteRun(ip: Addr): seq<Effect> {
    [Destroy] + [DropPin(ip)]
  }

  /** Both runs leave nothing of the Worker, whatever was there. */
  lemma {:induction false} RemoveEnds(j: Job, ip: Addr, w: World)
    ensures var a := After(j, RetireRun(j.vpn), w);
            && a.ok && Out(j, a.w) && a.w.servers == w.servers && j.vpn !in a.w.pins
            && var b := After(j, DeleteRun(ip), a.w);
               && b.ok && Out(j, b.w) && j.name !in b.w.servers && j.vpn !in b.w.pins && ip !in b.w.pins
  {
    var w4 := Do(j, LiveOut, Do(j, FileOut, Do(j, DeleteNode, Do(j, Drain, w))));
    After4(j, Drain, DeleteNode, FileOut, LiveOut, w);
    AfterAppend(j, [Drain, DeleteNode, FileOut, LiveOut], [DropPin(j.vpn)], w);
    assert [DropPin(j.vpn)][1..] == [];
    assert After(j, [DropPin(j.vpn)], w4) == End(Do(j, DropPin(j.vpn), w4), true);
    var w5 := Do(j, DropPin(j.vpn), w4);
    After2(j, Destroy, DropPin(ip), w5);
    assert DeleteRun(ip) == [Destroy, DropPin(ip)];
    hide After;
  }

  lemma DeleteEnds(j: Job, ip: Addr, w: World)
    ensures After(j, DeleteRun(ip), w).ok
  {
    After2(j, Destroy, DropPin(ip), w);
    assert DeleteRun(ip) == [Destroy, DropPin(ip)];
    hide After;
  }

  /** Either run cut anywhere leaves the Worker's records sound; run 2 starts once run 1 is through. */
  lemma {:induction false} RemoveCutSound(j: Job, ip: Addr, w: World, cut: nat)
    requires Sound(j, w)
    ensures cut <= |RetireRun(j.vpn)| ==> Sound(j, After(j, RetireRun(j.vpn)[..cut], w).w)
    ensures cut <= |DeleteRun(ip)| && Out(j, w) ==> Sound(j, After(j, DeleteRun(ip)[..cut], w).w)
  {
    hide After, Sound, Out;
    if cut <= |RetireRun(j.vpn)| {
      CutSound(j, RetireRun(j.vpn), w, cut);
    }
    if cut <= |DeleteRun(ip)| && Out(j, w) {
      CutSound(j, DeleteRun(ip), w, cut);
    }
  }

  lemma {:induction false} StuckAfter(j: Job, es: seq<Effect>, i: nat, k: nat, w: World)
    requires i < k <= |es| && After(j, es[..i], w).ok && !Can(j, es[i], After(j, es[..i], w).w)
    ensures After(j, es[..k], w) == End(After(j, es[..i], w).w, false)
    ensures !After(j, es, w).ok
  {
    hide Can, Do;
    assert es[..k] == es[..i] + es[i..k];
    AfterAppend(j, es[..i], es[i..k], w);
    assert es == es[..i] + es[i..];
    AfterAppend(j, es[..i], es[i..], w);
  }

  // --- Every crash point leads on ------------------------------------------------------------------

  /** A replace of the Worker is accepted and ends with it joined and pinned on the new server. */
  ghost predicate ReplaceGoesOn(j: Job, w: World, r: Reading) {
    && ReplaceAccepts(j, w, r)
    && var e := After(j, ReplaceEffects(j.vpn, w.servers[j.name].ip), w);
       e.ok && Joined(j, e.w) && e.w.servers[j.name].id == j.anew.id
  }

  /** An add of it is, on the server there is or on one it creates. */
  ghost predicate AddGoesOn(j: Job, w: World, others: set<Name>) {
    && AddAccepts(j, w, others)
    && var e := After(j, AddEffects(j.name !in w.servers), w);
       e.ok && Joined(j, e.w) && e.w.servers[j.name].id == if j.name in w.servers then w.servers[j.name].id else j.anew.id
  }

  /**
   * From a sound state in which the Worker may leave: with a server there, node replace goes
   * on, and with none node add does.
   */
  lemma {:induction false} LeadsOn(j: Job, w: World, r: Reading, others: set<Name>)
    requires Sound(j, w) && Exact(r, j.name) && Retirable(w, r.dbs, j.name) && j.vpn !in r.reserved
    requires forall m | m in others :: m in w.servers
    ensures if j.name in w.servers then ReplaceGoesOn(j, w, r) else AddGoesOn(j, w, others)
  {
    hide After, Joined, ReplaceEffects, AddEffects, Retirable, Exact;
    if j.name in w.servers {
      ReplaceEnds(j, w.servers[j.name].ip, w);
    } else {
      AddEnds(j, w);
    }
  }

  /** Kubelets report: any Node may have turned Ready or not, and nothing else changed. */
  ghost predicate Flip(w: World, v: World) {
    && v.servers == w.servers && v.file == w.file && v.live == w.live && v.pins == w.pins
    && (forall m :: m in v.nodes <==> m in w.nodes)
    && forall m | m in w.nodes :: v.nodes[m] == w.nodes[m].(ready := v.nodes[m].ready)
  }

  /**
   * What happens to a Worker: a command, with what it made anew and after how many effects it
   * died, or a report of the kubelets.
   */
  datatype Command = ReplaceCut(anew: Fresh, cut: nat) | AddCut(anew: Fresh, cut: nat) | Kubelets

  function JobOf(j: Job, c: Command): Job {
    if c.Kubelets? then j else j.(anew := c.anew)
  }

  /** The state after a command, accepted or not. */
  ghost predicate Runs(j: Job, c: Command, w: World, v: World) {
    var k := JobOf(j, c);
    v == w ||
    match c
    case Kubelets => Flip(w, v)
    case ReplaceCut(_, cut) =>
      j.name in w.servers && cut <= |ReplaceEffects(j.vpn, w.servers[j.name].ip)| &&
      v == After(k, ReplaceEffects(j.vpn, w.servers[j.name].ip)[..cut], w).w
    case AddCut(_, cut) =>
      cut <= |AddEffects(j.name !in w.servers)| && v == After(k, AddEffects(j.name !in w.servers)[..cut], w).w
  }

  lemma FlipSound(j: Job, w: World, v: World)
    requires Flip(w, v) && Sound(j, w)
    ensures Sound(j, v)
  {}

  /** Any number of replaces and adds, each cut anywhere, and of reports between them, leave a sound state. */
  lemma {:induction false} CutsStaySound(j: Job, commands: seq<Command>, states: seq<World>, i: nat)
    requires |states| == |commands| + 1 && i < |states| && Sound(j, states[0])
    requires forall n | 0 <= n < |commands| :: Runs(j, commands[n], states[n], states[n + 1])
    ensures Sound(j, states[i])
  {
    hide After, ReplaceEffects, AddEffects;
    if i > 0 {
      CutsStaySound(j, commands, states, i - 1);
      var c, w, v := commands[i - 1], states[i - 1], states[i];
      assert Runs(j, c, w, v);
      var k := JobOf(j, c);
      if v != w {
        match c {
          case ReplaceCut(_, cut) => ReplaceCutSound(k, w.servers[j.name].ip, w, cut);
          case AddCut(_, cut) => AddCutSound(k, w, cut);
          case Kubelets => FlipSound(j, w, v);
        }
      }
    }
  }

  /**
   * A resume: node add over a server it can log in to is accepted, and ends with the Worker
   * joined on that server if and only if the Node is there and not cordoned, or there is none
   * and the server never joined.
   */
  lemma {:induction false} AddResumes(j: Job, w: World, others: set<Name>)
    requires Sound(j, w) && LogsIn(j, w)
    ensures AddAccepts(j, w, others)
    ensures var e := After(j, AddEffects(false), w);
            && (e.ok && Joined(j, e.w) <==> if j.name in w.nodes then !w.nodes[j.name].cordoned else !w.servers[j.name].joined)
            && (e.ok ==> j.name in e.w.servers && e.w.servers[j.name].id == w.servers[j.name].id)
  {
    LoggedIn(j, w);
    hide *;
    AddEnds(j, w);
  }

  lemma LoggedIn(j: Job, w: World)
    requires LogsIn(j, w)
    ensures j.name in w.servers && forall others :: AddAccepts(j, w, others)
    ensures Fit(j, w) <==> if j.name in w.nodes then !w.nodes[j.name].cordoned else !w.servers[j.name].joined
  {}

  /**
   * Where it does not: a joined Worker whose replace, or run 1 of whose removal, dies after it
   * deleted the Node. node add takes the server for one to resume, skips the join and waits
   * for a Node that nothing registers.
   */
  lemma {:induction false} DeletedNodeNoResume(j: Job, ip: Addr, w: World, others: set<Name>)
    requires Joined(j, w)
    ensures var v := After(j, ReplaceEffects(j.vpn, ip)[..2], w).w;
            && v == After(j, RetireRun(j.vpn)[..2], w).w
            && Sound(j, v) && LogsIn(j, v) && AddAccepts(j, v, others)
            && !After(j, AddEffects(false), v).ok
  {
    assert ReplaceEffects(j.vpn, ip)[..2] == [Drain, DeleteNode] == RetireRun(j.vpn)[..2];
    var v := Do(j, DeleteNode, Do(j, Drain, w));
    After2(j, Drain, DeleteNode, w);
    assert Sound(j, v) && LogsIn(j, v) && !Joinable(j, v);
    hide After;
    AddEnds(j, v);
  }

  // --- Over any number of crashes --------------------------------------------------------------------

  /** What an accepted replace or add starts from, and what no crash of one takes away. */
  ghost predicate Safe(j: Job, w: World, others: set<Name>) {
    && Sound(j, w) && (forall m | m in others :: m in w.servers)
    && (AnotherReady(w, j.name) || !IsReady(w, j.name))
  }

  /** The state after a command that did not make its last effect, or was refused, or after a report. */
  ghost predicate Crashed(j: Job, c: Command, w: World, v: World) {
    var k := JobOf(j, c);
    v == w ||
    match c
    case Kubelets => Flip(w, v)
    case ReplaceCut(_, cut) =>
      j.name in w.servers && cut < |ReplaceEffects(j.vpn, w.servers[j.name].ip)| &&
      v == After(k, ReplaceEffects(j.vpn, w.servers[j.name].ip)[..cut], w).w
    case AddCut(_, cut) =>
      cut < |AddEffects(j.name !in w.servers)| && v == After(k, AddEffects(j.name !in w.servers)[..cut], w).w
  }

  /** Ready is the last effect, and no effect before it makes the Node Ready. */
  lemma ReadyLast(vpn: Addr, ip: Addr, absent: bool)
    ensures forall n, e | 0 <= n < |ReplaceEffects(vpn, ip)| && e in ReplaceEffects(vpn, ip)[..n] :: !e.Ready?
    ensures forall n, e | 0 <= n < |AddEffects(absent)| && e in AddEffects(absent)[..n] :: !e.Ready?
  {
    var r, a := ReplaceEffects(vpn, ip), AddEffects(absent);
    assert forall i | 0 <= i < |r| - 1 :: !r[i].Ready?;
    assert forall i | 0 <= i < |a| - 1 :: !a[i].Ready?;
    hide ReplaceEffects, AddEffects;
    forall n, e | 0 <= n < |r| && e in r[..n]
      ensures !e.Ready?
    {
      var i :| 0 <= i < n && r[..n][i] == e;
      assert r[i] == e;
    }
    forall n, e | 0 <= n < |a| && e in a[..n]
      ensures !e.Ready?
    {
      var i :| 0 <= i < n && a[..n][i] == e;
      assert a[i] == e;
    }
  }

  lemma {:induction false} NeverReady(j: Job, es: seq<Effect>, w: World)
    requires !IsReady(w, j.name) && forall e | e in es :: !e.Ready?
    ensures !IsReady(After(j, es, w).w, j.name)
    decreases |es|
  {
    if es != [] && Can(j, es[0], w) {
      assert es[0] in es && forall e | e in es[1..] :: e in es;
      DoNotReady(j, es[0], w);
      hide Can, Do, IsReady;
      NeverReady(j, es[1..], Do(j, es[0], w));
    }
  }

  lemma DoNotReady(j: Job, e: Effect, w: World)
    requires Can(j, e, w) && !IsReady(w, j.name) && !e.Ready?
    ensures !IsReady(Do(j, e, w), j.name)
  {}

  /** A crash leaves the others their servers and the Worker free to leave. */
  lemma {:induction false} CutSafe(j: Job, es: seq<Effect>, own: set<Addr>, w: World, others: set<Name>)
    requires Owns(j, own, w) && (forall e | e in es :: !e.Ready? && (e.DropPin? ==> e.addr in own))
    requires Safe(j, w, others) && j.name !in others && Sound(j, After(j, es, w).w)
    ensures Safe(j, After(j, es, w).w, others)
  {
    hide Owns, Sound, After, IsReady, OthersSame;
    var v := After(j, es, w).w;
    AfterOthers(j, es, own, w);
    ReadyStay(j, own, w, v);
    ServersStay(j, own, w, v);
    if AnotherReady(w, j.name) {
      ReadyOther(j, w, v);
    } else {
      NeverReady(j, es, w);
    }
  }

  lemma ServersStay(j: Job, own: set<Addr>, w: World, v: World)
    requires OthersSame(j, own, w, v)
    ensures forall m | m != j.name && m in w.servers :: m in v.servers
  {}

  lemma {:induction false} CrashSafe(j: Job, c: Command, w: World, v: World, others: set<Name>)
    requires Safe(j, w, others) && j.name !in others && Crashed(j, c, w, v) && !c.Kubelets?
    ensures Safe(j, v, others)
  {
    hide After, ReplaceEffects, AddEffects, AnotherReady, IsReady;
    if v != w {
      var k := JobOf(j, c);
      var own := {j.vpn, k.anew.ip} + if j.name in w.servers then {w.servers[j.name].ip} else {};
      match c {
        case ReplaceCut(_, cut) =>
          var ip := w.servers[j.name].ip;
          var es := ReplaceEffects(j.vpn, ip);
          ReadyLast(j.vpn, ip, true);
          ReplaceDrops(j.vpn, ip);
          ReplaceCutSound(k, ip, w, cut);
          assert forall e | e in es[..cut] :: e in es;
          CutSafe(k, es[..cut], own, w, others);
        case AddCut(_, cut) =>
          var es := AddEffects(j.name !in w.servers);
          ReadyLast(j.vpn, 0, j.name !in w.servers);
          AddDrops(j.name !in w.servers);
          AddCutSound(k, w, cut);
          assert forall e | e in es[..cut] :: e in es;
          CutSafe(k, es[..cut], own, w, others);
      }
    }
  }

  lemma AddDrops(absent: bool)
    ensures forall e | e in AddEffects(absent) :: !e.DropPin?
  {}

  /** A replace, or an add of a Worker that has no server, would be accepted. */
  ghost predicate Starts(j: Job, w: World, others: set<Name>, r: Reading) {
    && Sound(j, w) && (forall m | m in others :: m in w.servers) && j.vpn !in r.reserved
    && (ReplaceAccepts(j, w, r) || (j.name !in w.servers && AddAccepts(j, w, others)))
  }

  lemma StartSafe(j: Job, w: World, others: set<Name>, r: Reading)
    requires Starts(j, w, others, r)
    ensures Safe(j, w, others) && j.vpn !in r.reserved
  {}

  lemma {:induction false} CrashesSafe(j: Job, commands: seq<Command>, states: seq<World>, others: set<Name>, i: nat)
    requires |states| == |commands| + 1 && i < |states| && j.name !in others && Safe(j, states[0], others)
    requires forall n | 0 <= n < |commands| :: !commands[n].Kubelets? && Crashed(j, commands[n], states[n], states[n + 1])
    ensures Safe(j, states[i], others)
  {
    hide Safe, Crashed;
    if i > 0 {
      CrashesSafe(j, commands, states, others, i - 1);
      CrashSafe(j, commands[i - 1], states[i - 1], states[i], others);
    }
  }

  /**
   * While only kluster changes Nodes: from a state in which a replace of the Worker, or an add
   * of it without a server, is accepted, after any number of replaces and adds each cut before
   * its end, with the databases healthy again and Terraform planning the one replace it is
   * asked for, the command for what is there is accepted and ends joined and pinned.
   */
  lemma {:induction false} OwnCrashesLeadOn(j: Job, commands: seq<Command>, states: seq<World>, others: set<Name>, r0: Reading,
                                            r: Reading, anew: Fresh, i: nat)
    requires |states| == |commands| + 1 && i < |states| && j.name !in others
    requires Starts(j, states[0], others, r0)
    requires forall n | 0 <= n < |commands| :: !commands[n].Kubelets? && Crashed(j, commands[n], states[n], states[n + 1])
    requires AllHealthy(r.dbs) && Exact(r, j.name) && r.reserved == r0.reserved
    ensures var k := j.(anew := anew);
            if j.name in states[i].servers then ReplaceGoesOn(k, states[i], r) else AddGoesOn(k, states[i], others)
  {
    hide After, Joined, ReplaceEffects, AddEffects, Exact, AllHealthy, Starts, Crashed, Safe, ReplaceGoesOn, AddGoesOn;
    var k := j.(anew := anew);
    StartSafe(j, states[0], others, r0);
    CrashesSafe(j, commands, states, others, i);
    SafeLeaves(j, k, states[i], r, others);
    hide *;
    LeadsOn(k, states[i], r, others);
  }

  lemma SafeLeaves(j: Job, k: Job, w: World, r: Reading, others: set<Name>)
    requires Safe(j, w, others) && AllHealthy(r.dbs) && k.name == j.name && k.vpn == j.vpn
    ensures Sound(k, w) && Retirable(w, r.dbs, k.name) && forall m | m in others :: m in w.servers
  {
    hide AllHealthy, AnotherReady;
  }

  // --- Where readiness changes by itself ----------------------------------------------------------------

  /** A Node is only there while kluster can log in to its server. */
  predicate Reach(j: Job, w: World) {
    j.name in w.nodes ==> LogsIn(j, w)
  }

  /**
   * The only Ready Worker, and its Node is cordoned or kluster cannot log in: node replace
   * refuses to take the last one, and node add does not make it whole.
   */
  ghost predicate Held(j: Job, w: World) {
    && j.name in w.servers && IsReady(w, j.name) && !AnotherReady(w, j.name)
    && (w.nodes[j.name].cordoned || !LogsIn(j, w))
  }

  predicate KeepsLogin(e: Effect) {
    !e.DropPin? && !e.Destroy? && !e.Create? && !e.PinSeed? && !e.RotateHost?
  }

  lemma {:induction false} LoginStays(j: Job, es: seq<Effect>, w: World)
    requires LogsIn(j, w) && forall e | e in es :: KeepsLogin(e)
    ensures LogsIn(j, After(j, es, w).w)
    decreases |es|
  {
    if es != [] && Can(j, es[0], w) {
      assert es[0] in es && forall e | e in es[1..] :: e in es;
      DoLogin(j, es[0], w);
      hide Can, Do, LogsIn;
      LoginStays(j, es[1..], Do(j, es[0], w));
    }
  }

  lemma DoLogin(j: Job, e: Effect, w: World)
    requires LogsIn(j, w) && Can(j, e, w) && KeepsLogin(e)
    ensures LogsIn(j, Do(j, e, w))
  {}

  /** Any cut of a build keeps the login: the new key is pinned before it is served. */
  lemma {:induction false} BuildLogin(j: Job, w: World, cut: nat)
    requires LogsIn(j, w) && Sound(j, w) && cut <= |BuildEffects()|
    ensures LogsIn(j, After(j, BuildEffects()[..cut], w).w)
  {
    var b, h := BuildEffects(), [RotatePin, RotateHost];
    assert b == h + b[2..];
    assert forall e | e in b[2..] :: KeepsLogin(e);
    hide After, LogsIn, BuildEffects;
    RotateSteps(j, w);
    After2(j, RotatePin, RotateHost, w);
    if cut < 2 {
      assert forall e | e in b[..cut] :: e == RotatePin;
      LoginStays(j, b[..cut], w);
    } else {
      assert b[..cut] == h + b[2..][..cut - 2];
      AfterAppend(j, h, b[2..][..cut - 2], w);
      assert forall e | e in b[2..][..cut - 2] :: e in b[2..];
      LoginStays(j, b[2..][..cut - 2], Do(j, RotateHost, Do(j, RotatePin, w)));
    }
  }

  lemma {:induction false} NoNodeStays(j: Job, es: seq<Effect>, w: World)
    requires j.name !in w.nodes && forall e | e in es :: !e.Join?
    ensures j.name !in After(j, es, w).w.nodes
    decreases |es|
  {
    if es != [] && Can(j, es[0], w) {
      assert es[0] in es && forall e | e in es[1..] :: e in es;
      DoNoNode(j, es[0], w);
      hide Can, Do;
      NoNodeStays(j, es[1..], Do(j, es[0], w));
    }
  }

  lemma DoNoNode(j: Job, e: Effect, w: World)
    requires j.name !in w.nodes && Can(j, e, w) && !e.Join?
    ensures j.name !in Do(j, e, w).nodes
  {}

  lemma {:induction false} AddReach(j: Job, w: World, cut: nat)
    requires Sound(j, w) && Reach(j, w) && cut <= |AddEffects(j.name !in w.servers)|
    ensures Reach(j, After(j, AddEffects(j.name !in w.servers)[..cut], w).w)
  {
    var b := BuildEffects();
    if j.name in w.servers {
      assert AddEffects(false) == b;
      if LogsIn(j, w) {
        BuildLogin(j, w, cut);
      } else if cut > 0 {
        assert b[..cut][0] == RotatePin && !Can(j, RotatePin, w);
      }
    } else {
      NewReach(j, w, cut);
    }
  }

  /** A server created over nothing and built, cut anywhere. */
  lemma {:induction false} NewReach(j: Job, w: World, cut: nat)
    requires Out(j, w) && cut <= |[Create, PinSeed] + BuildEffects()|
    ensures Reach(j, After(j, ([Create, PinSeed] + BuildEffects())[..cut], w).w)
  {
    var m, b := [Create, PinSeed], BuildEffects();
    hide After, BuildEffects, LogsIn, Sound;
    if cut <= |m| {
      assert (m + b)[..cut] == m[..cut];
      assert forall e | e in m[..cut] :: e in m;
      NoNodeStays(j, m[..cut], w);
    } else {
      assert (m + b)[..cut] == m + b[..cut - |m|];
      AfterAppend(j, m, b[..cut - |m|], w);
      CreateEnds(j, w);
      BuildLogin(j, After(j, m, w).w, cut - |m|);
    }
  }

  lemma {:induction false} ReplaceReach(j: Job, ip: Addr, w: World, cut: nat)
    requires Reach(j, w) && cut <= |ReplaceEffects(j.vpn, ip)|
    ensures Reach(j, After(j, ReplaceEffects(j.vpn, ip)[..cut], w).w)
  {
    var a, m := RetireEffects(j.vpn, ip), [Create, PinSeed] + BuildEffects();
    var all := ReplaceEffects(j.vpn, ip);
    assert all == a + ([Destroy] + m);
    RetireEnds(j, ip, w);
    hide After, BuildEffects;
    if cut <= |a| {
      assert all[..cut] == a[..cut];
      RetireReach(j, ip, w, cut);
    } else {
      var w1 := After(j, a, w).w;
      assert all[..cut] == a + ([Destroy] + m[..cut - |a| - 1]);
      AfterAppend(j, a, [Destroy] + m[..cut - |a| - 1], w);
      AfterAppend(j, [Destroy], m[..cut - |a| - 1], w1);
      DestroyEnds(j, w1);
      NewReach(j, Do(j, Destroy, w1), cut - |a| - 1);
    }
  }

  /** The Node goes before the pins do. */
  lemma {:induction false} RetireReach(j: Job, ip: Addr, w: World, cut: nat)
    requires Reach(j, w) && cut <= |RetireEffects(j.vpn, ip)|
    ensures Reach(j, After(j, RetireEffects(j.vpn, ip)[..cut], w).w)
  {
    var a := RetireEffects(j.vpn, ip);
    if cut < 2 {
      assert cut == 0 || (a[..cut] == [Drain] && [Drain][1..] == []);
      assert cut == 1 ==> After(j, [Drain], w) == End(Do(j, Drain, w), true);
    } else {
      assert a[..cut] == [Drain, DeleteNode] + a[2..cut];
      AfterAppend(j, [Drain, DeleteNode], a[2..cut], w);
      After2(j, Drain, DeleteNode, w);
      hide After;
      NoNodeStays(j, a[2..cut], Do(j, DeleteNode, Do(j, Drain, w)));
    }
  }

  lemma FlipReach(j: Job, w: World, v: World)
    requires Flip(w, v)
    ensures Reach(j, w) ==> Reach(j, v)
  {}

  /** Nothing that happens takes a server from another Worker, or the login from a Node. */
  lemma {:induction false} CrashKeeps(j: Job, c: Command, w: World, v: World, others: set<Name>)
    requires Sound(j, w) && j.name !in others && (forall m | m in others :: m in w.servers) && Crashed(j, c, w, v)
    ensures Sound(j, v) && (forall m | m in others :: m in v.servers) && (Reach(j, w) ==> Reach(j, v))
  {
    hide After, ReplaceEffects, AddEffects, Reach, Sound, OthersSame;
    if v != w {
      var k := JobOf(j, c);
      match c {
        case Kubelets =>
          FlipSound(j, w, v);
          FlipReach(j, w, v);
        case ReplaceCut(_, cut) =>
          var ip := w.servers[j.name].ip;
          SameJob(j, k, w, v);
          ReplaceCutSound(k, ip, w, cut);
          if Reach(j, w) {
            ReplaceReach(k, ip, w, cut);
          }
          ReplaceDrops(j.vpn, ip);
          KeepsServers(k, ReplaceEffects(j.vpn, ip), {j.vpn, k.anew.ip, ip}, cut, w);
        case AddCut(_, cut) =>
          SameJob(j, k, w, v);
          AddCutSound(k, w, cut);
          if Reach(j, w) {
            AddReach(k, w, cut);
          }
          AddDrops(j.name !in w.servers);
          KeepsServers(k, AddEffects(j.name !in w.servers),
                       {j.vpn, k.anew.ip} + (if j.name in w.servers then {w.servers[j.name].ip} else {}), cut, w);
      }
    }
  }

  lemma SameJob(j: Job, k: Job, w: World, v: World)
    requires k.name == j.name && k.vpn == j.vpn
    ensures Sound(j, w) == Sound(k, w) && Reach(j, w) == Reach(k, w)
    ensures Sound(j, v) == Sound(k, v) && Reach(j, v) == Reach(k, v)
  {}

  lemma {:induction false} KeepsServers(k: Job, es: seq<Effect>, own: set<Addr>, cut: nat, w: World)
    requires cut <= |es| && Owns(k, own, w) && forall e | e in es && e.DropPin? :: e.addr in own
    ensures forall m | m != k.name && m in w.servers :: m in After(k, es[..cut], w).w.servers
  {
    hide After, Owns, OthersSame;
    assert forall e | e in es[..cut] :: e in es;
    AfterOthers(k, es[..cut], own, w);
    ServersStay(k, own, w, After(k, es[..cut], w).w);
  }

  lemma {:induction false} CrashesKeep(j: Job, commands: seq<Command>, states: seq<World>, others: set<Name>, i: nat)
    requires |states| == |commands| + 1 && i < |states| && j.name !in others
    requires Sound(j, states[0]) && forall m | m in others :: m in states[0].servers
    requires forall n | 0 <= n < |commands| :: Crashed(j, commands[n], states[n], states[n + 1])
    ensures Sound(j, states[i]) && (forall m | m in others :: m in states[i].servers)
    ensures Reach(j, states[0]) ==> Reach(j, states[i])
  {
    hide Sound, Reach, Crashed;
    if i > 0 {
      CrashesKeep(j, commands, states, others, i - 1);
      CrashKeeps(j, commands[i - 1], states[i - 1], states[i], others);
    }
  }

  /** In a sound state a command goes on exactly when the Worker is not held. */
  lemma {:induction false} GoesOnIff(j: Job, w: World, r: Reading, others: set<Name>)
    requires Sound(j, w) && (forall m | m in others :: m in w.servers)
    requires AllHealthy(r.dbs) && Exact(r, j.name) && j.vpn !in r.reserved
    ensures ReplaceGoesOn(j, w, r) || AddGoesOn(j, w, others) <==> !Held(j, w)
  {
    hide After, Joined, ReplaceEffects, AddEffects, Exact, AllHealthy;
    AddEnds(j, w);
    if j.name in w.servers {
      ReplaceEnds(j, w.servers[j.name].ip, w);
    }
  }

  /**
   * Whatever crashes, however often, and whatever Nodes turn Ready or not: from a sound state,
   * after any number of replaces and adds each cut before its end, node replace or node add is
   * accepted and ends with the Worker joined and pinned, unless the Worker is held. Where each
   * Node's server could be logged in to at the start, a held Worker's Node is cordoned.
   */
  lemma {:induction false} CrashLeadsOn(j: Job, commands: seq<Command>, states: seq<World>, others: set<Name>, r: Reading,
                                        anew: Fresh, i: nat)
    requires |states| == |commands| + 1 && i < |states| && j.name !in others
    requires Sound(j, states[0]) && forall m | m in others :: m in states[0].servers
    requires forall n | 0 <= n < |commands| :: Crashed(j, commands[n], states[n], states[n + 1])
    requires AllHealthy(r.dbs) && Exact(r, j.name) && j.vpn !in r.reserved
    ensures var k := j.(anew := anew);
            ReplaceGoesOn(k, states[i], r) || AddGoesOn(k, states[i], others) <==> !Held(j, states[i])
    ensures Reach(j, states[0]) && Held(j, states[i]) ==> states[i].nodes[j.name].cordoned
  {
    var k := j.(anew := anew);
    CrashesKeep(j, commands, states, others, i);
    SameJob(j, k, states[i], states[i]);
    HeldSame(j, k, states[i]);
    hide *;
    GoesOnIff(k, states[i], r, others);
  }

  lemma HeldSame(j: Job, k: Job, w: World)
    requires k.name == j.name && k.vpn == j.vpn
    ensures Held(j, w) == Held(k, w)
    ensures Held(j, w) ==> j.name in w.nodes
    ensures Held(j, w) && Reach(j, w) ==> w.nodes[j.name].cordoned
  {}

  /**
   * How a Worker comes to be held: the only Worker, not Ready, is drained by a replace that
   * dies there, and its Node turns Ready. node replace refuses; node add ends without an error
   * and leaves the Node cordoned.
   */
  lemma {:induction false} DrainedIsHeld(j: Job, w: World, r: Reading, others: set<Name>)
    requires Joined(j, w) && forall m | m in w.nodes :: m == j.name
    requires AllHealthy(r.dbs) && Exact(r, j.name) && j.vpn !in r.reserved
    ensures var w0 := w.(nodes := w.nodes[j.name := w.nodes[j.name].(ready := false)]);
            var w1 := After(j, ReplaceEffects(j.vpn, w.servers[j.name].ip)[..1], w0).w;
            var v := w.(nodes := w.nodes[j.name := w.nodes[j.name].(cordoned := true)]);
            && Sound(j, w0) && Reach(j, w0) && ReplaceAccepts(j, w0, r) && Flip(w1, v) && Held(j, v)
            && !ReplaceAccepts(j, v, r) && AddAccepts(j, v, others)
            && After(j, AddEffects(false), v).ok && !Joined(j, After(j, AddEffects(false), v).w)
  {
    var w0 := w.(nodes := w.nodes[j.name := w.nodes[j.name].(ready := false)]);
    var es := ReplaceEffects(j.vpn, w.servers[j.name].ip);
    assert es[..1] == [Drain] && [Drain][1..] == [];
    assert After(j, [Drain], w0) == End(Do(j, Drain, w0), true);
    var v := w.(nodes := w.nodes[j.name := w.nodes[j.name].(cordoned := true)]);
    assert Sound(j, v) && LogsIn(j, v) && Joinable(j, v) && !Fit(j, v);
    hide After, Exact, AllHealthy;
    AddEnds(j, v);
  }

  // A report in the middle of a command.

  /** The command's effects, with reports before and after each of them. */
  ghost predicate Interleaved(j: Job, es: seq<Effect>, states: seq<World>) {
    && |states| == |es| + 1
    && forall i | 0 <= i < |es| :: EffectAmid(j, es[i], states[i], states[i + 1])
  }

  ghost predicate EffectAmid(j: Job, e: Effect, w: World, v: World) {
    exists u :: Flip(w, u) && Can(j, e, u) && Flip(Do(j, e, u), v)
  }

  lemma FlipCan(j: Job, e: Effect, w: World, v: World)
    requires Flip(w, v)
    ensures Can(j, e, w) <==> Can(j, e, v)
  {}

  lemma FlipServers(j: Job, e: Effect, w: World, v: World)
    requires v.servers == w.servers && Can(j, e, w) && Can(j, e, v)
    ensures Do(j, e, w).servers == Do(j, e, v).servers
  {}

  lemma FlipPeers(j: Job, e: Effect, w: World, v: World)
    requires v.servers == w.servers && v.file == w.file && v.live == w.live && Can(j, e, w) && Can(j, e, v)
    ensures Do(j, e, w).file == Do(j, e, v).file && Do(j, e, w).live == Do(j, e, v).live
  {}

  lemma FlipPins(j: Job, e: Effect, w: World, v: World)
    requires v.servers == w.servers && v.pins == w.pins && Can(j, e, w) && Can(j, e, v)
    ensures Do(j, e, w).pins == Do(j, e, v).pins
  {}

  lemma FlipNodes(j: Job, e: Effect, w: World, v: World)
    requires Flip(w, v) && Can(j, e, w) && Can(j, e, v)
    ensures var a, b := Do(j, e, w).nodes, Do(j, e, v).nodes;
            && (forall m :: m in b <==> m in a)
            && forall m | m in a :: b[m] == a[m].(ready := b[m].ready)
  {
    if !e.Drain? && !e.DeleteNode? && !e.Join? && !e.Ready? {
      assert Do(j, e, w).nodes == w.nodes && Do(j, e, v).nodes == v.nodes;
    }
  }

  lemma FlipDo(j: Job, e: Effect, w: World, v: World)
    requires Flip(w, v)
    ensures Can(j, e, w) <==> Can(j, e, v)
    ensures Can(j, e, w) ==> Flip(Do(j, e, w), Do(j, e, v))
  {
    FlipCan(j, e, w, v);
    if Can(j, e, w) {
      FlipServers(j, e, w, v);
      FlipPeers(j, e, w, v);
      FlipPins(j, e, w, v);
      FlipNodes(j, e, w, v);
    }
    hide Can, Do;
  }

  lemma FlipTwice(u: World, v: World, w: World)
    requires Flip(u, v) && Flip(v, w)
    ensures Flip(u, w)
  {}

  /** Reports amid a command end where the command and then one report end, so `Kubelets` between commands is all there is. */
  lemma {:induction false} AmidIsBetween(j: Job, es: seq<Effect>, states: seq<World>)
    requires Interleaved(j, es, states)
    ensures After(j, es, states[0]).ok && Flip(After(j, es, states[0]).w, states[|es|])
    decreases |es|
  {
    if es != [] {
      var n := |es| - 1;
      var init, e := es[..n], es[n];
      AmidIsBetween(j, init, states[..|es|]);
      assert es == init + [e] && [e][1..] == [];
      assert EffectAmid(j, e, states[n], states[n + 1]);
      hide Can, Do, Flip, EffectAmid;
      AfterAppend(j, init, [e], states[0]);
      OneAmid(j, e, After(j, init, states[0]).w, states[n], states[n + 1]);
    } else {
      assert Flip(states[0], states[0]);
    }
  }

  lemma OneAmid(j: Job, e: Effect, w: World, u: World, v: World)
    requires Flip(w, u) && EffectAmid(j, e, u, v)
    ensures After(j, [e], w) == End(Do(j, e, w), true) && Flip(Do(j, e, w), v)
  {
    assert [e][1..] == [];
    hide Can, Do, Flip;
    var x :| Flip(u, x) && Can(j, e, x) && Flip(Do(j, e, x), v);
    FlipTwice(w, u, x);
    FlipDo(j, e, w, x);
    FlipTwice(Do(j, e, w), Do(j, e, x), v);
  }

  // --- A Node without a server ---------------------------------------------------------------------------

  /**
   * Where node replace sends the operator to node add and node add to node replace. No run of
   * either, however cut, leaves it.
   */
  predicate Stranded(j: Job, w: World) {
    j.name in w.nodes && j.name !in w.servers
  }

  /** The only Ready Worker, on a server at whose address nothing is pinned. */
  ghost predicate OnlyUnpinned(j: Job, w: World) {
    j.name in w.servers && w.servers[j.name].ip !in w.pins && IsReady(w, j.name) && !AnotherReady(w, j.name)
  }

  /**
   * No crash and no report leaves a Node without a server. With all else in order that, and
   * the only Ready Worker without a pin, are where neither command is accepted.
   */
  lemma {:induction false} NeverStranded(j: Job, commands: seq<Command>, states: seq<World>, others: set<Name>, r: Reading, i: nat, w: World)
    requires |states| == |commands| + 1 && i < |states| && j.name !in others
    requires Sound(j, states[0]) && forall m | m in others :: m in states[0].servers
    requires forall n | 0 <= n < |commands| :: Crashed(j, commands[n], states[n], states[n + 1])
    ensures !Stranded(j, states[i])
    ensures AllHealthy(r.dbs) && Exact(r, j.name) && j.vpn !in r.reserved && (forall m | m in others :: m in w.servers) ==>
              (!ReplaceAccepts(j, w, r) && !AddAccepts(j, w, others) <==> Stranded(j, w) || OnlyUnpinned(j, w))
  {
    hide Crashed, After, AllHealthy, Exact;
    CrashesKeep(j, commands, states, others, i);
  }

  /**
   * The way out of a Node without a server is run 1 of node remove, where Operator.Retire
   * accepts it: it deletes the Node, and node add of the name, at any address no peer of the
   * hub has, is then accepted and ends joined.
   */
  lemma {:induction false} StaleWayOut(j: Job, w: World, others: set<Name>, vpn: Addr, anew: Fresh)
    requires j.name in w.nodes && j.name !in w.servers && j.name !in others
    requires (forall m | m in others :: m in w.servers) && (vpn == j.vpn || (vpn !in w.file && vpn !in w.live))
    ensures var out, k := After(j, RetireRun(j.vpn), w), Job(j.name, vpn, anew);
            && out.ok && Out(j, out.w)
            && AddAccepts(k, out.w, others)
            && var e := After(k, AddEffects(true), out.w);
               e.ok && Joined(k, e.w) && e.w.servers[j.name].id == anew.id
  {
    hide After, Joined, AddEffects, RetireRun, MembersSame, PinsSame, Owns;
    var out, k := After(j, RetireRun(j.vpn), w).w, Job(j.name, vpn, anew);
    RemoveEnds(j, 0, w);
    RetireDrops(j.vpn);
    assert Owns(j, {j.vpn, j.anew.ip}, w) by { OwnsNothing(j, w); }
    AfterOthers(j, RetireRun(j.vpn), {j.vpn, j.anew.ip}, w);
    assert vpn !in out.file && vpn !in out.live;
    AddNew(k, out);
  }

  lemma RetireDrops(vpn: Addr)
    ensures forall e | e in RetireRun(vpn) && e.DropPin? :: e.addr == vpn
  {}

  lemma OwnsNothing(j: Job, w: World)
    requires j.name !in w.servers
    ensures Owns(j, {j.vpn, j.anew.ip}, w)
  {}

  /** An add over nothing ends on the server it created. */
  lemma {:induction false} AddNew(k: Job, w: World)
    requires Out(k, w) && k.name !in w.servers
    ensures var e := After(k, AddEffects(true), w);
            e.ok && Joined(k, e.w) && e.w.servers[k.name].id == k.anew.id
  {
    AfterAppend(k, [Create, PinSeed], BuildEffects(), w);
    CreateEnds(k, w);
    hide After, Sound, LogsIn, Joined, BuildEffects;
    BuildEnds(k, After(k, [Create, PinSeed], w).w);
  }

  // --- Reset ---------------------------------------------------------------------------------------

  /** What a finished replacement of the job leaves. */
  predicate Replaced(j: Job, w: World) {
    Joined(j, w) && w.servers[j.name].id == j.anew.id && w.servers[j.name].ip == j.anew.ip
  }

  /** Everything of the job's Worker is as it was in w0. */
  ghost predicate Untouched(j: Job, w0: World, w: World) {
    && j.name in w0.servers && j.name in w.servers && w.servers[j.name] == w0.servers[j.name]
    && (j.name in w.nodes <==> j.name in w0.nodes) && (j.name in w.nodes ==> w.nodes[j.name] == w0.nodes[j.name])
    && (j.vpn in w.file <==> j.vpn in w0.file) && (j.vpn in w.file ==> w.file[j.vpn] == w0.file[j.vpn])
    && (j.vpn in w.live <==> j.vpn in w0.live) && (j.vpn in w.live ==> w.live[j.vpn] == w0.live[j.vpn])
    && (forall a | a == j.vpn || a == w0.servers[j.name].ip ::
          (a in w.pins <==> a in w0.pins) && (a in w.pins ==> w.pins[a] == w0.pins[a]))
  }

  /** Workers before n are replaced and those after it untouched. */
  ghost predicate Reached(jobs: seq<Job>, w0: World, n: nat, w: World) {
    && n <= |jobs|
    && (forall k | 0 <= k < n :: Replaced(jobs[k], w))
    && (forall k | n < k < |jobs| :: Untouched(jobs[k], w0, w))
  }

  function OwnOf(j: Job, w0: World): set<Addr>
    requires j.name in w0.servers
  {
    {j.vpn, j.anew.ip, w0.servers[j.name].ip}
  }

  /** Names and addresses are each one Worker's; a new server may have an address an earlier one gave up. */
  ghost predicate Spread(jobs: seq<Job>, w0: World) {
    && (forall k | 0 <= k < |jobs| :: jobs[k].name in w0.servers)
    && (forall i, k | 0 <= i < |jobs| && 0 <= k < |jobs| && i != k ::
          && jobs[i].name != jobs[k].name && jobs[k].vpn !in OwnOf(jobs[i], w0)
          && (k < i ==> jobs[k].anew.ip !in OwnOf(jobs[i], w0))
          && (k > i ==> w0.servers[jobs[k].name].ip !in OwnOf(jobs[i], w0)))
  }

  lemma OthersStay(j: Job, k: Job, own: set<Addr>, w0: World, w: World, v: World)
    requires OthersSame(j, own, w, v) && k.name != j.name && k.vpn !in own && j.vpn in own
    ensures Replaced(k, w) && k.anew.ip !in own ==> Replaced(k, v)
    ensures Untouched(k, w0, w) && w0.servers[k.name].ip !in own ==> Untouched(k, w0, v)
    ensures IsReady(w, k.name) == IsReady(v, k.name)
  {}

  /** Any cut of the i-th replacement leaves the Workers before and after it where they are. */
  lemma {:induction false} ReachedCut(jobs: seq<Job>, w0: World, i: nat, w: World, n: nat, v: World)
    requires Spread(jobs, w0) && i < |jobs| && Reached(jobs, w0, i, w) && Untouched(jobs[i], w0, w)
    requires n <= |ReplaceEffects(jobs[i].vpn, w0.servers[jobs[i].name].ip)|
    requires v == After(jobs[i], ReplaceEffects(jobs[i].vpn, w0.servers[jobs[i].name].ip)[..n], w).w
    ensures Reached(jobs, w0, i, v)
    ensures n == |ReplaceEffects(jobs[i].vpn, w0.servers[jobs[i].name].ip)| ==>
              Replaced(jobs[i], v) && Reached(jobs, w0, i + 1, v) && (i + 1 < |jobs| ==> Untouched(jobs[i + 1], w0, v))
    ensures forall m | m != jobs[i].name :: IsReady(w, m) == IsReady(v, m)
  {
    var j := jobs[i];
    var own, es := OwnOf(j, w0), ReplaceEffects(j.vpn, w0.servers[j.name].ip);
    ReplaceDrops(j.vpn, w0.servers[j.name].ip);
    ReplaceReplaces(j, w0.servers[j.name].ip, w);
    assert es[..|es|] == es;
    hide After, ReplaceEffects, Joined, OthersSame, Replaced;
    assert Owns(j, own, w);
    assert forall e | e in es[..n] :: e in es;
    AfterOthers(j, es[..n], own, w);
    hide Untouched, Owns;
    forall k | 0 <= k < |jobs| && k != i
      ensures k < i ==> Replaced(jobs[k], v)
      ensures k > i ==> Untouched(jobs[k], w0, v)
    {
      OthersStay(j, jobs[k], own, w0, w, v);
    }
    ReadyStay(j, own, w, v);
  }

  lemma ReplaceReplaces(j: Job, ip: Addr, w: World)
    ensures Replaced(j, After(j, ReplaceEffects(j.vpn, ip), w).w)
  {
    hide After, ReplaceEffects;
    ReplaceEnds(j, ip, w);
  }

  lemma ReadyStay(j: Job, own: set<Addr>, w: World, v: World)
    requires OthersSame(j, own, w, v)
    ensures forall m | m != j.name :: IsReady(w, m) == IsReady(v, m)
  {}

  lemma ReplaceDrops(vpn: Addr, ip: Addr)
    ensures forall e | e in ReplaceEffects(vpn, ip) && e.DropPin? :: e.addr == vpn || e.addr == ip
  {}

  ghost predicate SawHealthy(polls: seq<seq<Database>>) {
    exists p :: p in polls && AllHealthy(p)
  }

  /** waitDatabases: whether the gate passed at one of the polls before the wait gave up. */
  method WaitDatabases(polls: seq<seq<Database>>) returns (ok: bool)
    ensures ok <==> SawHealthy(polls)
  {
    hide AllHealthy;
    for i := 0 to |polls|
      invariant forall p | p in polls[..i] :: !AllHealthy(p)
    {
      assert polls[..i + 1] == polls[..i] + [polls[i]];
      var pass := DatabaseGate(polls[i]);
      if pass {
        return true;
      }
    }
    assert polls[..|polls|] == polls;
    ok := false;
  }

  /** What a Reset reads and suffers at one Worker. */
  datatype Turn = Turn(polls: seq<seq<Database>>, reading: Reading, cut: nat)

  /** A state a Reset may pass through or stop in. */
  ghost predicate OnTheWay(jobs: seq<Job>, w0: World, n: nat, w: World) {
    Reached(jobs, w0, n, w) && (n < |jobs| ==> AnotherReady(w, jobs[n].name) || Untouched(jobs[n], w0, w))
  }

  ghost predicate Fits(jobs: seq<Job>, w0: World, w: World) {
    exists n: nat :: OnTheWay(jobs, w0, n, w)
  }

  ghost predicate Seen(turns: seq<Turn>, n: nat) {
    n <= |turns| && forall k | 0 <= k < n ::
      AllHealthy(turns[k].reading.dbs) && (k > 0 ==> SawHealthy(turns[k].polls))
  }

  /** The history since past is all on the way. */
  ghost predicate Passed(jobs: seq<Job>, w0: World, past: seq<World>, now: seq<World>) {
    && |now| >= |past| && now[..|past|] == past
    && forall h | |past| <= h < |now| :: Fits(jobs, w0, now[h])
  }

  /** Before the n-th Worker's turn. */
  ghost predicate ResetInv(jobs: seq<Job>, turns: seq<Turn>, w0: World, past: seq<World>, n: nat, w: World, now: seq<World>) {
    && |turns| == |jobs| && Reached(jobs, w0, n, w) && (n < |jobs| ==> Untouched(jobs[n], w0, w))
    && (forall k | 0 <= k < |jobs| :: IsReady(w, jobs[k].name))
    && Passed(jobs, w0, past, now) && Seen(turns, n)
  }

  /** After a Reset that ended at n. */
  ghost predicate ResetLeaves(jobs: seq<Job>, turns: seq<Turn>, w0: World, past: seq<World>, n: nat, w: World, now: seq<World>) {
    && |turns| == |jobs| && OnTheWay(jobs, w0, n, w) && Passed(jobs, w0, past, now)
    && Seen(turns, n) && (n < |jobs| && !Untouched(jobs[n], w0, w) ==> Seen(turns, n + 1))
  }

  // --- When a Reset goes on -----------------------------------------------------------------------

  /** All that the turn of Worker i asks for; each of it can be told from w0 and the turn alone. */
  ghost predicate Goes(jobs: seq<Job>, turns: seq<Turn>, w0: World, i: nat)
    requires i < |jobs| == |turns| && jobs[i].name in w0.servers
  {
    var j, t := jobs[i], turns[i];
    && (i > 0 ==> SawHealthy(t.polls))                 // waitDatabases
    && j.vpn !in t.reading.reserved                    // notReservedVPN
    && Exact(t.reading, j.name)                        // the plan is the one replace
    && AllHealthy(t.reading.dbs)                       // databaseGate
    && AnotherReady(w0, j.name)                        // notLastReadyWorker
    && t.cut >= |ReplaceEffects(j.vpn, w0.servers[j.name].ip)|
  }

  /** The same Workers are Ready. */
  ghost predicate ReadySame(w: World, v: World) {
    forall m :: IsReady(w, m) == IsReady(v, m)
  }

  lemma SameAnother(w: World, v: World, name: Name)
    requires ReadySame(w, v)
    ensures AnotherReady(w, name) == AnotherReady(v, name)
  {
    hide IsReady;
    if m :| m != name && IsReady(w, m) {
      assert IsReady(v, m);
    }
    if m :| m != name && IsReady(v, m) {
      assert IsReady(w, m);
    }
  }

  /** A turn that was waited for is built exactly when it goes, and then the same Workers are Ready. */
  lemma {:induction false} TurnIff(jobs: seq<Job>, turns: seq<Turn>, w0: World, past: seq<World>, i: nat, w: World, now: seq<World>,
                                   v: World, later: seq<World>, res: Result)
    requires |turns| == |jobs| && Spread(jobs, w0) && ResetInv(jobs, turns, w0, past, i, w, now) && i < |jobs| && ReadySame(w0, w)
    requires jobs[i].name in w0.servers
    requires i > 0 ==> SawHealthy(turns[i].polls)
    requires if ReplaceAccepts(jobs[i], w, turns[i].reading) then ReplaceMade(jobs[i], turns[i].cut, w, now, v, later, res)
             else res == Refused && v == w && later == now
    ensures res == Built <==> Goes(jobs, turns, w0, i)
    ensures res == Built ==> ReadySame(w0, v)
  {
    var j, cut := jobs[i], turns[i].cut;
    UntouchedIp(j, w0, w);
    SameAnother(w0, w, j.name);
    AcceptsIff(j, w, turns[i].reading);
    hide *;
    InvIs(jobs, turns, w0, past, i, w, now);
    GoesIs(jobs, turns, w0, i);
    if ReplaceAccepts(j, w, turns[i].reading) {
      MadeIs(j, cut, w, now, v, later, res);
      var es := ReplaceEffects(j.vpn, w0.servers[j.name].ip);
      if res == Built {
        assert es[..|es|] == es;
        ReachedCut(jobs, w0, i, w, |es|, v);
        ReplacedReady(j, v);
        BuiltSame(w0, w, v, j.name);
      }
    }
  }

  lemma AcceptsIff(j: Job, w: World, r: Reading)
    ensures ReplaceAccepts(j, w, r) <==>
            && j.name in w.servers && j.vpn !in r.reserved && Exact(r, j.name) && AllHealthy(r.dbs)
            && (AnotherReady(w, j.name) || !IsReady(w, j.name))
  {
    hide AllHealthy, AnotherReady, IsReady, Exact;
  }

  lemma GoesIs(jobs: seq<Job>, turns: seq<Turn>, w0: World, i: nat)
    requires i < |jobs| == |turns| && jobs[i].name in w0.servers
    ensures Goes(jobs, turns, w0, i) <==>
            && (i > 0 ==> SawHealthy(turns[i].polls)) && jobs[i].vpn !in turns[i].reading.reserved
            && Exact(turns[i].reading, jobs[i].name) && AllHealthy(turns[i].reading.dbs) && AnotherReady(w0, jobs[i].name)
            && turns[i].cut >= |ReplaceEffects(jobs[i].vpn, w0.servers[jobs[i].name].ip)|
  {
    hide AllHealthy, AnotherReady, SawHealthy, Exact, ReplaceEffects;
  }

  lemma BuiltSame(w0: World, w: World, v: World, name: Name)
    requires ReadySame(w0, w) && IsReady(w, name) && IsReady(v, name) && forall m | m != name :: IsReady(w, m) == IsReady(v, m)
    ensures ReadySame(w0, v)
  {
    hide IsReady;
  }

  lemma AllReplaced(jobs: seq<Job>, turns: seq<Turn>, w0: World, past: seq<World>, w: World, now: seq<World>)
    requires ResetInv(jobs, turns, w0, past, |jobs|, w, now)
    ensures forall k | 0 <= k < |jobs| :: Replaced(jobs[k], w)
  {
    hide Replaced, Untouched, Passed, Seen, IsReady;
  }

  lemma StartInv(jobs: seq<Job>, turns: seq<Turn>, w0: World, past: seq<World>)
    requires |turns| == |jobs| && Spread(jobs, w0) && forall k | 0 <= k < |jobs| :: IsReady(w0, jobs[k].name)
    ensures ResetInv(jobs, turns, w0, past, 0, w0, past)
  {
    hide AllHealthy, OnTheWay;
  }

  lemma InvLeaves(jobs: seq<Job>, turns: seq<Turn>, w0: World, past: seq<World>, n: nat, w: World, now: seq<World>)
    requires ResetInv(jobs, turns, w0, past, n, w, now)
    ensures ResetLeaves(jobs, turns, w0, past, n, w, now)
  {
    hide Passed, Seen, Untouched, Reached, IsReady, AnotherReady;
  }

  lemma ReadyOther(j: Job, w: World, v: World)
    requires AnotherReady(w, j.name) && forall m | m != j.name :: IsReady(w, m) == IsReady(v, m)
    ensures AnotherReady(v, j.name)
  {
    hide IsReady;
  }

  /** One Worker's turn, finished or not. */
  lemma {:induction false} ResetStep(jobs: seq<Job>, turns: seq<Turn>, w0: World, past: seq<World>, i: nat, w: World, now: seq<World>,
                                     v: World, later: seq<World>, res: Result)
    requires |turns| == |jobs| && Spread(jobs, w0) && ResetInv(jobs, turns, w0, past, i, w, now) && i < |jobs|
    requires i > 0 ==> SawHealthy(turns[i].polls)
    requires if ReplaceAccepts(jobs[i], w, turns[i].reading) then ReplaceMade(jobs[i], turns[i].cut, w, now, v, later, res)
             else res == Refused && v == w && later == now
    ensures res == Built ==> ResetInv(jobs, turns, w0, past, i + 1, v, later)
    ensures res != Built ==> ResetLeaves(jobs, turns, w0, past, i, v, later)
  {
    hide *;
    if !ReplaceAccepts(jobs[i], w, turns[i].reading) {
      InvLeaves(jobs, turns, w0, past, i, w, now);
    } else {
      StepAccepted(jobs, turns, w0, past, i, w, now, v, later, res);
    }
  }

  lemma {:induction false} StepAccepted(jobs: seq<Job>, turns: seq<Turn>, w0: World, past: seq<World>, i: nat, w: World, now: seq<World>,
                                        v: World, later: seq<World>, res: Result)
    requires |turns| == |jobs| && Spread(jobs, w0) && ResetInv(jobs, turns, w0, past, i, w, now) && i < |jobs|
    requires i > 0 ==> SawHealthy(turns[i].polls)
    requires ReplaceAccepts(jobs[i], w, turns[i].reading) && ReplaceMade(jobs[i], turns[i].cut, w, now, v, later, res)
    ensures res == Built ==> ResetInv(jobs, turns, w0, past, i + 1, v, later)
    ensures res != Built ==> ResetLeaves(jobs, turns, w0, past, i, v, later)
  {
    var j, cut := jobs[i], turns[i].cut;
    AcceptedIs(j, w, turns[i].reading);
    UntouchedIp(j, w0, w);
    hide *;
    InvIs(jobs, turns, w0, past, i, w, now);
    MadeIs(j, cut, w, now, v, later, res);
    var es := ReplaceEffects(j.vpn, w0.servers[j.name].ip);
    var n := if cut < |es| then cut else |es|;
    assert es[..|es|] == es;
    ReachedCut(jobs, w0, i, w, n, v);
    ReadyOther(j, w, v);
    OnTheWayIf(jobs, w0, i, v);
    forall h | |now| <= h < |later|
      ensures Fits(jobs, w0, later[h])
    {
      var m: nat :| m <= |es| && later[h] == After(j, es[..m], w).w;
      ReachedCut(jobs, w0, i, w, m, later[h]);
      ReadyOther(j, w, later[h]);
      OnTheWayIf(jobs, w0, i, later[h]);
      FitsIf(jobs, w0, i, later[h]);
    }
    PassedMore(jobs, w0, past, now, later);
    SeenMore(turns, i);
    if res == Built {
      ReplacedReady(j, v);
      forall k | 0 <= k < |jobs|
        ensures IsReady(v, jobs[k].name)
      {
        SpreadNames(jobs, w0, i, k);
      }
      InvIf(jobs, turns, w0, past, i + 1, v, later);
    } else {
      LeavesIf(jobs, turns, w0, past, i, v, later);
    }
  }

  lemma AcceptedIs(j: Job, w: World, r: Reading)
    requires ReplaceAccepts(j, w, r)
    ensures j.name in w.servers && AllHealthy(r.dbs) && (AnotherReady(w, j.name) || !IsReady(w, j.name))
  {}

  lemma UntouchedIp(j: Job, w0: World, w: World)
    ensures Untouched(j, w0, w) ==> j.name in w0.servers && j.name in w.servers && w.servers[j.name].ip == w0.servers[j.name].ip
  {}

  lemma InvIs(jobs: seq<Job>, turns: seq<Turn>, w0: World, past: seq<World>, n: nat, w: World, now: seq<World>)
    requires ResetInv(jobs, turns, w0, past, n, w, now)
    ensures |turns| == |jobs| && Reached(jobs, w0, n, w) && (n < |jobs| ==> Untouched(jobs[n], w0, w))
    ensures forall k | 0 <= k < |jobs| :: IsReady(w, jobs[k].name)
    ensures Passed(jobs, w0, past, now) && Seen(turns, n)
  {
    hide Reached, Untouched, IsReady, Passed, Seen;
  }

  lemma InvIf(jobs: seq<Job>, turns: seq<Turn>, w0: World, past: seq<World>, n: nat, w: World, now: seq<World>)
    requires |turns| == |jobs| && Reached(jobs, w0, n, w) && (n < |jobs| ==> Untouched(jobs[n], w0, w))
    requires forall k | 0 <= k < |jobs| :: IsReady(w, jobs[k].name)
    requires Passed(jobs, w0, past, now) && Seen(turns, n)
    ensures ResetInv(jobs, turns, w0, past, n, w, now)
  {
    hide Reached, Untouched, IsReady, Passed, Seen;
  }

  lemma LeavesIf(jobs: seq<Job>, turns: seq<Turn>, w0: World, past: seq<World>, n: nat, w: World, now: seq<World>)
    requires |turns| == |jobs| && n < |jobs| && OnTheWay(jobs, w0, n, w) && Passed(jobs, w0, past, now) && Seen(turns, n + 1)
    ensures ResetLeaves(jobs, turns, w0, past, n, w, now)
  {
    hide OnTheWay, Untouched, Passed, AllHealthy, SawHealthy;
  }

  lemma MadeIs(j: Job, cut: nat, w: World, past: seq<World>, v: World, now: seq<World>, res: Result)
    requires j.name in w.servers && ReplaceMade(j, cut, w, past, v, now, res)
    ensures var es := ReplaceEffects(j.vpn, w.servers[j.name].ip);
            && v == After(j, es[..if cut < |es| then cut else |es|], w).w
            && (res == Built <==> cut >= |es|)
            && |now| >= |past| && now[..|past|] == past
            && forall h | |past| <= h < |now| :: exists n: nat :: n <= |es| && now[h] == After(j, es[..n], w).w
  {
    hide After, ReplaceEffects;
  }

  lemma OnTheWayIf(jobs: seq<Job>, w0: World, n: nat, w: World)
    requires Reached(jobs, w0, n, w) && (n < |jobs| ==> AnotherReady(w, jobs[n].name))
    ensures OnTheWay(jobs, w0, n, w)
  {
    hide Reached, AnotherReady, Untouched;
  }

  lemma FitsIf(jobs: seq<Job>, w0: World, n: nat, w: World)
    requires OnTheWay(jobs, w0, n, w)
    ensures Fits(jobs, w0, w)
  {
    hide OnTheWay;
  }

  lemma PassedMore(jobs: seq<Job>, w0: World, past: seq<World>, now: seq<World>, later: seq<World>)
    requires Passed(jobs, w0, past, now) && |later| >= |now| && later[..|now|] == now
    requires forall h | |now| <= h < |later| :: Fits(jobs, w0, later[h])
    ensures Passed(jobs, w0, past, later)
  {
    hide Fits;
    assert later[..|past|] == now[..|past|];
    forall h | |past| <= h < |later|
      ensures Fits(jobs, w0, later[h])
    {
      if h < |now| {
        assert later[h] == now[h];
      }
    }
  }

  lemma SeenMore(turns: seq<Turn>, n: nat)
    requires Seen(turns, n) && n < |turns| && AllHealthy(turns[n].reading.dbs)
    requires n > 0 ==> SawHealthy(turns[n].polls)
    ensures Seen(turns, n + 1)
  {
    hide AllHealthy, SawHealthy;
  }

  lemma ReplacedReady(j: Job, w: World)
    ensures Replaced(j, w) ==> IsReady(w, j.name)
  {}

  lemma SpreadNames(jobs: seq<Job>, w0: World, i: nat, k: nat)
    requires Spread(jobs, w0) && i < |jobs| && k < |jobs|
    ensures i != k ==> jobs[i].name != jobs[k].name
  {}

  /**
   * Under --apply, from a state in which every Worker is Ready and with no unexpected plan
   * allowed: at every step the Workers before the current one are replaced, those after it
   * untouched, and while the current one is out another is Ready; no Worker is touched before
   * the databases were seen healthy; and a stop at i leaves exactly that partition. It ends at
   * the first turn that does not go, and with every Worker replaced when all do.
   */
  method Reset(o: Operator, jobs: seq<Job>, turns: seq<Turn>, mode: I.Gate) returns (i: nat, ok: bool)
    requires |turns| == |jobs| && forall k | 0 <= k < |jobs| :: I.Label(jobs[k].name)
    requires mode.apply && !mode.allowUnexpected
    modifies o
    ensures (exists k :: 0 <= k < |jobs| && jobs[k].name !in old(o.w).servers) ==> !ok && o.w == old(o.w) && o.history == old(o.history)
    ensures Spread(jobs, old(o.w)) && (forall k | 0 <= k < |jobs| :: IsReady(old(o.w), jobs[k].name)) ==>
              && (forall k | 0 <= k < |jobs| :: jobs[k].name in old(o.w).servers)
              && (ok <==> i == |jobs|) && ResetLeaves(jobs, turns, old(o.w), old(o.history), i, o.w, o.history)
              && (forall k | 0 <= k < i :: Goes(jobs, turns, old(o.w), k)) && (i < |jobs| ==> !Goes(jobs, turns, old(o.w), i))
              && (ok ==> forall k | 0 <= k < |jobs| :: Replaced(jobs[k], o.w))
  {
    hide Spread, ResetInv, ResetLeaves, ReplaceMade, ReplaceAccepts, Exact, I.Label, AllHealthy, IsReady, Goes, ReadySame, SawHealthy, Replaced;
    i, ok := 0, false;
    var missing := false;
    for k := 0 to |jobs|
      invariant missing <==> exists m :: 0 <= m < k && jobs[m].name !in o.w.servers
    {
      if jobs[k].name !in o.w.servers {
        missing := true;
      }
    }
    ghost var w0, past := o.w, o.history;
    ghost var good := Spread(jobs, w0) && (forall k | 0 <= k < |jobs| :: IsReady(w0, jobs[k].name));
    if good {
      SpreadPresent(jobs, w0);
      StartInv(jobs, turns, w0, past);
      StartSame(w0);
    }
    if missing {
      return 0, false;
    }
    while i < |jobs|
      invariant i <= |jobs|
      invariant good ==> ResetInv(jobs, turns, w0, past, i, o.w, o.history) && ReadySame(w0, o.w)
      invariant good ==> forall k | 0 <= k < i :: jobs[k].name in w0.servers && Goes(jobs, turns, w0, k)
    {
      if good {
        GoesIs(jobs, turns, w0, i);
      }
      if i > 0 {
        var healthy := WaitDatabases(turns[i].polls);
        if !healthy {
          if good {
            InvLeaves(jobs, turns, w0, past, i, o.w, o.history);
          }
          return i, false;
        }
      }
      ghost var w, now := o.w, o.history;
      var res := o.Replace(jobs[i], turns[i].reading, mode, turns[i].cut);
      if good {
        ResetStep(jobs, turns, w0, past, i, w, now, o.w, o.history, res);
        TurnIff(jobs, turns, w0, past, i, w, now, o.w, o.history, res);
      }
      if res != Built {
        return i, false;
      }
      i := i + 1;
    }
    ok := true;
    if good {
      InvLeaves(jobs, turns, w0, past, i, o.w, o.history);
      AllReplaced(jobs, turns, w0, past, o.w, o.history);
    }
  }

  lemma StartSame(w: World)
    ensures ReadySame(w, w)
  {}

  lemma SpreadPresent(jobs: seq<Job>, w0: World)
    requires Spread(jobs, w0)
    ensures forall k | 0 <= k < |jobs| :: jobs[k].name in w0.servers
  {}
}
