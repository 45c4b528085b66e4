/** kluster's known_hosts file, one line a pin (tools/kluster/internal/hostkey/pins.go). */
module HostPins {
  import opened Text

  type Addr = nat

  type Key = nat

  /** A pin kluster wrote, or a line with no host: a comment or a blank one. */
  datatype Line = Pin(host: Addr, key: Key) | Note(text: string)

  predicate IsPinAt(l: Line, a: Addr) {
    l.Pin? && l.host == a
  }

  /** The keys pinned at a, in file order. */
  function KeysAt(lines: seq<Line>, a: Addr): seq<Key> {
    if lines == [] then []
    else (if IsPinAt(lines[0], a) then [lines[0].key] else []) + KeysAt(lines[1..], a)
  }

  /** Every line that is no pin of a, in file order. */
  function Others(lines: seq<Line>, a: Addr): seq<Line> {
    if lines == [] then []
    else (if IsPinAt(lines[0], a) then [] else [lines[0]]) + Others(lines[1..], a)
  }

  function PinLines(a: Addr, keys: seq<Key>): seq<Line> {
    if keys == [] then [] else [Pin(a, keys[0])] + PinLines(a, keys[1..])
  }

  function Rewritten(lines: seq<Line>, a: Addr, keys: seq<Key>, replace: bool): seq<Line> {
    (if replace then Others(lines, a) else lines) + PinLines(a, keys)
  }

  function KeyOf(l: Line, a: Addr): seq<Key> {
    if IsPinAt(l, a) then [l.key] else []
  }

  function OtherOf(l: Line, a: Addr): seq<Line> {
    if IsPinAt(l, a) then [] else [l]
  }

  lemma PinsCons(lines: seq<Line>, a: Addr)
    requires lines != []
    ensures KeysAt(lines, a) == KeyOf(lines[0], a) + KeysAt(lines[1..], a)
    ensures Others(lines, a) == OtherOf(lines[0], a) + Others(lines[1..], a)
  {}

  lemma {:induction false} PinsAppend(x: seq<Line>, y: seq<Line>, a: Addr)
    ensures KeysAt(x + y, a) == KeysAt(x, a) + KeysAt(y, a)
    ensures Others(x + y, a) == Others(x, a) + Others(y, a)
  {
    if x == [] {
      assert x + y == y;
    } else {
      assert (x + y)[1..] == x[1..] + y;
      PinsAppend(x[1..], y, a);
      PinsCons(x, a);
      PinsCons(x + y, a);
      hide KeysAt, Others;
      Assoc(KeyOf(x[0], a), KeysAt(x[1..], a), KeysAt(y, a));
      Assoc(OtherOf(x[0], a), Others(x[1..], a), Others(y, a));
    }
  }

  lemma {:induction false} OthersPins(lines: seq<Line>, a: Addr, b: Addr)
    ensures KeysAt(Others(lines, a), b) == if a == b then [] else KeysAt(lines, b)
    ensures Others(Others(lines, a), a) == Others(lines, a)
  {
    if lines != [] {
      OthersPins(lines[1..], a, b);
      var head := if IsPinAt(lines[0], a) then [] else [lines[0]];
      PinsAppend(head, Others(lines[1..], a), b);
      PinsAppend(head, Others(lines[1..], a), a);
    }
  }

  lemma {:induction false} PinLinesPins(a: Addr, keys: seq<Key>, b: Addr)
    ensures KeysAt(PinLines(a, keys), b) == if a == b then keys else []
    ensures Others(PinLines(a, keys), a) == []
  {
    if keys != [] {
      PinLinesPins(a, keys[1..], b);
      assert ([Pin(a, keys[0])] + PinLines(a, keys[1..]))[1..] == PinLines(a, keys[1..]);
    }
  }

  /** A rewrite pins the keys at its address, after those it keeps, and touches no other line. */
  lemma RewrittenPins(lines: seq<Line>, a: Addr, keys: seq<Key>, replace: bool, b: Addr)
    ensures KeysAt(Rewritten(lines, a, keys, replace), b) ==
            if b != a then KeysAt(lines, b) else if replace then keys else KeysAt(lines, a) + keys
    ensures Others(Rewritten(lines, a, keys, replace), a) == Others(lines, a)
  {
    var kept := if replace then Others(lines, a) else lines;
    PinsAppend(kept, PinLines(a, keys), b);
    PinsAppend(kept, PinLines(a, keys), a);
    OthersPins(lines, a, b);
    OthersPins(lines, a, a);
    PinLinesPins(a, keys, b);
    PinLinesPins(a, keys, a);
  }

  class Pins {
    var lines: seq<Line>

    constructor (lines: seq<Line>)
      ensures this.lines == lines
    {
      this.lines := lines;
    }

    /** The new file replaces the old one in one rename: a reader sees one or the other. */
    method Rewrite(addr: Addr, keys: seq<Key>, replace: bool)
      modifies this
      ensures lines == Rewritten(old(lines), addr, keys, replace)
      ensures Others(lines, addr) == Others(old(lines), addr)
      ensures forall b :: KeysAt(lines, b) ==
                          if b != addr then KeysAt(old(lines), b)
                          else if replace then keys else KeysAt(old(lines), addr) + keys
    {
      var out: seq<Line> := [];
      for i := 0 to |lines|
        invariant lines == old(lines)
        invariant out == if replace then Others(lines[..i], addr) else lines[..i]
      {
        assert lines[..i + 1] == lines[..i] + [lines[i]];
        PinsAppend(lines[..i], [lines[i]], addr);
        if !(replace && lines[i].Pin? && lines[i].host == addr) {
          out := out + [lines[i]];
        }
      }
      assert lines[..|lines|] == lines;
      ghost var kept := out;
      for i := 0 to |keys|
        invariant lines == old(lines)
        invariant out + PinLines(addr, keys[i..]) == kept + PinLines(addr, keys)
      {
        assert keys[i..] == [keys[i]] + keys[i + 1..];
        assert out + ([Pin(addr, keys[i])] + PinLines(addr, keys[i + 1..])) ==
               out + [Pin(addr, keys[i])] + PinLines(addr, keys[i + 1..]);
        out := out + [Pin(addr, keys[i])];
      }
      RewrittenPins(lines, addr, keys, replace, addr);
      lines := out;
      assert lines == Rewritten(old(lines), addr, keys, replace);
      forall b
        ensures KeysAt(lines, b) == if b != addr then KeysAt(old(lines), b)
                                    else if replace then keys else KeysAt(old(lines), addr) + keys
      {
        RewrittenPins(old(lines), addr, keys, replace, b);
      }
    }

    method Set(addr: Addr, keys: seq<Key>)
      modifies this
      ensures lines == Rewritten(old(lines), addr, keys, true)
      ensures KeysAt(lines, addr) == keys && Others(lines, addr) == Others(old(lines), addr)
    {
      Rewrite(addr, keys, true);
    }

    method Add(addr: Addr, key: Key)
      modifies this
      ensures lines == Rewritten(old(lines), addr, [key], false)
      ensures KeysAt(lines, addr) == KeysAt(old(lines), addr) + [key] && Others(lines, addr) == Others(old(lines), addr)
    {
      Rewrite(addr, [key], false);
    }

    method Remove(addr: Addr)
      modifies this
      ensures lines == Rewritten(old(lines), addr, [], true)
      ensures KeysAt(lines, addr) == [] && Others(lines, addr) == Others(old(lines), addr)
    {
      Rewrite(addr, [], true);
    }

    method Has(addr: Addr) returns (has: bool)
      ensures has <==> KeysAt(lines, addr) != []
    {
      for i := 0 to |lines|
        invariant KeysAt(lines[..i], addr) == []
      {
        assert lines[..i + 1] == lines[..i] + [lines[i]];
        PinsAppend(lines[..i], [lines[i]], addr);
        if lines[i].Pin? && lines[i].host == addr {
          PinsAppend(lines[..i + 1], lines[i + 1..], addr);
          assert lines == lines[..i + 1] + lines[i + 1..];
          return true;
        }
      }
      assert lines[..|lines|] == lines;
      return false;
    }

    method Last(addr: Addr) returns (last: Option<Key>)
      ensures var ks := KeysAt(lines, addr); last == if ks == [] then None else Some(ks[|ks| - 1])
    {
      last := None;
      for i := 0 to |lines|
        invariant var ks := KeysAt(lines[..i], addr); last == if ks == [] then None else Some(ks[|ks| - 1])
      {
        assert lines[..i + 1] == lines[..i] + [lines[i]];
        PinsAppend(lines[..i], [lines[i]], addr);
        if lines[i].Pin? && lines[i].host == addr {
          last := Some(lines[i].key);
        }
      }
      assert lines[..|lines|] == lines;
    }
  }
}

/**
 * The rotation of a seeded host key (tools/kluster/internal/stages/hostkey.go). Every effect
 * is one step; a run can be cut after any of them, and the next run starts from what is left.
 * sshd serves a new key from its restart on.
 */
module RotateHostKey {
  import opened Text
  import opened HostPins

  /** The server: the key on disk, the staged new one, the key sshd serves, the marker. */
  datatype Host = Host(disk: Option<Key>, staged: Option<Key>, served: Key, marker: bool)

  datatype World = World(pins: seq<Line>, host: Host)

  /** The states of one call, the last one first reached when nothing cuts it, and its answer. */
  datatype Trace = Trace(states: seq<World>, ok: bool)

  function LastOf(keys: seq<Key>): Option<Key> {
    if keys == [] then None else Some(keys[|keys| - 1])
  }

  function AddPin(w: World, addr: Addr, key: Key): World {
    w.(pins := Rewritten(w.pins, addr, [key], false))
  }

  function SetPin(w: World, addr: Addr, key: Key): World {
    w.(pins := Rewritten(w.pins, addr, [key], true))
  }

  /** finishPin: the key pinned last, proved by a dial that accepts it alone, is pinned alone. */
  function FinishPin(w: World, addr: Addr): Trace {
    var key := LastOf(KeysAt(w.pins, addr));
    if key == Some(w.host.served) then Trace([w, SetPin(w, addr, key.value)], true)
    else Trace([w], false)
  }

  /** systemctl restart ssh: sshd serves the key it finds on the disk. */
  function Restarted(h: Host): Host {
    if h.disk.Some? then h.(served := h.disk.value) else h
  }

  /** generate, pin beside, rm, mv, restart, marker, dial, pin alone. */
  function Act(w: World, addr: Addr, key: Key): Trace {
    if w.host.marker then FinishPin(w, addr)
    else
      var w1 := w.(host := w.host.(staged := None));
      var w2 := w1.(host := w1.host.(staged := Some(key)));
      var w3 := AddPin(w2, addr, key);
      var w4 := w3.(host := w3.host.(disk := None));
      var w5 := w4.(host := w4.host.(disk := w4.host.staged, staged := None));
      var w6 := w5.(host := Restarted(w5.host));
      var w7 := w6.(host := w6.host.(marker := true));
      if w7.host.served == key then Trace([w, w1, w2, w3, w4, w5, w6, w7, SetPin(w7, addr, key)], true)
      else Trace([w, w1, w2, w3, w4, w5, w6, w7], false)
  }

  /** Probe is done when the marker is there and at most one key is pinned. */
  predicate Done(w: World, addr: Addr) {
    w.host.marker && |KeysAt(w.pins, addr)| <= 1
  }

  /** A login or a dial by the pins succeeds exactly when the served key is pinned. */
  predicate Reachable(w: World, addr: Addr) {
    w.host.served in KeysAt(w.pins, addr)
  }

  /** One run: log in, Probe, Act when not done. */
  function RunTrace(w: World, addr: Addr, key: Key): Trace {
    if !Reachable(w, addr) then Trace([w], false)
    else if Done(w, addr) then Trace([w], true)
    else Act(w, addr, key)
  }

  /** The state a run leaves that is cut after n effects. */
  function Cut(t: Trace, n: nat): World
    requires t.states != []
  {
    if n < |t.states| then t.states[n] else t.states[|t.states| - 1]
  }

  // --- The Stage's methods ---------------------------------------------------

  class Server {
    var disk: Option<Key>
    var staged: Option<Key>
    var served: Key
    var marker: bool

    constructor (h: Host)
      ensures Value() == h
    {
      disk, staged, served, marker := h.disk, h.staged, h.served, h.marker;
    }

    ghost function Value(): Host
      reads this
    {
      Host(disk, staged, served, marker)
    }
  }

  ghost function WorldOf(pins: Pins, host: Server): World
    reads pins, host
  {
    World(pins.lines, host.Value())
  }

  method Finish(pins: Pins, host: Server, addr: Addr, cut: nat) returns (ok: bool)
    modifies pins
    ensures WorldOf(pins, host) == Cut(FinishPin(old(WorldOf(pins, host)), addr), cut)
    ensures ok <==> var t := FinishPin(old(WorldOf(pins, host)), addr); t.ok && cut >= |t.states| - 1
  {
    var key := pins.Last(addr);
    if key.None? || host.served != key.value || cut == 0 {
      return false;
    }
    pins.Set(addr, [key.value]);
    return true;
  }

  /** Act with the new key the host generates, cut after the given number of effects. */
  method Rotate(pins: Pins, host: Server, addr: Addr, key: Key, cut: nat) returns (ok: bool)
    modifies pins, host
    ensures WorldOf(pins, host) == Cut(Act(old(WorldOf(pins, host)), addr, key), cut)
    ensures ok <==> var t := Act(old(WorldOf(pins, host)), addr, key); t.ok && cut >= |t.states| - 1
  {
    hide KeysAt, Others, Rewritten, PinLines;
    if host.marker {
      ok := Finish(pins, host, addr, cut);
      return;
    }
    if cut == 0 { return false; }
    host.staged := None;
    if cut == 1 { return false; }
    host.staged := Some(key);
    if cut == 2 { return false; }
    pins.Add(addr, key);
    if cut == 3 { return false; }
    host.disk := None;
    if cut == 4 { return false; }
    host.disk, host.staged := host.staged, None;
    if cut == 5 { return false; }
    if host.disk.Some? {
      host.served := host.disk.value;
    }
    if cut == 6 { return false; }
    host.marker := true;
    if cut == 7 || host.served != key { return false; }
    pins.Set(addr, [key]);
    return true;
  }

  /** One run: the login by the pins, Probe, and Act when it is not done. */
  method Attempt(pins: Pins, host: Server, addr: Addr, key: Key, cut: nat) returns (ok: bool)
    modifies pins, host
    ensures WorldOf(pins, host) == Cut(RunTrace(old(WorldOf(pins, host)), addr, key), cut)
    ensures ok <==> var t := RunTrace(old(WorldOf(pins, host)), addr, key); t.ok && cut >= |t.states| - 1
  {
    hide KeysAt, Rewritten, Act;
    var keys := KeysAt(pins.lines, addr);
    if host.served !in keys {
      return false;
    }
    if host.marker && |keys| <= 1 {
      return true;
    }
    ok := Rotate(pins, host, addr, key, cut);
  }

  // --- Every run -------------------------------------------------------------

  /** The server is created with the seeded key, pinned at its address. */
  ghost predicate Created(w: World, addr: Addr, seed: Key) {
    w.host == Host(Some(seed), None, seed, false) && KeysAt(w.pins, addr) == [seed]
  }

  /**
   * What every state of every run holds. The key on the disk, which a restart would serve, is
   * pinned too, and once the marker is there it is the served one.
   */
  ghost predicate Inv(w: World, addr: Addr, seed: Key) {
    && Reachable(w, addr)
    && (w.host.disk.Some? ==> w.host.disk.value in KeysAt(w.pins, addr))
    && (w.host.marker ==>
          && LastOf(KeysAt(w.pins, addr)) == Some(w.host.served) && w.host.served != seed
          && w.host.disk == Some(w.host.served))
  }

  /** A run of the rotation, or anything kluster does to the pins of another address. */
  datatype Event = Rotation(key: Key, cut: nat) | Elsewhere(at: Addr, keys: seq<Key>, replace: bool)

  ghost predicate Allowed(e: Event, addr: Addr, seed: Key) {
    match e
    case Rotation(key, _) => key != seed
    case Elsewhere(at, _, _) => at != addr
  }

  function After(w: World, addr: Addr, e: Event): World {
    match e
    case Rotation(key, cut) => Cut(RunTrace(w, addr, key), cut)
    case Elsewhere(at, keys, replace) => w.(pins := Rewritten(w.pins, at, keys, replace))
  }

  function Run(w: World, addr: Addr, es: seq<Event>): World {
    if es == [] then w else After(Run(w, addr, es[..|es| - 1]), addr, es[|es| - 1])
  }

  /** Every state of a call keeps the invariant and the lines of every other address. */
  lemma ActKeeps(w: World, addr: Addr, key: Key, seed: Key, n: nat)
    requires Inv(w, addr, seed) && key != seed
    ensures Inv(Cut(Act(w, addr, key), n), addr, seed)
    ensures Others(Cut(Act(w, addr, key), n).pins, addr) == Others(w.pins, addr)
  {
    hide KeysAt, Others, Rewritten;
    RewrittenPins(w.pins, addr, [key], false, addr);
    RewrittenPins(w.pins, addr, [w.host.served], true, addr);
    var added := Rewritten(w.pins, addr, [key], false);
    RewrittenPins(added, addr, [key], true, addr);
    assert KeysAt(added, addr) == KeysAt(w.pins, addr) + [key];
  }

  /** Safety: in every run, cut anywhere and run again, the served key is pinned. */
  lemma {:induction false} RunsKeep(w: World, addr: Addr, seed: Key, es: seq<Event>)
    requires Created(w, addr, seed) && forall e | e in es :: Allowed(e, addr, seed)
    ensures Inv(Run(w, addr, es), addr, seed)
  {
    hide KeysAt, Others, Rewritten, Act;
    if es != [] {
      var before, e := Run(w, addr, es[..|es| - 1]), es[|es| - 1];
      RunsKeep(w, addr, seed, es[..|es| - 1]);
      assert e in es;
      match e
      case Rotation(key, cut) =>
        ActKeeps(before, addr, key, seed, cut);
      case Elsewhere(at, keys, replace) =>
        RewrittenPins(before.pins, at, keys, replace, addr);
    }
  }

  /** The pins of every other address are changed by what is done there alone. */
  lemma {:induction false} RunsKeepOthers(w: World, addr: Addr, seed: Key, es: seq<Event>, b: Addr)
    requires Created(w, addr, seed) && b != addr
    requires forall e | e in es :: Allowed(e, addr, seed) && !(e.Elsewhere? && e.at == b)
    ensures KeysAt(Run(w, addr, es).pins, b) == KeysAt(w.pins, b)
  {
    hide KeysAt, Others, Rewritten, Act;
    if es != [] {
      var before, e := Run(w, addr, es[..|es| - 1]), es[|es| - 1];
      RunsKeepOthers(w, addr, seed, es[..|es| - 1], b);
      RunsKeep(w, addr, seed, es[..|es| - 1]);
      assert e in es;
      match e
      case Rotation(key, cut) =>
        ActKeeps(before, addr, key, seed, cut);
        OthersPins(before.pins, addr, b);
        OthersPins(After(before, addr, e).pins, addr, b);
      case Elsewhere(at, keys, replace) =>
        RewrittenPins(before.pins, at, keys, replace, b);
    }
  }

  /** Liveness: from every state a run can leave, an uncut rerun answers ok and Probe is done. */
  lemma RerunCompletes(w: World, addr: Addr, seed: Key, es: seq<Event>, key: Key)
    requires Created(w, addr, seed) && key != seed && forall e | e in es :: Allowed(e, addr, seed)
    ensures var t := RunTrace(Run(w, addr, es), addr, key);
            t.ok && Done(t.states[|t.states| - 1], addr)
  {
    hide Others, Rewritten, Run;
    RunsKeep(w, addr, seed, es);
    var v := Run(w, addr, es);
    RewrittenPins(v.pins, addr, [v.host.served], true, addr);
    var added := Rewritten(v.pins, addr, [key], false);
    RewrittenPins(added, addr, [key], true, addr);
  }

  /** Done in any run: the served key is the one pin of the address and the one on the disk, and it is not the seeded one. */
  lemma DoneMeans(w: World, addr: Addr, seed: Key, es: seq<Event>)
    requires Created(w, addr, seed) && forall e | e in es :: Allowed(e, addr, seed)
    requires Done(Run(w, addr, es), addr)
    ensures var v := Run(w, addr, es);
            KeysAt(v.pins, addr) == [v.host.served] && v.host.served != seed && v.host.disk == Some(v.host.served)
  {
    hide KeysAt, Others, Rewritten, Run;
    RunsKeep(w, addr, seed, es);
  }

  /** A done rotation stays done: a rerun changes nothing. */
  lemma DoneStays(w: World, addr: Addr, key: Key, cut: nat)
    requires Done(w, addr) && Reachable(w, addr)
    ensures Cut(RunTrace(w, addr, key), cut) == w
  {}

  // --- The key on the disk --------------------------------------------------------

  const RM_DONE := 4   // a cut after the rm and before the mv

  /**
   * A call that is cut leaves no key on the disk exactly when it is cut between its rm and its
   * mv, or before its rm over a disk that had none. Cut there, the new key is staged and is
   * the last pin.
   */
  lemma ActDisk(w: World, addr: Addr, key: Key, seed: Key, n: nat)
    requires Inv(w, addr, seed)
    ensures var v := Cut(Act(w, addr, key), n);
            && (v.host.disk.None? <==> !w.host.marker && (n == RM_DONE || (n < RM_DONE && w.host.disk.None?)))
            && (!w.host.marker && n == RM_DONE ==> v.host.staged == LastOf(KeysAt(v.pins, addr)) == Some(key))
  {
    RewrittenPins(w.pins, addr, [key], false, addr);
    hide KeysAt, Rewritten;
  }

  /** In every run the disk has a key, unless a run was cut between its rm and its mv. */
  lemma {:induction false} DiskKept(w: World, addr: Addr, seed: Key, es: seq<Event>)
    requires Created(w, addr, seed) && forall e | e in es :: Allowed(e, addr, seed)
    requires forall e | e in es && e.Rotation? :: e.cut != RM_DONE
    ensures Run(w, addr, es).host.disk.Some?
  {
    hide KeysAt, Others, Rewritten, Act;
    if es != [] {
      var before, e := Run(w, addr, es[..|es| - 1]), es[|es| - 1];
      DiskKept(w, addr, seed, es[..|es| - 1]);
      RunsKeep(w, addr, seed, es[..|es| - 1]);
      assert e in es;
      if e.Rotation? {
        ActDisk(before, addr, e.key, seed, e.cut);
      }
    }
  }

  /**
   * That cut, and a rerun cut after its first effect: the rerun throws the staged key away
   * before it makes another, so the host has no key file at all, installed or staged, while
   * sshd still serves the seeded one.
   */
  lemma CutLosesKeys(w: World, addr: Addr, seed: Key, key: Key, again: Key)
    requires Created(w, addr, seed) && key != seed && again != seed
    ensures var v := Run(w, addr, [Rotation(key, RM_DONE)]);
            v.host.disk == None && v.host.staged == Some(key) && v.host.served == seed
    ensures var v := Run(w, addr, [Rotation(key, RM_DONE), Rotation(again, 1)]);
            v.host.disk == None && v.host.staged == None && v.host.served == seed && Inv(v, addr, seed)
  {
    var one, two := [Rotation(key, RM_DONE)], [Rotation(key, RM_DONE), Rotation(again, 1)];
    assert two[..1] == one && one[..0] == [];
    assert Run(w, addr, []) == w;
    RewrittenPins(w.pins, addr, [key], false, addr);
    RunsKeep(w, addr, seed, one);
    RunsKeep(w, addr, seed, two);
    hide KeysAt, Rewritten;
  }

  /** An Act that installs the key before it pins it beside the seeded one. */
  function InstallFirst(w: World, addr: Addr, key: Key): Trace {
    var w1 := w.(host := w.host.(staged := None));
    var w2 := w1.(host := w1.host.(staged := Some(key)));
    var w3 := w2.(host := w2.host.(disk := None));
    var w4 := w3.(host := w3.host.(disk := w3.host.staged, staged := None));
    var w5 := w4.(host := Restarted(w4.host));
    var w6 := w5.(host := w5.host.(marker := true));
    Trace([w, w1, w2, w3, w4, w5, w6, SetPin(w6, addr, key)], true)
  }

  /**
   * The order matters: cut after its restart, an Act that installs first leaves a host no
   * later run can reach.
   */
  lemma {:induction false} InstallFirstStrands(w: World, addr: Addr, seed: Key, key: Key, es: seq<Event>)
    requires Created(w, addr, seed) && key != seed
    requires forall e | e in es :: e.Rotation?
    ensures var v := Cut(InstallFirst(w, addr, key), 5);
            Run(v, addr, es) == v && !Reachable(v, addr) && forall k :: !RunTrace(v, addr, k).ok
  {
    hide KeysAt, Rewritten, Act;
    var v := Cut(InstallFirst(w, addr, key), 5);
    assert v.pins == w.pins && v.host.served == key;
    if es != [] {
      InstallFirstStrands(w, addr, seed, key, es[..|es| - 1]);
      assert es[|es| - 1] in es;
    }
  }
}
