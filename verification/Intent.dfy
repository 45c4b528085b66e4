/**
 * The check of a Terraform plan against what a command says it will do
 * (tools/kluster/internal/intent), the decision to apply it (internal/tf), and the Workers
 * created or replaced through them (internal/provision).
 */
module Intent {
  import opened Text

  datatype Action = Create | Update | Delete | Replace

  datatype Change = Change(address: string, action: Action)

  datatype Expectation = Expectation(address: string, actions: seq<Action>, required: bool)

  type Intent = seq<Expectation>

  // --- Changes --------------------------------------------------------------------

  datatype Kind = Quiet | Real(action: Action) | Unknown

  /** classify. */
  function Classify(actions: seq<string>): Kind {
    if actions == ["no-op"] || actions == ["read"] then Quiet
    else if actions == ["create"] then Real(Create)
    else if actions == ["update"] then Real(Update)
    else if actions == ["delete"] then Real(Delete)
    else if actions == ["delete", "create"] || actions == ["create", "delete"] then Real(Replace)
    else Unknown
  }

  datatype Planned = Planned(address: string, actions: Option<seq<string>>)

  /** Changes, in the plan's order; None where an action set is unknown. */
  method Changes(plan: seq<Planned>) returns (out: Option<seq<Change>>)
    ensures out.None? <==> exists p :: p in plan && p.actions.Some? && Classify(p.actions.value).Unknown?
    ensures out.Some? ==> forall c :: c in out.value <==>
              exists p :: p in plan && p.address == c.address && p.actions.Some? && Classify(p.actions.value) == Real(c.action)
  {
    hide Classify;
    var r: seq<Change> := [];
    for i := 0 to |plan|
      invariant forall p | p in plan[..i] && p.actions.Some? :: !Classify(p.actions.value).Unknown?
      invariant forall c :: c in r <==>
                  exists p :: p in plan[..i] && p.address == c.address && p.actions.Some? && Classify(p.actions.value) == Real(c.action)
    {
      var p := plan[i];
      assert plan[..i + 1] == plan[..i] + [p];
      assert forall q :: q in plan[..i + 1] <==> q in plan[..i] || q == p;
      if p.actions.None? {
        continue;
      }
      var k := Classify(p.actions.value);
      if k.Unknown? {
        return None;
      }
      if k.Real? {
        r := r + [Change(p.address, k.action)];
      }
    }
    assert plan[..|plan|] == plan;
    out := Some(r);
  }

  // --- match ------------------------------------------------------------------------

  /** A star is any run of characters but line ends; every other character is itself. */
  predicate Match(pattern: string, address: string)
    decreases |pattern| + |address|
  {
    if pattern == "" then address == ""
    else if pattern[0] == '*' then
      Match(pattern[1..], address) || (address != "" && address[0] != '\n' && Match(pattern, address[1..]))
    else address != "" && address[0] == pattern[0] && Match(pattern[1..], address[1..])
  }

  /** A star between two plain texts stands for any middle without a line end. */
  lemma {:induction false} StarMatches(rest: string, address: string)
    ensures Match("*" + rest, address) <==>
            exists n :: 0 <= n <= |address| && '\n' !in address[..n] && Match(rest, address[n..])
    decreases |address|
  {
    var p := "*" + rest;
    assert p[1..] == rest;
    if Match(p, address) {
      if Match(rest, address) {
        assert address[0..] == address && '\n' !in address[..0];
      } else {
        StarMatches(rest, address[1..]);
        var n :| 0 <= n <= |address[1..]| && '\n' !in address[1..][..n] && Match(rest, address[1..][n..]);
        assert address[1..][n..] == address[n + 1..];
        assert address[..n + 1] == [address[0]] + address[1..][..n];
      }
    }
    if exists n :: 0 <= n <= |address| && '\n' !in address[..n] && Match(rest, address[n..]) {
      var n :| 0 <= n <= |address| && '\n' !in address[..n] && Match(rest, address[n..]);
      if n == 0 {
        assert address[0..] == address;
      } else {
        assert address[..n][0] in address[..n];
        assert address[1..][..n - 1] == address[1..n] && address[1..][n - 1..] == address[n..];
        assert forall c | c in address[1..n] :: c in address[..n];
        StarMatches(rest, address[1..]);
      }
    }
  }

  /** A pattern without a star matches itself alone. */
  lemma {:induction false} PlainMatches(pattern: string, address: string)
    requires '*' !in pattern
    ensures Match(pattern, address) <==> pattern == address
    decreases |pattern|
  {
    if pattern != "" {
      assert pattern[0] in pattern && forall c | c in pattern[1..] :: c in pattern;
      if address != "" && address[0] == pattern[0] {
        PlainMatches(pattern[1..], address[1..]);
        assert pattern == [pattern[0]] + pattern[1..] && address == [address[0]] + address[1..];
      }
    }
  }

  // --- Check --------------------------------------------------------------------------

  predicate Allows(e: Expectation, c: Change) {
    Match(e.address, c.address) && c.action in e.actions
  }

  ghost predicate Allowed(intent: Intent, c: Change) {
    exists e :: e in intent && Allows(e, c)
  }

  ghost predicate Met(e: Expectation, changes: seq<Change>) {
    exists c :: c in changes && Allows(e, c)
  }

  /** Every change is allowed by some Expectation, and every required one is met. */
  ghost predicate Satisfied(intent: Intent, changes: seq<Change>) {
    (forall c | c in changes :: Allowed(intent, c)) && forall e | e in intent && e.required :: Met(e, changes)
  }

  datatype Mismatch = Unexpected(change: Change, allowed: seq<Action>) | Missing(expectation: Expectation)

  /** A true disagreement between the Intent and the changes. */
  ghost predicate Disagrees(intent: Intent, changes: seq<Change>, m: Mismatch) {
    match m
    case Unexpected(c, _) => c in changes && !Allowed(intent, c)
    case Missing(e) => e in intent && e.required && !Met(e, changes)
  }

  /** The inner loop of Check: whether some Expectation allows c, and which ones c meets. */
  method Mark(intent: Intent, c: Change, met: seq<bool>) returns (matched: bool, allowed: seq<Action>, now: seq<bool>)
    requires |met| == |intent|
    ensures matched <==> Allowed(intent, c)
    ensures |now| == |met| && forall n | 0 <= n < |intent| :: now[n] == (met[n] || Allows(intent[n], c))
  {
    hide Match;
    matched, allowed, now := false, [], met;
    for n := 0 to |intent|
      invariant matched <==> exists k :: 0 <= k < n && Allows(intent[k], c)
      invariant |now| == |met| && forall k | 0 <= k < |intent| :: now[k] == (met[k] || (k < n && Allows(intent[k], c)))
    {
      var e := intent[n];
      if !Match(e.address, c.address) {
        continue;
      }
      allowed := allowed + e.actions;
      if c.action in e.actions {
        matched := true;
        now := now[n := true];
      }
    }
  }

  /** Intent.Check: every mismatch is a true disagreement, and there is none exactly when the Intent is satisfied. */
  method Check(intent: Intent, changes: seq<Change>) returns (out: seq<Mismatch>)
    ensures out == [] <==> Satisfied(intent, changes)
    ensures forall m | m in out :: Disagrees(intent, changes, m)
  {
    hide Allows, Met, Allowed;
    out := [];
    var met := seq(|intent|, _ => false);
    forall n | 0 <= n < |intent| ensures !Met(intent[n], []) { NoneMet(intent[n]); }
    for i := 0 to |changes|
      invariant |met| == |intent| && forall n | 0 <= n < |intent| :: met[n] <==> Met(intent[n], changes[..i])
      invariant forall m | m in out :: Disagrees(intent, changes, m)
      invariant out == [] <==> forall c | c in changes[..i] :: Allowed(intent, c)
    {
      var c := changes[i];
      var matched, allowed, now := Mark(intent, c, met);
      forall n | 0 <= n < |intent|
        ensures Met(intent[n], changes[..i + 1]) <==> Met(intent[n], changes[..i]) || Allows(intent[n], c)
      {
        OneMore(intent[n], changes, i);
      }
      assert changes[..i + 1] == changes[..i] + [c];
      met := now;
      if !matched {
        out := out + [Unexpected(c, allowed)];
      }
    }
    assert changes[..|changes|] == changes;
    for n := 0 to |intent|
      invariant forall m | m in out :: Disagrees(intent, changes, m)
      invariant out == [] <==> (forall c | c in changes :: Allowed(intent, c)) &&
                               forall k | 0 <= k < n && intent[k].required :: Met(intent[k], changes)
    {
      if intent[n].required && !met[n] {
        out := out + [Missing(intent[n])];
      }
    }
  }

  lemma NoneMet(e: Expectation)
    ensures !Met(e, [])
  {}

  lemma OneMore(e: Expectation, changes: seq<Change>, i: nat)
    requires i < |changes|
    ensures Met(e, changes[..i + 1]) <==> Met(e, changes[..i]) || Allows(e, changes[i])
  {
    hide Allows;
    assert changes[..i + 1] == changes[..i] + [changes[i]];
    assert changes[i] in changes[..i + 1];
  }

  // --- The Intents of one Worker -----------------------------------------------------

  const WORKERS := "hcloud_server.workers[\""

  /** WorkerAddress of a name that %q leaves as it is. */
  function WorkerAddress(name: string): string {
    WORKERS + name + "\"]"
  }

  /** The characters of a DNS label: what a Worker's name is made of. */
  predicate Label(name: string) {
    name != "" && forall c | c in name :: 'a' <= c <= 'z' || '0' <= c <= '9' || c == '-'
  }

  /** The one group of workerAddress's regular expression. */
  function WorkerOf(address: string): Option<string> {
    var n := |address| - |WORKERS| - 2;
    if n < 1 || address[..|WORKERS|] != WORKERS || address[|address| - 2..] != "\"]" then None
    else
      var name := address[|WORKERS|..|address| - 2];
      if '"' in name then None else Some(name)
  }

  lemma {:induction false} WorkerOfAddress(name: string, address: string)
    requires name != "" && '"' !in name
    ensures WorkerOf(address) == Some(name) <==> address == WorkerAddress(name)
  {
    var a := WorkerAddress(name);
    assert a[..|WORKERS|] == WORKERS && a[|WORKERS|..|a| - 2] == name && a[|a| - 2..] == "\"]";
    if WorkerOf(address) == Some(name) {
      assert address == address[..|WORKERS|] + address[|WORKERS|..|address| - 2] + address[|address| - 2..];
    }
  }

  /** ReplaceIntent and deleteIntent. */
  function One(name: string, action: Action): Intent {
    [Expectation(WorkerAddress(name), [action], true)]
  }

  /** Such an Intent admits exactly the plans whose changes are that action on that server, at least one. */
  lemma {:induction false} OneAdmits(name: string, action: Action, changes: seq<Change>)
    requires Label(name)
    ensures Satisfied(One(name, action), changes) <==>
            changes != [] && forall c | c in changes :: c == Change(WorkerAddress(name), action)
  {
    LabelPlain(name);
    hide WorkerAddress, Match;
    var e := Expectation(WorkerAddress(name), [action], true);
    assert e in One(name, action);
    forall c: Change
      ensures Allows(e, c) <==> c == Change(WorkerAddress(name), action)
    {
      PlainMatches(WorkerAddress(name), c.address);
    }
    if changes != [] && forall c | c in changes :: c == Change(WorkerAddress(name), action) {
      assert changes[0] in changes && Allows(e, changes[0]);
      assert Met(e, changes);
    }
  }

  lemma LabelPlain(name: string)
    requires Label(name)
    ensures '*' !in WorkerAddress(name) && '"' !in name
  {
    assert '*' !in WORKERS;
  }

  // --- Decide ---------------------------------------------------------------------------

  datatype Gate = Gate(apply: bool, allowUnexpected: bool)

  datatype Decision = Mismatched | Kept | ToApply

  /** Check, then what ApplyChecked does with a plan that passed. */
  method Decide(changes: seq<Change>, intent: Intent, mode: Gate) returns (r: Decision)
    ensures r == Mismatched <==> mode.apply && !mode.allowUnexpected && !Satisfied(intent, changes)
    ensures r == ToApply <==> mode.apply && changes != [] && (mode.allowUnexpected || Satisfied(intent, changes))
  {
    var mm := Check(intent, changes);
    if mm != [] && mode.apply && !mode.allowUnexpected {
      return Mismatched;
    }
    r := if !mode.apply || changes == [] then Kept else ToApply;
  }
}

/** Servers created or replaced with a seeded host key (internal/provision/workers.go). */
module Provision {
  import opened Text
  import opened Intent
  import P = HostPins

  datatype Outcome = Failed | Nothing | Created(ips: map<string, P.Addr>)

  /** The names the first plan would create, in the plan's order. */
  function NewNames(changes: seq<Change>): seq<string> {
    if changes == [] then []
    else
      var c, rest := changes[0], NewNames(changes[1..]);
      if c.action == Create && WorkerOf(c.address).Some? then [WorkerOf(c.address).value] + rest else rest
  }

  function Creates(names: seq<string>): Intent {
    seq(|names|, i requires 0 <= i < |names| => Expectation(WorkerAddress(names[i]), [Create], true))
  }

  /** The pins after each of names in turn is pinned at its address. */
  function Pinned(lines: seq<P.Line>, names: seq<string>, ips: map<string, P.Addr>, keys: map<string, P.Key>): seq<P.Line>
    requires forall n | n in names :: n in ips && n in keys
  {
    if names == [] then lines
    else
      var init, n := names[..|names| - 1], names[|names| - 1];
      assert n in names && forall m | m in init :: m in names;
      P.Rewritten(Pinned(lines, init, ips, keys), ips[n], [keys[n]], true)
  }

  // --- Names in order ---------------------------------------------------------

  function Insert(x: string, names: seq<string>): (r: seq<string>)
    ensures forall n :: n in r <==> n == x || n in names
  {
    if names == [] || !Less(names[0], x) then [x] + names else [names[0]] + Insert(x, names[1..])
  }

  /** sort.Strings. */
  function Sort(names: seq<string>): (r: seq<string>)
    ensures forall n :: n in r <==> n in names
  {
    if names == [] then [] else Insert(names[0], Sort(names[1..]))
  }

  lemma {:induction false} InsertSame(x: string, names: seq<string>)
    ensures multiset(Insert(x, names)) == multiset(names) + multiset{x}
  {
    if names != [] && Less(names[0], x) {
      InsertSame(x, names[1..]);
      assert names == [names[0]] + names[1..];
    }
  }

  /** Sorting keeps the names. */
  lemma {:induction false} SortSame(names: seq<string>)
    ensures multiset(Sort(names)) == multiset(names)
  {
    if names != [] {
      SortSame(names[1..]);
      InsertSame(names[0], Sort(names[1..]));
      assert names == [names[0]] + names[1..];
    }
  }

  /** No name stands before a smaller one. */
  ghost predicate InOrder(names: seq<string>) {
    forall i, j | 0 <= i < j < |names| :: !Less(names[j], names[i])
  }

  lemma {:induction false} LessTrans(a: string, b: string, c: string)
    ensures Less(a, b) && Less(b, c) ==> Less(a, c)
    ensures Less(a, b) ==> !Less(b, a)
    ensures !Less(a, b) && !Less(b, a) ==> a == b
  {
    if a != "" && b != "" && c != "" {
      LessTrans(a[1..], b[1..], c[1..]);
      assert a == [a[0]] + a[1..] && b == [b[0]] + b[1..];
    } else if a != "" && b != "" {
      LessTrans(a[1..], b[1..], "");
      assert a == [a[0]] + a[1..] && b == [b[0]] + b[1..];
    }
  }

  lemma {:induction false} InsertInOrder(x: string, names: seq<string>)
    requires InOrder(names)
    ensures InOrder(Insert(x, names))
  {
    hide Less;
    if names != [] && Less(names[0], x) {
      var rest := Insert(x, names[1..]);
      assert InOrder(names[1..]);
      InsertInOrder(x, names[1..]);
      InsertSame(x, names[1..]);
      forall n | n in rest
        ensures !Less(n, names[0])
      {
        assert n in multiset(rest);
        LessTrans(names[0], x, "");
        if n != x {
          assert n in names[1..];
          var i :| 0 <= i < |names[1..]| && names[1..][i] == n;
          assert names[i + 1] == n;
        }
      }
      assert forall i | 0 <= i < |rest| :: rest[i] in rest;
    } else if names != [] {
      forall n | n in names
        ensures !Less(n, x)
      {
        var i :| 0 <= i < |names| && names[i] == n;
        LessTrans(n, x, names[0]);
        LessTrans(names[0], n, x);
        LessTrans(n, names[0], x);
      }
      assert forall i | 0 <= i < |names| :: names[i] in names;
    }
  }

  lemma {:induction false} SortInOrder(names: seq<string>)
    ensures InOrder(Sort(names))
  {
    if names != [] {
      SortInOrder(names[1..]);
      InsertInOrder(names[0], Sort(names[1..]));
    }
  }

  // --- CreateWorkers ------------------------------------------------------------

  /** The first of names without an address, or |names|. */
  function FirstUnnamed(names: seq<string>, ips: map<string, P.Addr>): (k: nat)
    ensures k <= |names| && (forall n | n in names[..k] :: n in ips) && (k < |names| ==> names[k] !in ips)
  {
    if names == [] || names[0] !in ips then 0
    else
      var k := 1 + FirstUnnamed(names[1..], ips);
      assert names[..k] == [names[0]] + names[1..][..k - 1];
      k
  }

  /**
   * pinCreated; ips are the workers outputs, without the empty ones. It stops at a Worker
   * without an address, and those before it are pinned.
   */
  method PinCreated(names: seq<string>, keys: map<string, P.Key>, ips: map<string, P.Addr>, pins: P.Pins) returns (r: Outcome)
    requires forall n | n in names :: n in keys
    modifies pins
    ensures r.Created? <==> forall n | n in names :: n in ips
    ensures pins.lines == (var k := FirstUnnamed(names, ips); Pinned(old(pins.lines), names[..k], ips, keys))
    ensures r.Created? ==> pins.lines == Pinned(old(pins.lines), names, ips, keys)
    ensures r.Created? ==> r.ips == map n | n in names :: ips[n]
    ensures !r.Created? ==> r.Failed?
  {
    var created: map<string, P.Addr> := map[];
    for i := 0 to |names|
      invariant forall n | n in names[..i] :: n in ips && n in keys
      invariant pins.lines == Pinned(old(pins.lines), names[..i], ips, keys)
      invariant created == map n | n in names[..i] :: ips[n]
    {
      var n := names[i];
      assert n in names;
      assert names[..i + 1] == names[..i] + [n] && names[..i + 1][..i] == names[..i];
      if n !in ips {
        FirstIs(names, ips, i);
        return Failed;
      }
      pins.Set(ips[n], [keys[n]]);
      created := created[n := ips[n]];
    }
    assert names[..|names|] == names;
    FirstIs(names, ips, |names|);
    r := Created(created);
  }

  lemma {:induction false} FirstIs(names: seq<string>, ips: map<string, P.Addr>, i: nat)
    requires i <= |names| && (forall n | n in names[..i] :: n in ips) && (i < |names| ==> names[i] !in ips)
    ensures FirstUnnamed(names, ips) == i
  {
    if i > 0 {
      assert names[0] in names[..i];
      assert names[..i][1..] == names[1..][..i - 1];
      FirstIs(names[1..], ips, i - 1);
    }
  }

  /** The loop over the first plan's changes. */
  method GatherNames(changes: seq<Change>) returns (names: seq<string>)
    ensures names == NewNames(changes)
  {
    hide WorkerOf;
    names := [];
    for i := 0 to |changes|
      invariant names + NewNames(changes[i..]) == NewNames(changes)
    {
      var c := changes[i];
      assert changes[i..][0] == c && changes[i..][1..] == changes[i + 1..];
      if c.action == Create && WorkerOf(c.address).Some? {
        assert names + ([WorkerOf(c.address).value] + NewNames(changes[i + 1..])) ==
               names + [WorkerOf(c.address).value] + NewNames(changes[i + 1..]);
        names := names + [WorkerOf(c.address).value];
      }
    }
  }

  /** What the first plan would create, sorted, is what the caller means to create. */
  ghost predicate AsWanted(first: seq<Change>, want: Option<seq<string>>) {
    want.Some? ==> multiset(NewNames(first)) == multiset(want.value)
  }

  /**
   * CreateWorkers. first and second are the two plans as Terraform makes them, ips the
   * outputs after the apply, ok whether that apply succeeded. applied: it was asked to.
   */
  method CreateWorkers(first: Option<seq<Change>>, want: Option<seq<string>>, keys: map<string, P.Key>, second: Option<seq<Change>>,
                       mode: Gate, ok: bool, ips: Option<map<string, P.Addr>>, pins: P.Pins)
      returns (r: Outcome, applied: bool)
    requires first.Some? ==> forall n | n in NewNames(first.value) :: n in keys
    modifies pins
    ensures applied <==>
      && mode.apply && first.Some? && second.Some? && second.value != [] && AsWanted(first.value, want)
      && (mode.allowUnexpected || Satisfied(Creates(Sort(NewNames(first.value))), second.value))
    ensures r.Nothing? <==>
      && first.Some? && second.Some? && AsWanted(first.value, want)
      && (!mode.apply || (second.value == [] && (mode.allowUnexpected || Satisfied(Creates(Sort(NewNames(first.value))), second.value))))
    ensures r.Created? <==> applied && ok && ips.Some? && forall n | n in NewNames(first.value) :: n in ips.value
    ensures !(applied && ok && ips.Some?) ==> pins.lines == old(pins.lines)
    ensures applied && ok && ips.Some? ==>
      var names := Sort(NewNames(first.value));
      var k := FirstUnnamed(names, ips.value);
      pins.lines == Pinned(old(pins.lines), names[..k], ips.value, keys) && (r.Created? ==> k == |names|)
    ensures r.Created? ==> r.ips == map n | n in NewNames(first.value) :: ips.value[n]
  {
    hide Less, Sort, NewNames, Satisfied, Creates, Pinned;
    applied := false;
    if first.None? {
      return Failed, applied;
    }
    var names := GatherNames(first.value);
    SortSame(names);
    names := Sort(names);
    if want.Some? && multiset(names) != multiset(want.value) {
      return Failed, applied;
    }
    if second.None? {
      return Failed, applied;
    }
    var d := Decide(second.value, Creates(names), mode);
    if d == Mismatched {
      return Failed, applied;
    }
    if d == Kept {
      return Nothing, applied;
    }
    applied := true;
    if !ok || ips.None? {
      return Failed, applied;
    }
    r := PinCreated(names, keys, ips.value, pins);
    if r.Created? {
      assert names[..|names|] == names;
      FirstIs(names, ips.value, |names|);
    }
  }

  /** A plan the Intent of the creates admits creates exactly those Workers, each at least once. */
  lemma {:induction false} CreatesAdmit(names: seq<string>, changes: seq<Change>)
    requires forall n | n in names :: Label(n)
    ensures Satisfied(Creates(names), changes) <==>
            && (forall c | c in changes :: c.action == Create && exists n :: n in names && c.address == WorkerAddress(n))
            && (forall n | n in names :: Change(WorkerAddress(n), Create) in changes)
  {
    hide WorkerAddress, Match, Label;
    forall n, c: Change | n in names
      ensures Allows(Expectation(WorkerAddress(n), [Create], true), c) <==> c == Change(WorkerAddress(n), Create)
    {
      LabelPlain(n);
      PlainMatches(WorkerAddress(n), c.address);
    }
    var all := Creates(names);
    forall e | e in all
      ensures exists n :: n in names && e == Expectation(WorkerAddress(n), [Create], true)
    {
      var i :| 0 <= i < |all| && all[i] == e;
      assert names[i] in names;
    }
    forall n | n in names
      ensures Expectation(WorkerAddress(n), [Create], true) in all
    {
      var i :| 0 <= i < |names| && names[i] == n;
      assert all[i] == Expectation(WorkerAddress(n), [Create], true);
    }
    if Satisfied(all, changes) {
      forall c | c in changes
        ensures c.action == Create && exists n :: n in names && c.address == WorkerAddress(n)
      {
        var e :| e in all && Allows(e, c);
      }
      forall n | n in names
        ensures Change(WorkerAddress(n), Create) in changes
      {
        var e := Expectation(WorkerAddress(n), [Create], true);
        assert e in all;
      }
    } else {
    }
  }

  /** Pinning the created Workers leaves every other address' pins alone. */
  lemma {:induction false} PinnedOthers(lines: seq<P.Line>, names: seq<string>, ips: map<string, P.Addr>, keys: map<string, P.Key>, a: P.Addr)
    requires forall n | n in names :: n in ips && n in keys
    ensures (forall n | n in names :: ips[n] != a) ==> P.KeysAt(Pinned(lines, names, ips, keys), a) == P.KeysAt(lines, a)
    ensures forall k | 0 <= k < |names| && ips[names[k]] == a && (forall j | k < j < |names| :: ips[names[j]] != a) ::
              names[k] in names && P.KeysAt(Pinned(lines, names, ips, keys), a) == [keys[names[k]]]
    decreases |names|
  {
    hide P.KeysAt, P.Rewritten;
    if names != [] {
      var init, n := names[..|names| - 1], names[|names| - 1];
      assert n in names && forall m | m in init :: m in names;
      PinnedOthers(lines, init, ips, keys, a);
      P.RewrittenPins(Pinned(lines, init, ips, keys), ips[n], [keys[n]], true, a);
      forall k | 0 <= k < |names| && ips[names[k]] == a && (forall j | k < j < |names| :: ips[names[j]] != a)
        ensures names[k] in names && P.KeysAt(Pinned(lines, names, ips, keys), a) == [keys[names[k]]]
      {
        if k < |names| - 1 {
          assert init[k] == names[k];
          assert forall j | k < j < |init| :: init[j] == names[j];
        }
      }
    }
  }
}
