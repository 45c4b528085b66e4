/**
 * The bootstrap SSH gate (tools/kluster/internal/sshgate, internal/cloud/firewall.go and
 * withBootstrapSSH in cmd/node_add.go), against a Terraform provider that may report success
 * and do anything.
 */
module SshGate {
  import opened Text
  import I = Intent

  datatype Rule = Rule(inbound: bool, tcp: bool, port: Option<string>, other: string)

  /** IsSSHRule: the code looks at the text of the port. */
  predicate IsSshRule(r: Rule) {
    r.inbound && r.tcp && r.port == Some("22")
  }

  predicate HasSshRule(rules: seq<Rule>) {
    exists r :: r in rules && IsSshRule(r)
  }

  // --- What a rule admits -----------------------------------------------------------

  const SSH_PORT := 22

  /** A decimal number. */
  function Number(s: string): Option<nat> {
    if s == "" then None
    else if !('0' <= s[|s| - 1] <= '9') then None
    else
      var d := (s[|s| - 1] - '0') as nat;
      if |s| == 1 then Some(d)
      else match Number(s[..|s| - 1])
        case None => None
        case Some(n) => Some(10 * n + d)
  }

  /** The ports a rule's text says: one, or a first and a last. */
  function Ports(text: string): Option<(nat, nat)> {
    var parts := Split(text, '-');
    if |parts| > 2 then None
    else match (Number(parts[0]), Number(parts[|parts| - 1]))
      case (Some(lo), Some(hi)) => Some((lo, hi))
      case _ => None
  }

  /** Inbound TCP on port 22 passes: the rule's port or range holds it. */
  predicate AdmitsSsh(r: Rule) {
    && r.inbound && r.tcp && r.port.Some? && Ports(r.port.value).Some?
    && Ports(r.port.value).value.0 <= SSH_PORT <= Ports(r.port.value).value.1
  }

  /** A rule that admits port 22 in other words than the text 22: a range, or leading zeros. */
  predicate AdmitsUnseen(r: Rule) {
    AdmitsSsh(r) && !IsSshRule(r)
  }

  /** Every SSH rule admits port 22, and a rule that admits it is an SSH rule exactly when its text is 22. */
  lemma SshRuleAdmits(r: Rule)
    ensures IsSshRule(r) ==> AdmitsSsh(r)
    ensures AdmitsSsh(r) ==> (IsSshRule(r) <==> r.port.value == "22")
  {
    PortsSsh();
  }

  lemma PortsSsh()
    ensures Ports("22") == Some((22, 22))
  {
    SplitPiece("22", "", '-');
    assert "22"[..1] == "2";
    assert Number("2") == Some(2);
  }

  /** The range 20-25 admits port 22 and is no SSH rule: every reading of it as closed is wrong. */
  lemma RangeUnseen(other: string)
    ensures var r := Rule(true, true, Some("20-25"), other);
            && AdmitsSsh(r) && !IsSshRule(r) && Others([r]) == [r]
            && Closed(Rules(Some([r]), None)) && !Shut(Rules(Some([r]), None))
  {
    var r := Rule(true, true, Some("20-25"), other);
    PortsRange();
    assert [r][0] == r && [r][1..] == [];
    var rules := Rules(Some([r]), None);
    assert |"20-25"| != |"22"|;
    assert AdmitsSsh(r) && !IsSshRule(r);
    assert !HasSshRule([r]);
    assert !Open(rules, ControlPlane) && !Open(rules, Worker);
    assert Of(rules, ControlPlane) == Some([r]) && r in Of(rules, ControlPlane).value;
  }

  lemma PortsRange()
    ensures Ports("20-25") == Some((20, 25))
  {
    assert "20-25" == "20" + ['-'] + "25";
    SplitPiece("20", "25", '-');
    SplitPiece("25", "", '-');
    assert "20"[..1] == "2" && "25"[..1] == "2";
    assert Number("2") == Some(2);
    assert Number("20") == Some(20) && Number("25") == Some(25);
  }

  // --- Rules without SSH --------------------------------------------------------------

  /** Every rule that is no SSH rule, in order. */
  function Others(rules: seq<Rule>): seq<Rule> {
    if rules == [] then [] else (if IsSshRule(rules[0]) then [] else [rules[0]]) + Others(rules[1..])
  }

  function OneOther(r: Rule): seq<Rule> {
    if IsSshRule(r) then [] else [r]
  }

  lemma OthersCons(rules: seq<Rule>)
    requires rules != []
    ensures Others(rules) == OneOther(rules[0]) + Others(rules[1..])
  {}

  method WithoutSsh(rules: seq<Rule>) returns (out: seq<Rule>)
    ensures out == Others(rules) && !HasSshRule(out)
  {
    hide Others, HasSshRule;
    out := [];
    OthersNone();
    for i := 0 to |rules|
      invariant out == Others(rules[..i])
    {
      OthersStep(rules, i);
      if !IsSshRule(rules[i]) {
        out := out + [rules[i]];
      }
    }
    assert rules[..|rules|] == rules;
    OthersShut(rules);
  }

  lemma OthersNone()
    ensures Others([]) == []
  {}

  lemma {:induction false} OthersStep(rules: seq<Rule>, i: nat)
    requires i < |rules|
    ensures Others(rules[..i + 1]) == Others(rules[..i]) + if IsSshRule(rules[i]) then [] else [rules[i]]
  {
    hide Others;
    assert rules[..i + 1] == rules[..i] + [rules[i]] + [];
    OthersInOrder(rules[..i], rules[i], []);
    OthersNone();
  }

  /** Each other rule stays between what stays before it and what stays after it. */
  lemma {:induction false} OthersInOrder(before: seq<Rule>, r: Rule, after: seq<Rule>)
    ensures Others(before + [r] + after) == Others(before) + (if IsSshRule(r) then [] else [r]) + Others(after)
  {
    if before == [] {
      assert before + [r] + after == [r] + after;
      assert ([r] + after)[1..] == after;
    } else {
      assert (before + [r] + after)[1..] == before[1..] + [r] + after;
      OthersInOrder(before[1..], r, after);
      OthersCons(before);
      OthersCons(before + [r] + after);
      var one := if IsSshRule(r) then [] else [r];
      hide Others;
      Assoc(OneOther(before[0]), Others(before[1..]), one);
      Assoc(OneOther(before[0]), Others(before[1..]) + one, Others(after));
    }
  }

  // --- The cloud ----------------------------------------------------------------------

  datatype Firewall = ControlPlane | Worker

  function Address(fw: Firewall): string {
    if fw == ControlPlane then "hcloud_firewall.cp" else "hcloud_firewall.worker"
  }

  /** The two firewalls; None: not there, as in an empty project. */
  datatype Rules = Rules(cp: Option<seq<Rule>>, worker: Option<seq<Rule>>)

  function Of(r: Rules, fw: Firewall): Option<seq<Rule>> {
    if fw == ControlPlane then r.cp else r.worker
  }

  function Put(r: Rules, fw: Firewall, rules: Option<seq<Rule>>): Rules {
    if fw == ControlPlane then r.(cp := rules) else r.(worker := rules)
  }

  predicate Open(r: Rules, fw: Firewall) {
    Of(r, fw).Some? && HasSshRule(Of(r, fw).value)
  }

  predicate Closed(r: Rules) {
    !Open(r, ControlPlane) && !Open(r, Worker)
  }

  /** Neither firewall admits port 22, by any rule. */
  ghost predicate Shut(r: Rules) {
    forall fw, x | Of(r, fw).Some? && x in Of(r, fw).value :: !AdmitsSsh(x)
  }

  ghost predicate NoneUnseen(r: Rules) {
    forall fw, x | Of(r, fw).Some? && x in Of(r, fw).value :: !AdmitsUnseen(x)
  }

  /** What reads as closed is shut exactly when no range holds port 22. */
  lemma ShutIff(r: Rules)
    ensures Shut(r) <==> Closed(r) && NoneUnseen(r)
  {
    hide AdmitsSsh, IsSshRule;
    forall x: Rule
      ensures IsSshRule(x) ==> AdmitsSsh(x)
    {
      SshRuleAdmits(x);
    }
    if Shut(r) {
      forall fw, x | Of(r, fw).Some? && x in Of(r, fw).value
        ensures !IsSshRule(x) && !AdmitsUnseen(x)
      {
        assert !AdmitsSsh(x);
      }
    } else if Closed(r) {
      var fw, x :| Of(r, fw).Some? && x in Of(r, fw).value && AdmitsSsh(x);
      assert !Open(r, fw);
      assert AdmitsUnseen(x);
    }
  }

  /** The provider's one known fault: from one rule to none it changes nothing. */
  function FaultyPut(have: seq<Rule>, want: seq<Rule>): seq<Rule> {
    if |have| == 1 && want == [] then have else want
  }

  function PlanOf(have: Rules, want: Rules): seq<I.Change> {
    (if have.cp == want.cp then [] else [I.Change(Address(ControlPlane), I.Update)]) +
    (if have.worker == want.worker then [] else [I.Change(Address(Worker), I.Update)])
  }

  /** The rule of the operator's address that an open adds. */
  type SshRule = r: Rule | IsSshRule(r) witness Rule(true, true, Some("22"), "")

  /** What the Module wants with the switches of fws on. */
  function Opened(want: Rules, fws: set<Firewall>, ssh: SshRule): Rules {
    Rules(if ControlPlane in fws && want.cp.Some? then Some(want.cp.value + [ssh]) else want.cp,
          if Worker in fws && want.worker.Some? then Some(want.worker.value + [ssh]) else want.worker)
  }

  /** Both firewalls are there. */
  predicate Whole(r: Rules) {
    r.cp.Some? && r.worker.Some?
  }

  /** What an apply with the known fault leaves. */
  function FaultyApply(have: Rules, want: Rules): Rules
    requires Whole(have) && Whole(want)
  {
    Rules(Some(FaultyPut(have.cp.value, want.cp.value)), Some(FaultyPut(have.worker.value, want.worker.value)))
  }

  /**
   * The Hetzner API and the shared Module's Terraform. When tame, the provider has the known
   * fault and nothing else fails; otherwise it may plan, apply and report anything.
   */
  class Cloud {
    var rules: Rules
    const closed: Rules         // what the Module wants with both switches off
    const ssh: SshRule
    const tame: bool
    var lastPlan: Option<seq<I.Change>>

    constructor (rules: Rules, closed: Rules, ssh: SshRule, tame: bool)
      ensures this.rules == rules && this.closed == closed && this.ssh == ssh && this.tame == tame
    {
      this.rules, this.closed, this.ssh, this.tame, this.lastPlan := rules, closed, ssh, tame, None;
    }

    /** terraform plan with both switches off: reads only. */
    method PlanClose() returns (r: Option<seq<I.Change>>)
      modifies this`lastPlan
      ensures lastPlan == r
      ensures tame ==> r == Some(PlanOf(rules, closed))
    {
      r := *;
      if tame {
        r := Some(PlanOf(rules, closed));
      }
      lastPlan := r;
    }

    method ApplyClose() returns (ok: bool)
      modifies this`rules
      ensures tame && Whole(old(rules)) && Whole(closed) ==> ok && rules == FaultyApply(old(rules), closed)
    {
      ok := *;
      if tame && Whole(rules) && Whole(closed) {
        rules := FaultyApply(rules, closed);
        ok := true;
      } else {
        rules := *;
      }
    }

    /** terraform plan with the switches of fws on. */
    method PlanOpen(fws: set<Firewall>) returns (r: Option<seq<I.Change>>)
      ensures tame ==> r == Some(PlanOf(rules, Opened(closed, fws, ssh)))
    {
      r := *;
      if tame {
        r := Some(PlanOf(rules, Opened(closed, fws, ssh)));
      }
    }

    method ApplyOpen(fws: set<Firewall>) returns (ok: bool)
      modifies this`rules
      ensures tame && Whole(old(rules)) && Whole(closed) ==> ok && rules == FaultyApply(old(rules), Opened(closed, fws, ssh))
    {
      ok := *;
      if tame && Whole(rules) && Whole(closed) {
        rules := FaultyApply(rules, Opened(closed, fws, ssh));
        ok := true;
      } else {
        rules := *;
      }
    }

    /** A read of the API: what is there, or an error. */
    method SshOpen(fw: Firewall) returns (r: Option<bool>)
      ensures r.Some? ==> r.value == Open(rules, fw)
      ensures tame ==> r.Some?
    {
      var failed: bool := *;
      if failed && !tame {
        return None;
      }
      var f := Of(rules, fw);
      if f.None? {
        return Some(false);
      }
      var open := false;
      for i := 0 to |f.value|
        invariant open <==> HasSshRule(f.value[..i])
      {
        assert f.value[..i + 1] == f.value[..i] + [f.value[i]];
        if IsSshRule(f.value[i]) {
          assert f.value[i] in f.value[..i + 1];
          open := true;
        }
      }
      assert f.value[..|f.value|] == f.value;
      r := Some(open);
    }

    /** ClearSSH sets the firewall's other rules; the call may fail before or after that took effect, or report too early. */
    method ClearSsh(fw: Firewall) returns (ok: bool)
      modifies this`rules
      ensures rules == old(rules) || (Of(old(rules), fw).Some? && rules == Put(old(rules), fw, Some(Others(Of(old(rules), fw).value))))
      ensures tame && Of(old(rules), fw).Some? ==> ok && rules == Put(old(rules), fw, Some(Others(Of(old(rules), fw).value)))
    {
      var f := Of(rules, fw);
      if f.None? {
        return false;
      }
      var out := WithoutSsh(f.value);
      var took: bool := *;
      ok := *;
      if took || tame {
        rules := Put(rules, fw, Some(out));
      }
      if tame {
        ok := true;
      }
    }
  }

  // --- Gate ---------------------------------------------------------------------------

  function CloseIntent(): I.Intent {
    [I.Expectation(Address(ControlPlane), [I.Update], false), I.Expectation(Address(Worker), [I.Update], false)]
  }

  /** Nothing but SSH rules stands between the firewalls and what the Module wants. */
  predicate OnlySsh(have: Rules, want: Rules) {
    && have.cp.Some? && have.worker.Some?
    && want == Rules(Some(Others(have.cp.value)), Some(Others(have.worker.value)))
  }

  /** The middle of Close for one firewall: read back, clear, read back. */
  method CloseOne(c: Cloud, mode: I.Gate, fw: Firewall) returns (err: bool, still: bool)
    modifies c`rules
    ensures c.rules == old(c.rules) || (mode.apply && Of(old(c.rules), fw).Some? &&
              c.rules == Put(old(c.rules), fw, Some(Others(Of(old(c.rules), fw).value))))
    ensures !err ==> still == Open(c.rules, fw)
    ensures c.tame && mode.apply && Of(old(c.rules), fw).Some? ==>
              !err && !still && c.rules == if Open(old(c.rules), fw) then Put(old(c.rules), fw, Some(Others(Of(old(c.rules), fw).value))) else old(c.rules)
  {
    still := false;
    var open := c.SshOpen(fw);
    if open.None? {
      return true, false;
    }
    if !open.value {
      return false, false;
    }
    if !mode.apply {
      return false, true;
    }
    var ok := c.ClearSsh(fw);
    if Of(old(c.rules), fw).Some? {
      OthersShut(Of(old(c.rules), fw).value);
    }
    if !ok {
      return true, false;
    }
    open := c.SshOpen(fw);
    if open.None? {
      return true, false;
    }
    return false, open.value;
  }

  lemma {:induction false} OthersShut(rules: seq<Rule>)
    ensures !HasSshRule(Others(rules))
    ensures !HasSshRule(rules) ==> Others(rules) == rules
  {
    if rules != [] {
      OthersShut(rules[1..]);
      assert !HasSshRule(rules) ==> !HasSshRule(rules[1..]) by { assert forall r | r in rules[1..] :: r in rules; }
      assert rules[0] in rules;
      assert rules == [rules[0]] + rules[1..];
    }
  }

  /**
   * Gate.Close. Whatever the provider did and reported, nil means that no firewall has a rule
   * for port 22, and under --apply that the last plan was empty; port 22 is then shut if and
   * only if no rule's range holds it. When the provider has its known fault and no other, nil
   * under --apply leaves the Module's own rules, and where SSH rules are all that differs it
   * does return nil.
   */
  method Close(c: Cloud, mode: I.Gate) returns (ok: bool)
    modifies c
    ensures ok ==> Closed(c.rules) && (Shut(c.rules) <==> NoneUnseen(c.rules))
    ensures ok && mode.apply ==> c.lastPlan == Some([])
    ensures ok && mode.apply && c.tame ==> c.rules == c.closed
    ensures !mode.apply ==> c.rules == old(c.rules)
    ensures c.tame && mode.apply && OnlySsh(old(c.rules), c.closed) ==> ok && c.rules == c.closed
  {
    hide Shut, NoneUnseen;
    ghost var before := c.rules;
    var p := c.PlanClose();
    if p.None? {
      return false;
    }
    if OnlySsh(before, c.closed) && c.tame {
      CloseAdmitted(before, c.closed);
    }
    var d := I.Decide(p.value, CloseIntent(), mode);
    if d == I.Mismatched {
      return false;
    }
    if d == I.ToApply {
      var applied := c.ApplyClose();
      if !applied {
        return false;
      }
    }
    ghost var mid := c.rules;
    if OnlySsh(before, c.closed) && c.tame && mode.apply {
      AppliedOnlySsh(before, c.closed, mid);
    }
    var err, stillCp := CloseOne(c, mode, ControlPlane);
    if err {
      return false;
    }
    ghost var later := c.rules;
    var stillWorker;
    err, stillWorker := CloseOne(c, mode, Worker);
    if err {
      return false;
    }
    if stillCp || stillWorker {
      return false;
    }
    ShutIff(c.rules);
    if !mode.apply {
      return true;
    }
    if OnlySsh(before, c.closed) && c.tame {
      ClearedIs(mid, c.closed, c.rules);
    }
    p := c.PlanClose();
    ok := p == Some([]);
  }

  lemma {:induction false} CloseAdmitted(have: Rules, want: Rules)
    ensures I.Satisfied(CloseIntent(), PlanOf(have, want))
  {
    var e, f := CloseIntent()[0], CloseIntent()[1];
    AddressPlain();
    hide Address, I.Match;
    I.PlainMatches(Address(ControlPlane), Address(ControlPlane));
    I.PlainMatches(Address(Worker), Address(Worker));
    forall x | x in PlanOf(have, want)
      ensures I.Allowed(CloseIntent(), x)
    {
      assert I.Allows(e, x) || I.Allows(f, x);
      assert e in CloseIntent() && f in CloseIntent();
    }
  }

  lemma AddressPlain()
    ensures '*' !in Address(ControlPlane) && '*' !in Address(Worker)
  {}

  /** What the faulty apply leaves still differs by SSH rules alone. */
  lemma AppliedOnlySsh(before: Rules, want: Rules, mid: Rules)
    requires OnlySsh(before, want)
    requires mid == before || mid == FaultyApply(before, want)
    ensures OnlySsh(mid, want)
  {
    OthersShut(before.cp.value);
    OthersShut(before.worker.value);
    OthersShut(Others(before.cp.value));
    OthersShut(Others(before.worker.value));
  }

  lemma ClearedIs(mid: Rules, want: Rules, after: Rules)
    requires OnlySsh(mid, want)
    requires after.cp == (if Open(mid, ControlPlane) then Some(Others(mid.cp.value)) else mid.cp)
    requires after.worker == (if Open(mid, Worker) then Some(Others(mid.worker.value)) else mid.worker)
    ensures after == want && PlanOf(after, want) == []
  {
    OthersShut(mid.cp.value);
    OthersShut(mid.worker.value);
  }

  /** An open leaves the firewalls differing from the Module by SSH rules alone, and those of fws open. */
  lemma {:induction false} OpenedOnlySsh(before: Rules, want: Rules, fws: set<Firewall>, ssh: SshRule)
    requires OnlySsh(before, want)
    ensures Whole(want) && Whole(Opened(want, fws, ssh))
    ensures OnlySsh(FaultyApply(before, Opened(want, fws, ssh)), want)
    ensures forall fw | fw in fws :: Open(FaultyApply(before, Opened(want, fws, ssh)), fw)
    ensures forall fw | fw in fws && before == Opened(want, fws, ssh) :: Open(before, fw)
  {
    OpenedOne(before.cp.value, ssh);
    OpenedOne(before.worker.value, ssh);
    hide Others, HasSshRule, FaultyPut;
    assert want.cp.value == Others(before.cp.value) && want.worker.value == Others(before.worker.value);
  }

  /** The same for the rules of one firewall. */
  lemma {:induction false} OpenedOne(have: seq<Rule>, ssh: SshRule)
    ensures Others(FaultyPut(have, Others(have))) == Others(have)
    ensures Others(FaultyPut(have, Others(have) + [ssh])) == Others(have)
    ensures HasSshRule(FaultyPut(have, Others(have) + [ssh])) && HasSshRule(Others(have) + [ssh])
  {
    OthersShut(have);
    OthersShut(Others(have));
    AddedSsh(Others(have), ssh);
    hide Others, HasSshRule, IsSshRule;
  }

  lemma AddedSsh(rules: seq<Rule>, ssh: SshRule)
    ensures Others(rules + [ssh]) == Others(rules) && HasSshRule(rules + [ssh])
  {
    OthersInOrder(rules, ssh, []);
    OthersNone();
    assert rules + [ssh] + [] == rules + [ssh];
    assert (rules + [ssh])[|rules|] == ssh && ssh in rules + [ssh];
  }

  /** The Intent of an open admits its plan when the other firewalls are as the Module wants. */
  lemma {:induction false} OpenAdmitted(have: Rules, want: Rules, fws: seq<Firewall>, ssh: SshRule)
    requires forall fw | fw !in fws :: Of(have, fw) == Of(want, fw)
    ensures I.Satisfied(OpenIntent(fws), PlanOf(have, Opened(want, (set f | f in fws), ssh)))
  {
    AddressPlain();
    hide Address, I.Match;
    I.PlainMatches(Address(ControlPlane), Address(ControlPlane));
    I.PlainMatches(Address(Worker), Address(Worker));
    var all := OpenIntent(fws);
    forall fw | fw in fws
      ensures I.Allowed(all, I.Change(Address(fw), I.Update))
    {
      var i :| 0 <= i < |fws| && fws[i] == fw;
      assert all[i] == I.Expectation(Address(fw), [I.Update], false);
      assert fw == ControlPlane || fw == Worker;
      assert I.Match(Address(fw), Address(fw));
      assert I.Allows(all[i], I.Change(Address(fw), I.Update));
    }
    assert Of(have, ControlPlane) == have.cp && Of(have, Worker) == have.worker;
    assert Of(want, ControlPlane) == want.cp && Of(want, Worker) == want.worker;
    assert forall e | e in all :: exists i :: 0 <= i < |all| && all[i] == e;
  }

  function OpenIntent(fws: seq<Firewall>): I.Intent {
    seq(|fws|, i requires 0 <= i < |fws| => I.Expectation(Address(fws[i]), [I.Update], false))
  }

  /**
   * Gate.Open. nil after an apply, or over a plan without changes, means each of fws has a
   * rule for port 22. Under --apply, with the provider's known fault and no other, SSH rules
   * all that stands between the firewalls and the Module, and the firewalls not named as it
   * wants them, it does return nil.
   */
  method OpenGate(c: Cloud, mode: I.Gate, fws: seq<Firewall>) returns (ok: bool, read: bool)
    modifies c`rules
    ensures read ==> ok && forall fw | fw in fws :: Open(c.rules, fw)
    ensures ok && mode.apply ==> read
    ensures !mode.apply ==> c.rules == old(c.rules)
    ensures c.tame && OnlySsh(old(c.rules), c.closed) ==> OnlySsh(c.rules, c.closed)
    ensures c.tame && mode.apply && OnlySsh(old(c.rules), c.closed) && (forall fw | fw !in fws :: Of(old(c.rules), fw) == Of(c.closed, fw)) ==> read
  {
    read := false;
    var expectations: I.Intent := [];
    var all: set<Firewall> := {};
    for i := 0 to |fws|
      invariant expectations == OpenIntent(fws[..i]) && all == set f | f in fws[..i]
    {
      assert fws[..i + 1] == fws[..i] + [fws[i]];
      expectations := expectations + [I.Expectation(Address(fws[i]), [I.Update], false)];
      all := all + {fws[i]};
    }
    assert fws[..|fws|] == fws;
    ghost var before := c.rules;
    ghost var kept := c.tame && OnlySsh(before, c.closed);
    ghost var sure := kept && mode.apply && forall fw | fw !in fws :: Of(before, fw) == Of(c.closed, fw);
    if kept {
      OpenedOnlySsh(before, c.closed, all, c.ssh);
    }
    if sure {
      OpenAdmitted(before, c.closed, fws, c.ssh);
    }
    hide OnlySsh, Opened, OpenIntent, FaultyApply;
    var p := c.PlanOpen(all);
    if p.None? {
      return false, false;
    }
    if p.value != [] {
      var d := I.Decide(p.value, expectations, mode);
      if d == I.Mismatched {
        return false, false;
      }
      if d == I.Kept {
        return true, false;
      }
      var applied := c.ApplyOpen(all);
      if !applied {
        return false, false;
      }
    }
    for i := 0 to |fws|
      invariant forall fw | fw in fws[..i] :: Open(c.rules, fw)
      invariant !mode.apply ==> c.rules == old(c.rules)
      invariant kept ==> OnlySsh(c.rules, c.closed)
      invariant sure ==> forall fw | fw in fws :: Open(c.rules, fw)
    {
      assert fws[..i + 1] == fws[..i] + [fws[i]];
      var open := c.SshOpen(fws[i]);
      if open.None? || !open.value {
        return false, false;
      }
    }
    return true, true;
  }

  /**
   * What runs with SSH open, ending as it does: it may do anything to the firewalls, when tame
   * to their SSH rules.
   */
  method Body(c: Cloud)
    modifies c`rules
    ensures c.tame && OnlySsh(old(c.rules), c.closed) ==> OnlySsh(c.rules, c.closed)
  {
    var to: Rules := *;
    if !c.tame || OnlySsh(to, c.closed) {
      c.rules := to;
    }
  }

  /**
   * withBootstrapSSH; built: the gate was, and nothing is open before it is; good: how the body
   * ends. However the open went and whatever the body did, the close runs, and nil is returned
   * only with both firewalls closed, shut but for ranges, and, under --apply, a clean plan.
   * Behind the gate, with the provider's known fault and no other, and SSH rules all that is
   * added and removed, every return under --apply leaves the Module's own rules, after a
   * failed open or body too; and where the firewall that stays closed was closed, nil is
   * returned exactly when the body ends well.
   */
  method WithBootstrapSsh(c: Cloud, mode: I.Gate, isLive: bool, built: bool, good: bool) returns (ok: bool)
    modifies c
    ensures ok ==> built && good && Closed(c.rules) && (mode.apply ==> c.lastPlan == Some([]))
    ensures ok ==> (Shut(c.rules) <==> NoneUnseen(c.rules))
    ensures built && c.tame && mode.apply && OnlySsh(old(c.rules), c.closed) ==> c.rules == c.closed
    ensures built && c.tame && mode.apply && OnlySsh(old(c.rules), c.closed) && (isLive ==> old(c.rules).cp == c.closed.cp) ==> (ok <==> good)
    ensures !built ==> c.rules == old(c.rules)
  {
    hide Shut, NoneUnseen, OnlySsh;
    if !built {
      return false;
    }
    var fws := [Worker] + if isLive then [] else [ControlPlane];
    assert fws[0] == Worker && (!isLive ==> fws[1] == ControlPlane);
    forall fw | fw !in fws
      ensures isLive && fw == ControlPlane
    {
      assert fw == ControlPlane || fw == Worker;
    }
    var admitted, _ := OpenGate(c, mode, fws);
    if admitted {
      Body(c);
    }
    var closed := Close(c, mode);
    ok := admitted && good && closed;
  }
}
