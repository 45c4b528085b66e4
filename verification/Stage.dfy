/**
 * The Stage runner (tools/kluster/internal/stage/stage.go). S is all a host's Stages read and
 * change. A Stage is its Probe's answer on a state and what its Act makes of a state; which
 * calls fail, and how far a failing Act got, is an arbitrary function of a clock.
 */
module Stage {
  /** act's second argument is the moment: an Act that fails may have left anything behind. */
  datatype Stage<!S> = Stage(done: S -> bool, act: (S, nat) -> S)

  /** How a run went: the host's state, whether it returned nil, how often it acted, the clock. */
  datatype Outcome<S> = Outcome(state: S, ok: bool, acts: nat, clock: nat)

  function Run<S>(stages: seq<Stage<S>>, apply: bool, fails: nat -> bool, s: S, t: nat): Outcome<S>
    decreases |stages|
  {
    if stages == [] then Outcome(s, true, 0, t)
    else if fails(t) then Outcome(s, false, 0, t + 1)                               // Probe
    else if stages[0].done(s) then Run(stages[1..], apply, fails, s, t + 1)
    else if fails(t + 1) then Outcome(s, false, 0, t + 2)                           // Preview
    else if !apply then Run(stages[1..], apply, fails, s, t + 2)
    else
      var s1 := stages[0].act(s, t + 2);
      if fails(t + 2) then Outcome(s1, false, 1, t + 3)                             // Act
      else if fails(t + 3) || !stages[0].done(s1) then Outcome(s1, false, 1, t + 4) // Probe after acting
      else
        var r := Run(stages[1..], apply, fails, s1, t + 4);
        r.(acts := r.acts + 1)
  }

  /** Run over the Stages from i on, by the i-th Stage's turn. */
  lemma RunFrom<S>(stages: seq<Stage<S>>, i: nat, apply: bool, fails: nat -> bool, s: S, t: nat)
    requires i < |stages|
    ensures Run(stages[i..], apply, fails, s, t) ==
            if fails(t) then Outcome(s, false, 0, t + 1)
            else if stages[i].done(s) then Run(stages[i + 1..], apply, fails, s, t + 1)
            else if fails(t + 1) then Outcome(s, false, 0, t + 2)
            else if !apply then Run(stages[i + 1..], apply, fails, s, t + 2)
            else
              var s1 := stages[i].act(s, t + 2);
              if fails(t + 2) then Outcome(s1, false, 1, t + 3)
              else if fails(t + 3) || !stages[i].done(s1) then Outcome(s1, false, 1, t + 4)
              else
                var r := Run(stages[i + 1..], apply, fails, s1, t + 4);
                r.(acts := r.acts + 1)
  {
    assert stages[i..][0] == stages[i] && stages[i..][1..] == stages[i + 1..];
  }

  lemma RunNone<S>(stages: seq<Stage<S>>, apply: bool, fails: nat -> bool, s: S, t: nat)
    requires stages == []
    ensures Run(stages, apply, fails, s, t) == Outcome(s, true, 0, t)
  {}

  class Host<S> {
    var state: S
    var clock: nat

    constructor (state: S)
      ensures this.state == state && clock == 0
    {
      this.state, this.clock := state, 0;
    }

    method RunStages(stages: seq<Stage<S>>, apply: bool, fails: nat -> bool) returns (ok: bool, ghost acts: nat)
      modifies this
      ensures Outcome(state, ok, acts, clock) == Run(stages, apply, fails, old(state), old(clock))
    {
      hide Run;
      acts := 0;
      assert stages[0..] == stages;
      for i := 0 to |stages|
        invariant var r := Run(stages[i..], apply, fails, state, clock);
                  r.(acts := r.acts + acts) == Run(stages, apply, fails, old(state), old(clock))
      {
        var s := stages[i];
        RunFrom(stages, i, apply, fails, state, clock);
        var failed := fails(clock);
        clock := clock + 1;
        if failed { return false, acts; }
        if s.done(state) { continue; }
        failed := fails(clock);
        clock := clock + 1;
        if failed { return false, acts; }
        if !apply { continue; }
        state := s.act(state, clock);
        acts := acts + 1;
        failed := fails(clock);
        clock := clock + 1;
        if failed { return false, acts; }
        failed := fails(clock);
        clock := clock + 1;
        if failed || !s.done(state) { return false, acts; }
      }
      RunNone(stages[|stages|..], apply, fails, state, clock);
      ok := true;
    }
  }

  // --- Properties of one run --------------------------------------------------------

  /** The states after each Stage's turn, as far as the run got. */
  function Turns<S>(stages: seq<Stage<S>>, fails: nat -> bool, s: S, t: nat): (r: seq<S>)
    ensures |r| <= |stages|
    decreases |stages|
  {
    if stages == [] || fails(t) then []
    else if stages[0].done(s) then [s] + Turns(stages[1..], fails, s, t + 1)
    else if fails(t + 1) || fails(t + 2) || fails(t + 3) then []
    else
      var s1 := stages[0].act(s, t + 2);
      if !stages[0].done(s1) then [] else [s1] + Turns(stages[1..], fails, s1, t + 4)
  }

  /** Each Stage a run got past was done at its turn, and a run returns nil exactly when it got past all. */
  lemma {:induction false} DoneAtTurn<S>(stages: seq<Stage<S>>, fails: nat -> bool, s: S, t: nat)
    ensures var r, turns := Run(stages, true, fails, s, t), Turns(stages, fails, s, t);
            && (r.ok <==> |turns| == |stages|)
            && (forall k | 0 <= k < |turns| :: stages[k].done(turns[k]))
            && (r.ok ==> r.state == if turns == [] then s else turns[|turns| - 1])
    decreases |stages|
  {
    var turns := Turns(stages, fails, s, t);
    if turns != [] {
      var u := if stages[0].done(s) then t + 1 else t + 4;
      DoneAtTurn(stages[1..], fails, turns[0], u);
      var rest := Turns(stages[1..], fails, turns[0], u);
      assert turns == [turns[0]] + rest;
      forall k | 0 <= k < |turns|
        ensures stages[k].done(turns[k])
      {
        if k > 0 {
          assert stages[1..][k - 1].done(rest[k - 1]);
        }
      }
    }
  }

  /** No Stage's Act, finished or cut, undoes an earlier Stage. */
  ghost predicate KeepsEarlier<S(!new)>(stages: seq<Stage<S>>) {
    forall j, k, s, t | 0 <= j < k < |stages| && stages[j].done(s) :: stages[j].done(stages[k].act(s, t))
  }

  lemma KeepsTail<S(!new)>(stages: seq<Stage<S>>)
    requires KeepsEarlier(stages) && stages != []
    ensures KeepsEarlier(stages[1..])
  {
    forall j, k, s, t | 0 <= j < k < |stages[1..]| && stages[1..][j].done(s)
      ensures stages[1..][j].done(stages[1..][k].act(s, t))
    {
      assert stages[j + 1].done(stages[k + 1].act(s, t));
    }
  }

  /** A done predicate that no Stage's Act undoes survives a run, however it ends. */
  lemma {:induction false} RunKeepsDone<S(!new)>(stages: seq<Stage<S>>, apply: bool, fails: nat -> bool, s: S, t: nat, done: S -> bool)
    requires done(s) && forall k, u, m: nat | 0 <= k < |stages| && done(u) :: done(stages[k].act(u, m))
    ensures done(Run(stages, apply, fails, s, t).state)
    decreases |stages|
  {
    if stages != [] {
      forall k, u, m: nat | 0 <= k < |stages[1..]| && done(u)
        ensures done(stages[1..][k].act(u, m))
      {
        assert stages[1..][k] == stages[k + 1];
      }
      RunKeepsDone(stages[1..], apply, fails, s, t + 1, done);
      RunKeepsDone(stages[1..], apply, fails, s, t + 2, done);
      var s1 := stages[0].act(s, t + 2);
      assert done(s1);
      RunKeepsDone(stages[1..], apply, fails, s1, t + 4, done);
    }
  }

  /** When no Act undoes an earlier Stage, the Stages a run got past are all done at its end, and all of them after nil. */
  lemma {:induction false} AllDone<S(!new)>(stages: seq<Stage<S>>, fails: nat -> bool, s: S, t: nat)
    requires KeepsEarlier(stages)
    ensures forall k | 0 <= k < |Turns(stages, fails, s, t)| :: stages[k].done(Run(stages, true, fails, s, t).state)
    decreases |stages|
  {
    var turns := Turns(stages, fails, s, t);
    if turns != [] {
      var u := if stages[0].done(s) then t + 1 else t + 4;
      KeepsTail(stages);
      AllDone(stages[1..], fails, turns[0], u);
      FirstKept(stages);
      RunKeepsDone(stages[1..], true, fails, turns[0], u, stages[0].done);
      assert Run(stages, true, fails, s, t).state == Run(stages[1..], true, fails, turns[0], u).state;
      assert turns == [turns[0]] + Turns(stages[1..], fails, turns[0], u);
      forall k | 0 <= k < |turns|
        ensures stages[k].done(Run(stages, true, fails, s, t).state)
      {
        if k > 0 {
          assert stages[1..][k - 1] == stages[k];
        }
      }
    }
  }

  lemma FirstKept<S(!new)>(stages: seq<Stage<S>>)
    requires stages != [] && KeepsEarlier(stages)
    ensures forall k, u, m: nat | 0 <= k < |stages[1..]| && stages[0].done(u) :: stages[0].done(stages[1..][k].act(u, m))
  {
    forall k, u, m: nat | 0 <= k < |stages[1..]| && stages[0].done(u)
      ensures stages[0].done(stages[1..][k].act(u, m))
    {
      assert stages[1..][k] == stages[k + 1];
    }
  }

  /** Over Stages that are done, a run acts not at all, whatever fails. */
  lemma {:induction false} DoneRunIdle<S>(stages: seq<Stage<S>>, apply: bool, fails: nat -> bool, s: S, t: nat)
    requires forall k | 0 <= k < |stages| :: stages[k].done(s)
    ensures var r := Run(stages, apply, fails, s, t);
            r.state == s && r.acts == 0 && (r.ok <==> forall k: nat | t <= k < t + |stages| :: !fails(k))
    decreases |stages|
  {
    if stages != [] {
      DoneRunIdle(stages[1..], apply, fails, s, t + 1);
      assert !fails(t) ==> ((forall k: nat | t <= k < t + |stages| :: !fails(k)) <==> forall k: nat | t + 1 <= k < t + 1 + |stages[1..]| :: !fails(k));
    }
  }

  /** A run passes over a done beginning without acting: it resumes at the first Stage that is not done. */
  lemma {:induction false} ResumesAt<S>(stages: seq<Stage<S>>, n: nat, apply: bool, fails: nat -> bool, s: S, t: nat)
    requires n <= |stages| && forall k | 0 <= k < n :: stages[k].done(s)
    requires forall k: nat | t <= k < t + n :: !fails(k)
    ensures Run(stages, apply, fails, s, t) == Run(stages[n..], apply, fails, s, t + n)
    decreases n
  {
    if n > 0 {
      assert forall k | 0 <= k < n - 1 :: stages[1..][k] == stages[k + 1];
      ResumesAt(stages[1..], n - 1, apply, fails, s, t + 1);
      assert stages[1..][n - 1..] == stages[n..];
    } else {
      assert stages[0..] == stages;
    }
  }

  /**
   * A run cut anywhere, then one more: whatever the first got past, the second passes over
   * without acting, and goes on with the rest from the state the first left.
   */
  lemma {:induction false} CutRunResumes<S(!new)>(stages: seq<Stage<S>>, fails: nat -> bool, s: S, t: nat, again: nat -> bool, u: nat)
    requires KeepsEarlier(stages)
    requires var n := |Turns(stages, fails, s, t)|; forall k: nat | u <= k < u + n :: !again(k)
    ensures var n, cut := |Turns(stages, fails, s, t)|, Run(stages, true, fails, s, t).state;
            Run(stages, true, again, cut, u) == Run(stages[n..], true, again, cut, u + n)
  {
    AllDone(stages, fails, s, t);
    ResumesAt(stages, |Turns(stages, fails, s, t)|, true, again, Run(stages, true, fails, s, t).state, u);
  }

  /** Nil under Apply: every Stage is done at the end, and a rerun acts not at all and changes nothing. */
  lemma {:induction false} NilThenIdle<S(!new)>(stages: seq<Stage<S>>, fails: nat -> bool, s: S, t: nat, again: nat -> bool, u: nat)
    requires KeepsEarlier(stages) && Run(stages, true, fails, s, t).ok
    ensures var r := Run(stages, true, fails, s, t);
            && (forall k | 0 <= k < |stages| :: stages[k].done(r.state))
            && Run(stages, true, again, r.state, u).acts == 0 && Run(stages, true, again, r.state, u).state == r.state
  {
    DoneAtTurn(stages, fails, s, t);
    AllDone(stages, fails, s, t);
    DoneRunIdle(stages, true, again, Run(stages, true, fails, s, t).state, u);
  }

  /** Plan Mode changes nothing. */
  lemma {:induction false} PlanIdle<S>(stages: seq<Stage<S>>, fails: nat -> bool, s: S, t: nat)
    ensures Run(stages, false, fails, s, t).state == s && Run(stages, false, fails, s, t).acts == 0
    decreases |stages|
  {
    if stages != [] {
      PlanIdle(stages[1..], fails, s, t + 1);
      PlanIdle(stages[1..], fails, s, t + 2);
    }
  }

  // --- RunAll ---------------------------------------------------------------------------

  // Every host's run is its own goroutine. One step is one call of Probe, Preview or Act.

  datatype Phase = Probing | Previewing | Acting | Reprobing | Ended(ok: bool)

  datatype Routine<!S> = Routine(stages: seq<Stage<S>>, apply: bool, fails: nat -> bool, phase: Phase, state: S, acts: nat, clock: nat)

  function StepOf<S>(k: Routine<S>): Routine<S> {
    var n := k.(clock := k.clock + 1);
    var failed := k.fails(k.clock);
    match k.phase
    case Ended(_) => k
    case Probing =>
      if k.stages == [] then k.(phase := Ended(true))
      else if failed then n.(phase := Ended(false))
      else if k.stages[0].done(k.state) then n.(stages := k.stages[1..])
      else n.(phase := Previewing)
    case Previewing =>
      if k.stages == [] then k.(phase := Ended(true))
      else if failed then n.(phase := Ended(false))
      else if !k.apply then n.(stages := k.stages[1..], phase := Probing)
      else n.(phase := Acting)
    case Acting =>
      if k.stages == [] then k.(phase := Ended(true))
      else
        var m := n.(state := k.stages[0].act(k.state, k.clock), acts := k.acts + 1);
        if failed then m.(phase := Ended(false)) else m.(phase := Reprobing)
    case Reprobing =>
      if k.stages == [] then k.(phase := Ended(true))
      else if failed || !k.stages[0].done(k.state) then n.(phase := Ended(false))
      else n.(stages := k.stages[1..], phase := Probing)
  }

  function Started<S>(stages: seq<Stage<S>>, apply: bool, fails: nat -> bool, s: S): Routine<S> {
    Routine(stages, apply, fails, Probing, s, 0, 0)
  }

  function StepsOf<S>(k: Routine<S>, n: nat): Routine<S> {
    if n == 0 then k else StepOf(StepsOf(k, n - 1))
  }

  /** What Run makes of the rest of a routine. */
  function RestOf<S>(k: Routine<S>): Outcome<S> {
    var r :=
      if k.phase.Ended? then Outcome(k.state, k.phase.ok, 0, k.clock)
      else if k.stages == [] then Outcome(k.state, true, 0, k.clock)
      else match k.phase
        case Previewing =>
          if k.fails(k.clock) then Outcome(k.state, false, 0, k.clock + 1)
          else if !k.apply then Run(k.stages[1..], k.apply, k.fails, k.state, k.clock + 1)
          else AfterAct(k, k.clock + 1)
        case Acting => AfterAct(k, k.clock)
        case Reprobing =>
          if k.fails(k.clock) || !k.stages[0].done(k.state) then Outcome(k.state, false, 0, k.clock + 1)
          else Run(k.stages[1..], k.apply, k.fails, k.state, k.clock + 1)
        case _ => Run(k.stages, k.apply, k.fails, k.state, k.clock);
    r.(acts := k.acts + r.acts)
  }

  function AfterAct<S>(k: Routine<S>, t: nat): Outcome<S>
    requires k.stages != []
  {
    var s1 := k.stages[0].act(k.state, t);
    if k.fails(t) then Outcome(s1, false, 1, t + 1)
    else if k.fails(t + 1) || !k.stages[0].done(s1) then Outcome(s1, false, 1, t + 2)
    else
      var r := Run(k.stages[1..], k.apply, k.fails, s1, t + 2);
      r.(acts := r.acts + 1)
  }

  lemma {:induction false} StepKeepsRest<S>(k: Routine<S>)
    ensures RestOf(StepOf(k)) == RestOf(k)
  {
    match k.phase {
      case Probing => ProbeKeeps(k);
      case Previewing => RestOfRun(k.(stages := if k.stages == [] then [] else k.stages[1..], phase := Probing, clock := k.clock + 1));
      case Acting =>
      case Reprobing => RestOfRun(k.(stages := if k.stages == [] then [] else k.stages[1..], phase := Probing, clock := k.clock + 1));
      case Ended(_) =>
    }
  }

  /** A routine about to probe has a run of its Stages before it. */
  lemma RestOfRun<S>(k: Routine<S>)
    requires k.phase.Probing?
    ensures var r := Run(k.stages, k.apply, k.fails, k.state, k.clock);
            RestOf(k) == r.(acts := k.acts + r.acts)
  {}

  lemma ProbeKeeps<S>(k: Routine<S>)
    requires k.phase.Probing?
    ensures RestOf(StepOf(k)) == RestOf(k)
  {
    if k.stages != [] {
      RestOfRun(k);
      RestOfRun(k.(stages := k.stages[1..], clock := k.clock + 1));
    }
  }

  lemma {:induction false} StepsKeepRest<S>(k: Routine<S>, n: nat)
    ensures RestOf(StepsOf(k, n)) == RestOf(k)
  {
    if n > 0 {
      StepsKeepRest(k, n - 1);
      StepKeepsRest(StepsOf(k, n - 1));
    }
  }

  /** A schedule lets host i take the next step. */
  function Interleave<S>(routines: seq<Routine<S>>, schedule: seq<nat>): (r: seq<Routine<S>>)
    ensures |r| == |routines|
  {
    if schedule == [] then routines
    else
      var w, i := Interleave(routines, schedule[..|schedule| - 1]), schedule[|schedule| - 1];
      if i < |w| then w[i := StepOf(w[i])] else w
  }

  function Turn(schedule: seq<nat>, i: nat): nat {
    if schedule == [] then 0
    else Turn(schedule[..|schedule| - 1], i) + if schedule[|schedule| - 1] == i then 1 else 0
  }

  /** In any interleaving each host has made its own steps and no others. */
  lemma {:induction false} InterleavedAlone<S>(routines: seq<Routine<S>>, schedule: seq<nat>, i: nat)
    requires i < |routines|
    ensures Interleave(routines, schedule)[i] == StepsOf(routines[i], Turn(schedule, i))
  {
    if schedule != [] {
      InterleavedAlone(routines, schedule[..|schedule| - 1], i);
    }
  }

  /** g.Wait: nil when every host's run returned nil. */
  function Waited<S>(routines: seq<Routine<S>>): bool {
    forall i | 0 <= i < |routines| :: routines[i].phase == Ended(true)
  }

  /**
   * RunAll: once every host's run has ended, in whatever interleaving and whatever failed,
   * each host is as Run alone leaves it, and RunAll returns nil exactly when each run does.
   */
  lemma {:induction false} RunAllAlone<S>(stages: seq<Stage<S>>, apply: bool, fails: seq<nat -> bool>, states: seq<S>, schedule: seq<nat>)
    requires |fails| == |states|
    ensures var routines := seq(|states|, i requires 0 <= i < |states| => Started(stages, apply, fails[i], states[i]));
            var ends := Interleave(routines, schedule);
            (forall i | 0 <= i < |ends| :: ends[i].phase.Ended?) ==>
              && (forall i | 0 <= i < |ends| ::
                    Outcome(ends[i].state, ends[i].phase.ok, ends[i].acts, ends[i].clock) == Run(stages, apply, fails[i], states[i], 0))
              && (Waited(ends) <==> forall i | 0 <= i < |states| :: Run(stages, apply, fails[i], states[i], 0).ok)
  {
    var routines := seq(|states|, i requires 0 <= i < |states| => Started(stages, apply, fails[i], states[i]));
    var ends := Interleave(routines, schedule);
    if forall i | 0 <= i < |ends| :: ends[i].phase.Ended? {
      forall i | 0 <= i < |ends|
        ensures Outcome(ends[i].state, ends[i].phase.ok, ends[i].acts, ends[i].clock) == Run(stages, apply, fails[i], states[i], 0)
      {
        InterleavedAlone(routines, schedule, i);
        StepsKeepRest(routines[i], Turn(schedule, i));
        StartedRest(stages, apply, fails[i], states[i]);
      }
    }
  }

  lemma StartedRest<S>(stages: seq<Stage<S>>, apply: bool, fails: nat -> bool, s: S)
    ensures RestOf(Started(stages, apply, fails, s)) == Run(stages, apply, fails, s, 0)
  {}
}
