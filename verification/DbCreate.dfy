/**
 * db create over whole runs (tools/kluster/internal/db/stages.go and plan.go,
 * tools/kluster/cmd/db.go): the repository's generation, the two archive buckets, the two
 * Clusters, and every interleaving of db create's steps with the Clusters' own writes,
 * commits, reverts and Clusters deleted by hand.
 */
module DbCreate {
  import opened Text
  import G = Generations

  datatype Mode = Fresh | Recover

  /** A generation's path in a bucket: which Clusters have written there, and whether a WAL segment is there. */
  datatype Path = Path(writers: set<nat>, segment: bool)

  type Bucket = map<int, Path>

  /** A Cluster in its slot, with the render it was made from. */
  datatype Cluster = Cluster(id: nat, render: Render)

  /** What db create applies: the mode, the generation the repository named, a recovery's target time. */
  datatype Render = Render(mode: Mode, generation: int, target: Option<int>)

  function Archives(r: Render): int {
    if r.mode == Recover then r.generation + 1 else r.generation
  }

  /** A db create under way. Checked: the preflight has passed, the Cluster is not applied yet. */
  datatype Phase = Checked | Applied

  datatype Run = Run(render: Render, phase: Phase)

  /** The files of one checkout: the generation pg-cluster.yaml names, and whether CheckOverlay passes. */
  datatype Files = Files(generation: int, sound: bool)

  datatype Env = Env(cluster: Option<Cluster>, run: Option<Run>, bucket: Bucket)

  /** A Cluster that was ever made: where, and from which render. */
  datatype Made = Made(isLive: bool, render: Render)

  datatype World = World(
    head: Files,            // what is committed
    tree: Files,            // the working tree
    live: Env,
    rehearsal: Env,
    locked: set<int>,       // generations of the live bucket under a lock rule
    made: map<nat, Made>)   // every Cluster so far, by id

  predicate Holds(b: Bucket, g: int) {
    g in b && b[g].writers != {}
  }

  function EnvOf(w: World, isLive: bool): Env {
    if isLive then w.live else w.rehearsal
  }

  function WithEnv(w: World, isLive: bool, e: Env): World {
    if isLive then w.(live := e) else w.(rehearsal := e)
  }

  // --- Preflight -------------------------------------------------------------------

  /** g is the newest generation with objects; 0 where there is none. */
  ghost predicate IsNewest(b: Bucket, g: int) {
    if g == 0 then forall h | h >= 1 :: !Holds(b, h)
    else g >= 1 && Holds(b, g) && forall h | Holds(b, h) :: h <= g
  }

  /** The bucket's prefixes as it lists them: its generations, and anything else. */
  ghost predicate Lists(prefixes: seq<string>, b: Bucket) {
    && (forall p | p in prefixes :: G.ParseGeneration(TrimSlash(p)).Some? ==> Holds(b, G.ParseGeneration(TrimSlash(p)).value))
    && (forall g | g >= 1 && Holds(b, g) :: exists p :: p in prefixes && G.ParseGeneration(TrimSlash(p)) == Some(g))
  }

  /** strings.TrimSuffix(p, "/"). */
  function TrimSlash(p: string): string {
    if p != "" && p[|p| - 1] == '/' then p[..|p| - 1] else p
  }

  /** The loop of checkSource. */
  method NewestOf(prefixes: seq<string>) returns (newest: int)
    ensures newest == 0 || exists p :: p in prefixes && G.ParseGeneration(TrimSlash(p)) == Some(newest)
    ensures newest >= 0 && forall p | p in prefixes && G.ParseGeneration(TrimSlash(p)).Some? :: G.ParseGeneration(TrimSlash(p)).value <= newest
  {
    hide G.ParseGeneration, TrimSlash;
    newest := 0;
    for i := 0 to |prefixes|
      invariant newest == 0 || exists p :: p in prefixes[..i] && G.ParseGeneration(TrimSlash(p)) == Some(newest)
      invariant newest >= 0
      invariant forall p | p in prefixes[..i] && G.ParseGeneration(TrimSlash(p)).Some? :: G.ParseGeneration(TrimSlash(p)).value <= newest
    {
      var g := G.ParseGeneration(TrimSlash(prefixes[i]));
      assert prefixes[..i + 1] == prefixes[..i] + [prefixes[i]];
      if g.Some? && g.value > newest {
        newest := g.value;
      }
    }
    assert prefixes[..|prefixes|] == prefixes;
  }

  /** db-preflight lets a run go on: the render's own Cluster, unchanged, or an empty slot and the buckets in order. */
  ghost predicate Preflight(w: World, isLive: bool, r: Render) {
    var e := EnvOf(w, isLive);
    if e.cluster.Some? then e.cluster.value.render == r
    else
      && !Holds(e.bucket, Archives(r))
      && (r.mode == Recover ==>
            && r.generation >= 1 && IsNewest(w.live.bucket, r.generation)
            && w.live.bucket[r.generation].segment
            && (isLive ==> Archives(r) in w.locked))
  }

  /** Preflight.Probe, in the order of the code; it gathers the errors and refuses on any. */
  method CheckPreflight(w: World, isLive: bool, r: Render, prefixes: seq<string>) returns (ok: bool)
    requires Lists(prefixes, w.live.bucket) && r.generation >= 1
    ensures ok <==> Preflight(w, isLive, r)
  {
    hide G.ParseGeneration, TrimSlash;
    var e := EnvOf(w, isLive);
    if e.cluster.Some? {
      return e.cluster.value.render == r;
    }
    var errs := 0;
    if Archives(r) in e.bucket && e.bucket[Archives(r)].writers != {} {
      errs := errs + 1;
    }
    if r.mode == Recover {
      var newest := NewestOf(prefixes);
      NewestListed(prefixes, w.live.bucket, newest);
      NewestOnce(w.live.bucket, newest, r.generation);
      if newest == 0 || newest != r.generation {
        errs := errs + 1;
      } else if !w.live.bucket[r.generation].segment {
        errs := errs + 1;
      }
      if isLive && Archives(r) !in w.locked {
        errs := errs + 1;
      }
    }
    ok := errs == 0;
  }

  lemma NewestListed(prefixes: seq<string>, b: Bucket, newest: int)
    requires Lists(prefixes, b)
    requires newest == 0 || exists p :: p in prefixes && G.ParseGeneration(TrimSlash(p)) == Some(newest)
    requires newest >= 0 && forall p | p in prefixes && G.ParseGeneration(TrimSlash(p)).Some? :: G.ParseGeneration(TrimSlash(p)).value <= newest
    ensures IsNewest(b, newest)
  {
    hide G.ParseGeneration, TrimSlash;
  }

  lemma NewestOnce(b: Bucket, g: int, h: int)
    requires IsNewest(b, g) && h >= 1
    ensures IsNewest(b, h) <==> g == h
  {}

  // --- The steps -----------------------------------------------------------------------

  datatype Act =
    | Start(isLive: bool, mode: Mode, target: Option<int>)   // the gates and db-preflight
    | Apply(isLive: bool)                                    // db-cluster
    | Archive(isLive: bool, segment: bool)                   // a Cluster writes an object
    | BumpCut                                                // db-generation, cut between its files
    | Bump                                                   // db-generation
    | End(isLive: bool)                                      // the run ends, or is cut
    | Commit
    | Revert
    | Delete(isLive: bool)                                   // by hand, a Cluster
    | Down(kept: set<int>)                                   // the rehearsal and what it archived
    | Lock(g: int)
    | Mend                                                   // the overlay, by hand

  /** A resumed run stands between its preflight and its apply, and the path it will archive to has a writer. */
  predicate InWindow(e: Env) {
    && e.cluster.Some? && e.run.Some? && e.run.value.phase == Checked
    && Holds(e.bucket, Archives(e.run.value.render))
  }

  function Made1(w: World, isLive: bool, id: nat, r: Render): World {
    WithEnv(w, isLive, EnvOf(w, isLive).(cluster := Some(Cluster(id, r)), run := Some(Run(r, Applied))))
      .(made := w.made[id := Made(isLive, r)])
  }

  function Wrote(e: Env, segment: bool): Env
    requires e.cluster.Some?
  {
    var g := Archives(e.cluster.value.render);
    var p := if g in e.bucket then e.bucket[g] else Path({}, false);
    e.(bucket := e.bucket[g := Path(p.writers + {e.cluster.value.id}, p.segment || segment)])
  }

  /** One step of kluster, of a Cluster or of the operator. */
  ghost predicate Steps(w: World, a: Act, v: World) {
    match a
    case Start(isLive, mode, target) =>
      // Build reads the committed files: the working tree is clean and the overlay sound.
      var r := Render(mode, w.tree.generation, target);
      && (mode == Fresh ==> target.None?)   // a target time is for a recovery
      && EnvOf(w, isLive).run.None? && w.tree == w.head && w.tree.sound && Preflight(w, isLive, r)
      && v == WithEnv(w, isLive, EnvOf(w, isLive).(run := Some(Run(r, Checked))))
    case Apply(isLive) =>
      var e := EnvOf(w, isLive);
      && e.run.Some? && e.run.value.phase == Checked
      && var r := e.run.value.render;
         if e.cluster.Some? && e.cluster.value.render == r then v == WithEnv(w, isLive, e.(run := Some(Run(r, Applied))))
         else exists id: nat :: id !in w.made && v == Made1(w, isLive, id, r)
    case Archive(isLive, segment) =>
      EnvOf(w, isLive).cluster.Some? && v == WithEnv(w, isLive, Wrote(EnvOf(w, isLive), segment))
    case BumpCut =>
      BumpReady(w) && v == w.(tree := Files(w.tree.generation + 1, false), live := w.live.(run := None))
    case Bump =>
      BumpReady(w) && v == w.(tree := Files(w.tree.generation + 1, w.tree.sound))
    case End(isLive) =>
      v == WithEnv(w, isLive, EnvOf(w, isLive).(run := None))
    case Commit =>
      v == w.(head := w.tree)
    case Revert =>
      v == w.(tree := w.head)
    case Mend =>
      v == w.(tree := w.tree.(sound := true))
    case Delete(isLive) =>
      !InWindow(EnvOf(w, isLive)) && v == Deleted(w, isLive)
    case Down(kept) =>
      && w.rehearsal.run.None?
      && v == w.(rehearsal := Env(None, None, map g | g in w.rehearsal.bucket && g in kept :: w.rehearsal.bucket[g]))
    case Lock(g) =>
      v == w.(locked := w.locked + {g})
  }

  function Deleted(w: World, isLive: bool): World {
    WithEnv(w, isLive, EnvOf(w, isLive).(cluster := None))
  }

  /**
   * db-generation acts: a live recovery past its db-archive, and a working tree that does not
   * name the generation it archives to.
   */
  ghost predicate BumpReady(w: World) {
    && w.live.run.Some? && w.live.run.value.phase == Applied
    && var r := w.live.run.value.render;
       r.mode == Recover && Holds(w.live.bucket, Archives(r)) && w.tree.generation != Archives(r)
  }

  // --- What every run keeps -------------------------------------------------------------

  /** No archive path was written by two Clusters, and none by a Cluster that does not archive to it. */
  ghost predicate PathsOk(b: Bucket, isLive: bool, made: map<nat, Made>) {
    && (forall g, i, j | Holds(b, g) && i in b[g].writers && j in b[g].writers :: i == j)
    && (forall g, i | Holds(b, g) && i in b[g].writers ::
          i in made && made[i].isLive == isLive && Archives(made[i].render) == g)
  }

  ghost predicate SlotOk(e: Env, isLive: bool, made: map<nat, Made>) {
    && (e.cluster.Some? ==>
          var c := e.cluster.value;
          && c.id in made && made[c.id] == Made(isLive, c.render)
          && (forall i | Holds(e.bucket, Archives(c.render)) && i in e.bucket[Archives(c.render)].writers :: i == c.id))
    && (e.run.Some? ==>
          var run := e.run.value;
          && (e.cluster.Some? ==> e.cluster.value.render == run.render)
          && (e.cluster.None? && run.phase == Checked ==> !Holds(e.bucket, Archives(run.render))))
  }

  ghost predicate Nothing(b: Bucket) {
    forall g :: !Holds(b, g)
  }

  /** A live render archives to the committed generation or its successor, and to no other where nothing is archived yet. */
  ghost predicate RenderOk(w: World, r: Render) {
    && Archives(r) <= w.head.generation + 1 && 1 <= r.generation
    && (r.mode == Recover ==> Holds(w.live.bucket, r.generation))
    && (Nothing(w.live.bucket) ==> r.generation == w.head.generation)
  }

  /** The newest live generation is the committed one or its successor. */
  ghost predicate NewestOk(w: World) {
    && w.head.generation >= 1
    && (forall g | Holds(w.live.bucket, g) :: 1 <= g <= w.head.generation + 1)
    && (Nothing(w.live.bucket) || Holds(w.live.bucket, w.head.generation))
    && (w.tree.generation == w.head.generation ||
        (w.tree.generation == w.head.generation + 1 && Holds(w.live.bucket, w.tree.generation)))
    && (w.live.cluster.Some? ==> RenderOk(w, w.live.cluster.value.render))
    && (w.live.run.Some? ==>
          var r := w.live.run.value.render;
          && RenderOk(w, r)
          && (r.mode == Recover ==> w.tree.generation == r.generation || w.tree.generation == Archives(r)))
  }

  ghost predicate Inv(w: World) {
    && PathsOk(w.live.bucket, true, w.made) && PathsOk(w.rehearsal.bucket, false, w.made)
    && SlotOk(w.live, true, w.made) && SlotOk(w.rehearsal, false, w.made)
    && NewestOk(w)
  }

  lemma {:induction false} StepKeeps(w: World, a: Act, v: World)
    requires Inv(w) && Steps(w, a, v)
    ensures Inv(v)
  {
    match a {
      case Start(isLive, mode, target) => StartKeeps(w, isLive, mode, target, v);
      case Apply(isLive) => ApplyKeeps(w, isLive, v);
      case Archive(isLive, segment) => ArchiveKeeps(w, isLive, segment, v);
      case BumpCut =>
      case Bump =>
      case End(isLive) =>
      case Commit => CommitKeeps(w, v);
      case Revert =>
      case Mend =>
      case Delete(isLive) =>
      case Down(kept) => DownKeeps(w, kept, v);
      case Lock(g) =>
    }
  }

  lemma StartKeeps(w: World, isLive: bool, mode: Mode, target: Option<int>, v: World)
    requires Inv(w) && Steps(w, Start(isLive, mode, target), v)
    ensures Inv(v)
  {}

  lemma ApplyKeeps(w: World, isLive: bool, v: World)
    requires Inv(w) && Steps(w, Apply(isLive), v)
    ensures Inv(v)
  {}

  lemma ArchiveKeeps(w: World, isLive: bool, segment: bool, v: World)
    requires Inv(w) && Steps(w, Archive(isLive, segment), v)
    ensures Inv(v)
  {
    WroteKeepsPaths(EnvOf(w, isLive), isLive, segment, w.made);
    WroteKeepsNewest(w, isLive, segment);
    hide PathsOk, SlotOk, NewestOk, Wrote;
  }

  lemma WroteKeepsPaths(e: Env, isLive: bool, segment: bool, made: map<nat, Made>)
    requires e.cluster.Some? && PathsOk(e.bucket, isLive, made) && SlotOk(e, isLive, made)
    ensures PathsOk(Wrote(e, segment).bucket, isLive, made) && SlotOk(Wrote(e, segment), isLive, made)
  {
    WroteHolds(e, segment);
    hide Holds, Wrote;
  }

  lemma WroteKeepsNewest(w: World, isLive: bool, segment: bool)
    requires EnvOf(w, isLive).cluster.Some? && NewestOk(w)
    ensures NewestOk(WithEnv(w, isLive, Wrote(EnvOf(w, isLive), segment)))
  {
    WroteHolds(EnvOf(w, isLive), segment);
    hide Holds, Wrote;
    if isLive && Nothing(w.live.bucket) {
      assert w.live.cluster.value.render.mode == Fresh;
    }
  }

  /** Writing adds the Cluster to its own path's writers and touches nothing else. */
  lemma WroteHolds(e: Env, segment: bool)
    requires e.cluster.Some?
    ensures var b, g := Wrote(e, segment).bucket, Archives(e.cluster.value.render);
            && Wrote(e, segment) == e.(bucket := b)
            && (forall h :: Holds(b, h) <==> Holds(e.bucket, h) || h == g)
            && (forall h | h != g && Holds(b, h) :: h in b && h in e.bucket && b[h] == e.bucket[h])
            && g in b && (forall i :: i in b[g].writers <==> i == e.cluster.value.id || (Holds(e.bucket, g) && g in e.bucket && i in e.bucket[g].writers))
  {}

  lemma CommitKeeps(w: World, v: World)
    requires Inv(w) && Steps(w, Commit, v)
    ensures Inv(v)
  {}

  lemma DownKeeps(w: World, kept: set<int>, v: World)
    requires Inv(w) && Steps(w, Down(kept), v)
    ensures Inv(v)
  {}

  // --- Whole runs -----------------------------------------------------------------------

  ghost predicate Trace(states: seq<World>, acts: seq<Act>) {
    && |states| == |acts| + 1
    && forall i | 0 <= i < |acts| :: Steps(states[i], acts[i], states[i + 1])
  }

  lemma {:induction false} TraceKeeps(states: seq<World>, acts: seq<Act>, i: nat)
    requires Trace(states, acts) && Inv(states[0]) && i < |states|
    ensures Inv(states[i])
  {
    hide Steps, Inv;
    if i > 0 {
      TraceKeeps(states, acts, i - 1);
      StepKeeps(states[i - 1], acts[i - 1], states[i]);
    }
  }

  /** A repository at a generation, and nothing made or archived yet. */
  predicate Initial(w: World) {
    && w.head.generation >= 1 && w.tree == w.head && w.made == map[]
    && w.live == Env(None, None, map[]) && w.rehearsal == Env(None, None, map[])
  }

  /**
   * At every moment of every run that begins with nothing: no archive path has been written
   * by two Clusters, in either bucket; no recovery has written the generation it reads, nor
   * a rehearsal into the live bucket; and the newest live generation is the committed one or
   * its successor.
   */
  lemma {:induction false} ArchivesSafe(states: seq<World>, acts: seq<Act>, i: nat)
    requires Trace(states, acts) && Initial(states[0]) && i < |states|
    ensures var w := states[i];
            && (forall g, x, y | Holds(w.live.bucket, g) && x in w.live.bucket[g].writers && y in w.live.bucket[g].writers :: x == y)
            && (forall g, x, y | Holds(w.rehearsal.bucket, g) && x in w.rehearsal.bucket[g].writers && y in w.rehearsal.bucket[g].writers :: x == y)
            && (forall g, x | Holds(w.live.bucket, g) && x in w.live.bucket[g].writers ::
                  x in w.made && w.made[x].isLive && !(w.made[x].render.mode == Recover && w.made[x].render.generation == g))
            && (forall g | IsNewest(w.live.bucket, g) :: g == 0 || g == w.head.generation || g == w.head.generation + 1)
  {
    InitialInv(states[0]);
    TraceKeeps(states, acts, i);
    hide Trace;
  }

  lemma InitialInv(w: World)
    requires Initial(w)
    ensures Inv(w)
  {}

  /** A live recovery whose generation is not committed yet: no db create of either mode starts over an empty slot. */
  lemma NoneStarts(w: World, mode: Mode, target: Option<int>, v: World)
    requires Inv(w) && w.live.cluster.None? && Holds(w.live.bucket, w.head.generation + 1)
    ensures !Steps(w, Start(true, mode, target), v)
  {}

  /**
   * A Cluster deleted by hand between a resumed run's preflight and its db-cluster is made
   * again with no look at the buckets. Its first object is the path's second writer if and
   * only if the path had one, the window `Steps` keeps `Delete` out of.
   */
  lemma DeletedMidResume(w: World, isLive: bool, segment: bool, v: World, u: World)
    requires Inv(w) && EnvOf(w, isLive).run.Some? && EnvOf(w, isLive).run.value.phase == Checked
    requires EnvOf(w, isLive).cluster.Some?
    requires Steps(Deleted(w, isLive), Apply(isLive), v) && Steps(v, Archive(isLive, segment), u)
    ensures var g := Archives(EnvOf(w, isLive).run.value.render);
            && Holds(EnvOf(u, isLive).bucket, g)
            && (InWindow(EnvOf(w, isLive)) <==>
                exists x, y :: x in EnvOf(u, isLive).bucket[g].writers && y in EnvOf(u, isLive).bucket[g].writers && x != y)
  {
    var g := Archives(EnvOf(w, isLive).run.value.render);
    WroteHolds(EnvOf(v, isLive), segment);
    assert EnvOf(v, isLive).cluster.value.id in EnvOf(u, isLive).bucket[g].writers;
    if InWindow(EnvOf(w, isLive)) {
      var x :| x in EnvOf(w, isLive).bucket[g].writers;
      assert x in w.made && EnvOf(v, isLive).cluster.value.id !in w.made;
      assert x in EnvOf(u, isLive).bucket[g].writers;
    }
  }

  /** No run, and the working tree committed and sound. */
  predicate Free(w: World, isLive: bool) {
    EnvOf(w, isLive).run.None? && w.tree == w.head && w.tree.sound
  }

  ghost predicate CanStart(w: World, isLive: bool, mode: Mode, target: Option<int>) {
    exists v :: Steps(w, Start(isLive, mode, target), v)
  }

  /**
   * In a kept state, into an empty slot, a fresh live create starts exactly when nothing at all
   * is archived, and a live recovery exactly when the committed generation is the newest, holds
   * a segment, and the next one's path is locked.
   */
  lemma {:induction false} StartIff(w: World, target: Option<int>)
    requires Inv(w) && Free(w, true) && w.live.cluster.None?
    ensures CanStart(w, true, Fresh, None) <==> Nothing(w.live.bucket)
    ensures CanStart(w, true, Recover, target) <==>
            var g := w.head.generation;
            IsNewest(w.live.bucket, g) && w.live.bucket[g].segment && g + 1 in w.locked
  {
    var g := w.head.generation;
    StartIs(w, true, Fresh, None);
    StartIs(w, true, Recover, target);
    hide CanStart;
    assert Preflight(w, true, Render(Fresh, g, None)) <==> Nothing(w.live.bucket);
  }

  /** A rehearsal reads the live generations and needs only its own path empty, and no lock. */
  lemma {:induction false} RehearsalIff(w: World, target: Option<int>)
    requires Inv(w) && Free(w, false) && w.rehearsal.cluster.None?
    ensures var g := w.head.generation;
            && (CanStart(w, false, Fresh, None) <==> !Holds(w.rehearsal.bucket, g))
            && (CanStart(w, false, Recover, target) <==>
                  IsNewest(w.live.bucket, g) && w.live.bucket[g].segment && !Holds(w.rehearsal.bucket, g + 1))
  {
    StartIs(w, false, Fresh, None);
    StartIs(w, false, Recover, target);
    hide CanStart;
  }

  /** Over a Cluster, whatever the buckets hold, exactly a run of its own render starts; applied, it makes none. */
  lemma {:induction false} ResumeIff(w: World, isLive: bool, mode: Mode, target: Option<int>)
    requires Free(w, isLive) && EnvOf(w, isLive).cluster.Some? && (mode == Fresh ==> target.None?)
    ensures CanStart(w, isLive, mode, target) <==> EnvOf(w, isLive).cluster.value.render == Render(mode, w.head.generation, target)
    ensures forall v, u :: Steps(w, Start(isLive, mode, target), v) && Steps(v, Apply(isLive), u) ==>
              u.made == w.made && EnvOf(u, isLive).cluster == EnvOf(w, isLive).cluster
  {
    StartIs(w, isLive, mode, target);
    hide CanStart;
  }

  lemma StartIs(w: World, isLive: bool, mode: Mode, target: Option<int>)
    requires Free(w, isLive) && (mode == Fresh ==> target.None?)
    ensures CanStart(w, isLive, mode, target) <==> Preflight(w, isLive, Render(mode, w.tree.generation, target))
  {
    hide Preflight;
    var r := Render(mode, w.tree.generation, target);
    var v := WithEnv(w, isLive, EnvOf(w, isLive).(run := Some(Run(r, Checked))));
    assert Preflight(w, isLive, r) ==> Steps(w, Start(isLive, mode, target), v);
  }

  // --- What a recovery was made from ------------------------------------------------------

  /** A recovery's source holds a segment, and where the live Cluster archives to is locked. */
  ghost predicate Founded(w: World, isLive: bool, r: Render) {
    r.mode == Recover ==>
      && r.generation in w.live.bucket && w.live.bucket[r.generation].segment
      && (isLive ==> Archives(r) in w.locked)
  }

  ghost predicate EnvFounded(w: World, isLive: bool) {
    var e := EnvOf(w, isLive);
    && (e.cluster.Some? ==> Founded(w, isLive, e.cluster.value.render))
    && (e.run.Some? ==> Founded(w, isLive, e.run.value.render))
  }

  ghost predicate AllFounded(w: World) {
    && EnvFounded(w, true) && EnvFounded(w, false)
    && forall x | x in w.made :: Founded(w, w.made[x].isLive, w.made[x].render)
  }

  /** A step takes no segment and no lock away. */
  lemma {:induction false} StaysFounded(w: World, a: Act, v: World, isLive: bool, r: Render)
    requires Steps(w, a, v) && Founded(w, isLive, r)
    ensures Founded(v, isLive, r)
  {
    hide Preflight, BumpReady, InWindow;
  }

  lemma {:induction false} StepFounds(w: World, a: Act, v: World)
    requires Steps(w, a, v) && AllFounded(w)
    ensures AllFounded(v)
  {
    forall isLive, r | Founded(w, isLive, r)
      ensures Founded(v, isLive, r)
    {
      StaysFounded(w, a, v, isLive, r);
    }
    if a.Start? {
      StartFounded(w, a, v);
    }
    hide Founded, Preflight, BumpReady, InWindow, Holds, Wrote;
  }

  /** A run that starts is founded: the preflight looked, or the Cluster of its render is there. */
  lemma StartFounded(w: World, a: Act, v: World)
    requires Steps(w, a, v) && AllFounded(w) && a.Start?
    ensures Founded(v, a.isLive, Render(a.mode, w.tree.generation, a.target))
  {}

  lemma {:induction false} TraceFounds(states: seq<World>, acts: seq<Act>, i: nat)
    requires Trace(states, acts) && AllFounded(states[0]) && i < |states|
    ensures AllFounded(states[i])
  {
    hide Steps, AllFounded;
    if i > 0 {
      TraceFounds(states, acts, i - 1);
      StepFounds(states[i - 1], acts[i - 1], states[i]);
    }
  }

  /**
   * In every run that begins with nothing, from the moment a recovered Cluster is made: the
   * generation it reads holds a segment, and a live one's archive path is under a lock rule.
   */
  lemma {:induction false} RecoveriesFounded(states: seq<World>, acts: seq<Act>, i: nat, x: nat)
    requires Trace(states, acts) && Initial(states[0]) && i < |states|
    requires x in states[i].made && states[i].made[x].render.mode == Recover
    ensures var w, r := states[i], states[i].made[x].render;
            && r.generation in w.live.bucket && w.live.bucket[r.generation].segment
            && (w.made[x].isLive ==> Archives(r) in w.locked)
  {
    hide Trace, Steps;
    TraceFounds(states, acts, i);
  }

  /** The overlay stays unsound until it is mended by hand or the working tree is put back. */
  lemma UnsoundStays(w: World, a: Act, v: World)
    requires Steps(w, a, v) && !w.tree.sound && !a.Mend? && !a.Revert?
    ensures !v.tree.sound && !a.Start?
  {
    hide Preflight, BumpReady, InWindow;
  }

  lemma {:induction false} UnsoundUntil(states: seq<World>, acts: seq<Act>, i: nat, j: nat)
    requires Trace(states, acts) && i < j <= |acts| && acts[i] == BumpCut
    requires forall k | i < k < j :: !acts[k].Mend? && !acts[k].Revert?
    ensures !states[j].tree.sound
  {
    hide Steps;
    if j == i + 1 {
      CutUnsound(states[i], states[j]);
    } else {
      UnsoundUntil(states, acts, i, j - 1);
      UnsoundStays(states[j - 1], acts[j - 1], states[j]);
    }
  }

  lemma CutUnsound(w: World, v: World)
    requires Steps(w, BumpCut, v)
    ensures !v.tree.sound
  {}

  /** After a bump cut between its files no db create starts, live or in a rehearsal, before one or the other. */
  lemma {:induction false} CutBumpBlocks(states: seq<World>, acts: seq<Act>, i: nat, j: nat)
    requires Trace(states, acts) && i < j < |acts| && acts[i] == BumpCut && acts[j].Start?
    ensures exists k :: i < k < j && (acts[k].Mend? || acts[k].Revert?)
  {
    hide Steps;
    if forall k | i < k < j :: !acts[k].Mend? && !acts[k].Revert? {
      UnsoundUntil(states, acts, i, j);
      UnsoundStays(states[j], acts[j], states[j + 1]);
    }
  }

  /**
   * The circle closes: behind a live recovery whose Cluster has archived a segment, the bump,
   * its commit, the end of the run, the Cluster deleted by hand and a lock on the generation
   * after are steps, and then the next recovery starts.
   */
  lemma {:induction false} RecoversAgain(w: World, target: Option<int>) returns (states: seq<World>)
    requires Inv(w) && w.tree == w.head && w.tree.sound && w.live.run.Some? && w.live.run.value.phase == Applied
    requires w.live.run.value.render.mode == Recover && w.live.run.value.render.generation == w.head.generation
    requires Holds(w.live.bucket, w.head.generation + 1) && w.live.bucket[w.head.generation + 1].segment
    ensures var g := w.head.generation + 2;
            Trace(states, [Bump, Commit, End(true), Delete(true), Lock(g), Start(true, Recover, target)])
    ensures states[0] == w && states[6].live.run == Some(Run(Render(Recover, w.head.generation + 1, target), Checked))
  {
    var g := w.head.generation + 1;
    var w1 := w.(tree := Files(g, true));
    var w2 := w1.(head := w1.tree);
    var w3 := w2.(live := w2.live.(run := None));
    var w4 := Deleted(w3, true);
    var w5 := w4.(locked := w4.locked + {g + 1});
    var w6 := w5.(live := w5.live.(run := Some(Run(Render(Recover, g, target), Checked))));
    states := [w, w1, w2, w3, w4, w5, w6];
    assert Archives(w.live.run.value.render) == g && IsNewest(w5.live.bucket, g);
    assert Steps(w5, Start(true, Recover, target), w6);
  }

  /** Such a window is reached: a fresh db create runs, its Cluster archives, the run is cut and begun again. */
  lemma {:induction false} WindowReached() returns (states: seq<World>, acts: seq<Act>)
    ensures Trace(states, acts) && Initial(states[0]) && InWindow(states[|acts|].live)
    ensures forall v, u | Steps(Deleted(states[|acts|], true), Apply(true), v) && Steps(v, Archive(true, true), u) ::
              Holds(u.live.bucket, 1) && exists x, y :: x in u.live.bucket[1].writers && y in u.live.bucket[1].writers && x != y
  {
    var r := Render(Fresh, 1, None);
    var none, c := Env(None, None, map[]), Cluster(0, r);
    var files := Files(1, true);
    var w0 := World(files, files, none, none, {}, map[]);
    var w1 := w0.(live := Env(None, Some(Run(r, Checked)), map[]));
    var w2 := w1.(live := Env(Some(c), Some(Run(r, Applied)), map[]), made := map[0 := Made(true, r)]);
    var w3 := w2.(live := Env(Some(c), Some(Run(r, Applied)), map[1 := Path({0}, true)]));
    var w4 := w3.(live := Env(Some(c), None, map[1 := Path({0}, true)]));
    var w5 := w4.(live := Env(Some(c), Some(Run(r, Checked)), map[1 := Path({0}, true)]));
    states := [w0, w1, w2, w3, w4, w5];
    acts := [Start(true, Fresh, None), Apply(true), Archive(true, true), End(true), Start(true, Fresh, None)];
    assert Steps(w0, acts[0], w1);
    assert Steps(w1, acts[1], w2) by {
      assert 0 !in w1.made && w2 == Made1(w1, true, 0, r);
    }
    assert Steps(w2, acts[2], w3) by {
      assert Archives(r) == 1 && {} + {0} == {0};
      assert Wrote(w2.live, true).bucket == map[1 := Path({0}, true)];
    }
    assert Steps(w3, acts[3], w4);
    assert Steps(w4, acts[4], w5);
    assert 0 in w5.live.bucket[1].writers;
    hide Steps, Inv;
    assert Trace(states, acts) by {
      forall i | 0 <= i < |acts|
        ensures Steps(states[i], acts[i], states[i + 1])
      {
        assert i == 0 || i == 1 || i == 2 || i == 3 || i == 4;
      }
    }
    InitialInv(w0);
    TraceKeeps(states, acts, 5);
    forall v, u | Steps(Deleted(w5, true), Apply(true), v) && Steps(v, Archive(true, true), u)
      ensures Holds(u.live.bucket, 1) && exists x, y :: x in u.live.bucket[1].writers && y in u.live.bucket[1].writers && x != y
    {
      DeletedMidResume(w5, true, true, v, u);
    }
  }

  // --- The run as it is coded -----------------------------------------------------------

  /** The state db create reads and writes. */
  class Desk {
    var w: World

    constructor (w: World)
      ensures this.w == w
    {
      this.w := w;
    }

    /** dbCreate up to db-preflight: the clean working tree, Build and the preflight. */
    method Begin(isLive: bool, mode: Mode, target: Option<int>, prefixes: seq<string>) returns (ok: bool)
      requires EnvOf(w, isLive).run.None? && Lists(prefixes, w.live.bucket) && w.head.generation >= 1
      modifies this
      ensures ok ==> Steps(old(w), Start(isLive, mode, target), w)
      ensures !ok ==> w == old(w) && forall v :: !Steps(w, Start(isLive, mode, target), v)
    {
      if mode == Fresh && target.Some? {
        return false;
      }
      if w.tree != w.head || !w.tree.sound {
        return false;
      }
      var r := Render(mode, w.tree.generation, target);
      ok := CheckPreflight(w, isLive, r, prefixes);
      if ok {
        w := WithEnv(w, isLive, EnvOf(w, isLive).(run := Some(Run(r, Checked))));
      }
    }

    /** db-cluster: Probe, and Act where the render is not there. */
    method ApplyCluster(isLive: bool, id: nat) returns (resumed: bool)
      requires EnvOf(w, isLive).run.Some? && EnvOf(w, isLive).run.value.phase == Checked && id !in w.made
      modifies this
      ensures Steps(old(w), Apply(isLive), w)
      ensures resumed == (EnvOf(old(w), isLive).cluster == EnvOf(w, isLive).cluster)
    {
      var e := EnvOf(w, isLive);
      var render := e.run.value.render;
      if e.cluster.Some? && e.cluster.value.render == render {
        w := WithEnv(w, isLive, e.(run := Some(Run(render, Applied))));
        return true;
      }
      ghost var was := w;
      w := Made1(w, isLive, id, render);
      assert id !in was.made && w == Made1(was, isLive, id, render);
      resumed := false;
    }

    /** db-generation: Probe, and Bump where it is not done. cut: between Bump's two files. */
    method BumpStage(cut: bool)
      requires w.live.run.Some? && w.live.run.value.phase == Applied && w.live.run.value.render.mode == Recover
      requires Holds(w.live.bucket, Archives(w.live.run.value.render))
      modifies this
      ensures if old(w).tree.generation == Archives(old(w).live.run.value.render) then w == old(w)
              else Steps(old(w), if cut then BumpCut else Bump, w)
    {
      if w.tree.generation == Archives(w.live.run.value.render) {
        return;
      }
      w := if cut then w.(tree := Files(w.tree.generation + 1, false), live := w.live.(run := None))
           else w.(tree := Files(w.tree.generation + 1, w.tree.sound));
    }
  }
}
