/**
 * The secrets planner (tools/kluster/internal/secrets/plan.go): what a write command does to
 * the encrypted files, and the files after it, written one at a time.
 */
module Secrets {
  import opened Text
  import opened Catalog

  datatype File = File(values: Values, mismatch: bool)

  type Files = map<Ref, File>

  type Updates = map<KeyRef, string>

  function Current(files: Files, r: Ref): Values {
    if r in files then files[r].values else map[]
  }

  function Held(files: Files, r: KeyRef): Option<string> {
    if r.key in Current(files, r.secret) then Some(Current(files, r.secret)[r.key]) else None
  }

  // --- What build plans ------------------------------------------------------

  /** A source's value after the plan. */
  function Source(files: Files, ups: Updates, r: KeyRef): Option<string> {
    if r in ups then Some(ups[r]) else Held(files, r)
  }

  /** Any key's value after the plan. */
  function Next(files: Files, ups: Updates, r: KeyRef, k: Key): Option<string> {
    match k
    case Literal(v) => Some(v)
    case Copy(src, format) =>
      var v := Source(files, ups, src);
      if v.Some? then Some(Render(format, v.value)) else Held(files, r)
    case _ => Source(files, ups, r)
  }

  function NextValues(files: Files, ups: Updates, s: Secret): Values {
    map n | n in s.keys && Next(files, ups, KeyRef(s.ref, n), s.keys[n]).Some? ::
      Next(files, ups, KeyRef(s.ref, n), s.keys[n]).value
  }

  datatype Op = Add | Change | Remove

  function ChangeOf(was: Values, next: Values, n: string): Option<Op> {
    if n in was && n in next then if was[n] == next[n] then None else Some(Change)
    else if n in next then Some(Add)
    else if n in was then Some(Remove)
    else None
  }

  /** The keys whose value differs, and how. */
  function Changes(was: Values, next: Values): (changes: map<string, Op>)
    ensures forall n :: n in changes <==> ChangeOf(was, next, n).Some?
    ensures forall n | n in changes :: changes[n] == ChangeOf(was, next, n).value
  {
    map n | n in was.Keys + next.Keys && ChangeOf(was, next, n).Some? :: ChangeOf(was, next, n).value
  }

  datatype FilePlan = FilePlan(secret: Secret, found: bool, reshape: bool, changes: map<string, Op>, missing: set<string>, next: Values)
  {
    predicate Changed() {
      changes != map[] || reshape
    }
  }

  function PlanFile(files: Files, ups: Updates, s: Secret): FilePlan {
    var was, next := Current(files, s.ref), NextValues(files, ups, s);
    FilePlan(s, s.ref in files, s.ref in files && files[s.ref].mismatch, Changes(was, next),
             (set n | n in s.keys && n !in was && n !in next), next)
  }

  function PlanOf(cat: seq<Secret>, files: Files, ups: Updates): (plan: seq<FilePlan>)
    ensures |plan| == |cat|
    ensures forall i | 0 <= i < |cat| :: plan[i] == PlanFile(files, ups, cat[i])
  {
    seq(|cat|, i requires 0 <= i < |cat| => PlanFile(files, ups, cat[i]))
  }

  /** Updates name generated and issued keys of the catalog: resolve admits no other. */
  ghost predicate UpdatesOk(cat: seq<Secret>, ups: Updates) {
    forall r | r in ups :: exists k: Key :: k.Copyable() && Lists(cat, r, k)
  }

  // --- build -----------------------------------------------------------------

  /** The first pass: updates, and the values sources have already. */
  function First(files: Files, ups: Updates, r: KeyRef, k: Key): Option<string> {
    if r in ups then Some(ups[r]) else if k.Copyable() then Held(files, r) else None
  }

  /** Between the passes: the keys in done hold their final value, the rest their first. */
  function Midway(files: Files, ups: Updates, s: Secret, done: set<string>): Values {
    map n | n in s.keys && MidValue(files, ups, s, done, n).Some? :: MidValue(files, ups, s, done, n).value
  }

  function MidValue(files: Files, ups: Updates, s: Secret, done: set<string>, n: string): Option<string>
    requires n in s.keys
  {
    if n in done then Next(files, ups, KeyRef(s.ref, n), s.keys[n]) else First(files, ups, KeyRef(s.ref, n), s.keys[n])
  }

  lemma SourcesSettled(cat: seq<Secret>, files: Files, ups: Updates, s: Secret, done: set<string>, r: KeyRef, k: Key)
    requires Valid(cat) && s in cat && s.ref == r.secret && k.Copyable() && Lists(cat, r, k)
    ensures r.key in s.keys && s.keys[r.key] == k
    ensures MidValue(files, ups, s, done, r.key) == Source(files, ups, r)
    ensures r.key in Midway(files, ups, s, done) <==> Source(files, ups, r).Some?
    ensures Source(files, ups, r).Some? ==> Midway(files, ups, s, done)[r.key] == Source(files, ups, r).value
  {
    var t :| t in cat && t.ref == r.secret && r.key in t.keys && t.keys[r.key] == k;
    SameRef(cat, s, t);
  }

  /** An update never names a copy or a literal. */
  lemma NoUpdate(cat: seq<Secret>, ups: Updates, s: Secret, n: string)
    requires Valid(cat) && UpdatesOk(cat, ups) && s in cat && n in s.keys && !s.keys[n].Copyable()
    ensures KeyRef(s.ref, n) !in ups
  {
    if KeyRef(s.ref, n) in ups {
      var k: Key :| k.Copyable() && Lists(cat, KeyRef(s.ref, n), k);
      var t :| t in cat && t.ref == s.ref && n in t.keys && t.keys[n] == k;
      SameRef(cat, s, t);
    }
  }

  method FirstPass(files: Files, ups: Updates, s: Secret) returns (v: Values)
    requires EntryOk(s)
    ensures v == Midway(files, ups, s, {})
  {
    v := map[];
    var cur := if s.ref in files then files[s.ref].values else map[];
    for j := 0 to |s.names|
      invariant forall n :: n in v <==> n in s.names[..j] && First(files, ups, KeyRef(s.ref, n), s.keys[n]).Some?
      invariant forall n | n in v :: v[n] == First(files, ups, KeyRef(s.ref, n), s.keys[n]).value
    {
      var name := s.names[j];
      assert name in s.names;
      var ref := KeyRef(s.ref, name);
      if ref in ups {
        v := v[name := ups[ref]];
      } else {
        var k := s.keys[name];
        if k.Generated? || k.Issued? {
          if name in cur {
            v := v[name := cur[name]];
          }
        }
      }
      assert forall n :: n in s.names[..j + 1] <==> n in s.names[..j] || n == name;
    }
    assert s.names[..|s.names|] == s.names;
  }

  /** Every entry is somewhere between its first values and its final ones. */
  ghost predicate Passing(cat: seq<Secret>, files: Files, ups: Updates, next: map<Ref, Values>) {
    forall t | t in cat :: t.ref in next && exists done :: next[t.ref] == Midway(files, ups, t, done)
  }

  /** A source is read with its final value at any time in the second pass. */
  lemma SourceRead(cat: seq<Secret>, files: Files, ups: Updates, next: map<Ref, Values>, src: KeyRef)
    requires Valid(cat) && Passing(cat, files, ups, next)
    requires exists k: Key :: k.Copyable() && Lists(cat, src, k)
    ensures src.secret in next
    ensures src.key in next[src.secret] <==> Source(files, ups, src).Some?
    ensures src.key in next[src.secret] ==> next[src.secret][src.key] == Source(files, ups, src).value
  {
    hide Midway, Source;
    var k: Key :| k.Copyable() && Lists(cat, src, k);
    var t :| t in cat && t.ref == src.secret && src.key in t.keys && t.keys[src.key] == k;
    var done :| next[t.ref] == Midway(files, ups, t, done);
    SourcesSettled(cat, files, ups, t, done, src, k);
  }

  /** Settling one more key changes that key alone. */
  lemma MidStep(files: Files, ups: Updates, s: Secret, done: set<string>, n: string)
    requires n in s.keys
    ensures var m, v := Midway(files, ups, s, done), Next(files, ups, KeyRef(s.ref, n), s.keys[n]);
            Midway(files, ups, s, done + {n}) ==
            if MidValue(files, ups, s, done, n) == v then m else if v.Some? then m[n := v.value] else m - {n}
  {
    hide Next, First;
  }

  /** What the second pass does to one key. */
  lemma {:induction false} KeySettles(cat: seq<Secret>, files: Files, ups: Updates, s: Secret, done: set<string>, n: string)
    requires Valid(cat) && UpdatesOk(cat, ups) && s in cat && n in s.keys && n !in done
    ensures var m, cur := Midway(files, ups, s, done), Current(files, s.ref);
            Midway(files, ups, s, done + {n}) ==
            match s.keys[n]
            case Literal(v) => m[n := v]
            case Copy(src, format) =>
              if Source(files, ups, src).Some? then m[n := Render(format, Source(files, ups, src).value)]
              else if n in cur then m[n := cur[n]]
              else m
            case _ => m
  {
    hide Midway, Valid, UpdatesOk, Render;
    MidStep(files, ups, s, done, n);
    if !s.keys[n].Copyable() {
      NoUpdate(cat, ups, s, n);
    }
  }

  /** One key of the second pass: a literal as written, a copy of its source's value, or its own old value. */
  method SettleKey(cat: seq<Secret>, files: Files, ups: Updates, s: Secret, ghost done: set<string>, name: string, next: map<Ref, Values>)
    returns (out: map<Ref, Values>)
    requires Valid(cat) && UpdatesOk(cat, ups) && s in cat && name in s.keys && name !in done
    requires Passing(cat, files, ups, next) && s.ref in next && next[s.ref] == Midway(files, ups, s, done)
    ensures out == next[s.ref := Midway(files, ups, s, done + {name})]
  {
    hide Midway, Valid, UpdatesOk, Passing, Source, Held, Render, Lists;
    KeySettles(cat, files, ups, s, done, name);
    out := next;
    match s.keys[name] {
      case Literal(value) =>
        out := out[s.ref := out[s.ref][name := value]];
      case Copy(src, format) =>
        CopySource(cat, s, name);
        SourceRead(cat, files, ups, out, src);
        var cur := if s.ref in files then files[s.ref].values else map[];
        if src.key in out[src.secret] {
          out := out[s.ref := out[s.ref][name := Render(format, out[src.secret][src.key])]];
        } else if name in cur {
          out := out[s.ref := out[s.ref][name := cur[name]]];
        }
      case _ =>
    }
  }

  method SecondPass(cat: seq<Secret>, files: Files, ups: Updates, s: Secret, next: map<Ref, Values>) returns (out: map<Ref, Values>)
    requires Valid(cat) && UpdatesOk(cat, ups) && s in cat
    requires Passing(cat, files, ups, next) && next[s.ref] == Midway(files, ups, s, {})
    ensures out == next[s.ref := NextValues(files, ups, s)]
    ensures Passing(cat, files, ups, out)
  {
    hide *;
    ValidParts(cat, s);
    PassingHas(cat, files, ups, next, s);
    NoneSeen(s);
    out := next;
    for j := 0 to |s.names|
      invariant out == next[s.ref := Midway(files, ups, s, Seen(s, j))]
      invariant Passing(cat, files, ups, out)
    {
      SeenStep(s, j);
      out := SettleKey(cat, files, ups, s, Seen(s, j), s.names[j], out);
      StillPassing(cat, files, ups, next, s, Seen(s, j + 1));
    }
    SeenAll(s);
    SettledAll(files, ups, s, Seen(s, |s.names|));
  }

  lemma NoneSeen(s: Secret)
    requires EntryOk(s)
    ensures Seen(s, 0) == {}
  {}

  lemma SeenStep(s: Secret, j: nat)
    requires EntryOk(s) && j < |s.names|
    ensures s.names[j] in s.keys && s.names[j] !in Seen(s, j) && Seen(s, j + 1) == Seen(s, j) + {s.names[j]}
  {
    assert s.names[j] in s.names;
  }

  /** The first j key names of an entry. */
  ghost function Seen(s: Secret, j: nat): (seen: set<string>)
    requires EntryOk(s) && j <= |s.names|
    ensures forall i | 0 <= i < j :: s.names[i] in seen
    ensures forall n | n in seen :: exists i :: 0 <= i < j && s.names[i] == n
  {
    if j == 0 then {} else Seen(s, j - 1) + {s.names[j - 1]}
  }

  lemma StillPassing(cat: seq<Secret>, files: Files, ups: Updates, next: map<Ref, Values>, s: Secret, done: set<string>)
    requires RefsDistinct(cat) && s in cat && Passing(cat, files, ups, next)
    ensures Passing(cat, files, ups, next[s.ref := Midway(files, ups, s, done)])
  {
    hide Midway;
    forall t | t in cat && t.ref == s.ref ensures t == s { SameRef(cat, s, t); }
  }

  lemma PassingHas(cat: seq<Secret>, files: Files, ups: Updates, next: map<Ref, Values>, s: Secret)
    requires Passing(cat, files, ups, next) && s in cat
    ensures s.ref in next
  {
    hide Midway;
  }

  lemma ValidParts(cat: seq<Secret>, s: Secret)
    requires Valid(cat) && s in cat
    ensures RefsDistinct(cat) && EntryOk(s)
  {}

  lemma CopySource(cat: seq<Secret>, s: Secret, n: string)
    requires Valid(cat) && s in cat && n in s.keys && s.keys[n].Copy?
    ensures FormatOk(s.keys[n].format) && exists k: Key :: k.Copyable() && Lists(cat, s.keys[n].source, k)
  {
    hide FormatOk, Lists;
  }

  lemma SettledAll(files: Files, ups: Updates, s: Secret, done: set<string>)
    requires forall n | n in s.keys :: n in done
    ensures Midway(files, ups, s, done) == NextValues(files, ups, s)
  {
    hide Next, First;
  }

  /** The comparison of one file, key by key. */
  method Compare(s: Secret, was: Values, next: Values) returns (changes: map<string, Op>, missing: set<string>)
    requires EntryOk(s) && next.Keys <= s.keys.Keys
    ensures changes == Changes(was, next)
    ensures missing == set n | n in s.keys && n !in was && n !in next
  {
    changes, missing := CompareListed(s, was, next);
    // extra: the keys of the file that the catalog does not list.
    var extra := set n | n in was && n !in s.keys;
    while extra != {}
      invariant forall n | n in extra :: n in was && n !in s.keys
      invariant forall n :: n in changes <==> ChangeOf(was, next, n).Some? && n !in extra
      invariant forall n | n in changes :: changes[n] == ChangeOf(was, next, n).value
      decreases extra
    {
      var name :| name in extra;
      changes, extra := changes[name := Remove], extra - {name};
    }
  }

  method CompareListed(s: Secret, was: Values, next: Values) returns (changes: map<string, Op>, missing: set<string>)
    requires EntryOk(s)
    ensures forall n :: n in changes <==> n in s.keys && ChangeOf(was, next, n).Some?
    ensures forall n | n in changes :: changes[n] == ChangeOf(was, next, n).value
    ensures missing == set n | n in s.keys && n !in was && n !in next
  {
    hide EntryOk, ChangeOf;
    NoneSeen(s);
    changes, missing := map[], {};
    for j := 0 to |s.names|
      invariant forall n :: n in changes <==> n in Seen(s, j) && ChangeOf(was, next, n).Some?
      invariant forall n | n in changes :: changes[n] == ChangeOf(was, next, n).value
      invariant forall n :: n in missing <==> n in Seen(s, j) && n !in was && n !in next
    {
      var name := s.names[j];
      SeenStep(s, j);
      ChangeIs(was, next, name);
      if name !in next && name in was {
        changes := changes[name := Remove];
      } else if name !in next {
        missing := missing + {name};
      } else if name !in was {
        changes := changes[name := Add];
      } else if was[name] != next[name] {
        changes := changes[name := Change];
      }
    }
    assert forall n :: n in Seen(s, |s.names|) <==> n in s.keys by { SeenAll(s); }
  }

  lemma ChangeIs(was: Values, next: Values, n: string)
    ensures ChangeOf(was, next, n) ==
            if n in was && n in next then (if was[n] == next[n] then None else Some(Change))
            else if n in next then Some(Add)
            else if n in was then Some(Remove)
            else None
  {}

  lemma SeenAll(s: Secret)
    requires EntryOk(s)
    ensures forall n :: n in Seen(s, |s.names|) <==> n in s.keys
  {}

  method Build(cat: seq<Secret>, files: Files, ups: Updates) returns (plan: seq<FilePlan>)
    requires Valid(cat) && UpdatesOk(cat, ups)
    ensures plan == PlanOf(cat, files, ups)
  {
    hide Midway, NextValues, UpdatesOk, Changes;
    var next: map<Ref, Values> := map[];
    for i := 0 to |cat|
      invariant forall a | 0 <= a < i :: cat[a].ref in next && next[cat[a].ref] == Midway(files, ups, cat[a], {})
    {
      assert cat[i] in cat;
      var v := FirstPass(files, ups, cat[i]);
      next := next[cat[i].ref := v];
    }
    for i := 0 to |cat|
      invariant Passing(cat, files, ups, next)
      invariant forall a | 0 <= a < i :: next[cat[a].ref] == NextValues(files, ups, cat[a])
      invariant forall a | i <= a < |cat| :: next[cat[a].ref] == Midway(files, ups, cat[a], {})
    {
      assert cat[i] in cat;
      next := SecondPass(cat, files, ups, cat[i], next);
    }
    plan := [];
    for i := 0 to |cat|
      invariant |plan| == i
      invariant forall a | 0 <= a < i :: plan[a] == PlanFile(files, ups, cat[a])
    {
      var s := cat[i];
      assert s in cat && EntryOk(s);
      var found := s.ref in files;
      var was := if found then files[s.ref].values else map[];
      NextKeys(files, ups, s);
      var changes, missing := Compare(s, was, next[s.ref]);
      plan := plan + [FilePlan(s, found, found && files[s.ref].mismatch, changes, missing, next[s.ref])];
    }
  }

  lemma NextKeys(files: Files, ups: Updates, s: Secret)
    ensures NextValues(files, ups, s).Keys <= s.keys.Keys
  {}

  // --- Write -----------------------------------------------------------------

  /** The files after the first n of the plan's writes: one rename a file, cut between two. */
  function Written(files: Files, plan: seq<FilePlan>, n: nat): Files
    requires n <= |plan|
  {
    if n == 0 then files
    else
      var f, w := plan[n - 1], Written(files, plan, n - 1);
      if f.Changed() then w[f.secret.ref := File(f.next, false)] else w
  }

  class Store {
    var files: Files

    constructor (files: Files)
      ensures this.files == files
    {
      this.files := files;
    }

    method Write(plan: seq<FilePlan>, cut: nat) returns (ok: bool)
      modifies this
      ensures files == Written(old(files), plan, if cut < |plan| then cut else |plan|)
      ensures ok <==> cut >= |plan|
    {
      for i := 0 to |plan|
        invariant i <= cut && files == Written(old(files), plan, i)
      {
        if i == cut {
          return false;
        }
        if plan[i].Changed() {
          files := files[plan[i].secret.ref := File(plan[i].next, false)];
        }
      }
      return true;
    }
  }

  // --- The files after a plan is written -------------------------------------

  /** Each entry's file after n writes: its planned values when its turn has come, else its old ones. */
  lemma {:induction false} WrittenFiles(cat: seq<Secret>, files: Files, ups: Updates, n: nat, i: nat)
    requires RefsDistinct(cat) && n <= |cat| && i < |cat|
    ensures var w := Written(files, PlanOf(cat, files, ups), n);
            && Current(w, cat[i].ref) == (if i < n then NextValues(files, ups, cat[i]) else Current(files, cat[i].ref))
            && (i < n && cat[i].ref in w ==> !w[cat[i].ref].mismatch)
            && (i >= n ==> (cat[i].ref in w <==> cat[i].ref in files) && (cat[i].ref in w ==> w[cat[i].ref] == files[cat[i].ref]))
  {
    hide NextValues, Changes;
    if n > 0 {
      WrittenFiles(cat, files, ups, n - 1, i);
      var f := PlanOf(cat, files, ups)[n - 1];
      if !f.Changed() {
        NoChanges(Current(files, cat[n - 1].ref), f.next);
        WrittenFiles(cat, files, ups, n - 1, n - 1);
      }
    }
  }

  lemma NoChanges(was: Values, next: Values)
    ensures Changes(was, next) == map[] <==> was == next
  {
    hide Changes;
    if Changes(was, next) == map[] {
      forall n ensures n in was <==> n in next { assert n !in Changes(was, next); }
      forall n | n in was ensures was[n] == next[n] { assert n !in Changes(was, next); }
    } else {
      var n :| n in Changes(was, next);
    }
  }

  /** The value of one listed key after the whole plan is written. */
  lemma {:induction false} WrittenKey(cat: seq<Secret>, files: Files, ups: Updates, s: Secret, n: string)
    requires Valid(cat) && s in cat && n in s.keys
    ensures Held(Written(files, PlanOf(cat, files, ups), |cat|), KeyRef(s.ref, n)) == Next(files, ups, KeyRef(s.ref, n), s.keys[n])
  {
    hide Next, PlanOf, Written, EntryOk, Lists;
    var i :| 0 <= i < |cat| && cat[i] == s;
    WrittenFiles(cat, files, ups, |cat|, i);
  }

  /** Files in step with the catalog. */
  ghost predicate InStep(cat: seq<Secret>, files: Files) {
    forall s | s in cat ::
      && (s.ref in files ==> !files[s.ref].mismatch)
      && Current(files, s.ref).Keys <= s.keys.Keys
      && forall n | n in s.keys :: KeyInStep(files, KeyRef(s.ref, n), s.keys[n])
  }

  /** A literal is as catalogued; a copy is its source's value rendered, when the source has one. */
  ghost predicate KeyInStep(files: Files, r: KeyRef, k: Key) {
    && (k.Literal? ==> Held(files, r) == Some(k.value))
    && (k.Copy? && Held(files, k.source).Some? ==> Held(files, r) == Some(Render(k.format, Held(files, k.source).value)))
  }

  /** A source's value after the plan is what its copies are rendered from. */
  lemma {:induction false} WrittenSource(cat: seq<Secret>, files: Files, ups: Updates, r: KeyRef)
    requires Valid(cat) && exists k: Key :: k.Copyable() && Lists(cat, r, k)
    ensures Held(Written(files, PlanOf(cat, files, ups), |cat|), r) == Source(files, ups, r)
  {
    hide Held, Written, PlanOf, EntryOk, RefsDistinct;
    var k: Key :| k.Copyable() && Lists(cat, r, k);
    var s :| s in cat && s.ref == r.secret && r.key in s.keys && s.keys[r.key] == k;
    WrittenKey(cat, files, ups, s, r.key);
  }

  /**
   * From any files, the completed Write of any plan leaves every copy and every literal in
   * step and no uncatalogued key, and drops no value the catalog lists.
   */
  lemma WriteSettles(cat: seq<Secret>, files: Files, ups: Updates)
    requires Valid(cat) && UpdatesOk(cat, ups)
    ensures InStep(cat, Written(files, PlanOf(cat, files, ups), |cat|))
    ensures forall s, n | s in cat && n in s.keys && Held(files, KeyRef(s.ref, n)).Some? ::
              Held(Written(files, PlanOf(cat, files, ups), |cat|), KeyRef(s.ref, n)).Some?
  {
    var w := Written(files, PlanOf(cat, files, ups), |cat|);
    hide Written, PlanOf, Valid, UpdatesOk, KeyInStep, Held, Current;
    forall s | s in cat
      ensures (s.ref in w ==> !w[s.ref].mismatch) && Current(w, s.ref).Keys <= s.keys.Keys
    {
      WrittenShape(cat, files, ups, s);
    }
    forall s, n | s in cat && n in s.keys
      ensures KeyInStep(w, KeyRef(s.ref, n), s.keys[n])
      ensures Held(files, KeyRef(s.ref, n)).Some? ==> Held(w, KeyRef(s.ref, n)).Some?
    {
      WrittenInStep(cat, files, ups, s, n);
    }
  }

  lemma WrittenShape(cat: seq<Secret>, files: Files, ups: Updates, s: Secret)
    requires Valid(cat) && s in cat
    ensures var w := Written(files, PlanOf(cat, files, ups), |cat|);
            (s.ref in w ==> !w[s.ref].mismatch) && Current(w, s.ref).Keys <= s.keys.Keys
  {
    hide Written, PlanOf, NextValues, Valid;
    var i :| 0 <= i < |cat| && cat[i] == s;
    ValidParts(cat, s);
    WrittenFiles(cat, files, ups, |cat|, i);
    NextKeys(files, ups, s);
  }

  lemma WrittenInStep(cat: seq<Secret>, files: Files, ups: Updates, s: Secret, n: string)
    requires Valid(cat) && UpdatesOk(cat, ups) && s in cat && n in s.keys
    ensures var w := Written(files, PlanOf(cat, files, ups), |cat|);
            KeyInStep(w, KeyRef(s.ref, n), s.keys[n]) && (Held(files, KeyRef(s.ref, n)).Some? ==> Held(w, KeyRef(s.ref, n)).Some?)
  {
    hide Written, PlanOf, Valid, UpdatesOk, Render, Current, Lists;
    WrittenKey(cat, files, ups, s, n);
    if s.keys[n].Copy? {
      CopySource(cat, s, n);
      WrittenSource(cat, files, ups, s.keys[n].source);
    }
  }

  // --- Generate --------------------------------------------------------------

  /** The generated keys that have no value, with their new ones. */
  function GenerateUpdates(cat: seq<Secret>, files: Files, random: KeyRef -> string): Updates {
    map s, n | s in cat && n in s.keys && s.keys[n].Generated? && Held(files, KeyRef(s.ref, n)).None? ::
      KeyRef(s.ref, n) := random(KeyRef(s.ref, n))
  }

  lemma GenerateUpdatesOk(cat: seq<Secret>, files: Files, random: KeyRef -> string)
    ensures UpdatesOk(cat, GenerateUpdates(cat, files, random))
  {
    hide Held;
    var ups := GenerateUpdates(cat, files, random);
    forall r | r in ups
      ensures exists k: Key :: k.Copyable() && Lists(cat, r, k)
    {
      var s, n :| s in cat && n in s.keys && s.keys[n].Generated? && r == KeyRef(s.ref, n);
      assert s.keys[n].Copyable() && Lists(cat, r, s.keys[n]);
    }
  }

  /** The updates of one entry. */
  lemma EntryUpdates(cat: seq<Secret>, files: Files, random: KeyRef -> string, s: Secret, r: KeyRef)
    requires Valid(cat) && s in cat && r.secret == s.ref
    ensures r in GenerateUpdates(cat, files, random) <==> r.key in s.keys && s.keys[r.key].Generated? && Held(files, r).None?
    ensures r in GenerateUpdates(cat, files, random) ==> GenerateUpdates(cat, files, random)[r] == random(r)
  {
    hide Held, EntryOk;
    if r in GenerateUpdates(cat, files, random) {
      var t, n :| t in cat && n in t.keys && t.keys[n].Generated? && Held(files, KeyRef(t.ref, n)).None? && r == KeyRef(t.ref, n);
      SameRef(cat, s, t);
    }
  }

  /** The refs of the first i entries. */
  ghost function RefsTo(cat: seq<Secret>, i: nat): (refs: set<Ref>)
    requires i <= |cat|
    ensures forall a | 0 <= a < i :: cat[a].ref in refs
  {
    if i == 0 then {} else RefsTo(cat, i - 1) + {cat[i - 1].ref}
  }

  method Generate(cat: seq<Secret>, files: Files, random: KeyRef -> string) returns (plan: seq<FilePlan>)
    requires Valid(cat)
    ensures plan == PlanOf(cat, files, GenerateUpdates(cat, files, random))
  {
    hide PlanOf, Held, GenerateUpdates, Valid, EntryOk, Seen;
    var ups: Updates := map[];
    ghost var all := GenerateUpdates(cat, files, random);
    for i := 0 to |cat|
      invariant forall r :: r in ups <==> r in all && r.secret in RefsTo(cat, i)
      invariant forall r | r in ups :: ups[r] == all[r]
    {
      var s := cat[i];
      ValidParts(cat, s);
      NoneSeen(s);
      ghost var before := ups;
      for j := 0 to |s.names|
        invariant forall r :: r in ups <==> (r in before || (r in all && r.secret == s.ref && r.key in Seen(s, j)))
        invariant forall r | r in ups :: r in all && ups[r] == all[r]
      {
        SeenStep(s, j);
        var r := KeyRef(s.ref, s.names[j]);
        EntryUpdates(cat, files, random, s, r);
        if s.keys[s.names[j]].Generated? && Held(files, r).None? {
          ups := ups[r := random(r)];
        }
      }
      SeenAll(s);
      forall r | r in all && r.secret == s.ref ensures r.key in s.keys { EntryUpdates(cat, files, random, s, r); }
    }
    AllRefs(cat, files, random);
    assert ups == all;
    GenerateUpdatesOk(cat, files, random);
    plan := Build(cat, files, ups);
  }

  lemma AllRefs(cat: seq<Secret>, files: Files, random: KeyRef -> string)
    ensures forall r | r in GenerateUpdates(cat, files, random) :: r.secret in RefsTo(cat, |cat|)
  {
    hide Held, RefsTo;
  }

  /** Every generated key has a value. */
  ghost predicate AllGenerated(cat: seq<Secret>, files: Files) {
    forall s, n | s in cat && n in s.keys && s.keys[n].Generated? :: Held(files, KeyRef(s.ref, n)).Some?
  }

  ghost predicate Settled(cat: seq<Secret>, files: Files) {
    InStep(cat, files) && AllGenerated(cat, files)
  }

  ghost predicate Unchanged(plan: seq<FilePlan>) {
    forall f | f in plan :: !f.Changed()
  }

  /** A written Generate settles the files, whatever was there, a Write cut between two files included. */
  lemma {:induction false} GenerateSettles(cat: seq<Secret>, files: Files, random: KeyRef -> string)
    requires Valid(cat)
    ensures Settled(cat, Written(files, PlanOf(cat, files, GenerateUpdates(cat, files, random)), |cat|))
  {
    var ups := GenerateUpdates(cat, files, random);
    GenerateUpdatesOk(cat, files, random);
    WriteSettles(cat, files, ups);
    hide Written, PlanOf, Valid, InStep, UpdatesOk, Held;
    forall s, n | s in cat && n in s.keys && s.keys[n].Generated?
      ensures Held(Written(files, PlanOf(cat, files, ups), |cat|), KeyRef(s.ref, n)).Some?
    {
      WrittenKey(cat, files, ups, s, n);
      if Held(files, KeyRef(s.ref, n)).None? {
        assert KeyRef(s.ref, n) in ups;
      }
    }
  }

  /** From settled files Generate plans no change. */
  lemma {:induction false} GenerateIdempotent(cat: seq<Secret>, files: Files, random: KeyRef -> string)
    requires Valid(cat) && Settled(cat, files)
    ensures GenerateUpdates(cat, files, random) == map[]
    ensures Unchanged(PlanOf(cat, files, GenerateUpdates(cat, files, random)))
  {
    var ups := GenerateUpdates(cat, files, random);
    assert forall r :: r !in ups by { hide Held; }
    hide GenerateUpdates, Held, Changes;
    var plan := PlanOf(cat, files, ups);
    forall f | f in plan
      ensures !f.Changed()
    {
      var i :| 0 <= i < |cat| && f == PlanFile(files, ups, cat[i]);
      assert cat[i] in cat;
      SameValues(cat, files, ups, cat[i]);
      NoChanges(Current(files, cat[i].ref), NextValues(files, ups, cat[i]));
    }
  }

  lemma SameValues(cat: seq<Secret>, files: Files, ups: Updates, s: Secret)
    requires InStep(cat, files) && s in cat && ups == map[]
    ensures NextValues(files, ups, s) == Current(files, s.ref)
  {
    hide Render;
    forall n | n in s.keys
      ensures Next(files, ups, KeyRef(s.ref, n), s.keys[n]) == Held(files, KeyRef(s.ref, n))
    {
      assert KeyInStep(files, KeyRef(s.ref, n), s.keys[n]);
    }
    hide Next;
  }

  /**
   * A Write of any plan cut between two files is repaired by the next Generate and Write:
   * the files settle, and every source keeps the value the cut left it.
   */
  lemma {:induction false} CutRepaired(cat: seq<Secret>, files: Files, ups: Updates, n: nat, random: KeyRef -> string)
    requires Valid(cat) && UpdatesOk(cat, ups) && n <= |cat|
    ensures var cut := Written(files, PlanOf(cat, files, ups), n);
            var mended := Written(cut, PlanOf(cat, cut, GenerateUpdates(cat, cut, random)), |cat|);
            && Settled(cat, mended)
            && (forall s, m | s in cat && m in s.keys && s.keys[m].Copyable() && Held(cut, KeyRef(s.ref, m)).Some? ::
                  Held(mended, KeyRef(s.ref, m)) == Held(cut, KeyRef(s.ref, m)))
            && (forall s, m | s in cat && m in s.keys && s.keys[m].Copyable() ::
                  Held(cut, KeyRef(s.ref, m)) == Held(files, KeyRef(s.ref, m)) || Held(cut, KeyRef(s.ref, m)) == Source(files, ups, KeyRef(s.ref, m)))
  {
    hide *;
    var cut := Written(files, PlanOf(cat, files, ups), n);
    var gen := GenerateUpdates(cat, cut, random);
    GenerateSettles(cat, cut, random);
    forall s, m | s in cat && m in s.keys && s.keys[m].Copyable()
      ensures Held(cut, KeyRef(s.ref, m)).Some? ==>
                Held(Written(cut, PlanOf(cat, cut, gen), |cat|), KeyRef(s.ref, m)) == Held(cut, KeyRef(s.ref, m))
      ensures Held(cut, KeyRef(s.ref, m)) == Held(files, KeyRef(s.ref, m)) || Held(cut, KeyRef(s.ref, m)) == Source(files, ups, KeyRef(s.ref, m))
    {
      GenerateKeeps(cat, cut, random, s, m);
      CutSource(cat, files, ups, n, s, m);
    }
  }

  /** A written Generate keeps a source that has a value. */
  lemma GenerateKeeps(cat: seq<Secret>, files: Files, random: KeyRef -> string, s: Secret, m: string)
    requires Valid(cat) && s in cat && m in s.keys && s.keys[m].Copyable()
    ensures Held(files, KeyRef(s.ref, m)).Some? ==>
              Held(Written(files, PlanOf(cat, files, GenerateUpdates(cat, files, random)), |cat|), KeyRef(s.ref, m)) == Held(files, KeyRef(s.ref, m))
  {
    var gen := GenerateUpdates(cat, files, random);
    hide Written, PlanOf, Valid;
    WrittenKey(cat, files, gen, s, m);
    assert Held(files, KeyRef(s.ref, m)).Some? ==> KeyRef(s.ref, m) !in gen;
  }

  /** A cut Write leaves a source its old value or the plan's. */
  lemma CutSource(cat: seq<Secret>, files: Files, ups: Updates, n: nat, s: Secret, m: string)
    requires Valid(cat) && n <= |cat| && s in cat && m in s.keys && s.keys[m].Copyable()
    ensures var cut := Written(files, PlanOf(cat, files, ups), n);
            Held(cut, KeyRef(s.ref, m)) == Held(files, KeyRef(s.ref, m)) || Held(cut, KeyRef(s.ref, m)) == Source(files, ups, KeyRef(s.ref, m))
  {
    assert RefsDistinct(cat);
    hide Written, PlanOf, Valid, RefsDistinct, EntryOk;
    var i :| 0 <= i < |cat| && cat[i] == s;
    WrittenFiles(cat, files, ups, n, i);
  }

  // --- Rotate, Pull and Set --------------------------------------------------

  datatype ResolveError = NoSecret | NoKey | RotateIssued | WrongKind

  datatype Resolved = Targets(refs: seq<KeyRef>) | Failed(error: ResolveError)

  /** Whether a key is of the wanted kind; rotate wants generated keys, pull and set issued ones. */
  predicate Wanted(k: Key, issued: bool) {
    if issued then k.Issued? else k.Generated?
  }

  ghost predicate WantedKey(cat: seq<Secret>, r: KeyRef, issued: bool) {
    exists k: Key :: Wanted(k, issued) && Lists(cat, r, k)
  }

  /** Every key of the wanted kind. */
  method AllOfKind(cat: seq<Secret>, issued: bool) returns (all: seq<KeyRef>)
    requires Valid(cat)
    ensures forall t :: t in all <==> WantedKey(cat, t, issued)
  {
    hide Valid, EntryOk, Seen;
    all := [];
    for i := 0 to |cat|
      invariant forall t :: t in all <==> exists a :: 0 <= a < i && WantedAt(cat[a], t, issued)
    {
      var s := cat[i];
      ValidParts(cat, s);
      NoneSeen(s);
      ghost var before := all;
      for j := 0 to |s.names|
        invariant forall t :: t in all <==> (t in before || (t.key in Seen(s, j) && WantedAt(s, t, issued)))
      {
        SeenStep(s, j);
        if Wanted(s.keys[s.names[j]], issued) {
          all := all + [KeyRef(s.ref, s.names[j])];
        }
      }
      SeenAll(s);
    }
    forall t ensures (exists a :: 0 <= a < |cat| && WantedAt(cat[a], t, issued)) <==> WantedKey(cat, t, issued) {
      WantedSomewhere(cat, t, issued);
    }
  }

  predicate WantedAt(s: Secret, t: KeyRef, issued: bool) {
    t.secret == s.ref && t.key in s.keys && Wanted(s.keys[t.key], issued)
  }

  lemma WantedSomewhere(cat: seq<Secret>, t: KeyRef, issued: bool)
    ensures (exists a :: 0 <= a < |cat| && WantedAt(cat[a], t, issued)) <==> WantedKey(cat, t, issued)
  {
    if a :| 0 <= a < |cat| && WantedAt(cat[a], t, issued) {
      assert cat[a] in cat && Lists(cat, t, cat[a].keys[t.key]);
    }
    if WantedKey(cat, t, issued) {
      var k: Key :| Wanted(k, issued) && Lists(cat, t, k);
      var s :| s in cat && s.ref == t.secret && t.key in s.keys && s.keys[t.key] == k;
      var a :| 0 <= a < |cat| && cat[a] == s;
      assert WantedAt(cat[a], t, issued);
    }
  }

  /** One named key: why it is refused, or nothing. */
  method Refused(cat: seq<Secret>, t: KeyRef, issued: bool) returns (r: Option<ResolveError>)
    requires Valid(cat)
    ensures r.None? <==> WantedKey(cat, t, issued)
    ensures r == Some(RotateIssued) <==> !issued && WantedKey(cat, t, true)
  {
    hide Valid, EntryOk;
    ValidRefs(cat);
    WantedSomewhere(cat, t, issued);
    WantedSomewhere(cat, t, true);
    var at := 0;
    while at < |cat| && cat[at].ref != t.secret
      invariant at <= |cat| && forall a | 0 <= a < at :: cat[a].ref != t.secret
    {
      at := at + 1;
    }
    if at == |cat| {
      return Some(NoSecret);
    }
    var s := cat[at];
    assert forall a | 0 <= a < |cat| && WantedAt(cat[a], t, issued) :: a == at;
    if t.key !in s.keys {
      return Some(NoKey);
    }
    var k := s.keys[t.key];
    assert WantedAt(cat[at], t, issued) <==> Wanted(k, issued);
    assert WantedAt(cat[at], t, true) <==> Wanted(k, true);
    if !Wanted(k, issued) {
      return Some(if k.Issued? && !issued then RotateIssued else WrongKind);
    }
    r := None;
  }

  lemma ValidRefs(cat: seq<Secret>)
    requires Valid(cat)
    ensures RefsDistinct(cat)
  {}

  /** resolve: the named keys, all of the wanted kind, or the first error; no name means every key of the kind. */
  method Resolve(cat: seq<Secret>, refs: seq<KeyRef>, issued: bool) returns (r: Resolved)
    requires Valid(cat)
    ensures r.Targets? ==> forall t | t in r.refs :: WantedKey(cat, t, issued)
    ensures refs == [] ==> r.Targets? && forall t | WantedKey(cat, t, issued) :: t in r.refs
    ensures refs != [] ==> (r.Targets? <==> forall t | t in refs :: WantedKey(cat, t, issued))
    ensures refs != [] && r.Targets? ==> r.refs == refs
    ensures r == Failed(RotateIssued) ==> !issued && exists t | t in refs :: WantedKey(cat, t, true)
  {
    hide Valid, WantedKey;
    if refs == [] {
      var all := AllOfKind(cat, issued);
      return Targets(all);
    }
    for i := 0 to |refs|
      invariant forall a | 0 <= a < i :: WantedKey(cat, refs[a], issued)
    {
      assert refs[i] in refs;
      var e := Refused(cat, refs[i], issued);
      if e.Some? {
        return Failed(e.value);
      }
    }
    r := Targets(refs);
  }

  /** Rotate: a new value for each target, and every copy rewritten in the same plan. */
  method Rotate(cat: seq<Secret>, files: Files, refs: seq<KeyRef>, random: KeyRef -> string) returns (r: Resolved, plan: seq<FilePlan>)
    requires Valid(cat)
    ensures r.Targets? ==>
              && (forall t | t in r.refs :: WantedKey(cat, t, false))
              && plan == PlanOf(cat, files, map t | t in r.refs :: random(t))
    ensures r.Targets? && refs != [] ==> r.refs == refs
    ensures refs == [] ==> r.Targets? && forall t | WantedKey(cat, t, false) :: t in r.refs
    ensures refs != [] ==> (r.Targets? <==> forall t | t in refs :: WantedKey(cat, t, false))
  {
    hide PlanOf, Lists;
    plan := [];
    r := Resolve(cat, refs, false);
    if r.Failed? {
      return;
    }
    var ups := map t | t in r.refs :: random(t);
    WantedUpdates(cat, ups, false);
    plan := Build(cat, files, ups);
  }

  lemma WantedUpdates(cat: seq<Secret>, ups: Updates, issued: bool)
    requires forall t | t in ups :: WantedKey(cat, t, issued)
    ensures UpdatesOk(cat, ups)
  {
    hide Lists;
    forall t | t in ups
      ensures exists k: Key :: k.Copyable() && Lists(cat, t, k)
    {
      var k: Key :| Wanted(k, issued) && Lists(cat, t, k);
      assert k.Copyable();
    }
  }

  /** Pull and Set: an issued key takes a value read or typed; an empty or missing one is refused. */
  method Pull(cat: seq<Secret>, files: Files, refs: seq<KeyRef>, vault: KeyRef -> Option<string>) returns (ok: bool, targets: seq<KeyRef>, plan: seq<FilePlan>)
    requires Valid(cat)
    ensures ok ==>
              && (forall t | t in targets :: WantedKey(cat, t, true) && vault(t).Some? && vault(t).value != "")
              && plan == PlanOf(cat, files, map t | t in targets && vault(t).Some? :: vault(t).value)
    ensures refs != [] ==>
              (ok <==> forall t | t in refs :: WantedKey(cat, t, true) && vault(t).Some? && vault(t).value != "")
    ensures ok && refs != [] ==> targets == refs
    ensures refs == [] ==> (ok <==> forall t | WantedKey(cat, t, true) :: vault(t).Some? && vault(t).value != "")
    ensures ok && refs == [] ==> forall t | WantedKey(cat, t, true) :: t in targets
  {
    hide PlanOf, Lists;
    plan, targets := [], [];
    var r := Resolve(cat, refs, true);
    if r.Failed? {
      return false, [], [];
    }
    targets := r.refs;
    var ups: Updates := map[];
    for i := 0 to |targets|
      invariant forall t :: t in ups <==> t in targets[..i]
      invariant forall t | t in ups :: vault(t).Some? && vault(t).value != "" && ups[t] == vault(t).value
    {
      var t := targets[i];
      assert t in targets;
      var v := vault(t);
      if v.None? || v.value == "" {
        return false, [], [];
      }
      ups := ups[t := v.value];
      assert forall u :: u in targets[..i + 1] <==> u in targets[..i] || u == t;
    }
    assert targets[..|targets|] == targets;
    assert ups == map t | t in targets && vault(t).Some? :: vault(t).value;
    WantedUpdates(cat, ups, true);
    plan := Build(cat, files, ups);
    ok := true;
  }

  /**
   * From settled files, a plan that gives the keys in ups new, different values changes exactly
   * those keys and their copies; every other value, and every file without one, stays as it was.
   */
  lemma {:induction false} RotateChangesExactly(cat: seq<Secret>, files: Files, ups: Updates, s: Secret)
    requires Valid(cat) && UpdatesOk(cat, ups) && Settled(cat, files) && s in cat
    requires forall r | r in ups :: Held(files, r).Some? && Held(files, r).value != ups[r]
    ensures forall n :: n in PlanFile(files, ups, s).changes <==>
              n in s.keys && (KeyRef(s.ref, n) in ups || (s.keys[n].Copy? && s.keys[n].source in ups))
    ensures forall n | n in PlanFile(files, ups, s).changes :: PlanFile(files, ups, s).changes[n] == Change
    ensures !PlanFile(files, ups, s).reshape
    ensures forall n | n in Current(files, s.ref) && n !in PlanFile(files, ups, s).changes ::
              n in NextValues(files, ups, s) && NextValues(files, ups, s)[n] == Current(files, s.ref)[n]
  {
    var was, next := Current(files, s.ref), NextValues(files, ups, s);
    hide Valid, UpdatesOk, Changes, AllGenerated, KeyInStep, NextValues, Current, Held;
    NextKeys(files, ups, s);
    forall n
      ensures ChangeOf(was, next, n) ==
              if n in s.keys && (KeyRef(s.ref, n) in ups || (s.keys[n].Copy? && s.keys[n].source in ups)) then Some(Change) else None
    {
      if n in s.keys {
        RotatedKey(cat, files, ups, s, n);
      }
    }
  }

  /** A listed key's change, from the value the file holds and the one the plan gives it. */
  lemma ChangeByHeld(files: Files, ups: Updates, s: Secret, n: string)
    requires n in s.keys
    ensures var a, b := Held(files, KeyRef(s.ref, n)), Next(files, ups, KeyRef(s.ref, n), s.keys[n]);
            ChangeOf(Current(files, s.ref), NextValues(files, ups, s), n) ==
            if a.Some? && b.Some? then (if a == b then None else Some(Change))
            else if b.Some? then Some(Add) else if a.Some? then Some(Remove) else None
  {
    hide Next;
  }

  lemma {:induction false} RotatedKey(cat: seq<Secret>, files: Files, ups: Updates, s: Secret, n: string)
    requires Valid(cat) && UpdatesOk(cat, ups) && Settled(cat, files) && s in cat && n in s.keys
    requires forall r | r in ups :: Held(files, r).Some? && Held(files, r).value != ups[r]
    ensures ChangeOf(Current(files, s.ref), NextValues(files, ups, s), n) ==
            if KeyRef(s.ref, n) in ups || (s.keys[n].Copy? && s.keys[n].source in ups) then Some(Change) else None
  {
    assert KeyInStep(files, KeyRef(s.ref, n), s.keys[n]);
    ChangeByHeld(files, ups, s, n);
    hide Valid, UpdatesOk, Render, AllGenerated, InStep, ChangeOf, NextValues, Current, Held;
    if !s.keys[n].Copyable() {
      NoUpdate(cat, ups, s, n);
    }
    if s.keys[n].Copy? && s.keys[n].source in ups {
      CopySource(cat, s, n);
      RenderInjective(s.keys[n].format, ups[s.keys[n].source], Held(files, s.keys[n].source).value);
    }
  }
}
