/**
 * A rehearsal's Secrets: made fresh in memory (tools/kluster/internal/secrets/fresh.go), the
 * check that they can be (tools/kluster/internal/coreset/check.go), and the Stage that applies
 * them (tools/kluster/internal/seed/stages.go).
 */
module Rehearsal {
  import opened Text
  import opened Catalog
  import S = Secrets

  /** The random source and the vault, as far as Fresh reads them: by key and by rehearsal item. */
  datatype Inputs = Inputs(random: KeyRef -> string, hasVault: bool, vault: string -> Option<string>)

  datatype FreshError = NoRehearsalItem | NoVault | ReadFailed | SourceNotMade

  datatype FreshResult = Made(values: map<Ref, Values>) | Failed(error: FreshError)

  /** A source's fresh value, if it can be made. */
  function Fresh1(ins: Inputs, r: KeyRef, k: Key): Option<string>
  {
    match k
    case Generated(_) => Some(ins.random(r))
    case Literal(v) => Some(v)
    case Issued(_, item) => if item != "" && ins.hasVault then ins.vault(item) else None
    case Copy(_, _) => None
  }

  /** The first pass over one entry: every key but the copies. */
  function Sources(ins: Inputs, s: Secret): Values {
    map n | n in s.keys && Fresh1(ins, KeyRef(s.ref, n), s.keys[n]).Some? :: Fresh1(ins, KeyRef(s.ref, n), s.keys[n]).value
  }

  ghost predicate IssuedRead(ins: Inputs, s: Secret) {
    forall n | n in s.keys && s.keys[n].Issued? :: Fresh1(ins, KeyRef(s.ref, n), s.keys[n]).Some?
  }

  method MakeSources(ins: Inputs, s: Secret) returns (v: Values, error: Option<FreshError>)
    requires EntryOk(s)
    ensures error.None? ==> v == Sources(ins, s)
    ensures error.None? <==> IssuedRead(ins, s)
  {
    hide EntryOk, S.Seen;
    v, error := map[], None;
    S.NoneSeen(s);
    for j := 0 to |s.names|
      invariant forall n :: n in v <==> n in S.Seen(s, j) && n in s.keys && Fresh1(ins, KeyRef(s.ref, n), s.keys[n]).Some?
      invariant forall n | n in v :: v[n] == Fresh1(ins, KeyRef(s.ref, n), s.keys[n]).value
      invariant forall n | n in S.Seen(s, j) && n in s.keys && s.keys[n].Issued? :: Fresh1(ins, KeyRef(s.ref, n), s.keys[n]).Some?
    {
      S.SeenStep(s, j);
      var name := s.names[j];
      match s.keys[name] {
        case Generated(_) =>
          v := v[name := ins.random(KeyRef(s.ref, name))];
        case Literal(value) =>
          v := v[name := value];
        case Issued(_, item) =>
          if item == "" { return v, Some(NoRehearsalItem); }
          if !ins.hasVault { return v, Some(NoVault); }
          var b := ins.vault(item);
          if b.None? { return v, Some(ReadFailed); }
          v := v[name := b.value];
        case Copy(_, _) =>
      }
    }
    S.SeenAll(s);
  }

  /** What Fresh asks: each issued key can be read, and each copy's source entry is made too. */
  ghost predicate CanMake(secrets: seq<Secret>, ins: Inputs) {
    && (forall s | s in secrets :: IssuedRead(ins, s))
    && (forall s | s in secrets :: CopiesMade(secrets, s))
  }

  ghost predicate CopiesMade(secrets: seq<Secret>, s: Secret) {
    forall n | n in s.keys && s.keys[n].Copy? :: exists t :: t in secrets && t.ref == s.keys[n].source.secret
  }

  ghost predicate Within(cat: seq<Secret>, secrets: seq<Secret>) {
    RefsDistinct(secrets) && forall s | s in secrets :: s in cat
  }

  /** Every entry holds its fresh sources. */
  ghost predicate SourcesIn(secrets: seq<Secret>, ins: Inputs, values: map<Ref, Values>) {
    && (forall r | r in values :: exists t :: t in secrets && t.ref == r)
    && forall t | t in secrets ::
         && t.ref in values
         && forall n | n in t.keys && !t.keys[n].Copy? :: Fresh1(ins, KeyRef(t.ref, n), t.keys[n]).Some? &&
                n in values[t.ref] && values[t.ref][n] == Fresh1(ins, KeyRef(t.ref, n), t.keys[n]).value
  }

  /** A copy renders the fresh value of its source. */
  ghost predicate IsCopied(values: map<Ref, Values>, s: Secret, n: string)
    requires n in s.keys && s.keys[n].Copy?
  {
    var src := s.keys[n].source;
    && s.ref in values && n in values[s.ref]
    && src.secret in values && src.key in values[src.secret]
    && values[s.ref][n] == Render(s.keys[n].format, values[src.secret][src.key])
  }

  ghost predicate Renders(values: map<Ref, Values>, k: Key, v: string)
    requires k.Copy?
  {
    k.source.secret in values && k.source.key in values[k.source.secret] &&
    v == Render(k.format, values[k.source.secret][k.source.key])
  }

  ghost predicate CopiesIn(values: map<Ref, Values>, s: Secret, seen: set<string>) {
    forall n | n in s.keys && s.keys[n].Copy? && n in seen :: IsCopied(values, s, n)
  }

  /** Once every source is made, a copy's source has a value exactly when its entry is made. */
  lemma SourceMade(cat: seq<Secret>, secrets: seq<Secret>, ins: Inputs, values: map<Ref, Values>, s: Secret, n: string)
    requires Valid(cat) && Within(cat, secrets) && SourcesIn(secrets, ins, values)
    requires s in secrets && n in s.keys && s.keys[n].Copy?
    ensures var src := s.keys[n].source;
            && (src.secret in values && src.key in values[src.secret] <==> exists t :: t in secrets && t.ref == src.secret)
            && (forall t | t in secrets && t.ref == src.secret :: src.key in t.keys && t.keys[src.key].Copyable())
  {
    hide EntryOk, FormatOk, Fresh1;
    var src := s.keys[n].source;
    CopySourceKey(cat, s, n);
    var k: Key :| k.Copyable() && Lists(cat, src, k);
    var u :| u in cat && u.ref == src.secret && src.key in u.keys && u.keys[src.key] == k;
    forall t | t in secrets && t.ref == src.secret ensures t == u { SameRef(cat, t, u); }
  }

  lemma CopySourceKey(cat: seq<Secret>, s: Secret, n: string)
    requires Valid(cat) && s in cat && n in s.keys && s.keys[n].Copy?
    ensures exists k: Key :: k.Copyable() && Lists(cat, s.keys[n].source, k)
  {
    S.CopySource(cat, s, n);
  }

  /** Writing a copy moves no source and no other copy. */
  lemma CopyWritten(cat: seq<Secret>, secrets: seq<Secret>, ins: Inputs, values: map<Ref, Values>, s: Secret, n: string, v: string)
    requires Valid(cat) && Within(cat, secrets) && SourcesIn(secrets, ins, values)
    requires s in secrets && n in s.keys && s.keys[n].Copy?
    ensures var out := values[s.ref := values[s.ref][n := v]];
            && SourcesIn(secrets, ins, out)
            && (forall t, m | t in secrets && m in t.keys && t.keys[m].Copy? && IsCopied(values, t, m) && !(t == s && m == n) :: IsCopied(out, t, m))
            && (Renders(values, s.keys[n], v) ==> IsCopied(out, s, n))
  {
    hide Fresh1, Render, Valid;
    var out := values[s.ref := values[s.ref][n := v]];
    forall t | t in secrets && t.ref == s.ref ensures t == s { SameRef(secrets, s, t); }
    forall t, m | t in secrets && m in t.keys && t.keys[m].Copy?
      ensures t.keys[m].source != KeyRef(s.ref, n)
    {
      if t.keys[m].source == KeyRef(s.ref, n) {
        SourceMade(cat, secrets, ins, values, t, m);
      }
    }
  }

  /** The second pass over one entry. */
  method MakeCopies(cat: seq<Secret>, secrets: seq<Secret>, ins: Inputs, s: Secret, values: map<Ref, Values>)
    returns (out: map<Ref, Values>, error: Option<FreshError>)
    requires Valid(cat) && Within(cat, secrets) && SourcesIn(secrets, ins, values) && s in secrets
    ensures error.None? <==> CopiesMade(secrets, s)
    ensures error.None? ==> SourcesIn(secrets, ins, out) && CopiesIn(out, s, s.keys.Keys)
    ensures error.None? ==> forall t, m | t in secrets && t != s && m in t.keys && t.keys[m].Copy? && IsCopied(values, t, m) :: IsCopied(out, t, m)
  {
    hide Valid, EntryOk, SourcesIn, IsCopied, Render, Fresh1, S.Seen;
    S.ValidParts(cat, s);
    S.NoneSeen(s);
    out, error := values, None;
    for j := 0 to |s.names|
      invariant SourcesIn(secrets, ins, out) && CopiesIn(out, s, S.Seen(s, j))
      invariant forall t, m | t in secrets && t != s && m in t.keys && t.keys[m].Copy? && IsCopied(values, t, m) :: IsCopied(out, t, m)
      invariant forall n | n in S.Seen(s, j) && n in s.keys && s.keys[n].Copy? :: exists t :: t in secrets && t.ref == s.keys[n].source.secret
    {
      S.SeenStep(s, j);
      var name := s.names[j];
      var k := s.keys[name];
      if k.Copy? {
        SourceMade(cat, secrets, ins, out, s, name);
        if k.source.secret !in out || k.source.key !in out[k.source.secret] {
          return out, Some(SourceNotMade);
        }
        var v := Render(k.format, out[k.source.secret][k.source.key]);
        CopyWritten(cat, secrets, ins, out, s, name, v);
        assert s.ref in out by { SourcesHave(secrets, ins, out, s); }
        out := out[s.ref := out[s.ref][name := v]];
      }
    }
    S.SeenAll(s);
  }

  lemma SourcesHave(secrets: seq<Secret>, ins: Inputs, values: map<Ref, Values>, s: Secret)
    requires SourcesIn(secrets, ins, values) && s in secrets
    ensures s.ref in values
  {}

  /** The first pass over every entry. */
  method MakeAllSources(cat: seq<Secret>, secrets: seq<Secret>, ins: Inputs) returns (vals: map<Ref, Values>, error: Option<FreshError>)
    requires Valid(cat) && Within(cat, secrets)
    ensures error.None? <==> forall s | s in secrets :: IssuedRead(ins, s)
    ensures error.None? ==> SourcesIn(secrets, ins, vals)
  {
    hide Valid, EntryOk, Fresh1, IssuedRead, Sources;
    vals, error := map[], None;
    for i := 0 to |secrets|
      invariant forall ref | ref in vals :: exists t :: t in secrets && t.ref == ref
      invariant forall a | 0 <= a < i :: secrets[a].ref in vals && vals[secrets[a].ref] == Sources(ins, secrets[a])
      invariant error.None? && forall a | 0 <= a < i :: IssuedRead(ins, secrets[a])
    {
      var s := secrets[i];
      assert s in secrets && s in cat;
      S.ValidParts(cat, s);
      var v;
      v, error := MakeSources(ins, s);
      if error.Some? {
        return;
      }
      vals := vals[s.ref := v];
    }
    SourcesComplete(secrets, ins, vals);
    forall s | s in secrets
      ensures IssuedRead(ins, s)
    {
      var a :| 0 <= a < |secrets| && secrets[a] == s;
    }
  }

  /** Fresh makes every entry, or names why it cannot; every copy renders its source's fresh value. */
  method Fresh(cat: seq<Secret>, secrets: seq<Secret>, ins: Inputs) returns (r: FreshResult)
    requires Valid(cat) && Within(cat, secrets)
    ensures r.Made? <==> CanMake(secrets, ins)
    ensures r.Made? ==> SourcesIn(secrets, ins, r.values)
    ensures r.Made? ==> forall s | s in secrets :: CopiesIn(r.values, s, s.keys.Keys)
  {
    hide Valid, IssuedRead, CopiesMade, SourcesIn, IsCopied;
    var vals, e := MakeAllSources(cat, secrets, ins);
    if e.Some? {
      return Failed(e.value);
    }
    for i := 0 to |secrets|
      invariant SourcesIn(secrets, ins, vals)
      invariant forall a | 0 <= a < i :: CopiesMade(secrets, secrets[a]) && CopiesIn(vals, secrets[a], secrets[a].keys.Keys)
    {
      assert secrets[i] in secrets;
      assert forall a | 0 <= a < i :: secrets[a] in secrets && secrets[a] != secrets[i];
      vals, e := MakeCopies(cat, secrets, ins, secrets[i], vals);
      if e.Some? {
        return Failed(e.value);
      }
    }
    r := Made(vals);
  }

  lemma SourcesComplete(secrets: seq<Secret>, ins: Inputs, vals: map<Ref, Values>)
    requires forall r | r in vals :: exists t :: t in secrets && t.ref == r
    requires forall a | 0 <= a < |secrets| :: secrets[a].ref in vals && vals[secrets[a].ref] == Sources(ins, secrets[a])
    requires forall a | 0 <= a < |secrets| :: IssuedRead(ins, secrets[a])
    ensures SourcesIn(secrets, ins, vals)
  {
    forall t | t in secrets
      ensures t.ref in vals && vals[t.ref] == Sources(ins, t)
      ensures IssuedRead(ins, t)
    {
      var a :| 0 <= a < |secrets| && secrets[a] == t;
    }
  }

  // --- The check -------------------------------------------------------------

  predicate IsFresh(s: Secret, namespaces: set<string>) {
    s.ref.namespace in namespaces && !s.omit
  }

  /** The catalog's entries in a rehearsal namespace, without those marked omit, in order. */
  function FreshOf(cat: seq<Secret>, namespaces: set<string>): seq<Secret> {
    if cat == [] then []
    else
      var n := |cat| - 1;
      FreshOf(cat[..n], namespaces) + if IsFresh(cat[n], namespaces) then [cat[n]] else []
  }

  lemma {:induction false} FreshIn(cat: seq<Secret>, namespaces: set<string>)
    ensures forall s :: s in FreshOf(cat, namespaces) <==> s in cat && IsFresh(s, namespaces)
  {
    if cat != [] {
      var n := |cat| - 1;
      FreshIn(cat[..n], namespaces);
      assert cat == cat[..n] + [cat[n]];
    }
  }

  /** Two of them stand as they stand in the catalog. */
  lemma {:induction false} FreshOrder(cat: seq<Secret>, namespaces: set<string>, i: nat, j: nat) returns (a: nat, b: nat)
    requires i < j < |FreshOf(cat, namespaces)|
    ensures a < b < |cat| && cat[a] == FreshOf(cat, namespaces)[i] && cat[b] == FreshOf(cat, namespaces)[j]
  {
    hide IsFresh;
    var n := |cat| - 1;
    var init := FreshOf(cat[..n], namespaces);
    if j < |init| {
      a, b := FreshOrder(cat[..n], namespaces, i, j);
    } else {
      FreshIn(cat[..n], namespaces);
      assert init[i] in init;
      assert init[i] in cat[..n];
      a :| a < n && cat[..n][a] == init[i];
      b := n;
    }
  }

  /** s stands before t in the catalog. */
  ghost predicate Before(cat: seq<Secret>, s: Secret, t: Secret) {
    exists a, b :: 0 <= a < b < |cat| && cat[a] == s && cat[b] == t
  }

  /** The fresh entries are exactly those, and in the catalog's order. */
  lemma {:induction false} FreshOfIs(cat: seq<Secret>, namespaces: set<string>)
    ensures forall s :: s in FreshOf(cat, namespaces) <==> s in cat && IsFresh(s, namespaces)
    ensures var out := FreshOf(cat, namespaces);
            forall i, j | 0 <= i < j < |out| :: Before(cat, out[i], out[j])
    ensures RefsDistinct(cat) ==> Within(cat, FreshOf(cat, namespaces))
  {
    hide FreshOf, IsFresh;
    FreshIn(cat, namespaces);
    var out := FreshOf(cat, namespaces);
    forall i, j | 0 <= i < j < |out|
      ensures Before(cat, out[i], out[j])
      ensures RefsDistinct(cat) ==> out[i].ref != out[j].ref
    {
      var a, b := FreshOrder(cat, namespaces, i, j);
    }
  }

  /** FreshSecrets. */
  method FreshSecrets(cat: seq<Secret>, namespaces: set<string>) returns (out: seq<Secret>)
    ensures out == FreshOf(cat, namespaces)
  {
    out := [];
    for i := 0 to |cat|
      invariant out == FreshOf(cat[..i], namespaces)
    {
      assert cat[..i + 1][..i] == cat[..i];
      if cat[i].ref.namespace in namespaces && !cat[i].omit {
        out := out + [cat[i]];
      }
    }
    assert cat[..|cat|] == cat;
  }

  /** Every fresh entry can be made in a rehearsal, and each copy among them has its source there. */
  ghost predicate CheckPasses(secrets: seq<Secret>) {
    forall s, n | s in secrets && n in s.keys ::
      s.keys[n].InRehearsal() && (s.keys[n].Copy? ==> exists t :: t in secrets && t.ref == s.keys[n].source.secret)
  }

  /** No omit stands on an entry that no rehearsal namespace holds. */
  ghost predicate NoneStale(cat: seq<Secret>, namespaces: set<string>) {
    forall s | s in cat && s.omit :: s.ref.namespace in namespaces
  }

  /** checkRehearsalSecrets, over the parsed catalog and the rehearsal's namespaces. */
  method CheckRehearsal(cat: seq<Secret>, namespaces: set<string>) returns (errors: nat)
    requires forall s | s in cat :: EntryOk(s)
    ensures errors == 0 <==> CheckPasses(FreshOf(cat, namespaces)) && NoneStale(cat, namespaces)
  {
    hide EntryOk, CheckPasses, NoneStale, FreshOf;
    var entries := FreshSecrets(cat, namespaces);
    FreshOfIs(cat, namespaces);
    errors := CheckFresh(entries);
    ghost var before := errors;
    for i := 0 to |cat|
      invariant errors == 0 <==> before == 0 && forall a | 0 <= a < i && cat[a].omit :: cat[a].ref.namespace in namespaces
    {
      if cat[i].omit && cat[i].ref.namespace !in namespaces {
        errors := errors + 1;
      }
    }
    StaleIs(cat, namespaces);
  }

  lemma StaleIs(cat: seq<Secret>, namespaces: set<string>)
    ensures NoneStale(cat, namespaces) <==> forall a | 0 <= a < |cat| && cat[a].omit :: cat[a].ref.namespace in namespaces
  {}

  /** The loops of checkRehearsalSecrets over the fresh entries. */
  method CheckFresh(secrets: seq<Secret>) returns (errors: nat)
    requires forall s | s in secrets :: EntryOk(s)
    ensures errors == 0 <==> CheckPasses(secrets)
  {
    hide EntryOk, S.Seen;
    var made: set<Ref> := {};
    for i := 0 to |secrets|
      invariant forall r :: r in made <==> exists a :: 0 <= a < i && secrets[a].ref == r
    {
      made := made + {secrets[i].ref};
    }
    assert forall r :: r in made <==> exists t :: t in secrets && t.ref == r;
    errors := 0;
    for i := 0 to |secrets|
      invariant errors == 0 <==> forall a, n | 0 <= a < i && n in secrets[a].keys :: KeyPasses(made, secrets[a].keys[n])
    {
      var s := secrets[i];
      assert s in secrets;
      S.NoneSeen(s);
      ghost var before := errors;
      for j := 0 to |s.names|
        invariant errors == 0 <==> before == 0 && forall n | n in S.Seen(s, j) && n in s.keys :: KeyPasses(made, s.keys[n])
      {
        S.SeenStep(s, j);
        var k := s.keys[s.names[j]];
        if !k.InRehearsal() || (k.Copy? && k.source.secret !in made) {
          errors := errors + 1;
        }
      }
      S.SeenAll(s);
    }
  }

  predicate KeyPasses(made: set<Ref>, k: Key) {
    k.InRehearsal() && (k.Copy? ==> k.source.secret in made)
  }

  /** Every issued key that names a rehearsal item can be read from the vault. */
  ghost predicate VaultReads(secrets: seq<Secret>, ins: Inputs) {
    forall s, n | s in secrets && n in s.keys && s.keys[n].Issued? && s.keys[n].rehearsalItem != "" ::
      ins.hasVault && ins.vault(s.keys[n].rehearsalItem).Some?
  }

  /** Fresh makes every entry if and only if the check passes and the vault gives what it is asked for. */
  lemma FreshIffChecked(secrets: seq<Secret>, ins: Inputs)
    ensures CanMake(secrets, ins) <==> CheckPasses(secrets) && VaultReads(secrets, ins)
  {
    if CanMake(secrets, ins) {
      forall s, n | s in secrets && n in s.keys
        ensures s.keys[n].InRehearsal() && (s.keys[n].Copy? ==> exists t :: t in secrets && t.ref == s.keys[n].source.secret)
      {
        assert CopiesMade(secrets, s) && IssuedRead(ins, s);
      }
    } else if VaultReads(secrets, ins) {
      if s :| s in secrets && !IssuedRead(ins, s) {
        var n :| n in s.keys && s.keys[n].Issued? && Fresh1(ins, KeyRef(s.ref, n), s.keys[n]).None?;
        assert !s.keys[n].InRehearsal();
      }
    }
  }

  // --- The Stage -------------------------------------------------------------

  type Live = map<Ref, Values>

  ghost predicate HasKeys(v: Values, s: Secret) {
    forall n | n in s.keys :: n in v
  }

  /** An absent entry copies a key of a present one. */
  ghost predicate CopiesPresent(secrets: seq<Secret>, live: Live, s: Secret) {
    s.ref !in live && exists n :: n in s.keys && s.keys[n].Copy? && s.keys[n].source.secret in live &&
                                  exists t :: t in secrets && t.ref == s.keys[n].source.secret
  }

  /** A present entry copies a key of an absent one: the probe does not look for it. */
  ghost predicate CopiesAbsent(secrets: seq<Secret>, live: Live, s: Secret) {
    s.ref in live && exists n :: n in s.keys && s.keys[n].Copy? && s.keys[n].source.secret !in live &&
                                 exists t :: t in secrets && t.ref == s.keys[n].source.secret
  }

  /** The probe lets Act run, and Act would make these entries. */
  ghost predicate ProbePasses(secrets: seq<Secret>, live: Live) {
    forall s | s in secrets :: (s.ref in live ==> HasKeys(live[s.ref], s)) && !CopiesPresent(secrets, live, s)
  }

  /** Every copy whose entry and source entry are both live is its source's value rendered. */
  ghost predicate CopiesAgree(secrets: seq<Secret>, live: Live) {
    forall s, n | s in secrets && n in s.keys && s.keys[n].Copy? && s.ref in live && s.keys[n].source.secret in live ::
      IsCopied(live, s, n)
  }

  /** Act applies the fresh values of the absent entries, in order, cut after the first m. */
  function Applied(made: Live, absent: seq<Secret>, live: Live, m: nat): Live
    requires m <= |absent| && forall s | s in absent :: s.ref in made
  {
    if m == 0 then live
    else
      assert absent[m - 1] in absent;
      Applied(made, absent, live, m - 1)[absent[m - 1].ref := made[absent[m - 1].ref]]
  }

  ghost predicate IsAbsent(secrets: seq<Secret>, live: Live, absent: seq<Secret>) {
    forall s :: s in absent <==> s in secrets && s.ref !in live
  }

  lemma {:induction false} AppliedIs(made: Live, absent: seq<Secret>, live: Live, m: nat, r: Ref)
    requires m <= |absent| && forall s | s in absent :: s.ref in made
    ensures r in Applied(made, absent, live, m) <==> r in live || exists a :: 0 <= a < m && absent[a].ref == r
    ensures r in Applied(made, absent, live, m) ==>
              Applied(made, absent, live, m)[r] == if exists a :: 0 <= a < m && absent[a].ref == r then made[r] else live[r]
  {
    if m > 0 {
      assert absent[m - 1] in absent;
      AppliedIs(made, absent, live, m - 1, r);
    }
  }

  /**
   * A completed Act leaves every copy agreeing with its source, when no present entry copies
   * an absent one: the probe has refused the other way round.
   */
  lemma ActAgrees(secrets: seq<Secret>, live: Live, made: Live, absent: seq<Secret>)
    requires IsAbsent(secrets, live, absent) && ProbePasses(secrets, live) && CopiesAgree(secrets, live)
    requires forall s | s in secrets :: s.ref in made && CopiesIn(made, s, s.keys.Keys)
    requires forall s | s in secrets :: !CopiesAbsent(secrets, live, s)
    requires forall s, n | s in secrets && n in s.keys && s.keys[n].Copy? :: exists t :: t in secrets && t.ref == s.keys[n].source.secret
    ensures CopiesAgree(secrets, Applied(made, absent, live, |absent|))
    ensures forall s | s in secrets :: s.ref in Applied(made, absent, live, |absent|)
  {
    hide Applied;
    var after := Applied(made, absent, live, |absent|);
    forall s | s in secrets
      ensures s.ref in after && after[s.ref] == if s.ref in live then live[s.ref] else made[s.ref]
    {
      AppliedIs(made, absent, live, |absent|, s.ref);
      assert forall a | 0 <= a < |absent| :: absent[a] in absent;
      if s.ref !in live {
        assert s in absent;
      }
    }
    forall s, n | s in secrets && n in s.keys && s.keys[n].Copy?
      ensures IsCopied(after, s, n)
    {
      var t :| t in secrets && t.ref == s.keys[n].source.secret;
      assert !CopiesPresent(secrets, live, s) && !CopiesAbsent(secrets, live, s);
      assert s.ref in live <==> t.ref in live;
      assert s.ref in live ==> IsCopied(live, s, n);
      assert IsCopied(made, s, n);
    }
  }

  /** Every value that Act makes is new: no live copy holds it already. */
  ghost predicate MadeNew(secrets: seq<Secret>, live: Live, made: Live) {
    forall s, n | s in secrets && n in s.keys && s.keys[n].Copy? && s.ref in live && s.keys[n].source.secret !in live ::
      !(s.keys[n].source.secret in made && n in live[s.ref] && Renders(made, s.keys[n], live[s.ref][n]))
  }

  /**
   * Over values that are new, a completed Act leaves every copy agreeing with its source
   * exactly when no present entry copies an absent one.
   */
  lemma ActAgreesIff(secrets: seq<Secret>, live: Live, made: Live, absent: seq<Secret>)
    requires RefsDistinct(secrets)
    requires IsAbsent(secrets, live, absent) && ProbePasses(secrets, live) && CopiesAgree(secrets, live)
    requires forall s | s in secrets :: s.ref in made && CopiesIn(made, s, s.keys.Keys)
    requires forall s, n | s in secrets && n in s.keys && s.keys[n].Copy? :: exists t :: t in secrets && t.ref == s.keys[n].source.secret
    requires MadeNew(secrets, live, made)
    ensures CopiesAgree(secrets, Applied(made, absent, live, |absent|)) <==> forall s | s in secrets :: !CopiesAbsent(secrets, live, s)
  {
    hide *;
    if forall s | s in secrets :: !CopiesAbsent(secrets, live, s) {
      ActAgrees(secrets, live, made, absent);
    } else {
      var s :| s in secrets && CopiesAbsent(secrets, live, s);
      ActStrands(secrets, live, made, absent, s);
    }
  }

  lemma ActStrands(secrets: seq<Secret>, live: Live, made: Live, absent: seq<Secret>, s: Secret)
    requires IsAbsent(secrets, live, absent) && MadeNew(secrets, live, made)
    requires forall t | t in secrets :: t.ref in made
    requires s in secrets && CopiesAbsent(secrets, live, s)
    ensures !CopiesAgree(secrets, Applied(made, absent, live, |absent|))
  {
    hide Applied, Render;
    var after := Applied(made, absent, live, |absent|);
    var n :| n in s.keys && s.keys[n].Copy? && s.keys[n].source.secret !in live && exists t :: t in secrets && t.ref == s.keys[n].source.secret;
    var t :| t in secrets && t.ref == s.keys[n].source.secret;
    AppliedIs(made, absent, live, |absent|, s.ref);
    AppliedIs(made, absent, live, |absent|, t.ref);
    assert forall a | 0 <= a < |absent| :: absent[a] in absent;
    assert t in absent;
    assert after[s.ref] == live[s.ref] && after[t.ref] == made[t.ref];
    assert !IsCopied(after, s, n);
  }

  /**
   * Without that precondition the property fails: an Act cut after it applied a copy but not
   * its source leaves a state the next probe accepts, and the completed rerun, which makes
   * every value again, leaves the copy with another value than its source.
   */
  lemma CutStrandsCopy(v: string, w: string)
    requires v != w
    ensures var a, b := Ref("ns", "a"), Ref("ns", "b");
            var copy := Secret(a, ["k"], map["k" := Copy(KeyRef(b, "k"), "")], false);
            var source := Secret(b, ["k"], map["k" := Generated(40)], false);
            var secrets := [copy, source];
            var first: Live := map[a := map["k" := v], b := map["k" := v]];
            var second: Live := map[a := map["k" := w], b := map["k" := w]];
            var cut := Applied(first, secrets, map[], 1);
            && IsAbsent(secrets, map[], secrets) && ProbePasses(secrets, map[])
            && ProbePasses(secrets, cut) && IsAbsent(secrets, cut, [source])
            && ProbePasses(secrets, Applied(second, [source], cut, 1))
            && !CopiesAgree(secrets, Applied(second, [source], cut, 1))
  {
    var a, b := Ref("ns", "a"), Ref("ns", "b");
    assert "a" != "b" by { assert "a"[0] != "b"[0]; }
    var copy := Secret(a, ["k"], map["k" := Copy(KeyRef(b, "k"), "")], false);
    var source := Secret(b, ["k"], map["k" := Generated(40)], false);
    var secrets := [copy, source];
    var first: Live := map[a := map["k" := v], b := map["k" := v]];
    var second: Live := map[a := map["k" := w], b := map["k" := w]];
    var cut := Applied(first, secrets, map[], 1);
    assert Applied(first, secrets, map[], 0) == map[];
    assert cut == map[a := map["k" := v]];
    assert Applied(second, [source], cut, 0) == cut;
    var end := Applied(second, [source], cut, 1);
    assert end == cut[b := map["k" := w]];
    assert !IsCopied(end, copy, "k");
    assert copy in secrets;
  }
}
