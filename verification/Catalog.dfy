/** The Secret Catalog (tools/kluster/internal/catalog): which keys exist and where each value comes from. */
module Catalog {
  import opened Text

  datatype Ref = Ref(namespace: string, name: string)

  datatype KeyRef = KeyRef(secret: Ref, key: string)

  datatype Key =
    | Generated(length: nat)
    | Issued(item: string, rehearsalItem: string)
    | Copy(source: KeyRef, format: string)
    | Literal(value: string)
  {
    /** Generated and issued keys may be the source of a copy. */
    predicate Copyable() {
      Generated? || Issued?
    }

    /** Every kind has a value in a rehearsal but an issued key without a rehearsal item. */
    predicate InRehearsal() {
      Issued? ==> rehearsalItem != ""
    }
  }

  /** One entry; names lists its keys in the catalog's order. */
  datatype Secret = Secret(ref: Ref, names: seq<string>, keys: map<string, Key>, omit: bool)

  type Values = map<string, string>

  const PLACEHOLDER: string := "{value}"

  /** The first index at which p occurs in s, or |s| + 1. */
  function Find(s: string, p: string): (i: nat)
    ensures i <= |s| ==> i + |p| <= |s| && s[i..i + |p|] == p
    ensures i > |s| ==> i == |s| + 1
  {
    if p <= s then
      assert s[0..0 + |p|] == p;
      0
    else if s == [] then 1
    else
      var i := Find(s[1..], p);
      assert i <= |s[1..]| ==> s[1..][i..i + |p|] == s[i + 1..i + 1 + |p|];
      i + 1
  }

  /** The value of a copy with the given format: the format with the value at its placeholder. */
  function Render(format: string, v: string): string {
    if format == "" then v
    else
      var i := Find(format, PLACEHOLDER);
      if i > |format| then format
      else format[..i] + v + format[i + |PLACEHOLDER|..]
  }

  /** A format the catalog accepts holds the placeholder; then distinct values render distinctly. */
  predicate FormatOk(format: string) {
    format == "" || Find(format, PLACEHOLDER) <= |format|
  }

  lemma RenderInjective(format: string, v: string, w: string)
    requires FormatOk(format)
    ensures Render(format, v) == Render(format, w) <==> v == w
  {
    hide Find;
    if format != "" {
      var i := Find(format, PLACEHOLDER);
      var a, b := format[..i], format[i + |PLACEHOLDER|..];
      assert |a + v + b| == |a| + |v| + |b| && |a + w + b| == |a| + |w| + |b|;
      assert (a + v + b)[|a|..|a| + |v|] == v;
      assert (a + w + b)[|a|..|a| + |w|] == w;
    }
  }

  /** KeyNames lists each key once. */
  ghost predicate NamesOk(s: Secret) {
    && (forall n :: n in s.names <==> n in s.keys)
    && (forall i, j | 0 <= i < j < |s.names| :: s.names[i] != s.names[j])
  }

  ghost predicate EntryOk(s: Secret) {
    NamesOk(s) && s.names != []
  }

  ghost predicate RefsDistinct(cat: seq<Secret>) {
    forall i, j | 0 <= i < j < |cat| :: cat[i].ref != cat[j].ref
  }

  /** The entry of a key that the catalog lists. */
  ghost predicate Lists(cat: seq<Secret>, r: KeyRef, k: Key) {
    exists s | s in cat :: s.ref == r.secret && r.key in s.keys && s.keys[r.key] == k
  }

  /** What validate accepts: each copy names a generated or issued key of the catalog. */
  ghost predicate Valid(cat: seq<Secret>) {
    && RefsDistinct(cat)
    && (forall s | s in cat :: EntryOk(s))
    && (forall s, n | s in cat && n in s.keys && s.keys[n].Copy? ::
          FormatOk(s.keys[n].format) && exists k: Key :: k.Copyable() && Lists(cat, s.keys[n].source, k))
  }

  // --- validate ----------------------------------------------------------------

  /** strings.Count: occurrences that do not overlap. */
  function Count(s: string, p: string): nat
    requires p != ""
    decreases |s|
  {
    if |s| < |p| then 0
    else if p <= s then 1 + Count(s[|p|..], p)
    else Count(s[1..], p)
  }

  lemma {:induction false} CountFinds(s: string, p: string)
    requires p != ""
    ensures Count(s, p) > 0 <==> Find(s, p) <= |s|
    decreases |s|
  {
    if |s| >= |p| && !(p <= s) {
      CountFinds(s[1..], p);
    } else if |s| < |p| {
      assert Find(s, p) > |s|;
    }
  }

  /** byRef, and the key there. */
  function Lookup(cat: seq<Secret>, r: KeyRef): (k: Option<Key>)
    ensures k.Some? ==> Lists(cat, r, k.value)
  {
    if cat == [] then None
    else if cat[0].ref == r.secret then
      if r.key in cat[0].keys then
        assert cat[0] in cat;
        Some(cat[0].keys[r.key])
      else None
    else
      var k := Lookup(cat[1..], r);
      assert forall s | s in cat[1..] :: s in cat;
      k
  }

  lemma {:induction false} LookupFinds(cat: seq<Secret>, r: KeyRef, k: Key)
    requires RefsDistinct(cat) && Lists(cat, r, k)
    ensures Lookup(cat, r) == Some(k)
  {
    var s :| s in cat && s.ref == r.secret && r.key in s.keys && s.keys[r.key] == k;
    var i :| 0 <= i < |cat| && cat[i] == s;
    if i > 0 {
      assert cat[0].ref != cat[i].ref;
      assert cat[1..][i - 1] == s;
      LookupFinds(cat[1..], r, k);
    }
  }

  /** A copy names a generated or issued key of the catalog, and its format holds the placeholder once. */
  predicate CopyOk(cat: seq<Secret>, k: Key) {
    k.Copy? ==>
      && (k.format == "" || Count(k.format, PLACEHOLDER) == 1)
      && Lookup(cat, k.source).Some? && Lookup(cat, k.source).value.Copyable()
  }

  /** The checks of validate that concern copies and empty entries, as it gathers them. */
  method Validate(cat: seq<Secret>) returns (errs: nat)
    requires RefsDistinct(cat) && forall s | s in cat :: NamesOk(s)
    ensures errs == 0 <==> forall s | s in cat :: s.names != [] && forall n | n in s.keys :: CopyOk(cat, s.keys[n])
    ensures errs == 0 ==> Valid(cat)
  {
    hide CopyOk, Valid, RefsDistinct;
    errs := 0;
    for i := 0 to |cat|
      invariant errs == 0 <==> forall s | s in cat[..i] :: s.names != [] && forall n | n in s.keys :: CopyOk(cat, s.keys[n])
    {
      var s := cat[i];
      assert s in cat && cat[..i + 1] == cat[..i] + [s];
      ghost var before := errs;
      if s.names == [] {
        errs := errs + 1;
      }
      for j := 0 to |s.names|
        invariant errs == 0 <==> before == 0 && s.names != [] && forall n | n in s.names[..j] :: n in s.keys && CopyOk(cat, s.keys[n])
      {
        assert s.names[j] in s.names && s.names[..j + 1] == s.names[..j] + [s.names[j]];
        if !CopyOk(cat, s.keys[s.names[j]]) {
          errs := errs + 1;
        }
      }
      assert s.names[..|s.names|] == s.names;
    }
    assert cat[..|cat|] == cat;
    if errs == 0 {
      AcceptedIsValid(cat);
    }
  }

  lemma AcceptedIsValid(cat: seq<Secret>)
    requires RefsDistinct(cat) && forall s | s in cat :: NamesOk(s) && s.names != [] && forall n | n in s.keys :: CopyOk(cat, s.keys[n])
    ensures Valid(cat)
  {
    hide Lookup, Find, Count, Lists;
    forall s, n | s in cat && n in s.keys && s.keys[n].Copy?
      ensures FormatOk(s.keys[n].format) && exists k: Key :: k.Copyable() && Lists(cat, s.keys[n].source, k)
    {
      assert CopyOk(cat, s.keys[n]);
      CountFinds(s.keys[n].format, PLACEHOLDER);
      assert Lists(cat, s.keys[n].source, Lookup(cat, s.keys[n].source).value);
    }
  }

  /** And every catalog with valid copies, each format holding its placeholder once, is accepted. */
  lemma ValidIsAccepted(cat: seq<Secret>)
    requires Valid(cat)
    requires forall s, n | s in cat && n in s.keys && s.keys[n].Copy? :: s.keys[n].format == "" || Count(s.keys[n].format, PLACEHOLDER) == 1
    ensures forall s | s in cat :: s.names != [] && forall n | n in s.keys :: CopyOk(cat, s.keys[n])
  {
    hide Lookup, Find, Count;
    forall s, n | s in cat && n in s.keys && s.keys[n].Copy?
      ensures CopyOk(cat, s.keys[n])
    {
      var k: Key :| k.Copyable() && Lists(cat, s.keys[n].source, k);
      LookupFinds(cat, s.keys[n].source, k);
    }
  }

  /** Two entries of one ref are one entry. */
  lemma SameRef(cat: seq<Secret>, s: Secret, t: Secret)
    requires RefsDistinct(cat) && s in cat && t in cat && s.ref == t.ref
    ensures s == t
  {}

  /** CopiesOf: every key that copies src, in the catalog's order. */
  method CopiesOf(cat: seq<Secret>, src: KeyRef) returns (out: seq<KeyRef>)
    requires forall s | s in cat :: EntryOk(s)
    ensures forall r :: r in out <==> IsCopyOf(cat, r, src)
  {
    out := [];
    for i := 0 to |cat|
      invariant forall r :: r in out <==> IsCopyOf(cat[..i], r, src)
    {
      var s := cat[i];
      assert s in cat && EntryOk(s);
      ghost var before := out;
      for j := 0 to |s.names|
        invariant forall r :: r in out <==>
                    (r in before || (r.secret == s.ref && r.key in s.names[..j] && s.keys[r.key].Copy? && s.keys[r.key].source == src))
      {
        assert s.names[j] in s.names;
        var k := s.keys[s.names[j]];
        if k.Copy? && k.source == src {
          out := out + [KeyRef(s.ref, s.names[j])];
        }
        assert forall n :: n in s.names[..j + 1] <==> n in s.names[..j] || n == s.names[j];
      }
      assert s.names[..|s.names|] == s.names;
      assert forall t :: t in cat[..i + 1] <==> t in cat[..i] || t == s;
    }
    assert cat[..|cat|] == cat;
  }

  ghost predicate IsCopyOf(cat: seq<Secret>, r: KeyRef, src: KeyRef) {
    exists s | s in cat :: s.ref == r.secret && r.key in s.keys && s.keys[r.key].Copy? && s.keys[r.key].source == src
  }
}
