/** kluster secrets list without a vault (tools/kluster/internal/secrets/list.go). */
module SecretsList {
  import opened Text
  import opened Catalog
  import opened Secrets

  datatype State = Present | Missing | StaleCopy | SourceMissing | NotComparedBW | NotInCatalog | WrongShape

  /** One line of list; key is None on the line about a file's type and labels. */
  datatype Row = Row(secret: Ref, key: Option<string>, state: State)

  /** keyState with a nil vault. */
  function KeyState(files: Files, r: KeyRef, k: Key): State {
    var cur := Held(files, r);
    if cur.None? then Missing
    else match k
      case Copy(src, format) =>
        var v := Held(files, src);
        if v.None? then SourceMissing
        else if Render(format, v.value) != cur.value then StaleCopy
        else Present
      case Literal(v) => if v != cur.value then StaleCopy else Present
      case Issued(_, _) => NotComparedBW
      case Generated(_) => Present
  }

  /** The rows of one entry. */
  ghost predicate RowOf(files: Files, s: Secret, row: Row) {
    row.secret == s.ref &&
    match row.key
    case None => row.state == WrongShape && s.ref in files && files[s.ref].mismatch
    case Some(n) =>
      if n in s.keys then row.state == KeyState(files, KeyRef(s.ref, n), s.keys[n])
      else row.state == NotInCatalog && n in Current(files, s.ref)
  }

  /**
   * What each state says of the files and of the next Generate: a held key whose source is
   * held is stale exactly when Generate changes it.
   */
  lemma {:induction false} StateMeans(cat: seq<Secret>, files: Files, random: KeyRef -> string, s: Secret, n: string)
    requires Valid(cat) && s in cat && n in s.keys
    ensures var k, r := s.keys[n], KeyRef(s.ref, n);
            var state, changes := KeyState(files, r, k), PlanFile(files, GenerateUpdates(cat, files, random), s).changes;
            var held, sourced := Held(files, r).Some?, k.Copy? ==> Held(files, k.source).Some?;
            && (state == Missing <==> !held)
            && (state == SourceMissing <==> held && !sourced)
            && (state == StaleCopy <==> held && sourced && n in changes && changes[n] == Change)
            && (state == NotComparedBW <==> held && k.Issued?)
            && (state == Present <==> held && sourced && !k.Issued? && n !in changes)
  {
    var ups, k, r := GenerateUpdates(cat, files, random), s.keys[n], KeyRef(s.ref, n);
    ChangeByHeld(files, ups, s, n);
    HeldNotMade(cat, files, random, r);
    if k.Copy? {
      HeldNotMade(cat, files, random, k.source);
    }
    hide Held, GenerateUpdates, Render, Current, NextValues;
  }

  lemma HeldNotMade(cat: seq<Secret>, files: Files, random: KeyRef -> string, r: KeyRef)
    ensures Held(files, r).Some? ==> r !in GenerateUpdates(cat, files, random)
  {
    hide Held;
  }

  method List(cat: seq<Secret>, files: Files) returns (rows: set<Row>)
    requires Valid(cat)
    ensures forall row :: row in rows <==> exists i :: 0 <= i < |cat| && RowOf(files, cat[i], row)
  {
    hide KeyState, Valid, EntryOk;
    rows := {};
    for i := 0 to |cat|
      invariant forall row :: row in rows <==> exists a :: 0 <= a < i && RowOf(files, cat[a], row)
    {
      ValidParts(cat, cat[i]);
      var of := EntryRows(files, cat[i]);
      rows := rows + of;
    }
  }

  method EntryRows(files: Files, s: Secret) returns (rows: set<Row>)
    requires EntryOk(s)
    ensures forall row :: row in rows <==> RowOf(files, s, row)
  {
    hide KeyState, EntryOk, Seen;
    var v := if s.ref in files then files[s.ref].values else map[];
    rows := if s.ref in files && files[s.ref].mismatch then {Row(s.ref, None, WrongShape)} else {};
    ghost var shape := rows;
    NoneSeen(s);
    for j := 0 to |s.names|
      invariant forall row :: row in rows <==> (row in shape || (row.key.Some? && row.key.value in Seen(s, j) && RowOf(files, s, row)))
    {
      SeenStep(s, j);
      rows := rows + {Row(s.ref, Some(s.names[j]), KeyState(files, KeyRef(s.ref, s.names[j]), s.keys[s.names[j]]))};
    }
    SeenAll(s);
    var extra := set n | n in v && n !in s.keys;
    while extra != {}
      invariant forall n | n in extra :: n in v && n !in s.keys
      invariant forall row :: row in rows <==> RowOf(files, s, row) && !(row.key.Some? && row.key.value in extra)
      decreases extra
    {
      var n :| n in extra;
      rows, extra := rows + {Row(s.ref, Some(n), NotInCatalog)}, extra - {n};
    }
  }

  /** Rows that ask for nothing. */
  ghost predicate Fine(row: Row) {
    row.state == Present || row.state == NotComparedBW
  }

  ghost predicate AllFine(cat: seq<Secret>, files: Files) {
    forall s, row | s in cat && RowOf(files, s, row) :: Fine(row)
  }

  /** Generate plans no change and leaves nothing missing. */
  ghost predicate NothingToDo(cat: seq<Secret>, files: Files, ups: Updates) {
    forall s | s in cat :: !PlanFile(files, ups, s).Changed() && PlanFile(files, ups, s).missing == {}
  }

  /** Every listed key holds its final value already. */
  ghost predicate KeysFinal(cat: seq<Secret>, files: Files, ups: Updates) {
    forall s, n | s in cat && n in s.keys ::
      Held(files, KeyRef(s.ref, n)).Some? && Next(files, ups, KeyRef(s.ref, n), s.keys[n]) == Held(files, KeyRef(s.ref, n))
  }

  ghost predicate NoExtras(cat: seq<Secret>, files: Files) {
    forall s | s in cat :: (s.ref in files ==> !files[s.ref].mismatch) && Current(files, s.ref).Keys <= s.keys.Keys
  }

  lemma NothingToDoIs(cat: seq<Secret>, files: Files, ups: Updates)
    ensures NothingToDo(cat, files, ups) <==> NoExtras(cat, files) && KeysFinal(cat, files, ups)
  {
    hide Next, Changes;
    forall s | s in cat
      ensures !PlanFile(files, ups, s).Changed() && PlanFile(files, ups, s).missing == {} <==>
              && (s.ref in files ==> !files[s.ref].mismatch) && Current(files, s.ref).Keys <= s.keys.Keys
              && forall n | n in s.keys ::
                   Held(files, KeyRef(s.ref, n)).Some? && Next(files, ups, KeyRef(s.ref, n), s.keys[n]) == Held(files, KeyRef(s.ref, n))
    {
      EntryDone(files, ups, s);
    }
    hide Held, Current, PlanFile;
  }

  lemma EntryDone(files: Files, ups: Updates, s: Secret)
    ensures !PlanFile(files, ups, s).Changed() && PlanFile(files, ups, s).missing == {} <==>
            && (s.ref in files ==> !files[s.ref].mismatch) && Current(files, s.ref).Keys <= s.keys.Keys
            && forall n | n in s.keys ::
                 Held(files, KeyRef(s.ref, n)).Some? && Next(files, ups, KeyRef(s.ref, n), s.keys[n]) == Held(files, KeyRef(s.ref, n))
  {
    hide Next, Changes;
    var f, was, next := PlanFile(files, ups, s), Current(files, s.ref), NextValues(files, ups, s);
    NoChanges(was, next);
    if f.changes == map[] && f.missing == {} {
      forall n | n in s.keys
        ensures n in was
      {
        assert n !in f.missing;
      }
    }
    if was.Keys <= s.keys.Keys && forall n | n in s.keys ::
         Held(files, KeyRef(s.ref, n)).Some? && Next(files, ups, KeyRef(s.ref, n), s.keys[n]) == Held(files, KeyRef(s.ref, n)) {
      assert was == next;
    }
  }

  lemma AllFineIs(cat: seq<Secret>, files: Files)
    ensures AllFine(cat, files) <==>
            NoExtras(cat, files) && forall s, n | s in cat && n in s.keys :: KeyState(files, KeyRef(s.ref, n), s.keys[n]) in {Present, NotComparedBW}
  {
    hide KeyState;
    if AllFine(cat, files) {
      forall s | s in cat
        ensures s.ref in files ==> !files[s.ref].mismatch
        ensures Current(files, s.ref).Keys <= s.keys.Keys
      {
        var shape := Row(s.ref, None, WrongShape);
        assert RowOf(files, s, shape) ==> Fine(shape);
        forall n | n in Current(files, s.ref)
          ensures n in s.keys
        {
          var row := Row(s.ref, Some(n), NotInCatalog);
          assert RowOf(files, s, row) ==> Fine(row);
        }
      }
      forall s, n | s in cat && n in s.keys
        ensures KeyState(files, KeyRef(s.ref, n), s.keys[n]) in {Present, NotComparedBW}
      {
        var row := Row(s.ref, Some(n), KeyState(files, KeyRef(s.ref, n), s.keys[n]));
        assert RowOf(files, s, row) && Fine(row);
      }
    }
  }

  /**
   * List without a vault shows only present and not-compared rows exactly when Generate plans
   * no change and nothing is missing.
   */
  lemma {:induction false} ListAgreesWithGenerate(cat: seq<Secret>, files: Files, random: KeyRef -> string)
    requires Valid(cat)
    ensures AllFine(cat, files) <==> NothingToDo(cat, files, GenerateUpdates(cat, files, random))
  {
    var ups := GenerateUpdates(cat, files, random);
    AllFineIs(cat, files);
    NothingToDoIs(cat, files, ups);
    hide AllFine, NothingToDo, NoExtras, Valid, GenerateUpdates, Render, KeyState, Next;
    if forall s, n | s in cat && n in s.keys :: KeyState(files, KeyRef(s.ref, n), s.keys[n]) in {Present, NotComparedBW} {
      forall s, n | s in cat && n in s.keys ensures Held(files, KeyRef(s.ref, n)).Some? { FineIsHeld(files, KeyRef(s.ref, n), s.keys[n]); }
      AllHeldNoUpdates(cat, files, random);
      forall s, n | s in cat && n in s.keys
        ensures Next(files, ups, KeyRef(s.ref, n), s.keys[n]) == Held(files, KeyRef(s.ref, n))
      {
        FineIsFinal(files, KeyRef(s.ref, n), s.keys[n]);
      }
    }
    if KeysFinal(cat, files, ups) {
      AllHeldNoUpdates(cat, files, random);
      forall s, n | s in cat && n in s.keys
        ensures KeyState(files, KeyRef(s.ref, n), s.keys[n]) in {Present, NotComparedBW}
      {
        if s.keys[n].Copy? {
          CopySource(cat, s, n);
          ListedHeld(cat, files, s.keys[n].source);
        }
        FineIsFinal(files, KeyRef(s.ref, n), s.keys[n]);
      }
    }
  }

  lemma FineIsHeld(files: Files, r: KeyRef, k: Key)
    requires KeyState(files, r, k) in {Present, NotComparedBW}
    ensures Held(files, r).Some?
  {}

  /** With no update, a held key whose source is held is fine exactly when its next value is its value. */
  lemma FineIsFinal(files: Files, r: KeyRef, k: Key)
    requires Held(files, r).Some?
    ensures KeyState(files, r, k) in {Present, NotComparedBW} ==> Next(files, map[], r, k) == Held(files, r)
    ensures Next(files, map[], r, k) == Held(files, r) && (k.Copy? ==> Held(files, k.source).Some?) ==>
              KeyState(files, r, k) in {Present, NotComparedBW}
  {
    hide Render;
  }

  lemma AllHeldNoUpdates(cat: seq<Secret>, files: Files, random: KeyRef -> string)
    requires forall s, n | s in cat && n in s.keys :: Held(files, KeyRef(s.ref, n)).Some?
    ensures GenerateUpdates(cat, files, random) == map[]
  {
    hide Held;
    assert forall r :: r !in GenerateUpdates(cat, files, random);
  }

  lemma ListedHeld(cat: seq<Secret>, files: Files, r: KeyRef)
    requires exists k: Key :: k.Copyable() && Lists(cat, r, k)
    requires forall s, n | s in cat && n in s.keys :: Held(files, KeyRef(s.ref, n)).Some?
    ensures Held(files, r).Some?
  {
    hide Held;
    var k: Key :| k.Copyable() && Lists(cat, r, k);
    var s :| s in cat && s.ref == r.secret && r.key in s.keys && s.keys[r.key] == k;
    assert r == KeyRef(s.ref, r.key);
  }
}
