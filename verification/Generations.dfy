/**
 * Archive Generations (tools/kluster/internal/pgcluster): their names, the check of the
 * recovery overlay, and the bump that moves the repository to the next generation by editing
 * the text of two files.
 */
module Generations {
  import opened Text

  // --- Names ---------------------------------------------------------------------

  const MAX := 0x7FFF_FFFF_FFFF_FFFF   // the int of a 64-bit machine

  const NAME := "tosak-pg-cluster-g"

  /** Generation.Next: int arithmetic wraps. */
  function Next(g: int): (n: int)
    requires -MAX - 1 <= g <= MAX
    ensures -MAX - 1 <= n <= MAX && n != g && (g < MAX ==> n == g + 1)
  {
    if g == MAX then -MAX - 1 else g + 1
  }

  predicate Digit(c: char) {
    '0' <= c <= '9'
  }

  predicate AllDigits(s: string) {
    forall c | c in s :: Digit(c)
  }

  function Digits(n: nat): (s: string)
    ensures s != "" && AllDigits(s) && (n > 0 ==> s[0] != '0')
  {
    if n < 10 then [(n as char) + '0'] else Digits(n / 10) + [((n % 10) as char) + '0']
  }

  function Number(s: string): nat
    requires AllDigits(s)
  {
    if s == "" then 0
    else
      var d := s[|s| - 1];
      assert d in s;
      10 * Number(s[..|s| - 1]) + (d - '0') as nat
  }

  lemma {:induction false} NumberDigits(n: nat)
    ensures Number(Digits(n)) == n
  {
    var s := Digits(n);
    if n < 10 {
      assert s[..0] == "";
    } else {
      NumberDigits(n / 10);
      assert s[..|s| - 1] == Digits(n / 10);
    }
  }

  lemma {:induction false} DigitsNumber(s: string)
    requires s != "" && AllDigits(s) && s[0] != '0'
    ensures Number(s) > 0 && Digits(Number(s)) == s
  {
    var d, t := s[|s| - 1], s[..|s| - 1];
    assert d in s && s == t + [d];
    assert forall c | c in t :: c in s;
    NumberSnoc(t, d);
    if t == "" {
      assert Number(t) == 0;
    } else {
      DigitsNumber(t);
      hide Digits, Number;
      DigitsSnoc(Number(t), d);
    }
  }

  lemma NumberSnoc(t: string, d: char)
    requires AllDigits(t) && Digit(d)
    ensures AllDigits(t + [d]) && Number(t + [d]) == 10 * Number(t) + (d - '0') as nat
  {
    assert (t + [d])[..|t|] == t;
  }

  lemma DigitsSnoc(n: nat, d: char)
    requires n > 0 && Digit(d)
    ensures Digits(10 * n + (d - '0') as nat) == Digits(n) + [d]
  {
    var m := 10 * n + (d - '0') as nat;
    assert m / 10 == n && m % 10 == (d - '0') as nat;
  }

  /** Generation.ServerName. */
  function ServerName(g: int): string {
    NAME + Decimal(g)
  }

  function ParseGeneration(s: string): Option<int> {
    if |s| <= |NAME| || s[..|NAME|] != NAME then None
    else
      var d := s[|NAME|..];
      if !AllDigits(d) || d[0] == '0' || Number(d) > MAX then None else Some(Number(d))
  }

  /** ParseGeneration and ServerName undo each other, and a name parses as its own generation only. */
  lemma {:induction false} ParsePrints(s: string, g: int)
    ensures ParseGeneration(s) == Some(g) <==> 1 <= g <= MAX && s == ServerName(g)
  {
    if ParseGeneration(s) == Some(g) {
      DigitsNumber(s[|NAME|..]);
      assert s == s[..|NAME|] + s[|NAME|..];
    }
    if 1 <= g <= MAX && s == ServerName(g) {
      assert s[..|NAME|] == NAME && s[|NAME|..] == Digits(g);
      NumberDigits(g);
    }
  }

  function Decimal(g: int): string {
    if g < 0 then "-" + Digits(-g) else Digits(g)
  }

  lemma {:induction false} DecimalOnce(a: int, b: int)
    ensures Decimal(a) == Decimal(b) ==> a == b
  {
    NumberDigits(if a < 0 then -a else a);
    NumberDigits(if b < 0 then -b else b);
    assert a < 0 ==> Decimal(a)[1..] == Digits(-a);
    assert b < 0 ==> Decimal(b)[1..] == Digits(-b);
    assert Digits(if a < 0 then -a else a)[0] in Digits(if a < 0 then -a else a);
    assert Digits(if b < 0 then -b else b)[0] in Digits(if b < 0 then -b else b);
    hide Digits;
  }

  lemma NamesDiffer(a: int, b: int)
    ensures ServerName(a) == ServerName(b) ==> a == b
  {
    hide Decimal;
    assert ServerName(a)[|NAME|..] == Decimal(a);
    assert ServerName(b)[|NAME|..] == Decimal(b);
    DecimalOnce(a, b);
  }

  /** A generation's name holds a g and neither a quote nor a backslash. */
  lemma NameChars(g: int)
    ensures '"' !in ServerName(g) && '\\' !in ServerName(g) && 'g' in ServerName(g)
  {
    DecimalChars(g);
    NamePrefix();
    hide Decimal;
    assert NAME[|NAME| - 1] in NAME;
  }

  lemma NamePrefix()
    ensures '"' !in NAME && '\\' !in NAME && NAME[|NAME| - 1] == 'g'
  {}

  lemma DecimalChars(g: int)
    ensures '"' !in Decimal(g) && '\\' !in Decimal(g)
  {
    hide Digits;
  }

  // --- Renaming strings in a text -----------------------------------------------

  /** bytes.ReplaceAll: leftmost first, what is put in is not looked at again. */
  function ReplaceAll(s: string, old_: string, new_: string): string
    requires old_ != ""
    decreases |s|
  {
    if |s| < |old_| then s
    else if s[..|old_|] == old_ then new_ + ReplaceAll(s[|old_|..], old_, new_)
    else [s[0]] + ReplaceAll(s[1..], old_, new_)
  }

  function Quoted(name: string): (r: string)
    ensures r != ""
  {
    "\"" + name + "\""
  }

  /** One pass over the pieces between quotes: a piece that was closed cannot open the next. */
  function Pass(pieces: seq<string>, a: string, b: string): (r: seq<string>)
    ensures |r| == |pieces|
  {
    if |pieces| < 3 then pieces
    else if pieces[1] == a then [pieces[0], b] + Pass(pieces[2..], a, b)
    else [pieces[0]] + Pass(pieces[1..], a, b)
  }

  predicate QuoteFree(pieces: seq<string>) {
    forall p | p in pieces :: '"' !in p
  }

  lemma {:induction false} ReplaceSkips(p: string, s: string, a: string, b: string)
    requires '"' !in p && '"' !in a && (s == "" || s[0] == '"')
    ensures ReplaceAll(p + s, Quoted(a), Quoted(b)) == p + ReplaceAll(s, Quoted(a), Quoted(b))
    decreases |p|
  {
    if p == "" {
      assert p + s == s;
    } else {
      assert p[0] in p && (p + s)[0] == p[0];
      assert (p + s)[1..] == p[1..] + s;
      ReplaceSkips(p[1..], s, a, b);
      assert [p[0]] + (p[1..] + ReplaceAll(s, Quoted(a), Quoted(b))) == p + ReplaceAll(s, Quoted(a), Quoted(b));
      if |p + s| < |Quoted(a)| {
        ReplaceShort(s, a, b);
      } else {
        assert (p + s)[..|Quoted(a)|][0] == p[0];
      }
    }
  }

  lemma ReplaceShort(s: string, a: string, b: string)
    requires |s| < |Quoted(a)|
    ensures ReplaceAll(s, Quoted(a), Quoted(b)) == s
  {}

  /** At a quote: the name and its closing quote, or neither. */
  lemma ReplaceAt(p: string, s: string, a: string, b: string)
    requires '"' !in p && '"' !in a
    ensures ReplaceAll("\"" + p + "\"" + s, Quoted(a), Quoted(b)) ==
            if p == a then Quoted(b) + ReplaceAll(s, Quoted(a), Quoted(b))
            else "\"" + ReplaceAll(p + ("\"" + s), Quoted(a), Quoted(b))
  {
    var t, q := "\"" + p + "\"" + s, Quoted(a);
    assert t[1..] == p + ("\"" + s);
    StartsName(p, s, a);
    if p == a {
      assert t[..|q|] == q && t[|q|..] == s;
    } else if |t| < |q| {
      ReplaceShort(t, a, b);
      ReplaceShort(t[1..], a, b);
      assert t == "\"" + t[1..];
    } else {
      assert [t[0]] == "\"";
    }
  }

  lemma StartsName(p: string, s: string, a: string)
    requires '"' !in p && '"' !in a
    ensures var t, q := "\"" + p + "\"" + s, Quoted(a);
            |t| >= |q| && t[..|q|] == q ==> p == a
  {
    var t, q := "\"" + p + "\"" + s, Quoted(a);
    if |t| >= |q| && t[..|q|] == q {
      var rest := t[|q|..];
      assert t == q + rest;
      assert t[1..] == p + ['"'] + s == a + ['"'] + rest;
      SplitPiece(p, s, '"');
      SplitPiece(a, rest, '"');
      assert ([p] + Split(s, '"'))[0] == p && ([a] + Split(rest, '"'))[0] == a;
    }
  }

  lemma {:induction false} ReplacePieces(pieces: seq<string>, a: string, b: string)
    requires pieces != [] && QuoteFree(pieces) && '"' !in a
    ensures ReplaceAll(Join(pieces, '"'), Quoted(a), Quoted(b)) == Join(Pass(pieces, a, b), '"')
    decreases |pieces|
  {
    hide ReplaceAll;
    assert pieces[0] in pieces;
    if |pieces| == 1 {
      ReplaceSkips(pieces[0], "", a, b);
      ReplaceShort("", a, b);
      assert pieces[0] + "" == pieces[0];
    } else {
      assert pieces[1] in pieces;
      assert forall p | p in pieces[1..] :: p in pieces;
      JoinCons(pieces[0], pieces[1..]);
      assert [pieces[0]] + pieces[1..] == pieces;
      if |pieces| == 2 {
        assert pieces[1..] == [pieces[1]];
        ReplaceSkips(pieces[0], "\"" + pieces[1], a, b);
        ReplaceLast(pieces[1], a, b);
      } else {
        ReplacePieces(pieces[1..], a, b);
        ReplacePieces(pieces[2..], a, b);
        ReplaceStep(pieces[0], pieces[1], pieces[2..], a, b);
        assert pieces[1..] == [pieces[1]] + pieces[2..];
        if pieces[1] == a {
          JoinPut(pieces[0], b, Pass(pieces[2..], a, b));
        } else {
          JoinCons(pieces[0], Pass(pieces[1..], a, b));
        }
      }
    }
  }

  lemma JoinPut(p: string, b: string, rest: seq<string>)
    requires rest != []
    ensures Join([p, b] + rest, '"') == p + (Quoted(b) + Join(rest, '"'))
  {
    JoinCons(b, rest);
    JoinCons(p, [b] + rest);
    hide Join;
    assert [p] + ([b] + rest) == [p, b] + rest;
    assert "\"" + (b + ("\"" + Join(rest, '"'))) == Quoted(b) + Join(rest, '"');
  }

  lemma JoinCons(p: string, rest: seq<string>)
    requires rest != []
    ensures Join([p] + rest, '"') == p + ("\"" + Join(rest, '"'))
  {
    assert ([p] + rest)[1..] == rest;
  }

  lemma ReplaceStep(p: string, q: string, rest: seq<string>, a: string, b: string)
    requires '"' !in p && '"' !in q && '"' !in a && rest != []
    ensures ReplaceAll(Join([p] + ([q] + rest), '"'), Quoted(a), Quoted(b)) ==
            if q == a then p + (Quoted(b) + ReplaceAll(Join(rest, '"'), Quoted(a), Quoted(b)))
            else p + ("\"" + ReplaceAll(Join([q] + rest, '"'), Quoted(a), Quoted(b)))
  {
    hide ReplaceAll;
    var j := Join(rest, '"');
    JoinCons(q, rest);
    JoinCons(p, [q] + rest);
    assert "\"" + (q + ("\"" + j)) == "\"" + q + "\"" + j;
    ReplaceSkips(p, "\"" + q + "\"" + j, a, b);
    ReplaceAt(q, j, a, b);
  }

  /** A last piece is never closed, so it is no string. */
  lemma ReplaceLast(p: string, a: string, b: string)
    requires '"' !in p && '"' !in a
    ensures ReplaceAll("\"" + p, Quoted(a), Quoted(b)) == "\"" + p
  {
    var t, q := "\"" + p, Quoted(a);
    if |t| >= |q| {
      assert t[|q| - 1] in p;
      assert t[..|q|][|q| - 1] == t[|q| - 1];
      assert t[1..] == p;
      ReplaceSkips(p, "", a, b);
      assert p + "" == p;
      ReplaceShort("", a, b);
    }
  }

  predicate Inner(pieces: seq<string>, i: int) {
    0 < i < |pieces| - 1
  }

  /** Every closed piece that is a becomes b. */
  function Renamed(pieces: seq<string>, a: string, b: string): (r: seq<string>)
    ensures |r| == |pieces|
  {
    seq(|pieces|, i requires 0 <= i < |pieces| => if Inner(pieces, i) && pieces[i] == a then b else pieces[i])
  }

  /** No piece a borders on another: a shared quote cannot close one and open the next. */
  ghost predicate Apart(pieces: seq<string>, a: string) {
    forall i | Inner(pieces, i) && Inner(pieces, i + 1) :: !(pieces[i] == a && pieces[i + 1] == a)
  }

  lemma {:induction false} PassRenames(pieces: seq<string>, a: string, b: string)
    requires Apart(pieces, a)
    ensures Pass(pieces, a, b) == Renamed(pieces, a, b)
    decreases |pieces|
  {
    if |pieces| >= 3 {
      var k := if pieces[1] == a then 2 else 1;
      ApartTail(pieces, a, k);
      PassRenames(pieces[k..], a, b);
      hide Pass, Apart;
      PassHead(pieces, a, b);
      RenamedHead(pieces, a, b);
    }
  }

  lemma ApartTail(pieces: seq<string>, a: string, k: nat)
    requires Apart(pieces, a) && k <= |pieces|
    ensures Apart(pieces[k..], a)
  {
    forall i | Inner(pieces[k..], i) && Inner(pieces[k..], i + 1)
      ensures !(pieces[k..][i] == a && pieces[k..][i + 1] == a)
    {
      assert Inner(pieces, i + k) && Inner(pieces, i + k + 1);
      assert !(pieces[i + k] == a && pieces[i + k + 1] == a);
    }
  }

  lemma PassHead(pieces: seq<string>, a: string, b: string)
    requires |pieces| >= 3
    ensures Pass(pieces, a, b) == if pieces[1] == a then [pieces[0], b] + Pass(pieces[2..], a, b) else [pieces[0]] + Pass(pieces[1..], a, b)
  {}

  lemma RenamedHead(pieces: seq<string>, a: string, b: string)
    requires |pieces| >= 3 && Apart(pieces, a)
    ensures Renamed(pieces, a, b) ==
            if pieces[1] == a then [pieces[0], b] + Renamed(pieces[2..], a, b) else [pieces[0]] + Renamed(pieces[1..], a, b)
  {
    assert Inner(pieces, 1);
    if pieces[1] == a && |pieces| > 3 {
      assert Inner(pieces, 2) && !(pieces[1] == a && pieces[2] == a);
    }
  }

  /** The two passes Bump makes over the overlay. */
  function Bumped(text: string, g: int): string
    requires -MAX - 1 <= g <= MAX
  {
    var n := Next(g);
    ReplaceAll(ReplaceAll(text, Quoted(ServerName(n)), Quoted(ServerName(Next(n)))),
               Quoted(ServerName(g)), Quoted(ServerName(n)))
  }

  /** The renaming in one step. */
  function Moved(name: string, g: int): string
    requires -MAX - 1 <= g <= MAX
  {
    if name == ServerName(g) then ServerName(Next(g))
    else if name == ServerName(Next(g)) then ServerName(Next(Next(g)))
    else name
  }

  function MovedPieces(pieces: seq<string>, g: int): (r: seq<string>)
    requires -MAX - 1 <= g <= MAX
    ensures |r| == |pieces|
  {
    seq(|pieces|, i requires 0 <= i < |pieces| => if Inner(pieces, i) then Moved(pieces[i], g) else pieces[i])
  }

  /**
   * The pieces of a text in which strings and what stands between them alternate, without
   * escapes. Outside its strings JSON has no g, and a generation's name has one.
   */
  ghost predicate JsonPieces(pieces: seq<string>) {
    && |pieces| % 2 == 1 && QuoteFree(pieces)
    && (forall p | p in pieces :: '\\' !in p)
    && (forall i | 0 <= i < |pieces| && i % 2 == 0 :: 'g' !in pieces[i])
  }

  ghost predicate Json(text: string) {
    JsonPieces(Split(text, '"'))
  }

  lemma JsonApart(pieces: seq<string>, g: int)
    requires JsonPieces(pieces)
    ensures Apart(pieces, ServerName(g))
  {
    NameChars(g);
    hide ServerName;
    forall i | Inner(pieces, i) && Inner(pieces, i + 1)
      ensures !(pieces[i] == ServerName(g) && pieces[i + 1] == ServerName(g))
    {
      assert i % 2 == 0 || (i + 1) % 2 == 0;
    }
  }

  /** Renaming generations keeps what is not a string, and brings in no quote and no escape. */
  lemma JsonRenamed(pieces: seq<string>, a: int, b: int)
    requires JsonPieces(pieces)
    ensures JsonPieces(Renamed(pieces, ServerName(a), ServerName(b)))
  {
    NameChars(a);
    NameChars(b);
    hide ServerName;
    var r := Renamed(pieces, ServerName(a), ServerName(b));
    forall p | p in r
      ensures '"' !in p && '\\' !in p
    {
      var i :| 0 <= i < |r| && r[i] == p;
      assert pieces[i] in pieces;
    }
  }

  /** One pass over such a text renames exactly the strings that are the name. */
  lemma {:induction false} PassMoves(text: string, a: int, b: int)
    requires Json(text)
    ensures Split(ReplaceAll(text, Quoted(ServerName(a)), Quoted(ServerName(b))), '"') ==
            Renamed(Split(text, '"'), ServerName(a), ServerName(b))
    ensures Json(ReplaceAll(text, Quoted(ServerName(a)), Quoted(ServerName(b))))
  {
    var pieces := Split(text, '"');
    NameChars(a);
    JoinSplit(text, '"');
    JsonApart(pieces, a);
    JsonRenamed(pieces, a, b);
    hide ServerName, ReplaceAll, Join, Split, Pass;
    PassRenames(pieces, ServerName(a), ServerName(b));
    ReplacePieces(pieces, ServerName(a), ServerName(b));
    SplitJoin(Renamed(pieces, ServerName(a), ServerName(b)), '"');
  }

  /** The archive's name first and the current one second is the renaming in one step. */
  lemma {:induction false} BumpedMoves(text: string, g: int)
    requires Json(text) && -MAX - 1 <= g <= MAX
    ensures Split(Bumped(text, g), '"') == MovedPieces(Split(text, '"'), g)
    ensures Json(Bumped(text, g))
  {
    hide *;
    var n, pieces := Next(g), Split(text, '"');
    PassMoves(text, n, Next(n));
    PassMoves(ReplaceAll(text, Quoted(ServerName(n)), Quoted(ServerName(Next(n)))), g, n);
    BumpedIs(text, g);
    TwoPasses(pieces, g);
  }

  lemma BumpedIs(text: string, g: int)
    requires -MAX - 1 <= g <= MAX
    ensures var n := Next(g);
            Bumped(text, g) == ReplaceAll(ReplaceAll(text, Quoted(ServerName(n)), Quoted(ServerName(Next(n)))),
                                          Quoted(ServerName(g)), Quoted(ServerName(n)))
  {
    hide ReplaceAll, ServerName;
  }

  lemma {:induction false} TwoPasses(pieces: seq<string>, g: int)
    requires -MAX - 1 <= g <= MAX
    ensures var n := Next(g);
            Renamed(Renamed(pieces, ServerName(n), ServerName(Next(n))), ServerName(g), ServerName(n)) == MovedPieces(pieces, g)
  {
    hide ServerName, Renamed, MovedPieces, Inner;
    NamesDiffer(g, Next(g));
    NamesDiffer(g, Next(Next(g)));
    hide *;
    var x, y, z := ServerName(g), ServerName(Next(g)), ServerName(Next(Next(g)));
    TwoNames(pieces, x, y, z);
    MovedAre(pieces, g);
  }

  lemma MovedAre(pieces: seq<string>, g: int)
    requires -MAX - 1 <= g <= MAX
    ensures var x, y, z := ServerName(g), ServerName(Next(g)), ServerName(Next(Next(g)));
            forall i | 0 <= i < |pieces| ::
              MovedPieces(pieces, g)[i] ==
              if !Inner(pieces, i) then pieces[i] else if pieces[i] == x then y else if pieces[i] == y then z else pieces[i]
  {
    hide ServerName, Next, Inner;
  }

  lemma TwoNames(pieces: seq<string>, x: string, y: string, z: string)
    requires x != y && x != z
    ensures var r := Renamed(Renamed(pieces, y, z), x, y);
            forall i | 0 <= i < |pieces| ::
              r[i] == if !Inner(pieces, i) then pieces[i] else if pieces[i] == x then y else if pieces[i] == y then z else pieces[i]
  {}

  // --- CheckOverlay -----------------------------------------------------------------

  // recover.json as the JSON parser finds it: for each operation, which pieces of the text
  // are the strings it reads. None: the string is not there, and Go reads it as empty.

  type Leaf = Option<nat>

  datatype Cluster = Cluster(name: Leaf, parameters: seq<(nat, nat)>)

  datatype Value = Str(at: nat) | Recovery(source: Leaf) | Clusters(list: seq<Cluster>) | OtherValue

  datatype Op = Op(op: Leaf, path: Leaf, value: Value)

  const SERVER_NAME := "/spec/plugins/0/parameters/serverName"
  const BOOTSTRAP := "/spec/bootstrap/recovery"
  const EXTERNAL := "/spec/externalClusters"
  const SOURCE_STORE := "tosak-pg-backups-source"

  function Read(pieces: seq<string>, at: Leaf): string {
    match at case None => "" case Some(i) => if i < |pieces| then pieces[i] else ""
  }

  function Lookup(pieces: seq<string>, parameters: seq<(nat, nat)>, key: string): string {
    if parameters == [] then ""
    else
      var last := parameters[|parameters| - 1];
      if Read(pieces, Some(last.0)) == key then Read(pieces, Some(last.1))
      else Lookup(pieces, parameters[..|parameters| - 1], key)
  }

  predicate Is(pieces: seq<string>, o: Op, op: string, path: string) {
    Read(pieces, o.op) == op && Read(pieces, o.path) == path
  }

  predicate TestOk(pieces: seq<string>, o: Op, name: string) {
    o.value.Str? && Read(pieces, Some(o.value.at)) == name
  }

  predicate SourceOk(pieces: seq<string>, o: Op, name: string) {
    o.value.Recovery? && Read(pieces, o.value.source) == name
  }

  predicate ExternalOk(pieces: seq<string>, o: Op, name: string) {
    && o.value.Clusters? && |o.value.list| == 1
    && var c := o.value.list[0];
       && Read(pieces, c.name) == name
       && Lookup(pieces, c.parameters, "serverName") == name
       && Lookup(pieces, c.parameters, "barmanObjectName") == SOURCE_STORE
  }

  ghost predicate OpOk(pieces: seq<string>, o: Op, cur: string, next: string) {
    && (Is(pieces, o, "test", SERVER_NAME) ==> TestOk(pieces, o, cur))
    && (Is(pieces, o, "replace", SERVER_NAME) ==> TestOk(pieces, o, next))
    && (Is(pieces, o, "add", BOOTSTRAP) ==> SourceOk(pieces, o, cur))
    && (Is(pieces, o, "add", EXTERNAL) ==> ExternalOk(pieces, o, cur))
  }

  ghost predicate Has(pieces: seq<string>, ops: seq<Op>, op: string, path: string) {
    exists o :: o in ops && Is(pieces, o, op, path)
  }

  /** What the overlay must be at generation g: every operation right, and one of each there. */
  ghost predicate OverlayOk(pieces: seq<string>, ops: seq<Op>, g: int)
    requires -MAX - 1 <= g <= MAX
  {
    && (forall o | o in ops :: OpOk(pieces, o, ServerName(g), ServerName(Next(g))))
    && Has(pieces, ops, "test", SERVER_NAME) && Has(pieces, ops, "replace", SERVER_NAME)
    && Has(pieces, ops, "add", BOOTSTRAP) && Has(pieces, ops, "add", EXTERNAL)
  }

  datatype Fault = WrongTest | WrongReplace | WrongSource | WrongClusters | NoOp(what: string)

  method CheckOverlay(pieces: seq<string>, ops: seq<Op>, g: int) returns (errs: seq<Fault>)
    requires -MAX - 1 <= g <= MAX
    ensures errs == [] <==> OverlayOk(pieces, ops, g)
  {
    hide ServerName, Is, OpOk, Has;
    errs := [];
    var cur, next := ServerName(g), ServerName(Next(g));
    var tested, replaced, source, external := false, false, false, false;
    HasNone(pieces);
    for i := 0 to |ops|
      invariant tested <==> Has(pieces, ops[..i], "test", SERVER_NAME)
      invariant replaced <==> Has(pieces, ops[..i], "replace", SERVER_NAME)
      invariant source <==> Has(pieces, ops[..i], "add", BOOTSTRAP)
      invariant external <==> Has(pieces, ops[..i], "add", EXTERNAL)
      invariant errs == [] <==> forall o | o in ops[..i] :: OpOk(pieces, o, cur, next)
    {
      var o := ops[i];
      HasStep(pieces, ops, i);
      OpOkIs(pieces, o, cur, next);
      assert ops[..i + 1] == ops[..i] + [o];
      if Is(pieces, o, "test", SERVER_NAME) {
        tested := true;
        if !TestOk(pieces, o, cur) { errs := errs + [WrongTest]; }
      } else if Is(pieces, o, "replace", SERVER_NAME) {
        replaced := true;
        if !TestOk(pieces, o, next) { errs := errs + [WrongReplace]; }
      } else if Is(pieces, o, "add", BOOTSTRAP) {
        source := true;
        if !SourceOk(pieces, o, cur) { errs := errs + [WrongSource]; }
      } else if Is(pieces, o, "add", EXTERNAL) {
        external := true;
        if !ExternalOk(pieces, o, cur) { errs := errs + [WrongClusters]; }
      }
    }
    assert ops[..|ops|] == ops;
    if !tested { errs := errs + [NoOp("a test of serverName")]; }
    if !replaced { errs := errs + [NoOp("a replace of serverName")]; }
    if !source { errs := errs + [NoOp("bootstrap.recovery")]; }
    if !external { errs := errs + [NoOp("externalClusters")]; }
  }

  lemma HasNone(pieces: seq<string>)
    ensures forall op, path :: !Has(pieces, [], op, path)
  {}

  lemma HasStep(pieces: seq<string>, ops: seq<Op>, i: nat)
    requires i < |ops|
    ensures forall op, path :: Has(pieces, ops[..i + 1], op, path) <==> Has(pieces, ops[..i], op, path) || Is(pieces, ops[i], op, path)
  {
    hide Is;
    assert ops[..i + 1] == ops[..i] + [ops[i]];
    forall op, path
      ensures Has(pieces, ops[..i + 1], op, path) <==> Has(pieces, ops[..i], op, path) || Is(pieces, ops[i], op, path)
    {
      if Is(pieces, ops[i], op, path) {
        assert ops[i] in ops[..i + 1];
      }
    }
  }

  /** An operation is of one kind at most. */
  lemma OpOkIs(pieces: seq<string>, o: Op, cur: string, next: string)
    ensures OpOk(pieces, o, cur, next) <==>
            if Is(pieces, o, "test", SERVER_NAME) then TestOk(pieces, o, cur)
            else if Is(pieces, o, "replace", SERVER_NAME) then TestOk(pieces, o, next)
            else if Is(pieces, o, "add", BOOTSTRAP) then SourceOk(pieces, o, cur)
            else if Is(pieces, o, "add", EXTERNAL) then ExternalOk(pieces, o, cur)
            else true
    ensures Is(pieces, o, "test", SERVER_NAME) ==> !Is(pieces, o, "replace", SERVER_NAME)
    ensures Is(pieces, o, "test", SERVER_NAME) || Is(pieces, o, "replace", SERVER_NAME) ==>
              !Is(pieces, o, "add", BOOTSTRAP) && !Is(pieces, o, "add", EXTERNAL)
    ensures Is(pieces, o, "add", BOOTSTRAP) ==> !Is(pieces, o, "add", EXTERNAL)
  {
    hide Read, TestOk, SourceOk, ExternalOk;
    assert "test"[0] == 't' && "replace"[0] == 'r' && "add"[0] == 'a';
    assert BOOTSTRAP[6] == 'b' && EXTERNAL[6] == 'e';
  }

  // --- What a passing overlay makes --------------------------------------------------

  /** What the overlay patches in the Cluster: where it archives to and what it recovers from. */
  datatype Render = Render(archives: Option<string>, source: Option<string>, external: seq<Foreign>)

  datatype Foreign = Foreign(name: string, serverName: string, store: string)

  function Foreigns(pieces: seq<string>, list: seq<Cluster>): (r: seq<Foreign>)
    ensures |r| == |list|
  {
    seq(|list|, i requires 0 <= i < |list| =>
      Foreign(Read(pieces, list[i].name), Lookup(pieces, list[i].parameters, "serverName"), Lookup(pieces, list[i].parameters, "barmanObjectName")))
  }

  function Word(pieces: seq<string>, v: Value): Option<string> {
    if v.Str? then Some(Read(pieces, Some(v.at))) else None
  }

  /** The path lies over, at or under the part. */
  predicate Touches(path: string, part: string) {
    path <= part || part <= path
  }

  /** An operation the check reads, or one that leaves the parts it reads alone. */
  predicate Plain(pieces: seq<string>, o: Op) {
    || Is(pieces, o, "test", SERVER_NAME) || Is(pieces, o, "replace", SERVER_NAME)
    || Is(pieces, o, "add", BOOTSTRAP) || Is(pieces, o, "add", EXTERNAL)
    || (&& Read(pieces, o.op) != "move" && Read(pieces, o.op) != "copy"
        && var path := Read(pieces, o.path);
           !Touches(path, SERVER_NAME) && !Touches(path, BOOTSTRAP) && !Touches(path, EXTERNAL))
  }

  /** One operation of a JSON patch, by section 4 of RFC 6902. None: it fails, and the patch with it. */
  function Patched(pieces: seq<string>, o: Op, r: Render): Option<Render>
    requires Plain(pieces, o)
  {
    if Is(pieces, o, "test", SERVER_NAME) then
      if o.value.Str? && Word(pieces, o.value) == r.archives then Some(r) else None
    else if Is(pieces, o, "replace", SERVER_NAME) then Some(r.(archives := Word(pieces, o.value)))
    else if Is(pieces, o, "add", BOOTSTRAP) then
      Some(r.(source := if o.value.Recovery? then Some(Read(pieces, o.value.source)) else None))
    else if Is(pieces, o, "add", EXTERNAL) then
      Some(r.(external := if o.value.Clusters? then Foreigns(pieces, o.value.list) else []))
    else Some(r)
  }

  function Patch(pieces: seq<string>, ops: seq<Op>, r: Render): Option<Render>
    requires forall o | o in ops :: Plain(pieces, o)
  {
    if ops == [] then Some(r)
    else match Patched(pieces, ops[0], r)
         case None => None
         case Some(q) => Patch(pieces, ops[1..], q)
  }

  /** The Cluster pg-cluster.yaml names at generation g. */
  function Named(g: int): Render
    requires -MAX - 1 <= g <= MAX
  {
    Render(Some(ServerName(g)), None, [])
  }

  /** A recovery: it reads g through the source store and archives to the next generation. */
  function Recovered(g: int): Render
    requires -MAX - 1 <= g <= MAX
  {
    Render(Some(ServerName(Next(g))), Some(ServerName(g)), [Foreign(ServerName(g), ServerName(g), SOURCE_STORE)])
  }

  /** No test of serverName stands behind a replace of it. */
  ghost predicate TestsFirst(pieces: seq<string>, ops: seq<Op>) {
    forall i, j | 0 <= i < j < |ops| :: !(Is(pieces, ops[i], "replace", SERVER_NAME) && Is(pieces, ops[j], "test", SERVER_NAME))
  }

  ghost predicate Once(pieces: seq<string>, ops: seq<Op>, op: string, path: string) {
    && Has(pieces, ops, op, path)
    && forall i, j | 0 <= i < j < |ops| :: !(Is(pieces, ops[i], op, path) && Is(pieces, ops[j], op, path))
  }

  lemma HasFirst(pieces: seq<string>, ops: seq<Op>)
    requires ops != []
    ensures forall op, path :: Has(pieces, ops, op, path) <==> Is(pieces, ops[0], op, path) || Has(pieces, ops[1..], op, path)
  {
    hide Is;
    assert ops == [ops[0]] + ops[1..];
    assert forall o | o in ops[1..] :: o in ops;
  }

  lemma TestsFirstRest(pieces: seq<string>, ops: seq<Op>)
    requires ops != []
    ensures TestsFirst(pieces, ops) <==>
            TestsFirst(pieces, ops[1..]) && !(Is(pieces, ops[0], "replace", SERVER_NAME) && Has(pieces, ops[1..], "test", SERVER_NAME))
  {
    hide Is;
    var rest := ops[1..];
    assert forall k | 0 <= k < |rest| :: rest[k] == ops[k + 1];
    if TestsFirst(pieces, ops) {
      forall o | o in rest
        ensures !(Is(pieces, ops[0], "replace", SERVER_NAME) && Is(pieces, o, "test", SERVER_NAME))
      {
        var k :| 0 <= k < |rest| && rest[k] == o;
        assert ops[k + 1] == o;
      }
    } else {
      var i, j :| 0 <= i < j < |ops| && Is(pieces, ops[i], "replace", SERVER_NAME) && Is(pieces, ops[j], "test", SERVER_NAME);
      assert rest[j - 1] in rest;
      if i > 0 {
        assert rest[i - 1] == ops[i] && rest[j - 1] == ops[j];
      }
    }
  }

  lemma {:induction false} ForeignsIs(pieces: seq<string>, o: Op, name: string)
    requires o.value.Clusters?
    ensures ExternalOk(pieces, o, name) <==> Foreigns(pieces, o.value.list) == [Foreign(name, name, SOURCE_STORE)]
  {
    hide Read, Lookup;
    var list := o.value.list;
    if |list| == 1 {
      var x := Foreign(Read(pieces, list[0].name), Lookup(pieces, list[0].parameters, "serverName"), Lookup(pieces, list[0].parameters, "barmanObjectName"));
      assert Foreigns(pieces, list) == [x];
    }
  }

  /** One right operation, over the name cur to test for and next to replace it with. */
  lemma {:induction false} RightOne(pieces: seq<string>, o: Op, g: int, r: Render)
    requires -MAX - 1 <= g <= MAX && Plain(pieces, o) && OpOk(pieces, o, ServerName(g), ServerName(Next(g)))
    ensures var p, s := Patched(pieces, o, r), Recovered(g);
            && (p.None? <==> Is(pieces, o, "test", SERVER_NAME) && r.archives != Some(ServerName(g)))
            && (p.Some? ==>
                  p.value == Render(if Is(pieces, o, "replace", SERVER_NAME) then s.archives else r.archives,
                                    if Is(pieces, o, "add", BOOTSTRAP) then s.source else r.source,
                                    if Is(pieces, o, "add", EXTERNAL) then s.external else r.external))
  {
    OpOkIs(pieces, o, ServerName(g), ServerName(Next(g)));
    if o.value.Clusters? {
      ForeignsIs(pieces, o, ServerName(g));
    }
    assert !o.value.Clusters? ==> !ExternalOk(pieces, o, ServerName(g));
    hide Is, OpOk, ServerName, Read, Lookup, Plain, Foreigns, ExternalOk;
  }

  /** Right operations in order leave the right value where there was one, and what was there elsewhere. */
  lemma {:induction false} RightOnes(pieces: seq<string>, ops: seq<Op>, g: int, r: Render)
    requires -MAX - 1 <= g <= MAX
    requires forall o | o in ops :: Plain(pieces, o) && OpOk(pieces, o, ServerName(g), ServerName(Next(g)))
    requires r.archives == Some(ServerName(g)) || !Has(pieces, ops, "test", SERVER_NAME)
    ensures var p, s := Patch(pieces, ops, r), Recovered(g);
            && (p.Some? <==> TestsFirst(pieces, ops))
            && (p.Some? ==>
                  p.value == Render(if Has(pieces, ops, "replace", SERVER_NAME) then s.archives else r.archives,
                                    if Has(pieces, ops, "add", BOOTSTRAP) then s.source else r.source,
                                    if Has(pieces, ops, "add", EXTERNAL) then s.external else r.external))
  {
    HasNone(pieces);
    if ops != [] {
      var o, rest := ops[0], ops[1..];
      assert o in ops && forall x | x in rest :: x in ops;
      RightOne(pieces, o, g, r);
      HasFirst(pieces, ops);
      TestsFirstRest(pieces, ops);
      OpOkIs(pieces, o, ServerName(g), ServerName(Next(g)));
      hide Is, Has, OpOk, Plain, Patched, TestsFirst;
      var p := Patched(pieces, o, r);
      if p.Some? {
        if Is(pieces, o, "replace", SERVER_NAME) && Has(pieces, rest, "test", SERVER_NAME) {
          LateTest(pieces, rest, g, p.value);
        } else {
          RightOnes(pieces, rest, g, p.value);
        }
      }
    }
  }

  /** Behind the replace a right test fails. */
  lemma {:induction false} LateTest(pieces: seq<string>, ops: seq<Op>, g: int, r: Render)
    requires -MAX - 1 <= g <= MAX && r.archives == Some(ServerName(Next(g)))
    requires forall o | o in ops :: Plain(pieces, o) && OpOk(pieces, o, ServerName(g), ServerName(Next(g)))
    requires Has(pieces, ops, "test", SERVER_NAME)
    ensures Patch(pieces, ops, r) == None
  {
    var o, rest := ops[0], ops[1..];
    assert o in ops && forall x | x in rest :: x in ops;
    NamesDiffer(g, Next(g));
    RightOne(pieces, o, g, r);
    HasFirst(pieces, ops);
    hide Is, Has, OpOk, Plain, Patched, ServerName;
    var p := Patched(pieces, o, r);
    if p.Some? {
      LateTest(pieces, rest, g, p.value);
    }
  }

  /**
   * What the check is for: an overlay that passes at g makes the Cluster of generation g one
   * that reads g through the source store and archives to the next generation. The one thing
   * the check does not see is a test behind the replace, over which the patch fails.
   */
  lemma {:induction false} OverlayRecovers(pieces: seq<string>, ops: seq<Op>, g: int)
    requires -MAX - 1 <= g <= MAX && (forall o | o in ops :: Plain(pieces, o)) && OverlayOk(pieces, ops, g)
    ensures Patch(pieces, ops, Named(g)) == if TestsFirst(pieces, ops) then Some(Recovered(g)) else None
  {
    hide Plain, OpOk, Has, Is, ServerName, TestsFirst;
    RightOnes(pieces, ops, g, Named(g));
  }

  /** What no operation of a patch writes stays. */
  lemma {:induction false} PatchKeeps(pieces: seq<string>, ops: seq<Op>, r: Render)
    requires (forall o | o in ops :: Plain(pieces, o)) && Patch(pieces, ops, r).Some?
    ensures var s := Patch(pieces, ops, r).value;
            && (Has(pieces, ops, "replace", SERVER_NAME) || s.archives == r.archives)
            && (Has(pieces, ops, "add", BOOTSTRAP) || s.source == r.source)
            && (Has(pieces, ops, "add", EXTERNAL) || s.external == r.external)
  {
    if ops != [] {
      var o, rest := ops[0], ops[1..];
      assert o in ops && forall x | x in rest :: x in ops;
      HasFirst(pieces, ops);
      hide Is, Has, Plain, Foreigns, Word;
      PatchKeeps(pieces, rest, Patched(pieces, o, r).value);
    }
  }

  lemma {:induction false} PatchSplit(pieces: seq<string>, ops: seq<Op>, i: nat, r: Render)
    requires i < |ops| && (forall o | o in ops :: Plain(pieces, o)) && Patch(pieces, ops, r).Some?
    ensures (forall o | o in ops[..i] :: Plain(pieces, o)) && (forall o | o in ops[i + 1..] :: Plain(pieces, o))
    ensures Patch(pieces, ops[..i], r).Some? && Patched(pieces, ops[i], Patch(pieces, ops[..i], r).value).Some?
    ensures Patch(pieces, ops[i + 1..], Patched(pieces, ops[i], Patch(pieces, ops[..i], r).value).value) == Patch(pieces, ops, r)
  {
    hide Plain, Patched;
    assert forall o | o in ops[..i] :: o in ops;
    assert forall o | o in ops[i + 1..] :: o in ops;
    if i > 0 {
      assert forall o | o in ops[1..] :: o in ops;
      var q := Patched(pieces, ops[0], r).value;
      PatchSplit(pieces, ops[1..], i - 1, q);
      assert ops[..i][1..] == ops[1..][..i - 1] && ops[1..][i..] == ops[i + 1..];
    }
  }

  /** An operation that writes the right value, or tests the right one, is right. */
  lemma {:induction false} MadeRight(pieces: seq<string>, o: Op, g: int, r: Render, after: Render)
    requires -MAX - 1 <= g <= MAX && Plain(pieces, o) && Patched(pieces, o, r) == Some(after)
    requires Is(pieces, o, "test", SERVER_NAME) ==> r.archives == Some(ServerName(g))
    requires Is(pieces, o, "replace", SERVER_NAME) ==> after.archives == Recovered(g).archives
    requires Is(pieces, o, "add", BOOTSTRAP) ==> after.source == Recovered(g).source
    requires Is(pieces, o, "add", EXTERNAL) ==> after.external == Recovered(g).external
    ensures OpOk(pieces, o, ServerName(g), ServerName(Next(g)))
  {
    OpOkIs(pieces, o, ServerName(g), ServerName(Next(g)));
    if o.value.Clusters? {
      ForeignsIs(pieces, o, ServerName(g));
    }
    hide Is, OpOk, Plain, ServerName, Read, Lookup, Foreigns, ExternalOk;
  }

  /** The i-th operation is right where it is the last to write, or tests before the replace. */
  lemma {:induction false} RightAt(pieces: seq<string>, ops: seq<Op>, i: nat, g: int)
    requires -MAX - 1 <= g <= MAX && i < |ops| && forall o | o in ops :: Plain(pieces, o)
    requires Patch(pieces, ops, Named(g)) == Some(Recovered(g))
    requires Is(pieces, ops[i], "test", SERVER_NAME) ==> !Has(pieces, ops[..i], "replace", SERVER_NAME)
    requires Is(pieces, ops[i], "replace", SERVER_NAME) ==> !Has(pieces, ops[i + 1..], "replace", SERVER_NAME)
    requires Is(pieces, ops[i], "add", BOOTSTRAP) ==> !Has(pieces, ops[i + 1..], "add", BOOTSTRAP)
    requires Is(pieces, ops[i], "add", EXTERNAL) ==> !Has(pieces, ops[i + 1..], "add", EXTERNAL)
    ensures OpOk(pieces, ops[i], ServerName(g), ServerName(Next(g)))
  {
    PatchSplit(pieces, ops, i, Named(g));
    var before := Patch(pieces, ops[..i], Named(g)).value;
    PatchKeeps(pieces, ops[..i], Named(g));
    PatchKeeps(pieces, ops[i + 1..], Patched(pieces, ops[i], before).value);
    hide Is, Has, OpOk, Plain, ServerName, Patch, Patched;
    MadeRight(pieces, ops[i], g, before, Patched(pieces, ops[i], before).value);
  }

  lemma NoneBehind(pieces: seq<string>, ops: seq<Op>, i: nat, op: string, path: string)
    requires i < |ops| && Once(pieces, ops, op, path)
    ensures Is(pieces, ops[i], op, path) ==> !Has(pieces, ops[i + 1..], op, path)
  {
    hide Is;
  }

  /** With one operation of each kind, tests first, the check passes exactly over the overlays that do that. */
  lemma {:induction false} OverlayExact(pieces: seq<string>, ops: seq<Op>, g: int)
    requires -MAX - 1 <= g <= MAX && (forall o | o in ops :: Plain(pieces, o)) && TestsFirst(pieces, ops)
    requires Has(pieces, ops, "test", SERVER_NAME) && Once(pieces, ops, "replace", SERVER_NAME)
    requires Once(pieces, ops, "add", BOOTSTRAP) && Once(pieces, ops, "add", EXTERNAL)
    ensures OverlayOk(pieces, ops, g) <==> Patch(pieces, ops, Named(g)) == Some(Recovered(g))
  {
    if OverlayOk(pieces, ops, g) {
      OverlayRecovers(pieces, ops, g);
    } else if Patch(pieces, ops, Named(g)) == Some(Recovered(g)) {
      forall o | o in ops
        ensures OpOk(pieces, o, ServerName(g), ServerName(Next(g)))
      {
        var i :| 0 <= i < |ops| && ops[i] == o;
        NoneBehind(pieces, ops, i, "replace", SERVER_NAME);
        NoneBehind(pieces, ops, i, "add", BOOTSTRAP);
        NoneBehind(pieces, ops, i, "add", EXTERNAL);
        assert Is(pieces, o, "test", SERVER_NAME) ==> !Has(pieces, ops[..i], "replace", SERVER_NAME);
        RightAt(pieces, ops, i, g);
      }
    }
  }

  // --- The renamed overlay ---------------------------------------------------------

  predicate LeafIn(pieces: seq<string>, at: Leaf) {
    at.Some? ==> Inner(pieces, at.value)
  }

  /** The parser's strings are closed pieces of the text. */
  predicate OpIn(pieces: seq<string>, o: Op) {
    && LeafIn(pieces, o.op) && LeafIn(pieces, o.path)
    && match o.value
       case Str(at) => Inner(pieces, at)
       case Recovery(source) => LeafIn(pieces, source)
       case Clusters(list) =>
         forall c | c in list :: LeafIn(pieces, c.name) && forall p | p in c.parameters :: Inner(pieces, p.0) && Inner(pieces, p.1)
       case OtherValue => true
  }

  lemma ReadMoved(pieces: seq<string>, g: int, at: Leaf)
    requires LeafIn(pieces, at) && -MAX - 1 <= g <= MAX
    ensures Read(MovedPieces(pieces, g), at) == Moved(Read(pieces, at), g)
  {
    NameChars(g);
    NameChars(Next(g));
    hide ServerName;
  }

  /** A string that is no generation's name stays itself and nothing else becomes it. */
  lemma MovedWord(s: string, word: string, g: int)
    requires -MAX - 1 <= g <= MAX && !(NAME <= word)
    ensures Moved(s, g) == word <==> s == word
  {
    hide Decimal;
  }

  /** The words the check reads for are no generation's names. */
  lemma NoNames()
    ensures !(NAME <= "") && !(NAME <= "test") && !(NAME <= "replace") && !(NAME <= "add")
    ensures !(NAME <= SERVER_NAME) && !(NAME <= BOOTSTRAP) && !(NAME <= EXTERNAL)
    ensures !(NAME <= "serverName") && !(NAME <= "barmanObjectName") && !(NAME <= SOURCE_STORE)
  {
    assert NAME[0] == 't' && SERVER_NAME[0] == '/' && BOOTSTRAP[0] == '/' && EXTERNAL[0] == '/';
    assert "serverName"[0] == 's' && "barmanObjectName"[0] == 'b';
    assert NAME[9] == 'c' && SOURCE_STORE[9] == 'b';
  }

  lemma {:induction false} MovedName(s: string, g: int)
    requires -MAX - 1 <= g <= MAX
    ensures s == ServerName(g) ==> Moved(s, g) == ServerName(Next(g))
    ensures s == ServerName(Next(g)) ==> Moved(s, g) == ServerName(Next(Next(g)))
  {
    NamesDiffer(g, Next(g));
    hide ServerName;
  }

  lemma {:induction false} LookupMoved(pieces: seq<string>, g: int, parameters: seq<(nat, nat)>, key: string)
    requires -MAX - 1 <= g <= MAX && !(NAME <= key)
    requires forall p | p in parameters :: Inner(pieces, p.0) && Inner(pieces, p.1)
    ensures Lookup(MovedPieces(pieces, g), parameters, key) == Moved(Lookup(pieces, parameters, key), g)
  {
    hide ServerName, MovedPieces, Moved, Read;
    if parameters == [] {
      assert Moved("", g) == "" by { MovedWord("", "", g); }
    } else {
      var last := parameters[|parameters| - 1];
      assert last in parameters;
      ReadMoved(pieces, g, Some(last.0));
      ReadMoved(pieces, g, Some(last.1));
      MovedWord(Read(pieces, Some(last.0)), key, g);
      assert forall p | p in parameters[..|parameters| - 1] :: p in parameters;
      LookupMoved(pieces, g, parameters[..|parameters| - 1], key);
    }
  }

  lemma IsMoved(pieces: seq<string>, g: int, o: Op, op: string, path: string)
    requires -MAX - 1 <= g <= MAX && OpIn(pieces, o) && !(NAME <= op) && !(NAME <= path)
    ensures Is(MovedPieces(pieces, g), o, op, path) == Is(pieces, o, op, path)
  {
    hide MovedPieces, Moved, Read;
    ReadMoved(pieces, g, o.op);
    ReadMoved(pieces, g, o.path);
    MovedWord(Read(pieces, o.op), op, g);
    MovedWord(Read(pieces, o.path), path, g);
  }

  lemma {:induction false} ValueMoved(pieces: seq<string>, g: int, o: Op)
    requires -MAX - 1 <= g <= MAX && OpIn(pieces, o)
    ensures var q, n := MovedPieces(pieces, g), Next(g);
            && (TestOk(pieces, o, ServerName(g)) ==> TestOk(q, o, ServerName(n)))
            && (TestOk(pieces, o, ServerName(n)) ==> TestOk(q, o, ServerName(Next(n))))
            && (SourceOk(pieces, o, ServerName(g)) ==> SourceOk(q, o, ServerName(n)))
            && (ExternalOk(pieces, o, ServerName(g)) ==> ExternalOk(q, o, ServerName(n)))
  {
    NoNames();
    hide MovedPieces, Moved, Read, ServerName, Lookup;
    match o.value {
      case Str(at) =>
        ReadMoved(pieces, g, Some(at));
        MovedName(Read(pieces, Some(at)), g);
      case Recovery(source) =>
        ReadMoved(pieces, g, source);
        MovedName(Read(pieces, source), g);
      case Clusters(list) =>
        if |list| == 1 {
          var c := list[0];
          ReadMoved(pieces, g, c.name);
          MovedName(Read(pieces, c.name), g);
          LookupMoved(pieces, g, c.parameters, "serverName");
          MovedName(Lookup(pieces, c.parameters, "serverName"), g);
          LookupMoved(pieces, g, c.parameters, "barmanObjectName");
          MovedWord(Lookup(pieces, c.parameters, "barmanObjectName"), SOURCE_STORE, g);
        }
      case OtherValue =>
    }
  }

  /** An overlay right at g is right at the next generation once it is renamed. */
  lemma OverlayMoves(pieces: seq<string>, ops: seq<Op>, g: int)
    requires -MAX - 1 <= g <= MAX && (forall o | o in ops :: OpIn(pieces, o)) && OverlayOk(pieces, ops, g)
    ensures OverlayOk(MovedPieces(pieces, g), ops, Next(g))
  {
    hide Is, OpIn, TestOk, SourceOk, ExternalOk, MovedPieces, ServerName;
    NoNames();
    forall o | o in ops
      ensures Is(MovedPieces(pieces, g), o, "test", SERVER_NAME) == Is(pieces, o, "test", SERVER_NAME)
      ensures Is(MovedPieces(pieces, g), o, "replace", SERVER_NAME) == Is(pieces, o, "replace", SERVER_NAME)
      ensures Is(MovedPieces(pieces, g), o, "add", BOOTSTRAP) == Is(pieces, o, "add", BOOTSTRAP)
      ensures Is(MovedPieces(pieces, g), o, "add", EXTERNAL) == Is(pieces, o, "add", EXTERNAL)
    {
      IsMoved(pieces, g, o, "test", SERVER_NAME);
      IsMoved(pieces, g, o, "replace", SERVER_NAME);
      IsMoved(pieces, g, o, "add", BOOTSTRAP);
      IsMoved(pieces, g, o, "add", EXTERNAL);
    }
    forall o | o in ops
      ensures TestOk(pieces, o, ServerName(g)) ==> TestOk(MovedPieces(pieces, g), o, ServerName(Next(g)))
      ensures TestOk(pieces, o, ServerName(Next(g))) ==> TestOk(MovedPieces(pieces, g), o, ServerName(Next(Next(g))))
      ensures SourceOk(pieces, o, ServerName(g)) ==> SourceOk(MovedPieces(pieces, g), o, ServerName(Next(g)))
      ensures ExternalOk(pieces, o, ServerName(g)) ==> ExternalOk(MovedPieces(pieces, g), o, ServerName(Next(g)))
    {
      ValueMoved(pieces, g, o);
    }
  }

  // --- Bump -------------------------------------------------------------------------

  /**
   * pg-cluster.yaml: its lines, the last of which no line end follows, and where YAML finds
   * the plugin's serverName, up to a line's end.
   */
  datatype Manifest = Manifest(lines: seq<string>, at: nat, col: nat, archives: bool)

  const KEY := "serverName: "

  predicate EndsWith(s: string, t: string) {
    |s| >= |t| && s[|s| - |t|..] == t
  }

  /** Current: archives says that the one plugin writes to the archive store. */
  function Current(m: Manifest): Option<int> {
    if !m.archives || m.at >= |m.lines| || m.col > |m.lines[m.at]| then None
    else ParseGeneration(m.lines[m.at][m.col..])
  }

  /** The value stands directly behind its key, and a line end behind the value. */
  predicate Written(m: Manifest) {
    m.at < |m.lines| - 1 && m.col <= |m.lines[m.at]| && EndsWith(m.lines[m.at][..m.col], KEY)
  }

  /** bytes.Count of text and a line end. */
  function Count(lines: seq<string>, text: string): nat {
    if |lines| <= 1 then 0 else Count(lines[1..], text) + if EndsWith(lines[0], text) then 1 else 0
  }

  /** bytes.Replace of the first text before a line end. */
  function ReplaceFirst(lines: seq<string>, text: string, put: string): (r: seq<string>)
    ensures |r| == |lines|
  {
    if |lines| <= 1 then lines
    else if EndsWith(lines[0], text) then [lines[0][..|lines[0]| - |text|] + put] + lines[1..]
    else [lines[0]] + ReplaceFirst(lines[1..], text, put)
  }

  lemma {:induction false} CountSome(lines: seq<string>, text: string, i: nat)
    requires i < |lines| - 1 && EndsWith(lines[i], text)
    ensures Count(lines, text) > 0
  {
    if i > 0 {
      CountSome(lines[1..], text, i - 1);
    }
  }

  lemma {:induction false} ReplaceFirstIs(lines: seq<string>, text: string, put: string, i: nat)
    requires i < |lines| - 1 && EndsWith(lines[i], text) && Count(lines, text) == 1
    ensures ReplaceFirst(lines, text, put) == lines[i := lines[i][..|lines[i]| - |text|] + put]
  {
    hide EndsWith;
    if i > 0 {
      CountSome(lines[1..], text, i - 1);
      ReplaceFirstIs(lines[1..], text, put, i - 1);
    }
  }

  datatype Outcome = Refused | Cut | Misfit | To(g: int)

  datatype Files = Files(manifest: Manifest, overlay: string, outcome: Outcome)

  function WrittenManifest(m: Manifest, g: int): Manifest
    requires -MAX - 1 <= g <= MAX
  {
    m.(lines := ReplaceFirst(m.lines, KEY + ServerName(g), KEY + ServerName(Next(g))))
  }

  /** CheckOverlay on the two files. */
  ghost predicate Passes(m: Manifest, overlay: string, ops: seq<Op>) {
    Current(m).Some? && -MAX - 1 <= Current(m).value <= MAX && OverlayOk(Split(overlay, '"'), ops, Current(m).value)
  }

  lemma CurrentRange(m: Manifest)
    ensures Current(m).Some? ==> 1 <= Current(m).value <= MAX
  {
    hide ServerName, ParseGeneration;
    if Current(m).Some? {
      ParsePrints(m.lines[m.at][m.col..], Current(m).value);
    }
  }

  /** The repository's two files; ops is how the overlay parses, which no renamed string changes. */
  class Repository {
    var manifest: Manifest
    var overlay: string
    const ops: seq<Op>

    constructor (manifest: Manifest, overlay: string, ops: seq<Op>)
      ensures this.manifest == manifest && this.overlay == overlay && this.ops == ops
    {
      this.manifest, this.overlay, this.ops := manifest, overlay, ops;
    }

    /** Bump; cut is how many of the two files it gets to write. */
    method Bump(cut: nat) returns (r: Outcome)
      modifies this
      ensures Bumps(old(manifest), old(overlay), ops, cut, Files(manifest, overlay, r))
    {
      hide ReplaceAll, ReplaceFirst, Count, ServerName, OverlayOk;
      CurrentRange(manifest);
      var current := Current(manifest);
      if current.None? {
        return Refused;
      }
      var g := current.value;
      var n := Next(g);
      if Count(manifest.lines, KEY + ServerName(g)) != 1 {
        return Refused;
      }
      var b := ReplaceFirst(manifest.lines, KEY + ServerName(g), KEY + ServerName(n));
      var p := ReplaceAll(overlay, Quoted(ServerName(n)), Quoted(ServerName(Next(n))));
      p := ReplaceAll(p, Quoted(ServerName(g)), Quoted(ServerName(n)));
      if cut == 0 {
        return Cut;
      }
      manifest := manifest.(lines := b);
      if cut == 1 {
        return Cut;
      }
      overlay := p;
      CurrentRange(manifest);
      current := Current(manifest);
      if current.None? {
        return Misfit;
      }
      var errs := CheckOverlay(Split(overlay, '"'), ops, current.value);
      r := if errs != [] then Misfit else To(n);
    }
  }

  /** What Bump does to the files. */
  ghost predicate Bumps(m: Manifest, overlay: string, ops: seq<Op>, cut: nat, to: Files) {
    CurrentRange(m);
    if Current(m).None? || Count(m.lines, KEY + ServerName(Current(m).value)) != 1 then to == Files(m, overlay, Refused)
    else
      var g := Current(m).value;
      if cut == 0 then to == Files(m, overlay, Cut)
      else if cut == 1 then to == Files(WrittenManifest(m, g), overlay, Cut)
      else to == Files(WrittenManifest(m, g), Bumped(overlay, g),
                       if Passes(WrittenManifest(m, g), Bumped(overlay, g), ops) then To(Next(g)) else Misfit)
  }

  ghost predicate Ready(m: Manifest, overlay: string, ops: seq<Op>, g: int) {
    && Current(m) == Some(g) && 1 <= g <= MAX
    && Written(m) && Count(m.lines, KEY + ServerName(g)) == 1
    && Json(overlay) && (forall o | o in ops :: OpIn(Split(overlay, '"'), o))
    && Passes(m, overlay, ops)
  }

  lemma {:induction false} ManifestMoves(m: Manifest, g: int)
    requires Current(m) == Some(g) && 1 <= g <= MAX && Written(m) && Count(m.lines, KEY + ServerName(g)) == 1
    ensures WrittenManifest(m, g) == m.(lines := m.lines[m.at := m.lines[m.at][..m.col] + ServerName(Next(g))])
    ensures Current(WrittenManifest(m, g)) == if g < MAX then Some(g + 1) else None
  {
    hide *;
    CurrentIs(m, g);
    WrittenIs(m);
    var line := m.lines[m.at];
    ParsePrints(line[m.col..], g);
    ParsePrints(ServerName(Next(g)), Next(g));
    if g == MAX {
      NextOfMax();
    }
    LineEnds(line, m.col, ServerName(g), ServerName(Next(g)));
    ReplaceFirstIs(m.lines, KEY + ServerName(g), KEY + ServerName(Next(g)), m.at);
    WrittenManifestIs(m, g);
    CurrentOf(WrittenManifest(m, g));
  }

  lemma CurrentIs(m: Manifest, g: int)
    requires Current(m) == Some(g)
    ensures m.archives && m.at < |m.lines| && m.col <= |m.lines[m.at]| && ParseGeneration(m.lines[m.at][m.col..]) == Some(g)
  {
    hide ParseGeneration;
  }

  lemma CurrentOf(m: Manifest)
    ensures m.archives && m.at < |m.lines| && m.col <= |m.lines[m.at]| ==> Current(m) == ParseGeneration(m.lines[m.at][m.col..])
  {
    hide ParseGeneration;
  }

  lemma WrittenIs(m: Manifest)
    requires Written(m)
    ensures m.at < |m.lines| - 1 && m.col <= |m.lines[m.at]| && EndsWith(m.lines[m.at][..m.col], KEY)
  {
    hide EndsWith;
  }

  lemma WrittenManifestIs(m: Manifest, g: int)
    requires -MAX - 1 <= g <= MAX
    ensures WrittenManifest(m, g) == m.(lines := ReplaceFirst(m.lines, KEY + ServerName(g), KEY + ServerName(Next(g))))
  {
    hide ReplaceFirst, ServerName;
  }

  /** Cutting the key and the name off a line and putting both back with another name. */
  lemma LineEnds(line: string, col: nat, name: string, next: string)
    requires col <= |line| && EndsWith(line[..col], KEY) && line[col..] == name
    ensures EndsWith(line, KEY + name)
    ensures line[..|line| - |KEY + name|] + (KEY + next) == line[..col] + next
    ensures (line[..col] + next)[col..] == next
  {
    var pre, k := line[..col], KEY;
    var stem := pre[..|pre| - |k|];
    assert pre == stem + k;
    assert line == stem + (k + name);
    assert line[..|line| - |k + name|] == stem;
  }

  /** The number after the largest is negative, and no generation's name is that. */
  lemma {:induction false} NextOfMax()
    ensures ParseGeneration(ServerName(Next(MAX))) == None
  {
    var p := ParseGeneration(ServerName(Next(MAX)));
    if p.Some? {
      ParsePrints(ServerName(Next(MAX)), p.value);
      NamesDiffer(Next(MAX), p.value);
    }
  }

  /**
   * A Bump that gets to its end passes its own check, at the next generation, exactly when
   * that generation is an int's; the manifest changes in its serverName alone, and of the
   * overlay's strings those that are the current or the next generation's name.
   */
  lemma {:induction false} BumpMoves(m: Manifest, overlay: string, ops: seq<Op>, g: int, to: Files)
    requires Ready(m, overlay, ops, g) && Bumps(m, overlay, ops, 2, to)
    ensures to.outcome == (if g < MAX then To(g + 1) else Misfit)
    ensures g < MAX ==> Passes(to.manifest, to.overlay, ops) && Current(to.manifest) == Some(g + 1)
    ensures to.manifest == m.(lines := m.lines[m.at := m.lines[m.at][..m.col] + ServerName(Next(g))])
    ensures Split(to.overlay, '"') == MovedPieces(Split(overlay, '"'), g) && Json(to.overlay)
  {
    hide ServerName, ReplaceFirst, Count, Bumped, ParseGeneration, OverlayOk, Json, Split, MovedPieces, OpIn;
    ManifestMoves(m, g);
    BumpedMoves(overlay, g);
    hide WrittenManifest, Current;
    OverlayMoves(Split(overlay, '"'), ops, g);
  }

  /** Of the lines a line end follows, line i alone ends with the text. */
  ghost predicate OnlyLine(lines: seq<string>, text: string, i: nat) {
    i < |lines| - 1 && forall j | 0 <= j < |lines| - 1 :: EndsWith(lines[j], text) <==> j == i
  }

  lemma {:induction false} CountIff(lines: seq<string>, text: string)
    ensures Count(lines, text) == 0 <==> forall j | 0 <= j < |lines| - 1 :: !EndsWith(lines[j], text)
    ensures Count(lines, text) == 1 <==> exists i: nat :: OnlyLine(lines, text, i)
  {
    hide EndsWith;
    if |lines| > 1 {
      var rest := lines[1..];
      CountIff(rest, text);
      assert forall j | 0 < j < |lines| - 1 :: lines[j] == rest[j - 1];
      forall i: nat | OnlyLine(lines, text, i)
        ensures Count(lines, text) == 1
      {
        assert forall j | 0 <= j < |rest| - 1 :: rest[j] == lines[j + 1];
        assert i > 0 ==> OnlyLine(rest, text, i - 1);
      }
      if Count(lines, text) == 1 {
        if EndsWith(lines[0], text) {
          assert OnlyLine(lines, text, 0);
        } else {
          var i: nat :| OnlyLine(rest, text, i);
          assert OnlyLine(lines, text, i + 1);
        }
      }
    }
  }

  /** Bump refuses, and writes nothing, exactly where no line or more than one names the current generation so. */
  lemma {:induction false} BumpRefusesIff(m: Manifest, overlay: string, ops: seq<Op>, cut: nat, to: Files)
    requires Bumps(m, overlay, ops, cut, to)
    ensures to.outcome == Refused <==>
            Current(m).None? || !exists i: nat :: OnlyLine(m.lines, KEY + ServerName(Current(m).value), i)
    ensures to.outcome == Refused ==> to.manifest == m && to.overlay == overlay
  {
    hide ServerName, ReplaceFirst, Count, Current, Bumped, OverlayOk, OnlyLine;
    CurrentRange(m);
    if Current(m).Some? {
      CountIff(m.lines, KEY + ServerName(Current(m).value));
    }
  }

  /** GenerationBump's Probe: the repository names the generation the Cluster archives to. */
  predicate BumpDone(m: Manifest, archives: int) {
    Current(m) == Some(archives)
  }

  /**
   * A Bump cut between its two files looks done to its own Probe, and is not: whatever the
   * files were, the overlay no longer fits the manifest.
   */
  lemma {:induction false} CutLooksDone(m: Manifest, overlay: string, ops: seq<Op>, g: int, to: Files)
    requires Ready(m, overlay, ops, g) && g < MAX && Bumps(m, overlay, ops, 1, to)
    ensures BumpDone(to.manifest, g + 1) && !Passes(to.manifest, to.overlay, ops)
  {
    hide ServerName, ReplaceFirst, Count, ParseGeneration, Json, Split, OpIn, Is, TestOk, OpOk, Has;
    ManifestMoves(m, g);
    hide WrittenManifest, Current;
    NamesDiffer(g, g + 1);
    if Passes(to.manifest, to.overlay, ops) {
      TestedOnce(Split(overlay, '"'), ops, g);
    }
  }

  lemma TestedOnce(pieces: seq<string>, ops: seq<Op>, g: int)
    requires 1 <= g < MAX && OverlayOk(pieces, ops, g)
    ensures !OverlayOk(pieces, ops, g + 1)
  {
    NamesDiffer(g, g + 1);
    hide ServerName, Is, SourceOk, ExternalOk;
    var o :| o in ops && Is(pieces, o, "test", SERVER_NAME);
    assert OpOk(pieces, o, ServerName(g), ServerName(Next(g)));
  }
}
