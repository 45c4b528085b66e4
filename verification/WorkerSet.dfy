/**
 * The Worker set editor (tools/kluster/internal/workerset): one entry of an HCL object is
 * added or removed among the object's tokens. HCL's lexer is a library: the model starts
 * from its tokens.
 */
module WorkerSet {
  import opened Text

  datatype Token =
    | OBrace | CBrace | OBrack | CBrack | OParen | CParen
    | Newline | Comma | Equal | Colon | OQuote | CQuote
    | Comment(text: string, ends: bool)   // ends: the comment holds its own newline
    | Ident(name: string) | QuotedLit(lit: string) | NumberLit(digits: string) | Other(text: string)

  type Tokens = seq<Token>

  predicate Opens(t: Token) {
    t.OBrace? || t.OBrack? || t.OParen?
  }

  predicate Closes(t: Token) {
    t.CBrace? || t.CBrack? || t.CParen?
  }

  /** Where a line can end, and so an entry begin after it. */
  predicate EndsLine(t: Token) {
    t.OBrace? || t.Newline? || t.Comma? || (t.Comment? && t.ends)
  }

  function Delta(t: Token): int {
    if Opens(t) then 1 else if Closes(t) then -1 else 0
  }

  /** How many brackets are open before token i. */
  function Depth(toks: Tokens, i: nat): int
    requires i <= |toks|
  {
    if i == 0 then 0 else Depth(toks, i - 1) + Delta(toks[i - 1])
  }

  /** key: the index after the = or : when the tokens at i are the key name, bare or quoted. */
  function KeyEnd(toks: Tokens, i: nat, name: string): (r: Option<nat>)
    requires i < |toks|
    ensures r.Some? ==> i < r.value <= |toks|
  {
    var j := if toks[i] == Ident(name) then i + 1
             else if toks[i] == OQuote && i + 2 < |toks| && toks[i + 1] == QuotedLit(name) && toks[i + 2] == CQuote then i + 3
             else |toks|;
    if j < |toks| && (toks[j] == Equal || toks[j] == Colon) then Some(j + 1) else None
  }

  /** Token i begins the entry of name, at the top level of the object. */
  predicate Hit(toks: Tokens, i: nat, name: string)
    requires i < |toks|
  {
    && !Opens(toks[i]) && !Closes(toks[i]) && Depth(toks, i) == 1
    && i > 0 && EndsLine(toks[i - 1]) && KeyEnd(toks, i, name).Some?
  }

  predicate EndsValue(t: Token) {
    t.Newline? || t.Comma? || (t.Comment? && t.ends)
  }

  /** Token j ends the value that begins at from: a line end or a bracket closed too often. */
  predicate Stops(toks: Tokens, from: nat, j: nat)
    requires from <= j < |toks|
  {
    Depth(toks, j) == Depth(toks, from) &&
    (Closes(toks[j]) || EndsValue(toks[j]))
  }

  datatype Span = Span(start: nat, end: nat) | NoEntry | NoEnd

  /** The first token from i on that begins the entry, or |toks|. */
  function FirstHit(toks: Tokens, name: string, i: nat): (h: nat)
    requires i <= |toks|
    ensures i <= h <= |toks| && (h < |toks| ==> Hit(toks, h, name))
    ensures forall m | i <= m < h :: !Hit(toks, m, name)
    decreases |toks| - i
  {
    if i == |toks| || Hit(toks, i, name) then i else FirstHit(toks, name, i + 1)
  }

  function FirstStop(toks: Tokens, from: nat, j: nat): (e: nat)
    requires from <= j <= |toks|
    ensures j <= e <= |toks| && (e < |toks| ==> Stops(toks, from, e))
    ensures forall m | j <= m < e :: !Stops(toks, from, m)
    decreases |toks| - j
  {
    if j == |toks| || Stops(toks, from, j) then j else FirstStop(toks, from, j + 1)
  }

  /** The first of the comment tokens directly before i; the object's brace is never one. */
  function CommentStart(toks: Tokens, i: nat): (s: nat)
    requires i <= |toks|
    ensures s <= i
  {
    if i > 1 && toks[i - 1].Comment? then CommentStart(toks, i - 1) else i
  }

  function SpanOf(toks: Tokens, name: string): (r: Span)
    ensures r.Span? ==> r.start <= r.end <= |toks|
  {
    var i := FirstHit(toks, name, 0);
    if i == |toks| then NoEntry
    else
      var from := KeyEnd(toks, i, name).value;
      var e := FirstStop(toks, from, from);
      if e == |toks| then NoEnd
      else Span(CommentStart(toks, i), if Closes(toks[e]) then e else e + 1)
  }

  method EntrySpan(toks: Tokens, name: string) returns (r: Span)
    ensures r == SpanOf(toks, name)
  {
    var depth := 0;
    for i := 0 to |toks|
      invariant depth == Depth(toks, i)
      invariant FirstHit(toks, name, 0) == FirstHit(toks, name, i)
    {
      if Opens(toks[i]) {
        depth := depth + 1;
        continue;
      }
      if Closes(toks[i]) {
        depth := depth - 1;
        continue;
      }
      if depth != 1 || i == 0 || !EndsLine(toks[i - 1]) {
        continue;
      }
      var keyEnd := KeyEnd(toks, i, name);
      if keyEnd.None? {
        continue;
      }
      var start := i;
      while start > 1 && toks[start - 1].Comment?
        invariant 0 <= start <= i && CommentStart(toks, start) == CommentStart(toks, i)
      {
        start := start - 1;
      }
      var from, d := keyEnd.value, 0;
      for j := from to |toks|
        invariant d == Depth(toks, j) - Depth(toks, from)
        invariant FirstStop(toks, from, from) == FirstStop(toks, from, j)
      {
        if Opens(toks[j]) {
          d := d + 1;
        } else if Closes(toks[j]) {
          if d == 0 { return Span(start, j); }
          d := d - 1;
        } else if EndsValue(toks[j]) && d == 0 {
          return Span(start, j + 1);
        }
      }
      return NoEnd;
    }
    r := NoEntry;
  }

  // --- Objects with one entry a line ------------------------------------------

  /** What ends an entry; Open: nothing, before the object's closing brace. */
  datatype Term = ByNewline | ByComma | ByComment(text: string) | Open

  /**
   * How a key is written. Numeral: as a number, which reads as its value, so that leading
   * zeros are not part of the key. Jumble: as a number and something that cannot follow one.
   */
  datatype Form = Bare | Quoted | Numeral(zeros: nat) | Jumble(rest: string)

  datatype Item =
    | Blank
    | Note(text: string)
    | Entry(key: string, form: Form, colon: bool, value: Tokens, term: Term)

  predicate Plain(t: Token) {
    !Closes(t) && !t.Newline? && !t.Comma? && !t.Comment?
  }

  /** A value: brackets nested in any way, no line end and no comment outside them. */
  predicate ValueOk(v: Tokens) {
    && v != [] && Depth(v, |v|) == 0
    && forall m | 0 <= m < |v| :: Depth(v, m) >= 0 && (Depth(v, m) == 0 ==> Plain(v[m]))
  }

  function Zeros(n: nat): string {
    seq(n, _ => '0')
  }

  predicate Digit(c: char) {
    '0' <= c <= '9'
  }

  /** Digits alone. */
  predicate Digits(s: string) {
    s != "" && forall c | c in s :: Digit(c)
  }

  /** A number as HCL turns it into a key: without leading zeros. */
  predicate Canonical(s: string) {
    Digits(s) && (s[0] == '0' ==> s == "0")
  }

  /** The key a number is read as. */
  function ValueOf(digits: string): (key: string)
    ensures |key| <= |digits|
  {
    if |digits| > 1 && digits[0] == '0' then ValueOf(digits[1..]) else digits
  }

  function KeyTokens(key: string, form: Form): Tokens {
    match form
    case Bare => [Ident(key)]
    case Quoted => [OQuote, QuotedLit(key), CQuote]
    case Numeral(zeros) => [NumberLit(Zeros(zeros) + key)]
    case Jumble(rest) => [NumberLit(key), Other(rest)]
  }

  function TermTokens(t: Term): Tokens {
    match t
    case ByNewline => [Newline]
    case ByComma => [Comma]
    case ByComment(text) => [Comment(text, true)]
    case Open => []
  }

  function ItemTokens(i: Item): Tokens {
    match i
    case Blank => [Newline]
    case Note(text) => [Comment(text, true)]
    case Entry(key, form, colon, value, term) =>
      KeyTokens(key, form) + [if colon then Colon else Equal] + value + TermTokens(term)
  }

  function Flat(items: seq<Item>): Tokens {
    if items == [] then [] else Flat(items[..|items| - 1]) + ItemTokens(items[|items| - 1])
  }

  function ObjectTokens(items: seq<Item>): Tokens {
    [OBrace] + Flat(items) + [CBrace]
  }

  /** Values are values, numbers are numbers, and only the last entry may be open. */
  ghost predicate Shaped(items: seq<Item>) {
    forall i | 0 <= i < |items| && items[i].Entry? ::
      && ValueOk(items[i].value) && (items[i].term.Open? ==> i == |items| - 1)
      && (items[i].form.Numeral? ==> Canonical(items[i].key))
  }

  ghost predicate Unique(items: seq<Item>) {
    forall i, j | 0 <= i < j < |items| && items[i].Entry? && items[j].Entry? :: items[i].key != items[j].key
  }

  /** An object as a file holds it: every key reads, and no two are one. */
  ghost predicate Laid(items: seq<Item>) {
    && Shaped(items) && Unique(items)
    && forall i | 0 <= i < |items| && items[i].Entry? :: !items[i].form.Jumble?
  }

  /** key finds the entry: it has the name, bare or quoted. */
  predicate Named(i: Item, name: string) {
    i.Entry? && i.key == name && (i.form.Bare? || i.form.Quoted?)
  }

  lemma {:induction false} DepthAppend(a: Tokens, b: Tokens, i: nat)
    requires i <= |b|
    ensures Depth(a + b, |a| + i) == Depth(a, |a|) + Depth(b, i)
  {
    if i == 0 {
      DepthPrefix(a, b, |a|);
    } else {
      DepthAppend(a, b, i - 1);
      assert (a + b)[|a| + i - 1] == b[i - 1];
    }
  }

  lemma {:induction false} DepthPrefix(a: Tokens, b: Tokens, i: nat)
    requires i <= |a|
    ensures Depth(a + b, i) == Depth(a, i)
  {
    if i > 0 {
      DepthPrefix(a, b, i - 1);
      assert (a + b)[i - 1] == a[i - 1];
    }
  }

  /** toks in three parts. A name for it, so that a proof can keep the concatenation out of sight. */
  ghost predicate Parts(toks: Tokens, pre: Tokens, seg: Tokens, post: Tokens) {
    toks == pre + seg + post
  }

  lemma DepthAfter(head: Tokens, a: Tokens, b: Tokens, i: nat)
    requires head == a + b && i <= |b|
    ensures Depth(head, |a| + i) == Depth(a, |a|) + Depth(b, i)
  {
    hide Depth;
    DepthAppend(a, b, i);
  }

  lemma DepthBefore(toks: Tokens, head: Tokens, post: Tokens, i: nat)
    requires toks == head + post && i <= |head|
    ensures Depth(toks, i) == Depth(head, i)
  {
    hide Depth;
    DepthPrefix(head, post, i);
  }

  lemma {:induction false} FlatAppend(a: seq<Item>, b: seq<Item>)
    ensures Flat(a + b) == Flat(a) + Flat(b)
  {
    hide ItemTokens;
    if b == [] {
      assert a + b == a;
    } else {
      assert (a + b)[..|a + b| - 1] == a + b[..|b| - 1];
      FlatAppend(a, b[..|b| - 1]);
    }
  }

  /** Within an entry's tokens, depth is balanced and only a key's first token can be a hit. */
  lemma {:induction false} EntryDepth(e: Item, m: nat)
    requires e.Entry? && ValueOk(e.value) && m <= |ItemTokens(e)|
    ensures var k := |KeyTokens(e.key, e.form)| + 1;
            Depth(ItemTokens(e), m) ==
            if m < k then 0 else if m <= k + |e.value| then Depth(e.value, m - k) else 0
  {
    hide *;
    var head, tail, seg := HeadTokens(e), TermTokens(e.term), ItemTokens(e);
    EntryParts(e);
    HeadDepth(e, if m < |head| then m else |head|);
    ValueEnds(e.value);
    if m <= |head| {
      DepthBefore(seg, head, e.value + tail, m);
      DepthZero(e.value);
    } else if m <= |head| + |e.value| {
      NextDepthIn(seg, head, e.value, tail, m - |head|);
    } else {
      TermDepth(e.term);
      TailDepth(seg, head, e.value, tail);
    }
  }

  function HeadTokens(e: Item): Tokens
    requires e.Entry?
  {
    KeyTokens(e.key, e.form) + [if e.colon then Colon else Equal]
  }

  lemma EntryParts(e: Item)
    requires e.Entry?
    ensures Parts(ItemTokens(e), HeadTokens(e), e.value, TermTokens(e.term))
    ensures ItemTokens(e) == HeadTokens(e) + (e.value + TermTokens(e.term))
    ensures |HeadTokens(e)| == |KeyTokens(e.key, e.form)| + 1 && |TermTokens(e.term)| <= 1
    ensures |ItemTokens(e)| == |HeadTokens(e)| + |e.value| + |TermTokens(e.term)|
  {}

  lemma HeadDepth(e: Item, m: nat)
    requires e.Entry? && m <= |HeadTokens(e)|
    ensures Depth(HeadTokens(e), m) == 0
  {
    if m > 0 {
      HeadDepth(e, m - 1);
    }
  }

  lemma TermDepth(t: Term)
    ensures Depth(TermTokens(t), |TermTokens(t)|) == 0
  {
    assert |TermTokens(t)| == 1 ==> Depth(TermTokens(t), 0) == 0;
  }

  lemma NextDepthIn(toks: Tokens, pre: Tokens, seg: Tokens, post: Tokens, m: nat)
    requires Parts(toks, pre, seg, post) && m <= |seg|
    ensures Depth(toks, |pre| + m) == Depth(pre, |pre|) + Depth(seg, m)
  {
    hide Depth;
    var head := pre + seg;
    DepthAfter(head, pre, seg, m);
    DepthBefore(toks, head, post, |pre| + m);
  }

  lemma {:induction false} TailDepth(toks: Tokens, pre: Tokens, seg: Tokens, post: Tokens)
    requires Parts(toks, pre, seg, post)
    ensures |toks| == |pre| + |seg| + |post|
    ensures Depth(toks, |toks|) == Depth(pre, |pre|) + Depth(seg, |seg|) + Depth(post, |post|)
  {
    hide Depth;
    WholeDepth(pre + seg, pre, seg);
    WholeDepth(toks, pre + seg, post);
  }

  lemma {:induction false} WholeDepth(toks: Tokens, a: Tokens, b: Tokens)
    requires toks == a + b
    ensures Depth(toks, |toks|) == Depth(a, |a|) + Depth(b, |b|)
  {
    hide *;
    assert |toks| == |a| + |b|;
    DepthAfter(toks, a, b, |b|);
  }

  lemma ValueEnds(v: Tokens)
    requires ValueOk(v)
    ensures Depth(v, |v|) == 0 && v != [] && !EndsLine(v[|v| - 1]) && !v[|v| - 1].Comment?
  {
    assert Depth(v, |v|) == Depth(v, |v| - 1) + Delta(v[|v| - 1]);
  }

  lemma ItemBalanced(i: Item)
    requires i.Entry? ==> ValueOk(i.value)
    ensures Depth(ItemTokens(i), |ItemTokens(i)|) == 0
  {
    hide *;
    if i.Entry? {
      EntryDepth(i, |ItemTokens(i)|);
      ValueEnds(i.value);
      EntryParts(i);
    } else {
      LineToken(i);
      LineDepth(ItemTokens(i));
    }
  }

  lemma LineToken(i: Item)
    requires !i.Entry?
    ensures |ItemTokens(i)| == 1 && (ItemTokens(i)[0].Newline? || ItemTokens(i)[0].Comment?)
    ensures ItemTokens(i)[0].Comment? <==> i.Note?
  {}

  lemma LineDepth(line: Tokens)
    requires |line| == 1 && (line[0].Newline? || line[0].Comment?)
    ensures Depth(line, 1) == 0
  {
    assert Depth(line, 0) == 0;
  }

  // --- entrySpan on such objects ----------------------------------------------

  function Before(items: seq<Item>, k: nat): Tokens
    requires k <= |items|
  {
    [OBrace] + Flat(items[..k])
  }

  /** What follows the items before k. */
  function After(items: seq<Item>, k: nat): Tokens
    requires k <= |items|
  {
    Flat(items[k..]) + [CBrace]
  }

  ghost predicate ItemOk(i: Item) {
    i.Entry? ==> ValueOk(i.value)
  }

  /** Up to any item the object is at depth 1 and, unless the last entry was open, at a line's start. */
  lemma {:induction false} BeforeItem(items: seq<Item>, k: nat)
    requires k <= |items| && forall i | 0 <= i < k :: ItemOk(items[i])
    ensures Depth(Before(items, k), |Before(items, k)|) == 1
    ensures (k > 0 && items[k - 1].Entry? ==> !items[k - 1].term.Open?) ==> EndsLine(Before(items, k)[|Before(items, k)| - 1])
  {
    hide ItemTokens, ItemOk;
    if k == 0 {
      assert Before(items, 0) == [OBrace];
      assert Depth([OBrace], 1) == Depth([OBrace], 0) + 1;
    } else {
      BeforeItem(items, k - 1);
      BeforeStep(items, k);
      var pre, seg := Before(items, k - 1), ItemTokens(items[k - 1]);
      assert ItemOk(items[k - 1]);
      DepthAppend(pre, seg, |seg|);
      ItemEnds(items[k - 1]);
    }
  }

  lemma BeforeStep(items: seq<Item>, k: nat)
    requires 0 < k <= |items|
    ensures Before(items, k) == Before(items, k - 1) + ItemTokens(items[k - 1])
  {
    hide ItemTokens;
    assert items[..k][..k - 1] == items[..k - 1];
  }

  lemma {:induction false} ItemEnds(i: Item)
    requires ItemOk(i)
    ensures Depth(ItemTokens(i), |ItemTokens(i)|) == 0 && ItemTokens(i) != []
    ensures (i.Entry? ==> !i.term.Open?) ==> EndsLine(ItemTokens(i)[|ItemTokens(i)| - 1])
  {
    hide ValueOk;
    ItemBalanced(i);
  }

  /** A token of seg, the depth before it and the token before it, seen in pre + seg + post. */
  lemma Inside(toks: Tokens, pre: Tokens, seg: Tokens, post: Tokens, m: nat)
    requires Parts(toks, pre, seg, post) && pre != [] && m < |seg|
    ensures |pre| + m < |toks| && toks[|pre| + m] == seg[m]
    ensures Depth(toks, |pre| + m) == Depth(pre, |pre|) + Depth(seg, m)
    ensures toks[|pre| + m - 1] == if m == 0 then pre[|pre| - 1] else seg[m - 1]
  {
    hide Depth;
    var head := pre + seg;
    DepthAfter(head, pre, seg, m);
    DepthBefore(toks, head, post, |pre| + m);
    assert head[|pre| + m] == seg[m];
  }

  lemma HitIf(toks: Tokens, i: nat, name: string)
    requires 0 < i < |toks| && EndsLine(toks[i - 1]) && Depth(toks, i) == 1 && (toks[i].Ident? || toks[i].OQuote?)
    ensures Hit(toks, i, name) <==> KeyEnd(toks, i, name).Some?
  {
    hide Depth, KeyEnd;
  }

  lemma NoHit(toks: Tokens, i: nat, name: string)
    requires 0 < i < |toks|
    requires !EndsLine(toks[i - 1]) || Depth(toks, i) != 1 || (!toks[i].Ident? && toks[i] != OQuote)
    ensures !Hit(toks, i, name)
  {
    hide Depth;
  }

  /** Among an item's tokens, a hit is the first token of the entry of that name and no other. */
  lemma {:induction false} ItemHits(toks: Tokens, pre: Tokens, i: Item, post: Tokens, name: string, m: nat)
    requires ItemOk(i) && m < |ItemTokens(i)| && Parts(toks, pre, ItemTokens(i), post)
    requires pre != [] && Depth(pre, |pre|) == 1 && EndsLine(pre[|pre| - 1])
    ensures |pre| + m < |toks| && (Hit(toks, |pre| + m, name) <==> m == 0 && Named(i, name))
  {
    hide *;
    Inside(toks, pre, ItemTokens(i), post, m);
    if i.Entry? && m == 0 {
      ItemOkIs(i);
      KeyHits(toks, pre, i, post, name);
    } else {
      NoKeyHere(toks, |pre| + m, i, name, m);
      NamedIs(i, name);
    }
  }

  lemma NamedIs(i: Item, name: string)
    ensures Named(i, name) ==> i.Entry? && i.key == name
    ensures i.Entry? && i.key == name && !i.form.Numeral? && !i.form.Jumble? ==> Named(i, name)
  {}

  /** A token that is item i's token m, other than an entry's first, is no hit. */
  lemma NoKeyHere(toks: Tokens, p: nat, i: Item, name: string, m: nat)
    requires ItemOk(i) && m < |ItemTokens(i)| && (i.Entry? ==> m > 0)
    requires 0 < p < |toks| && toks[p] == ItemTokens(i)[m] && (m > 0 ==> toks[p - 1] == ItemTokens(i)[m - 1])
    requires Depth(toks, p) == 1 + Depth(ItemTokens(i), m)
    ensures !Hit(toks, p, name)
  {
    if i.Entry? {
      hide *;
      ItemOkIs(i);
      EntryLine(i, m);
      NoHit(toks, p, name);
    } else {
      hide Hit, Depth;
      NoHit(toks, p, name);
    }
  }

  lemma ItemOkIs(i: Item)
    requires ItemOk(i) && i.Entry?
    ensures ValueOk(i.value)
  {}

  /** Past its first token an entry has no other place where a key could begin. */
  lemma EntryLine(i: Item, m: nat)
    requires i.Entry? && ValueOk(i.value) && 0 < m < |ItemTokens(i)|
    ensures var seg := ItemTokens(i);
            !EndsLine(seg[m - 1]) || Depth(seg, m) != 0 || (!seg[m].Ident? && seg[m] != OQuote)
  {
    hide *;
    var k := |KeyTokens(i.key, i.form)| + 1;
    TermToken(i);
    if m <= k {
      HeadLine(i, m);
    } else if m < k + |i.value| {
      EntryDepth(i, m);
      ValueInside(i.value, m - k);
      ValueToken(i, m - 1 - k);
    } else {
      EndIsNoKey(ItemTokens(i)[m]);
    }
  }

  lemma EndIsNoKey(t: Token)
    requires EndsValue(t)
    ensures !t.Ident? && t != OQuote && !Closes(t) && !Opens(t)
  {}

  /** No token of the key or the = ends a line. */
  lemma HeadLine(i: Item, m: nat)
    requires i.Entry? && 0 < m <= |KeyTokens(i.key, i.form)| + 1
    ensures m <= |ItemTokens(i)| && !EndsLine(ItemTokens(i)[m - 1])
  {
    EntryTokens(i);
    hide ItemTokens;
  }

  lemma KeyAt(toks: Tokens, pre: Tokens, i: Item, post: Tokens, name: string)
    requires i.Entry? && Parts(toks, pre, ItemTokens(i), post) && |KeyTokens(i.key, i.form)| + 1 < |ItemTokens(i)|
    ensures |pre| < |toks| && toks[|pre|] == ItemTokens(i)[0]
    ensures KeyEnd(toks, |pre|, name) ==
            if Named(i, name) then Some(|pre| + |KeyTokens(i.key, i.form)| + 1) else None
  {
    var seg, p := ItemTokens(i), |pre|;
    EntryTokens(i);
    hide ItemTokens;
    assert toks[p + 0] == seg[0] && toks[p + 1] == seg[1];
    if i.form.Quoted? {
      assert toks[p + 2] == seg[2] && toks[p + 3] == seg[3];
    }
  }

  lemma {:induction false} KeyHits(toks: Tokens, pre: Tokens, i: Item, post: Tokens, name: string)
    requires i.Entry? && ValueOk(i.value) && Parts(toks, pre, ItemTokens(i), post)
    requires pre != [] && Depth(pre, |pre|) == 1 && EndsLine(pre[|pre| - 1])
    ensures |pre| < |toks| && (Hit(toks, |pre|, name) <==> Named(i, name))
  {
    hide *;
    EntryTokens(i);
    ValueEnds(i.value);
    KeyAt(toks, pre, i, post, name);
    Inside(toks, pre, ItemTokens(i), post, 0);
    DepthZero(ItemTokens(i));
    NamedForm(i, name);
    if i.form.Bare? || i.form.Quoted? {
      HitIf(toks, |pre|, name);
    } else {
      NoHit(toks, |pre|, name);
    }
  }

  lemma NamedForm(i: Item, name: string)
    ensures Named(i, name) ==> i.Entry? && (i.form.Bare? || i.form.Quoted?)
  {}

  /** The tokens of an entry's key and separator. */
  lemma EntryTokens(i: Item)
    requires i.Entry?
    ensures var seg, k := ItemTokens(i), |KeyTokens(i.key, i.form)| + 1;
            && k == (if i.form.Quoted? then 4 else if i.form.Jumble? then 3 else 2)
            && |seg| == k + |i.value| + |TermTokens(i.term)|
            && (match i.form
                case Bare => seg[0] == Ident(i.key)
                case Quoted => seg[0] == OQuote && seg[1] == QuotedLit(i.key) && seg[2] == CQuote
                case Numeral(zeros) => seg[0] == NumberLit(Zeros(zeros) + i.key)
                case Jumble(rest) => seg[0] == NumberLit(i.key) && seg[1] == Other(rest))
            && seg[k - 1] == (if i.colon then Colon else Equal)
  {}

  lemma ValueToken(i: Item, a: nat)
    requires i.Entry? && a < |i.value|
    ensures var seg, k := ItemTokens(i), |KeyTokens(i.key, i.form)| + 1;
            k + a < |seg| && seg[k + a] == i.value[a]
  {}

  lemma TermToken(i: Item)
    requires i.Entry?
    ensures var seg, n := ItemTokens(i), |KeyTokens(i.key, i.form)| + 1 + |i.value|;
            && |seg| == n + (if i.term.Open? then 0 else 1)
            && |TermTokens(i.term)| == (if i.term.Open? then 0 else 1)
            && (!i.term.Open? ==> seg[n] == TermTokens(i.term)[0] && EndsValue(seg[n]))
  {}

  /** Inside a value no token at depth 0 follows a line end. */
  lemma ValueInside(v: Tokens, m: nat)
    requires ValueOk(v) && 0 < m < |v|
    ensures !(Depth(v, m) == 0 && EndsLine(v[m - 1]))
  {
    assert Depth(v, m) == Depth(v, m - 1) + Delta(v[m - 1]);
  }

  lemma {:induction false} FirstHitSkips(toks: Tokens, name: string, i: nat, j: nat)
    requires i <= j <= |toks| && forall m | i <= m < j :: !Hit(toks, m, name)
    ensures FirstHit(toks, name, i) == FirstHit(toks, name, j)
    decreases j - i
  {
    hide Hit;
    if i < j {
      FirstHitSkips(toks, name, i + 1, j);
    }
  }

  lemma ObjectSplit(items: seq<Item>, k: nat)
    requires k < |items|
    ensures Parts(ObjectTokens(items), Before(items, k), ItemTokens(items[k]), After(items, k + 1))
  {
    hide ItemTokens;
    FlatAppend(items[..k + 1], items[k + 1..]);
    assert items == items[..k + 1] + items[k + 1..];
    BeforeStep(items, k + 1);
  }

  /** The entries before item k are no hits when none of them has the name. */
  lemma {:induction false} NoHitBefore(items: seq<Item>, name: string, k: nat)
    requires Shaped(items) && k <= |items|
    requires forall i | 0 <= i < k :: !Named(items[i], name)
    ensures |Before(items, k)| <= |ObjectTokens(items)|
    ensures forall m | 0 <= m < |Before(items, k)| :: !Hit(ObjectTokens(items), m, name)
  {
    hide *;
    var toks := ObjectTokens(items);
    ShapedOk(items);
    if k == 0 {
      BraceFirst(items, name);
    } else {
      NoHitBefore(items, name, k - 1);
      ObjectSplit(items, k - 1);
      BeforeLength(items, k);
      BeforeItem(items, k - 1);
      ShapedOpen(items, k - 1);
      BeforeSome(items, k - 1);
      var pre, seg := Before(items, k - 1), ItemTokens(items[k - 1]);
      forall m | |pre| <= m < |pre| + |seg|
        ensures m < |toks| && !Hit(toks, m, name)
      {
        ItemHits(toks, pre, items[k - 1], After(items, k), name, m - |pre|);
      }
      PartsLength(toks, pre, seg, After(items, k));
    }
  }

  lemma BraceFirst(items: seq<Item>, name: string)
    ensures ObjectTokens(items) != [] && |Before(items, 0)| == 1 && !Hit(ObjectTokens(items), 0, name)
  {}

  lemma BeforeLength(items: seq<Item>, k: nat)
    requires 0 < k <= |items|
    ensures |Before(items, k)| == |Before(items, k - 1)| + |ItemTokens(items[k - 1])|
  {
    hide ItemTokens, Before;
    BeforeStep(items, k);
  }

  lemma ShapedOpen(items: seq<Item>, k: nat)
    requires Shaped(items) && k < |items|
    ensures k > 0 && items[k - 1].Entry? ==> !items[k - 1].term.Open?
    ensures items[k].Entry? && items[k].term.Open? ==> items[k + 1..] == []
    ensures ItemOk(items[k])
  {
    hide ValueOk;
  }

  lemma PartsLength(toks: Tokens, pre: Tokens, seg: Tokens, post: Tokens)
    requires Parts(toks, pre, seg, post)
    ensures |toks| == |pre| + |seg| + |post|
  {}

  lemma AfterEnd(items: seq<Item>, k: nat)
    requires k <= |items|
    ensures After(items, k) != []
    ensures items[k..] == [] ==> Closes(After(items, k)[0])
  {}

  /** The named entry is the first hit, and its value's end the first stop. */
  lemma SpanFound(items: seq<Item>, name: string, k: nat)
    requires Laid(items) && k < |items| && Named(items[k], name)
    ensures |Before(items, k)| < |ObjectTokens(items)|
    ensures SpanOf(ObjectTokens(items), name) ==
            Span(CommentStart(ObjectTokens(items), |Before(items, k)|), |Before(items, k + 1)|)
  {
    hide *;
    var toks, pre, e := ObjectTokens(items), Before(items, k), items[k];
    var post := After(items, k + 1);
    LaidIs(items);
    NamedIs(e, name);
    ObjectSplit(items, k);
    ShapedOk(items);
    ShapedOpen(items, k);
    OtherNames(items, k, name);
    BeforeItem(items, k);
    BeforeSome(items, k);
    NoHitBefore(items, name, k);
    ItemNonEmpty(e);
    ItemHits(toks, pre, e, post, name, 0);
    FirstHitSkips(toks, name, 0, |pre|);
    FirstHitIs(toks, name, |pre|);
    AfterEnd(items, k + 1);
    ItemOkIs(e);
    EntryStops(toks, pre, e, post, name);
    BeforeLength(items, k + 1);
    SpanIs(toks, name, |pre|);
  }

  lemma OtherNames(items: seq<Item>, k: nat, name: string)
    requires Unique(items) && k < |items| && Named(items[k], name)
    ensures forall i | 0 <= i < |items| && i != k :: !Named(items[i], name)
  {}

  lemma SpanIs(toks: Tokens, name: string, i: nat)
    requires i < |toks| && FirstHit(toks, name, 0) == i && KeyEnd(toks, i, name).Some?
    ensures var from := KeyEnd(toks, i, name).value;
            var e := FirstStop(toks, from, from);
            e < |toks| ==> SpanOf(toks, name) == Span(CommentStart(toks, i), if Closes(toks[e]) then e else e + 1)
  {
    hide Hit, KeyEnd, FirstHit, FirstStop, CommentStart, Closes;
  }

  lemma ItemNonEmpty(i: Item)
    ensures ItemTokens(i) != []
  {}

  lemma FirstHitIs(toks: Tokens, name: string, i: nat)
    requires i < |toks| && Hit(toks, i, name)
    ensures FirstHit(toks, name, i) == i
  {
    hide Hit;
  }

  lemma {:induction false} FirstStopSkips(toks: Tokens, from: nat, j: nat, e: nat)
    requires from <= j <= e < |toks| && Stops(toks, from, e) && forall m | j <= m < e :: !Stops(toks, from, m)
    ensures FirstStop(toks, from, j) == e
    decreases e - j
  {
    hide Stops;
    if j < e {
      FirstStopSkips(toks, from, j + 1, e);
    }
  }

  lemma {:induction false} EntryStops(toks: Tokens, pre: Tokens, e: Item, post: Tokens, name: string)
    requires e.Entry? && ValueOk(e.value) && pre != [] && Parts(toks, pre, ItemTokens(e), post)
    requires e.term.Open? ==> post != [] && Closes(post[0])
    ensures var k := |KeyTokens(e.key, e.form)| + 1;
            && |pre| < |toks| && (Named(e, name) ==> KeyEnd(toks, |pre|, name) == Some(|pre| + k))
            && FirstStop(toks, |pre| + k, |pre| + k) == |pre| + k + |e.value| < |toks|
            && Closes(toks[|pre| + k + |e.value|]) == e.term.Open?
            && |ItemTokens(e)| == k + |e.value| + if e.term.Open? then 0 else 1
  {
    hide *;
    var seg, k := ItemTokens(e), |KeyTokens(e.key, e.form)| + 1;
    var from, n := |pre| + k, |e.value|;
    EntryTokens(e);
    TermToken(e);
    ValueEnds(e.value);
    KeyAt(toks, pre, e, post, name);
    EntryDepth(e, k);
    DepthZero(e.value);
    Inside(toks, pre, seg, post, k);
    PartsLength(toks, pre, seg, post);
    forall m | 0 <= m < n
      ensures toks[from + m] == e.value[m] && Depth(toks, from + m) == Depth(toks, from) + Depth(e.value, m)
    {
      Inside(toks, pre, seg, post, k + m);
      EntryDepth(e, k + m);
      ValueToken(e, m);
      assert |pre| + (k + m) == from + m;
    }
    Inside(toks, pre, seg, post, k + n - 1);
    AfterValue(toks, pre, e, post);
    ValueStops(toks, from, e.value);
  }

  /** What comes after the value: the entry's end or the token after it. */
  lemma {:induction false} AfterValue(toks: Tokens, pre: Tokens, e: Item, post: Tokens)
    requires e.Entry? && ValueOk(e.value) && Parts(toks, pre, ItemTokens(e), post) && pre != []
    requires e.term.Open? ==> post != [] && Closes(post[0])
    ensures var p := |pre| + (|KeyTokens(e.key, e.form)| + 1 + |e.value|);
            && p < |toks|
            && (if e.term.Open? then Closes(toks[p]) else EndsValue(toks[p]) && !Closes(toks[p]))
            && Depth(toks, p) == Depth(pre, |pre|) + Depth(e.value, |e.value|)
  {
    hide *;
    TermToken(e);
    var n := |KeyTokens(e.key, e.form)| + 1 + |e.value|;
    EntryDepth(e, n);
    if e.term.Open? {
      Next(toks, pre, ItemTokens(e), post);
      NextDepthIn(toks, pre, ItemTokens(e), post, |ItemTokens(e)|);
    } else {
      Inside(toks, pre, ItemTokens(e), post, n);
      EndIsNoKey(ItemTokens(e)[n]);
    }
  }

  lemma Next(toks: Tokens, pre: Tokens, seg: Tokens, post: Tokens)
    requires Parts(toks, pre, seg, post) && post != []
    ensures |pre| + |seg| < |toks| && toks[|pre| + |seg|] == post[0]
  {}

  /** A value's own tokens stop nothing; what follows it does. */
  lemma ValueStops(toks: Tokens, from: nat, v: Tokens)
    requires ValueOk(v) && from + |v| < |toks|
    requires forall m | 0 <= m <= |v| :: Depth(toks, from + m) == Depth(toks, from) + Depth(v, m)
    requires forall m | 0 <= m < |v| :: toks[from + m] == v[m]
    requires Closes(toks[from + |v|]) || EndsValue(toks[from + |v|])
    ensures FirstStop(toks, from, from) == from + |v|
  {
    hide Depth;
    forall j | from <= j < from + |v|
      ensures !Stops(toks, from, j)
    {
      var m := j - from;
      assert toks[from + m] == v[m] && Depth(toks, from + m) == Depth(toks, from) + Depth(v, m);
      assert Depth(v, 0) == 0 by { DepthZero(v); }
    }
    assert Depth(toks, from + |v|) == Depth(toks, from) + Depth(v, |v|);
    FirstStopSkips(toks, from, from, from + |v|);
  }

  lemma DepthZero(v: Tokens)
    ensures Depth(v, 0) == 0
  {}

  // --- Comments above ----------------------------------------------------------

  /** The first of the own-line comments directly above item k. */
  function NotesFrom(items: seq<Item>, k: nat): (n: nat)
    requires k <= |items|
    ensures n <= k && forall i | n <= i < k :: items[i].Note?
    ensures n > 0 ==> !items[n - 1].Note?
  {
    if k > 0 && items[k - 1].Note? then NotesFrom(items, k - 1) else k
  }

  /** Above the comments of item k is the end-of-line comment of another entry. */
  predicate NoteAbove(items: seq<Item>, k: nat)
    requires k <= |items|
  {
    var n := NotesFrom(items, k);
    n > 0 && items[n - 1].Entry? && items[n - 1].term.ByComment?
  }

  lemma {:induction false} CommentStartAt(items: seq<Item>, k: nat, rest: Tokens)
    requires k <= |items| && forall i | 0 <= i < k :: ItemOk(items[i])
    ensures CommentStart(Before(items, k) + rest, |Before(items, k)|) ==
            |Before(items, NotesFrom(items, k))| - if NoteAbove(items, k) then 1 else 0
    decreases k
  {
    hide ValueOk, ItemTokens;
    if k == 0 {
      assert Before(items, 0) == [OBrace];
    } else {
      BeforeStep(items, k);
      var pre, seg, all := Before(items, k - 1), ItemTokens(items[k - 1]), Before(items, k) + rest;
      assert all[|pre| + |seg| - 1] == seg[|seg| - 1] by { ItemNonEmpty(items[k - 1]); }
      LastToken(items[k - 1]);
      if items[k - 1].Note? {
        assert all == pre + (seg + rest);
        CommentStartAt(items, k - 1, seg + rest);
      } else if items[k - 1].Entry? && items[k - 1].term.ByComment? {
        assert all[|pre| + |seg| - 2] == seg[|seg| - 2];
        assert CommentStart(all, |pre| + |seg| - 1) == |pre| + |seg| - 1;
      }
    }
  }

  lemma {:induction false} LastToken(i: Item)
    requires ItemOk(i)
    ensures var seg := ItemTokens(i);
            && seg != [] && (i.Note? ==> |seg| == 1)
            && (seg[|seg| - 1].Comment? <==> i.Note? || (i.Entry? && i.term.ByComment?))
            && (i.Entry? && i.term.ByComment? ==> |seg| > 1 && !seg[|seg| - 2].Comment?)
  {
    hide *;
    if i.Entry? {
      ItemOkIs(i);
      EntryTokens(i);
      TermToken(i);
      ValueEnds(i.value);
      ValueToken(i, |i.value| - 1);
      TermComment(i.term);
    } else {
      LineToken(i);
    }
  }

  lemma TermComment(t: Term)
    ensures t.Open? || |TermTokens(t)| == 1
    ensures !t.Open? ==> (TermTokens(t)[0].Comment? <==> t.ByComment?)
  {}

  /** The items that are left when entry k goes with the comments above it. */
  function Left(items: seq<Item>, k: nat): seq<Item>
    requires k < |items|
  {
    items[..NotesFrom(items, k)] + items[k + 1..]
  }

  /** The items that are left when the end-of-line comment above goes too. */
  function Glued(items: seq<Item>, k: nat): seq<Item>
    requires k < |items| && NoteAbove(items, k)
  {
    var n := NotesFrom(items, k);
    items[..n - 1] + [items[n - 1].(term := Open)] + items[k + 1..]
  }

  /** The tokens Without cuts the file's tokens to. */
  lemma {:induction false} WithoutTokens(items: seq<Item>, name: string, k: nat)
    requires Laid(items) && k < |items| && Named(items[k], name)
    ensures var toks, r := ObjectTokens(items), SpanOf(ObjectTokens(items), name);
            r.Span? && r.start <= r.end <= |toks| &&
            toks[..r.start] + toks[r.end..] == ObjectTokens(if NoteAbove(items, k) then Glued(items, k) else Left(items, k))
  {
    hide *;
    SpanFound(items, name, k);
    var toks, n := ObjectTokens(items), NotesFrom(items, k);
    LaidIs(items);
    ShapedOk(items);
    ObjectSplit(items, k);
    var pre, seg, post := Before(items, k), ItemTokens(items[k]), After(items, k + 1);
    CommentsAbove(items, k);
    BeforeLength(items, k + 1);
    BeforeSplit(items, n, k);
    assert |Before(items, k + 1)| == |pre| + |seg|;
    var start := CommentStart(toks, |pre|);
    CutOut(toks, pre, seg, post, start);
    if NoteAbove(items, k) {
      NoteAboveIs(items, k);
      BeforeSome(items, n);
      GluedTokens(items, n, k);
      GluedIs(items, k);
      PrefixOf(pre, Before(items, n), Flat(items[n..k]), start);
    } else {
      LeftIs(items, k);
      LeftTokens(items, n, k);
      PrefixOf(pre, Before(items, n), Flat(items[n..k]), start);
    }
  }

  lemma {:induction false} CommentsAbove(items: seq<Item>, k: nat)
    requires k < |items| && forall i | 0 <= i < k :: ItemOk(items[i])
    ensures |Before(items, k)| <= |ObjectTokens(items)|
    ensures CommentStart(ObjectTokens(items), |Before(items, k)|) ==
            |Before(items, NotesFrom(items, k))| - if NoteAbove(items, k) then 1 else 0
  {
    hide *;
    ObjectSplit(items, k);
    var rest := ItemTokens(items[k]) + After(items, k + 1);
    Regroup(ObjectTokens(items), Before(items, k), ItemTokens(items[k]), After(items, k + 1));
    CommentStartAt(items, k, rest);
  }

  lemma Regroup(toks: Tokens, pre: Tokens, seg: Tokens, post: Tokens)
    requires Parts(toks, pre, seg, post)
    ensures toks == pre + (seg + post)
  {}

  lemma LaidIs(items: seq<Item>)
    ensures Laid(items) <==> Shaped(items) && Unique(items) && forall i | 0 <= i < |items| && items[i].Entry? :: !items[i].form.Jumble?
  {
    hide Shaped, Unique;
  }

  lemma ShapedOk(items: seq<Item>)
    requires Shaped(items)
    ensures forall i | 0 <= i < |items| :: ItemOk(items[i])
  {
    hide ValueOk;
  }

  lemma CutOut(toks: Tokens, pre: Tokens, seg: Tokens, post: Tokens, start: nat)
    requires Parts(toks, pre, seg, post) && start <= |pre|
    ensures |toks| == |pre| + |seg| + |post| && toks[..start] == pre[..start] && toks[|pre| + |seg|..] == post
  {}

  lemma PrefixOf(pre: Tokens, a: Tokens, b: Tokens, start: nat)
    requires pre == a + b && start <= |a|
    ensures pre[..start] == a[..start] && (start == |a| ==> pre[..start] == a)
  {}

  lemma BeforeSplit(items: seq<Item>, n: nat, k: nat)
    requires n <= k <= |items|
    ensures Before(items, k) == Before(items, n) + Flat(items[n..k])
  {
    hide ItemTokens;
    FlatAppend(items[..n], items[n..k]);
    assert items[..n] + items[n..k] == items[..k];
  }

  lemma BeforeSome(items: seq<Item>, n: nat)
    requires n <= |items|
    ensures Before(items, n) != []
  {}

  lemma NoteAboveIs(items: seq<Item>, k: nat)
    requires k <= |items| && NoteAbove(items, k)
    ensures var n := NotesFrom(items, k);
            0 < n <= k && items[n - 1].Entry? && items[n - 1].term.ByComment?
  {}

  lemma GluedIs(items: seq<Item>, k: nat)
    requires k < |items| && NoteAbove(items, k)
    ensures NotesFrom(items, k) > 0 && items[NotesFrom(items, k) - 1].Entry?
    ensures var n := NotesFrom(items, k);
            Glued(items, k) == items[..n - 1] + [items[n - 1].(term := Open)] + items[k + 1..]
  {}

  lemma LeftIs(items: seq<Item>, k: nat)
    requires k < |items|
    ensures Left(items, k) == items[..NotesFrom(items, k)] + items[k + 1..]
  {}

  lemma LeftTokens(items: seq<Item>, n: nat, k: nat)
    requires n <= k < |items|
    ensures Before(items, n) + After(items, k + 1) == ObjectTokens(items[..n] + items[k + 1..])
  {
    hide *;
    BeforeIs(items, n);
    AfterIs(items, k + 1);
    ObjectIs(items[..n] + items[k + 1..]);
    FlatAppend(items[..n], items[k + 1..]);
    Bracket(Before(items, n), Flat(items[..n]), After(items, k + 1), Flat(items[k + 1..]),
            Flat(items[..n] + items[k + 1..]), ObjectTokens(items[..n] + items[k + 1..]));
  }

  lemma Bracket(x: Tokens, a: Tokens, y: Tokens, b: Tokens, c: Tokens, z: Tokens)
    requires x == [OBrace] + a && y == b + [CBrace] && c == a + b && z == [OBrace] + c + [CBrace]
    ensures x + y == z
  {}

  lemma GluedTokens(items: seq<Item>, n: nat, k: nat)
    requires 0 < n <= k < |items| && items[n - 1].Entry? && items[n - 1].term.ByComment?
    ensures var pre := Before(items, n);
            pre != [] && pre[..|pre| - 1] + After(items, k + 1) ==
            ObjectTokens(items[..n - 1] + [items[n - 1].(term := Open)] + items[k + 1..])
  {
    hide *;
    var e := items[n - 1];
    var o := e.(term := Open);
    BeforeStep(items, n);
    TermLast(e);
    Peel(Before(items, n), Before(items, n - 1), ItemTokens(o), Comment(e.term.text, true));
    ObjectOne(items[..n - 1], o, items[k + 1..]);
    BeforeIs(items, n - 1);
    AfterIs(items, k + 1);
  }

  lemma BeforeIs(items: seq<Item>, k: nat)
    requires k <= |items|
    ensures Before(items, k) == [OBrace] + Flat(items[..k])
  {}

  lemma AfterIs(items: seq<Item>, k: nat)
    requires k <= |items|
    ensures After(items, k) == Flat(items[k..]) + [CBrace]
  {}

  lemma ObjectIs(items: seq<Item>)
    ensures ObjectTokens(items) == [OBrace] + Flat(items) + [CBrace]
  {}

  lemma {:induction false} ObjectOne(a: seq<Item>, i: Item, b: seq<Item>)
    ensures ObjectTokens(a + [i] + b) == [OBrace] + Flat(a) + ItemTokens(i) + (Flat(b) + [CBrace])
  {
    hide ItemTokens, Flat;
    FlatOne(a, i, b);
  }

  lemma Peel(all: Tokens, a: Tokens, b: Tokens, t: Token)
    requires all == a + (b + [t])
    ensures all != [] && all[..|all| - 1] == a + b
  {}

  lemma TermLast(e: Item)
    requires e.Entry? && e.term.ByComment?
    ensures ItemTokens(e) == ItemTokens(e.(term := Open)) + [Comment(e.term.text, true)]
  {}

  lemma FlatOne(a: seq<Item>, i: Item, b: seq<Item>)
    ensures Flat(a + [i] + b) == Flat(a) + ItemTokens(i) + Flat(b)
  {
    hide ItemTokens;
    FlatAppend(a + [i], b);
    assert (a + [i])[..|a|] == a;
  }

  // --- Reading an object back --------------------------------------------------

  datatype Name = Name(text: string, end: nat)

  /** The key at token i, bare, quoted or a number, with the index after its = or :. */
  function KeyOf(toks: Tokens, i: nat): (r: Option<Name>)
    requires i < |toks|
    ensures r.Some? ==> i < r.value.end <= |toks|
  {
    if toks[i].NumberLit? then
      if i + 1 < |toks| && (toks[i + 1] == Equal || toks[i + 1] == Colon) then Some(Name(ValueOf(toks[i].digits), i + 2)) else None
    else
      var name := if toks[i].Ident? then Some(toks[i].name)
                  else if toks[i] == OQuote && i + 1 < |toks| && toks[i + 1].QuotedLit? then Some(toks[i + 1].lit)
                  else None;
      if name.None? then None
      else match KeyEnd(toks, i, name.value)
        case None => None
        case Some(end) => Some(Name(name.value, end))
  }

  /**
   * HCL's reading of an object's tokens from i on: blank lines and comments between the
   * items, then key, = or :, and a value up to its stop. read is HCL's reading of a value
   * into a Worker; None where it is no such value. A later entry of one key wins. A key that
   * is a longer expression is read as none; what it says is never a Worker's name.
   */
  function ParseFrom<V>(toks: Tokens, i: nat, read: Tokens -> Option<V>, acc: map<string, V>): Option<map<string, V>>
    requires i <= |toks|
    decreases |toks| - i
  {
    if i == |toks| then None
    else if toks[i].Newline? || toks[i].Comment? then ParseFrom(toks, i + 1, read, acc)
    else if toks[i].CBrace? then if i + 1 == |toks| then Some(acc) else None
    else
      match KeyOf(toks, i)
      case None => None
      case Some(k) =>
        var e := FirstStop(toks, k.end, k.end);
        if e == |toks| || read(toks[k.end..e]).None? then None
        else
          var next := acc[k.text := read(toks[k.end..e]).value];
          ParseFrom(toks, if Closes(toks[e]) then e else e + 1, read, next)
  }

  /** The first token from i on that is no line end and no comment, or |toks|. */
  function Lead(toks: Tokens, i: nat): nat
    requires i <= |toks|
    decreases |toks| - i
  {
    if i < |toks| && (toks[i].Newline? || toks[i].Comment?) then Lead(toks, i + 1) else i
  }

  /** HCL reads braces that begin with the word for as a for expression, whatever follows. */
  predicate IsFor(toks: Tokens) {
    |toks| > 1 && var i := Lead(toks, 1); i < |toks| && toks[i] == Ident("for")
  }

  function Parse<V>(toks: Tokens, read: Tokens -> Option<V>): Option<map<string, V>> {
    if toks == [] || toks[0] != OBrace || IsFor(toks) then None else ParseFrom(toks, 1, read, map[])
  }

  /** What items from k on declare, on top of acc. */
  function Declared<V>(items: seq<Item>, k: nat, read: Tokens -> Option<V>, acc: map<string, V>): Option<map<string, V>>
    requires k <= |items|
    decreases |items| - k
  {
    if k == |items| then Some(acc)
    else if !items[k].Entry? then Declared(items, k + 1, read, acc)
    else if items[k].form.Jumble? || read(items[k].value).None? then None
    else Declared(items, k + 1, read, acc[items[k].key := read(items[k].value).value])
  }

  /** Reading the tokens of an object gives back what its items declare. */
  lemma {:induction false} ParseItems<V>(items: seq<Item>, k: nat, read: Tokens -> Option<V>, acc: map<string, V>)
    requires Shaped(items) && k <= |items|
    ensures |Before(items, k)| <= |ObjectTokens(items)|
    ensures ParseFrom(ObjectTokens(items), |Before(items, k)|, read, acc) == Declared(items, k, read, acc)
    decreases |items| - k
  {
    hide *;
    var toks, p := ObjectTokens(items), |Before(items, k)|;
    if k == |items| {
      BraceLast(items);
      ParseEnd(toks, p, read, acc);
      DeclaredEnd(items, read, acc);
    } else {
      ObjectSplit(items, k);
      BeforeLength(items, k + 1);
      PartsLength(toks, Before(items, k), ItemTokens(items[k]), After(items, k + 1));
      ShapedOpen(items, k);
      DeclaredStep(items, k, read, acc);
      BeforeSome(items, k);
      ItemNonEmpty(items[k]);
      Inside(toks, Before(items, k), ItemTokens(items[k]), After(items, k + 1), 0);
      if items[k].Entry? {
        ItemOkIs(items[k]);
        AfterEnd(items, k + 1);
        ShapedNumber(items, k);
        EntryParsed(toks, Before(items, k), items[k], After(items, k + 1), read, acc);
        if !items[k].form.Jumble? && read(items[k].value).Some? {
          ParseItems(items, k + 1, read, acc[items[k].key := read(items[k].value).value]);
        }
      } else {
        LineToken(items[k]);
        ParseLine(toks, p, read, acc);
        ParseItems(items, k + 1, read, acc);
      }
    }
  }

  lemma ShapedNumber(items: seq<Item>, k: nat)
    requires Shaped(items) && k < |items| && items[k].Entry?
    ensures items[k].form.Numeral? ==> Canonical(items[k].key)
  {
    hide ValueOk, Canonical;
  }

  lemma BraceLast(items: seq<Item>)
    ensures |ObjectTokens(items)| == |Before(items, |items|)| + 1
    ensures ObjectTokens(items)[|Before(items, |items|)|] == CBrace
  {
    hide Flat;
    assert items[..|items|] == items;
  }

  lemma ParseEnd<V>(toks: Tokens, p: nat, read: Tokens -> Option<V>, acc: map<string, V>)
    requires p + 1 == |toks| && toks[p] == CBrace
    ensures ParseFrom(toks, p, read, acc) == Some(acc)
  {
    hide FirstStop, KeyOf;
  }

  lemma ParseLine<V>(toks: Tokens, p: nat, read: Tokens -> Option<V>, acc: map<string, V>)
    requires p < |toks| && (toks[p].Newline? || toks[p].Comment?)
    ensures ParseFrom(toks, p, read, acc) == ParseFrom(toks, p + 1, read, acc)
  {
    hide FirstStop, KeyOf;
  }

  lemma ParseEntry<V>(toks: Tokens, p: nat, read: Tokens -> Option<V>, acc: map<string, V>, key: string, v: Tokens, from: nat)
    requires p < from && from + |v| < |toks| && (toks[p].Ident? || toks[p].OQuote? || toks[p].NumberLit?)
    requires KeyOf(toks, p) == Some(Name(key, from)) && FirstStop(toks, from, from) == from + |v|
    requires toks[from..from + |v|] == v
    ensures ParseFrom(toks, p, read, acc) ==
            if read(v).None? then None
            else ParseFrom(toks, from + |v| + (if Closes(toks[from + |v|]) then 0 else 1), read, acc[key := read(v).value])
  {
    hide FirstStop, KeyOf, Closes;
  }

  lemma DeclaredEnd<V>(items: seq<Item>, read: Tokens -> Option<V>, acc: map<string, V>)
    ensures Declared(items, |items|, read, acc) == Some(acc)
  {}

  lemma DeclaredStep<V>(items: seq<Item>, k: nat, read: Tokens -> Option<V>, acc: map<string, V>)
    requires k < |items|
    ensures Declared(items, k, read, acc) ==
            if !items[k].Entry? then Declared(items, k + 1, read, acc)
            else if items[k].form.Jumble? || read(items[k].value).None? then None
            else Declared(items, k + 1, read, acc[items[k].key := read(items[k].value).value])
  {}

  lemma {:induction false} EntryParsed<V>(toks: Tokens, pre: Tokens, e: Item, post: Tokens, read: Tokens -> Option<V>, acc: map<string, V>)
    requires e.Entry? && ValueOk(e.value) && pre != [] && Parts(toks, pre, ItemTokens(e), post)
    requires e.term.Open? ==> post != [] && Closes(post[0])
    requires e.form.Numeral? ==> Canonical(e.key)
    ensures |pre| + |ItemTokens(e)| <= |toks|
    ensures ParseFrom(toks, |pre|, read, acc) ==
            if e.form.Jumble? || read(e.value).None? then None
            else ParseFrom(toks, |pre| + |ItemTokens(e)|, read, acc[e.key := read(e.value).value])
  {
    hide *;
    var k := |KeyTokens(e.key, e.form)| + 1;
    PartsLength(toks, pre, ItemTokens(e), post);
    ValueEnds(e.value);
    EntryTokens(e);
    EntryStops(toks, pre, e, post, e.key);
    KeyOfAt(toks, pre, e, post);
    if e.form.Jumble? {
      ParseNoKey(toks, |pre|, read, acc);
    } else {
      ValueSlice(toks, pre, e, post);
      ParseEntry(toks, |pre|, read, acc, e.key, e.value, |pre| + k);
    }
  }

  lemma ParseNoKey<V>(toks: Tokens, p: nat, read: Tokens -> Option<V>, acc: map<string, V>)
    requires p < |toks| && toks[p].NumberLit? && KeyOf(toks, p).None?
    ensures ParseFrom(toks, p, read, acc) == None
  {
    hide FirstStop, KeyOf;
  }

  lemma KeyOfAt(toks: Tokens, pre: Tokens, e: Item, post: Tokens)
    requires e.Entry? && ValueOk(e.value) && Parts(toks, pre, ItemTokens(e), post) && pre != []
    requires e.form.Numeral? ==> Canonical(e.key)
    ensures |pre| < |toks| && (toks[|pre|].Ident? || toks[|pre|].OQuote? || toks[|pre|].NumberLit?)
    ensures e.form.Jumble? ==> toks[|pre|].NumberLit?
    ensures KeyOf(toks, |pre|) ==
            if e.form.Jumble? then None else Some(Name(e.key, |pre| + (|KeyTokens(e.key, e.form)| + 1)))
  {
    hide *;
    EntryTokens(e);
    ValueEnds(e.value);
    KeyAt(toks, pre, e, post, e.key);
    PartsLength(toks, pre, ItemTokens(e), post);
    Inside(toks, pre, ItemTokens(e), post, 0);
    Inside(toks, pre, ItemTokens(e), post, 1);
    match e.form {
      case Bare | Quoted =>
        NamedIs(e, e.key);
        KeyOfIs(toks, |pre|, e.key);
      case Numeral(zeros) =>
        ValueZeros(zeros, e.key);
        KeyOfNumber(toks, |pre|);
      case Jumble(_) =>
        KeyOfNumber(toks, |pre|);
    }
  }

  lemma KeyOfNumber(toks: Tokens, p: nat)
    requires p + 1 < |toks| && toks[p].NumberLit?
    ensures KeyOf(toks, p) ==
            if toks[p + 1] == Equal || toks[p + 1] == Colon then Some(Name(ValueOf(toks[p].digits), p + 2)) else None
  {
    hide ValueOf, KeyEnd;
  }

  lemma {:induction false} ValueZeros(zeros: nat, key: string)
    requires Canonical(key)
    ensures ValueOf(Zeros(zeros) + key) == key
  {
    if zeros > 0 {
      ValueZeros(zeros - 1, key);
      assert (Zeros(zeros) + key)[1..] == Zeros(zeros - 1) + key;
    } else {
      assert Zeros(0) + key == key;
    }
  }

  lemma KeyOfIs(toks: Tokens, p: nat, key: string)
    requires p + 1 < |toks| && KeyEnd(toks, p, key).Some?
    requires toks[p] == Ident(key) || (toks[p] == OQuote && toks[p + 1] == QuotedLit(key))
    ensures KeyOf(toks, p) == Some(Name(key, KeyEnd(toks, p, key).value))
  {
    hide KeyEnd;
  }

  lemma ValueSlice(toks: Tokens, pre: Tokens, e: Item, post: Tokens)
    requires e.Entry? && Parts(toks, pre, ItemTokens(e), post)
    ensures var from := |pre| + (|KeyTokens(e.key, e.form)| + 1);
            from + |e.value| <= |toks| && toks[from..from + |e.value|] == e.value
  {
    hide *;
    EntryParts(e);
    Middle(toks, pre, HeadTokens(e), e.value, TermTokens(e.term), ItemTokens(e), post);
  }

  lemma Middle(toks: Tokens, pre: Tokens, head: Tokens, v: Tokens, tail: Tokens, seg: Tokens, post: Tokens)
    requires Parts(toks, pre, seg, post) && Parts(seg, head, v, tail)
    ensures |pre| + |head| + |v| <= |toks| && toks[|pre| + |head|..|pre| + |head| + |v|] == v
  {}

  // --- What an object declares -------------------------------------------------

  function KeysOf(items: seq<Item>): set<string> {
    if items == [] then {}
    else KeysOf(items[..|items| - 1]) + if items[|items| - 1].Entry? then {items[|items| - 1].key} else {}
  }

  /** m is what the items declare: one Worker for each entry, as its value reads. */
  ghost predicate Holds<V>(items: seq<Item>, read: Tokens -> Option<V>, m: map<string, V>) {
    && m.Keys == KeysOf(items)
    && forall i | 0 <= i < |items| && items[i].Entry? :: items[i].key in m && read(items[i].value) == Some(m[items[i].key])
  }

  lemma {:induction false} KeyFound(items: seq<Item>, name: string) returns (k: nat)
    requires name in KeysOf(items)
    ensures k < |items| && items[k].Entry? && items[k].key == name
  {
    var n := |items| - 1;
    if items[n].Entry? && items[n].key == name {
      k := n;
    } else {
      k := KeyFound(items[..n], name);
    }
  }

  lemma {:induction false} KeyIn(items: seq<Item>, k: nat)
    requires k < |items| && items[k].Entry?
    ensures items[k].key in KeysOf(items)
    decreases |items|
  {
    if k < |items| - 1 {
      KeyIn(items[..|items| - 1], k);
    }
  }

  lemma {:induction false} KeysAppend(a: seq<Item>, b: seq<Item>)
    ensures KeysOf(a + b) == KeysOf(a) + KeysOf(b)
  {
    if b == [] {
      assert a + b == a;
    } else {
      assert (a + b)[..|a + b| - 1] == a + b[..|b| - 1];
      KeysAppend(a, b[..|b| - 1]);
    }
  }

  lemma {:induction false} NoKeys(items: seq<Item>)
    requires forall i | 0 <= i < |items| :: !items[i].Entry?
    ensures KeysOf(items) == {}
  {
    if items != [] {
      NoKeys(items[..|items| - 1]);
    }
  }

  /** Declared from k on agrees with Holds when acc is what the items before k declare. */
  lemma {:induction false} DeclaredHolds<V>(items: seq<Item>, k: nat, read: Tokens -> Option<V>, acc: map<string, V>)
    requires Unique(items) && k <= |items| && Holds(items[..k], read, acc)
    requires forall i | 0 <= i < |items| && items[i].Entry? :: !items[i].form.Jumble?
    ensures var r := Declared(items, k, read, acc);
            if r.Some? then Holds(items, read, r.value)
            else exists i :: 0 <= i < |items| && items[i].Entry? && read(items[i].value).None?
    decreases |items| - k
  {
    hide KeysOf, Holds;
    if k == |items| {
      assert items[..k] == items;
    } else if items[k].Entry? && read(items[k].value).None? {
    } else {
      var next := if items[k].Entry? then acc[items[k].key := read(items[k].value).value] else acc;
      HoldsStep(items, k, read, acc, next);
      DeclaredHolds(items, k + 1, read, next);
    }
  }

  lemma HoldsStep<V>(items: seq<Item>, k: nat, read: Tokens -> Option<V>, acc: map<string, V>, next: map<string, V>)
    requires Unique(items) && k < |items| && Holds(items[..k], read, acc)
    requires if items[k].Entry? then read(items[k].value).Some? && next == acc[items[k].key := read(items[k].value).value]
             else next == acc
    ensures Holds(items[..k + 1], read, next)
  {
    var s := items[..k + 1];
    assert s[..|s| - 1] == items[..k];
    forall i | 0 <= i < |s| && s[i].Entry?
      ensures s[i].key in next && read(s[i].value) == Some(next[s[i].key])
    {
      if i < k {
        assert items[..k][i] == s[i];
      }
    }
  }

  lemma HoldsOnce<V>(items: seq<Item>, read: Tokens -> Option<V>, m: map<string, V>, n: map<string, V>)
    requires Holds(items, read, m) && Holds(items, read, n)
    ensures m == n
  {
    hide KeysOf;
    assert m.Keys == n.Keys;
    forall name | name in m.Keys
      ensures m[name] == n[name]
    {
      var k := KeyFound(items, name);
    }
  }

  /** The first entry, or |items|. */
  function FirstEntry(items: seq<Item>): (f: nat)
    ensures f <= |items| && (f < |items| ==> items[f].Entry?) && forall i | 0 <= i < f :: !items[i].Entry?
  {
    if items == [] || items[0].Entry? then 0 else 1 + FirstEntry(items[1..])
  }

  /** The first entry has the bare key for. */
  predicate ForFirst(items: seq<Item>) {
    var f := FirstEntry(items);
    f < |items| && items[f].form.Bare? && items[f].key == "for"
  }

  lemma {:induction false} LeadFound(items: seq<Item>, k: nat)
    requires k <= FirstEntry(items)
    ensures 1 <= |Before(items, k)| <= |ObjectTokens(items)|
    ensures Lead(ObjectTokens(items), 1) == Lead(ObjectTokens(items), |Before(items, k)|)
  {
    hide *;
    var toks := ObjectTokens(items);
    BraceFirst(items, "");
    if k > 0 {
      LeadFound(items, k - 1);
      ObjectSplit(items, k - 1);
      BeforeLength(items, k);
      BeforeSome(items, k - 1);
      LineToken(items[k - 1]);
      PartsLength(toks, Before(items, k - 1), ItemTokens(items[k - 1]), After(items, k));
      Inside(toks, Before(items, k - 1), ItemTokens(items[k - 1]), After(items, k), 0);
      LeadStep(toks, |Before(items, k - 1)|);
    }
  }

  lemma LeadStep(toks: Tokens, i: nat)
    requires i < |toks|
    ensures Lead(toks, i) == if toks[i].Newline? || toks[i].Comment? then Lead(toks, i + 1) else i
  {}

  lemma {:induction false} ForRead(items: seq<Item>)
    ensures IsFor(ObjectTokens(items)) <==> ForFirst(items)
  {
    hide *;
    var toks, f := ObjectTokens(items), FirstEntry(items);
    LeadFound(items, f);
    var p := |Before(items, f)|;
    if f == |items| {
      BraceLast(items);
    } else {
      ObjectSplit(items, f);
      BeforeSome(items, f);
      EntryTokens(items[f]);
      PartsLength(toks, Before(items, f), ItemTokens(items[f]), After(items, f + 1));
      Inside(toks, Before(items, f), ItemTokens(items[f]), After(items, f + 1), 0);
    }
    LeadStep(toks, p);
    ForIs(items, toks);
  }

  lemma ForIs(items: seq<Item>, toks: Tokens)
    ensures IsFor(toks) <==> |toks| > 1 && Lead(toks, 1) < |toks| && toks[Lead(toks, 1)] == Ident("for")
    ensures var f := FirstEntry(items);
            ForFirst(items) <==> f < |items| && items[f].form.Bare? && items[f].key == "for"
  {
    hide Lead, FirstEntry;
  }

  lemma {:induction false} ParseDeclared<V>(items: seq<Item>, read: Tokens -> Option<V>)
    requires Shaped(items)
    ensures Parse(ObjectTokens(items), read) == if ForFirst(items) then None else Declared(items, 0, read, map[])
  {
    hide ItemTokens, ValueOk, ParseFrom, Declared, Flat, Shaped, IsFor, ForFirst;
    ParseItems(items, 0, read, map[]);
    assert |Before(items, 0)| == 1 by { BraceFirst(items, ""); }
    ForRead(items);
  }

  /** An object reads as m exactly when its items declare m and the word for does not come first. */
  lemma {:induction false} ParseObject<V>(items: seq<Item>, read: Tokens -> Option<V>, m: map<string, V>)
    requires Laid(items)
    ensures Parse(ObjectTokens(items), read) == Some(m) <==> Holds(items, read, m) && !ForFirst(items)
  {
    hide *;
    LaidIs(items);
    ParseDeclared(items, read);
    assert items[..0] == [];
    HoldsNone(items[..0], read);
    DeclaredHolds(items, 0, read, map[]);
    var r := Declared(items, 0, read, map[]);
    if Holds(items, read, m) {
      HoldsReads(items, read, m);
      if r.Some? {
        HoldsOnce(items, read, m, r.value);
      }
    }
  }

  /** What is declared comes from an entry or was there, and every key read. */
  lemma {:induction false} DeclaredFrom<V>(items: seq<Item>, k: nat, read: Tokens -> Option<V>, acc: map<string, V>)
    requires k <= |items|
    ensures var r := Declared(items, k, read, acc);
            r.Some? ==> r.value.Keys <= acc.Keys + KeysOf(items) && forall i | k <= i < |items| && items[i].Entry? :: !items[i].form.Jumble?
    decreases |items| - k
  {
    hide KeysOf;
    if k < |items| {
      if !items[k].Entry? {
        DeclaredFrom(items, k + 1, read, acc);
      } else if !items[k].form.Jumble? && read(items[k].value).Some? {
        KeyIn(items, k);
        DeclaredFrom(items, k + 1, read, acc[items[k].key := read(items[k].value).value]);
      }
    }
  }

  lemma HoldsNone<V>(items: seq<Item>, read: Tokens -> Option<V>)
    requires items == []
    ensures Holds(items, read, map[])
  {}

  lemma HoldsReads<V>(items: seq<Item>, read: Tokens -> Option<V>, m: map<string, V>)
    requires Holds(items, read, m)
    ensures forall i | 0 <= i < |items| && items[i].Entry? :: read(items[i].value).Some?
  {}

  // --- finish, With and Without ------------------------------------------------

  datatype Edit = Edited(toks: Tokens) | Known | Unknown | NotFound | Endless | Misread

  function DigitsEnd(s: string): (n: nat)
    ensures n <= |s| && (forall i | 0 <= i < n :: Digit(s[i])) && (n < |s| ==> !Digit(s[n]))
  {
    if s == "" || !Digit(s[0]) then 0 else 1 + DigitsEnd(s[1..])
  }

  /** The tokens HCL's scanner makes of a DNS label: an identifier does not begin with a digit. */
  function Scan(name: string): Tokens {
    if name == "" || !Digit(name[0]) then [Ident(name)]
    else
      var n := DigitsEnd(name);
      if n == |name| then [NumberLit(name)] else [NumberLit(name[..n]), Other(name[n..])]
  }

  /** The tokens of the printed text: every other token is scanned as it was. */
  function Rescan(toks: Tokens): Tokens {
    if toks == [] then []
    else
      var t := toks[|toks| - 1];
      Rescan(toks[..|toks| - 1]) + if t.Ident? then Scan(t.name) else [t]
  }

  /** Tokens as the scanner makes them. */
  ghost predicate Scanned(toks: Tokens) {
    forall t | t in toks && t.Ident? :: t.name == "" || !Digit(t.name[0])
  }

  /** finish: the edited tokens as the written file has them, if they read as the intended Workers. */
  function Finish<V(==)>(out: Tokens, read: Tokens -> Option<V>, want: map<string, V>): Edit {
    var toks := Rescan(out);
    if Parse(toks, read) == Some(want) then Edited(toks) else Misread
  }

  /** What Without answers; workers is what the file held when it was read. */
  function WithoutOf<V(==)>(toks: Tokens, workers: map<string, V>, name: string, read: Tokens -> Option<V>): Edit {
    if name !in workers then Unknown
    else match SpanOf(toks, name)
      case NoEntry => NotFound
      case NoEnd => Endless
      case Span(start, end) => Finish(toks[..start] + toks[end..], read, workers - {name})
  }

  method Without<V(==)>(toks: Tokens, workers: map<string, V>, name: string, read: Tokens -> Option<V>) returns (r: Edit)
    ensures r == WithoutOf(toks, workers, name, read)
  {
    if name !in workers {
      return Unknown;
    }
    var span := EntrySpan(toks, name);
    match span {
      case NoEntry => r := NotFound;
      case NoEnd => r := Endless;
      case Span(start, end) =>
        var out := toks[..start] + toks[end..];
        r := Finish(out, read, workers - {name});
    }
  }

  /** What With answers: the entry goes last, on a line of its own. value is HCL's rendering of the Worker. */
  function WithOf<V(==)>(toks: Tokens, workers: map<string, V>, name: string, w: V, value: Tokens, read: Tokens -> Option<V>): Edit
    requires |toks| >= 2
  {
    if name in workers then Known
    else Finish(Lined(toks[..|toks| - 1]) + Written(name, value) + [toks[|toks| - 1]], read, workers[name := w])
  }

  /** The new entry's tokens: the name as one identifier, whatever it is. */
  function Written(name: string, value: Tokens): Tokens {
    [Ident(name), Equal] + value + [Newline]
  }

  method With<V(==)>(toks: Tokens, workers: map<string, V>, name: string, w: V, value: Tokens, read: Tokens -> Option<V>)
      returns (r: Edit)
    requires |toks| >= 2
    ensures r == WithOf(toks, workers, name, w, value, read)
  {
    if name in workers {
      return Known;
    }
    var entry := [Ident(name), Equal];
    entry := entry + value;
    entry := entry + [Newline];
    assert entry == Written(name, value);
    var last := |toks| - 1;
    var out := toks[..last];
    if out[|out| - 1] != Newline {
      out := out + [Newline];
    }
    out := out + entry + [toks[last]];
    r := Finish(out, read, workers[name := w]);
  }

  function Lined(toks: Tokens): Tokens
    requires toks != []
  {
    if toks[|toks| - 1] != Newline then toks + [Newline] else toks
  }

  // --- Without removes exactly its entry ------------------------------------------

  /** The entry above, its end-of-line comment lost, run together with the entry below. */
  function Fused(a: Item, b: Item): Item
    requires a.Entry? && b.Entry?
  {
    a.(value := a.value + HeadTokens(b) + b.value, term := b.term)
  }

  /** Without's readback refuses: the comment it takes too was what kept two entries apart. */
  predicate Runs(items: seq<Item>, k: nat)
    requires k < |items|
  {
    NoteAbove(items, k) && k + 1 < |items| && items[k + 1].Entry?
  }

  /** The entry above as it is left when its end-of-line comment is gone. */
  function Ending(items: seq<Item>, k: nat): (e: Item)
    requires k < |items| && NoteAbove(items, k)
    ensures var i := items[NotesFrom(items, k) - 1];
            e.Entry? && e.key == i.key && e.form == i.form && (!Runs(items, k) ==> e.value == i.value)
  {
    var e := items[NotesFrom(items, k) - 1];
    if k + 1 == |items| then e.(term := Open)
    else match items[k + 1]
      case Blank => e.(term := ByNewline)
      case Note(text) => e.(term := ByComment(text))
      case Entry(_, _, _, _, _) => Fused(e, items[k + 1])
  }

  /**
   * The items whose tokens Without leaves. When the end-of-line comment above goes too, the
   * entry above it is ended by what comes next instead: the object's brace, a blank line, a
   * comment, or nothing at all when that is another entry.
   */
  function Rest(items: seq<Item>, k: nat): seq<Item>
    requires k < |items|
  {
    if !NoteAbove(items, k) then Left(items, k)
    else
      items[..NotesFrom(items, k) - 1] + [Ending(items, k)] + if k + 1 == |items| then [] else items[k + 2..]
  }

  lemma RestTokens(items: seq<Item>, k: nat)
    requires k < |items|
    ensures ObjectTokens(Rest(items, k)) == ObjectTokens(if NoteAbove(items, k) then Glued(items, k) else Left(items, k))
  {
    if NoteAbove(items, k) {
      var n := NotesFrom(items, k);
      var a, o, b := items[..n - 1], items[n - 1].(term := Open), items[k + 1..];
      GluedIs(items, k);
      if k + 1 == |items| {
        hide NotesFrom, NoteAbove, ItemTokens, Flat;
        assert b == [];
      } else {
        var c := items[k + 2..];
        assert b == [items[k + 1]] + c;
        FusedTokens(items[n - 1], items[k + 1]);
        var f := Ending(items, k);
        assert ItemTokens(o) + ItemTokens(items[k + 1]) == ItemTokens(f) by { hide ItemTokens; }
        hide ItemTokens, Flat, Fused, NotesFrom, NoteAbove, Ending;
        SameFlat(a, o, items[k + 1], f, c);
      }
    }
  }

  lemma FusedTokens(e: Item, i: Item)
    requires e.Entry?
    ensures ItemTokens(e.(term := Open)) + ItemTokens(i) ==
            ItemTokens(match i
              case Blank => e.(term := ByNewline)
              case Note(text) => e.(term := ByComment(text))
              case Entry(_, _, _, _, _) => Fused(e, i))
  {
    hide *;
    var o := e.(term := Open);
    EntryParts(o);
    OpenHead(e);
    match i {
      case Blank =>
        EntryParts(e.(term := ByNewline));
        OpenHead(e.(term := ByNewline));
      case Note(text) =>
        EntryParts(e.(term := ByComment(text)));
        OpenHead(e.(term := ByComment(text)));
      case Entry(_, _, _, _, _) =>
        EntryParts(i);
        FusedIs(e, i);
        EntryParts(Fused(e, i));
        Regroup5(HeadTokens(e), e.value, HeadTokens(i), i.value, TermTokens(i.term));
    }
    LineTokens(i);
  }

  lemma OpenHead(e: Item)
    requires e.Entry?
    ensures HeadTokens(e) == HeadTokens(e.(term := Open)) && TermTokens(Open) == []
  {}

  lemma FusedIs(a: Item, b: Item)
    requires a.Entry? && b.Entry?
    ensures var f := Fused(a, b);
            f.Entry? && f.value == a.value + HeadTokens(b) + b.value && f.term == b.term && HeadTokens(f) == HeadTokens(a)
  {}

  lemma LineTokens(i: Item)
    ensures i.Blank? ==> ItemTokens(i) == [Newline] == TermTokens(ByNewline)
    ensures i.Note? ==> ItemTokens(i) == [Comment(i.text, true)] == TermTokens(ByComment(i.text))
  {}

  lemma Regroup5(a: Tokens, b: Tokens, c: Tokens, d: Tokens, e: Tokens)
    ensures (a + (b + [])) + (c + (d + e)) == a + ((b + c + d) + e)
  {}

  lemma SameFlat(a: seq<Item>, o: Item, i: Item, f: Item, c: seq<Item>)
    requires ItemTokens(o) + ItemTokens(i) == ItemTokens(f)
    ensures ObjectTokens(a + [o] + ([i] + c)) == ObjectTokens(a + [f] + c)
  {
    hide ItemTokens, Flat;
    FlatOne(a, f, c);
    FlatOne(a + [o], i, c);
    assert a + [o] + ([i] + c) == a + [o] + [i] + c;
    FlatOne(a, o, []);
    assert a + [o] + [] == a + [o];
    assert Flat([]) == [] by { FlatNone(); }
    Reassoc(Flat(a), ItemTokens(o), ItemTokens(i), Flat(c));
  }

  lemma FlatNone()
    ensures Flat([]) == []
  {}

  lemma Reassoc(a: Tokens, b: Tokens, c: Tokens, d: Tokens)
    ensures (a + b + []) + c + d == a + (b + c) + d
  {}

  /** Two values with a key between them are one run without a line end. */
  lemma {:induction false} FusedValue(v: Tokens, e: Item)
    requires ValueOk(v) && e.Entry? && ValueOk(e.value)
    ensures ValueOk(v + HeadTokens(e) + e.value)
  {
    var h, w := HeadTokens(e), e.value;
    var all := v + h + w;
    assert Parts(all, v, h, w);
    forall m | 0 <= m < |all|
      ensures Depth(all, m) >= 0 && (Depth(all, m) == 0 ==> Plain(all[m]))
    {
      FusedAt(all, v, e, m);
    }
    FusedDepth(all, v, e, |all|);
    ValueEnds(w);
    hide Depth, HeadTokens;
  }

  lemma FusedAt(all: Tokens, v: Tokens, e: Item, m: nat)
    requires ValueOk(v) && e.Entry? && ValueOk(e.value) && Parts(all, v, HeadTokens(e), e.value) && m < |all|
    ensures Depth(all, m) >= 0 && (Depth(all, m) == 0 ==> Plain(all[m]))
  {
    hide *;
    FusedDepth(all, v, e, m);
    PartsAt(all, v, HeadTokens(e), e.value, m);
    var h := HeadTokens(e);
    if m < |v| {
      ValueAt(v, m);
    } else if m < |v| + |h| {
      HeadPlain(e, m - |v|);
    } else {
      ValueAt(e.value, m - |v| - |h|);
    }
  }

  lemma PartsAt(toks: Tokens, pre: Tokens, seg: Tokens, post: Tokens, m: nat)
    requires Parts(toks, pre, seg, post) && m < |toks|
    ensures |toks| == |pre| + |seg| + |post|
    ensures toks[m] == if m < |pre| then pre[m] else if m < |pre| + |seg| then seg[m - |pre|] else post[m - |pre| - |seg|]
  {}

  lemma ValueAt(v: Tokens, m: nat)
    requires ValueOk(v) && m < |v|
    ensures Depth(v, m) >= 0 && (Depth(v, m) == 0 ==> Plain(v[m]))
  {
    hide Depth;
  }

  lemma HeadPlain(e: Item, m: nat)
    requires e.Entry? && m < |HeadTokens(e)|
    ensures Plain(HeadTokens(e)[m])
  {}

  lemma FusedDepth(all: Tokens, v: Tokens, e: Item, m: nat)
    requires ValueOk(v) && e.Entry? && Parts(all, v, HeadTokens(e), e.value) && m <= |all|
    ensures var h := |HeadTokens(e)|;
            |all| == |v| + h + |e.value| &&
            Depth(all, m) == if m < |v| then Depth(v, m) else if m < |v| + h then 0 else Depth(e.value, m - |v| - h)
  {
    hide *;
    var h := HeadTokens(e);
    PartsLength(all, v, h, e.value);
    ValueEnds(v);
    HeadDepth(e, |h|);
    if m < |v| {
      Regroup(all, v, h, e.value);
      DepthBefore(all, v, h + e.value, m);
    } else if m < |v| + |h| {
      NextDepthIn(all, v, h, e.value, m - |v|);
      HeadDepth(e, m - |v|);
    } else {
      LastDepth(all, v, h, e.value, m - |v| - |h|);
    }
  }

  lemma LastDepth(toks: Tokens, pre: Tokens, seg: Tokens, post: Tokens, m: nat)
    requires Parts(toks, pre, seg, post) && m <= |post|
    ensures Depth(toks, |pre| + |seg| + m) == Depth(pre, |pre|) + Depth(seg, |seg|) + Depth(post, m)
  {
    hide Depth;
    WholeDepth(pre + seg, pre, seg);
    DepthAfter(toks, pre + seg, post, m);
    assert |pre + seg| == |pre| + |seg|;
  }

  // Where an item of Rest comes from.

  function Source(items: seq<Item>, k: nat, j: nat): nat
    requires k < |items|
  {
    var n := NotesFrom(items, k);
    if j < n then j else j + (k + 1 - n) + if NoteAbove(items, k) then 1 else 0
  }

  lemma RestSource(items: seq<Item>, k: nat, j: nat)
    requires k < |items| && items[k].Entry? && j < |Rest(items, k)|
    ensures var i, r := Source(items, k, j), Rest(items, k)[j];
            && i < |items| && i != k && !(Runs(items, k) && i == k + 1)
            && r.Entry? == items[i].Entry?
            && (r.Entry? ==> r.key == items[i].key && r.form == items[i].form)
            && (r.Entry? && !(Runs(items, k) && j == NotesFrom(items, k) - 1) ==> r.value == items[i].value)
  {
    hide *;
    var n := NotesFrom(items, k);
    RestLength(items, k);
    RestIs(items, k);
    RunsAre(items, k);
    if !NoteAbove(items, k) {
      LeftAt(items, n, k, j);
    } else {
      EndingIs(items, k);
      if k + 1 == |items| {
        SpliceAt(items, n, Ending(items, k), [], j);
      } else {
        SpliceAt(items, n, Ending(items, k), items[k + 2..], j);
      }
    }
  }

  lemma RestIs(items: seq<Item>, k: nat)
    requires k < |items|
    ensures var n := NotesFrom(items, k);
            && n <= k && (NoteAbove(items, k) ==> n > 0)
            && Rest(items, k) == (if !NoteAbove(items, k) then items[..n] + items[k + 1..]
                                  else items[..n - 1] + [Ending(items, k)] + if k + 1 == |items| then [] else items[k + 2..])
            && (forall j: nat :: Source(items, k, j) == if j < n then j else j + (k + 1 - n) + if NoteAbove(items, k) then 1 else 0)
  {
    hide Ending, Fused;
  }

  lemma RunsAre(items: seq<Item>, k: nat)
    requires k < |items|
    ensures Runs(items, k) <==> NoteAbove(items, k) && k + 1 < |items| && items[k + 1].Entry?
  {
    hide NoteAbove;
  }

  lemma EndingIs(items: seq<Item>, k: nat)
    requires k < |items| && NoteAbove(items, k)
    ensures var n, e := NotesFrom(items, k), Ending(items, k);
            && n > 0 && items[n - 1].Entry? && e.Entry? && e.key == items[n - 1].key && e.form == items[n - 1].form
            && (!Runs(items, k) ==> e.value == items[n - 1].value)
  {
    hide Ending, Fused, Runs;
    NoteAboveIs(items, k);
  }

  lemma LeftAt(items: seq<Item>, n: nat, k: nat, j: nat)
    requires n <= k < |items| && j < n + (|items| - k - 1)
    ensures (items[..n] + items[k + 1..])[j] == if j < n then items[j] else items[j + (k + 1 - n)]
  {}

  lemma SpliceAt(items: seq<Item>, n: nat, e: Item, c: seq<Item>, j: nat)
    requires 0 < n <= |items| && j < n + |c|
    ensures (items[..n - 1] + [e] + c)[j] == if j < n - 1 then items[j] else if j == n - 1 then e else c[j - n]
  {}

  lemma RestLength(items: seq<Item>, k: nat)
    requires k < |items|
    ensures |Rest(items, k)| == NotesFrom(items, k) + (|items| - k - 1) -
            if NoteAbove(items, k) && k + 1 < |items| then 1 else 0
  {
    hide Fused;
  }

  lemma {:induction false} RestLaid(items: seq<Item>, k: nat)
    requires Laid(items) && k < |items| && items[k].Entry?
    ensures Laid(Rest(items, k))
  {
    hide *;
    var r := Rest(items, k);
    forall j | 0 <= j < |r| && r[j].Entry?
      ensures EntryOk(r, j)
    {
      RestEntry(items, k, j);
    }
    forall i, j | 0 <= i < j < |r| && r[i].Entry? && r[j].Entry?
      ensures r[i].key != r[j].key
    {
      RestSource(items, k, i);
      RestSource(items, k, j);
      SourceGrows(items, k, i, j);
      LaidUnique(items, Source(items, k, i), Source(items, k, j));
    }
    LaidIf(r);
  }

  ghost predicate EntryOk(items: seq<Item>, i: nat)
    requires i < |items| && items[i].Entry?
  {
    && ValueOk(items[i].value) && (items[i].term.Open? ==> i == |items| - 1)
    && !items[i].form.Jumble? && (items[i].form.Numeral? ==> Canonical(items[i].key))
  }

  lemma LaidIf(items: seq<Item>)
    requires forall i | 0 <= i < |items| && items[i].Entry? :: EntryOk(items, i)
    requires forall i, j | 0 <= i < j < |items| && items[i].Entry? && items[j].Entry? :: items[i].key != items[j].key
    ensures Laid(items)
  {
    hide ValueOk;
  }

  /** An entry is as good in another place, with another end. */
  lemma EntryMoves(a: seq<Item>, i: nat, b: seq<Item>, j: nat)
    requires i < |a| && a[i].Entry? && EntryOk(a, i) && j < |b| && b[j].Entry?
    requires b[j].value == a[i].value && b[j].key == a[i].key && b[j].form == a[i].form
    requires b[j].term.Open? ==> j == |b| - 1
    ensures EntryOk(b, j)
  {
    hide ValueOk, Canonical;
  }

  lemma LaidUnique(items: seq<Item>, i: nat, j: nat)
    requires Laid(items) && i < |items| && j < |items| && i != j && items[i].Entry? && items[j].Entry?
    ensures items[i].key != items[j].key
  {
    hide ValueOk;
  }

  lemma LaidEntry(items: seq<Item>, i: nat)
    requires Laid(items) && i < |items| && items[i].Entry?
    ensures EntryOk(items, i)
    ensures ValueOk(items[i].value) && (items[i].term.Open? ==> i == |items| - 1)
  {
    hide ValueOk;
  }

  lemma SourceGrows(items: seq<Item>, k: nat, i: nat, j: nat)
    requires k < |items| && i < j
    ensures Source(items, k, i) < Source(items, k, j)
  {}

  lemma RestEntry(items: seq<Item>, k: nat, j: nat)
    requires Laid(items) && k < |items| && items[k].Entry? && j < |Rest(items, k)| && Rest(items, k)[j].Entry?
    ensures EntryOk(Rest(items, k), j)
  {
    hide ValueOk, Laid, HeadTokens, NotesFrom;
    var n := NotesFrom(items, k);
    RestLength(items, k);
    RestSource(items, k, j);
    LaidEntry(items, Source(items, k, j));
    if NoteAbove(items, k) && j == n - 1 && k + 1 < |items| && items[k + 1].Entry? {
      LaidEntry(items, k + 1);
      FusedValue(items[n - 1].value, items[k + 1]);
    }
  }

  /** Every other entry is still there, but for the one that ran into the entry above. */
  lemma RestKeeps(items: seq<Item>, k: nat, i: nat) returns (j: nat)
    requires k < |items| && items[k].Entry? && i < |items| && items[i].Entry? && i != k && !Runs(items, k)
    ensures j < |Rest(items, k)| && Source(items, k, j) == i
    ensures Rest(items, k)[j].Entry? && Rest(items, k)[j].key == items[i].key
  {
    hide Fused;
    var n := NotesFrom(items, k);
    j := if i < n then i else i - (k + 1 - n) - if NoteAbove(items, k) then 1 else 0;
  }

  lemma {:induction false} RestKeys(items: seq<Item>, k: nat)
    requires Laid(items) && k < |items| && items[k].Entry?
    ensures !Runs(items, k) ==> KeysOf(Rest(items, k)) == KeysOf(items) - {items[k].key}
    ensures Runs(items, k) ==> items[k + 1].key !in KeysOf(Rest(items, k))
  {
    hide *;
    var r, name := Rest(items, k), items[k].key;
    if Runs(items, k) {
      RunsIs(items, k);
    }
    forall key | key in KeysOf(r)
      ensures key in KeysOf(items) && key != name && (Runs(items, k) ==> key != items[k + 1].key)
    {
      var j := KeyFound(r, key);
      RestSource(items, k, j);
      var i := Source(items, k, j);
      KeyIn(items, i);
      LaidUnique(items, i, k);
      if Runs(items, k) {
        LaidUnique(items, i, k + 1);
      }
    }
    if !Runs(items, k) {
      forall key | key in KeysOf(items) && key != name
        ensures key in KeysOf(r)
      {
        var i := KeyFound(items, key);
        var j := RestKeeps(items, k, i);
        KeyIn(r, j);
      }
    }
  }

  lemma RunsIs(items: seq<Item>, k: nat)
    requires k < |items| && Runs(items, k)
    ensures k + 1 < |items| && items[k + 1].Entry?
  {}

  lemma {:induction false} RestHolds<V>(items: seq<Item>, k: nat, read: Tokens -> Option<V>, m: map<string, V>)
    requires Laid(items) && k < |items| && items[k].Entry? && !Runs(items, k) && Holds(items, read, m)
    ensures Holds(Rest(items, k), read, m - {items[k].key})
  {
    hide *;
    var r, name := Rest(items, k), items[k].key;
    RestKeys(items, k);
    HoldsKeys(items, read, m);
    forall j | 0 <= j < |r| && r[j].Entry?
      ensures r[j].key in m - {name} && read(r[j].value) == Some((m - {name})[r[j].key])
    {
      RestSource(items, k, j);
      LaidUnique(items, Source(items, k, j), k);
      HoldsAt(items, read, m, Source(items, k, j));
    }
    HoldsIf(r, read, m - {name});
  }

  lemma HoldsKeys<V>(items: seq<Item>, read: Tokens -> Option<V>, m: map<string, V>)
    requires Holds(items, read, m)
    ensures m.Keys == KeysOf(items)
  {
    hide KeysOf;
  }

  lemma HoldsAt<V>(items: seq<Item>, read: Tokens -> Option<V>, m: map<string, V>, i: nat)
    requires Holds(items, read, m) && i < |items| && items[i].Entry?
    ensures items[i].key in m && read(items[i].value) == Some(m[items[i].key])
  {
    hide KeysOf;
  }

  lemma HoldsIf<V>(items: seq<Item>, read: Tokens -> Option<V>, m: map<string, V>)
    requires m.Keys == KeysOf(items)
    requires forall i | 0 <= i < |items| && items[i].Entry? :: items[i].key in m && read(items[i].value) == Some(m[items[i].key])
    ensures Holds(items, read, m)
  {
    hide KeysOf;
  }

  lemma {:induction false} RescanAppend(a: Tokens, b: Tokens)
    ensures Rescan(a + b) == Rescan(a) + Rescan(b)
  {
    hide Scan;
    if b == [] {
      assert a + b == a;
    } else {
      assert (a + b)[..|a + b| - 1] == a + b[..|b| - 1];
      RescanAppend(a, b[..|b| - 1]);
    }
  }

  lemma {:induction false} RescanSame(toks: Tokens)
    requires Scanned(toks)
    ensures Rescan(toks) == toks
  {
    hide Scan, Digit;
    if toks != [] {
      var init, t := toks[..|toks| - 1], toks[|toks| - 1];
      assert t in toks && forall u | u in init :: u in toks;
      RescanSame(init);
      if t.Ident? {
        ScanSame(t.name);
      }
      assert toks == init + [t];
    }
  }

  lemma ScanSame(name: string)
    requires name == "" || !Digit(name[0])
    ensures Scan(name) == [Ident(name)]
  {}

  lemma {:induction false} RescanScanned(toks: Tokens)
    ensures Scanned(Rescan(toks))
  {
    hide Digit, DigitsEnd;
    if toks != [] {
      RescanScanned(toks[..|toks| - 1]);
    }
  }

  /** The entry left first has the bare key for. */
  predicate ForNext(items: seq<Item>, k: nat)
    requires k < |items|
  {
    FirstEntry(items) == k && ForFirst(items[k + 1..])
  }

  /** Of an entry's first place in Rest, when no entry before it in items but k is left. */
  lemma FirstLeft(items: seq<Item>, k: nat, i: nat)
    requires k < |items| && items[k].Entry? && !Runs(items, k) && i < |items| && i != k && items[i].Entry?
    requires forall m | 0 <= m < i && m != k :: !items[m].Entry?
    ensures var r := Rest(items, k);
            FirstEntry(r) < |r| && r[FirstEntry(r)].key == items[i].key && r[FirstEntry(r)].form == items[i].form
  {
    hide *;
    var r := Rest(items, k);
    var j := RestKeeps(items, k, i);
    var g := FirstEntry(r);
    if g < j {
      RestSource(items, k, g);
      SourceGrows(items, k, g, j);
    }
    RestSource(items, k, j);
  }

  lemma NoneLeft(items: seq<Item>, k: nat)
    requires k < |items| && items[k].Entry? && forall i | 0 <= i < |items| && i != k :: !items[i].Entry?
    ensures FirstEntry(Rest(items, k)) == |Rest(items, k)|
  {
    hide *;
    var r := Rest(items, k);
    forall j | 0 <= j < |r|
      ensures !r[j].Entry?
    {
      RestSource(items, k, j);
    }
  }

  lemma {:induction false} ForRest(items: seq<Item>, k: nat)
    requires k < |items| && items[k].Entry? && !ForFirst(items) && !Runs(items, k)
    ensures ForFirst(Rest(items, k)) <==> ForNext(items, k)
  {
    hide Rest, Runs, ForFirst, FirstEntry;
    var r, f, rest := Rest(items, k), FirstEntry(items), items[k + 1..];
    if f < k {
      FirstLeft(items, k, f);
      ForSame(items, r);
    } else {
      var h := FirstEntry(rest);
      if h < |rest| {
        assert rest[h] == items[k + 1 + h];
        forall m | k < m < k + 1 + h
          ensures !items[m].Entry?
        {
          assert rest[m - k - 1] == items[m];
        }
        FirstLeft(items, k, k + 1 + h);
        ForSame(rest, r);
      } else {
        forall i | k < i < |items|
          ensures !items[i].Entry?
        {
          assert rest[i - k - 1] == items[i];
        }
        NoneLeft(items, k);
        NoFor(r);
        NoFor(rest);
      }
    }
  }

  lemma NoFor(items: seq<Item>)
    ensures FirstEntry(items) == |items| ==> !ForFirst(items)
  {
    hide FirstEntry;
  }

  lemma ForSame(a: seq<Item>, b: seq<Item>)
    requires FirstEntry(a) < |a| && FirstEntry(b) < |b|
    requires a[FirstEntry(a)].form == b[FirstEntry(b)].form && a[FirstEntry(a)].key == b[FirstEntry(b)].key
    ensures ForFirst(a) <==> ForFirst(b)
  {
    hide FirstEntry;
  }

  /**
   * Without finds no entry whose name is written as a number. Of every other entry it takes
   * the tokens up to the comments above it, and the readback refuses exactly when the entry
   * above ends in a comment on its own line and another entry follows, or when the entry
   * left first has the bare key for.
   */
  lemma {:induction false} WithoutExact<V>(items: seq<Item>, k: nat, workers: map<string, V>, read: Tokens -> Option<V>)
    requires Laid(items) && Scanned(ObjectTokens(items)) && Parse(ObjectTokens(items), read) == Some(workers)
    requires k < |items| && items[k].Entry?
    ensures items[k].key in workers
    ensures WithoutOf(ObjectTokens(items), workers, items[k].key, read) ==
            if items[k].form.Numeral? then NotFound
            else if Runs(items, k) || ForNext(items, k) then Misread
            else Edited(ObjectTokens(Rest(items, k)))
  {
    hide *;
    var toks, name, r := ObjectTokens(items), items[k].key, Rest(items, k);
    LaidIs(items);
    ParseObject(items, read, workers);
    HoldsAt(items, read, workers, k);
    WithoutIs(toks, workers, name, read);
    if items[k].form.Numeral? {
      NumberHidden(items, k);
    } else {
      NamedIs(items[k], name);
      WithoutTokens(items, name, k);
      RestTokens(items, k);
      RestLaid(items, k);
      RestKeys(items, k);
      ParseObject(r, read, workers - {name});
      CutScanned(toks, SpanOf(toks, name).start, SpanOf(toks, name).end);
      if Runs(items, k) {
        RunsIs(items, k);
        HoldsAt(items, read, workers, k + 1);
        LaidUnique(items, k, k + 1);
        if Holds(r, read, workers - {name}) {
          HoldsKeys(r, read, workers - {name});
        }
      } else {
        RestHolds(items, k, read, workers);
        ForRest(items, k);
      }
    }
  }

  lemma CutScanned(toks: Tokens, start: nat, end: nat)
    requires Scanned(toks) && start <= end <= |toks|
    ensures Rescan(toks[..start] + toks[end..]) == toks[..start] + toks[end..]
  {
    hide Rescan;
    assert forall t | t in toks[..start] + toks[end..] :: t in toks;
    RescanSame(toks[..start] + toks[end..]);
  }

  /** key looks for an identifier or a quoted string, so no token begins an entry written as a number. */
  lemma {:induction false} NumberHidden(items: seq<Item>, k: nat)
    requires Laid(items) && k < |items| && items[k].Entry? && items[k].form.Numeral?
    ensures SpanOf(ObjectTokens(items), items[k].key) == NoEntry
  {
    hide *;
    var toks, name := ObjectTokens(items), items[k].key;
    LaidIs(items);
    NumberOnly(items, k);
    NoHitBefore(items, name, |items|);
    BraceLast(items);
    BraceNoHit(toks, name, |toks| - 1);
    FirstHitSkips(toks, name, 0, |toks|);
    SpanNone(toks, name);
  }

  lemma NumberOnly(items: seq<Item>, k: nat)
    requires Unique(items) && k < |items| && items[k].Entry? && items[k].form.Numeral?
    ensures forall i | 0 <= i < |items| :: !Named(items[i], items[k].key)
  {}

  lemma BraceNoHit(toks: Tokens, name: string, i: nat)
    requires i < |toks| && toks[i] == CBrace
    ensures !Hit(toks, i, name)
  {
    hide Depth;
  }

  lemma SpanNone(toks: Tokens, name: string)
    ensures FirstHit(toks, name, 0) == |toks| ==> SpanOf(toks, name) == NoEntry
    ensures FirstHit(toks, name, |toks|) == |toks|
  {
    hide Hit, FirstStop, KeyEnd, CommentStart;
  }

  lemma WithoutIs<V>(toks: Tokens, workers: map<string, V>, name: string, read: Tokens -> Option<V>)
    ensures var s := SpanOf(toks, name);
            name in workers ==>
              (s.NoEntry? ==> WithoutOf(toks, workers, name, read) == NotFound) &&
              (s.Span? ==>
                var out := Rescan(toks[..s.start] + toks[s.end..]);
                WithoutOf(toks, workers, name, read) ==
                if Parse(out, read) == Some(workers - {name}) then Edited(out) else Misread)
  {
    hide SpanOf, Parse, Rescan;
  }

  // --- Which comments go ----------------------------------------------------------

  /** Item n begins a line: what is before it is on a line of its own or ends one. */
  predicate LineStart(items: seq<Item>, n: nat)
    requires n <= |items|
  {
    n > 0 && !(items[n - 1].Entry? && (items[n - 1].term.ByComma? || items[n - 1].term.Open?))
  }

  /** The first of the comments directly above item k that are on lines of their own. */
  function OwnFrom(items: seq<Item>, k: nat): (n: nat)
    requires k <= |items|
    ensures n <= k
    ensures forall i | n <= i < k :: items[i].Note? && LineStart(items, i)
  {
    var n := NotesFrom(items, k);
    if n < k && !LineStart(items, n) then n + 1 else n
  }

  /** The comments above entry k begin after a line end, or there are none, on its line or above. */
  predicate NotesApart(items: seq<Item>, k: nat)
    requires k <= |items|
  {
    !NoteAbove(items, k) && (NotesFrom(items, k) < k ==> LineStart(items, NotesFrom(items, k)))
  }

  /**
   * What an accepted Without leaves is the file without the entry and the own-line comments
   * directly above it if and only if those comments begin after a line end. Otherwise it
   * takes one comment more: the one that ends the line of the entry above, or that stands
   * behind its comma, or behind the object's brace.
   */
  lemma {:induction false} OwnNotesGo(items: seq<Item>, k: nat)
    requires Laid(items) && k < |items| && items[k].Entry?
    ensures NotesApart(items, k) <==>
            ObjectTokens(Rest(items, k)) == ObjectTokens(items[..OwnFrom(items, k)] + items[k + 1..])
    ensures !NotesApart(items, k) ==>
            |ObjectTokens(Rest(items, k))| + 1 == |ObjectTokens(items[..OwnFrom(items, k)] + items[k + 1..])|
  {
    hide *;
    var n := NotesFrom(items, k);
    OwnIs(items, k);
    RestTokens(items, k);
    LeftIs(items, k);
    LeftTokens(items, n, k);
    if NoteAbove(items, k) {
      NoteAboveIs(items, k);
      GluedTokens(items, n, k);
      GluedIs(items, k);
    } else if n < k && !LineStart(items, n) {
      BeforeLength(items, n + 1);
      NoteToken(items, n, k);
      LeftTokens(items, n + 1, k);
    }
  }

  lemma OwnIs(items: seq<Item>, k: nat)
    requires k <= |items|
    ensures var n := NotesFrom(items, k);
            && n <= k
            && OwnFrom(items, k) == (if n < k && !LineStart(items, n) then n + 1 else n)
            && (NotesApart(items, k) <==> !NoteAbove(items, k) && (n < k ==> LineStart(items, n)))
            && (NoteAbove(items, k) ==> LineStart(items, n))
  {}

  lemma NoteToken(items: seq<Item>, n: nat, k: nat)
    requires n < k <= |items| && NotesFrom(items, k) == n
    ensures |ItemTokens(items[n])| == 1
  {}

  // --- With, and With undone ----------------------------------------------------

  /** The items of the file once its last line is ended. */
  function Ended(items: seq<Item>): seq<Item> {
    if items == [] then [Blank]
    else
      var n := |items| - 1;
      match items[n]
      case Blank => items
      case Note(_) => items + [Blank]
      case Entry(_, _, _, _, term) =>
        match term
        case ByNewline => items
        case Open => items[..n] + [items[n].(term := ByNewline)]
        case _ => items + [Blank]
  }

  lemma {:induction false} EndedTokens(items: seq<Item>)
    requires Shaped(items)
    ensures Lined([OBrace] + Flat(items)) == [OBrace] + Flat(Ended(items))
  {
    if items == [] {
      assert Ended(items)[..0] == [];
      assert Flat([Blank]) == Flat([]) + [Newline];
    } else {
      var n := |items| - 1;
      var i := items[n];
      ShapedOk(items);
      LastNewline(i);
      EndedIs(items);
      hide *;
      FlatLast(items);
      Assoc([OBrace], Flat(items[..n]), ItemTokens(i));
      LinedAfter([OBrace] + Flat(items[..n]), ItemTokens(i), [OBrace] + Flat(items));
      if i.Entry? && i.term.Open? {
        var j := i.(term := ByNewline);
        FlatLast(items[..n] + [j]);
        assert (items[..n] + [j])[..n] == items[..n];
        OpenTokens(i);
        Assoc3([OBrace], Flat(items[..n]), ItemTokens(i), [Newline]);
      } else if !LinedItem(i) {
        FlatLast(items + [Blank]);
        assert (items + [Blank])[..n + 1] == items;
        Assoc([OBrace], Flat(items), [Newline]);
      }
    }
  }

  lemma Assoc3(a: Tokens, b: Tokens, c: Tokens, d: Tokens)
    ensures a + (b + c) + d == a + (b + (c + d))
  {}

  /** Whether a line end is missing shows in the last item's last token. */
  lemma LinedAfter(pre: Tokens, seg: Tokens, all: Tokens)
    requires seg != [] && all == pre + seg
    ensures Lined(all) == if seg[|seg| - 1] == Newline then all else all + [Newline]
  {
    assert all[|all| - 1] == seg[|seg| - 1];
  }

  lemma EndedIs(items: seq<Item>)
    requires items != []
    ensures var n := |items| - 1;
            var i := items[n];
            Ended(items) == if LinedItem(i) then items
                            else if i.Entry? && i.term.Open? then items[..n] + [i.(term := ByNewline)]
                            else items + [Blank]
  {}

  predicate LinedItem(i: Item) {
    i.Blank? || (i.Entry? && i.term.ByNewline?)
  }

  lemma LastNewline(i: Item)
    requires ItemOk(i)
    ensures ItemTokens(i) != [] && (ItemTokens(i)[|ItemTokens(i)| - 1] == Newline <==> LinedItem(i))
    ensures ItemTokens(Blank) == [Newline]
  {
    if i.Entry? {
      EntryTokens(i);
      TermToken(i);
      ValueEnds(i.value);
      hide KeyTokens, ValueOk;
    }
  }

  lemma OpenTokens(i: Item)
    requires i.Entry? && i.term.Open?
    ensures ItemTokens(i.(term := ByNewline)) == ItemTokens(i) + [Newline]
  {}

  lemma FlatLast(items: seq<Item>)
    requires items != []
    ensures Flat(items) == Flat(items[..|items| - 1]) + ItemTokens(items[|items| - 1])
  {
    hide ItemTokens;
  }

  /** Ended changes no key and no value and leaves nothing open. */
  lemma EndedAt(items: seq<Item>, i: nat)
    requires i < |Ended(items)|
    ensures var r := Ended(items);
            && |items| <= |r| <= |items| + 1
            && (i == |items| ==> r[i] == Blank)
            && (i < |items| ==> r[i].Entry? == items[i].Entry?)
            && (i < |items| && r[i].Entry? ==> r[i].key == items[i].key && r[i].form == items[i].form && r[i].value == items[i].value)
            && (r[i].Entry? && r[i].term.Open? ==> i < |items| - 1 && items[i].term.Open?)
  {}

  lemma EndedLast(items: seq<Item>)
    ensures Ended(items) != [] && LinedItem(Ended(items)[|Ended(items)| - 1])
  {}

  lemma EndedLonger(items: seq<Item>)
    ensures |items| <= |Ended(items)|
  {}

  lemma EndedLaid(items: seq<Item>)
    requires Laid(items)
    ensures Laid(Ended(items))
    ensures forall i | 0 <= i < |Ended(items)| && Ended(items)[i].Entry? :: !Ended(items)[i].term.Open?
  {
    hide *;
    var r := Ended(items);
    forall i | 0 <= i < |r| && r[i].Entry?
      ensures EntryOk(r, i) && !r[i].term.Open?
    {
      EndedAt(items, i);
      LaidEntry(items, i);
      EntryMoves(items, i, r, i);
    }
    forall i, j | 0 <= i < j < |r| && r[i].Entry? && r[j].Entry?
      ensures r[i].key != r[j].key
    {
      EndedAt(items, i);
      EndedAt(items, j);
      LaidUnique(items, i, j);
    }
    LaidIf(r);
  }

  lemma EndedKeys(items: seq<Item>)
    ensures KeysOf(Ended(items)) == KeysOf(items)
  {
    hide *;
    var r := Ended(items);
    EndedLonger(items);
    forall key | key in KeysOf(r)
      ensures key in KeysOf(items)
    {
      var i := KeyFound(r, key);
      EndedAt(items, i);
      KeyIn(items, i);
    }
    forall key | key in KeysOf(items)
      ensures key in KeysOf(r)
    {
      var i := KeyFound(items, key);
      EndedAt(items, i);
      KeyIn(r, i);
    }
  }

  lemma {:induction false} AddedLaid(items: seq<Item>, e: Item)
    requires Laid(items) && forall i | 0 <= i < |items| && items[i].Entry? :: !items[i].term.Open?
    requires e.Entry? && EntryOk([e], 0) && e.key !in KeysOf(items)
    ensures Laid(items + [e])
  {
    hide *;
    var r := items + [e];
    forall i | 0 <= i < |r| && r[i].Entry?
      ensures EntryOk(r, i)
    {
      if i < |items| {
        LaidEntry(items, i);
        EntryMoves(items, i, r, i);
      } else {
        EntryMoves([e], 0, r, i);
      }
    }
    forall i, j | 0 <= i < j < |r| && r[i].Entry? && r[j].Entry?
      ensures r[i].key != r[j].key
    {
      if j < |items| {
        LaidUnique(items, i, j);
      } else {
        KeyIn(items, i);
      }
    }
    LaidIf(r);
  }

  lemma AddedHolds<V>(items: seq<Item>, e: Item, read: Tokens -> Option<V>, m: map<string, V>, w: V)
    requires Laid(items) && Holds(items, read, m) && e.Entry? && e.key !in KeysOf(items) && read(e.value) == Some(w)
    ensures Holds(Ended(items) + [e], read, m[e.key := w])
  {
    hide *;
    var r := Ended(items) + [e];
    EndedKeys(items);
    HoldsKeys(items, read, m);
    KeysOne(Ended(items), e);
    forall i | 0 <= i < |r| && r[i].Entry?
      ensures r[i].key in m[e.key := w] && read(r[i].value) == Some(m[e.key := w][r[i].key])
    {
      if i < |Ended(items)| {
        EndedAt(items, i);
        HoldsAt(items, read, m, i);
        KeyIn(items, i);
      }
    }
    HoldsIf(r, read, m[e.key := w]);
  }

  lemma KeysOne(items: seq<Item>, e: Item)
    requires e.Entry?
    ensures KeysOf(items + [e]) == KeysOf(items) + {e.key}
  {
    assert (items + [e])[..|items|] == items;
  }

  /** The new entry as the written file has it: a name is scanned again. */
  function NewEntry(name: string, value: Tokens): Item {
    if name == "" || !Digit(name[0]) then Entry(name, Bare, false, value, ByNewline)
    else
      var n := DigitsEnd(name);
      if n == |name| then Entry(ValueOf(name), Numeral(|name| - |ValueOf(name)|), false, value, ByNewline)
      else Entry(name[..n], Jumble(name[n..]), false, value, ByNewline)
  }

  /** The name reads back as itself: it is an identifier, or a number without leading zeros. */
  predicate ReadsBack(name: string) {
    name != "" && (!Digit(name[0]) || Canonical(name))
  }

  /** What checkWorkerName admits: letters, digits and hyphens, at most 63, no hyphen at an end. */
  predicate DnsLabel(name: string) {
    && 0 < |name| <= 63 && name[0] != '-' && name[|name| - 1] != '-'
    && forall c | c in name :: 'a' <= c <= 'z' || Digit(c) || c == '-'
  }

  lemma {:induction false} ValueOfIs(s: string)
    requires Digits(s)
    ensures Canonical(ValueOf(s)) && |ValueOf(s)| <= |s|
    ensures s == Zeros(|s| - |ValueOf(s)|) + ValueOf(s)
    ensures Canonical(s) <==> ValueOf(s) == s
  {
    if |s| > 1 && s[0] == '0' {
      assert Digits(s[1..]) by { assert s[1] in s && forall c | c in s[1..] :: c in s; }
      ValueOfIs(s[1..]);
      assert s == ['0'] + s[1..];
    } else {
      assert s[0] in s;
      assert Zeros(0) + s == s;
    }
  }

  /** The entry's key is the name exactly when the name reads back. */
  lemma NewEntryIs(name: string, value: Tokens)
    requires DnsLabel(name)
    ensures var e := NewEntry(name, value);
            && e.Entry? && e.value == value && e.term == ByNewline && Written(name, value) == [Ident(name), Equal] + value + [Newline]
            && (e.form.Numeral? ==> Canonical(e.key))
            && (ReadsBack(name) <==> !e.form.Jumble? && e.key == name)
            && (e.form.Bare? <==> !Digit(name[0])) && !e.form.Quoted?
            && (e.form.Bare? ==> e.key == name)
  {
    if Digit(name[0]) {
      var n := DigitsEnd(name);
      if n == |name| {
        assert Digits(name) by { assert forall c | c in name :: Digit(c); }
        ValueOfIs(name);
      } else {
        assert name[n] in name && !Digit(name[n]);
      }
    }
  }

  /** The written name, scanned, is the entry's key. */
  lemma ScanNew(name: string, value: Tokens)
    requires DnsLabel(name) && Scanned(value)
    ensures Rescan(Written(name, value)) == ItemTokens(NewEntry(name, value))
  {
    var head := [Ident(name)];
    var tail := [Equal] + value + [Newline];
    assert Written(name, value) == head + tail;
    RescanAppend(head, tail);
    assert Scanned(tail) by { assert forall t | t in tail :: t == Equal || t in value || t == Newline; }
    RescanSame(tail);
    assert Rescan(head) == Scan(name) by {
      assert head[..0] == [] && head[0] == Ident(name);
      assert Rescan([]) == [];
    }
    ScanKey(name, value);
    hide Rescan, Scan, NewEntry;
  }

  lemma ScanKey(name: string, value: Tokens)
    requires DnsLabel(name)
    ensures Scan(name) + ([Equal] + value + [Newline]) == ItemTokens(NewEntry(name, value))
  {
    if Digit(name[0]) && DigitsEnd(name) == |name| {
      assert Digits(name) by { assert forall c | c in name :: Digit(c); }
      ValueOfIs(name);
    }
    var e := NewEntry(name, value);
    assert Scan(name) == KeyTokens(e.key, e.form) && e.Entry? && !e.colon && e.value == value && e.term == ByNewline;
    hide *;
    EntryParts(e);
    HeadIs(e);
    Assoc(Scan(name), [Equal], value + [Newline]);
    assert Scan(name) + ([Equal] + value + [Newline]) == Scan(name) + [Equal] + (value + [Newline]);
  }

  lemma HeadIs(e: Item)
    requires e.Entry?
    ensures HeadTokens(e) == KeyTokens(e.key, e.form) + [if e.colon then Colon else Equal]
    ensures e.term.ByNewline? ==> TermTokens(e.term) == [Newline]
  {}

  /** The tokens of the file With writes are those of the ended file with the entry behind it. */
  lemma {:induction false} WithTokens(items: seq<Item>, name: string, value: Tokens)
    requires Shaped(items) && DnsLabel(name) && Scanned(value) && Scanned(ObjectTokens(items))
    ensures var toks := ObjectTokens(items);
            && |toks| >= 2
            && Rescan(Lined(toks[..|toks| - 1]) + Written(name, value) + [toks[|toks| - 1]]) ==
               ObjectTokens(Ended(items) + [NewEntry(name, value)])
            && ObjectTokens(Ended(items)) == Lined(toks[..|toks| - 1]) + [CBrace]
  {
    hide *;
    var toks, e := ObjectTokens(items), NewEntry(name, value);
    ObjectIs(items);
    ObjectIs(Ended(items));
    assert |toks| >= 2;
    var base := Lined(toks[..|toks| - 1]);
    assert toks[..|toks| - 1] == [OBrace] + Flat(items);
    EndedTokens(items);
    RescanParts(toks, base, Written(name, value));
    ScanNew(name, value);
    FlatOne(Ended(items), e, []);
    FlatNone();
    assert Ended(items) + [e] + [] == Ended(items) + [e];
    ObjectIs(Ended(items) + [e]);
    assert ([OBrace] + Flat(Ended(items))) + ItemTokens(e) + [CBrace] ==
           [OBrace] + (Flat(Ended(items)) + ItemTokens(e) + []) + [CBrace];
  }

  lemma RescanParts(toks: Tokens, base: Tokens, entry: Tokens)
    requires Scanned(toks) && |toks| >= 2 && base == Lined(toks[..|toks| - 1]) && toks[|toks| - 1] == CBrace
    ensures Rescan(base + entry + [CBrace]) == base + Rescan(entry) + [CBrace]
  {
    hide Rescan;
    RescanAppend(base + entry, [CBrace]);
    RescanAppend(base, entry);
    assert Scanned(base) by { assert forall t | t in base :: t in toks || t == Newline; }
    RescanSame(base);
    RescanSame([CBrace]);
  }

  /** No entry: the braces are empty. */
  predicate Empty(items: seq<Item>) {
    FirstEntry(items) == |items|
  }

  /** With's readback refuses: the name is not one identifier or number, or it opens a for expression. */
  predicate Unwritable(items: seq<Item>, name: string) {
    !ReadsBack(name) || (name == "for" && Empty(items))
  }

  /**
   * With's readback accepts a Worker exactly when its name reads back as itself and is not
   * the word for at the head of an empty set. Then the entry is the only change but for the
   * line end before it.
   */
  lemma {:induction false} WithExact<V>(items: seq<Item>, workers: map<string, V>, name: string, w: V, value: Tokens, read: Tokens -> Option<V>)
    requires Laid(items) && Scanned(ObjectTokens(items)) && Parse(ObjectTokens(items), read) == Some(workers)
    requires DnsLabel(name) && name !in workers && ValueOk(value) && Scanned(value) && read(value) == Some(w)
    ensures |ObjectTokens(items)| >= 2
    ensures var all := Ended(items) + [NewEntry(name, value)];
            if Unwritable(items, name) then WithOf(ObjectTokens(items), workers, name, w, value, read) == Misread
            else
              && WithOf(ObjectTokens(items), workers, name, w, value, read) == Edited(ObjectTokens(all))
              && Parse(ObjectTokens(all), read) == Some(workers[name := w])
              && Laid(all) && Scanned(ObjectTokens(all))
  {
    hide *;
    var e, toks := NewEntry(name, value), ObjectTokens(items);
    var all := Ended(items) + [e];
    LaidIs(items);
    NewEntryIs(name, value);
    ParseObject(items, read, workers);
    HoldsKeys(items, read, workers);
    WithTokens(items, name, value);
    WithIs(toks, workers, name, w, value, read);
    RescanScanned(Lined(toks[..|toks| - 1]) + Written(name, value) + [toks[|toks| - 1]]);
    UnwritableIs(items, name);
    ForAdded(items, e);
    if ReadsBack(name) {
      EndedLaid(items);
      EndedKeys(items);
      OneEntry(e);
      AddedLaid(Ended(items), e);
      AddedHolds(items, e, read, workers, w);
      ParseObject(all, read, workers[name := w]);
    } else {
      AddedShaped(items, e);
      ParseDeclared(all, read);
      DeclaredFrom(all, 0, read, map[]);
      EndedKeys(items);
      KeysOne(Ended(items), e);
      assert all[|all| - 1] == e;
      if Declared(all, 0, read, map[]).Some? {
        assert name !in Declared(all, 0, read, map[]).value.Keys;
        assert name in workers[name := w].Keys;
      }
    }
  }

  lemma UnwritableIs(items: seq<Item>, name: string)
    ensures Unwritable(items, name) <==> !ReadsBack(name) || (name == "for" && FirstEntry(items) == |items|)
    ensures ReadsBack("for") && !Digit('f') && "for"[0] == 'f'
  {
    hide FirstEntry;
  }

  lemma OneEntry(e: Item)
    requires e.Entry? && ValueOk(e.value) && !e.form.Jumble? && (e.form.Numeral? ==> Canonical(e.key))
    ensures EntryOk([e], 0)
  {
    hide ValueOk, Canonical;
  }

  lemma AddedShaped(items: seq<Item>, e: Item)
    requires Laid(items) && e.Entry? && ValueOk(e.value) && !e.term.Open? && (e.form.Numeral? ==> Canonical(e.key))
    ensures Shaped(Ended(items) + [e])
  {
    hide ValueOk, Canonical, Ended;
    EndedLaid(items);
  }

  /** The word for comes first in the new file exactly when the new entry is the first one and has that key. */
  lemma {:induction false} ForAdded(items: seq<Item>, e: Item)
    requires e.Entry? && !ForFirst(items)
    ensures ForFirst(Ended(items) + [e]) <==> FirstEntry(items) == |items| && e.form.Bare? && e.key == "for"
  {
    hide *;
    var base := Ended(items);
    var all, f := base + [e], FirstEntry(items);
    EndedLonger(items);
    var g := FirstEntry(all);
    assert all[|base|] == e;
    if f < |items| {
      EndedAt(items, f);
      assert all[f] == base[f];
      EndedAt(items, g);
      ForSame(items, all);
    } else {
      if g < |base| {
        EndedAt(items, g);
      }
      ForIs(all, []);
    }
  }

  lemma WithIs<V>(toks: Tokens, workers: map<string, V>, name: string, w: V, value: Tokens, read: Tokens -> Option<V>)
    requires |toks| >= 2 && name !in workers
    ensures var out := Rescan(Lined(toks[..|toks| - 1]) + Written(name, value) + [toks[|toks| - 1]]);
            WithOf(toks, workers, name, w, value, read) ==
            if Parse(out, read) == Some(workers[name := w]) then Edited(out) else Misread
  {
    hide Parse, Written, Lined, Rescan;
  }

  /**
   * With then Without gives back the file's tokens, up to one line end before the closing
   * brace, but for a name that is a number: With writes it as one, and Without does not find it.
   */
  lemma {:induction false} WithThenWithout<V>(items: seq<Item>, workers: map<string, V>, name: string, w: V, value: Tokens, read: Tokens -> Option<V>)
    requires Laid(items) && Scanned(ObjectTokens(items)) && Parse(ObjectTokens(items), read) == Some(workers)
    requires DnsLabel(name) && name !in workers && ValueOk(value) && Scanned(value) && read(value) == Some(w)
    requires !Unwritable(items, name)
    ensures var toks := ObjectTokens(items);
            && |toks| >= 2
            && var added := WithOf(toks, workers, name, w, value, read);
               && added.Edited?
               && WithoutOf(added.toks, workers[name := w], name, read) ==
                  if Digit(name[0]) then NotFound else Edited(Lined(toks[..|toks| - 1]) + [toks[|toks| - 1]])
  {
    hide *;
    var e, base := NewEntry(name, value), Ended(items);
    var all := base + [e];
    LaidIs(items);
    WithExact(items, workers, name, w, value, read);
    WithTokens(items, name, value);
    NewEntryIs(name, value);
    UnwritableIs(items, name);
    EndedLast(items);
    NothingAbove(base, e);
    assert all[|base|] == e;
    WithoutExact(all, |base|, workers[name := w], read);
    LeftOfAdded(base, e);
    BraceIsLast(items);
  }

  // --- Inputs at which the editor does less ---------------------------------------

  lemma {:induction false} ItemsScanned(items: seq<Item>)
    requires forall i | 0 <= i < |items| && items[i].Entry? ::
               Scanned(items[i].value) && (items[i].form.Bare? ==> items[i].key == "" || !Digit(items[i].key[0]))
    ensures Scanned(ObjectTokens(items)) && Scanned(Flat(items))
  {
    hide ItemTokens;
    if items != [] {
      var n := |items| - 1;
      ItemsScanned(items[..n]);
      ItemScanned(items[n]);
    }
  }

  lemma ItemScanned(i: Item)
    requires i.Entry? ==> Scanned(i.value) && (i.form.Bare? ==> i.key == "" || !Digit(i.key[0]))
    ensures Scanned(ItemTokens(i))
  {
    if i.Entry? {
      EntryParts(i);
      hide ItemTokens, Digit;
      forall t | t in ItemTokens(i)
        ensures t in HeadTokens(i) || t in i.value || t in TermTokens(i.term)
      {}
    }
  }

  /** Names checkWorkerName admits and With's readback refuses; and a number it takes and Without does not find. */
  lemma {:induction false} NamesRefused<V>(items: seq<Item>, workers: map<string, V>, w: V, value: Tokens, read: Tokens -> Option<V>)
    requires Laid(items) && Scanned(ObjectTokens(items)) && Parse(ObjectTokens(items), read) == Some(workers)
    requires ValueOk(value) && Scanned(value) && read(value) == Some(w)
    requires "1worker" !in workers && "007" !in workers && "7" !in workers
    ensures DnsLabel("1worker") && DnsLabel("007") && DnsLabel("7") && DnsLabel("for") && |ObjectTokens(items)| >= 2
    ensures WithOf(ObjectTokens(items), workers, "1worker", w, value, read) == Misread
    ensures WithOf(ObjectTokens(items), workers, "007", w, value, read) == Misread
    ensures var seven := WithOf(ObjectTokens(items), workers, "7", w, value, read);
            seven.Edited? && WithoutOf(seven.toks, workers["7" := w], "7", read) == NotFound
    ensures workers == map[] && Empty(items) ==> WithOf(ObjectTokens(items), workers, "for", w, value, read) == Misread
  {
    NameFacts();
    hide *;
    UnwritableIs(items, "1worker");
    UnwritableIs(items, "007");
    UnwritableIs(items, "7");
    UnwritableIs(items, "for");
    WithExact(items, workers, "1worker", w, value, read);
    WithExact(items, workers, "007", w, value, read);
    WithThenWithout(items, workers, "7", w, value, read);
    if workers == map[] && Empty(items) {
      EmptyIs(items);
      WithExact(items, workers, "for", w, value, read);
    }
  }

  lemma NameFacts()
    ensures DnsLabel("1worker") && !ReadsBack("1worker")
    ensures DnsLabel("007") && !ReadsBack("007")
    ensures DnsLabel("7") && ReadsBack("7") && Digit("7"[0]) && "7" != "for"
    ensures DnsLabel("for")
  {
    assert 'w' in "1worker" && !Digit('w');
    assert forall c | c in "1worker" :: c in ['1', 'w', 'o', 'r', 'k', 'e', 'r'];
  }

  lemma EmptyIs(items: seq<Item>)
    ensures Empty(items) <==> FirstEntry(items) == |items|
  {
    hide FirstEntry;
  }

  /** Two Workers of one value. */
  function Pair(v: Tokens, above: seq<Item>, term: Term, between: seq<Item>): seq<Item> {
    above + [Entry("a", Bare, false, v, term)] + between + [Entry("b", Bare, false, v, ByNewline)]
  }

  /**
   * The comment behind the comma of the entry above, as in `a = {...}, # about a`: removing
   * b takes it.
   */
  lemma {:induction false} TakesNoteBehindComma<V>(v: Tokens, w: V, read: Tokens -> Option<V>)
    requires ValueOk(v) && Scanned(v) && read(v) == Some(w)
    ensures var items := Pair(v, [], ByComma, [Note("# about a\n")]);
            && Laid(items) && Parse(ObjectTokens(items), read) == Some(map["a" := w, "b" := w])
            && WithoutOf(ObjectTokens(items), map["a" := w, "b" := w], "b", read) == Edited(ObjectTokens(items[..1]))
            && items[..OwnFrom(items, 2)] == items[..2] && !NoteAbove(items, 2)
  {
    var items, workers := Pair(v, [], ByComma, [Note("# about a\n")]), map["a" := w, "b" := w];
    assert items == [Entry("a", Bare, false, v, ByComma), Note("# about a\n"), Entry("b", Bare, false, v, ByNewline)];
    assert items[0].key[0] == 'a' && items[2].key[0] == 'b';
    hide ValueOk, Scanned, ObjectTokens, Parse, WithoutOf, Pair;
    PairReads(items, 0, 2, v, w, read);
    WithoutExact(items, 2, workers, read);
    assert NotesFrom(items, 1) == 1 && NotesFrom(items, 2) == 1;
    assert FirstEntry(items) == 0;
    assert !NoteAbove(items, 2) && OwnFrom(items, 2) == 2;
    hide NotesFrom, NoteAbove, FirstEntry;
    RestIs(items, 2);
    RunsAre(items, 2);
    assert items[..1] + items[3..] == items[..1];
  }

  /** The comment behind the object's brace, as in `{ # the set`: removing the first entry takes it. */
  lemma {:induction false} TakesNoteBehindBrace<V>(v: Tokens, w: V, read: Tokens -> Option<V>)
    requires ValueOk(v) && Scanned(v) && read(v) == Some(w)
    ensures var items := Pair(v, [Note("# the set\n")], ByNewline, []);
            && Laid(items) && Parse(ObjectTokens(items), read) == Some(map["a" := w, "b" := w])
            && WithoutOf(ObjectTokens(items), map["a" := w, "b" := w], "a", read) == Edited(ObjectTokens(items[2..]))
            && items[..OwnFrom(items, 1)] == items[..1] && !NoteAbove(items, 1)
  {
    var items, workers := Pair(v, [Note("# the set\n")], ByNewline, []), map["a" := w, "b" := w];
    assert items == [Note("# the set\n"), Entry("a", Bare, false, v, ByNewline), Entry("b", Bare, false, v, ByNewline)];
    assert items[1].key[0] == 'a' && items[2].key[0] == 'b';
    hide ValueOk, Scanned, ObjectTokens, Parse, WithoutOf, Pair;
    PairReads(items, 1, 2, v, w, read);
    WithoutExact(items, 1, workers, read);
    assert NotesFrom(items, 0) == 0 && NotesFrom(items, 1) == 0;
    var rest := items[2..];
    assert rest[0].key == "b" && rest[0].Entry?;
    assert FirstEntry(rest) == 0;
    assert !NoteAbove(items, 1) && OwnFrom(items, 1) == 1;
    hide NotesFrom, NoteAbove, FirstEntry;
    RestIs(items, 1);
    RunsAre(items, 1);
    assert items[..0] + items[2..] == items[2..];
    assert !ForFirst(rest) by { ForIs(rest, []); }
  }

  /** An object of the two entries reads as the two Workers. */
  lemma {:induction false} PairReads<V>(items: seq<Item>, i: nat, j: nat, v: Tokens, w: V, read: Tokens -> Option<V>)
    requires ValueOk(v) && Scanned(v) && read(v) == Some(w) && i < j < |items| == 3
    requires forall k | 0 <= k < 3 :: items[k].Entry? <==> k == i || k == j
    requires items[i].value == v && items[j].value == v && items[i].key != items[j].key && items[i].key != "for"
    requires forall k | 0 <= k < 3 && items[k].Entry? :: items[k].key != "" && !Digit(items[k].key[0])
    requires items[i].form.Bare? && items[j].form.Bare? && !items[i].term.Open? && !items[j].term.Open?
    ensures Laid(items) && Scanned(ObjectTokens(items))
    ensures Parse(ObjectTokens(items), read) == Some(map[items[i].key := w, items[j].key := w])
  {
    hide ValueOk, Scanned, ObjectTokens, Parse, KeysOf, Digit;
    assert Laid(items);
    ItemsScanned(items);
    KeyIn(items, i);
    KeyIn(items, j);
    forall name | name in KeysOf(items)
      ensures name == items[i].key || name == items[j].key
    {
      var k := KeyFound(items, name);
    }
    var workers := map[items[i].key := w, items[j].key := w];
    assert KeysOf(items) == {items[i].key, items[j].key};
    assert Holds(items, read, workers);
    ParseObject(items, read, workers);
    assert FirstEntry(items) == i;
  }

  /** With the entry above the Worker named for gone, its file would begin with that word. */
  lemma {:induction false} LeavesForFirst<V>(v: Tokens, w: V, read: Tokens -> Option<V>)
    requires ValueOk(v) && Scanned(v) && read(v) == Some(w)
    ensures var items := [Blank, Entry("a", Bare, false, v, ByNewline), Entry("for", Bare, false, v, ByNewline)];
            && Laid(items) && Parse(ObjectTokens(items), read) == Some(map["a" := w, "for" := w])
            && WithoutOf(ObjectTokens(items), map["a" := w, "for" := w], "a", read) == Misread
  {
    var items := [Blank, Entry("a", Bare, false, v, ByNewline), Entry("for", Bare, false, v, ByNewline)];
    hide ValueOk, Scanned, ObjectTokens, Parse, WithoutOf;
    assert items[1].key[0] == 'a' && items[2].key[0] == 'f';
    PairReads(items, 1, 2, v, w, read);
    WithoutExact(items, 1, map["a" := w, "for" := w], read);
    var rest := items[2..];
    assert rest[0] == items[2];
    assert FirstEntry(rest) == 0 && FirstEntry(items) == 1;
    hide FirstEntry;
    assert ForFirst(rest) by { ForIs(rest, []); }
  }

  lemma BraceIsLast(items: seq<Item>)
    ensures ObjectTokens(items)[|ObjectTokens(items)| - 1] == CBrace
  {
    hide Flat;
  }

  lemma NothingAbove(base: seq<Item>, e: Item)
    requires base != [] && LinedItem(base[|base| - 1]) && e.Entry?
    ensures NotesFrom(base + [e], |base|) == |base| && !NoteAbove(base + [e], |base|)
    ensures !Runs(base + [e], |base|) && !ForNext(base + [e], |base|)
    ensures Rest(base + [e], |base|) == base
  {
    var all, k := base + [e], |base|;
    assert all[k - 1] == base[k - 1];
    assert !NoteAbove(all, k) && NotesFrom(all, k) == k;
    assert all[k + 1..] == [] && all[..k] == base;
    hide NoteAbove, NotesFrom, LinedItem;
    RestIs(all, k);
    RunsAre(all, k);
    NoFor([]);
  }

  lemma LeftOfAdded(base: seq<Item>, e: Item)
    ensures (base + [e])[..|base|] + (base + [e])[|base| + 1..] == base
  {}
}

/** Addresses for a new Worker (alloc.go): the lowest free address of each pool. */
module Alloc {
  import opened Text

  /** An address as its number; MAX_ADDRESS has none after it. */
  type Addr = a: int | 0 <= a <= MAX_ADDRESS

  const MAX_ADDRESS := 0xFFFF_FFFF

  datatype Pool = Pool(first: Addr, last: Addr)

  /** A Worker's addresses; None where the file's text is no address. */
  datatype Worker = Worker(private: Option<Addr>, vpn: Option<Addr>)

  predicate In(p: Pool, a: Addr) {
    p.first <= a <= p.last
  }

  /** a is the lowest address of p that taken does not hold. */
  ghost predicate LowestFree(p: Pool, taken: set<Addr>, a: Addr) {
    In(p, a) && a !in taken && forall b: Addr | In(p, b) && b < a :: b in taken
  }

  method Lowest(p: Pool, taken: set<Addr>) returns (r: Option<Addr>)
    ensures r.Some? ==> LowestFree(p, taken, r.value)
    ensures r.None? ==> forall b: Addr | In(p, b) :: b in taken
  {
    var a, valid := p.first as int, true;
    while valid && a <= p.last
      invariant p.first <= a <= MAX_ADDRESS
      invariant forall b: Addr | In(p, b) && (b < a || !valid) :: b in taken
      decreases p.last - a + if valid then 1 else 0
    {
      if a !in taken {
        return Some(a);
      }
      if a == MAX_ADDRESS {
        valid := false;
      } else {
        a := a + 1;
      }
    }
    r := None;
  }

  datatype Choice = Chosen(w: Worker) | BadAddress | Full

  /** One address for both: the map Next walks has one entry for it, and marks it in one of the two pools. */
  predicate Both(w: Worker) {
    w.private == w.vpn
  }

  // kept: the Workers with one address for both whose VPN entry the map keeps. The language
  // leaves open which of two equal keys wins, so every set is a possible one.

  ghost function MarkedPrivate(ws: map<string, Worker>, kept: set<string>): set<Addr> {
    set n | n in ws && ws[n].private.Some? && !(Both(ws[n]) && n in kept) :: ws[n].private.value
  }

  ghost function MarkedVpn(ws: map<string, Worker>, kept: set<string>): set<Addr> {
    set n | n in ws && ws[n].vpn.Some? && !(Both(ws[n]) && n !in kept) :: ws[n].vpn.value
  }

  ghost predicate Readable(ws: map<string, Worker>) {
    forall n | n in ws :: ws[n].private.Some? && ws[n].vpn.Some?
  }

  /** w is the entry Next writes. */
  ghost predicate IsNext(ws: map<string, Worker>, kept: set<string>, private: Pool, vpn: Pool, reserved: set<Addr>, w: Worker) {
    && Readable(ws) && w.private.Some? && w.vpn.Some?
    && LowestFree(private, MarkedPrivate(ws, kept), w.private.value)
    && LowestFree(vpn, MarkedVpn(ws, kept) + reserved, w.vpn.value)
  }

  /** The inner loop of Next: a map from address to pool, so one entry where the two addresses are one. */
  method Mark(w: Worker, vpnKept: bool, takenPrivate: set<Addr>, takenVpn: set<Addr>) returns (private: set<Addr>, vpn: set<Addr>)
    requires w.private.Some? && w.vpn.Some?
    ensures private == takenPrivate + if Both(w) && vpnKept then {} else {w.private.value}
    ensures vpn == takenVpn + if Both(w) && !vpnKept then {} else {w.vpn.value}
  {
    private, vpn := takenPrivate, takenVpn;
    var entries := if Both(w) then [(w.private.value, vpnKept)] else [(w.private.value, false), (w.vpn.value, true)];
    for i := 0 to |entries|
      invariant private == takenPrivate + if i > 0 && !entries[0].1 then {entries[0].0} else {}
      invariant vpn == takenVpn + if i > 0 && entries[i - 1].1 then {entries[i - 1].0} else {}
    {
      var (a, isVpn) := entries[i];
      if isVpn {
        vpn := vpn + {a};
      } else {
        private := private + {a};
      }
    }
  }

  lemma DoneNone(ws: map<string, Worker>, kept: set<string>)
    ensures Done(ws, ws.Keys, map[]) && MarkedPrivate(map[], kept) == {} && MarkedVpn(map[], kept) == {}
  {}

  lemma MarkedOne(ws: map<string, Worker>, kept: set<string>, n: string, w: Worker)
    requires n !in ws && w.private.Some? && w.vpn.Some?
    ensures MarkedPrivate(ws[n := w], kept) == MarkedPrivate(ws, kept) + if Both(w) && n in kept then {} else {w.private.value}
    ensures MarkedVpn(ws[n := w], kept) == MarkedVpn(ws, kept) + if Both(w) && n !in kept then {} else {w.vpn.value}
  {
    var to := ws[n := w];
    assert forall m | m in to :: if m == n then to[m] == w else m in ws && to[m] == ws[m];
    assert n in to && forall m | m in ws :: m in to && m != n;
  }

  /** The loop of Next over the Workers; None where an address does not read. */
  method MarkAll(ws: map<string, Worker>, kept: set<string>, reserved: set<Addr>) returns (r: Option<(set<Addr>, set<Addr>)>)
    ensures r.None? == !Readable(ws)
    ensures r.Some? ==> r.value == (MarkedPrivate(ws, kept), MarkedVpn(ws, kept) + reserved)
  {
    hide *;
    var private: set<Addr>, vpn: set<Addr> := {}, reserved;
    ghost var done: map<string, Worker> := map[];
    DoneNone(ws, kept);
    var left := ws.Keys;
    while left != {}
      invariant left <= ws.Keys && Done(ws, left, done)
      invariant private == MarkedPrivate(done, kept) && vpn == MarkedVpn(done, kept) + reserved
      decreases |left|
    {
      var n :| n in left;
      if ws[n].private.None? || ws[n].vpn.None? {
        Unreadable(ws, n);
        return None;
      }
      DoneOne(ws, left, done, n, kept);
      var p, v := Mark(ws[n], n in kept, private, vpn);
      Shift(MarkedVpn(done, kept), reserved, if Both(ws[n]) && n !in kept then {} else {ws[n].vpn.value});
      private, vpn, done, left := p, v, done[n := ws[n]], left - {n};
    }
    DoneAll(ws, done);
    r := Some((private, vpn));
  }

  /** done is what the loop has walked. */
  ghost predicate Done(ws: map<string, Worker>, left: set<string>, done: map<string, Worker>) {
    && (forall n :: n in done <==> n in ws && n !in left)
    && (forall n | n in done :: done[n] == ws[n] && ws[n].private.Some? && ws[n].vpn.Some?)
  }

  lemma DoneOne(ws: map<string, Worker>, left: set<string>, done: map<string, Worker>, n: string, kept: set<string>)
    requires Done(ws, left, done) && n in left && n in ws && ws[n].private.Some? && ws[n].vpn.Some?
    ensures Done(ws, left - {n}, done[n := ws[n]])
    ensures MarkedPrivate(done[n := ws[n]], kept) == MarkedPrivate(done, kept) + if Both(ws[n]) && n in kept then {} else {ws[n].private.value}
    ensures MarkedVpn(done[n := ws[n]], kept) == MarkedVpn(done, kept) + if Both(ws[n]) && n !in kept then {} else {ws[n].vpn.value}
  {
    hide MarkedPrivate, MarkedVpn, Both;
    MarkedOne(done, kept, n, ws[n]);
  }

  lemma DoneAll(ws: map<string, Worker>, done: map<string, Worker>)
    requires Done(ws, {}, done)
    ensures done == ws && Readable(ws)
  {}

  lemma Shift(a: set<Addr>, b: set<Addr>, c: set<Addr>)
    ensures a + b + c == a + c + b
  {}

  lemma Unreadable(ws: map<string, Worker>, n: string)
    requires n in ws && (ws[n].private.None? || ws[n].vpn.None?)
    ensures !Readable(ws)
  {}

  method Next(ws: map<string, Worker>, kept: set<string>, private: Pool, vpn: Pool, reserved: seq<Addr>) returns (r: Choice)
    ensures r.BadAddress? == !Readable(ws)
    ensures r.Chosen? ==> IsNext(ws, kept, private, vpn, (set a | a in reserved), r.w)
    ensures r.Full? ==> (forall a: Addr | In(private, a) :: a in MarkedPrivate(ws, kept)) ||
                        (forall a: Addr | In(vpn, a) :: a in MarkedVpn(ws, kept) || a in reserved)
  {
    hide Readable, MarkedPrivate, MarkedVpn, LowestFree, In;
    var takenVpn: set<Addr> := {};
    for i := 0 to |reserved|
      invariant takenVpn == set a | a in reserved[..i]
    {
      takenVpn := takenVpn + {reserved[i]};
    }
    assert reserved[..|reserved|] == reserved;
    assert takenVpn == set a | a in reserved;
    var taken := MarkAll(ws, kept, takenVpn);
    if taken.None? {
      return BadAddress;
    }
    var p := Lowest(private, taken.value.0);
    if p.None? {
      return Full;
    }
    var v := Lowest(vpn, taken.value.1);
    if v.None? {
      return Full;
    }
    assert taken.value.1 == MarkedVpn(ws, kept) + (set a | a in reserved);
    r := Chosen(Worker(p, v));
  }

  // --- Whether addresses stay apart ----------------------------------------------

  /** No two Workers share an address, and no Worker has a reserved VPN address. */
  ghost predicate Apart(ws: map<string, Worker>, reserved: set<Addr>) {
    && Readable(ws)
    && (forall m, n | m in ws && n in ws && m != n :: ws[m].private != ws[n].private && ws[m].vpn != ws[n].vpn)
    && (forall n | n in ws :: ws[n].vpn.value !in reserved)
  }

  /** Private addresses that are held and not marked. */
  ghost function HiddenPrivate(ws: map<string, Worker>, kept: set<string>): set<Addr> {
    set n | n in ws && ws[n].private.Some? && Both(ws[n]) && n in kept :: ws[n].private.value
  }

  ghost function HiddenVpn(ws: map<string, Worker>, kept: set<string>): set<Addr> {
    set n | n in ws && ws[n].vpn.Some? && Both(ws[n]) && n !in kept :: ws[n].vpn.value
  }

  /** The lowest unmarked address of the pool is held by a Worker with one address for both. */
  ghost predicate Offers(p: Pool, marked: set<Addr>, hidden: set<Addr>) {
    exists a | a in hidden :: LowestFree(p, marked, a)
  }

  lemma LowestOnce(p: Pool, marked: set<Addr>, a: Addr, b: Addr)
    requires LowestFree(p, marked, a) && LowestFree(p, marked, b)
    ensures a == b
  {
    if a < b || b < a {}
  }

  /** Next keeps addresses apart if and only if neither pool's lowest unmarked address is a hidden one. */
  lemma NextKeepsIff(ws: map<string, Worker>, kept: set<string>, private: Pool, vpn: Pool, reserved: set<Addr>, name: string, w: Worker)
    requires Apart(ws, reserved) && name !in ws && IsNext(ws, kept, private, vpn, reserved, w)
    ensures Apart(ws[name := w], reserved) <==>
            && !Offers(private, MarkedPrivate(ws, kept), HiddenPrivate(ws, kept))
            && !Offers(vpn, MarkedVpn(ws, kept) + reserved, HiddenVpn(ws, kept))
  {
    HeldIff(ws, kept, reserved, name, w);
    var p, v := w.private.value, w.vpn.value;
    hide Apart, MarkedPrivate, MarkedVpn, HiddenPrivate, HiddenVpn;
    forall a | LowestFree(private, MarkedPrivate(ws, kept), a)
      ensures a == p
    {
      LowestOnce(private, MarkedPrivate(ws, kept), a, p);
    }
    forall a | LowestFree(vpn, MarkedVpn(ws, kept) + reserved, a)
      ensures a == v
    {
      LowestOnce(vpn, MarkedVpn(ws, kept) + reserved, a, v);
    }
  }

  /** An entry of unmarked addresses stays apart exactly when neither is hidden. */
  lemma HeldIff(ws: map<string, Worker>, kept: set<string>, reserved: set<Addr>, name: string, w: Worker)
    requires Apart(ws, reserved) && name !in ws && w.private.Some? && w.vpn.Some?
    requires w.private.value !in MarkedPrivate(ws, kept) && w.vpn.value !in MarkedVpn(ws, kept) + reserved
    ensures Apart(ws[name := w], reserved) <==>
            w.private.value !in HiddenPrivate(ws, kept) && w.vpn.value !in HiddenVpn(ws, kept)
  {
    var to := ws[name := w];
    forall n | n in ws
      ensures n in to && n != name && to[n] == ws[n]
      ensures ws[n].private == w.private ==> w.private.value in HiddenPrivate(ws, kept)
      ensures ws[n].vpn == w.vpn ==> w.vpn.value in HiddenVpn(ws, kept)
    {
      assert !(Both(ws[n]) && n in kept) ==> ws[n].private.value in MarkedPrivate(ws, kept);
      assert !(Both(ws[n]) && n !in kept) ==> ws[n].vpn.value in MarkedVpn(ws, kept);
      assert Both(ws[n]) && n in kept ==> ws[n].private.value in HiddenPrivate(ws, kept);
      assert Both(ws[n]) && n !in kept ==> ws[n].vpn.value in HiddenVpn(ws, kept);
    }
    if w.private.value in HiddenPrivate(ws, kept) {
      var n :| n in ws && ws[n].private.Some? && ws[n].private.value == w.private.value;
      assert n in to && name in to && to[n].private == to[name].private;
    } else if w.vpn.value in HiddenVpn(ws, kept) {
      var n :| n in ws && ws[n].vpn.Some? && ws[n].vpn.value == w.vpn.value;
      assert n in to && name in to && to[n].vpn == to[name].vpn;
    }
  }

  datatype Step = Add(name: string, w: Worker, kept: set<string>) | Remove(name: string)

  /** One node add with Next's answer, or one node remove. */
  ghost predicate Steps(ws: map<string, Worker>, s: Step, private: Pool, vpn: Pool, reserved: set<Addr>, to: map<string, Worker>) {
    match s
    case Add(name, w, kept) => name !in ws && IsNext(ws, kept, private, vpn, reserved, w) && to == ws[name := w]
    case Remove(name) => to == ws - {name}
  }

  ghost predicate Run(states: seq<map<string, Worker>>, steps: seq<Step>, private: Pool, vpn: Pool, reserved: set<Addr>) {
    && |states| == |steps| + 1
    && forall i | 0 <= i < |steps| :: Steps(states[i], steps[i], private, vpn, reserved, states[i + 1])
  }

  /** No address is in both pools but a reserved one. */
  ghost predicate PoolsApart(private: Pool, vpn: Pool, reserved: set<Addr>) {
    forall a: Addr | In(private, a) && In(vpn, a) :: a in reserved
  }

  ghost predicate NoneBoth(ws: map<string, Worker>) {
    forall n | n in ws :: !Both(ws[n])
  }

  /**
   * Where the pools share no unreserved address and no Worker has one address for both,
   * every run of adds and removes keeps addresses pairwise distinct and unreserved.
   */
  lemma {:induction false} RunKeepsApart(states: seq<map<string, Worker>>, steps: seq<Step>, private: Pool, vpn: Pool, reserved: set<Addr>, i: nat)
    requires Run(states, steps, private, vpn, reserved) && Apart(states[0], reserved) && i < |states|
    requires PoolsApart(private, vpn, reserved) && NoneBoth(states[0])
    ensures Apart(states[i], reserved) && NoneBoth(states[i])
  {
    if i > 0 {
      RunKeepsApart(states, steps, private, vpn, reserved, i - 1);
      StepKeepsApart(states[i - 1], steps[i - 1], private, vpn, reserved, states[i]);
    }
  }

  lemma StepKeepsApart(ws: map<string, Worker>, s: Step, private: Pool, vpn: Pool, reserved: set<Addr>, to: map<string, Worker>)
    requires Steps(ws, s, private, vpn, reserved, to) && Apart(ws, reserved)
    requires PoolsApart(private, vpn, reserved) && NoneBoth(ws)
    ensures Apart(to, reserved) && NoneBoth(to)
  {
    if s.Add? {
      assert HiddenPrivate(ws, s.kept) == {} && HiddenVpn(ws, s.kept) == {};
      HeldIff(ws, s.kept, reserved, s.name, s.w);
    }
  }

  /**
   * Both pools 1 to 3: the first Worker gets address 1 twice, and the second gets its private
   * address again, or its VPN address, as the map keeps the one entry or the other.
   */
  lemma SharedPoolCollides(vpnKept: bool)
    ensures var p, kept := Pool(1, 3), if vpnKept then {"a"} else {};
            var a, b := Worker(Some(1), Some(1)), if vpnKept then Worker(Some(1), Some(2)) else Worker(Some(2), Some(1));
            var states := [map[], map["a" := a], map["a" := a, "b" := b]];
            && Run(states, [Add("a", a, {}), Add("b", b, kept)], p, p, {})
            && Apart(states[1], {}) && !Apart(states[2], {})
  {
    var p, kept := Pool(1, 3), if vpnKept then {"a"} else {};
    var a, b := Worker(Some(1), Some(1)), if vpnKept then Worker(Some(1), Some(2)) else Worker(Some(2), Some(1));
    var none: map<string, Worker> := map[];
    var one, two := map["a" := a], map["a" := a, "b" := b];
    assert MarkedPrivate(none, {}) == {} && MarkedVpn(none, {}) == {};
    assert "a" in one && one["a"] == a;
    assert MarkedPrivate(one, kept) == if vpnKept then {} else {1};
    assert MarkedVpn(one, kept) == if vpnKept then {1} else {};
    assert two == one["b" := b] && "a" in two && "b" in two;
    var states, steps := [none, one, two], [Add("a", a, {}), Add("b", b, kept)];
    assert Steps(none, steps[0], p, p, {}, one);
    assert Steps(one, steps[1], p, p, {}, two);
    forall i | 0 <= i < |steps|
      ensures Steps(states[i], steps[i], p, p, {}, states[i + 1])
    {
      assert i == 0 || i == 1;
    }
  }
}
