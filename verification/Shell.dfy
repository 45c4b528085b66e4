/**
 * Quoting for the shell: local.Quote, remote's shellQuote and sudo wrapper, and the command
 * line kubectl is run with. Their partner is the shell's own reading of such a line:
 * sections 2.2.1 (escape character) and 2.2.2 (single quotes) of the Shell Command Language
 * in IEEE Std 1003.1, and the splitting at unquoted blanks.
 */
module Shell {
  import opened Text

  /** A character the shell takes as it is outside quotes. */
  predicate Bare(c: char) {
    || 'a' <= c <= 'z' || 'A' <= c <= 'Z' || '0' <= c <= '9'
    || c == '-' || c == '_' || c == '.' || c == '/' || c == ':' || c == ',' || c == '+' || c == '@' || c == '='
  }

  predicate AllBare(s: string) {
    forall c | c in s :: Bare(c)
  }

  function Sofar(cur: Option<string>): string {
    match cur case None => "" case Some(w) => w
  }

  /**
   * The words of s from inside a word cur, or between words. None: a character whose meaning
   * to the shell is none of the above, an open quote at the end, or a NUL, which no command
   * line can hold.
   */
  function Lex(s: string, quoted: bool, cur: Option<string>): Option<seq<string>>
    decreases |s|
  {
    if s == "" then
      if quoted then None else if cur.Some? then Some([cur.value]) else Some([])
    else if s[0] == '\0' then None
    else if quoted then
      if s[0] == '\'' then Lex(s[1..], false, cur) else Lex(s[1..], true, Some(Sofar(cur) + [s[0]]))
    else if s[0] == '\'' then Lex(s[1..], true, Some(Sofar(cur)))
    else if s[0] == '\\' then
      if |s| == 1 || s[1] == '\0' then None
      else if s[1] == '\n' then Lex(s[2..], false, cur)
      else Lex(s[2..], false, Some(Sofar(cur) + [s[1]]))
    else if s[0] == ' ' || s[0] == '\t' then
      match Lex(s[1..], false, None)
      case None => None
      case Some(words) => Some(if cur.Some? then [cur.value] + words else words)
    else if Bare(s[0]) then Lex(s[1..], false, Some(Sofar(cur) + [s[0]]))
    else None
  }

  function Words(s: string): Option<seq<string>> {
    Lex(s, false, None)
  }

  /** strings.ReplaceAll(s, "'", `'\''`). */
  function Escaped(s: string): string {
    if s == "" then "" else (if s[0] == '\'' then "'\\''" else [s[0]]) + Escaped(s[1..])
  }

  function Quote(s: string): string {
    "'" + Escaped(s) + "'"
  }

  lemma {:induction false} LexEscaped(a: string, rest: string, cur: string)
    requires '\0' !in a
    ensures Lex(Escaped(a) + "'" + rest, true, Some(cur)) == Lex(rest, false, Some(cur + a))
    decreases |a|
  {
    if a == "" {
      assert Escaped(a) + "'" + rest == "'" + rest;
      assert cur + a == cur;
    } else {
      var tail := Escaped(a[1..]) + "'" + rest;
      assert forall c | c in a[1..] :: c in a;
      if a[0] == '\'' {
        assert Escaped(a) + "'" + rest == "'\\''" + tail;
        LexMark(tail, cur);
      } else {
        assert a[0] in a;
        assert Escaped(a) + "'" + rest == [a[0]] + tail;
      }
      LexEscaped(a[1..], rest, cur + [a[0]]);
      assert cur + [a[0]] + a[1..] == cur + a;
    }
  }

  /** A quote inside quotes: close, an escaped quote, open. */
  lemma LexMark(tail: string, cur: string)
    ensures Lex("'\\''" + tail, true, Some(cur)) == Lex(tail, true, Some(cur + "'"))
  {
    var open := "'" + tail;
    var mark := "\\'" + open;
    assert "'\\''" + tail == "'" + mark;
    assert ("'" + mark)[1..] == mark;
    assert Lex("'" + mark, true, Some(cur)) == Lex(mark, false, Some(cur));
    assert mark[2..] == open;
    assert Lex(mark, false, Some(cur)) == Lex(open, false, Some(cur + "'"));
    assert open[1..] == tail;
  }

  lemma LexQuote(a: string, rest: string)
    requires '\0' !in a
    ensures Lex(Quote(a) + rest, false, None) == Lex(rest, false, Some(a))
  {
    var inner := Escaped(a) + "'" + rest;
    assert Quote(a) + rest == "'" + inner;
    assert ("'" + inner)[1..] == inner;
    assert Lex("'" + inner, false, None) == Lex(inner, true, Some(""));
    LexEscaped(a, rest, "");
    assert "" + a == a;
  }

  lemma {:induction false} LexBare(w: string, rest: string, cur: string)
    requires AllBare(w)
    ensures Lex(w + rest, false, Some(cur)) == Lex(rest, false, Some(cur + w))
    decreases |w|
  {
    if w == "" {
      assert w + rest == rest;
      assert cur + w == cur;
    } else {
      assert w[0] in w;
      assert (w + rest)[1..] == w[1..] + rest;
      LexBare(w[1..], rest, cur + [w[0]]);
      assert cur + [w[0]] + w[1..] == cur + w;
    }
  }

  /** A bare word and a blank: that word, then the words of the rest. */
  lemma WordBare(w: string, rest: string)
    requires w != "" && AllBare(w)
    ensures Words(w + " " + rest) == match Words(rest) case None => None case Some(ws) => Some([w] + ws)
  {
    assert w[0] in w;
    var s := w + " " + rest;
    assert s[1..] == w[1..] + (" " + rest);
    assert s[0] == w[0] && "" + [w[0]] == [w[0]];
    assert Lex(s, false, None) == Lex(s[1..], false, Some([w[0]]));
    LexBare(w[1..], " " + rest, [w[0]]);
    assert [w[0]] + w[1..] == w;
    assert (" " + rest)[1..] == rest;
  }

  /** A quoted word and a blank: the word as it was before it was quoted. */
  lemma WordQuoted(a: string, rest: string)
    requires '\0' !in a
    ensures Words(Quote(a) + " " + rest) == match Words(rest) case None => None case Some(ws) => Some([a] + ws)
    ensures Words(Quote(a)) == Some([a])
  {
    LexQuote(a, " " + rest);
    LexQuote(a, "");
    assert Quote(a) + "" == Quote(a);
    assert Quote(a) + " " + rest == Quote(a) + (" " + rest);
    assert (" " + rest)[1..] == rest;
  }

  function Quoted(args: seq<string>): (q: seq<string>)
    ensures |q| == |args|
  {
    seq(|args|, i requires 0 <= i < |args| => Quote(args[i]))
  }

  /** Quoted arguments joined with blanks split into the arguments, whatever they hold. */
  lemma {:induction false} JoinQuoted(args: seq<string>)
    requires forall a | a in args :: '\0' !in a
    ensures Words(Join(Quoted(args), ' ')) == Some(args)
    decreases |args|
  {
    if args == [] {
    } else {
      assert args[0] in args;
      if |args| == 1 {
        WordQuoted(args[0], "");
        assert args == [args[0]];
      } else {
        assert forall a | a in args[1..] :: a in args;
        JoinQuoted(args[1..]);
        assert Quoted(args)[1..] == Quoted(args[1..]);
        WordQuoted(args[0], Join(Quoted(args[1..]), ' '));
        assert [args[0]] + args[1..] == args;
      }
    }
  }

  // --- Kubectl.Run --------------------------------------------------------------

  const ADMIN_ASSIGNMENT := "KUBECONFIG=/etc/kubernetes/admin.conf"

  method KubectlCommand(args: seq<string>) returns (cmd: string)
    ensures cmd == ADMIN_ASSIGNMENT + " " + ("kubectl" + " " + Join(Quoted(args), ' '))
    ensures (forall a | a in args :: '\0' !in a) ==> Words(cmd) == Some([ADMIN_ASSIGNMENT, "kubectl"] + args)
  {
    var q: seq<string> := [];
    for i := 0 to |args|
      invariant q == Quoted(args)[..i]
    {
      q := q + [Quote(args[i])];
    }
    assert q == Quoted(args);
    cmd := ADMIN_ASSIGNMENT + " " + ("kubectl" + " " + Join(q, ' '));
    if forall a | a in args :: '\0' !in a {
      CommandWords(args);
    }
  }

  lemma CommandWords(args: seq<string>)
    requires forall a | a in args :: '\0' !in a
    ensures Words(ADMIN_ASSIGNMENT + " " + ("kubectl" + " " + Join(Quoted(args), ' '))) ==
            Some([ADMIN_ASSIGNMENT, "kubectl"] + args)
  {
    AdminBare();
    CommandOf(ADMIN_ASSIGNMENT, args);
  }

  lemma CommandOf(first: string, args: seq<string>)
    requires first != "" && AllBare(first) && forall a | a in args :: '\0' !in a
    ensures Words(first + " " + ("kubectl" + " " + Join(Quoted(args), ' '))) == Some([first, "kubectl"] + args)
  {
    hide Lex, Words, Quoted, Join;
    JoinQuoted(args);
    WordBare("kubectl", Join(Quoted(args), ' '));
    WordBare(first, "kubectl" + " " + Join(Quoted(args), ' '));
    assert [first] + (["kubectl"] + args) == [first, "kubectl"] + args;
  }

  lemma AdminBare()
    ensures ADMIN_ASSIGNMENT != "" && AllBare(ADMIN_ASSIGNMENT)
  {}

  // --- The sudo wrapper -----------------------------------------------------------

  /** Client.wrap. */
  function Wrap(sudo: bool, cmd: string): string {
    if !sudo then cmd else "sudo -n sh -c " + Quote(cmd)
  }

  /** The login shell hands sudo's shell the command unchanged, byte for byte. */
  lemma WrapWords(cmd: string)
    requires '\0' !in cmd
    ensures Words(Wrap(true, cmd)) == Some(["sudo", "-n", "sh", "-c", cmd])
  {
    hide Lex, Words, Quote;
    WordQuoted(cmd, "");
    WordBare("-c", Quote(cmd));
    WordBare("sh", "-c" + " " + Quote(cmd));
    WordBare("-n", "sh" + " " + ("-c" + " " + Quote(cmd)));
    WordBare("sudo", "-n" + " " + ("sh" + " " + ("-c" + " " + Quote(cmd))));
    assert "sudo" + " " + ("-n" + " " + ("sh" + " " + ("-c" + " " + Quote(cmd)))) == "sudo -n sh -c " + Quote(cmd);
    assert ["sudo"] + (["-n"] + (["sh"] + (["-c"] + [cmd]))) == ["sudo", "-n", "sh", "-c", cmd];
  }

  /** Quoting adds no NUL. */
  lemma {:induction false} EscapedNul(s: string)
    requires '\0' !in s
    ensures '\0' !in Escaped(s)
  {
    if s != "" {
      assert s[0] in s && forall c | c in s[1..] :: c in s;
      EscapedNul(s[1..]);
    }
  }

  lemma {:induction false} JoinNul(pieces: seq<string>)
    requires forall p | p in pieces :: '\0' !in p
    ensures '\0' !in Join(pieces, ' ')
  {
    if |pieces| == 1 {
      assert pieces[0] in pieces;
    } else if |pieces| > 1 {
      assert pieces[0] in pieces && forall p | p in pieces[1..] :: p in pieces;
      JoinNul(pieces[1..]);
    }
  }

  /**
   * kubectl's arguments through both shells: the login shell's words are sudo's, and the
   * last of them, split by sudo's own shell, is the assignment, kubectl and the arguments.
   */
  lemma ThroughSudo(args: seq<string>)
    requires forall a | a in args :: '\0' !in a
    ensures var cmd := ADMIN_ASSIGNMENT + " " + ("kubectl" + " " + Join(Quoted(args), ' '));
            Words(Wrap(true, cmd)) == Some(["sudo", "-n", "sh", "-c", cmd]) &&
            Words(cmd) == Some([ADMIN_ASSIGNMENT, "kubectl"] + args)
  {
    forall p | p in Quoted(args)
      ensures '\0' !in p
    {
      var i :| 0 <= i < |args| && Quoted(args)[i] == p;
      assert args[i] in args;
      EscapedNul(args[i]);
    }
    JoinNul(Quoted(args));
    hide Quoted, Join;
    CommandWords(args);
    WrapWords(ADMIN_ASSIGNMENT + " " + ("kubectl" + " " + Join(Quoted(args), ' ')));
  }
}
