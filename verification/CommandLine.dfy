// Quoting arguments for Windows, and the rules by which CommandLineToArgvW reads a
// command line back (src/broker/deelevate.js quoteArg, commandLine).
module CommandLine {

  // ── the reader ──

  /** The arguments read so far; the one being read; whether it is inside quotes; the backslashes not decided yet;
      whether a quote just closed (a second one right after it stands for itself). */
  datatype Reader = Reader(args: seq<string>, cur: string, begun: bool, quoted: bool, slashes: nat, closed: bool)

  function Blank(args: seq<string>): Reader {
    Reader(args, "", false, false, 0, false)
  }

  function Slashes(n: nat): (s: string)
    ensures |s| == n && forall c :: c in s ==> c == '\\'
  {
    if n == 0 then "" else Slashes(n - 1) + "\\"
  }

  /** The arguments once the current one ends. */
  function Ended(r: Reader): seq<string> {
    if r.begun || r.slashes > 0 then r.args + [r.cur + Slashes(r.slashes)] else r.args
  }

  function ReadQuote(r: Reader): Reader {
    var cur := r.cur + Slashes(r.slashes / 2);
    if r.slashes % 2 == 1 then Reader(r.args, cur + "\"", true, r.quoted, 0, false)
    else if r.closed then Reader(r.args, cur + "\"", true, true, 0, false)
    else Reader(r.args, cur, true, !r.quoted, 0, r.quoted)
  }

  function Read(r: Reader, c: char): Reader {
    if c == '\\' then r.(slashes := r.slashes + 1, closed := false)
    else if c == '"' then ReadQuote(r)
    else if (c == ' ' || c == '\t') && !r.quoted then Blank(Ended(r))
    else Reader(r.args, r.cur + Slashes(r.slashes) + [c], true, r.quoted, 0, false)
  }

  function ReadAll(r: Reader, s: string): Reader {
    if s == "" then r else Read(ReadAll(r, s[..|s| - 1]), s[|s| - 1])
  }

  predicate NulFree(s: string) { '\0' !in s }

  /** What Windows sees of a text: it ends at the first NUL. */
  function Terminated(s: string): (t: string)
    ensures NulFree(s) ==> t == s
  {
    if s == "" || s[0] == '\0' then "" else [s[0]] + Terminated(s[1..])
  }

  /** The arguments after argv[0] that this text gives. */
  function Arguments(s: string): seq<string> {
    Ended(ReadAll(Blank([]), Terminated(s)))
  }

  lemma {:induction false} ReadParts(r: Reader, a: string, b: string)
    ensures ReadAll(r, a + b) == ReadAll(ReadAll(r, a), b)
  {
    if b == "" {
      assert a + b == a;
    } else {
      assert (a + b)[..|a + b| - 1] == a + b[..|b| - 1];
      ReadParts(r, a, b[..|b| - 1]);
    }
  }

  lemma ReadThen(r: Reader, a: string, c: char)
    ensures ReadAll(r, a + [c]) == Read(ReadAll(r, a), c)
  {
    assert (a + [c])[..|a|] == a;
  }

  lemma {:induction false} ReadSlashes(r: Reader, a: string, n: nat)
    ensures var q := ReadAll(r, a);
            ReadAll(r, a + Slashes(n)) == q.(slashes := q.slashes + n, closed := q.closed && n == 0)
  {
    if n == 0 {
      assert a + Slashes(0) == a;
    } else {
      ReadSlashes(r, a, n - 1);
      assert a + Slashes(n) == (a + Slashes(n - 1)) + "\\";
      ReadThen(r, a + Slashes(n - 1), '\\');
    }
  }

  // ── the writer ──

  /** White space as the quoting test sees it. */
  predicate Space(c: char) {
    c in " \t\n\r\U{000b}\U{000c}" || c in "\U{00a0}\U{1680}\U{2028}\U{2029}\U{202f}\U{205f}\U{3000}\U{feff}" ||
        '\U{2000}' <= c <= '\U{200a}'
  }

  predicate Plain(arg: string) {
    arg != "" && forall c :: c in arg ==> !Space(c) && c != '"'
  }

  /** Between other arguments, `text` is read as exactly `arg`. */
  ghost predicate ReadsAs(text: string, arg: string) {
    forall args :: !ReadAll(Blank(args), text).quoted && Ended(ReadAll(Blank(args), text)) == args + [arg]
  }

  /** A plain argument up to here: what was read, without the backslashes at its end. */
  ghost predicate PlainRead(r: Reader, args: seq<string>, s: string) {
    r.args == args && r.cur + Slashes(r.slashes) == s && !r.quoted && (s != "" ==> r.begun || r.slashes > 0) && !r.closed
  }

  predicate Breaks(c: char) {
    c == ' ' || c == '\t' || c == '"'
  }

  lemma PlainThen(r: Reader, args: seq<string>, s: string, c: char)
    requires PlainRead(r, args, s) && !Breaks(c)
    ensures PlainRead(Read(r, c), args, s + [c])
  {
    if c == '\\' {
      assert r.cur + Slashes(r.slashes + 1) == r.cur + Slashes(r.slashes) + "\\";
    }
  }

  lemma {:induction false} PlainReads(arg: string, args: seq<string>)
    requires forall i :: 0 <= i < |arg| ==> !Breaks(arg[i])
    ensures PlainRead(ReadAll(Blank(args), arg), args, arg)
  {
    if arg != "" {
      var n := |arg| - 1;
      PlainReads(arg[..n], args);
      PlainThen(ReadAll(Blank(args), arg[..n]), args, arg[..n], arg[n]);
      assert arg == arg[..n] + [arg[n]];
    }
  }

  /** Inside quotes, with this much of the argument read. */
  function Inside(args: seq<string>, cur: string): Reader {
    Reader(args, cur, true, true, 0, false)
  }

  lemma EscapedQuote(args: seq<string>, out: string, cur: string, n: nat)
    requires ReadAll(Blank(args), out) == Inside(args, cur)
    ensures ReadAll(Blank(args), out + Slashes(n * 2 + 1) + "\"") == Inside(args, cur + Slashes(n) + "\"")
  {
    ReadSlashes(Blank(args), out, n * 2 + 1);
    ReadThen(Blank(args), out + Slashes(n * 2 + 1), '"');
  }

  lemma LiteralSlashes(args: seq<string>, out: string, cur: string, n: nat, c: char)
    requires ReadAll(Blank(args), out) == Inside(args, cur) && c != '"' && c != '\\'
    ensures ReadAll(Blank(args), out + (Slashes(n) + [c])) == Inside(args, cur + Slashes(n) + [c])
  {
    ReadSlashes(Blank(args), out, n);
    assert out + (Slashes(n) + [c]) == (out + Slashes(n)) + [c];
    ReadThen(Blank(args), out + Slashes(n), c);
  }

  lemma ClosingQuote(args: seq<string>, out: string, cur: string, n: nat)
    requires ReadAll(Blank(args), out) == Inside(args, cur)
    ensures var r := ReadAll(Blank(args), out + Slashes(n * 2) + "\"");
            !r.quoted && Ended(r) == args + [cur + Slashes(n)]
  {
    ReadSlashes(Blank(args), out, n * 2);
    ReadThen(Blank(args), out + Slashes(n * 2), '"');
    assert cur + Slashes(n) + Slashes(0) == cur + Slashes(n);
  }

  lemma OpeningQuote(args: seq<string>)
    ensures ReadAll(Blank(args), "\"") == Inside(args, "")
  {
    ReadThen(Blank(args), "", '"');
    assert "" + ['"'] == "\"";
  }

  lemma PlainReadsAs(arg: string)
    requires Plain(arg)
    ensures ReadsAs(arg, arg)
  {
    hide ReadAll;
    forall i | 0 <= i < |arg| ensures !Breaks(arg[i]) { assert arg[i] in arg; }
    forall args ensures PlainRead(ReadAll(Blank(args), arg), args, arg) { PlainReads(arg, args); }
  }

  /** One argument, quoted so that it is read back exactly. */
  method QuoteArg(arg: string) returns (out: string)
    ensures ReadsAs(out, arg) && (NulFree(arg) ==> NulFree(out))
  {
    hide ReadAll, Plain;
    if Plain(arg) {
      PlainReadsAs(arg);
      return arg;
    }
    out := "\"";
    var slashes := 0;
    forall args { OpeningQuote(args); }
    for i := 0 to |arg|
      invariant NulFree(arg) ==> NulFree(out)
      invariant slashes <= i && arg[..i] == arg[..i - slashes] + Slashes(slashes)
      invariant forall args :: ReadAll(Blank(args), out) == Inside(args, arg[..i - slashes])
    {
      var ch := arg[i];
      assert arg[..i + 1] == arg[..i] + [ch];
      if ch == '\\' {
        assert arg[..i - slashes] + Slashes(slashes) + "\\" == arg[..i - slashes] + Slashes(slashes + 1);
        slashes := slashes + 1;
      } else if ch == '"' {
        forall args { EscapedQuote(args, out, arg[..i - slashes], slashes); }
        out := out + Slashes(slashes * 2 + 1) + "\"";
        slashes := 0;
      } else {
        forall args { LiteralSlashes(args, out, arg[..i - slashes], slashes, ch); }
        out := out + (Slashes(slashes) + [ch]);
        slashes := 0;
      }
    }
    assert arg[..|arg|] == arg;
    forall args { ClosingQuote(args, out, arg[..|arg| - slashes], slashes); }
    out := out + Slashes(slashes * 2) + "\"";
  }

  lemma JoinReads(line: string, args: seq<string>, text: string, arg: string)
    requires !ReadAll(Blank([]), line).quoted && Ended(ReadAll(Blank([]), line)) == args && ReadsAs(text, arg)
    ensures var r := ReadAll(Blank([]), line + " " + text);
            !r.quoted && Ended(r) == args + [arg]
  {
    ReadThen(Blank([]), line, ' ');
    ReadParts(Blank([]), line + " ", text);
  }

  /** Reading the command line gives back exactly the arguments. */
  method CommandLine(args: seq<string>) returns (line: string)
    requires forall arg :: arg in args ==> NulFree(arg)
    ensures Arguments(line) == args
  {
    hide ReadAll;
    line := "";
    assert ReadAll(Blank([]), "") == Blank([]) by { ReadsNothing(); }
    for i := 0 to |args|
      invariant NulFree(line) && (i == 0 ==> line == "")
      invariant !ReadAll(Blank([]), line).quoted && Ended(ReadAll(Blank([]), line)) == args[..i]
    {
      var text := QuoteArg(args[i]);
      assert args[..i + 1] == args[..i] + [args[i]];
      if i == 0 {
        assert [] + [args[0]] == args[..1];
        line := text;
      } else {
        JoinReads(line, args[..i], text, args[i]);
        line := line + " " + text;
      }
    }
    assert args[..|args|] == args;
  }

  lemma ReadsNothing()
    ensures ReadAll(Blank([]), "") == Blank([])
  {
  }
}
