/**
 The shell's grammar on tokens: what the parser of sh.c accepts and the tree it builds, a printer, and
 the round trip between them.
 */
module ShellSyntax {
  const MAXARGS: nat := 10

  /** `W` is a word: its text, or its place in the command line. `out`: writing, to fd 1, creating the file. */
  datatype Cmd<W> =
    | Exec(argv: seq<W>)
    | Redir(cmd: Cmd<W>, file: W, out: bool)
    | Pipe(left: Cmd<W>, right: Cmd<W>)
    | List(left: Cmd<W>, right: Cmd<W>)
    | Back(cmd: Cmd<W>)

  /** The panics of the parser. */
  datatype Error = Syntax | MissingFile | MissingParen | TooManyArgs | Leftovers

  datatype Result<T> = Fail(error: Error) | Ok(value: T)

  // ---------------------------------------------------------------- tokens

  /** A symbol stands for itself; '+' is `>>`. */
  datatype Token = Word(w: string) | Sym(c: char)

  predicate Space(c: char) { c == ' ' || c == '\t' || c == '\r' || c == '\n' || c == 11 as char }

  predicate Symbol(c: char) { c in {'<', '|', '>', '&', ';', '(', ')'} }

  predicate WordChar(c: char) { !Space(c) && !Symbol(c) && c != '\0' }

  predicate LegalWord(w: string) { w != "" && forall i :: 0 <= i < |w| ==> WordChar(w[i]) }

  /** How many characters of a word `s` starts with. */
  function WordLen(s: string): (n: nat)
    ensures n <= |s| && (forall i :: 0 <= i < n ==> WordChar(s[i])) && (n < |s| ==> !WordChar(s[n]))
  {
    if s == "" || !WordChar(s[0]) then 0 else 1 + WordLen(s[1..])
  }

  function Lex(s: string): seq<Token>
  {
    if s == "" || s[0] == '\0' then []
    else if Space(s[0]) then Lex(s[1..])
    else if s[0] == '>' && |s| > 1 && s[1] == '>' then [Sym('+')] + Lex(s[2..])
    else if Symbol(s[0]) then [Sym(s[0])] + Lex(s[1..])
    else [Word(s[..WordLen(s)])] + Lex(s[WordLen(s)..])
  }

  predicate LegalToken(t: Token) { if t.Word? then LegalWord(t.w) else Symbol(t.c) || t.c == '+' }

  ghost predicate LegalTokens(ts: seq<Token>) { forall i :: 0 <= i < |ts| ==> LegalToken(ts[i]) }

  lemma {:induction false} LexLegal(s: string)
    ensures LegalTokens(Lex(s))
    decreases |s|
  {
    if s == "" || s[0] == '\0' {
    } else if Space(s[0]) {
      LexLegal(s[1..]);
    } else if s[0] == '>' && |s| > 1 && s[1] == '>' {
      LexLegal(s[2..]);
    } else if Symbol(s[0]) {
      LexLegal(s[1..]);
    } else {
      LexLegal(s[WordLen(s)..]);
    }
  }

  /** peek() on the tokens that are left; `>>` starts with '>'. */
  predicate Peek(ts: seq<Token>, toks: string)
  {
    ts != [] && ts[0].Sym? && (if ts[0].c == '+' then '>' else ts[0].c) in toks
  }

  // ---------------------------------------------------------------- the parser

  /** The exec node at the bottom of a chain of redirections gets one more argument. */
  function AddArg<W>(c: Cmd<W>, w: W): Cmd<W>
  {
    match c
    case Exec(argv) => Exec(argv + [w])
    case Redir(d, f, o) => Redir(AddArg(d, w), f, o)
    case _ => c
  }

  type Parsed = Result<(Cmd<string>, seq<Token>)>

  function ParseRedirs(c: Cmd<string>, ts: seq<Token>): (r: Parsed)
    ensures r.Ok? ==> |r.value.1| <= |ts| && !Peek(r.value.1, "<>")
    decreases |ts|
  {
    if !Peek(ts, "<>") then Ok((c, ts))
    else if |ts| < 2 || !ts[1].Word? then Fail(MissingFile)
    else ParseRedirs(Redir(c, ts[1].w, ts[0].c != '<'), ts[2..])
  }

  function ParseArgs(c: Cmd<string>, argc: nat, ts: seq<Token>): (r: Parsed)
    ensures r.Ok? ==> |r.value.1| <= |ts| && (r.value.1 == [] || Peek(r.value.1, "|)&;"))
    decreases |ts|
  {
    if Peek(ts, "|)&;") || ts == [] then Ok((c, ts))
    else if !ts[0].Word? then Fail(Syntax)
    else if argc + 1 >= MAXARGS then Fail(TooManyArgs)
    else match ParseRedirs(AddArg(c, ts[0].w), ts[1..])
      case Fail(e) => Fail(e)
      case Ok(v) => ParseArgs(v.0, argc + 1, v.1)
  }

  function ParseExec(ts: seq<Token>): (r: Parsed)
    ensures r.Ok? ==> |r.value.1| <= |ts|
    decreases |ts|, 0
  {
    if Peek(ts, "(") then ParseBlock(ts)
    else match ParseRedirs(Exec([]), ts)
      case Fail(e) => Fail(e)
      case Ok(v) => ParseArgs(v.0, 0, v.1)
  }

  function ParseBlock(ts: seq<Token>): (r: Parsed)
    requires Peek(ts, "(")
    ensures r.Ok? ==> |r.value.1| <= |ts|
    decreases |ts| - 1, 3
  {
    match ParseLine(ts[1..])
    case Fail(e) => Fail(e)
    case Ok(v) => if !Peek(v.1, ")") then Fail(MissingParen) else ParseRedirs(v.0, v.1[1..])
  }

  function ParsePipe(ts: seq<Token>): (r: Parsed)
    ensures r.Ok? ==> |r.value.1| <= |ts|
    decreases |ts|, 1
  {
    match ParseExec(ts)
    case Fail(e) => Fail(e)
    case Ok(v) =>
      if !Peek(v.1, "|") then Ok(v)
      else match ParsePipe(v.1[1..])
        case Fail(e) => Fail(e)
        case Ok(u) => Ok((Pipe(v.0, u.0), u.1))
  }

  /** The '&' loop of parseline. */
  function ParseBacks(c: Cmd<string>, ts: seq<Token>): (r: (Cmd<string>, seq<Token>))
    ensures |r.1| <= |ts| && !Peek(r.1, "&")
    decreases |ts|
  {
    if Peek(ts, "&") then ParseBacks(Back(c), ts[1..]) else (c, ts)
  }

  function ParseLine(ts: seq<Token>): (r: Parsed)
    ensures r.Ok? ==> |r.value.1| <= |ts|
    decreases |ts|, 2
  {
    match ParsePipe(ts)
    case Fail(e) => Fail(e)
    case Ok(v) =>
      var b := ParseBacks(v.0, v.1);
      if !Peek(b.1, ";") then Ok(b)
      else match ParseLine(b.1[1..])
        case Fail(e) => Fail(e)
        case Ok(u) => Ok((List(b.0, u.0), u.1))
  }

  function Parse(ts: seq<Token>): Result<Cmd<string>>
  {
    match ParseLine(ts)
    case Fail(e) => Fail(e)
    case Ok(v) => if v.1 == [] then Ok(v.0) else Fail(Leftovers)
  }

  // ---------------------------------------------------------------- the printer

  function Words(argv: seq<string>): seq<Token> { if argv == [] then [] else [Word(argv[0])] + Words(argv[1..]) }

  function RedirTokens(f: string, out: bool): seq<Token> { [Sym(if out then '>' else '<'), Word(f)] }

  /** A pipe, list or background command without parentheses around it. */
  function Bare(c: Cmd<string>): seq<Token>
    requires !c.Exec? && !c.Redir?
    decreases c, 0
  {
    match c
    case Pipe(l, r) => PrintExec(l) + [Sym('|')] + PrintPipe(r)
    case List(l, r) => PrintBack(l) + [Sym(';')] + PrintLine(r)
    case Back(d) => PrintBack(d) + [Sym('&')]
  }

  function PrintExec(c: Cmd<string>): seq<Token>
    decreases c, 1
  {
    match c
    case Exec(argv) => Words(argv)
    case Redir(d, f, out) => PrintExec(d) + RedirTokens(f, out)
    case _ => [Sym('(')] + Bare(c) + [Sym(')')]
  }

  function PrintPipe(c: Cmd<string>): seq<Token>
    decreases c, 2
  {
    if c.Pipe? then Bare(c) else PrintExec(c)
  }

  function PrintBack(c: Cmd<string>): seq<Token>
    decreases c, 3
  {
    if c.Back? then Bare(c) else PrintPipe(c)
  }

  /** Parentheses go only where a pipe, list or background command stands in a tighter place. */
  function PrintLine(c: Cmd<string>): seq<Token>
    decreases c, 4
  {
    if c.List? then Bare(c) else PrintBack(c)
  }

  /** Trees of legal words with at most MAXARGS - 1 arguments to each command. */
  predicate Legal(c: Cmd<string>)
  {
    match c
    case Exec(argv) => |argv| < MAXARGS && forall i :: 0 <= i < |argv| ==> LegalWord(argv[i])
    case Redir(d, f, _) => Legal(d) && LegalWord(f)
    case Pipe(l, r) => Legal(l) && Legal(r)
    case List(l, r) => Legal(l) && Legal(r)
    case Back(d) => Legal(d)
  }

  // ---------------------------------------------------------------- round trip, level by level

  /** Redirections as the parser meets them: the innermost first. */
  function Wrap(c: Cmd<string>, rs: seq<(string, bool)>): Cmd<string>
    decreases |rs|
  {
    if rs == [] then c else Wrap(Redir(c, rs[0].0, rs[0].1), rs[1..])
  }

  function RedirsTokens(rs: seq<(string, bool)>): seq<Token>
  {
    if rs == [] then [] else RedirTokens(rs[0].0, rs[0].1) + RedirsTokens(rs[1..])
  }

  function Base(c: Cmd<string>): (b: Cmd<string>)
    ensures !b.Redir? && (Legal(c) ==> Legal(b))
  {
    if c.Redir? then Base(c.cmd) else c
  }

  function Redirs(c: Cmd<string>): seq<(string, bool)> { if c.Redir? then Redirs(c.cmd) + [(c.file, c.out)] else [] }

  lemma {:induction false} WrapSnoc(c: Cmd<string>, rs: seq<(string, bool)>, x: (string, bool))
    ensures Wrap(c, rs + [x]) == Redir(Wrap(c, rs), x.0, x.1)
    ensures RedirsTokens(rs + [x]) == RedirsTokens(rs) + RedirTokens(x.0, x.1)
    decreases |rs|
  {
    var r := rs + [x];
    if rs == [] {
      assert r[1..] == [];
    } else {
      assert r[0] == rs[0] && r[1..] == rs[1..] + [x];
      WrapSnoc(Redir(c, rs[0].0, rs[0].1), rs[1..], x);
    }
  }

  lemma {:induction false} Unwrap(c: Cmd<string>)
    ensures Wrap(Base(c), Redirs(c)) == c && PrintExec(c) == PrintExec(Base(c)) + RedirsTokens(Redirs(c))
  {
    if c.Redir? {
      Unwrap(c.cmd);
      WrapSnoc(Base(c), Redirs(c.cmd), (c.file, c.out));
    }
  }

  lemma {:induction false} RedirsParse(c: Cmd<string>, rs: seq<(string, bool)>, k: seq<Token>)
    requires !Peek(k, "<>")
    ensures ParseRedirs(c, RedirsTokens(rs) + k) == Ok((Wrap(c, rs), k))
    decreases |rs|
  {
    var ts := RedirsTokens(rs) + k;
    if rs == [] {
      assert ts == k;
    } else {
      var m := RedirsTokens(rs[1..]) + k;
      assert ts == RedirTokens(rs[0].0, rs[0].1) + m && ts[2..] == m;
      RedirsParse(Redir(c, rs[0].0, rs[0].1), rs[1..], k);
    }
  }

  lemma {:induction false} ArgsShape(argv: seq<string>, tail: seq<Token>)
    requires argv != []
    ensures Words(argv) != [] && (Words(argv) + tail)[0] == Word(argv[0])
        && (Words(argv) + tail)[1..] == Words(argv[1..]) + tail
    ensures |argv| == 1 ==> Words(argv[1..]) + tail == tail
  {
    assert |argv| == 1 ==> argv[1..] == [];
    assert Words(argv) + tail == [Word(argv[0])] + (Words(argv[1..]) + tail);
  }

  lemma ArgStep(c: Cmd<string>, argc: nat, ts: seq<Token>, v: (Cmd<string>, seq<Token>))
    requires ts != [] && ts[0].Word? && argc + 1 < MAXARGS && ParseRedirs(AddArg(c, ts[0].w), ts[1..]) == Ok(v)
    ensures ParseArgs(c, argc, ts) == ParseArgs(v.0, argc + 1, v.1)
  {
    hide ParseRedirs;
  }

  lemma ArgsEnd(c: Cmd<string>, argc: nat, k: seq<Token>)
    requires k == [] || Peek(k, "|)&;")
    ensures ParseArgs(c, argc, k) == Ok((c, k))
  {
  }

  lemma NoRedirs(c: Cmd<string>, ts: seq<Token>)
    requires !Peek(ts, "<>")
    ensures ParseRedirs(c, ts) == Ok((c, ts))
  {
  }

  /** After the last argument its redirections follow, then something that ends the command. */
  lemma {:induction false} ArgsParse(done: seq<string>, argv: seq<string>, rs: seq<(string, bool)>, k: seq<Token>)
    requires argv != [] && |done| + |argv| < MAXARGS && (k == [] || Peek(k, "|)&;"))
    ensures ParseArgs(Exec(done), |done|, Words(argv) + (RedirsTokens(rs) + k)) == Ok((Wrap(Exec(done + argv), rs), k))
    decreases |argv|
  {
    hide Words, RedirsTokens, Wrap, ParseArgs, ParseRedirs;
    var tail := RedirsTokens(rs) + k;
    var ts, more := Words(argv) + tail, done + [argv[0]];
    ArgsShape(argv, tail);
    if |argv| == 1 {
      assert argv[1..] == [] && more == done + argv;
      RedirsParse(Exec(more), rs, k);
      ArgsEnd(Wrap(Exec(more), rs), |done| + 1, k);
      ArgStep(Exec(done), |done|, ts, (Wrap(Exec(more), rs), k));
    } else {
      ArgsShape(argv[1..], tail);
      assert more + argv[1..] == done + argv;
      NoRedirs(Exec(more), ts[1..]);
      ArgStep(Exec(done), |done|, ts, (Exec(more), ts[1..]));
      ArgsParse(more, argv[1..], rs, k);
    }
  }

  lemma NoArgsParse(rs: seq<(string, bool)>, k: seq<Token>)
    requires k == [] || Peek(k, "|)&;")
    ensures ParseExec(RedirsTokens(rs) + k) == Ok((Wrap(Exec([]), rs), k))
  {
    hide ParseBlock, Wrap;
    var ts := RedirsTokens(rs) + k;
    NotParen(rs, k);
    RedirsParse(Exec([]), rs, k);
  }

  lemma NotParen(rs: seq<(string, bool)>, k: seq<Token>)
    requires k == [] || Peek(k, "|)&;")
    ensures !Peek(RedirsTokens(rs) + k, "(")
  {
    if rs == [] {
      assert RedirsTokens(rs) + k == k;
    } else {
      assert (RedirsTokens(rs) + k)[0] == RedirTokens(rs[0].0, rs[0].1)[0];
    }
  }

  lemma ExecParse(argv: seq<string>, rs: seq<(string, bool)>, k: seq<Token>)
    requires |argv| < MAXARGS && (k == [] || Peek(k, "|)&;"))
    ensures ParseExec(Words(argv) + (RedirsTokens(rs) + k)) == Ok((Wrap(Exec(argv), rs), k))
  {
    hide ParseBlock, ParseArgs, Wrap;
    var tail := RedirsTokens(rs) + k;
    if argv == [] {
      assert Words(argv) + tail == tail;
      NoArgsParse(rs, k);
    } else {
      ArgsShape(argv, tail);
      assert [] + argv == argv;
      ArgsParse([], argv, rs, k);
    }
  }

  lemma {:induction false} PrintedExec(c: Cmd<string>, k: seq<Token>)
    requires Legal(c) && (k == [] || Peek(k, "|)&;"))
    ensures ParseExec(PrintExec(c) + k) == Ok((c, k))
    decreases c, 3
  {
    Unwrap(c);
    var b, rs := Base(c), Redirs(c);
    assert PrintExec(c) + k == PrintExec(b) + (RedirsTokens(rs) + k);
    if b.Exec? {
      ExecParse(b.argv, rs, k);
    } else {
      BaseSmaller(c);
      PrintedBlock(b, rs, k);
    }
  }

  lemma {:induction false} BaseSmaller(c: Cmd<string>)
    ensures Base(c) == c || Base(c) < c
  {
    if c.Redir? {
      BaseSmaller(c.cmd);
    }
  }

  lemma BlockParse(b: Cmd<string>, inner: seq<Token>, tail: seq<Token>, rs: seq<(string, bool)>, k: seq<Token>)
    requires ParseLine(inner + ([Sym(')')] + tail)) == Ok((b, [Sym(')')] + tail))
        && ParseRedirs(b, tail) == Ok((Wrap(b, rs), k))
    ensures ParseExec([Sym('(')] + (inner + ([Sym(')')] + tail))) == Ok((Wrap(b, rs), k))
  {
    hide ParseLine, ParseRedirs, ParseArgs, Wrap;
    var ts := [Sym('(')] + (inner + ([Sym(')')] + tail));
    assert ts[1..] == inner + ([Sym(')')] + tail);
    assert ([Sym(')')] + tail)[1..] == tail;
  }

  lemma BlockShape(b: Cmd<string>, tail: seq<Token>)
    requires !b.Exec? && !b.Redir?
    ensures PrintExec(b) + tail == [Sym('(')] + (Bare(b) + ([Sym(')')] + tail))
  {
    hide Bare;
  }

  lemma {:induction false} PrintedBlock(b: Cmd<string>, rs: seq<(string, bool)>, k: seq<Token>)
    requires !b.Exec? && !b.Redir? && Legal(b) && (k == [] || Peek(k, "|)&;"))
    ensures ParseExec(PrintExec(b) + (RedirsTokens(rs) + k)) == Ok((Wrap(b, rs), k))
    decreases b, 2
  {
    hide ParseExec, ParseLine, ParseRedirs, Bare, Wrap, PrintExec, RedirsTokens;
    var tail := RedirsTokens(rs) + k;
    PrintedBare(b, [Sym(')')] + tail);
    RedirsParse(b, rs, k);
    BlockParse(b, Bare(b), tail, rs, k);
    BlockShape(b, tail);
  }

  function Amps(n: nat): seq<Token> { if n == 0 then [] else [Sym('&')] + Amps(n - 1) }

  function BackN(c: Cmd<string>, n: nat): Cmd<string>
    decreases n
  {
    if n == 0 then c else BackN(Back(c), n - 1)
  }

  function Front(c: Cmd<string>): (b: Cmd<string>)
    ensures !b.Back? && (Legal(c) ==> Legal(b)) && (b == c || b < c) && (c.Back? ==> b < c)
  {
    if c.Back? then Front(c.cmd) else c
  }

  function Backs(c: Cmd<string>): nat { if c.Back? then 1 + Backs(c.cmd) else 0 }

  lemma {:induction false} AmpsSnoc(c: Cmd<string>, n: nat)
    ensures Amps(n + 1) == Amps(n) + [Sym('&')] && BackN(c, n + 1) == Back(BackN(c, n))
    decreases n
  {
    if n > 0 {
      AmpsSnoc(Back(c), n - 1);
    }
  }

  lemma {:induction false} BackShape(c: Cmd<string>)
    ensures PrintBack(c) == PrintPipe(Front(c)) + Amps(Backs(c)) && BackN(Front(c), Backs(c)) == c
  {
    if c.Back? {
      BackShape(c.cmd);
      AmpsSnoc(Front(c), Backs(c.cmd));
    }
  }

  lemma {:induction false} BacksParse(c: Cmd<string>, n: nat, k: seq<Token>)
    requires !Peek(k, "&")
    ensures ParseBacks(c, Amps(n) + k) == (BackN(c, n), k)
    decreases n
  {
    if n == 0 {
      assert Amps(0) + k == k;
    } else {
      assert (Amps(n) + k)[1..] == Amps(n - 1) + k;
      BacksParse(Back(c), n - 1, k);
    }
  }

  /** What ParseLine does before it looks for a ';'. */
  ghost predicate Head(ts: seq<Token>, c: Cmd<string>, k: seq<Token>)
  {
    ParsePipe(ts).Ok? && ParseBacks(ParsePipe(ts).value.0, ParsePipe(ts).value.1) == (c, k)
  }

  lemma {:induction false} PipeStep(l: Cmd<string>, r: Cmd<string>, k: seq<Token>)
    requires Legal(l) && Legal(r) && (k == [] || Peek(k, ")&;"))
    ensures ParsePipe(Bare(Pipe(l, r)) + k) == Ok((Pipe(l, r), k))
    decreases Pipe(l, r), 0
  {
    var more := PrintPipe(r) + k;
    assert Bare(Pipe(l, r)) + k == PrintExec(l) + ([Sym('|')] + more);
    PrintedExec(l, [Sym('|')] + more);
    assert ([Sym('|')] + more)[1..] == more;
    PrintedPipe(r, k);
  }

  lemma {:induction false} PrintedPipe(c: Cmd<string>, k: seq<Token>)
    requires Legal(c) && (k == [] || Peek(k, ")&;"))
    ensures ParsePipe(PrintPipe(c) + k) == Ok((c, k))
    decreases c, 4
  {
    if c.Pipe? {
      PipeStep(c.left, c.right, k);
    } else {
      PrintedExec(c, k);
    }
  }

  lemma AmpsFollow(n: nat, k: seq<Token>)
    requires k == [] || Peek(k, ");")
    ensures Amps(n) + k == [] || Peek(Amps(n) + k, ")&;")
  {
    assert n == 0 ==> Amps(n) + k == k;
  }

  lemma BackJoin(c: Cmd<string>, k: seq<Token>)
    requires (k == [] || Peek(k, ");"))
    requires var b, n := Front(c), Backs(c);
      ParsePipe(PrintPipe(b) + (Amps(n) + k)) == Ok((b, Amps(n) + k))
    ensures Head(PrintBack(c) + k, c, k)
  {
    hide ParsePipe, PrintPipe, PrintBack, ParseBacks, Amps, BackN, Front, Backs;
    var b, n := Front(c), Backs(c);
    BackShape(c);
    BacksParse(b, n, k);
    assert PrintPipe(b) + Amps(n) + k == PrintPipe(b) + (Amps(n) + k);
  }

  lemma {:induction false} PrintedBack(c: Cmd<string>, k: seq<Token>)
    requires Legal(c) && (k == [] || Peek(k, ");"))
    ensures Head(PrintBack(c) + k, c, k)
    decreases c, 5
  {
    AmpsFollow(Backs(c), k);
    PrintedPipe(Front(c), Amps(Backs(c)) + k);
    BackJoin(c, k);
  }

  lemma {:induction false} ListStep(l: Cmd<string>, r: Cmd<string>, k: seq<Token>)
    requires Legal(l) && Legal(r) && (k == [] || Peek(k, ")"))
    ensures ParseLine(Bare(List(l, r)) + k) == Ok((List(l, r), k))
    decreases List(l, r), 0
  {
    var more := PrintLine(r) + k;
    assert Bare(List(l, r)) + k == PrintBack(l) + ([Sym(';')] + more);
    PrintedBack(l, [Sym(';')] + more);
    assert ([Sym(';')] + more)[1..] == more;
    PrintedLine(r, k);
  }

  lemma {:induction false} PrintedBare(c: Cmd<string>, k: seq<Token>)
    requires !c.Exec? && !c.Redir? && Legal(c) && (k == [] || Peek(k, ")"))
    ensures ParseLine(Bare(c) + k) == Ok((c, k))
    decreases c, 1
  {
    match c
    case Pipe(l, r) =>
      PipeStep(l, r, k);
    case Back(d) =>
      AmpsFollow(Backs(c), k);
      PrintedPipe(Front(c), Amps(Backs(c)) + k);
      BackJoin(c, k);
    case List(l, r) =>
      ListStep(l, r, k);
  }

  lemma {:induction false} PrintedLine(c: Cmd<string>, k: seq<Token>)
    requires Legal(c) && (k == [] || Peek(k, ")"))
    ensures ParseLine(PrintLine(c) + k) == Ok((c, k))
    decreases c, 6
  {
    if c.List? {
      ListStep(c.left, c.right, k);
    } else {
      PrintedBack(c, k);
    }
  }

  /** Parsing what was printed gives the same tree. */
  lemma PrintParse(c: Cmd<string>)
    requires Legal(c)
    ensures Parse(PrintLine(c)) == Ok(c)
  {
    PrintedLine(c, []);
    assert PrintLine(c) + [] == PrintLine(c);
  }

  // ---------------------------------------------------------------- what the parser returns is legal

  /** The number of arguments at the bottom of a chain of redirections; MAXARGS if there is none. */
  function ArgCount(c: Cmd<string>): nat
  {
    match c
    case Exec(argv) => |argv|
    case Redir(d, _, _) => ArgCount(d)
    case _ => MAXARGS
  }

  lemma {:induction false} AddArgLegal(c: Cmd<string>, w: string)
    requires Legal(c) && LegalWord(w) && ArgCount(c) + 1 < MAXARGS
    ensures Legal(AddArg(c, w)) && ArgCount(AddArg(c, w)) == ArgCount(c) + 1
  {
    if c.Redir? {
      AddArgLegal(c.cmd, w);
    }
  }

  lemma {:induction false} RedirsLegal(c: Cmd<string>, ts: seq<Token>)
    requires Legal(c) && LegalTokens(ts) && ParseRedirs(c, ts).Ok?
    ensures var v := ParseRedirs(c, ts).value; Legal(v.0) && LegalTokens(v.1) && ArgCount(v.0) == ArgCount(c)
    decreases |ts|
  {
    if Peek(ts, "<>") {
      assert LegalToken(ts[1]);
      RedirsLegal(Redir(c, ts[1].w, ts[0].c != '<'), ts[2..]);
    }
  }

  lemma {:induction false} ArgsLegal(c: Cmd<string>, argc: nat, ts: seq<Token>)
    requires Legal(c) && ArgCount(c) == argc && LegalTokens(ts) && ParseArgs(c, argc, ts).Ok?
    ensures var v := ParseArgs(c, argc, ts).value; Legal(v.0) && LegalTokens(v.1)
    decreases |ts|
  {
    if !(Peek(ts, "|)&;") || ts == []) {
      assert LegalToken(ts[0]) && LegalTokens(ts[1..]);
      AddArgLegal(c, ts[0].w);
      RedirsLegal(AddArg(c, ts[0].w), ts[1..]);
      var v := ParseRedirs(AddArg(c, ts[0].w), ts[1..]).value;
      ArgsLegal(v.0, argc + 1, v.1);
    }
  }

  lemma {:induction false} BacksLegal(c: Cmd<string>, ts: seq<Token>)
    requires Legal(c) && LegalTokens(ts)
    ensures Legal(ParseBacks(c, ts).0) && LegalTokens(ParseBacks(c, ts).1)
    decreases |ts|
  {
    if Peek(ts, "&") {
      BacksLegal(Back(c), ts[1..]);
    }
  }

  lemma {:induction false} ExecLegal(ts: seq<Token>)
    requires LegalTokens(ts) && ParseExec(ts).Ok?
    ensures Legal(ParseExec(ts).value.0) && LegalTokens(ParseExec(ts).value.1)
    decreases |ts|, 0
  {
    if Peek(ts, "(") {
      LineLegal(ts[1..]);
      var v := ParseLine(ts[1..]).value;
      RedirsLegal(v.0, v.1[1..]);
    } else {
      RedirsLegal(Exec([]), ts);
      var v := ParseRedirs(Exec([]), ts).value;
      ArgsLegal(v.0, 0, v.1);
    }
  }

  lemma {:induction false} PipeLegal(ts: seq<Token>)
    requires LegalTokens(ts) && ParsePipe(ts).Ok?
    ensures Legal(ParsePipe(ts).value.0) && LegalTokens(ParsePipe(ts).value.1)
    decreases |ts|, 1
  {
    ExecLegal(ts);
    var v := ParseExec(ts).value;
    if Peek(v.1, "|") {
      PipeLegal(v.1[1..]);
    }
  }

  lemma {:induction false} LineLegal(ts: seq<Token>)
    requires LegalTokens(ts) && ParseLine(ts).Ok?
    ensures Legal(ParseLine(ts).value.0) && LegalTokens(ParseLine(ts).value.1)
    decreases |ts|, 2
  {
    PipeLegal(ts);
    var v := ParsePipe(ts).value;
    BacksLegal(v.0, v.1);
    var b := ParseBacks(v.0, v.1);
    if Peek(b.1, ";") {
      LineLegal(b.1[1..]);
    }
  }

  // ---------------------------------------------------------------- from tokens to text

  function Spell(t: Token): string { if t.Word? then t.w else if t.c == '+' then ">>" else [t.c] }

  /** Each token, then a blank. */
  function Render(ts: seq<Token>): string { if ts == [] then "" else Spell(ts[0]) + " " + Render(ts[1..]) }

  lemma {:induction false} WordLenIs(w: string, rest: string)
    requires (forall i :: 0 <= i < |w| ==> WordChar(w[i])) && rest != "" && !WordChar(rest[0])
    ensures WordLen(w + rest) == |w|
  {
    if w == "" {
      assert w + rest == rest;
    } else {
      assert (w + rest)[1..] == w[1..] + rest;
      WordLenIs(w[1..], rest);
    }
  }

  lemma LexToken(t: Token, rest: string)
    requires LegalToken(t)
    ensures Lex(Spell(t) + (" " + rest)) == [t] + Lex(rest)
  {
    var s := Spell(t) + (" " + rest);
    assert Lex(" " + rest) == Lex(rest) by { assert (" " + rest)[1..] == rest; }
    if t.Word? {
      WordLenIs(t.w, " " + rest);
      assert s[..|t.w|] == t.w && s[|t.w|..] == " " + rest;
      assert WordChar(s[0]);
    } else if t.c == '+' {
      assert s[2..] == " " + rest;
    } else {
      assert s[0] == t.c && s[1] == ' ' && s[1..] == " " + rest;
    }
  }

  lemma {:induction false} LexRender(ts: seq<Token>)
    requires LegalTokens(ts)
    ensures Lex(Render(ts)) == ts
  {
    if ts != [] {
      LexRender(ts[1..]);
      LexToken(ts[0], Render(ts[1..]));
      assert Spell(ts[0]) + " " + Render(ts[1..]) == Spell(ts[0]) + (" " + Render(ts[1..]));
    }
  }

  lemma {:induction false} WordsLegal(argv: seq<string>)
    requires forall i :: 0 <= i < |argv| ==> LegalWord(argv[i])
    ensures LegalTokens(Words(argv))
  {
    if argv != [] {
      WordsLegal(argv[1..]);
    }
  }

  lemma {:induction false} BareLegal(c: Cmd<string>)
    requires !c.Exec? && !c.Redir? && Legal(c)
    ensures LegalTokens(Bare(c))
    decreases c, 0
  {
    match c
    case Pipe(l, r) => PrintLegal(l); PrintLegal(r);
    case List(l, r) => PrintLegal(l); PrintLegal(r);
    case Back(d) => PrintLegal(d);
  }

  lemma {:induction false} PrintLegal(c: Cmd<string>)
    requires Legal(c)
    ensures LegalTokens(PrintExec(c)) && LegalTokens(PrintPipe(c)) && LegalTokens(PrintBack(c))
        && LegalTokens(PrintLine(c))
    decreases c, 1
  {
    match c
    case Exec(argv) => WordsLegal(argv);
    case Redir(d, f, out) =>
      PrintLegal(d);
      assert LegalTokens(RedirTokens(f, out));
    case _ => BareLegal(c);
  }

  /** Printing any legal tree as text and parsing the text gives the same tree. */
  lemma RoundTrip(c: Cmd<string>)
    requires Legal(c)
    ensures Parse(Lex(Render(PrintLine(c)))) == Ok(c)
  {
    PrintLegal(c);
    LexRender(PrintLine(c));
    PrintParse(c);
  }

  /** The trees the parser can return are exactly the legal ones. */
  lemma ParserImage(c: Cmd<string>)
    ensures Legal(c) <==> exists s :: Parse(Lex(s)) == Ok(c)
  {
    if Legal(c) {
      RoundTrip(c);
    }
    forall s | Parse(Lex(s)) == Ok(c) ensures Legal(c) {
      LexLegal(s);
      LineLegal(Lex(s));
    }
  }
}
