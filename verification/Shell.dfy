/** The recursive-descent parser of sh.c: one cursor, shared by all its procedures, moves over the buffer. */
module Shell {
  import opened ShellSyntax
  import opened ShellGrammar

  /** A word of the command line, from `q` up to `eq`. */
  datatype Span = Span(q: nat, eq: nat)

  function Text(buf: string, w: Span): string { if w.q <= w.eq <= |buf| then buf[w.q..w.eq] else "" }

  function TextAll(buf: string, ws: seq<Span>): (r: seq<string>)
    ensures |r| == |ws|
  {
    if ws == [] then [] else TextAll(buf, ws[..|ws| - 1]) + [Text(buf, ws[|ws| - 1])]
  }

  /** The tree with the text of its words. */
  function Read(buf: string, c: Cmd<Span>): Cmd<string>
  {
    match c
    case Exec(argv) => Exec(TextAll(buf, argv))
    case Redir(d, f, out) => Redir(Read(buf, d), Text(buf, f), out)
    case Pipe(l, r) => Pipe(Read(buf, l), Read(buf, r))
    case List(l, r) => List(Read(buf, l), Read(buf, r))
    case Back(d) => Back(Read(buf, d))
  }

  /** A maximal run of word characters to the right: what follows it is not part of any word. */
  predicate WordAt(buf: string, w: Span)
  {
    && w.q < w.eq <= |buf| && (forall k :: w.q <= k < w.eq ==> WordChar(buf[k]))
    && (w.eq < |buf| ==> !WordChar(buf[w.eq]))
  }

  predicate WordsAt(buf: string, c: Cmd<Span>)
  {
    match c
    case Exec(argv) => forall i :: 0 <= i < |argv| ==> WordAt(buf, argv[i])
    case Redir(d, f, _) => WordsAt(buf, d) && WordAt(buf, f)
    case Pipe(l, r) => WordsAt(buf, l) && WordsAt(buf, r)
    case List(l, r) => WordsAt(buf, l) && WordsAt(buf, r)
    case Back(d) => WordsAt(buf, d)
  }

  lemma {:induction false} ReadAddArg(buf: string, c: Cmd<Span>, w: Span)
    requires WordsAt(buf, c) && WordAt(buf, w)
    ensures Read(buf, AddArg(c, w)) == AddArg(Read(buf, c), Text(buf, w)) && WordsAt(buf, AddArg(c, w))
  {
    if c.Exec? {
      assert (c.argv + [w])[..|c.argv|] == c.argv;
    } else if c.Redir? {
      ReadAddArg(buf, c.cmd, w);
    }
  }

  // ---------------------------------------------------------------- the lexer, from a cursor

  /** The character under the cursor; NUL at the end. */
  function At(buf: string, k: nat): char { if k < |buf| then buf[k] else '\0' }

  lemma LexSpace(buf: string, k: nat)
    requires k < |buf| && Space(buf[k])
    ensures Lex(buf[k..]) == Lex(buf[k + 1..])
  {
    assert buf[k..][1..] == buf[k + 1..];
  }

  lemma LexEnd(buf: string)
    ensures Lex(buf[|buf|..]) == []
  {
  }

  /** What gettoken's switch finds under the cursor. */
  lemma LexAt(buf: string, k: nat)
    requires k < |buf| && !Space(buf[k]) && buf[k] != '\0'
    ensures Symbol(buf[k]) && !(buf[k] == '>' && At(buf, k + 1) == '>') ==>
        Lex(buf[k..]) == [Sym(buf[k])] + Lex(buf[k + 1..])
    ensures buf[k] == '>' && At(buf, k + 1) == '>' ==> k + 2 <= |buf| && Lex(buf[k..]) == [Sym('+')] + Lex(buf[k + 2..])
    ensures !Symbol(buf[k]) ==> var n := WordLen(buf[k..]);
              && 0 < n && k + n <= |buf| && WordAt(buf, Span(k, k + n))
              && Lex(buf[k..]) == [Word(buf[k..k + n])] + Lex(buf[k + n..])
  {
    var s := buf[k..];
    assert s[0] == buf[k] && s[1..] == buf[k + 1..];
    if Symbol(buf[k]) {
      if |s| > 1 {
        assert s[1] == buf[k + 1] && s[2..] == buf[k + 2..];
      }
    } else {
      WordHere(buf, k);
      var n := WordLen(s);
      assert s[..n] == buf[k..k + n] && s[n..] == buf[k + n..];
    }
  }

  lemma WordHere(buf: string, k: nat)
    requires k < |buf| && WordChar(buf[k])
    ensures var n := WordLen(buf[k..]); 0 < n && k + n <= |buf| && WordAt(buf, Span(k, k + n))
  {
    var s, n := buf[k..], WordLen(buf[k..]);
    assert s[0] == buf[k];
    forall j | k <= j < k + n ensures WordChar(buf[j]) {
      assert s[j - k] == buf[j];
    }
    assert k + n < |buf| ==> s[n] == buf[k + n];
  }

  class Parser {
    const buf: string
    /** `*ps` */
    var s: nat

    ghost predicate Valid()
      reads this
    {
      s <= |buf| && '\0' !in buf
    }

    /** The tokens from the cursor on. */
    ghost function Rest(): seq<Token>
      reads this
      requires s <= |buf|
    {
      Lex(buf[s..])
    }

    ghost function View(r: Result<Cmd<Span>>): Parsed
      reads this
      requires s <= |buf|
    {
      match r
      case Fail(e) => Fail(e)
      case Ok(c) => Ok((Read(buf, c), Rest()))
    }

    ghost predicate Good(r: Result<Cmd<Span>>) { r.Ok? ==> WordsAt(buf, r.value) }

    constructor (line: string)
      requires '\0' !in line
      ensures Valid() && s == 0 && buf == line && Rest() == Lex(line)
    {
      buf, s := line, 0;
      new;
      assert line[0..] == line;
    }

    /** `while(s < es && strchr(whitespace, *s)) s++` */
    method SkipSpace(at: nat) returns (k: nat)
      requires at <= |buf|
      ensures at <= k <= |buf| && (k < |buf| ==> !Space(buf[k])) && Lex(buf[k..]) == Lex(buf[at..])
    {
      k := at;
      while k < |buf| && Space(buf[k])
        invariant at <= k <= |buf| && Lex(buf[k..]) == Lex(buf[at..])
      {
        LexSpace(buf, k);
        k := k + 1;
      }
    }

    /** peek: skip blanks and look whether one of `toks` comes next. */
    method PeekAt(toks: string) returns (r: bool)
      requires Valid() && forall c :: c in toks ==> Symbol(c)
      modifies this
      ensures Valid() && s >= old(s) && Rest() == old(Rest()) && (s < |buf| ==> !Space(buf[s]))
      ensures r <==> Peek(Rest(), toks)
    {
      s := SkipSpace(s);
      if s < |buf| {
        LexAt(buf, s);
        return buf[s] in toks;
      } else {
        LexEnd(buf);
        return false;
      }
    }

    /** The word loop of gettoken. */
    method SkipWord(at: nat) returns (k: nat)
      requires at <= |buf|
      ensures k == at + WordLen(buf[at..])
    {
      k := at;
      while k < |buf| && WordChar(buf[k])
        invariant at <= k <= |buf| && k + WordLen(buf[k..]) == at + WordLen(buf[at..])
      {
        assert buf[k..][0] == buf[k] && buf[k..][1..] == buf[k + 1..];
        k := k + 1;
      }
      assert k < |buf| ==> buf[k..][0] == buf[k];
    }

    /** gettoken: the next token is taken; the word, if it is one, lies at `w`. */
    method GetToken() returns (tok: char, w: Span)
      requires Valid()
      modifies this
      ensures Valid() && s >= old(s)
      ensures old(Rest()) == [] ==> tok == '\0' && Rest() == []
      ensures old(Rest()) != [] ==> s > old(s) && Rest() == old(Rest())[1..]
      ensures old(Rest()) != [] ==>
                match old(Rest())[0]
                case Word(x) => tok == 'a' && WordAt(buf, w) && Text(buf, w) == x
                case Sym(c) => tok == c && (Symbol(c) || c == '+')
    {
      hide Lex, WordLen, WordAt, Space;
      var q := SkipSpace(s);
      var e := q;
      if q == |buf| {
        LexEnd(buf);
        tok := '\0';
      } else {
        LexAt(buf, q);
        tok := buf[q];
        if Symbol(buf[q]) {
          e := q + 1;
          if buf[q] == '>' && At(buf, e) == '>' {
            tok := '+';
            e := e + 1;
          }
        } else {
          tok := 'a';
          e := SkipWord(q);
        }
      }
      w := Span(q, e);
      s := SkipSpace(e);
    }

    method ParseRedirections(c: Cmd<Span>) returns (r: Result<Cmd<Span>>)
      requires Valid() && WordsAt(buf, c)
      modifies this
      ensures Valid() && s >= old(s) && Good(r) && View(r) == ParseRedirs(Read(buf, c), old(Rest()))
    {
      hide Lex, Read, WordAt;
      ghost var target := ParseRedirs(Read(buf, c), Rest());
      var cmd := c;
      var more := PeekAt("<>");
      while more
        invariant Valid() && s >= old(s) && WordsAt(buf, cmd) && ParseRedirs(Read(buf, cmd), Rest()) == target
        invariant more <==> Peek(Rest(), "<>")
        decreases |buf| - s
      {
        var tok, _ := GetToken();
        var kind, w := GetToken();
        if kind != 'a' {
          return Fail(MissingFile);
        }
        RedirRead(buf, cmd, w, tok != '<');
        cmd := Redir(cmd, w, tok != '<');
        more := PeekAt("<>");
      }
      return Ok(cmd);
    }
  
    /** The argument loop of parseexec; `cmd` is the exec node under the redirections read so far. */
    method ParseArguments(cmd: Cmd<Span>) returns (r: Result<Cmd<Span>>)
      requires Valid() && WordsAt(buf, cmd)
      modifies this
      ensures Valid() && s >= old(s) && Good(r) && View(r) == ParseArgs(Read(buf, cmd), 0, old(Rest()))
    {
      hide Lex, Read, WordAt, ParseRedirs;
      ghost var target := ParseArgs(Read(buf, cmd), 0, Rest());
      var ret, argc := cmd, 0;
      var stop := PeekAt("|)&;");
      while !stop
        invariant Valid() && s >= old(s) && WordsAt(buf, ret) && ParseArgs(Read(buf, ret), argc, Rest()) == target
        invariant stop <==> Peek(Rest(), "|)&;")
        decreases |buf| - s, !stop
      {
        var tok, w := GetToken();
        if tok == '\0' {
          break;
        }
        if tok != 'a' {
          return Fail(Syntax);
        }
        if argc + 1 >= MAXARGS {
          return Fail(TooManyArgs);
        }
        ReadAddArg(buf, ret, w);
        r := ParseRedirections(AddArg(ret, w));
        if r.Fail? {
          return;
        }
        ret, argc := r.value, argc + 1;
        stop := PeekAt("|)&;");
      }
      return Ok(ret);
    }

    /** parseexec */
    method ParseExecCmd() returns (r: Result<Cmd<Span>>)
      requires Valid()
      modifies this
      ensures Valid() && s >= old(s) && Good(r) && View(r) == ParseExec(old(Rest()))
      decreases |buf| - s, 1
    {
      hide Lex, WordAt, ParseRedirs, ParseArgs, ParseBlock;
      var block := PeekAt("(");
      if block {
        r := ParseBlockCmd();
        return;
      }
      r := ParseRedirections(Exec([]));
      if r.Ok? {
        r := ParseArguments(r.value);
      }
    }

    /** parseblock, past its check for '('. */
    method ParseBlockCmd() returns (r: Result<Cmd<Span>>)
      requires Valid() && Peek(Rest(), "(")
      modifies this
      ensures Valid() && s >= old(s) && Good(r) && View(r) == ParseBlock(old(Rest()))
      decreases |buf| - s, 0
    {
      hide Lex, WordAt, ParseRedirs, ParseLine;
      var _, _ := GetToken();
      r := ParseLineCmd();
      if r.Fail? {
        return;
      }
      var closed := PeekAt(")");
      if !closed {
        return Fail(MissingParen);
      }
      var _, _ := GetToken();
      r := ParseRedirections(r.value);
    }

    /** parsepipe */
    method ParsePipeCmd() returns (r: Result<Cmd<Span>>)
      requires Valid()
      modifies this
      ensures Valid() && s >= old(s) && Good(r) && View(r) == ParsePipe(old(Rest()))
      decreases |buf| - s, 2
    {
      hide Lex, WordAt, ParseExec;
      r := ParseExecCmd();
      if r.Fail? {
        return;
      }
      var piped := PeekAt("|");
      if piped {
        var left := r.value;
        var _, _ := GetToken();
        r := ParsePipeCmd();
        if r.Ok? {
          r := Ok(Pipe(left, r.value));
        }
      }
    }

    /** The '&' loop of parseline. */
    method ParseAmpersands(c: Cmd<Span>) returns (cmd: Cmd<Span>)
      requires Valid() && WordsAt(buf, c)
      modifies this
      ensures Valid() && s >= old(s) && WordsAt(buf, cmd)
          && (Read(buf, cmd), Rest()) == ParseBacks(Read(buf, c), old(Rest()))
    {
      hide Lex, WordAt;
      ghost var target := ParseBacks(Read(buf, c), Rest());
      cmd := c;
      var more := PeekAt("&");
      while more
        invariant Valid() && s >= old(s) && WordsAt(buf, cmd) && ParseBacks(Read(buf, cmd), Rest()) == target
        invariant more <==> Peek(Rest(), "&")
        decreases |buf| - s
      {
        var _, _ := GetToken();
        cmd := Back(cmd);
        more := PeekAt("&");
      }
    }

    /** parseline */
    method ParseLineCmd() returns (r: Result<Cmd<Span>>)
      requires Valid()
      modifies this
      ensures Valid() && s >= old(s) && Good(r) && View(r) == ParseLine(old(Rest()))
      decreases |buf| - s, 3
    {
      hide Lex, WordAt, ParsePipe, ParseBacks;
      r := ParsePipeCmd();
      if r.Fail? {
        return;
      }
      var cmd := ParseAmpersands(r.value);
      r := Ok(cmd);
      var more := PeekAt(";");
      if more {
        var _, _ := GetToken();
        r := ParseLineCmd();
        if r.Ok? {
          r := Ok(List(cmd, r.value));
        }
      }
    }

    /** parsecmd, up to nulterminate. */
    method ParseAll() returns (r: Result<Cmd<Span>>)
      requires Valid()
      modifies this
      ensures Valid() && Good(r)
      ensures match r case Fail(e) => Parse(old(Rest())) == Fail(e) case Ok(c) => Parse(old(Rest())) == Ok(Read(buf, c))
    {
      hide Lex, WordAt, ParseLine;
      r := ParseLineCmd();
      if r.Fail? {
        return;
      }
      var _ := PeekAt("");
      AtEnd(buf, s);
      if s != |buf| {
        return Fail(Leftovers);
      }
    }
  }

  lemma AtEnd(buf: string, k: nat)
    requires k <= |buf| && '\0' !in buf && (k < |buf| ==> !Space(buf[k]))
    ensures Lex(buf[k..]) == [] <==> k == |buf|
  {
    if k < |buf| {
      LexAt(buf, k);
    }
  }

  lemma RedirRead(buf: string, c: Cmd<Span>, w: Span, out: bool)
    requires WordsAt(buf, c) && WordAt(buf, w)
    ensures Read(buf, Redir(c, w, out)) == Redir(Read(buf, c), Text(buf, w), out) && WordsAt(buf, Redir(c, w, out))
  {
  }

  // ---------------------------------------------------------------- nulterminate

  /** `k` is where some word of the tree ends. */
  predicate EndsAt(c: Cmd<Span>, k: nat)
  {
    match c
    case Exec(argv) => exists i :: 0 <= i < |argv| && argv[i].eq == k
    case Redir(d, f, _) => EndsAt(d, k) || f.eq == k
    case Pipe(l, r) => EndsAt(l, k) || EndsAt(r, k)
    case List(l, r) => EndsAt(l, k) || EndsAt(r, k)
    case Back(d) => EndsAt(d, k)
  }

  /** nulterminate: a NUL goes where a word ends, and nowhere else. */
  method Nulterminate(a: array<char>, c: Cmd<Span>)
    requires forall k: nat :: EndsAt(c, k) ==> k < a.Length
    modifies a
    ensures forall k :: 0 <= k < a.Length ==> a[k] == if EndsAt(c, k) then '\0' else old(a[k])
  {
    match c
    case Exec(argv) =>
      var i := 0;
      while i < |argv|
        invariant 0 <= i <= |argv|
        invariant forall k :: 0 <= k < a.Length ==> a[k] == if EndsAt(Exec(argv[..i]), k) then '\0' else old(a[k])
      {
        assert EndsAt(c, argv[i].eq);
        a[argv[i].eq] := '\0';
        OneMoreEnd(argv, i);
        i := i + 1;
      }
      assert argv[..i] == argv;
    case Redir(d, f, _) =>
      assert EndsAt(c, f.eq);
      assert forall k :: EndsAt(d, k) ==> EndsAt(c, k);
      Nulterminate(a, d);
      a[f.eq] := '\0';
    case Pipe(l, r) =>
      assert forall k :: EndsAt(l, k) || EndsAt(r, k) ==> EndsAt(c, k);
      Nulterminate(a, l);
      Nulterminate(a, r);
    case List(l, r) =>
      assert forall k :: EndsAt(l, k) || EndsAt(r, k) ==> EndsAt(c, k);
      Nulterminate(a, l);
      Nulterminate(a, r);
    case Back(d) =>
      assert forall k :: EndsAt(d, k) ==> EndsAt(c, k);
      Nulterminate(a, d);
  }

  lemma OneMoreEnd(argv: seq<Span>, i: nat)
    requires i < |argv|
    ensures forall k :: EndsAt(Exec(argv[..i + 1]), k) <==> EndsAt(Exec(argv[..i]), k) || k == argv[i].eq
  {
    forall k ensures EndsAt(Exec(argv[..i + 1]), k) <==> EndsAt(Exec(argv[..i]), k) || k == argv[i].eq {
      var ws, vs := argv[..i + 1], argv[..i];
      if EndsAt(Exec(ws), k) {
        var j :| 0 <= j < |ws| && ws[j].eq == k;
        assert j < i ==> vs[j].eq == k;
      }
      if EndsAt(Exec(vs), k) {
        var j :| 0 <= j < |vs| && vs[j].eq == k;
        assert ws[j].eq == k;
      }
      assert ws[i] == argv[i];
    }
  }

  /** Words end outside words: the characters there are blanks, symbols or the final NUL. */
  lemma {:induction false} EndsOutside(buf: string, c: Cmd<Span>, k: nat)
    requires WordsAt(buf, c) && EndsAt(c, k)
    ensures k <= |buf| && (k < |buf| ==> !WordChar(buf[k]))
  {
    match c
    case Exec(argv) =>
      var i :| 0 <= i < |argv| && argv[i].eq == k;
      assert WordAt(buf, argv[i]);
    case Redir(d, f, _) => if EndsAt(d, k) { EndsOutside(buf, d, k); }
    case Pipe(l, r) => if EndsAt(l, k) { EndsOutside(buf, l, k); } else { EndsOutside(buf, r, k); }
    case List(l, r) => if EndsAt(l, k) { EndsOutside(buf, l, k); } else { EndsOutside(buf, r, k); }
    case Back(d) => EndsOutside(buf, d, k);
  }

  /** The C string that starts at `q`. */
  function CString(m: seq<char>, q: nat): string
    decreases |m| - q
  {
    if q >= |m| || m[q] == '\0' then "" else [m[q]] + CString(m, q + 1)
  }

  function CStrings(m: seq<char>, ws: seq<Span>): (r: seq<string>)
    ensures |r| == |ws|
  {
    if ws == [] then [] else CStrings(m, ws[..|ws| - 1]) + [CString(m, ws[|ws| - 1].q)]
  }

  /** The tree as exec and open see it: each word is the C string at its pointer. */
  function CRead(m: seq<char>, c: Cmd<Span>): Cmd<string>
  {
    match c
    case Exec(argv) => Exec(CStrings(m, argv))
    case Redir(d, f, out) => Redir(CRead(m, d), CString(m, f.q), out)
    case Pipe(l, r) => Pipe(CRead(m, l), CRead(m, r))
    case List(l, r) => List(CRead(m, l), CRead(m, r))
    case Back(d) => Back(CRead(m, d))
  }

  /** `m` is the line with NULs at the ends of the words of `c`. */
  ghost predicate Terminated(m: seq<char>, buf: string, c: Cmd<Span>)
  {
    && |m| == |buf| + 1
    && (forall k :: 0 <= k < |buf| && WordChar(buf[k]) ==> m[k] == buf[k])
    && (forall k :: 0 <= k < |m| && EndsAt(c, k) ==> m[k] == '\0')
  }

  lemma {:induction false} CStringIs(m: seq<char>, buf: string, w: Span, q: nat)
    requires |m| == |buf| + 1 && (forall k :: 0 <= k < |buf| && WordChar(buf[k]) ==> m[k] == buf[k])
    requires WordAt(buf, w) && m[w.eq] == '\0' && w.q <= q <= w.eq
    ensures CString(m, q) == buf[q..w.eq]
    decreases w.eq - q
  {
    if q < w.eq {
      assert WordChar(buf[q]);
      CStringIs(m, buf, w, q + 1);
      assert buf[q..w.eq] == [buf[q]] + buf[q + 1..w.eq];
    }
  }

  lemma {:induction false} CStringsAre(m: seq<char>, buf: string, c: Cmd<Span>, ws: seq<Span>)
    requires Terminated(m, buf, c) && forall i :: 0 <= i < |ws| ==> WordAt(buf, ws[i]) && EndsAt(c, ws[i].eq)
    ensures CStrings(m, ws) == TextAll(buf, ws)
  {
    if ws != [] {
      CStringsAre(m, buf, c, ws[..|ws| - 1]);
      var w := ws[|ws| - 1];
      CStringIs(m, buf, w, w.q);
    }
  }

  /** Every word of a subtree `d` ends where a word of the whole tree `c` ends. */
  ghost predicate Within(d: Cmd<Span>, c: Cmd<Span>) { forall k :: EndsAt(d, k) ==> EndsAt(c, k) }

  /** After nulterminate each argument and file name is exactly its token. */
  lemma {:induction false} TokensAreStrings(m: seq<char>, buf: string, c: Cmd<Span>, d: Cmd<Span>)
    requires Terminated(m, buf, c) && Within(d, c) && WordsAt(buf, d)
    ensures CRead(m, d) == Read(buf, d)
    decreases d
  {
    match d
    case Exec(argv) =>
      forall i | 0 <= i < |argv| ensures EndsAt(c, argv[i].eq) {
        assert EndsAt(d, argv[i].eq);
      }
      CStringsAre(m, buf, c, argv);
    case Redir(e, f, out) =>
      assert EndsAt(d, f.eq) && Within(e, c);
      TokensAreStrings(m, buf, c, e);
      CStringIs(m, buf, f, f.q);
    case Pipe(l, r) =>
      assert Within(l, c) && Within(r, c);
      TokensAreStrings(m, buf, c, l);
      TokensAreStrings(m, buf, c, r);
    case List(l, r) =>
      assert Within(l, c) && Within(r, c);
      TokensAreStrings(m, buf, c, l);
      TokensAreStrings(m, buf, c, r);
    case Back(e) =>
      assert Within(e, c);
      TokensAreStrings(m, buf, c, e);
  }

  lemma NulterminatedLine(m: seq<char>, buf: string, c: Cmd<Span>)
    requires WordsAt(buf, c) && |m| == |buf| + 1
    requires forall k :: 0 <= k < |m| ==> m[k] == if EndsAt(c, k) then '\0' else (buf + ['\0'])[k]
    ensures Terminated(m, buf, c)
  {
    forall k | 0 <= k < |buf| && WordChar(buf[k]) ensures m[k] == buf[k] {
      if EndsAt(c, k) {
        EndsOutside(buf, c, k);
      }
    }
  }

  /**
   parsecmd on a NUL-terminated buffer: it fails as the grammar fails, or its tree, read through the
   pointers into the changed buffer, is the tree of the grammar.
   */
  method ParseCmd(a: array<char>, line: string) returns (r: Result<Cmd<Span>>)
    requires '\0' !in line && a[..] == line + ['\0']
    modifies a
    ensures match r case Fail(e) => Parse(Lex(line)) == Fail(e) case Ok(c) => Parse(Lex(line)) == Ok(CRead(a[..], c))
    ensures r.Ok? ==> exists ts :: Spells(line, ts) && Derives(ts, CRead(a[..], r.value))
    ensures r.Fail? ==> exists ts :: Spells(line, ts) && Wrong(ts, r.error)
  {
    hide Spells, Derives, Wrong;
    var p := new Parser(line);
    r := p.ParseAll();
    LexesExactly(line, Lex(line));
    if r.Fail? {
      FailsExactly(Lex(line), r.error);
    }
    if r.Ok? {
      var c := r.value;
      forall k: nat | EndsAt(c, k) ensures k < a.Length {
        EndsOutside(line, c, k);
      }
      Nulterminate(a, c);
      NulterminatedLine(a[..], line, c);
      TokensAreStrings(a[..], line, c, c);
      ParsesExactly(Lex(line), CRead(a[..], c));
    }
  }
}
