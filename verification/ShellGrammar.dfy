/**
 The shell's language, apart from any parser: concrete syntax trees, the tokens they stand for and the command
 they mean. The parser accepts exactly this language, and each of its panics has exactly its cause.
 */
module ShellGrammar {
  import opened ShellSyntax

  // ---------------------------------------------------------------- concrete syntax

  /** A part of a simple command: an argument, or a redirection by '<', '>' or '+' (which is `>>`). */
  datatype Item = Arg(w: string) | Red(c: char, w: string)

  /** Redirections stand anywhere in a simple command, and behind a block. */
  datatype Unit = Simple(items: seq<Item>) | Block(inner: Line, reds: seq<Item>)

  datatype Piped = Last(u: Unit) | Bar(u: Unit, rest: Piped)

  /** A pipeline and the '&' behind it. */
  datatype Backed = Backed(p: Piped, amps: nat)

  datatype Line = End(b: Backed) | Semi(b: Backed, rest: Line)

  // ---------------------------------------------------------------- its tokens

  function ItemText(x: Item): seq<Token>
  {
    match x
    case Arg(w) => [Word(w)]
    case Red(c, w) => [Sym(c), Word(w)]
  }

  function ItemsText(xs: seq<Item>): seq<Token>
  {
    if xs == [] then [] else ItemsText(xs[..|xs| - 1]) + ItemText(xs[|xs| - 1])
  }

  function AmpsText(n: nat): seq<Token> { if n == 0 then [] else AmpsText(n - 1) + [Sym('&')] }

  function UnitText(u: Unit): seq<Token>
  {
    match u
    case Simple(xs) => ItemsText(xs)
    case Block(l, xs) => [Sym('(')] + LineText(l) + [Sym(')')] + ItemsText(xs)
  }

  function PipedText(p: Piped): seq<Token>
  {
    match p
    case Last(u) => UnitText(u)
    case Bar(u, rest) => UnitText(u) + [Sym('|')] + PipedText(rest)
  }

  function BackedText(b: Backed): seq<Token> { PipedText(b.p) + AmpsText(b.amps) }

  function LineText(l: Line): seq<Token>
  {
    match l
    case End(b) => BackedText(b)
    case Semi(b, rest) => BackedText(b) + [Sym(';')] + LineText(rest)
  }

  // ---------------------------------------------------------------- its command

  /** '<' reads into fd 0; '>' and `>>` both write from fd 1 and create the file. */
  predicate Writes(c: char) { c == '>' || c == '+' }

  function Args(xs: seq<Item>): seq<string>
  {
    if xs == [] then []
    else Args(xs[..|xs| - 1]) + match xs[|xs| - 1] case Arg(w) => [w] case Red(_, _) => []
  }

  /** The redirections go around the command in their order. */
  function Redirected(c: Cmd<string>, xs: seq<Item>): Cmd<string>
    decreases |xs|
  {
    if xs == [] then c
    else
      var d := Redirected(c, xs[..|xs| - 1]);
      match xs[|xs| - 1] case Arg(_) => d case Red(s, w) => Redir(d, w, Writes(s))
  }

  function Ampersands(c: Cmd<string>, n: nat): Cmd<string> { if n == 0 then c else Back(Ampersands(c, n - 1)) }

  function UnitTree(u: Unit): Cmd<string>
  {
    match u
    case Simple(xs) => Redirected(Exec(Args(xs)), xs)
    case Block(l, xs) => Redirected(LineTree(l), xs)
  }

  function PipedTree(p: Piped): Cmd<string>
  {
    match p
    case Last(u) => UnitTree(u)
    case Bar(u, rest) => Pipe(UnitTree(u), PipedTree(rest))
  }

  function BackedTree(b: Backed): Cmd<string> { Ampersands(PipedTree(b.p), b.amps) }

  function LineTree(l: Line): Cmd<string>
  {
    match l
    case End(b) => BackedTree(b)
    case Semi(b, rest) => List(BackedTree(b), LineTree(rest))
  }

  // ---------------------------------------------------------------- which trees there are

  predicate RedOk(x: Item) { x.Red? && x.c in {'<', '>', '+'} }

  predicate ItemOk(x: Item) { x.Arg? || RedOk(x) }

  predicate UnitOk(u: Unit)
  {
    match u
    case Simple(xs) => (forall i :: 0 <= i < |xs| ==> ItemOk(xs[i])) && |Args(xs)| < MAXARGS
    case Block(l, xs) => LineOk(l) && forall i :: 0 <= i < |xs| ==> RedOk(xs[i])
  }

  predicate PipedOk(p: Piped)
  {
    match p
    case Last(u) => UnitOk(u)
    case Bar(u, rest) => UnitOk(u) && PipedOk(rest)
  }

  predicate BackedOk(b: Backed) { PipedOk(b.p) }

  predicate LineOk(l: Line)
  {
    match l
    case End(b) => BackedOk(b)
    case Semi(b, rest) => BackedOk(b) && LineOk(rest)
  }

  /** The tokens `ts` are a command line that means `c`. */
  ghost predicate Derives(ts: seq<Token>, c: Cmd<string>)
  {
    exists l: Line :: LineOk(l) && LineText(l) == ts && LineTree(l) == c
  }

  // ---------------------------------------------------------------- where a phrase ends

  predicate Comes(k: seq<Token>, cs: set<char>) { k != [] && k[0].Sym? && k[0].c in cs }

  /** With `k` behind it the phrase cannot be made longer. */
  predicate UnitStops(u: Unit, k: seq<Token>)
  {
    if u.Simple? then k == [] || Comes(k, {'|', ')', '&', ';'}) else !Comes(k, {'<', '>', '+'})
  }

  predicate PipedStops(p: Piped, k: seq<Token>)
  {
    match p
    case Last(u) => UnitStops(u, k) && !Comes(k, {'|'})
    case Bar(_, rest) => PipedStops(rest, k)
  }

  predicate BackedStops(b: Backed, k: seq<Token>) { (b.amps == 0 ==> PipedStops(b.p, k)) && !Comes(k, {'&'}) }

  predicate LineStops(l: Line, k: seq<Token>)
  {
    match l
    case End(b) => BackedStops(b, k) && !Comes(k, {';'})
    case Semi(_, rest) => LineStops(rest, k)
  }

  // ---------------------------------------------------------------- where a command line cannot go on

  /** Stuck in a unit of which `u` has been read, at an opening parenthesis never closed, or inside a block. */
  datatype UnitStuck = AtItem(u: Unit, rest: seq<Token>) | Unclosed(l: Line, rest: seq<Token>) | Inside(s: LineStuck)

  datatype PipeStuck = Here(u: UnitStuck) | AfterBar(v: Unit, p: PipeStuck)

  datatype LineStuck = There(p: PipeStuck) | AfterSemi(b: Backed, s: LineStuck)

  function UnitStuckText(u: UnitStuck): seq<Token>
  {
    match u
    case AtItem(v, rest) => UnitText(v) + rest
    case Unclosed(l, rest) => [Sym('(')] + LineText(l) + rest
    case Inside(s) => [Sym('(')] + LineStuckText(s)
  }

  function PipeStuckText(p: PipeStuck): seq<Token>
  {
    match p
    case Here(u) => UnitStuckText(u)
    case AfterBar(v, q) => UnitText(v) + [Sym('|')] + PipeStuckText(q)
  }

  function LineStuckText(s: LineStuck): seq<Token>
  {
    match s
    case There(p) => PipeStuckText(p)
    case AfterSemi(b, r) => BackedText(b) + [Sym(';')] + LineStuckText(r)
  }

  /** Why the unit cannot go on with `k`: no file name, one argument too many, or a misplaced symbol. */
  predicate ItemCause(e: Error, u: Unit, k: seq<Token>)
  {
    match e
    case MissingFile => Comes(k, {'<', '>', '+'}) && (|k| < 2 || !k[1].Word?)
    case TooManyArgs => u.Simple? && |Args(u.items)| == MAXARGS - 1 && k != [] && k[0].Word?
    case Syntax =>
      && u.Simple? && k != [] && k[0].Sym? && !Comes(k, {'|', ')', '&', ';', '<', '>', '+'})
      && (u.items == [] ==> !Comes(k, {'('}))
    case _ => false
  }

  predicate UnitCause(e: Error, u: UnitStuck)
  {
    match u
    case AtItem(v, rest) => UnitOk(v) && ItemCause(e, v, rest)
    case Unclosed(l, rest) => e == MissingParen && LineOk(l) && LineStops(l, rest) && !Comes(rest, {')'})
    case Inside(s) => LineCause(e, s)
  }

  predicate PipeCause(e: Error, p: PipeStuck)
  {
    match p
    case Here(u) => UnitCause(e, u)
    case AfterBar(v, q) => UnitOk(v) && PipeCause(e, q)
  }

  predicate LineCause(e: Error, s: LineStuck)
  {
    match s
    case There(p) => PipeCause(e, p)
    case AfterSemi(b, r) => BackedOk(b) && LineCause(e, r)
  }

  /** The cause of each panic of the parser. */
  ghost predicate Wrong(ts: seq<Token>, e: Error)
  {
    if e == Leftovers
    then exists l: Line, k :: LineOk(l) && LineStops(l, k) && k != [] && ts == LineText(l) + k
    else exists s: LineStuck :: LineCause(e, s) && LineStuckText(s) == ts
  }

  // ---------------------------------------------------------------- the items of a unit

  lemma PeekIs(k: seq<Token>)
    ensures Peek(k, "<>") <==> Comes(k, {'<', '>', '+'})
    ensures Peek(k, "|)&;") <==> Comes(k, {'|', ')', '&', ';'})
    ensures Peek(k, "|") <==> Comes(k, {'|'})
    ensures Peek(k, "&") <==> Comes(k, {'&'})
    ensures Peek(k, ";") <==> Comes(k, {';'})
    ensures Peek(k, "(") <==> Comes(k, {'('})
    ensures Peek(k, ")") <==> Comes(k, {')'})
  {
  }

  lemma ItemsSnoc(xs: seq<Item>, x: Item)
    ensures ItemsText(xs + [x]) == ItemsText(xs) + ItemText(x)
    ensures Args(xs + [x]) == Args(xs) + if x.Arg? then [x.w] else []
  {
    assert (xs + [x])[..|xs|] == xs;
  }

  lemma RedirectedSnoc(c: Cmd<string>, xs: seq<Item>, x: Item)
    ensures Redirected(c, xs + [x])
            == if x.Arg? then Redirected(c, xs) else Redir(Redirected(c, xs), x.w, Writes(x.c))
  {
    assert (xs + [x])[..|xs|] == xs;
  }

  lemma {:induction false} AddArgIs(argv: seq<string>, xs: seq<Item>, w: string)
    ensures AddArg(Redirected(Exec(argv), xs), w) == Redirected(Exec(argv + [w]), xs)
    decreases |xs|
  {
    if xs != [] {
      AddArgIs(argv, xs[..|xs| - 1], w);
    }
  }

  /** A first redirection among the tokens: `x` is read. */
  predicate RedFirst(ts: seq<Token>, x: Item)
  {
    Comes(ts, {'<', '>', '+'}) && |ts| >= 2 && ts[1].Word? && x == Red(ts[0].c, ts[1].w)
  }

  lemma OneRed(c: Cmd<string>, ts: seq<Token>, x: Item)
    requires RedFirst(ts, x)
    ensures RedOk(x) && ts == ItemText(x) + ts[2..]
    ensures ParseRedirs(c, ts) == ParseRedirs(Redir(c, x.w, Writes(x.c)), ts[2..])
  {
    PeekIs(ts);
  }

  lemma NoRed(c: Cmd<string>, ts: seq<Token>)
    ensures !Comes(ts, {'<', '>', '+'}) ==> ParseRedirs(c, ts) == Ok((c, ts))
    ensures Comes(ts, {'<', '>', '+'}) && (|ts| < 2 || !ts[1].Word?) ==> ParseRedirs(c, ts) == Fail(MissingFile)
  {
    PeekIs(ts);
  }

  /** What parseexec makes of the tokens `ts` when it has read the items `xs`. */
  function Continue(xs: seq<Item>, ts: seq<Token>): Parsed
  {
    match ParseRedirs(UnitTree(Simple(xs)), ts)
    case Fail(e) => Fail(e)
    case Ok(v) => ParseArgs(v.0, |Args(xs)|, v.1)
  }

  lemma TurnRed(xs: seq<Item>, ts: seq<Token>, x: Item)
    requires RedFirst(ts, x)
    ensures Continue(xs, ts) == Continue(xs + [x], ts[2..]) && Args(xs + [x]) == Args(xs)
    ensures RedOk(x) && ItemsText(xs) + ts == ItemsText(xs + [x]) + ts[2..]
  {
    hide ParseRedirs, ParseArgs, Redirected, ItemsText, Args;
    ItemsSnoc(xs, x);
    RedirectedSnoc(Exec(Args(xs)), xs, x);
    OneRed(UnitTree(Simple(xs)), ts, x);
    assert Args(xs) + [] == Args(xs);
    assert ItemsText(xs) + (ItemText(x) + ts[2..]) == ItemsText(xs) + ItemText(x) + ts[2..];
  }

  lemma TurnArg(xs: seq<Item>, ts: seq<Token>, x: Item)
    requires ts != [] && ts[0].Word? && x == Arg(ts[0].w) && |Args(xs)| + 1 < MAXARGS
    ensures Continue(xs, ts) == Continue(xs + [x], ts[1..]) && |Args(xs + [x])| == |Args(xs)| + 1
    ensures ItemsText(xs) + ts == ItemsText(xs + [x]) + ts[1..]
  {
    hide ParseRedirs, AddArg;
    ItemsSnoc(xs, x);
    NoRed(UnitTree(Simple(xs)), ts);
    RedirectedSnoc(Exec(Args(xs) + [x.w]), xs, x);
    AddArgIs(Args(xs), xs, x.w);
    assert ts == ItemText(x) + ts[1..];
  }

  lemma TurnEnd(xs: seq<Item>, ts: seq<Token>)
    requires !Comes(ts, {'<', '>', '+'})
    ensures UnitStops(Simple(xs), ts) ==> Continue(xs, ts) == Ok((UnitTree(Simple(xs)), ts))
    ensures !UnitStops(Simple(xs), ts) && ts[0].Sym? ==> Continue(xs, ts) == Fail(Syntax)
    ensures ts != [] && ts[0].Word? && |Args(xs)| + 1 >= MAXARGS ==> Continue(xs, ts) == Fail(TooManyArgs)
  {
    hide ParseRedirs, UnitTree;
    PeekIs(ts);
    NoRed(UnitTree(Simple(xs)), ts);
  }

  ghost predicate Begun(xs: seq<Item>, ts: seq<Token>) { UnitOk(Simple(xs)) && (xs == [] ==> !Comes(ts, {'('})) }

  /** The answer on a simple command: its items, or the cause. */
  lemma {:induction false} ItemsAnswer(xs: seq<Item>, ts: seq<Token>) returns (ys: seq<Item>, k: seq<Token>)
    requires Begun(xs, ts)
    ensures UnitOk(Simple(ys)) && ItemsText(xs) + ts == ItemsText(ys) + k
    ensures match Continue(xs, ts)
            case Ok(v) => v == (UnitTree(Simple(ys)), k) && UnitStops(Simple(ys), k)
            case Fail(e) => ItemCause(e, Simple(ys), k)
    decreases |ts|
  {
    hide Continue, UnitTree, ItemsText;
    if Comes(ts, {'<', '>', '+'}) {
      if |ts| >= 2 && ts[1].Word? {
        var x := Red(ts[0].c, ts[1].w);
        TurnRed(xs, ts, x);
        ys, k := ItemsAnswer(xs + [x], ts[2..]);
      } else {
        NoFile(xs, ts);
        ys, k := xs, ts;
      }
    } else if ts != [] && ts[0].Word? && |Args(xs)| + 1 < MAXARGS {
      var x := Arg(ts[0].w);
      TurnArg(xs, ts, x);
      ys, k := ItemsAnswer(xs + [x], ts[1..]);
    } else {
      TurnEnd(xs, ts);
      ys, k := xs, ts;
    }
  }

  lemma NoFile(xs: seq<Item>, ts: seq<Token>)
    requires Comes(ts, {'<', '>', '+'}) && (|ts| < 2 || !ts[1].Word?)
    ensures Continue(xs, ts) == Fail(MissingFile)
  {
    NoRed(UnitTree(Simple(xs)), ts);
  }

  /** The redirections behind a block. */
  lemma {:induction false} RedsAnswer(l: Line, xs: seq<Item>, ts: seq<Token>) returns (ys: seq<Item>, k: seq<Token>)
    requires UnitOk(Block(l, xs))
    ensures UnitOk(Block(l, ys)) && ItemsText(xs) + ts == ItemsText(ys) + k
    ensures match ParseRedirs(UnitTree(Block(l, xs)), ts)
            case Ok(v) => v == (UnitTree(Block(l, ys)), k) && UnitStops(Block(l, ys), k)
            case Fail(e) => ItemCause(e, Block(l, ys), k)
    decreases |ts|
  {
    hide ParseRedirs, ItemsText, LineTree;
    NoRed(UnitTree(Block(l, xs)), ts);
    if Comes(ts, {'<', '>', '+'}) && |ts| >= 2 && ts[1].Word? {
      var x := Red(ts[0].c, ts[1].w);
      ItemsSnoc(xs, x);
      RedirectedSnoc(LineTree(l), xs, x);
      OneRed(UnitTree(Block(l, xs)), ts, x);
      assert ItemsText(xs) + ts == ItemsText(xs) + ItemText(x) + ts[2..];
      ys, k := RedsAnswer(l, xs + [x], ts[2..]);
    } else {
      ys, k := xs, ts;
    }
  }

  // ---------------------------------------------------------------- parser to grammar

  lemma BacksAre(c: Cmd<string>, ts: seq<Token>, n: nat) returns (m: nat, k: seq<Token>)
    ensures n <= m && AmpsText(n) + ts == AmpsText(m) + k && !Comes(k, {'&'}) && (m == n ==> k == ts)
    ensures ParseBacks(Ampersands(c, n), ts) == (Ampersands(c, m), k)
    decreases |ts|
  {
    PeekIs(ts);
    if Peek(ts, "&") {
      assert AmpsText(n) + ts == AmpsText(n + 1) + ts[1..];
      m, k := BacksAre(c, ts[1..], n + 1);
    } else {
      m, k := n, ts;
    }
  }

  /** The answer of parseexec is right: a unit and what follows it, or the cause. */
  ghost predicate UnitAnswer(ts: seq<Token>, u: Unit, k: seq<Token>, s: UnitStuck)
  {
    match ParseExec(ts)
    case Ok(v) => UnitOk(u) && ts == UnitText(u) + k && v == (UnitTree(u), k) && UnitStops(u, k)
    case Fail(e) => UnitCause(e, s) && UnitStuckText(s) == ts
  }

  ghost predicate PipeAnswer(ts: seq<Token>, p: Piped, k: seq<Token>, s: PipeStuck)
  {
    match ParsePipe(ts)
    case Ok(v) => PipedOk(p) && ts == PipedText(p) + k && v == (PipedTree(p), k) && PipedStops(p, k)
    case Fail(e) => PipeCause(e, s) && PipeStuckText(s) == ts
  }

  ghost predicate LineAnswer(ts: seq<Token>, l: Line, k: seq<Token>, s: LineStuck)
  {
    match ParseLine(ts)
    case Ok(v) => LineOk(l) && ts == LineText(l) + k && v == (LineTree(l), k) && LineStops(l, k)
    case Fail(e) => LineCause(e, s) && LineStuckText(s) == ts
  }

  const NOTHING: Unit := Simple([])

  const NOWHERE: UnitStuck := AtItem(NOTHING, [])

  lemma {:induction false} UnitFound(ts: seq<Token>) returns (u: Unit, k: seq<Token>, s: UnitStuck)
    ensures UnitAnswer(ts, u, k, s)
    decreases |ts|, 0
  {
    PeekIs(ts);
    if Comes(ts, {'('}) {
      u, k, s := BlockFound(ts);
    } else {
      var xs;
      xs, k := ItemsAnswer([], ts);
      u, s := Simple(xs), AtItem(Simple(xs), k);
      assert [] + ts == ts;
      SimpleIs(ts);
    }
  }

  lemma SimpleIs(ts: seq<Token>)
    requires !Comes(ts, {'('})
    ensures ParseExec(ts) == Continue([], ts)
  {
    PeekIs(ts);
  }

  lemma {:induction false} BlockFound(ts: seq<Token>) returns (u: Unit, k: seq<Token>, s: UnitStuck)
    requires Comes(ts, {'('})
    ensures UnitAnswer(ts, u, k, s)
    decreases |ts| - 1, 3
  {
    var l, r, t := LineFound(ts[1..]);
    u, k, s := NOTHING, [], NOWHERE;
    assert ts == [Sym('(')] + ts[1..];
    if ParseLine(ts[1..]).Fail? {
      s := Inside(t);
      BlockFails(ts);
    } else if !Comes(r, {')'}) {
      s := Unclosed(l, r);
      BlockOpen(ts, l, r);
    } else {
      u, k, s := BlockClosed(ts, l, r);
    }
  }

  lemma BlockFails(ts: seq<Token>)
    requires Comes(ts, {'('}) && ParseLine(ts[1..]).Fail?
    ensures ParseExec(ts) == ParseLine(ts[1..])
  {
    hide ParseLine;
    PeekIs(ts);
  }

  lemma BlockOpen(ts: seq<Token>, l: Line, r: seq<Token>)
    requires Comes(ts, {'('}) && ParseLine(ts[1..]) == Ok((LineTree(l), r)) && ts[1..] == LineText(l) + r
    requires !Comes(r, {')'})
    ensures ParseExec(ts) == Fail(MissingParen) && ts == [Sym('(')] + LineText(l) + r
  {
    hide ParseLine, LineTree, LineText;
    PeekIs(ts);
    PeekIs(r);
    assert ts == [Sym('(')] + ts[1..];
  }

  lemma NoItems(c: Cmd<string>)
    ensures ItemsText([]) == [] && Redirected(c, []) == c
  {
  }

  lemma BlockRedirs(ts: seq<Token>, l: Line, r: seq<Token>)
    requires Comes(ts, {'('}) && ParseLine(ts[1..]) == Ok((LineTree(l), r)) && Comes(r, {')'})
    ensures ParseExec(ts) == ParseRedirs(UnitTree(Block(l, [])), r[1..])
  {
    hide ParseLine, LineTree, ParseRedirs;
    PeekIs(ts);
    PeekIs(r);
  }

  lemma BlockClosed(ts: seq<Token>, l: Line, r: seq<Token>) returns (u: Unit, k: seq<Token>, s: UnitStuck)
    requires Comes(ts, {'('}) && ParseLine(ts[1..]) == Ok((LineTree(l), r)) && ts[1..] == LineText(l) + r
    requires Comes(r, {')'}) && LineOk(l)
    ensures UnitAnswer(ts, u, k, s)
  {
    hide ParseExec, ParseLine, LineTree, LineText, ItemsText, ParseRedirs;
    BlockRedirs(ts, l, r);
    var xs;
    xs, k := RedsAnswer(l, [], r[1..]);
    u, s := Block(l, xs), AtItem(Block(l, xs), k);
    NoItems(LineTree(l));
    assert r[1..] == ItemsText(xs) + k by { assert [] + r[1..] == r[1..]; }
    BlockTokens(ts, l, r, xs, k);
  }

  lemma BlockTokens(ts: seq<Token>, l: Line, r: seq<Token>, xs: seq<Item>, k: seq<Token>)
    requires Comes(ts, {'('}) && Comes(r, {')'}) && ts[1..] == LineText(l) + r && r[1..] == ItemsText(xs) + k
    ensures ts == UnitText(Block(l, xs)) + k
  {
    hide LineText, ItemsText;
    assert ts == [Sym('(')] + ts[1..] && r == [Sym(')')] + r[1..];
    assert ts == [Sym('(')] + LineText(l) + [Sym(')')] + ItemsText(xs) + k;
  }

  lemma {:induction false} PipeFound(ts: seq<Token>) returns (p: Piped, k: seq<Token>, s: PipeStuck)
    ensures PipeAnswer(ts, p, k, s)
    decreases |ts|, 1
  {
    hide UnitStops, UnitText, UnitTree, UnitOk, UnitCause, UnitStuckText, ParseExec;
    var u, r, t := UnitFound(ts);
    p, k, s := Last(u), r, Here(t);
    PeekIs(r);
    if ParseExec(ts).Ok? && Comes(r, {'|'}) {
      var q, k', s' := PipeFound(r[1..]);
      p, k, s := Bar(u, q), k', AfterBar(u, s');
      BarAnswer(ts, u, r, q, k, s');
    }
  }

  lemma BarAnswer(ts: seq<Token>, u: Unit, r: seq<Token>, q: Piped, k: seq<Token>, s: PipeStuck)
    requires UnitOk(u) && ts == UnitText(u) + r && ParseExec(ts) == Ok((UnitTree(u), r)) && Comes(r, {'|'})
    requires PipeAnswer(r[1..], q, k, s)
    ensures PipeAnswer(ts, Bar(u, q), k, AfterBar(u, s))
  {
    hide UnitStops, UnitText, UnitTree, UnitOk, UnitCause, UnitStuckText, ParseExec;
    PeekIs(r);
    assert r == [Sym('|')] + r[1..];
    BarPipe(ts, UnitTree(u), r);
    assert ts == UnitText(u) + [Sym('|')] + r[1..];
    if ParsePipe(r[1..]).Ok? {
      assert ts == UnitText(u) + [Sym('|')] + PipedText(q) + k;
    }
  }

  lemma BarPipe(ts: seq<Token>, c: Cmd<string>, r: seq<Token>)
    requires ParseExec(ts) == Ok((c, r)) && Comes(r, {'|'})
    ensures ParsePipe(ts) == match ParsePipe(r[1..]) case Fail(e) => Fail(e) case Ok(u) => Ok((Pipe(c, u.0), u.1))
  {
    hide ParseExec;
    PeekIs(r);
  }

  lemma {:induction false} LineFound(ts: seq<Token>) returns (l: Line, k: seq<Token>, s: LineStuck)
    ensures LineAnswer(ts, l, k, s)
    decreases |ts|, 2
  {
    hide PipedStops, PipedText, PipedTree, PipedOk, PipeCause, PipeStuckText, ParsePipe, ParseBacks, Ampersands;
    var p, r, t := PipeFound(ts);
    if ParsePipe(ts).Fail? {
      l, k, s := End(Backed(p, 0)), r, There(t);
    } else {
      var n, k1 := BacksAre(PipedTree(p), r, 0);
      var b := Backed(p, n);
      BackedFound(ts, p, r, n, k1);
      PeekIs(k1);
      if Comes(k1, {';'}) {
        var l', k', s' := LineFound(k1[1..]);
        l, k, s := Semi(b, l'), k', AfterSemi(b, s');
        SemiAnswer(ts, b, k1, l', k, s');
      } else {
        l, k, s := End(b), k1, There(Here(NOWHERE));
        EndAnswer(ts, b, k1, s);
      }
    }
  }

  /** What parseline has when it looks for a ';'. */
  ghost predicate BackedAt(ts: seq<Token>, b: Backed, k: seq<Token>)
  {
    && BackedOk(b) && ts == BackedText(b) + k && BackedStops(b, k) && ParsePipe(ts).Ok?
    && var v := ParsePipe(ts).value; ParseBacks(v.0, v.1) == (BackedTree(b), k)
  }

  lemma BackedFound(ts: seq<Token>, p: Piped, r: seq<Token>, n: nat, k: seq<Token>)
    requires ParsePipe(ts) == Ok((PipedTree(p), r)) && PipedOk(p) && ts == PipedText(p) + r && PipedStops(p, r)
    requires AmpsText(0) + r == AmpsText(n) + k && !Comes(k, {'&'}) && (n == 0 ==> k == r)
    requires ParseBacks(Ampersands(PipedTree(p), 0), r) == (Ampersands(PipedTree(p), n), k)
    ensures BackedAt(ts, Backed(p, n), k)
  {
    hide PipedStops, PipedText, PipedTree, PipedOk, ParsePipe, ParseBacks;
    assert AmpsText(0) + r == r && Ampersands(PipedTree(p), 0) == PipedTree(p);
    assert ts == PipedText(p) + (AmpsText(n) + k);
    assert ts == PipedText(p) + AmpsText(n) + k;
  }

  lemma EndAnswer(ts: seq<Token>, b: Backed, k: seq<Token>, s: LineStuck)
    requires BackedAt(ts, b, k) && !Comes(k, {';'})
    ensures LineAnswer(ts, End(b), k, s)
  {
    hide ParsePipe, ParseBacks, BackedText, BackedTree, BackedStops, BackedOk;
    PeekIs(k);
  }

  lemma SemiLine(ts: seq<Token>, b: Backed, k: seq<Token>)
    requires BackedAt(ts, b, k) && Comes(k, {';'})
    ensures ParseLine(ts)
            == match ParseLine(k[1..]) case Fail(e) => Fail(e) case Ok(u) => Ok((List(BackedTree(b), u.0), u.1))
  {
    hide ParsePipe, ParseBacks, BackedText, BackedTree, BackedStops, BackedOk;
    PeekIs(k);
  }

  lemma SemiAnswer(ts: seq<Token>, b: Backed, k1: seq<Token>, l: Line, k: seq<Token>, s: LineStuck)
    requires BackedAt(ts, b, k1) && Comes(k1, {';'}) && LineAnswer(k1[1..], l, k, s)
    ensures LineAnswer(ts, Semi(b, l), k, AfterSemi(b, s))
  {
    hide ParseLine, ParsePipe, ParseBacks, BackedText, BackedTree, BackedStops, BackedOk;
    SemiLine(ts, b, k1);
    assert k1 == [Sym(';')] + k1[1..];
    assert ts == BackedText(b) + [Sym(';')] + k1[1..];
    if ParseLine(k1[1..]).Ok? {
      assert ts == BackedText(b) + [Sym(';')] + LineText(l) + k;
    }
  }

  // ---------------------------------------------------------------- grammar to parser

  lemma {:induction false} ItemsParsed(xs: seq<Item>, m: nat, k: seq<Token>)
    requires m <= |xs| && UnitOk(Simple(xs))
    ensures Continue(xs[..m], ItemsText(xs[m..]) + k) == Continue(xs, k)
    decreases |xs| - m
  {
    hide Continue, ItemsText;
    if m == |xs| {
      assert xs[..m] == xs && xs[m..] == [];
      NoItems(Exec([]));
      assert [] + k == k;
    } else {
      ItemFirst(xs, m, k);
      ItemsParsed(xs, m + 1, k);
    }
  }

  lemma {:induction false} ItemsCons(x: Item, xs: seq<Item>)
    ensures ItemsText([x] + xs) == ItemText(x) + ItemsText(xs)
    decreases |xs|
  {
    if xs == [] {
      assert ([x] + xs)[..0] == [] && [x] + xs == [x];
    } else {
      var n := |xs| - 1;
      assert ([x] + xs)[..n + 1] == [x] + xs[..n];
      ItemsCons(x, xs[..n]);
    }
  }

  lemma {:induction false} ArgsPrefix(xs: seq<Item>, m: nat)
    requires m <= |xs|
    ensures |Args(xs[..m])| <= |Args(xs)|
    decreases |xs|
  {
    if m < |xs| {
      ArgsPrefix(xs[..|xs| - 1], m);
      assert xs[..|xs| - 1][..m] == xs[..m];
    } else {
      assert xs[..m] == xs;
    }
  }

  lemma ItemFirst(xs: seq<Item>, m: nat, k: seq<Token>)
    requires m < |xs| && UnitOk(Simple(xs))
    ensures Continue(xs[..m], ItemsText(xs[m..]) + k) == Continue(xs[..m + 1], ItemsText(xs[m + 1..]) + k)
  {
    hide Continue, ItemsText;
    var x, more := xs[m], ItemsText(xs[m + 1..]) + k;
    assert xs[m..] == [x] + xs[m + 1..] && xs[..m + 1] == xs[..m] + [x];
    ItemsCons(x, xs[m + 1..]);
    var ts := ItemsText(xs[m..]) + k;
    assert ts == ItemText(x) + more;
    if x.Arg? {
      ArgsPrefix(xs, m + 1);
      ItemsSnoc(xs[..m], x);
      TurnArg(xs[..m], ts, x);
      assert ts[1..] == more;
    } else {
      TurnRed(xs[..m], ts, x);
      assert ts[2..] == more;
    }
  }

  lemma {:induction false} RedsParsed(l: Line, xs: seq<Item>, m: nat, k: seq<Token>)
    requires m <= |xs| && UnitOk(Block(l, xs))
    ensures ParseRedirs(Redirected(LineTree(l), xs[..m]), ItemsText(xs[m..]) + k)
            == ParseRedirs(Redirected(LineTree(l), xs), k)
    decreases |xs| - m
  {
    hide ParseRedirs, LineTree, ItemsText, Redirected;
    if m == |xs| {
      assert xs[..m] == xs && xs[m..] == [];
      NoItems(Exec([]));
      assert [] + k == k;
    } else {
      var x, more := xs[m], ItemsText(xs[m + 1..]) + k;
      assert xs[m..] == [x] + xs[m + 1..] && xs[..m + 1] == xs[..m] + [x];
      ItemsCons(x, xs[m + 1..]);
      var ts := ItemsText(xs[m..]) + k;
      assert ts == ItemText(x) + more && ts[2..] == more;
      RedirectedSnoc(LineTree(l), xs[..m], x);
      OneRed(Redirected(LineTree(l), xs[..m]), ts, x);
      RedsParsed(l, xs, m + 1, k);
    }
  }

  /** A simple command does not begin with '(', whatever follows its items. */
  lemma SimpleStarts(xs: seq<Item>, k: seq<Token>)
    requires UnitOk(Simple(xs)) && (xs == [] ==> !Comes(k, {'('}))
    ensures !Comes(ItemsText(xs) + k, {'('})
  {
    if xs == [] {
      assert ItemsText(xs) + k == k;
    } else {
      assert xs == [xs[0]] + xs[1..];
      ItemsCons(xs[0], xs[1..]);
      assert (ItemsText(xs) + k)[0] == ItemText(xs[0])[0];
    }
  }

  lemma SimpleContinues(xs: seq<Item>, k: seq<Token>)
    requires UnitOk(Simple(xs)) && (xs == [] ==> !Comes(k, {'('}))
    ensures ParseExec(ItemsText(xs) + k) == Continue(xs, k)
  {
    hide Continue, ItemsText;
    SimpleStarts(xs, k);
    SimpleIs(ItemsText(xs) + k);
    ItemsParsed(xs, 0, k);
    assert xs[..0] == [] && xs[0..] == xs;
  }

  lemma {:induction false} UnitParsed(u: Unit, k: seq<Token>)
    requires UnitOk(u) && UnitStops(u, k)
    ensures ParseExec(UnitText(u) + k) == Ok((UnitTree(u), k))
    decreases u, 0
  {
    if u.Simple? {
      SimpleContinues(u.items, k);
      TurnEnd(u.items, k);
    } else {
      var tail := ItemsText(u.reds) + k;
      SymEndsLine(u.inner, ')', tail);
      LineParsed(u.inner, [Sym(')')] + tail);
      BlockParsed(u, k);
      NoRed(UnitTree(u), k);
    }
  }

  lemma BlockParsed(u: Unit, k: seq<Token>)
    requires u.Block? && UnitOk(u)
    requires var r := [Sym(')')] + (ItemsText(u.reds) + k);
      ParseLine(LineText(u.inner) + r) == Ok((LineTree(u.inner), r))
    ensures ParseExec(UnitText(u) + k) == ParseRedirs(UnitTree(u), k)
  {
    hide ParseLine, LineTree, LineText, ItemsText, ParseRedirs, Redirected;
    var r := [Sym(')')] + (ItemsText(u.reds) + k);
    var ts := UnitText(u) + k;
    assert ts == [Sym('(')] + (LineText(u.inner) + r) && ts[1..] == LineText(u.inner) + r;
    PeekIs(ts);
    PeekIs(r);
    assert r[1..] == ItemsText(u.reds) + k;
    RedsParsed(u.inner, u.reds, 0, k);
    assert u.reds[..0] == [] && u.reds[0..] == u.reds;
    NoItems(LineTree(u.inner));
  }

  /** '&', ';' and ')' end every pipeline. */
  lemma {:induction false} SymEndsPipe(p: Piped, c: char, tail: seq<Token>)
    requires c in {'&', ';', ')'}
    ensures PipedStops(p, [Sym(c)] + tail)
    decreases p
  {
    if p.Bar? {
      SymEndsPipe(p.rest, c, tail);
    }
  }

  lemma {:induction false} SymEndsLine(l: Line, c: char, tail: seq<Token>)
    requires c == ')'
    ensures LineStops(l, [Sym(c)] + tail)
    decreases l
  {
    match l
    case End(b) => SymEndsPipe(b.p, c, tail);
    case Semi(_, rest) => SymEndsLine(rest, c, tail);
  }

  lemma {:induction false} PipedParsed(p: Piped, k: seq<Token>)
    requires PipedOk(p) && PipedStops(p, k)
    ensures ParsePipe(PipedText(p) + k) == Ok((PipedTree(p), k))
    decreases p, 1
  {
    hide ParseExec, UnitText, UnitTree, UnitOk;
    PeekIs(k);
    match p
    case Last(u) => UnitParsed(u, k);
    case Bar(u, rest) =>
      var r := [Sym('|')] + (PipedText(rest) + k);
      assert PipedText(p) + k == UnitText(u) + r && r[1..] == PipedText(rest) + k;
      UnitParsed(u, r);
      PipedParsed(rest, k);
      BarPipe(PipedText(p) + k, UnitTree(u), r);
  }

  lemma {:induction false} AmpsCons(n: nat)
    ensures AmpsText(n + 1) == [Sym('&')] + AmpsText(n)
  {
    if n > 0 {
      AmpsCons(n - 1);
    }
  }

  lemma OneAmp(c: Cmd<string>, n: nat, m: nat, k: seq<Token>)
    requires m > 0
    ensures ParseBacks(Ampersands(c, n), AmpsText(m) + k) == ParseBacks(Ampersands(c, n + 1), AmpsText(m - 1) + k)
  {
    AmpsCons(m - 1);
    hide AmpsText;
    var ts := AmpsText(m) + k;
    assert ts[0] == Sym('&') && ts[1..] == AmpsText(m - 1) + k;
    PeekIs(ts);
  }

  lemma NoAmp(c: Cmd<string>, k: seq<Token>)
    requires !Comes(k, {'&'})
    ensures ParseBacks(c, AmpsText(0) + k) == (c, k)
  {
    PeekIs(k);
    assert AmpsText(0) + k == k;
  }

  lemma {:induction false} BacksParsed(c: Cmd<string>, n: nat, m: nat, k: seq<Token>)
    requires !Comes(k, {'&'})
    ensures ParseBacks(Ampersands(c, n), AmpsText(m) + k) == (Ampersands(c, n + m), k)
    decreases m
  {
    hide ParseBacks, AmpsText, Ampersands;
    if m == 0 {
      NoAmp(Ampersands(c, n), k);
    } else {
      OneAmp(c, n, m, k);
      BacksParsed(c, n + 1, m - 1, k);
    }
  }

  lemma BackedParsed(b: Backed, k: seq<Token>)
    requires BackedOk(b) && BackedStops(b, k)
    ensures BackedAt(BackedText(b) + k, b, k)
    decreases b, 2
  {
    hide ParsePipe, ParseBacks, PipedText, PipedTree, PipedOk, Ampersands;
    var r := AmpsText(b.amps) + k;
    if b.amps > 0 {
      AmpsCons(b.amps - 1);
      assert r == [Sym('&')] + (AmpsText(b.amps - 1) + k);
      SymEndsPipe(b.p, '&', AmpsText(b.amps - 1) + k);
    } else {
      assert r == k;
    }
    PipedParsed(b.p, r);
    BacksParsed(PipedTree(b.p), 0, b.amps, k);
    NoAmps(PipedTree(b.p));
    assert BackedText(b) + k == PipedText(b.p) + r;
  }

  lemma NoAmps(c: Cmd<string>)
    ensures Ampersands(c, 0) == c
  {
  }

  lemma {:induction false} LineParsed(l: Line, k: seq<Token>)
    requires LineOk(l) && LineStops(l, k)
    ensures ParseLine(LineText(l) + k) == Ok((LineTree(l), k))
    decreases l, 3
  {
    hide ParseLine, BackedText, BackedTree, BackedStops, BackedOk, BackedAt;
    match l
    case End(b) =>
      BackedParsed(b, k);
      EndLine(BackedText(b) + k, b, k);
    case Semi(b, rest) =>
      var r := [Sym(';')] + (LineText(rest) + k);
      SemiStops(b, LineText(rest) + k);
      BackedParsed(b, r);
      LineParsed(rest, k);
      assert LineText(l) + k == BackedText(b) + r && r[1..] == LineText(rest) + k;
      SemiLine(BackedText(b) + r, b, r);
  }

  lemma SemiStops(b: Backed, tail: seq<Token>)
    ensures BackedStops(b, [Sym(';')] + tail)
  {
    SymEndsPipe(b.p, ';', tail);
  }

  lemma EndLine(ts: seq<Token>, b: Backed, k: seq<Token>)
    requires BackedAt(ts, b, k) && !Comes(k, {';'})
    ensures ParseLine(ts) == Ok((BackedTree(b), k))
  {
    hide ParsePipe, ParseBacks, BackedText, BackedTree, BackedStops, BackedOk;
    PeekIs(k);
  }

  // ---------------------------------------------------------------- causes to panics

  lemma {:induction false} UnitFails(e: Error, s: UnitStuck)
    requires UnitCause(e, s)
    ensures ParseExec(UnitStuckText(s)) == Fail(e)
    decreases s, 0
  {
    match s
    case AtItem(u, rest) => ItemFails(e, u, rest);
    case Unclosed(l, rest) =>
      LineParsed(l, rest);
      var ts := [Sym('(')] + LineText(l) + rest;
      assert ts[1..] == LineText(l) + rest;
      BlockOpen(ts, l, rest);
    case Inside(r) =>
      LineFails(e, r);
      var ts := [Sym('(')] + LineStuckText(r);
      assert ts[1..] == LineStuckText(r);
      BlockFails(ts);
  }

  lemma ItemFails(e: Error, u: Unit, k: seq<Token>)
    requires UnitOk(u) && ItemCause(e, u, k)
    ensures ParseExec(UnitText(u) + k) == Fail(e)
  {
    if u.Simple? {
      SimpleContinues(u.items, k);
      if e.MissingFile? {
        NoFile(u.items, k);
      } else {
        TurnEnd(u.items, k);
      }
    } else {
      var tail := ItemsText(u.reds) + k;
      SymEndsLine(u.inner, ')', tail);
      LineParsed(u.inner, [Sym(')')] + tail);
      BlockParsed(u, k);
      NoRed(UnitTree(u), k);
    }
  }

  lemma {:induction false} PipeFails(e: Error, s: PipeStuck)
    requires PipeCause(e, s)
    ensures ParsePipe(PipeStuckText(s)) == Fail(e)
    decreases s, 1
  {
    hide ParseExec, UnitText, UnitTree, UnitOk, UnitCause, UnitStuckText;
    match s
    case Here(u) => UnitFails(e, u);
    case AfterBar(v, q) =>
      PipeFails(e, q);
      var r := [Sym('|')] + PipeStuckText(q);
      assert PipeStuckText(s) == UnitText(v) + r && r[1..] == PipeStuckText(q);
      UnitParsed(v, r);
      BarPipe(PipeStuckText(s), UnitTree(v), r);
  }

  lemma {:induction false} LineFails(e: Error, s: LineStuck)
    requires LineCause(e, s)
    ensures ParseLine(LineStuckText(s)) == Fail(e)
    decreases s, 2
  {
    hide ParsePipe, BackedText, BackedTree, BackedStops, BackedOk, BackedAt, PipeCause, PipeStuckText;
    match s
    case There(p) => PipeFails(e, p);
    case AfterSemi(b, q) =>
      LineFails(e, q);
      var r := [Sym(';')] + LineStuckText(q);
      SemiStops(b, LineStuckText(q));
      BackedParsed(b, r);
      assert LineStuckText(s) == BackedText(b) + r && r[1..] == LineStuckText(q);
      SemiLine(BackedText(b) + r, b, r);
  }

  // ---------------------------------------------------------------- the language of the parser

  /** The parser gives `c` exactly for the command lines that mean `c`. */
  lemma ParsesExactly(ts: seq<Token>, c: Cmd<string>)
    ensures Parse(ts) == Ok(c) <==> Derives(ts, c)
  {
    hide ParseLine, LineOk, LineText, LineTree, LineCause, LineStuckText;
    if Parse(ts) == Ok(c) {
      var l, k, s := LineFound(ts);
      assert LineText(l) + [] == LineText(l);
    }
    if Derives(ts, c) {
      var l: Line :| LineOk(l) && LineText(l) == ts && LineTree(l) == c;
      NothingEnds(l);
      LineParsed(l, []);
      assert ts + [] == ts;
    }
  }

  lemma {:induction false} NothingEnds(l: Line)
    ensures LineStops(l, [])
    decreases l
  {
    match l
    case End(b) => NothingEndsPipe(b.p);
    case Semi(_, rest) => NothingEnds(rest);
  }

  lemma {:induction false} NothingEndsPipe(p: Piped)
    ensures PipedStops(p, [])
    decreases p
  {
    if p.Bar? {
      NothingEndsPipe(p.rest);
    }
  }

  /** It panics exactly with the cause that the command line gives. */
  lemma FailsExactly(ts: seq<Token>, e: Error)
    ensures Parse(ts) == Fail(e) <==> Wrong(ts, e)
  {
    hide ParseLine, LineOk, LineText, LineTree, LineCause, LineStuckText, LineStops;
    if Parse(ts) == Fail(e) {
      var l, k, s := LineFound(ts);
      if ParseLine(ts).Fail? {
        NotLeftovers(e, s);
      }
    }
    if Wrong(ts, e) {
      if e == Leftovers {
        var l: Line, k :| LineOk(l) && LineStops(l, k) && k != [] && ts == LineText(l) + k;
        LineParsed(l, k);
      } else {
        var s: LineStuck :| LineCause(e, s) && LineStuckText(s) == ts;
        LineFails(e, s);
      }
    }
  }

  lemma {:induction false} NotLeftovers(e: Error, s: LineStuck)
    requires LineCause(e, s)
    ensures e != Leftovers
    decreases s, 2
  {
    match s
    case There(p) => PipeNotLeftovers(e, p);
    case AfterSemi(_, r) => NotLeftovers(e, r);
  }

  lemma {:induction false} PipeNotLeftovers(e: Error, s: PipeStuck)
    requires PipeCause(e, s)
    ensures e != Leftovers
    decreases s, 1
  {
    match s
    case Here(u) => if u.Inside? { NotLeftovers(e, u.s); }
    case AfterBar(_, q) => PipeNotLeftovers(e, q);
  }

  // ---------------------------------------------------------------- the tokens of a text

  predicate Blank(b: string) { forall i :: 0 <= i < |b| ==> Space(b[i]) }

  /** The tokens with the blanks `bs` before, between and after them. */
  function Layout(ts: seq<Token>, bs: seq<string>): string
    requires |bs| == |ts| + 1
  {
    if ts == [] then bs[0] else bs[0] + Spell(ts[0]) + Layout(ts[1..], bs[1..])
  }

  /** Tokens that would be read as one if nothing were between them. */
  predicate Fuse(t: Token, u: Token) { (t.Word? && u.Word?) || (t == Sym('>') && u in {Sym('>'), Sym('+')}) }

  /** Without blanks between them only tokens that do not fuse. */
  ghost predicate Spaced(ts: seq<Token>, bs: seq<string>)
    requires |bs| == |ts| + 1
  {
    && (forall i :: 0 <= i < |bs| ==> Blank(bs[i]))
    && (forall i, j :: 0 <= i && j == i + 1 && j < |ts| && bs[j] == "" ==> !Fuse(ts[i], ts[j]))
  }

  /** The text `s` consists of the tokens `ts`, each taken as long as possible. */
  ghost predicate Spells(s: string, ts: seq<Token>)
  {
    LegalTokens(ts) && exists bs: seq<string> :: |bs| == |ts| + 1 && Spaced(ts, bs) && Layout(ts, bs) == s
  }

  lemma {:induction false} LexBlanks(b: string, s: string)
    requires Blank(b)
    ensures Lex(b + s) == Lex(s)
    decreases |b|
  {
    if b == "" {
      assert b + s == s;
    } else {
      assert (b + s)[1..] == b[1..] + s;
      LexBlanks(b[1..], s);
    }
  }

  /** What follows a token does not belong to it. */
  predicate Separate(t: Token, s: string)
  {
    s == "" || (if t.Word? then !WordChar(s[0]) else t == Sym('>') ==> s[0] != '>')
  }

  lemma LexOne(t: Token, s: string)
    requires LegalToken(t) && Separate(t, s) && '\0' !in s
    ensures Lex(Spell(t) + s) == [t] + Lex(s)
  {
    var x := Spell(t) + s;
    if t.Word? {
      WordLenAt(t.w, s);
      assert x[..|t.w|] == t.w && x[|t.w|..] == s;
      assert WordChar(x[0]);
    } else if t.c == '+' {
      assert x[2..] == s;
    } else {
      assert x[0] == t.c && x[1..] == s;
    }
  }

  lemma {:induction false} WordLenAt(w: string, s: string)
    requires (forall i :: 0 <= i < |w| ==> WordChar(w[i])) && (s != "" ==> !WordChar(s[0]))
    ensures WordLen(w + s) == |w|
  {
    if w == "" {
      assert w + s == s;
    } else {
      assert (w + s)[1..] == w[1..] + s;
      WordLenAt(w[1..], s);
    }
  }

  /** A legal token begins with a character that is no blank, and with what it is. */
  lemma SpellStarts(t: Token)
    requires LegalToken(t)
    ensures Spell(t) != "" && !Space(Spell(t)[0]) && '\0' !in Spell(t)
    ensures (WordChar(Spell(t)[0]) <==> t.Word?) && (Spell(t)[0] == '>' <==> t == Sym('>') || t == Sym('+'))
  {
  }

  lemma {:induction false} LayoutPlain(ts: seq<Token>, bs: seq<string>)
    requires LegalTokens(ts) && |bs| == |ts| + 1 && Spaced(ts, bs)
    ensures '\0' !in Layout(ts, bs)
    decreases |ts|
  {
    if ts != [] {
      SpellStarts(ts[0]);
      SpacedRest(ts, bs);
      LayoutPlain(ts[1..], bs[1..]);
    }
  }

  lemma SpacedRest(ts: seq<Token>, bs: seq<string>)
    requires ts != [] && |bs| == |ts| + 1 && Spaced(ts, bs) && LegalTokens(ts)
    ensures Spaced(ts[1..], bs[1..]) && LegalTokens(ts[1..]) && LegalToken(ts[0])
  {
  }

  lemma LayoutSeparate(ts: seq<Token>, bs: seq<string>)
    requires ts != [] && |bs| == |ts| + 1 && Spaced(ts, bs) && LegalTokens(ts)
    ensures Separate(ts[0], Layout(ts[1..], bs[1..]))
  {
    var us, cs := ts[1..], bs[1..];
    var x := Layout(us, cs);
    if cs[0] != "" {
      assert Blank(bs[1]) && x[0] == cs[0][0];
    } else if us != [] {
      assert !Fuse(ts[0], ts[1]);
      SpellStarts(us[0]);
      assert x[0] == Spell(us[0])[0];
    }
  }

  /** The lexer reads a text that spells `ts` as `ts`. */
  lemma {:induction false} LexesSpelled(ts: seq<Token>, bs: seq<string>)
    requires LegalTokens(ts) && |bs| == |ts| + 1 && Spaced(ts, bs)
    ensures Lex(Layout(ts, bs)) == ts
    decreases |ts|
  {
    hide Lex, Layout, Separate;
    LayoutStep(ts, bs);
    if ts == [] {
      LexBlanks(bs[0], "");
      LexNothing();
    } else {
      SpacedRest(ts, bs);
      LexesSpelled(ts[1..], bs[1..]);
      LayoutSeparate(ts, bs);
      LayoutPlain(ts[1..], bs[1..]);
      LexOne(ts[0], Layout(ts[1..], bs[1..]));
      LexBlanks(bs[0], Spell(ts[0]) + Layout(ts[1..], bs[1..]));
    }
  }

  lemma LexNothing()
    ensures Lex("") == []
  {
  }

  lemma LayoutStep(ts: seq<Token>, bs: seq<string>)
    requires |bs| == |ts| + 1
    ensures ts == [] ==> Layout(ts, bs) == bs[0] + ""
    ensures ts != [] ==> Layout(ts, bs) == bs[0] + (Spell(ts[0]) + Layout(ts[1..], bs[1..]))
  {
  }

  /** What the lexer reads from a text spells it. */
  lemma {:induction false} LexedSpells(s: string) returns (bs: seq<string>)
    requires '\0' !in s
    ensures |bs| == |Lex(s)| + 1 && Spaced(Lex(s), bs) && Layout(Lex(s), bs) == s
    decreases |s|
  {
    if s == "" {
      bs := [""];
    } else if Space(s[0]) {
      var cs := LexedSpells(s[1..]);
      bs := MoreBlank(s, cs);
    } else {
      var t, n := FirstToken(s);
      var cs := LexedSpells(s[n..]);
      bs := MoreToken(s, t, n, cs);
    }
  }

  lemma MoreBlank(s: string, cs: seq<string>) returns (bs: seq<string>)
    requires s != "" && Space(s[0]) && |cs| == |Lex(s[1..])| + 1
    requires Spaced(Lex(s[1..]), cs) && Layout(Lex(s[1..]), cs) == s[1..]
    ensures |bs| == |Lex(s)| + 1 && Spaced(Lex(s), bs) && Layout(Lex(s), bs) == s
  {
    var ts := Lex(s[1..]);
    assert Lex(s) == ts;
    bs := [[s[0]] + cs[0]] + cs[1..];
    hide Lex, Layout;
    LayoutStep(ts, bs);
    LayoutStep(ts, cs);
    assert s == [s[0]] + s[1..] && bs[1..] == cs[1..];
  }

  lemma FirstToken(s: string) returns (t: Token, n: nat)
    requires s != "" && !Space(s[0]) && s[0] != '\0'
    ensures 0 < n <= |s| && Lex(s) == [t] + Lex(s[n..]) && s == Spell(t) + s[n..] && LegalToken(t)
    ensures Separate(t, s[n..])
  {
    if s[0] == '>' && |s| > 1 && s[1] == '>' {
      t, n := Sym('+'), 2;
    } else if Symbol(s[0]) {
      t, n := Sym(s[0]), 1;
    } else {
      n := WordLen(s);
      t := Word(s[..n]);
    }
  }

  lemma MoreToken(s: string, t: Token, n: nat, cs: seq<string>) returns (bs: seq<string>)
    requires n <= |s| && Lex(s) == [t] + Lex(s[n..]) && s == Spell(t) + s[n..] && LegalToken(t) && Separate(t, s[n..])
    requires |cs| == |Lex(s[n..])| + 1 && Spaced(Lex(s[n..]), cs) && Layout(Lex(s[n..]), cs) == s[n..]
    ensures |bs| == |Lex(s)| + 1 && Spaced(Lex(s), bs) && Layout(Lex(s), bs) == s
  {
    var us, ts := Lex(s[n..]), Lex(s);
    LexLegal(s[n..]);
    hide Lex;
    bs := [""] + cs;
    assert ts[0] == t && ts[1..] == us && bs[1..] == cs;
    assert Layout(ts, bs) == "" + Spell(t) + s[n..];
    if us != [] && cs[0] == "" {
      assert s[n..] == "" + Spell(us[0]) + Layout(us[1..], cs[1..]);
      SpellStarts(us[0]);
      assert s[n..][0] == Spell(us[0])[0];
      assert !Fuse(t, us[0]);
    }
    forall i, j | 0 <= i && j == i + 1 && j < |ts| && bs[j] == "" ensures !Fuse(ts[i], ts[j]) {
      if i > 0 {
        assert cs[j - 1] == "" && ts[i] == us[i - 1] && ts[j] == us[j - 1];
      }
    }
  }

  /** The lexer reads exactly the tokens of the text. */
  lemma LexesExactly(s: string, ts: seq<Token>)
    requires '\0' !in s
    ensures Lex(s) == ts <==> Spells(s, ts)
  {
    hide Lex, Layout, Spaced;
    if Lex(s) == ts {
      LexLegal(s);
      var bs := LexedSpells(s);
    }
    if Spells(s, ts) {
      var bs: seq<string> :| |bs| == |ts| + 1 && Spaced(ts, bs) && Layout(ts, bs) == s;
      LexesSpelled(ts, bs);
    }
  }

  /** The whole parser: the text spells the tokens of a command line that means `c`. */
  lemma UnderstandsExactly(s: string, c: Cmd<string>)
    requires '\0' !in s
    ensures Parse(Lex(s)) == Ok(c) <==> exists ts :: Spells(s, ts) && Derives(ts, c)
  {
    hide Parse, Lex, Spells, Derives;
    LexesExactly(s, Lex(s));
    ParsesExactly(Lex(s), c);
    if ts :| Spells(s, ts) && Derives(ts, c) {
      LexesExactly(s, ts);
    }
  }
}
