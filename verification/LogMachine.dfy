/**
 The redo log as a state machine. Every step that touches the disk writes one block, and a
 crash may come between any two steps, recovery included. The disk and the pinned (B_DIRTY)
 buffers are what the kernel has; `hist` and `cur` only record what was logged.
 */
module LogMachine {
  import opened Disk

  const LOGSIZE: nat := 3 * MAXOPBLOCKS

  /** Log geometry: header at `start`, entries behind it, `size` blocks in all. */
  datatype Config = Config(start: nat, size: nat, ndisk: nat) {
    predicate Valid() { 1 <= size && start + size <= ndisk <= UINT_MAX }
    /** A block outside the log region. */
    predicate Home(b: nat) { b < ndisk && !(start <= b < start + size) }
  }

  /** The log_write calls of one group commit, in order. */
  type Txn = seq<(Uint, Block)>

  datatype Op = Out | In(used: nat)

  datatype Phase =
    | Idle
    | WriteLog(i: nat)   // write_log has copied i blocks
    | Install(i: nat)    // header on disk; install_trans has copied i blocks
    | Done               // commit() has returned, log.committing still set
    | Down               // crashed
    | Recover(i: nat)    // recovery has read the header and installed i blocks

  datatype State = State(
    disk: seq<Block>, pinned: map<Uint, Block>, lh: seq<Uint>, ops: seq<Op>, phase: Phase,
    init: seq<Block>, hist: seq<Txn>, cur: Txn)

  datatype Event =
    | Begin(p: nat)
    | LogWrite(p: nat, b: Uint, v: Block)
    | End(p: nat)
    | CopyToLog | PutHeader | InstallOne | EraseHeader | Finish
    | Crash | ReadHeader | RecoverOne | RecoverErase

  datatype Outcome = Disabled | Panic | Ok(s: State)

  // ---------------------------------------------------------------- header block

  /** write_head: `n`, then the entries; later words of the block keep their old contents. */
  function PutEntries(b: Block, lh: seq<Uint>): Block
    requires |lh| <= LOGSIZE
  {
    if lh == [] then b
    else SetWord(PutEntries(b, lh[..|lh| - 1]), |lh|, lh[|lh| - 1])
  }

  function PutHead(b: Block, lh: seq<Uint>): Block
    requires |lh| <= LOGSIZE
  {
    PutEntries(SetWord(b, 0, |lh|), lh)
  }

  /** read_head; an `n` beyond LOGSIZE would overrun block[], so it has no meaning here. */
  function ReadHead(b: Block): seq<Uint>
  {
    if Word(b, 0) > LOGSIZE then [] else Entries(b, Word(b, 0))
  }

  function Entries(b: Block, n: nat): (r: seq<Uint>)
    requires n < WORDS
    ensures |r| == n
  {
    if n == 0 then [] else Entries(b, n - 1) + [Word(b, n)]
  }

  lemma {:induction false} EntriesWords(b: Block, lh: seq<Uint>, j: nat)
    requires |lh| <= LOGSIZE
    requires j < WORDS
    ensures Word(PutEntries(b, lh), j) == if 1 <= j <= |lh| then lh[j - 1] else Word(b, j)
  {
    if lh != [] {
      var l := lh[..|lh| - 1];
      EntriesWords(b, l, j);
      WordOfSetWord(PutEntries(b, l), |lh|, lh[|lh| - 1], j);
    }
  }

  lemma {:induction false} EntriesRoundTrip(b: Block, lh: seq<Uint>, n: nat)
    requires n <= |lh| <= LOGSIZE
    ensures Entries(PutEntries(b, lh), n) == lh[..n]
  {
    if n > 0 {
      EntriesRoundTrip(b, lh, n - 1);
      EntriesWords(b, lh, n);
    }
  }

  lemma HeadRoundTrip(b: Block, lh: seq<Uint>)
    requires |lh| <= LOGSIZE
    ensures ReadHead(PutHead(b, lh)) == lh && Word(PutHead(b, lh), 0) == |lh|
  {
    var b0 := SetWord(b, 0, |lh|);
    WordOfSetWord(b, 0, |lh|, 0);
    EntriesWords(b0, lh, 0);
    EntriesRoundTrip(b0, lh, |lh|);
  }

  // ---------------------------------------------------------------- history

  predicate InRange(t: Txn, n: nat) { forall i :: 0 <= i < |t| ==> t[i].0 < n }

  function Replay(d: seq<Block>, t: Txn): (r: seq<Block>)
    requires InRange(t, |d|)
    ensures |r| == |d|
  {
    if t == [] then d
    else
      var e := t[|t| - 1];
      Replay(d, t[..|t| - 1])[e.0 := e.1]
  }

  lemma ReplaySnoc(d: seq<Block>, t: Txn, b: Uint, v: Block)
    requires InRange(t, |d|) && b < |d|
    ensures InRange(t + [(b, v)], |d|) && Replay(d, t + [(b, v)]) == Replay(d, t)[b := v]
  {
    assert (t + [(b, v)])[..|t|] == t;
  }

  predicate TxnsIn(h: seq<Txn>, n: nat) { forall i :: 0 <= i < |h| ==> InRange(h[i], n) }

  function ReplayAll(d: seq<Block>, h: seq<Txn>): (r: seq<Block>)
    requires TxnsIn(h, |d|)
    ensures |r| == |d|
  {
    if h == [] then d
    else
      Replay(ReplayAll(d, h[..|h| - 1]), h[|h| - 1])
  }

  /** What `Replay` leaves in a block: the last value the transaction gave it, else the old one. */
  lemma {:induction false} ReplayIsLastWrite(d: seq<Block>, t: Txn, b: nat)
    requires b < |d| && InRange(t, |d|)
    ensures (forall i :: 0 <= i < |t| ==> t[i].0 != b) ==> Replay(d, t)[b] == d[b]
    ensures forall i :: 0 <= i < |t| && t[i].0 == b && (forall j :: i < j < |t| ==> t[j].0 != b) ==>
              Replay(d, t)[b] == t[i].1
  {
    if t != [] {
      ReplayIsLastWrite(d, t[..|t| - 1], b);
    }
  }

  // ---------------------------------------------------------------- reservations

  function Outstanding(ops: seq<Op>): nat
  {
    if ops == [] then 0 else Outstanding(ops[..|ops| - 1]) + if ops[|ops| - 1].In? then 1 else 0
  }

  /** Log entries that operations in progress may still add. */
  function Unused(ops: seq<Op>): int
  {
    if ops == [] then 0
    else Unused(ops[..|ops| - 1]) + match ops[|ops| - 1] case Out => 0 case In(u) => MAXOPBLOCKS - u
  }

  lemma {:induction false} OpsUpdate(ops: seq<Op>, p: nat, o: Op)
    requires p < |ops|
    ensures Outstanding(ops[p := o]) == Outstanding(ops) + (if o.In? then 1 else 0) - (if ops[p].In? then 1 else 0)
    ensures Unused(ops[p := o]) == Unused(ops) + (if o.In? then MAXOPBLOCKS - o.used else 0)
                                  - (if ops[p].In? then MAXOPBLOCKS - ops[p].used else 0)
  {
    var n := |ops| - 1;
    if p == n {
      assert ops[p := o][..n] == ops[..n];
    } else {
      OpsUpdate(ops[..n], p, o);
      assert ops[p := o][..n] == ops[..n][p := o];
    }
  }

  predicate Budgeted(ops: seq<Op>) { forall p :: 0 <= p < |ops| && ops[p].In? ==> ops[p].used <= MAXOPBLOCKS }

  lemma {:induction false} NobodyIn(ops: seq<Op>)
    ensures (forall p :: 0 <= p < |ops| ==> ops[p].Out?) <==> Outstanding(ops) == 0
  {
    if ops != [] {
      NobodyIn(ops[..|ops| - 1]);
      forall p | 0 <= p < |ops| - 1 ensures ops[..|ops| - 1][p] == ops[p] {}
    }
  }

  lemma {:induction false} UnusedBounds(ops: seq<Op>)
    requires Budgeted(ops)
    ensures 0 <= Unused(ops) <= Outstanding(ops) * MAXOPBLOCKS
    ensures forall p :: 0 <= p < |ops| && ops[p].In? ==> Unused(ops) >= MAXOPBLOCKS - ops[p].used
  {
    if ops != [] {
      UnusedBounds(ops[..|ops| - 1]);
      var o := ops[|ops| - 1];
      forall p | 0 <= p < |ops| - 1 ensures ops[..|ops| - 1][p] == ops[p] {}
    }
  }

  lemma NoneOutstanding(ops: seq<Op>)
    requires Budgeted(ops) && Outstanding(ops) == 0
    ensures Unused(ops) == 0
  {
    UnusedBounds(ops);
  }

  // ---------------------------------------------------------------- the machine

  predicate Committing(s: State) { s.phase.WriteLog? || s.phase.Install? || s.phase.Done? }

  /** What bread returns for a block. */
  function View(s: State, b: nat): Block
    requires b < |s.disk|
  {
    Latest(s.disk, s.pinned, b)
  }

  function DoBegin(c: Config, s: State, p: nat): (r: Outcome)
    requires Sane(c, s)
    ensures r.Ok? ==> Sane(c, r.s) && r.s.init == s.init && |r.s.ops| == |s.ops|
  {
    if p >= |s.ops| || s.ops[p].In? || s.phase.Down? || s.phase.Recover? then Disabled
    else if Committing(s) then Disabled
    else if |s.lh| + (Outstanding(s.ops) + 1) * MAXOPBLOCKS > LOGSIZE then Disabled
    else Ok(s.(ops := s.ops[p := In(0)]))
  }

  function DoLogWrite(c: Config, s: State, p: nat, b: Uint, v: Block): (r: Outcome)
    requires Sane(c, s)
    ensures r.Ok? ==> Sane(c, r.s) && r.s.init == s.init && |r.s.ops| == |s.ops|
  {
    if p >= |s.ops| || !c.Home(b) || s.phase.Down? || s.phase.Recover? then Disabled
    else if |s.lh| >= LOGSIZE || |s.lh| >= c.size - 1 then Panic
    else if Outstanding(s.ops) < 1 then Panic
    else if s.ops[p].Out? then Disabled
    else
      var absorbed := b in s.lh;
      Ok(s.(lh := if absorbed then s.lh else s.lh + [b],
            pinned := s.pinned[b := v],
            ops := if absorbed then s.ops else s.ops[p := In(s.ops[p].used + 1)],
            cur := s.cur + [(b, v)]))
  }

  function DoEnd(c: Config, s: State, p: nat): (r: Outcome)
    requires Sane(c, s)
    ensures r.Ok? ==> Sane(c, r.s) && r.s.init == s.init && |r.s.ops| == |s.ops|
  {
    if p >= |s.ops| || s.ops[p].Out? then Disabled
    else if Committing(s) then Panic
    else
      var ops := s.ops[p := Out];
      Ok(s.(ops := ops, phase := if Outstanding(ops) > 0 then s.phase
                                 else if |s.lh| > 0 then WriteLog(0) else Done))
  }

  function DoCopyToLog(c: Config, s: State): (r: Outcome)
    requires Sane(c, s)
    ensures r.Ok? ==> Sane(c, r.s) && r.s.init == s.init && |r.s.ops| == |s.ops|
  {
    if !s.phase.WriteLog? || s.phase.i >= |s.lh| then Disabled
    else Ok(s.(disk := s.disk[c.start + 1 + s.phase.i := View(s, s.lh[s.phase.i])], phase := WriteLog(s.phase.i + 1)))
  }

  function DoPutHeader(c: Config, s: State): (r: Outcome)
    requires Sane(c, s)
    ensures r.Ok? ==> Sane(c, r.s) && r.s.init == s.init && |r.s.ops| == |s.ops|
  {
    if s.phase != WriteLog(|s.lh|) then Disabled
    else Ok(s.(disk := s.disk[c.start := PutHead(s.disk[c.start], s.lh)], phase := Install(0),
               hist := s.hist + [s.cur], cur := []))
  }

  function DoInstallOne(c: Config, s: State): (r: Outcome)
    requires Sane(c, s)
    ensures r.Ok? ==> Sane(c, r.s) && r.s.init == s.init && |r.s.ops| == |s.ops|
  {
    if !s.phase.Install? || s.phase.i >= |s.lh| then Disabled
    else
      var b := s.lh[s.phase.i];
      Ok(s.(disk := s.disk[b := s.disk[c.start + 1 + s.phase.i]], pinned := s.pinned - {b},
            phase := Install(s.phase.i + 1)))
  }

  function DoEraseHeader(c: Config, s: State): (r: Outcome)
    requires Sane(c, s)
    ensures r.Ok? ==> Sane(c, r.s) && r.s.init == s.init && |r.s.ops| == |s.ops|
  {
    if s.phase != Install(|s.lh|) then Disabled
    else Ok(s.(disk := s.disk[c.start := PutHead(s.disk[c.start], [])], lh := [], phase := Done))
  }

  function DoFinish(c: Config, s: State): (r: Outcome)
    requires Sane(c, s)
    ensures r.Ok? ==> Sane(c, r.s) && r.s.init == s.init && |r.s.ops| == |s.ops|
  {
    if !s.phase.Done? then Disabled else Ok(s.(phase := Idle))
  }

  function DoCrash(c: Config, s: State): (r: Outcome)
    requires Sane(c, s)
    ensures r.Ok? ==> Sane(c, r.s) && r.s.init == s.init && |r.s.ops| == |s.ops|
  {
    Ok(s.(pinned := map[], lh := [], ops := seq(|s.ops|, _ => Out), phase := Down, cur := []))
  }

  function DoReadHeader(c: Config, s: State): (r: Outcome)
    requires Sane(c, s)
    ensures r.Ok? ==> Sane(c, r.s) && r.s.init == s.init && |r.s.ops| == |s.ops|
  {
    if !s.phase.Down? || |ReadHead(s.disk[c.start])| > c.size - 1
       || !AllHome(c, ReadHead(s.disk[c.start])) then Disabled
    else Ok(s.(lh := ReadHead(s.disk[c.start]), phase := Recover(0)))
  }

  function DoRecoverOne(c: Config, s: State): (r: Outcome)
    requires Sane(c, s)
    ensures r.Ok? ==> Sane(c, r.s) && r.s.init == s.init && |r.s.ops| == |s.ops|
  {
    if !s.phase.Recover? || s.phase.i >= |s.lh| then Disabled
    else Ok(s.(disk := s.disk[s.lh[s.phase.i] := s.disk[c.start + 1 + s.phase.i]], phase := Recover(s.phase.i + 1)))
  }

  function DoRecoverErase(c: Config, s: State): (r: Outcome)
    requires Sane(c, s)
    ensures r.Ok? ==> Sane(c, r.s) && r.s.init == s.init && |r.s.ops| == |s.ops|
  {
    if s.phase != Recover(|s.lh|) then Disabled
    else Ok(s.(disk := s.disk[c.start := PutHead(s.disk[c.start], [])], lh := [], phase := Idle))
  }

  function Next(c: Config, s: State, e: Event): (r: Outcome)
    requires Sane(c, s)
    ensures r.Ok? ==> Sane(c, r.s) && r.s.init == s.init && |r.s.ops| == |s.ops|
  {
    match e
    case Begin(p) => DoBegin(c, s, p)
    case LogWrite(p, b, v) => DoLogWrite(c, s, p, b, v)
    case End(p) => DoEnd(c, s, p)
    case CopyToLog => DoCopyToLog(c, s)
    case PutHeader => DoPutHeader(c, s)
    case InstallOne => DoInstallOne(c, s)
    case EraseHeader => DoEraseHeader(c, s)
    case Finish => DoFinish(c, s)
    case Crash => DoCrash(c, s)
    case ReadHeader => DoReadHeader(c, s)
    case RecoverOne => DoRecoverOne(c, s)
    case RecoverErase => DoRecoverErase(c, s)
  }

  predicate AllHome(c: Config, bs: seq<Uint>) { forall i :: 0 <= i < |bs| ==> c.Home(bs[i]) }

  /** Bounds that make the indexing in `Next` meaningful. */
  predicate Sane(c: Config, s: State)
  {
    && c.Valid() && |s.disk| == |s.init| == c.ndisk
    && |s.lh| <= LOGSIZE && |s.lh| <= c.size - 1
    && AllHome(c, s.lh)
    && TxnsIn(s.hist, c.ndisk) && InRange(s.cur, c.ndisk)
  }

  // ---------------------------------------------------------------- the invariant

  /** Home blocks after every committed transaction. */
  function Committed(s: State): (r: seq<Block>)
    requires TxnsIn(s.hist, |s.init|)
    ensures |r| == |s.init|
  {
    ReplayAll(s.init, s.hist)
  }

  /** Home blocks after every log_write so far. */
  function Current(s: State): (r: seq<Block>)
    requires TxnsIn(s.hist, |s.init|) && InRange(s.cur, |s.init|)
    ensures |r| == |s.init|
  {
    Replay(Committed(s), s.cur)
  }

  function Elems(bs: seq<Uint>): set<Uint> { set b | b in bs }

  ghost predicate Distinct(bs: seq<Uint>) { forall i, j :: 0 <= i < j < |bs| ==> bs[i] != bs[j] }

  /** Holds of the platter alone at every instant, so also at a crash. */
  ghost predicate DiskInv(c: Config, disk: seq<Block>, committed: seq<Block>)
    requires c.Valid() && |disk| == |committed| == c.ndisk
  {
    var h := ReadHead(disk[c.start]);
    && Word(disk[c.start], 0) <= LOGSIZE && |h| <= c.size - 1
    && AllHome(c, h) && Distinct(h)
    && (forall j :: 0 <= j < |h| ==> disk[c.start + 1 + j] == committed[h[j]])
    && (forall b: Uint :: c.Home(b) && b !in h ==> disk[b] == committed[b])
  }

  ghost predicate ViewInv(c: Config, s: State)
    requires Sane(c, s)
  {
    forall b: Uint :: c.Home(b) ==> View(s, b) == Current(s)[b]
  }

  ghost predicate PhaseInv(c: Config, s: State)
    requires Sane(c, s)
  {
    var h := ReadHead(s.disk[c.start]);
    match s.phase
    case Idle | Done =>
      h == [] && s.pinned.Keys == Elems(s.lh) && ViewInv(c, s) && (s.phase.Done? ==> s.lh == [])
    case WriteLog(i) =>
      && h == [] && s.pinned.Keys == Elems(s.lh) && ViewInv(c, s) && i <= |s.lh|
      && (forall j :: 0 <= j < i ==> s.disk[c.start + 1 + j] == View(s, s.lh[j]))
    case Install(i) =>
      && h == s.lh && i <= |s.lh| && s.cur == []
      && s.pinned.Keys == Elems(s.lh[i..]) && ViewInv(c, s)
    case Down =>
      s.lh == [] && s.cur == [] && s.pinned == map[]
    case Recover(i) =>
      && h == s.lh && i <= |s.lh| && s.cur == [] && s.pinned == map[]
      && (forall j :: 0 <= j < i ==> s.disk[s.lh[j]] == Committed(s)[s.lh[j]])
  }

  /** What every step keeps, however many blocks the operations log. */
  ghost predicate Inv(c: Config, s: State)
  {
    && Sane(c, s)
    && Distinct(s.lh)
    && (!s.phase.Idle? ==> Outstanding(s.ops) == 0)
    && DiskInv(c, s.disk, Committed(s))
    && PhaseInv(c, s)
  }

  /** The space that begin_op set aside for operations in progress is still there. */
  ghost predicate SpaceInv(s: State) { Budgeted(s.ops) && |s.lh| + Unused(s.ops) <= LOGSIZE }

  /** The caller adds no more than MAXOPBLOCKS distinct blocks to the log in one operation. */
  ghost predicate WithinBudget(s: State, e: Event)
  {
    e.LogWrite? && e.p < |s.ops| && s.ops[e.p].In? ==> e.b in s.lh || s.ops[e.p].used < MAXOPBLOCKS
  }

  lemma BeginKeeps(c: Config, s: State, p: nat)
    requires Inv(c, s) && DoBegin(c, s, p).Ok?
    ensures Inv(c, DoBegin(c, s, p).s)
  {
    assert s.phase.Idle?;
  }

  lemma LogWriteKeepsView(c: Config, s: State, t: State, b: Uint, v: Block)
    requires Sane(c, s) && Sane(c, t) && ViewInv(c, s) && c.Home(b)
    requires t.disk == s.disk && t.pinned == s.pinned[b := v] && Committed(t) == Committed(s)
        && t.cur == s.cur + [(b, v)]
    ensures ViewInv(c, t)
  {
    assert t.cur[..|s.cur|] == s.cur;
    assert Current(t) == Current(s)[b := v];
    forall x: Uint | c.Home(x) ensures View(t, x) == Current(t)[x] {
      assert View(s, x) == Current(s)[x];
    }
  }

  lemma LogWriteKeeps(c: Config, s: State, p: nat, b: Uint, v: Block)
    requires Inv(c, s) && DoLogWrite(c, s, p, b, v).Ok?
    ensures Inv(c, DoLogWrite(c, s, p, b, v).s)
  {
    hide ReadHead, Word, Replay, ReplayAll, Outstanding, Unused;
    var t := DoLogWrite(c, s, p, b, v).s;
    assert s.phase.Idle?;
    assert Elems(t.lh) == Elems(s.lh) + {b};
    LogWriteKeepsView(c, s, t, b, v);
  }

  lemma EndKeeps(c: Config, s: State, p: nat)
    requires Inv(c, s) && DoEnd(c, s, p).Ok?
    ensures Inv(c, DoEnd(c, s, p).s)
  {
    NobodyIn(s.ops);
    assert s.phase.Idle?;
  }

  lemma LogAreaKeepsView(c: Config, s: State, t: State, k: nat, w: Block)
    requires Sane(c, s) && Sane(c, t) && ViewInv(c, s) && Current(t) == Current(s)
    requires k < c.ndisk && !c.Home(k) && t.disk == s.disk[k := w] && t.pinned == s.pinned
    ensures ViewInv(c, t)
  {
    forall b: Uint | c.Home(b) ensures View(t, b) == View(s, b) {}
  }

  lemma CopyToLogKeeps(c: Config, s: State)
    requires Inv(c, s) && DoCopyToLog(c, s).Ok?
    ensures Inv(c, DoCopyToLog(c, s).s)
  {
    var t, k := DoCopyToLog(c, s).s, c.start + 1 + s.phase.i;
    assert t.disk[c.start] == s.disk[c.start];
    LogAreaKeepsView(c, s, t, k, View(s, s.lh[s.phase.i]));
  }

  lemma PutHeaderCommits(c: Config, s: State)
    requires Sane(c, s) && DoPutHeader(c, s).Ok?
    ensures var s' := DoPutHeader(c, s).s; Committed(s') == Current(s) == Current(s')
  {
    hide PutHead, View;
    assert DoPutHeader(c, s).s.hist[..|s.hist|] == s.hist;
  }

  lemma PutHeaderDisk(c: Config, s: State)
    requires Inv(c, s) && DoPutHeader(c, s).Ok?
    ensures DiskInv(c, DoPutHeader(c, s).s.disk, Current(s)) && ReadHead(DoPutHeader(c, s).s.disk[c.start]) == s.lh
  {
    hide ReadHead, PutHead, Word, Committed, Current, Outstanding;
    HeadRoundTrip(s.disk[c.start], s.lh);
    var d := DoPutHeader(c, s).s.disk;
    forall j | 0 <= j < |s.lh| ensures d[c.start + 1 + j] == Current(s)[s.lh[j]] {
      assert s.disk[c.start + 1 + j] == View(s, s.lh[j]);
    }
    forall b: Uint | c.Home(b) && b !in s.lh ensures d[b] == Current(s)[b] {
      assert View(s, b) == Current(s)[b];
    }
  }

  lemma PutHeaderKeeps(c: Config, s: State)
    requires Inv(c, s) && DoPutHeader(c, s).Ok?
    ensures Inv(c, DoPutHeader(c, s).s)
  {
    hide ReadHead, PutHead, Word, Committed, Current, Replay, ReplayAll, Outstanding, DiskInv;
    PutHeaderCommits(c, s);
    PutHeaderDisk(c, s);
    assert s.lh[0..] == s.lh;
    LogAreaKeepsView(c, s, DoPutHeader(c, s).s, c.start, PutHead(s.disk[c.start], s.lh));
  }

  lemma InstalledKeys(lh: seq<Uint>, i: nat)
    requires i < |lh| && Distinct(lh)
    ensures Elems(lh[i..]) - {lh[i]} == Elems(lh[i + 1..])
  {
    assert lh[i..] == [lh[i]] + lh[i + 1..];
  }

  /** Copying one logged block home, by commit or by recovery, keeps the platter recoverable. */
  lemma InstallKeepsDisk(c: Config, disk: seq<Block>, committed: seq<Block>, i: nat)
    requires c.Valid() && |disk| == |committed| == c.ndisk && DiskInv(c, disk, committed)
    requires i < |ReadHead(disk[c.start])|
    ensures var h := ReadHead(disk[c.start]);
      var d := disk[h[i] := disk[c.start + 1 + i]];
      ReadHead(d[c.start]) == h && d[h[i]] == committed[h[i]] && DiskInv(c, d, committed)
  {
    var h := ReadHead(disk[c.start]);
    assert c.Home(h[i]);
    var d := disk[h[i] := disk[c.start + 1 + i]];
    assert d[c.start] == disk[c.start];
    forall j | 0 <= j < |h| ensures d[c.start + 1 + j] == committed[h[j]] {
      assert disk[c.start + 1 + j] == committed[h[j]];
    }
  }

  lemma InstallOneView(s: State, t: State, b: Uint, w: Block, x: nat)
    requires x < |s.disk| && b < |s.disk| && t.disk == s.disk[b := w] && t.pinned == s.pinned - {b}
    ensures View(t, x) == if x == b then w else View(s, x)
  {
    if x != b {
      assert (x in t.pinned) == (x in s.pinned);
    }
  }

  lemma InstallOneKeepsView(c: Config, s: State, t: State, b: Uint, w: Block)
    requires Sane(c, s) && Sane(c, t) && ViewInv(c, s) && Current(t) == Current(s)
    requires c.Home(b) && t.disk == s.disk[b := w] && t.pinned == s.pinned - {b} && w == Current(s)[b]
    ensures ViewInv(c, t)
  {
    forall x: Uint | c.Home(x) ensures View(t, x) == Current(s)[x] {
      InstallOneView(s, t, b, w, x);
    }
  }

  lemma InstallOneKeeps(c: Config, s: State)
    requires Inv(c, s) && DoInstallOne(c, s).Ok?
    ensures Inv(c, DoInstallOne(c, s).s)
  {
    InstallKeepsDisk(c, s.disk, Committed(s), s.phase.i);
    InstalledKeys(s.lh, s.phase.i);
    InstallOneKeepsView(c, s, DoInstallOne(c, s).s, s.lh[s.phase.i], s.disk[c.start + 1 + s.phase.i]);
  }

  lemma EraseHeaderKeeps(c: Config, s: State)
    requires Inv(c, s) && DoEraseHeader(c, s).Ok?
    ensures Inv(c, DoEraseHeader(c, s).s)
  {
    var s' := DoEraseHeader(c, s).s;
    HeadRoundTrip(s.disk[c.start], []);
    assert s.lh[|s.lh|..] == [];
    forall b: Uint | c.Home(b) ensures s'.disk[b] == Committed(s)[b] {
      assert View(s, b) == Current(s)[b];
    }
  }

  lemma NoOps(n: nat)
    ensures Budgeted(seq(n, _ => Out)) && Outstanding(seq(n, _ => Out)) == 0 == Unused(seq(n, _ => Out))
  {
    NobodyIn(seq(n, _ => Out));
    UnusedBounds(seq(n, _ => Out));
  }

  lemma CrashKeeps(c: Config, s: State)
    requires Inv(c, s)
    ensures Inv(c, DoCrash(c, s).s)
  {
    NoOps(|s.ops|);
  }

  lemma ReadHeaderKeeps(c: Config, s: State)
    requires Inv(c, s) && DoReadHeader(c, s).Ok?
    ensures Inv(c, DoReadHeader(c, s).s)
  {
  }

  lemma RecoverOneKeeps(c: Config, s: State)
    requires Inv(c, s) && DoRecoverOne(c, s).Ok?
    ensures Inv(c, DoRecoverOne(c, s).s)
  {
    hide ReadHead, Word, Replay, ReplayAll, Outstanding, Unused;
    InstallKeepsDisk(c, s.disk, Committed(s), s.phase.i);
  }

  lemma RecoverEraseKeeps(c: Config, s: State)
    requires Inv(c, s) && DoRecoverErase(c, s).Ok?
    ensures Inv(c, DoRecoverErase(c, s).s)
  {
    HeadRoundTrip(s.disk[c.start], []);
    var s' := DoRecoverErase(c, s).s;
    forall b: Uint | c.Home(b) ensures View(s', b) == Committed(s)[b] {}
  }

  lemma StepKeeps(c: Config, s: State, e: Event)
    requires Inv(c, s) && Next(c, s, e).Ok?
    ensures Inv(c, Next(c, s, e).s)
  {
    match e
    case Begin(p) => BeginKeeps(c, s, p);
    case LogWrite(p, b, v) => LogWriteKeeps(c, s, p, b, v);
    case End(p) => EndKeeps(c, s, p);
    case CopyToLog => CopyToLogKeeps(c, s);
    case PutHeader => PutHeaderKeeps(c, s);
    case InstallOne => InstallOneKeeps(c, s);
    case EraseHeader => EraseHeaderKeeps(c, s);
    case Finish =>
    case Crash => CrashKeeps(c, s);
    case ReadHeader => ReadHeaderKeeps(c, s);
    case RecoverOne => RecoverOneKeeps(c, s);
    case RecoverErase => RecoverEraseKeeps(c, s);
  }

  /** A step within budget keeps the reservations. */
  lemma StepKeepsSpace(c: Config, s: State, e: Event)
    requires Inv(c, s) && SpaceInv(s) && WithinBudget(s, e) && Next(c, s, e).Ok?
    ensures SpaceInv(Next(c, s, e).s)
  {
    hide DiskInv, PhaseInv, Replay, ReplayAll, PutHead, ReadHead;
    UnusedBounds(s.ops);
    match e
    case Begin(p) => OpsUpdate(s.ops, p, In(0));
    case LogWrite(p, b, v) =>
      if b !in s.lh {
        OpsUpdate(s.ops, p, In(s.ops[p].used + 1));
      }
    case End(p) => OpsUpdate(s.ops, p, Out);
    case Crash => NoOps(|s.ops|);
    case ReadHeader => NoneOutstanding(s.ops);
    case _ =>
  }

  /** How one step changes the recorded history. */
  lemma StepHistory(c: Config, s: State, e: Event)
    requires Sane(c, s) && Next(c, s, e).Ok?
    ensures Next(c, s, e).s.hist == if e.PutHeader? then s.hist + [s.cur] else s.hist
    ensures Next(c, s, e).s.cur == if e.PutHeader? || e.Crash? then []
                                   else if e.LogWrite? then s.cur + [(e.b, e.v)] else s.cur
  {
  }
}
