/** What holds of every run of the log machine, from boot on a fresh image. */
module LogRuns {
  import opened Disk
  import opened LogMachine

  /** A machine that has come up on an image whose log header is empty, as mkfs leaves it. */
  function Boot(d: seq<Block>, nprocs: nat): State
  {
    State(d, map[], [], seq(nprocs, _ => Out), Idle, d, [], [])
  }

  ghost predicate FreshImage(c: Config, d: seq<Block>)
  {
    c.Valid() && |d| == c.ndisk && Word(d[c.start], 0) == 0
  }

  function Run(c: Config, s: State, es: seq<Event>): (r: Outcome)
    requires Sane(c, s)
    ensures r.Ok? ==> Sane(c, r.s) && r.s.init == s.init && |r.s.ops| == |s.ops|
  {
    if es == [] then Ok(s)
    else match Run(c, s, es[..|es| - 1]) {
      case Ok(t) => Next(c, t, es[|es| - 1])
      case o => o
    }
  }

  /** Every operation of the run stays within its MAXOPBLOCKS distinct blocks. */
  ghost predicate RunWithinBudget(c: Config, s: State, es: seq<Event>)
    requires Sane(c, s)
  {
    es != [] ==>
    && RunWithinBudget(c, s, es[..|es| - 1])
    && (Run(c, s, es[..|es| - 1]).Ok? ==> WithinBudget(Run(c, s, es[..|es| - 1]).s, es[|es| - 1]))
  }

  // ------------------------------------------------------- transactions, read off the events alone

  /** Writes of the transaction still open after `es`: those since the last header write or crash. */
  function OpenWrites(es: seq<Event>): Txn
  {
    if es == [] then []
    else
      var e := es[|es| - 1];
      if e.LogWrite? then OpenWrites(es[..|es| - 1]) + [(e.b, e.v)]
      else if e.PutHeader? || e.Crash? then []
      else OpenWrites(es[..|es| - 1])
  }

  /** The transactions whose header write is among `es`. */
  function CommittedTxns(es: seq<Event>): seq<Txn>
  {
    if es == [] then []
    else if es[|es| - 1].PutHeader? then CommittedTxns(es[..|es| - 1]) + [OpenWrites(es[..|es| - 1])]
    else CommittedTxns(es[..|es| - 1])
  }

  lemma {:induction false} HistoryIsTheEvents(c: Config, d: seq<Block>, n: nat, es: seq<Event>)
    requires FreshImage(c, d) && Run(c, Boot(d, n), es).Ok?
    ensures Run(c, Boot(d, n), es).s.hist == CommittedTxns(es)
    ensures Run(c, Boot(d, n), es).s.cur == OpenWrites(es)
  {
    if es != [] {
      HistoryIsTheEvents(c, d, n, es[..|es| - 1]);
      StepHistory(c, Run(c, Boot(d, n), es[..|es| - 1]).s, es[|es| - 1]);
    }
  }

  // ------------------------------------------------------- invariants of every run

  lemma BootInv(c: Config, d: seq<Block>, n: nat)
    requires FreshImage(c, d)
    ensures Inv(c, Boot(d, n))
  {
    NoOps(n);
  }

  lemma {:induction false} RunKeepsInv(c: Config, s: State, es: seq<Event>)
    requires Inv(c, s) && Run(c, s, es).Ok?
    ensures Inv(c, Run(c, s, es).s)
  {
    if es != [] {
      RunKeepsInv(c, s, es[..|es| - 1]);
      StepKeeps(c, Run(c, s, es[..|es| - 1]).s, es[|es| - 1]);
    }
  }

  lemma Reachable(c: Config, d: seq<Block>, n: nat, es: seq<Event>)
    requires FreshImage(c, d) && Run(c, Boot(d, n), es).Ok?
    ensures Inv(c, Run(c, Boot(d, n), es).s)
    ensures TxnsIn(CommittedTxns(es), c.ndisk) && InRange(OpenWrites(es), c.ndisk)
    ensures Committed(Run(c, Boot(d, n), es).s) == ReplayAll(d, CommittedTxns(es))
  {
    BootInv(c, d, n);
    RunKeepsInv(c, Boot(d, n), es);
    HistoryIsTheEvents(c, d, n, es);
  }

  /**
   Log plus cache is a flat map: while the system is up, reading any home block gives the last
   contents logged for it, and before the header write the block on disk is still the old one.
   */
  lemma FlatMap(c: Config, d: seq<Block>, n: nat, es: seq<Event>, b: Uint)
    requires FreshImage(c, d) && Run(c, Boot(d, n), es).Ok?
    requires c.Home(b)
    ensures TxnsIn(CommittedTxns(es), c.ndisk) && InRange(OpenWrites(es), c.ndisk)
    ensures var s := Run(c, Boot(d, n), es).s;
      && (!s.phase.Down? && !s.phase.Recover? ==>
            View(s, b) == Replay(ReplayAll(d, CommittedTxns(es)), OpenWrites(es))[b])
      && (s.phase.Idle? || s.phase.WriteLog? ==> s.disk[b] == ReplayAll(d, CommittedTxns(es))[b])
  {
    Reachable(c, d, n, es);
    HistoryIsTheEvents(c, d, n, es);
    var s := Run(c, Boot(d, n), es).s;
    assert !s.phase.Down? && !s.phase.Recover? ==> ViewInv(c, s);
  }

  // ------------------------------------------------------- crash atomicity

  predicate RecoveryEvent(e: Event) { e.Crash? || e.ReadHeader? || e.RecoverOne? || e.RecoverErase? }

  lemma {:induction false} RecoveryKeepsHistory(c: Config, s: State, rs: seq<Event>)
    requires Sane(c, s) && (forall i :: 0 <= i < |rs| ==> RecoveryEvent(rs[i]))
    ensures Run(c, s, rs).Ok? ==> Run(c, s, rs).s.hist == s.hist
  {
    if rs != [] {
      RecoveryKeepsHistory(c, s, rs[..|rs| - 1]);
      if Run(c, s, rs).Ok? {
        StepHistory(c, Run(c, s, rs[..|rs| - 1]).s, rs[|rs| - 1]);
      }
    }
  }

  /**
   Cut any run by a crash, let recovery itself crash and restart any number of times, and let it
   finish: the home blocks hold exactly the transactions whose header write reached the disk.
   */
  lemma CrashAtomicity(c: Config, d: seq<Block>, n: nat, es: seq<Event>, rs: seq<Event>, b: Uint)
    requires FreshImage(c, d) && Run(c, Boot(d, n), es).Ok?
    requires forall i :: 0 <= i < |rs| ==> RecoveryEvent(rs[i])
    requires c.Home(b)
    ensures TxnsIn(CommittedTxns(es), c.ndisk)
    ensures var up := Run(c, DoCrash(c, Run(c, Boot(d, n), es).s).s, rs);
      up.Ok? && up.s.phase.Idle? ==> up.s.disk[b] == ReplayAll(d, CommittedTxns(es))[b] == View(up.s, b)
  {
    Reachable(c, d, n, es);
    var s := Run(c, Boot(d, n), es).s;
    var down := DoCrash(c, s).s;
    CrashKeeps(c, s);
    RecoveryKeepsHistory(c, down, rs);
    if Run(c, down, rs).Ok? && Run(c, down, rs).s.phase.Idle? {
      RunKeepsInv(c, down, rs);
      var up := Run(c, down, rs).s;
      RecoveryCutsOpen(c, down, rs);
      assert Committed(up) == Committed(s);
      assert View(up, b) == Current(up)[b];
    }
  }

  lemma {:induction false} RecoveryCutsOpen(c: Config, s: State, rs: seq<Event>)
    requires Sane(c, s) && s.cur == [] && (forall i :: 0 <= i < |rs| ==> RecoveryEvent(rs[i])) && Run(c, s, rs).Ok?
    ensures Run(c, s, rs).s.cur == []
  {
    if rs != [] {
      RecoveryCutsOpen(c, s, rs[..|rs| - 1]);
      StepHistory(c, Run(c, s, rs[..|rs| - 1]).s, rs[|rs| - 1]);
    }
  }

  /** Recovery without further crashes: read the header, then install `n` blocks. */
  function Installs(n: nat): seq<Event>
  {
    if n == 0 then [ReadHeader] else Installs(n - 1) + [RecoverOne]
  }

  lemma {:induction false} InstallsAreRecovery(n: nat)
    ensures forall i :: 0 <= i < |Installs(n)| ==> RecoveryEvent(Installs(n)[i])
  {
    if n > 0 {
      InstallsAreRecovery(n - 1);
    }
  }

  lemma RunSnoc(c: Config, s: State, es: seq<Event>, e: Event)
    requires Sane(c, s) && Run(c, s, es).Ok?
    ensures Run(c, s, es + [e]) == Next(c, Run(c, s, es).s, e)
  {
    assert (es + [e])[..|es|] == es;
  }

  lemma {:induction false} InstallsRun(c: Config, s: State, n: nat)
    requires Sane(c, s) && DoReadHeader(c, s).Ok? && n <= |DoReadHeader(c, s).s.lh|
    ensures Run(c, s, Installs(n)).Ok?
    ensures var t := Run(c, s, Installs(n)).s; t.phase == Recover(n) && t.lh == DoReadHeader(c, s).s.lh
  {
    hide Sane, Run, Next, DoReadHeader, DoRecoverOne;
    if n == 0 {
      InstallsStart(c, s);
    } else {
      InstallsRun(c, s, n - 1);
      InstallsStep(c, Run(c, s, Installs(n - 1)).s, n - 1);
      RunSnoc(c, s, Installs(n - 1), RecoverOne);
      assert Installs(n) == Installs(n - 1) + [RecoverOne];
    }
  }

  lemma InstallsStart(c: Config, s: State)
    requires Sane(c, s) && DoReadHeader(c, s).Ok?
    ensures Run(c, s, Installs(0)) == DoReadHeader(c, s) && DoReadHeader(c, s).s.phase == Recover(0)
  {
    assert Run(c, s, []) == Ok(s);
    RunSnoc(c, s, [], ReadHeader);
    assert Installs(0) == [] + [ReadHeader];
  }

  lemma InstallsStep(c: Config, s: State, i: nat)
    requires Sane(c, s) && s.phase == Recover(i) && i < |s.lh|
    ensures Next(c, s, RecoverOne).Ok?
    ensures var t := Next(c, s, RecoverOne).s; t.phase == Recover(i + 1) && t.lh == s.lh
  {
  }

  /** From any crashed state of a run, recovery can always run to completion. */
  lemma RecoveryCompletes(c: Config, s: State)
    requires Inv(c, s) && s.phase.Down?
    ensures var rs := Installs(|ReadHead(s.disk[c.start])|) + [RecoverErase];
      (forall i :: 0 <= i < |rs| ==> RecoveryEvent(rs[i])) && Run(c, s, rs).Ok? && Run(c, s, rs).s.phase.Idle?
  {
    hide DiskInv, PhaseInv, Run, Next, Installs, ReadHead;
    var n := |ReadHead(s.disk[c.start])|;
    HeaderReadable(c, s);
    InstallsRun(c, s, n);
    InstallsAreRecovery(n);
    EraseEnds(c, Run(c, s, Installs(n)).s);
    RunSnoc(c, s, Installs(n), RecoverErase);
  }

  lemma HeaderReadable(c: Config, s: State)
    requires Inv(c, s) && s.phase.Down?
    ensures DoReadHeader(c, s).Ok? && DoReadHeader(c, s).s.lh == ReadHead(s.disk[c.start])
  {
  }

  lemma EraseEnds(c: Config, s: State)
    requires Sane(c, s) && s.phase == Recover(|s.lh|)
    ensures Next(c, s, RecoverErase).Ok? && Next(c, s, RecoverErase).s.phase.Idle?
  {
  }

  // ------------------------------------------------------- operations are never split

  /** While an operation is in progress no header write happens, so its writes share one transaction. */
  lemma {:induction false} OperationIsWhole(c: Config, s: State, p: nat, es: seq<Event>)
    requires Inv(c, s) && Run(c, s, es).Ok? && p < |s.ops|
    requires forall k :: 0 <= k <= |es| && Run(c, s, es[..k]).Ok? ==> Run(c, s, es[..k]).s.ops[p].In?
    ensures Run(c, s, es).s.hist == s.hist && s.cur <= Run(c, s, es).s.cur
  {
    hide Next, DiskInv, PhaseInv;
    if es != [] {
      var front, e := es[..|es| - 1], es[|es| - 1];
      forall k | 0 <= k <= |front| ensures front[..k] == es[..k] {}
      OperationIsWhole(c, s, p, front);
      RunKeepsInv(c, s, front);
      assert es[..|front|] == front && es[..|es|] == es;
      StaysIn(c, Run(c, s, front).s, p, e);
    }
  }

  lemma StaysIn(c: Config, s: State, p: nat, e: Event)
    requires Inv(c, s) && p < |s.ops| && s.ops[p].In? && Next(c, s, e).Ok? && Next(c, s, e).s.ops[p].In?
    ensures Next(c, s, e).s.hist == s.hist && s.cur <= Next(c, s, e).s.cur
  {
    hide DiskInv, PhaseInv, Replay, ReplayAll, PutHead, ReadHead, Outstanding;
    StepHistory(c, s, e);
    InMeansIdle(c, s, p);
    assert !e.Crash? && !e.PutHeader?;
  }

  lemma InMeansIdle(c: Config, s: State, p: nat)
    requires Inv(c, s) && p < |s.ops| && s.ops[p].In?
    ensures s.phase.Idle?
  {
    NobodyIn(s.ops);
  }

  /** end_op never fails; it starts a commit exactly when nobody else is in, with nothing to do for an empty log. */
  lemma EndExactly(c: Config, s: State, p: nat)
    requires Inv(c, s) && p < |s.ops| && s.ops[p].In?
    ensures Next(c, s, End(p)).Ok?
    ensures var t := Next(c, s, End(p)).s;
      t == s.(ops := s.ops[p := Out], phase := t.phase)
      && (t.phase.Idle? <==> exists q :: 0 <= q < |s.ops| && q != p && s.ops[q].In?)
      && (!t.phase.Idle? ==> t.phase == if s.lh == [] then Done else WriteLog(0))
  {
    hide DiskInv, PhaseInv, Outstanding;
    InMeansIdle(c, s, p);
    var ops := s.ops[p := Out];
    NobodyIn(ops);
    if q: nat :| q < |s.ops| && q != p && s.ops[q].In? {
      assert ops[q].In?;
    } else {
      forall q | 0 <= q < |ops| ensures ops[q].Out? {
        assert q != p ==> !s.ops[q].In?;
      }
    }
  }

  // ------------------------------------------------------- space reservation

  lemma {:induction false} RunKeepsSpace(c: Config, s: State, es: seq<Event>)
    requires Inv(c, s) && SpaceInv(s) && RunWithinBudget(c, s, es) && Run(c, s, es).Ok?
    ensures SpaceInv(Run(c, s, es).s)
  {
    if es != [] {
      RunKeepsSpace(c, s, es[..|es| - 1]);
      RunKeepsInv(c, s, es[..|es| - 1]);
      StepKeepsSpace(c, Run(c, s, es[..|es| - 1]).s, es[|es| - 1]);
    }
  }

  lemma ReachableSpace(c: Config, d: seq<Block>, n: nat, es: seq<Event>)
    requires FreshImage(c, d) && RunWithinBudget(c, Boot(d, n), es) && Run(c, Boot(d, n), es).Ok?
    ensures Inv(c, Run(c, Boot(d, n), es).s) && SpaceInv(Run(c, Boot(d, n), es).s)
  {
    BootInv(c, d, n);
    NoOps(n);
    RunKeepsInv(c, Boot(d, n), es);
    RunKeepsSpace(c, Boot(d, n), es);
  }

  /**
   In every interleaving the entries logged plus what operations in progress may still add fit in
   the log, no block is logged twice, commit runs alone, and end_op never finds one running.
   */
  lemma Reservation(c: Config, d: seq<Block>, n: nat, es: seq<Event>)
    requires FreshImage(c, d) && RunWithinBudget(c, Boot(d, n), es) && Run(c, Boot(d, n), es).Ok?
    ensures var s := Run(c, Boot(d, n), es).s;
      && |s.lh| + Unused(s.ops) <= LOGSIZE && Unused(s.ops) >= 0
      && Distinct(s.lh)
      && (Committing(s) ==> forall p, b, v :: !Next(c, s, LogWrite(p, b, v)).Ok?)
      && (Committing(s) ==> Outstanding(s.ops) == 0)
      && forall p :: !Next(c, s, End(p)).Panic?
  {
    ReachableSpace(c, d, n, es);
    var s := Run(c, Boot(d, n), es).s;
    UnusedBounds(s.ops);
    forall p ensures !DoEnd(c, s, p).Panic? {
      NobodyIn(s.ops);
    }
    forall p, b, v | Committing(s) ensures !DoLogWrite(c, s, p, b, v).Ok? {}
  }

  // ------------------------------------------------------- sleepers in begin_op

  /** Why begin_op puts a process to sleep on the log. */
  predicate Blocked(s: State) { Committing(s) || |s.lh| + (Outstanding(s.ops) + 1) * MAXOPBLOCKS > LOGSIZE }

  /** The steps that call wakeup on the log: an end_op that leaves others inside, and the end of a commit. */
  predicate WakesLog(s: State, e: Event)
  {
    e.Finish? || (e.End? && e.p < |s.ops| && Outstanding(s.ops[e.p := Out]) > 0)
  }

  ghost predicate Up(s: State) { !s.phase.Down? && !s.phase.Recover? }

  /** A step that takes away the reason to sleep wakes the sleepers. */
  lemma UnblockingWakes(c: Config, s: State, e: Event)
    requires Inv(c, s) && Up(s) && Next(c, s, e).Ok? && !e.Crash? && Blocked(s) && !WakesLog(s, e)
    ensures Blocked(Next(c, s, e).s) && Up(Next(c, s, e).s)
  {
    hide DiskInv, ViewInv, Replay, ReplayAll, PutHead, ReadHead, Outstanding;
    NobodyIn(s.ops);
    match e
    case LogWrite(p, b, v) =>
      if b !in s.lh {
        OpsUpdate(s.ops, p, In(s.ops[p].used + 1));
      }
    case _ =>
  }

  lemma {:induction false} StaysBlocked(c: Config, s: State, es: seq<Event>)
    requires Inv(c, s) && Up(s) && Blocked(s) && Run(c, s, es).Ok?
    requires forall k :: 0 <= k < |es| ==> !es[k].Crash?
    requires forall k :: 0 <= k < |es| && Run(c, s, es[..k]).Ok? ==> !WakesLog(Run(c, s, es[..k]).s, es[k])
    ensures Blocked(Run(c, s, es).s) && Up(Run(c, s, es).s)
  {
    hide DiskInv, PhaseInv, Next, Blocked, WakesLog, Up;
    if es != [] {
      var front := es[..|es| - 1];
      forall k | 0 <= k < |front| && Run(c, s, front[..k]).Ok?
        ensures !WakesLog(Run(c, s, front[..k]).s, front[k])
      {
        assert front[..k] == es[..k];
      }
      StaysBlocked(c, s, front);
      RunKeepsInv(c, s, front);
      assert es[..|es| - 1] == front;
      UnblockingWakes(c, Run(c, s, front).s, es[|es| - 1]);
    }
  }

  /**
   So a process that begin_op has put to sleep and that nobody has woken since would be put to sleep again,
   like every other: no wakeup is lost.
   */
  lemma SleepersHaveReason(c: Config, s: State, es: seq<Event>, p: nat)
    requires Inv(c, s) && Up(s) && p < |s.ops| && s.ops[p].Out? && !Next(c, s, Begin(p)).Ok? && Run(c, s, es).Ok?
    requires forall k :: 0 <= k < |es| ==> !es[k].Crash?
    requires forall k :: 0 <= k < |es| && Run(c, s, es[..k]).Ok? ==> !WakesLog(Run(c, s, es[..k]).s, es[k])
    ensures var t := Run(c, s, es).s; Blocked(t) && Up(t) && forall q :: !Next(c, t, Begin(q)).Ok?
  {
    hide DiskInv, PhaseInv, Outstanding, WakesLog, Run;
    StaysBlocked(c, s, es);
  }

  // ------------------------------------------------------- "too big a transaction"

  /** Entries at which log_write's guard `n >= LOGSIZE || n >= log.size - 1` refuses. */
  function Capacity(c: Config): nat
    requires c.Valid()
  {
    if c.size > LOGSIZE then LOGSIZE else c.size - 1
  }

  /** A log_write by an operation that has not used up its reservation. */
  ghost predicate Reserved(s: State, p: nat)
  {
    p < |s.ops| && s.ops[p].In? && s.ops[p].used < MAXOPBLOCKS
  }

  /** A log_write that an operation may make: of a block already in the log, or within its reservation. */
  ghost predicate Due(c: Config, s: State, p: nat, b: Uint)
  {
    c.Home(b) && p < |s.ops| && s.ops[p].In? && (b in s.lh || s.ops[p].used < MAXOPBLOCKS)
  }

  ghost predicate ReservedWritesNeverPanic(c: Config, d: seq<Block>, n: nat)
    requires FreshImage(c, d)
  {
    forall es, p, b, v ::
      RunWithinBudget(c, Boot(d, n), es) && Run(c, Boot(d, n), es).Ok? && Reserved(Run(c, Boot(d, n), es).s, p) ==>
      !Next(c, Run(c, Boot(d, n), es).s, LogWrite(p, b, v)).Panic?
  }

  ghost predicate DueWritesNeverPanic(c: Config, d: seq<Block>, n: nat)
    requires FreshImage(c, d)
  {
    forall es, p, b, v ::
      RunWithinBudget(c, Boot(d, n), es) && Run(c, Boot(d, n), es).Ok? && Due(c, Run(c, Boot(d, n), es).s, p, b) ==>
      !Next(c, Run(c, Boot(d, n), es).s, LogWrite(p, b, v)).Panic?
  }

  /**
   A write that an operation may make panics exactly when the header is full; and in a log of more than
   LOGSIZE blocks that takes every operation in progress to have used up its reservation.
   */
  lemma PanicsWhenFull(c: Config, d: seq<Block>, n: nat, es: seq<Event>, p: nat, b: Uint, v: Block)
    requires FreshImage(c, d) && RunWithinBudget(c, Boot(d, n), es) && Run(c, Boot(d, n), es).Ok?
    requires Due(c, Run(c, Boot(d, n), es).s, p, b)
    ensures var s := Run(c, Boot(d, n), es).s;
      && (Next(c, s, LogWrite(p, b, v)).Panic? <==> |s.lh| == Capacity(c))
      && (Next(c, s, LogWrite(p, b, v)).Ok? <==> |s.lh| < Capacity(c))
      && (|s.lh| == Capacity(c) && c.size > LOGSIZE ==> Unused(s.ops) == 0 && b in s.lh)
  {
    ReachableSpace(c, d, n, es);
    var s := Run(c, Boot(d, n), es).s;
    UnusedBounds(s.ops);
    NobodyIn(s.ops);
  }

  lemma Extend(c: Config, s: State, es: seq<Event>, e: Event)
    requires Sane(c, s) && RunWithinBudget(c, s, es) && Run(c, s, es).Ok? && WithinBudget(Run(c, s, es).s, e)
    ensures RunWithinBudget(c, s, es + [e]) && Run(c, s, es + [e]) == Next(c, Run(c, s, es).s, e)
  {
    assert (es + [e])[..|es|] == es;
  }

  /**
   Two processes fill the log: both begin; 1 logs ten blocks, ends, begins again and logs ten more; then 0
   logs ten. Entry `j` is the `j`-th block behind the log region.
   */
  function FillEvent(c: Config, k: nat): Event
    requires k < LOGSIZE + 4 && c.start + c.size + LOGSIZE <= UINT_MAX
  {
    if k == 0 then Begin(0)
    else if k == 1 || k == 13 then Begin(1)
    else if k == 12 then End(1)
    else LogWrite(if k < 24 then 1 else 0, c.start + c.size + Entered(k), seq(BSIZE, _ => 0))
  }

  function FillUp(c: Config, k: nat): seq<Event>
    requires k <= LOGSIZE + 4 && c.start + c.size + LOGSIZE <= UINT_MAX
  {
    if k == 0 then [] else FillUp(c, k - 1) + [FillEvent(c, k - 1)]
  }

  /** Entries in the log after the first `k` of these events. */
  function Entered(k: nat): nat { if k < 2 then 0 else if k <= 12 then k - 2 else if k <= 14 then 10 else k - 4 }

  /** The number of these events after which the log has `m` entries and process 1 is in an operation. */
  function EventsFor(m: nat): nat { if m < 10 then m + 2 else m + 4 }

  /** Where the two processes are after the first `k` of these events. */
  function FillOp(k: nat, p: nat): Op
  {
    if p == 0 then if k == 0 then Out else if k <= 24 then In(0) else In(k - 24)
    else if p == 1 then
      if k < 2 || k == 13 then Out else if k <= 12 then In(k - 2) else if k <= 24 then In(k - 14) else In(10)
    else Out
  }

  ghost predicate Filled(c: Config, s: State, k: nat)
  {
    && Sane(c, s) && s.phase.Idle? && |s.ops| >= 2 && |s.lh| == Entered(k)
    && Outstanding(s.ops) == (if k == 0 then 0 else if k == 1 || k == 13 then 1 else 2)
    && s.ops[0] == FillOp(k, 0) && s.ops[1] == FillOp(k, 1)
    && (forall i :: 0 <= i < |s.lh| ==> s.lh[i] == c.start + c.size + i)
  }

  lemma FillStep(c: Config, s: State, k: nat)
    requires Filled(c, s, k) && c.start + c.size + LOGSIZE <= c.ndisk && k < LOGSIZE + 4
        && Entered(k + 1) <= Capacity(c)
    ensures WithinBudget(s, FillEvent(c, k))
    ensures Next(c, s, FillEvent(c, k)).Ok? && Filled(c, Next(c, s, FillEvent(c, k)).s, k + 1)
  {
    hide Outstanding, Unused;
    var e := FillEvent(c, k);
    if e.LogWrite? {
      assert e.b !in s.lh;
      OpsUpdate(s.ops, e.p, In(s.ops[e.p].used + 1));
    } else {
      OpsUpdate(s.ops, e.p, if e.Begin? then In(0) else Out);
    }
  }

  lemma {:induction false} FillUpRuns(c: Config, d: seq<Block>, n: nat, k: nat)
    requires FreshImage(c, d) && c.start + c.size + LOGSIZE <= c.ndisk && n >= 2
    requires k <= LOGSIZE + 4 && Entered(k) <= Capacity(c)
    ensures RunWithinBudget(c, Boot(d, n), FillUp(c, k)) && Run(c, Boot(d, n), FillUp(c, k)).Ok?
    ensures Filled(c, Run(c, Boot(d, n), FillUp(c, k)).s, k)
  {
    hide FillEvent, WithinBudget, Next;
    if k == 0 {
      NoOps(n);
    } else {
      FillUpRuns(c, d, n, k - 1);
      var front := FillUp(c, k - 1);
      FillStep(c, Run(c, Boot(d, n), front).s, k - 1);
      Extend(c, Boot(d, n), front, FillEvent(c, k - 1));
    }
  }

  /**
   With two processes or more the log can be filled within budget, and then any log_write panics, also
   one of a block that is in it; within a reservation exactly when the log has at most LOGSIZE blocks.
   */
  lemma FullLogPanics(c: Config, d: seq<Block>, n: nat, b: Uint, v: Block)
    requires FreshImage(c, d) && c.start + c.size + LOGSIZE <= c.ndisk && c.Home(b) && n >= 2
    ensures var es := FillUp(c, EventsFor(Capacity(c)));
      && RunWithinBudget(c, Boot(d, n), es) && Run(c, Boot(d, n), es).Ok?
      && |Run(c, Boot(d, n), es).s.lh| == Capacity(c)
      && Next(c, Run(c, Boot(d, n), es).s, LogWrite(0, b, v)).Panic?
      && (Reserved(Run(c, Boot(d, n), es).s, 0) <==> c.size <= LOGSIZE)
      && Due(c, Run(c, Boot(d, n), es).s, 0, c.start + c.size)
  {
    FillUpRuns(c, d, n, EventsFor(Capacity(c)));
    var s := Run(c, Boot(d, n), FillUp(c, EventsFor(Capacity(c)))).s;
    assert Capacity(c) > 0 ==> s.lh[0] == c.start + c.size;
  }

  // A single process commits after every operation, so it never has more than its own blocks in the log.

  ghost predicate Single(s: State)
  {
    |s.ops| == 1 && match s.ops[0]
    case In(u) => |s.lh| == u <= MAXOPBLOCKS
    case Out => s.phase.Idle? ==> s.lh == []
  }

  lemma {:induction false} RunSingle(c: Config, d: seq<Block>, es: seq<Event>)
    requires FreshImage(c, d) && RunWithinBudget(c, Boot(d, 1), es) && Run(c, Boot(d, 1), es).Ok?
    ensures Single(Run(c, Boot(d, 1), es).s)
  {
    if es != [] {
      RunSingle(c, d, es[..|es| - 1]);
      Reachable(c, d, 1, es[..|es| - 1]);
      SingleStep(c, Run(c, Boot(d, 1), es[..|es| - 1]).s, es[|es| - 1]);
    }
  }

  lemma SingleStep(c: Config, s: State, e: Event)
    requires Inv(c, s) && Single(s) && WithinBudget(s, e) && Next(c, s, e).Ok?
    ensures Single(Next(c, s, e).s)
  {
    match e
    case Begin(p) => SingleBegin(c, s, p);
    case LogWrite(p, b, v) => SingleWrite(c, s, p, b, v);
    case End(p) => SingleEnd(c, s, p);
    case _ => SingleCommit(c, s, e);
  }

  lemma SingleBegin(c: Config, s: State, p: nat)
    requires Inv(c, s) && Single(s) && DoBegin(c, s, p).Ok?
    ensures Single(DoBegin(c, s, p).s)
  {
    hide Sane, DiskInv, PhaseInv, Outstanding;
  }

  lemma SingleWrite(c: Config, s: State, p: nat, b: Uint, v: Block)
    requires Inv(c, s) && Single(s) && WithinBudget(s, LogWrite(p, b, v)) && DoLogWrite(c, s, p, b, v).Ok?
    ensures Single(DoLogWrite(c, s, p, b, v).s)
  {
    hide Sane, DiskInv, PhaseInv, Outstanding;
  }

  lemma SingleEnd(c: Config, s: State, p: nat)
    requires Inv(c, s) && Single(s) && DoEnd(c, s, p).Ok?
    ensures Single(DoEnd(c, s, p).s)
  {
    hide Sane, DiskInv, PhaseInv, Outstanding;
    NobodyIn(s.ops[0 := Out]);
  }

  lemma SingleCommit(c: Config, s: State, e: Event)
    requires Inv(c, s) && Single(s) && Next(c, s, e).Ok? && !e.Begin? && !e.LogWrite? && !e.End?
    ensures Single(Next(c, s, e).s)
  {
    hide DiskInv, ViewInv, Replay, ReplayAll, PutHead, ReadHead, Outstanding, Committed;
    NobodyIn(s.ops);
  }

  /** The one process begins and logs `k` blocks. */
  function FillAlone(c: Config, k: nat): seq<Event>
    requires k <= MAXOPBLOCKS && c.start + c.size + MAXOPBLOCKS <= UINT_MAX
  {
    if k == 0 then [Begin(0)] else FillAlone(c, k - 1) + [LogWrite(0, c.start + c.size + (k - 1), seq(BSIZE, _ => 0))]
  }

  ghost predicate FilledAlone(c: Config, s: State, k: nat)
  {
    && Sane(c, s) && s.phase.Idle? && s.ops == [In(k)] && |s.lh| == k
    && (forall i :: 0 <= i < |s.lh| ==> s.lh[i] == c.start + c.size + i)
  }

  lemma {:induction false} FillAloneRuns(c: Config, d: seq<Block>, k: nat)
    requires FreshImage(c, d) && c.start + c.size + LOGSIZE <= c.ndisk && k <= MAXOPBLOCKS && k <= Capacity(c)
    ensures RunWithinBudget(c, Boot(d, 1), FillAlone(c, k)) && Run(c, Boot(d, 1), FillAlone(c, k)).Ok?
    ensures FilledAlone(c, Run(c, Boot(d, 1), FillAlone(c, k)).s, k)
  {
    hide WithinBudget, Next, FilledAlone, Run, RunWithinBudget;
    if k == 0 {
      FillAloneStart(c, d);
    } else {
      FillAloneRuns(c, d, k - 1);
      var front := FillAlone(c, k - 1);
      FillAloneStep(c, Run(c, Boot(d, 1), front).s, k - 1);
      Extend(c, Boot(d, 1), front, LogWrite(0, c.start + c.size + (k - 1), seq(BSIZE, _ => 0)));
    }
  }

  /** A log filled by the one process refuses the next write. */
  lemma FilledAlonePanics(c: Config, s: State, k: nat)
    requires FilledAlone(c, s, k) && k == Capacity(c) && c.start + c.size < c.ndisk
    ensures Due(c, s, 0, c.start + c.size) && (k < MAXOPBLOCKS ==> Reserved(s, 0))
    ensures Next(c, s, LogWrite(0, c.start + c.size, seq(BSIZE, _ => 0))).Panic?
  {
    hide Outstanding;
    if k > 0 {
      assert s.lh[0] == c.start + c.size;
    }
  }

  lemma FillAloneStart(c: Config, d: seq<Block>)
    requires FreshImage(c, d) && c.start + c.size + LOGSIZE <= c.ndisk
    ensures RunWithinBudget(c, Boot(d, 1), FillAlone(c, 0)) && Run(c, Boot(d, 1), FillAlone(c, 0)).Ok?
    ensures FilledAlone(c, Run(c, Boot(d, 1), FillAlone(c, 0)).s, 0)
  {
    hide Next, WithinBudget;
    var s := Boot(d, 1);
    BeginAlone(c, s);
    assert Run(c, s, []) == Ok(s);
    Extend(c, s, [], Begin(0));
    assert [] + [Begin(0)] == FillAlone(c, 0);
  }

  lemma BeginAlone(c: Config, s: State)
    requires Sane(c, s) && s.phase.Idle? && s.lh == [] && s.ops == [Out]
    ensures WithinBudget(s, Begin(0)) && Next(c, s, Begin(0)) == Ok(s.(ops := [In(0)]))
  {
    NobodyIn(s.ops);
    assert s.ops[0 := In(0)] == [In(0)];
  }

  lemma FillAloneStep(c: Config, s: State, k: nat)
    requires FilledAlone(c, s, k) && c.start + c.size + LOGSIZE <= c.ndisk && k < MAXOPBLOCKS && k < Capacity(c)
    ensures var e := LogWrite(0, c.start + c.size + k, seq(BSIZE, _ => 0));
      WithinBudget(s, e) && Next(c, s, e).Ok? && FilledAlone(c, Next(c, s, e).s, k + 1)
  {
    assert (c.start + c.size + k) as Uint !in s.lh;
    NobodyIn(s.ops);
    assert s.ops[0 := In(k + 1)] == [In(k + 1)];
  }

  /** The most entries the log can have when an operation of one of `n` processes still has some of its reservation. */
  function Reach(n: nat): nat { if n == 1 then MAXOPBLOCKS else LOGSIZE }

  /** A run that ends in a panic of a write within its reservation, when the log is that small. */
  lemma SmallLogPanics(c: Config, d: seq<Block>, n: nat) returns (es: seq<Event>)
    requires FreshImage(c, d) && c.start + c.size + LOGSIZE <= c.ndisk && n >= 1 && c.size <= Reach(n)
    ensures RunWithinBudget(c, Boot(d, n), es) && Run(c, Boot(d, n), es).Ok? && Reserved(Run(c, Boot(d, n), es).s, 0)
    ensures Next(c, Run(c, Boot(d, n), es).s, LogWrite(0, c.start + c.size, seq(BSIZE, _ => 0))).Panic?
  {
    hide Run, RunWithinBudget, Next, Reserved, FilledAlone, Due;
    if n == 1 {
      es := FillAlone(c, c.size - 1);
      FillAloneRuns(c, d, c.size - 1);
      FilledAlonePanics(c, Run(c, Boot(d, 1), es).s, c.size - 1);
    } else {
      es := FillUp(c, EventsFor(Capacity(c)));
      FullLogPanics(c, d, n, c.start + c.size, seq(BSIZE, _ => 0));
    }
  }

  /**
   The reservation in begin_op keeps writes within it clear of the "too big a transaction" panic exactly
   when the log region has more than LOGSIZE blocks, which mkfs does not give it; one process alone
   needs more than MAXOPBLOCKS.
   */
  lemma GuardNeedsBiggerLog(c: Config, d: seq<Block>, n: nat)
    requires FreshImage(c, d) && c.start + c.size + LOGSIZE <= c.ndisk && n >= 1
    ensures ReservedWritesNeverPanic(c, d, n) <==> c.size > Reach(n)
  {
    if c.size > Reach(n) {
      forall es, p, b, v | RunWithinBudget(c, Boot(d, n), es) && Run(c, Boot(d, n), es).Ok?
                           && Reserved(Run(c, Boot(d, n), es).s, p)
        ensures !Next(c, Run(c, Boot(d, n), es).s, LogWrite(p, b, v)).Panic?
      {
        ReservedFits(c, d, n, es, p, b, v);
      }
    } else {
      var es := SmallLogPanics(c, d, n);
      assert Reserved(Run(c, Boot(d, n), es).s, 0);
    }
  }

  lemma ReservedFits(c: Config, d: seq<Block>, n: nat, es: seq<Event>, p: nat, b: Uint, v: Block)
    requires FreshImage(c, d) && RunWithinBudget(c, Boot(d, n), es) && Run(c, Boot(d, n), es).Ok?
    requires c.size > Reach(n) && Reserved(Run(c, Boot(d, n), es).s, p)
    ensures !Next(c, Run(c, Boot(d, n), es).s, LogWrite(p, b, v)).Panic?
  {
    ReachableSpace(c, d, n, es);
    var s := Run(c, Boot(d, n), es).s;
    UnusedBounds(s.ops);
    NobodyIn(s.ops);
    if n == 1 {
      RunSingle(c, d, es);
    }
  }

  /**
   Absorption is not covered by the reservation: whatever the size of the log, a write of a block that is
   already in it can panic, unless there is only one process and the log has room for its operation.
   */
  lemma AbsorbedWritesPanic(c: Config, d: seq<Block>, n: nat)
    requires FreshImage(c, d) && c.start + c.size + LOGSIZE <= c.ndisk && n >= 1
    ensures DueWritesNeverPanic(c, d, n) <==> n == 1 && c.size > MAXOPBLOCKS + 1
  {
    if n == 1 && c.size > MAXOPBLOCKS + 1 {
      forall es, p, b, v | RunWithinBudget(c, Boot(d, n), es) && Run(c, Boot(d, n), es).Ok?
                           && Due(c, Run(c, Boot(d, n), es).s, p, b)
        ensures !Next(c, Run(c, Boot(d, n), es).s, LogWrite(p, b, v)).Panic?
      {
        DueFits(c, d, es, p, b, v);
      }
    } else {
      var es := DuePanics(c, d, n);
      assert Due(c, Run(c, Boot(d, n), es).s, 0, c.start + c.size);
    }
  }

  lemma DueFits(c: Config, d: seq<Block>, es: seq<Event>, p: nat, b: Uint, v: Block)
    requires FreshImage(c, d) && RunWithinBudget(c, Boot(d, 1), es) && Run(c, Boot(d, 1), es).Ok?
    requires Due(c, Run(c, Boot(d, 1), es).s, p, b) && c.size > MAXOPBLOCKS + 1
    ensures !Next(c, Run(c, Boot(d, 1), es).s, LogWrite(p, b, v)).Panic?
  {
    PanicsWhenFull(c, d, 1, es, p, b, v);
    RunSingle(c, d, es);
  }

  /** A run that ends in a panic of a write that an operation may make. */
  lemma DuePanics(c: Config, d: seq<Block>, n: nat) returns (es: seq<Event>)
    requires FreshImage(c, d) && c.start + c.size + LOGSIZE <= c.ndisk && n >= 1
        && (n == 1 ==> c.size <= MAXOPBLOCKS + 1)
    ensures RunWithinBudget(c, Boot(d, n), es) && Run(c, Boot(d, n), es).Ok?
    ensures Due(c, Run(c, Boot(d, n), es).s, 0, c.start + c.size)
    ensures Next(c, Run(c, Boot(d, n), es).s, LogWrite(0, c.start + c.size, seq(BSIZE, _ => 0))).Panic?
  {
    hide Run, RunWithinBudget, Next, Reserved, FilledAlone, Due;
    if n == 1 {
      es := FillAlone(c, Capacity(c));
      FillAloneRuns(c, d, Capacity(c));
      FilledAlonePanics(c, Run(c, Boot(d, 1), es).s, Capacity(c));
    } else {
      es := FillUp(c, EventsFor(Capacity(c)));
      FullLogPanics(c, d, n, c.start + c.size, seq(BSIZE, _ => 0));
    }
  }

  lemma {:induction false} RunConcat(c: Config, s: State, a: seq<Event>, b: seq<Event>)
    requires Sane(c, s) && Run(c, s, a).Ok?
    ensures Run(c, s, a + b) == Run(c, Run(c, s, a).s, b)
  {
    hide Sane, Next;
    if b == [] {
      assert a + b == a;
    } else {
      var front := b[..|b| - 1];
      RunConcat(c, s, a, front);
      assert (a + b)[..|a + b| - 1] == a + front;
    }
  }
}
