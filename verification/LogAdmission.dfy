/** When begin_op lets a process in, and what that has to do with the space in the log. */
module LogAdmission {
  import opened Disk
  import opened LogMachine
  import opened LogRuns

  // ---------------------------------------------------------------- the answer

  /** While the system is up, begin_op by a process outside an operation: in, or asleep with a reason. */
  lemma BeginExactly(c: Config, s: State, p: nat)
    requires Sane(c, s) && Up(s) && p < |s.ops| && s.ops[p].Out?
    ensures Next(c, s, Begin(p)) == if Blocked(s) then Disabled else Ok(s.(ops := s.ops[p := In(0)]))
  {
  }

  /** `Outstanding` is the number of processes in operations. */
  lemma {:induction false} OutstandingIsCount(ops: seq<Op>)
    ensures Outstanding(ops) == |set p | 0 <= p < |ops| && ops[p].In?|
  {
    var all := set p | 0 <= p < |ops| && ops[p].In?;
    if ops != [] {
      var n := |ops| - 1;
      OutstandingIsCount(ops[..n]);
      var less := set p | 0 <= p < |ops[..n]| && ops[..n][p].In?;
      assert all == if ops[n].In? then less + {n} else less;
    }
  }

  // ---------------------------------------------------------------- how many at once

  /** Processes 0 to `k` - 1 begin. */
  function Begins(k: nat): seq<Event> { if k == 0 then [] else Begins(k - 1) + [Begin(k - 1)] }

  /** From boot, LOGSIZE/MAXOPBLOCKS operations can be in progress at once. */
  lemma {:induction false} ManyAtOnce(c: Config, d: seq<Block>, n: nat, k: nat)
    requires FreshImage(c, d) && k <= n && k <= LOGSIZE / MAXOPBLOCKS
    ensures Run(c, Boot(d, n), Begins(k)).Ok?
    ensures var s := Run(c, Boot(d, n), Begins(k)).s;
      && s.phase.Idle? && s.lh == [] && Outstanding(s.ops) == k
      && forall p :: 0 <= p < n ==> s.ops[p] == if p < k then In(0) else Out
  {
    hide Outstanding, Run, Next, Sane;
    BootRun(c, d, n);
    if k > 0 {
      ManyAtOnce(c, d, n, k - 1);
      var s := Run(c, Boot(d, n), Begins(k - 1)).s;
      RunSnoc(c, Boot(d, n), Begins(k - 1), Begin(k - 1));
      OneMoreIn(c, s, k - 1);
    }
  }

  lemma OneMoreIn(c: Config, s: State, k: nat)
    requires Sane(c, s) && s.phase.Idle? && s.lh == [] && k < |s.ops| && s.ops[k].Out? && Outstanding(s.ops) == k
    requires k < LOGSIZE / MAXOPBLOCKS
    ensures Next(c, s, Begin(k)) == Ok(s.(ops := s.ops[k := In(0)])) && Outstanding(s.ops[k := In(0)]) == k + 1
  {
    hide Outstanding;
    BeginExactly(c, s, k);
    OpsUpdate(s.ops, k, In(0));
  }

  /** And in no run more than that. */
  lemma {:induction false} NoMoreAtOnce(c: Config, d: seq<Block>, n: nat, es: seq<Event>)
    requires FreshImage(c, d) && Run(c, Boot(d, n), es).Ok?
    ensures Outstanding(Run(c, Boot(d, n), es).s.ops) <= LOGSIZE / MAXOPBLOCKS
  {
    hide Run, Next, Sane;
    BootRun(c, d, n);
    if es != [] {
      var front := es[..|es| - 1];
      RunFront(c, d, n, es);
      NoMoreAtOnce(c, d, n, front);
      NoMoreStep(c, Run(c, Boot(d, n), front).s, es[|es| - 1]);
    }
  }

  lemma BootRun(c: Config, d: seq<Block>, n: nat)
    requires FreshImage(c, d)
    ensures Sane(c, Boot(d, n)) && Run(c, Boot(d, n), []) == Ok(Boot(d, n)) && Outstanding(Boot(d, n).ops) == 0
  {
    NoOps(n);
  }

  lemma RunFront(c: Config, d: seq<Block>, n: nat, es: seq<Event>)
    requires FreshImage(c, d) && es != [] && Run(c, Boot(d, n), es).Ok?
    ensures var r := Run(c, Boot(d, n), es[..|es| - 1]);
      r.Ok? && Sane(c, r.s) && Next(c, r.s, es[|es| - 1]) == Run(c, Boot(d, n), es)
  {
  }

  lemma NoMoreStep(c: Config, s: State, e: Event)
    requires Sane(c, s) && Outstanding(s.ops) <= LOGSIZE / MAXOPBLOCKS && Next(c, s, e).Ok?
    ensures Outstanding(Next(c, s, e).s.ops) <= LOGSIZE / MAXOPBLOCKS
  {
    hide Outstanding, PutHead, ReadHead, Replay;
    match e
    case Begin(p) => OpsUpdate(s.ops, p, In(0));
    case LogWrite(p, b, v) =>
      if b !in s.lh {
        OpsUpdate(s.ops, p, In(s.ops[p].used + 1));
      }
    case End(p) => OpsUpdate(s.ops, p, Out);
    case Crash => NoOps(|s.ops|);
    case _ =>
  }

  // ---------------------------------------------------------------- runs that overflow

  /** Some run from `s`, each operation in its budget, ends in the panic of a write within its reservation. */
  ghost predicate CanOverflow(c: Config, s: State)
    requires Sane(c, s)
  {
    exists es, q, b, v :: RunWithinBudget(c, s, es) && Overflows(c, s, es, q, b, v)
  }

  ghost predicate Overflows(c: Config, s: State, es: seq<Event>, q: nat, b: Uint, v: Block)
    requires Sane(c, s)
  {
    Run(c, s, es).Ok? && Reserved(Run(c, s, es).s, q) && Next(c, Run(c, s, es).s, LogWrite(q, b, v)).Panic?
  }

  /** The log region is as large as the reservation needs, and the disk goes on behind it. */
  predicate Roomy(c: Config) { c.size > LOGSIZE && c.start + c.size + LOGSIZE <= c.ndisk }

  lemma {:induction false} BudgetConcat(c: Config, s: State, a: seq<Event>, b: seq<Event>)
    requires Sane(c, s) && Run(c, s, a).Ok? && RunWithinBudget(c, s, a)
    requires RunWithinBudget(c, Run(c, s, a).s, b)
    ensures RunWithinBudget(c, s, a + b)
  {
    hide Sane, Next, Run, WithinBudget;
    if b == [] {
      assert a + b == a;
    } else {
      var front := b[..|b| - 1];
      BudgetConcat(c, s, a, front);
      RunConcat(c, s, a, front);
      assert (a + b)[..|a + b| - 1] == a + front;
    }
  }

  lemma OverflowLater(c: Config, s: State, e: Event)
    requires Sane(c, s) && WithinBudget(s, e) && Next(c, s, e).Ok? && CanOverflow(c, Next(c, s, e).s)
    ensures CanOverflow(c, s)
  {
    hide Sane, Next, WithinBudget, Reserved, CanOverflow;
    var t := Next(c, s, e).s;
    var es, q, b, v := OverflowRun(c, t);
    OneStep(c, s, e);
    RunConcat(c, s, [e], es);
    BudgetConcat(c, s, [e], es);
    OverflowBy(c, s, [e] + es, q, b, v);
  }

  lemma OneStep(c: Config, s: State, e: Event)
    requires Sane(c, s) && WithinBudget(s, e)
    ensures RunWithinBudget(c, s, [e]) && Run(c, s, [e]) == Next(c, s, e)
  {
    hide Sane, Next, WithinBudget;
    assert Run(c, s, []) == Ok(s) && RunWithinBudget(c, s, []);
    assert [e][..0] == [];
  }

  lemma OverflowRun(c: Config, s: State) returns (es: seq<Event>, q: nat, b: Uint, v: Block)
    requires Sane(c, s) && CanOverflow(c, s)
    ensures RunWithinBudget(c, s, es) && Overflows(c, s, es, q, b, v)
  {
    hide Overflows, RunWithinBudget, Sane;
    es, q, b, v :| RunWithinBudget(c, s, es) && Overflows(c, s, es, q, b, v);
  }

  lemma OverflowBy(c: Config, s: State, es: seq<Event>, q: nat, b: Uint, v: Block)
    requires Sane(c, s) && RunWithinBudget(c, s, es) && Overflows(c, s, es, q, b, v)
    ensures CanOverflow(c, s)
  {
    hide Overflows, RunWithinBudget, Sane;
  }

  /** Fewer entries than blocks: one of the blocks is not logged. */
  lemma {:induction false} Unlogged(lo: nat, n: nat, bs: seq<Uint>) returns (x: Uint)
    requires |bs| < n && lo + n <= UINT_MAX
    ensures lo <= x < lo + n && x !in bs
  {
    x := lo + n - 1;
    if x in bs {
      var i :| 0 <= i < |bs| && bs[i] == x;
      var y := Unlogged(lo, n - 1, bs[..i] + bs[i + 1..]);
      forall j | 0 <= j < |bs| ensures bs[j] != y {
        assert j < i ==> bs[j] == (bs[..i] + bs[i + 1..])[j];
        assert j > i ==> bs[j] == (bs[..i] + bs[i + 1..])[j - 1];
      }
      x := y;
    }
  }

  lemma {:induction false} SomeReserved(ops: seq<Op>) returns (q: nat)
    requires Budgeted(ops) && Unused(ops) > 0
    ensures q < |ops| && ops[q].In? && ops[q].used < MAXOPBLOCKS
  {
    q := |ops| - 1;
    if !(ops[q].In? && ops[q].used < MAXOPBLOCKS) {
      q := SomeReserved(ops[..q]);
    }
  }

  /** What an operation with some of its reservation left makes of a block that is not in the log. */
  lemma NewEntry(c: Config, s: State, q: nat, b: Uint, v: Block)
    requires Inv(c, s) && s.phase.Idle? && Budgeted(s.ops) && Reserved(s, q)
    requires c.size > LOGSIZE && c.Home(b) && b !in s.lh && |s.lh| < LOGSIZE
    ensures WithinBudget(s, LogWrite(q, b, v)) && Next(c, s, LogWrite(q, b, v)).Ok?
    ensures var t := Next(c, s, LogWrite(q, b, v)).s;
      && Inv(c, t) && t.phase.Idle? && Budgeted(t.ops) && |t.lh| == |s.lh| + 1 && Unused(t.ops) == Unused(s.ops) - 1
  {
    hide Inv, Outstanding, Unused;
    assert Sane(c, s) by { InvSane(c, s); }
    NobodyIn(s.ops);
    StepKeeps(c, s, LogWrite(q, b, v));
    OpsUpdate(s.ops, q, In(s.ops[q].used + 1));
  }

  lemma InvSane(c: Config, s: State)
    requires Inv(c, s)
    ensures Sane(c, s)
  {
  }

  lemma FullNow(c: Config, s: State, q: nat, b: Uint, v: Block)
    requires Sane(c, s) && s.phase.Idle? && Reserved(s, q) && c.Home(b) && |s.lh| == LOGSIZE
    ensures CanOverflow(c, s)
  {
    assert Run(c, s, []) == Ok(s) && RunWithinBudget(c, s, []);
    OverflowBy(c, s, [], q, b, v);
  }

  /** Reservations that do not fit can be used up. */
  lemma {:induction false} TooMuchOverflows(c: Config, s: State)
    requires Inv(c, s) && s.phase.Idle? && Budgeted(s.ops) && Roomy(c) && |s.lh| + Unused(s.ops) > LOGSIZE
    ensures CanOverflow(c, s)
    decreases LOGSIZE - |s.lh|
  {
    hide CanOverflow, Unused, PhaseInv, DiskInv, Next, Budgeted;
    var q := SomeReserved(s.ops);
    var v := seq(BSIZE, _ => 0);
    if |s.lh| == LOGSIZE {
      FullNow(c, s, q, c.start + c.size, v);
    } else {
      var b := Unlogged(c.start + c.size, LOGSIZE, s.lh);
      NewEntry(c, s, q, b, v);
      TooMuchOverflows(c, Next(c, s, LogWrite(q, b, v)).s);
      OverflowLater(c, s, LogWrite(q, b, v));
    }
  }

  lemma FitsNeverOverflows(c: Config, s: State, es: seq<Event>, q: nat, b: Uint, v: Block)
    requires Inv(c, s) && SpaceInv(s) && c.size > LOGSIZE && RunWithinBudget(c, s, es)
    ensures !Overflows(c, s, es, q, b, v)
  {
    hide Inv, SpaceInv, Run, Unused, Outstanding;
    InvSane(c, s);
    if Overflows(c, s, es, q, b, v) {
      var t := Run(c, s, es).s;
      RunKeepsInv(c, s, es);
      RunKeepsSpace(c, s, es);
      assert SpaceInv(t) && Budgeted(t.ops) && |t.lh| + Unused(t.ops) <= LOGSIZE by { Spelled(t); }
      UnusedBounds(t.ops);
      NobodyIn(t.ops);
    }
  }

  lemma Spelled(s: State)
    requires SpaceInv(s)
    ensures Budgeted(s.ops) && |s.lh| + Unused(s.ops) <= LOGSIZE
  {
  }

  /** In an idle log the reservations fit exactly when no continuation within budget overflows. */
  lemma OverflowExactly(c: Config, s: State)
    requires Inv(c, s) && s.phase.Idle? && Budgeted(s.ops) && Roomy(c)
    ensures CanOverflow(c, s) <==> |s.lh| + Unused(s.ops) > LOGSIZE
  {
    hide Inv, Unused, RunWithinBudget;
    InvSane(c, s);
    if |s.lh| + Unused(s.ops) > LOGSIZE {
      TooMuchOverflows(c, s);
    } else {
      forall es, q, b, v | RunWithinBudget(c, s, es) ensures !Overflows(c, s, es, q, b, v) {
        FitsNeverOverflows(c, s, es, q, b, v);
      }
    }
  }

  // ---------------------------------------------------------------- the guard and the space

  /** The state after process `p` has been let in, whether or not begin_op would do so. */
  function Admitted(s: State, p: nat): State
    requires p < |s.ops|
  {
    s.(ops := s.ops[p := In(0)])
  }

  lemma AdmittedInv(c: Config, s: State, p: nat)
    requires Inv(c, s) && s.phase.Idle? && Budgeted(s.ops) && p < |s.ops| && s.ops[p].Out?
    ensures Inv(c, Admitted(s, p)) && Budgeted(Admitted(s, p).ops)
    ensures Unused(Admitted(s, p).ops) == Unused(s.ops) + MAXOPBLOCKS
  {
    hide Unused, Outstanding;
    OpsUpdate(s.ops, p, In(0));
  }

  /** Letting one more in is safe exactly when its whole reservation fits beside what the others may still add. */
  lemma AdmissionOverflows(c: Config, s: State, p: nat)
    requires Inv(c, s) && s.phase.Idle? && Budgeted(s.ops) && Roomy(c) && p < |s.ops| && s.ops[p].Out?
    ensures Sane(c, Admitted(s, p))
    ensures CanOverflow(c, Admitted(s, p)) <==> |s.lh| + Unused(s.ops) + MAXOPBLOCKS > LOGSIZE
  {
    hide Inv, Unused, CanOverflow;
    AdmittedInv(c, s, p);
    InvSane(c, Admitted(s, p));
    OverflowExactly(c, Admitted(s, p));
  }

  /** Two states that begin_op cannot tell apart: it sees the header and who is in, not what each has used. */
  ghost predicate LooksLike(s: State, t: State)
  {
    t == s.(ops := t.ops) && |t.ops| == |s.ops| && forall p :: 0 <= p < |s.ops| ==> (t.ops[p].In? <==> s.ops[p].In?)
  }

  lemma {:induction false} SameCount(a: seq<Op>, b: seq<Op>)
    requires |a| == |b| && forall p :: 0 <= p < |a| ==> (a[p].In? <==> b[p].In?)
    ensures Outstanding(a) == Outstanding(b)
  {
    if a != [] {
      SameCount(a[..|a| - 1], b[..|b| - 1]);
    }
  }

  /** The same operations, together having used `u`. */
  lemma {:induction false} WithUsed(ops: seq<Op>, u: nat) returns (r: seq<Op>)
    requires u <= Outstanding(ops) * MAXOPBLOCKS
    ensures |r| == |ops| && Budgeted(r) && Unused(r) == Outstanding(ops) * MAXOPBLOCKS - u
    ensures forall p :: 0 <= p < |ops| ==> (r[p].In? <==> ops[p].In?)
  {
    if ops == [] {
      return [];
    }
    var n := |ops| - 1;
    var mine := if ops[n].Out? then 0 else if u < MAXOPBLOCKS then u else MAXOPBLOCKS;
    var rest := WithUsed(ops[..n], u - mine);
    r := rest + [if ops[n].Out? then Out else In(mine)];
    assert r[..n] == rest;
  }

  /** A state that looks like `s`, has its reservations, and in which another operation may overflow the log. */
  lemma Worst(c: Config, s: State) returns (t: State)
    requires Inv(c, s) && SpaceInv(s) && s.phase.Idle?
    requires |s.lh| + (Outstanding(s.ops) + 1) * MAXOPBLOCKS > LOGSIZE
    ensures LooksLike(s, t) && Inv(c, t) && SpaceInv(t) && |t.lh| + Unused(t.ops) + MAXOPBLOCKS > LOGSIZE
  {
    hide Unused, Outstanding, DiskInv, PhaseInv;
    var m := Outstanding(s.ops) * MAXOPBLOCKS;
    UnusedBounds(s.ops);
    var ops := WithUsed(s.ops, if |s.lh| + m > LOGSIZE then |s.lh| + m - LOGSIZE else 0);
    t := s.(ops := ops);
    SameCount(s.ops, ops);
    StillInv(c, s, t);
  }

  lemma StillInv(c: Config, s: State, t: State)
    requires Inv(c, s) && s.phase.Idle? && LooksLike(s, t)
    ensures Inv(c, t)
  {
  }

  lemma LikeBlocked(s: State, t: State)
    requires LooksLike(s, t)
    ensures Blocked(s) == Blocked(t)
  {
    SameCount(s.ops, t.ops);
  }

  /** Admitting `p` may overflow the log, for all that begin_op can see. */
  ghost predicate MayOverflow(c: Config, s: State, p: nat)
    requires p < |s.ops|
  {
    exists t :: LooksLike(s, t) && p < |t.ops| && Inv(c, t) && SpaceInv(t) && Sane(c, Admitted(t, p))
                && CanOverflow(c, Admitted(t, p))
  }

  /**
   begin_op refuses exactly during a commit, and when, for all it can see, letting the process in would
   make a run possible in which a write within its reservation finds the log full.
   */
  lemma RefusesExactly(c: Config, s: State, p: nat)
    requires Inv(c, s) && SpaceInv(s) && Up(s) && p < |s.ops| && s.ops[p].Out? && Roomy(c)
    ensures Next(c, s, Begin(p)).Disabled? <==> Committing(s) || MayOverflow(c, s, p)
  {
    hide Inv, Unused, Outstanding, CanOverflow, Sane, Next, MayOverflow, LooksLike;
    InvSane(c, s);
    BeginExactly(c, s, p);
    if !Committing(s) {
      if |s.lh| + (Outstanding(s.ops) + 1) * MAXOPBLOCKS > LOGSIZE {
        var t := Worst(c, s);
        assert t.phase.Idle? && p < |t.ops| && t.ops[p].Out? && Budgeted(t.ops) by { Alike(s, t, p); }
        AdmissionOverflows(c, t, p);
        MayOverflowBy(c, s, t, p);
      } else {
        NeverOverflows(c, s, p);
      }
    }
  }

  lemma Alike(s: State, t: State, p: nat)
    requires LooksLike(s, t) && p < |s.ops|
    ensures t.phase == s.phase && p < |t.ops| && (t.ops[p].Out? <==> s.ops[p].Out?)
  {
  }

  lemma MayOverflowBy(c: Config, s: State, t: State, p: nat)
    requires p < |s.ops| && LooksLike(s, t) && p < |t.ops| && Inv(c, t) && SpaceInv(t)
    requires Sane(c, Admitted(t, p)) && CanOverflow(c, Admitted(t, p))
    ensures MayOverflow(c, s, p)
  {
    hide Inv, SpaceInv, Sane, CanOverflow, LooksLike;
  }

  lemma NeverOverflows(c: Config, s: State, p: nat)
    requires s.phase.Idle? && p < |s.ops| && s.ops[p].Out? && Roomy(c)
    requires |s.lh| + (Outstanding(s.ops) + 1) * MAXOPBLOCKS <= LOGSIZE
    ensures !MayOverflow(c, s, p)
  {
    hide Inv, Unused, Outstanding, CanOverflow, Sane, LooksLike;
    forall t | LooksLike(s, t) && p < |t.ops| && Inv(c, t) && SpaceInv(t) && Sane(c, Admitted(t, p))
      ensures !CanOverflow(c, Admitted(t, p))
    {
      Alike(s, t, p);
      assert |t.lh| == |s.lh| && Outstanding(t.ops) == Outstanding(s.ops) by { SameKnown(s, t); }
      UnusedBounds(t.ops);
      AdmissionOverflows(c, t, p);
    }
  }

  lemma SameKnown(s: State, t: State)
    requires LooksLike(s, t)
    ensures |t.lh| == |s.lh| && Outstanding(t.ops) == Outstanding(s.ops)
  {
    SameCount(s.ops, t.ops);
  }

  /**
   What it cannot see makes it refuse too often: exactly when the others have used so much of their
   reservations that the newcomer would fit. If none has used any, it refuses exactly what could overflow.
   */
  lemma RefusedThoughSafe(c: Config, s: State, p: nat)
    requires Inv(c, s) && SpaceInv(s) && s.phase.Idle? && p < |s.ops| && s.ops[p].Out? && Roomy(c)
    ensures Sane(c, Admitted(s, p))
    ensures Next(c, s, Begin(p)).Disabled? && !CanOverflow(c, Admitted(s, p))
            <==> |s.lh| + Unused(s.ops) <= LOGSIZE - MAXOPBLOCKS < |s.lh| + Outstanding(s.ops) * MAXOPBLOCKS
    ensures (forall q :: 0 <= q < |s.ops| && s.ops[q].In? ==> s.ops[q].used == 0) ==>
              (Next(c, s, Begin(p)).Disabled? <==> CanOverflow(c, Admitted(s, p)))
  {
    hide Inv, Unused, Outstanding, CanOverflow, Sane, Next;
    InvSane(c, s);
    BeginExactly(c, s, p);
    UnusedBounds(s.ops);
    AdmissionOverflows(c, s, p);
    if forall q :: 0 <= q < |s.ops| && s.ops[q].In? ==> s.ops[q].used == 0 {
      NoneUsed(s.ops);
    }
  }

  lemma {:induction false} NoneUsed(ops: seq<Op>)
    requires forall q :: 0 <= q < |ops| && ops[q].In? ==> ops[q].used == 0
    ensures Unused(ops) == Outstanding(ops) * MAXOPBLOCKS
  {
    if ops != [] {
      NoneUsed(ops[..|ops| - 1]);
    }
  }

  /** That happens: process 0 is in, process 1 has logged its ten blocks, and process 2 sleeps though it would fit. */
  lemma RefusedThoughSafeReached(c: Config, d: seq<Block>, n: nat)
    requires FreshImage(c, d) && Roomy(c) && n >= 3
    ensures var es := FillUp(c, MAXOPBLOCKS + 2);
      && RunWithinBudget(c, Boot(d, n), es) && Run(c, Boot(d, n), es).Ok?
      && 2 < |Run(c, Boot(d, n), es).s.ops| && Sane(c, Admitted(Run(c, Boot(d, n), es).s, 2))
      && Next(c, Run(c, Boot(d, n), es).s, Begin(2)).Disabled?
      && !CanOverflow(c, Admitted(Run(c, Boot(d, n), es).s, 2))
  {
    hide Run, RunWithinBudget, FillUp, Next, Inv, SpaceInv, CanOverflow, Outstanding, Unused, Sane;
    var es := FillUp(c, MAXOPBLOCKS + 2);
    BootRun(c, d, n);
    FillUpRuns(c, d, n, MAXOPBLOCKS + 2);
    ReachableSpace(c, d, n, es);
    var s := Run(c, Boot(d, n), es).s;
    OthersOut(s.ops);
    RefusedThoughSafe(c, s, 2);
  }

  lemma OthersOut(ops: seq<Op>)
    requires |ops| >= 3 && ops[0] == In(0) && ops[1] == In(MAXOPBLOCKS) && Outstanding(ops) == 2
    ensures ops[2].Out? && Unused(ops) == MAXOPBLOCKS
  {
    hide Outstanding, Unused;
    var a := ops[0 := Out];
    var b := a[1 := Out];
    OpsUpdate(ops, 0, Out);
    OpsUpdate(a, 1, Out);
    NobodyIn(b);
    NoneOutstanding(b);
    assert b[2] == ops[2];
  }
}
