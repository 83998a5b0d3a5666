/**
 One process alone: each call is one operation of the log machine, ended by its own commit, so a call that has
 returned is never lost.
 */
module AloneRuns {
  import opened Disk
  import opened FsLayout
  import opened FsSpec
  import opened FsRuns
  import opened LogMachine
  import opened LogRuns
  import opened CrashSafe
  import Log

  // ---------------------------------------------------------------- one operation on the log machine

  /** The header entries after the log_writes of `t`. */
  function HeadOf(t: Txn): (r: seq<Uint>)
    ensures |r| <= |t| && (t != [] ==> r != [])
  {
    if t == [] then []
    else
      var h := HeadOf(t[..|t| - 1]);
      if t[|t| - 1].0 in h then h else h + [t[|t| - 1].0]
  }

  function LogWrites(t: Txn): seq<Event>
  {
    if t == [] then [] else LogWrites(t[..|t| - 1]) + [LogWrite(0, t[|t| - 1].0, t[|t| - 1].1)]
  }

  /** begin_op, the log_writes, end_op and the commit it makes. */
  function OpEvents(t: Txn): seq<Event>
  {
    [Begin(0)] + LogWrites(t) + [End(0)] + (if t == [] then [] else Log.CommitEvents(|HeadOf(t)|)) + [Finish]
  }

  function OpsEvents(ts: seq<Txn>): seq<Event>
  {
    if ts == [] then [] else OpsEvents(ts[..|ts| - 1]) + OpEvents(ts[|ts| - 1])
  }

  /** Writes outside the log region, of fewer distinct blocks than the log has room for. */
  ghost predicate Allowed(c: Config, t: Txn)
  {
    c.Valid() && |HeadOf(t)| < Capacity(c) && forall i :: 0 <= i < |t| ==> c.Home(t[i].0)
  }

  /** The parts of a state that say where the one process is in its operation. */
  ghost predicate Where(c: Config, s: State, phase: Phase, lh: seq<Uint>, op: Op, hist: seq<Txn>, cur: Txn)
  {
    Sane(c, s) && s.phase == phase && s.lh == lh && s.ops == [op] && s.hist == hist && s.cur == cur
  }

  /** `es` runs from `s` and ends there. */
  ghost predicate Leads(c: Config, s: State, es: seq<Event>, phase: Phase, lh: seq<Uint>, op: Op, hist: seq<Txn>,
                        cur: Txn)
  {
    && Sane(c, s) && Run(c, s, es).Ok?
    && Where(c, Run(c, s, es).s, phase, lh, op, hist, cur)
  }

  lemma OneOp(o: Op)
    ensures Outstanding([o]) == if o.In? then 1 else 0
  {
    assert [o][..0] == [];
  }

  lemma LeadsOn(c: Config, s: State, es: seq<Event>, e: Event, p: Phase, lh: seq<Uint>, op: Op, hist: seq<Txn>,
                cur: Txn, p': Phase, lh': seq<Uint>, op': Op, hist': seq<Txn>, cur': Txn)
    requires Leads(c, s, es, p, lh, op, hist, cur)
    requires Next(c, Run(c, s, es).s, e).Ok?
    requires Where(c, Next(c, Run(c, s, es).s, e).s, p', lh', op', hist', cur')
    ensures Leads(c, s, es + [e], p', lh', op', hist', cur')
  {
    hide Sane, Next;
    RunSnoc(c, s, es, e);
  }

  /** begin_op and the log_writes. */
  lemma {:induction false} WritesLead(c: Config, s: State, t: Txn, hist: seq<Txn>)
    requires Where(c, s, Idle, [], Out, hist, []) && Allowed(c, t)
    ensures Leads(c, s, [Begin(0)] + LogWrites(t), Idle, HeadOf(t), In(|HeadOf(t)|), hist, t)
    decreases |t|
  {
    hide Leads, Where, HeadOf;
    if t == [] {
      BeginLeads(c, s, hist);
    } else {
      var front, b, v := t[..|t| - 1], t[|t| - 1].0, t[|t| - 1].1;
      assert c.Home(b) && front + [(b, v)] == t;
      AllowedFront(c, t);
      WritesLead(c, s, front, hist);
      WriteLeads(c, s, [Begin(0)] + LogWrites(front), front, b, v, hist);
      assert [Begin(0)] + LogWrites(front) + [LogWrite(0, b, v)] == [Begin(0)] + LogWrites(t);
    }
  }

  lemma WriteLeads(c: Config, s: State, es: seq<Event>, front: Txn, b: Uint, v: Block, hist: seq<Txn>)
    requires Leads(c, s, es, Idle, HeadOf(front), In(|HeadOf(front)|), hist, front)
    requires c.Valid() && c.Home(b) && |HeadOf(front)| < Capacity(c)
    ensures var t := front + [(b, v)];
      Leads(c, s, es + [LogWrite(0, b, v)], Idle, HeadOf(t), In(|HeadOf(t)|), hist, t)
  {
    hide Leads, Sane, Next, Where, HeadOf;
    var t := front + [(b, v)];
    LeadsWhere(c, s, es, Idle, HeadOf(front), In(|HeadOf(front)|), hist, front);
    LogWriteStep(c, Run(c, s, es).s, front, b, v, hist);
    LeadsOn(c, s, es, LogWrite(0, b, v), Idle, HeadOf(front), In(|HeadOf(front)|), hist, front,
            Idle, HeadOf(t), In(|HeadOf(t)|), hist, t);
  }

  lemma BeginLeads(c: Config, s: State, hist: seq<Txn>)
    requires Where(c, s, Idle, [], Out, hist, [])
    ensures Leads(c, s, [Begin(0)] + LogWrites([]), Idle, [], In(0), hist, [])
  {
    hide Next;
    assert Run(c, s, []) == Ok(s);
    BeginAlone(c, s);
    LeadsOn(c, s, [], Begin(0), Idle, [], Out, hist, [], Idle, [], In(0), hist, []);
    assert [] + [Begin(0)] == [Begin(0)] + LogWrites([]);
  }

  lemma AllowedFront(c: Config, t: Txn)
    requires Allowed(c, t) && t != []
    ensures Allowed(c, t[..|t| - 1])
  {
  }

  lemma LogWriteStep(c: Config, s: State, front: Txn, b: Uint, v: Block, hist: seq<Txn>)
    requires Where(c, s, Idle, HeadOf(front), In(|HeadOf(front)|), hist, front)
    requires c.Valid() && c.Home(b) && |HeadOf(front)| < Capacity(c)
    ensures Next(c, s, LogWrite(0, b, v)).Ok?
    ensures var t := front + [(b, v)];
      Where(c, Next(c, s, LogWrite(0, b, v)).s, Idle, HeadOf(t), In(|HeadOf(t)|), hist, t)
  {
    var t := front + [(b, v)];
    assert t[..|front|] == front;
    OneOp(In(|HeadOf(front)|));
    assert s.ops[0 := In(|HeadOf(front)| + 1)] == [In(|HeadOf(front)| + 1)];
  }

  /** Steps of commit that only move its phase on. */
  lemma {:induction false} CopiesLead(c: Config, s: State, es: seq<Event>, lh: seq<Uint>, hist: seq<Txn>, cur: Txn,
                                      k: nat)
    requires Leads(c, s, es, WriteLog(0), lh, Out, hist, cur) && k <= |lh|
    ensures Leads(c, s, es + Log.Repeat(CopyToLog, k), WriteLog(k), lh, Out, hist, cur)
    decreases k
  {
    hide Sane;
    if k == 0 {
      assert es + Log.Repeat(CopyToLog, 0) == es;
    } else {
      CopiesLead(c, s, es, lh, hist, cur, k - 1);
      var es' := es + Log.Repeat(CopyToLog, k - 1);
      CopyStep(c, Run(c, s, es').s, lh, hist, cur, k - 1);
      LeadsOn(c, s, es', CopyToLog, WriteLog(k - 1), lh, Out, hist, cur, WriteLog(k), lh, Out, hist, cur);
      assert es + Log.Repeat(CopyToLog, k) == es' + [CopyToLog];
    }
  }

  lemma CopyStep(c: Config, s: State, lh: seq<Uint>, hist: seq<Txn>, cur: Txn, k: nat)
    requires Where(c, s, WriteLog(k), lh, Out, hist, cur) && k < |lh|
    ensures Next(c, s, CopyToLog).Ok?
    ensures Where(c, Next(c, s, CopyToLog).s, WriteLog(k + 1), lh, Out, hist, cur)
  {
  }

  lemma {:induction false} InstallsLead(c: Config, s: State, es: seq<Event>, lh: seq<Uint>, hist: seq<Txn>, k: nat)
    requires Leads(c, s, es, Install(0), lh, Out, hist, []) && k <= |lh|
    ensures Leads(c, s, es + Log.Repeat(InstallOne, k), Install(k), lh, Out, hist, [])
    decreases k
  {
    hide Sane;
    if k == 0 {
      assert es + Log.Repeat(InstallOne, 0) == es;
    } else {
      InstallsLead(c, s, es, lh, hist, k - 1);
      var es' := es + Log.Repeat(InstallOne, k - 1);
      InstallStep(c, Run(c, s, es').s, lh, hist, k - 1);
      LeadsOn(c, s, es', InstallOne, Install(k - 1), lh, Out, hist, [], Install(k), lh, Out, hist, []);
      assert es + Log.Repeat(InstallOne, k) == es' + [InstallOne];
    }
  }

  lemma InstallStep(c: Config, s: State, lh: seq<Uint>, hist: seq<Txn>, k: nat)
    requires Where(c, s, Install(k), lh, Out, hist, []) && k < |lh|
    ensures Next(c, s, InstallOne).Ok?
    ensures Where(c, Next(c, s, InstallOne).s, Install(k + 1), lh, Out, hist, [])
  {
  }

  lemma HeaderStep(c: Config, s: State, lh: seq<Uint>, hist: seq<Txn>, cur: Txn)
    requires Where(c, s, WriteLog(|lh|), lh, Out, hist, cur)
    ensures Next(c, s, PutHeader).Ok?
    ensures Where(c, Next(c, s, PutHeader).s, Install(0), lh, Out, hist + [cur], [])
  {
  }

  lemma EraseStep(c: Config, s: State, lh: seq<Uint>, hist: seq<Txn>)
    requires Where(c, s, Install(|lh|), lh, Out, hist, [])
    ensures Next(c, s, EraseHeader).Ok?
    ensures Where(c, Next(c, s, EraseHeader).s, Done, [], Out, hist, [])
  {
  }

  lemma EndStep(c: Config, s: State, lh: seq<Uint>, n: nat, hist: seq<Txn>, cur: Txn)
    requires Where(c, s, Idle, lh, In(n), hist, cur)
    ensures Next(c, s, End(0)).Ok?
    ensures Where(c, Next(c, s, End(0)).s, if lh != [] then WriteLog(0) else Done, lh, Out, hist, cur)
  {
    OneOp(Out);
    assert s.ops[0 := Out] == [Out];
  }

  lemma FinishStep(c: Config, s: State, hist: seq<Txn>)
    requires Where(c, s, Done, [], Out, hist, [])
    ensures Next(c, s, Finish).Ok?
    ensures Where(c, Next(c, s, Finish).s, Idle, [], Out, hist, [])
  {
  }

  /** commit() writes the log, the header, the home blocks and the header again. */
  lemma CommitLeads(c: Config, s: State, es: seq<Event>, lh: seq<Uint>, hist: seq<Txn>, cur: Txn)
    requires Leads(c, s, es, WriteLog(0), lh, Out, hist, cur)
    ensures Leads(c, s, es + Log.CommitEvents(|lh|), Done, [], Out, hist + [cur], [])
  {
    hide Leads, Sane, Next;
    CopiesLead(c, s, es, lh, hist, cur, |lh|);
    var e1 := es + Log.Repeat(CopyToLog, |lh|);
    LeadsWhere(c, s, e1, WriteLog(|lh|), lh, Out, hist, cur);
    HeaderStep(c, Run(c, s, e1).s, lh, hist, cur);
    LeadsOn(c, s, e1, PutHeader, WriteLog(|lh|), lh, Out, hist, cur, Install(0), lh, Out, hist + [cur], []);
    InstallsLead(c, s, e1 + [PutHeader], lh, hist + [cur], |lh|);
    var e2 := e1 + [PutHeader] + Log.Repeat(InstallOne, |lh|);
    LeadsWhere(c, s, e2, Install(|lh|), lh, Out, hist + [cur], []);
    EraseStep(c, Run(c, s, e2).s, lh, hist + [cur]);
    LeadsOn(c, s, e2, EraseHeader, Install(|lh|), lh, Out, hist + [cur], [], Done, [], Out, hist + [cur], []);
    assert e2 + [EraseHeader] == es + Log.CommitEvents(|lh|);
  }

  lemma LeadsWhere(c: Config, s: State, es: seq<Event>, p: Phase, lh: seq<Uint>, op: Op, hist: seq<Txn>, cur: Txn)
    requires Leads(c, s, es, p, lh, op, hist, cur)
    ensures Sane(c, s) && Run(c, s, es).Ok? && Where(c, Run(c, s, es).s, p, lh, op, hist, cur)
  {
  }

  /** One whole operation: afterwards its writes are the last committed transaction. */
  lemma OpLeads(c: Config, s: State, t: Txn, hist: seq<Txn>)
    requires Where(c, s, Idle, [], Out, hist, []) && Allowed(c, t)
    ensures Leads(c, s, OpEvents(t), Idle, [], Out, if t == [] then hist else hist + [t], [])
  {
    hide Leads, Sane, Next, Where;
    WritesLead(c, s, t, hist);
    var e1, lh := [Begin(0)] + LogWrites(t), HeadOf(t);
    LeadsWhere(c, s, e1, Idle, lh, In(|lh|), hist, t);
    EndStep(c, Run(c, s, e1).s, lh, |lh|, hist, t);
    LeadsOn(c, s, e1, End(0), Idle, lh, In(|lh|), hist, t, if lh != [] then WriteLog(0) else Done, lh, Out, hist, t);
    var e2 := e1 + [End(0)];
    var e3, h := if t == [] then e2 else e2 + Log.CommitEvents(|lh|), if t == [] then hist else hist + [t];
    if t != [] {
      CommitLeads(c, s, e2, lh, hist, t);
    }
    LeadsWhere(c, s, e3, Done, [], Out, h, []);
    FinishStep(c, Run(c, s, e3).s, h);
    LeadsOn(c, s, e3, Finish, Done, [], Out, h, [], Idle, [], Out, h, []);
    assert t == [] ==> e3 == e2 + [];
    assert e3 + [Finish] == OpEvents(t);
  }

  // ---------------------------------------------------------------- all operations

  lemma LeadsConcat(c: Config, s: State, a: seq<Event>, b: seq<Event>, h: seq<Txn>, h': seq<Txn>)
    requires Leads(c, s, a, Idle, [], Out, h, []) && Leads(c, Run(c, s, a).s, b, Idle, [], Out, h', [])
    ensures Leads(c, s, a + b, Idle, [], Out, h', [])
  {
    hide Sane, Run, Where;
    RunConcat(c, s, a, b);
  }

  lemma {:induction false} OpsLead(c: Config, s: State, ts: seq<Txn>)
    requires Where(c, s, Idle, [], Out, [], []) && forall k :: 0 <= k < |ts| ==> Allowed(c, ts[k])
    ensures Leads(c, s, OpsEvents(ts), Idle, [], Out, NonEmpty(ts), [])
    decreases |ts|
  {
    if ts == [] {
      assert Run(c, s, []) == Ok(s);
    } else {
      var front, t := ts[..|ts| - 1], ts[|ts| - 1];
      hide Sane, Where, Allowed, OpEvents;
      OpsLead(c, s, front);
      OpLeads(c, Run(c, s, OpsEvents(front)).s, t, NonEmpty(front));
      assert t == [] ==> NonEmpty(front) + [] == NonEmpty(front);
      LeadsConcat(c, s, OpsEvents(front), OpEvents(t), NonEmpty(front), NonEmpty(ts));
    }
  }

  /** A run cut anywhere: what it has committed is a prefix of what the whole run commits. */
  lemma {:induction false} CutRun(c: Config, s: State, a: seq<Event>, b: seq<Event>)
    requires Sane(c, s) && Run(c, s, a + b).Ok?
    ensures Run(c, s, a).Ok? && Run(c, s, a).s.hist <= Run(c, s, a + b).s.hist
    decreases |b|
  {
    hide Sane, Next;
    if b == [] {
      assert a + b == a;
    } else {
      var front := b[..|b| - 1];
      assert (a + b)[..|a + b| - 1] == a + front;
      CutRun(c, s, a, front);
      StepHistory(c, Run(c, s, a + front).s, (a + b)[|a + b| - 1]);
    }
  }

  lemma {:induction false} HeadBlocks(t: Txn)
    ensures (forall x: Uint :: x in HeadOf(t) <==> x as nat in Blocks(t)) && Distinct(HeadOf(t))
    decreases |t|
  {
    if t != [] {
      var front := t[..|t| - 1];
      HeadBlocks(front);
      forall x: Uint ensures x in HeadOf(t) <==> x as nat in Blocks(t) {
        if x as nat in Blocks(t) {
          var i :| 0 <= i < |t| && t[i].0 as nat == x as nat;
          assert i < |t| - 1 ==> front[i].0 as nat in Blocks(front);
        }
        if x as nat in Blocks(front) {
          var i :| 0 <= i < |front| && front[i].0 as nat == x as nat;
          assert t[i].0 as nat == x as nat;
        }
        assert t[|t| - 1].0 as nat in Blocks(t);
      }
    }
  }

  lemma {:induction false} DistinctSize(h: seq<Uint>, b: set<nat>)
    requires Distinct(h) && forall i :: 0 <= i < |h| ==> h[i] as nat in b
    ensures |h| <= |b|
    decreases |h|
  {
    if h != [] {
      var x := h[|h| - 1] as nat;
      DistinctSize(h[..|h| - 1], b - {x});
    }
  }

  lemma OperationAllowed(sb: Super, d: seq<Block>, d': seq<Block>, t: Txn)
    requires sb.Valid() && sb.inodestart >= 3 && Operation(sb, d, d', t) && |Blocks(t)| < Capacity(LogConfig(sb))
    ensures Allowed(LogConfig(sb), t)
  {
    HeadBlocks(t);
    var h := HeadOf(t);
    forall i | 0 <= i < |h| ensures h[i] as nat in Blocks(t) {
      assert h[i] in h;
    }
    DistinctSize(HeadOf(t), Blocks(t));
  }

  // ---------------------------------------------------------------- crash safety

  /** No call logs as many blocks as make the log full; calls within MAXOPBLOCKS never do in mkfs's log. */
  ghost predicate AllFit(sb: Super, txns: seq<Txn>)
    requires sb.Valid() && sb.inodestart >= 3
  {
    forall k :: 0 <= k < |txns| ==> |Blocks(txns[k])| < Capacity(LogConfig(sb))
  }

  lemma BootWhere(sb: Super, d: seq<Block>)
    requires Mounted(sb, d)
    ensures FreshImage(LogConfig(sb), d) && Where(LogConfig(sb), Boot(d, 1), Idle, [], Out, [], [])
  {
    assert Boot(d, 1).ops == [Out];
  }

  ghost predicate AllAllowed(c: Config, ts: seq<Txn>) { forall k :: 0 <= k < |ts| ==> Allowed(c, ts[k]) }

  lemma TrailAllowed(sb: Super, files: seq<seq<Byte>>, cs: seq<Call>, states: seq<Fs>, txns: seq<Txn>)
    requires sb.Valid() && sb.inodestart >= 3 && Trail(sb, files, cs, states, txns) && AllFit(sb, txns)
    ensures AllAllowed(LogConfig(sb), txns)
  {
    hide AtRest, Operation, Allowed;
    forall j | 0 <= j < |txns| ensures Allowed(LogConfig(sb), txns[j]) {
      OperationAllowed(sb, states[j].d, states[j + 1].d, txns[j]);
    }
  }

  /** Whole operations from boot commit exactly their transactions. */
  lemma WholeRun(sb: Super, d: seq<Block>, ts: seq<Txn>)
    requires Mounted(sb, d) && AllAllowed(LogConfig(sb), ts)
    ensures var c := LogConfig(sb);
      && FreshImage(c, d) && Sane(c, Boot(d, 1)) && Run(c, Boot(d, 1), OpsEvents(ts)).Ok?
      && Run(c, Boot(d, 1), OpsEvents(ts)).s.hist == NonEmpty(ts)
  {
    BootWhere(sb, d);
    OpsLead(LogConfig(sb), Boot(d, 1), ts);
  }

  lemma CutAt(c: Config, s: State, a: seq<Event>, es: seq<Event>)
    requires Sane(c, s) && Run(c, s, es).Ok? && a <= es
    ensures Run(c, s, a).Ok? && Run(c, s, a).s.hist <= Run(c, s, es).s.hist
  {
    hide Sane, Run;
    assert a + es[|a|..] == es;
    CutRun(c, s, a, es[|a|..]);
  }

  /** What a run had committed when it was cut after at least the first `j` operations. */
  lemma CutOperations(sb: Super, d: seq<Block>, ts: seq<Txn>, es: seq<Event>, j: nat)
    requires Mounted(sb, d) && AllAllowed(LogConfig(sb), ts) && es <= OpsEvents(ts)
    requires j <= |ts| && OpsEvents(ts[..j]) <= es
    ensures var c := LogConfig(sb);
      && FreshImage(c, d) && Run(c, Boot(d, 1), es).Ok?
      && NonEmpty(ts[..j]) <= CommittedTxns(es) <= NonEmpty(ts)
  {
    hide Sane, Run, Allowed, OpsEvents, NonEmpty, CommittedTxns, FreshImage, Mounted, Boot;
    var c, s := LogConfig(sb), Boot(d, 1);
    WholeRun(sb, d, ts);
    CutAt(c, s, es, OpsEvents(ts));
    HistoryIsTheEvents(c, d, 1, es);
    WholeRun(sb, d, ts[..j]);
    CutAt(c, s, OpsEvents(ts[..j]), es);
  }

  /**
   While only one process uses the file system, every call that has returned is among those that a crash keeps:
   cut its run of calls by a crash after any disk write, let recovery crash and restart any number of times,
   and let it finish.
   */
  lemma SurvivesAlone(sb: Super, files: seq<seq<Byte>>, cs: seq<Call>, states: seq<Fs>, txns: seq<Txn>,
                      es: seq<Event>, rs: seq<Event>, j: nat)
    requires Trail(sb, files, cs, states, txns) && Mounted(sb, states[0].d)
    requires AllFit(sb, txns)
    requires j <= |cs| && OpsEvents(txns[..j]) <= es <= OpsEvents(txns)
    requires forall i :: 0 <= i < |rs| ==> RecoveryEvent(rs[i])
    ensures var c, d := LogConfig(sb), states[0].d;
      && FreshImage(c, d) && Run(c, Boot(d, 1), es).Ok?
      && var up := Run(c, DoCrash(c, Run(c, Boot(d, 1), es).s).s, rs);
         up.Ok? && up.s.phase.Idle? ==> exists k :: j <= k && Recovered(sb, files, cs, k, up.s.disk)
  {
    hide AtRest, Operation, Allowed, Run, OpsEvents, NonEmpty, CommittedTxns, Agree, Recovered, Effects;
    var c, d := LogConfig(sb), states[0].d;
    TrailAllowed(sb, files, cs, states, txns);
    CutOperations(sb, d, txns, es, j);
    var k := CommittedPrefix(txns, CommittedTxns(es), j);
    ReplayTrail(sb, files, cs, states, txns, k);
    HomeAgrees(sb, d, 1, es, rs, states[k].d);
    var up := Run(c, DoCrash(c, Run(c, Boot(d, 1), es).s).s, rs);
    if up.Ok? && up.s.phase.Idle? {
      AgreeRecovered(sb, files, cs, states[k], k, up.s.disk);
    }
  }
}
