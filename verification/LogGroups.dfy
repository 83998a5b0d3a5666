/**
 Group commit seen from the operations: several processes log their writes one operation after the other, and
 which of these operations a crash keeps.
 */
module LogGroups {
  import opened Options
  import opened Disk
  import opened LogMachine
  import opened LogRuns

  // ---------------------------------------------------------------- replaying one after the other

  function Flatten(ts: seq<Txn>): Txn
  {
    if ts == [] then [] else Flatten(ts[..|ts| - 1]) + ts[|ts| - 1]
  }

  lemma {:induction false} ReplayConcat(d: seq<Block>, a: Txn, b: Txn)
    requires InRange(a, |d|) && InRange(b, |d|)
    ensures InRange(a + b, |d|) && Replay(d, a + b) == Replay(Replay(d, a), b)
    decreases |b|
  {
    if b == [] {
      assert a + b == a;
    } else {
      assert (a + b)[..|a + b| - 1] == a + b[..|b| - 1];
      ReplayConcat(d, a, b[..|b| - 1]);
    }
  }

  /** Committing transactions one by one or as one makes no difference to the blocks. */
  lemma {:induction false} ReplayFlat(d: seq<Block>, h: seq<Txn>)
    requires TxnsIn(h, |d|)
    ensures InRange(Flatten(h), |d|) && ReplayAll(d, h) == Replay(d, Flatten(h))
    decreases |h|
  {
    if h != [] {
      ReplayFlat(d, h[..|h| - 1]);
      ReplayConcat(d, Flatten(h[..|h| - 1]), h[|h| - 1]);
    }
  }

  lemma FlattenSnoc(ts: seq<Txn>, t: Txn)
    ensures Flatten(ts + [t]) == Flatten(ts) + t
  {
    assert (ts + [t])[..|ts|] == ts;
  }

  /** Non-empty transactions add something. */
  lemma {:induction false} FlattenGrows(ts: seq<Txn>, m: nat)
    requires m <= |ts| && (forall i :: 0 <= i < |ts| ==> ts[i] != []) && Flatten(ts[..m]) == Flatten(ts)
    ensures m == |ts|
  {
    FlattenPrefix(ts, m);
  }

  lemma {:induction false} FlattenPrefix(ts: seq<Txn>, m: nat)
    requires m <= |ts| && forall i :: 0 <= i < |ts| ==> ts[i] != []
    ensures |Flatten(ts)| >= |Flatten(ts[..m])| + (|ts| - m)
    decreases |ts|
  {
    if m < |ts| {
      FlattenPrefix(ts[..|ts| - 1], m);
      assert ts[..|ts| - 1][..m] == ts[..m];
    } else {
      assert ts[..m] == ts;
    }
  }

  // ---------------------------------------------------------------- operations, read off the events

  /** The writes of each operation, in order; the last operation is still in progress if `who` is its process. */
  datatype Progress = Progress(groups: seq<Txn>, who: Option<nat>)

  function Advance(g: Progress, e: Event): Progress
    requires g.who.Some? ==> g.groups != []
  {
    match e
    case LogWrite(p, b, v) =>
      if g.who == Some(p)
      then Progress(g.groups[..|g.groups| - 1] + [g.groups[|g.groups| - 1] + [(b, v)]], g.who)
      else Progress(g.groups + [[(b, v)]], Some(p))
    case End(p) => if g.who == Some(p) then g.(who := None) else g
    case _ => g
  }

  function Groups(es: seq<Event>): (g: Progress)
    ensures g.who.Some? ==> g.groups != []
    ensures forall i :: 0 <= i < |g.groups| ==> g.groups[i] != []
  {
    if es == [] then Progress([], None) else Advance(Groups(es[..|es| - 1]), es[|es| - 1])
  }

  /** They are the transactions `ts`, in order; all of them whole but one in progress. */
  ghost predicate Follows(g: Progress, ts: seq<Txn>)
  {
    && |g.groups| <= |ts|
    && if g.who.None? || g.groups == [] then g.groups == ts[..|g.groups|]
       else var n := |g.groups| - 1; g.groups[..n] == ts[..n] && g.groups[n] <= ts[n]
  }

  /** At every moment of the run, in which the system does not crash. */
  ghost predicate Serial(es: seq<Event>, ts: seq<Txn>)
  {
    es != [] ==> Serial(es[..|es| - 1], ts) && !es[|es| - 1].Crash? && Follows(Groups(es), ts)
  }

  /** How many operations the header writes so far have made durable. */
  function Durable(es: seq<Event>): nat
  {
    if es == [] then 0
    else if es[|es| - 1].PutHeader? then |Groups(es[..|es| - 1]).groups|
    else Durable(es[..|es| - 1])
  }

  // ---------------------------------------------------------------- what header writes commit

  lemma OpenStep(c: Config, s: State, e: Event, p: nat)
    requires Sane(c, s) && Next(c, s, e).Ok? && !e.Crash? && e != End(p) && p < |s.ops|
    requires s.ops[p].In? || (e.LogWrite? && e.p == p)
    ensures Next(c, s, e).s.ops[p].In?
  {
    hide Outstanding, Replay, PutHead, ReadHead;
  }

  /** The process whose operation is in progress is inside it. */
  lemma {:induction false} OpenIsIn(c: Config, d: seq<Block>, n: nat, es: seq<Event>, ts: seq<Txn>)
    requires FreshImage(c, d) && Run(c, Boot(d, n), es).Ok? && Serial(es, ts)
    ensures var w := Groups(es).who; w.Some? ==> w.value < n && Run(c, Boot(d, n), es).s.ops[w.value].In?
  {
    hide Next, Follows;
    if es != [] {
      var front, e := es[..|es| - 1], es[|es| - 1];
      OpenIsIn(c, d, n, front, ts);
      var w := Groups(es).who;
      if w.Some? {
        var s := Run(c, Boot(d, n), front).s;
        if e.LogWrite? {
          WriterExists(c, s, e);
        }
        OpenStep(c, s, e, w.value);
      }
    }
  }

  lemma WriterExists(c: Config, s: State, e: Event)
    requires Sane(c, s) && Next(c, s, e).Ok? && e.LogWrite?
    ensures e.p < |s.ops|
  {
    hide Outstanding, Replay, PutHead, ReadHead;
  }

  /** At a header write nobody is in an operation, so the operations logged are whole. */
  lemma HeaderAtRest(c: Config, d: seq<Block>, n: nat, es: seq<Event>, ts: seq<Txn>)
    requires FreshImage(c, d) && Run(c, Boot(d, n), es).Ok? && Serial(es, ts)
    requires Outstanding(Run(c, Boot(d, n), es).s.ops) == 0
    ensures Groups(es).who.None? && |Groups(es).groups| <= |ts| && Groups(es).groups == ts[..|Groups(es).groups|]
  {
    hide Run, Outstanding, Advance;
    OpenIsIn(c, d, n, es, ts);
    if es == [] {
      assert ts[..0] == [];
    }
    NobodyIn(Run(c, Boot(d, n), es).s.ops);
  }

  lemma AdvanceFlat(g: Progress, e: Event)
    requires g.who.Some? ==> g.groups != []
    ensures Flatten(Advance(g, e).groups) == Flatten(g.groups) + if e.LogWrite? then [(e.b, e.v)] else []
    ensures |Advance(g, e).groups| >= |g.groups|
  {
    if e.LogWrite? {
      if g.who == Some(e.p) {
        var n := |g.groups| - 1;
        FlattenSnoc(g.groups[..n], g.groups[n] + [(e.b, e.v)]);
      } else {
        FlattenSnoc(g.groups, [(e.b, e.v)]);
      }
    }
  }

  /** The writes committed are those of the first `Durable(es)` operations, and the others are still open. */
  lemma {:induction false} CommitsGroups(c: Config, d: seq<Block>, n: nat, es: seq<Event>, ts: seq<Txn>)
    requires FreshImage(c, d) && Run(c, Boot(d, n), es).Ok? && Serial(es, ts)
    ensures Durable(es) <= |Groups(es).groups| <= |ts|
    ensures Flatten(CommittedTxns(es)) == Flatten(ts[..Durable(es)])
    ensures Flatten(CommittedTxns(es)) + OpenWrites(es) == Flatten(Groups(es).groups)
  {
    hide Advance, Follows, Next, Sane;
    if es == [] {
      assert ts[..0] == [];
    } else {
      var front, e := es[..|es| - 1], es[|es| - 1];
      CommitsGroups(c, d, n, front, ts);
      AdvanceFlat(Groups(front), e);
      SerialCount(es, ts);
      if e.PutHeader? {
        HeaderCommits(c, d, n, front, ts);
        FlattenSnoc(CommittedTxns(front), OpenWrites(front));
      }
    }
  }

  lemma SerialCount(es: seq<Event>, ts: seq<Txn>)
    requires Serial(es, ts)
    ensures |Groups(es).groups| <= |ts|
  {
  }

  lemma HeaderCommits(c: Config, d: seq<Block>, n: nat, es: seq<Event>, ts: seq<Txn>)
    requires FreshImage(c, d) && Run(c, Boot(d, n), es).Ok? && Serial(es, ts)
    requires Next(c, Run(c, Boot(d, n), es).s, PutHeader).Ok?
    ensures |Groups(es).groups| <= |ts| && Groups(es).groups == ts[..|Groups(es).groups|]
    ensures Advance(Groups(es), PutHeader) == Groups(es)
  {
    hide Run, Groups, Serial;
    Reachable(c, d, n, es);
    HeaderAtRest(c, d, n, es, ts);
  }

  // ---------------------------------------------------------------- what is durable

  /** Something logged is not committed exactly while the header in memory has entries that are not being installed. */
  ghost predicate Tracks(s: State)
  {
    && (s.cur == [] <==> s.lh == [] || s.phase.Install? || s.phase.Recover?)
    && ((s.phase.Idle? || s.phase.Done?) && Outstanding(s.ops) == 0 ==> s.lh == [])
  }

  lemma StepTracks(c: Config, s: State, e: Event)
    requires Inv(c, s) && Tracks(s) && Next(c, s, e).Ok?
    ensures Tracks(Next(c, s, e).s)
  {
    hide DiskInv, ViewInv, Replay, ReplayAll, PutHead, ReadHead, Outstanding;
    var t := Next(c, s, e).s;
    NobodyIn(s.ops);
    NobodyIn(t.ops);
    match e
    case Begin(p) => assert t.ops[p].In?;
    case LogWrite(p, b, v) => assert t.ops[p].In?;
    case End(p) => assert s.phase.Idle?;
    case _ =>
  }

  lemma {:induction false} RunTracks(c: Config, d: seq<Block>, n: nat, es: seq<Event>)
    requires FreshImage(c, d) && Run(c, Boot(d, n), es).Ok?
    ensures Tracks(Run(c, Boot(d, n), es).s)
  {
    hide Next, Tracks;
    if es == [] {
      BootTracks(c, d, n);
    } else {
      RunTracks(c, d, n, es[..|es| - 1]);
      Reachable(c, d, n, es[..|es| - 1]);
      StepTracks(c, Run(c, Boot(d, n), es[..|es| - 1]).s, es[|es| - 1]);
    }
  }

  lemma BootTracks(c: Config, d: seq<Block>, n: nat)
    requires FreshImage(c, d)
    ensures Run(c, Boot(d, n), []) == Ok(Boot(d, n)) && Tracks(Boot(d, n))
  {
  }

  /** A crash now loses nothing that was logged if and only if the header is empty or being installed. */
  lemma NothingToLose(c: Config, d: seq<Block>, n: nat, es: seq<Event>)
    requires FreshImage(c, d) && Run(c, Boot(d, n), es).Ok?
    ensures var s := Run(c, Boot(d, n), es).s;
      OpenWrites(es) == [] <==> s.lh == [] || s.phase.Install? || s.phase.Recover?
  {
    hide Run;
    RunTracks(c, d, n, es);
    HistoryIsTheEvents(c, d, n, es);
  }

  /** The log is idle and nobody is in an operation. */
  ghost predicate Settled(s: State) { s.phase.Idle? && Outstanding(s.ops) == 0 }

  lemma SettledNothingToLose(c: Config, d: seq<Block>, n: nat, es: seq<Event>)
    requires FreshImage(c, d) && Run(c, Boot(d, n), es).Ok? && Settled(Run(c, Boot(d, n), es).s)
    ensures OpenWrites(es) == []
  {
    hide Run;
    RunTracks(c, d, n, es);
    HistoryIsTheEvents(c, d, n, es);
  }

  /** When the log has settled, every operation so far is durable. */
  lemma SettledIsDurable(c: Config, d: seq<Block>, n: nat, es: seq<Event>, ts: seq<Txn>)
    requires FreshImage(c, d) && Run(c, Boot(d, n), es).Ok? && Serial(es, ts)
    requires Settled(Run(c, Boot(d, n), es).s)
    ensures Durable(es) == |Groups(es).groups|
  {
    hide Run, Groups, Flatten, CommittedTxns, Durable, Serial;
    SettledNothingToLose(c, d, n, es);
    CommitsGroups(c, d, n, es, ts);
    HeaderAtRest(c, d, n, es, ts);
    var g := Groups(es).groups;
    assert Flatten(CommittedTxns(es)) + [] == Flatten(CommittedTxns(es));
    assert g[..Durable(es)] == ts[..Durable(es)];
    FlattenGrows(g, Durable(es));
  }

  lemma {:induction false} DurableGrows(a: seq<Event>, es: seq<Event>)
    requires a <= es
    ensures Durable(a) <= Durable(es) && |Groups(a).groups| <= |Groups(es).groups| && Durable(es) <= |Groups(es).groups|
    decreases |es|
  {
    hide Advance;
    if es != [] {
      var front := es[..|es| - 1];
      AdvanceFlat(Groups(front), es[|es| - 1]);
      if a == es {
        DurableGrows(front, front);
      } else {
        DurableGrows(a, front);
      }
    }
  }

  // ---------------------------------------------------------------- a returned call that is lost

  /** Two processes begin; 0 logs a block and ends, while 1 stays inside. */
  function OneStays(b: Uint, v: Block): seq<Event> { [Begin(0), Begin(1), LogWrite(0, b, v), End(0)] }

  /**
   Its end_op has returned and the log is not committing, yet a crash at this point loses its write: the
   commit waits for the other process.
   */
  lemma ReturnedIsLost(c: Config, d: seq<Block>, n: nat, b: Uint, v: Block, rs: seq<Event>)
    requires FreshImage(c, d) && n >= 2 && c.size >= 2 && c.Home(b)
    requires forall i :: 0 <= i < |rs| ==> RecoveryEvent(rs[i])
    ensures Run(c, Boot(d, n), OneStays(b, v)).Ok? && Serial(OneStays(b, v), [[(b, v)]])
    ensures Groups(OneStays(b, v)) == Progress([[(b, v)]], None) && Durable(OneStays(b, v)) == 0
    ensures var s := Run(c, Boot(d, n), OneStays(b, v)).s;
      && s.ops[0].Out? && s.phase.Idle? && CommittedTxns(OneStays(b, v)) == []
      && View(s, b) == v
      && var up := Run(c, DoCrash(c, s).s, rs); up.Ok? && up.s.phase.Idle? ==> up.s.disk[b] == d[b]
  {
    hide Run;
    OneStaysRuns(c, d, n, b, v);
    OneStaysSerial(b, v);
    CrashAtomicity(c, d, n, OneStays(b, v), rs, b);
  }

  lemma OneStaysSerial(b: Uint, v: Block)
    ensures Serial(OneStays(b, v), [[(b, v)]]) && Durable(OneStays(b, v)) == 0
    ensures Groups(OneStays(b, v)) == Progress([[(b, v)]], None)
  {
    hide Groups, Durable, Serial;
    var ts := [[(b, v)]];
    GroupsNil(ts);
    GroupsSnoc([], Begin(0), ts);
    GroupsSnoc([Begin(0)], Begin(1), ts);
    GroupsSnoc([Begin(0), Begin(1)], LogWrite(0, b, v), ts);
    GroupsSnoc([Begin(0), Begin(1), LogWrite(0, b, v)], End(0), ts);
    OneStaysSteps(b, v);
  }

  lemma OneStaysSteps(b: Uint, v: Block)
    ensures [] + [Begin(0)] == [Begin(0)] && [Begin(0)] + [Begin(1)] == [Begin(0), Begin(1)]
    ensures [Begin(0), Begin(1)] + [LogWrite(0, b, v)] == [Begin(0), Begin(1), LogWrite(0, b, v)]
    ensures [Begin(0), Begin(1), LogWrite(0, b, v)] + [End(0)] == OneStays(b, v)
  {
  }

  lemma GroupsNil(ts: seq<Txn>)
    ensures Groups([]) == Progress([], None) && Durable([]) == 0 && Serial([], ts)
  {
  }

  lemma GroupsSnoc(es: seq<Event>, e: Event, ts: seq<Txn>)
    ensures Groups(es + [e]) == Advance(Groups(es), e)
    ensures Durable(es + [e]) == if e.PutHeader? then |Groups(es).groups| else Durable(es)
    ensures Serial(es + [e], ts) <==> Serial(es, ts) && !e.Crash? && Follows(Advance(Groups(es), e), ts)
  {
    assert (es + [e])[..|es|] == es;
  }

  lemma OneStaysRuns(c: Config, d: seq<Block>, n: nat, b: Uint, v: Block)
    requires FreshImage(c, d) && n >= 2 && c.size >= 2 && c.Home(b)
    ensures Run(c, Boot(d, n), OneStays(b, v)).Ok? && CommittedTxns(OneStays(b, v)) == []
    ensures var s := Run(c, Boot(d, n), OneStays(b, v)).s; s.ops[0].Out? && s.phase.Idle? && View(s, b) == v
  {
    hide Next, Run;
    var s := BothIn(c, d, n);
    WriteAndEnd(c, s, b, v);
    var es := [Begin(0), Begin(1)];
    RunSnoc(c, Boot(d, n), es, LogWrite(0, b, v));
    RunSnoc(c, Boot(d, n), es + [LogWrite(0, b, v)], End(0));
    assert es + [LogWrite(0, b, v)] + [End(0)] == OneStays(b, v);
    HistoryIsTheEvents(c, d, n, OneStays(b, v));
  }

  lemma BothIn(c: Config, d: seq<Block>, n: nat) returns (s: State)
    requires FreshImage(c, d) && n >= 2
    ensures Run(c, Boot(d, n), [Begin(0), Begin(1)]) == Ok(s)
    ensures s == Boot(d, n).(ops := s.ops) && |s.ops| == n && s.ops[0] == In(0) && s.ops[1] == In(0)
    ensures Outstanding(s.ops) == 2
  {
    hide Replay;
    var s0 := Boot(d, n);
    NoOps(n);
    OpsUpdate(s0.ops, 0, In(0));
    var s1 := s0.(ops := s0.ops[0 := In(0)]);
    OpsUpdate(s1.ops, 1, In(0));
    s := s1.(ops := s1.ops[1 := In(0)]);
    assert Run(c, s0, []) == Ok(s0);
    RunSnoc(c, s0, [], Begin(0));
    RunSnoc(c, s0, [Begin(0)], Begin(1));
    assert [] + [Begin(0)] == [Begin(0)] && [Begin(0)] + [Begin(1)] == [Begin(0), Begin(1)];
  }

  lemma WriteAndEnd(c: Config, s: State, b: Uint, v: Block)
    requires Sane(c, s) && s.phase.Idle? && s.lh == [] && s.pinned == map[] && s.cur == []
    requires |s.ops| >= 2 && s.ops[0] == In(0) && s.ops[1] == In(0) && Outstanding(s.ops) == 2
    requires c.size >= 2 && c.Home(b)
    ensures Next(c, s, LogWrite(0, b, v)).Ok? && Next(c, Next(c, s, LogWrite(0, b, v)).s, End(0)).Ok?
    ensures var t := Next(c, Next(c, s, LogWrite(0, b, v)).s, End(0)).s;
      t.ops[0].Out? && t.phase.Idle? && View(t, b) == v && t.hist == s.hist
  {
    hide Outstanding;
    OpsUpdate(s.ops, 0, In(1));
    OpsUpdate(s.ops[0 := In(1)], 0, Out);
  }
}
