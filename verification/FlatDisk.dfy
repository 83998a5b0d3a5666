/**
 The buffer cache and the log as one disk: programs that enter and leave operations, read blocks, and change
 blocks through bread, log_write and brelse, see a flat array of blocks.
 */
module FlatDisk {
  import opened Options
  import opened Disk
  import opened LogMachine
  import opened LogRuns
  import opened LogAdmission
  import Log

  /** begin_op, a read of a block, a change of a block inside an operation, and end_op. */
  datatype Command = Enter(p: nat) | Read(b: Uint) | Write(p: nat, b: Uint, v: Block) | Leave(p: nat)

  /** What the commands that took effect make of a flat array. */
  function FlatAfter(flat: seq<Block>, cmds: seq<Command>, done: seq<bool>): (r: seq<Block>)
    requires |cmds| == |done|
    ensures |r| == |flat|
  {
    if cmds == [] then flat
    else
      var n, f := |cmds| - 1, FlatAfter(flat, cmds[..|cmds| - 1], done[..|cmds| - 1]);
      if cmds[n].Write? && done[n] && cmds[n].b < |f| then f[cmds[n].b := cmds[n].v] else f
  }

  /** Whether process `p` is in an operation after them; nobody is to begin with. */
  predicate Inside(cmds: seq<Command>, done: seq<bool>, p: nat)
    requires |cmds| == |done|
  {
    if cmds == [] then false
    else
      var n := |cmds| - 1;
      if done[n] && cmds[n] == Enter(p) then true
      else if done[n] && cmds[n] == Leave(p) then false
      else Inside(cmds[..n], done[..n], p)
  }

  ghost predicate SomeInside(cmds: seq<Command>, done: seq<bool>, n: nat)
    requires |cmds| == |done|
  {
    exists p :: 0 <= p < n && Inside(cmds, done, p)
  }

  /** How many of the `n` processes are in operations. */
  ghost function InsideCount(cmds: seq<Command>, done: seq<bool>, n: nat): nat
    requires |cmds| == |done|
  {
    |set p | 0 <= p < n && Inside(cmds, done, p)|
  }

  /** The distinct blocks written since there was last nobody in an operation. */
  ghost function Logged(cmds: seq<Command>, done: seq<bool>, n: nat): seq<Uint>
    requires |cmds| == |done|
  {
    if cmds == [] then []
    else
      var k := |cmds| - 1;
      LoggedNext(Logged(cmds[..k], done[..k], n), cmds[k], done[k], SomeInside(cmds, done, n))
  }

  function LoggedNext(l: seq<Uint>, cmd: Command, d: bool, some: bool): seq<Uint>
  {
    if d && cmd.Write? && cmd.b !in l then l + [cmd.b] else if d && cmd.Leave? && !some then [] else l
  }

  /** How many of the flags are set. */
  ghost function Count(bs: seq<bool>): nat { |set p | 0 <= p < |bs| && bs[p]| }

  lemma CountIs(bs: seq<bool>, ops: seq<Op>)
    requires |bs| == |ops| && forall p :: 0 <= p < |bs| ==> (bs[p] <==> ops[p].In?)
    ensures Count(bs) == Outstanding(ops)
  {
    OutstandingIsCount(ops);
    assert (set p | 0 <= p < |bs| && bs[p]) == (set p | 0 <= p < |ops| && ops[p].In?);
  }

  // ---------------------------------------------------------------- commit shows nothing

  lemma StepCurrent(c: Config, s: State, e: Event)
    requires Sane(c, s) && Next(c, s, e).Ok? && !e.LogWrite? && !e.Crash?
    ensures Current(Next(c, s, e).s) == Current(s)
  {
    hide Replay, ReplayAll, PutHead;
    StepHistory(c, s, e);
    if e.PutHeader? {
      PutHeaderCommits(c, s);
    }
  }

  /** The log's own steps, in commit and in recovery. */
  predicate Internal(e: Event) { !e.Begin? && !e.LogWrite? && !e.End? && !e.Crash? }

  lemma InternalStep(c: Config, s: State, e: Event)
    requires Sane(c, s) && Next(c, s, e).Ok? && Internal(e)
    ensures Current(Next(c, s, e).s) == Current(s) && Next(c, s, e).s.ops == s.ops
  {
    StepCurrent(c, s, e);
  }

  lemma {:induction false} InternalRun(c: Config, s: State, es: seq<Event>)
    requires Sane(c, s) && Run(c, s, es).Ok? && forall i :: 0 <= i < |es| ==> Internal(es[i])
    ensures Current(Run(c, s, es).s) == Current(s) && Run(c, s, es).s.ops == s.ops
  {
    hide Sane, Next, Current, Internal;
    if es != [] {
      InternalRun(c, s, es[..|es| - 1]);
      InternalStep(c, Run(c, s, es[..|es| - 1]).s, es[|es| - 1]);
    }
  }

  lemma WriteCurrent(c: Config, s: State, p: nat, b: Uint, v: Block)
    requires Sane(c, s) && DoLogWrite(c, s, p, b, v).Ok?
    ensures Current(DoLogWrite(c, s, p, b, v).s) == Current(s)[b := v]
  {
    assert (s.cur + [(b, v)])[..|s.cur|] == s.cur;
  }

  /** A block read through the cache is the block of the flat array. */
  lemma ReadsCurrent(c: Config, s: State, b: Uint)
    requires Inv(c, s) && s.phase.Idle? && c.Home(b)
    ensures View(s, b) == Current(s)[b]
  {
    assert ViewInv(c, s);
  }

  /** end_op shows nothing either, and takes its process out. */
  lemma Left(c: Config, s: State, p: nat, more: seq<Event>)
    requires Inv(c, s) && p < |s.ops| && Run(c, s, [End(p)] + more).Ok?
    requires forall i :: 0 <= i < |more| ==> Internal(more[i])
    requires more == [] || more[|more| - 1] == Finish
    ensures var t := Run(c, s, [End(p)] + more).s;
      Inv(c, t) && Current(t) == Current(s) && t.ops == s.ops[p := Out] && t.lh == if more == [] then s.lh else []
  {
    hide Inv, Current;
    InvSane(c, s);
    RunKeepsInv(c, s, [End(p)] + more);
    EndFirst(c, s, p, more);
    StepCurrent(c, s, End(p));
    InternalRun(c, Next(c, s, End(p)).s, more);
    if more != [] {
      FinishEmpty(c, s, [End(p)] + more);
    }
  }

  /** A commit leaves an empty header. */
  lemma FinishEmpty(c: Config, s: State, es: seq<Event>)
    requires Inv(c, s) && es != [] && es[|es| - 1] == Finish && Run(c, s, es).Ok?
    ensures Run(c, s, es).s.lh == []
  {
    hide DiskInv, ViewInv, Outstanding;
    RunKeepsInv(c, s, es[..|es| - 1]);
  }

  lemma EndFirst(c: Config, s: State, p: nat, more: seq<Event>)
    requires Sane(c, s) && Run(c, s, [End(p)] + more).Ok?
    ensures Next(c, s, End(p)).Ok? && Run(c, s, [End(p)] + more) == Run(c, Next(c, s, End(p)).s, more)
  {
    hide Sane, Next;
    assert [] + [End(p)] == [End(p)] && Run(c, s, []) == Ok(s);
    RunSnoc(c, s, [], End(p));
    FirstRuns(c, s, [End(p)], more);
    RunConcat(c, s, [End(p)], more);
  }

  /** If a run succeeds so does its beginning. */
  lemma {:induction false} FirstRuns(c: Config, s: State, a: seq<Event>, b: seq<Event>)
    requires Sane(c, s) && Run(c, s, a + b).Ok?
    ensures Run(c, s, a).Ok?
    decreases |b|
  {
    hide Sane, Next;
    if b == [] {
      assert a + b == a;
    } else {
      assert (a + b)[..|a + b| - 1] == a + b[..|b| - 1];
      FirstRuns(c, s, a, b[..|b| - 1]);
    }
  }

  lemma AfterEnd(n: nat, last: bool)
    ensures var more := if !last then [] else (if n > 0 then Log.CommitEvents(n) else []) + [Finish];
      forall i :: 0 <= i < |more| ==> Internal(more[i])
  {
  }

  class Kernel {
    const log: Log.Log
    /** Which processes are in an operation. */
    var inop: seq<bool>

    /** Any log that is up with nobody in an operation, as recovery leaves it. */
    constructor (log: Log.Log, n: nat)
      requires log.Valid() && log.Quiet() && log.phase.Idle? && Inv(log.c, log.Abs())
      requires |log.ops| == n && log.outstanding == 0 && log.n == 0
      ensures Valid() && this.log == log && inop == seq(n, _ => false) && Flat() == Current(log.Abs())
    {
      this.log, inop := log, seq(n, _ => false);
      NobodyIn(log.ops);
    }

    ghost predicate Valid()
      reads this, log, log.cache
    {
      && log.Valid() && log.Quiet() && log.phase.Idle? && Inv(log.c, log.Abs())
      && |inop| == |log.ops| && (forall p :: 0 <= p < |inop| ==> (inop[p] <==> log.ops[p].In?))
      && ((forall p :: 0 <= p < |inop| ==> !inop[p]) ==> log.n == 0)
    }

    /** The blocks in the log. */
    ghost function Header(): seq<Uint>
      reads log
      requires log.n <= |log.block|
    {
      log.block[..log.n]
    }

    /** The array that programs see. */
    ghost function Flat(): seq<Block>
      reads log, log.cache
      requires log.Valid()
    {
      Current(log.Abs())
    }

    /** begin_op; `false` is a process that goes to sleep, or is in an operation already. */
    method DoEnter(p: nat) returns (done: bool)
      requires Valid()
      modifies this, log
      ensures Valid() && Flat() == old(Flat()) && |inop| == |old(inop)|
      ensures done ==> p < |inop| && !old(inop)[p] && inop == old(inop)[p := true]
      ensures !done ==> inop == old(inop)
      ensures Header() == old(Header())
      ensures done <==> p < |old(inop)| && !old(inop)[p]
                        && |old(Header())| + (Count(old(inop)) + 1) * MAXOPBLOCKS <= LOGSIZE
    {
      hide Sane, Current, DoBegin, Inv, Count, Outstanding;
      CountIs(inop, log.ops);
      if p >= |inop| || inop[p] {
        return false;
      }
      ghost var s := log.Abs();
      done := log.BeginOp(p);
      if done {
        Began(log.c, s, p);
        inop := inop[p := true];
        assert inop[p];
      }
    }

    /** bread, look, brelse; `got` is what was there. `ok` is false for a panic of bget. */
    method DoRead(b: Uint) returns (ok: bool, got: Option<Block>)
      requires Valid()
      modifies log.cache
      ensures ok ==> Valid() && Flat() == old(Flat())
      ensures ok ==> Header() == old(Header())
      ensures ok && log.c.Home(b) ==> b < |Flat()| && got == Some(Flat()[b])
      ensures ok && !log.c.Home(b) ==> got == None
    {
      hide Inv, Current;
      if !log.c.Home(b) {
        return true, None;
      }
      ReadsCurrent(log.c, log.Abs(), b);
      ghost var s := log.Abs();
      var i := log.cache.Bread(b);
      if i.None? {
        return false, None;
      }
      got := Some(log.cache.bufs[i.value].data);
      assert log.Abs() == s;
      log.cache.Brelse(i.value);
      assert log.Abs() == s;
      ok := true;
    }

    /** The caller has read block `b` into buffer `i`, and nobody else holds a buffer. */
    ghost predicate Holding(i: nat, b: Uint)
      reads log, log.cache
    {
      log.Reading(i, b) && forall k :: 0 <= k < |log.cache.bufs| && log.cache.bufs[k].locked ==> k == i
    }

    /** Change the contents, log_write, brelse. `ok` is false for a panic of log_write. */
    method Change(p: nat, i: nat, b: Uint, v: Block) returns (ok: bool)
      requires log.Valid() && Holding(i, b) && log.phase.Idle? && p < |log.ops| && log.ops[p].In? && log.c.Home(b)
      modifies log, log.cache
      ensures ok ==> log.Valid() && log.Quiet() && DoLogWrite(log.c, old(log.Abs()), p, b, v) == Ok(log.Abs())
    {
      hide Sane, DoLogWrite, Outstanding, Log.Bio.CacheOk;
      ghost var s := log.Abs();
      log.cache.Modify(i, v);
      assert log.Abs() == s;
      ok := log.LogWrite(p, i);
      if ok {
        Pinned(log.c, s, p, b, v);
        Release(i);
      }
    }

    method Release(i: nat)
      requires log.Valid() && i < |log.cache.bufs| && log.cache.bufs[i].locked
      requires forall k :: 0 <= k < |log.cache.bufs| && log.cache.bufs[k].locked ==> k == i
      requires log.cache.bufs[i].valid ==>
                 log.cache.bufs[i].data == Latest(log.cache.disk, log.cache.pinned, log.cache.bufs[i].blockno)
      modifies log.cache
      ensures log.Valid() && log.Quiet() && log.Abs() == old(log.Abs())
    {
      hide Sane, Outstanding;
      ghost var s := log.Abs();
      log.cache.Brelse(i);
      assert log.Abs() == s;
    }

    /** bread, change, log_write, brelse. `ok` is false for a panic of bget or log_write. */
    method DoWrite(p: nat, b: Uint, v: Block) returns (ok: bool, done: bool)
      requires Valid()
      modifies log, log.cache
      ensures ok ==> Valid() && (done <==> p < |inop| && inop[p] && log.c.Home(b))
      ensures ok ==> Flat() == if done && b < |old(Flat())| then old(Flat())[b := v] else old(Flat())
      ensures ok ==> Header() == if done && b !in old(Header()) then old(Header()) + [b] else old(Header())
    {
      hide Inv, Current, DoLogWrite;
      if p >= |inop| || !inop[p] || !log.c.Home(b) {
        return true, false;
      }
      ghost var s := log.Abs();
      var i := log.cache.Bread(b);
      if i.None? {
        return false, false;
      }
      assert log.Abs() == s;
      ok := Change(p, i.value, b, v);
      if ok {
        Wrote(log.c, s, p, b, v);
      }
      done := true;
    }

    /** end_op, which commits for the last operation out. `ok` is false for a panic in commit. */
    method DoLeave(p: nat) returns (ok: bool, done: bool)
      requires Valid()
      modifies this, log, log.cache
      ensures ok ==> Valid() && Flat() == old(Flat()) && (done <==> p < |old(inop)| && old(inop)[p])
      ensures ok ==> inop == if done then old(inop)[p := false] else old(inop)
      ensures ok ==> Header() == if done && (forall q :: 0 <= q < |inop| ==> !inop[q]) then [] else old(Header())
    {
      hide Inv, Current, Sane, Outstanding;
      if p >= |inop| || !inop[p] {
        return true, false;
      }
      ghost var s, es := log.Abs(), [];
      ghost var more :=
        if log.outstanding > 1 then [] else (if log.n > 0 then Log.CommitEvents(log.n) else []) + [Finish];
      AfterEnd(log.n, log.outstanding <= 1);
      ok, es := log.EndOp(p);
      if ok {
        Left(log.c, s, p, more);
        LastOut(s.ops, p);
        inop := inop[p := false];
        assert |Header()| == log.n;
        if more == [] {
          var q :| 0 <= q < |s.ops| && q != p && !s.ops[q].Out?;
          assert inop[q];
        }
      }
      done := true;
    }

    /** One command. `done`: it took effect. */
    method Do(cmd: Command) returns (ok: bool, done: bool, got: Option<Block>)
      requires Valid()
      modifies this, log, log.cache
      ensures ok ==> Valid() && |inop| == |old(inop)|
      ensures ok ==> Flat() == if cmd.Write? && done && cmd.b < |old(Flat())| then old(Flat())[cmd.b := cmd.v]
          else old(Flat())
      ensures ok && cmd.Read? ==> done == log.c.Home(cmd.b)
      ensures ok && cmd.Read? && done ==> cmd.b < |old(Flat())| && got == Some(old(Flat())[cmd.b])
      ensures ok && cmd.Write? ==> (done <==> cmd.p < |old(inop)| && old(inop)[cmd.p] && log.c.Home(cmd.b))
      ensures ok && cmd.Enter? ==>
                (done <==> cmd.p < |old(inop)| && !old(inop)[cmd.p]
                           && |old(Header())| + (Count(old(inop)) + 1) * MAXOPBLOCKS <= LOGSIZE)
      ensures ok ==> Header() == LoggedNext(old(Header()), cmd, done, exists q :: 0 <= q < |inop| && inop[q])
      ensures ok && cmd.Leave? ==> (done <==> cmd.p < |old(inop)| && old(inop)[cmd.p])
      ensures ok ==> forall p :: 0 <= p < |inop| ==>
                inop[p] == if done && cmd == Enter(p) then true else if done && cmd == Leave(p) then false
                    else old(inop)[p]
    {
      hide Inv, Current, Sane, Count;
      ok, done, got := true, false, None;
      match cmd
      case Enter(p) => done := DoEnter(p);
      case Read(b) =>
        ok, got := DoRead(b);
        done := log.c.Home(b);
      case Write(p, b, v) => ok, done := DoWrite(p, b, v);
      case Leave(p) => ok, done := DoLeave(p);
    }

    /**
     Any sequence of commands: each block read is that of a flat array that only the writes change, and a
     write takes effect exactly when its process is in an operation. `ok` is false for a panic.
     */
    method DoAll(cmds: seq<Command>) returns (ok: bool, done: seq<bool>, got: seq<Option<Block>>)
      requires Valid() && forall p :: 0 <= p < |inop| ==> !inop[p]
      modifies this, log, log.cache
      ensures ok ==> Valid() && |done| == |got| == |cmds| && Flat() == FlatAfter(old(Flat()), cmds, done)
      ensures ok ==> Answered(log.c, |inop|, old(Flat()), cmds, done, got)
    {
      hide Inv, Current, Sane, FlatAfter, Inside, Count, InsideCount, Logged, LoggedNext;
      ghost var flat := Flat();
      ok, done, got := true, [], [];
      var k := 0;
      Nothing(flat);
      assert cmds[..0] == [];
      while k < |cmds|
        invariant 0 <= k <= |cmds| && |done| == |got| == k && Valid()
        invariant Flat() == FlatAfter(flat, cmds[..k], done) && Answered(log.c, |inop|, flat, cmds[..k], done, got)
        invariant forall p :: 0 <= p < |inop| ==> (inop[p] <==> Inside(cmds[..k], done, p))
        invariant Header() == Logged(cmds[..k], done, |inop|)
      {
        var d, g;
        SameInside(inop, cmds[..k], done);
        ok, d, g := Do(cmds[k]);
        if !ok {
          return;
        }
        assert cmds[..k + 1] == cmds[..k] + [cmds[k]];
        OneMore(log.c, |inop|, flat, cmds[..k], done, got, cmds[k], d, g);
        OneMoreEffect(flat, cmds[..k], done, cmds[k], d);
        SameInside(inop, cmds[..k] + [cmds[k]], done + [d]);
        LoggedMore(cmds[..k], done, cmds[k], d, |inop|);
        done, got, k := done + [d], got + [g], k + 1;
      }
      assert cmds[..k] == cmds;
    }
  }

  /** What command `k` of a run answers. */
  ghost predicate Answer(c: Config, n: nat, flat: seq<Block>, cmds: seq<Command>, done: seq<bool>, cmd: Command,
                         d: bool, g: Option<Block>)
    requires |cmds| == |done|
  {
    match cmd
    case Enter(p) =>
      d <==> p < n && !Inside(cmds, done, p)
             && |Logged(cmds, done, n)| + (InsideCount(cmds, done, n) + 1) * MAXOPBLOCKS <= LOGSIZE
    case Read(b) => d == c.Home(b) && (d ==> b < |flat| && g == Some(FlatAfter(flat, cmds, done)[b]))
    case Write(p, b, _) => d <==> p < n && Inside(cmds, done, p) && c.Home(b)
    case Leave(p) => d <==> p < n && Inside(cmds, done, p)
  }

  ghost predicate Answered(c: Config, n: nat, flat: seq<Block>, cmds: seq<Command>, done: seq<bool>,
                           got: seq<Option<Block>>)
  {
    && |cmds| == |done| == |got|
    && forall k :: 0 <= k < |cmds| ==> Answer(c, n, flat, cmds[..k], done[..k], cmds[k], done[k], got[k])
  }

  /** Flags that say who is inside. */
  lemma SameInside(bs: seq<bool>, cmds: seq<Command>, done: seq<bool>)
    requires |cmds| == |done| && forall p :: 0 <= p < |bs| ==> (bs[p] <==> Inside(cmds, done, p))
    ensures Count(bs) == InsideCount(cmds, done, |bs|)
    ensures SomeInside(cmds, done, |bs|) <==> exists q :: 0 <= q < |bs| && bs[q]
  {
    hide Inside;
    assert (set p | 0 <= p < |bs| && bs[p]) == (set p | 0 <= p < |bs| && Inside(cmds, done, p));
  }

  lemma LoggedMore(cmds: seq<Command>, done: seq<bool>, cmd: Command, d: bool, n: nat)
    requires |cmds| == |done|
    ensures Logged(cmds + [cmd], done + [d], n)
            == LoggedNext(Logged(cmds, done, n), cmd, d, SomeInside(cmds + [cmd], done + [d], n))
  {
    assert (cmds + [cmd])[..|cmds|] == cmds && (done + [d])[..|done|] == done;
  }

  /** Process `p` was the last one in exactly if only one was. */
  lemma LastOut(ops: seq<Op>, p: nat)
    requires p < |ops| && ops[p].In?
    ensures Outstanding(ops) <= 1 <==> forall q :: 0 <= q < |ops| && q != p ==> ops[q].Out?
  {
    var left := ops[p := Out];
    OpsUpdate(ops, p, Out);
    NobodyIn(left);
    if Outstanding(ops) <= 1 {
      forall q | 0 <= q < |ops| && q != p ensures ops[q].Out? {
        assert left[q].Out?;
      }
    }
  }

  lemma Nothing(flat: seq<Block>)
    ensures FlatAfter(flat, [], []) == flat && (forall p :: !Inside([], [], p)) && forall n :: Logged([], [], n) == []
  {
  }

  lemma OneMore(c: Config, n: nat, flat: seq<Block>, cmds: seq<Command>, done: seq<bool>, got: seq<Option<Block>>,
                cmd: Command, d: bool, g: Option<Block>)
    requires Answered(c, n, flat, cmds, done, got) && Answer(c, n, flat, cmds, done, cmd, d, g)
    ensures Answered(c, n, flat, cmds + [cmd], done + [d], got + [g])
  {
    hide Answer;
    var cs, ds, gs := cmds + [cmd], done + [d], got + [g];
    forall k | 0 <= k < |cs| ensures Answer(c, n, flat, cs[..k], ds[..k], cs[k], ds[k], gs[k]) {
      if k < |cmds| {
        assert cs[..k] == cmds[..k] && ds[..k] == done[..k];
      } else {
        assert cs[..k] == cmds && ds[..k] == done;
      }
    }
  }

  lemma OneMoreEffect(flat: seq<Block>, cmds: seq<Command>, done: seq<bool>, cmd: Command, d: bool)
    requires |cmds| == |done|
    ensures var f := FlatAfter(flat, cmds, done);
      FlatAfter(flat, cmds + [cmd], done + [d]) == if cmd.Write? && d && cmd.b < |f| then f[cmd.b := cmd.v] else f
    ensures forall p :: Inside(cmds + [cmd], done + [d], p)
              <==> if d && cmd == Enter(p) then true else if d && cmd == Leave(p) then false else Inside(cmds, done, p)
  {
    var cs, ds := cmds + [cmd], done + [d];
    assert cs[..|cs| - 1] == cmds && ds[..|cs| - 1] == done;
  }

  lemma Began(c: Config, s: State, p: nat)
    requires Inv(c, s) && s.phase.Idle? && p < |s.ops| && DoBegin(c, s, p).Ok?
    ensures var t := DoBegin(c, s, p).s;
      Inv(c, t) && t.phase.Idle? && t.ops == s.ops[p := In(0)] && Current(t) == Current(s) && t.lh == s.lh
  {
    BeginKeeps(c, s, p);
    StepCurrent(c, s, Begin(p));
  }

  lemma Pinned(c: Config, s: State, p: nat, b: Uint, v: Block)
    requires Sane(c, s) && DoLogWrite(c, s, p, b, v).Ok?
    ensures var t := DoLogWrite(c, s, p, b, v).s; t.pinned == s.pinned[b := v] && t.disk == s.disk
  {
  }

  lemma Wrote(c: Config, s: State, p: nat, b: Uint, v: Block)
    requires Inv(c, s) && s.phase.Idle? && DoLogWrite(c, s, p, b, v).Ok?
    ensures var t := DoLogWrite(c, s, p, b, v).s;
      && Inv(c, t) && t.phase.Idle? && b < |Current(s)| && Current(t) == Current(s)[b := v]
      && t.lh == (if b in s.lh then s.lh else s.lh + [b])
      && |t.ops| == |s.ops| && forall q :: 0 <= q < |s.ops| ==> (t.ops[q].In? <==> s.ops[q].In?)
  {
    LogWriteKeeps(c, s, p, b, v);
    WriteCurrent(c, s, p, b, v);
  }

  // ---------------------------------------------------------------- after a crash

  lemma UpAgain(c: Config, s: State, es: seq<Event>)
    requires Inv(c, s) && s.phase.Down? && DoReadHeader(c, s).Ok? && Run(c, DoReadHeader(c, s).s, es).Ok?
    requires forall i :: 0 <= i < |es| ==> Internal(es[i])
    requires es != [] && es[|es| - 1] == RecoverErase
    ensures var t := Run(c, DoReadHeader(c, s).s, es).s;
      Inv(c, t) && Current(t) == Committed(s) && t.ops == s.ops && t.lh == []
  {
    hide Inv, Sane, Run, Next, Internal, DoReadHeader;
    InvSane(c, s);
    var mid := DoReadHeader(c, s).s;
    ReadHeaderKeeps(c, s);
    RunKeepsInv(c, mid, es);
    InternalRun(c, mid, es);
    UpFrom(c, s);
    EraseEmpty(c, mid, es);
  }

  /** Reading the header shows nothing: nothing is logged yet. */
  lemma UpFrom(c: Config, s: State)
    requires Inv(c, s) && s.phase.Down? && DoReadHeader(c, s).Ok?
    ensures Current(DoReadHeader(c, s).s) == Committed(s) && DoReadHeader(c, s).s.ops == s.ops
  {
    hide DiskInv, ReadHead, ReplayAll;
  }

  lemma EraseEmpty(c: Config, s: State, es: seq<Event>)
    requires Sane(c, s) && es != [] && es[|es| - 1] == RecoverErase && Run(c, s, es).Ok?
    ensures Run(c, s, es).s.lh == []
  {
    hide Sane, PutHead;
  }

  lemma CanStart(c: Config, s: State)
    requires Inv(c, s) && s.phase.Down?
    ensures s.lh == [] && s.pinned == map[] && Outstanding(s.ops) == 0
    ensures DoReadHeader(c, s).Ok? && Word(s.disk[c.start], 0) <= LOGSIZE
  {
  }

  lemma RecoveryIsInternal(n: nat)
    ensures var es := Log.Repeat(RecoverOne, n) + [RecoverErase];
      es != [] && es[|es| - 1] == RecoverErase && forall i :: 0 <= i < |es| ==> Internal(es[i])
  {
  }

  lemma RecoveredIdle(c: Config, s: State, es: seq<Event>)
    requires Sane(c, s) && es != [] && es[|es| - 1] == RecoverErase && Run(c, s, es).Ok?
    ensures Run(c, s, es).s.phase.Idle?
  {
    hide Sane, PutHead;
  }

  /** initlog on that disk. */
  method Recover(c: Config, image: seq<Block>, ghost s: State) returns (log: Log.Log, ok: bool, ghost es: seq<Event>)
    requires Inv(c, s) && s.phase.Down? && s.disk == image
    ensures fresh(log) && fresh(log.cache) && log.c == c && DoReadHeader(c, s).Ok?
    ensures ok ==> log.Valid() && log.Quiet() && (forall i :: 0 <= i < |es| ==> Internal(es[i]))
    ensures ok ==> log.phase.Idle? && Run(c, DoReadHeader(c, s).s, es) == Ok(log.Abs())
    ensures ok ==> es != [] && es[|es| - 1] == RecoverErase
  {
    CanStart(c, s);
    hide Inv, Sane, Internal, Run, Next, DoReadHeader, Outstanding, Word, Log.Repeat;
    log := new Log.Log(c, image, s);
    ok, es := log.RecoverFromLog();
    if ok {
      var mid := DoReadHeader(c, s).s;
      RecoveryIsInternal(|mid.lh|);
      RecoveredIdle(c, mid, es);
    }
  }

  /**
   The kernel comes up on the disk of a crashed state: after recover_from_log programs see the blocks of the
   committed transactions. `ok` is false for a panic of bget.
   */
  method StartUp(c: Config, image: seq<Block>, n: nat, ghost s: State) returns (k: Kernel?, ok: bool)
    requires Inv(c, s) && s.phase.Down? && s.disk == image && |s.ops| == n
    ensures ok ==> k != null && fresh(k) && fresh(k.log) && k.log.c == c && k.Valid() && k.Flat() == Committed(s)
    ensures ok ==> k.inop == seq(n, _ => false)
  {
    CanStart(c, s);
    hide Inv, Committed, Current, Sane, Internal, Run, Outstanding;
    var log;
    ghost var es;
    log, ok, es := Recover(c, image, s);
    k := null;
    if ok {
      UpAgain(c, s, es);
      k := new Kernel(log, n);
    }
  }
}
