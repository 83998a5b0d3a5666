/**
 When processes can take their steps, what fork, sleep, wakeup and kill come to, whatever the others do, and
 what kill does to slots that nobody uses.
 */
module ProcCalls {
  import opened Options
  import opened ProcTable
  import opened ProcRuns

  // ---------------------------------------------------------------- who can do what

  /** In a reachable state a process can go on exactly if it is on a CPU and has, or can get, the lock it needs. */
  lemma EnabledExactly(s: State, p: nat)
    requires Inv(s) && p < |s.t|
    ensures Do(s, Step(p)).Next? <==>
              Runs(s, p) && (HoldsLock(s.pcs[p]) || ((s.pcs[p].ExitWant? || s.pcs[p].WaitWant?) && s.lock.Free?))
    ensures Do(s, Schedule(p)).Next? <==> s.t[p].state.Runnable? && s.lock.Free?
    ensures Do(s, Exit(p)).Next? <==> Runs(s, p) && s.pcs[p].Out? && p != s.init
    ensures Do(s, Wait(p)).Next? <==> Runs(s, p) && s.pcs[p].Out?
    ensures Do(s, SetParent(p)).Next? <==> Runs(s, p) && s.pcs[p].ForkFill?
    ensures Do(s, ForkFails(p)).Next? <==> Runs(s, p) && s.pcs[p].ForkFill?
    ensures Do(s, Publish(p)).Next? <==> Runs(s, p) && s.pcs[p].ForkLinked? && s.lock.Free?
  {
    hide Inv, Adopt, WakeAll;
    LengthsAgree(s);
    if InFork(s.pcs[p]) {
      FillingSlot(s, p);
    }
    if HoldsLock(s.pcs[p]) {
      ScanInside(s, p);
    }
  }

  lemma LengthsAgree(s: State)
    requires Inv(s)
    ensures |s.t| == |s.pcs|
  {
  }

  lemma ScanInside(s: State, p: nat)
    requires Inv(s) && p < |s.t| && HoldsLock(s.pcs[p])
    ensures s.pcs[p].i <= |s.t|
  {
    ScanOf(s, p);
  }

  /** kill finds a process exactly if one has the pid. */
  lemma KillFinds(s: State, pid: nat)
    requires s.lock.Free?
    ensures (exists q: nat :: q < |s.t| && s.t[q].pid == pid && Do(s, Kill(q)).Next?)
            <==> exists q: nat :: q < |s.t| && s.t[q].pid == pid
  {
    if q: nat :| q < |s.t| && s.t[q].pid == pid {
      var k := FirstPid(s.t, q);
      assert Do(s, Kill(k)).Next?;
    }
  }

  lemma {:induction false} FirstPid(t: seq<Proc>, q: nat) returns (k: nat)
    requires q < |t|
    ensures k <= q && t[k].pid == t[q].pid && forall j :: 0 <= j < k ==> t[j].pid != t[q].pid
  {
    k := q;
    if j :| 0 <= j < q && t[j].pid == t[q].pid {
      k := FirstPid(t, j);
    }
  }

  /**
   An undisturbed fork: if any slot is unused, the first one becomes a runnable child with the next pid, and
   no other slot changes.
   */
  lemma ForkRuns(s: State, p: nat, u: nat) returns (q: nat)
    requires Inv(s) && Runs(s, p) && s.pcs[p].Out? && s.lock.Free? && u < |s.t| && s.t[u].state.Unused?
    ensures q <= u && s.t[q].state.Unused? && forall j :: 0 <= j < q ==> !s.t[j].state.Unused?
    ensures Reaches(s, [Fork(p, q), SetParent(p), Publish(p)],
                    s.(t := s.t[q := Proc(Runnable, s.nextpid, Some(p), s.t[q].chan, s.t[q].killed)],
                       nextpid := s.nextpid + 1))
  {
    hide Inv;
    q := FirstUnused(s.t, u);
    var t := s.(t := s.t[q := Proc(Runnable, s.nextpid, Some(p), s.t[q].chan, s.t[q].killed)],
                nextpid := s.nextpid + 1);
    var s1 := Do(s, Fork(p, q)).s;
    var s2 := Do(s1, SetParent(p)).s;
    assert Do(s2, Publish(p)).s.pcs == s.pcs;
    assert Do(s2, Publish(p)) == Next(t);
    OneMore(s2, Publish(p), [], t);
    OneMore(s1, SetParent(p), [Publish(p)] + [], t);
    OneMore(s, Fork(p, q), [SetParent(p)] + ([Publish(p)] + []), t);
    assert [Fork(p, q)] + ([SetParent(p)] + ([Publish(p)] + [])) == [Fork(p, q), SetParent(p), Publish(p)];
  }

  lemma {:induction false} FirstUnused(t: seq<Proc>, u: nat) returns (q: nat)
    requires u < |t| && t[u].state.Unused?
    ensures q <= u && t[q].state.Unused? && forall j :: 0 <= j < q ==> !t[j].state.Unused?
  {
    q := u;
    if j :| 0 <= j < u && t[j].state.Unused? {
      q := FirstUnused(t, j);
    }
  }

  // ---------------------------------------------------------------- sleep and wakeup

  predicate Asleep(q: Proc, n: nat) { q.state.Sleeping? && q.chan == Some(Other(n)) }

  /** Two slots of which only the parent differs. */
  predicate Reparented(x: Proc, y: Proc) { y == x.(parent := y.parent) }

  lemma AdoptSleeper(x: seq<Proc>, p: nat, init: nat, i: nat, q: nat, n: nat)
    requires i < |x| && q < |x| && Asleep(x[q], n)
    ensures Reparented(x[q], Adopt(x, p, init, i)[q])
  {
  }

  lemma StepSleeper(s: State, p: nat, q: nat, n: nat)
    requires q < |s.t| && DoStep(s, p).Next? && Asleep(s.t[q], n)
    ensures q < |DoStep(s, p).s.t| && Asleep(DoStep(s, p).s.t[q], n)
  {
    hide Adopt;
    match s.pcs[p]
    case ExitScan(i) => if i < |s.t| { AdoptSleeper(s.t, p, s.init, i, q, n); }
    case _ =>
  }

  lemma RestSleeper(s: State, e: Event, q: nat, n: nat)
    requires Inv(s) && q < |s.t| && Do(s, e).Next? && Asleep(s.t[q], n) && !e.Step?
    requires e != Wakeup(n) && e != Kill(q)
    ensures q < |Do(s, e).s.t| && Asleep(Do(s, e).s.t[q], n)
  {
    hide Inv, Woken;
    if e.SetParent? || e.Publish? || e.ForkFails? {
      FillingSlot(s, e.p);
    }
    if e.Wakeup? {
      WokenOther(s.t[q], e.n, n);
    }
  }

  lemma WokenOther(q: Proc, m: nat, n: nat)
    requires Asleep(q, n) && m != n
    ensures Woken(q, Other(m)) == q
  {
  }

  /** Who sleeps on a channel goes on sleeping on it until a wakeup on that channel, or kill. */
  lemma {:induction false} SleepsUntilWoken(s: State, es: seq<Event>, t: State, q: nat, n: nat)
    requires Inv(s) && Reaches(s, es, t) && q < |s.t| && Asleep(s.t[q], n)
    requires forall k :: 0 <= k < |es| ==> es[k] != Wakeup(n) && es[k] != Kill(q)
    ensures q < |t.t| && Asleep(t.t[q], n)
    decreases |es|
  {
    hide Inv, Do;
    if es != [] {
      var s1 := Do(s, es[0]).s;
      DoKeeps(s, es[0]);
      OneSleeper(s, es[0], q, n);
      forall k | 0 <= k < |es[1..]| ensures es[1..][k] != Wakeup(n) && es[1..][k] != Kill(q) {
        assert es[1..][k] == es[k + 1];
      }
      SleepsUntilWoken(s1, es[1..], t, q, n);
    }
  }

  lemma OneSleeper(s: State, e: Event, q: nat, n: nat)
    requires Inv(s) && q < |s.t| && Do(s, e).Next? && Asleep(s.t[q], n) && e != Wakeup(n) && e != Kill(q)
    ensures q < |Do(s, e).s.t| && Asleep(Do(s, e).s.t[q], n)
  {
    hide Inv, DoStep;
    if e.Step? {
      StepSleeper(s, e.p, q, n);
    } else {
      RestSleeper(s, e, q, n);
    }
  }

  /** sleep puts the caller to sleep on its channel, and wakeup makes all that sleep there runnable and nobody else. */
  lemma NapAndWakeup(s: State, p: nat, n: nat)
    requires Inv(s) && Runs(s, p) && !HoldsLock(s.pcs[p]) && s.lock.Free?
    ensures Do(s, Nap(p, n)).Next? && Do(s, Wakeup(n)).Next?
    ensures Do(s, Nap(p, n)).s == s.(t := s.t[p := s.t[p].(state := Sleeping, chan := Some(Other(n)))])
    ensures var t := Do(s, Wakeup(n)).s;
      && t == s.(t := t.t) && |t.t| == |s.t|
      && forall q :: 0 <= q < |s.t| ==> t.t[q] == if Asleep(s.t[q], n) then s.t[q].(state := Runnable) else s.t[q]
  {
    hide Inv;
  }

  // ---------------------------------------------------------------- kill

  /** kill marks one process and makes it runnable if it sleeps; it can then run, and nothing else has changed. */
  lemma KillEffect(s: State, q: nat)
    requires Inv(s) && Do(s, Kill(q)).Next?
    ensures var t := Do(s, Kill(q)).s;
      && t == s.(t := t.t) && |t.t| == |s.t| && (forall i :: 0 <= i < |s.t| && i != q ==> t.t[i] == s.t[i])
      && t.t[q] == Proc(if s.t[q].state.Sleeping? then Runnable else s.t[q].state, s.t[q].pid, s.t[q].parent,
                        s.t[q].chan, true)
      && (Alive(s.t[q]) ==> Runs(t, q) || (Do(t, Schedule(q)).Next? && Runs(Do(t, Schedule(q)).s, q)))
  {
    hide Parented, ParentsLive, Pids, NoneLost, Forkers, ForksApart, Scans;
  }

  // ---------------------------------------------------------------- the mark

  /** This step is the end of a wait() that frees slot `q`. */
  predicate Reaps(x: seq<Proc>, y: seq<Proc>, q: nat)
    requires q < |x| && q < |y|
  {
    x[q].state.Zombie? && y[q].state.Unused?
  }

  /** Whether slot `q` was killed after it was last reaped, according to what has happened. */
  ghost function Marked(m: bool, s: State, es: seq<Event>, q: nat): bool
    decreases |es|
  {
    if es == [] || !Do(s, es[0]).Next? then m
    else
      var t := Do(s, es[0]).s;
      Marked(es[0] == Kill(q) || (m && !(q < |s.t| && q < |t.t| && Reaps(s.t, t.t, q))), t, es[1..], q)
  }

  /** What one step does to a slot, as far as kill is concerned. */
  ghost predicate Change(x: seq<Proc>, y: seq<Proc>, q: nat)
    requires q < |x|
  {
    && |y| == |x|
    && (if Reaps(x, y, q) then y[q].pid == 0 && y[q].parent.None? && !y[q].killed else y[q].killed == x[q].killed)
    && (Waiting(y[q], q) ==> Waiting(x[q], q) || !y[q].killed)
  }

  lemma WakeChange(x: seq<Proc>, c: Chan, q: nat)
    requires q < |x|
    ensures Change(x, WakeAll(x, c), q)
  {
  }

  lemma AdoptChange(x: seq<Proc>, p: nat, init: nat, i: nat, q: nat)
    requires i < |x| && q < |x|
    ensures Change(x, Adopt(x, p, init, i), q)
  {
  }

  lemma WaitChange(s: State, p: nat, i: nat, h: bool, q: nat)
    requires p < |s.t| == |s.pcs| && q < |s.t| && StepWait(s, p, i, h).Next?
    ensures Change(s.t, StepWait(s, p, i, h).s.t, q)
  {
  }

  lemma ExitChange(s: State, p: nat, i: nat, q: nat)
    requires p < |s.t| == |s.pcs| && q < |s.t| && StepExit(s, p, i).Next?
    ensures Change(s.t, StepExit(s, p, i).s.t, q)
  {
    hide Adopt;
    if i < |s.t| {
      AdoptChange(s.t, p, s.init, i, q);
    }
  }

  lemma StepChange(s: State, p: nat, q: nat)
    requires q < |s.t| && DoStep(s, p).Next?
    ensures Change(s.t, DoStep(s, p).s.t, q)
  {
    hide StepWait, StepExit, WakeAll, Change;
    match s.pcs[p]
    case ExitWant => ParentChange(s.t, p, q);
    case ExitScan(i) => ExitChange(s, p, i, q);
    case WaitScan(i, h) => WaitChange(s, p, i, h, q);
    case _ => NoChange(s.t, q);
  }

  lemma ParentChange(x: seq<Proc>, p: nat, q: nat)
    requires p < |x| && q < |x|
    ensures Change(x, WakeParent(x, p), q)
  {
  }

  lemma NoChange(x: seq<Proc>, q: nat)
    requires q < |x|
    ensures Change(x, x, q)
  {
  }

  /** A slot that gets another state keeps the rest. */
  lemma SlotChange(x: seq<Proc>, k: nat, r: Proc, q: nat)
    requires k < |x| && q < |x| && r.killed == x[k].killed && (x[k].state.Zombie? ==> !r.state.Unused?)
    requires Waiting(r, k) ==> Waiting(x[k], k)
    ensures Change(x, x[k := r], q)
  {
  }

  lemma ForkChange(s: State, e: Event, q: nat)
    requires Inv(s) && q < |s.t| && Do(s, e).Next? && (e.Fork? || e.ForkFails? || e.SetParent? || e.Publish?)
    ensures Change(s.t, Do(s, e).s.t, q)
  {
    hide Change, Inv;
    if !e.Fork? {
      FillingSlot(s, e.p);
    }
    var k := if e.Fork? then e.q else s.pcs[e.p].child;
    SlotChange(s.t, k, Do(s, e).s.t[k], q);
  }

  lemma RestChange(s: State, e: Event, q: nat)
    requires q < |s.t| && Do(s, e).Next? && (e.Exit? || e.Wait? || e.Nap? || e.Yield? || e.Schedule?)
    ensures Change(s.t, Do(s, e).s.t, q)
  {
    hide Change;
    if e.Exit? || e.Wait? {
      NoChange(s.t, q);
    } else {
      SlotChange(s.t, e.p, Do(s, e).s.t[e.p], q);
    }
  }

  lemma OneChange(s: State, e: Event, q: nat)
    requires Inv(s) && q < |s.t| && Do(s, e).Next? && e != Kill(q)
    ensures Change(s.t, Do(s, e).s.t, q)
  {
    hide Change, Inv, WakeAll;
    match e
    case Step(p) => StepChange(s, p, q);
    case Wakeup(n) => WakeChange(s.t, Other(n), q);
    case Kill(k) => KillOther(s.t, k, q);
    case _ =>
      if e.Fork? || e.ForkFails? || e.SetParent? || e.Publish? {
        ForkChange(s, e, q);
      } else {
        RestChange(s, e, q);
      }
  }

  lemma KillOther(x: seq<Proc>, k: nat, q: nat)
    requires k < |x| && q < |x| && k != q
    ensures Change(x, x[k := Struck(x[k])], q)
  {
  }

  lemma KillsSlot(s: State, q: nat)
    requires Do(s, Kill(q)).Next?
    ensures var t := Do(s, Kill(q)).s; q < |s.t| == |t.t| && t.t[q].killed && !t.t[q].state.Sleeping?
  {
  }

  lemma MarkedNext(m: bool, s: State, es: seq<Event>, q: nat)
    requires es != [] && Do(s, es[0]).Next? && q < |s.t| && q < |Do(s, es[0]).s.t|
    ensures var t := Do(s, es[0]).s;
      Marked(m, s, es, q) == Marked(es[0] == Kill(q) || (m && !Reaps(s.t, t.t, q)), t, es[1..], q)
  {
    hide Do, Reaps;
  }

  lemma {:induction false} MarkRuns(s: State, es: seq<Event>, t: State, q: nat)
    requires Inv(s) && Reaches(s, es, t) && q < |s.t| && (Waiting(s.t[q], q) ==> !s.t[q].killed)
    ensures q < |t.t| && t.t[q].killed == Marked(s.t[q].killed, s, es, q)
    ensures Waiting(t.t[q], q) ==> !t.t[q].killed
    decreases |es|
  {
    hide Inv, Do, Marked;
    if es == [] {
      assert Marked(s.t[q].killed, s, es, q) == s.t[q].killed by { MarkedNone(s.t[q].killed, s, q); }
    } else {
      var s1 := Do(s, es[0]).s;
      DoKeeps(s, es[0]);
      if es[0] == Kill(q) {
        KillsSlot(s, q);
      } else {
        OneChange(s, es[0], q);
      }
      MarkRuns(s1, es[1..], t, q);
      MarkedNext(s.t[q].killed, s, es, q);
    }
  }

  lemma MarkedNone(m: bool, s: State, q: nat)
    ensures Marked(m, s, [], q) == m
  {
  }

  /**
   In every run a slot's process is marked killed exactly if kill has struck the slot since it was last
   reaped, or ever, if it was not.
   */
  lemma KilledExactly(s: State, es: seq<Event>, t: State, q: nat)
    requires Initial(s) && Reaches(s, es, t) && q < |s.t| && !s.t[q].killed
    ensures q < |t.t| && t.t[q].killed == Marked(false, s, es, q)
  {
    hide Inv, Do, Marked, Reaches, Initial;
    InitialKeeps(s);
    MarkRuns(s, es, t, q);
  }

  /** Nobody who is killed is asleep in wait(), so kill is never missed there. */
  lemma KilledIsAwake(s: State, es: seq<Event>, t: State, q: nat)
    requires Initial(s) && Reaches(s, es, t) && q < |s.t|
    ensures q < |t.t| && (t.t[q].killed ==> !Waiting(t.t[q], q))
  {
    InitialKeeps(s);
    MarkRuns(s, es, t, q);
  }

  // ---------------------------------------------------------------- a killed process in wait()

  lemma {:induction false} ScanEnds(s: State, p: nat, i: nat, h: bool)
    requires Runs(s, p) && s.pcs[p] == WaitScan(i, h) && i <= |s.t| && s.t[p].killed
    requires forall j :: i <= j < |s.t| ==> !ZombieOf(s.t[j], p)
    ensures Reaches(s, Steps(p, |s.t| - i + 1), At(s, p, Out).(lock := Free))
    decreases |s.t| - i
  {
    var t := At(s, p, Out).(lock := Free);
    var s1 := Do(s, Step(p)).s;
    if i == |s.t| {
      OneMore(s, Step(p), [], t);
    } else {
      assert !ZombieOf(s.t[i], p);
      ScanEnds(s1, p, i + 1, s1.pcs[p].havekids);
      assert At(s1, p, Out) == At(s, p, Out);
      OneMore(s, Step(p), Steps(p, |s.t| - i), t);
    }
  }

  /** Kill a process that sleeps in wait(): once it is scheduled, its scan comes to the end and wait() returns. */
  lemma KilledWaitReturns(s: State, q: nat)
    requires Inv(s) && q < |s.t| && Waiting(s.t[q], q) && s.pcs[q].InWait? && Do(s, Kill(q)).Next?
    ensures exists t :: Reaches(s, [Kill(q), Schedule(q)] + Steps(q, |s.t| + 1), t) && Runs(t, q)
                        && t.pcs[q].Out? && t.lock.Free? && t.t[q].killed
  {
    hide Steps, Reaches, Parented, ParentsLive, Pids, Forkers, ForksApart, Scans, Embryos;
    var s1 := Do(s, Kill(q)).s;
    var s2 := Do(s1, Schedule(q)).s;
    forall j | 0 <= j < |s2.t| ensures !ZombieOf(s2.t[j], q) {
      assert !ZombieOf(s.t[j], q);
    }
    var t := At(s2, q, Out).(lock := Free);
    ScanEnds(s2, q, 0, false);
    OneMore(s1, Schedule(q), Steps(q, |s.t| + 1), t);
    OneMore(s, Kill(q), [Schedule(q)] + Steps(q, |s.t| + 1), t);
    assert [Kill(q)] + ([Schedule(q)] + Steps(q, |s.t| + 1)) == [Kill(q), Schedule(q)] + Steps(q, |s.t| + 1);
  }

  // ---------------------------------------------------------------- born killed

  /**
   kill does not look at the state of the slot it finds. Unused slots have pid 0, so kill(0) marks one; nothing
   clears the mark until the slot is reaped, and the process that gets the slot is born killed.
   */
  lemma BornKilled(s: State)
    requires Initial(s) && |s.t| >= 2
    ensures var q := if s.init == 0 then 1 else 0;
      var es := [Kill(q), Schedule(s.init), Fork(s.init, q), SetParent(s.init), Publish(s.init)];
      s.t[q].state.Unused? && exists t :: Reaches(s, es, t) && q < |t.t| && t.t[q].state.Runnable?
                                          && t.t[q].killed && t.t[q].parent == Some(s.init)
  {
    hide Reaches, Do, Initial;
    var i := s.init;
    var q := if i == 0 then 1 else 0;
    var rest := [Fork(i, q), SetParent(i), Publish(i)];
    MarksUnused(s, q);
    var s1 := Do(s, Kill(q)).s;
    var s2 := Do(s1, Schedule(i)).s;
    var t := BornLast(s2, q);
    OneMore(s1, Schedule(i), rest, t);
    OneMore(s, Kill(q), [Schedule(i)] + rest, t);
    assert [Kill(q)] + ([Schedule(i)] + rest) == [Kill(q), Schedule(i), Fork(i, q), SetParent(i), Publish(i)];
  }

  /** kill(0) strikes the first slot but init's; then init gets a CPU. */
  lemma MarksUnused(s: State, q: nat)
    requires Initial(s) && |s.t| >= 2 && q == if s.init == 0 then 1 else 0
    ensures s.t[q].state.Unused? && Do(s, Kill(q)).Next? && Do(Do(s, Kill(q)).s, Schedule(s.init)).Next?
    ensures var t := Do(Do(s, Kill(q)).s, Schedule(s.init)).s;
      && t.init == s.init && Runs(t, s.init) && t.pcs[s.init].Out? && t.lock.Free? && q < |t.t| && q != s.init
      && t.t[q].state.Unused? && t.t[q].killed && forall j :: 0 <= j < q ==> !t.t[j].state.Unused?
  {
  }

  lemma BornLast(s: State, q: nat) returns (t: State)
    requires Runs(s, s.init) && s.pcs[s.init].Out? && s.lock.Free? && q < |s.t| && q != s.init
    requires s.t[q].state.Unused? && s.t[q].killed && forall j :: 0 <= j < q ==> !s.t[j].state.Unused?
    ensures Reaches(s, [Fork(s.init, q), SetParent(s.init), Publish(s.init)], t)
    ensures q < |t.t| && t.t[q].state.Runnable? && t.t[q].killed && t.t[q].parent == Some(s.init)
  {
    var i := s.init;
    var s1 := Do(s, Fork(i, q)).s;
    var s2 := Do(s1, SetParent(i)).s;
    t := Do(s2, Publish(i)).s;
    OneMore(s2, Publish(i), [], t);
    OneMore(s1, SetParent(i), [Publish(i)] + [], t);
    OneMore(s, Fork(i, q), [SetParent(i)] + ([Publish(i)] + []), t);
    assert [Fork(i, q)] + ([SetParent(i)] + ([Publish(i)] + [])) == [Fork(i, q), SetParent(i), Publish(i)];
  }
}
