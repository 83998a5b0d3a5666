/**
 Processes that fork, exit, wait, sleep and are killed, in any interleaving. ptable.lock is held
 through the loops of exit and wait, one slot a step; fork writes to its new slot without the lock.
 */
module ProcRuns {
  import opened Options
  import opened ProcTable

  /** Where a process is in the code of proc.c; it may have been put to sleep or off the CPU there. */
  datatype Pc =
    | Out                              // not in fork, exit or wait
    | ForkFill(child: nat)             // allocproc has given it a slot
    | ForkLinked(child: nat)           // np->parent is set
    | ExitWant
    | ExitScan(i: nat)                 // holds the lock, has dealt with slots below i
    | WaitWant
    | WaitScan(i: nat, havekids: bool) // holds the lock, has looked at slots below i
    | InWait                           // called sleep from wait

  datatype Lock = Free | Held(who: nat)

  datatype State = State(t: seq<Proc>, pcs: seq<Pc>, lock: Lock, nextpid: nat, init: nat)

  datatype Event =
    | Fork(p: nat, q: nat) | ForkFails(p: nat) | SetParent(p: nat) | Publish(p: nat)
    | Exit(p: nat) | Wait(p: nat) | Step(p: nat)
    | Nap(p: nat, n: nat) | Yield(p: nat) | Schedule(p: nat)
    | Wakeup(n: nat) | Kill(q: nat)

  datatype Result = Disabled | Next(s: State)

  predicate HoldsLock(pc: Pc) { pc.ExitScan? || pc.WaitScan? }

  /** `p` is on a CPU. */
  predicate Runs(s: State, p: nat) { p < |s.t| == |s.pcs| && s.t[p].state.Running? }

  function At(s: State, p: nat, pc: Pc): State
    requires p < |s.pcs|
  {
    s.(pcs := s.pcs[p := pc])
  }

  // ---------------------------------------------------------------- fork

  /** allocproc took slot `q`, the first unused one. */
  function DoFork(s: State, p: nat, q: nat): Result
  {
    if !Runs(s, p) || !s.pcs[p].Out? || s.lock.Held? || q >= |s.t| || !s.t[q].state.Unused? then Disabled
    else if exists j :: 0 <= j < q && s.t[j].state.Unused? then Disabled
    else Next(At(s, p, ForkFill(q)).(t := s.t[q := s.t[q].(state := Embryo, pid := s.nextpid)],
        nextpid := s.nextpid + 1))
  }

  /** No kernel stack or no memory for the child: the slot is given back, without the lock. */
  function DoForkFails(s: State, p: nat): Result
  {
    if !Runs(s, p) || !s.pcs[p].ForkFill? || s.pcs[p].child >= |s.t| then Disabled
    else Next(At(s, p, Out).(t := s.t[s.pcs[p].child := s.t[s.pcs[p].child].(state := Unused)]))
  }

  /** `np->parent = curproc`, without the lock. */
  function DoSetParent(s: State, p: nat): Result
  {
    if !Runs(s, p) || !s.pcs[p].ForkFill? || s.pcs[p].child >= |s.t| then Disabled
    else
      var q := s.pcs[p].child;
      Next(At(s, p, ForkLinked(q)).(t := s.t[q := s.t[q].(parent := Some(p))]))
  }

  /** `np->state = RUNNABLE`, under the lock. */
  function DoPublish(s: State, p: nat): Result
  {
    if !Runs(s, p) || !s.pcs[p].ForkLinked? || s.pcs[p].child >= |s.t| || s.lock.Held? then Disabled
    else Next(At(s, p, Out).(t := s.t[s.pcs[p].child := s.t[s.pcs[p].child].(state := Runnable)]))
  }

  // ---------------------------------------------------------------- exit and wait

  function StepExit(s: State, p: nat, i: nat): Result
    requires p < |s.t| == |s.pcs|
  {
    if i > |s.t| then Disabled
    else if i < |s.t| then Next(At(s, p, ExitScan(i + 1)).(t := Adopt(s.t, p, s.init, i)))
    else Next(At(s, p, Out).(t := s.t[p := s.t[p].(state := Zombie)], lock := Free))
  }

  function StepWait(s: State, p: nat, i: nat, havekids: bool): Result
    requires p < |s.t| == |s.pcs|
  {
    if i > |s.t| then Disabled
    else if i < |s.t| then
      if s.t[i].parent != Some(p) then Next(At(s, p, WaitScan(i + 1, havekids)))
      else if s.t[i].state.Zombie? then Next(At(s, p, Out).(t := s.t[i := Reaped(s.t[i])], lock := Free))
      else Next(At(s, p, WaitScan(i + 1, true)))
    else if !havekids || s.t[p].killed then Next(At(s, p, Out).(lock := Free))
    else Next(At(s, p, InWait).(t := s.t[p := s.t[p].(state := Sleeping, chan := Some(WaitOn(p)))], lock := Free))
  }

  function DoStep(s: State, p: nat): Result
  {
    if !Runs(s, p) then Disabled
    else match s.pcs[p]
      case ExitWant => if s.lock.Held? then Disabled
          else Next(At(s, p, ExitScan(0)).(t := WakeParent(s.t, p), lock := Held(p)))
      case ExitScan(i) => StepExit(s, p, i)
      case WaitWant => if s.lock.Held? then Disabled else Next(At(s, p, WaitScan(0, false)).(lock := Held(p)))
      case WaitScan(i, h) => StepWait(s, p, i, h)
      case _ => Disabled
  }

  function DoCall(s: State, p: nat, pc: Pc): Result
  {
    if !Runs(s, p) || !s.pcs[p].Out? || (pc.ExitWant? && p == s.init) then Disabled else Next(At(s, p, pc))
  }

  // ---------------------------------------------------------------- sleeping and running

  /** sleep on anything but wait()'s channel. */
  function DoNap(s: State, p: nat, n: nat): Result
  {
    if !Runs(s, p) || HoldsLock(s.pcs[p]) || s.lock.Held? then Disabled
    else Next(s.(t := s.t[p := s.t[p].(state := Sleeping, chan := Some(Other(n)))]))
  }

  function DoYield(s: State, p: nat): Result
  {
    if !Runs(s, p) || HoldsLock(s.pcs[p]) || s.lock.Held? then Disabled
    else Next(s.(t := s.t[p := s.t[p].(state := Runnable)]))
  }

  /** The scheduler switches to `p`; a process that slept in wait() goes on with the lock held. */
  function DoSchedule(s: State, p: nat): Result
  {
    if p >= |s.t| || |s.t| != |s.pcs| || !s.t[p].state.Runnable? || s.lock.Held? then Disabled
    else
      var r := s.(t := s.t[p := s.t[p].(state := Running, chan := None)]);
      if s.pcs[p].InWait? then Next(At(r, p, WaitScan(0, false)).(lock := Held(p))) else Next(r)
  }

  /** kill finds slot `q`, the first with its pid. */
  function DoKill(s: State, q: nat): Result
  {
    if q >= |s.t| || s.lock.Held? || (exists j :: 0 <= j < q && s.t[j].pid == s.t[q].pid) then Disabled
    else Next(s.(t := s.t[q := Struck(s.t[q])]))
  }

  function Do(s: State, e: Event): Result
  {
    match e
    case Fork(p, q) => DoFork(s, p, q)
    case ForkFails(p) => DoForkFails(s, p)
    case SetParent(p) => DoSetParent(s, p)
    case Publish(p) => DoPublish(s, p)
    case Exit(p) => DoCall(s, p, ExitWant)
    case Wait(p) => DoCall(s, p, WaitWant)
    case Step(p) => DoStep(s, p)
    case Nap(p, n) => DoNap(s, p, n)
    case Yield(p) => DoYield(s, p)
    case Schedule(p) => DoSchedule(s, p)
    case Wakeup(n) => if s.lock.Held? then Disabled else Next(s.(t := WakeAll(s.t, Other(n))))
    case Kill(q) => DoKill(s, q)
  }

  /** After userinit: one process, runnable, with pid 1 and no parent; all other slots unused. */
  predicate Initial(s: State)
  {
    && s.init < |s.t| == |s.pcs| && s.lock == Free && s.nextpid == 2
    && s.t[s.init] == Proc(Runnable, 1, None, None, false)
    && (forall q :: 0 <= q < |s.t| && q != s.init ==> s.t[q].state.Unused? && s.t[q].pid == 0 && s.t[q].parent.None?)
    && (forall q :: 0 <= q < |s.t| ==> s.pcs[q].Out?)
  }

  // ---------------------------------------------------------------- what every step keeps

  /** Used slots other than init have a parent. */
  ghost predicate Parented(t: seq<Proc>, init: nat)
  {
    && init < |t| && Alive(t[init]) && t[init].parent.None?
    && forall q :: 0 <= q < |t| && q != init && Used(t[q]) ==> t[q].parent.Some? && t[q].parent.value < |t|
  }

  /** Parents are alive, and older than their children. */
  ghost predicate ParentsLive(t: seq<Proc>, init: nat)
  {
    forall q, r :: 0 <= q < |t| && 0 <= r < |t| && q != init && Used(t[q]) && t[q].parent == Some(r) ==>
      Alive(t[r]) && t[r].pid < t[q].pid
  }

  /** pids in use are distinct, and that of init is the lowest. */
  ghost predicate Pids(t: seq<Proc>, init: nat, nextpid: nat)
  {
    && init < |t| && (forall q :: 0 <= q < |t| ==> t[q].pid < nextpid)
    && (forall q, r :: 0 <= q < r < |t| && t[q].pid == t[r].pid ==> t[q].pid == 0)
    && (forall q :: 0 <= q < |t| && q != init && !t[q].state.Unused? ==> t[init].pid < t[q].pid)
  }

  predicate InFork(pc: Pc) { pc.ForkFill? || pc.ForkLinked? }

  predicate Forks(pc: Pc, q: nat) { InFork(pc) && pc.child == q }

  /** An unused slot has no parent, and an embryo none but the process that is forking it. */
  ghost predicate Embryos(t: seq<Proc>, pcs: seq<Pc>)
  {
    && |pcs| == |t|
    && (forall q :: 0 <= q < |t| && t[q].state.Unused? ==> t[q].parent.None?)
    && (forall q :: 0 <= q < |t| && t[q].state.Embryo? && t[q].parent.Some? ==> t[q].parent.value < |t|)
    && (forall q, r :: 0 <= q < |t| && 0 <= r < |t| && t[q].state.Embryo? && t[q].parent == Some(r) ==>
         pcs[r] == ForkLinked(q))
  }

  /** The slot that process `r` is filling is an embryo younger than `r`. */
  predicate Filling(child: Proc, forker: Proc, pc: Pc, r: nat)
  {
    && child.state.Embryo? && Alive(forker) && forker.pid < child.pid
    && child.parent == if pc.ForkFill? then None else Some(r)
  }

  ghost predicate Forkers(t: seq<Proc>, pcs: seq<Pc>)
  {
    |pcs| == |t| && forall q, r :: 0 <= q < |t| && 0 <= r < |t| && Forks(pcs[r], q) ==> Filling(t[q], t[r], pcs[r], r)
  }

  /** No two forks fill the same slot. */
  ghost predicate ForksApart(pcs: seq<Pc>)
  {
    && (forall r :: 0 <= r < |pcs| && InFork(pcs[r]) ==> pcs[r].child < |pcs|)
    && (forall r, o :: 0 <= r < |pcs| && 0 <= o < |pcs| && r != o && InFork(pcs[r]) && InFork(pcs[o]) ==>
         pcs[r].child != pcs[o].child)
  }

  ghost predicate Locks(t: seq<Proc>, pcs: seq<Pc>, lock: Lock)
  {
    && |pcs| == |t|
    && forall p :: 0 <= p < |t| ==>
         && (HoldsLock(pcs[p]) <==> lock == Held(p))
         && (HoldsLock(pcs[p]) ==> t[p].state.Running?)
         && (!Alive(t[p]) ==> pcs[p].Out?)
         && (pcs[p].InWait? ==> t[p].state.Sleeping? || t[p].state.Runnable?)
  }

  /** Asleep in wait(). */
  predicate Waiting(q: Proc, p: nat) { q.state.Sleeping? && q.chan == Some(WaitOn(p)) }

  predicate ZombieOf(q: Proc, p: nat) { q.state.Zombie? && q.parent == Some(p) }

  ghost predicate NoneLost(t: seq<Proc>)
  {
    forall p, q :: 0 <= p < |t| && 0 <= q < |t| && Waiting(t[p], p) ==> !ZombieOf(t[q], p)
  }

  /** What the holder of the lock knows in the middle of its loop. */
  ghost predicate Scanning(t: seq<Proc>, pc: Pc, p: nat, init: nat)
  {
    match pc
    case ExitScan(i) =>
      && i <= |t| && p < |t| && p != init && (forall j :: 0 <= j < i ==> t[j].parent != Some(p))
      && (forall r :: 0 <= r < |t| && t[p].parent == Some(r) ==> !Waiting(t[r], r))
    case WaitScan(i, h) =>
      && i <= |t| && (forall j :: 0 <= j < i ==> !ZombieOf(t[j], p))
      && (h <==> exists j :: 0 <= j < i && t[j].parent == Some(p))
    case ExitWant => p != init
    case _ => true
  }

  ghost predicate Scans(t: seq<Proc>, pcs: seq<Pc>, init: nat)
  {
    |pcs| == |t| && forall p :: 0 <= p < |t| ==> Scanning(t, pcs[p], p, init)
  }

  ghost predicate Inv(s: State)
  {
    && Parented(s.t, s.init) && ParentsLive(s.t, s.init) && Pids(s.t, s.init, s.nextpid)
    && Embryos(s.t, s.pcs) && Forkers(s.t, s.pcs) && ForksApart(s.pcs)
    && Locks(s.t, s.pcs, s.lock) && NoneLost(s.t) && Scans(s.t, s.pcs, s.init)
  }

  // ---------------------------------------------------------------- one slot changes

  lemma SlotParented(t: seq<Proc>, init: nat, q: nat, x: Proc)
    requires Parented(t, init) && q < |t| && (q == init ==> Alive(x) && x.parent.None?)
    requires q != init && Used(x) ==> x.parent.Some? && x.parent.value < |t|
    ensures Parented(t[q := x], init)
  {
  }

  /** No used slot names `p` as its parent. */
  ghost predicate Childless(t: seq<Proc>, p: nat) { forall j :: 0 <= j < |t| && Used(t[j]) ==> t[j].parent != Some(p) }

  lemma SlotParentsLive(t: seq<Proc>, init: nat, q: nat, x: Proc)
    requires ParentsLive(t, init) && q < |t|
    requires (Alive(x) && x.pid == t[q].pid) || Childless(t, q)
    requires q != init && Used(x) ==>
              forall r :: 0 <= r < |t| && x.parent == Some(r) ==> r != q && Alive(t[r]) && t[r].pid < x.pid
    ensures ParentsLive(t[q := x], init)
  {
  }

  lemma SlotPids(t: seq<Proc>, init: nat, next: nat, q: nat, x: Proc, next': nat)
    requires Pids(t, init, next) && q < |t| && next <= next' && x.pid < next'
    requires x.pid == t[q].pid || (q != init && (x.pid == 0 || x.pid == next > 0))
    requires q != init && !x.state.Unused? ==> t[init].pid < x.pid
    ensures Pids(t[q := x], init, next')
  {
  }

  lemma SlotNoneLost(t: seq<Proc>, q: nat, x: Proc)
    requires NoneLost(t) && q < |t|
    requires Waiting(x, q) ==> !ZombieOf(x, q) && (Waiting(t[q], q) || forall j :: 0 <= j < |t| ==> !ZombieOf(t[j], q))
    requires forall p :: 0 <= p < |t| && ZombieOf(x, p) ==> !Waiting(t[p], p)
    ensures NoneLost(t[q := x])
  {
  }

  /** A slot that is no child of the process that scans changes, or changes into no zombie child of it. */
  lemma SlotScanning(t: seq<Proc>, pc: Pc, p: nat, init: nat, q: nat, x: Proc)
    requires Scanning(t, pc, p, init) && q < |t| && p < |t|
    requires Waiting(x, q) ==> Waiting(t[q], q)
    requires HoldsLock(pc) ==>
              (x.parent == Some(p) <==> t[q].parent == Some(p)) && (ZombieOf(x, p) ==> ZombieOf(t[q], p))
    requires p == q ==> x.parent == t[q].parent
    ensures Scanning(t[q := x], pc, p, init)
  {
    var u := t[q := x];
    match pc
    case WaitScan(i, h) =>
      if h {
        var j :| 0 <= j < i && t[j].parent == Some(p);
        assert u[j].parent == Some(p);
      } else {
        forall j | 0 <= j < i ensures u[j].parent != Some(p) {
          assert t[j].parent != Some(p);
        }
      }
    case _ =>
  }

  // ---------------------------------------------------------------- live processes change state

  /** States change only among the live ones. */
  ghost predicate Kin(t: seq<Proc>, u: seq<Proc>)
  {
    |u| == |t| && forall q :: 0 <= q < |t| ==>
      u[q].parent == t[q].parent && u[q].pid == t[q].pid && (u[q].state == t[q].state || (Alive(u[q]) && Alive(t[q])))
  }

  /** And nobody starts to wait. */
  ghost predicate Calm(t: seq<Proc>, u: seq<Proc>)
  {
    Kin(t, u) && forall q :: 0 <= q < |t| && Waiting(u[q], q) ==> Waiting(t[q], q)
  }

  lemma CalmScanning(t: seq<Proc>, u: seq<Proc>, pc: Pc, p: nat, init: nat)
    requires Calm(t, u) && Scanning(t, pc, p, init)
    ensures Scanning(u, pc, p, init)
  {
    match pc
    case WaitScan(i, h) =>
      if h {
        var j :| 0 <= j < i && t[j].parent == Some(p);
        assert u[j].parent == Some(p);
      }
    case _ =>
  }

  lemma KinKeeps(t: seq<Proc>, u: seq<Proc>, init: nat, next: nat)
    requires Kin(t, u)
    ensures Parented(t, init) ==> Parented(u, init)
    ensures ParentsLive(t, init) ==> ParentsLive(u, init)
    ensures Pids(t, init, next) ==> Pids(u, init, next)
  {
  }

  lemma KinForks(t: seq<Proc>, u: seq<Proc>, pcs: seq<Pc>)
    requires Kin(t, u) && Embryos(t, pcs) && Forkers(t, pcs)
    ensures Embryos(u, pcs) && Forkers(u, pcs)
  {
    forall c, r | 0 <= c < |u| && 0 <= r < |u| && u[c].state.Embryo? && u[c].parent == Some(r)
      ensures pcs[r] == ForkLinked(c) {
      assert t[c].state.Embryo? && t[c].parent == Some(r);
    }
    forall c, r | 0 <= c < |u| && 0 <= r < |u| && Forks(pcs[r], c)
      ensures Filling(u[c], u[r], pcs[r], r)
    {
      assert Filling(t[c], t[r], pcs[r], r);
    }
  }

  lemma CalmNoneLost(t: seq<Proc>, u: seq<Proc>)
    requires Calm(t, u) && NoneLost(t)
    ensures NoneLost(u)
  {
  }

  lemma CalmScans(t: seq<Proc>, u: seq<Proc>, pcs: seq<Pc>, init: nat)
    requires Calm(t, u) && Scans(t, pcs, init)
    ensures Scans(u, pcs, init)
  {
    hide Calm, Scanning;
    assert |u| == |t| by { CalmLength(t, u); }
    forall p | 0 <= p < |t| ensures Scanning(u, pcs[p], p, init) {
      CalmScanning(t, u, pcs[p], p, init);
    }
  }

  lemma CalmLength(t: seq<Proc>, u: seq<Proc>)
    requires Calm(t, u)
    ensures |u| == |t|
  {
  }

  // ---------------------------------------------------------------- one process moves on

  /** `p` moves between places outside fork. */
  lemma MoveForks(t: seq<Proc>, pcs: seq<Pc>, p: nat, pc: Pc)
    requires Embryos(t, pcs) && Forkers(t, pcs) && ForksApart(pcs) && p < |pcs| && !InFork(pc) && !InFork(pcs[p])
    ensures Embryos(t, pcs[p := pc]) && Forkers(t, pcs[p := pc]) && ForksApart(pcs[p := pc])
  {
    var pcs' := pcs[p := pc];
    forall q, r | 0 <= q < |t| && 0 <= r < |t| && t[q].state.Embryo? && t[q].parent == Some(r)
      ensures pcs'[r] == ForkLinked(q) {
      assert pcs[r] == ForkLinked(q);
    }
    forall q, r | 0 <= q < |t| && 0 <= r < |t| && Forks(pcs'[r], q) ensures Forks(pcs[r], q) && pcs'[r] == pcs[r] {}
  }

  lemma MoveScans(t: seq<Proc>, pcs: seq<Pc>, init: nat, p: nat, pc: Pc)
    requires Scans(t, pcs, init) && p < |pcs| && Scanning(t, pc, p, init)
    ensures Scans(t, pcs[p := pc], init)
  {
    hide Scanning;
  }

  /** A step in which the table changes calmly and `p`, outside fork, moves to `pc`. */
  lemma CalmMove(s: State, u: seq<Proc>, p: nat, pc: Pc, lock: Lock)
    requires Inv(s) && Calm(s.t, u) && p < |s.pcs| && Locks(u, s.pcs[p := pc], lock) && Scanning(u, pc, p, s.init)
    requires pc == s.pcs[p] || (!InFork(pc) && !InFork(s.pcs[p]))
    ensures Inv(State(u, s.pcs[p := pc], lock, s.nextpid, s.init))
  {
    hide Kin, Parented, ParentsLive, Pids, NoneLost, Embryos, Forkers, ForksApart, Locks, Scanning, Scans;
    KinKeeps(s.t, u, s.init, s.nextpid);
    KinForks(s.t, u, s.pcs);
    CalmNoneLost(s.t, u);
    CalmScans(s.t, u, s.pcs, s.init);
    MoveScans(u, s.pcs, s.init, p, pc);
    if pc == s.pcs[p] {
      assert s.pcs[p := pc] == s.pcs;
    } else {
      MoveForks(u, s.pcs, p, pc);
    }
  }

  /** All others that are alive keep their state, except that they may be woken. */
  ghost predicate OthersRest(t: seq<Proc>, u: seq<Proc>, p: nat)
  {
    |u| == |t| && forall q :: 0 <= q < |t| && q != p ==>
      u[q].state == t[q].state || (t[q].state.Sleeping? && u[q].state.Runnable?) || !Alive(t[q])
  }

  /** A lock that `p` took, let go, or left alone. */
  predicate LockMove(l: Lock, m: Lock, p: nat)
  {
    m == l || ((l == Free || l == Held(p)) && (m == Free || m == Held(p)))
  }

  /** What `Locks` says of one process. */
  predicate LockOk(q: Proc, pc: Pc, p: nat, lock: Lock)
  {
    && (HoldsLock(pc) <==> lock == Held(p)) && (HoldsLock(pc) ==> q.state.Running?) && (!Alive(q) ==> pc.Out?)
    && (pc.InWait? ==> q.state.Sleeping? || q.state.Runnable?)
  }

  lemma LocksMove(t: seq<Proc>, pcs: seq<Pc>, lock: Lock, u: seq<Proc>, p: nat, pc: Pc, lock': Lock)
    requires Locks(t, pcs, lock) && OthersRest(t, u, p) && LockMove(lock, lock', p) && p < |t|
        && LockOk(u[p], pc, p, lock')
    ensures Locks(u, pcs[p := pc], lock')
  {
  }

  lemma RunsUnlocked(s: State, p: nat)
    requires Inv(s) && Runs(s, p) && !HoldsLock(s.pcs[p])
    ensures s.lock != Held(p) && !s.pcs[p].InWait?
  {
  }

  lemma CallKeeps(s: State, p: nat, pc: Pc)
    requires Inv(s) && DoCall(s, p, pc).Next? && (pc.ExitWant? || pc.WaitWant?)
    ensures Inv(DoCall(s, p, pc).s)
  {
    RunsUnlocked(s, p);
    hide Parented, ParentsLive, Pids, NoneLost, Embryos, Forkers, ForksApart, Scans, Locks;
    LocksMove(s.t, s.pcs, s.lock, s.t, p, pc, s.lock);
    CalmMove(s, s.t, p, pc, s.lock);
  }

  /** `p`, which does not hold the lock, goes from one live state to another, not into wait()'s sleep. */
  lemma RestKeeps(s: State, p: nat, x: Proc)
    requires Inv(s) && p < |s.t| && Calm(s.t, s.t[p := x]) && s.lock != Held(p)
    requires s.pcs[p].InWait? ==> x.state.Sleeping? || x.state.Runnable?
    ensures Inv(s.(t := s.t[p := x]))
  {
    RestScanning(s, p, x);
    assert s.pcs[p := s.pcs[p]] == s.pcs;
    assert LockOk(s.t[p], s.pcs[p], p, s.lock);
    hide Parented, ParentsLive, Pids, NoneLost, Embryos, Forkers, ForksApart, Scans, Scanning, Locks;
    LocksMove(s.t, s.pcs, s.lock, s.t[p := x], p, s.pcs[p], s.lock);
    CalmMove(s, s.t[p := x], p, s.pcs[p], s.lock);
  }

  lemma RestScanning(s: State, p: nat, x: Proc)
    requires Inv(s) && p < |s.t| && Calm(s.t, s.t[p := x])
    ensures Scanning(s.t[p := x], s.pcs[p], p, s.init)
  {
    hide Parented, ParentsLive, Pids, NoneLost, Embryos, Forkers, ForksApart, Scanning, Locks;
    CalmScanning(s.t, s.t[p := x], s.pcs[p], p, s.init);
  }

  lemma NapKeeps(s: State, p: nat, n: nat)
    requires Inv(s) && DoNap(s, p, n).Next?
    ensures Inv(DoNap(s, p, n).s)
  {
    hide Inv;
    RunsUnlocked(s, p);
    RestKeeps(s, p, s.t[p].(state := Sleeping, chan := Some(Other(n))));
  }

  lemma YieldKeeps(s: State, p: nat)
    requires Inv(s) && DoYield(s, p).Next?
    ensures Inv(DoYield(s, p).s)
  {
    hide Inv;
    RunsUnlocked(s, p);
    RestKeeps(s, p, s.t[p].(state := Runnable));
  }

  lemma ResumeWaitKeeps(s: State, p: nat, x: Proc)
    requires Inv(s) && s.lock.Free? && p < |s.t| == |s.pcs| && s.t[p].state.Runnable? && s.pcs[p].InWait?
    requires x == s.t[p].(state := Running, chan := None)
    ensures Inv(State(s.t[p := x], s.pcs[p := WaitScan(0, false)], Held(p), s.nextpid, s.init))
  {
    hide Parented, ParentsLive, Pids, NoneLost, Embryos, Forkers, ForksApart, Scans, Locks;
    LocksMove(s.t, s.pcs, s.lock, s.t[p := x], p, WaitScan(0, false), Held(p));
    CalmMove(s, s.t[p := x], p, WaitScan(0, false), Held(p));
  }

  lemma ScheduleKeeps(s: State, p: nat)
    requires Inv(s) && DoSchedule(s, p).Next?
    ensures Inv(DoSchedule(s, p).s)
  {
    hide Inv;
    var x := s.t[p].(state := Running, chan := None);
    if s.pcs[p].InWait? {
      ResumeWaitKeeps(s, p, x);
    } else {
      RestKeeps(s, p, x);
    }
  }

  lemma FreeMeansNotHeld(s: State, q: nat)
    requires Inv(s) && q < |s.t|
    ensures |s.pcs| == |s.t| && (s.pcs[q].InWait? ==> s.t[q].state.Sleeping? || s.t[q].state.Runnable?)
  {
  }

  lemma KillKeeps(s: State, q: nat)
    requires Inv(s) && DoKill(s, q).Next?
    ensures Inv(DoKill(s, q).s)
  {
    hide Inv;
    FreeMeansNotHeld(s, q);
    RestKeeps(s, q, Struck(s.t[q]));
  }

  lemma WakeCalm(t: seq<Proc>, c: Chan, p: nat)
    ensures Calm(t, WakeAll(t, c)) && OthersRest(t, WakeAll(t, c), p)
  {
  }

  lemma WakeupKeeps(s: State, n: nat)
    requires Inv(s) && s.lock.Free?
    ensures Inv(s.(t := WakeAll(s.t, Other(n))))
  {
    var u := WakeAll(s.t, Other(n));
    FreeMeansNotHeld(s, s.init);
    WakeCalm(s.t, Other(n), s.init);
    CalmScans(s.t, u, s.pcs, s.init);
    assert s.pcs[s.init := s.pcs[s.init]] == s.pcs;
    assert Scanning(u, s.pcs[s.init], s.init, s.init);
    assert LockOk(u[s.init], s.pcs[s.init], s.init, s.lock);
    hide Parented, ParentsLive, Pids, NoneLost, Embryos, Forkers, ForksApart, Scans, Scanning, Locks, Calm, OthersRest;
    LocksMove(s.t, s.pcs, s.lock, u, s.init, s.pcs[s.init], s.lock);
    CalmMove(s, u, s.init, s.pcs[s.init], s.lock);
  }

  lemma ExitStartKeeps(s: State, p: nat)
    requires Inv(s) && Runs(s, p) && s.pcs[p].ExitWant? && s.lock.Free?
    ensures Inv(At(s, p, ExitScan(0)).(t := WakeParent(s.t, p), lock := Held(p)))
  {
    var u := WakeParent(s.t, p);
    WakeParentCalm(s.t, p);
    assert Scanning(s.t, s.pcs[p], p, s.init);
    hide Parented, ParentsLive, Pids, NoneLost, Embryos, Forkers, ForksApart, Scans, Locks, Calm, OthersRest;
    LocksMove(s.t, s.pcs, s.lock, u, p, ExitScan(0), Held(p));
    CalmMove(s, u, p, ExitScan(0), Held(p));
  }

  lemma WakeParentCalm(t: seq<Proc>, p: nat)
    requires p < |t|
    ensures var u := WakeParent(t, p); Calm(t, u) && OthersRest(t, u, p) && (t[p].state.Running? ==> u[p] == t[p])
    ensures forall r :: 0 <= r < |t| && t[p].parent == Some(r) ==> !Waiting(WakeParent(t, p)[r], r)
  {
  }

  lemma WaitStartKeeps(s: State, p: nat)
    requires Inv(s) && Runs(s, p) && s.pcs[p].WaitWant? && s.lock.Free?
    ensures Inv(At(s, p, WaitScan(0, false)).(lock := Held(p)))
  {
    hide Parented, ParentsLive, Pids, NoneLost, Embryos, Forkers, ForksApart, Scans, Locks;
    LocksMove(s.t, s.pcs, s.lock, s.t, p, WaitScan(0, false), Held(p));
    CalmMove(s, s.t, p, WaitScan(0, false), Held(p));
  }

  /** wait's loop goes on, or wait returns -1. */
  lemma WaitMoveKeeps(s: State, p: nat, i: nat, h: bool, pc: Pc, lock: Lock)
    requires Inv(s) && Runs(s, p) && s.pcs[p] == WaitScan(i, h) && Scanning(s.t, pc, p, s.init)
    requires (lock == Free && pc.Out?) || (lock == s.lock && pc.WaitScan?)
    ensures Inv(At(s, p, pc).(lock := lock))
  {
    assert LockOk(s.t[p], s.pcs[p], p, s.lock);
    hide Parented, ParentsLive, Pids, NoneLost, Embryos, Forkers, ForksApart, Scans, Locks, Scanning;
    LocksMove(s.t, s.pcs, s.lock, s.t, p, pc, lock);
    CalmMove(s, s.t, p, pc, lock);
  }

  lemma WaitNextScanning(t: seq<Proc>, p: nat, i: nat, h: bool, init: nat)
    requires Scanning(t, WaitScan(i, h), p, init) && i < |t| && !ZombieOf(t[i], p)
    ensures Scanning(t, WaitScan(i + 1, h || t[i].parent == Some(p)), p, init)
  {
  }

  // ---------------------------------------------------------------- steps of the process that has the lock

  /** While `p` has the lock nobody else is in the middle of a loop. */
  lemma SoloScans(s: State, u: seq<Proc>, p: nat, pc: Pc)
    requires Inv(s) && s.lock == Held(p) && p < |s.t| == |u| && Scanning(u, pc, p, s.init)
    ensures Scans(u, s.pcs[p := pc], s.init)
  {
    hide Parented, ParentsLive, Pids, NoneLost, Embryos, Forkers, ForksApart;
    var pcs := s.pcs[p := pc];
    forall q | 0 <= q < |u| ensures Scanning(u, pcs[q], q, s.init) {
      if q != p {
        assert !HoldsLock(pcs[q]) && Scanning(s.t, pcs[q], q, s.init);
      }
    }
  }

  /** wait() finds living children only, and goes to sleep. */
  lemma WaitSleepKeeps(s: State, p: nat)
    requires Inv(s) && Runs(s, p) && s.pcs[p].WaitScan? && s.pcs[p].i == |s.t|
    ensures Inv(At(s, p, InWait).(t := s.t[p := s.t[p].(state := Sleeping, chan := Some(WaitOn(p)))], lock := Free))
  {
    var x := s.t[p].(state := Sleeping, chan := Some(WaitOn(p)));
    var u := s.t[p := x];
    ScanOf(s, p);
    assert Kin(s.t, u) && OthersRest(s.t, u, p);
    hide Kin, OthersRest, Parented, ParentsLive, Pids, NoneLost, Embryos, Forkers, ForksApart, Locks, Scans;
    KinKeeps(s.t, u, s.init, s.nextpid);
    KinForks(s.t, u, s.pcs);
    MoveForks(u, s.pcs, p, InWait);
    SlotNoneLost(s.t, p, x);
    LocksMove(s.t, s.pcs, s.lock, u, p, InWait, Free);
    SoloScans(s, u, p, InWait);
  }

  lemma ScanOf(s: State, p: nat)
    requires Inv(s) && p < |s.t|
    ensures p < |s.pcs| == |s.t| && Scanning(s.t, s.pcs[p], p, s.init) && LockOk(s.t[p], s.pcs[p], p, s.lock)
  {
    hide Scanning;
  }

  lemma NotAliveChildless(t: seq<Proc>, init: nat, q: nat)
    requires Parented(t, init) && ParentsLive(t, init) && q < |t| && !Alive(t[q])
    ensures q != init && Childless(t, q)
  {
  }

  /** A used slot changes into another, or, if it is a zombie's, into an unused one. */
  predicate PlainChange(q: Proc, x: Proc, pc: Pc)
  {
    && Used(q)
    && if x.state.Unused? then !Alive(q) && x.parent.None?
       else Used(x) && x.pid == q.pid && (Alive(q) && !Alive(x) ==> pc.Out?)
  }

  lemma PlainEmbryos(t: seq<Proc>, pcs: seq<Pc>, q: nat, x: Proc)
    requires Embryos(t, pcs) && q < |t| && PlainChange(t[q], x, pcs[q])
    ensures Embryos(t[q := x], pcs)
  {
    var u := t[q := x];
    forall c, r | 0 <= c < |u| && 0 <= r < |u| && u[c].state.Embryo? && u[c].parent == Some(r)
      ensures pcs[r] == ForkLinked(c) {
      assert c != q && u[c] == t[c];
    }
  }

  lemma PlainForkers(t: seq<Proc>, pcs: seq<Pc>, q: nat, x: Proc)
    requires Forkers(t, pcs) && q < |t| && PlainChange(t[q], x, pcs[q])
    ensures Forkers(t[q := x], pcs)
  {
    var u := t[q := x];
    forall c, r | 0 <= c < |u| && 0 <= r < |u| && Forks(pcs[r], c)
      ensures Filling(u[c], u[r], pcs[r], r)
    {
      assert Filling(t[c], t[r], pcs[r], r);
    }
  }

  lemma ReapKeeps(s: State, p: nat, i: nat)
    requires Inv(s) && Runs(s, p) && s.pcs[p].WaitScan? && i < |s.t| && ZombieOf(s.t[i], p)
    ensures Inv(At(s, p, Out).(t := s.t[i := Reaped(s.t[i])], lock := Free))
  {
    hide Parented, ParentsLive, Pids, NoneLost, Embryos, Forkers, ForksApart, Locks, Scans;
    var x := Reaped(s.t[i]);
    var u := s.t[i := x];
    ScanOf(s, p);
    NotAliveChildless(s.t, s.init, i);
    SlotParented(s.t, s.init, i, x);
    SlotParentsLive(s.t, s.init, i, x);
    PidsPositive(s.t, s.init, s.nextpid);
    SlotPids(s.t, s.init, s.nextpid, i, x, s.nextpid);
    PlainEmbryos(s.t, s.pcs, i, x);
    PlainForkers(s.t, s.pcs, i, x);
    MoveForks(u, s.pcs, p, Out);
    SlotNoneLost(s.t, i, x);
    LocksMove(s.t, s.pcs, s.lock, u, p, Out, Free);
    SoloScans(s, u, p, Out);
  }

  lemma PidsPositive(t: seq<Proc>, init: nat, next: nat)
    requires Pids(t, init, next)
    ensures next > 0
  {
    assert t[init].pid < next;
  }

  /** exit() becomes a zombie. */
  lemma ZombieKeeps(s: State, p: nat)
    requires Inv(s) && Runs(s, p) && s.pcs[p] == ExitScan(|s.t|)
    ensures Inv(At(s, p, Out).(t := s.t[p := s.t[p].(state := Zombie)], lock := Free))
  {
    hide Parented, ParentsLive, Pids, NoneLost, Embryos, Forkers, ForksApart, Locks, Scans;
    var x := s.t[p].(state := Zombie);
    var u := s.t[p := x];
    ScanOf(s, p);
    UsedParent(s, p);
    assert Childless(s.t, p);
    SlotParented(s.t, s.init, p, x);
    SlotParentsLive(s.t, s.init, p, x);
    SlotPids(s.t, s.init, s.nextpid, p, x, s.nextpid);
    MoveForks(s.t, s.pcs, p, Out);
    PlainEmbryos(s.t, s.pcs[p := Out], p, x);
    PlainForkers(s.t, s.pcs[p := Out], p, x);
    SlotNoneLost(s.t, p, x);
    LocksMove(s.t, s.pcs, s.lock, u, p, Out, Free);
    SoloScans(s, u, p, Out);
  }

  lemma UsedParent(s: State, q: nat)
    requires Inv(s) && q < |s.t| && Used(s.t[q]) && q != s.init
    ensures s.t[q].parent.Some? && s.t[q].parent.value < |s.t| && s.t[q].parent.value != q
    ensures s.t[s.init].pid < s.t[q].pid < s.nextpid
    ensures Alive(s.t[s.t[q].parent.value]) && s.t[s.t[q].parent.value].pid < s.t[q].pid
  {
    hide NoneLost, Embryos, Forkers, ForksApart, Locks, Scans;
  }

  /** A child of `p`, seen by exit(), is not an embryo. */
  lemma ChildIsUsed(s: State, p: nat, i: nat)
    requires Inv(s) && p < |s.t| && i < |s.t| && s.pcs[p].ExitScan? && s.t[i].parent == Some(p)
    ensures Used(s.t[i]) && i != s.init && i != p
  {
    hide NoneLost, Forkers, ForksApart, Locks, Scans;
    assert !s.t[i].state.Unused? && !s.t[i].state.Embryo?;
  }

  lemma AdoptScanning(t: seq<Proc>, p: nat, init: nat, i: nat, x: Proc)
    requires Scanning(t, ExitScan(i), p, init) && i < |t| && i != p && x == t[i].(parent := Some(init))
    ensures Scanning(t[i := x], ExitScan(i + 1), p, init)
  {
  }

  /** exit() hands child `i` to init, which is not asleep in wait() if the child is a zombie. */
  lemma HandOverKeeps(s: State, p: nat, i: nat)
    requires Inv(s) && Runs(s, p) && s.pcs[p] == ExitScan(i) && i < |s.t| && s.t[i].parent == Some(p)
    requires s.t[i].state.Zombie? ==> s.init < |s.t| && !Waiting(s.t[s.init], s.init)
    ensures Inv(At(s, p, ExitScan(i + 1)).(t := s.t[i := s.t[i].(parent := Some(s.init))]))
  {
    hide Parented, ParentsLive, Pids, NoneLost, Embryos, Forkers, ForksApart, Locks, Scans, Scanning;
    var x := s.t[i].(parent := Some(s.init));
    var u := s.t[i := x];
    ScanOf(s, p);
    ChildIsUsed(s, p, i);
    UsedParent(s, i);
    InitAlive(s);
    if !Alive(s.t[i]) {
      NotAliveChildless(s.t, s.init, i);
    }
    SlotParented(s.t, s.init, i, x);
    SlotParentsLive(s.t, s.init, i, x);
    SlotPids(s.t, s.init, s.nextpid, i, x, s.nextpid);
    PlainEmbryos(s.t, s.pcs, i, x);
    PlainForkers(s.t, s.pcs, i, x);
    MoveForks(u, s.pcs, p, ExitScan(i + 1));
    SlotNoneLost(s.t, i, x);
    LocksMove(s.t, s.pcs, s.lock, u, p, ExitScan(i + 1), s.lock);
    AdoptScanning(s.t, p, s.init, i, x);
    SoloScans(s, u, p, ExitScan(i + 1));
  }

  lemma InitAlive(s: State)
    requires Inv(s)
    ensures s.init < |s.t| && Alive(s.t[s.init]) && s.t[s.init].parent.None?
  {
    hide ParentsLive, Pids, NoneLost, Embryos, Forkers, ForksApart, Locks, Scans;
  }

  lemma WakeInitKeeps(s: State, p: nat)
    requires Inv(s) && Runs(s, p) && s.pcs[p].ExitScan?
    ensures var u := WakeAll(s.t, WaitOn(s.init));
              && u[p] == s.t[p] && Inv(s.(t := u))
              && (s.init < |s.t| ==> !Waiting(u[s.init], s.init))
  {
    hide Parented, ParentsLive, Pids, NoneLost, Embryos, Forkers, ForksApart, Locks, Scans, Scanning, Kin, OthersRest;
    var u := WakeAll(s.t, WaitOn(s.init));
    ScanOf(s, p);
    WakeCalm(s.t, WaitOn(s.init), p);
    CalmScanning(s.t, u, s.pcs[p], p, s.init);
    LocksMove(s.t, s.pcs, s.lock, u, p, s.pcs[p], s.lock);
    CalmMove(s, u, p, s.pcs[p], s.lock);
    assert s.pcs[p := s.pcs[p]] == s.pcs;
  }

  lemma AdoptKeeps(s: State, p: nat, i: nat)
    requires Inv(s) && Runs(s, p) && s.pcs[p] == ExitScan(i) && i < |s.t|
    ensures Inv(At(s, p, ExitScan(i + 1)).(t := Adopt(s.t, p, s.init, i)))
  {
    hide Inv;
    if s.t[i].parent != Some(p) {
      PassOverKeeps(s, p, i);
    } else if s.t[i].state.Zombie? {
      InitAlive(s);
      WakeInitKeeps(s, p);
      var w := WakeAll(s.t, WaitOn(s.init));
      assert w[i] == s.t[i];
      HandOverKeeps(s.(t := w), p, i);
      WakeCommutes(s.t, i, s.init);
    } else {
      HandOverKeeps(s, p, i);
    }
  }

  lemma WakeCommutes(t: seq<Proc>, i: nat, init: nat)
    requires i < |t| && t[i].state.Zombie?
    ensures WakeAll(t[i := t[i].(parent := Some(init))], WaitOn(init)) == WakeAll(t,
        WaitOn(init))[i := t[i].(parent := Some(init))]
  {
  }

  lemma PassOverKeeps(s: State, p: nat, i: nat)
    requires Inv(s) && Runs(s, p) && s.pcs[p] == ExitScan(i) && i < |s.t| && s.t[i].parent != Some(p)
    ensures Inv(At(s, p, ExitScan(i + 1)))
  {
    hide Parented, ParentsLive, Pids, NoneLost, Embryos, Forkers, ForksApart, Locks, Scans;
    ScanOf(s, p);
    LocksMove(s.t, s.pcs, s.lock, s.t, p, ExitScan(i + 1), s.lock);
    CalmMove(s, s.t, p, ExitScan(i + 1), s.lock);
  }

  // ---------------------------------------------------------------- fork, with or without the lock

  /** Another process's slot `q`, an embryo or unused, changes without becoming anybody's zombie. */
  lemma EmbryoScans(s: State, p: nat, pc: Pc, q: nat, x: Proc)
    requires Inv(s) && Runs(s, p) && q < |s.t| && !Alive(s.t[q]) && !s.t[q].state.Zombie? && !x.state.Zombie?
        && !Waiting(x, q)
    requires !HoldsLock(s.pcs[p]) && !HoldsLock(pc) && !pc.ExitWant?
    requires x.parent == s.t[q].parent || (x.parent == Some(p) && s.t[q].parent.None?)
    ensures Scans(s.t[q := x], s.pcs[p := pc], s.init)
  {
    hide Parented, ParentsLive, Pids, NoneLost, Embryos, Forkers, ForksApart, Scanning;
    var pcs, u := s.pcs[p := pc], s.t[q := x];
    forall r | 0 <= r < |u| ensures Scanning(u, pcs[r], r, s.init) {
      if r != p {
        assert r == q ==> !HoldsLock(pcs[r]) && !pcs[r].ExitWant?;
        OtherScanning(s.t, pcs[r], r, s.init, q, x, p);
      } else {
        NoScanning(u, pc, p, s.init);
      }
    }
  }

  lemma NoScanning(t: seq<Proc>, pc: Pc, p: nat, init: nat)
    requires !HoldsLock(pc) && !pc.ExitWant?
    ensures Scanning(t, pc, p, init)
  {
  }

  lemma OtherScanning(t: seq<Proc>, pc: Pc, r: nat, init: nat, q: nat, x: Proc, p: nat)
    requires Scanning(t, pc, r, init) && q < |t| && r < |t| && r != p && (r == q ==> !HoldsLock(pc) && !pc.ExitWant?)
    requires !x.state.Zombie? && !Waiting(x, q)
        && (x.parent == t[q].parent || (x.parent == Some(p) && t[q].parent.None?))
    ensures Scanning(t[q := x], pc, r, init)
  {
    if r == q {
      NoScanning(t[q := x], pc, r, init);
    } else {
      SlotScanning(t, pc, r, init, q, x);
    }
  }

  lemma ForkKeeps(s: State, p: nat, q: nat)
    requires Inv(s) && DoFork(s, p, q).Next?
    ensures Inv(DoFork(s, p, q).s)
  {
    hide Parented, ParentsLive, Pids, NoneLost, Embryos, Forkers, ForksApart, Locks, Scans;
    var x := s.t[q].(state := Embryo, pid := s.nextpid);
    var u := s.t[q := x];
    ScanOf(s, p);
    NotAliveChildless(s.t, s.init, q);
    PidsPositive(s.t, s.init, s.nextpid);
    InitAlive(s);
    PidBelow(s, p);
    PidBelow(s, s.init);
    SlotParented(s.t, s.init, q, x);
    SlotParentsLive(s.t, s.init, q, x);
    SlotPids(s.t, s.init, s.nextpid, q, x, s.nextpid + 1);
    NewEmbryos(s.t, s.pcs, p, q, x);
    NewForkers(s.t, s.pcs, p, q, x);
    NewForkApart(s.t, s.pcs, p, q, x);
    SlotNoneLost(s.t, q, x);
    LocksMove(s.t, s.pcs, s.lock, u, p, ForkFill(q), s.lock);
    EmbryoScans(s, p, ForkFill(q), q, x);
  }

  lemma PidBelow(s: State, p: nat)
    requires Inv(s) && p < |s.t|
    ensures s.t[p].pid < s.nextpid
  {
    hide ParentsLive, NoneLost, Embryos, Forkers, ForksApart, Locks, Scans;
  }

  /** `p` starts a fork into the unused slot `q`. */
  ghost predicate StartsFork(t: seq<Proc>, pcs: seq<Pc>, p: nat, q: nat, x: Proc)
  {
    && |pcs| == |t| && p < |t| && q < |t| && t[q].state.Unused? && pcs[p].Out? && Alive(t[p])
    && x.state.Embryo? && x.parent == t[q].parent && t[p].pid < x.pid
  }

  lemma NewEmbryos(t: seq<Proc>, pcs: seq<Pc>, p: nat, q: nat, x: Proc)
    requires Embryos(t, pcs) && StartsFork(t, pcs, p, q, x)
    ensures Embryos(t[q := x], pcs[p := ForkFill(q)])
  {
    var u, pcs' := t[q := x], pcs[p := ForkFill(q)];
    forall c, r | 0 <= c < |u| && 0 <= r < |u| && u[c].state.Embryo? && u[c].parent == Some(r)
      ensures pcs'[r] == ForkLinked(c) {
      assert c != q && u[c] == t[c] && pcs[r] == ForkLinked(c);
    }
  }

  lemma NewForkers(t: seq<Proc>, pcs: seq<Pc>, p: nat, q: nat, x: Proc)
    requires Embryos(t, pcs) && Forkers(t, pcs) && StartsFork(t, pcs, p, q, x)
    ensures Forkers(t[q := x], pcs[p := ForkFill(q)])
  {
    var u, pcs' := t[q := x], pcs[p := ForkFill(q)];
    forall c, r | 0 <= c < |u| && 0 <= r < |u| && Forks(pcs'[r], c)
      ensures Filling(u[c], u[r], pcs'[r], r)
    {
      if r != p {
        assert Forks(pcs[r], c);
        assert Filling(t[c], t[r], pcs[r], r);
      }
    }
  }

  lemma NewForkApart(t: seq<Proc>, pcs: seq<Pc>, p: nat, q: nat, x: Proc)
    requires Forkers(t, pcs) && ForksApart(pcs) && StartsFork(t, pcs, p, q, x)
    ensures ForksApart(pcs[p := ForkFill(q)])
  {
    var pcs' := pcs[p := ForkFill(q)];
    forall r, o | 0 <= r < |pcs'| && 0 <= o < |pcs'| && r != o && InFork(pcs'[r]) && InFork(pcs'[o])
      ensures pcs'[r].child != pcs'[o].child
    {
      assert r != p ==> Forks(pcs[r], pcs[r].child);
      assert o != p ==> Forks(pcs[o], pcs[o].child);
    }
  }

  lemma FillingSlot(s: State, p: nat)
    requires Inv(s) && p < |s.t| && InFork(s.pcs[p])
    ensures var q := s.pcs[p].child;
      && q < |s.t| && q != p && s.t[q].state.Embryo? && s.t[p].pid < s.t[q].pid
         && s.t[s.init].pid < s.t[q].pid < s.nextpid
      && s.t[q].parent == if s.pcs[p].ForkFill? then None else Some(p)
  {
    hide ParentsLive, NoneLost, Locks, Scans;
    assert Forks(s.pcs[p], s.pcs[p].child);
    assert s.pcs[p].child != s.init;
  }

  /** A fork that is filling slot `q` gives it up, links it, or lets it run. */
  predicate Fills(pc: Pc, pc': Pc, x: Proc, p: nat, q: nat)
  {
    || (pc == ForkFill(q) && pc'.Out? && x.state.Unused? && x.parent.None?)
    || (pc == ForkFill(q) && pc' == ForkLinked(q) && x.state.Embryo? && x.parent == Some(p))
    || (pc == ForkLinked(q) && pc'.Out? && x.state.Runnable? && x.parent == Some(p))
  }

  lemma FillsAlone(t: seq<Proc>, pcs: seq<Pc>, p: nat, q: nat)
    requires ForksApart(pcs) && p < |pcs| && Forks(pcs[p], q)
    ensures forall r :: 0 <= r < |pcs| && r != p ==> !Forks(pcs[r], q)
  {
  }

  lemma FillsEmbryos(t: seq<Proc>, pcs: seq<Pc>, p: nat, q: nat, x: Proc, pc: Pc)
    requires Embryos(t, pcs) && p < |t| && q < |t| && Fills(pcs[p], pc, x, p, q)
    ensures Embryos(t[q := x], pcs[p := pc])
  {
    var u, pcs' := t[q := x], pcs[p := pc];
    forall c, r | 0 <= c < |u| && 0 <= r < |u| && u[c].state.Embryo? && u[c].parent == Some(r)
      ensures pcs'[r] == ForkLinked(c) {
      if c != q {
        assert t[c] == u[c] && pcs[r] == ForkLinked(c);
      }
    }
  }

  lemma FillsForkers(t: seq<Proc>, pcs: seq<Pc>, p: nat, q: nat, x: Proc, pc: Pc)
    requires Forkers(t, pcs) && p < |t| && q < |t| && Fills(pcs[p], pc, x, p, q) && x.pid == t[q].pid
    requires forall r :: 0 <= r < |pcs| && r != p ==> !Forks(pcs[r], q)
    ensures Forkers(t[q := x], pcs[p := pc])
  {
    var u, pcs' := t[q := x], pcs[p := pc];
    assert Forks(pcs[p], q);
    forall c, r | 0 <= c < |u| && 0 <= r < |u| && Forks(pcs'[r], c)
      ensures Filling(u[c], u[r], pcs'[r], r)
    {
      assert Forks(pcs[r], c) && Filling(t[c], t[r], pcs[r], r);
    }
  }

  lemma FillsApart(pcs: seq<Pc>, p: nat, q: nat, pc: Pc)
    requires ForksApart(pcs) && p < |pcs| && Forks(pcs[p], q) && (pc.Out? || Forks(pc, q))
    ensures ForksApart(pcs[p := pc])
  {
    var pcs' := pcs[p := pc];
    forall r, o | 0 <= r < |pcs'| && 0 <= o < |pcs'| && r != o && InFork(pcs'[r]) && InFork(pcs'[o])
      ensures pcs'[r].child != pcs'[o].child
    {
      assert InFork(pcs[r]) && InFork(pcs[o]);
    }
  }

  /** One of the last three steps of fork: slot `q` becomes `x`, and the process goes to `pc`. */
  lemma FillStepKeeps(s: State, p: nat, q: nat, x: Proc, pc: Pc)
    requires Inv(s) && Runs(s, p) && q < |s.t| && Fills(s.pcs[p], pc, x, p, q) && x.pid == s.t[q].pid
    ensures Inv(At(s, p, pc).(t := s.t[q := x]))
  {
    hide Parented, ParentsLive, Pids, NoneLost, Embryos, Forkers, ForksApart, Locks, Scans;
    var u := s.t[q := x];
    ScanOf(s, p);
    FillingSlot(s, p);
    NotAliveChildless(s.t, s.init, q);
    SlotParented(s.t, s.init, q, x);
    SlotParentsLive(s.t, s.init, q, x);
    SlotPids(s.t, s.init, s.nextpid, q, x, s.nextpid);
    FillsAlone(s.t, s.pcs, p, q);
    FillsEmbryos(s.t, s.pcs, p, q, x, pc);
    FillsForkers(s.t, s.pcs, p, q, x, pc);
    FillsApart(s.pcs, p, q, pc);
    SlotNoneLost(s.t, q, x);
    LocksMove(s.t, s.pcs, s.lock, u, p, pc, s.lock);
    EmbryoScans(s, p, pc, q, x);
  }

  lemma ForkStepKeeps(s: State, e: Event)
    requires Inv(s) && (e.ForkFails? || e.SetParent? || e.Publish?) && Do(s, e).Next?
    ensures Inv(Do(s, e).s)
  {
    hide Inv;
    FillingSlot(s, e.p);
    var q := s.pcs[e.p].child;
    if e.ForkFails? {
      FillStepKeeps(s, e.p, q, s.t[q].(state := Unused), Out);
    } else if e.SetParent? {
      FillStepKeeps(s, e.p, q, s.t[q].(parent := Some(e.p)), ForkLinked(q));
    } else {
      FillStepKeeps(s, e.p, q, s.t[q].(state := Runnable), Out);
    }
  }

  // ---------------------------------------------------------------- all steps

  lemma WaitScanKeeps(s: State, p: nat, i: nat, h: bool)
    requires Inv(s) && Runs(s, p) && s.pcs[p] == WaitScan(i, h) && StepWait(s, p, i, h).Next?
    ensures Inv(StepWait(s, p, i, h).s)
  {
    hide Inv, Scanning;
    ScanOf(s, p);
    if i < |s.t| && ZombieOf(s.t[i], p) {
      ReapKeeps(s, p, i);
    } else if i < |s.t| {
      WaitNextScanning(s.t, p, i, h, s.init);
      WaitMoveKeeps(s, p, i, h, WaitScan(i + 1, h || s.t[i].parent == Some(p)), s.lock);
    } else if !h || s.t[p].killed {
      NoScanning(s.t, Out, p, s.init);
      WaitMoveKeeps(s, p, i, h, Out, Free);
    } else {
      WaitSleepKeeps(s, p);
    }
  }

  lemma StepKeeps(s: State, p: nat)
    requires Inv(s) && DoStep(s, p).Next?
    ensures Inv(DoStep(s, p).s)
  {
    hide Inv;
    match s.pcs[p]
    case ExitWant => ExitStartKeeps(s, p);
    case ExitScan(i) => if i < |s.t| { AdoptKeeps(s, p, i); } else { ZombieKeeps(s, p); }
    case WaitWant => WaitStartKeeps(s, p);
    case WaitScan(i, h) => WaitScanKeeps(s, p, i, h);
    case _ =>
  }

  lemma DoKeeps(s: State, e: Event)
    requires Inv(s) && Do(s, e).Next?
    ensures Inv(Do(s, e).s)
  {
    hide Inv;
    match e
    case Fork(p, q) => ForkKeeps(s, p, q);
    case Exit(p) => CallKeeps(s, p, ExitWant);
    case Wait(p) => CallKeeps(s, p, WaitWant);
    case Step(p) => StepKeeps(s, p);
    case Nap(p, n) => NapKeeps(s, p, n);
    case Yield(p) => YieldKeeps(s, p);
    case Schedule(p) => ScheduleKeeps(s, p);
    case Wakeup(n) => WakeupKeeps(s, n);
    case Kill(q) => KillKeeps(s, q);
    case _ => ForkStepKeeps(s, e);
  }

  // ---------------------------------------------------------------- whole runs

  ghost predicate Reaches(s: State, es: seq<Event>, t: State)
    decreases |es|
  {
    if es == [] then t == s else Do(s, es[0]).Next? && Reaches(Do(s, es[0]).s, es[1..], t)
  }

  lemma {:induction false} RunKeeps(s: State, es: seq<Event>, t: State)
    requires Inv(s) && Reaches(s, es, t)
    ensures Inv(t)
    decreases |es|
  {
    hide Inv, Do;
    if es != [] {
      DoKeeps(s, es[0]);
      RunKeeps(Do(s, es[0]).s, es[1..], t);
    }
  }

  lemma InitialTable(s: State)
    requires Initial(s)
    ensures Parented(s.t, s.init) && ParentsLive(s.t, s.init) && Pids(s.t, s.init, s.nextpid) && NoneLost(s.t)
  {
  }

  lemma InitialPcs(s: State)
    requires Initial(s)
    ensures Embryos(s.t, s.pcs) && Forkers(s.t, s.pcs) && ForksApart(s.pcs) && Locks(s.t, s.pcs, s.lock)
        && Scans(s.t, s.pcs, s.init)
  {
    forall q | 0 <= q < |s.t| ensures s.pcs[q].Out? && !s.t[q].state.Embryo? {}
  }

  lemma InitialKeeps(s: State)
    requires Initial(s)
    ensures Inv(s)
  {
    InitialTable(s);
    InitialPcs(s);
  }

  /**
   In every reachable state each process but init, zombies included, has a parent that is alive and is not a
   zombie.
   */
  lemma LiveParents(s: State, es: seq<Event>, t: State, q: nat)
    requires Initial(s) && Reaches(s, es, t) && q < |t.t| && Used(t.t[q]) && q != t.init
    ensures t.t[q].parent.Some? && t.t[q].parent.value < |t.t| && Alive(t.t[t.t[q].parent.value])
    ensures t.init < |t.t| && Alive(t.t[t.init])
  {
    InitialKeeps(s);
    RunKeeps(s, es, t);
    UsedParent(t, q);
  }

  /** Nobody sleeps in wait() with a zombie child, not even while the lock is held. */
  lemma NoLostExit(s: State, es: seq<Event>, t: State, p: nat, q: nat)
    requires Initial(s) && Reaches(s, es, t) && p < |t.t| && q < |t.t| && Waiting(t.t[p], p)
    ensures !ZombieOf(t.t[q], p)
  {
    InitialKeeps(s);
    RunKeeps(s, es, t);
  }

  // ---------------------------------------------------------------- the tree

  /** The `k`-th ancestor, `None` if the chain ends before. */
  function Ancestor(t: seq<Proc>, q: nat, k: nat): Option<nat>
    decreases k
  {
    if q >= |t| then None else if k == 0 then Some(q) else if t[q].parent.None? then None
        else Ancestor(t, t[q].parent.value, k - 1)
  }

  lemma {:induction false} ReachesInit(s: State, q: nat) returns (k: nat)
    requires Inv(s) && q < |s.t| && Used(s.t[q])
    ensures Ancestor(s.t, q, k) == Some(s.init)
    decreases s.t[q].pid
  {
    hide Inv;
    if q == s.init {
      k := 0;
    } else {
      UsedParent(s, q);
      k := ReachesInit(s, s.t[q].parent.value);
      k := k + 1;
    }
  }

  /** Following parents from any process leads to init, so the table is a tree with init at its root. */
  lemma RootedAtInit(s: State, es: seq<Event>, t: State, q: nat)
    requires Initial(s) && Reaches(s, es, t) && q < |t.t| && Used(t.t[q])
    ensures exists k :: Ancestor(t.t, q, k) == Some(t.init)
  {
    InitialKeeps(s);
    RunKeeps(s, es, t);
    var k := ReachesInit(t, q);
  }

  // ---------------------------------------------------------------- reaping

  /** wait() at the end of its scan: it knows whether there are children, and none is a zombie. */
  lemma ScanIsExact(s: State, es: seq<Event>, t: State, p: nat, h: bool)
    requires Initial(s) && Reaches(s, es, t) && p < |t.t| == |t.pcs| && t.pcs[p] == WaitScan(|t.t|, h)
    ensures h <==> exists j :: 0 <= j < |t.t| && t.t[j].parent == Some(p)
    ensures forall j :: 0 <= j < |t.t| ==> !ZombieOf(t.t[j], p)
  {
    InitialKeeps(s);
    RunKeeps(s, es, t);
    ScanOf(t, p);
  }

  function Steps(p: nat, n: nat): seq<Event> { if n == 0 then [] else [Step(p)] + Steps(p, n - 1) }

  lemma OneMore(s: State, e: Event, es: seq<Event>, t: State)
    requires Do(s, e).Next? && Reaches(Do(s, e).s, es, t)
    ensures Reaches(s, [e] + es, t)
  {
    assert ([e] + es)[1..] == es;
  }

  /** The scan of wait() goes on to the first zombie child, at `z`, and reaps it. */
  lemma {:induction false} ScanReaps(s: State, p: nat, i: nat, h: bool, z: nat)
    requires Runs(s, p) && s.pcs[p] == WaitScan(i, h) && i <= z < |s.t| && FirstZombieChild(s.t, p, z)
    ensures Reaches(s, Steps(p, z - i + 1), At(s, p, Out).(t := s.t[z := Reaped(s.t[z])], lock := Free))
    decreases z - i
  {
    var t := At(s, p, Out).(t := s.t[z := Reaped(s.t[z])], lock := Free);
    var s1 := Do(s, Step(p)).s;
    if i == z {
      OneMore(s, Step(p), [], t);
    } else {
      assert !ZombieOf(s.t[i], p);
      ScanReaps(s1, p, i + 1, s1.pcs[p].havekids, z);
      assert At(s1, p, Out) == At(s, p, Out);
      OneMore(s, Step(p), Steps(p, z - i), t);
    }
  }

  lemma WaitReaps(t: State, p: nat, z: nat)
    requires Runs(t, p) && t.pcs[p].Out? && t.lock.Free? && z < |t.t| && FirstZombieChild(t.t, p, z)
    ensures Reaches(t, [Wait(p)] + Steps(p, z + 2), t.(t := t.t[z := Reaped(t.t[z])]))
  {
    hide Reaches, Steps, FirstZombieChild;
    var t1 := At(t, p, WaitWant);
    var t2 := At(t1, p, WaitScan(0, false)).(lock := Held(p));
    var u := t.(t := t.t[z := Reaped(t.t[z])]);
    ScanReaps(t2, p, 0, false, z);
    assert At(t2, p, Out).pcs == t.pcs;
    assert At(t2, p, Out).(t := u.t, lock := Free) == u;
    OneMore(t1, Step(p), Steps(p, z + 1), u);
    StepsMore(p, z + 1);
    OneMore(t, Wait(p), Steps(p, z + 2), u);
  }

  lemma StepsMore(p: nat, n: nat)
    ensures [Step(p)] + Steps(p, n) == Steps(p, n + 1)
  {
  }

  /**
   A zombie can be reaped whenever the lock is free and its parent is on a CPU: the parent's next call
   of wait() frees a zombie child's slot without sleeping, and changes nothing else.
   */
  lemma ZombieIsReapable(t: State, p: nat, q: nat)
    requires Runs(t, p) && t.pcs[p].Out? && t.lock.Free? && q < |t.t| && ZombieOf(t.t[q], p)
    ensures exists n, z :: 0 <= z < |t.t| && ZombieOf(t.t[z], p)
              && Reaches(t, [Wait(p)] + Steps(p, n), t.(t := t.t[z := Reaped(t.t[z])]))
  {
    hide Reaches, Steps;
    var z := FirstZombie(t.t, p, q);
    WaitReaps(t, p, z);
  }

  lemma {:induction false} FirstZombie(t: seq<Proc>, p: nat, q: nat) returns (z: nat)
    requires q < |t| && ZombieOf(t[q], p)
    ensures z <= q && FirstZombieChild(t, p, z)
  {
    if j :| 0 <= j < q && ZombieOf(t[j], p) {
      z := FirstZombie(t, p, j);
    } else {
      z := q;
    }
  }

  /** A pid names at most one slot, so kill() strikes the process it was meant for. */
  lemma PidsDistinct(s: State, es: seq<Event>, t: State, q: nat, r: nat)
    requires Initial(s) && Reaches(s, es, t) && q < |t.t| && r < |t.t| && t.t[q].pid == t.t[r].pid > 0
    ensures q == r
  {
    InitialKeeps(s);
    RunKeeps(s, es, t);
  }

  // ---------------------------------------------------------------- exit in one go

  /** The state when `p` leaves the loop of exit(), having started it with table `t`. */
  function Exited(s: State, p: nat, t: seq<Proc>): State
    requires p < |s.pcs| && p < |t|
  {
    var u := AdoptAll(t, p, s.init, |t|);
    At(s, p, Out).(t := u[p := u[p].(state := Zombie)], lock := Free)
  }

  lemma {:induction false} AdoptAllSpares(t: seq<Proc>, p: nat, init: nat, i: nat)
    requires i <= |t| && p < |t| && t[p].state.Running?
    ensures AdoptAll(t, p, init, i)[p].state.Running?
  {
    if i > 0 {
      AdoptAllSpares(t, p, init, i - 1);
    }
  }

  lemma {:induction false} ExitLoopRuns(s: State, p: nat, t: seq<Proc>, i: nat)
    requires p < |t| == |s.pcs| && t[p].state.Running? && i <= |t|
    requires s.pcs[p] == ExitScan(i) && s.t == AdoptAll(t, p, s.init, i)
    ensures Reaches(s, Steps(p, |t| - i + 1), Exited(s, p, t))
    decreases |t| - i
  {
    AdoptAllSpares(t, p, s.init, i);
    var s1 := Do(s, Step(p)).s;
    if i == |t| {
      OneMore(s, Step(p), [], Exited(s, p, t));
    } else {
      ExitLoopRuns(s1, p, t, i + 1);
      assert At(s1, p, Out).pcs == At(s, p, Out).pcs;
      assert Exited(s1, p, t) == Exited(s, p, t);
      OneMore(s, Step(p), Steps(p, |t| - i), Exited(s, p, t));
    }
  }

  /** The steps of an undisturbed exit() end with the lock free and every slot as `Table.ExitLocked` leaves it. */
  lemma ExitRuns(s: State, p: nat)
    requires Runs(s, p) && s.pcs[p].ExitWant? && s.lock.Free?
    ensures exists t :: Reaches(s, Steps(p, |s.t| + 2), t) && t == At(s, p, Out).(t := t.t, lock := Free)
              && |t.t| == |s.t| && forall i :: 0 <= i < |s.t| ==> t.t[i] == AfterExit(s.t, p, s.init, i)
  {
    ExitSteps(s, p);
    var t := Exited(s, p, WakeParent(s.t, p));
    forall i | 0 <= i < |s.t| ensures t.t[i] == AfterExit(s.t, p, s.init, i) {
      ExitIs(s.t, p, s.init, i);
    }
  }

  lemma ExitSteps(s: State, p: nat)
    requires Runs(s, p) && s.pcs[p].ExitWant? && s.lock.Free?
    ensures Reaches(s, Steps(p, |s.t| + 2), Exited(s, p, WakeParent(s.t, p)))
  {
    var t := WakeParent(s.t, p);
    var s1 := Do(s, Step(p)).s;
    ExitLoopRuns(s1, p, t, 0);
    assert At(s1, p, Out).pcs == At(s, p, Out).pcs;
    assert Exited(s1, p, t) == Exited(s, p, t);
    OneMore(s, Step(p), Steps(p, |s.t| + 1), Exited(s, p, t));
  }
}
