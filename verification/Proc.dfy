/**
 The process table: one slot a process, and what wakeup1, kill, allocproc, exit and wait do to it
 while they hold ptable.lock.
 */
module ProcTable {
  import opened Options

  datatype PState = Unused | Embryo | Sleeping | Runnable | Running | Zombie

  /** wait() sleeps on the process itself; everything else sleeps elsewhere. */
  datatype Chan = WaitOn(p: nat) | Other(n: nat)

  datatype Proc = Proc(state: PState, pid: nat, parent: Option<nat>, chan: Option<Chan>, killed: bool)

  predicate Alive(q: Proc) { q.state.Sleeping? || q.state.Runnable? || q.state.Running? }

  predicate Used(q: Proc) { Alive(q) || q.state.Zombie? }

  function Woken(q: Proc, c: Chan): Proc { if q.state.Sleeping? && q.chan == Some(c) then q.(state := Runnable) else q }

  /** wakeup1 */
  function WakeAll(t: seq<Proc>, c: Chan): (r: seq<Proc>)
    ensures |r| == |t|
  {
    seq(|t|, i requires 0 <= i < |t| => Woken(t[i], c))
  }

  /** kill's change to the slot it finds. */
  function Struck(q: Proc): Proc { q.(killed := true, state := if q.state.Sleeping? then Runnable else q.state) }

  /** One turn of exit's loop: a child of `p` goes to init, which is woken if the child is a zombie. */
  function Adopt(t: seq<Proc>, p: nat, init: nat, i: nat): (r: seq<Proc>)
    requires i < |t|
    ensures |r| == |t|
  {
    if t[i].parent != Some(p) then t
    else
      var u := t[i := t[i].(parent := Some(init))];
      if t[i].state.Zombie? then WakeAll(u, WaitOn(init)) else u
  }

  function AdoptAll(t: seq<Proc>, p: nat, init: nat, i: nat): (r: seq<Proc>)
    requires i <= |t|
    ensures |r| == |t|
  {
    if i == 0 then t else Adopt(AdoptAll(t, p, init, i - 1), p, init, i - 1)
  }

  /** What wait() does to the slot of a zombie child. */
  function Reaped(q: Proc): Proc { q.(state := Unused, pid := 0, parent := None, killed := false) }

  /** exit() wakes its parent before it looks for children. */
  function WakeParent(t: seq<Proc>, p: nat): (r: seq<Proc>)
    requires p < |t|
    ensures |r| == |t|
  {
    if t[p].parent.None? then t else WakeAll(t, WaitOn(t[p].parent.value))
  }

  // ---------------------------------------------------------------- what exit comes to

  ghost predicate ZombieChildBelow(t: seq<Proc>, p: nat, n: nat)
  {
    exists j :: 0 <= j < n && j < |t| && t[j].parent == Some(p) && t[j].state.Zombie?
  }

  /** Whether the exit of `p` wakes `q`: `q` is p's parent in wait(), or init in wait() that inherits a zombie. */
  ghost predicate Roused(t: seq<Proc>, p: nat, init: nat, q: Proc)
    requires p < |t|
  {
    && q.state.Sleeping? && q.chan.Some? && q.chan.value.WaitOn?
    && (t[p].parent == Some(q.chan.value.p) || (q.chan.value.p == init && ZombieChildBelow(t, p, |t|)))
  }

  /** Slot `i` after the exit of `p`. */
  ghost function AfterExit(t: seq<Proc>, p: nat, init: nat, i: nat): Proc
    requires p < |t| && i < |t|
  {
    t[i].(parent := if t[i].parent == Some(p) then Some(init) else t[i].parent,
          state := if i == p then Zombie else if Roused(t, p, init, t[i]) then Runnable else t[i].state)
  }

  /** The loop of exit has gone over the first `n` slots of `t`. */
  ghost predicate AdoptedBelow(t: seq<Proc>, u: seq<Proc>, p: nat, init: nat, n: nat)
  {
    |u| == |t| && forall i :: 0 <= i < |t| ==>
      var q := if i < n && t[i].parent == Some(p) then t[i].(parent := Some(init)) else t[i];
      u[i] == if ZombieChildBelow(t, p, n) then Woken(q, WaitOn(init)) else q
  }

  lemma AdoptMore(t: seq<Proc>, u: seq<Proc>, p: nat, init: nat, n: nat)
    requires n < |t| && AdoptedBelow(t, u, p, init, n)
    ensures AdoptedBelow(t, Adopt(u, p, init, n), p, init, n + 1)
  {
    var mine := t[n].parent == Some(p);
    assert u[n].parent == t[n].parent && (u[n].state.Zombie? <==> t[n].state.Zombie?);
    assert ZombieChildBelow(t, p, n + 1) <==> ZombieChildBelow(t, p, n) || (mine && t[n].state.Zombie?);
  }

  lemma {:induction false} AdoptAllIs(t: seq<Proc>, p: nat, init: nat, n: nat)
    requires n <= |t|
    ensures AdoptedBelow(t, AdoptAll(t, p, init, n), p, init, n)
  {
    if n > 0 {
      AdoptAllIs(t, p, init, n - 1);
      AdoptMore(t, AdoptAll(t, p, init, n - 1), p, init, n - 1);
    }
  }

  /** The wakeup of the parent, the loop and the last assignment of exit, slot by slot. */
  lemma ExitIs(t: seq<Proc>, p: nat, init: nat, i: nat)
    requires p < |t| && i < |t|
    ensures var u := AdoptAll(WakeParent(t, p), p, init, |t|);
      u[p := u[p].(state := Zombie)][i] == AfterExit(t, p, init, i)
  {
    var w := WakeParent(t, p);
    AdoptAllIs(w, p, init, |t|);
    assert forall j :: 0 <= j < |t| ==> w[j].parent == t[j].parent && (w[j].state.Zombie? <==> t[j].state.Zombie?);
    assert ZombieChildBelow(w, p, |t|) <==> ZombieChildBelow(t, p, |t|);
  }

  class Table {
    var proc: array<Proc>
    const init: nat
    var nextpid: nat

    constructor (n: nat, init: nat)
      requires init < n
      ensures fresh(proc) && proc.Length == n && this.init == init && nextpid == 1
      ensures forall i :: 0 <= i < n ==> proc[i] == Proc(Unused, 0, None, None, false)
    {
      proc := new Proc[n](_ => Proc(Unused, 0, None, None, false));
      this.init, nextpid := init, 1;
    }

    method Wakeup1(c: Chan)
      modifies proc
      ensures proc[..] == WakeAll(old(proc[..]), c)
      ensures forall i :: 0 <= i < proc.Length ==>
                var q := old(proc[i]);
                proc[i] == if q.state == Sleeping && q.chan == Some(c) then q.(state := Runnable) else q
    {
      ghost var t := proc[..];
      var i := 0;
      while i < proc.Length
        invariant 0 <= i <= proc.Length
        invariant forall j :: 0 <= j < proc.Length ==> proc[j] == if j < i then Woken(t[j], c) else t[j]
      {
        if proc[i].state == Sleeping && proc[i].chan == Some(c) {
          proc[i] := proc[i].(state := Runnable);
        }
        i := i + 1;
      }
    }

    /** The loop of kill: the first slot with that pid, if there is one. */
    method Kill(pid: nat) returns (r: int, ghost k: nat)
      modifies proc
      ensures r == 0 ==>
                k < proc.Length && old(proc[k]).pid == pid && proc[..] == old(proc[..])[k := Struck(old(proc[k]))]
      ensures r == 0 || r == -1
      ensures r == 0 ==>
                && proc[k].killed && proc[k].state == (if old(proc[k]).state == Sleeping then Runnable
                                                       else old(proc[k]).state)
                && proc[k].pid == pid && proc[k].parent == old(proc[k]).parent && proc[k].chan == old(proc[k]).chan
                && forall i :: 0 <= i < proc.Length && i != k ==> proc[i] == old(proc[i])
      ensures r == -1 ==> proc[..] == old(proc[..]) && forall i :: 0 <= i < proc.Length ==> proc[i].pid != pid
      ensures r == 0 ==> forall i :: 0 <= i < k ==> proc[i].pid != pid
    {
      k := 0;
      var i := 0;
      while i < proc.Length
        invariant 0 <= i <= proc.Length && proc[..] == old(proc[..])
        invariant forall j :: 0 <= j < i ==> proc[j].pid != pid
      {
        if proc[i].pid == pid {
          proc[i] := proc[i].(killed := true);
          if proc[i].state == Sleeping {
            proc[i] := proc[i].(state := Runnable);
          }
          return 0, i;
        }
        i := i + 1;
      }
      r := -1;
    }

    /** The locked part of allocproc: the first unused slot becomes an embryo with a new pid. */
    method AllocSlot() returns (r: Option<nat>)
      modifies proc, this`nextpid
      ensures r.Some? ==> r.value < proc.Length && old(proc[r.value]).state.Unused? && nextpid == old(nextpid) + 1
      ensures r.Some? ==> proc[..] == old(proc[..])[r.value := old(proc[r.value]).(state := Embryo,
          pid := old(nextpid))]
      ensures r.None? ==>
                && proc[..] == old(proc[..]) && nextpid == old(nextpid)
                && forall i :: 0 <= i < proc.Length ==> !proc[i].state.Unused?
    {
      var i := 0;
      while i < proc.Length
        invariant 0 <= i <= proc.Length && proc[..] == old(proc[..]) && nextpid == old(nextpid)
        invariant forall j :: 0 <= j < i ==> !proc[j].state.Unused?
      {
        if proc[i].state == Unused {
          proc[i] := proc[i].(state := Embryo, pid := nextpid);
          nextpid := nextpid + 1;
          return Some(i);
        }
        i := i + 1;
      }
      return None;
    }

    method AdoptSlot(p: nat, i: nat)
      requires i < proc.Length
      modifies proc
      ensures proc[..] == Adopt(old(proc[..]), p, init, i)
    {
      if proc[i].parent == Some(p) {
        proc[i] := proc[i].(parent := Some(init));
        assert proc[..] == old(proc[..])[i := proc[i]];
        if proc[i].state == Zombie {
          Wakeup1(WaitOn(init));
        }
      }
    }

    /**
     The part of exit under ptable.lock: `p` is a zombie, its children are init's, and of the others just
     those in wait() that this concerns are awake.
     */
    method ExitLocked(p: nat)
      requires p < proc.Length
      modifies proc
      ensures forall i :: 0 <= i < proc.Length ==> proc[i] == AfterExit(old(proc[..]), p, init, i)
    {
      ghost var t := WakeParent(proc[..], p);
      if proc[p].parent.Some? {
        Wakeup1(WaitOn(proc[p].parent.value));
      }
      var i := 0;
      while i < proc.Length
        invariant 0 <= i <= proc.Length && proc[..] == AdoptAll(t, p, init, i)
      {
        AdoptSlot(p, i);
        i := i + 1;
      }
      ghost var u := proc[..];
      proc[p] := proc[p].(state := Zombie);
      assert proc[..] == u[p := u[p].(state := Zombie)];
      forall k | 0 <= k < proc.Length ensures proc[..][k] == AfterExit(old(proc[..]), p, init, k) {
        ExitIs(old(proc[..]), p, init, k);
      }
    }

    /**
     One pass of wait's scan: the pid of the first zombie child, whose slot is then free again; else
     whether there was any child.
     */
    method WaitScan(p: nat) returns (pid: Option<nat>, havekids: bool, ghost k: nat)
      modifies proc
      ensures pid.Some? ==> k < proc.Length && FirstZombieChild(old(proc[..]), p, k) && pid.value == old(proc[k]).pid
      ensures pid.Some? ==> proc[..] == old(proc[..])[k := Reaped(old(proc[k]))]
      ensures pid.Some? ==>
                && old(proc[k]).state == Zombie && old(proc[k]).parent == Some(p)
                && proc[k] == Proc(Unused, 0, None, old(proc[k]).chan, false)
      ensures pid.None? ==>
                && proc[..] == old(proc[..])
                && forall i :: 0 <= i < proc.Length && proc[i].parent == Some(p) ==> !proc[i].state.Zombie?
      ensures pid.None? ==> (havekids <==> exists i :: 0 <= i < proc.Length && proc[i].parent == Some(p))
    {
      havekids, k := false, 0;
      var i := 0;
      while i < proc.Length
        invariant 0 <= i <= proc.Length && proc[..] == old(proc[..])
        invariant forall j :: 0 <= j < i && proc[j].parent == Some(p) ==> !proc[j].state.Zombie?
        invariant havekids <==> exists j :: 0 <= j < i && proc[j].parent == Some(p)
      {
        if proc[i].parent == Some(p) {
          havekids := true;
          if proc[i].state == Zombie {
            pid, k := Some(proc[i].pid), i;
            proc[i] := Reaped(proc[i]);
            assert FirstZombieChild(old(proc[..]), p, i);
            return;
          }
        }
        i := i + 1;
      }
      pid := None;
    }
  }

  ghost predicate FirstZombieChild(t: seq<Proc>, p: nat, k: nat)
    requires k < |t|
  {
    t[k].parent == Some(p) && t[k].state.Zombie?
        && forall j :: 0 <= j < k ==> !(t[j].parent == Some(p) && t[j].state.Zombie?)
  }
}
