/**
 * Processes using one pipe: every step of pipewrite, piperead and pipeclose, and of the sleep and wakeup
 * they call, under the pipe's lock and the process table's lock, in any interleaving.
 */
module PipeRuns {
  import opened Options
  import opened Disk
  import opened PipeRing

  /** The two addresses processes sleep on. */
  datatype Chan = OnRead | OnWrite

  /**
   * What a process is doing to the pipe. `dirty`: bytes were put in since the writer last called wakeup.
   * `copying`: the reader is past its waiting loop.
   */
  datatype Role =
    | Writer(buf: seq<Byte>, i: nat, dirty: bool)
    | Reader(n: nat, got: seq<Byte>, copying: bool)
    | Closer(writable: bool)

  /** Where it is. The three Wake steps are wakeup, the three Sleep steps and InSched are sleep. */
  datatype Pc =
    | Idle
    | Want(r: Role)
    | Running(r: Role)
    | WakeWant(r: Role)
    | WakeHold(r: Role)
    | WakeDone(r: Role)
    | SleepWant(r: Role)
    | SleepHold(r: Role)
    | SleepMark(r: Role)
    | InSched(r: Role)
    | Leave(r: Role)

  /** `asleep` is the state SLEEPING; a process in InSched that is not asleep is RUNNABLE. */
  datatype Proc = Proc(pc: Pc, asleep: bool, killed: bool)

  datatype Lock = Free | Held(who: nat)

  /**
   * `rfile` and `wfile`: some descriptor for that end is still open. `written` and `consumed` record every
   * byte that went in and came out.
   */
  datatype State = State(ring: Ring, readopen: bool, writeopen: bool, freed: bool, rfile: bool, wfile: bool,
                         plock: Lock, tlock: Lock, procs: seq<Proc>, written: seq<Byte>, consumed: seq<Byte>)

  function SleepChan(r: Role): Chan { if r.Reader? then OnRead else OnWrite }

  function WakeChan(r: Role): Chan { if r.Writer? || (r.Closer? && r.writable) then OnRead else OnWrite }

  function At(s: State, p: nat, pc: Pc): State
    requires p < |s.procs|
  {
    s.(procs := s.procs[p := s.procs[p].(pc := pc)])
  }

  // ---------------------------------------------------------------- steps with the pipe's lock held

  function RunWriter(s: State, p: nat, r: Role): State
    requires p < |s.procs| && r.Writer? && Shaped(s.ring)
  {
    if r.i >= |r.buf| then At(s, p, WakeWant(r))
    else if Full(s.ring) then
      if !s.readopen || s.procs[p].killed then At(s, p, Leave(r)) else At(s, p, WakeWant(r))
    else
      At(s, p, Running(r.(i := r.i + 1, dirty := true))).(ring := Put(s.ring, r.buf[r.i]),
          written := s.written + [r.buf[r.i]])
  }

  function RunReader(s: State, p: nat, r: Role): State
    requires p < |s.procs| && r.Reader? && Shaped(s.ring)
  {
    if !r.copying then
      if Empty(s.ring) && s.writeopen then At(s, p, if s.procs[p].killed then Leave(r) else SleepWant(r))
      else At(s, p, Running(r.(copying := true)))
    else if |r.got| >= r.n || Empty(s.ring) then At(s, p, WakeWant(r))
    else
      var b := First(s.ring);
      At(s, p, Running(r.(got := r.got + [b]))).(ring := Drop(s.ring), consumed := s.consumed + [b])
  }

  function RunCloser(s: State, p: nat, r: Role): State
    requires p < |s.procs| && r.Closer?
  {
    var t := At(s, p, WakeWant(r));
    if r.writable then t.(writeopen := false) else t.(readopen := false)
  }

  function RunRole(s: State, p: nat, r: Role): State
    requires p < |s.procs| && Shaped(s.ring)
  {
    match r
    case Writer(_, _, _) => RunWriter(s, p, r)
    case Reader(_, _, _) => RunReader(s, p, r)
    case Closer(_) => RunCloser(s, p, r)
  }

  /** Back to the caller; the last close frees the pipe. */
  function Return(s: State, p: nat, r: Role): State
    requires p < |s.procs|
  {
    At(s, p, Idle).(plock := Free, freed := s.freed || (r.Closer? && !s.readopen && !s.writeopen))
  }

  // ---------------------------------------------------------------- wakeup

  function Woken(q: Proc, c: Chan): Proc
  {
    if q.asleep && q.pc.InSched? && SleepChan(q.pc.r) == c then q.(asleep := false) else q
  }

  function WakeAll(procs: seq<Proc>, c: Chan): seq<Proc>
  {
    seq(|procs|, q requires 0 <= q < |procs| => Woken(procs[q], c))
  }

  function Wake(s: State, p: nat, r: Role): State
    requires p < |s.procs|
  {
    var r' := if r.Writer? then r.(dirty := false) else r;
    At(s.(procs := WakeAll(s.procs, WakeChan(r))), p, WakeDone(r'))
  }

  /** What follows wakeup: a writer with bytes left goes to sleep. */
  function AfterWake(r: Role): Pc { if r.Writer? && r.i < |r.buf| then SleepWant(r) else Leave(r) }

  // ---------------------------------------------------------------- runs

  /** `Begin`: a process enters the kernel. `Step`: it takes its next step. `Kill`: somebody kills it. */
  datatype Event = Begin(p: nat, r: Role) | Step(p: nat) | Kill(p: nat)

  function Mark(s: State, p: nat, r: Role): State
    requires p < |s.procs|
  {
    s.(procs := s.procs[p := s.procs[p].(pc := InSched(r), asleep := true)], tlock := Free)
  }

  function TakeStep(s: State, p: nat): Option<State>
    requires p < |s.procs| && Shaped(s.ring)
  {
    match s.procs[p].pc
    case Idle => None
    case Want(r) => if s.plock.Free? then Some(At(s, p, Running(r)).(plock := Held(p))) else None
    case Running(r) => Some(RunRole(s, p, r))
    case WakeWant(r) => if s.tlock.Free? then Some(At(s, p, WakeHold(r)).(tlock := Held(p))) else None
    case WakeHold(r) => Some(Wake(s, p, r))
    case WakeDone(r) => Some(At(s, p, AfterWake(r)).(tlock := Free))
    case SleepWant(r) => if s.tlock.Free? then Some(At(s, p, SleepHold(r)).(tlock := Held(p))) else None
    case SleepHold(r) => Some(At(s, p, SleepMark(r)).(plock := Free))
    case SleepMark(r) => Some(Mark(s, p, r))
    case InSched(r) => if !s.procs[p].asleep && s.tlock.Free? then Some(At(s, p, Want(r))) else None
    case Leave(r) => Some(Return(s, p, r))
  }

  ghost predicate NoUser(s: State, writable: bool)
  {
    forall q :: 0 <= q < |s.procs| ==> !Uses(s.procs[q].pc, writable)
  }

  predicate Uses(pc: Pc, writable: bool) { !pc.Idle? && if writable then pc.r.Writer? else pc.r.Reader? }

  /** An end is read or written through an open descriptor, and closed once, by the last one that has it. */
  ghost predicate MayBegin(s: State, r: Role)
  {
    match r
    case Writer(buf, i, dirty) => s.wfile && i == 0 && !dirty
    case Reader(n, got, copying) => s.rfile && got == [] && !copying
    case Closer(writable) => (if writable then s.wfile else s.rfile) && NoUser(s, writable)
  }

  function Enter(s: State, p: nat, r: Role): State
    requires p < |s.procs|
  {
    var t := At(s, p, Want(r));
    if r == Closer(true) then t.(wfile := false) else if r == Closer(false) then t.(rfile := false) else t
  }

  function KillProc(s: State, p: nat): State
    requires p < |s.procs|
  {
    s.(procs := s.procs[p := s.procs[p].(killed := true, asleep := false)])
  }

  ghost function Next(s: State, e: Event): Option<State>
    requires Shaped(s.ring)
  {
    if e.p >= |s.procs| then None else
    match e
    case Begin(p, r) => if s.procs[p].pc.Idle? && MayBegin(s, r) then Some(Enter(s, p, r)) else None
    case Step(p) => TakeStep(s, p)
    case Kill(p) => if s.tlock.Free? then Some(KillProc(s, p)) else None
  }

  predicate Initial(s: State)
  {
    && |s.ring.data| == PIPESIZE && s.ring.nread == 0 && s.ring.nwrite == 0 && s.written == [] && s.consumed == []
    && s.readopen && s.writeopen && !s.freed && s.rfile && s.wfile && s.plock == Free && s.tlock == Free
    && forall p :: 0 <= p < |s.procs| ==> s.procs[p].pc == Idle && !s.procs[p].asleep
  }

  // ---------------------------------------------------------------- what every step keeps

  predicate HoldsPipe(pc: Pc)
  {
    pc.Running? || pc.WakeWant? || pc.WakeHold? || pc.WakeDone? || pc.SleepWant? || pc.SleepHold? || pc.Leave?
  }

  predicate HoldsTable(pc: Pc) { pc.WakeHold? || pc.WakeDone? || pc.SleepHold? || pc.SleepMark? }

  ghost predicate Locks(procs: seq<Proc>, plock: Lock, tlock: Lock)
  {
    forall p :: 0 <= p < |procs| ==>
      (HoldsPipe(procs[p].pc) <==> plock == Held(p)) && (HoldsTable(procs[p].pc) <==> tlock == Held(p))
  }

  /** No reason to go on: nothing to read from an open writer, or no room with an open reader. */
  predicate Blocked(g: Ring, readopen: bool, writeopen: bool, c: Chan)
  {
    if c == OnRead then Empty(g) && writeopen else Full(g) && readopen
  }

  /** A process that is about to sleep still has its reason, and knows which half of its call it is in. */
  predicate Sensible(q: Proc, g: Ring, readopen: bool, writeopen: bool)
  {
    && (q.asleep ==> q.pc.InSched?)
    && (q.pc.SleepWant? || q.pc.SleepHold? ==> Blocked(g, readopen, writeopen, SleepChan(q.pc.r)))
    && ((q.pc.WakeWant? || q.pc.WakeHold? || q.pc.WakeDone?) && q.pc.r.Writer? && q.pc.r.i < |q.pc.r.buf| ==>
         Blocked(g, readopen, writeopen, OnWrite))
    && (q.pc.SleepWant? || q.pc.SleepHold? || q.pc.SleepMark? || q.pc.InSched? ==> !q.pc.r.Closer?)
    && (!q.pc.Idle? && q.pc.r.Writer? && q.pc.r.dirty ==>
       q.pc.Running? || q.pc.WakeWant? || q.pc.WakeHold? || q.pc.Leave?)
    && (!q.pc.Idle? && q.pc.r.Reader? && !q.pc.r.copying ==> q.pc.r.got == [])
    && (!q.pc.Idle? && q.pc.r.Reader? && q.pc.r.copying ==>
         q.pc.Running? || q.pc.WakeWant? || q.pc.WakeHold? || q.pc.WakeDone? || q.pc.Leave?)
  }

  ghost predicate AllSensible(procs: seq<Proc>, g: Ring, readopen: bool, writeopen: bool)
  {
    forall p :: 0 <= p < |procs| ==> Sensible(procs[p], g, readopen, writeopen)
  }

  predicate Closing(pc: Pc, writable: bool) { !pc.Idle? && pc.r == Closer(writable) }

  /** Who may still be using an end whose descriptors, or whose flag, are gone. */
  ghost predicate Ends(procs: seq<Proc>, open: bool, file: bool, writable: bool)
  {
    && (file ==> open && forall p :: 0 <= p < |procs| ==> !Closing(procs[p].pc, writable))
    && (!file ==> forall p :: 0 <= p < |procs| ==> !Uses(procs[p].pc, writable))
    && (forall p :: 0 <= p < |procs| && Closing(procs[p].pc, writable) ==>
         (open <==> procs[p].pc.Want? || procs[p].pc.Running?))
    && (forall p, q :: 0 <= p < q < |procs| ==> !(Closing(procs[p].pc, writable) && Closing(procs[q].pc, writable)))
  }

  /** The bytes a reader has copied are the last ones taken, without a gap. */
  predicate Contiguous(pc: Pc, consumed: seq<Byte>)
  {
    HoldsPipe(pc) && pc.r.Reader? ==> |pc.r.got| <= |consumed| && pc.r.got == consumed[|consumed| - |pc.r.got|..]
  }

  ghost predicate Fifo(s: State)
  {
    && Holds(s.ring, s.written, |s.consumed|) && s.consumed <= s.written
    && forall p :: 0 <= p < |s.procs| ==> Contiguous(s.procs[p].pc, s.consumed)
  }

  ghost predicate Quiet(procs: seq<Proc>) { forall p :: 0 <= p < |procs| ==> procs[p].pc.Idle? }

  ghost predicate Core(s: State)
  {
    && Locks(s.procs, s.plock, s.tlock)
    && AllSensible(s.procs, s.ring, s.readopen, s.writeopen)
    && Ends(s.procs, s.readopen, s.rfile, false) && Ends(s.procs, s.writeopen, s.wfile, true)
    && Fifo(s)
    && (s.freed ==> Quiet(s.procs) && !s.rfile && !s.wfile)
  }

  /** Asleep on `c`, or past the point of no return. */
  predicate Drowsy(q: Proc, c: Chan)
  {
    (q.pc.SleepMark? || (q.pc.InSched? && q.asleep)) && SleepChan(q.pc.r) == c
  }

  /** Will call wakeup(c) before it lets the pipe go. */
  predicate Owes(pc: Pc, c: Chan)
  {
    && (pc.Running? || pc.WakeWant? || pc.WakeHold?) && WakeChan(pc.r) == c
    && (pc.Running? ==> (pc.r.Writer? && pc.r.dirty) || (pc.r.Reader? && pc.r.copying))
  }

  ghost predicate Owed(procs: seq<Proc>, plock: Lock, c: Chan)
  {
    plock.Held? && plock.who < |procs| && Owes(procs[plock.who].pc, c)
  }

  ghost predicate NoneLost(s: State)
  {
    forall p, c :: 0 <= p < |s.procs| && Drowsy(s.procs[p], c) ==>
      Blocked(s.ring, s.readopen, s.writeopen, c) || Owed(s.procs, s.plock, c)
  }

  /** pipewrite's killed exit after bytes that no wakeup has announced. */
  predicate LeavesDirty(s: State, e: Event)
  {
    && e.Step? && e.p < |s.procs| && s.procs[e.p].pc.Running? && s.procs[e.p].pc.r.Writer?
    && var r := s.procs[e.p].pc.r;
    r.i < |r.buf| && r.dirty && Full(s.ring) && s.readopen && s.procs[e.p].killed
  }

  /** It does so while a reader is asleep or about to be. */
  ghost predicate Strands(s: State, e: Event)
  {
    LeavesDirty(s, e) && exists q :: 0 <= q < |s.procs| && Drowsy(s.procs[q], OnRead)
  }

  // ---------------------------------------------------------------- proofs

  /** All processes but `p` are where they were; at most they have been woken. */
  ghost predicate OthersStay(x: seq<Proc>, y: seq<Proc>, p: nat)
  {
    |x| == |y| && forall q :: 0 <= q < |x| && q != p ==> y[q].pc == x[q].pc && (y[q].asleep ==> x[q].asleep)
  }

  /** A lock that `p` took, let go, or left alone. */
  predicate LockMove(l: Lock, m: Lock, p: nat)
  {
    m == l || ((l == Free || l == Held(p)) && (m == Free || m == Held(p)))
  }

  lemma LocksKept(x: seq<Proc>, y: seq<Proc>, p: nat, l: Lock, l': Lock, t: Lock, t': Lock)
    requires Locks(x, l, t) && OthersStay(x, y, p) && p < |x| && LockMove(l, l', p) && LockMove(t, t', p)
    requires (HoldsPipe(y[p].pc) <==> l' == Held(p)) && (HoldsTable(y[p].pc) <==> t' == Held(p))
    ensures Locks(y, l', t')
  {
    forall q | 0 <= q < |y|
      ensures (HoldsPipe(y[q].pc) <==> l' == Held(q)) && (HoldsTable(y[q].pc) <==> t' == Held(q))
    {
      assert q != p ==> y[q].pc == x[q].pc;
    }
  }

  /** The pipe changes only under its lock. */
  predicate Guarded(s: State, t: State, p: nat)
    requires p < |s.procs|
  {
    HoldsPipe(s.procs[p].pc) ||
    (t.ring == s.ring && t.readopen == s.readopen && t.writeopen == s.writeopen && t.written == s.written
        && t.consumed == s.consumed)
  }

  lemma SensibleKept(s: State, t: State, p: nat)
    requires p < |s.procs| && Locks(s.procs, s.plock, s.tlock) && OthersStay(s.procs, t.procs, p) && Guarded(s, t, p)
    requires AllSensible(s.procs, s.ring, s.readopen, s.writeopen)
        && Sensible(t.procs[p], t.ring, t.readopen, t.writeopen)
    ensures AllSensible(t.procs, t.ring, t.readopen, t.writeopen)
  {
    forall q | 0 <= q < |t.procs| ensures Sensible(t.procs[q], t.ring, t.readopen, t.writeopen) {
      if q != p {
        assert Sensible(s.procs[q], s.ring, s.readopen, s.writeopen);
        assert HoldsPipe(s.procs[q].pc) ==> s.plock == Held(q);
        assert HoldsPipe(s.procs[p].pc) ==> s.plock == Held(p);
      }
    }
  }

  /** `p` keeps its role until it returns; only a process closing an end closes it. */
  predicate EndMove(pc: Pc, pc': Pc, open: bool, open': bool, writable: bool)
  {
    && (Uses(pc', writable) ==> Uses(pc, writable)) && (Closing(pc', writable) ==> Closing(pc, writable))
    && (open' == open || (!open' && Closing(pc, writable)))
    && (Closing(pc', writable) ==> (open' <==> pc'.Want? || pc'.Running?))
  }

  lemma EndsKept(x: seq<Proc>, y: seq<Proc>, p: nat, open: bool, open': bool, file: bool, writable: bool)
    requires p < |x| && OthersStay(x, y, p) && Ends(x, open, file, writable)
    requires EndMove(x[p].pc, y[p].pc, open, open', writable)
    ensures Ends(y, open', file, writable)
  {
    forall q | 0 <= q < |y|
      ensures (Uses(y[q].pc, writable) ==> Uses(x[q].pc, writable))
          && (Closing(y[q].pc, writable) ==> Closing(x[q].pc, writable))
    {
      assert q != p ==> y[q].pc == x[q].pc;
    }
    forall q | 0 <= q < |y| && Closing(y[q].pc, writable) ensures open' <==> y[q].pc.Want? || y[q].pc.Running? {
      if q != p {
        assert y[q].pc == x[q].pc && Closing(x[q].pc, writable);
        assert !Closing(x[p].pc, writable);
      }
    }
  }

  lemma FifoKept(s: State, t: State, p: nat)
    requires p < |s.procs| && Locks(s.procs, s.plock, s.tlock) && OthersStay(s.procs, t.procs, p) && Guarded(s, t, p)
        && Fifo(s)
    requires Holds(t.ring, t.written, |t.consumed|) && t.consumed <= t.written && Contiguous(t.procs[p].pc, t.consumed)
    ensures Fifo(t)
  {
    forall q | 0 <= q < |t.procs| ensures Contiguous(t.procs[q].pc, t.consumed) {
      if q != p {
        assert Contiguous(s.procs[q].pc, s.consumed);
        assert HoldsPipe(s.procs[q].pc) ==> s.plock == Held(q);
        assert HoldsPipe(s.procs[p].pc) ==> s.plock == Held(p);
      }
    }
  }

  /** What one step of `p` may do, other than to free the pipe. */
  ghost predicate Moves(s: State, t: State, p: nat)
  {
    && p < |s.procs| && OthersStay(s.procs, t.procs, p) && Guarded(s, t, p)
    && LockMove(s.plock, t.plock, p) && LockMove(s.tlock, t.tlock, p)
    && (HoldsPipe(t.procs[p].pc) <==> t.plock == Held(p)) && (HoldsTable(t.procs[p].pc) <==> t.tlock == Held(p))
    && Sensible(t.procs[p], t.ring, t.readopen, t.writeopen)
    && t.rfile == s.rfile && t.wfile == s.wfile
    && EndMove(s.procs[p].pc, t.procs[p].pc, s.readopen, t.readopen, false)
    && EndMove(s.procs[p].pc, t.procs[p].pc, s.writeopen, t.writeopen, true)
    && Holds(t.ring, t.written, |t.consumed|) && t.consumed <= t.written && Contiguous(t.procs[p].pc, t.consumed)
  }

  ghost predicate FreedSafely(s: State) { s.freed ==> Quiet(s.procs) && !s.rfile && !s.wfile }

  lemma MovesKeep(s: State, t: State, p: nat)
    requires Core(s) && Moves(s, t, p) && FreedSafely(t)
    ensures Core(t)
  {
    LocksKept(s.procs, t.procs, p, s.plock, t.plock, s.tlock, t.tlock);
    SensibleKept(s, t, p);
    EndsKept(s.procs, t.procs, p, s.readopen, t.readopen, s.rfile, false);
    EndsKept(s.procs, t.procs, p, s.writeopen, t.writeopen, s.wfile, true);
    FifoKept(s, t, p);
  }

  lemma WriterMoves(s: State, p: nat, r: Role)
    requires Core(s) && p < |s.procs| && s.procs[p].pc == Running(r) && r.Writer?
    ensures Moves(s, RunWriter(s, p, r), p)
  {
    if r.i < |r.buf| && !Full(s.ring) {
      PutHolds(s.ring, s.written, |s.consumed|, r.buf[r.i]);
    }
  }

  lemma GotGrows(got: seq<Byte>, consumed: seq<Byte>, b: Byte)
    requires |got| <= |consumed| && got == consumed[|consumed| - |got|..]
    ensures var c := consumed + [b]; got + [b] == c[|c| - |got + [b]|..]
  {
  }

  lemma TakeMoves(s: State, p: nat, r: Role)
    requires Core(s) && p < |s.procs| && s.procs[p].pc == Running(r) && r.Reader?
    requires r.copying && |r.got| < r.n && !Empty(s.ring)
    ensures Moves(s, RunReader(s, p, r), p)
  {
    TakeHolds(s.ring, s.written, |s.consumed|);
    var b := First(s.ring);
    assert Contiguous(s.procs[p].pc, s.consumed);
    GotGrows(r.got, s.consumed, b);
    assert Contiguous(Running(r.(got := r.got + [b])), s.consumed + [b]);
  }

  lemma ReaderMoves(s: State, p: nat, r: Role)
    requires Core(s) && p < |s.procs| && s.procs[p].pc == Running(r) && r.Reader?
    ensures Moves(s, RunReader(s, p, r), p)
  {
    assert Contiguous(s.procs[p].pc, s.consumed);
    if r.copying && |r.got| < r.n && !Empty(s.ring) {
      TakeMoves(s, p, r);
    }
  }

  lemma CloserMoves(s: State, p: nat, r: Role)
    requires Core(s) && p < |s.procs| && s.procs[p].pc == Running(r) && r.Closer?
    ensures Moves(s, RunCloser(s, p, r), p)
  {
  }

  lemma WakeMoves(s: State, p: nat)
    requires Core(s) && p < |s.procs| && s.procs[p].pc.WakeHold?
    ensures Moves(s, Wake(s, p, s.procs[p].pc.r), p)
  {
  }

  lemma SleepMoves(s: State, p: nat)
    requires Core(s) && p < |s.procs| && TakeStep(s, p).Some?
    requires s.procs[p].pc.SleepWant? || s.procs[p].pc.SleepHold?
    ensures Moves(s, TakeStep(s, p).value, p)
  {
  }

  lemma AsleepMoves(s: State, p: nat)
    requires Core(s) && p < |s.procs| && TakeStep(s, p).Some?
    requires s.procs[p].pc.SleepMark? || s.procs[p].pc.InSched?
    ensures Moves(s, TakeStep(s, p).value, p)
  {
  }

  lemma CallMoves(s: State, p: nat)
    requires Core(s) && p < |s.procs| && TakeStep(s, p).Some?
    requires s.procs[p].pc.WakeWant? || s.procs[p].pc.WakeDone?
    ensures Moves(s, TakeStep(s, p).value, p)
  {
  }

  lemma LeaveMoves(s: State, p: nat)
    requires Core(s) && p < |s.procs| && TakeStep(s, p).Some? && s.procs[p].pc.Leave?
    ensures Moves(s, TakeStep(s, p).value, p)
  {
  }

  lemma WantMoves(s: State, p: nat)
    requires Core(s) && p < |s.procs| && TakeStep(s, p).Some? && s.procs[p].pc.Want?
    ensures Moves(s, TakeStep(s, p).value, p)
  {
  }

  lemma StepMoves(s: State, p: nat)
    requires Core(s) && p < |s.procs| && TakeStep(s, p).Some?
    ensures Moves(s, TakeStep(s, p).value, p)
  {
    match s.procs[p].pc
    case Running(r) =>
      match r {
        case Writer(_, _, _) => WriterMoves(s, p, r);
        case Reader(_, _, _) => ReaderMoves(s, p, r);
        case Closer(_) => CloserMoves(s, p, r);
      }
    case Want(r) => WantMoves(s, p);
    case Leave(r) => LeaveMoves(s, p);
    case WakeHold(r) => WakeMoves(s, p);
    case SleepWant(r) => SleepMoves(s, p);
    case SleepHold(r) => SleepMoves(s, p);
    case SleepMark(r) => AsleepMoves(s, p);
    case InSched(r) => AsleepMoves(s, p);
    case _ => CallMoves(s, p);
  }

  lemma FreedStep(s: State, p: nat)
    requires Core(s) && p < |s.procs| && TakeStep(s, p).Some?
    ensures FreedSafely(TakeStep(s, p).value)
  {
    var pc := s.procs[p].pc;
    if pc.Leave? && pc.r.Closer? && !s.readopen && !s.writeopen {
      forall q | 0 <= q < |s.procs| && q != p ensures s.procs[q].pc.Idle? {
        OnlyCloser(s, p, q);
      }
    }
  }

  /** When both ends are closed and a closer is leaving, everybody else has left. */
  lemma OnlyCloser(s: State, p: nat, q: nat)
    requires Core(s) && p < |s.procs| && q < |s.procs| && q != p
    requires s.procs[p].pc.Leave? && s.procs[p].pc.r.Closer? && !s.readopen && !s.writeopen
    ensures s.procs[q].pc.Idle?
  {
    var pc := s.procs[q].pc;
    assert !Uses(pc, true) && !Uses(pc, false);
    assert s.plock == Held(p);
    assert Closing(pc, true) || Closing(pc, false) ==> HoldsPipe(pc);
  }

  // ---------------------------------------------------------------- no lost wakeup

  ghost predicate Sleeper(procs: seq<Proc>, p: nat, c: Chan)
  {
    exists q :: 0 <= q < |procs| && q != p && Drowsy(procs[q], c)
  }

  /** A sleeper's reason, or somebody's debt to it, outlives the step. */
  ghost predicate DebtKept(s: State, t: State, p: nat, c: Chan)
    requires p < |s.procs| && p < |t.procs|
  {
    && (Drowsy(t.procs[p], c) ==> Drowsy(s.procs[p], c) || Blocked(t.ring, t.readopen, t.writeopen, c))
    && (HoldsPipe(s.procs[p].pc) && Sleeper(t.procs, p, c) &&
        (Blocked(s.ring, s.readopen, s.writeopen, c) || Owes(s.procs[p].pc, c)) ==>
         Blocked(t.ring, t.readopen, t.writeopen, c) || (t.plock == Held(p) && Owes(t.procs[p].pc, c)))
  }

  lemma DebtsKept(s: State, t: State, p: nat)
    requires Locks(s.procs, s.plock, s.tlock) && p < |s.procs| && OthersStay(s.procs, t.procs, p) && Guarded(s, t, p)
    requires LockMove(s.plock, t.plock, p) && (HoldsPipe(t.procs[p].pc) <==> t.plock == Held(p))
    requires NoneLost(s) && forall c :: DebtKept(s, t, p, c)
    ensures NoneLost(t)
  {
    forall q, c | 0 <= q < |t.procs| && Drowsy(t.procs[q], c)
      ensures Blocked(t.ring, t.readopen, t.writeopen, c) || Owed(t.procs, t.plock, c)
    {
      assert DebtKept(s, t, p, c);
      if q != p {
        assert t.procs[q].pc == s.procs[q].pc && Drowsy(s.procs[q], c);
        assert Sleeper(t.procs, p, c);
      }
    }
  }

  lemma WriterDebts(s: State, p: nat, c: Chan)
    requires Core(s) && p < |s.procs| && s.procs[p].pc.Running? && s.procs[p].pc.r.Writer? && !Strands(s, Step(p))
    ensures DebtKept(s, RunWriter(s, p, s.procs[p].pc.r), p, c)
  {
    hide Ends, Fifo;
    if !s.readopen {
      NoReaderSleeps(s, p);
    }
    RingNotBoth(s.ring);
  }

  lemma RingNotBoth(g: Ring)
    ensures !(Full(g) && Empty(g))
  {
  }

  lemma ReaderDebts(s: State, p: nat, c: Chan)
    requires Core(s) && p < |s.procs| && s.procs[p].pc.Running? && s.procs[p].pc.r.Reader?
    ensures DebtKept(s, RunReader(s, p, s.procs[p].pc.r), p, c)
  {
    if s.procs[p].pc.r.copying {
      CopierDebts(s, p, c);
    } else {
      WaiterDebts(s, p, c);
    }
  }

  lemma CopierDebts(s: State, p: nat, c: Chan)
    requires Core(s) && p < |s.procs| && s.procs[p].pc.Running? && s.procs[p].pc.r.Reader? && s.procs[p].pc.r.copying
    ensures DebtKept(s, RunReader(s, p, s.procs[p].pc.r), p, c)
  {
    hide Ends, Fifo;
  }

  lemma WaiterDebts(s: State, p: nat, c: Chan)
    requires Core(s) && p < |s.procs| && s.procs[p].pc.Running? && s.procs[p].pc.r.Reader? && !s.procs[p].pc.r.copying
    ensures DebtKept(s, RunReader(s, p, s.procs[p].pc.r), p, c)
  {
    hide Ends, Fifo;
  }

  lemma CloserDebts(s: State, p: nat, c: Chan)
    requires Core(s) && p < |s.procs| && s.procs[p].pc.Running? && s.procs[p].pc.r.Closer?
    ensures DebtKept(s, RunCloser(s, p, s.procs[p].pc.r), p, c)
  {
    hide Ends, Fifo;
  }

  lemma RunDebts(s: State, p: nat, c: Chan)
    requires Core(s) && p < |s.procs| && s.procs[p].pc.Running? && !Strands(s, Step(p))
    ensures DebtKept(s, RunRole(s, p, s.procs[p].pc.r), p, c)
  {
    hide Locks, AllSensible, Ends, DebtKept, RunWriter, RunReader, RunCloser, Strands;
    match s.procs[p].pc.r
    case Writer(_, _, _) => WriterDebts(s, p, c);
    case Reader(_, _, _) => ReaderDebts(s, p, c);
    case Closer(_) => CloserDebts(s, p, c);
  }

  lemma NoReaderSleeps(s: State, p: nat)
    requires Core(s) && !s.readopen
    ensures !Sleeper(s.procs, p, OnRead)
  {
    forall q | 0 <= q < |s.procs| ensures !Drowsy(s.procs[q], OnRead) {
      assert !Uses(s.procs[q].pc, false);
    }
  }

  lemma WakeDebts(s: State, p: nat, c: Chan)
    requires Core(s) && p < |s.procs| && s.procs[p].pc.WakeHold?
    ensures DebtKept(s, Wake(s, p, s.procs[p].pc.r), p, c)
  {
    var t := Wake(s, p, s.procs[p].pc.r);
    forall q | 0 <= q < |s.procs| && q != p ensures !Drowsy(t.procs[q], WakeChan(s.procs[p].pc.r)) {
      assert HoldsTable(s.procs[p].pc) && s.tlock == Held(p) && !HoldsTable(s.procs[q].pc);
      assert t.procs[q] == Woken(s.procs[q], WakeChan(s.procs[p].pc.r));
    }
  }

  lemma SleepDebts(s: State, p: nat, c: Chan)
    requires Core(s) && p < |s.procs| && TakeStep(s, p).Some?
    requires var pc := s.procs[p].pc; pc.SleepWant? || pc.SleepHold? || pc.SleepMark? || pc.InSched?
    ensures DebtKept(s, TakeStep(s, p).value, p, c)
  {
  }

  lemma CallDebts(s: State, p: nat, c: Chan)
    requires Core(s) && p < |s.procs| && TakeStep(s, p).Some?
    requires var pc := s.procs[p].pc; pc.Want? || pc.WakeWant? || pc.WakeDone? || pc.Leave?
    ensures DebtKept(s, TakeStep(s, p).value, p, c)
  {
  }

  lemma StepNoneLost(s: State, p: nat)
    requires Core(s) && NoneLost(s) && p < |s.procs| && TakeStep(s, p).Some? && !Strands(s, Step(p))
    ensures NoneLost(TakeStep(s, p).value)
  {
    var t := TakeStep(s, p).value;
    StepMoves(s, p);
    forall c ensures DebtKept(s, t, p, c) {
      if s.procs[p].pc.Running? {
        RunDebts(s, p, c);
      } else if s.procs[p].pc.WakeHold? {
        WakeDebts(s, p, c);
      } else if var pc := s.procs[p].pc; pc.SleepWant? || pc.SleepHold? || pc.SleepMark? || pc.InSched? {
        SleepDebts(s, p, c);
      } else {
        CallDebts(s, p, c);
      }
    }
    DebtsKept(s, t, p);
  }

  // ---------------------------------------------------------------- whole runs

  lemma BeginKeeps(s: State, p: nat, r: Role)
    requires Core(s) && p < |s.procs| && s.procs[p].pc.Idle? && MayBegin(s, r)
    ensures Core(Enter(s, p, r)) && (NoneLost(s) ==> NoneLost(Enter(s, p, r)))
  {
    var t := Enter(s, p, r);
    assert OthersStay(s.procs, t.procs, p);
    assert !HoldsPipe(s.procs[p].pc) && !HoldsTable(s.procs[p].pc);
    LocksKept(s.procs, t.procs, p, s.plock, t.plock, s.tlock, t.tlock);
    SensibleKept(s, t, p);
    FifoKept(s, t, p);
    BeginEnds(s, p, r, true);
    BeginEnds(s, p, r, false);
    if NoneLost(s) {
      BeginNoneLost(s, p, r);
    }
  }

  lemma BeginEnds(s: State, p: nat, r: Role, w: bool)
    requires Core(s) && p < |s.procs| && s.procs[p].pc.Idle? && MayBegin(s, r)
    ensures var t := Enter(s, p, r);
      Ends(t.procs, if w then t.writeopen else t.readopen, if w then t.wfile else t.rfile, w)
  {
    hide Locks, AllSensible, Fifo;
    var t := Enter(s, p, r);
    forall q | 0 <= q < |t.procs| && q != p ensures t.procs[q] == s.procs[q] {}
  }

  lemma BeginNoneLost(s: State, p: nat, r: Role)
    requires Core(s) && p < |s.procs| && s.procs[p].pc.Idle? && NoneLost(s)
    ensures NoneLost(Enter(s, p, r))
  {
    hide Holds, Ends, Fifo, AllSensible;
    var t := Enter(s, p, r);
    forall q, c | 0 <= q < |t.procs| && Drowsy(t.procs[q], c)
      ensures Blocked(t.ring, t.readopen, t.writeopen, c) || Owed(t.procs, t.plock, c)
    {
      assert Drowsy(s.procs[q], c);
      assert !HoldsPipe(s.procs[p].pc);
    }
  }

  lemma KillKeeps(s: State, p: nat)
    requires Core(s) && p < |s.procs|
    ensures Core(KillProc(s, p)) && (NoneLost(s) ==> NoneLost(KillProc(s, p)))
  {
    var t := KillProc(s, p);
    assert OthersStay(s.procs, t.procs, p) && t.procs[p].pc == s.procs[p].pc;
    assert Sensible(s.procs[p], s.ring, s.readopen, s.writeopen);
    LocksKept(s.procs, t.procs, p, s.plock, t.plock, s.tlock, t.tlock);
    SensibleKept(s, t, p);
    FifoKept(s, t, p);
    EndsKept(s.procs, t.procs, p, s.readopen, t.readopen, s.rfile, false);
    EndsKept(s.procs, t.procs, p, s.writeopen, t.writeopen, s.wfile, true);
    if NoneLost(s) {
      KillNoneLost(s, p);
    }
  }

  lemma KillNoneLost(s: State, p: nat)
    requires p < |s.procs| && NoneLost(s)
    ensures NoneLost(KillProc(s, p))
  {
    var t := KillProc(s, p);
    forall q, c | 0 <= q < |t.procs| && Drowsy(t.procs[q], c)
      ensures Blocked(t.ring, t.readopen, t.writeopen, c) || Owed(t.procs, t.plock, c)
    {
      assert Drowsy(s.procs[q], c);
    }
  }

  lemma NextKeeps(s: State, e: Event)
    requires Core(s) && Next(s, e).Some?
    ensures Core(Next(s, e).value)
    ensures NoneLost(s) && !Strands(s, e) ==> NoneLost(Next(s, e).value)
  {
    match e
    case Begin(p, r) => BeginKeeps(s, p, r);
    case Kill(p) => KillKeeps(s, p);
    case Step(p) =>
      StepMoves(s, p);
      FreedStep(s, p);
      MovesKeep(s, TakeStep(s, p).value, p);
      if NoneLost(s) && !Strands(s, e) {
        StepNoneLost(s, p);
      }
  }

  lemma StrandingLoses(s: State, e: Event)
    requires Core(s) && Strands(s, e)
    ensures Next(s, e).Some? && !NoneLost(Next(s, e).value)
  {
    var q :| 0 <= q < |s.procs| && Drowsy(s.procs[q], OnRead);
    var t := At(s, e.p, Leave(s.procs[e.p].pc.r));
    assert Next(s, e) == Some(t) && Drowsy(t.procs[q], OnRead);
    assert HoldsPipe(s.procs[e.p].pc) && t.plock == Held(e.p);
    assert !Empty(s.ring) && !Owed(t.procs, t.plock, OnRead);
  }

  /** A step loses a wakeup exactly when it is such an exit. */
  lemma LosesExactlyThere(s: State, e: Event)
    requires Core(s) && NoneLost(s) && Next(s, e).Some?
    ensures NoneLost(Next(s, e).value) <==> !Strands(s, e)
  {
    NextKeeps(s, e);
    if Strands(s, e) {
      StrandingLoses(s, e);
    }
  }

  /** `es` takes `s` to `t`. */
  ghost predicate Reaches(s: State, es: seq<Event>, t: State)
    decreases |es|
  {
    if es == [] then t == s
    else Shaped(s.ring) && Next(s, es[0]).Some? && Reaches(Next(s, es[0]).value, es[1..], t)
  }

  /** No writer takes that exit on the way while a reader is asleep or about to be. */
  ghost predicate Clean(s: State, es: seq<Event>)
    decreases |es|
  {
    es == [] || (!Strands(s, es[0]) && (Shaped(s.ring) && Next(s, es[0]).Some? ==>
        Clean(Next(s, es[0]).value, es[1..])))
  }

  /** In no state on the way a sleeper has neither its reason nor a debtor. */
  ghost predicate NeverLost(s: State, es: seq<Event>)
    decreases |es|
  {
    NoneLost(s) && (es != [] && Shaped(s.ring) && Next(s, es[0]).Some? ==> NeverLost(Next(s, es[0]).value, es[1..]))
  }

  lemma {:induction false} RunKeeps(s: State, es: seq<Event>, t: State)
    requires Core(s) && Reaches(s, es, t)
    ensures Core(t) && (NoneLost(s) && Clean(s, es) ==> NoneLost(t))
    decreases |es|
  {
    if es != [] {
      NextKeeps(s, es[0]);
      RunKeeps(Next(s, es[0]).value, es[1..], t);
    }
  }

  lemma {:induction false} CleanLosesNone(s: State, es: seq<Event>, t: State)
    requires Core(s) && NoneLost(s) && Reaches(s, es, t)
    ensures NeverLost(s, es) <==> Clean(s, es)
    decreases |es|
  {
    if es != [] {
      var s1 := Next(s, es[0]).value;
      NextKeeps(s, es[0]);
      LosesExactlyThere(s, es[0]);
      if NoneLost(s1) {
        CleanLosesNone(s1, es[1..], t);
      } else {
        assert !NeverLost(s1, es[1..]);
      }
    }
  }

  lemma InitialKeeps(s: State)
    requires Initial(s)
    ensures Core(s) && NoneLost(s)
  {
  }

  /** Bytes come out in the order they went in, none lost, repeated or made up, and at most 512 wait. */
  lemma FirstInFirstOut(s: State, es: seq<Event>, t: State)
    requires Initial(s) && Reaches(s, es, t)
    ensures t.consumed <= t.written
    ensures (t.ring.nwrite - t.ring.nread) % WRAP == |t.written| - |t.consumed| <= PIPESIZE
    ensures forall p :: 0 <= p < |t.procs| ==> Contiguous(t.procs[p].pc, t.consumed)
  {
    InitialKeeps(s);
    RunKeeps(s, es, t);
    Occupancy(t.ring, t.written, |t.consumed|);
  }

  ghost predicate SleepsOn(s: State, c: Chan)
  {
    exists p :: 0 <= p < |s.procs| && s.procs[p].asleep && s.procs[p].pc.InSched? && SleepChan(s.procs[p].pc.r) == c
  }

  /** A run loses a wakeup somewhere exactly when it contains that exit with a reader asleep or about to be. */
  lemma LostExactlyThere(s: State, es: seq<Event>, t: State)
    requires Initial(s) && Reaches(s, es, t)
    ensures NeverLost(s, es) <==> Clean(s, es)
  {
    InitialKeeps(s);
    CleanLosesNone(s, es, t);
  }

  /** Without it, with the lock free, who sleeps has a reason to; so readers and writers never all sleep. */
  lemma NoLostWakeup(s: State, es: seq<Event>, t: State)
    requires Initial(s) && Reaches(s, es, t) && Clean(s, es) && t.plock == Free
    ensures SleepsOn(t, OnRead) ==> Empty(t.ring) && t.writeopen
    ensures SleepsOn(t, OnWrite) ==> Full(t.ring) && t.readopen
    ensures !(SleepsOn(t, OnRead) && SleepsOn(t, OnWrite))
  {
    InitialKeeps(s);
    RunKeeps(s, es, t);
    forall p | 0 <= p < |t.procs| && t.procs[p].asleep && t.procs[p].pc.InSched?
      ensures Blocked(t.ring, t.readopen, t.writeopen, SleepChan(t.procs[p].pc.r))
    {
      assert Drowsy(t.procs[p], SleepChan(t.procs[p].pc.r));
    }
    Occupancy(t.ring, t.written, |t.consumed|);
  }

  /** The pipe's page is freed only when nobody is in a pipe call or can start one. */
  lemma FreedUnused(s: State, es: seq<Event>, t: State, e: Event)
    requires Initial(s) && Reaches(s, es, t) && t.freed
    ensures Quiet(t.procs) && (e.Step? || e.Begin? ==> Shaped(t.ring) && Next(t, e).None?)
  {
    InitialKeeps(s);
    RunKeeps(s, es, t);
  }

  // ---------------------------------------------------------------- the killed exit

  lemma OneMore(s: State, e: Event, s1: State, es: seq<Event>, t: State)
    requires Shaped(s.ring) && Next(s, e) == Some(s1) && Reaches(s1, es, t)
    ensures Reaches(s, [e] + es, t)
  {
    var all := [e] + es;
    assert all[0] == e && all[1..] == es;
  }

  ghost predicate Stranded(t: State, q: nat)
  {
    t.plock == Free && q < |t.procs| && t.procs[q].asleep && Drowsy(t.procs[q], OnRead) && Full(t.ring)
  }

  /**
   That exit strands every reader that is asleep or about to be: some steps later it sleeps, the pipe is full
   and free, and nobody will wake it.
   */
  lemma DirtyExitStrands(s: State, p: nat, q: nat)
    requires Core(s) && LeavesDirty(s, Step(p)) && q < |s.procs| && Drowsy(s.procs[q], OnRead)
    ensures exists es, t :: Reaches(s, es, t) && Stranded(t, q)
  {
    if s.procs[q].pc.InSched? {
      SleeperStranded(s, p, q);
    } else {
      NodderStranded(s, p, q);
    }
  }

  lemma NodderStranded(s: State, p: nat, q: nat)
    requires Shaped(s.ring) && LeavesDirty(s, Step(p)) && q < |s.procs| && Drowsy(s.procs[q], OnRead)
        && s.procs[q].pc.SleepMark?
    ensures exists es, t :: Reaches(s, es, t) && Stranded(t, q)
  {
    var r := s.procs[p].pc.r;
    var s1 := At(s, p, Leave(r));
    var s2 := Mark(s1, q, s.procs[q].pc.r);
    var t := Return(s2, p, r);
    OneMore(s2, Step(p), t, [], t);
    OneMore(s1, Step(q), s2, [Step(p)] + [], t);
    OneMore(s, Step(p), s1, [Step(q)] + ([Step(p)] + []), t);
    assert Stranded(t, q);
  }

  lemma SleeperStranded(s: State, p: nat, q: nat)
    requires Shaped(s.ring) && LeavesDirty(s, Step(p)) && q < |s.procs| && Drowsy(s.procs[q], OnRead)
        && s.procs[q].asleep
    ensures exists es, t :: Reaches(s, es, t) && Stranded(t, q)
  {
    var r := s.procs[p].pc.r;
    var t1 := At(s, p, Leave(r));
    var t := Return(t1, p, r);
    OneMore(t1, Step(p), t, [], t);
    OneMore(s, Step(p), t1, [Step(p)] + [], t);
    assert Stranded(t, q);
  }

  /** A killed writer fills the pipe, byte by byte, in one hold of the lock, and leaves by that exit. */
  lemma {:induction false} FillAndLeave(s: State, p: nat, q: nat, r: Role, room: nat)
    requires Holds(s.ring, s.written, |s.consumed|) && p < |s.procs| && q < |s.procs| && q != p && s.readopen
    requires s.procs[p].pc == Running(r) && r.Writer? && s.procs[p].killed && (r.dirty || room > 0)
    requires room == PIPESIZE - (|s.written| - |s.consumed|) && |r.buf| - r.i > room
    requires Drowsy(s.procs[q], OnRead) && s.procs[q].asleep
    ensures exists es, t :: Reaches(s, es, t) && Stranded(t, q)
    decreases room
  {
    Occupancy(s.ring, s.written, |s.consumed|);
    if room == 0 {
      SleeperStranded(s, p, q);
    } else {
      var s1 := RunWriter(s, p, r);
      assert Next(s, Step(p)) == Some(s1);
      PutHolds(s.ring, s.written, |s.consumed|, r.buf[r.i]);
      FillAndLeave(s1, p, q, s1.procs[p].pc.r, room - 1);
      var es, t :| Reaches(s1, es, t) && Stranded(t, q);
      OneMore(s, Step(p), s1, es, t);
    }
  }

  /** So the exclusion is needed: from any fresh pipe with two processes, some run strands a reader. */
  lemma KilledExitLosesWakeup(s: State, buf: seq<Byte>)
    requires Initial(s) && |s.procs| >= 2 && !s.procs[0].killed && |buf| > PIPESIZE
    ensures exists es, t :: Reaches(s, es, t) && Stranded(t, 0)
  {
    InitialKeeps(s);
    var rd := Reader(1, [], false);
    var s1 := Enter(s, 0, rd);
    var es, t := ReaderThenWriter(s1, rd, buf);
    OneMore(s, Begin(0, rd), s1, es, t);
  }

  lemma ReaderThenWriter(s: State, rd: Role, buf: seq<Byte>) returns (es: seq<Event>, t: State)
    requires Holds(s.ring, s.written, |s.consumed|) && |s.procs| >= 2 && s.plock == Free && s.tlock == Free
        && s.readopen && s.writeopen && s.wfile
    requires s.procs[0] == Proc(Want(rd), false, false) && rd == Reader(1, [], false) && s.procs[1].pc == Idle
    requires s.written == [] && |buf| > PIPESIZE
    ensures Reaches(s, es, t) && Stranded(t, 0)
  {
    var s1 := At(s, 0, Running(rd)).(plock := Held(0));
    Occupancy(s.ring, s.written, |s.consumed|);
    var s2 := At(s1, 0, SleepWant(rd));
    es, t := SleeperThenWriter(s2, rd, buf);
    OneMore(s1, Step(0), s2, es, t);
    OneMore(s, Step(0), s1, [Step(0)] + es, t);
    es := [Step(0)] + ([Step(0)] + es);
  }

  lemma SleeperThenWriter(s: State, rd: Role, buf: seq<Byte>) returns (es: seq<Event>, t: State)
    requires Holds(s.ring, s.written, |s.consumed|) && |s.procs| >= 2 && s.plock == Held(0) && s.tlock == Free
        && s.readopen && s.writeopen && s.wfile
    requires s.procs[0] == Proc(SleepWant(rd), false, false) && rd == Reader(1, [], false) && s.procs[1].pc == Idle
    requires s.written == [] && |buf| > PIPESIZE
    ensures Reaches(s, es, t) && Stranded(t, 0)
  {
    var s1 := At(s, 0, SleepHold(rd)).(tlock := Held(0));
    es, t := HalfAsleep(s1, rd, buf);
    OneMore(s, Step(0), s1, es, t);
    es := [Step(0)] + es;
  }

  lemma HalfAsleep(s: State, rd: Role, buf: seq<Byte>) returns (es: seq<Event>, t: State)
    requires Holds(s.ring, s.written, |s.consumed|) && |s.procs| >= 2 && s.plock == Held(0) && s.tlock == Held(0)
        && s.readopen && s.wfile
    requires s.procs[0] == Proc(SleepHold(rd), false, false) && rd.Reader? && s.procs[1].pc == Idle
    requires s.written == [] && |buf| > PIPESIZE
    ensures Reaches(s, es, t) && Stranded(t, 0)
  {
    var s1 := At(s, 0, SleepMark(rd)).(plock := Free);
    var s2 := Mark(s1, 0, rd);
    es, t := WriterKilled(s2, rd, buf);
    OneMore(s1, Step(0), s2, es, t);
    OneMore(s, Step(0), s1, [Step(0)] + es, t);
    es := [Step(0)] + ([Step(0)] + es);
  }

  lemma WriterKilled(s: State, rd: Role, buf: seq<Byte>) returns (es: seq<Event>, t: State)
    requires Holds(s.ring, s.written, |s.consumed|) && |s.procs| >= 2 && s.plock == Free && s.tlock == Free
        && s.readopen && s.wfile
    requires s.procs[0] == Proc(InSched(rd), true, false) && rd.Reader? && s.procs[1].pc == Idle
    requires s.written == [] && |buf| > PIPESIZE
    ensures Reaches(s, es, t) && Stranded(t, 0)
  {
    var w := Writer(buf, 0, false);
    var s1 := Enter(s, 1, w);
    es, t := WriterFills(s1, rd, w);
    OneMore(s, Begin(1, w), s1, es, t);
    es := [Begin(1, w)] + es;
  }

  lemma WriterFills(s: State, rd: Role, w: Role) returns (es: seq<Event>, t: State)
    requires Holds(s.ring, s.written, |s.consumed|) && |s.procs| >= 2 && s.plock == Free && s.tlock == Free
        && s.readopen
    requires s.procs[0] == Proc(InSched(rd), true, false) && rd.Reader? && s.procs[1].pc == Want(w)
    requires s.written == [] && w.Writer? && w.i == 0 && |w.buf| > PIPESIZE
    ensures Reaches(s, es, t) && Stranded(t, 0)
  {
    var s1 := At(s, 1, Running(w)).(plock := Held(1));
    var s2 := KillProc(s1, 1);
    FillAndLeave(s2, 1, 0, w, PIPESIZE);
    es, t :| Reaches(s2, es, t) && Stranded(t, 0);
    OneMore(s1, Kill(1), s2, es, t);
    OneMore(s, Step(1), s1, [Kill(1)] + es, t);
    es := [Step(1)] + ([Kill(1)] + es);
  }
}
