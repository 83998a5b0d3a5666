/** What each call on a pipe amounts to, in every interleaving: how much it moves, when it returns or sleeps. */
module PipeCalls {
  import opened Options
  import opened Disk
  import opened PipeRing
  import opened PipeRuns

  /** The value that pipewrite or piperead returns. */
  function Answer(r: Role): int
  {
    match r
    case Writer(buf, i, _) => if i < |buf| then -1 else |buf|
    case Reader(_, got, copying) => if copying then |got| else -1
    case Closer(_) => 0
  }

  // ---------------------------------------------------------------- what a call knows

  predicate Copied(pc: Pc) { pc.WakeWant? || pc.WakeHold? || pc.WakeDone? || pc.Leave? }

  /** A reader stops copying at `n` bytes or an empty ring, and starts only with a byte there or the writers gone. */
  predicate ReaderTold(q: Proc, g: Ring, writeopen: bool)
    requires !q.pc.Idle? && q.pc.r.Reader?
  {
    var r := q.pc.r;
    && |r.got| <= r.n
    && (r.copying && r.got == [] && q.pc.Running? && writeopen ==> !Empty(g))
    && (r.copying && Copied(q.pc) ==> (|r.got| == r.n || Empty(g)) && (r.got == [] && r.n > 0 ==> !writeopen))
    && (!r.copying && Copied(q.pc) ==> q.pc.Leave? && Empty(g) && writeopen && q.killed)
  }

  /** A writer stops before its last byte only at a full ring, when killed or without readers. */
  predicate WriterTold(q: Proc, g: Ring, readopen: bool)
    requires !q.pc.Idle? && q.pc.r.Writer?
  {
    var r := q.pc.r;
    && r.i <= |r.buf|
    && (q.pc.Leave? && r.i < |r.buf| ==> Full(g) && (q.killed || !readopen))
    && (q.pc.SleepWant? || q.pc.SleepHold? ==> r.i < |r.buf|)
  }

  predicate ProcTold(q: Proc, g: Ring, readopen: bool, writeopen: bool)
  {
    && (!q.pc.Idle? && q.pc.r.Reader? ==> ReaderTold(q, g, writeopen))
    && (!q.pc.Idle? && q.pc.r.Writer? ==> WriterTold(q, g, readopen))
  }

  ghost predicate AllTold(s: State)
  {
    forall p :: 0 <= p < |s.procs| ==> ProcTold(s.procs[p], s.ring, s.readopen, s.writeopen)
  }

  /** The locks are held by processes; the pipe goes with the last close. */
  ghost predicate Kept(s: State)
  {
    && (s.plock.Held? ==> s.plock.who < |s.procs|) && (s.tlock.Held? ==> s.tlock.who < |s.procs|)
    && (s.freed ==> !s.readopen && !s.writeopen)
    && (!s.readopen && !s.writeopen && !s.freed ==> s.plock.Held?)
  }

  /** Only the process's own entry changes, and there neither `asleep` nor `killed`. */
  predicate OwnPc(x: seq<Proc>, y: seq<Proc>, p: nat)
  {
    p < |x| && p < |y| && y == x[p := x[p].(pc := y[p].pc)]
  }

  lemma WriterEffect(s: State, p: nat, r: Role)
    requires p < |s.procs| && r.Writer? && Shaped(s.ring)
    ensures var t := RunWriter(s, p, r);
      && OwnPc(s.procs, t.procs, p) && t.consumed == s.consumed
      && t.readopen == s.readopen && t.writeopen == s.writeopen
    ensures r.i >= |r.buf| ==> RunWriter(s, p, r) == At(s, p, WakeWant(r))
    ensures r.i < |r.buf| && Full(s.ring) ==>
              var t := RunWriter(s, p, r);
              && t.ring == s.ring && t.written == s.written
              && t.procs[p].pc == if !s.readopen || s.procs[p].killed then Leave(r) else WakeWant(r)
    ensures r.i < |r.buf| && !Full(s.ring) ==>
              var t := RunWriter(s, p, r);
              t.written == s.written + [r.buf[r.i]] && t.procs[p].pc == Running(r.(i := r.i + 1, dirty := true))
  {
    hide Full, Put, Shaped;
  }

  lemma WaiterEffect(s: State, p: nat, r: Role)
    requires p < |s.procs| && r.Reader? && Shaped(s.ring) && !r.copying
    ensures var t := RunReader(s, p, r);
      && OwnPc(s.procs, t.procs, p) && t == s.(procs := t.procs)
      && t.procs[p].pc == if !(Empty(s.ring) && s.writeopen) then Running(r.(copying := true))
                          else if s.procs[p].killed then Leave(r) else SleepWant(r)
  {
    hide Empty, Drop, First, Shaped;
  }

  lemma CopierEffect(s: State, p: nat, r: Role)
    requires p < |s.procs| && r.Reader? && Shaped(s.ring) && r.copying
    ensures var t := RunReader(s, p, r);
      && OwnPc(s.procs, t.procs, p) && t == s.(procs := t.procs, ring := t.ring, consumed := t.consumed)
    ensures |r.got| >= r.n || Empty(s.ring) ==> RunReader(s, p, r) == At(s, p, WakeWant(r))
    ensures |r.got| < r.n && !Empty(s.ring) ==>
              var t := RunReader(s, p, r); var b := First(s.ring);
              t.consumed == s.consumed + [b] && t.procs[p].pc == Running(r.(got := r.got + [b]))
  {
    hide Empty, Drop, First, Shaped;
  }

  lemma CloserEffect(s: State, p: nat, r: Role)
    requires p < |s.procs| && r.Closer?
    ensures var t := RunCloser(s, p, r);
      && OwnPc(s.procs, t.procs, p) && t == s.(procs := t.procs, readopen := t.readopen, writeopen := t.writeopen)
      && t.procs[p].pc == WakeWant(r)
  {
  }

  lemma RunsOwnPc(s: State, p: nat, r: Role)
    requires p < |s.procs| && Shaped(s.ring)
    ensures OwnPc(s.procs, RunRole(s, p, r).procs, p)
  {
    hide RunWriter, RunReader, RunCloser, Shaped, OwnPc;
    match r
    case Writer(_, _, _) => WriterEffect(s, p, r);
    case Closer(_) => CloserEffect(s, p, r);
    case Reader(_, _, copying) => if copying { CopierEffect(s, p, r); } else { WaiterEffect(s, p, r); }
  }

  /** What does not change outside the copying. */
  predicate SamePipe(s: State, t: State)
  {
    && t.ring == s.ring && t.written == s.written && t.consumed == s.consumed
    && t.readopen == s.readopen && t.writeopen == s.writeopen && |t.procs| == |s.procs|
  }

  lemma WakeEffect(s: State, p: nat)
    requires p < |s.procs| && Shaped(s.ring) && s.procs[p].pc.WakeHold?
    ensures TakeStep(s, p).Some?
    ensures var t := TakeStep(s, p).value;
      SamePipe(s, t) && t.procs[p].killed == s.procs[p].killed && t.procs[p].pc == Onward(s.procs[p].pc)
  {
    hide RunRole, Shaped, Return, AfterWake, Mark;
  }

  lemma SleepEffect(s: State, p: nat)
    requires p < |s.procs| && Shaped(s.ring) && TakeStep(s, p).Some?
    requires s.procs[p].pc.SleepMark? || s.procs[p].pc.InSched? || s.procs[p].pc.SleepWant? || s.procs[p].pc.SleepHold?
    ensures var t := TakeStep(s, p).value;
      SamePipe(s, t) && t.procs[p].killed == s.procs[p].killed && t.procs[p].pc == Onward(s.procs[p].pc)
  {
    hide RunRole, Shaped, Return, Wake, AfterWake;
  }

  lemma RestEffect(s: State, p: nat)
    requires p < |s.procs| && Shaped(s.ring) && TakeStep(s, p).Some?
    requires s.procs[p].pc.Want? || s.procs[p].pc.WakeWant? || s.procs[p].pc.WakeDone? || s.procs[p].pc.Leave?
             || s.procs[p].pc.Idle?
    ensures var t := TakeStep(s, p).value;
      SamePipe(s, t) && t.procs[p].killed == s.procs[p].killed && t.procs[p].pc == Onward(s.procs[p].pc)
  {
    hide RunRole, Shaped, Wake, Mark, AfterWake;
  }

  /** Outside its copying a call only moves on. */
  lemma CallEffect(s: State, p: nat)
    requires p < |s.procs| && Shaped(s.ring) && TakeStep(s, p).Some? && !s.procs[p].pc.Running?
    ensures var t := TakeStep(s, p).value;
      SamePipe(s, t) && t.procs[p].killed == s.procs[p].killed && t.procs[p].pc == Onward(s.procs[p].pc)
  {
    hide TakeStep, Shaped, SamePipe, Onward;
    var pc := s.procs[p].pc;
    if pc.WakeHold? {
      WakeEffect(s, p);
    } else if pc.SleepMark? || pc.InSched? || pc.SleepWant? || pc.SleepHold? {
      SleepEffect(s, p);
    } else {
      RestEffect(s, p);
    }
  }

  function Onward(pc: Pc): Pc
  {
    match pc
    case Idle => Idle
    case Want(r) => Running(r)
    case Running(r) => Running(r)
    case WakeWant(r) => WakeHold(r)
    case WakeHold(r) => WakeDone(if r.Writer? then r.(dirty := false) else r)
    case WakeDone(r) => AfterWake(r)
    case SleepWant(r) => SleepHold(r)
    case SleepHold(r) => SleepMark(r)
    case SleepMark(r) => InSched(r)
    case InSched(r) => Want(r)
    case Leave(r) => Idle
  }

  lemma KilledStays(s: State, p: nat)
    requires p < |s.procs| && Shaped(s.ring) && TakeStep(s, p).Some?
    ensures var t := TakeStep(s, p).value;
      |t.procs| == |s.procs| && forall q :: 0 <= q < |s.procs| ==> t.procs[q].killed == s.procs[q].killed
  {
    hide RunRole, Shaped, Wake, AfterWake;
    if s.procs[p].pc.Running? {
      RunsOwnPc(s, p, s.procs[p].pc.r);
    } else if s.procs[p].pc.WakeHold? {
      WakeKills(s, p);
    }
  }

  lemma WakeKills(s: State, p: nat)
    requires p < |s.procs| && Shaped(s.ring) && s.procs[p].pc.WakeHold?
    ensures var t := Wake(s, p, s.procs[p].pc.r);
      |t.procs| == |s.procs| && forall q :: 0 <= q < |s.procs| ==> t.procs[q].killed == s.procs[q].killed
  {
    hide Shaped;
  }

  lemma ReaderRuns(s: State, p: nat, r: Role)
    requires p < |s.procs| && Shaped(s.ring) && s.procs[p].pc == Running(r) && r.Reader?
        && ReaderTold(s.procs[p], s.ring, s.writeopen)
    ensures var t := RunReader(s, p, r); p < |t.procs| && !t.procs[p].pc.Idle? && t.procs[p].pc.r.Reader?
                                         && ReaderTold(t.procs[p], t.ring, t.writeopen)
  {
    hide Empty, RunReader, Shaped;
    if r.copying {
      CopierEffect(s, p, r);
    } else {
      WaiterEffect(s, p, r);
    }
  }

  lemma WriterRuns(s: State, p: nat, r: Role)
    requires p < |s.procs| && Shaped(s.ring) && s.procs[p].pc == Running(r) && r.Writer?
        && WriterTold(s.procs[p], s.ring, s.readopen)
    ensures var t := RunWriter(s, p, r); p < |t.procs| && !t.procs[p].pc.Idle? && t.procs[p].pc.r.Writer?
                                         && WriterTold(t.procs[p], t.ring, t.readopen)
  {
    hide Full, RunWriter, Shaped;
    WriterEffect(s, p, r);
  }

  lemma SelfTold(s: State, p: nat)
    requires Core(s) && p < |s.procs| && TakeStep(s, p).Some?
        && ProcTold(s.procs[p], s.ring, s.readopen, s.writeopen)
    ensures var t := TakeStep(s, p).value; p < |t.procs| && ProcTold(t.procs[p], t.ring, t.readopen, t.writeopen)
  {
    hide Core, TakeStep, Full, Empty, Shaped;
    CoreShaped(s);
    if s.procs[p].pc.Running? {
      assert TakeStep(s, p) == Some(RunRole(s, p, s.procs[p].pc.r)) by { Runs(s, p); }
      SelfRuns(s, p, s.procs[p].pc.r);
    } else {
      CoreSensible(s, p);
      CallEffect(s, p);
    }
  }

  lemma Runs(s: State, p: nat)
    requires p < |s.procs| && Shaped(s.ring) && s.procs[p].pc.Running?
    ensures TakeStep(s, p) == Some(RunRole(s, p, s.procs[p].pc.r))
  {
    hide RunRole, Shaped;
  }

  lemma CoreSensible(s: State, p: nat)
    requires Core(s) && p < |s.procs|
    ensures Sensible(s.procs[p], s.ring, s.readopen, s.writeopen)
  {
  }

  lemma SelfRuns(s: State, p: nat, r: Role)
    requires p < |s.procs| && Shaped(s.ring) && s.procs[p].pc == Running(r)
        && ProcTold(s.procs[p], s.ring, s.readopen, s.writeopen)
    ensures var t := RunRole(s, p, r); p < |t.procs| && ProcTold(t.procs[p], t.ring, t.readopen, t.writeopen)
  {
    hide RunWriter, RunReader, ReaderTold, WriterTold, Shaped;
    match r
    case Writer(_, _, _) => WriterRuns(s, p, r);
    case Reader(_, _, _) => ReaderRuns(s, p, r);
    case Closer(_) => CloserEffect(s, p, r);
  }

  lemma StepTold(s: State, p: nat)
    requires Core(s) && AllTold(s) && p < |s.procs| && TakeStep(s, p).Some?
    ensures AllTold(TakeStep(s, p).value)
  {
    hide TakeStep, Fifo, Ends, Sensible;
    CoreShaped(s);
    var t := TakeStep(s, p).value;
    StepMoves(s, p);
    KilledStays(s, p);
    SelfTold(s, p);
    forall q | 0 <= q < |t.procs| ensures ProcTold(t.procs[q], t.ring, t.readopen, t.writeopen) {
      if q != p {
        OtherTold(s, t, p, q);
      }
    }
  }

  lemma OtherTold(s: State, t: State, p: nat, q: nat)
    requires Core(s) && Moves(s, t, p) && q < |s.procs| && q != p && t.procs[q].killed == s.procs[q].killed
    requires ProcTold(s.procs[q], s.ring, s.readopen, s.writeopen)
    ensures ProcTold(t.procs[q], t.ring, t.readopen, t.writeopen)
  {
    hide Fifo, Ends;
    assert t.procs[q].pc == s.procs[q].pc;
    assert Sensible(s.procs[q], s.ring, s.readopen, s.writeopen);
    assert HoldsPipe(s.procs[q].pc) ==> s.plock == Held(q);
    assert HoldsPipe(s.procs[p].pc) ==> s.plock == Held(p);
  }

  lemma StepKept(s: State, p: nat)
    requires Core(s) && Kept(s) && p < |s.procs| && TakeStep(s, p).Some?
    ensures Kept(TakeStep(s, p).value)
  {
    hide Fifo, Sensible, TakeStep, Ends;
    CoreShaped(s);
    StepMoves(s, p);
    FreedWhen(s, p);
    var t := TakeStep(s, p).value;
    assert s.plock.Held? && !t.plock.Held? ==> HoldsPipe(s.procs[p].pc);
    if !t.readopen && !t.writeopen && !t.freed && !t.plock.Held? {
      BothClosed(s, p);
    }
  }

  lemma FreedWhen(s: State, p: nat)
    requires p < |s.procs| && Shaped(s.ring) && TakeStep(s, p).Some? && (s.freed ==> !s.readopen && !s.writeopen)
    ensures var t := TakeStep(s, p).value; t.freed ==> !t.readopen && !t.writeopen
  {
    hide RunRole, Shaped, WakeAll, AfterWake;
    if s.procs[p].pc.Running? {
      RunFrees(s, p, s.procs[p].pc.r);
    }
  }

  lemma RunFrees(s: State, p: nat, r: Role)
    requires p < |s.procs| && Shaped(s.ring)
    ensures var t := RunRole(s, p, r);
      t.freed == s.freed && (t.readopen ==> s.readopen) && (t.writeopen ==> s.writeopen)
  {
    hide Shaped, Put, Full, Empty, First, Drop;
  }

  /** With both ends closed only a closer still holds the pipe, and it frees it. */
  lemma BothClosed(s: State, p: nat)
    requires Core(s) && Kept(s) && p < |s.procs| && TakeStep(s, p).Some?
    ensures var t := TakeStep(s, p).value; !t.readopen && !t.writeopen && !t.freed ==> t.plock.Held?
  {
    hide Fifo;
    var pc := s.procs[p].pc;
    assert Sensible(s.procs[p], s.ring, s.readopen, s.writeopen);
    assert HoldsPipe(pc) <==> s.plock == Held(p);
    assert !s.readopen ==> !Uses(pc, false);
    assert !s.writeopen ==> !Uses(pc, true);
  }

  ghost predicate Calls(s: State) { Core(s) && AllTold(s) && Kept(s) }

  lemma NextCalls(s: State, e: Event)
    requires Calls(s) && Next(s, e).Some?
    ensures Calls(Next(s, e).value)
  {
    hide Core, Sensible, TakeStep;
    CoreShaped(s);
    NextKeeps(s, e);
    match e
    case Step(p) =>
      StepTold(s, p);
      StepKept(s, p);
    case Begin(p, r) => BeginTold(s, p, r);
    case Kill(p) => KillTold(s, p);
  }

  lemma BeginTold(s: State, p: nat, r: Role)
    requires AllTold(s) && p < |s.procs| && MayBegin(s, r)
    ensures AllTold(Enter(s, p, r))
  {
    var t := Enter(s, p, r);
    forall q | 0 <= q < |t.procs| ensures ProcTold(t.procs[q], t.ring, t.readopen, t.writeopen) {
      assert q != p ==> t.procs[q] == s.procs[q];
    }
  }

  lemma KillTold(s: State, p: nat)
    requires AllTold(s) && p < |s.procs|
    ensures AllTold(KillProc(s, p))
  {
    var t := KillProc(s, p);
    forall q | 0 <= q < |t.procs| ensures ProcTold(t.procs[q], t.ring, t.readopen, t.writeopen) {
      assert ProcTold(s.procs[q], s.ring, s.readopen, s.writeopen);
    }
  }

  lemma {:induction false} RunCalls(s: State, es: seq<Event>, t: State)
    requires Calls(s) && Reaches(s, es, t)
    ensures Calls(t)
    decreases |es|
  {
    hide Core, AllTold, Kept, Next;
    CoreShaped(s);
    if es != [] {
      NextCalls(s, es[0]);
      RunCalls(Next(s, es[0]).value, es[1..], t);
    }
  }

  lemma InitialCalls(s: State)
    requires Initial(s)
    ensures Calls(s)
  {
    InitialKeeps(s);
  }

  // ---------------------------------------------------------------- the bytes of one call

  /** A process's latest call, and what its steps have put into the pipe and taken out since it began. */
  datatype Call = Call(r: Role, put: seq<Byte>, took: seq<Byte>)

  function Since(x: seq<Byte>, y: seq<Byte>): seq<Byte> { if |x| <= |y| then y[|x|..] else [] }

  function Noted(a: Call, s: State, e: Event, t: State, p: nat): Call
  {
    if e.p != p then a
    else match e
      case Begin(_, r) => Call(r, [], [])
      case Step(_) => a.(put := a.put + Since(s.written, t.written), took := a.took + Since(s.consumed, t.consumed))
      case Kill(_) => a
  }

  ghost function Track(a: Call, s: State, es: seq<Event>, p: nat): Call
    decreases |es|
  {
    if es == [] || !Shaped(s.ring) || Next(s, es[0]).None? then a
    else
      var t := Next(s, es[0]).value;
      Track(Noted(a, s, es[0], t, p), t, es[1..], p)
  }

  /** The role of a process says what its call has done. */
  predicate Says(pc: Pc, a: Call)
  {
    !pc.Idle? ==>
      match pc.r
      case Writer(buf, i, _) => a.r.Writer? && a.r.buf == buf && i <= |buf| && a.put == buf[..i] && a.took == []
      case Reader(n, got, _) => a.r.Reader? && a.r.n == n && a.put == [] && a.took == got
      case Closer(w) => a.r == Closer(w) && a.put == [] && a.took == []
  }

  lemma SaysStep(s: State, p: nat, a: Call)
    requires Core(s) && p < |s.procs| && TakeStep(s, p).Some? && Says(s.procs[p].pc, a)
    ensures var t := TakeStep(s, p).value; p < |t.procs| && Says(t.procs[p].pc, Noted(a, s, Step(p), t, p))
  {
    hide Core, Shaped, TakeStep, RunRole;
    CoreShaped(s);
    var t := TakeStep(s, p).value;
    if s.procs[p].pc.Running? {
      Runs(s, p);
      SaysRun(s, p, s.procs[p].pc.r, a);
    } else {
      CallEffect(s, p);
      assert a.put + [] == a.put && a.took + [] == a.took;
    }
  }

  lemma CoreShaped(s: State)
    requires Core(s)
    ensures Shaped(s.ring)
  {
  }

  lemma SaysRun(s: State, p: nat, r: Role, a: Call)
    requires p < |s.procs| && Shaped(s.ring) && s.procs[p].pc == Running(r) && Says(Running(r), a)
    ensures var t := RunRole(s, p, r); p < |t.procs| && Says(t.procs[p].pc, Noted(a, s, Step(p), t, p))
  {
    hide RunWriter, RunReader, RunCloser, Shaped, Says, Noted;
    match r
    case Writer(_, _, _) => SaysWrites(s, p, r, a);
    case Closer(_) => SaysCloses(s, p, r, a);
    case Reader(_, _, copying) => if copying { SaysCopies(s, p, r, a); } else { SaysWaits(s, p, r, a); }
  }

  lemma SaysWrites(s: State, p: nat, r: Role, a: Call)
    requires p < |s.procs| && Shaped(s.ring) && r.Writer? && Says(Running(r), a)
    ensures var t := RunWriter(s, p, r); p < |t.procs| && Says(t.procs[p].pc, Noted(a, s, Step(p), t, p))
  {
    hide RunWriter, Shaped, Full;
    assert a.put + [] == a.put && a.took + [] == a.took;
    WriterEffect(s, p, r);
    if r.i < |r.buf| {
      assert r.buf[..r.i + 1] == r.buf[..r.i] + [r.buf[r.i]];
    }
  }

  lemma SaysCloses(s: State, p: nat, r: Role, a: Call)
    requires p < |s.procs| && r.Closer? && Says(Running(r), a)
    ensures var t := RunCloser(s, p, r); p < |t.procs| && Says(t.procs[p].pc, Noted(a, s, Step(p), t, p))
  {
    hide RunCloser;
    assert a.put + [] == a.put && a.took + [] == a.took;
    CloserEffect(s, p, r);
  }

  lemma SaysWaits(s: State, p: nat, r: Role, a: Call)
    requires p < |s.procs| && Shaped(s.ring) && r.Reader? && !r.copying && Says(Running(r), a)
    ensures var t := RunReader(s, p, r); p < |t.procs| && Says(t.procs[p].pc, Noted(a, s, Step(p), t, p))
  {
    hide RunReader, Shaped, Empty;
    assert a.put + [] == a.put && a.took + [] == a.took;
    WaiterEffect(s, p, r);
  }

  lemma SaysCopies(s: State, p: nat, r: Role, a: Call)
    requires p < |s.procs| && Shaped(s.ring) && r.Reader? && r.copying && Says(Running(r), a)
    ensures var t := RunReader(s, p, r); p < |t.procs| && Says(t.procs[p].pc, Noted(a, s, Step(p), t, p))
  {
    hide RunReader, Shaped, Empty, First;
    assert a.put + [] == a.put && a.took + [] == a.took;
    CopierEffect(s, p, r);
  }

  lemma SaysNext(s: State, e: Event, p: nat, a: Call)
    requires Core(s) && p < |s.procs| && Next(s, e).Some? && Says(s.procs[p].pc, a)
    ensures var t := Next(s, e).value; p < |t.procs| && Says(t.procs[p].pc, Noted(a, s, e, t, p))
  {
    hide Core, TakeStep, Says, Noted;
    CoreShaped(s);
    match e
    case Step(q) =>
      if q == p {
        SaysStep(s, p, a);
      } else {
        StepMoves(s, q);
        assert Next(s, e).value.procs[p].pc == s.procs[p].pc;
        NotedOther(a, s, e, Next(s, e).value, p);
      }
    case Begin(q, r) =>
      if q == p {
        SaysBegin(a, s, r, p);
      } else {
        NotedOther(a, s, e, Next(s, e).value, p);
      }
    case Kill(q) =>
      NotedKill(a, s, Next(s, e).value, q, p);
  }

  lemma NotedOther(a: Call, s: State, e: Event, t: State, p: nat)
    requires e.p != p
    ensures Noted(a, s, e, t, p) == a
  {
  }

  lemma NotedKill(a: Call, s: State, t: State, q: nat, p: nat)
    ensures Noted(a, s, Kill(q), t, p) == a
  {
  }

  lemma SaysBegin(a: Call, s: State, r: Role, p: nat)
    requires p < |s.procs| && MayBegin(s, r)
    ensures Says(Want(r), Noted(a, s, Begin(p, r), Enter(s, p, r), p)) && Enter(s, p, r).procs[p].pc == Want(r)
  {
  }

  lemma {:induction false} SaysRuns(s: State, es: seq<Event>, t: State, p: nat, a: Call)
    requires Core(s) && Reaches(s, es, t) && p < |s.procs| && Says(s.procs[p].pc, a)
    ensures p < |t.procs| && Says(t.procs[p].pc, Track(a, s, es, p))
    decreases |es|
  {
    hide Core, Next, Says, Noted;
    CoreShaped(s);
    if es != [] {
      NextKeeps(s, es[0]);
      SaysNext(s, es[0], p, a);
      var s1 := Next(s, es[0]).value;
      SaysRuns(s1, es[1..], t, p, Noted(a, s, es[0], s1, p));
    }
  }

  /** Only writers past the lock put bytes in, and only readers past it take bytes out. */
  lemma OnlyByCalls(s: State, e: Event)
    requires Core(s) && Next(s, e).Some?
    ensures var t := Next(s, e).value;
      && (t.written != s.written ==> e.Step? && s.procs[e.p].pc.Running? && s.procs[e.p].pc.r.Writer?)
      && (t.consumed != s.consumed ==> e.Step? && s.procs[e.p].pc.Running? && s.procs[e.p].pc.r.Reader?)
  {
    hide Core, TakeStep, RunRole, Shaped;
    CoreShaped(s);
    if e.Step? {
      if s.procs[e.p].pc.Running? {
        Runs(s, e.p);
        OnlyByRole(s, e.p, s.procs[e.p].pc.r);
      } else {
        CallEffect(s, e.p);
      }
    }
  }

  lemma OnlyByRole(s: State, p: nat, r: Role)
    requires p < |s.procs| && Shaped(s.ring)
    ensures var t := RunRole(s, p, r);
      (t.written != s.written ==> r.Writer?) && (t.consumed != s.consumed ==> r.Reader?)
  {
    hide RunWriter, RunReader, Shaped;
    match r
    case Writer(_, _, _) => WriterEffect(s, p, r);
    case Closer(_) =>
    case Reader(_, _, copying) => if copying { CopierEffect(s, p, r); } else { WaiterEffect(s, p, r); }
  }

  // ---------------------------------------------------------------- how calls end

  /**
   In every interleaving piperead(n) that is about to return has taken the first of what was waiting: `n` bytes,
   or all there were. It returns 0 only for `n` = 0 or with the write end closed, and -1 exactly if it was
   killed while it waited.
   */
  lemma ReaderLeaves(s: State, es: seq<Event>, t: State, p: nat, a: Call)
    requires Initial(s) && Reaches(s, es, t) && p < |t.procs| && p < |s.procs|
    requires t.procs[p].pc.Leave? && t.procs[p].pc.r.Reader?
    ensures var c := Track(a, s, es, p); var v := Answer(t.procs[p].pc.r);
      && c.r.Reader? && c.put == [] && |c.took| <= c.r.n
      && (v >= 0 ==> v == |c.took| && (|c.took| == c.r.n || Empty(t.ring)))
      && (v == 0 ==> c.r.n == 0 || (Empty(t.ring) && !t.writeopen))
      && (v < 0 ==> v == -1 && c.took == [] && Empty(t.ring) && t.writeopen && t.procs[p].killed)
      && |c.took| <= |t.consumed| && c.took == t.consumed[|t.consumed| - |c.took|..]
  {
    hide Says, Track, Locks, Ends, Holds, Reaches, Initial;
    InitialCalls(s);
    RunCalls(s, es, t);
    InitialSays(s, p, a);
    SaysRuns(s, es, t, p, a);
    SaysReader(t.procs[p].pc, Track(a, s, es, p));
    assert ProcTold(t.procs[p], t.ring, t.readopen, t.writeopen);
    assert Sensible(t.procs[p], t.ring, t.readopen, t.writeopen);
    assert Contiguous(t.procs[p].pc, t.consumed);
  }

  lemma InitialSays(s: State, p: nat, a: Call)
    requires Initial(s) && p < |s.procs|
    ensures Says(s.procs[p].pc, a)
  {
  }

  lemma SaysReader(pc: Pc, a: Call)
    requires Says(pc, a) && !pc.Idle? && pc.r.Reader?
    ensures a.r.Reader? && a.r.n == pc.r.n && a.put == [] && a.took == pc.r.got
  {
  }

  lemma SaysWriter(pc: Pc, a: Call)
    requires Says(pc, a) && !pc.Idle? && pc.r.Writer?
    ensures a.r.Writer? && a.r.buf == pc.r.buf && pc.r.i <= |pc.r.buf| && a.put == pc.r.buf[..pc.r.i] && a.took == []
  {
  }

  /**
   pipewrite that is about to return has put in all its bytes in order and says so, or a part of them and
   then -1: with the ring full and the process killed or nobody left to read.
   */
  lemma WriterLeaves(s: State, es: seq<Event>, t: State, p: nat, a: Call)
    requires Initial(s) && Reaches(s, es, t) && p < |t.procs| && p < |s.procs|
    requires t.procs[p].pc.Leave? && t.procs[p].pc.r.Writer?
    ensures var c := Track(a, s, es, p); var v := Answer(t.procs[p].pc.r);
      && c.r.Writer? && c.put <= c.r.buf && c.took == []
      && (c.put == c.r.buf ==> v == |c.r.buf|)
      && (c.put != c.r.buf ==> v == -1 && Full(t.ring) && (t.procs[p].killed || !t.readopen))
  {
    hide Says, Track, Locks, Ends, Fifo, Reaches, Initial;
    InitialCalls(s);
    RunCalls(s, es, t);
    InitialSays(s, p, a);
    SaysRuns(s, es, t, p, a);
    SaysWriter(t.procs[p].pc, Track(a, s, es, p));
    assert ProcTold(t.procs[p], t.ring, t.readopen, t.writeopen);
  }

  /** At every moment of a call the pipe has had its first bytes, or has given it what it holds. */
  lemma CallsSoFar(s: State, es: seq<Event>, t: State, p: nat, a: Call)
    requires Initial(s) && Reaches(s, es, t) && p < |s.procs|
    ensures p < |t.procs| && Says(t.procs[p].pc, Track(a, s, es, p))
  {
    InitialKeeps(s);
    InitialSays(s, p, a);
    SaysRuns(s, es, t, p, a);
  }

  // ---------------------------------------------------------------- the copy loops are runs of these steps

  function Steps(p: nat, m: nat): seq<Event> { if m == 0 then [] else [Step(p)] + Steps(p, m - 1) }

  /** After writer `p` has put in its next `m` bytes. */
  function CopiedIn(s: State, p: nat, m: nat): State
    requires p < |s.procs| && Shaped(s.ring) && s.procs[p].pc.Running? && s.procs[p].pc.r.Writer?
    requires s.procs[p].pc.r.i + m <= |s.procs[p].pc.r.buf|
  {
    var r := s.procs[p].pc.r;
    var bs := r.buf[r.i..r.i + m];
    At(s, p, Running(r.(i := r.i + m, dirty := r.dirty || m > 0)))
      .(ring := PutAll(s.ring, bs), written := s.written + bs)
  }

  lemma {:induction false} CopyInRuns(s: State, p: nat, m: nat)
    requires Holds(s.ring, s.written, |s.consumed|) && p < |s.procs|
    requires s.procs[p].pc.Running? && s.procs[p].pc.r.Writer? && s.procs[p].pc.r.i + m <= |s.procs[p].pc.r.buf|
    requires m <= PIPESIZE - (|s.written| - |s.consumed|)
    ensures Reaches(s, Steps(p, m), CopiedIn(s, p, m))
    decreases m
  {
    hide Put, Full, RunWriter, TakeStep, Next, PutAll, CopiedIn, Holds;
    HoldsShaped(s.ring, s.written, |s.consumed|);
    Occupancy(s.ring, s.written, |s.consumed|);
    var r := s.procs[p].pc.r;
    if m == 0 {
      NoneCopiedIn(s, p);
    } else {
      var s1 := RunWriter(s, p, r);
      PutStep(s, p, r);
      PutHolds(s.ring, s.written, |s.consumed|, r.buf[r.i]);
      CopyInRuns(s1, p, m - 1);
      OneCopiedIn(s, p, m);
      OneMore(s, Step(p), s1, Steps(p, m - 1), CopiedIn(s, p, m));
    }
  }

  lemma PutStep(s: State, p: nat, r: Role)
    requires p < |s.procs| && Shaped(s.ring) && s.procs[p].pc == Running(r) && r.Writer? && r.i < |r.buf|
    requires !Full(s.ring)
    ensures Next(s, Step(p)) == Some(RunWriter(s, p, r))
    ensures var t := RunWriter(s, p, r);
      && |t.procs| == |s.procs| && t.procs[p].pc == Running(r.(i := r.i + 1, dirty := true))
      && t.ring == Put(s.ring, r.buf[r.i]) && t.written == s.written + [r.buf[r.i]] && t.consumed == s.consumed
  {
    hide Put, Full;
  }

  lemma NoneCopiedIn(s: State, p: nat)
    requires p < |s.procs| && Shaped(s.ring) && s.procs[p].pc.Running? && s.procs[p].pc.r.Writer?
        && s.procs[p].pc.r.i <= |s.procs[p].pc.r.buf|
    ensures CopiedIn(s, p, 0) == s
  {
    var r := s.procs[p].pc.r;
    assert r.buf[r.i..r.i] == [] && s.written + [] == s.written;
    assert s.procs[p := s.procs[p]] == s.procs;
  }

  lemma OneCopiedIn(s: State, p: nat, m: nat)
    requires p < |s.procs| && Shaped(s.ring) && s.procs[p].pc.Running? && s.procs[p].pc.r.Writer? && !Full(s.ring)
    requires 0 < m && s.procs[p].pc.r.i + m <= |s.procs[p].pc.r.buf|
    ensures var r := s.procs[p].pc.r; var s1 := RunWriter(s, p, r);
      Shaped(s1.ring) && s1.procs[p].pc == Running(r.(i := r.i + 1, dirty := true))
      && CopiedIn(s1, p, m - 1) == CopiedIn(s, p, m)
  {
    hide Full, PutAll;
    var r := s.procs[p].pc.r;
    var bs := r.buf[r.i..r.i + m];
    assert bs[1..] == r.buf[r.i + 1..r.i + m] && bs[0] == r.buf[r.i];
    assert PutAll(s.ring, bs) == PutAll(Put(s.ring, bs[0]), bs[1..]) by { PutFirst(s.ring, bs); }
    assert s.written + bs == s.written + [bs[0]] + bs[1..];
    var s1 := RunWriter(s, p, r);
    assert s1.procs[p := s1.procs[p].(pc := Idle)] == s.procs[p := s.procs[p].(pc := Idle)];
  }

  lemma PutFirst(g: Ring, bs: seq<Byte>)
    requires Shaped(g) && bs != []
    ensures Shaped(Put(g, bs[0])) && PutAll(g, bs) == PutAll(Put(g, bs[0]), bs[1..])
  {
  }

  /** After reader `p` has taken `m` more bytes, which are these. */
  function CopiedOut(s: State, p: nat, bs: seq<Byte>): State
    requires p < |s.procs| && s.procs[p].pc.Running? && s.procs[p].pc.r.Reader?
  {
    var r := s.procs[p].pc.r;
    At(s, p, Running(r.(got := r.got + bs)))
      .(ring := s.ring.(nread := (|s.consumed| + |bs|) % WRAP), consumed := s.consumed + bs)
  }

  lemma {:induction false} CopyOutRuns(s: State, p: nat, m: nat)
    requires Holds(s.ring, s.written, |s.consumed|) && p < |s.procs|
    requires s.procs[p].pc.Running? && s.procs[p].pc.r.Reader? && s.procs[p].pc.r.copying
    requires |s.procs[p].pc.r.got| + m <= s.procs[p].pc.r.n && m <= |s.written| - |s.consumed|
    ensures Reaches(s, Steps(p, m), CopiedOut(s, p, s.written[|s.consumed|..|s.consumed| + m]))
    decreases m
  {
    hide Drop, First, Empty, RunReader, TakeStep, Next, CopiedOut, Holds;
    HoldsShaped(s.ring, s.written, |s.consumed|);
    Occupancy(s.ring, s.written, |s.consumed|);
    var r := s.procs[p].pc.r;
    var k := |s.consumed|;
    if m == 0 {
      NoneCopiedOut(s, p);
      assert s.written[k..k] == [];
    } else {
      var s1 := RunReader(s, p, r);
      GetStep(s, p, r);
      TakeHolds(s.ring, s.written, k);
      CopyOutRuns(s1, p, m - 1);
      assert s.written[k..k + m] == [s.written[k]] + s.written[k + 1..k + 1 + (m - 1)];
      OneCopiedOut(s, p, s.written[k + 1..k + 1 + (m - 1)]);
      OneMore(s, Step(p), s1, Steps(p, m - 1), CopiedOut(s, p, s.written[k..k + m]));
    }
  }

  lemma GetStep(s: State, p: nat, r: Role)
    requires p < |s.procs| && Shaped(s.ring) && s.procs[p].pc == Running(r) && r.Reader? && r.copying
    requires |r.got| < r.n && !Empty(s.ring)
    ensures Next(s, Step(p)) == Some(RunReader(s, p, r))
    ensures var t := RunReader(s, p, r); var b := First(s.ring);
      && |t.procs| == |s.procs| && t.procs[p].pc == Running(r.(got := r.got + [b]))
      && t.ring == Drop(s.ring) && t.written == s.written && t.consumed == s.consumed + [b]
  {
    hide Drop, First, Empty;
  }

  lemma NoneCopiedOut(s: State, p: nat)
    requires p < |s.procs| && s.procs[p].pc.Running? && s.procs[p].pc.r.Reader?
        && Holds(s.ring, s.written, |s.consumed|)
    ensures CopiedOut(s, p, []) == s
  {
    var r := s.procs[p].pc.r;
    assert r.got + [] == r.got && s.consumed + [] == s.consumed;
    assert s.procs[p := s.procs[p]] == s.procs;
  }

  lemma OneCopiedOut(s: State, p: nat, bs: seq<Byte>)
    requires Holds(s.ring, s.written, |s.consumed|) && p < |s.procs|
    requires s.procs[p].pc.Running? && s.procs[p].pc.r.Reader? && s.procs[p].pc.r.copying
    requires |s.procs[p].pc.r.got| < s.procs[p].pc.r.n && !Empty(s.ring)
    ensures var r := s.procs[p].pc.r; var s1 := RunReader(s, p, r); var b := First(s.ring);
      s1.procs[p].pc == Running(r.(got := r.got + [b])) && CopiedOut(s1, p, bs) == CopiedOut(s, p, [b] + bs)
  {
    hide Holds, Empty, First;
    HoldsShaped(s.ring, s.written, |s.consumed|);
    var r := s.procs[p].pc.r;
    var b := First(s.ring);
    var s1 := RunReader(s, p, r);
    assert r.got + [b] + bs == r.got + ([b] + bs) && s.consumed + [b] + bs == s.consumed + ([b] + bs);
    assert s1.procs[p := s1.procs[p].(pc := Idle)] == s.procs[p := s.procs[p].(pc := Idle)];
  }

  /** pipewrite's loop under the lock is the run of these steps of `p` up to the point where it wakes or leaves. */
  method WriteHeld(pp: Pipe, buf: seq<Byte>, i0: nat, p: nat, ghost s: State) returns (i: nat, ghost t: State)
    requires pp.Valid() && s.ring == pp.Value() && s.written == pp.written && |s.consumed| == pp.taken
    requires p < |s.procs| && s.procs[p].pc.Running? && s.procs[p].pc.r.Writer?
    requires s.procs[p].pc.r.buf == buf && s.procs[p].pc.r.i == i0 <= |buf|
    modifies pp`nwrite, pp`written, pp.data
    ensures pp.Valid() && Shaped(t.ring) && i0 <= i <= |buf| && Reaches(s, Steps(p, i - i0), t)
    ensures t.ring == pp.Value() && t.written == pp.written && t.consumed == s.consumed && |t.procs| == |s.procs|
    ensures t.procs[p].pc.Running? && t.procs[p].pc.r.Writer? && t.procs[p].pc.r.i == i
    ensures Next(t, Step(p)).Some? && !Next(t, Step(p)).value.procs[p].pc.Running?
  {
    hide Holds, PutAll, Reaches, Steps;
    assert Shaped(s.ring) by { HoldsShaped(s.ring, s.written, |s.consumed|); }
    i := pp.CopyIn(buf, i0);
    assert Shaped(pp.Value()) by { HoldsShaped(pp.Value(), pp.written, pp.taken); }
    t := CopiedIn(s, p, i - i0);
    assert |s.written + buf[i0..i]| - |s.consumed| <= PIPESIZE by {
      HoldsShaped(pp.Value(), pp.written, pp.taken);
    }
    CopyInRuns(s, p, i - i0);
  }

  lemma HoldsShaped(g: Ring, written: seq<Byte>, taken: nat)
    requires Holds(g, written, taken)
    ensures Shaped(g) && taken <= |written| <= taken + PIPESIZE
  {
  }

  /** And so is piperead's. */
  method ReadHeld(pp: Pipe, n: nat, p: nat, ghost s: State) returns (got: seq<Byte>, ghost t: State)
    requires pp.Valid() && s.ring == pp.Value() && s.written == pp.written && |s.consumed| == pp.taken
    requires p < |s.procs| && s.procs[p].pc == Running(Reader(n, [], true))
    modifies pp`nread, pp`taken
    ensures pp.Valid() && Shaped(t.ring) && Reaches(s, Steps(p, |got|), t)
    ensures t.ring == pp.Value() && t.written == pp.written && |t.consumed| == pp.taken && |t.procs| == |s.procs|
    ensures t.procs[p].pc == Running(Reader(n, got, true))
    ensures Next(t, Step(p)).Some? && Next(t, Step(p)).value.procs[p].pc == WakeWant(Reader(n, got, true))
  {
    hide Holds, Reaches, Steps, TakeStep;
    HoldsShaped(s.ring, s.written, |s.consumed|);
    got := pp.CopyOut(n);
    HoldsShaped(pp.Value(), pp.written, pp.taken);
    t := CopiedOut(s, p, got);
    CopyOutRuns(s, p, |got|);
    Occupancy(pp.Value(), pp.written, pp.taken);
    assert [] + got == got;
    DoneCopying(t, p);
  }

  /** With all it asked for, or with nothing left, a reader goes on to wake the writers. */
  lemma DoneCopying(t: State, p: nat)
    requires Shaped(t.ring) && p < |t.procs| && t.procs[p].pc.Running? && t.procs[p].pc.r.Reader?
    requires t.procs[p].pc.r.copying && (|t.procs[p].pc.r.got| >= t.procs[p].pc.r.n || Empty(t.ring))
    ensures Next(t, Step(p)).Some? && Next(t, Step(p)).value.procs[p].pc == WakeWant(t.procs[p].pc.r)
  {
    hide Drop, First, Empty;
  }

  // ---------------------------------------------------------------- killed, asleep, stuck

  /** Inside the kernel and not on the way to sleep. */
  predicate Awake(q: Proc)
  {
    && !q.asleep && !q.pc.SleepWant? && !q.pc.SleepHold? && !q.pc.SleepMark? && !q.pc.InSched?
  }

  /** Killed, and past the point where the call looks whether it is. */
  predicate Resolved(q: Proc)
  {
    && q.killed && Awake(q) && !q.pc.Want?
    && (q.pc.WakeWant? || q.pc.WakeHold? || q.pc.WakeDone? ==> AfterWake(q.pc.r).Leave?)
  }

  lemma ResolvedStep(s: State, p: nat)
    requires Shaped(s.ring) && p < |s.procs| && TakeStep(s, p).Some? && Resolved(s.procs[p])
    ensures p < |TakeStep(s, p).value.procs| && Resolved(TakeStep(s, p).value.procs[p])
  {
    hide RunRole, Shaped;
    if s.procs[p].pc.Running? {
      ResolvedRun(s, p, s.procs[p].pc.r);
    }
  }

  lemma ResolvedRun(s: State, p: nat, r: Role)
    requires Shaped(s.ring) && p < |s.procs| && s.procs[p].pc == Running(r) && Resolved(s.procs[p])
    ensures var t := RunRole(s, p, r); p < |t.procs| && Resolved(t.procs[p])
  {
    hide RunWriter, RunReader, RunCloser, Shaped, Full, Empty;
    match r
    case Writer(_, _, _) => WriterEffect(s, p, r);
    case Closer(_) => CloserEffect(s, p, r);
    case Reader(_, _, copying) => if copying { CopierEffect(s, p, r); } else { WaiterEffect(s, p, r); }
  }

  lemma ResolvedOther(s: State, e: Event, p: nat)
    requires Core(s) && p < |s.procs| && Next(s, e).Some? && e.p != p && Resolved(s.procs[p])
    ensures p < |Next(s, e).value.procs| && Resolved(Next(s, e).value.procs[p])
  {
    hide Core, TakeStep;
    CoreShaped(s);
    match e
    case Step(q) =>
      StepMoves(s, q);
      KilledStays(s, q);
    case _ =>
  }

  /**
   A killed process that holds the pipe's lock, as a reader or writer that looks whether it was killed does,
   does not go to sleep again in this call, whatever the others do.
   */
  lemma {:induction false} KilledDoesNotSleep(s: State, es: seq<Event>, t: State, p: nat)
    requires Core(s) && Reaches(s, es, t) && p < |s.procs|
    requires s.procs[p].killed && (s.procs[p].pc.Running? || Resolved(s.procs[p]))
    requires forall k :: 0 <= k < |es| ==> !(es[k].Begin? && es[k].p == p)
    ensures p < |t.procs| && Awake(t.procs[p]) && !t.procs[p].pc.Want?
    decreases |es|
  {
    hide Core, TakeStep;
    if s.procs[p].pc.Running? {
      RunningResolved(s, p);
    }
    CoreShaped(s);
    if es != [] {
      var s1 := Next(s, es[0]).value;
      NextKeeps(s, es[0]);
      if es[0].p != p {
        ResolvedOther(s, es[0], p);
      } else if es[0].Step? {
        ResolvedStep(s, p);
      }
      forall k | 0 <= k < |es[1..]| ensures !(es[1..][k].Begin? && es[1..][k].p == p) {
        assert es[1..][k] == es[k + 1];
      }
      KilledDoesNotSleep(s1, es[1..], t, p);
    }
  }

  lemma RunningResolved(s: State, p: nat)
    requires Core(s) && p < |s.procs| && s.procs[p].killed && s.procs[p].pc.Running?
    ensures Resolved(s.procs[p])
  {
    assert Sensible(s.procs[p], s.ring, s.readopen, s.writeopen);
  }

  /** A process goes to sleep only for lack of bytes or of room, with the other end open. */
  lemma SleepsForAReason(s: State, es: seq<Event>, t: State, p: nat)
    requires Initial(s) && Reaches(s, es, t) && p < |t.procs| && t.procs[p].pc.SleepHold?
    ensures t.procs[p].pc.r.Reader? ==> Empty(t.ring) && t.writeopen && t.procs[p].pc.r.got == []
    ensures t.procs[p].pc.r.Writer? ==> Full(t.ring) && t.readopen && t.procs[p].pc.r.i < |t.procs[p].pc.r.buf|
    ensures !t.procs[p].pc.r.Closer?
  {
    hide Locks, Ends, Fifo, Reaches, Initial;
    InitialCalls(s);
    RunCalls(s, es, t);
    assert Sensible(t.procs[p], t.ring, t.readopen, t.writeopen);
    assert ProcTold(t.procs[p], t.ring, t.readopen, t.writeopen);
  }

  /** wakeup makes runnable exactly the sleepers of the other side; those who close an end wake the other one. */
  lemma WakesExactly(s: State, p: nat, q: nat)
    requires Core(s) && p < |s.procs| && s.procs[p].pc.WakeHold? && q < |s.procs| && q != p
    ensures Next(s, Step(p)).Some? && |Next(s, Step(p)).value.procs| == |s.procs|
    ensures var x := s.procs[q]; var r := s.procs[p].pc.r; var y := Next(s, Step(p)).value.procs[q];
      if x.asleep && x.pc.r.Reader? && (r.Writer? || r == Closer(true)) then y == x.(asleep := false)
      else if x.asleep && x.pc.r.Writer? && (r.Reader? || r == Closer(false)) then y == x.(asleep := false)
      else y == x
  {
    assert Sensible(s.procs[q], s.ring, s.readopen, s.writeopen);
  }

  /** No deadlock: while anybody is in a call and not asleep, somebody can take a step. */
  lemma SomebodyMoves(s: State, es: seq<Event>, t: State, p: nat) returns (q: nat)
    requires Initial(s) && Reaches(s, es, t) && p < |t.procs| && !t.procs[p].pc.Idle? && !t.procs[p].asleep
    ensures q < |t.procs| && Shaped(t.ring) && Next(t, Step(q)).Some?
  {
    hide Ends, Fifo, Sensible, AllTold;
    InitialCalls(s);
    RunCalls(s, es, t);
    CoreShaped(t);
    q := if t.tlock.Held? then t.tlock.who else if t.plock.Held? then t.plock.who else p;
    assert HoldsTable(t.procs[q].pc) <==> t.tlock == Held(q);
    assert HoldsPipe(t.procs[q].pc) <==> t.plock == Held(q);
  }

  /** A process in a call can go on exactly when it is not asleep and has, or can get, the lock it needs. */
  lemma StepsExactly(s: State, p: nat)
    requires Core(s) && p < |s.procs|
    ensures Shaped(s.ring) && (Next(s, Step(p)).Some? <==>
              match s.procs[p].pc
              case Idle => false
              case Want(_) => s.plock == Free
              case WakeWant(_) => s.tlock == Free
              case SleepWant(_) => s.tlock == Free
              case InSched(_) => s.tlock == Free && !s.procs[p].asleep
              case _ => true)
  {
    hide RunRole, Core;
    CoreShaped(s);
  }

  /** With the lock free the pipe's page is free exactly when both ends are closed. */
  lemma FreedExactly(s: State, es: seq<Event>, t: State)
    requires Initial(s) && Reaches(s, es, t) && t.plock == Free
    ensures t.freed <==> !t.readopen && !t.writeopen
  {
    InitialCalls(s);
    RunCalls(s, es, t);
  }
}
