/**
 log.c over the buffer cache. Each method carries the machine of `LogMachine` along, so what it
 does to the disk, the pinned buffers and the header is one of that machine's runs.
 */
module Log {
  import opened Options
  import opened Disk
  import opened LogMachine
  import opened LogRuns
  import Bio

  function Repeat(e: Event, n: nat): (r: seq<Event>)
    ensures |r| == n && forall i :: 0 <= i < n ==> r[i] == e
  {
    if n == 0 then [] else Repeat(e, n - 1) + [e]
  }

  /** The same event `k` times over. */
  function Iterate(c: Config, s: State, e: Event, k: nat): (r: Outcome)
    requires Sane(c, s)
    ensures r.Ok? ==> Sane(c, r.s)
  {
    if k == 0 then Ok(s)
    else match Iterate(c, s, e, k - 1) {
      case Ok(t) => Next(c, t, e)
      case o => o
    }
  }

  lemma {:induction false} IterateIsRun(c: Config, s: State, e: Event, k: nat)
    requires Sane(c, s) && Iterate(c, s, e, k).Ok?
    ensures Iterate(c, s, e, k) == Run(c, s, Repeat(e, k))
  {
    if k > 0 {
      assert Iterate(c, s, e, k - 1).Ok?;
      IterateIsRun(c, s, e, k - 1);
      RunSnoc(c, s, Repeat(e, k - 1), e);
    }
  }

  /** The disk writes of commit() for a header of `n` entries. */
  function CommitEvents(n: nat): seq<Event>
  {
    Repeat(CopyToLog, n) + [PutHeader] + Repeat(InstallOne, n) + [EraseHeader]
  }

  lemma SaneShape(c: Config, s: State)
    requires Sane(c, s)
    ensures c.Valid() && |s.disk| == c.ndisk && |s.lh| <= LOGSIZE && |s.lh| <= c.size - 1
    ensures forall i :: 0 <= i < |s.lh| ==> c.Home(s.lh[i])
  {
  }

  class Log {
    const c: Config
    const cache: Bio.Bcache
    var outstanding: nat
    var committing: bool
    var n: nat
    var block: seq<Uint>
    // Kept for the proof only.
    ghost var ops: seq<Op>
    ghost var phase: Phase
    ghost var init: seq<Block>
    ghost var hist: seq<Txn>
    ghost var cur: Txn

    /** A kernel that has just come up on the disk of the crashed (or fresh) state `s`. */
    constructor (c: Config, image: seq<Block>, ghost s: State)
      requires Sane(c, s) && s.disk == image && s.phase.Down? && s.lh == [] && s.pinned == map[]
          && Outstanding(s.ops) == 0
      ensures Valid() && fresh(cache) && this.c == c && Abs() == s && Quiet()
    {
      this.c := c;
      cache := new Bio.Bcache(image);
      outstanding, committing, n := 0, false, 0;
      block := seq(LOGSIZE, _ => 0);
      ops, phase, init, hist, cur := s.ops, s.phase, s.init, s.hist, s.cur;
    }

    ghost function Abs(): State
      reads this, cache
      requires n <= |block|
    {
      State(cache.disk, cache.pinned, block[..n], ops, phase, init, hist, cur)
    }

    /** The fields are a concrete form of the machine state. */
    ghost predicate Valid()
      reads this, cache
    {
      && cache.Valid()
      && |block| == LOGSIZE && n <= LOGSIZE
      && Sane(c, Abs()) && (forall b :: b in cache.pinned ==> c.Home(b))
      && outstanding == Outstanding(ops)
      && committing == Committing(Abs())
    }

    /** No process is inside a buffer, so bread does not wait. */
    ghost predicate Quiet()
      reads this, cache
    {
      forall i :: 0 <= i < |cache.bufs| ==> !cache.bufs[i].locked
    }

    /** One turn of the loop in begin_op; `false` means the process goes to sleep on the log. */
    method BeginOp(p: nat) returns (entered: bool)
      requires Valid() && p < |ops| && ops[p].Out? && !phase.Down? && !phase.Recover?
      modifies this`outstanding, this`ops
      ensures Valid()
      ensures entered ==> DoBegin(c, old(Abs()), p) == Ok(Abs())
      ensures !entered ==> DoBegin(c, old(Abs()), p).Disabled? && Abs() == old(Abs())
      ensures entered <==> !Blocked(old(Abs()))
    {
      if committing {
        return false;
      } else if n + (outstanding + 1) * MAXOPBLOCKS > LOGSIZE {
        return false;
      } else {
        OpsUpdate(ops, p, In(0));
        outstanding := outstanding + 1;
        ops := ops[p := In(0)];
        return true;
      }
    }

    /** The absorption loop of log_write: the entry for `b`, or the first free one. */
    method FindEntry(b: Uint) returns (k: nat)
      requires n <= |block|
      ensures k <= n && (k < n ==> block[k] == b) && (k == n <==> b !in block[..n])
    {
      k := 0;
      while k < n && block[k] != b
        invariant 0 <= k <= n
        invariant b !in block[..k]
      {
        k := k + 1;
      }
      assert k < n ==> block[..n][k] == b;
    }

    /** The part of log_write under the lock: absorb or append, then pin. */
    method Append(p: nat, i: nat)
      requires Valid() && p < |ops| && i < |cache.bufs| && cache.bufs[i].locked && cache.bufs[i].valid
      requires DoLogWrite(c, Abs(), p, cache.bufs[i].blockno, cache.bufs[i].data).Ok?
      modifies this`n, this`block, this`ops, this`cur, cache`bufs, cache`pinned
      ensures Valid()
      ensures DoLogWrite(c, old(Abs()), p, old(cache.bufs)[i].blockno, old(cache.bufs)[i].data) == Ok(Abs())
      ensures cache.bufs == old(cache.bufs)[i := old(cache.bufs)[i].(dirty := true)]
    {
      hide Outstanding, Replay, ReadHead;
      var b := cache.bufs[i].blockno;
      ghost var t := DoLogWrite(c, Abs(), p, b, cache.bufs[i].data).s;
      var k := FindEntry(b);
      block := block[k := b];
      if k == n {
        n := n + 1;
      }
      assert block[..n] == t.lh;
      assert Outstanding(t.ops) == outstanding by { OpsUpdate(ops, p, In(ops[p].used + 1)); }
      ops, cur := t.ops, t.cur;
      cache.Pin(i);
      assert Abs() == t;
    }

    /** log_write of a locked buffer by operation `p`; `false` is a panic, and then nothing has changed. */
    method LogWrite(p: nat, i: nat) returns (ok: bool)
      requires Valid() && p < |ops| && i < |cache.bufs| && cache.bufs[i].locked && cache.bufs[i].valid
      requires c.Home(cache.bufs[i].blockno) && !phase.Down? && !phase.Recover? && (outstanding >= 1 ==> ops[p].In?)
      modifies this`n, this`block, this`ops, this`cur, cache`bufs, cache`pinned
      ensures Valid()
      ensures DoLogWrite(c, old(Abs()), p, old(cache.bufs)[i].blockno, old(cache.bufs)[i].data)
              == if ok then Ok(Abs()) else Panic
      ensures cache.bufs == if ok then old(cache.bufs)[i := old(cache.bufs)[i].(dirty := true)] else old(cache.bufs)
      ensures !ok ==> Abs() == old(Abs())
    {
      if n >= LOGSIZE || n >= c.size - 1 {
        return false;
      }
      if outstanding < 1 {
        return false;
      }
      Append(p, i);
      return true;
    }

    /** The caller has locked buffer `i` for `blockno` and sees the last contents logged. */
    ghost predicate Reading(i: nat, blockno: Uint)
      reads cache
    {
      && i < |cache.bufs| && blockno < |cache.disk|
      && Bio.Holds(cache.bufs[i], Bio.ROOTDEV, blockno) && cache.bufs[i].valid && cache.bufs[i].locked
      && cache.bufs[i].data == Latest(cache.disk, cache.pinned, blockno)
    }

    /** Two breads in a row; `None` is bget's panic. */
    method BreadPair(a: Uint, b: Uint) returns (r: Option<(nat, nat)>)
      requires cache.Valid() && Quiet() && a != b && a < |cache.disk| && b < |cache.disk|
      modifies cache`bufs
      ensures cache.Valid()
      ensures r.Some? ==> Reading(r.value.0, a) && Reading(r.value.1, b)
                          && forall k :: 0 <= k < |cache.bufs| && cache.bufs[k].locked ==>
                               k == r.value.0 || k == r.value.1
    {
      var i := cache.Bread(a);
      if i.None? {
        return None;
      }
      var j := cache.Bread(b);
      if j.None? {
        return None;
      }
      return Some((i.value, j.value));
    }

    /** memmove, bwrite the destination, brelse both. */
    method CopyHeld(from: nat, src: Uint, to: nat, dst: Uint)
      requires cache.Valid() && Reading(from, src) && Reading(to, dst) && src != dst
      requires forall k :: 0 <= k < |cache.bufs| && cache.bufs[k].locked ==> k == from || k == to
      modifies cache
      ensures cache.Valid() && Quiet() && cache.pinned == old(cache.pinned) - {dst}
      ensures cache.disk == old(cache.disk)[dst := Latest(old(cache.disk), old(cache.pinned), src)]
    {
      cache.Modify(to, cache.bufs[from].data);
      cache.Bwrite(to);
      ReleasePair(from, src, to, dst);
    }

    method ReleasePair(i: nat, a: Uint, j: nat, b: Uint)
      requires cache.Valid() && Reading(i, a) && Reading(j, b) && i != j
      requires forall k :: 0 <= k < |cache.bufs| && cache.bufs[k].locked ==> k == i || k == j
      modifies cache`bufs, cache`next, cache`prev, cache`order, cache`stamp, cache`clock
      ensures cache.Valid() && Quiet()
    {
      cache.Brelse(i);
      cache.Brelse(j);
    }

    /**
     One turn of write_log or install_trans. write_log reads the destination first, install_trans
     the source. `false` is bget's panic, before anything is written.
     */
    method CopyBlock(src: Uint, dst: Uint, dstFirst: bool) returns (ok: bool)
      requires cache.Valid() && Quiet() && src != dst && src < |cache.disk| && dst < |cache.disk|
      modifies cache
      ensures cache.Valid()
      ensures ok ==> Quiet() && cache.pinned == old(cache.pinned) - {dst}
                     && cache.disk == old(cache.disk)[dst := Latest(old(cache.disk), old(cache.pinned), src)]
      ensures !ok ==> cache.disk == old(cache.disk) && cache.pinned == old(cache.pinned)
    {
      if dstFirst {
        var r := BreadPair(dst, src);
        if r.None? {
          return false;
        }
        CopyHeld(r.value.1, src, r.value.0, dst);
      } else {
        var r := BreadPair(src, dst);
        if r.None? {
          return false;
        }
        CopyHeld(r.value.0, src, r.value.1, dst);
      }
      return true;
    }

    /** The loop of write_head, on the bytes of the header block. */
    method EncodeHead(d0: Block) returns (data: Block)
      requires n <= |block| == LOGSIZE
      ensures data == PutHead(d0, block[..n])
    {
      data := SetWord(d0, 0, n);
      var i := 0;
      while i < n
        invariant i <= n && data == PutEntries(SetWord(d0, 0, n), block[..i])
      {
        assert block[..i + 1][..i] == block[..i];
        data := SetWord(data, i + 1, block[i]);
        i := i + 1;
      }
    }

    /** write_head: the in-memory header goes into the header block. */
    method WriteHead() returns (ok: bool)
      requires cache.Valid() && Quiet() && c.start < |cache.disk| && c.start <= UINT_MAX
      requires n <= |block| == LOGSIZE && c.start !in cache.pinned
      modifies cache
      ensures cache.Valid() && cache.pinned == old(cache.pinned)
      ensures ok ==> Quiet() && cache.disk == old(cache.disk)[c.start := PutHead(old(cache.disk)[c.start], block[..n])]
      ensures !ok ==> cache.disk == old(cache.disk)
    {
      var buf := cache.Bread(c.start);
      if buf.None? {
        return false;
      }
      var data := EncodeHead(cache.bufs[buf.value].data);
      WriteHeld(buf.value, c.start, data);
      return true;
    }

    /** Change a block that one has read, bwrite it and brelse it. */
    method WriteHeld(i: nat, b: Uint, data: Block)
      requires cache.Valid() && Reading(i, b) && forall k :: 0 <= k < |cache.bufs| && cache.bufs[k].locked ==> k == i
      modifies cache
      ensures cache.Valid() && Quiet()
      ensures cache.disk == old(cache.disk)[b := data] && cache.pinned == old(cache.pinned) - {b}
    {
      cache.Modify(i, data);
      cache.Bwrite(i);
      cache.Brelse(i);
    }

    /** The loop of read_head: the header block becomes the in-memory header. */
    method DecodeHead(data: Block)
      requires |block| == LOGSIZE && Word(data, 0) <= LOGSIZE
      modifies this`n, this`block
      ensures |block| == LOGSIZE && n <= LOGSIZE && block[..n] == ReadHead(data)
    {
      n := Word(data, 0);
      var i := 0;
      while i < n
        invariant i <= n == Word(data, 0) && |block| == LOGSIZE && block[..i] == Entries(data, i)
      {
        block := block[i := Word(data, i + 1)];
        assert block[..i + 1] == block[..i] + [Word(data, i + 1)];
        i := i + 1;
      }
    }

    /** One turn of write_log's loop. */
    method CopyOneToLog(tail: nat) returns (ok: bool)
      requires Valid() && Quiet() && phase == Phase.WriteLog(tail) && tail < n
      modifies this`phase, cache
      ensures Valid()
      ensures ok ==> Quiet() && phase == Phase.WriteLog(tail + 1) && Next(c, old(Abs()), CopyToLog) == Ok(Abs())
      ensures !ok ==> Abs() == old(Abs())
    {
      ghost var s := Abs();
      assert s.lh[tail] == block[tail] && c.Home(block[tail]);
      var dst: Uint := c.start + tail + 1;
      ok := CopyBlock(block[tail], dst, true);
      if ok {
        phase := Phase.WriteLog(tail + 1);
        assert cache.pinned == s.pinned;
      }
    }

    /** write_log. `k` blocks were copied; `ok` unless bget panicked. */
    method WriteLog() returns (ok: bool, ghost k: nat)
      requires Valid() && Quiet() && phase == Phase.WriteLog(0)
      modifies this`phase, cache
      ensures Valid()
      ensures k <= n && Iterate(c, old(Abs()), CopyToLog, k) == Ok(Abs())
      ensures ok ==> k == n && Quiet() && phase == Phase.WriteLog(n)
    {
      hide Sane, Next, DoCopyToLog, Bio.CacheOk;
      var tail := 0;
      ghost var s0, s := Abs(), Abs();
      while tail < n
        invariant Valid() && Quiet() && tail <= n && phase == Phase.WriteLog(tail) && s == Abs()
        invariant Iterate(c, s0, CopyToLog, tail) == Ok(s)
      {
        ok := CopyOneToLog(tail);
        if !ok {
          return false, tail;
        }
        s := Abs();
        tail := tail + 1;
      }
      return true, tail;
    }

    /** install_trans is at entry `i`, in commit or in recovery. */
    ghost predicate Installing(e: Event, i: nat)
      reads this, cache
    {
      && Valid()
      && ((e == InstallOne && phase == Install(i)) || (e == RecoverOne && phase == Recover(i) && cache.pinned == map[]))
    }

    /** One turn of install_trans's loop. */
    method InstallBlock(tail: nat, ghost e: Event) returns (ok: bool)
      requires Installing(e, tail) && Quiet() && tail < n
      modifies this`phase, cache
      ensures ok ==> Quiet() && Installing(e, tail + 1) && Next(c, old(Abs()), e) == Ok(Abs())
      ensures !ok ==> Valid() && Abs() == old(Abs())
    {
      hide Bio.CacheOk, Sane;
      ghost var s := Abs();
      SaneShape(c, s);
      assert s.lh[tail] == block[tail] && c.Home(block[tail]);
      ok := CopyBlock(c.start + tail + 1, block[tail], false);
      if ok {
        phase := if e == InstallOne then Install(tail + 1) else Recover(tail + 1);
        assert e == RecoverOne ==> cache.pinned == s.pinned;
        assert Next(c, s, e) == Ok(Abs());
      }
    }

    /** install_trans. `k` blocks were copied; `ok` unless bget panicked. */
    method InstallTrans(ghost e: Event) returns (ok: bool, ghost k: nat)
      requires Installing(e, 0) && Quiet()
      modifies this`phase, cache
      ensures Valid() && k <= n && Iterate(c, old(Abs()), e, k) == Ok(Abs())
      ensures ok ==> k == n && Quiet() && Installing(e, n)
    {
      hide Sane, Next, Bio.CacheOk;
      var tail := 0;
      ghost var s0, s := Abs(), Abs();
      while tail < n
        invariant Installing(e, tail) && Quiet() && tail <= n && s == Abs()
        invariant Iterate(c, s0, e, tail) == Ok(s)
      {
        ok := InstallBlock(tail, e);
        if !ok {
          return false, tail;
        }
        s := Abs();
        tail := tail + 1;
      }
      return true, tail;
    }

    /** The first write_head of commit(): from here on the transaction survives a crash. */
    method PutHeaderBlock() returns (ok: bool)
      requires Valid() && Quiet() && phase == Phase.WriteLog(n)
      modifies this`phase, this`hist, this`cur, cache
      ensures Valid()
      ensures ok ==> Quiet() && phase == Install(0) && Next(c, old(Abs()), PutHeader) == Ok(Abs())
      ensures !ok ==> Abs() == old(Abs())
    {
      ok := WriteHead();
      if ok {
        hist, cur, phase := hist + [cur], [], Install(0);
      }
    }

    /** `log.lh.n = 0; write_head()`, at the end of commit and of recovery. */
    method EraseHeaderBlock(ghost e: Event) returns (ok: bool)
      requires Valid() && Quiet()
      requires (e == EraseHeader && phase == Install(n)) || (e == RecoverErase && phase == Recover(n))
      modifies this`phase, this`n, cache
      ensures ok ==>
                && Valid() && Quiet() && Next(c, old(Abs()), e) == Ok(Abs())
                && phase == if e == EraseHeader then Done else Idle
      ensures !ok ==> cache.disk == old(cache.disk)
    {
      n := 0;
      assert block[..n] == [];
      ok := WriteHead();
      if ok {
        phase := if e == EraseHeader then Done else Idle;
      }
    }

    /** write_log(); write_head() */
    method WriteTransaction() returns (ok: bool, ghost es: seq<Event>)
      requires Valid() && Quiet() && phase == Phase.WriteLog(0)
      modifies this`phase, this`hist, this`cur, cache
      ensures Valid() && Run(c, old(Abs()), es) == Ok(Abs())
      ensures es <= Repeat(CopyToLog, n) + [PutHeader]
      ensures ok ==> Quiet() && es == Repeat(CopyToLog, n) + [PutHeader] && phase == Install(0)
    {
      hide Sane, Next, Bio.CacheOk;
      ghost var s0, k := Abs(), 0;
      ok, k := WriteLog();
      es := Repeat(CopyToLog, k);
      IterateIsRun(c, s0, CopyToLog, k);
      if ok {
        ok := PutHeaderBlock();
        if ok {
          RunSnoc(c, s0, es, PutHeader);
          es := es + [PutHeader];
        }
      }
    }

    /** install_trans(); log.lh.n = 0; write_head(), in commit and in recovery */
    method InstallTransaction(ghost e: Event, ghost erase: Event) returns (ok: bool, ghost es: seq<Event>)
      requires Valid() && Quiet()
      requires Installing(e, 0) && erase == if e == InstallOne then EraseHeader else RecoverErase
      modifies this`phase, this`n, cache
      ensures es <= Repeat(e, old(n)) + [erase]
      ensures ok ==> Valid() && Quiet() && Run(c, old(Abs()), es) == Ok(Abs()) && es == Repeat(e, old(n)) + [erase]
      ensures ok ==> phase == if e == InstallOne then Done else Idle
      ensures !ok ==> Run(c, old(Abs()), es).Ok? && cache.disk == Run(c, old(Abs()), es).s.disk
    {
      hide Sane, Next, Bio.CacheOk;
      ghost var s0, k := Abs(), 0;
      ok, k := InstallTrans(e);
      es := Repeat(e, k);
      IterateIsRun(c, s0, e, k);
      if ok {
        ok := EraseHeaderBlock(erase);
        if ok {
          RunSnoc(c, s0, es, erase);
          es := es + [erase];
        }
      }
    }

    /**
     commit(), called with a non-empty header. The disk writes are those of `CommitEvents`, in that
     order; when bget panics they are cut short, which is no worse than a crash.
     */
    method Commit() returns (ok: bool, ghost es: seq<Event>)
      requires Valid() && Quiet() && n > 0 && phase == Phase.WriteLog(0)
      modifies this`phase, this`n, this`hist, this`cur, cache
      ensures es <= CommitEvents(old(n))
      ensures ok ==>
                && Valid() && Quiet() && phase.Done? && es == CommitEvents(old(n))
                && Run(c, old(Abs()), es) == Ok(Abs())
      ensures !ok ==> Run(c, old(Abs()), es).Ok? && cache.disk == Run(c, old(Abs()), es).s.disk
    {
      hide Sane, Next, Bio.CacheOk;
      ghost var s0, m, more := Abs(), n, [];
      ok, es := WriteTransaction();
      if ok {
        ok, more := InstallTransaction(InstallOne, EraseHeader);
        RunConcat(c, s0, es, more);
        es := es + more;
      }
      assert CommitEvents(m) == Repeat(CopyToLog, m) + [PutHeader] + (Repeat(InstallOne, m) + [EraseHeader]);
    }

    /** read_head at boot. */
    method ReadHeaderBlock() returns (ok: bool)
      requires Valid() && Quiet() && phase.Down? && cache.pinned == map[] && DoReadHeader(c, Abs()).Ok?
      requires Word(cache.disk[c.start], 0) <= LOGSIZE
      modifies this`phase, this`n, this`block, cache
      ensures Valid()
      ensures ok ==> Quiet() && DoReadHeader(c, old(Abs())) == Ok(Abs())
      ensures !ok ==> Abs() == old(Abs())
    {
      hide Sane, Bio.CacheOk;
      ghost var s := Abs();
      SaneShape(c, s);
      var buf := cache.Bread(c.start);
      if buf.None? {
        assert Abs() == s;
        return false;
      }
      DecodeHead(cache.bufs[buf.value].data);
      cache.Brelse(buf.value);
      phase := Recover(0);
      assert Abs() == DoReadHeader(c, s).s;
      return true;
    }

    /**
     recover_from_log, run at boot before anything else touches the log: the header is read, and
     from there `es` is the run that installs and erases. A panic in bget cuts it short.
     */
    method RecoverFromLog() returns (ok: bool, ghost es: seq<Event>)
      requires Valid() && Quiet() && phase.Down? && cache.pinned == map[] && DoReadHeader(c, Abs()).Ok?
      requires Word(cache.disk[c.start], 0) <= LOGSIZE
      modifies this`phase, this`n, this`block, cache
      ensures var mid := DoReadHeader(c, old(Abs())).s;
        && es <= Repeat(RecoverOne, |mid.lh|) + [RecoverErase]
        && (ok ==>
             && Valid() && Quiet() && es == Repeat(RecoverOne, |mid.lh|) + [RecoverErase]
             && Run(c, mid, es) == Ok(Abs()))
        && (!ok ==> Run(c, mid, es).Ok? && cache.disk == Run(c, mid, es).s.disk)
    {
      ok := ReadHeaderBlock();
      if ok {
        ok, es := InstallTransaction(RecoverOne, RecoverErase);
      } else {
        es := [];
      }
    }

    /** The locked part of end_op; the process that turns out to be last must commit. */
    method Leave(p: nat) returns (last: bool)
      requires Valid() && p < |ops| && ops[p].In? && phase.Idle?
      modifies this`outstanding, this`ops, this`committing, this`phase
      ensures Valid() && DoEnd(c, old(Abs()), p) == Ok(Abs())
      ensures old(outstanding) >= 1 && (last <==> old(outstanding) == 1)
      ensures phase == if !last then Idle else if n > 0 then Phase.WriteLog(0) else Done
    {
      OpsUpdate(ops, p, Out);
      outstanding := outstanding - 1;
      ops := ops[p := Out];
      last := outstanding == 0;
      if last {
        committing := true;
        phase := if n > 0 then Phase.WriteLog(0) else Done;
      }
    }

    /** The rest of end_op for the last operation out: commit(), then committing = 0. */
    method CommitAndReopen() returns (ok: bool, ghost es: seq<Event>)
      requires Valid() && Quiet() && phase == (if n > 0 then Phase.WriteLog(0) else Done)
      modifies this, cache
      ensures ok ==> Valid() && Quiet() && phase.Idle? && Run(c, old(Abs()), es) == Ok(Abs())
      ensures ok ==> es == (if old(n) > 0 then CommitEvents(old(n)) else []) + [Finish]
      ensures !ok ==> Run(c, old(Abs()), es).Ok? && cache.disk == Run(c, old(Abs()), es).s.disk
    {
      hide Sane, Next, DoFinish, Bio.CacheOk;
      ghost var s0 := Abs();
      ok, es := true, [];
      if n > 0 {
        ok, es := Commit();
      }
      if ok {
        Reopen();
        RunSnoc(c, s0, es, Finish);
        es := es + [Finish];
      }
    }

    method Reopen()
      requires Valid() && phase.Done?
      modifies this`phase, this`committing
      ensures Valid() && phase.Idle? && Next(c, old(Abs()), Finish) == Ok(Abs())
    {
      phase, committing := Idle, false;
    }

    /** end_op: the last operation out commits. `false` is a panic inside commit; `es` is what took place. */
    method EndOp(p: nat) returns (ok: bool, ghost es: seq<Event>)
      requires Valid() && Quiet() && p < |ops| && ops[p].In? && phase.Idle?
      modifies this, cache
      ensures ok ==> Valid() && Quiet() && phase.Idle? && Run(c, old(Abs()), es) == Ok(Abs())
      ensures ok ==> es == [End(p)] + (if old(outstanding) > 1 then []
                                       else (if old(n) > 0 then CommitEvents(old(n)) else []) + [Finish])
      ensures !ok ==> Run(c, old(Abs()), es).Ok? && cache.disk == Run(c, old(Abs()), es).s.disk
    {
      ghost var s0, more := Abs(), [];
      var last := Leave(p);
      RunSnoc(c, s0, [], End(p));
      ok := true;
      if last {
        ok, more := CommitAndReopen();
      }
      es := ([] + [End(p)]) + more;
      RunConcat(c, s0, [] + [End(p)], more);
    }
  }
}
