/**
 Crash safety of file writes and truncations, from the calls down to single disk writes: after a crash at any
 disk write and a completed recovery the disk holds the file system after some prefix of the calls.
 */
module CrashSafe {
  import opened Disk
  import opened FsLayout
  import opened FsSpec
  import opened FsRuns
  import opened LogMachine
  import opened LogRuns
  import opened LogGroups
  import FileSystem

  /** The log region lies between the super block and the inode blocks. */
  function LogConfig(sb: Super): Config
    requires sb.inodestart >= 2
  {
    Config(2, sb.inodestart - 2, sb.size)
  }

  // ---------------------------------------------------------------- the blocks after a prefix of the calls

  /** Operations that logged nothing leave no transaction. */
  function NonEmpty(ts: seq<Txn>): seq<Txn>
  {
    if ts == [] then [] else NonEmpty(ts[..|ts| - 1]) + if ts[|ts| - 1] == [] then [] else [ts[|ts| - 1]]
  }

  /**
   A prefix of the transactions is that of a prefix of the operations, which can be chosen to include the first
   `j`.
   */
  lemma {:induction false} CommittedPrefix(ts: seq<Txn>, h: seq<Txn>, j: nat) returns (k: nat)
    requires j <= |ts| && NonEmpty(ts[..j]) <= h <= NonEmpty(ts)
    ensures j <= k <= |ts| && NonEmpty(ts[..k]) == h
    decreases |ts|
  {
    if h == NonEmpty(ts) {
      k := |ts|;
      assert ts[..k] == ts;
    } else {
      var front := ts[..|ts| - 1];
      assert ts[..|ts|] == ts;
      assert front[..j] == ts[..j] && h <= NonEmpty(front);
      k := CommittedPrefix(front, h, j);
      assert front[..k] == ts[..k];
    }
  }

  /** Replaying the transactions of the first `k` calls gives the blocks of the state after them. */
  lemma {:induction false} ReplayTrail(sb: Super, files: seq<seq<Byte>>, cs: seq<Call>, states: seq<Fs>,
                                       txns: seq<Txn>, k: nat)
    requires Trail(sb, files, cs, states, txns) && k <= |cs|
    ensures TxnsIn(NonEmpty(txns[..k]), |states[0].d|) && ReplayAll(states[0].d, NonEmpty(txns[..k])) == states[k].d
    decreases k
  {
    hide AtRest;
    if k > 0 {
      ReplayTrail(sb, files, cs, states, txns, k - 1);
      assert txns[..k][..k - 1] == txns[..k - 1];
      var h, t := NonEmpty(txns[..k - 1]), txns[k - 1];
      assert Operation(sb, states[k - 1].d, states[k].d, t);
      if t != [] {
        assert (h + [t])[..|h|] == h;
      } else {
        assert h + [] == h;
      }
    }
  }

  // ---------------------------------------------------------------- blocks that agree

  ghost predicate Agree(sb: Super, d: seq<Block>, d': seq<Block>)
  {
    |d| == |d'| == sb.size && forall b :: sb.inodestart <= b < sb.size ==> d'[b] == d[b]
  }

  lemma AgreeBits(sb: Super, s: Fs, d: seq<Block>)
    requires Good(sb, s) && Agree(sb, s.d, d)
    ensures BitsRepr(sb, d, s.bits) && InosRepr(sb, d, s.dinos)
  {
    forall b | 0 <= b < sb.size ensures DiskBit(d, sb, b) == DiskBit(s.d, sb, b) {
      assert sb.inodestart <= sb.BBlock(b) < sb.size;
    }
    forall i | 0 <= i < sb.ninodes ensures DiskIno(d, sb, i) == DiskIno(s.d, sb, i) {
      assert sb.inodestart <= sb.IBlock(i) < sb.size;
    }
  }

  lemma AgreeIndirect(sb: Super, s: Fs, d: seq<Block>)
    requires Good(sb, s) && Agree(sb, s.d, d)
    ensures IndRepr(d, s.files)
  {
    forall i | 0 <= i < |s.files| ensures Shape(s.files[i])
        && s.files[i].ind == FsSpec.Entries(d, s.files[i].addrs[NDIRECT]) {
      if s.files[i].addrs[NDIRECT] != 0 {
        IndirectOwner(sb, s.files, s.owner, i);
      }
    }
  }

  lemma AgreeBytes(sb: Super, s: Fs, d: seq<Block>)
    requires Good(sb, s) && Agree(sb, s.d, d)
    ensures KeepsBytes(s, s.(d := d))
  {
    forall i, k | 0 <= i < |s.files| && 0 <= k < SLOTS && k != NDIRECT && Slot(s.files[i], k) != 0
      ensures Slot(s.files[i], k) < |s.d| && d[Slot(s.files[i], k)] == s.d[Slot(s.files[i], k)]
    {
      assert Slot(s.files[i], k) in s.owner;
    }
  }

  /** A disk that agrees behind the log region is the same file system. */
  lemma AgreeAtRest(sb: Super, s: Fs, d: seq<Block>, files: seq<seq<Byte>>)
    requires AtRest(sb, s, files) && Agree(sb, s.d, d)
    ensures AtRest(sb, s.(d := d), files)
  {
    AgreeBits(sb, s, d);
    AgreeIndirect(sb, s, d);
    AgreeBytes(sb, s, d);
    assert Good(sb, s.(d := d));
    hide Good, Content;
    FileSystem.BitPerBlock(sb, s);
    forall i | 0 <= i < |files| ensures Content(s.(d := d), i) == files[i] {
      KeepsContent(sb, s, s.(d := d), i);
    }
  }

  // ---------------------------------------------------------------- crash safety

  /** The disk is sound by itself and holds the files after the first `k` calls, so that more calls can follow. */
  ghost predicate Recovered(sb: Super, files: seq<seq<Byte>>, cs: seq<Call>, k: nat, disk: seq<Block>)
  {
    && k <= |cs| && Sound(sb, disk, Effects(files, cs[..k]))
    && exists s: Fs :: s.d == disk && AtRest(sb, s, Effects(files, cs[..k]))
  }

  /** The machine on the image that the file system was on when the calls began. */
  ghost predicate Mounted(sb: Super, d: seq<Block>)
  {
    && sb.Valid() && |d| == sb.size && sb.inodestart >= 3 && Word(d[2], 0) == 0
  }

  lemma HomeAgrees(sb: Super, d: seq<Block>, n: nat, es: seq<Event>, rs: seq<Event>,
                   target: seq<Block>)
    requires sb.Valid() && FreshImage(LogConfig(sb), d) && Run(LogConfig(sb), Boot(d, n), es).Ok?
    requires forall i :: 0 <= i < |rs| ==> RecoveryEvent(rs[i])
    requires TxnsIn(CommittedTxns(es), |d|) && ReplayAll(d, CommittedTxns(es)) == target
    ensures var c := LogConfig(sb);
      var up := Run(c, DoCrash(c, Run(c, Boot(d, n), es).s).s, rs);
      up.Ok? && up.s.phase.Idle? ==> Agree(sb, target, up.s.disk)
  {
    hide Run, ReplayAll, CommittedTxns, RecoveryEvent;
    var c := LogConfig(sb);
    var up := Run(c, DoCrash(c, Run(c, Boot(d, n), es).s).s, rs);
    if up.Ok? && up.s.phase.Idle? {
      forall b | sb.inodestart <= b < sb.size ensures up.s.disk[b] == target[b] {
        CrashAtomicity(c, d, n, es, rs, b);
      }
    }
  }

  lemma AgreeRecovered(sb: Super, files: seq<seq<Byte>>, cs: seq<Call>, s: Fs, k: nat, disk: seq<Block>)
    requires k <= |cs| && AtRest(sb, s, Effects(files, cs[..k])) && Agree(sb, s.d, disk)
    ensures Recovered(sb, files, cs, k, disk)
  {
    hide AtRest, Agree, Effects, Sound;
    AgreeAtRest(sb, s, disk, Effects(files, cs[..k]));
    RestIsSound(sb, s.(d := disk), Effects(files, cs[..k]));
    assert s.(d := disk).d == disk;
  }

  /** The first `k` calls are the operations that the header writes in `es` have made durable. */
  ghost predicate DurableCalls(es: seq<Event>, txns: seq<Txn>, k: nat)
  {
    k <= |txns| && Durable(es) <= |NonEmpty(txns)| && NonEmpty(txns[..k]) == NonEmpty(txns)[..Durable(es)]
  }

  /** By `es` the first `j` calls have made all their log_writes. */
  ghost predicate Made(es: seq<Event>, txns: seq<Txn>, j: nat)
  {
    j <= |txns| && |NonEmpty(txns[..j])| <= |Groups(es).groups|
  }

  /** Which calls a crash after `es` keeps: at least those made when the log last settled. */
  lemma KeptCalls(c: Config, d: seq<Block>, n: nat, es: seq<Event>, es0: seq<Event>, txns: seq<Txn>, j: nat)
    returns (k: nat)
    requires FreshImage(c, d) && Run(c, Boot(d, n), es).Ok? && Serial(es, NonEmpty(txns))
    requires es0 <= es && Run(c, Boot(d, n), es0).Ok? && Settled(Run(c, Boot(d, n), es0).s) && Made(es0, txns, j)
    ensures j <= k && DurableCalls(es, txns, k) && Flatten(CommittedTxns(es)) == Flatten(NonEmpty(txns[..k]))
  {
    hide Run, Groups, Flatten, CommittedTxns, Durable, Serial, Settled;
    var ts := NonEmpty(txns);
    SerialFront(es0, es, ts);
    SettledIsDurable(c, d, n, es0, ts);
    DurableGrows(es0, es);
    CommitsGroups(c, d, n, es, ts);
    NonEmptyFront(txns, j);
    k := CommittedPrefix(txns, ts[..Durable(es)], j);
  }

  lemma {:induction false} SerialFront(a: seq<Event>, es: seq<Event>, ts: seq<Txn>)
    requires Serial(es, ts) && a <= es
    ensures Serial(a, ts)
    decreases |es|
  {
    hide Follows;
    if a != es {
      SerialFront(a, es[..|es| - 1], ts);
    }
  }

  lemma {:induction false} NonEmptyFront(ts: seq<Txn>, j: nat)
    requires j <= |ts|
    ensures NonEmpty(ts[..j]) <= NonEmpty(ts)
    decreases |ts|
  {
    if j < |ts| {
      NonEmptyFront(ts[..|ts| - 1], j);
      assert ts[..|ts| - 1][..j] == ts[..j];
    } else {
      assert ts[..j] == ts;
    }
  }

  /**
   Let `n` processes run, one of their operations for each call, the calls' log_writes one call after the other
   but otherwise interleaved in any way. Cut the run by a crash anywhere, let recovery crash and restart any
   number of times, and let it finish: the disk is a sound file system whose files are those after a prefix of
   the calls. The prefix is that of the header writes, and it includes all calls made by any moment at which
   the log was idle with nobody in an operation.
   */
  lemma WritesSurviveCrashes(sb: Super, files: seq<seq<Byte>>, cs: seq<Call>, states: seq<Fs>, txns: seq<Txn>,
                             n: nat, es: seq<Event>, rs: seq<Event>, es0: seq<Event>, j: nat)
    requires Trail(sb, files, cs, states, txns) && Mounted(sb, states[0].d)
    requires Run(LogConfig(sb), Boot(states[0].d, n), es).Ok? && Serial(es, NonEmpty(txns))
    requires es0 <= es && Run(LogConfig(sb), Boot(states[0].d, n), es0).Ok?
    requires Settled(Run(LogConfig(sb), Boot(states[0].d, n), es0).s) && Made(es0, txns, j)
    requires forall i :: 0 <= i < |rs| ==> RecoveryEvent(rs[i])
    ensures var c := LogConfig(sb);
      var up := Run(c, DoCrash(c, Run(c, Boot(states[0].d, n), es).s).s, rs);
      up.Ok? && up.s.phase.Idle? ==>
        exists k :: j <= k && DurableCalls(es, txns, k) && Recovered(sb, files, cs, k, up.s.disk)
  {
    hide AtRest, Operation, Run, NonEmpty, CommittedTxns, Agree, Recovered, Effects, Serial, Settled;
    hide DurableCalls, Made, ReplayAll;
    var c, d := LogConfig(sb), states[0].d;
    MountedFresh(sb, d);
    var k := KeptCalls(c, d, n, es, es0, txns, j);
    KeptShape(es, txns, k);
    ReplayTrail(sb, files, cs, states, txns, k);
    Reachable(c, d, n, es);
    ReplayFlat(d, CommittedTxns(es));
    ReplayFlat(d, NonEmpty(txns[..k]));
    HomeAgrees(sb, d, n, es, rs, states[k].d);
    var up := Run(c, DoCrash(c, Run(c, Boot(d, n), es).s).s, rs);
    if up.Ok? && up.s.phase.Idle? {
      AgreeRecovered(sb, files, cs, states[k], k, up.s.disk);
    }
  }

  lemma KeptShape(es: seq<Event>, txns: seq<Txn>, k: nat)
    requires DurableCalls(es, txns, k)
    ensures k <= |txns|
  {
  }

  lemma MountedFresh(sb: Super, d: seq<Block>)
    requires Mounted(sb, d)
    ensures FreshImage(LogConfig(sb), d)
  {
  }
}
