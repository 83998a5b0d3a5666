/** Runs of writes and truncations, each one log operation: the file system as an array of byte sequences. */
module FsRuns {
  import opened Disk
  import opened FsLayout
  import opened FsSpec
  import opened FileSystem
  import opened FileIO
  import opened FileWrite
  import LogMachine

  /** An operation of its own: writei of `src` at offset `off` of inode `i`, or itrunc of inode `i`. */
  datatype Call = Write(i: nat, off: Uint, src: seq<Byte>) | Truncate(i: nat)

  /** The files are these byte sequences. */
  ghost predicate Shows(s: Fs, files: seq<seq<Byte>>)
  {
    Mapped(s.files) && |s.files| == |files| && forall i :: 0 <= i < |files| ==> Content(s, i) == files[i]
  }

  /** The offset and the range of a write are usable. */
  predicate Effective(files: seq<seq<Byte>>, i: nat, off: nat, n: nat)
  {
    i < |files| && off <= |files[i]| && off + n <= MAXFILE * BSIZE
  }

  /** What a call does to the files: nothing if its offset or range is unusable. */
  function Effect(files: seq<seq<Byte>>, c: Call): (r: seq<seq<Byte>>)
    ensures |r| == |files|
  {
    match c
    case Write(i, off, src) => if Effective(files, i, off, |src|) then files[i := Splice(files[i], off, src)] else files
    case Truncate(i) => if i < |files| then files[i := []] else files
  }

  function Effects(files: seq<seq<Byte>>, cs: seq<Call>): (r: seq<seq<Byte>>)
    ensures |r| == |files|
  {
    if cs == [] then files else Effect(Effects(files, cs[..|cs| - 1]), cs[|cs| - 1])
  }

  /** All disk inodes are up to date. */
  ghost predicate AllSynced(s: Fs)
  {
    |s.dinos| == |s.files| && forall x :: 0 <= x < |s.files| ==> s.dinos[x] == Ino(s.files[x].size, s.files[x].addrs)
  }

  /** Between operations: no block is marked that nothing refers to. */
  ghost predicate AtRest(sb: Super, s: Fs, files: seq<seq<Byte>>)
  {
    Good(sb, s) && s.pend == {} && AllSynced(s) && Shows(s, files)
  }

  function Blocks(t: LogMachine.Txn): set<nat> { set i | 0 <= i < |t| :: t[i].0 as nat }

  /** `t` takes the blocks from `d` to `d'` and is clear of the log region. */
  ghost predicate Operation(sb: Super, d: seq<Block>, d': seq<Block>, t: LogMachine.Txn)
  {
    && |d| == sb.size && LogMachine.InRange(t, |d|) && LogMachine.Replay(d, t) == d'
    && (forall i :: 0 <= i < |t| ==> sb.inodestart <= t[i].0)
  }

  /** It logs no more blocks than begin_op reserved for it. */
  ghost predicate Reserved(t: LogMachine.Txn) { |Blocks(t)| <= MAXOPBLOCKS }

  lemma LoggedIsOperation(fs: FileSystem, new_: set<nat>)
    requires fs.Logged() && |fs.base| == fs.sb.size && fs.logged <= new_
    ensures Operation(fs.sb, fs.base, fs.blk, fs.writes) && |Blocks(fs.writes)| <= |new_|
  {
    SubsetSize(Blocks(fs.writes), new_);
  }

  // ---------------------------------------------------------------- the disk by itself

  /** Inode `i` as it is on disk, with the entries of its indirect block. */
  function FileOn(sb: Super, d: seq<Block>, i: nat): (f: File)
    requires sb.Valid() && |d| == sb.size && i < sb.ninodes
    ensures Shape(f)
  {
    var ino := DiskIno(d, sb, i);
    File(ino.size, ino.addrs, Entries(d, ino.addrs[NDIRECT]))
  }

  ghost predicate Refers(sb: Super, d: seq<Block>, i: nat, k: nat, b: nat)
    requires sb.Valid() && |d| == sb.size
  {
    i < sb.ninodes && k < SLOTS && b != 0 && Slot(FileOn(sb, d, i), k) == b
  }

  /** The bits set are exactly the metadata blocks and the blocks that inodes refer to, each from one place. */
  ghost predicate OwnedOnce(sb: Super, d: seq<Block>)
    requires sb.Valid() && |d| == sb.size
  {
    && (forall b :: 0 <= b < sb.size ==>
         (DiskBit(d, sb, b) <==> b < sb.datastart || exists i: nat, k: nat :: Refers(sb, d, i, k, b)))
    && (forall b: nat, i: nat, k: nat, j: nat, l: nat ::
         Refers(sb, d, i, k, b) && Refers(sb, d, j, l, b) ==> i == j && k == l)
    && (forall b: nat, i: nat, k: nat :: Refers(sb, d, i, k, b) ==> sb.datastart <= b < sb.size)
  }

  /** Byte `o` of file `i`, found through the inode and the indirect block on disk. */
  ghost predicate ByteOn(sb: Super, d: seq<Block>, i: nat, o: nat, x: Byte)
    requires sb.Valid() && |d| == sb.size && i < sb.ninodes && o < MAXFILE * BSIZE
  {
    var b := Slot(FileOn(sb, d, i), SlotOf(o / BSIZE));
    0 < b < |d| && d[b][o % BSIZE] == x
  }

  /** The disk, by itself, is a file system with these files and with every block accounted for. */
  ghost predicate Sound(sb: Super, d: seq<Block>, files: seq<seq<Byte>>)
  {
    && sb.Valid() && |d| == sb.size && |files| == sb.ninodes && OwnedOnce(sb, d)
    && (forall i :: 0 <= i < |files| ==> DiskIno(d, sb, i).size == |files[i]| <= MAXFILE * BSIZE)
    && (forall i, o :: 0 <= i < |files| && 0 <= o < |files[i]| ==> ByteOn(sb, d, i, o, files[i][o]))
  }

  lemma FilesOnDisk(sb: Super, s: Fs)
    requires Good(sb, s) && AllSynced(s)
    ensures forall i :: 0 <= i < sb.ninodes ==> FileOn(sb, s.d, i) == s.files[i]
  {
    forall i | 0 <= i < sb.ninodes ensures FileOn(sb, s.d, i) == s.files[i] {
      assert s.dinos[i] == DiskIno(s.d, sb, i);
    }
  }

  lemma AllOwnedOnce(sb: Super, s: Fs)
    requires Good(sb, s) && AllSynced(s) && s.pend == {}
    ensures OwnedOnce(sb, s.d)
  {
    FilesOnDisk(sb, s);
    forall b | 0 <= b < sb.size
      ensures DiskBit(s.d, sb, b) <==> b < sb.datastart || exists i: nat, k: nat :: Refers(sb, s.d, i, k, b)
    {
      assert s.bits[b] == DiskBit(s.d, sb, b);
      if b in s.owner {
        assert Refers(sb, s.d, s.owner[b].0, s.owner[b].1, b);
      }
    }
    forall b: nat, i: nat, k: nat | Refers(sb, s.d, i, k, b) ensures b in s.owner && s.owner[b] == (i, k) {}
  }

  /** Between operations the disk by itself is sound and shows the files. */
  lemma RestIsSound(sb: Super, s: Fs, files: seq<seq<Byte>>)
    requires AtRest(sb, s, files)
    ensures Sound(sb, s.d, files)
  {
    FilesOnDisk(sb, s);
    AllOwnedOnce(sb, s);
    hide OwnedOnce;
    forall i, o | 0 <= i < |files| && 0 <= o < |files[i]| ensures ByteOn(sb, s.d, i, o, files[i][o]) {
      assert Content(s, i) == files[i];
      BytesAt(s, i, s.files[i].size, o);
      assert o / BSIZE * BSIZE <= o;
      assert Slot(s.files[i], SlotOf(o / BSIZE)) in s.owner;
    }
  }

  // ---------------------------------------------------------------- one call

  lemma SplicedEffect(sb: Super, s: Fs, t: Fs, files: seq<seq<Byte>>, c: Call)
    requires c.Write? && Shows(s, files) && Effective(files, c.i, c.off, |c.src|)
    requires Spliced(s, t, c.i, c.off, c.src)
    ensures Shows(t, Effect(files, c))
  {
  }

  /** ilock: the inode as it is on disk. */
  method Load(fs: FileSystem, i: nat) returns (ip: Inode)
    requires fs.Valid() && AllSynced(fs.st) && i < fs.sb.ninodes
    ensures fresh(ip) && fs.Holding(ip) && ip.inum == i && fs.st.dinos[i] == Ino(ip.size, ip.addrs)
  {
    ip := new Inode(i, DiskIno(fs.blk, fs.sb, i));
  }

  /** There are enough free blocks for the call; a truncation, or a write that is refused, needs none. */
  ghost predicate Possible(s: Fs, files: seq<seq<Byte>>, c: Call)
  {
    c.Write? && Effective(files, c.i, c.off, |c.src|) ==> Room(s, c.i, RangeSlots(c.off, |c.src|))
  }

  /** begin_op, ilock, writei, end_op. `false` is balloc's panic. */
  method PerformWrite(fs: FileSystem, c: Call, ghost files: seq<seq<Byte>>) returns (r: int, ok: bool)
    requires c.Write? && fs.Valid() && AtRest(fs.sb, fs.st, files) && c.i < fs.sb.ninodes && |c.src| <= CHUNK
    modifies fs
    ensures ok ==> fs.Valid() && AtRest(fs.sb, fs.st, Effect(files, c))
    ensures ok ==> r == if Effective(files, c.i, c.off, |c.src|) then |c.src| else -1
    ensures ok ==> fs.base == old(fs.blk) && Operation(fs.sb, old(fs.blk), fs.blk, fs.writes) && Reserved(fs.writes)
    ensures ok <==> Possible(old(fs.st), files, c)
  {
    hide Good, OthersSynced, Content, fs.Logged, Room, Fills, NoneFree, RangeSlots;
    BitPerBlock(fs.sb, fs.st);
    var ip := Load(fs, c.i);
    HasContent(fs.sb, fs.st, c.i);
    ghost var s := fs.st;
    fs.BeginLogging();
    ghost var new_;
    r, ok, new_ := Writei(fs, ip, c.off, c.src);
    if ok {
      BitPerBlock(fs.sb, fs.st);
      LoggedIsOperation(fs, new_);
      RestSynced(fs.st, c.i);
      if r != -1 {
        SplicedEffect(fs.sb, s, fs.st, files, c);
      }
    }
  }

  lemma EmptiedEffect(sb: Super, s: Fs, t: Fs, files: seq<seq<Byte>>, i: nat)
    requires Shows(s, files) && Good(sb, t) && i < |files| == sb.ninodes && t.files[i].size == 0
    requires forall x :: 0 <= x < sb.ninodes && x != i ==> Content(t, x) == Content(s, x)
    ensures Shows(t, files[i := []])
  {
  }

  /** begin_op, ilock, itrunc, end_op. */
  method PerformTruncate(fs: FileSystem, i: nat, ghost files: seq<seq<Byte>>)
    requires fs.Valid() && AtRest(fs.sb, fs.st, files) && i < fs.sb.ninodes
    modifies fs
    ensures fs.Valid() && AtRest(fs.sb, fs.st, files[i := []])
    ensures fs.base == old(fs.blk) && Operation(fs.sb, old(fs.blk), fs.blk, fs.writes)
    ensures |Blocks(fs.writes)| <= |TruncLog(fs.sb, old(fs.st).owner, i)|
  {
    hide Good, OthersSynced, Content, fs.Logged, TruncLog;
    BitPerBlock(fs.sb, fs.st);
    var ip := Load(fs, i);
    ghost var s := fs.st;
    fs.BeginLogging();
    fs.Itrunc(ip);
    BitPerBlock(fs.sb, fs.st);
    assert {} + TruncLog(fs.sb, s.owner, i) == TruncLog(fs.sb, s.owner, i);
    LoggedIsOperation(fs, TruncLog(fs.sb, s.owner, i));
    RestSynced(fs.st, i);
    EmptiedEffect(fs.sb, s, fs.st, files, i);
  }

  /** One call. */
  method Perform(fs: FileSystem, c: Call, ghost files: seq<seq<Byte>>) returns (r: int, ok: bool)
    requires fs.Valid() && AtRest(fs.sb, fs.st, files) && c.i < fs.sb.ninodes && (c.Write? ==> |c.src| <= CHUNK)
    modifies fs
    ensures ok ==> fs.Valid() && AtRest(fs.sb, fs.st, Effect(files, c))
    ensures ok && c.Write? ==> r == if Effective(files, c.i, c.off, |c.src|) then |c.src| else -1
    ensures ok ==> fs.base == old(fs.blk) && Operation(fs.sb, old(fs.blk), fs.blk, fs.writes)
    ensures ok && (c.Write? || FewBitmapBlocks(fs.sb)) ==> Reserved(fs.writes)
    ensures ok <==> Possible(old(fs.st), files, c)
  {
    hide Good, fs.Logged, AtRest, Operation, Effective, TruncLog, FewBitmapBlocks, Room;
    RestShape(fs.sb, fs.st, files);
    if c.Write? {
      r, ok := PerformWrite(fs, c, files);
    } else {
      r, ok := 0, true;
      TruncBudget(fs.sb, fs.st, c.i);
      PerformTruncate(fs, c.i, files);
    }
  }

  lemma RestShape(sb: Super, s: Fs, files: seq<seq<Byte>>)
    requires AtRest(sb, s, files)
    ensures sb.Valid() && |s.d| == sb.size && |files| == sb.ninodes
  {
  }

  /** The bitmap and an inode block fit in one operation. */
  predicate FewBitmapBlocks(sb: Super) { sb.size / BPB + 2 <= MAXOPBLOCKS }

  lemma {:induction false} RangeSize(s: set<nat>, lo: nat, n: nat)
    requires forall x :: x in s ==> lo <= x < lo + n
    ensures |s| <= n
    decreases n
  {
    if n > 0 {
      RangeSize(s - {lo + n - 1}, lo, n - 1);
    } else {
      assert s == {};
    }
  }

  /** A truncation logs one inode block and the bitmap blocks of the file; it fits exactly if those are few. */
  lemma TruncBudget(sb: Super, s: Fs, i: nat)
    requires Good(sb, s) && i < sb.ninodes
    ensures var bs := BitmapBlocks(sb, Held(s.owner, i, 0));
      && |TruncLog(sb, s.owner, i)| == |bs| + 1
      && (|TruncLog(sb, s.owner, i)| <= MAXOPBLOCKS <==> |bs| < MAXOPBLOCKS)
      && (FewBitmapBlocks(sb) ==> |TruncLog(sb, s.owner, i)| <= MAXOPBLOCKS)
  {
    hide Good, Held;
    var held := Held(s.owner, i, 0);
    BitPerBlock(sb, s);
    HeldInside(sb, s, i);
    var bs := BitmapBlocks(sb, held);
    forall x | x in bs ensures sb.bmapstart <= x < sb.bmapstart + (sb.size / BPB + 1) {
      var b :| b in held && x == sb.BBlock(b);
      BlockInBitmap(sb, b);
    }
    assert sb.IBlock(i) < sb.bmapstart;
    if FewBitmapBlocks(sb) {
      RangeSize(bs, sb.bmapstart, sb.size / BPB + 1);
    }
  }

  lemma HeldInside(sb: Super, s: Fs, i: nat)
    requires Good(sb, s)
    ensures forall b :: b in Held(s.owner, i, 0) ==> b < sb.size
  {
    hide BitsRepr, InosRepr, IndRepr, Bitmap, Mapped, Slot;
  }

  lemma BlockInBitmap(sb: Super, b: nat)
    requires b < sb.size
    ensures sb.bmapstart <= sb.BBlock(b) < sb.bmapstart + (sb.size / BPB + 1)
  {
  }

  lemma RestSynced(s: Fs, i: nat)
    requires OthersSynced(s, i) && i < |s.files| && s.dinos[i] == Ino(s.files[i].size, s.files[i].addrs)
    ensures AllSynced(s)
  {
  }

  /**
   A run of calls: the states between them, `states[k]` after the first `k`, and the log_writes of each.
   */
  ghost predicate Trail(sb: Super, files: seq<seq<Byte>>, cs: seq<Call>, states: seq<Fs>, txns: seq<LogMachine.Txn>)
  {
    && |txns| == |cs| && |states| == |cs| + 1
    && (forall k :: 0 <= k <= |cs| ==> AtRest(sb, states[k], Effects(files, cs[..k])))
    && (forall k :: 0 <= k < |cs| ==> Operation(sb, states[k].d, states[k + 1].d, txns[k]))
  }

  lemma TrailSnoc(sb: Super, files: seq<seq<Byte>>, cs: seq<Call>, c: Call, states: seq<Fs>, s: Fs,
                  txns: seq<LogMachine.Txn>, t: LogMachine.Txn)
    requires Trail(sb, files, cs, states, txns) && AtRest(sb, s, Effect(Effects(files, cs), c))
    requires Operation(sb, states[|cs|].d, s.d, t)
    ensures Trail(sb, files, cs + [c], states + [s], txns + [t])
  {
    hide AtRest, Operation, Effect;
    var cs', states', txns' := cs + [c], states + [s], txns + [t];
    forall k | 0 <= k <= |cs'| ensures AtRest(sb, states'[k], Effects(files, cs'[..k])) {
      if k <= |cs| {
        assert cs'[..k] == cs[..k] && states'[k] == states[k];
      } else {
        assert cs'[..k] == cs' && cs'[..|cs|] == cs;
      }
    }
    forall k | 0 <= k < |cs'| ensures Operation(sb, states'[k].d, states'[k + 1].d, txns'[k]) {
      if k < |cs| {
        assert states'[k] == states[k] && states'[k + 1] == states[k + 1] && txns'[k] == txns[k];
      }
    }
  }

  /** Of each call, what `Perform` says of its log_writes. */
  ghost predicate AllReserved(sb: Super, cs: seq<Call>, txns: seq<LogMachine.Txn>)
  {
    |cs| == |txns| && forall k :: 0 <= k < |cs| && (cs[k].Write? || FewBitmapBlocks(sb)) ==> Reserved(txns[k])
  }

  /** The first `n` calls had the blocks they needed. */
  ghost predicate PossibleBelow(files: seq<seq<Byte>>, cs: seq<Call>, states: seq<Fs>, n: nat)
  {
    n <= |cs| && n <= |states| && forall k :: 0 <= k < n ==> Possible(states[k], Effects(files, cs[..k]), cs[k])
  }

  lemma NothingYet(sb: Super, files: seq<seq<Byte>>, cs: seq<Call>, states: seq<Fs>)
    ensures AllReserved(sb, [], []) && PossibleBelow(files, cs, states, 0)
  {
  }

  lemma PossibleSnoc(files: seq<seq<Byte>>, cs: seq<Call>, states: seq<Fs>, n: nat, s: Fs)
    requires PossibleBelow(files, cs, states, n) && n < |cs| && n < |states|
    requires Possible(states[n], Effects(files, cs[..n]), cs[n])
    ensures PossibleBelow(files, cs, states + [s], n + 1)
  {
    hide Possible, Effects;
  }

  lemma AllPossible(files: seq<seq<Byte>>, cs: seq<Call>, states: seq<Fs>)
    requires PossibleBelow(files, cs, states, |cs|)
    ensures |cs| <= |states| && forall k :: 0 <= k < |cs| ==> Possible(states[k], Effects(files, cs[..k]), cs[k])
  {
  }

  lemma ReservedSnoc(sb: Super, cs: seq<Call>, c: Call, txns: seq<LogMachine.Txn>, t: LogMachine.Txn)
    requires AllReserved(sb, cs, txns) && (c.Write? || FewBitmapBlocks(sb) ==> Reserved(t))
    ensures AllReserved(sb, cs + [c], txns + [t])
  {
    hide Reserved, FewBitmapBlocks;
  }

  /**
   Over every run of calls the file system is an array of byte sequences, the disk after each call is sound
   by itself, and each call is one log operation. The run breaks off, with `ok` false for balloc's panic, exactly
   at the first call for which there are not enough free blocks.
   */
  method PerformAll(fs: FileSystem, cs: seq<Call>, ghost files: seq<seq<Byte>>)
    returns (ok: bool, ghost states: seq<Fs>, ghost txns: seq<LogMachine.Txn>)
    requires fs.Valid() && AtRest(fs.sb, fs.st, files)
    requires forall k :: 0 <= k < |cs| ==> cs[k].i < fs.sb.ninodes && (cs[k].Write? ==> |cs[k].src| <= CHUNK)
    modifies fs
    ensures ok ==>
              && fs.Valid() && Trail(fs.sb, files, cs, states, txns) && states[0] == old(fs.st)
              && states[|cs|] == fs.st
    ensures ok ==> forall k :: 0 <= k <= |cs| ==> Sound(fs.sb, states[k].d, Effects(files, cs[..k]))
    ensures ok ==> AllReserved(fs.sb, cs, txns)
    ensures ok ==> forall k :: 0 <= k < |cs| ==> Possible(states[k], Effects(files, cs[..k]), cs[k])
    ensures !ok ==> 0 < |states| <= |cs| && var k := |states| - 1;
              && Trail(fs.sb, files, cs[..k], states, txns) && states[0] == old(fs.st)
              && !Possible(states[k], Effects(files, cs[..k]), cs[k])
  {
    hide Good, fs.Logged, AtRest, Operation, Effect, Trail, Sound, Effects, AllReserved,
         PossibleBelow, Possible;
    ok, states, txns := true, [fs.st], [];
    var k := 0;
    TrailStart(fs.sb, fs.st, files);
    assert cs[..0] == [];
    NothingYet(fs.sb, files, cs, states);
    while k < |cs|
      invariant 0 <= k <= |cs| && fs.Valid() && |states| == k + 1 && Trail(fs.sb, files, cs[..k], states, txns)
      invariant states[0] == old(fs.st) && states[k] == fs.st && AllReserved(fs.sb, cs[..k], txns)
      invariant PossibleBelow(files, cs, states, k)
    {
      TrailAt(fs.sb, files, cs[..k], states, txns);
      ghost var s := fs.st;
      var _, o := Perform(fs, cs[k], Effects(files, cs[..k]));
      if !o {
        return false, states, txns;
      }
      TrailSnoc(fs.sb, files, cs[..k], cs[k], states, fs.st, txns, fs.writes);
      ReservedSnoc(fs.sb, cs[..k], cs[k], txns, fs.writes);
      PossibleSnoc(files, cs, states, k, fs.st);
      assert cs[..k + 1] == cs[..k] + [cs[k]];
      states, txns := states + [fs.st], txns + [fs.writes];
      k := k + 1;
    }
    assert cs[..k] == cs;
    TrailSound(fs.sb, files, cs, states, txns);
    AllPossible(files, cs, states);
  }

  lemma TrailSound(sb: Super, files: seq<seq<Byte>>, cs: seq<Call>, states: seq<Fs>, txns: seq<LogMachine.Txn>)
    requires Trail(sb, files, cs, states, txns)
    ensures forall k :: 0 <= k <= |cs| ==> Sound(sb, states[k].d, Effects(files, cs[..k]))
  {
    hide AtRest, Sound, Operation;
    forall k | 0 <= k <= |cs| ensures Sound(sb, states[k].d, Effects(files, cs[..k])) {
      RestIsSound(sb, states[k], Effects(files, cs[..k]));
    }
  }

  lemma TrailStart(sb: Super, s: Fs, files: seq<seq<Byte>>)
    requires AtRest(sb, s, files)
    ensures Trail(sb, files, [], [s], [])
  {
  }

  lemma TrailAt(sb: Super, files: seq<seq<Byte>>, cs: seq<Call>, states: seq<Fs>, txns: seq<LogMachine.Txn>)
    requires Trail(sb, files, cs, states, txns)
    ensures |states| == |cs| + 1 && AtRest(sb, states[|cs|], Effects(files, cs))
  {
    assert cs[..|cs|] == cs;
  }

  // ---------------------------------------------------------------- filewrite as a run of calls

  /** The calls of a filewrite of `src` at `off` of a file of `size` bytes; it stops at a refused chunk. */
  function ChunkCalls(i: nat, off: Uint, size: nat, src: seq<Byte>): seq<Call>
    decreases |src|
  {
    if src == [] then []
    else
      var n := ChunkSize(|src|);
      [Write(i, off, src[..n])]
      + if off > size || off + n > MAXFILE * BSIZE then [] else ChunkCalls(i, off + n, Max(off + n, size), src[n..])
  }

  lemma {:induction false} EffectsCons(files: seq<seq<Byte>>, c: Call, cs: seq<Call>)
    ensures Effects(files, [c] + cs) == Effects(Effect(files, c), cs)
    decreases |cs|
  {
    hide Effect;
    if cs == [] {
      assert ([c] + cs)[..0] == [];
      assert Effects(files, []) == files && [c] + cs == [c];
    } else {
      assert ([c] + cs)[..|cs|] == [c] + cs[..|cs| - 1];
      EffectsCons(files, c, cs[..|cs| - 1]);
    }
  }

  /** Together they splice in as many bytes as fit, so a filewrite is a run of calls like any other. */
  lemma {:induction false} ChunksSplice(files: seq<seq<Byte>>, i: nat, off: Uint, src: seq<Byte>)
    requires i < |files|
    ensures var k := Fits(off, |files[i]|, |src|);
      Effects(files, ChunkCalls(i, off, |files[i]|, src))
      == if k == 0 then files else files[i := Splice(files[i], off, src[..k])]
    decreases |src|
  {
    if src != [] {
      var n := ChunkSize(|src|);
      var c := Write(i, off, src[..n]);
      if off > |files[i]| || off + n > MAXFILE * BSIZE {
        assert ChunkCalls(i, off, |files[i]|, src) == [c] + [];
        EffectsCons(files, c, []);
      } else {
        ChunkThenRest(files, i, off, src, n);
      }
    }
  }

  lemma ChunkThenRest(files: seq<seq<Byte>>, i: nat, off: Uint, src: seq<Byte>, n: nat)
    requires i < |files| && src != [] && n == ChunkSize(|src|) && off <= |files[i]| && off + n <= MAXFILE * BSIZE
    ensures var k := Fits(off, |files[i]|, |src|);
      k > 0 && Effects(files, ChunkCalls(i, off, |files[i]|, src)) == files[i := Splice(files[i], off, src[..k])]
    decreases |src|, 0
  {
    hide Splice, Effects, Max;
    var f, c, rest := files[i], Write(i, off, src[..n]), src[n..];
    var d, m := Splice(f, off, src[..n]), Fits(off + n, Max(off + n, |f|), |rest|);
    SpliceLength(f, off, src[..n]);
    EffectsCons(files, c, ChunkCalls(i, off + n, Max(off + n, |f|), rest));
    assert Effect(files, c) == files[i := d];
    ChunksSplice(files[i := d], i, off + n, rest);
    JoinChunk(f, off, src, n, m);
    assert files[i := d][i := Splice(f, off, src[..n + m])] == files[i := Splice(f, off, src[..n + m])];
  }

  lemma JoinChunk(f: seq<Byte>, off: nat, src: seq<Byte>, n: nat, m: nat)
    requires off <= |f| && n + m <= |src|
    ensures off + n <= |Splice(f, off, src[..n])|
    ensures Splice(Splice(f, off, src[..n]), off + n, src[n..][..m]) == Splice(f, off, src[..n + m])
  {
    hide Splice;
    SpliceTwice(f, off, src[..n], src[n..][..m]);
    assert src[..n] + src[n..][..m] == src[..n + m];
  }
}
