/** fs.c: block allocation, block mapping, truncation and file I/O over the blocks the log shows. */
module FileSystem {
  import opened Disk
  import opened FsLayout
  import opened FsSpec
  import LogMachine

  /** The cached copy of a disk inode. */
  class Inode {
    const inum: nat
    var size: Uint
    var addrs: seq<Uint>

    constructor (inum: nat, ino: Ino)
      ensures this.inum == inum && size == ino.size && addrs == ino.addrs
    {
      this.inum, this.size, this.addrs := inum, ino.size, ino.addrs;
    }
  }

  class FileSystem {
    const sb: Super
    var blk: seq<Block>
    ghost var st: Fs
    /** Blocks given to log_write since the running operation began. */
    ghost var logged: set<nat>
    /** The blocks when that operation began, and its log_write calls. */
    ghost var base: seq<Block>
    ghost var writes: LogMachine.Txn

    constructor (sb: Super, ghost s: Fs, image: seq<Block>)
      requires Good(sb, s) && s.d == image
      ensures Valid() && this.sb == sb && blk == image && st == s && logged == {}
    {
      this.sb, blk, st, logged, base, writes := sb, image, s, {}, image, [];
    }

    /** The blocks are those of `base` with the calls replayed, and no call was for a block before the inodes. */
    ghost predicate Logged()
      reads this`blk, this`logged, this`base, this`writes
    {
      && LogMachine.InRange(writes, |base|) && blk == LogMachine.Replay(base, writes)
      && forall i :: 0 <= i < |writes| ==> sb.inodestart <= writes[i].0 && writes[i].0 in logged
    }

    ghost predicate Valid()
      reads this
    {
      Good(sb, st) && st.d == blk && Logged()
    }

    /** begin_op: a new list of calls starts. */
    ghost method BeginLogging()
      requires Valid()
      modifies this`logged, this`writes, this`base
      ensures Valid() && logged == {} && writes == [] && base == blk
    {
      logged, writes, base := {}, [], blk;
    }

    /** The caller holds `ip`: `st` has its cached fields, and all other inodes are as on disk. */
    ghost predicate Holding(ip: Inode)
      reads this, ip
    {
      && Valid() && ip.inum < sb.ninodes && ip.inum < |st.files| && Shape(st.files[ip.inum])
      && ip.size == st.files[ip.inum].size && ip.addrs == st.files[ip.inum].addrs
      && OthersSynced(st, ip.inum)
    }

    /** bread, change, log_write, brelse of one block. */
    method LogBlock(b: nat, v: Block)
      requires sb.inodestart <= b < |blk| <= UINT_MAX + 1 && Logged()
      modifies this`blk, this`logged, this`writes
      ensures blk == old(blk)[b := v] && logged == old(logged) + {b} && Logged()
    {
      hide LogMachine.Replay, LogMachine.InRange;
      LogMachine.ReplaySnoc(base, writes, b, v);
      blk := blk[b := v];
      logged := logged + {b};
      writes := writes + [(b, v)];
    }

    /** First clear bit in the bitmap block of block group `b`, the inner loop of balloc. */
    method ScanGroup(b: nat) returns (bi: nat)
      requires Valid() && b < sb.size && b % BPB == 0
      ensures bi <= BPB && b + bi <= sb.size && (forall x :: b <= x < b + bi ==> st.bits[x])
      ensures bi < BPB && b + bi < sb.size ==> !st.bits[b + bi]
    {
      var data := blk[sb.BBlock(b)];
      bi := 0;
      while bi < BPB && b + bi < sb.size && BlockBit(data, bi)
        invariant bi <= BPB && b + bi <= sb.size
        invariant forall x :: b <= x < b + bi ==> st.bits[x]
      {
        GroupBit(sb, b, bi);
        assert st.bits[b + bi] == DiskBit(blk, sb, b + bi);
        bi := bi + 1;
      }
      if bi < BPB && b + bi < sb.size {
        GroupBit(sb, b, bi);
        assert st.bits[b + bi] == DiskBit(blk, sb, b + bi);
      }
    }

    /** Mark a free block in the bitmap, then zero it: the part of balloc after the search. */
    method TakeBlock(r: nat)
      requires Valid() && r < sb.size && !st.bits[r]
      modifies this`blk, this`logged, this`writes, this`st
      ensures Valid() && st == Mark(sb, old(st), r).(d := blk) && blk[r] == ZERO
      ensures KeepsBytes(old(st), st) && logged == old(logged) + {sb.BBlock(r), r}
    {
      TakeStep(sb, st, r);
      LogBlock(sb.BBlock(r), PutBit(blk[sb.BBlock(r)], r % BPB, true));
      LogBlock(r, ZERO);
      st := Mark(sb, st, r).(d := blk);
    }

    /** The search loops of balloc: the first block whose bit is clear. */
    method FindFree() returns (r: nat, ok: bool)
      requires Valid()
      ensures ok ==> r < sb.size && !st.bits[r] && (forall x :: 0 <= x < r ==> st.bits[x])
      ensures !ok ==> forall x :: 0 <= x < sb.size ==> st.bits[x]
    {
      hide Good, Logged, Shapes;
      BitPerBlock(sb, st);
      var b := 0;
      while b < sb.size
        invariant b % BPB == 0 && (forall x :: 0 <= x < b && x < sb.size ==> st.bits[x])
        decreases sb.size - b
      {
        var bi := ScanGroup(b);
        if bi < BPB && b + bi < sb.size {
          return b + bi, true;
        }
        NextGroup(b);
        b := b + BPB;
      }
      return 0, false;
    }

    /** balloc: the first free block, marked and zeroed; `false` is the "out of blocks" panic. */
    method Balloc() returns (r: nat, ok: bool)
      requires Valid()
      modifies this`blk, this`logged, this`writes, this`st
      ensures ok ==> Valid() && r < sb.size && !old(st).bits[r] && (forall x :: 0 <= x < r ==> old(st).bits[x])
      ensures ok ==> st == Mark(sb, old(st), r).(d := blk) && r < |blk| && blk[r] == ZERO
      ensures ok ==> KeepsBytes(old(st), st) && logged == old(logged) + {sb.BBlock(r), r}
      ensures !ok ==> Valid() && st == old(st) && blk == old(blk) && logged == old(logged) && NoneFree(st)
      ensures ok <==> Clear(old(st)) > 0
    {
      FreeCount(sb, st);
      r, ok := FindFree();
      if ok {
        TakeBlock(r);
      }
    }

    /**
     bmap's allocation of one address of the inode: a direct block, or the indirect block itself
     (`k == NDIRECT`). `bb` is the bitmap block written.
     */
    method AllocAddr(ip: Inode, k: nat) returns (ok: bool, ghost bb: nat)
      requires Holding(ip) && k <= NDIRECT && ip.addrs[k] == 0
      modifies this`blk, this`logged, this`writes, this`st, ip`addrs
      ensures ok ==> Holding(ip) && Extends(old(st), st, ip.inum, k)
      ensures ok ==> logged == old(logged) + {bb, ip.addrs[k]} && ip.addrs == old(ip.addrs)[k := ip.addrs[k]]
      ensures (ok <==> Clear(old(st)) > 0) && (!ok ==> NoneFree(st))
      ensures ok ==> Fills(old(st), st, ip.inum, {k})
    {
      var b;
      b, ok := Balloc();
      bb := sb.BBlock(b);
      if ok {
        AllocFills(sb, old(st), st, ip.inum, k, b, StoreAddr(st, ip.inum, k, b));
        AllocAddrStep(sb, old(st), st, ip.inum, k, b);
        ip.addrs := ip.addrs[k := b];
        st := StoreAddr(st, ip.inum, k, b);
      }
    }

    /** bmap's allocation of entry `j` of the indirect block. */
    method AllocEntry(ip: Inode, j: nat) returns (ok: bool, ghost bb: nat)
      requires Holding(ip) && j < NINDIRECT && ip.addrs[NDIRECT] != 0 && st.files[ip.inum].ind[j] == 0
      modifies this`blk, this`logged, this`writes, this`st
      ensures ok ==> Holding(ip) && Extends(old(st), st, ip.inum, NDIRECT + 1 + j)
      ensures ok ==> logged == old(logged) + {bb, st.files[ip.inum].ind[j], ip.addrs[NDIRECT]}
      ensures (ok <==> Clear(old(st)) > 0) && (!ok ==> NoneFree(st))
      ensures ok ==> Fills(old(st), st, ip.inum, {NDIRECT + 1 + j})
    {
      hide Good, Logged;
      BitPerBlock(sb, st);
      var b;
      b, ok := Balloc();
      bb := sb.BBlock(b);
      if ok {
        AllocEntryStep(sb, old(st), st, ip.inum, j, b);
        AllocFills(sb, old(st), st, ip.inum, NDIRECT + 1 + j, b, StoreEntry(st, ip.inum, j, b));
        var a := ip.addrs[NDIRECT];
        LogBlock(a, SetWord(blk[a], j, b));
        st := StoreEntry(st, ip.inum, j, b);
      }
    }
  
    /** The direct half of bmap. */
    method BmapDirect(ip: Inode, bn: nat) returns (r: nat, ok: bool, ghost bbs: set<nat>)
      requires Holding(ip) && bn < NDIRECT
      modifies this`blk, this`logged, this`writes, this`st, ip`addrs
      ensures ok ==> Holding(ip) && r == Slot(st.files[ip.inum], bn) != 0 && Grows(old(st), st, ip.inum)
      ensures ok ==> ip.addrs[NDIRECT] == old(ip.addrs)[NDIRECT]
      ensures old(ip.addrs)[bn] != 0 ==> ok && Untouched(old(st), old(ip.addrs), old(logged), ip) && bbs == {}
      ensures ok ==> |bbs| <= 1 && logged <= old(logged) + bbs + {r}
      ensures (ok <==> Room(old(st), ip.inum, {bn})) && (!ok ==> NoneFree(st))
      ensures ok ==> Fills(old(st), st, ip.inum, {bn})
    {
      r, ok, bbs := ip.addrs[bn], true, {};
      GrowsRefl(sb, st, ip.inum);
      OneSlot(sb, st, ip.inum, bn);
      if r == 0 {
        ghost var bb;
        ok, bb := AllocAddr(ip, bn);
        bbs := {bb};
        if ok {
          ExtendsGrows(sb, old(st), st, ip.inum, bn);
          r := ip.addrs[bn];
        }
      }
    }

    /** bmap loads the indirect block, allocating it if necessary. */
    method LoadIndirect(ip: Inode) returns (ok: bool, ghost bbs: set<nat>)
      requires Holding(ip)
      modifies this`blk, this`logged, this`writes, this`st, ip`addrs
      ensures ok ==> Holding(ip) && ip.addrs[NDIRECT] != 0 && Grows(old(st), st, ip.inum)
      ensures old(ip.addrs)[NDIRECT] != 0 ==> ok && Untouched(old(st), old(ip.addrs), old(logged), ip) && bbs == {}
      ensures ok ==> |bbs| <= 1 && logged <= old(logged) + bbs + {ip.addrs[NDIRECT]}
      ensures ok && old(ip.addrs)[NDIRECT] == 0 ==>
          forall j :: 0 <= j < NINDIRECT ==> old(st).files[ip.inum].ind[j] == 0
      ensures (ok <==> Room(old(st), ip.inum, {NDIRECT})) && (!ok ==> NoneFree(st))
      ensures ok ==> Fills(old(st), st, ip.inum, {NDIRECT})
    {
      ok, bbs := true, {};
      GrowsRefl(sb, st, ip.inum);
      OneSlot(sb, st, ip.inum, NDIRECT);
      if ip.addrs[NDIRECT] == 0 {
        ghost var bb;
        NoEntries(sb, st, ip.inum);
        ok, bb := AllocAddr(ip, NDIRECT);
        bbs := {bb};
        if ok {
          ExtendsGrows(sb, old(st), st, ip.inum, NDIRECT);
        }
      }
    }

    /** bmap looks up an entry of the indirect block, allocating it if necessary. */
    method BmapEntry(ip: Inode, j: nat) returns (r: nat, ok: bool, ghost bbs: set<nat>)
      requires Holding(ip) && j < NINDIRECT && ip.addrs[NDIRECT] != 0
      modifies this`blk, this`logged, this`writes, this`st
      ensures ok ==> Holding(ip) && r == Slot(st.files[ip.inum], NDIRECT + 1 + j) != 0 && Grows(old(st), st, ip.inum)
      ensures old(st).files[ip.inum].ind[j] != 0 ==>
          ok && Untouched(old(st), old(ip.addrs), old(logged), ip) && bbs == {}
      ensures ok ==> |bbs| <= 1 && logged <= old(logged) + bbs + {r, ip.addrs[NDIRECT]}
      ensures (ok <==> Room(old(st), ip.inum, {NDIRECT + 1 + j})) && (!ok ==> NoneFree(st))
      ensures ok ==> Fills(old(st), st, ip.inum, {NDIRECT + 1 + j})
    {
      r := Entry(ip, j);
      ok, bbs := true, {};
      GrowsRefl(sb, st, ip.inum);
      OneSlot(sb, st, ip.inum, NDIRECT + 1 + j);
      if r == 0 {
        ghost var bb;
        ok, bb := AllocEntry(ip, j);
        bbs := {bb};
        if ok {
          ExtendsGrows(sb, old(st), st, ip.inum, NDIRECT + 1 + j);
          r := Entry(ip, j);
        }
      }
    }

    /** The indirect half of bmap. */
    method BmapIndirect(ip: Inode, j: nat) returns (r: nat, ok: bool, ghost bbs: set<nat>)
      requires Holding(ip) && j < NINDIRECT
      modifies this`blk, this`logged, this`writes, this`st, ip`addrs
      ensures ok ==> Holding(ip) && r == SlotAt(st, ip.inum, NDIRECT + 1 + j) != 0 && Grows(old(st), st, ip.inum)
      ensures SlotAt(old(st), ip.inum, NDIRECT + 1 + j) != 0 ==>
          ok && Untouched(old(st), old(ip.addrs), old(logged), ip) && bbs == {}
      ensures ok ==> |bbs| <= Fresh(SlotAt(old(st), ip.inum, NDIRECT + 1 + j)) + Fresh(old(AddrAt(ip.addrs, NDIRECT)))
      ensures ok ==> logged <= old(logged) + bbs + {r, AddrAt(ip.addrs, NDIRECT)} && AddrAt(ip.addrs, NDIRECT) != 0
      ensures (ok <==> Room(old(st), ip.inum, SlotsOf(NDIRECT + j))) && (!ok ==> NoneFree(st))
      ensures ok ==> Fills(old(st), st, ip.inum, SlotsOf(NDIRECT + j))
    {
      hide Good, Grows, Room, Fills, NoneFree, Logged;
      ghost var more;
      assert SlotsOf(NDIRECT + j) == {NDIRECT} + {NDIRECT + 1 + j};
      NoIndirectNoEntry(sb, st, ip.inum, j);
      ok, bbs := LoadIndirect(ip);
      if !ok {
        LessRoom(old(st), ip.inum, {NDIRECT}, {NDIRECT + 1 + j});
        return 0, false, {};
      }
      ghost var s1 := st;
      RoomBehind(old(st), s1, ip.inum, {NDIRECT}, {NDIRECT + 1 + j});
      r, ok, more := BmapEntry(ip, j);
      bbs := bbs + more;
      if ok {
        GrowsTrans(old(st), s1, st, ip.inum);
        FillsOn(old(st), s1, st, ip.inum, {NDIRECT}, {NDIRECT + 1 + j});
      }
    }

    /**
     bmap: the block that holds file block `bn`, allocated if there was none. The "out of range"
     panic is the bound on `bn`. `bbs` are the bitmap blocks written. It fails, by balloc's panic, exactly
     when fewer blocks are free than it needs.
     */
    method Bmap(ip: Inode, bn: nat) returns (r: nat, ok: bool, ghost bbs: set<nat>)
      requires Holding(ip) && bn < MAXFILE
      modifies this`blk, this`logged, this`writes, this`st, ip`addrs
      ensures ok ==> Holding(ip) && r == Slot(st.files[ip.inum], SlotOf(bn)) != 0 && Grows(old(st), st, ip.inum)
      ensures Slot(old(st).files[ip.inum], SlotOf(bn)) != 0 ==>
                ok && Untouched(old(st), old(ip.addrs), old(logged), ip) && bbs == {}
      ensures ok ==> |bbs| <= Fresh(Slot(old(st).files[ip.inum], SlotOf(bn)))
                              + if bn >= NDIRECT then Fresh(old(ip.addrs)[NDIRECT]) else 0
      ensures ok ==> logged <= old(logged) + bbs + {r} + (if bn >= NDIRECT then {ip.addrs[NDIRECT]} else {})
      ensures ok ==> if bn < NDIRECT then ip.addrs[NDIRECT] == old(ip.addrs)[NDIRECT] else ip.addrs[NDIRECT] != 0
      ensures (ok <==> Room(old(st), ip.inum, SlotsOf(bn))) && (!ok ==> NoneFree(st))
      ensures ok ==> Fills(old(st), st, ip.inum, SlotsOf(bn))
    {
      hide Good, OthersSynced, Grows, Room, Fills, NoneFree;
      BitPerBlock(sb, st);
      if bn < NDIRECT {
        r, ok, bbs := BmapDirect(ip, bn);
        return;
      }
      r, ok, bbs := BmapIndirect(ip, bn - NDIRECT);
    }

    /** The method changed nothing. */
    ghost predicate Untouched(s: Fs, addrs: seq<Uint>, l: set<nat>, ip: Inode)
      reads this, ip
    {
      st == s && blk == s.d && ip.addrs == addrs && logged == l
    }

    /** `((uint*)bp->data)[j]` of the inode's indirect block. */
    method Entry(ip: Inode, j: nat) returns (a: nat)
      requires Holding(ip) && j < NINDIRECT && ip.addrs[NDIRECT] != 0
      ensures a == st.files[ip.inum].ind[j]
    {
      IndirectOwner(sb, st.files, st.owner, ip.inum);
      GetAddrsWord(blk[ip.addrs[NDIRECT]], NINDIRECT, j);
      a := Word(blk[ip.addrs[NDIRECT]], j);
    }
  
    /** iupdate */
    method Iupdate(ip: Inode)
      requires Holding(ip)
      modifies this`blk, this`logged, this`writes, this`st
      ensures Holding(ip) && st == Sync(sb, old(st), ip.inum) && KeepsBytes(old(st), st)
      ensures logged == old(logged) + {sb.IBlock(ip.inum)}
    {
      hide Good, Logged;
      BitPerBlock(sb, st);
      var i := ip.inum;
      var a := sb.IBlock(i);
      SyncStep(sb, st, i);
      ghost var t := Sync(sb, st, i);
      var v := PutDinode(blk[a], DinodeAt(i), Ino(ip.size, ip.addrs));
      assert t.d == blk[a := v];
      LogBlock(a, v);
      st := t;
    }

    /** bfree of a block that is marked but no longer referred to, so "freeing free block" cannot happen. */
    method Bfree(b: nat)
      requires Valid() && b in st.pend
      modifies this`blk, this`logged, this`writes, this`st
      ensures Valid() && b < sb.size && old(st).bits[b] && st == Unmark(sb, old(st), b) && KeepsBytes(old(st), st)
      ensures logged == old(logged) + {sb.BBlock(b)}
    {
      UnmarkKeeps(sb, st, b);
      LogBlock(sb.BBlock(b), PutBit(blk[sb.BBlock(b)], b % BPB, false));
      st := Unmark(sb, st, b);
    }
  
    /** itrunc, from `s1` and logged blocks `l` on, has freed all of `all` but `left`. */
    ghost predicate Freeing(s1: Fs, l: set<nat>, all: set<nat>, left: set<nat>)
      reads this
    {
      && Valid() && st.files == s1.files && st.owner == s1.owner && st.dinos == s1.dinos
      && left <= all && st.pend == left && logged == l + BitmapBlocks(sb, all - left) && KeepsBytes(s1, st)
      && |s1.d| == |st.d| && (forall b :: sb.datastart <= b < sb.size ==> st.d[b] == s1.d[b])
    }

    method FreeOne(b: nat, ghost s1: Fs, ghost l: set<nat>, ghost all: set<nat>)
      requires Freeing(s1, l, all, st.pend) && b in st.pend
      modifies this`blk, this`logged, this`writes, this`st
      ensures Freeing(s1, l, all, old(st).pend - {b})
    {
      hide Good, Logged, BitmapBlocks;
      BitPerBlock(sb, st);
      ghost var m := st;
      OneMoreFreed(sb, all, st.pend, b);
      Bfree(b);
      KeepsBytesTrans(s1, m, st);
    }

    /** Free slot `k` if it holds a block. */
    method FreeSlot(b: nat, ghost s0: Fs, ghost s1: Fs, ghost l: set<nat>, ghost i: nat, ghost k: nat)
      requires Good(sb, s0) && i < sb.ninodes && k < SLOTS && k != NDIRECT && b == Slot(s0.files[i], k)
      requires Freeing(s1, l, Held(s0.owner, i, 0), Held(s0.owner, i, k))
      modifies this`blk, this`logged, this`writes, this`st
      ensures Freeing(s1, l, Held(s0.owner, i, 0), Held(s0.owner, i, k + 1))
    {
      HeldStep(sb, s0, i, k);
      hide Good, Held, BitmapBlocks;
      if b != 0 {
        FreeOne(b, s1, l, Held(s0.owner, i, 0));
      }
    }

    /** The loop of itrunc over the direct addresses. */
    method FreeDirect(ip: Inode, ghost s0: Fs, ghost s1: Fs, ghost l: set<nat>)
      requires Good(sb, s0) && ip.inum < sb.ninodes && ip.addrs == s0.files[ip.inum].addrs
      requires Freeing(s1, l, Held(s0.owner, ip.inum, 0), Held(s0.owner, ip.inum, 0))
      modifies this`blk, this`logged, this`writes, this`st, ip`addrs
      ensures Freeing(s1, l, Held(s0.owner, ip.inum, 0), Held(s0.owner, ip.inum, NDIRECT))
      ensures |ip.addrs| == NDIRECT + 1 && ip.addrs[NDIRECT] == s0.files[ip.inum].addrs[NDIRECT]
      ensures forall x :: 0 <= x < NDIRECT ==> ip.addrs[x] == 0
    {
      hide Good, Logged;
      BitPerBlock(sb, s0);
      var k := 0;
      while k < NDIRECT
        invariant k <= NDIRECT && Freeing(s1, l, Held(s0.owner, ip.inum, 0), Held(s0.owner, ip.inum, k))
            && |ip.addrs| == NDIRECT + 1
        invariant forall x :: 0 <= x <= NDIRECT ==> ip.addrs[x] == if x < k then 0 else s0.files[ip.inum].addrs[x]
      {
        FreeSlot(ip.addrs[k], s0, s1, l, ip.inum, k);
        if ip.addrs[k] != 0 {
          ip.addrs := ip.addrs[k := 0];
        }
        k := k + 1;
      }
    }

    /** The loop of itrunc over the entries of the indirect block. */
    method FreeEntries(data: Block, ghost s0: Fs, ghost s1: Fs, ghost l: set<nat>, ghost i: nat)
      requires Good(sb, s0) && i < sb.ninodes && GetAddrs(data, 0, NINDIRECT) == s0.files[i].ind
      requires Freeing(s1, l, Held(s0.owner, i, 0), Held(s0.owner, i, NDIRECT + 1))
      modifies this`blk, this`logged, this`writes, this`st
      ensures Freeing(s1, l, Held(s0.owner, i, 0), Held(s0.owner, i, SLOTS))
    {
      hide Good, Logged;
      BitPerBlock(sb, s0);
      var j := 0;
      while j < NINDIRECT
        invariant j <= NINDIRECT && Freeing(s1, l, Held(s0.owner, i, 0), Held(s0.owner, i, NDIRECT + 1 + j))
      {
        GetAddrsWord(data, NINDIRECT, j);
        FreeSlot(Word(data, j), s0, s1, l, i, NDIRECT + 1 + j);
        j := j + 1;
      }
    }

    /** The second half of itrunc: the entries of the indirect block, then that block itself. */
    method FreeIndirect(ip: Inode, ghost s0: Fs, ghost s1: Fs, ghost l: set<nat>)
      requires Good(sb, s0) && ip.inum < sb.ninodes && |ip.addrs| == NDIRECT + 1
      requires ip.addrs[NDIRECT] == s0.files[ip.inum].addrs[NDIRECT] != 0
      requires s1.d == s0.d && Freeing(s1, l, Held(s0.owner, ip.inum, 0), Held(s0.owner, ip.inum, NDIRECT + 1))
      modifies this`blk, this`logged, this`writes, this`st, ip`addrs
      ensures Valid() && st.files == s1.files && st.owner == s1.owner && st.dinos == s1.dinos && st.pend == {}
      ensures KeepsBytes(s1, st) && ip.addrs == old(ip.addrs)[NDIRECT := 0]
      ensures logged == l + BitmapBlocks(sb, Held(s0.owner, ip.inum, 0))
    {
      hide BitmapBlocks;
      var a := ip.addrs[NDIRECT];
      IndirectOwner(sb, s0.files, s0.owner, ip.inum);
      FreeEntries(blk[a], s0, s1, l, ip.inum);
      HeldEnds(sb, s0, ip.inum);
      hide Good, Held;
      FreeOne(a, s1, l, Held(s0.owner, ip.inum, 0));
      assert {a} - {a} == {} && Held(s0.owner, ip.inum, 0) - {} == Held(s0.owner, ip.inum, 0);
      ip.addrs := ip.addrs[NDIRECT := 0];
    }

    /** The frees of itrunc, without the final iupdate. */
    method FreeAll(ip: Inode)
      requires Holding(ip) && st.pend == {}
      modifies this`blk, this`logged, this`writes, this`st, ip`addrs
      ensures var s1 := Disown(old(st), ip.inum);
        && Valid() && st.files == s1.files && st.owner == s1.owner && st.dinos == s1.dinos && st.pend == {}
           && KeepsBytes(s1, st)
      ensures |ip.addrs| == NDIRECT + 1 && forall x :: 0 <= x <= NDIRECT ==> ip.addrs[x] == 0
      ensures logged == old(logged) + BitmapBlocks(sb, Held(old(st).owner, ip.inum, 0))
    {
      hide BitmapBlocks;
      ghost var s0, i, l := st, ip.inum, logged;
      ghost var s1 := Disown(s0, i);
      DisownKeeps(sb, s0, i);
      KeepsBytesRefl(sb, s1);
      st := s1;
      assert s1.pend == Held(s0.owner, i, 0);
      NoneFreed(sb, s1.pend);
      FreeDirect(ip, s0, s1, l);
      HeldEnds(sb, s0, i);
      if ip.addrs[NDIRECT] != 0 {
        FreeIndirect(ip, s0, s1, l);
      } else {
        assert Held(s0.owner, i, 0) - {} == Held(s0.owner, i, 0);
      }
    }

    /**
     itrunc frees exactly the blocks of the inode, leaves it empty on disk and in memory, and leaves
     every other file as it was.
     */
    method Itrunc(ip: Inode)
      requires Holding(ip) && st.pend == {}
      modifies this`blk, this`logged, this`writes, this`st, ip
      ensures Holding(ip) && st.pend == {} && ip.size == 0 && ip.addrs == Zeros(NDIRECT + 1)
      ensures st.dinos == old(st).dinos[ip.inum := Ino(0, Zeros(NDIRECT + 1))]
      ensures forall b :: 0 <= b < sb.size ==>
                (st.bits[b] <==> old(st).bits[b] && !(b in old(st).owner && old(st).owner[b].0 == ip.inum))
      ensures forall x :: 0 <= x < sb.ninodes && x != ip.inum ==> Content(st, x) == Content(old(st), x)
      ensures logged == old(logged) + TruncLog(sb, old(st).owner, ip.inum)
    {
      ghost var s0, i := st, ip.inum;
      ghost var s1 := Disown(s0, i);
      DisownKeeps(sb, s0, i);
      FreeAll(ip);
      assert ip.addrs == Zeros(NDIRECT + 1);
      ip.size := 0;
      ghost var s2 := st;
      Iupdate(ip);
      TruncStep(sb, s0, s2, st, i);
    }
  }

  // ---------------------------------------------------------------- free blocks

  ghost function ClearBits(bits: seq<bool>): set<nat> { set b | 0 <= b < |bits| && !bits[b] }

  /** How many blocks are free. */
  ghost function Clear(s: Fs): nat { |ClearBits(s.bits)| }

  ghost predicate NoneFree(s: Fs) { forall b :: 0 <= b < |s.bits| ==> s.bits[b] }

  /** The slots that bmap may have to fill for file block `bn`. */
  function SlotsOf(bn: nat): set<nat> { if bn < NDIRECT then {bn} else {NDIRECT} + {bn + 1} }

  /** Those of `ks` that are empty. */
  ghost function Wanted(f: File, ks: set<nat>): set<nat>
    requires Shape(f)
  {
    set k | k in ks && k < SLOTS && Slot(f, k) == 0
  }

  /** There are enough free blocks for the empty ones among these slots. */
  ghost predicate Room(s: Fs, i: nat, ks: set<nat>)
  {
    i < |s.files| && Shape(s.files[i]) && |Wanted(s.files[i], ks)| <= Clear(s)
  }

  /** These slots, and no others, have been filled, with a free block for each that was empty. */
  ghost predicate Fills(s: Fs, t: Fs, i: nat, ks: set<nat>)
  {
    && i < |s.files| && i < |t.files| && Shape(s.files[i]) && Shape(t.files[i])
    && (forall k :: 0 <= k < SLOTS ==> (Slot(t.files[i], k) != 0 <==> Slot(s.files[i], k) != 0 || k in ks))
    && Clear(s) == Clear(t) + |Wanted(s.files[i], ks)|
  }

  lemma FreeCount(sb: Super, s: Fs)
    requires Good(sb, s)
    ensures |s.bits| == sb.size && (NoneFree(s) <==> Clear(s) == 0)
    ensures NoneFree(s) <==> forall x :: 0 <= x < sb.size ==> s.bits[x]
  {
    hide BitsRepr, InosRepr, IndRepr, Owned, Mapped;
    if Clear(s) == 0 {
      assert ClearBits(s.bits) == {};
      forall b | 0 <= b < |s.bits| ensures s.bits[b] {
        assert b !in ClearBits(s.bits);
      }
    }
    if NoneFree(s) {
      assert ClearBits(s.bits) == {};
    }
  }

  lemma OneTaken(bits: seq<bool>, b: nat)
    requires b < |bits| && !bits[b]
    ensures |ClearBits(bits)| == |ClearBits(bits[b := true])| + 1
  {
    assert ClearBits(bits) == ClearBits(bits[b := true]) + {b};
    assert b !in ClearBits(bits[b := true]);
  }

  /** An allocation that fills slot `k`. */
  lemma AllocFills(sb: Super, s: Fs, m: Fs, i: nat, k: nat, b: nat, t: Fs)
    requires b < |s.bits| && !s.bits[b] && m.bits == s.bits[b := true] && t.bits == m.bits && m.files == s.files
    requires i < |s.files| && Shape(s.files[i]) && k < SLOTS && Slot(s.files[i], k) == 0 && 0 < b <= UINT_MAX
    requires t.files == s.files[i := WithSlot(s.files[i], k, b)]
    ensures Fills(s, t, i, {k})
  {
    OneTaken(s.bits, b);
    assert Wanted(s.files[i], {k}) == {k};
  }

  lemma OneSlot(sb: Super, s: Fs, i: nat, k: nat)
    requires Good(sb, s) && i < sb.ninodes && k < SLOTS
    ensures Shape(s.files[i])
    ensures Slot(s.files[i], k) != 0 ==> Room(s, i, {k}) && Fills(s, s, i, {k})
    ensures Slot(s.files[i], k) == 0 ==> (Room(s, i, {k}) <==> Clear(s) > 0)
  {
    BitPerBlock(sb, s);
    hide Good, Slot;
    if Slot(s.files[i], k) != 0 {
      assert Wanted(s.files[i], {k}) == {};
    } else {
      assert Wanted(s.files[i], {k}) == {k};
    }
  }

  /** What is wanted of `a + b` is what is wanted of `a`, and of `b` when `a` is filled. */
  lemma WantedBoth(s: Fs, t: Fs, i: nat, a: set<nat>, b: set<nat>)
    requires Fills(s, t, i, a)
    ensures |Wanted(s.files[i], a + b)| == |Wanted(s.files[i], a)| + |Wanted(t.files[i], b)|
  {
    var x, y := Wanted(s.files[i], a), Wanted(t.files[i], b);
    assert Wanted(s.files[i], a + b) == x + y && x !! y;
  }

  lemma RoomBehind(s: Fs, t: Fs, i: nat, a: set<nat>, b: set<nat>)
    requires Fills(s, t, i, a)
    ensures Room(s, i, a + b) <==> Room(t, i, b)
  {
    WantedBoth(s, t, i, a, b);
  }

  lemma FillsOn(s: Fs, t: Fs, u: Fs, i: nat, a: set<nat>, b: set<nat>)
    requires Fills(s, t, i, a) && Fills(t, u, i, b)
    ensures Fills(s, u, i, a + b)
  {
    WantedBoth(s, t, i, a, b);
  }

  lemma {:induction false} MoreWanted(x: set<nat>, y: set<nat>)
    requires x <= y
    ensures |x| <= |y|
  {
    if x != {} {
      var e :| e in x;
      MoreWanted(x - {e}, y - {e});
    }
  }

  lemma LessRoom(s: Fs, i: nat, a: set<nat>, b: set<nat>)
    requires !Room(s, i, a)
    ensures !Room(s, i, a + b)
  {
    if i < |s.files| && Shape(s.files[i]) {
      MoreWanted(Wanted(s.files[i], a), Wanted(s.files[i], a + b));
    }
  }

  lemma BitPerBlock(sb: Super, s: Fs)
    requires Good(sb, s)
    ensures sb.Valid() && |s.bits| == |s.d| == sb.size && |s.files| == |s.dinos| == sb.ninodes && Shapes(s.files)
  {
  }

  lemma TruncStep(sb: Super, s0: Fs, s2: Fs, s3: Fs, i: nat)
    requires Good(sb, s0) && i < sb.ninodes && s0.pend == {} && Good(sb, s2) && Good(sb, s3) && s3 == Sync(sb, s2, i)
    requires KeepsBytes(Disown(s0, i), s2) && KeepsBytes(s2, s3)
    requires var s1 := Disown(s0, i);
              && s2.files == s1.files && s2.owner == s1.owner && s2.dinos == s1.dinos
              && s2.pend == {}
    ensures forall b :: 0 <= b < sb.size ==> (s3.bits[b] <==> s0.bits[b] && !(b in s0.owner && s0.owner[b].0 == i))
    ensures forall x :: 0 <= x < sb.ninodes && x != i ==> Content(s3, x) == Content(s0, x)
  {
    var s1 := Disown(s0, i);
    DisownKeeps(sb, s0, i);
    KeepsBytesTrans(s1, s2, s3);
    forall x | 0 <= x < sb.ninodes && x != i ensures Content(s3, x) == Content(s0, x) {
      KeepsContent(sb, s1, s3, x);
      DisownOthers(sb, s0, i, x);
    }
  }

  lemma KeepsBytesRefl(sb: Super, s: Fs)
    requires Good(sb, s)
    ensures KeepsBytes(s, s)
  {
  }

  lemma SyncStep(sb: Super, s: Fs, i: nat)
    requires Good(sb, s) && i < sb.ninodes
    ensures var t := Sync(sb, s, i); Good(sb, t) && KeepsBytes(s, t) && (OthersSynced(s, i) ==> OthersSynced(t, i))
  {
    SyncKeeps(sb, s, i);
    SyncBytes(sb, s, i);
  }

  lemma {:induction false} GetAddrsWord(b: Block, n: nat, j: nat)
    requires j < n <= WORDS
    ensures GetAddrs(b, 0, n)[j] == Word(b, j)
  {
    if j < n - 1 {
      GetAddrsWord(b, n - 1, j);
    }
  }

  lemma NoEntries(sb: Super, s: Fs, i: nat)
    requires Good(sb, s) && i < sb.ninodes && s.files[i].addrs[NDIRECT] == 0
    ensures forall k :: NDIRECT <= k < SLOTS ==> Slot(s.files[i], k) == 0
  {
  }

  lemma NoIndirectNoEntry(sb: Super, s: Fs, i: nat, j: nat)
    requires Good(sb, s) && i < sb.ninodes && j < NINDIRECT
    ensures s.files[i].ind[j] != 0 ==> s.files[i].addrs[NDIRECT] != 0
  {
  }

  /** The address in a slot of a file, if there is one. */
  function SlotAt(s: Fs, i: nat, k: nat): nat
  {
    if i < |s.files| && Shape(s.files[i]) && k < SLOTS then Slot(s.files[i], k) else 0
  }

  function AddrAt(addrs: seq<Uint>, k: nat): nat { if k < |addrs| then addrs[k] else 0 }

  /** 1 if an address is still to be allocated. */
  function Fresh(a: nat): nat { if a == 0 then 1 else 0 }

  /** `t` has at least the blocks of `s`, all of them for inode `i`, and every file byte of `s`. */
  ghost predicate Grows(s: Fs, t: Fs, i: nat)
  {
    && |s.files| == |t.files| && i < |s.files| && Shape(s.files[i]) && Shape(t.files[i])
    && t.files == s.files[i := t.files[i]] && t.dinos == s.dinos && t.files[i].size == s.files[i].size
    && (forall j :: 0 <= j < SLOTS && Slot(s.files[i], j) != 0 ==> Slot(t.files[i], j) == Slot(s.files[i], j))
    && t.pend == s.pend && KeepsBytes(s, t)
  }

  lemma GrowsRefl(sb: Super, s: Fs, i: nat)
    requires Good(sb, s) && i < sb.ninodes
    ensures Grows(s, s, i)
  {
  }

  lemma ExtendsGrows(sb: Super, s: Fs, t: Fs, i: nat, k: nat)
    requires Good(sb, s) && Extends(s, t, i, k)
    ensures Grows(s, t, i)
  {
  }

  lemma GrowsTrans(s: Fs, t: Fs, u: Fs, i: nat)
    requires Grows(s, t, i) && Grows(t, u, i)
    ensures Grows(s, u, i)
  {
  }

  ghost predicate OthersSynced(s: Fs, i: nat)
  {
    && |s.dinos| == |s.files|
    && forall x :: 0 <= x < |s.files| && x != i ==> s.dinos[x] == Ino(s.files[x].size, s.files[x].addrs)
  }

  lemma AllocAddrStep(sb: Super, s: Fs, m: Fs, i: nat, k: nat, b: nat)
    requires Good(sb, s) && b < sb.size && !s.bits[b] && Good(sb, m) && KeepsBytes(s, m)
    requires m == Mark(sb, s, b).(d := m.d) && m.d[b] == ZERO
    requires i < sb.ninodes && k <= NDIRECT && Slot(s.files[i], k) == 0
    ensures b <= UINT_MAX && Good(sb, StoreAddr(m, i, k, b)) && Extends(s, StoreAddr(m, i, k, b), i, k)
  {
    FreshBlock(sb, s, b);
    StoreAddrKeeps(sb, m, i, k, b);
    KeepsBytesTrans(s, m, StoreAddr(m, i, k, b));
    StoredSlots(s.files, i, k, b);
    assert s.pend + {b} - {b} == s.pend;
  }

  lemma AllocEntryStep(sb: Super, s: Fs, m: Fs, i: nat, j: nat, b: nat)
    requires Good(sb, s) && b < sb.size && !s.bits[b] && Good(sb, m) && KeepsBytes(s, m)
    requires m == Mark(sb, s, b).(d := m.d)
    requires i < sb.ninodes && j < NINDIRECT && s.files[i].addrs[NDIRECT] != 0 && s.files[i].ind[j] == 0
    ensures b <= UINT_MAX && sb.datastart <= s.files[i].addrs[NDIRECT] < |m.d|
    ensures Good(sb, StoreEntry(m, i, j, b)) && Extends(s, StoreEntry(m, i, j, b), i, NDIRECT + 1 + j)
  {
    FreshBlock(sb, s, b);
    StoreEntryKeeps(sb, m, i, j, b);
    StoreEntryBytes(sb, m, i, j, b);
    IndirectOwner(sb, s.files, s.owner, i);
    KeepsBytesTrans(s, m, StoreEntry(m, i, j, b));
    StoredSlots(s.files, i, NDIRECT + 1 + j, b);
    assert s.pend + {b} - {b} == s.pend;
  }

  lemma StoredSlots(files: seq<File>, i: nat, k: nat, b: Uint)
    requires Shapes(files) && i < |files| && k < SLOTS
    ensures forall j :: 0 <= j < SLOTS && j != k ==> Slot(WithSlot(files[i], k, b), j) == Slot(files[i], j)
  {
  }

  /** `t` is `s` with slot `k` of inode `i`, empty before, filled; every other slot is the same. */
  ghost predicate Extends(s: Fs, t: Fs, i: nat, k: nat)
  {
    && |s.files| == |t.files| && i < |s.files| && k < SLOTS && Shape(s.files[i]) && Shape(t.files[i])
    && t.files == s.files[i := t.files[i]] && t.dinos == s.dinos && t.files[i].size == s.files[i].size
    && Slot(s.files[i], k) == 0 && Slot(t.files[i], k) != 0
    && (forall j :: 0 <= j < SLOTS && j != k ==> Slot(t.files[i], j) == Slot(s.files[i], j))
    && t.pend == s.pend && KeepsBytes(s, t)
  }

  /** A block whose bit was clear is a data block that nobody refers to. */
  lemma FreshBlock(sb: Super, s: Fs, b: nat)
    requires Good(sb, s) && b < sb.size && !s.bits[b]
    ensures sb.datastart <= b && b !in s.owner && b !in s.pend && b != 0
  {
  }

  lemma TakeStep(sb: Super, s: Fs, r: nat)
    requires Good(sb, s) && r < sb.size && !s.bits[r]
    ensures var m := Mark(sb, s, r);
      Good(sb, m.(d := m.d[r := ZERO])) && KeepsBytes(s, m.(d := m.d[r := ZERO]))
  {
    var m := Mark(sb, s, r);
    MarkKeeps(sb, s, r);
    ZeroKeeps(sb, m, r);
    KeepsBytesTrans(s, m, m.(d := m.d[r := ZERO]));
  }

  lemma NextGroup(b: nat)
    requires b % BPB == 0
    ensures (b + BPB) % BPB == 0
  {
  }

  lemma GroupBit(sb: Super, b: nat, bi: nat)
    requires b % BPB == 0 && bi < BPB
    ensures sb.BBlock(b + bi) == sb.BBlock(b) && (b + bi) % BPB == bi
  {
  }

  lemma KeepsBytesTrans(s: Fs, t: Fs, u: Fs)
    requires KeepsBytes(s, t) && KeepsBytes(t, u)
    ensures KeepsBytes(s, u)
  {
  }

  // ---------------------------------------------------------------- truncation

  /** The bitmap blocks that hold the bits of `bs`. */
  function BitmapBlocks(sb: Super, bs: set<nat>): set<nat> { set b | b in bs :: sb.BBlock(b) }

  /** What itrunc logs: the bitmap blocks of the blocks of inode `i`, and its inode block. */
  function TruncLog(sb: Super, owner: map<nat, (nat, nat)>, i: nat): set<nat>
  {
    BitmapBlocks(sb, Held(owner, i, 0)) + {sb.IBlock(i)}
  }

  lemma NoneFreed(sb: Super, held: set<nat>)
    ensures BitmapBlocks(sb, held - held) == {}
  {
  }

  lemma OneMoreFreed(sb: Super, held: set<nat>, left: set<nat>, b: nat)
    requires b in left && left <= held
    ensures BitmapBlocks(sb, held - (left - {b})) == BitmapBlocks(sb, held - left) + {sb.BBlock(b)}
  {
    assert held - (left - {b}) == (held - left) + {b};
  }

  /** Blocks of inode `i` not freed yet when itrunc has reached slot `k`; the indirect block goes last. */
  function Held(owner: map<nat, (nat, nat)>, i: nat, k: nat): set<nat>
  {
    set b | b in owner && owner[b].0 == i && (owner[b].1 >= k || owner[b].1 == NDIRECT)
  }

  /** Slot `k` is the one owner of its block. */
  lemma SlotOwner(sb: Super, s: Fs, i: nat, k: nat, b: nat)
    requires sb.Valid() && Owned(sb, s.files, s.owner) && i < sb.ninodes && k < SLOTS
    ensures b in s.owner && s.owner[b] == (i, k) <==> b != 0 && b == Slot(s.files[i], k)
  {
    hide Slot;
  }

  lemma ZeroUnowned(sb: Super, s: Fs)
    requires sb.Valid() && Owned(sb, s.files, s.owner)
    ensures 0 !in s.owner && |s.files| == sb.ninodes && Shapes(s.files)
  {
    hide Slot, Shapes;
    assert 0 in s.owner ==> sb.datastart <= 0;
  }

  lemma HeldStep(sb: Super, s: Fs, i: nat, k: nat)
    requires sb.Valid() && Owned(sb, s.files, s.owner) && i < sb.ninodes && k < SLOTS && k != NDIRECT
    ensures Held(s.owner, i, k + 1) == Held(s.owner, i, k) - {Slot(s.files[i], k)}
    ensures Slot(s.files[i], k) != 0 ==> Slot(s.files[i], k) in Held(s.owner, i, k)
    ensures 0 !in Held(s.owner, i, k)
  {
    hide Owned, Slot;
    ZeroUnowned(sb, s);
    var v := Slot(s.files[i], k);
    SlotOwner(sb, s, i, k, v);
    forall b: nat ensures b in s.owner && s.owner[b] == (i, k) <==> b != 0 && b == v {
      SlotOwner(sb, s, i, k, b);
    }
  }

  lemma HeldEnds(sb: Super, s: Fs, i: nat)
    requires Good(sb, s) && i < sb.ninodes
    ensures Held(s.owner, i, NDIRECT) == Held(s.owner, i, NDIRECT + 1)
    ensures s.files[i].addrs[NDIRECT] == 0 ==> Held(s.owner, i, NDIRECT) == {}
    ensures s.files[i].addrs[NDIRECT] != 0 ==> Held(s.owner, i, SLOTS) == {s.files[i].addrs[NDIRECT]}
  {
    var a := s.files[i].addrs[NDIRECT];
    assert Slot(s.files[i], NDIRECT) == a;
    if a == 0 {
      NoEntries(sb, s, i);
      forall b | b in s.owner && s.owner[b].0 == i ensures s.owner[b].1 < NDIRECT {
        assert Slot(s.files[i], s.owner[b].1) == b;
      }
    } else {
      forall b | b in Held(s.owner, i, SLOTS) ensures b == a {
        assert s.owner[b] == (i, NDIRECT);
      }
    }
  }
}
