/** Disks whose files are scattered over many bitmap blocks, and what operations on them log. */
module Scattered {
  import opened Disk
  import opened FsLayout
  import opened FsSpec
  import opened FileSystem
  import opened FileIO
  import opened FsRuns
  import opened Mkfs
  import LogMachine

  /** Inode `i` is given the free block `b` as its direct block `k`. */
  function Give(sb: Super, s: Fs, b: nat, i: nat, k: nat): Fs
    requires Good(sb, s) && b < sb.size && i < sb.ninodes && k < NDIRECT
  {
    Sync(sb, StoreAddr(Mark(sb, s, b), i, k, b), i)
  }

  lemma GiveGood(sb: Super, s: Fs, b: nat, i: nat, k: nat)
    requires Good(sb, s) && b < sb.size && !s.bits[b] && i < sb.ninodes && k < NDIRECT && Slot(s.files[i], k) == 0
    ensures Good(sb, Give(sb, s, b, i, k)) && KeepsBytes(s, Give(sb, s, b, i, k))
  {
    var m := Mark(sb, s, b);
    MarkKeeps(sb, s, b);
    StoreAddrKeeps(sb, m, i, k, b);
    var t := StoreAddr(m, i, k, b);
    SyncKeeps(sb, t, i);
    SyncBytes(sb, t, i);
    KeepsBytesTrans(s, m, t);
    KeepsBytesTrans(s, t, Give(sb, s, b, i, k));
  }

  /** The files do not notice, and the block is marked and owned. */
  lemma GiveKeeps(sb: Super, s: Fs, files: seq<seq<Byte>>, b: nat, i: nat, k: nat)
    requires AtRest(sb, s, files) && b < sb.size && !s.bits[b] && i < sb.ninodes && k < NDIRECT
    requires Slot(s.files[i], k) == 0
    ensures AtRest(sb, Give(sb, s, b, i, k), files)
    ensures var t := Give(sb, s, b, i, k);
      && t.bits == s.bits[b := true] && t.owner == s.owner[b := (i, k)]
      && t.files == s.files[i := WithSlot(s.files[i], k, b)]
  {
    GiveGood(sb, s, b, i, k);
    var t := Give(sb, s, b, i, k);
    assert s.pend + {b} - {b} == {};
    forall x | 0 <= x < |files| ensures Content(t, x) == files[x] {
      KeepsContent(sb, s, t, x);
    }
  }

  // ---------------------------------------------------------------- a truncation beyond its reservation

  /** Block `j` of a file with a block in each of the first bitmap blocks. */
  function Far(sb: Super, j: nat): nat { sb.datastart + j * BPB }

  /** The first `m` direct blocks of inode 0 are these, and the others are free. */
  ghost predicate Scattered(sb: Super, s: Fs, m: nat)
  {
    && AtRest(sb, s, NoBytes(sb.ninodes)) && 1 <= sb.ninodes && Far(sb, NDIRECT - 1) < sb.size
    && 1 <= |s.files| && Shape(s.files[0])
    && (forall j :: 0 <= j < NDIRECT ==> Slot(s.files[0], j) == if j < m then Far(sb, j) else 0)
    && (forall j :: m <= j < NDIRECT ==> Far(sb, j) < |s.bits| && !s.bits[Far(sb, j)])
  }

  lemma {:induction false} Scatter(sb: Super, d: seq<Block>, m: nat) returns (s: Fs)
    requires Formatted(sb, d) && 1 <= sb.ninodes && m <= NDIRECT && Far(sb, NDIRECT - 1) < sb.size
    ensures Scattered(sb, s, m)
    decreases m
  {
    hide Scattered, Formatted;
    if m == 0 {
      s := Empty(sb, d);
      ScatterStart(sb, d);
    } else {
      s := Scatter(sb, d, m - 1);
      s := ScatterMore(sb, s, m - 1);
    }
  }

  lemma ScatterStart(sb: Super, d: seq<Block>)
    requires Formatted(sb, d) && 1 <= sb.ninodes && Far(sb, NDIRECT - 1) < sb.size
    ensures Scattered(sb, Empty(sb, d), 0)
  {
    FormattedAtRest(sb, d);
    var s := Empty(sb, d);
    hide AtRest, Formatted;
    assert s.files[0] == EMPTY_FILE;
    FarApart(sb);
    assert forall j :: 0 <= j < NDIRECT ==> sb.datastart <= Far(sb, j) <= Far(sb, NDIRECT - 1);
  }

  lemma ScatterMore(sb: Super, s: Fs, m: nat) returns (t: Fs)
    requires Scattered(sb, s, m) && m < NDIRECT
    ensures Scattered(sb, t, m + 1)
  {
    FarApart(sb);
    RestGood(sb, s, NoBytes(sb.ninodes));
    GiveKeeps(sb, s, NoBytes(sb.ninodes), Far(sb, m), 0, m);
    hide AtRest, Good, Give, Slot, Far;
    t := Give(sb, s, Far(sb, m), 0, m);
    GivenSlots(s.files, t.files, 0, m, Far(sb, m));
  }

  lemma RestGood(sb: Super, s: Fs, files: seq<seq<Byte>>)
    requires AtRest(sb, s, files)
    ensures Good(sb, s) && sb.Valid() && |s.files| == sb.ninodes && Shapes(s.files) && |s.bits| == sb.size
  {
  }

  lemma FarApart(sb: Super)
    ensures forall j, k :: 0 <= j < k ==> Far(sb, j) < Far(sb, k)
    ensures forall j, k :: 0 <= j < k ==> sb.BBlock(Far(sb, j)) != sb.BBlock(Far(sb, k))
  {
    forall j, k | 0 <= j < k
      ensures Far(sb, j) < Far(sb, k) && sb.BBlock(Far(sb, j)) != sb.BBlock(Far(sb, k))
    {
      assert Far(sb, k) == Far(sb, j) + (k - j) * BPB;
      assert Far(sb, k) >= Far(sb, j) + BPB;
    }
  }

  lemma GivenSlots(files: seq<File>, files': seq<File>, i: nat, k: nat, b: Uint)
    requires Shapes(files) && i < |files| && k < SLOTS && files' == files[i := WithSlot(files[i], k, b)]
    ensures Shapes(files')
    ensures forall j :: 0 <= j < SLOTS ==> Slot(files'[i], j) == if j == k then b else Slot(files[i], j)
    ensures forall x, j :: 0 <= x < |files| && x != i && 0 <= j < SLOTS ==> Slot(files'[x], j) == Slot(files[x], j)
  {
  }

  function FarBits(sb: Super, m: nat): set<nat> { set j | 0 <= j < m :: sb.BBlock(Far(sb, j)) }

  lemma {:induction false} FarBitsSize(sb: Super, m: nat)
    ensures |FarBits(sb, m)| == m
  {
    if m > 0 {
      FarBitsSize(sb, m - 1);
      FarApart(sb);
      assert FarBits(sb, m) == FarBits(sb, m - 1) + {sb.BBlock(Far(sb, m - 1))};
      assert sb.BBlock(Far(sb, m - 1)) !in FarBits(sb, m - 1);
    }
  }

  lemma ScatteredHeld(sb: Super, s: Fs, m: nat)
    requires Scattered(sb, s, m) && m <= NDIRECT
    ensures FarBits(sb, m) <= BitmapBlocks(sb, Held(s.owner, 0, 0))
  {
    hide AtRest, Good, Held, FarBits, Slot;
    RestGood(sb, s, NoBytes(sb.ninodes));
    forall j | 0 <= j < m ensures Far(sb, j) in Held(s.owner, 0, 0) {
      SlotHeld(sb, s, 0, j);
    }
    FarBitsHeld(sb, Held(s.owner, 0, 0), m);
  }

  lemma FarBitsHeld(sb: Super, held: set<nat>, m: nat)
    requires forall j :: 0 <= j < m ==> Far(sb, j) in held
    ensures FarBits(sb, m) <= BitmapBlocks(sb, held)
  {
  }

  lemma SlotHeld(sb: Super, s: Fs, i: nat, k: nat)
    requires Good(sb, s) && i < sb.ninodes && k < SLOTS && Slot(s.files[i], k) != 0
    ensures Slot(s.files[i], k) as nat in Held(s.owner, i, 0)
  {
    hide BitsRepr, InosRepr, IndRepr, Bitmap, Mapped;
  }

  /** On such a disk the truncation of the file logs more blocks than an operation may. */
  lemma TruncationExceeds(sb: Super, d: seq<Block>) returns (s: Fs)
    requires Formatted(sb, d) && 1 <= sb.ninodes && Far(sb, NDIRECT - 1) < sb.size
    ensures AtRest(sb, s, NoBytes(sb.ninodes)) && |TruncLog(sb, s.owner, 0)| > MAXOPBLOCKS
  {
    s := Scatter(sb, d, NDIRECT);
    ScatteredHeld(sb, s, NDIRECT);
    FarBitsSize(sb, NDIRECT);
    SubsetSize(FarBits(sb, NDIRECT), BitmapBlocks(sb, Held(s.owner, 0, 0)));
    RestGood(sb, s, NoBytes(sb.ninodes));
    TruncBudget(sb, s, 0);
  }

  // ---------------------------------------------------------------- a write that uses its reservation up

  /** The write begins in the last direct block, behind its first byte. */
  const OFFSET: nat := (NDIRECT - 1) * BSIZE + 1

  ghost predicate DataBlank(sb: Super, d: seq<Block>) { forall b :: sb.datastart <= b < |d| ==> Blank(d[b]) }

  /**
   File 0 ends there and has its direct blocks only; just the four blocks `free` are free, each under a bitmap
   block of its own; and no block of the data area holds anything.
   */
  ghost predicate Tight(sb: Super, s: Fs, free: seq<nat>)
  {
    && Good(sb, s) && AllSynced(s) && s.pend == {} && 1 <= sb.ninodes && DataBlank(sb, s.d)
    && s.files[0].size == OFFSET && (forall k :: 0 <= k < SLOTS ==> (Slot(s.files[0], k) != 0 <==> k < NDIRECT))
    && |free| == 4 && (forall j :: 0 <= j < 4 ==> free[j] < sb.size)
    && (forall b :: 0 <= b < sb.size ==> (s.bits[b] <==> b !in free))
    && (forall j, k :: 0 <= j < k < 4 ==> sb.BBlock(free[j]) != sb.BBlock(free[k]))
  }

  /** What writei has made of it. */
  ghost predicate Grew(sb: Super, s: Fs, t: Fs, src: seq<Byte>)
  {
    && Good(sb, t) && t.pend == {} && Spliced(s, t, 0, OFFSET, src)
    && |src| == CHUNK && forall i :: 0 <= i < |src| ==> src[i] != 0
  }

  lemma GrewShape(sb: Super, s: Fs, t: Fs, free: seq<nat>, src: seq<Byte>)
    requires Tight(sb, s, free) && Grew(sb, s, t, src)
    ensures |s.files| == |t.files| == sb.ninodes && Shapes(s.files) && Shapes(t.files) && |t.d| == |s.d| == sb.size
    ensures 0 < |t.files| && s.files[0].size == OFFSET && t.files[0].size == OFFSET + CHUNK
    ensures Shape(s.files[0]) && Shape(t.files[0])
    ensures Content(t, 0) == Splice(Content(s, 0), OFFSET, src)
  {
    hide DataBlank, AllSynced, IndRepr, Owned, Bitmap, BitsRepr, InosRepr, Content, SlotsKept;
    BitPerBlock(sb, s);
    BitPerBlock(sb, t);
    assert |Splice(Content(s, 0), OFFSET, src)| == OFFSET + CHUNK;
  }

  lemma GrewByte(t: Fs, c: seq<Byte>, src: seq<Byte>, o: nat)
    requires 0 < |t.files| && Shape(t.files[0]) && t.files[0].size <= MAXFILE * BSIZE && o < t.files[0].size
    requires |c| == OFFSET <= o && Content(t, 0) == Splice(c, OFFSET, src)
    ensures o - OFFSET < |src| && ByteAt(t, 0, o) == src[o - OFFSET]
  {
    BytesAt(t, 0, t.files[0].size, o);
    hide Content, ByteAt, Bytes;
    assert o < |Splice(c, OFFSET, src)|;
  }

  /** Blocks keep their owners. */
  lemma SameOwner(sb: Super, s: Fs, t: Fs, b: nat)
    requires Good(sb, s) && Good(sb, t) && SlotsKept(s.files, t.files, 0) && b in s.owner
    ensures b in t.owner && t.owner[b] == s.owner[b]
    ensures var x, j := s.owner[b].0, s.owner[b].1;
      b != 0 && x < |s.files| && Shape(s.files[x]) && j < SLOTS && Slot(s.files[x], j) == b
  {
    var x, j := s.owner[b].0, s.owner[b].1;
    assert Slot(s.files[x], j) == b != 0;
    assert Slot(t.files[x], j) == b;
  }

  /** The four blocks that the write takes: the indirect block and those behind the last direct block. */
  ghost predicate Taken(sb: Super, s: Fs, t: Fs, free: seq<nat>, k: nat, b: nat)
  {
    && 0 < |t.files| && Shape(t.files[0]) && k < SLOTS && b == Slot(t.files[0], k) && b in free
    && sb.datastart <= b < sb.size == |s.bits| == |t.bits| && !s.bits[b] && t.bits[b]
    && b in t.owner && t.owner[b] == (0, k)
  }

  /** A slot that was empty has one of the free blocks. */
  lemma NewSlot(sb: Super, s: Fs, t: Fs, free: seq<nat>, k: nat)
    requires Tight(sb, s, free) && Good(sb, t) && SlotsKept(s.files, t.files, 0)
    requires NDIRECT <= k < SLOTS && Slot(t.files[0], k) != 0
    ensures Taken(sb, s, t, free, k, Slot(t.files[0], k))
  {
    var b := Slot(t.files[0], k);
    OwnerAt(sb, t, 0, k);
    if b in s.owner {
      SameOwner(sb, s, t, b);
      assert false;
    }
  }

  lemma OwnerAt(sb: Super, t: Fs, i: nat, k: nat)
    requires Good(sb, t) && i < sb.ninodes && k < SLOTS && Slot(t.files[i], k) != 0
    ensures var b := Slot(t.files[i], k);
      b in t.owner && t.owner[b] == (i, k) && sb.datastart <= b < sb.size && t.bits[b]
  {
  }

  // ---------------------------------------------------------------- the blocks that the write changes

  lemma DataChanged(sb: Super, s: Fs, t: Fs, free: seq<nat>, src: seq<Byte>, o: nat)
    requires Tight(sb, s, free) && Grew(sb, s, t, src) && OFFSET <= o < OFFSET + CHUNK
    ensures o < MAXFILE * BSIZE && 0 < |t.files| && Shape(t.files[0]) && |t.d| == |s.d|
    ensures var b := Slot(t.files[0], SlotOf(o / BSIZE)); sb.datastart <= b < |s.d| && t.d[b] != s.d[b]
  {
    GrewShape(sb, s, t, free, src);
    GrewByte(t, Content(s, 0), src, o);
    hide Content, Tight;
    SlotMapped(sb, t, 0, o);
    assert DataBlank(sb, s.d) by { TightBlank(sb, s, free); }
    hide Grew, Good;
    var b := Slot(t.files[0], SlotOf(o / BSIZE));
    assert t.d[b][o % BSIZE] != 0 && s.d[b][o % BSIZE] == 0;
  }

  lemma TightBlank(sb: Super, s: Fs, free: seq<nat>)
    requires Tight(sb, s, free)
    ensures DataBlank(sb, s.d)
  {
  }

  lemma SlotMapped(sb: Super, t: Fs, i: nat, o: nat)
    requires Good(sb, t) && i < sb.ninodes && o < t.files[i].size
    ensures o < MAXFILE * BSIZE && Shape(t.files[i])
    ensures sb.datastart <= Slot(t.files[i], SlotOf(o / BSIZE)) < sb.size == |t.d|
    ensures Slot(t.files[i], SlotOf(o / BSIZE)) != 0
  {
    assert o / BSIZE * BSIZE <= o;
    assert Slot(t.files[i], SlotOf(o / BSIZE)) != 0;
  }

  lemma IndirectChanged(sb: Super, s: Fs, t: Fs, j: nat)
    requires Good(sb, t) && DataBlank(sb, s.d) && |s.d| == sb.size && 1 <= sb.ninodes
    requires j < NINDIRECT && t.files[0].ind[j] != 0
    ensures |t.files| == sb.ninodes && Shape(t.files[0]) && |t.d| == |s.d|
    ensures var b := t.files[0].addrs[NDIRECT]; sb.datastart <= b < |s.d| && t.d[b] != s.d[b]
  {
    NoIndirectNoEntry(sb, t, 0, j);
    IndirectOwner(sb, t.files, t.owner, 0);
    var b := t.files[0].addrs[NDIRECT];
    GetAddrsWord(t.d[b], NINDIRECT, j);
    assert Word(t.d[b], j) != 0;
    assert Blank(s.d[b]) && Word(s.d[b], j) == 0;
  }

  lemma BitmapChanged(sb: Super, s: Fs, t: Fs, b: nat)
    requires BitsRepr(sb, s.d, s.bits) && BitsRepr(sb, t.d, t.bits) && b < sb.size && !s.bits[b] && t.bits[b]
    ensures sb.bmapstart <= sb.BBlock(b) < sb.datastart <= sb.size && t.d[sb.BBlock(b)] != s.d[sb.BBlock(b)]
  {
    assert DiskBit(t.d, sb, b) && !DiskBit(s.d, sb, b);
  }

  lemma InodeChanged(sb: Super, s: Fs, t: Fs, i: nat)
    requires InosRepr(sb, s.d, s.dinos) && InosRepr(sb, t.d, t.dinos) && i < sb.ninodes && s.dinos[i] != t.dinos[i]
    ensures sb.IBlock(i) < sb.bmapstart <= sb.size && t.d[sb.IBlock(i)] != s.d[sb.IBlock(i)]
  {
    assert DiskIno(t.d, sb, i) != DiskIno(s.d, sb, i);
  }

  lemma FourApart(a: nat, b: nat, c: nat, d: nat)
    requires a != b && a != c && a != d && b != c && b != d && c != d
    ensures |{a, b, c, d}| == 4
  {
  }

  lemma Disjoint(a: set<nat>, b: set<nat>, x: nat, y: nat)
    requires a !! b && x !in a && x !in b && y !in a && y !in b && x != y
    ensures |a + b + {x, y}| == |a| + |b| + 2
  {
    assert |a + b| == |a| + |b|;
    assert |a + b + {x, y}| == |a + b| + |{x, y}|;
  }

  lemma BothGood(sb: Super, s: Fs, t: Fs, free: seq<nat>, src: seq<Byte>)
    requires Tight(sb, s, free) && Grew(sb, s, t, src)
    ensures Good(sb, s) && Good(sb, t) && SlotsKept(s.files, t.files, 0) && 1 <= sb.ninodes && sb.Valid()
    ensures |s.bits| == |t.bits| == |s.d| == |t.d| == sb.size && DataBlank(sb, s.d)
  {
    GrewShape(sb, s, t, free, src);
  }

  lemma TakenAt(sb: Super, s: Fs, t: Fs, free: seq<nat>, src: seq<Byte>, k: nat) returns (b: nat)
    requires Tight(sb, s, free) && Grew(sb, s, t, src) && NDIRECT <= k <= NDIRECT + 3
    ensures Taken(sb, s, t, free, k, b)
  {
    hide Tight, Grew, Good, SlotsKept, Taken, Slot, Content;
    GrewShape(sb, s, t, free, src);
    BothGood(sb, s, t, free, src);
    if k == NDIRECT {
      IndirectThere(sb, t);
    } else {
      BlockThere(sb, t, k - 1);
    }
    NewSlot(sb, s, t, free, k);
    b := Slot(t.files[0], k);
  }

  lemma BlockThere(sb: Super, t: Fs, bn: nat)
    requires Good(sb, t) && 1 <= sb.ninodes && NDIRECT <= bn < NDIRECT + 3
    requires |t.files| == sb.ninodes && Shape(t.files[0]) && t.files[0].size == OFFSET + CHUNK
    ensures Slot(t.files[0], bn + 1) != 0
  {
    hide Good;
    assert bn * BSIZE / BSIZE == bn;
    SlotMapped(sb, t, 0, bn * BSIZE);
  }

  lemma IndirectThere(sb: Super, t: Fs)
    requires Good(sb, t) && 1 <= sb.ninodes
    requires |t.files| == sb.ninodes && Shape(t.files[0]) && t.files[0].size == OFFSET + CHUNK
    ensures Slot(t.files[0], NDIRECT) != 0 && t.files[0].ind[0] != 0
  {
    hide Good;
    BlockThere(sb, t, NDIRECT);
    assert Slot(t.files[0], NDIRECT + 1) == t.files[0].ind[0];
    NoIndirectNoEntry(sb, t, 0, 0);
  }

  lemma BitsApart(sb: Super, s: Fs, free: seq<nat>, b: nat, c: nat)
    requires Tight(sb, s, free) && b in free && c in free && b != c
    ensures sb.BBlock(b) != sb.BBlock(c)
  {
    var j, k :| 0 <= j < 4 && 0 <= k < 4 && free[j] == b && free[k] == c;
  }

  lemma LastDirect(sb: Super, s: Fs, t: Fs, free: seq<nat>, src: seq<Byte>) returns (b: nat)
    requires Tight(sb, s, free) && Grew(sb, s, t, src)
    ensures sb.datastart <= b < |s.d| == |t.d| && t.d[b] != s.d[b] && b in t.owner && t.owner[b] == (0, NDIRECT - 1)
  {
    DataChanged(sb, s, t, free, src, OFFSET);
    GrewShape(sb, s, t, free, src);
    assert OFFSET / BSIZE == NDIRECT - 1;
    b := Slot(t.files[0], NDIRECT - 1);
    OwnerAt(sb, t, 0, NDIRECT - 1);
  }

  lemma TakenChanged(sb: Super, s: Fs, t: Fs, free: seq<nat>, src: seq<Byte>, k: nat, b: nat)
    requires Tight(sb, s, free) && Grew(sb, s, t, src) && NDIRECT <= k <= NDIRECT + 3 && Taken(sb, s, t, free, k, b)
    ensures |t.d| == |s.d| == sb.size && sb.Valid() && sb.datastart <= b < sb.size && t.d[b] != s.d[b]
    ensures sb.bmapstart <= sb.BBlock(b) < sb.datastart && t.d[sb.BBlock(b)] != s.d[sb.BBlock(b)]
  {
    hide Tight, Grew, Taken, BitsRepr, Slot;
    TakenIs(sb, s, t, free, k, b);
    GoodRepr(sb, s, t, free, src);
    BitmapChanged(sb, s, t, b);
    if k == NDIRECT {
      IndirectGrew(sb, s, t, free, src);
    } else {
      ReachedChanged(sb, s, t, free, src, k - 1);
    }
  }

  lemma TakenIs(sb: Super, s: Fs, t: Fs, free: seq<nat>, k: nat, b: nat)
    requires Taken(sb, s, t, free, k, b)
    ensures 0 < |t.files| && Shape(t.files[0]) && b == Slot(t.files[0], k) && b in free
    ensures sb.datastart <= b < sb.size == |s.bits| == |t.bits| && !s.bits[b] && t.bits[b]
  {
  }

  lemma GoodRepr(sb: Super, s: Fs, t: Fs, free: seq<nat>, src: seq<Byte>)
    requires Tight(sb, s, free) && Grew(sb, s, t, src)
    ensures BitsRepr(sb, s.d, s.bits) && BitsRepr(sb, t.d, t.bits) && sb.Valid() && |t.d| == |s.d| == sb.size
  {
  }

  lemma IndirectGrew(sb: Super, s: Fs, t: Fs, free: seq<nat>, src: seq<Byte>)
    requires Tight(sb, s, free) && Grew(sb, s, t, src)
    ensures 0 < |t.files| && Shape(t.files[0]) && |t.d| == |s.d|
    ensures var b := Slot(t.files[0], NDIRECT); sb.datastart <= b < |s.d| && t.d[b] != s.d[b]
  {
    hide Tight, Grew, Good, DataBlank, Content;
    BothGood(sb, s, t, free, src);
    GrewShape(sb, s, t, free, src);
    IndirectThere(sb, t);
    IndirectChanged(sb, s, t, 0);
  }

  lemma ReachedChanged(sb: Super, s: Fs, t: Fs, free: seq<nat>, src: seq<Byte>, bn: nat)
    requires Tight(sb, s, free) && Grew(sb, s, t, src) && NDIRECT <= bn < NDIRECT + 3
    ensures 0 < |t.files| && Shape(t.files[0]) && |t.d| == |s.d|
    ensures var b := Slot(t.files[0], bn + 1); sb.datastart <= b < |s.d| && t.d[b] != s.d[b]
  {
    hide Tight, Grew;
    var o := bn * BSIZE;
    assert o / BSIZE == bn;
    DataChanged(sb, s, t, free, src, o);
  }

  lemma InodeGrew(sb: Super, s: Fs, t: Fs, free: seq<nat>, src: seq<Byte>)
    requires Tight(sb, s, free) && Grew(sb, s, t, src)
    ensures sb.IBlock(0) < sb.bmapstart && sb.Valid() && |t.d| == |s.d| == sb.size
    ensures t.d[sb.IBlock(0)] != s.d[sb.IBlock(0)]
  {
    GrewShape(sb, s, t, free, src);
    InodeChanged(sb, s, t, 0);
  }

  /** Such a write changes ten blocks of the disk. */
  lemma TenBlocks(sb: Super, s: Fs, t: Fs, free: seq<nat>, src: seq<Byte>) returns (bs: set<nat>)
    requires Tight(sb, s, free) && Grew(sb, s, t, src)
    ensures |bs| == MAXOPBLOCKS && |t.d| == |s.d| && forall b :: b in bs ==> b < |s.d| && t.d[b] != s.d[b]
  {
    hide Tight, Grew, Taken;
    var a := TakenAt(sb, s, t, free, src, NDIRECT);
    var b := TakenAt(sb, s, t, free, src, NDIRECT + 1);
    var c := TakenAt(sb, s, t, free, src, NDIRECT + 2);
    var d := TakenAt(sb, s, t, free, src, NDIRECT + 3);
    var last := LastDirect(sb, s, t, free, src);
    TakenChanged(sb, s, t, free, src, NDIRECT, a);
    TakenChanged(sb, s, t, free, src, NDIRECT + 1, b);
    TakenChanged(sb, s, t, free, src, NDIRECT + 2, c);
    TakenChanged(sb, s, t, free, src, NDIRECT + 3, d);
    InodeGrew(sb, s, t, free, src);
    TakenApart(sb, s, t, free, NDIRECT, a, NDIRECT + 1, b);
    TakenApart(sb, s, t, free, NDIRECT, a, NDIRECT + 2, c);
    TakenApart(sb, s, t, free, NDIRECT, a, NDIRECT + 3, d);
    TakenApart(sb, s, t, free, NDIRECT + 1, b, NDIRECT + 2, c);
    TakenApart(sb, s, t, free, NDIRECT + 1, b, NDIRECT + 3, d);
    TakenApart(sb, s, t, free, NDIRECT + 2, c, NDIRECT + 3, d);
    NotLast(sb, s, t, free, NDIRECT, a, last);
    NotLast(sb, s, t, free, NDIRECT + 1, b, last);
    NotLast(sb, s, t, free, NDIRECT + 2, c, last);
    NotLast(sb, s, t, free, NDIRECT + 3, d, last);
    FourApart(a, b, c, d);
    FourApart(sb.BBlock(a), sb.BBlock(b), sb.BBlock(c), sb.BBlock(d));
    bs := UpToTen(sb, s, t, {a, b, c, d}, {sb.BBlock(a), sb.BBlock(b), sb.BBlock(c), sb.BBlock(d)}, last);
  }

  lemma TakenApart(sb: Super, s: Fs, t: Fs, free: seq<nat>, k: nat, b: nat, l: nat, c: nat)
    requires Tight(sb, s, free) && Taken(sb, s, t, free, k, b) && Taken(sb, s, t, free, l, c) && k != l
    ensures b != c && sb.BBlock(b) != sb.BBlock(c)
  {
    hide Good;
    assert b != c;
    BitsApart(sb, s, free, b, c);
  }

  lemma NotLast(sb: Super, s: Fs, t: Fs, free: seq<nat>, k: nat, b: nat, last: nat)
    requires Taken(sb, s, t, free, k, b) && last in t.owner && t.owner[last] == (0, NDIRECT - 1) && k >= NDIRECT
    ensures b != last
  {
  }

  /** Four new blocks, their bitmap blocks, one more block and the inode block: all different, all changed. */
  lemma UpToTen(sb: Super, s: Fs, t: Fs, new_: set<nat>, bits: set<nat>, last: nat) returns (bs: set<nat>)
    requires sb.Valid() && |t.d| == |s.d| == sb.size && |new_| == 4 && |bits| == 4
    requires forall b :: b in new_ ==> sb.datastart <= b < sb.size && t.d[b] != s.d[b] && b != last
    requires forall b :: b in bits ==> sb.bmapstart <= b < sb.datastart && t.d[b] != s.d[b]
    requires sb.datastart <= last < sb.size && t.d[last] != s.d[last]
    requires sb.IBlock(0) < sb.bmapstart && t.d[sb.IBlock(0)] != s.d[sb.IBlock(0)]
    ensures |bs| == MAXOPBLOCKS && forall b :: b in bs ==> b < |s.d| && t.d[b] != s.d[b]
  {
    Disjoint(new_, bits, last, sb.IBlock(0));
    bs := new_ + bits + {last, sb.IBlock(0)};
  }

  lemma ChangedIsLogged(fs: FileSystem, b: nat)
    requires fs.Logged() && b < |fs.base| == |fs.blk| && fs.blk[b] != fs.base[b]
    ensures b in fs.logged
  {
    LogMachine.ReplayIsLastWrite(fs.base, fs.writes, b);
  }

  /** The write wants four blocks. */
  lemma WriteSlots()
    ensures RangeSlots(OFFSET, CHUNK) == {NDIRECT - 1, NDIRECT, NDIRECT + 1, NDIRECT + 2, NDIRECT + 3}
  {
    var first := OFFSET / BSIZE;
    assert first == NDIRECT - 1 && BlocksOf(OFFSET, CHUNK) == 4;
    assert SlotsFrom(first, 0) == {};
    assert SlotsFrom(first, 1) == {NDIRECT - 1};
    assert SlotsFrom(first, 2) == {NDIRECT - 1} + SlotsOf(NDIRECT);
    assert SlotsFrom(first, 3) == SlotsFrom(first, 2) + SlotsOf(NDIRECT + 1);
    assert SlotsFrom(first, 4) == SlotsFrom(first, 3) + SlotsOf(NDIRECT + 2);
  }

  lemma WantsFour(f: File)
    requires Shape(f) && forall k :: 0 <= k < SLOTS ==> (Slot(f, k) != 0 <==> k < NDIRECT)
    ensures |Wanted(f, {NDIRECT - 1, NDIRECT, NDIRECT + 1, NDIRECT + 2, NDIRECT + 3})| == 4
  {
    hide Shape, Slot;
    assert Wanted(f, {NDIRECT - 1, NDIRECT, NDIRECT + 1, NDIRECT + 2, NDIRECT + 3})
        == {NDIRECT, NDIRECT + 1, NDIRECT + 2, NDIRECT + 3};
    FourApart(NDIRECT, NDIRECT + 1, NDIRECT + 2, NDIRECT + 3);
  }

  lemma FourFree(bits: seq<bool>, free: seq<nat>)
    requires |free| == 4 && (forall j :: 0 <= j < 4 ==> free[j] < |bits| && !bits[free[j]])
    requires forall j, k :: 0 <= j < k < 4 ==> free[j] != free[k]
    ensures |ClearBits(bits)| >= 4
  {
    var four := {free[0], free[1], free[2], free[3]};
    FourApart(free[0], free[1], free[2], free[3]);
    assert ClearBits(bits) == four + (ClearBits(bits) - four);
  }

  /** And four are free. */
  lemma TightRoom(sb: Super, s: Fs, free: seq<nat>)
    requires Tight(sb, s, free)
    ensures Room(s, 0, RangeSlots(OFFSET, CHUNK))
  {
    hide AllSynced, DataBlank, RangeSlots, Slot, IndRepr, Owned, Bitmap, BitsRepr, InosRepr, Wanted, ClearBits;
    BitPerBlock(sb, s);
    WriteSlots();
    WantsFour(s.files[0]);
    forall j, k | 0 <= j < k < 4 ensures free[j] != free[k] {
      assert sb.BBlock(free[j]) != sb.BBlock(free[k]);
    }
    FourFree(s.bits, free);
  }

  /** On a tight disk a chunk of non-zero bytes, written at that offset, logs exactly MAXOPBLOCKS blocks. */
  method WriteReaches(fs: FileSystem, src: seq<Byte>, ghost free: seq<nat>) returns (r: int, ok: bool)
    requires fs.Valid() && Tight(fs.sb, fs.st, free) && |src| == CHUNK && forall i :: 0 <= i < |src| ==> src[i] != 0
    modifies fs
    ensures ok && r == CHUNK && |fs.logged| == MAXOPBLOCKS
  {
    hide Good, OthersSynced, fs.Logged, Spliced, DataBlank;
    BitPerBlock(fs.sb, fs.st);
    var ip := Load(fs, 0);
    ghost var s := fs.st;
    TightRoom(fs.sb, s, free);
    fs.BeginLogging();
    ghost var new_;
    r, ok, new_ := Writei(fs, ip, OFFSET, src);
    BitPerBlock(fs.sb, fs.st);
    AllLogged(fs, s, free, src, new_);
  }

  lemma AllLogged(fs: FileSystem, s: Fs, free: seq<nat>, src: seq<Byte>, new_: set<nat>)
    requires fs.Valid() && Tight(fs.sb, s, free) && Grew(fs.sb, s, fs.st, src) && fs.base == s.d
    requires fs.logged <= new_ && |new_| <= MAXOPBLOCKS
    ensures |fs.logged| == MAXOPBLOCKS
  {
    var bs := TenBlocks(fs.sb, s, fs.st, free, src);
    hide Tight, Grew, fs.Logged, Good;
    forall b | b in bs ensures b in fs.logged {
      ChangedIsLogged(fs, b);
    }
    SubsetSize(bs, fs.logged);
    SubsetSize(fs.logged, new_);
  }

  // ---------------------------------------------------------------- such a disk exists

  /** The four blocks left free. */
  function Free(sb: Super): (r: seq<nat>)
    ensures |r| == 4 && forall j :: 0 <= j < 4 ==> r[j] == sb.datastart + NDIRECT + j * BPB
  {
    [sb.datastart + NDIRECT, sb.datastart + NDIRECT + BPB, sb.datastart + NDIRECT + 2 * BPB,
     sb.datastart + NDIRECT + 3 * BPB]
  }

  /** The blocks below `m` are taken: the first by inode 0, each of the others by an inode of its own. */
  ghost predicate Filled(sb: Super, s: Fs, m: nat)
  {
    && AtRest(sb, s, NoBytes(sb.ninodes)) && sb.size <= sb.ninodes && sb.datastart <= m <= sb.size
    && DataBlank(sb, s.d) && |s.bits| == sb.size && |s.files| == sb.ninodes && 1 <= sb.ninodes && Shapes(s.files)
    && (forall b :: 0 <= b < sb.size ==> (s.bits[b] <==> b < sb.datastart || (b < m && b !in Free(sb))))
    && (forall k :: 0 <= k < SLOTS ==>
         Slot(s.files[0], k) == if k < NDIRECT && sb.datastart + k < m then sb.datastart + k else 0)
    && (forall x :: m <= x < sb.ninodes ==> Slot(s.files[x], 0) == 0)
  }

  lemma FillStart(sb: Super, d: seq<Block>)
    requires Formatted(sb, d) && sb.size <= sb.ninodes
    ensures Filled(sb, Empty(sb, d), sb.datastart)
  {
    hide AtRest, Formatted, DataBlank, Slot;
    FormattedAtRest(sb, d);
    FormattedBlank(sb, d);
    NoSlots();
    var s := Empty(sb, d);
    forall x | 0 <= x < sb.ninodes ensures s.files[x] == EMPTY_FILE {}
    FreeBehind(sb);
  }

  lemma NoSlots()
    ensures Shape(EMPTY_FILE) && forall k :: 0 <= k < SLOTS ==> Slot(EMPTY_FILE, k) == 0
  {
  }

  lemma FreeBehind(sb: Super)
    ensures forall b :: b in Free(sb) ==> sb.datastart + NDIRECT <= b
  {
  }

  lemma FormattedBlank(sb: Super, d: seq<Block>)
    requires Formatted(sb, d)
    ensures DataBlank(sb, d) && sb.Valid() && |d| == sb.size
  {
  }

  lemma GiveBlank(sb: Super, s: Fs, b: nat, i: nat, k: nat)
    requires Good(sb, s) && b < sb.size && i < sb.ninodes && k < NDIRECT && DataBlank(sb, s.d)
    ensures DataBlank(sb, Give(sb, s, b, i, k).d)
  {
    hide Good, Blank;
    BitPerBlock(sb, s);
    forall x | sb.datastart <= x < sb.size ensures Give(sb, s, b, i, k).d[x] == s.d[x] {
      assert x != sb.BBlock(b) && x != sb.IBlock(i);
    }
  }

  lemma FillMore(sb: Super, s: Fs, m: nat) returns (t: Fs)
    requires Filled(sb, s, m) && m < sb.size
    ensures Filled(sb, t, m + 1)
  {
    if m in Free(sb) {
      FillSkip(sb, s, m);
      t := s;
    } else if m < sb.datastart + NDIRECT {
      t := FillGive(sb, s, m, 0, m - sb.datastart);
    } else {
      t := FillGive(sb, s, m, m, 0);
    }
  }

  lemma FillSkip(sb: Super, s: Fs, m: nat)
    requires Filled(sb, s, m) && m < sb.size && m in Free(sb)
    ensures Filled(sb, s, m + 1)
  {
    hide AtRest, DataBlank, Slot;
    assert m >= sb.datastart + NDIRECT;
  }

  lemma FillGive(sb: Super, s: Fs, m: nat, i: nat, k: nat) returns (t: Fs)
    requires Filled(sb, s, m) && m < sb.size && m !in Free(sb)
    requires (i, k) == if m < sb.datastart + NDIRECT then (0, m - sb.datastart) else (m, 0)
    ensures Filled(sb, t, m + 1)
  {
    hide AtRest, Good, Give, Slot, DataBlank, Free;
    FilledGood(sb, s, m);
    GiveKeeps(sb, s, NoBytes(sb.ninodes), m, i, k);
    GiveBlank(sb, s, m, i, k);
    t := Give(sb, s, m, i, k);
    GivenSlots(s.files, t.files, i, k, m);
  }

  lemma FilledGood(sb: Super, s: Fs, m: nat)
    requires Filled(sb, s, m)
    ensures Good(sb, s) && sb.Valid() && |s.files| == sb.ninodes && Shapes(s.files) && |s.bits| == |s.d| == sb.size
    ensures sb.datastart > 1
  {
    RestGood(sb, s, NoBytes(sb.ninodes));
  }

  lemma {:induction false} Fill(sb: Super, d: seq<Block>, m: nat) returns (s: Fs)
    requires Formatted(sb, d) && sb.size <= sb.ninodes && sb.datastart <= m <= sb.size
    ensures Filled(sb, s, m)
    decreases m
  {
    hide Filled, Formatted;
    if m == sb.datastart {
      s := Empty(sb, d);
      FillStart(sb, d);
    } else {
      s := Fill(sb, d, m - 1);
      s := FillMore(sb, s, m - 1);
    }
  }

  lemma Ended(sb: Super, s: Fs) returns (t: Fs)
    requires Filled(sb, s, sb.size) && sb.datastart + NDIRECT + 3 * BPB < sb.size
    ensures Tight(sb, t, Free(sb))
  {
    hide AtRest, Good, DataBlank;
    FilledGood(sb, s, sb.size);
    DirectMapped(sb, s);
    ResizeGood(sb, s, 0, OFFSET);
    var r := Resize(s, 0, OFFSET);
    BitPerBlock(sb, r);
    SyncKeeps(sb, r, 0);
    t := Sync(sb, r, 0);
    EndedBlank(sb, s, r, t);
    EndedSynced(sb, s, r, t);
    EndedSlots(sb, s, t);
    FreeApart(sb);
    EndedBits(sb, s);
  }

  lemma DirectMapped(sb: Super, s: Fs)
    requires Filled(sb, s, sb.size) && sb.datastart + NDIRECT < sb.size && 1 <= |s.files| && Shape(s.files[0])
    requires sb.datastart > 1
    ensures MappedTo(s.files[0], OFFSET)
  {
    hide AtRest, DataBlank;
    forall bn | 0 <= bn < MAXFILE && bn * BSIZE < OFFSET ensures Slot(s.files[0], SlotOf(bn)) != 0 {
      assert bn < NDIRECT;
    }
  }

  lemma EndedBlank(sb: Super, s: Fs, r: Fs, t: Fs)
    requires sb.Valid() && 1 <= sb.ninodes && |s.d| == sb.size && DataBlank(sb, s.d) && r.d == s.d
    requires |r.dinos| == |r.files| == sb.ninodes && Shape(r.files[0]) && t == Sync(sb, r, 0)
    ensures DataBlank(sb, t.d)
  {
    hide Blank;
    forall x | sb.datastart <= x < sb.size ensures t.d[x] == s.d[x] {
      assert x != sb.IBlock(0);
    }
  }

  lemma EndedSynced(sb: Super, s: Fs, r: Fs, t: Fs)
    requires AtRest(sb, s, NoBytes(sb.ninodes)) && 1 <= sb.ninodes == |s.files| && r == Resize(s, 0, OFFSET)
    requires sb.Valid() && |r.d| == sb.size && |r.dinos| == |r.files| == sb.ninodes && Shape(r.files[0])
    requires t == Sync(sb, r, 0)
    ensures AllSynced(t) && t.pend == {}
  {
    hide Good, Shows;
  }

  lemma EndedSlots(sb: Super, s: Fs, t: Fs)
    requires Filled(sb, s, sb.size) && sb.datastart + NDIRECT < sb.size && sb.datastart > 1
    requires 1 <= |s.files| && Shape(s.files[0]) && t.files == s.files[0 := s.files[0].(size := OFFSET)]
    ensures Shape(t.files[0]) && t.files[0].size == OFFSET
    ensures forall k :: 0 <= k < SLOTS ==> (Slot(t.files[0], k) != 0 <==> k < NDIRECT)
  {
    hide AtRest, DataBlank;
    forall k | 0 <= k < SLOTS ensures Slot(t.files[0], k) == Slot(s.files[0], k) {}
  }

  lemma FreeApart(sb: Super)
    ensures forall j, k :: 0 <= j < k < 4 ==> sb.BBlock(Free(sb)[j]) != sb.BBlock(Free(sb)[k])
  {
    forall j, k | 0 <= j < k < 4 ensures sb.BBlock(Free(sb)[j]) != sb.BBlock(Free(sb)[k]) {
      assert Free(sb)[k] >= Free(sb)[j] + BPB;
    }
  }

  lemma EndedBits(sb: Super, s: Fs)
    requires Filled(sb, s, sb.size) && sb.datastart + NDIRECT + 3 * BPB < sb.size && |s.bits| == sb.size
    ensures forall b :: 0 <= b < sb.size ==> (s.bits[b] <==> b !in Free(sb))
  {
    hide AtRest, DataBlank, Slot;
    assert forall b :: b in Free(sb) ==> sb.datastart <= b;
  }

  /** Disks on which a write uses up its reservation. */
  lemma TightDisk(sb: Super, d: seq<Block>) returns (s: Fs)
    requires Formatted(sb, d) && sb.size <= sb.ninodes && sb.datastart + NDIRECT + 3 * BPB < sb.size
    ensures Tight(sb, s, Free(sb))
  {
    s := Fill(sb, d, sb.size);
    s := Ended(sb, s);
  }
}
