/**
 What the inode and block layer keeps: every block has one owner, the bitmap says exactly which
 blocks are taken, and a file is a sequence of bytes.
 */
module FsSpec {
  import opened Disk
  import opened FsLayout

  /** Slots of an inode: the direct addresses, the indirect block, then the entries in that block. */
  const SLOTS: nat := NDIRECT + 1 + NINDIRECT

  datatype File = File(size: Uint, addrs: seq<Uint>, ind: seq<Uint>)

  predicate Shape(f: File) { |f.addrs| == NDIRECT + 1 && |f.ind| == NINDIRECT }

  function Slot(f: File, k: nat): Uint
    requires Shape(f) && k < SLOTS
  {
    if k <= NDIRECT then f.addrs[k] else f.ind[k - NDIRECT - 1]
  }

  /** Slot that bmap uses for file block `bn`. */
  function SlotOf(bn: nat): (k: nat)
    requires bn < MAXFILE
    ensures k < SLOTS && k != NDIRECT
  {
    if bn < NDIRECT then bn else bn + 1
  }

  function WithSlot(f: File, k: nat, b: Uint): (r: File)
    requires Shape(f) && k < SLOTS
    ensures Shape(r) && r.size == f.size
    ensures forall j :: 0 <= j < SLOTS ==> Slot(r, j) == if j == k then b else Slot(f, j)
  {
    if k <= NDIRECT then f.(addrs := f.addrs[k := b]) else f.(ind := f.ind[k - NDIRECT - 1 := b])
  }

  const ZERO: Block := seq(BSIZE, _ => 0)

  function Zeros(n: nat): (r: seq<Uint>)
    ensures |r| == n && forall i :: 0 <= i < n ==> r[i] == 0
  {
    seq(n, _ => 0)
  }

  /** Entries of the indirect block `a`; none when there is no such block. */
  function Entries(d: seq<Block>, a: nat): (r: seq<Uint>)
    ensures |r| == NINDIRECT
  {
    if a == 0 || a >= |d| then Zeros(NINDIRECT) else GetAddrs(d[a], 0, NINDIRECT)
  }

  datatype Fs = Fs(
    d: seq<Block>,                    // the blocks, as the log layer shows them
    bits: seq<bool>,                  // the bitmap
    dinos: seq<Ino>,                  // disk inodes
    files: seq<File>,                 // inodes as cached in memory, with their indirect entries
    owner: map<nat, (nat, nat)>,      // which inode slot refers to a block
    pend: set<nat>)                   // marked in use but not (or no longer) referred to

  /** The bitmap blocks hold `bits`, the inode blocks `dinos`, and the indirect blocks the `ind` entries. */
  ghost predicate BitsRepr(sb: Super, d: seq<Block>, bits: seq<bool>)
  {
    sb.Valid() && |d| == |bits| == sb.size && forall b :: 0 <= b < sb.size ==> bits[b] == DiskBit(d, sb, b)
  }

  ghost predicate InosRepr(sb: Super, d: seq<Block>, dinos: seq<Ino>)
  {
    sb.Valid() && |d| == sb.size && |dinos| == sb.ninodes
        && forall i :: 0 <= i < sb.ninodes ==> dinos[i] == DiskIno(d, sb, i)
  }

  ghost predicate IndRepr(d: seq<Block>, files: seq<File>)
  {
    forall i :: 0 <= i < |files| ==> Shape(files[i]) && files[i].ind == Entries(d, files[i].addrs[NDIRECT])
  }

  ghost predicate Shapes(files: seq<File>) { forall i :: 0 <= i < |files| ==> Shape(files[i]) }

  /** Each referenced block lies in the data area and is referenced from one slot only. */
  ghost predicate Owned(sb: Super, files: seq<File>, owner: map<nat, (nat, nat)>)
  {
    && |files| == sb.ninodes && Shapes(files)
    && (forall i, k :: 0 <= i < |files| && 0 <= k < SLOTS && Slot(files[i], k) != 0 ==>
          Slot(files[i], k) in owner && owner[Slot(files[i], k)] == (i, k))
    && (forall b :: b in owner ==>
          && sb.datastart <= b < sb.size && owner[b].0 < |files| && owner[b].1 < SLOTS
          && Slot(files[owner[b].0], owner[b].1) == b)
  }

  /** The bits set are the metadata blocks, the owned blocks and the pending ones, without overlap. */
  ghost predicate Bitmap(sb: Super, bits: seq<bool>, owner: map<nat, (nat, nat)>, pend: set<nat>)
  {
    && |bits| == sb.size && pend !! owner.Keys
    && (forall b :: b in pend ==> sb.datastart <= b < sb.size)
    && (forall b :: 0 <= b < sb.size ==> (bits[b] <==> b < sb.datastart || b in owner || b in pend))
  }

  /** Every block index below ceil(n / BSIZE) is allocated. */
  ghost predicate MappedTo(f: File, n: nat)
    requires Shape(f)
  {
    n <= MAXFILE * BSIZE && forall bn :: 0 <= bn < MAXFILE && bn * BSIZE < n ==> Slot(f, SlotOf(bn)) != 0
  }

  ghost predicate Mapped(files: seq<File>)
  {
    forall i :: 0 <= i < |files| ==> Shape(files[i]) && MappedTo(files[i], files[i].size)
  }

  ghost predicate Good(sb: Super, s: Fs)
  {
    && BitsRepr(sb, s.d, s.bits) && InosRepr(sb, s.d, s.dinos) && IndRepr(s.d, s.files)
    && Owned(sb, s.files, s.owner) && Bitmap(sb, s.bits, s.owner, s.pend) && Mapped(s.files)
  }

  // ---------------------------------------------------------------- contents

  function ByteAt(s: Fs, i: nat, off: nat): Byte
    requires i < |s.files| && Shape(s.files[i]) && off < MAXFILE * BSIZE
  {
    var b := Slot(s.files[i], SlotOf(off / BSIZE));
    if b < |s.d| then s.d[b][off % BSIZE] else 0
  }

  /** The file as its readers see it. */
  function Content(s: Fs, i: nat): (r: seq<Byte>)
    requires i < |s.files| && Shape(s.files[i]) && s.files[i].size <= MAXFILE * BSIZE
    ensures |r| == s.files[i].size
  {
    Bytes(s, i, s.files[i].size)
  }

  function Bytes(s: Fs, i: nat, n: nat): (r: seq<Byte>)
    requires i < |s.files| && Shape(s.files[i]) && n <= MAXFILE * BSIZE
    ensures |r| == n
  {
    if n == 0 then [] else Bytes(s, i, n - 1) + [ByteAt(s, i, n - 1)]
  }

  lemma {:induction false} BytesAt(s: Fs, i: nat, n: nat, o: nat)
    requires i < |s.files| && Shape(s.files[i]) && o < n <= MAXFILE * BSIZE
    ensures Bytes(s, i, n)[o] == ByteAt(s, i, o)
  {
    if o < n - 1 {
      BytesAt(s, i, n - 1, o);
    }
  }

  lemma {:induction false} BytesAgree(s: Fs, t: Fs, i: nat, n: nat)
    requires i < |s.files| && Shape(s.files[i]) && i < |t.files| && Shape(t.files[i]) && n <= MAXFILE * BSIZE
    requires forall o :: 0 <= o < n ==> ByteAt(t, i, o) == ByteAt(s, i, o)
    ensures Bytes(t, i, n) == Bytes(s, i, n)
  {
    if n > 0 {
      BytesAgree(s, t, i, n - 1);
    }
  }

  /** `new` laid over `old` from `off` on. */
  function Splice(old_: seq<Byte>, off: nat, new_: seq<Byte>): seq<Byte>
    requires off <= |old_|
  {
    if off + |new_| >= |old_| then old_[..off] + new_ else old_[..off] + new_ + old_[off + |new_|..]
  }

  // ---------------------------------------------------------------- single-block updates

  lemma {:induction false} ZeroAddrs(at: nat, n: nat)
    requires at + n <= WORDS
    ensures GetAddrs(ZERO, at, n) == Zeros(n)
  {
    if n > 0 {
      ZeroAddrs(at, n - 1);
      assert Zeros(n) == Zeros(n - 1) + [0];
    }
  }

  lemma {:induction false} SetEntry(b: Block, j: nat, v: Uint, n: nat)
    requires j < NINDIRECT && n <= NINDIRECT
    ensures GetAddrs(SetWord(b, j, v), 0, n) == if j < n then GetAddrs(b, 0, n)[j := v] else GetAddrs(b, 0, n)
  {
    if n > 0 {
      SetEntry(b, j, v, n - 1);
      WordOfSetWord(b, j, v, n - 1);
    }
  }

  /** A write outside the bitmap, outside the inode blocks, or to no inode's indirect block. */
  lemma BitsUntouched(sb: Super, d: seq<Block>, bits: seq<bool>, a: nat, v: Block)
    requires BitsRepr(sb, d, bits) && a < sb.size && (a < sb.bmapstart || sb.datastart <= a)
    ensures BitsRepr(sb, d[a := v], bits)
  {
    forall b | 0 <= b < sb.size ensures DiskBit(d[a := v], sb, b) == DiskBit(d, sb, b) {
      assert sb.BBlock(b) != a;
    }
  }

  lemma InosUntouched(sb: Super, d: seq<Block>, dinos: seq<Ino>, a: nat, v: Block)
    requires InosRepr(sb, d, dinos) && sb.bmapstart <= a < sb.size
    ensures InosRepr(sb, d[a := v], dinos)
  {
    forall i | 0 <= i < sb.ninodes ensures DiskIno(d[a := v], sb, i) == DiskIno(d, sb, i) {
      assert sb.IBlock(i) != a;
    }
  }

  lemma IndUntouched(d: seq<Block>, files: seq<File>, a: nat, v: Block)
    requires IndRepr(d, files) && a < |d| && forall i :: 0 <= i < |files| ==> files[i].addrs[NDIRECT] != a
    ensures IndRepr(d[a := v], files)
  {
  }

  lemma IndirectOwner(sb: Super, files: seq<File>, owner: map<nat, (nat, nat)>, i: nat)
    requires Owned(sb, files, owner) && i < |files| && files[i].addrs[NDIRECT] != 0
    ensures var a := files[i].addrs[NDIRECT]; sb.datastart <= a < sb.size && a in owner && owner[a] == (i, NDIRECT)
  {
    assert Slot(files[i], NDIRECT) == files[i].addrs[NDIRECT];
  }

  /** A block that is not some inode's indirect block is not the indirect block of any. */
  lemma NotIndirect(sb: Super, files: seq<File>, owner: map<nat, (nat, nat)>, a: nat)
    requires Owned(sb, files, owner) && a != 0 && (a in owner ==> owner[a].1 != NDIRECT)
    ensures forall i :: 0 <= i < |files| ==> files[i].addrs[NDIRECT] != a
  {
    forall i | 0 <= i < |files| ensures files[i].addrs[NDIRECT] != a {
      if files[i].addrs[NDIRECT] == a {
        IndirectOwner(sb, files, owner, i);
      }
    }
  }

  // ---------------------------------------------------------------- bytes kept

  /** Every allocated data block of every file is where it was and holds what it held. */
  ghost predicate SameBytes(d: seq<Block>, files: seq<File>, d': seq<Block>, files': seq<File>)
  {
    && |files| == |files'| && |d| == |d'| && Shapes(files) && Shapes(files')
    && (forall i :: 0 <= i < |files| ==> files'[i].size == files[i].size)
    && (forall i, k :: 0 <= i < |files| && 0 <= k < SLOTS && k != NDIRECT && Slot(files[i], k) != 0 ==>
          Slot(files'[i], k) == Slot(files[i], k) < |d| && d'[Slot(files[i], k)] == d[Slot(files[i], k)])
  }

  ghost predicate KeepsBytes(s: Fs, t: Fs) { SameBytes(s.d, s.files, t.d, t.files) }

  lemma KeepsContent(sb: Super, s: Fs, t: Fs, i: nat)
    requires Good(sb, s) && KeepsBytes(s, t) && i < sb.ninodes
    ensures Content(t, i) == Content(s, i)
  {
    forall o | 0 <= o < s.files[i].size ensures ByteAt(t, i, o) == ByteAt(s, i, o) {
      assert o / BSIZE * BSIZE <= o;
      assert Slot(s.files[i], SlotOf(o / BSIZE)) != 0;
    }
    BytesAgree(s, t, i, s.files[i].size);
  }

  /** A block that no data slot refers to can change without any file noticing. */
  lemma OneBlockKeepsBytes(sb: Super, d: seq<Block>, files: seq<File>, owner: map<nat, (nat, nat)>, a: nat, v: Block)
    requires Owned(sb, files, owner) && |d| == sb.size && a < sb.size && (a in owner ==> owner[a].1 == NDIRECT)
    ensures SameBytes(d, files, d[a := v], files)
  {
    forall i, k | 0 <= i < |files| && 0 <= k < SLOTS && k != NDIRECT && Slot(files[i], k) != 0
      ensures Slot(files[i], k) < |d| && d[a := v][Slot(files[i], k)] == d[Slot(files[i], k)]
    {
      var b := Slot(files[i], k);
      assert b in owner && owner[b] == (i, k);
    }
  }

  // ---------------------------------------------------------------- operations

  function Mark(sb: Super, s: Fs, b: nat): Fs
    requires sb.Valid() && |s.d| == |s.bits| == sb.size && b < sb.size
  {
    s.(d := WriteBit(s.d, sb, b, true), bits := s.bits[b := true], pend := s.pend + {b})
  }

  function Unmark(sb: Super, s: Fs, b: nat): Fs
    requires sb.Valid() && |s.d| == |s.bits| == sb.size && b < sb.size
  {
    s.(d := WriteBit(s.d, sb, b, false), bits := s.bits[b := false], pend := s.pend - {b})
  }

  lemma BitWritten(sb: Super, d: seq<Block>, bits: seq<bool>, b: nat, v: bool)
    requires BitsRepr(sb, d, bits) && b < sb.size
    ensures BitsRepr(sb, WriteBit(d, sb, b, v), bits[b := v])
  {
    forall x | 0 <= x < sb.size ensures bits[b := v][x] == DiskBit(WriteBit(d, sb, b, v), sb, x) {
      WriteBitBits(d, sb, b, v, x);
    }
  }

  lemma BitmapWrite(sb: Super, s: Fs, a: nat, v: Block)
    requires Good(sb, s) && sb.bmapstart <= a < sb.datastart
    ensures InosRepr(sb, s.d[a := v], s.dinos) && IndRepr(s.d[a := v], s.files) && KeepsBytes(s, s.(d := s.d[a := v]))
  {
    assert a !in s.owner;
    InosUntouched(sb, s.d, s.dinos, a, v);
    assert IndRepr(s.d[a := v], s.files) by {
      NotIndirect(sb, s.files, s.owner, a);
      IndUntouched(s.d, s.files, a, v);
    }
    OneBlockKeepsBytes(sb, s.d, s.files, s.owner, a, v);
  }

  /** Flipping one bitmap bit touches neither inodes nor file blocks. */
  lemma BitWriteKeeps(sb: Super, s: Fs, b: nat, v: bool)
    requires Good(sb, s) && b < sb.size
    ensures var d := WriteBit(s.d, sb, b, v);
      && BitsRepr(sb, d, s.bits[b := v]) && InosRepr(sb, d, s.dinos) && IndRepr(d, s.files) && KeepsBytes(s, s.(d := d))
  {
    BitWritten(sb, s.d, s.bits, b, v);
    BitmapWrite(sb, s, sb.BBlock(b), PutBit(s.d[sb.BBlock(b)], b % BPB, v));
  }

  lemma MarkKeeps(sb: Super, s: Fs, b: nat)
    requires Good(sb, s) && b < sb.size && !s.bits[b]
    ensures Good(sb, Mark(sb, s, b)) && KeepsBytes(s, Mark(sb, s, b))
  {
    BitWriteKeeps(sb, s, b, true);
    assert Bitmap(sb, s.bits[b := true], s.owner, s.pend + {b});
  }

  lemma UnmarkKeeps(sb: Super, s: Fs, b: nat)
    requires Good(sb, s) && b in s.pend
    ensures b < sb.size && Good(sb, Unmark(sb, s, b)) && KeepsBytes(s, Unmark(sb, s, b))
  {
    BitWriteKeeps(sb, s, b, false);
    assert Bitmap(sb, s.bits[b := false], s.owner, s.pend - {b});
  }

  /** Overwriting a block of the data area that is not an indirect block. */
  lemma PlainWriteKeeps(sb: Super, s: Fs, a: nat, v: Block)
    requires Good(sb, s) && sb.datastart <= a < sb.size && (a in s.owner ==> s.owner[a].1 != NDIRECT)
    ensures Good(sb, s.(d := s.d[a := v]))
  {
    BitsUntouched(sb, s.d, s.bits, a, v);
    InosUntouched(sb, s.d, s.dinos, a, v);
    NotIndirect(sb, s.files, s.owner, a);
    IndUntouched(s.d, s.files, a, v);
  }

  lemma ZeroKeeps(sb: Super, s: Fs, b: nat)
    requires Good(sb, s) && b in s.pend
    ensures b < |s.d| && Good(sb, s.(d := s.d[b := ZERO])) && KeepsBytes(s, s.(d := s.d[b := ZERO]))
  {
    PlainWriteKeeps(sb, s, b, ZERO);
    OneBlockKeepsBytes(sb, s.d, s.files, s.owner, b, ZERO);
  }

  lemma StoredSlot(files: seq<File>, i: nat, k: nat, b: Uint, x: nat, j: nat)
    requires Shapes(files) && i < |files| && k < SLOTS && x < |files| && j < SLOTS
    ensures Shapes(files[i := WithSlot(files[i], k, b)])
    ensures Slot(files[i := WithSlot(files[i], k, b)][x], j) == if x == i && j == k then b else Slot(files[x], j)
  {
  }

  lemma NewOwnerBack(sb: Super, files: seq<File>, owner: map<nat, (nat, nat)>, i: nat, k: nat, b: Uint, c: nat)
    requires sb.Valid() && Owned(sb, files, owner) && i < |files| && k < SLOTS && Slot(files[i], k) == 0 && c in owner
    ensures sb.datastart <= c < sb.size && owner[c].0 < |files| && owner[c].1 < SLOTS
    ensures Shapes(files[i := WithSlot(files[i], k, b)])
    ensures Slot(files[i := WithSlot(files[i], k, b)][owner[c].0], owner[c].1) == c
  {
    StoredSlot(files, i, k, b, owner[c].0, owner[c].1);
  }

  lemma NewOwnerForth(sb: Super, files: seq<File>, owner: map<nat, (nat, nat)>, i: nat, k: nat, b: Uint, x: nat, j: nat)
    requires Owned(sb, files, owner) && i < |files| && k < SLOTS && b !in owner && x < |files| && j < SLOTS
    ensures Shapes(files[i := WithSlot(files[i], k, b)])
    ensures var c, ow := Slot(files[i := WithSlot(files[i], k, b)][x], j), owner[b := (i, k)];
      c != 0 ==> c in ow && ow[c] == (x, j)
  {
    StoredSlot(files, i, k, b, x, j);
  }

  lemma NewOwner(sb: Super, files: seq<File>, owner: map<nat, (nat, nat)>, i: nat, k: nat, b: Uint)
    requires sb.Valid() && Owned(sb, files, owner) && i < |files| && k < SLOTS && Slot(files[i], k) == 0
    requires b !in owner && b != 0 && sb.datastart <= b < sb.size
    ensures Owned(sb, files[i := WithSlot(files[i], k, b)], owner[b := (i, k)])
  {
    var fs, ow := files[i := WithSlot(files[i], k, b)], owner[b := (i, k)];
    StoredSlot(files, i, k, b, i, k);
    forall x, j | 0 <= x < |fs| && 0 <= j < SLOTS && Slot(fs[x], j) != 0
      ensures Slot(fs[x], j) in ow && ow[Slot(fs[x], j)] == (x, j)
    {
      NewOwnerForth(sb, files, owner, i, k, b, x, j);
    }
    forall c | c in ow
      ensures sb.datastart <= c < sb.size && ow[c].0 < |fs| && ow[c].1 < SLOTS && Slot(fs[ow[c].0], ow[c].1) == c
    {
      if c != b {
        NewOwnerBack(sb, files, owner, i, k, b, c);
      }
    }
  }

  lemma StoreKeepsBytes(s: Fs, t: Fs, i: nat, k: nat, b: Uint)
    requires KeepsBytes(s, s.(d := t.d)) && i < |s.files| && k < SLOTS && Slot(s.files[i], k) == 0
    requires t.files == s.files[i := WithSlot(s.files[i], k, b)]
    ensures KeepsBytes(s, t)
  {
  }

  lemma NewOwnerBitmap(sb: Super, bits: seq<bool>, owner: map<nat, (nat, nat)>, pend: set<nat>, i: nat, k: nat, b: nat)
    requires Bitmap(sb, bits, owner, pend) && b in pend
    ensures Bitmap(sb, bits, owner[b := (i, k)], pend - {b})
  {
  }

  lemma NewOwnerMapped(files: seq<File>, i: nat, k: nat, b: Uint)
    requires Mapped(files) && i < |files| && k < SLOTS && b != 0
    ensures Mapped(files[i := WithSlot(files[i], k, b)])
  {
  }

  /** bmap stores a fresh block in an address of the inode. */
  function StoreAddr(s: Fs, i: nat, k: nat, b: nat): Fs
    requires i < |s.files| && Shape(s.files[i]) && k <= NDIRECT && b <= UINT_MAX
  {
    s.(files := s.files[i := WithSlot(s.files[i], k, b)], owner := s.owner[b := (i, k)], pend := s.pend - {b})
  }

  lemma StoreAddrKeeps(sb: Super, s: Fs, i: nat, k: nat, b: nat)
    requires Good(sb, s) && i < sb.ninodes && k <= NDIRECT && Slot(s.files[i], k) == 0
    requires b in s.pend && (k == NDIRECT ==> b < |s.d| && s.d[b] == ZERO)
    ensures b <= UINT_MAX && Good(sb, StoreAddr(s, i, k, b)) && KeepsBytes(s, StoreAddr(s, i, k, b))
  {
    NewOwner(sb, s.files, s.owner, i, k, b);
    NewOwnerBitmap(sb, s.bits, s.owner, s.pend, i, k, b);
    NewOwnerMapped(s.files, i, k, b);
    if k == NDIRECT {
      ZeroAddrs(0, NINDIRECT);
    }
    assert IndRepr(s.d, s.files[i := WithSlot(s.files[i], k, b)]);
  }

  /** bmap stores a fresh block in the indirect block. */
  function StoreEntry(s: Fs, i: nat, j: nat, b: nat): Fs
    requires i < |s.files| && Shape(s.files[i]) && j < NINDIRECT && b <= UINT_MAX && s.files[i].addrs[NDIRECT] < |s.d|
  {
    var a := s.files[i].addrs[NDIRECT];
    s.(d := s.d[a := SetWord(s.d[a], j, b)],
       files := s.files[i := WithSlot(s.files[i], NDIRECT + 1 + j, b)],
       owner := s.owner[b := (i, NDIRECT + 1 + j)], pend := s.pend - {b})
  }

  lemma EntryWritten(sb: Super, s: Fs, i: nat, j: nat, b: Uint)
    requires Good(sb, s) && i < sb.ninodes && j < NINDIRECT && s.files[i].addrs[NDIRECT] != 0
    ensures s.files[i].addrs[NDIRECT] < |s.d|
    ensures var a := s.files[i].addrs[NDIRECT];
      IndRepr(s.d[a := SetWord(s.d[a], j, b)], s.files[i := WithSlot(s.files[i], NDIRECT + 1 + j, b)])
  {
    IndirectOwner(sb, s.files, s.owner, i);
    var a := s.files[i].addrs[NDIRECT];
    SetEntry(s.d[a], j, b, NINDIRECT);
    var d, fs := s.d[a := SetWord(s.d[a], j, b)], s.files[i := WithSlot(s.files[i], NDIRECT + 1 + j, b)];
    forall x | 0 <= x < |fs| && x != i ensures fs[x].ind == Entries(d, fs[x].addrs[NDIRECT]) {
      if fs[x].addrs[NDIRECT] != 0 {
        IndirectOwner(sb, s.files, s.owner, x);
      }
    }
  }

  lemma StoreEntryKeeps(sb: Super, s: Fs, i: nat, j: nat, b: nat)
    requires Good(sb, s) && i < sb.ninodes && j < NINDIRECT && s.files[i].addrs[NDIRECT] != 0
    requires s.files[i].ind[j] == 0 && b in s.pend
    ensures b <= UINT_MAX && s.files[i].addrs[NDIRECT] < |s.d| && Good(sb, StoreEntry(s, i, j, b))
  {
    IndirectOwner(sb, s.files, s.owner, i);
    var a, k := s.files[i].addrs[NDIRECT], NDIRECT + 1 + j;
    assert Slot(s.files[i], k) == 0;
    NewOwner(sb, s.files, s.owner, i, k, b);
    NewOwnerBitmap(sb, s.bits, s.owner, s.pend, i, k, b);
    NewOwnerMapped(s.files, i, k, b);
    EntryWritten(sb, s, i, j, b);
    IndirectWrite(sb, s, a, SetWord(s.d[a], j, b));
  }

  lemma StoreEntryBytes(sb: Super, s: Fs, i: nat, j: nat, b: Uint)
    requires Good(sb, s) && i < sb.ninodes && j < NINDIRECT && s.files[i].addrs[NDIRECT] != 0 && s.files[i].ind[j] == 0
    ensures s.files[i].addrs[NDIRECT] < |s.d| && KeepsBytes(s, StoreEntry(s, i, j, b))
  {
    IndirectOwner(sb, s.files, s.owner, i);
    var a := s.files[i].addrs[NDIRECT];
    OneBlockKeepsBytes(sb, s.d, s.files, s.owner, a, SetWord(s.d[a], j, b));
    StoreKeepsBytes(s, StoreEntry(s, i, j, b), i, NDIRECT + 1 + j, b);
  }

  lemma IndirectWrite(sb: Super, s: Fs, a: nat, v: Block)
    requires Good(sb, s) && a in s.owner && s.owner[a].1 == NDIRECT
    ensures a < |s.d| && BitsRepr(sb, s.d[a := v], s.bits) && InosRepr(sb, s.d[a := v], s.dinos)
  {
    BitsUntouched(sb, s.d, s.bits, a, v);
    InosUntouched(sb, s.d, s.dinos, a, v);
  }

  /** A block of file data is overwritten: only the file that owns it changes, and only there. */
  lemma DataWriteKeeps(sb: Super, s: Fs, i: nat, k: nat, v: Block)
    requires Good(sb, s) && i < sb.ninodes && k < SLOTS && k != NDIRECT && Slot(s.files[i], k) != 0
    ensures var a := Slot(s.files[i], k); sb.datastart <= a < |s.d| && Good(sb, s.(d := s.d[a := v]))
  {
    var a := Slot(s.files[i], k);
    assert a in s.owner && s.owner[a] == (i, k);
    PlainWriteKeeps(sb, s, a, v);
  }

  lemma DataWriteBytes(sb: Super, s: Fs, i: nat, k: nat, v: Block, x: nat, o: nat)
    requires Good(sb, s) && i < sb.ninodes && k < SLOTS && k != NDIRECT && Slot(s.files[i], k) != 0
    requires x < sb.ninodes && o < MAXFILE * BSIZE && Slot(s.files[x], SlotOf(o / BSIZE)) != 0
    ensures Slot(s.files[i], k) < |s.d|
    ensures ByteAt(s.(d := s.d[Slot(s.files[i], k) := v]), x, o)
            == if x == i && SlotOf(o / BSIZE) == k then v[o % BSIZE] else ByteAt(s, x, o)
  {
    var a, b := Slot(s.files[i], k), Slot(s.files[x], SlotOf(o / BSIZE));
    assert s.owner[a] == (i, k) && s.owner[b] == (x, SlotOf(o / BSIZE));
  }

  lemma DataWriteOthers(sb: Super, s: Fs, i: nat, k: nat, v: Block, x: nat)
    requires Good(sb, s) && i < sb.ninodes && k < SLOTS && k != NDIRECT && Slot(s.files[i], k) != 0
    requires x < sb.ninodes && x != i
    ensures Slot(s.files[i], k) < |s.d| && Content(s.(d := s.d[Slot(s.files[i], k) := v]), x) == Content(s, x)
  {
    var t := s.(d := s.d[Slot(s.files[i], k) := v]);
    forall o | 0 <= o < s.files[x].size ensures ByteAt(t, x, o) == ByteAt(s, x, o) {
      assert o / BSIZE * BSIZE <= o;
      DataWriteBytes(sb, s, i, k, v, x, o);
    }
    BytesAgree(s, t, x, s.files[x].size);
  }

  /** iupdate: the disk inode becomes the in-memory one. */
  function Sync(sb: Super, s: Fs, i: nat): Fs
    requires sb.Valid() && |s.d| == sb.size && i < sb.ninodes && |s.dinos| == |s.files| == sb.ninodes
        && Shape(s.files[i])
  {
    var ino := Ino(s.files[i].size, s.files[i].addrs);
    s.(d := WriteIno(s.d, sb, i, ino), dinos := s.dinos[i := ino])
  }

  lemma InoWritten(sb: Super, d: seq<Block>, dinos: seq<Ino>, i: nat, ino: Ino)
    requires InosRepr(sb, d, dinos) && i < sb.ninodes && InoShape(ino)
    ensures InosRepr(sb, WriteIno(d, sb, i, ino), dinos[i := ino])
  {
    forall x | 0 <= x < sb.ninodes ensures dinos[i := ino][x] == DiskIno(WriteIno(d, sb, i, ino), sb, x) {
      WriteInoInos(d, sb, i, ino, x);
    }
  }

  lemma InodeWrite(sb: Super, s: Fs, a: nat, v: Block)
    requires Good(sb, s) && 0 < a < sb.bmapstart
    ensures BitsRepr(sb, s.d[a := v], s.bits) && IndRepr(s.d[a := v], s.files)
  {
    assert a < sb.datastart && a !in s.owner;
    BitsUntouched(sb, s.d, s.bits, a, v);
    assert IndRepr(s.d[a := v], s.files) by {
      NotIndirect(sb, s.files, s.owner, a);
      IndUntouched(s.d, s.files, a, v);
    }
  }

  lemma SyncKeeps(sb: Super, s: Fs, i: nat)
    requires Good(sb, s) && i < sb.ninodes
    ensures Good(sb, Sync(sb, s, i))
  {
    var ino := Ino(s.files[i].size, s.files[i].addrs);
    InoWritten(sb, s.d, s.dinos, i, ino);
    InodeWrite(sb, s, sb.IBlock(i), PutDinode(s.d[sb.IBlock(i)], DinodeAt(i), ino));
  }

  lemma SyncBytes(sb: Super, s: Fs, i: nat)
    requires Good(sb, s) && i < sb.ninodes
    ensures KeepsBytes(s, Sync(sb, s, i))
  {
    var a := sb.IBlock(i);
    assert a < sb.datastart && a !in s.owner;
    OneBlockKeepsBytes(sb, s.d, s.files, s.owner, a,
        PutDinode(s.d[a], DinodeAt(i), Ino(s.files[i].size, s.files[i].addrs)));
  }

  /** The inode lets go of all its blocks at once; itrunc then frees them one by one. */
  function Disown(s: Fs, i: nat): Fs
    requires i < |s.files|
  {
    s.(files := s.files[i := File(0, Zeros(NDIRECT + 1), Zeros(NINDIRECT))],
       owner := map b | b in s.owner && s.owner[b].0 != i :: s.owner[b],
       pend := s.pend + set b | b in s.owner && s.owner[b].0 == i)
  }

  lemma DisownOwned(sb: Super, s: Fs, i: nat)
    requires Good(sb, s) && i < sb.ninodes
    ensures Owned(sb, Disown(s, i).files, Disown(s, i).owner)
  {
    var t := Disown(s, i);
    forall k | 0 <= k < SLOTS ensures Slot(t.files[i], k) == 0 {}
    forall x, k | 0 <= x < |t.files| && 0 <= k < SLOTS && Slot(t.files[x], k) != 0
      ensures Slot(t.files[x], k) in t.owner && t.owner[Slot(t.files[x], k)] == (x, k)
    {
      assert x != i && Slot(s.files[x], k) == Slot(t.files[x], k);
    }
  }

  lemma DisownKeeps(sb: Super, s: Fs, i: nat)
    requires Good(sb, s) && i < sb.ninodes
    ensures Good(sb, Disown(s, i))
  {
    DisownOwned(sb, s, i);
  }

  lemma DisownOthers(sb: Super, s: Fs, i: nat, x: nat)
    requires Good(sb, s) && i < sb.ninodes && x < sb.ninodes && x != i
    ensures Content(Disown(s, i), x) == Content(s, x)
  {
    var t := Disown(s, i);
    forall o | 0 <= o < s.files[x].size ensures ByteAt(t, x, o) == ByteAt(s, x, o) {}
    BytesAgree(s, t, x, s.files[x].size);
  }
}
