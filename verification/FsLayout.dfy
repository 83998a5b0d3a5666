/** Bytes of the on-disk file system: bitmap bits and disk inodes, and what one update changes. */
module FsLayout {
  import opened Disk

  const NDIRECT: nat := 12
  const NINDIRECT: nat := WORDS
  const MAXFILE: nat := NDIRECT + NINDIRECT
  const BPB: nat := BSIZE * 8
  const IPB: nat := 8
  const DWORDS: nat := 16

  /** Metadata runs up to `datastart`: boot, super block, log, inode blocks, bitmap. */
  datatype Super = Super(size: nat, ninodes: nat, inodestart: nat, bmapstart: nat, datastart: nat) {
    predicate Valid()
    {
      && 2 <= inodestart && inodestart + ninodes / IPB + 1 <= bmapstart
      && bmapstart + size / BPB + 1 <= datastart <= size <= UINT_MAX
    }
    function BBlock(b: nat): (r: nat)
      ensures Valid() && b < size ==> bmapstart <= r < datastart
    {
      b / BPB + bmapstart
    }
    function IBlock(i: nat): (r: nat)
      ensures Valid() && i < ninodes ==> inodestart <= r < bmapstart
    {
      i / IPB + inodestart
    }
  }

  /** Bit `k` of a byte, the byte with that bit or-ed in, and with it masked out. */
  predicate BitOf(x: nat, k: nat) { if k == 0 then x % 2 == 1 else BitOf(x / 2, k - 1) }

  function OrBit(x: nat, k: nat): nat { if k == 0 then x / 2 * 2 + 1 else 2 * OrBit(x / 2, k - 1) + x % 2 }

  function MaskBit(x: nat, k: nat): nat { if k == 0 then x / 2 * 2 else 2 * MaskBit(x / 2, k - 1) + x % 2 }

  function Pow2(k: nat): nat { if k == 0 then 1 else 2 * Pow2(k - 1) }

  lemma {:induction false} OrBitRange(x: nat, k: nat, w: nat)
    requires k < w && x < Pow2(w)
    ensures OrBit(x, k) < Pow2(w) && MaskBit(x, k) < Pow2(w)
  {
    if k > 0 {
      OrBitRange(x / 2, k - 1, w - 1);
    }
  }

  lemma {:induction false} OrBitBits(x: nat, k: nat, j: nat)
    ensures BitOf(OrBit(x, k), j) <==> j == k || BitOf(x, j)
    ensures BitOf(MaskBit(x, k), j) <==> j != k && BitOf(x, j)
  {
    if k > 0 {
      assert OrBit(x, k) / 2 == OrBit(x / 2, k - 1) && OrBit(x, k) % 2 == x % 2;
      assert MaskBit(x, k) / 2 == MaskBit(x / 2, k - 1) && MaskBit(x, k) % 2 == x % 2;
      if j > 0 {
        OrBitBits(x / 2, k - 1, j - 1);
      }
    } else if j > 0 {
      assert OrBit(x, 0) / 2 == x / 2 == MaskBit(x, 0) / 2;
    }
  }

  function ByteOr(x: Byte, k: nat): Byte
    requires k < 8
  {
    assert Pow2(8) == 256;
    OrBitRange(x, k, 8); OrBit(x, k)
  }

  function ByteMask(x: Byte, k: nat): Byte
    requires k < 8
  {
    assert Pow2(8) == 256;
    OrBitRange(x, k, 8); MaskBit(x, k)
  }

  /** Bit `bi` of a bitmap block: `data[bi/8] & (1 << (bi % 8))`. */
  predicate BlockBit(b: Block, bi: nat)
    requires bi < BPB
  {
    BitOf(b[bi / 8], bi % 8)
  }

  function PutBit(b: Block, bi: nat, v: bool): Block
    requires bi < BPB
  {
    b[bi / 8 := if v then ByteOr(b[bi / 8], bi % 8) else ByteMask(b[bi / 8], bi % 8)]
  }

  lemma PutBitBits(b: Block, bi: nat, v: bool, x: nat)
    requires bi < BPB && x < BPB
    ensures BlockBit(PutBit(b, bi, v), x) <==> if x == bi then v else BlockBit(b, x)
  {
    if x / 8 == bi / 8 {
      OrBitBits(b[bi / 8], bi % 8, x % 8);
    }
  }

  // ---------------------------------------------------------------- whole disk

  predicate DiskBit(d: seq<Block>, sb: Super, b: nat)
    requires sb.Valid() && |d| == sb.size && b < sb.size
  {
    BlockBit(d[sb.BBlock(b)], b % BPB)
  }

  function WriteBit(d: seq<Block>, sb: Super, b: nat, v: bool): (r: seq<Block>)
    requires sb.Valid() && |d| == sb.size && b < sb.size
    ensures |r| == |d|
  {
    d[sb.BBlock(b) := PutBit(d[sb.BBlock(b)], b % BPB, v)]
  }

  lemma WriteBitBits(d: seq<Block>, sb: Super, b: nat, v: bool, x: nat)
    requires sb.Valid() && |d| == sb.size && b < sb.size && x < sb.size
    ensures DiskBit(WriteBit(d, sb, b, v), sb, x) <==> if x == b then v else DiskBit(d, sb, x)
  {
    if sb.BBlock(x) == sb.BBlock(b) {
      PutBitBits(d[sb.BBlock(b)], b % BPB, v, x % BPB);
    }
  }

  /** The part of an inode that the block layer uses; addrs[NDIRECT] is the indirect block. */
  datatype Ino = Ino(size: Uint, addrs: seq<Uint>)

  predicate InoShape(i: Ino) { |i.addrs| == NDIRECT + 1 }

  /** First word of disk inode `i` in its block: type/major, minor/nlink, size, 13 addresses. */
  function DinodeAt(i: nat): nat { i % IPB * DWORDS }

  function GetAddrs(b: Block, at: nat, n: nat): (r: seq<Uint>)
    requires at + n <= WORDS
    ensures |r| == n
  {
    if n == 0 then [] else GetAddrs(b, at, n - 1) + [Word(b, at + n - 1)]
  }

  lemma {:induction false} GetAddrsAgree(a: Block, b: Block, at: nat, n: nat)
    requires at + n <= WORDS && forall j :: at <= j < at + n ==> Word(a, j) == Word(b, j)
    ensures GetAddrs(a, at, n) == GetAddrs(b, at, n)
  {
    if n > 0 {
      GetAddrsAgree(a, b, at, n - 1);
    }
  }

  lemma {:induction false} GetAddrsAre(b: Block, at: nat, addrs: seq<Uint>)
    requires at + |addrs| <= WORDS && forall k :: 0 <= k < |addrs| ==> Word(b, at + k) == addrs[k]
    ensures GetAddrs(b, at, |addrs|) == addrs
  {
    if addrs != [] {
      GetAddrsAre(b, at, addrs[..|addrs| - 1]);
      assert Word(b, at + (|addrs| - 1)) == addrs[|addrs| - 1];
    }
  }

  /** iupdate's stores of addrs[..n] into the dinode. */
  function PutAddrs(b: Block, at: nat, addrs: seq<Uint>): Block
    requires at + |addrs| <= WORDS
  {
    if addrs == [] then b
    else SetWord(PutAddrs(b, at, addrs[..|addrs| - 1]), at + |addrs| - 1, addrs[|addrs| - 1])
  }

  lemma {:induction false} PutAddrsWords(b: Block, at: nat, addrs: seq<Uint>, j: nat)
    requires at + |addrs| <= WORDS && j < WORDS
    ensures Word(PutAddrs(b, at, addrs), j) == if at <= j < at + |addrs| then addrs[j - at] else Word(b, j)
  {
    if addrs != [] {
      var a := addrs[..|addrs| - 1];
      PutAddrsWords(b, at, a, j);
      WordOfSetWord(PutAddrs(b, at, a), at + |addrs| - 1, addrs[|addrs| - 1], j);
    }
  }

  /** The dinode at word `at` of its block, read and rewritten. */
  function GetDinode(b: Block, at: nat): (r: Ino)
    requires at + DWORDS <= WORDS
    ensures InoShape(r)
  {
    Ino(Word(b, at + 2), GetAddrs(b, at + 3, NDIRECT + 1))
  }

  function PutDinode(b: Block, at: nat, ino: Ino): Block
    requires at + DWORDS <= WORDS && InoShape(ino)
  {
    PutAddrs(SetWord(b, at + 2, ino.size), at + 3, ino.addrs)
  }

  lemma PutDinodeWord(b: Block, at: nat, ino: Ino, j: nat)
    requires at + DWORDS <= WORDS && InoShape(ino) && j < WORDS
    ensures Word(PutDinode(b, at, ino), j)
      == if j == at + 2 then ino.size else if at + 3 <= j < at + DWORDS then ino.addrs[j - at - 3] else Word(b, j)
  {
    PutAddrsWords(SetWord(b, at + 2, ino.size), at + 3, ino.addrs, j);
    WordOfSetWord(b, at + 2, ino.size, j);
  }

  lemma GetPutDinode(b: Block, at: nat, ino: Ino)
    requires at + DWORDS <= WORDS && InoShape(ino)
    ensures GetDinode(PutDinode(b, at, ino), at) == ino
  {
    hide PutDinode, Word;
    var w := PutDinode(b, at, ino);
    PutDinodeWord(b, at, ino, at + 2);
    forall k | 0 <= k < |ino.addrs| ensures Word(w, at + 3 + k) == ino.addrs[k] {
      PutDinodeWord(b, at, ino, at + 3 + k);
    }
    GetAddrsAre(w, at + 3, ino.addrs);
  }

  lemma OtherDinode(b: Block, at: nat, ino: Ino, o: nat)
    requires at + DWORDS <= WORDS && InoShape(ino) && o + DWORDS <= WORDS && (o + DWORDS <= at || at + DWORDS <= o)
    ensures GetDinode(PutDinode(b, at, ino), o) == GetDinode(b, o)
  {
    hide PutDinode, Word;
    var w := PutDinode(b, at, ino);
    PutDinodeWord(b, at, ino, o + 2);
    forall j | o + 3 <= j < o + DWORDS ensures Word(w, j) == Word(b, j) {
      PutDinodeWord(b, at, ino, j);
    }
    GetAddrsAgree(w, b, o + 3, NDIRECT + 1);
  }

  function DiskIno(d: seq<Block>, sb: Super, i: nat): (r: Ino)
    requires sb.Valid() && |d| == sb.size && i < sb.ninodes
    ensures InoShape(r)
  {
    GetDinode(d[sb.IBlock(i)], DinodeAt(i))
  }

  function WriteIno(d: seq<Block>, sb: Super, i: nat, ino: Ino): (r: seq<Block>)
    requires sb.Valid() && |d| == sb.size && i < sb.ninodes && InoShape(ino)
    ensures |r| == |d|
  {
    d[sb.IBlock(i) := PutDinode(d[sb.IBlock(i)], DinodeAt(i), ino)]
  }

  lemma WriteInoInos(d: seq<Block>, sb: Super, i: nat, ino: Ino, x: nat)
    requires sb.Valid() && |d| == sb.size && i < sb.ninodes && x < sb.ninodes && InoShape(ino)
    ensures DiskIno(WriteIno(d, sb, i, ino), sb, x) == if x == i then ino else DiskIno(d, sb, x)
  {
    hide GetDinode, PutDinode;
    if x == i {
      GetPutDinode(d[sb.IBlock(i)], DinodeAt(i), ino);
    } else if sb.IBlock(x) == sb.IBlock(i) {
      OtherDinode(d[sb.IBlock(i)], DinodeAt(i), ino, DinodeAt(x));
    }
  }
}
