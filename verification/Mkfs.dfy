/** mkfs.c: the image that the file system starts from. */
module Mkfs {
  import opened Disk
  import opened FsLayout
  import opened FsSpec
  import opened FsRuns
  import FileSystem
  import FileIO
  import LogMachine
  import CrashSafe
  import AloneRuns

  /** mkfs.c's layout: boot and super block, log, inode blocks, bitmap, data. */
  function Layout(size: nat, nlog: nat, ninodes: nat): Super
  {
    Super(size, ninodes, 2 + nlog, 2 + nlog + ninodes / IPB + 1, 2 + nlog + ninodes / IPB + 1 + size / BPB + 1)
  }

  /** Exactly the first `n` bits of a bitmap block are set. */
  ghost predicate FirstBits(b: Block, n: nat) { forall x :: 0 <= x < BPB ==> (BlockBit(b, x) <==> x < n) }

  /** The loop of mkfs's balloc: the first `used` bits of a bitmap block. */
  method MarkUsed(used: nat) returns (buf: Block)
    requires used < BPB
    ensures FirstBits(buf, used)
  {
    buf := ZERO;
    ZeroBits(buf);
    var i := 0;
    while i < used
      invariant i <= used && FirstBits(buf, i)
    {
      ghost var old_ := buf;
      buf := buf[i / 8 := ByteOr(buf[i / 8], i % 8)];
      assert buf == PutBit(old_, i, true);
      forall x | 0 <= x < BPB ensures BlockBit(buf, x) <==> x < i + 1 {
        PutBitBits(old_, i, true, x);
      }
      i := i + 1;
    }
  }

  lemma {:induction false} ZeroBit(k: nat)
    ensures !BitOf(0, k)
  {
    if k > 0 {
      ZeroBit(k - 1);
    }
  }

  lemma ZeroBits(b: Block)
    requires b == ZERO
    ensures forall x :: 0 <= x < BPB ==> !BlockBit(b, x)
  {
    forall x | 0 <= x < BPB ensures !BlockBit(b, x) {
      ZeroBit(x % 8);
    }
  }

  const EMPTY_INODE: Ino := Ino(0, Zeros(NDIRECT + 1))
  const EMPTY_FILE: File := File(0, Zeros(NDIRECT + 1), Zeros(NINDIRECT))

  /** A file system on `d` with no block in use but the metadata. */
  function Empty(sb: Super, d: seq<Block>): Fs
  {
    Fs(d, BitsBelow(sb.datastart, sb.size), seq(sb.ninodes, _ => EMPTY_INODE), seq(sb.ninodes, _ => EMPTY_FILE),
       map[], {})
  }

  function BitsBelow(m: nat, n: nat): (r: seq<bool>)
    ensures |r| == n && forall b :: 0 <= b < n ==> r[b] == (b < m)
  {
    seq(n, b => b < m)
  }

  function NoBytes(n: nat): (r: seq<seq<Byte>>)
    ensures |r| == n && forall i :: 0 <= i < n ==> r[i] == []
  {
    if n == 0 then [] else NoBytes(n - 1) + [[]]
  }

  ghost predicate Blank(b: Block) { forall k :: 0 <= k < BSIZE ==> b[k] == 0 }

  /** Zero blocks, but for the super block and the first bitmap block. */
  ghost predicate Formatted(sb: Super, d: seq<Block>)
  {
    && sb.Valid() && |d| == sb.size && sb.datastart < BPB
    && (forall b :: 0 <= b < sb.size && b != 1 && b != sb.bmapstart ==> Blank(d[b]))
    && FirstBits(d[sb.bmapstart], sb.datastart)
  }

  lemma FormattedBits(sb: Super, d: seq<Block>)
    requires Formatted(sb, d)
    ensures BitsRepr(sb, d, Empty(sb, d).bits)
  {
    forall b | 0 <= b < sb.size ensures (b < sb.datastart) == DiskBit(d, sb, b) {
      if b >= BPB {
        assert sb.BBlock(b) > sb.bmapstart >= 2;
        assert d[sb.BBlock(b)] == ZERO;
        ZeroBits(d[sb.BBlock(b)]);
      }
    }
  }

  lemma FormattedInodes(sb: Super, d: seq<Block>)
    requires Formatted(sb, d)
    ensures InosRepr(sb, d, Empty(sb, d).dinos)
  {
    forall i | 0 <= i < sb.ninodes ensures DiskIno(d, sb, i) == EMPTY_INODE {
      assert d[sb.IBlock(i)] == ZERO;
      ZeroAddrs(DinodeAt(i) + 3, NDIRECT + 1);
    }
  }

  /** Such an image is a sound file system in which all files are empty. */
  lemma FormattedAtRest(sb: Super, d: seq<Block>)
    requires Formatted(sb, d)
    ensures AtRest(sb, Empty(sb, d), NoBytes(sb.ninodes))
  {
    var s := Empty(sb, d);
    FormattedBits(sb, d);
    FormattedInodes(sb, d);
    forall i | 0 <= i < |s.files| ensures s.files[i] == EMPTY_FILE {}
    assert Owned(sb, s.files, s.owner) by {
      forall k | 0 <= k < SLOTS ensures Slot(EMPTY_FILE, k) == 0 {}
    }
    assert Mapped(s.files);
    forall i | 0 <= i < |s.files| ensures Content(s, i) == [] {}
  }

  /** mkfs without files: zero the blocks, write super block and bitmap; `false` is the assertion in its balloc. */
  method Format(size: nat, nlog: nat, ninodes: nat, super: Block) returns (d: seq<Block>, ok: bool)
    requires Layout(size, nlog, ninodes).Valid()
    ensures var sb := Layout(size, nlog, ninodes);
      && (ok <==> sb.datastart < BPB)
      && (ok ==> AtRest(sb, Empty(sb, d), NoBytes(ninodes)) && (nlog >= 1 ==> CrashSafe.Mounted(sb, d)))
  {
    hide AtRest;
    var sb := Layout(size, nlog, ninodes);
    d := [];
    while |d| < size
      invariant |d| <= size && forall b :: 0 <= b < |d| ==> Blank(d[b])
    {
      d := d + [ZERO];
    }
    d := d[1 := super];
    ok := sb.datastart < BPB;
    if ok {
      var buf := MarkUsed(sb.datastart);
      d := d[sb.bmapstart := buf];
      FormattedAtRest(sb, d);
      if nlog >= 1 {
        assert d[2] == ZERO;
      }
    }
  }

  /** Every run of writes and truncations on a formatted image is one of those that survive crashes. */
  method FormatAndWrite(size: nat, nlog: nat, ninodes: nat, super: Block, cs: seq<Call>)
    returns (ok: bool, ghost states: seq<Fs>, ghost txns: seq<LogMachine.Txn>)
    requires Layout(size, nlog, ninodes).Valid() && nlog > MAXOPBLOCKS + 1
    requires forall k :: 0 <= k < |cs| ==> cs[k].i < ninodes && (cs[k].Write? ==> |cs[k].src| <= FileIO.CHUNK)
    ensures ok ==> var sb := Layout(size, nlog, ninodes);
      && Trail(sb, NoBytes(ninodes), cs, states, txns) && CrashSafe.Mounted(sb, states[0].d)
      && ((forall k :: 0 <= k < |cs| ==> cs[k].Write?) || FewBitmapBlocks(sb) ==> AloneRuns.AllFit(sb, txns))
  {
    hide Good, Trail, FewBitmapBlocks;
    var sb := Layout(size, nlog, ninodes);
    var d;
    states, txns := [], [];
    d, ok := Format(size, nlog, ninodes, super);
    if ok {
      var fs := new FileSystem.FileSystem(sb, Empty(sb, d), d);
      ok, states, txns := PerformAll(fs, cs, NoBytes(ninodes));
    }
  }
}
