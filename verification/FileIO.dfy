/** What one turn of writei's loop does to the bytes of the file, and the log budget of a chunk. */
module FileIO {
  import opened Disk
  import opened FsLayout
  import opened FsSpec
  import opened FileSystem

  /** Only inode `i` differs, and it has all blocks it had. */
  ghost predicate SlotsKept(x: seq<File>, y: seq<File>, i: nat)
  {
    && |x| == |y| && i < |x| && Shapes(x) && Shapes(y)
    && (forall j :: 0 <= j < |x| && j != i ==> y[j] == x[j])
    && (forall k :: 0 <= k < SLOTS && Slot(x[i], k) != 0 ==> Slot(y[i], k) == Slot(x[i], k))
  }

  lemma SlotsKeptOn(x: seq<File>, y: seq<File>, z: seq<File>, i: nat)
    requires SlotsKept(x, y, i) && SlotsKept(y, z, i)
    ensures SlotsKept(x, z, i)
  {
  }

  /** Parts of the state that writei must not disturb; up to offset `hi` within the old size, not even the inode. */
  ghost predicate Frame(s0: Fs, s: Fs, i: nat, hi: nat)
  {
    && i < |s0.files| == |s.files|
    && s.pend == s0.pend && s.dinos == s0.dinos && s.files == s0.files[i := s.files[i]]
    && s.files[i].size == s0.files[i].size && SlotsKept(s0.files, s.files, i)
    && (hi <= s0.files[i].size ==> s.files[i] == s0.files[i])
  }

  ghost predicate OthersKept(s0: Fs, s: Fs, i: nat)
  {
    && |s0.files| == |s.files| && Mapped(s0.files) && Mapped(s.files)
    && forall x :: 0 <= x < |s.files| && x != i ==> Content(s, x) == Content(s0, x)
  }

  /** `src[..tot]` is in place at offset `off`, and the old bytes around it are too. */
  ghost predicate InPlace(s0: Fs, s: Fs, i: nat, off: nat, src: seq<Byte>, tot: nat)
    requires i < |s0.files| && i < |s.files| && Shape(s0.files[i]) && Shape(s.files[i])
    requires tot <= |src| && off + tot <= MAXFILE * BSIZE && s0.files[i].size <= MAXFILE * BSIZE
  {
    forall y :: 0 <= y < off + tot || 0 <= y < s0.files[i].size ==>
      ByteAt(s, i, y) == if off <= y < off + tot then src[y - off] else ByteAt(s0, i, y)
  }

  /** writei started in `s0` and has copied `src[..tot]` to offset `off` of file `i`. */
  ghost predicate Written(s0: Fs, s: Fs, i: nat, off: nat, src: seq<Byte>, tot: nat, hi: nat)
  {
    && Frame(s0, s, i, hi) && OthersKept(s0, s, i)
    && off <= s0.files[i].size && tot <= |src| && off + |src| <= MAXFILE * BSIZE
    && MappedTo(s.files[i], off + tot) && InPlace(s0, s, i, off, src, tot)
  }

  lemma WrittenStart(sb: Super, s: Fs, i: nat, off: nat, src: seq<Byte>)
    requires Good(sb, s) && i < sb.ninodes && off <= s.files[i].size && off + |src| <= MAXFILE * BSIZE
    ensures Written(s, s, i, off, src, 0, off)
  {
  }

  lemma MappedByte(f: File, n: nat, y: nat)
    requires Shape(f) && MappedTo(f, n) && y < n
    ensures y < MAXFILE * BSIZE && Slot(f, SlotOf(y / BSIZE)) != 0
  {
    assert y / BSIZE * BSIZE <= y;
  }

  lemma ByteKept(s: Fs, t: Fs, i: nat, y: nat)
    requires KeepsBytes(s, t) && i < |s.files| && y < MAXFILE * BSIZE && Slot(s.files[i], SlotOf(y / BSIZE)) != 0
    ensures ByteAt(t, i, y) == ByteAt(s, i, y)
  {
  }

  lemma GrowsBytes(s0: Fs, s: Fs, m: Fs, i: nat, off: nat, src: seq<Byte>, tot: nat, hi: nat)
    requires Written(s0, s, i, off, src, tot, hi) && Grows(s, m, i)
    ensures InPlace(s0, m, i, off, src, tot)
  {
    forall y | 0 <= y < off + tot || 0 <= y < s0.files[i].size ensures ByteAt(m, i, y) == ByteAt(s, i, y) {
      MappedByte(s.files[i], if y < off + tot then off + tot else s.files[i].size, y);
      ByteKept(s, m, i, y);
    }
  }

  lemma GrowsOthers(sb: Super, s0: Fs, s: Fs, m: Fs, i: nat)
    requires Good(sb, s) && Good(sb, m) && OthersKept(s0, s, i) && KeepsBytes(s, m)
    ensures OthersKept(s0, m, i)
  {
    forall x | 0 <= x < |m.files| && x != i ensures Content(m, x) == Content(s0, x) {
      KeepsContent(sb, s, m, x);
    }
  }

  /** bmap has found or made the block for the next byte. */
  lemma WrittenGrows(sb: Super, s0: Fs, s: Fs, m: Fs, i: nat, off: nat, src: seq<Byte>, tot: nat, o: nat)
    requires Good(sb, s) && Good(sb, m) && Grows(s, m, i) && o == off + tot && Written(s0, s, i, off, src, tot, o)
        && tot < |src|
    requires Slot(s.files[i], SlotOf(o / BSIZE)) != 0 ==> m == s
    ensures Written(s0, m, i, off, src, tot, o + 1)
  {
    if o < s0.files[i].size {
      MappedByte(s.files[i], s.files[i].size, o);
    }
    GrowsBytes(s0, s, m, i, off, src, tot, o);
    GrowsOthers(sb, s0, s, m, i);
    GrowsMapped(s, m, i, o);
  }

  lemma GrowsMapped(s: Fs, m: Fs, i: nat, n: nat)
    requires Grows(s, m, i) && MappedTo(s.files[i], n)
    ensures MappedTo(m.files[i], n)
  {
  }

  /** The block `v` with `piece` copied in at `x`, as memmove leaves it. */
  function Overlay(v: Block, x: nat, piece: seq<Byte>): (r: Block)
    requires x + |piece| <= BSIZE
    ensures forall k :: 0 <= k < BSIZE ==> r[k] == if x <= k < x + |piece| then piece[k - x] else v[k]
  {
    v[..x] + piece + v[x + |piece|..]
  }

  lemma NextMapped(f: File, o: nat, n: nat)
    requires Shape(f) && MappedTo(f, o) && o < MAXFILE * BSIZE && Slot(f, SlotOf(o / BSIZE)) != 0
    requires n <= (o / BSIZE + 1) * BSIZE
    ensures n <= MAXFILE * BSIZE && MappedTo(f, n)
  {
    forall bn | 0 <= bn < MAXFILE && bn * BSIZE < n ensures Slot(f, SlotOf(bn)) != 0 {
      assert bn <= o / BSIZE;
      if bn < o / BSIZE {
        assert bn * BSIZE < o;
      }
    }
  }

  lemma SlotOfInjective(a: nat, b: nat)
    requires a < MAXFILE && b < MAXFILE
    ensures SlotOf(a) == SlotOf(b) <==> a == b
  {
  }

  lemma WithinBlock(o: nat, n: nat, y: nat)
    requires o % BSIZE + n <= BSIZE
    ensures o <= y < o + n ==> y / BSIZE == o / BSIZE && y % BSIZE == o % BSIZE + (y - o)
    ensures !(o <= y < o + n) && y / BSIZE == o / BSIZE ==> !(o % BSIZE <= y % BSIZE < o % BSIZE + n)
  {
    if o <= y < o + n {
      assert o / BSIZE * BSIZE + (o % BSIZE + (y - o)) == y;
    }
  }

  /** `t` is `m` with `piece` copied into the block that holds offset `o` of file `i`. */
  ghost predicate Put(m: Fs, t: Fs, i: nat, o: nat, piece: seq<Byte>)
  {
    && i < |m.files| && Shape(m.files[i]) && o < MAXFILE * BSIZE && o % BSIZE + |piece| <= BSIZE
    && 0 < Slot(m.files[i], SlotOf(o / BSIZE)) < |m.d|
    && t == m.(d := m.d[Slot(m.files[i], SlotOf(o / BSIZE)) :=
                        Overlay(m.d[Slot(m.files[i], SlotOf(o / BSIZE))], o % BSIZE, piece)])
  }

  lemma PutInside(sb: Super, m: Fs, t: Fs, i: nat, o: nat, piece: seq<Byte>, y: nat)
    requires Good(sb, m) && Put(m, t, i, o, piece) && o <= y < o + |piece|
    ensures y < MAXFILE * BSIZE && ByteAt(t, i, y) == piece[y - o]
  {
    hide Good;
    HasContent(sb, m, i);
    var k := SlotOf(o / BSIZE);
    WithinBlock(o, |piece|, y);
    DataWriteBytes(sb, m, i, k, Overlay(m.d[Slot(m.files[i], k)], o % BSIZE, piece), i, y);
  }

  lemma PutOutside(sb: Super, m: Fs, t: Fs, i: nat, o: nat, piece: seq<Byte>, y: nat)
    requires Good(sb, m) && Put(m, t, i, o, piece) && !(o <= y < o + |piece|)
    requires y < MAXFILE * BSIZE && Slot(m.files[i], SlotOf(y / BSIZE)) != 0
    ensures ByteAt(t, i, y) == ByteAt(m, i, y)
  {
    hide Good;
    HasContent(sb, m, i);
    var k := SlotOf(o / BSIZE);
    WithinBlock(o, |piece|, y);
    SlotOfInjective(y / BSIZE, o / BSIZE);
    DataWriteBytes(sb, m, i, k, Overlay(m.d[Slot(m.files[i], k)], o % BSIZE, piece), i, y);
  }

  lemma PutGood(sb: Super, m: Fs, t: Fs, i: nat, o: nat, piece: seq<Byte>)
    requires Good(sb, m) && Put(m, t, i, o, piece)
    ensures Good(sb, t) && OthersKept(m, t, i)
  {
    var k := SlotOf(o / BSIZE);
    var v := Overlay(m.d[Slot(m.files[i], k)], o % BSIZE, piece);
    DataWriteKeeps(sb, m, i, k, v);
    forall x | 0 <= x < sb.ninodes && x != i ensures Content(t, x) == Content(m, x) {
      DataWriteOthers(sb, m, i, k, v, x);
    }
  }

  lemma PutByte(sb: Super, m: Fs, t: Fs, i: nat, o: nat, piece: seq<Byte>, y: nat)
    requires Good(sb, m) && Put(m, t, i, o, piece)
    requires !(o <= y < o + |piece|) ==> y < MAXFILE * BSIZE && Slot(m.files[i], SlotOf(y / BSIZE)) != 0
    ensures y < MAXFILE * BSIZE && ByteAt(t, i, y) == if o <= y < o + |piece| then piece[y - o] else ByteAt(m, i, y)
  {
    if o <= y < o + |piece| {
      PutInside(sb, m, t, i, o, piece, y);
    } else {
      PutOutside(sb, m, t, i, o, piece, y);
    }
  }

  lemma PutBytes(sb: Super, s0: Fs, m: Fs, t: Fs, i: nat, off: nat, src: seq<Byte>, tot: nat, o: nat, piece: seq<Byte>)
    requires Good(sb, m) && tot + |piece| <= |src| && o == off + tot && o + |piece| <= MAXFILE * BSIZE
    requires i < |s0.files| && Shape(s0.files[i]) && s0.files[i].size <= MAXFILE * BSIZE
    requires Put(m, t, i, o, piece) && piece == src[tot..tot + |piece|] && InPlace(s0, m, i, off, src, tot)
    requires MappedTo(m.files[i], o) && MappedTo(m.files[i], s0.files[i].size)
    ensures InPlace(s0, t, i, off, src, tot + |piece|)
  {
    hide Good;
    forall y | 0 <= y < o + |piece| || 0 <= y < s0.files[i].size
      ensures ByteAt(t, i, y) == if off <= y < o + |piece| then src[y - off] else ByteAt(s0, i, y)
    {
      if !(o <= y < o + |piece|) {
        MappedByte(m.files[i], if y < o then o else s0.files[i].size, y);
      }
      PutByte(sb, m, t, i, o, piece, y);
    }
  }

  lemma PutFrame(m: Fs, t: Fs, i: nat, o: nat, piece: seq<Byte>)
    requires Put(m, t, i, o, piece)
    ensures t.files == m.files && t.dinos == m.dinos && t.pend == m.pend
    ensures o < MAXFILE * BSIZE && Slot(m.files[i], SlotOf(o / BSIZE)) != 0 && o + |piece| <= (o / BSIZE + 1) * BSIZE
  {
    EndsInBlock(o, |piece|);
  }

  lemma OthersTrans(s0: Fs, m: Fs, t: Fs, i: nat)
    requires OthersKept(s0, m, i) && OthersKept(m, t, i)
    ensures OthersKept(s0, t, i)
  {
  }

  /** One turn of the loop: the next `n` bytes of the source go into the block. */
  lemma WrittenStep(sb: Super, s0: Fs, m: Fs, t: Fs, i: nat, off: nat, src: seq<Byte>, tot: nat, o: nat, n: nat,
                    piece: seq<Byte>)
    requires Good(sb, m) && o == off + tot && Written(s0, m, i, off, src, tot, o + 1)
    requires 0 < n == |piece| && tot + n <= |src| && piece == src[tot..tot + n] && Put(m, t, i, o, piece)
    ensures Good(sb, t) && Written(s0, t, i, off, src, tot + n, o + n)
  {
    PutFrame(m, t, i, o, piece);
    PutGood(sb, m, t, i, o, piece);
    OthersTrans(s0, m, t, i);
    PutBytes(sb, s0, m, t, i, off, src, tot, o, piece);
    NextMapped(m.files[i], o, o + n);
  }

  lemma EndsInBlock(o: nat, n: nat)
    requires o % BSIZE + n <= BSIZE
    ensures o + n <= (o / BSIZE + 1) * BSIZE
  {
  }

  // ---------------------------------------------------------------- the new size

  function Max(a: nat, b: nat): nat { if a > b then a else b }

  /** writei's last step: `ip->size = off` when the file grew. */
  function Resize(s: Fs, i: nat, n: Uint): Fs
    requires i < |s.files|
  {
    s.(files := s.files[i := s.files[i].(size := n)])
  }

  lemma ResizeGood(sb: Super, s: Fs, i: nat, n: Uint)
    requires Good(sb, s) && i < sb.ninodes && MappedTo(s.files[i], n)
    ensures Good(sb, Resize(s, i, n))
  {
    hide BitsRepr, InosRepr, Bitmap;
    var t := Resize(s, i, n);
    assert forall x, k :: 0 <= x < |s.files| && 0 <= k < SLOTS ==> Slot(t.files[x], k) == Slot(s.files[x], k);
    forall x | 0 <= x < |t.files| ensures MappedTo(t.files[x], t.files[x].size) {}
  }

  lemma ResizeOthers(sb: Super, s: Fs, i: nat, n: Uint, x: nat)
    requires Good(sb, s) && i < sb.ninodes && MappedTo(s.files[i], n) && x < sb.ninodes && x != i
    ensures Content(Resize(s, i, n), x) == Content(s, x)
  {
    var t := Resize(s, i, n);
    forall y | 0 <= y < s.files[x].size ensures ByteAt(t, x, y) == ByteAt(s, x, y) {}
    BytesAgree(s, t, x, s.files[x].size);
  }

  lemma ResizedByte(s0: Fs, s: Fs, i: nat, off: nat, src: seq<Byte>, n: Uint, y: nat)
    requires i < |s0.files| && Shape(s0.files[i]) && off <= s0.files[i].size <= MAXFILE * BSIZE
        && off + |src| <= MAXFILE * BSIZE
    requires i < |s.files| && Shape(s.files[i]) && InPlace(s0, s, i, off, src, |src|)
    requires n == Max(off + |src|, s0.files[i].size) && y < n
    ensures Content(Resize(s, i, n), i)[y] == if off <= y < off + |src| then src[y - off] else Content(s0, i)[y]
  {
    var t := Resize(s, i, n);
    BytesAt(t, i, n, y);
    assert ByteAt(t, i, y) == ByteAt(s, i, y);
    if y < s0.files[i].size {
      BytesAt(s0, i, s0.files[i].size, y);
    }
  }

  /** Once the whole source is in place and the size is right, the file is the old one, spliced. */
  lemma ResizeSplice(s0: Fs, s: Fs, i: nat, off: nat, src: seq<Byte>)
    requires i < |s0.files| && Shape(s0.files[i]) && off <= s0.files[i].size <= MAXFILE * BSIZE
        && off + |src| <= MAXFILE * BSIZE
    requires i < |s.files| && Shape(s.files[i]) && InPlace(s0, s, i, off, src, |src|)
    ensures Content(Resize(s, i, Max(off + |src|, s0.files[i].size)), i) == Splice(Content(s0, i), off, src)
  {
    var n := Max(off + |src|, s0.files[i].size);
    var c, r := Content(Resize(s, i, n), i), Splice(Content(s0, i), off, src);
    forall y | 0 <= y < n ensures c[y] == r[y] {
      ResizedByte(s0, s, i, off, src, n, y);
      SpliceAt(Content(s0, i), off, src, y);
    }
  }

  lemma SpliceAt(old_: seq<Byte>, off: nat, new_: seq<Byte>, y: nat)
    requires off <= |old_| && y < Max(off + |new_|, |old_|)
    ensures |Splice(old_, off, new_)| == Max(off + |new_|, |old_|)
    ensures Splice(old_, off, new_)[y] == if off <= y < off + |new_| then new_[y - off] else old_[y]
  {
  }

  // ---------------------------------------------------------------- readi

  lemma BlockByte(s: Fs, i: nat, o: nat, m: nat, x: nat)
    requires i < |s.files| && Shape(s.files[i]) && o + m <= MAXFILE * BSIZE && x < m && o % BSIZE + m <= BSIZE
    requires Slot(s.files[i], SlotOf(o / BSIZE)) < |s.d|
    ensures ByteAt(s, i, o + x) == s.d[Slot(s.files[i], SlotOf(o / BSIZE))][o % BSIZE + x]
  {
    WithinBlock(o, m, o + x);
  }

  lemma BlockBytes(s: Fs, i: nat, o: nat, m: nat, b: nat)
    requires i < |s.files| && Shape(s.files[i]) && s.files[i].size <= MAXFILE * BSIZE
    requires 0 < m && o + m <= s.files[i].size && o % BSIZE + m <= BSIZE
    requires b == Slot(s.files[i], SlotOf(o / BSIZE)) < |s.d|
    ensures s.d[b][o % BSIZE..o % BSIZE + m] == Content(s, i)[o..o + m]
  {
    var l, r := s.d[b][o % BSIZE..o % BSIZE + m], Content(s, i)[o..o + m];
    forall x | 0 <= x < m ensures l[x] == r[x] {
      BlockByte(s, i, o, m, x);
      BytesAt(s, i, s.files[i].size, o + x);
    }
  }

  lemma HasContent(sb: Super, s: Fs, i: nat)
    requires Good(sb, s) && (i < sb.ninodes || i < |s.files|)
    ensures i < |s.files| == sb.ninodes && Shape(s.files[i]) && s.files[i].size <= MAXFILE * BSIZE
  {
  }

  /** One turn of readi's loop. */
  method ReadPiece(fs: FileSystem, ip: Inode, o: nat, m: nat) returns (piece: seq<Byte>)
    requires fs.Holding(ip) && 0 < m && o + m <= ip.size && o % BSIZE + m <= BSIZE
    modifies fs`blk, fs`logged, fs`writes, fs`st, ip`addrs
    ensures fs.Holding(ip) && fs.Untouched(old(fs.st), old(ip.addrs), old(fs.logged), ip)
    ensures piece == Content(fs.st, ip.inum)[o..o + m]
  {
    MappedByte(fs.st.files[ip.inum], ip.size, o);
    ghost var bbs;
    var b, ok;
    b, ok, bbs := fs.Bmap(ip, o / BSIZE);
    assert b < |fs.blk|;
    BlockBytes(fs.st, ip.inum, o, m, b);
    piece := fs.blk[b][o % BSIZE..o % BSIZE + m];
  }

  /** `off + n < off` in 32-bit arithmetic */
  predicate WrapsAround(off: Uint, n: Uint)
    ensures WrapsAround(off, n) <==> off + n > UINT_MAX
  {
    (off + n) % 0x1_0000_0000 < off
  }

  /** The loop of readi, for a range inside the file. */
  method ReadRange(fs: FileSystem, ip: Inode, off: nat, n: nat) returns (dst: seq<Byte>)
    requires fs.Holding(ip) && off + n <= ip.size
    modifies fs`blk, fs`logged, fs`writes, fs`st, ip`addrs
    ensures fs.Holding(ip) && fs.Untouched(old(fs.st), old(ip.addrs), old(fs.logged), ip)
    ensures dst == Content(fs.st, ip.inum)[off..off + n]
  {
    hide Good, OthersSynced;
    dst := [];
    ghost var s := fs.st;
    HasContent(fs.sb, s, ip.inum);
    ghost var c := Content(s, ip.inum);
    var tot, o := 0, off;
    assert c[off..off] == [];
    while tot < n
      invariant tot <= n && o == off + tot && fs.Holding(ip) && fs.st == s
      invariant fs.Untouched(s, old(ip.addrs), old(fs.logged), ip)
      invariant dst == c[off..o]
    {
      var m := PieceSize(o, n - tot);
      var piece := ReadPiece(fs, ip, o, m);
      JoinSlices(c, off, o, o + m);
      dst, tot, o := dst + piece, tot + m, o + m;
    }
  }

  /** readi of a file that is not a device. Nothing is allocated; `-1` exactly when the offset is unusable. */
  method Readi(fs: FileSystem, ip: Inode, off: Uint, n: Uint) returns (dst: seq<Byte>, r: int)
    requires fs.Holding(ip)
    modifies fs`blk, fs`logged, fs`writes, fs`st, ip`addrs
    ensures fs.Holding(ip) && fs.Untouched(old(fs.st), old(ip.addrs), old(fs.logged), ip)
    ensures off > ip.size || off + n > UINT_MAX ==> r == -1 && dst == []
    ensures off <= ip.size && off + n <= UINT_MAX ==>
              r == |dst| && dst == Content(fs.st, ip.inum)[off..if off + n > ip.size then ip.size else off + n]
  {
    if off > ip.size || WrapsAround(off, n) {
      return [], -1;
    }
    var n' := if off + n > ip.size then ip.size - off else n;
    dst := ReadRange(fs, ip, off, n');
    r := n';
  }

  lemma JoinSlices(c: seq<Byte>, a: nat, b: nat, d: nat)
    requires a <= b <= d <= |c|
    ensures c[a..b] + c[b..d] == c[a..d]
  {
  }

  /** `min(n - tot, BSIZE - off%BSIZE)` */
  function PieceSize(o: nat, left: nat): (m: nat)
    requires left > 0
    ensures 0 < m <= left && o % BSIZE + m <= BSIZE && (m < left ==> (o + m) % BSIZE == 0)
  {
    if left < BSIZE - o % BSIZE then left else BSIZE - o % BSIZE
  }

  // ---------------------------------------------------------------- log budget

  /** filewrite's chunk: `((MAXOPBLOCKS-1-1-2) / 2) * 512` bytes. */
  const CHUNK: nat := (MAXOPBLOCKS - 1 - 1 - 2) / 2 * BSIZE

  /**
   After `q` turns of the loop from offset `off`: at most `q` data blocks were logged, the indirect
   block, and the bitmap blocks of the allocations. `ind` is the inode's current indirect block.
   */
  ghost predicate Budget(l0: set<nat>, l: set<nat>, data: set<nat>, bbs: set<nat>, ind: nat, off: nat, q: nat)
  {
    && l <= l0 + data + bbs + {ind}
    && (ind == 0 ==> l <= l0 + data + bbs)
    && |data| <= q
    && |bbs| + Fresh(ind) <= 1 + q - (if off % BSIZE != 0 && q > 0 then 1 else 0)
  }

  /** Where `q` turns have got to. */
  ghost predicate Turns(off: nat, o: nat, q: nat, more: bool)
  {
    && (q == 0 <==> o == off)
    && (q > 0 ==> (off / BSIZE + q - 1) * BSIZE < o <= (off / BSIZE + q) * BSIZE)
    && (q > 0 && more ==> o == (off / BSIZE + q) * BSIZE)
  }

  lemma BudgetStep(l0: set<nat>, l: set<nat>, l': set<nat>, data: set<nat>, bbs: set<nat>, ind: nat, ind': nat,
                   off: nat, q: nat, a: nat, new_: set<nat>, made: nat, high: bool)
    requires Budget(l0, l, data, bbs, ind, off, q)
    requires l' <= l + new_ + {a} + (if high then {ind'} else {})
    requires |new_| <= made + (if high then Fresh(ind) else 0) && made <= 1
    requires off % BSIZE != 0 && q == 0 ==> made == 0
    requires if high then ind' != 0 && (ind != 0 ==> ind' == ind) else ind' == ind
    ensures Budget(l0, l', data + {a}, bbs + new_, ind', off, q + 1)
  {
    assert |data + {a}| <= |data| + 1;
    UnionSize(bbs, new_);
  }

  lemma UnionSize(a: set<nat>, b: set<nat>)
    ensures |a + b| <= |a| + |b|
  {
    assert |a + b| == |a| + |b| - |a * b|;
  }

  lemma {:induction false} SubsetSize(a: set<nat>, b: set<nat>)
    requires a <= b
    ensures |a| <= |b|
  {
    if a != {} {
      var x :| x in a;
      SubsetSize(a - {x}, b - {x});
    }
  }

  lemma TurnsStep(off: nat, o: nat, q: nat, m: nat, left: nat)
    requires Turns(off, o, q, true) && off <= o && 0 < left && m == PieceSize(o, left)
    ensures Turns(off, o + m, q + 1, m < left)
  {
    if q == 0 {
      assert (off / BSIZE) * BSIZE <= off < (off / BSIZE + 1) * BSIZE;
    } else {
      assert o % BSIZE == 0;
    }
  }

  /** One chunk logs at most MAXOPBLOCKS blocks, inode block included, at any alignment. */
  lemma BudgetEnd(l0: set<nat>, l: set<nat>, data: set<nat>, bbs: set<nat>, ind: nat, off: nat, q: nat, n: nat,
                  inode: nat)
    requires Budget(l0, l, data, bbs, ind, off, q) && Turns(off, off + n, q, false) && n <= CHUNK
    ensures |data + bbs + {ind, inode}| <= MAXOPBLOCKS && l <= l0 + (data + bbs + {ind, inode})
  {
    var k := CHUNK / BSIZE;
    if q > 0 {
      assert (off / BSIZE + q - 1) * BSIZE < off + k * BSIZE;
      assert off == off / BSIZE * BSIZE + off % BSIZE;
      assert (q - 1) * BSIZE < off % BSIZE + k * BSIZE;
    }
    UnionSize(data, bbs);
    UnionSize(data + bbs, {ind, inode});
  }

  // ---------------------------------------------------------------- the blocks that a write needs

  /** The slots of `q` file blocks from `first` on. */
  function SlotsFrom(first: nat, q: nat): set<nat>
  {
    if q == 0 then {} else SlotsFrom(first, q - 1) + SlotsOf(first + q - 1)
  }

  /** How many file blocks `n` bytes at `off` lie in. */
  function BlocksOf(off: nat, n: nat): nat { if n == 0 then 0 else (off + n - 1) / BSIZE - off / BSIZE + 1 }

  /** The slots that a write of `n` bytes at `off` goes through, the indirect block's included. */
  function RangeSlots(off: nat, n: nat): set<nat> { SlotsFrom(off / BSIZE, BlocksOf(off, n)) }

  lemma OneBlockSlot(bn: nat) returns (k: nat)
    ensures SlotsOf(bn) - {NDIRECT} == {k}
  {
    k := if bn < NDIRECT then bn else bn + 1;
  }

  lemma OneMoreSlot(a: set<nat>, b: set<nat>, x: nat, k: nat)
    requires b - {x} == {k}
    ensures |(a + b) - {x}| <= |a - {x}| + 1
  {
    assert (a + b) - {x} == (a - {x}) + {k};
  }

  /** A block a slot, and one indirect block. */
  lemma {:induction false} FewSlots(first: nat, q: nat)
    ensures |SlotsFrom(first, q) - {NDIRECT}| <= q
  {
    hide SlotsOf;
    if q == 0 {
      assert {} - {NDIRECT} == {};
    } else {
      FewSlots(first, q - 1);
      var k := OneBlockSlot(first + q - 1);
      OneMoreSlot(SlotsFrom(first, q - 1), SlotsOf(first + q - 1), NDIRECT, k);
    }
  }

  /** With a free block for each file block of the range and one more, a write finds what it needs. */
  lemma EnoughFree(s: Fs, i: nat, off: nat, n: nat)
    requires i < |s.files| && Shape(s.files[i]) && BlocksOf(off, n) + 1 <= Clear(s)
    ensures Room(s, i, RangeSlots(off, n))
  {
    hide Shape, Slot, Clear;
    var ks := RangeSlots(off, n);
    FewSlots(off / BSIZE, BlocksOf(off, n));
    assert ks <= (ks - {NDIRECT}) + {NDIRECT};
    SubsetSize(ks, (ks - {NDIRECT}) + {NDIRECT});
    SubsetSize(Wanted(s.files[i], ks), ks);
  }

  lemma TurnsAre(off: nat, o: nat, q: nat, more: bool, n: nat)
    requires Turns(off, o, q, more) && off <= o
    ensures more ==> o / BSIZE == off / BSIZE + q
    ensures more && o < off + n ==> q + 1 <= BlocksOf(off, n)
    ensures o == off + n ==> q == BlocksOf(off, n)
  {
    if q > 0 && o == off + n {
      assert (off / BSIZE + q - 1) * BSIZE <= o - 1 < (off / BSIZE + q) * BSIZE;
      assert (o - 1) / BSIZE == off / BSIZE + q - 1;
    }
    if q > 0 && more && o < off + n {
      assert (off / BSIZE + q) * BSIZE <= off + n - 1;
      DivideAgain(off + n - 1, off / BSIZE + q);
    }
  }

  lemma DivideAgain(x: nat, k: nat)
    requires k * BSIZE <= x
    ensures k <= x / BSIZE
  {
  }

  lemma {:induction false} FewerSlots(first: nat, q: nat, r: nat)
    requires q <= r
    ensures SlotsFrom(first, q) <= SlotsFrom(first, r)
    decreases r
  {
    if q < r {
      FewerSlots(first, q, r - 1);
    }
  }

  lemma {:induction false} SlotsWithin(first: nat, p: nat, r: nat)
    ensures SlotsFrom(first + p, r) <= SlotsFrom(first, p + r)
    decreases r
  {
    if r > 0 {
      SlotsWithin(first, p, r - 1);
    }
  }

  lemma {:induction false} SlotsJoin(first: nat, q: nat, p: nat, r: nat)
    requires p <= q <= p + r
    ensures SlotsFrom(first, q) + SlotsFrom(first + p, r) == SlotsFrom(first, p + r)
    decreases r
  {
    if q == p + r {
      SlotsWithin(first, p, r);
    } else {
      SlotsJoin(first, q, p, r - 1);
    }
  }

  /** Two writes, one behind the other, go through the slots of the one. */
  lemma RangeJoin(off: nat, a: nat, b: nat)
    ensures RangeSlots(off, a + b) == RangeSlots(off, a) + RangeSlots(off + a, b)
  {
    hide SlotsFrom;
    var first, q, p := off / BSIZE, BlocksOf(off, a), (off + a) / BSIZE - off / BSIZE;
    if b == 0 {
      SlotsNone(off + a);
      assert RangeSlots(off, a) + {} == RangeSlots(off, a);
    } else {
      SlotsJoin(first, q, p, BlocksOf(off + a, b));
    }
  }

  lemma SlotsNone(off: nat)
    ensures RangeSlots(off, 0) == {}
  {
  }

  lemma {:induction false} MappedWantNothing(sb: Super, s: Fs, i: nat, first: nat, q: nat)
    requires Good(sb, s) && i < sb.ninodes && Shape(s.files[i]) && (q > 0 ==> (first + q - 1) * BSIZE < s.files[i].size)
    ensures Wanted(s.files[i], SlotsFrom(first, q)) == {}
    decreases q
  {
    hide Good, Slot;
    if q > 0 {
      MappedWantNothing(sb, s, i, first, q - 1);
      BlockWantsNothing(sb, s, i, first + q - 1);
    }
  }

  lemma BlockWantsNothing(sb: Super, s: Fs, i: nat, bn: nat)
    requires Good(sb, s) && i < sb.ninodes && Shape(s.files[i]) && bn * BSIZE < s.files[i].size
    ensures Wanted(s.files[i], SlotsOf(bn)) == {}
  {
    assert bn < MAXFILE && Slot(s.files[i], SlotOf(bn)) != 0;
    if bn >= NDIRECT {
      NoIndirectNoEntry(sb, s, i, bn - NDIRECT);
    }
  }

  /** A write inside the file needs no free block. */
  lemma InsideNeedsNothing(sb: Super, s: Fs, i: nat, off: nat, n: nat)
    requires Good(sb, s) && i < sb.ninodes && Shape(s.files[i]) && off + n <= s.files[i].size
    ensures Room(s, i, RangeSlots(off, n))
  {
    hide Good;
    HasContent(sb, s, i);
    if n > 0 {
      assert (off + n - 1) / BSIZE * BSIZE <= off + n - 1;
    }
    MappedWantNothing(sb, s, i, off / BSIZE, BlocksOf(off, n));
  }

  lemma NoRoom(s: Fs, i: nat, first: nat, q: nat, r: nat)
    requires q <= r && !Room(s, i, SlotsFrom(first, q))
    ensures !Room(s, i, SlotsFrom(first, r))
  {
    hide Room;
    FewerSlots(first, q, r);
    LessRoom(s, i, SlotsFrom(first, q), SlotsFrom(first, r));
    assert SlotsFrom(first, q) + SlotsFrom(first, r) == SlotsFrom(first, r);
  }

  lemma FillsNothing(sb: Super, s: Fs, i: nat, first: nat)
    requires Good(sb, s) && i < sb.ninodes
    ensures Fills(s, s, i, SlotsFrom(first, 0)) && Room(s, i, SlotsFrom(first, 0))
  {
    BitPerBlock(sb, s);
    assert Wanted(s.files[i], {}) == {};
  }

  // ---------------------------------------------------------------- writei

  /** memmove into the block that bmap returned, log_write. */
  method PutPiece(fs: FileSystem, ip: Inode, b: nat, o: nat, piece: seq<Byte>)
    requires fs.Holding(ip) && o < MAXFILE * BSIZE && o % BSIZE + |piece| <= BSIZE
    requires b == Slot(fs.st.files[ip.inum], SlotOf(o / BSIZE)) != 0
    modifies fs`blk, fs`logged, fs`writes, fs`st
    ensures fs.Holding(ip) && Put(old(fs.st), fs.st, ip.inum, o, piece) && fs.logged == old(fs.logged) + {b}
  {
    hide Good, fs.Logged;
    ghost var s := fs.st;
    HasContent(fs.sb, s, ip.inum);
    BitPerBlock(fs.sb, s);
    DataWriteKeeps(fs.sb, s, ip.inum, SlotOf(o / BSIZE), ZERO);
    var v := Overlay(fs.blk[b], o % BSIZE, piece);
    DataWriteKeeps(fs.sb, s, ip.inum, SlotOf(o / BSIZE), v);
    fs.LogBlock(b, v);
    fs.st := s.(d := fs.blk);
  }

  /** What bmap may do to the inode's indirect block while looking for file block `bn`. */
  ghost predicate IndirectStep(old_: seq<Uint>, new_: seq<Uint>, bn: nat)
  {
    && |old_| == |new_| == NDIRECT + 1
    && (bn < NDIRECT ==> new_[NDIRECT] == old_[NDIRECT])
    && (bn >= NDIRECT ==> new_[NDIRECT] != 0 && (old_[NDIRECT] != 0 ==> new_[NDIRECT] == old_[NDIRECT]))
  }

  /** What one turn logs: bitmap blocks `bbs`, data block `a`, and perhaps the indirect block. */
  ghost predicate TurnLogs(l: set<nat>, l': set<nat>, bbs: set<nat>, a: nat, made: nat, bn: nat, old_: seq<Uint>,
                           new_: seq<Uint>)
  {
    && IndirectStep(old_, new_, bn) && made <= 1
    && |bbs| <= made + (if bn >= NDIRECT then Fresh(old_[NDIRECT]) else 0)
    && l' <= l + bbs + {a} + (if bn >= NDIRECT then {new_[NDIRECT]} else {})
  }

  /** One turn of writei's loop: bmap, memmove, log_write. `false` is balloc's panic. */
  method WritePiece(fs: FileSystem, ip: Inode, o: nat, piece: seq<Byte>)
    returns (ok: bool, ghost m: Fs, ghost a: nat, ghost bbs: set<nat>)
    requires fs.Holding(ip) && o < MAXFILE * BSIZE && o % BSIZE + |piece| <= BSIZE
    modifies fs`blk, fs`logged, fs`writes, fs`st, ip`addrs
    ensures ok ==> fs.Holding(ip) && Good(fs.sb, m) && Grows(old(fs.st), m, ip.inum) && Put(m, fs.st, ip.inum, o, piece)
    ensures ok && Slot(old(fs.st).files[ip.inum], SlotOf(o / BSIZE)) != 0 ==> m == old(fs.st)
    ensures ok ==> TurnLogs(old(fs.logged), fs.logged, bbs, a,
        Fresh(Slot(old(fs.st).files[ip.inum], SlotOf(o / BSIZE))),
                            o / BSIZE, old(ip.addrs), ip.addrs)
    ensures (ok <==> Room(old(fs.st), ip.inum, SlotsOf(o / BSIZE))) && (!ok ==> NoneFree(fs.st))
    ensures ok ==> Fills(old(fs.st), fs.st, ip.inum, SlotsOf(o / BSIZE))
  {
    hide Good, Fills, Room, NoneFree, KeepsBytes, fs.Logged, SlotsOf;
    BitPerBlock(fs.sb, fs.st);
    var b;
    b, ok, bbs := fs.Bmap(ip, o / BSIZE);
    m, a := fs.st, b;
    if ok {
      IndirectKept(old(fs.st), m, ip.inum);
      PutPiece(fs, ip, b, o, piece);
      FillsSame(old(fs.st), m, fs.st, ip.inum, SlotsOf(o / BSIZE));
    }
  }

  lemma IndirectKept(s: Fs, t: Fs, i: nat)
    requires Grows(s, t, i)
    ensures s.files[i].addrs[NDIRECT] != 0 ==> t.files[i].addrs[NDIRECT] == s.files[i].addrs[NDIRECT]
  {
    assert Slot(s.files[i], NDIRECT) == s.files[i].addrs[NDIRECT];
  }

  /** An unaligned first block is already allocated, because the offset is within the file. */
  lemma FirstBlockThere(f: File, off: nat)
    requires Shape(f) && MappedTo(f, f.size) && off <= f.size && off % BSIZE != 0
    ensures off < MAXFILE * BSIZE && Slot(f, SlotOf(off / BSIZE)) != 0
  {
    MappedByte(f, f.size, off - 1);
    assert (off - 1) / BSIZE == off / BSIZE;
  }

  /** One turn of writei's loop, with what it means for the file and for the log. */
  method WriteTurn(fs: FileSystem, ip: Inode, off: nat, src: seq<Byte>, tot: nat, o: nat, n: nat, ghost s0: Fs)
    returns (ok: bool, ghost a: nat, ghost bbs: set<nat>)
    requires fs.Holding(ip) && o == off + tot && Written(s0, fs.st, ip.inum, off, src, tot, o)
    requires 0 < n && tot + n <= |src| && o % BSIZE + n <= BSIZE
    modifies fs`blk, fs`logged, fs`writes, fs`st, ip`addrs
    ensures ok ==> fs.Holding(ip) && Written(s0, fs.st, ip.inum, off, src, tot + n, o + n)
    ensures ok ==> TurnLogs(old(fs.logged), fs.logged, bbs, a,
        Fresh(Slot(old(fs.st).files[ip.inum], SlotOf(o / BSIZE))),
                            o / BSIZE, old(ip.addrs), ip.addrs)
    ensures (ok <==> Room(old(fs.st), ip.inum, SlotsOf(o / BSIZE))) && (!ok ==> NoneFree(fs.st))
    ensures ok ==> Fills(old(fs.st), fs.st, ip.inum, SlotsOf(o / BSIZE))
  {
    ghost var s, i := fs.st, ip.inum;
    ghost var mid;
    var piece := src[tot..tot + n];
    ok, mid, a, bbs := WritePiece(fs, ip, o, piece);
    if ok {
      WrittenGrows(fs.sb, s0, s, mid, i, off, src, tot, o);
      WrittenStep(fs.sb, s0, mid, fs.st, i, off, src, tot, o, n, piece);
    }
  }

  /** Running account of a writei: data blocks and bitmap blocks logged, and turns taken. */
  datatype Tally = Tally(data: set<nat>, bbs: set<nat>, q: nat)

  ghost predicate TallyOk(t: Tally, l0: set<nat>, l: set<nat>, addrs: seq<Uint>, off: nat, o: nat, more: bool)
  {
    |addrs| == NDIRECT + 1 && Budget(l0, l, t.data, t.bbs, addrs[NDIRECT], off, t.q) && Turns(off, o, t.q, more)
  }

  lemma TallyTurn(t: Tally, l0: set<nat>, l: set<nat>, l': set<nat>, addrs: seq<Uint>, addrs': seq<Uint>,
                  off: nat, o: nat, left: nat, m: nat, a: nat, bbs: set<nat>, made: nat)
    requires TallyOk(t, l0, l, addrs, off, o, true) && off <= o && 0 < left && m == PieceSize(o, left)
    requires TurnLogs(l, l', bbs, a, made, o / BSIZE, addrs, addrs') && (off % BSIZE != 0 && o == off ==> made == 0)
    ensures TallyOk(Tally(t.data + {a}, t.bbs + bbs, t.q + 1), l0, l', addrs', off, o + m, m < left)
  {
    BudgetStep(l0, l, l', t.data, t.bbs, addrs[NDIRECT], addrs'[NDIRECT], off, t.q, a, bbs, made, o / BSIZE >= NDIRECT);
    TurnsStep(off, o, t.q, m, left);
  }

  lemma TallyStart(l: set<nat>, addrs: seq<Uint>, off: nat, n: nat)
    requires |addrs| == NDIRECT + 1
    ensures TallyOk(Tally({}, {}, 0), l, l, addrs, off, off, n > 0)
  {
  }

  lemma NothingMade(f: File, off: nat, o: nat)
    requires Shape(f) && MappedTo(f, f.size) && off <= f.size && o < MAXFILE * BSIZE
    ensures off % BSIZE != 0 && o == off ==> Fresh(Slot(f, SlotOf(o / BSIZE))) == 0
  {
    if off % BSIZE != 0 && o == off {
      FirstBlockThere(f, off);
    }
  }

  lemma WrittenStill(sb: Super, s0: Fs, s: Fs, i: nat, off: nat, src: seq<Byte>, tot: nat, o: nat)
    requires Good(sb, s) && i < sb.ninodes && Written(s0, s, i, off, src, tot, o) && o == off + tot
    ensures Shape(s.files[i]) && MappedTo(s.files[i], s.files[i].size) && off <= s.files[i].size
    ensures off + |src| <= MAXFILE * BSIZE
  {
  }

  /** A turn of the loop with the account brought up to date. */
  method CountedTurn(fs: FileSystem, ip: Inode, off: nat, src: seq<Byte>, tot: nat, o: nat, n: nat, ghost s0: Fs,
                     ghost l0: set<nat>, ghost t: Tally)
    returns (ok: bool, ghost t': Tally)
    requires fs.Holding(ip) && o == off + tot && Written(s0, fs.st, ip.inum, off, src, tot, o)
    requires tot < |src| && n == PieceSize(o, |src| - tot) && TallyOk(t, l0, fs.logged, ip.addrs, off, o, true)
    requires Fills(s0, fs.st, ip.inum, SlotsFrom(off / BSIZE, t.q))
    modifies fs`blk, fs`logged, fs`writes, fs`st, ip`addrs
    ensures ok ==> fs.Holding(ip) && Written(s0, fs.st, ip.inum, off, src, tot + n, o + n)
    ensures ok ==> TallyOk(t', l0, fs.logged, ip.addrs, off, o + n, n < |src| - tot) && t'.q == t.q + 1
    ensures (ok <==> Room(s0, ip.inum, SlotsFrom(off / BSIZE, t.q + 1))) && (!ok ==> NoneFree(fs.st))
    ensures ok ==> Fills(s0, fs.st, ip.inum, SlotsFrom(off / BSIZE, t.q + 1))
  {
    hide Fills, Room, NoneFree, TallyOk, Written, Good, TurnLogs, fs.Logged, SlotsOf, KeepsBytes;
    HasContent(fs.sb, fs.st, ip.inum);
    WrittenStill(fs.sb, s0, fs.st, ip.inum, off, src, tot, o);
    ghost var a, bbs, left := 0, {}, |src| - tot;
    ghost var s, done := fs.st, SlotsFrom(off / BSIZE, t.q);
    TallyTurns(t, l0, fs.logged, ip.addrs, off, o, true, |src|);
    RoomBehind(s0, s, ip.inum, done, SlotsOf(o / BSIZE));
    NothingMade(fs.st.files[ip.inum], off, o);
    ok, a, bbs := WriteTurn(fs, ip, off, src, tot, o, n, s0);
    if ok {
      FillsOn(s0, s, fs.st, ip.inum, done, SlotsOf(o / BSIZE));
      TallyTurn(t, l0, old(fs.logged), fs.logged, old(ip.addrs), ip.addrs, off, o, left, n, a, bbs,
                Fresh(Slot(old(fs.st).files[ip.inum], SlotOf(o / BSIZE))));
    }
    t' := Tally(t.data + {a}, t.bbs + bbs, t.q + 1);
  }

  lemma TallyTurns(t: Tally, l0: set<nat>, l: set<nat>, addrs: seq<Uint>, off: nat, o: nat, more: bool, n: nat)
    requires TallyOk(t, l0, l, addrs, off, o, more) && off <= o
    ensures more ==> o / BSIZE == off / BSIZE + t.q
    ensures more && o < off + n ==> t.q + 1 <= BlocksOf(off, n)
    ensures o == off + n ==> t.q == BlocksOf(off, n)
  {
    TurnsAre(off, o, t.q, more, n);
  }

  /** The loop of writei. */
  method WriteRange(fs: FileSystem, ip: Inode, off: nat, src: seq<Byte>) returns (ok: bool, ghost t: Tally)
    requires fs.Holding(ip) && off <= ip.size && off + |src| <= MAXFILE * BSIZE
    modifies fs`blk, fs`logged, fs`writes, fs`st, ip`addrs
    ensures ok ==> fs.Holding(ip) && Written(old(fs.st), fs.st, ip.inum, off, src, |src|, off + |src|)
    ensures ok ==> TallyOk(t, old(fs.logged), fs.logged, ip.addrs, off, off + |src|, false)
    ensures (ok <==> Room(old(fs.st), ip.inum, RangeSlots(off, |src|))) && (!ok ==> NoneFree(fs.st))
    ensures ok ==> Fills(old(fs.st), fs.st, ip.inum, RangeSlots(off, |src|))
  {
    hide Good, OthersSynced, Written, TallyOk, Fills, Room, NoneFree, BlocksOf, SlotsFrom, fs.Logged;
    FillsNothing(fs.sb, fs.st, ip.inum, off / BSIZE);
    HasContent(fs.sb, fs.st, ip.inum);
    TallyStart(fs.logged, ip.addrs, off, |src|);
    ghost var s0, l0 := fs.st, fs.logged;
    t := Tally({}, {}, 0);
    var tot, o := 0, off;
    WrittenStart(fs.sb, s0, ip.inum, off, src);
    while tot < |src|
      invariant tot <= |src| && o == off + tot && fs.Holding(ip)
      invariant Written(s0, fs.st, ip.inum, off, src, tot, o)
      invariant TallyOk(t, l0, fs.logged, ip.addrs, off, o, tot < |src|)
      invariant Fills(s0, fs.st, ip.inum, SlotsFrom(off / BSIZE, t.q))
      invariant Room(s0, ip.inum, SlotsFrom(off / BSIZE, t.q))
    {
      ghost var q := t.q;
      TallyTurns(t, l0, fs.logged, ip.addrs, off, o, true, |src|);
      var m := PieceSize(o, |src| - tot);
      ok, t := CountedTurn(fs, ip, off, src, tot, o, m, s0, l0, t);
      if !ok {
        NoRoom(s0, ip.inum, off / BSIZE, q + 1, BlocksOf(off, |src|));
        return;
      }
      tot, o := tot + m, o + m;
    }
    TallyTurns(t, l0, fs.logged, ip.addrs, off, o, false, |src|);
    ok := true;
  }

  /** The whole source is in place, the size is right and the disk inode is up to date. */
  ghost predicate Spliced(s0: Fs, t: Fs, i: nat, off: nat, src: seq<Byte>)
  {
    && i < |s0.files| == |t.files| && Mapped(s0.files) && Mapped(t.files) && off <= s0.files[i].size
    && Content(t, i) == Splice(Content(s0, i), off, src)
    && (forall x :: 0 <= x < |t.files| && x != i ==> Content(t, x) == Content(s0, x))
    && SlotsKept(s0.files, t.files, i)
    && t.pend == s0.pend && |t.dinos| == |t.files| && t.dinos[i] == Ino(t.files[i].size, t.files[i].addrs)
  }

  lemma NotGrown(s0: Fs, s: Fs, i: nat, off: nat, src: seq<Byte>)
    requires |s0.dinos| == |s0.files| && Written(s0, s, i, off, src, |src|, off + |src|)
    requires off + |src| <= s0.files[i].size && s0.dinos[i] == Ino(s0.files[i].size, s0.files[i].addrs)
    ensures Spliced(s0, s, i, off, src)
  {
    ResizeSplice(s0, s, i, off, src);
    assert s.files[i].(size := s0.files[i].size) == s.files[i] && s.files[i := s.files[i]] == s.files;
  }

  lemma GrownOthers(sb: Super, s0: Fs, s: Fs, r: Fs, t: Fs, i: nat, n: Uint)
    requires Good(sb, s) && Good(sb, r) && i < sb.ninodes && MappedTo(s.files[i], n) && r == Resize(s, i, n)
    requires KeepsBytes(r, t) && Mapped(t.files) && OthersKept(s0, s, i)
    ensures OthersKept(s0, t, i)
  {
    forall x | 0 <= x < |t.files| && x != i ensures Content(t, x) == Content(s0, x) {
      KeepsContent(sb, r, t, x);
      ResizeOthers(sb, s, i, n, x);
    }
  }

  lemma GrownBytes(sb: Super, s0: Fs, s: Fs, r: Fs, t: Fs, i: nat, off: nat, src: seq<Byte>, n: Uint)
    requires Good(sb, r) && Written(s0, s, i, off, src, |src|, n) && n == off + |src| && n > s0.files[i].size
    requires r == Resize(s, i, n) && KeepsBytes(r, t) && i < sb.ninodes
    ensures i < |t.files| && Shape(t.files[i]) && t.files[i].size == n <= MAXFILE * BSIZE
    ensures Shape(s0.files[i]) && s0.files[i].size <= MAXFILE * BSIZE && off <= s0.files[i].size
    ensures Content(t, i) == Splice(Content(s0, i), off, src)
  {
    ResizeSplice(s0, s, i, off, src);
    KeepsContent(sb, r, t, i);
  }

  lemma Grown(sb: Super, s0: Fs, s: Fs, r: Fs, t: Fs, i: nat, off: nat, src: seq<Byte>, n: Uint)
    requires Good(sb, s) && Good(sb, r) && Good(sb, t) && Written(s0, s, i, off, src, |src|, n) && n == off + |src|
    requires n > s0.files[i].size && r == Resize(s, i, n) && t == Sync(sb, r, i) && KeepsBytes(r, t)
    ensures Spliced(s0, t, i, off, src)
  {
    GrownBytes(sb, s0, s, r, t, i, off, src, n);
    hide InPlace, SlotsKept, SameBytes, Content, Splice;
    SlotsResized(s0, s, i, n);
    GrownOthers(sb, s0, s, r, t, i, n);
  }

  lemma SlotsResized(s0: Fs, s: Fs, i: nat, n: Uint)
    requires SlotsKept(s0.files, s.files, i)
    ensures SlotsKept(s0.files, Resize(s, i, n).files, i)
  {
  }

  /** `ip->size = off; iupdate(ip)` at the end of a writei that extended the file. */
  method Extend(fs: FileSystem, ip: Inode, n: Uint)
    requires fs.Holding(ip) && MappedTo(fs.st.files[ip.inum], n)
    modifies fs`blk, fs`logged, fs`writes, fs`st, ip`size
    ensures var r := Resize(old(fs.st), ip.inum, n);
      Good(fs.sb, r) && fs.Holding(ip) && fs.st == Sync(fs.sb, r, ip.inum) && KeepsBytes(r, fs.st)
    ensures fs.logged == old(fs.logged) + {fs.sb.IBlock(ip.inum)}
  {
    ResizeGood(fs.sb, fs.st, ip.inum, n);
    ip.size := n;
    fs.st := Resize(fs.st, ip.inum, n);
    fs.Iupdate(ip);
  }

  /** The same blocks are free, and the same are the inode's. */
  ghost predicate SameBlocks(s: Fs, t: Fs, i: nat)
  {
    && t.bits == s.bits && i < |s.files| && i < |t.files|
    && t.files[i].addrs == s.files[i].addrs && t.files[i].ind == s.files[i].ind
  }

  lemma FillsSame(s: Fs, t: Fs, u: Fs, i: nat, ks: set<nat>)
    requires Fills(s, t, i, ks) && SameBlocks(t, u, i)
    ensures Fills(s, u, i, ks)
  {
    forall k | 0 <= k < SLOTS ensures Slot(u.files[i], k) == Slot(t.files[i], k) {}
  }

  /** The second half of writei: the size, and what has become of the file. */
  method Settle(fs: FileSystem, ip: Inode, off: nat, src: seq<Byte>, ghost s0: Fs)
    requires fs.Holding(ip) && Good(fs.sb, s0) && Written(s0, fs.st, ip.inum, off, src, |src|, off + |src|)
    requires s0.dinos[ip.inum] == Ino(s0.files[ip.inum].size, s0.files[ip.inum].addrs)
    modifies fs`blk, fs`logged, fs`writes, fs`st, ip`size
    ensures fs.Holding(ip) && Spliced(s0, fs.st, ip.inum, off, src)
    ensures fs.logged <= old(fs.logged) + {fs.sb.IBlock(ip.inum)}
    ensures SameBlocks(old(fs.st), fs.st, ip.inum)
  {
    hide Good, OthersSynced, Spliced, fs.Logged, KeepsBytes, Content, InPlace;
    ghost var s := fs.st;
    HasContent(fs.sb, s, ip.inum);
    BitPerBlock(fs.sb, s0);
    if |src| > 0 && off + |src| > ip.size {
      Extend(fs, ip, off + |src|);
      Grown(fs.sb, s0, s, Resize(s, ip.inum, off + |src|), fs.st, ip.inum, off, src, off + |src|);
    } else {
      NotGrown(s0, s, ip.inum, off, src);
    }
  }

  /** writei past its argument checks. */
  method WriteChecked(fs: FileSystem, ip: Inode, off: nat, src: seq<Byte>) returns (ok: bool, ghost new_: set<nat>)
    requires fs.Holding(ip) && fs.st.dinos[ip.inum] == Ino(ip.size, ip.addrs) && off <= ip.size
        && off + |src| <= MAXFILE * BSIZE
    modifies fs`blk, fs`logged, fs`writes, fs`st, ip
    ensures ok ==> fs.Holding(ip) && Spliced(old(fs.st), fs.st, ip.inum, off, src)
    ensures ok && |src| <= CHUNK ==> |new_| <= MAXOPBLOCKS && fs.logged <= old(fs.logged) + new_
    ensures (ok <==> Room(old(fs.st), ip.inum, RangeSlots(off, |src|))) && (!ok ==> NoneFree(fs.st))
    ensures ok ==> Fills(old(fs.st), fs.st, ip.inum, RangeSlots(off, |src|))
  {
    hide Good, OthersSynced, Fills, Room, NoneFree, Spliced, Written, TallyOk, fs.Logged, RangeSlots;
    HasContent(fs.sb, fs.st, ip.inum);
    BitPerBlock(fs.sb, fs.st);
    ghost var s0, t, ib := fs.st, Tally({}, {}, 0), fs.sb.IBlock(ip.inum);
    new_ := {};
    ok, t := WriteRange(fs, ip, off, src);
    if ok {
      new_ := t.data + t.bbs + {ip.addrs[NDIRECT], ib};
      ChunkBudget(t, old(fs.logged), fs.logged, ip.addrs, off, |src|, ib);
      ghost var m := fs.st;
      Settle(fs, ip, off, src, s0);
      FillsSame(s0, m, fs.st, ip.inum, RangeSlots(off, |src|));
    }
  }

  lemma ChunkBudget(t: Tally, l0: set<nat>, l: set<nat>, addrs: seq<Uint>, off: nat, n: nat, ib: nat)
    requires TallyOk(t, l0, l, addrs, off, off + n, false)
    ensures n <= CHUNK ==> |t.data + t.bbs + {addrs[NDIRECT], ib}| <= MAXOPBLOCKS
    ensures l + {ib} <= l0 + (t.data + t.bbs + {addrs[NDIRECT], ib})
  {
    if n <= CHUNK {
      BudgetEnd(l0, l, t.data, t.bbs, addrs[NDIRECT], off, t.q, n, ib);
    }
  }

  /**
   writei of a file that is not a device: `-1` and no change exactly when the offset or the range is
   unusable, else the source spliced in, every other file as before and the disk inode up to date.
   A chunk of at most CHUNK bytes logs at most MAXOPBLOCKS blocks. `ok` is false for balloc's panic, which
   comes exactly when fewer blocks are free than the range has slots without one.
   */
  method Writei(fs: FileSystem, ip: Inode, off: Uint, src: seq<Byte>) returns (r: int, ok: bool, ghost new_: set<nat>)
    requires fs.Holding(ip) && |src| <= UINT_MAX && fs.st.dinos[ip.inum] == Ino(ip.size, ip.addrs)
    modifies fs`blk, fs`logged, fs`writes, fs`st, ip
    ensures ok ==> fs.Holding(ip)
    ensures if off > old(ip.size) || off + |src| > MAXFILE * BSIZE
            then ok && r == -1 && fs.Untouched(old(fs.st), old(ip.addrs), old(fs.logged), ip) && ip.size == old(ip.size)
            else ok ==> r == |src| && Spliced(old(fs.st), fs.st, ip.inum, off, src)
    ensures ok && |src| <= CHUNK ==> |new_| <= MAXOPBLOCKS && fs.logged <= old(fs.logged) + new_
    ensures ok <==> off > old(ip.size) || off + |src| > MAXFILE * BSIZE
                    || Room(old(fs.st), ip.inum, RangeSlots(off, |src|))
    ensures ok && r >= 0 ==> Fills(old(fs.st), fs.st, ip.inum, RangeSlots(off, |src|))
    ensures !ok ==> NoneFree(fs.st)
  {
    if off > ip.size || WrapsAround(off, |src|) {
      return -1, true, {};
    }
    if off + |src| > MAXFILE * BSIZE {
      return -1, true, {};
    }
    ok, new_ := WriteChecked(fs, ip, off, src);
    r := |src|;
  }
}
