/** file.c: a write is cut into chunks, each its own log operation; and what reading back gives. */
module FileWrite {
  import opened Disk
  import opened FsLayout
  import opened FsSpec
  import opened FileSystem
  import opened FileIO

  class OpenFile {
    var off: Uint
    constructor (off: Uint)
      ensures this.off == off
    {
      this.off := off;
    }
  }

  lemma SpliceTwice(c: seq<Byte>, off: nat, a: seq<Byte>, b: seq<Byte>)
    requires off <= |c|
    ensures off + |a| <= |Splice(c, off, a)|
    ensures Splice(Splice(c, off, a), off + |a|, b) == Splice(c, off, a + b)
  {
    var d := Splice(c, off, a);
    var l, r := Splice(d, off + |a|, b), Splice(c, off, a + b);
    assert |d| == Max(off + |a|, |c|);
    assert |l| == |r| == Max(off + |a| + |b|, |c|);
    forall y | 0 <= y < |r| ensures l[y] == r[y] {
      SpliceAt(d, off + |a|, b, y);
      if y < |d| {
        SpliceAt(c, off, a, y);
      }
      SpliceAt(c, off, a + b, y);
    }
  }

  /** Reading back the range of a write gives the bytes written; outside it, the old bytes. */
  lemma ReadBack(c: seq<Byte>, off: nat, src: seq<Byte>)
    requires off <= |c|
    ensures off + |src| <= |Splice(c, off, src)| && Splice(c, off, src)[off..off + |src|] == src
    ensures Splice(c, off, src)[..off] == c[..off]
    ensures off + |src| <= |c| ==> Splice(c, off, src)[off + |src|..] == c[off + |src|..]
  {
  }

  /** How many bytes filewrite gets through: whole chunks, as far as the file may grow. */
  function Fits(off: nat, size: nat, n: nat): (k: nat)
    ensures k <= n && (off <= size ==> off + k <= MAXFILE * BSIZE || k == 0)
    ensures k == n <==> n == 0 || (off <= size && off + n <= MAXFILE * BSIZE)
    decreases n
  {
    if n == 0 || off > size then 0
    else
      var n1 := ChunkSize(n);
      if off + n1 > MAXFILE * BSIZE then 0
      else n1 + Fits(off + n1, Max(off + n1, size), n - n1)
  }

  /** If not all of it, then as many whole chunks as the next one does not fit behind. */
  lemma {:induction false} FitsMost(off: nat, size: nat, n: nat) returns (q: nat)
    requires off <= size && Fits(off, size, n) < n
    ensures Fits(off, size, n) == q * CHUNK
    ensures off + q * CHUNK + ChunkSize(n - q * CHUNK) > MAXFILE * BSIZE
    decreases n
  {
    var n1 := ChunkSize(n);
    if off + n1 > MAXFILE * BSIZE {
      q := 0;
    } else {
      assert n1 == CHUNK;
      var m := FitsMost(off + n1, Max(off + n1, size), n - n1);
      q := m + 1;
      assert q * CHUNK == m * CHUNK + CHUNK;
    }
  }

  /** One chunk: begin_op, writei, end_op. The operation starts with nothing logged. */
  method WriteChunk(fs: FileSystem, ip: Inode, f: OpenFile, src: seq<Byte>) returns (r: int, ok: bool)
    requires fs.Holding(ip) && fs.st.dinos[ip.inum] == Ino(ip.size, ip.addrs) && 0 < |src| <= CHUNK
    modifies fs`blk, fs`logged, fs`writes, fs`base, fs`st, ip, f
    ensures ok ==> fs.Holding(ip) && fs.st.dinos[ip.inum] == Ino(ip.size, ip.addrs) && |fs.logged| <= MAXOPBLOCKS
    ensures if old(f.off) > old(ip.size) || old(f.off) + |src| > MAXFILE * BSIZE
            then ok && r == -1 && fs.st == old(fs.st) && f.off == old(f.off) && ip.size == old(ip.size)
            else ok ==>
                 r == |src| && Spliced(old(fs.st), fs.st, ip.inum, old(f.off), src) && f.off == old(f.off) + |src|
    ensures ok <==> old(f.off) > old(ip.size) || old(f.off) + |src| > MAXFILE * BSIZE
                    || Room(old(fs.st), ip.inum, RangeSlots(old(f.off), |src|))
    ensures ok && r >= 0 ==> Fills(old(fs.st), fs.st, ip.inum, RangeSlots(old(f.off), |src|))
  {
    fs.BeginLogging();
    ghost var new_;
    r, ok, new_ := Writei(fs, ip, f.off, src);
    if ok {
      assert fs.logged <= {} + new_;
      SubsetSize(fs.logged, new_);
      if r > 0 {
        f.off := f.off + r;
      }
    }
  }

  /** filewrite has written `src[..k]` at `off`, and no other file has changed. */
  ghost predicate Progress(s0: Fs, s: Fs, i: nat, off: nat, src: seq<Byte>, k: nat)
  {
    && i < |s0.files| == |s.files| && Mapped(s0.files) && Mapped(s.files) && k <= |src|
    && (forall x :: 0 <= x < |s.files| && x != i ==> Content(s, x) == Content(s0, x))
    && (if k == 0 then Content(s, i) == Content(s0, i)
        else off <= s0.files[i].size && Content(s, i) == Splice(Content(s0, i), off, src[..k]))
  }

  lemma SpliceMore(c: seq<Byte>, d: seq<Byte>, off: nat, src: seq<Byte>, k: nat, n: nat, piece: seq<Byte>)
    requires k + n <= |src| && piece == src[k..k + n] && off + k <= |d|
    requires if k == 0 then d == c else off <= |c| && d == Splice(c, off, src[..k])
    ensures off <= |c| && Splice(d, off + k, piece) == Splice(c, off, src[..k + n])
  {
    assert src[..k + n] == src[..k] + piece;
    if k == 0 {
      assert src[..n] == piece;
    } else {
      SpliceTwice(c, off, src[..k], piece);
    }
  }

  lemma ProgressStep(s0: Fs, s: Fs, t: Fs, i: nat, off: nat, src: seq<Byte>, k: nat, n: nat, piece: seq<Byte>)
    requires Progress(s0, s, i, off, src, k) && k + n <= |src| && 0 < n && piece == src[k..k + n]
    requires Spliced(s, t, i, off + k, piece)
    ensures Progress(s0, t, i, off, src, k + n) && t.files[i].size == Max(off + k + n, s.files[i].size)
  {
    SpliceLength(Content(s, i), off + k, piece);
    SpliceMore(Content(s0, i), Content(s, i), off, src, k, n, piece);
  }

  lemma SpliceLength(c: seq<Byte>, off: nat, src: seq<Byte>)
    requires off <= |c|
    ensures |Splice(c, off, src)| == Max(off + |src|, |c|)
  {
  }

  lemma NoProgress(sb: Super, s: Fs, i: nat, off: nat, src: seq<Byte>)
    requires Good(sb, s) && i < sb.ninodes
    ensures Progress(s, s, i, off, src, 0)
  {
  }

  lemma NothingFilled(sb: Super, s: Fs, i: nat, off: nat)
    requires Good(sb, s) && i < sb.ninodes
    ensures Fills(s, s, i, RangeSlots(off, 0)) && Room(s, i, RangeSlots(off, 0))
  {
    FillsNothing(sb, s, i, off / BSIZE);
  }

  /** Between two chunks. */
  ghost predicate Writing(fs: FileSystem, ip: Inode, f: OpenFile, s0: Fs, off: nat, src: seq<Byte>, k: nat)
    reads fs, ip, f
  {
    && fs.Holding(ip) && fs.st.dinos[ip.inum] == Ino(ip.size, ip.addrs)
    && f.off == off + k && Progress(s0, fs.st, ip.inum, off, src, k)
    && Fills(s0, fs.st, ip.inum, RangeSlots(off, k))
  }

  /** One turn of filewrite's loop. */
  method ChunkTurn(fs: FileSystem, ip: Inode, f: OpenFile, src: seq<Byte>, k: nat, n: nat, ghost s0: Fs,
                   ghost off: nat) returns (r: int, ok: bool)
    requires Writing(fs, ip, f, s0, off, src, k) && 0 < n <= CHUNK && k + n <= |src|
    modifies fs`blk, fs`logged, fs`writes, fs`base, fs`st, ip, f
    ensures if off + k > old(ip.size) || off + k + n > MAXFILE * BSIZE
            then ok && r == -1 && Writing(fs, ip, f, s0, off, src, k) && ip.size == old(ip.size)
            else ok ==> r == n && Writing(fs, ip, f, s0, off, src, k + n) && ip.size == Max(off + k + n, old(ip.size))
    ensures ok <==> off + k > old(ip.size) || off + k + n > MAXFILE * BSIZE || Room(s0, ip.inum, RangeSlots(off, k + n))
  {
    hide Good, OthersSynced, Spliced, Progress, Fills, Room, RangeSlots;
    ghost var s := fs.st;
    var piece := src[k..k + n];
    RangeJoin(off, k, n);
    RoomBehind(s0, s, ip.inum, RangeSlots(off, k), RangeSlots(off + k, n));
    r, ok := WriteChunk(fs, ip, f, piece);
    if ok && r >= 0 {
      FillsOn(s0, s, fs.st, ip.inum, RangeSlots(off, k), RangeSlots(off + k, n));
      ProgressStep(s0, s, fs.st, ip.inum, off, src, k, n, piece);
    }
  }

  function ChunkSize(left: nat): (n: nat)
    requires left > 0
    ensures 0 < n <= left && n <= CHUNK
  {
    if left > CHUNK then CHUNK else left
  }

  /** `i` bytes are written and the file now has `cur` bytes; `going` until a chunk was refused. */
  ghost predicate Account(off: nat, size: nat, n: nat, i: nat, cur: nat, going: bool)
  {
    && i <= n
    && if going then Fits(off, size, n) == i + Fits(off + i, cur, n - i) else i < n && Fits(off, size, n) == i
  }

  lemma AccountTurn(off: nat, size: nat, n: nat, i: nat, cur: nat, n1: nat)
    requires Account(off, size, n, i, cur, true) && i < n && n1 == ChunkSize(n - i)
    ensures if off + i > cur || off + i + n1 > MAXFILE * BSIZE then Account(off, size, n, i, cur, false)
            else Account(off, size, n, i + n1, Max(off + i + n1, cur), true)
  {
  }

  method CountedChunk(fs: FileSystem, ip: Inode, f: OpenFile, src: seq<Byte>, k: nat, n: nat, ghost s0: Fs,
                      ghost off: nat, ghost size: nat)
    returns (r: int, ok: bool)
    requires Writing(fs, ip, f, s0, off, src, k) && k < |src| && n == ChunkSize(|src| - k)
    requires Account(off, size, |src|, k, ip.size, true)
    modifies fs`blk, fs`logged, fs`writes, fs`base, fs`st, ip, f
    ensures ok ==> r == n || r == -1
    ensures ok && r >= 0 ==> Writing(fs, ip, f, s0, off, src, k + n) && Account(off, size, |src|, k + n, ip.size, true)
    ensures ok && r < 0 ==> Writing(fs, ip, f, s0, off, src, k) && Account(off, size, |src|, k, ip.size, false)
    ensures ok && r >= 0 ==> Room(s0, ip.inum, RangeSlots(off, k + n))
    ensures !ok ==> !Room(s0, ip.inum, RangeSlots(off, Fits(off, size, |src|)))
  {
    hide Good, OthersSynced, Progress, Fills, Room, RangeSlots;
    AccountTurn(off, size, |src|, k, ip.size, n);
    ghost var more := Fits(off, size, |src|) - (k + n);
    r, ok := ChunkTurn(fs, ip, f, src, k, n, s0, off);
    if !ok {
      RangeJoin(off, k + n, more);
      LessRoom(s0, ip.inum, RangeSlots(off, k + n), RangeSlots(off + k + n, more));
    }
  }

  /**
   filewrite on an inode: as many whole chunks as fit, spliced in at the file offset, which moves
   along; the result is the length exactly when everything fitted. "short filewrite" cannot happen. `ok` is
   false, for balloc's panic, exactly when fewer blocks are free than these bytes need.
   */
  method Filewrite(fs: FileSystem, ip: Inode, f: OpenFile, src: seq<Byte>) returns (r: int, ok: bool, ghost k: nat)
    requires fs.Holding(ip) && fs.st.dinos[ip.inum] == Ino(ip.size, ip.addrs)
    modifies fs`blk, fs`logged, fs`writes, fs`base, fs`st, ip, f
    ensures ok ==> k == Fits(old(f.off), old(ip.size), |src|) && r == if k == |src| then k else -1
    ensures ok ==> Writing(fs, ip, f, old(fs.st), old(f.off), src, k)
    ensures ok <==> Room(old(fs.st), ip.inum, RangeSlots(old(f.off), Fits(old(f.off), old(ip.size), |src|)))
  {
    hide Good, OthersSynced, Progress, Fits, Fills, Room, RangeSlots;
    NoProgress(fs.sb, fs.st, ip.inum, f.off, src);
    NothingFilled(fs.sb, fs.st, ip.inum, f.off);
    ghost var s0, off, size := fs.st, f.off, ip.size;
    var i := 0;
    r := 0;
    while i < |src| && r >= 0
      invariant i <= |src| && Writing(fs, ip, f, s0, off, src, i)
      invariant Account(off, size, |src|, i, ip.size, r >= 0) && Room(s0, ip.inum, RangeSlots(off, i))
      decreases |src| - i, r
    {
      var n1 := ChunkSize(|src| - i);
      r, ok := CountedChunk(fs, ip, f, src, i, n1, s0, off, size);
      if !ok {
        return -1, false, 0;
      }
      if r >= 0 {
        i := i + n1;
      }
    }
    return if i == |src| then |src| else -1, true, i;
  }

  /** fileread on an inode: the bytes from the file offset on, which moves behind them. */
  method Fileread(fs: FileSystem, ip: Inode, f: OpenFile, n: Uint) returns (dst: seq<Byte>, r: int)
    requires fs.Holding(ip)
    modifies fs`blk, fs`logged, fs`writes, fs`st, ip`addrs, f
    ensures fs.Holding(ip) && fs.st == old(fs.st) && fs.logged == old(fs.logged)
    ensures old(f.off) > ip.size || old(f.off) + n > UINT_MAX ==> r == -1 && dst == [] && f.off == old(f.off)
    ensures old(f.off) <= ip.size && old(f.off) + n <= UINT_MAX ==>
              && r == |dst| && f.off == old(f.off) + r <= ip.size && (r < n ==> f.off == ip.size)
              && ip.inum < |fs.st.files| && Shape(fs.st.files[ip.inum]) && ip.size <= MAXFILE * BSIZE
              && dst == Content(fs.st, ip.inum)[old(f.off)..f.off]
  {
    hide Good, OthersSynced;
    HasContent(fs.sb, fs.st, ip.inum);
    dst, r := Readi(fs, ip, f.off, n);
    if r > 0 {
      f.off := f.off + r;
    }
  }

  /** A successful writei followed by a readi of the same range gives back the bytes written. */
  method WriteThenRead(fs: FileSystem, ip: Inode, off: Uint, src: seq<Byte>) returns (r: int, ok: bool, dst: seq<Byte>)
    requires fs.Holding(ip) && |src| <= UINT_MAX && fs.st.dinos[ip.inum] == Ino(ip.size, ip.addrs)
    modifies fs`blk, fs`logged, fs`writes, fs`st, ip
    ensures ok && r >= 0 ==> r == |src| && dst == src && fs.Holding(ip) && Spliced(old(fs.st), fs.st, ip.inum, off, src)
  {
    hide Good, OthersSynced, Content;
    ghost var s, new_ := fs.st, {};
    HasContent(fs.sb, s, ip.inum);
    dst := [];
    r, ok, new_ := Writei(fs, ip, off, src);
    if ok && r >= 0 {
      ghost var c := Content(s, ip.inum);
      HasContent(fs.sb, fs.st, ip.inum);
      ReadBack(c, off, src);
      var m;
      dst, m := Readi(fs, ip, off, |src|);
    }
  }
}
