/**
 The buffer cache. Buffers are numbered as in bcache.buf[]; `HEAD` stands for bcache.head, and
 the prev/next pointers are buffer numbers.
 */
module Bio {
  import opened Options
  import opened Disk

  const NBUF: nat := 30
  const HEAD: nat := NBUF
  const ROOTDEV: nat := 1

  datatype Buf = Buf(dev: nat, blockno: Uint, valid: bool, dirty: bool, refcnt: nat, locked: bool, data: Block)

  // ---------------------------------------------------------------- the circular list

  /** The stops of a tour of the list: the head, the buffers of `order`, the head again. */
  function Tour(order: seq<nat>): seq<nat> { [HEAD] + order + [HEAD] }

  ghost predicate Members(order: seq<nat>)
  {
    && (forall k :: 0 <= k < |order| ==> order[k] < NBUF)
    && (forall j, k :: 0 <= j < k < |order| ==> order[j] != order[k])
  }

  ghost predicate Follows(next: seq<nat>, prev: seq<nat>, t: seq<nat>)
    requires |next| == |prev| == NBUF + 1 && forall k :: 0 <= k < |t| ==> t[k] <= NBUF
  {
    forall j, k :: 0 <= j && k == j + 1 && k < |t| ==> next[t[j]] == t[k] && prev[t[k]] == t[j]
  }

  /** `next` and `prev` form one doubly linked ring through the head that visits `order`. */
  ghost predicate Ring(next: seq<nat>, prev: seq<nat>, order: seq<nat>)
  {
    && |next| == |prev| == NBUF + 1 && Members(order)
    && (forall k :: 0 <= k < |order| + 2 ==> Tour(order)[k] <= NBUF)
    && Follows(next, prev, Tour(order))
  }

  lemma InsertAtHead(next: seq<nat>, prev: seq<nat>, order: seq<nat>, b: nat)
    requires Ring(next, prev, order) && b < NBUF && b !in order
    ensures next[HEAD] <= NBUF
    ensures Ring(next[b := next[HEAD]][HEAD := b], prev[b := HEAD][next[HEAD] := b], [b] + order)
  {
    var t, u := Tour(order), Tour([b] + order);
    assert t[0] == HEAD && next[t[0]] == t[1];
    var n, p := next[b := next[HEAD]][HEAD := b], prev[b := HEAD][next[HEAD] := b];
    forall j, k | 0 <= j && k == j + 1 && k < |u| ensures n[u[j]] == u[k] && p[u[k]] == u[j] {
      if j >= 2 {
        assert u[j] == t[j - 1] && u[k] == t[k - 1];
        assert next[t[j - 1]] == t[k - 1] && prev[t[k - 1]] == t[j - 1];
        assert t[k - 1] != t[1];
      }
    }
  }

  lemma Unlink(next: seq<nat>, prev: seq<nat>, order: seq<nat>, m: nat)
    requires Ring(next, prev, order) && m < |order|
    ensures next[order[m]] <= NBUF && prev[order[m]] <= NBUF
    ensures var b := order[m];
      Ring(next[prev[b] := next[b]], prev[next[b] := prev[b]], order[..m] + order[m + 1..])
  {
    var b, o := order[m], order[..m] + order[m + 1..];
    var t, u := Tour(order), Tour(o);
    assert t[m + 1] == b && next[t[m + 1]] == t[m + 2] && prev[t[m + 1]] == t[m];
    var n, p := next[prev[b] := next[b]], prev[next[b] := prev[b]];
    assert forall k :: 0 <= k < |u| ==> u[k] == if k <= m then t[k] else t[k + 1];
    forall j, k | 0 <= j && k == j + 1 && k < |u| ensures n[u[j]] == u[k] && p[u[k]] == u[j] {
      if j < m {
        assert next[t[j]] == t[k] && prev[t[k]] == t[j];
        assert t[k] != t[m + 2] && t[j] != t[m];
      } else if j > m {
        assert next[t[j + 1]] == t[k + 1] && prev[t[k + 1]] == t[j + 1];
        assert t[j + 1] != t[m] && t[k + 1] != t[m + 2];
      }
    }
  }

  // ---------------------------------------------------------------- buffers

  predicate Holds(b: Buf, dev: nat, blockno: Uint) { b.dev == dev && b.blockno == blockno }

  predicate Recyclable(b: Buf) { b.refcnt == 0 && !b.dirty }

  /** A block of a real device is held by at most one buffer; device 0 marks a never-used buffer. */
  ghost predicate OneBufferPerBlock(bufs: seq<Buf>)
  {
    forall i, j :: 0 <= i < j < |bufs| && bufs[i].dev != 0 ==> !Holds(bufs[j], bufs[i].dev, bufs[i].blockno)
  }

  ghost predicate BufOk(b: Buf, disk: seq<Block>, pinned: map<Uint, Block>)
  {
    && (b.dirty ==> b.valid && b.blockno in pinned)
    && (b.locked ==> b.refcnt > 0)
    && (b.valid ==> b.dev == ROOTDEV && b.blockno < |disk|)
    && (b.valid && !b.locked ==> b.data == Latest(disk, pinned, b.blockno))
  }

  ghost predicate Pins(bufs: seq<Buf>, b: Uint)
  {
    exists i :: 0 <= i < |bufs| && bufs[i].dirty && Holds(bufs[i], ROOTDEV, b)
  }

  /** The list runs from the most to the least recently released buffer. */
  ghost predicate ByRelease(order: seq<nat>, stamp: seq<nat>)
    requires forall k :: 0 <= k < |order| ==> order[k] < |stamp|
  {
    forall j, k :: 0 <= j < k < |order| ==> stamp[order[j]] > stamp[order[k]]
  }

  ghost predicate CacheOk(bufs: seq<Buf>, disk: seq<Block>, pinned: map<Uint, Block>)
  {
    && OneBufferPerBlock(bufs)
    && (forall i :: 0 <= i < |bufs| ==> BufOk(bufs[i], disk, pinned))
    && (forall b :: b in pinned ==> Pins(bufs, b))
  }

  predicate Cached(bufs: seq<Buf>, dev: nat, blockno: Uint)
  {
    exists i :: 0 <= i < |bufs| && Holds(bufs[i], dev, blockno)
  }

  lemma PinsSurvive(a: seq<Buf>, i: nat, b: Buf, x: Uint)
    requires i < |a| && Pins(a, x) && (a[i].dirty ==> b.dirty && Holds(b, a[i].dev, a[i].blockno))
    ensures Pins(a[i := b], x)
  {
    var j :| 0 <= j < |a| && a[j].dirty && Holds(a[j], ROOTDEV, x);
    assert a[i := b][j].dirty && Holds(a[i := b][j], ROOTDEV, x);
  }

  /** Changing one buffer, without touching which block it holds or dropping its dirty mark. */
  lemma UpdateKeepsCache(bufs: seq<Buf>, disk: seq<Block>, pinned: map<Uint, Block>, i: nat, b: Buf)
    requires CacheOk(bufs, disk, pinned) && i < |bufs|
    requires Holds(b, bufs[i].dev, bufs[i].blockno) && (bufs[i].dirty ==> b.dirty) && BufOk(b, disk, pinned)
    ensures CacheOk(bufs[i := b], disk, pinned)
  {
    forall x | x in pinned ensures Pins(bufs[i := b], x) { PinsSurvive(bufs, i, b, x); }
  }

  /** Giving a clean, unreferenced buffer to a block that no buffer holds. */
  lemma RecycleKeepsCache(bufs: seq<Buf>, disk: seq<Block>, pinned: map<Uint, Block>, i: nat, dev: nat, blockno: Uint)
    requires CacheOk(bufs, disk, pinned) && i < |bufs| && Recyclable(bufs[i]) && !Cached(bufs, dev, blockno)
    ensures CacheOk(bufs[i := bufs[i].(dev := dev, blockno := blockno, valid := false, refcnt := 1)], disk, pinned)
  {
    var b := bufs[i].(dev := dev, blockno := blockno, valid := false, refcnt := 1);
    forall x | x in pinned ensures Pins(bufs[i := b], x) { PinsSurvive(bufs, i, b, x); }
  }

  class Bcache {
    var bufs: seq<Buf>
    var next: seq<nat>
    var prev: seq<nat>
    var disk: seq<Block>
    ghost var order: seq<nat>
    /** When the reference count of each buffer last fell to 0 (at start: when it was linked in). */
    ghost var stamp: seq<nat>
    ghost var clock: nat
    /** Contents logged but not yet written home. */
    ghost var pinned: map<Uint, Block>

    ghost predicate ListOk()
      reads this
    {
      && |bufs| == |order| == |stamp| == NBUF
      && Ring(next, prev, order)
      && ByRelease(order, stamp)
      && (forall i :: 0 <= i < NBUF ==> i in order && stamp[i] < clock)
    }

    ghost predicate Valid()
      reads this
    {
      ListOk() && CacheOk(bufs, disk, pinned)
    }

    /** binit */
    constructor (image: seq<Block>)
      ensures Valid() && disk == image && pinned == map[]
      ensures forall i :: 0 <= i < NBUF ==> bufs[i].dev == 0 && Recyclable(bufs[i]) && !bufs[i].valid && stamp[i] == i
    {
      disk := image;
      pinned := map[];
      bufs := seq(NBUF, _ => Buf(0, 0, false, false, 0, false, seq(BSIZE, _ => 0)));
      var nx: seq<nat>, pv: seq<nat> := seq(NBUF + 1, _ => HEAD), seq(NBUF + 1, _ => HEAD);
      ghost var o: seq<nat>, st: seq<nat> := [], [];
      var b := 0;
      while b < NBUF
        invariant b <= NBUF && Ring(nx, pv, o) && |o| == |st| == b
        invariant forall k :: 0 <= k < b ==> o[k] == b - 1 - k
        invariant forall k :: 0 <= k < b ==> st[k] == k
        invariant forall i :: 0 <= i < b ==> i in o
      {
        InsertAtHead(nx, pv, o, b);
        pv := pv[b := HEAD][nx[HEAD] := b];
        nx := nx[b := nx[HEAD]][HEAD := b];
        o := [b] + o;
        st := st + [b];
        b := b + 1;
      }
      next, prev, order, stamp, clock := nx, pv, o, st, NBUF;
    }

    /** First loop of bget: look for the block from the most recently used end. */
    method Find(dev: nat, blockno: Uint) returns (r: Option<nat>)
      requires ListOk()
      ensures r.Some? ==> r.value < NBUF && Holds(bufs[r.value], dev, blockno)
      ensures r.None? ==> !Cached(bufs, dev, blockno)
    {
      ghost var t := Tour(order);
      var b := next[HEAD];
      ghost var k := 1;
      assert t[0] == HEAD && t[1] == b;
      while b != HEAD
        invariant 1 <= k < |t| && b == t[k] <= NBUF
        invariant forall j :: 0 <= j < k - 1 ==> !Holds(bufs[order[j]], dev, blockno)
        decreases |t| - k
      {
        assert b == order[k - 1];
        if Holds(bufs[b], dev, blockno) {
          return Some(b);
        }
        assert next[t[k]] == t[k + 1];
        b := next[b];
        k := k + 1;
      }
      forall i | 0 <= i < NBUF ensures !Holds(bufs[i], dev, blockno) {
        assert i in order;
      }
      return None;
    }

    /** Second loop of bget: from the least recently used end, the first buffer free for reuse. */
    method FindVictim() returns (r: Option<nat>)
      requires ListOk()
      ensures r.Some? ==> r.value < NBUF && Recyclable(bufs[r.value])
      ensures r.Some? ==> forall i :: 0 <= i < NBUF && Recyclable(bufs[i]) ==> stamp[r.value] <= stamp[i]
      ensures r.None? ==> forall i :: 0 <= i < NBUF ==> !Recyclable(bufs[i])
    {
      ghost var t := Tour(order);
      var b := prev[HEAD];
      ghost var k := |order|;
      assert t[k + 1] == HEAD && prev[t[k + 1]] == t[k];
      while b != HEAD
        invariant 0 <= k <= |order| && b == t[k] <= NBUF
        invariant forall j :: k <= j < |order| ==> !Recyclable(bufs[order[j]])
        decreases k
      {
        assert b == order[k - 1];
        if Recyclable(bufs[b]) {
          return Some(b);
        }
        assert prev[t[k]] == t[k - 1];
        b := prev[b];
        k := k - 1;
      }
      forall i | 0 <= i < NBUF ensures !Recyclable(bufs[i]) {
        assert i in order;
      }
      return None;
    }

    /**
     The part of bget that runs under bcache.lock: pick the buffer and take a reference. `None` is
     the "no buffers" panic. On a miss the buffer released longest ago among the clean, unreferenced
     ones is recycled.
     */
    method Bget(dev: nat, blockno: Uint) returns (r: Option<nat>)
      requires Valid()
      modifies this`bufs
      ensures Valid()
      ensures r.Some? ==> r.value < NBUF
      ensures Cached(old(bufs), dev, blockno) ==>
                && r.Some? && Holds(old(bufs)[r.value], dev, blockno)
                && bufs == old(bufs)[r.value := old(bufs)[r.value].(refcnt := old(bufs)[r.value].refcnt + 1)]
      ensures !Cached(old(bufs), dev, blockno) && r.Some? ==>
                && Recyclable(old(bufs)[r.value])
                && (forall i :: 0 <= i < NBUF && Recyclable(old(bufs)[i]) ==> stamp[r.value] <= stamp[i])
                && bufs == old(bufs)[r.value := old(bufs)[r.value].(dev := dev, blockno := blockno, valid := false,
                   refcnt := 1)]
      ensures r.None? ==> bufs == old(bufs) && forall i :: 0 <= i < NBUF ==> !Recyclable(bufs[i])
    {
      r := Find(dev, blockno);
      if r.Some? {
        var b := bufs[r.value].(refcnt := bufs[r.value].refcnt + 1);
        UpdateKeepsCache(bufs, disk, pinned, r.value, b);
        bufs := bufs[r.value := b];
        return;
      }
      r := FindVictim();
      if r.Some? {
        RecycleKeepsCache(bufs, disk, pinned, r.value, dev, blockno);
        bufs := bufs[r.value := bufs[r.value].(dev := dev, blockno := blockno, valid := false, refcnt := 1)];
      }
    }

    /** acquiresleep on a buffer one holds a reference to; a locked buffer makes the caller wait. */
    method Lock(i: nat)
      requires Valid() && i < NBUF && bufs[i].refcnt > 0 && !bufs[i].locked
      modifies this`bufs
      ensures Valid() && bufs == old(bufs)[i := old(bufs)[i].(locked := true)]
    {
      UpdateKeepsCache(bufs, disk, pinned, i, bufs[i].(locked := true));
      bufs := bufs[i := bufs[i].(locked := true)];
    }

    /** The tail of bread: iderw reads the block unless the buffer is already valid. */
    method Fill(i: nat)
      requires Valid() && i < NBUF && bufs[i].locked && bufs[i].dev == ROOTDEV && bufs[i].blockno < |disk|
      modifies this`bufs
      ensures Valid()
      ensures bufs == old(bufs)[i := if old(bufs)[i].valid then old(bufs)[i]
                                     else old(bufs)[i].(valid := true, data := disk[old(bufs)[i].blockno])]
    {
      if !bufs[i].valid {
        var b := bufs[i].(valid := true, data := disk[bufs[i].blockno]);
        UpdateKeepsCache(bufs, disk, pinned, i, b);
        bufs := bufs[i := b];
      }
    }

    /** bread, when no one else holds the block: the caller gets the last contents logged for it. */
    method Bread(blockno: Uint) returns (r: Option<nat>)
      requires Valid() && blockno < |disk|
      requires forall i :: 0 <= i < NBUF && Holds(bufs[i], ROOTDEV, blockno) ==> !bufs[i].locked
      modifies this`bufs
      ensures Valid()
      ensures r.None? ==> bufs == old(bufs)
      ensures r.None? <==>
                !Cached(old(bufs), ROOTDEV, blockno)
                && forall i :: 0 <= i < NBUF ==> old(bufs)[i].refcnt > 0 || old(bufs)[i].dirty
      ensures r.Some? ==> r.value < NBUF
      ensures r.Some? ==>
                var b := bufs[r.value];
                && Holds(b, ROOTDEV, blockno) && b.valid && b.locked && b.data == Latest(disk, pinned, blockno)
                && (b.dirty <==> blockno in pinned)
                && bufs == old(bufs)[r.value := b]
                && (b.refcnt == 1 || b.refcnt == old(bufs)[r.value].refcnt + 1)
                && (Recyclable(old(bufs)[r.value]) || Holds(old(bufs)[r.value], ROOTDEV, blockno))
                && (!old(bufs)[r.value].locked)
    {
      r := Bget(ROOTDEV, blockno);
      if r.Some? {
        Lock(r.value);
        Fill(r.value);
        if blockno in pinned {
          assert Pins(bufs, blockno);
        }
      }
    }

    /** bwrite: only log.c calls it. The block goes home and is no longer pinned. */
    method Bwrite(i: nat)
      requires Valid() && i < NBUF && bufs[i].locked && bufs[i].valid
      modifies this`bufs, this`disk, this`pinned
      ensures Valid()
      ensures bufs == old(bufs)[i := old(bufs)[i].(dirty := false)]
      ensures disk == old(disk)[old(bufs)[i].blockno := old(bufs)[i].data]
      ensures pinned == old(pinned) - {old(bufs)[i].blockno}
    {
      var b := bufs[i];
      ghost var was := bufs;
      disk := disk[b.blockno := b.data];
      pinned := pinned - {b.blockno};
      bufs := bufs[i := b.(dirty := false)];
      forall j | 0 <= j < NBUF ensures BufOk(bufs[j], disk, pinned) {
        assert BufOk(was[j], old(disk), old(pinned));
        assert j != i ==> !(was[j].dev == ROOTDEV && was[j].blockno == b.blockno);
      }
      forall x | x in pinned ensures Pins(bufs, x) {
        var j :| 0 <= j < |was| && was[j].dirty && Holds(was[j], ROOTDEV, x);
        assert bufs[j].dirty && Holds(bufs[j], ROOTDEV, x);
      }
    }

    /** The caller changes the contents of a buffer it has locked. */
    method Modify(i: nat, data: Block)
      requires Valid() && i < NBUF && bufs[i].locked
      modifies this`bufs
      ensures Valid() && bufs == old(bufs)[i := old(bufs)[i].(data := data)]
    {
      UpdateKeepsCache(bufs, disk, pinned, i, bufs[i].(data := data));
      bufs := bufs[i := bufs[i].(data := data)];
    }

    /** The last step of log_write: set B_DIRTY, which pins the contents. */
    method Pin(i: nat)
      requires Valid() && i < NBUF && bufs[i].locked && bufs[i].valid
      modifies this`bufs, this`pinned
      ensures Valid()
      ensures bufs == old(bufs)[i := old(bufs)[i].(dirty := true)]
      ensures pinned == old(pinned)[old(bufs)[i].blockno := old(bufs)[i].data]
    {
      var b := bufs[i];
      ghost var was := bufs;
      pinned := pinned[b.blockno := b.data];
      bufs := bufs[i := b.(dirty := true)];
      forall j | 0 <= j < NBUF ensures BufOk(bufs[j], disk, pinned) {
        assert BufOk(was[j], disk, old(pinned));
        assert j != i ==> !(was[j].dev == ROOTDEV && was[j].blockno == b.blockno);
      }
      forall x | x in pinned ensures Pins(bufs, x) {
        if x == b.blockno {
          assert bufs[i].dirty && Holds(bufs[i], ROOTDEV, x);
        } else {
          PinsSurvive(was, i, bufs[i], x);
        }
      }
    }

    /**
     brelse: the buffer must again hold what readers should see. When the last reference goes, the
     buffer moves to the front of the list.
     */
    method Brelse(i: nat)
      requires Valid() && i < NBUF && bufs[i].locked
      requires bufs[i].valid ==> bufs[i].data == Latest(disk, pinned, bufs[i].blockno)
      modifies this`bufs, this`next, this`prev, this`order, this`stamp, this`clock
      ensures Valid()
      ensures bufs == old(bufs)[i := old(bufs)[i].(locked := false, refcnt := old(bufs)[i].refcnt - 1)]
      ensures old(bufs)[i].refcnt > 1 ==> order == old(order) && stamp == old(stamp)
      ensures old(bufs)[i].refcnt == 1 ==> order[0] == i && stamp == old(stamp)[i := old(clock)]
    {
      var b := bufs[i].(locked := false, refcnt := bufs[i].refcnt - 1);
      assert BufOk(bufs[i], disk, pinned);
      UpdateKeepsCache(bufs, disk, pinned, i, b);
      bufs := bufs[i := b];
      if b.refcnt == 0 {
        MoveToFront(i);
      }
    }

    /** Unlink the buffer and link it in again right behind the head. */
    method MoveToFront(i: nat)
      requires ListOk() && i < NBUF
      modifies this`next, this`prev, this`order, this`stamp, this`clock
      ensures ListOk() && order[0] == i && stamp == old(stamp)[i := old(clock)]
    {
      hide Ring, ByRelease, Members;
      RingShape(next, prev, order);
      ghost var m := PlaceOf(order, i);
      ghost var rest := order[..m] + order[m + 1..];
      NotInRest(order, m);
      Unlink(next, prev, order, m);
      var nx, pv := next[prev[i] := next[i]], prev[next[i] := prev[i]];
      InsertAtHead(nx, pv, rest, i);
      FrontKeepsList(order, stamp, clock, m);
      next, prev := nx[i := nx[HEAD]][HEAD := i], pv[i := HEAD][nx[HEAD] := i];
      order, stamp, clock := [i] + rest, stamp[i := clock], clock + 1;
    }
  }

  lemma RingShape(next: seq<nat>, prev: seq<nat>, order: seq<nat>)
    requires Ring(next, prev, order)
    ensures |next| == |prev| == NBUF + 1 && Members(order)
  {
  }

  lemma PlaceOf(order: seq<nat>, i: nat) returns (m: nat)
    requires i in order
    ensures m < |order| && order[m] == i
  {
    m :| 0 <= m < |order| && order[m] == i;
  }

  lemma NotInRest(order: seq<nat>, m: nat)
    requires Members(order) && m < |order|
    ensures order[m] !in order[..m] + order[m + 1..]
  {
  }

  lemma FrontKeepsMembers(order: seq<nat>, m: nat, i: nat)
    requires m < |order| && i in order
    ensures i in [order[m]] + (order[..m] + order[m + 1..])
  {
    assert order == order[..m] + [order[m]] + order[m + 1..];
  }

  lemma RestByRelease(order: seq<nat>, stamp: seq<nat>, m: nat)
    requires m < |order| && (forall k :: 0 <= k < |order| ==> order[k] < |stamp|) && ByRelease(order, stamp)
    ensures ByRelease(order[..m] + order[m + 1..], stamp)
  {
    var r := order[..m] + order[m + 1..];
    forall j, k | 0 <= j < k < |r| ensures stamp[r[j]] > stamp[r[k]] {
      assert r[j] == order[if j < m then j else j + 1] && r[k] == order[if k < m then k else k + 1];
    }
  }

  lemma ConsByRelease(i: nat, r: seq<nat>, stamp: seq<nat>, clock: nat)
    requires i < |stamp| && (forall k :: 0 <= k < |r| ==> r[k] < |stamp|) && ByRelease(r, stamp)
    requires forall k :: 0 <= k < |r| ==> stamp[r[k]] < clock && r[k] != i
    ensures ByRelease([i] + r, stamp[i := clock])
  {
    var o := [i] + r;
    forall j, k | 0 <= j < k < |o| ensures stamp[i := clock][o[j]] > stamp[i := clock][o[k]] {
      if j > 0 {
        assert o[j] == r[j - 1] && o[k] == r[k - 1];
      }
    }
  }

  lemma FrontKeepsList(order: seq<nat>, stamp: seq<nat>, clock: nat, m: nat)
    requires |order| == |stamp| == NBUF && Members(order) && m < NBUF && ByRelease(order, stamp)
    requires forall i :: 0 <= i < NBUF ==> i in order && stamp[i] < clock
    ensures var o := [order[m]] + (order[..m] + order[m + 1..]);
      |o| == NBUF && ByRelease(o, stamp[order[m] := clock]) && forall i :: 0 <= i < NBUF ==> i in o
  {
    var r := order[..m] + order[m + 1..];
    RestByRelease(order, stamp, m);
    assert forall k :: 0 <= k < |r| ==> r[k] == order[if k < m then k else k + 1];
    ConsByRelease(order[m], r, stamp, clock);
    forall i | 0 <= i < NBUF ensures i in [order[m]] + r {
      assert i in order;
      FrontKeepsMembers(order, m, i);
    }
  }
}
