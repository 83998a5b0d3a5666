/** The allocator of umalloc.c on its memory of headers. Addresses and sizes count 8-byte Header units. */
module Umalloc {
  import opened FreeList

  const HEADER := 8
  const WRAP := 0x1_0000_0000
  /** The end of user space, KERNBASE, in units. */
  const TOP := 0x8000_0000 / 8
  /** The largest request whose block still has a positive `int` number of bytes. */
  const MAXREQUEST := 0x7FFF_FFF0
  const MINGROW := 4096

  // ---------------------------------------------------------------- 32-bit requests

  /** Units for `nbytes` bytes and a header, in unsigned 32-bit arithmetic. */
  function NUnits(nbytes: int): int { ((nbytes + HEADER - 1) % WRAP) / HEADER + 1 }

  /** The same for a request in range: enough units, and at least one. */
  function UnitsFor(nbytes: int): (nu: int)
    requires 0 <= nbytes <= MAXREQUEST
    ensures nu == NUnits(nbytes) && nu >= 1 && nbytes <= (nu - 1) * HEADER < nbytes + HEADER
  {
    RequestExact(nbytes);
    NUnits(nbytes)
  }

  function Grow(nu: int): int { if nu < MINGROW then MINGROW else nu }

  /** What sbrk is handed: an unsigned product taken as a signed `int`. */
  function SbrkArg(nu: int): int
  {
    var m := (nu * HEADER) % WRAP;
    if m < WRAP / 2 then m else m - WRAP
  }

  /** The block holds the request, and sbrk is asked for the units that morecore records, exactly up to MAXREQUEST. */
  lemma RequestExact(nbytes: int)
    requires 0 <= nbytes < WRAP
    ensures var nu := NUnits(nbytes);
      nbytes <= MAXREQUEST <==> nbytes <= (nu - 1) * HEADER && SbrkArg(Grow(nu)) == Grow(nu) * HEADER
    ensures nbytes <= MAXREQUEST ==> NUnits(nbytes) * HEADER < nbytes + 2 * HEADER
  {
    var nu := NUnits(nbytes);
    if nbytes <= WRAP - HEADER {
      assert nu == (nbytes + HEADER - 1) / HEADER + 1;
      var m := (Grow(nu) * HEADER) % WRAP;
      assert nbytes > MAXREQUEST ==> nu >= TOP;
    }
  }

  /** The largest request is granted a block with no room after its header. */
  lemma BigRequestWraps()
    ensures NUnits(0xFFFF_FFFF) == 1
    ensures SbrkArg(Grow(NUnits(0xFFFF_FFF8))) == 0
  {
  }

  // ---------------------------------------------------------------- the circular list in memory

  type Mem = map<int, int>

  /** Every header points at the next one, and the last at the first. */
  ghost predicate Linked(fl: seq<Blk>, ptr: Mem)
  {
    && (forall i :: 0 <= i < |fl| ==> fl[i].a in ptr)
    && (forall i, j :: 0 <= i < |fl| && 0 <= j < |fl| && (j == i + 1 || (i == |fl| - 1 && j == 0)) ==>
         ptr[fl[i].a] == fl[j].a)
  }

  ghost predicate Sized(fl: seq<Blk>, size: Mem)
  {
    forall i :: 0 <= i < |fl| ==> fl[i].a in size && size[fl[i].a] == fl[i].n
  }

  function Succ(fl: seq<Blk>, i: nat): nat { if i + 1 < |fl| then i + 1 else 0 }

  lemma Between(fl: seq<Blk>, base: int, b: Blk)
    requires Canonical(fl, base) && Fits(fl, base, b)
    ensures forall i, j :: 0 <= i < j < |fl| ==> fl[i].a < fl[j].a
    ensures var t := Below(fl, b.a); t < |fl| && fl[t].a < b.a && (t + 1 < |fl| ==> b.a < fl[t + 1].a)
  {
    BelowIs(fl, base, b.a);
    var t := Below(fl, b.a);
    if t + 1 < |fl| {
      assert Apart(fl[t + 1], b) && fl[t + 1].n > 0;
    }
    forall i, j | 0 <= i < j < |fl| ensures fl[i].a < fl[j].a {
      assert fl[i].a + fl[i].n < fl[j].a && fl[i].n >= 0;
    }
  }

  /** free's two tests stop the scan at the last block below `bp` and nowhere else. */
  lemma StopsBelow(fl: seq<Blk>, base: int, b: Blk, k: nat)
    requires Canonical(fl, base) && Fits(fl, base, b) && k < |fl|
    ensures var p, q, bp := fl[k].a, fl[Succ(fl, k)].a, b.a;
      (bp > p && bp < q) || (p >= q && (bp > p || bp < q)) <==> k == Below(fl, b.a)
  {
    hide Canonical, Fits, Below;
    Between(fl, base, b);
    var t := Below(fl, b.a);
    assert k < t ==> fl[k + 1].a <= fl[t].a;
    assert k > t ==> fl[t + 1].a <= fl[k].a;
    assert 0 < t ==> fl[0].a < fl[t].a;
  }

  /** Steps round the list from `k` to `t`. */
  function Steps(n: nat, k: nat, t: nat): nat
    requires k < n && t < n
  {
    if k <= t then t - k else n + t - k
  }

  /** Memory in which blocks `lo` up to `hi` have become one. */
  lemma ReplaceLinked(fl: seq<Blk>, base: int, lo: nat, hi: nat, m: Blk, ptr: Mem, ptr': Mem)
    requires Canonical(fl, base) && Linked(fl, ptr) && 1 <= lo <= hi <= |fl|
    requires m.a in ptr' && fl[lo - 1].a in ptr' && ptr'[fl[lo - 1].a] == m.a
    requires ptr'[m.a] == if hi < |fl| then fl[hi].a else base
    requires forall j :: (0 <= j < lo - 1 || hi <= j < |fl|) ==> fl[j].a in ptr' && ptr'[fl[j].a] == ptr[fl[j].a]
    ensures Linked(Replace(fl, lo, hi, m), ptr')
  {
    var r := Replace(fl, lo, hi, m);
    forall i | 0 <= i < |r| ensures r[i].a in ptr' {
      ReplaceAt(fl, lo, hi, m, i);
    }
    forall i, j | 0 <= i < |r| && 0 <= j < |r| && (j == i + 1 || (i == |r| - 1 && j == 0))
      ensures ptr'[r[i].a] == r[j].a {
      ReplaceAt(fl, lo, hi, m, i);
      ReplaceAt(fl, lo, hi, m, j);
      var i', j' := if i < lo then i else i + hi - lo - 1, if j < lo then j else j + hi - lo - 1;
      if i != lo && i != lo - 1 {
        assert ptr'[fl[i'].a] == ptr[fl[i'].a] && ptr[fl[i'].a] == fl[j'].a;
      }
    }
  }

  lemma ReplaceSized(fl: seq<Blk>, lo: nat, hi: nat, m: Blk, size: Mem, size': Mem)
    requires Sized(fl, size) && lo <= hi <= |fl|
    requires m.a in size' && size'[m.a] == m.n
    requires forall j :: (0 <= j < lo || hi <= j < |fl|) ==> fl[j].a in size' && size'[fl[j].a] == size[fl[j].a]
    ensures Sized(Replace(fl, lo, hi, m), size')
  {
    var r := Replace(fl, lo, hi, m);
    forall i | 0 <= i < |r| ensures r[i].a in size' && size'[r[i].a] == r[i].n {
      ReplaceAt(fl, lo, hi, m, i);
    }
  }

  /** The writes of free. */
  function PutPtr(ptr: Mem, fl: seq<Blk>, b: Blk, t: nat): Mem
    requires t < |fl| && fl[Succ(fl, t)].a in ptr
  {
    var q := fl[Succ(fl, t)].a;
    var p1 := ptr[b.a := if b.a + b.n == q then ptr[q] else q];
    p1[fl[t].a := if Down(fl, b, t) then p1[b.a] else b.a]
  }

  function PutSize(size: Mem, fl: seq<Blk>, b: Blk, t: nat): Mem
    requires t < |fl| && fl[Succ(fl, t)].a in size && b.a in size && fl[t].a in size
  {
    var q := fl[Succ(fl, t)].a;
    var s1 := if b.a + b.n == q then size[b.a := size[b.a] + size[q]] else size;
    if Down(fl, b, t) then s1[fl[t].a := s1[fl[t].a] + s1[b.a]] else s1
  }

  lemma FreeLinked(fl: seq<Blk>, base: int, b: Blk, t: nat, ptr: Mem)
    requires Canonical(fl, base) && Fits(fl, base, b) && t == Below(fl, b.a) && Linked(fl, ptr)
    ensures Linked(Insert(fl, b, t), PutPtr(ptr, fl, b, t))
  {
    var lo, hi := if Down(fl, b, t) then t else t + 1, if Up(fl, b, t) then t + 2 else t + 1;
    PutPtrAt(fl, base, b, t, ptr);
    PutPtrKeeps(fl, base, b, t, ptr);
    MergedEnds(fl, base, b, t);
    ReplaceLinked(fl, base, lo, hi, Merged(fl, b, t), ptr, PutPtr(ptr, fl, b, t));
  }

  lemma PutPtrKeeps(fl: seq<Blk>, base: int, b: Blk, t: nat, ptr: Mem)
    requires Canonical(fl, base) && Fits(fl, base, b) && t == Below(fl, b.a) && Linked(fl, ptr)
    ensures var r := PutPtr(ptr, fl, b, t);
      forall j :: 0 <= j < |fl| && j != t ==> fl[j].a in r && r[fl[j].a] == ptr[fl[j].a]
  {
    NotOnList(fl, base, b);
    forall j | 0 <= j < |fl| && j != t ensures fl[j].a != fl[t].a {
      OrderedApart(fl, base, j, t);
    }
  }

  lemma OrderedApart(fl: seq<Blk>, base: int, i: nat, j: nat)
    requires Canonical(fl, base) && i < |fl| && j < |fl| && i != j
    ensures fl[i].a != fl[j].a
  {
    assert fl[i].n >= 0 && fl[j].n >= 0;
    var x, y := if i < j then i else j, if i < j then j else i;
    assert fl[x].a + fl[x].n < fl[y].a;
  }

  lemma PutPtrAt(fl: seq<Blk>, base: int, b: Blk, t: nat, ptr: Mem)
    requires Canonical(fl, base) && Fits(fl, base, b) && t == Below(fl, b.a) && Linked(fl, ptr)
    ensures var r, m, lo := PutPtr(ptr, fl, b, t), Merged(fl, b, t), if Down(fl, b, t) then t else t + 1;
      var hi := if Up(fl, b, t) then t + 2 else t + 1;
      && lo >= 1 && m.a in r && fl[lo - 1].a in r && r[fl[lo - 1].a] == m.a
      && r[m.a] == if hi < |fl| then fl[hi].a else base
  {
    hide Canonical, Fits;
    Neighbours(fl, base, b);
    NotOnList(fl, base, b);
    UpIs(fl, base, b, t);
    if Up(fl, b, t) {
      assert ptr[fl[t + 1].a] == fl[Succ(fl, t + 1)].a;
      OrderedApart(fl, base, t, t + 1);
    }
    if Down(fl, b, t) {
      OrderedApart(fl, base, t, t - 1);
      assert ptr[fl[t - 1].a] == fl[t].a;
    }
  }

  /** The list starts at the base, so nothing below its first block touches the last. */
  lemma UpIs(fl: seq<Blk>, base: int, b: Blk, t: nat)
    requires Canonical(fl, base) && Fits(fl, base, b) && t == Below(fl, b.a)
    ensures fl[0].a == base && (Up(fl, b, t) <==> b.a + b.n == fl[Succ(fl, t)].a)
  {
    Neighbours(fl, base, b);
  }

  lemma NotOnList(fl: seq<Blk>, base: int, b: Blk)
    requires Canonical(fl, base) && Fits(fl, base, b)
    ensures forall i :: 0 <= i < |fl| ==> fl[i].a != b.a
  {
    forall i | 0 <= i < |fl| ensures fl[i].a != b.a {
      assert Apart(fl[i], b) && (i > 0 ==> fl[i].n > 0);
    }
  }

  lemma FreeSized(fl: seq<Blk>, base: int, b: Blk, t: nat, size: Mem)
    requires Canonical(fl, base) && Fits(fl, base, b) && t == Below(fl, b.a) && Sized(fl, size)
    requires b.a in size && size[b.a] == b.n
    ensures Sized(Insert(fl, b, t), PutSize(size, fl, b, t))
  {
    hide Canonical, Fits;
    Between(fl, base, b);
    UpIs(fl, base, b, t);
    var lo, hi := if Down(fl, b, t) then t else t + 1, if Up(fl, b, t) then t + 2 else t + 1;
    NotOnList(fl, base, b);
    ReplaceSized(fl, lo, hi, Merged(fl, b, t), size, PutSize(size, fl, b, t));
  }

  /** The link malloc writes. */
  function PutLink(ptr: Mem, fl: seq<Blk>, k: nat, n: int, j: nat): Mem
    requires k < |fl| && j < |fl| && fl[k].a in ptr
  {
    if fl[k].n == n then ptr[fl[j].a := ptr[fl[k].a]] else ptr
  }

  lemma TakeLinked(fl: seq<Blk>, base: int, k: nat, n: int, ptr: Mem, j: nat)
    requires Canonical(fl, base) && Linked(fl, ptr) && k < |fl| && 0 < n <= fl[k].n && j < |fl| && Succ(fl, j) == k
    ensures Linked(Take(fl, k, n), PutLink(ptr, fl, k, n, j))
  {
    if fl[k].n == n {
      TakeOutLinked(fl, base, k, ptr);
    } else {
      var r := Take(fl, k, n);
      assert forall i :: 0 <= i < |r| ==> r[i].a == fl[i].a;
    }
  }

  lemma TakeOutLinked(fl: seq<Blk>, base: int, k: nat, ptr: Mem)
    requires Canonical(fl, base) && Linked(fl, ptr) && 1 <= k < |fl|
    ensures Linked(fl[..k] + fl[k + 1..], ptr[fl[k - 1].a := ptr[fl[k].a]])
  {
    hide Canonical;
    var r, ptr' := fl[..k] + fl[k + 1..], ptr[fl[k - 1].a := ptr[fl[k].a]];
    forall i, j | 0 <= i < |r| && 0 <= j < |r| && (j == i + 1 || (i == |r| - 1 && j == 0))
      ensures ptr'[r[i].a] == r[j].a {
      var i', j' := if i < k then i else i + 1, if j < k then j else j + 1;
      assert r[i] == fl[i'] && r[j] == fl[j'];
      if i != k - 1 {
        OrderedApart(fl, base, i', k - 1);
        assert ptr[fl[i'].a] == fl[j'].a;
      } else {
        assert ptr[fl[k].a] == fl[Succ(fl, k)].a;
      }
    }
  }

  lemma TakeSized(fl: seq<Blk>, base: int, k: nat, n: int, size: Mem)
    requires Canonical(fl, base) && Sized(fl, size) && k < |fl| && 0 < n <= fl[k].n
    ensures Sized(Take(fl, k, n), PutTaken(size, fl, k, n))
  {
    var r := Take(fl, k, n);
    forall i | 0 <= i < |r| ensures r[i].a in PutTaken(size, fl, k, n) && PutTaken(size, fl, k, n)[r[i].a] == r[i].n {
      var i' := if i < k || fl[k].n != n then i else i + 1;
      assert r[i].a == fl[i'].a;
      if i' != k {
        OrderedApart(fl, base, i', k);
        assert !In(fl[k], fl[i'].a);
      }
    }
  }

  /** The sizes malloc writes. */
  function PutTaken(size: Mem, fl: seq<Blk>, k: nat, n: int): Mem
    requires k < |fl|
  {
    if fl[k].n == n then size else size[fl[k].a := fl[k].n - n][Taken(fl, k, n).a := n]
  }

  // ---------------------------------------------------------------- who has which unit

  type Live = map<int, int>

  ghost predicate LiveIn(live: Live, u: int) { exists a :: a in live && In(Blk(a, live[a]), u) }

  /** Live blocks are not empty, lie above the base, and share no unit with each other or with the free list. */
  ghost predicate LiveApart(live: Live, fl: seq<Blk>, base: int)
  {
    && (forall a :: a in live ==> Fits(fl, base, Blk(a, live[a])))
    && (forall a, b :: a in live && b in live && a != b ==> Apart(Blk(a, live[a]), Blk(b, live[b])))
  }

  /** Every unit got from sbrk is free or live, and no other unit is. */
  ghost predicate Conserved(got: iset<int>, live: Live, fl: seq<Blk>)
  {
    forall u :: u in got <==> Covers(fl, u) || LiveIn(live, u)
  }

  ghost predicate Owned(got: iset<int>, live: Live, fl: seq<Blk>, base: int)
  {
    Canonical(fl, base) && LiveApart(live, fl, base) && Conserved(got, live, fl)
  }

  /** A unit is never both free and live, nor in two live blocks. */
  lemma OneOwner(got: iset<int>, live: Live, fl: seq<Blk>, base: int, u: int)
    requires Owned(got, live, fl, base) && LiveIn(live, u)
    ensures !Covers(fl, u) && u != base
    ensures forall a, b :: a in live && b in live && In(Blk(a, live[a]), u) && In(Blk(b, live[b]), u) ==> a == b
  {
    forall i, a | 0 <= i < |fl| && a in live && In(Blk(a, live[a]), u) ensures !In(fl[i], u) {
      assert Apart(fl[i], Blk(a, live[a]));
    }
  }

  lemma FreeOwned(got: iset<int>, live: Live, fl: seq<Blk>, base: int, a: int)
    requires Owned(got, live, fl, base) && a in live
    ensures var b := Blk(a, live[a]); Owned(got, live - {a}, Insert(fl, b, Below(fl, a)), base)
  {
    var b, live' := Blk(a, live[a]), live - {a};
    var fl' := Insert(fl, b, Below(fl, a));
    InsertCanonical(fl, base, b);
    forall c | c in live' ensures Fits(fl', base, Blk(c, live'[c])) {
      InsertFits(fl, base, b, Blk(c, live[c]));
    }
    forall u ensures u in got <==> Covers(fl', u) || LiveIn(live', u) {
      InsertCovers(fl, base, b, u);
      LessLive(live, a, u);
    }
  }

  lemma LessLive(live: Live, a: int, u: int)
    requires a in live
    ensures LiveIn(live, u) <==> LiveIn(live - {a}, u) || In(Blk(a, live[a]), u)
  {
    if LiveIn(live, u) {
      var c :| c in live && In(Blk(c, live[c]), u);
      assert c != a ==> c in live - {a};
    }
    if LiveIn(live - {a}, u) {
      var c :| c in live - {a} && In(Blk(c, live[c]), u);
      assert c in live;
    }
  }

  lemma MoreLive(live: Live, a: int, n: int, u: int)
    requires a !in live
    ensures LiveIn(live[a := n], u) <==> LiveIn(live, u) || In(Blk(a, n), u)
  {
    var more := live[a := n];
    LessLive(more, a, u);
    assert more - {a} == live;
  }

  ghost function Region(p: int, n: int): iset<int> { iset u: int | In(Blk(p, n), u) }

  lemma GrowOwned(got: iset<int>, live: Live, fl: seq<Blk>, base: int, b: Blk)
    requires Owned(got, live, fl, base) && b.n > 0 && base < b.a && forall u :: u in got ==> u < b.a
    ensures Fits(fl, base, b)
    ensures Owned(got + Region(b.a, b.n), live, Insert(fl, b, Below(fl, b.a)), base)
  {
    forall i | 0 <= i < |fl| ensures Apart(fl[i], b) {
      if fl[i].n > 0 {
        assert In(fl[i], fl[i].a + fl[i].n - 1);
        assert Covers(fl, fl[i].a + fl[i].n - 1);
      }
    }
    var fl' := Insert(fl, b, Below(fl, b.a));
    InsertCanonical(fl, base, b);
    forall c | c in live ensures Fits(fl', base, Blk(c, live[c])) {
      assert In(Blk(c, live[c]), c + live[c] - 1) && LiveIn(live, c + live[c] - 1);
      InsertFits(fl, base, b, Blk(c, live[c]));
    }
    forall u ensures u in got + Region(b.a, b.n) <==> Covers(fl', u) || LiveIn(live, u) {
      InsertCovers(fl, base, b, u);
    }
  }

  lemma TakeOwned(got: iset<int>, live: Live, fl: seq<Blk>, base: int, k: nat, n: int)
    requires Owned(got, live, fl, base) && k < |fl| && 0 < n <= fl[k].n
    ensures Owned(got, live[Taken(fl, k, n).a := n], Take(fl, k, n), base)
    ensures Taken(fl, k, n).a !in live
  {
    var b := Taken(fl, k, n);
    var fl', live' := Take(fl, k, n), live[b.a := n];
    TakeCanonical(fl, base, k, n);
    assert k > 0 && base < fl[k].a;
    forall c | c in live ensures Apart(b, Blk(c, live[c])) {
      assert Apart(fl[k], Blk(c, live[c]));
    }
    assert b.a !in live;
    TakenFits(fl, base, k, n);
    forall c | c in live && c != b.a ensures Fits(fl', base, Blk(c, live[c])) {
      TakeFits(fl, base, k, n, Blk(c, live[c]));
    }
    forall u ensures u in got <==> Covers(fl', u) || LiveIn(live', u) {
      TakeCovers(fl, base, k, n, u);
      MoreLive(live, b.a, n, u);
    }
  }

  lemma TakenFits(fl: seq<Blk>, base: int, k: nat, n: int)
    requires Canonical(fl, base) && k < |fl| && 0 < n <= fl[k].n
    ensures Fits(Take(fl, k, n), base, Taken(fl, k, n))
  {
    var r, b := Take(fl, k, n), Taken(fl, k, n);
    assert base < fl[k].a;
    forall i | 0 <= i < |r| ensures Apart(r[i], b) {
      var i' := if i < k || fl[k].n != n then i else i + 1;
      assert i' != k ==> r[i] == fl[i'];
      assert i' != k ==> Apart(fl[i'], fl[k]);
    }
  }

  lemma TakeFits(fl: seq<Blk>, base: int, k: nat, n: int, c: Blk)
    requires Canonical(fl, base) && k < |fl| && 0 < n <= fl[k].n && Fits(fl, base, c)
    ensures Fits(Take(fl, k, n), base, c)
  {
    var r := Take(fl, k, n);
    forall i | 0 <= i < |r| ensures Apart(r[i], c) {
      var i' := if i < k || fl[k].n != n then i else i + 1;
      assert Apart(fl[i'], c);
    }
  }

  // ---------------------------------------------------------------- next fit

  /** The block `d` places after the one that follows `f`, round the list. */
  function Nth(n: nat, f: nat, d: nat): (i: nat)
    requires f < n && d < n
    ensures i < n
  {
    if f + 1 + d < n then f + 1 + d else f + 1 + d - n
  }

  /** Distance to the first block of at least `nu` units, from `d` on; the length of the list if there is none. */
  function FirstFit(fl: seq<Blk>, f: nat, nu: int, d: nat): (r: nat)
    requires f < |fl| && d <= |fl|
    ensures d <= r <= |fl| && (r < |fl| ==> fl[Nth(|fl|, f, r)].n >= nu)
    ensures forall e :: d <= e < r ==> fl[Nth(|fl|, f, e)].n < nu
    decreases |fl| - d
  {
    if d == |fl| || fl[Nth(|fl|, f, d)].n >= nu then d else FirstFit(fl, f, nu, d + 1)
  }

  ghost predicate SomeFits(fl: seq<Blk>, nu: int) { exists i :: 0 <= i < |fl| && fl[i].n >= nu }

  lemma FirstFitFinds(fl: seq<Blk>, f: nat, nu: int)
    requires f < |fl|
    ensures FirstFit(fl, f, nu, 0) < |fl| <==> SomeFits(fl, nu)
  {
    var r := FirstFit(fl, f, nu, 0);
    if r < |fl| {
      assert fl[Nth(|fl|, f, r)].n >= nu;
    } else {
      forall i | 0 <= i < |fl| ensures fl[i].n < nu {
        var e := if f < i then i - f - 1 else i - f - 1 + |fl|;
        assert Nth(|fl|, f, e) == i;
      }
    }
  }

  /** After a region of enough units is freed, some block is big enough, merged or not. */
  lemma GrownFits(fl: seq<Blk>, base: int, b: Blk, nu: int)
    requires Canonical(fl, base) && Fits(fl, base, b) && nu <= b.n
    ensures SomeFits(Insert(fl, b, Below(fl, b.a)), nu)
  {
    var t := Below(fl, b.a);
    var lo, hi := if Down(fl, b, t) then t else t + 1, if Up(fl, b, t) then t + 2 else t + 1;
    ReplaceAt(fl, lo, hi, Merged(fl, b, t), lo);
    assert fl[t].n >= 0 && (t + 1 < |fl| ==> fl[t + 1].n > 0);
    assert Insert(fl, b, t)[lo].n >= nu;
  }

  // ---------------------------------------------------------------- the allocator

  /** Every unit got, and the static header, is memory. */
  ghost predicate Backed(got: iset<int>, base: int, m: Mem) { base in m && forall u :: u in got ==> u in m }

  ghost predicate Headed(live: Live, size: Mem) { forall a :: a in live ==> a in size && size[a] == live[a] }

  /** No unit of a live block differs. */
  ghost predicate Untouched(live: Live, m: Mem, m': Mem)
  {
    forall u :: LiveIn(live, u) ==> u in m && u in m' && m'[u] == m[u]
  }

  ghost predicate Differ(m: Mem, m': Mem, p: int, q: int)
  {
    m.Keys == m'.Keys && forall u :: u in m && u != p && u != q ==> m'[u] == m[u]
  }

  /** Writing at a free block's header and at a header that is not live touches no live unit. */
  lemma WritesElsewhere(got: iset<int>, live: Live, live': Live, fl: seq<Blk>, base: int, i: nat, q: int, m: Mem,
                        m': Mem)
    requires Owned(got, live, fl, base) && i < |fl| && Backed(got, base, m) && Differ(m, m', q, fl[i].a)
    requires !LiveIn(live', q) && forall u :: LiveIn(live', u) ==> LiveIn(live, u)
    ensures Untouched(live', m, m')
  {
    forall u | LiveIn(live', u) ensures u in m && u != q && u != fl[i].a {
      OneOwner(got, live, fl, base, u);
      assert i > 0 ==> In(fl[i], fl[i].a);
    }
  }

  lemma FreedNotLive(got: iset<int>, live: Live, fl: seq<Blk>, base: int, a: int)
    requires Owned(got, live, fl, base) && a in live
    ensures LiveIn(live, a) && !LiveIn(live - {a}, a) && forall u :: LiveIn(live - {a}, u) ==> LiveIn(live, u)
  {
    assert In(Blk(a, live[a]), a);
    forall u ensures LiveIn(live - {a}, u) ==> LiveIn(live, u) {
      LessLive(live, a, u);
    }
  }

  lemma StillHeaded(live: Live, size: Mem, size': Mem, fl: seq<Blk>, base: int)
    requires Headed(live, size) && Untouched(live, size, size') && LiveApart(live, fl, base)
    ensures Headed(live, size')
  {
    forall c | c in live ensures c in size' && size'[c] == live[c] {
      assert In(Blk(c, live[c]), c) && LiveIn(live, c);
    }
  }

  /** What holds of the memory and of who owns it between any two calls. */
  ghost predicate Sound(base: int, brk: int, got: iset<int>, live: Live, fl: seq<Blk>, ptr: Mem, size: Mem)
  {
    && 0 < base < brk <= TOP && Owned(got, live, fl, base) && (forall u :: u in got ==> u < brk)
    && Backed(got, base, ptr) && Backed(got, base, size) && Headed(live, size)
  }

  lemma BlocksPositive(got: iset<int>, live: Live, fl: seq<Blk>, base: int, i: nat)
    requires Owned(got, live, fl, base) && i < |fl| && base > 0
    ensures fl[i].a > 0
  {
  }

  /** A live block is in memory, with its size, and can go onto the list. */
  lemma LiveFits(base: int, brk: int, got: iset<int>, live: Live, fl: seq<Blk>, ptr: Mem, size: Mem, a: int)
    requires Sound(base, brk, got, live, fl, ptr, size) && a in live
    ensures Canonical(fl, base) && a in ptr && a in size && size[a] == live[a] && Fits(fl, base, Blk(a, size[a]))
    ensures LiveApart(live, fl, base)
  {
    FreedNotLive(got, live, fl, base, a);
  }

  ghost predicate OnMemory(fl: seq<Blk>, ptr: Mem, size: Mem) { Linked(fl, ptr) && Sized(fl, size) }

  class Heap {
    const base: int
    var ptr: Mem
    var size: Mem
    /** 0 until the first malloc. */
    var freep: int
    ghost var brk: int
    ghost var fl: seq<Blk>
    /** The place of `freep` in the list. */
    ghost var at: nat
    ghost var live: Live
    ghost var got: iset<int>

    ghost predicate Valid()
      reads this
    {
      && Sound(base, brk, got, live, fl, ptr, size) && at < |fl|
      && (freep == 0 ==> fl == [Blk(base, 0)] && live == map[] && at == 0)
      && (freep != 0 ==> InList())
    }

    ghost predicate InList()
      reads this
    {
      at < |fl| && freep == fl[at].a && OnMemory(fl, ptr, size)
    }

    constructor (b: int, end: int)
      requires 0 < b < end <= TOP
      ensures Valid() && got == iset{} && live == map[]
    {
      base, brk, freep := b, end, 0;
      ptr, size := map[b := 0], map[b := 0];
      fl, at, live, got := [Blk(b, 0)], 0, map[], iset{};
    }

    /** The scan of free: round the list to the last block below `bp`. */
    method FindBelow(ghost b: Blk, bp: int) returns (p: int)
      requires Canonical(fl, base) && InList() && Fits(fl, base, b) && bp == b.a
      ensures p == fl[Below(fl, bp)].a
    {
      p := freep;
      ghost var k: nat := at;
      ghost var t: nat := Below(fl, bp);
      while !(bp > p && bp < ptr[p])
        invariant k < |fl| && p == fl[k].a && t == Below(fl, bp)
        decreases Steps(|fl|, k, t)
      {
        assert ptr[fl[k].a] == fl[Succ(fl, k)].a;
        StopsBelow(fl, base, b, k);
        if p >= ptr[p] && (bp > p || bp < ptr[p]) {
          break;
        }
        p := ptr[p];
        k := Succ(fl, k);
      }
      assert ptr[fl[k].a] == fl[Succ(fl, k)].a;
      StopsBelow(fl, base, b, k);
    }

    /** The writes of free, once the place is found. */
    method Join(ghost b: Blk, ghost t: nat, p: int, bp: int)
      requires Canonical(fl, base) && InList() && bp in size && bp in ptr && b == Blk(bp, size[bp]) && Fits(fl, base, b)
      requires t == Below(fl, bp) && p == fl[t].a
      modifies this`ptr, this`size
      ensures ptr == old(PutPtr(ptr, fl, b, t)) && size == old(PutSize(size, fl, b, t))
      ensures ptr.Keys == old(ptr.Keys) && size.Keys == old(size.Keys)
    {
      assert ptr[fl[t].a] == fl[Succ(fl, t)].a;
      NotOnList(fl, base, b);
      var q := ptr[p];
      if bp + size[bp] == q {
        size := size[bp := size[bp] + size[q]];
        ptr := ptr[bp := ptr[q]];
      } else {
        ptr := ptr[bp := q];
      }
      if p + size[p] == bp {
        size := size[p := size[p] + size[bp]];
        ptr := ptr[p := ptr[bp]];
      } else {
        ptr := ptr[p := bp];
      }
    }

    /** free, on memory and list. */
    method FreeBlock(bp: int)
      requires Canonical(fl, base) && InList() && bp in size && bp in ptr && Fits(fl, base, Blk(bp, size[bp]))
      modifies this`ptr, this`size, this`freep, this`fl, this`at
      ensures InList() && at == old(Below(fl, bp)) && fl == old(Insert(fl, Blk(bp, size[bp]), Below(fl, bp)))
      ensures freep == old(fl[Below(fl, bp)].a) && Differ(old(ptr), ptr, bp, freep)
          && Differ(old(size), size, bp, freep)
    {
      ghost var b, t := Blk(bp, size[bp]), Below(fl, bp);
      var p := FindBelow(b, bp);
      FreeLinked(fl, base, b, t, ptr);
      FreeSized(fl, base, b, t, size);
      Join(b, t, p, bp);
      freep := p;
      InsertAt(fl, base, b, t);
      fl, at := Insert(fl, b, t), t;
    }

    /** free(ap): the block goes back to the list; no other live block's memory is touched. */
    method Free(ap: int)
      requires Valid() && ap - 1 in live
      modifies this
      ensures Valid() && live == old(live) - {ap - 1} && got == old(got) && brk == old(brk)
      ensures fl == Insert(old(fl), Blk(ap - 1, old(live)[ap - 1]), Below(old(fl), ap - 1))
      ensures freep == old(fl[Below(fl, ap - 1)].a) && at == Below(old(fl), ap - 1)
      ensures Untouched(live, old(ptr), ptr) && Untouched(live, old(size), size)
    {
      hide Canonical, Conserved, LiveApart, Linked, Sized, LiveIn, Untouched, Fits;
      var bp := ap - 1;
      LiveFits(base, brk, got, live, fl, ptr, size, bp);
      FreedNotLive(got, live, fl, base, bp);
      FreeOwned(got, live, fl, base, bp);
      FreeBlock(bp);
      live := live - {bp};
      WritesElsewhere(got, old(live), live, old(fl), base, at, bp, old(ptr), ptr);
      WritesElsewhere(got, old(live), live, old(fl), base, at, bp, old(size), size);
      StillHeaded(live, old(size), size, fl, base);
      BlocksPositive(got, live, fl, base, at);
    }

    /** sbrk: `answer` is the start of the new region, or -1. The kernel clears the memory it adds. */
    method Sbrk(nu: int, answer: int) returns (p: int)
      requires Valid() && nu > 0 && (answer == -1 || brk <= answer <= TOP - nu)
      modifies this`ptr, this`size, this`brk
      ensures p == answer
      ensures answer == -1 ==> ptr == old(ptr) && size == old(size) && brk == old(brk)
      ensures answer != -1 ==>
                brk == answer + nu && Wider(old(ptr), ptr, answer, nu) && Wider(old(size), size, answer, nu)
    {
      p := answer;
      if answer != -1 {
        ptr := ptr + map u | answer <= u < answer + nu && u !in ptr :: 0;
        size := size + map u | answer <= u < answer + nu && u !in size :: 0;
        brk := answer + nu;
      }
    }

    /** morecore: sbrk, then free of the region. */
    method Morecore(nu0: int, answer: int) returns (p: int)
      requires Valid() && freep != 0 && nu0 > 0 && (answer == -1 || brk <= answer <= TOP - Grow(nu0))
      modifies this
      ensures Valid() && freep != 0 && live == old(live)
      ensures answer == -1 ==> unchanged(this) && p == 0
      ensures answer != -1 ==> p == freep && at == Below(old(fl), answer) && Grown(old(fl), old(got), answer, nu0)
      ensures Untouched(live, old(ptr), ptr) && Untouched(live, old(size), size)
    {
      var nu := if nu0 < MINGROW then MINGROW else nu0;
      p := Sbrk(nu, answer);
      LiveBacked(got, live, fl, base, ptr);
      LiveBacked(got, live, fl, base, size);
      if p == -1 {
        return 0;
      }
      WiderKeeps(base, old(brk), got, live, fl, old(ptr), old(size), ptr, size, p, nu);
      size := size[p := nu];
      FreeRegion(p, nu);
      p := freep;
    }

    ghost predicate Grown(fl0: seq<Blk>, got0: iset<int>, answer: int, nu: int)
      reads this
      requires |fl0| >= 1
    {
      fl == Insert(fl0, Blk(answer, Grow(nu)), Below(fl0, answer)) && got == got0 + Region(answer, Grow(nu))
    }

    /** The last lines of morecore. */
    method FreeRegion(hp: int, nu: int)
      requires 0 < base < hp && hp + nu == brk <= TOP && nu > 0 && hp in size && size[hp] == nu
      requires Sound(base, hp, got, live, fl, ptr, size) && freep != 0 && InList()
      requires Backed(got + Region(hp, nu), base, ptr) && Backed(got + Region(hp, nu), base, size)
      modifies this`ptr, this`size, this`freep, this`fl, this`at, this`got
      ensures Valid() && freep != 0 && at == Below(old(fl), hp)
      ensures fl == Insert(old(fl), Blk(hp, nu), Below(old(fl), hp)) && got == old(got) + Region(hp, nu)
      ensures Untouched(live, old(ptr), ptr) && Untouched(live, old(size), size)
    {
      GrowOwned(got, live, fl, base, Blk(hp, nu));
      assert hp in Region(hp, nu) && !LiveIn(live, hp);
      FreeBlock(hp);
      WritesElsewhere(got, live, live, old(fl), base, at, hp, old(ptr), ptr);
      WritesElsewhere(got, live, live, old(fl), base, at, hp, old(size), size);
      StillHeaded(live, old(size), size, fl, base);
      got := got + Region(hp, nu);
    }

    /** malloc's writes when the block after `prevp` is big enough. */
    method Split(ghost k: nat, ghost j: nat, prevp: int, p0: int, nunits: int) returns (p: int)
      requires InList() && k < |fl| && j < |fl| && prevp == fl[j].a && p0 == fl[k].a && 0 < nunits <= fl[k].n
      modifies this`ptr, this`size
      ensures ptr == PutLink(old(ptr), fl, k, nunits, j) && size == PutTaken(old(size), fl, k, nunits)
      ensures p == Taken(fl, k, nunits).a
    {
      p := p0;
      if size[p] == nunits {
        ptr := ptr[prevp := ptr[p]];
      } else {
        size := size[p := size[p] - nunits];
        p := p + size[p];
        size := size[p := nunits];
      }
    }

    /** The block becomes live, and the next search starts where this one stopped. */
    method Carve(ghost k: nat, ghost j: nat, prevp: int, p0: int, nunits: int) returns (ap: int)
      requires Valid() && freep != 0 && k < |fl| && j < |fl| && k == Succ(fl, j) && prevp == fl[j].a && p0 == fl[k].a
      requires 0 < nunits <= fl[k].n
      modifies this`ptr, this`size, this`freep, this`fl, this`at, this`live
      ensures Valid() && fl == Take(old(fl), k, nunits)
      ensures live == old(live)[Taken(old(fl), k, nunits).a := nunits] && ap == Taken(old(fl), k, nunits).a + 1
      ensures freep == old(fl)[j].a && Taken(old(fl), k, nunits).a !in old(live)
      ensures Untouched(old(live), old(ptr), ptr) && Untouched(old(live), old(size), size)
    {
      hide Canonical, Conserved, LiveApart, Linked, Sized, Untouched;
      TakeAt(fl, base, k, nunits, j);
      CarveKeeps(base, brk, got, live, fl, ptr, size, k, nunits, j);
      var p := Split(k, j, prevp, p0, nunits);
      freep := prevp;
      ap := p + 1;
      live := live[p := nunits];
      fl, at := Take(fl, k, nunits), if fl[k].n == nunits && k < j then j - 1 else j;
      BlocksPositive(got, live, fl, base, at);
    }

    /** The static header becomes the whole list. */
    method Start()
      requires Valid()
      modifies this`ptr, this`size, this`freep
      ensures Valid() && freep != 0 && Untouched(live, old(ptr), ptr) && Untouched(live, old(size), size)
    {
      LiveBacked(got, live, fl, base, ptr);
      LiveBacked(got, live, fl, base, size);
      if freep == 0 {
        ptr := ptr[base := base];
        freep := base;
        size := size[base := 0];
      }
    }

    /** The search has passed over `d` blocks, all too small, and stands at `p`. */
    ghost predicate Cursor(prevp: int, p: int, nu: int, d: nat)
      reads this
    {
      && at < |fl| && d < |fl| && prevp == fl[Before(|fl|, at, d)].a && p == fl[Nth(|fl|, at, d)].a
      && FirstFit(fl, at, nu, 0) == FirstFit(fl, at, nu, d)
    }

    method First(nu: int) returns (prevp: int, p: int)
      requires Valid() && freep != 0
      ensures Cursor(prevp, p, nu, 0) && p >= base
    {
      SearchStep(fl, base, at, 0);
      assert ptr[fl[at].a] == fl[Succ(fl, at)].a;
      prevp, p := freep, ptr[freep];
    }

    method Advance(prevp0: int, p0: int, nu: int, ghost d: nat) returns (prevp: int, p: int)
      requires Valid() && freep != 0 && Cursor(prevp0, p0, nu, d) && p0 != freep && fl[Nth(|fl|, at, d)].n < nu
      ensures Cursor(prevp, p, nu, d + 1)
    {
      SearchStep(fl, base, at, d);
      ghost var k := Nth(|fl|, at, d);
      assert ptr[fl[k].a] == fl[Succ(fl, k)].a;
      prevp, p := p0, ptr[p0];
    }

    method Serve(prevp: int, p: int, nu: int, ghost d: nat, ghost ptr0: Mem, ghost size0: Mem) returns (ap: int)
      requires Untouched(live, ptr0, ptr) && Untouched(live, size0, size)
      requires Valid() && freep != 0 && nu > 0 && Cursor(prevp, p, nu, d) && fl[Nth(|fl|, at, d)].n >= nu
      modifies this`ptr, this`size, this`freep, this`fl, this`at, this`live
      ensures Valid() && Served(old(live), old(fl), old(at), nu, ap) && ap > 1 && SomeFits(old(fl), nu)
      ensures Untouched(old(live), ptr0, ptr) && Untouched(old(live), size0, size)
    {
      ap := Carve(Nth(|fl|, at, d), Before(|fl|, at, d), prevp, p, nu);
    }

    lemma NothingFits(prevp: int, p: int, nu: int, d: nat)
      requires Valid() && freep != 0 && Cursor(prevp, p, nu, d) && fl[Nth(|fl|, at, d)].n < nu && p == freep
      ensures !SomeFits(fl, nu)
    {
      SearchStep(fl, base, at, d);
      FirstFitFinds(fl, at, nu);
    }

    ghost predicate Refilled(fl0: seq<Blk>, got0: iset<int>, nu: int, answer: int)
      reads this
      requires |fl0| >= 1
    {
      && answer != -1 && fl == SearchedList(fl0, true, answer, nu) && at == SearchedFrom(fl0, 0, true, answer)
      && got == got0 + Region(answer, Grow(nu)) && SomeFits(fl, nu)
    }

    /** Back at `freep`: morecore, and on from the block it returns. */
    method Refill(nu: int, answer: int) returns (prevp: int, p: int)
      requires Valid() && freep != 0 && nu > 0 && (answer == -1 || brk <= answer <= TOP - Grow(nu))
      modifies this
      ensures Valid() && freep != 0 && live == old(live) && (p == 0 <==> answer == -1)
      ensures p == 0 ==> unchanged(this)
      ensures p != 0 ==> Cursor(prevp, p, nu, 0) && Refilled(old(fl), old(got), nu, answer)
      ensures Untouched(live, old(ptr), ptr) && Untouched(live, old(size), size)
    {
      if answer != -1 {
        GrownSearch(fl, base, got, live, answer, nu);
      }
      p := Morecore(nu, answer);
      prevp := p;
      if p != 0 {
        prevp, p := First(nu);
      }
    }

    lemma NothingTouched()
      requires Valid()
      ensures Untouched(live, ptr, ptr) && Untouched(live, size, size)
    {
      LiveBacked(got, live, fl, base, ptr);
      LiveBacked(got, live, fl, base, size);
    }

    lemma CursorSize(prevp: int, p: int, nu: int, d: nat)
      requires Valid() && freep != 0 && Cursor(prevp, p, nu, d)
      ensures p in size && size[p] == fl[Nth(|fl|, at, d)].n
    {
    }

    /** malloc's loop. */
    method Search(nu: int, answer: int) returns (ap: int, grown: bool)
      requires Valid() && freep != 0 && nu > 0 && (answer == -1 || brk <= answer <= TOP - Grow(nu))
      modifies this
      ensures Valid() && (grown <==> !SomeFits(old(fl), nu)) && (ap == 0 <==> grown && answer == -1)
      ensures ap == 0 ==> fl == old(fl) && live == old(live) && got == old(got) && at == old(at) && freep == old(freep)
      ensures ap != 0 ==>
        Served(old(live), SearchedList(old(fl), grown, answer, nu), SearchedFrom(old(fl), old(at), grown, answer), nu,
            ap)
      ensures got == if grown && answer != -1 then old(got) + Region(answer, Grow(nu)) else old(got)
      ensures Untouched(old(live), old(ptr), ptr) && Untouched(old(live), old(size), size)
    {
      hide Sound, OnMemory, Untouched, FirstFit, SomeFits, Served;
      NothingTouched();
      ghost var ptr0, size0 := ptr, size;
      var prevp, p := First(nu);
      grown := false;
      ghost var d: nat := 0;
      while true
        invariant Valid() && freep != 0 && live == old(live) && Cursor(prevp, p, nu, d)
        invariant Untouched(live, ptr0, ptr) && Untouched(live, size0, size)
        invariant !grown ==> unchanged(this)
        invariant grown ==> !SomeFits(old(fl), nu) && Refilled(old(fl), old(got), nu, answer)
        decreases !grown, |fl| - d
      {
        CursorSize(prevp, p, nu, d);
        if size[p] >= nu {
          ap := Serve(prevp, p, nu, d, ptr0, size0);
          return;
        }
        if p == freep {
          NothingFits(prevp, p, nu, d);
          prevp, p := Refill(nu, answer);
          grown := true;
          if p == 0 {
            return 0, true;
          }
          d := 0;
        } else {
          prevp, p := Advance(prevp, p, nu, d);
          d := d + 1;
        }
      }
    }

    /**
     * malloc(nbytes), where `answer` is what sbrk returns if it is called. `grown` says whether it was:
     * it is once if no free block is big enough, and otherwise not at all. malloc fails exactly when that
     * call does. The block comes from the first fit after `freep`, in the list as morecore left it; `freep`
     * then stands at the block before it.
     */
    method Malloc(nbytes: int, answer: int) returns (ap: int, grown: bool)
      requires Valid() && 0 <= nbytes <= MAXREQUEST
      requires answer == -1 || brk <= answer <= TOP - Grow(NUnits(nbytes))
      modifies this
      ensures Valid() && (grown <==> !SomeFits(old(fl), NUnits(nbytes))) && (ap == 0 <==> grown && answer == -1)
      ensures ap == 0 ==> fl == old(fl) && live == old(live) && got == old(got)
      ensures ap == 0 ==> at == old(at) && freep == fl[at].a
      ensures nbytes <= (NUnits(nbytes) - 1) * HEADER < nbytes + HEADER
      ensures ap != 0 ==>
        Served(old(live), SearchedList(old(fl), grown, answer, NUnits(nbytes)),
               SearchedFrom(old(fl), old(at), grown, answer), NUnits(nbytes), ap)
      ensures got == if grown && answer != -1 then old(got) + Region(answer, Grow(NUnits(nbytes))) else old(got)
      ensures Untouched(old(live), old(ptr), ptr) && Untouched(old(live), old(size), size)
    {
      Start();
      ap, grown := Search(UnitsFor(nbytes), answer);
    }

    /** A program may write anything to the units after the header of a live block. */
    method Use(u: int, x: int, y: int)
      requires Valid() && LiveIn(live, u) && u !in live
      modifies this`ptr, this`size
      ensures Valid() && ptr == old(ptr)[u := x] && size == old(size)[u := y]
    {
      OneOwner(got, live, fl, base, u);
      forall i | 0 <= i < |fl| ensures fl[i].a != u {
        assert i > 0 ==> In(fl[i], fl[i].a);
      }
      ptr, size := ptr[u := x], size[u := y];
    }

    ghost predicate Served(live0: Live, fl1: seq<Blk>, f1: nat, nu: int, ap: int)
      reads this
    {
      && f1 < |fl1| && FirstFit(fl1, f1, nu, 0) < |fl1|
      && var k := Nth(|fl1|, f1, FirstFit(fl1, f1, nu, 0));
      && fl == Take(fl1, k, nu) && ap == Taken(fl1, k, nu).a + 1
      && ap - 1 !in live0 && live == live0[ap - 1 := nu]
      && freep == fl1[Before(|fl1|, f1, FirstFit(fl1, f1, nu, 0))].a
    }
  }

  /** The list that the search looked through last. */
  function SearchedList(fl: seq<Blk>, grown: bool, answer: int, nu: int): seq<Blk>
    requires |fl| >= 1
  {
    if grown then Insert(fl, Blk(answer, Grow(nu)), Below(fl, answer)) else fl
  }

  /** Where that search started. */
  function SearchedFrom(fl: seq<Blk>, f: nat, grown: bool, answer: int): nat
    requires |fl| >= 1
  {
    if grown then Below(fl, answer) else f
  }

  lemma SearchStep(fl: seq<Blk>, base: int, f: nat, d: nat)
    requires Canonical(fl, base) && f < |fl| && d < |fl|
    ensures fl[Nth(|fl|, f, d)].a == fl[f].a <==> d == |fl| - 1
    ensures d + 1 < |fl| ==>
              Nth(|fl|, f, d + 1) == Succ(fl, Nth(|fl|, f, d)) && Before(|fl|, f, d + 1) == Nth(|fl|, f, d)
    ensures Nth(|fl|, f, 0) == Succ(fl, f) && Before(|fl|, f, 0) == f
  {
    if d < |fl| - 1 {
      OrderedApart(fl, base, Nth(|fl|, f, d), f);
    }
  }

  lemma GrownSearch(fl: seq<Blk>, base: int, got: iset<int>, live: Live, answer: int, nu: int)
    requires Owned(got, live, fl, base) && base < answer && (forall u :: u in got ==> u < answer) && nu > 0
    ensures SomeFits(SearchedList(fl, true, answer, nu), nu)
  {
    var b := Blk(answer, Grow(nu));
    GrowOwned(got, live, fl, base, b);
    GrownFits(fl, base, b, nu);
  }

  function Before(n: nat, f: nat, d: nat): (i: nat)
    requires f < n && d < n
    ensures i < n && Nth(n, f, d) == if i + 1 < n then i + 1 else 0
  {
    if d == 0 then f else Nth(n, f, d - 1)
  }

  lemma CarveKeeps(base: int, brk: int, got: iset<int>, live: Live, fl: seq<Blk>, ptr: Mem, size: Mem, k: nat, n: int,
                   j: nat)
    requires Sound(base, brk, got, live, fl, ptr, size) && OnMemory(fl, ptr, size)
    requires k < |fl| && 0 < n <= fl[k].n && j < |fl| && k == Succ(fl, j)
    ensures Sound(base, brk, got, live[Taken(fl, k, n).a := n], Take(fl, k, n), PutLink(ptr, fl, k, n, j),
        PutTaken(size, fl, k, n))
    ensures OnMemory(Take(fl, k, n), PutLink(ptr, fl, k, n, j), PutTaken(size, fl, k, n))
    ensures Untouched(live, ptr, PutLink(ptr, fl, k, n, j)) && Untouched(live, size, PutTaken(size, fl, k, n))
    ensures Taken(fl, k, n).a !in live
  {
    TakeOwned(got, live, fl, base, k, n);
    TakeLinked(fl, base, k, n, ptr, j);
    TakeSized(fl, base, k, n, size);
    CarveWrites(base, brk, got, live, fl, ptr, size, k, n, j);
  }

  lemma CarveWrites(base: int, brk: int, got: iset<int>, live: Live, fl: seq<Blk>, ptr: Mem, size: Mem, k: nat,
                    n: int, j: nat)
    requires Sound(base, brk, got, live, fl, ptr, size) && OnMemory(fl, ptr, size)
    requires k < |fl| && 0 < n <= fl[k].n && j < |fl|
    ensures var ptr', size', live' := PutLink(ptr, fl, k, n, j), PutTaken(size, fl, k, n), live[Taken(fl, k, n).a := n];
      && Untouched(live, ptr, ptr') && Untouched(live, size, size')
      && Backed(got, base, ptr') && Backed(got, base, size') && Headed(live', size')
  {
    var p, ptr', size' := Taken(fl, k, n).a, PutLink(ptr, fl, k, n, j), PutTaken(size, fl, k, n);
    TakenNotLive(got, live, fl, base, k, n);
    WritesElsewhere(got, live, live, fl, base, j, p, ptr, ptr');
    assert Differ(size, size', p, fl[k].a);
    WritesElsewhere(got, live, live, fl, base, k, p, size, size');
    StillHeaded(live, size, size', fl, base);
  }

  ghost predicate Wider(m: Mem, m': Mem, p: int, n: int)
  {
    && (forall u :: u in m ==> u in m' && m'[u] == m[u])
    && (forall u :: In(Blk(p, n), u) ==> u in m')
  }

  lemma LiveBacked(got: iset<int>, live: Live, fl: seq<Blk>, base: int, m: Mem)
    requires Conserved(got, live, fl) && Backed(got, base, m)
    ensures Untouched(live, m, m)
  {
  }

  /** Memory that grew, with the header of the new region written. */
  lemma WiderKeeps(base: int, brk: int, got: iset<int>, live: Live, fl: seq<Blk>, ptr: Mem, size: Mem,
                   ptr': Mem, size': Mem, p: int, n: int)
    requires Sound(base, brk, got, live, fl, ptr, size) && OnMemory(fl, ptr, size)
    requires brk <= p && n > 0 && p + n <= TOP && Wider(ptr, ptr', p, n) && Wider(size, size', p, n)
    ensures Sound(base, p, got, live, fl, ptr', size'[p := n]) && OnMemory(fl, ptr', size'[p := n])
    ensures Backed(got + Region(p, n), base, ptr') && Backed(got + Region(p, n), base, size'[p := n])
    ensures Untouched(live, ptr, ptr') && Untouched(live, size, size'[p := n])
  {
    NotListed(got, live, fl, base, p);
    assert forall u :: LiveIn(live, u) ==> u in got;
  }

  lemma NotListed(got: iset<int>, live: Live, fl: seq<Blk>, base: int, p: int)
    requires Owned(got, live, fl, base) && base < p && p !in got
    ensures forall i :: 0 <= i < |fl| ==> fl[i].a != p
    ensures p !in live
  {
    forall i | 0 <= i < |fl| ensures fl[i].a != p {
      assert i > 0 ==> In(fl[i], fl[i].a) && Covers(fl, fl[i].a);
    }
    assert p in live ==> In(Blk(p, live[p]), p);
  }

  lemma TakenNotLive(got: iset<int>, live: Live, fl: seq<Blk>, base: int, k: nat, n: int)
    requires Owned(got, live, fl, base) && k < |fl| && 0 < n <= fl[k].n
    ensures Taken(fl, k, n).a in got && !LiveIn(live, Taken(fl, k, n).a)
  {
    var u := Taken(fl, k, n).a;
    assert In(fl[k], u);
    if LiveIn(live, u) {
      OneOwner(got, live, fl, base, u);
    }
  }

  lemma TakeAt(fl: seq<Blk>, base: int, k: nat, n: int, j: nat)
    requires Canonical(fl, base) && k < |fl| && 0 < n <= fl[k].n && j < |fl| && k == Succ(fl, j)
    ensures var j', r := if fl[k].n == n && k < j then j - 1 else j, Take(fl, k, n); j' < |r| && r[j'].a == fl[j].a
  {
    assert k > 0;
  }

  lemma InsertAt(fl: seq<Blk>, base: int, b: Blk, t: nat)
    requires Canonical(fl, base) && Fits(fl, base, b) && t == Below(fl, b.a)
    ensures t < |Insert(fl, b, t)| && Insert(fl, b, t)[t].a == fl[t].a
  {
    var lo, hi := if Down(fl, b, t) then t else t + 1, if Up(fl, b, t) then t + 2 else t + 1;
    ReplaceAt(fl, lo, hi, Merged(fl, b, t), t);
  }
}
