/** The allocator's free list as a sequence of blocks in address order, and what malloc and free do to it. */
module FreeList {

  /** `n` units from address `a` on, header included. */
  datatype Blk = Blk(a: int, n: int)

  predicate In(b: Blk, u: int) { b.a <= u < b.a + b.n }

  /** No unit in common. */
  predicate Apart(b: Blk, c: Blk) { b.a + b.n <= c.a || c.a + c.n <= b.a }

  ghost predicate Covers(fl: seq<Blk>, u: int) { exists i :: 0 <= i < |fl| && In(fl[i], u) }

  /** Address order, and a gap between any two blocks: touching blocks have been merged. */
  ghost predicate Spaced(fl: seq<Blk>) { forall i, j :: 0 <= i < j < |fl| ==> fl[i].a + fl[i].n < fl[j].a }

  /** The list from the static header `base` (no units) on; every other block has some. */
  ghost predicate Canonical(fl: seq<Blk>, base: int)
  {
    && |fl| >= 1 && fl[0] == Blk(base, 0) && Spaced(fl)
    && forall i :: 1 <= i < |fl| ==> fl[i].n > 0
  }

  /** Index of the last block below address `a`. */
  function Below(fl: seq<Blk>, a: int): (t: nat)
    requires |fl| >= 1
    ensures t < |fl|
  {
    if |fl| == 1 || fl[|fl| - 1].a < a then |fl| - 1 else Below(fl[..|fl| - 1], a)
  }

  lemma {:induction false} BelowIs(fl: seq<Blk>, base: int, a: int)
    requires Canonical(fl, base) && base < a
    ensures var t := Below(fl, a); fl[t].a < a && forall j :: t < j < |fl| ==> a <= fl[j].a
  {
    if |fl| > 1 && fl[|fl| - 1].a >= a {
      BelowIs(fl[..|fl| - 1], base, a);
    }
  }

  /** The list with blocks `lo` up to `hi` replaced by one. */
  function Replace(fl: seq<Blk>, lo: nat, hi: nat, m: Blk): seq<Blk>
    requires lo <= hi <= |fl|
  {
    fl[..lo] + [m] + fl[hi..]
  }

  predicate Up(fl: seq<Blk>, b: Blk, t: nat) { t + 1 < |fl| && b.a + b.n == fl[t + 1].a }

  predicate Down(fl: seq<Blk>, b: Blk, t: nat)
    requires t < |fl|
  {
    fl[t].a + fl[t].n == b.a
  }

  /** `b` merged with the block above and with the one below, where they touch. */
  function Merged(fl: seq<Blk>, b: Blk, t: nat): Blk
    requires t < |fl|
  {
    var m := if Up(fl, b, t) then Blk(b.a, b.n + fl[t + 1].n) else b;
    if Down(fl, b, t) then Blk(fl[t].a, fl[t].n + m.n) else m
  }

  /** free: insert after `t`, merging with the block above and then with the one below. */
  function Insert(fl: seq<Blk>, b: Blk, t: nat): seq<Blk>
    requires t < |fl|
  {
    Replace(fl, if Down(fl, b, t) then t else t + 1, if Up(fl, b, t) then t + 2 else t + 1, Merged(fl, b, t))
  }

  /** The block does not overlap any free block and lies above the base. */
  ghost predicate Fits(fl: seq<Blk>, base: int, b: Blk)
  {
    base < b.a && b.n > 0 && forall i :: 0 <= i < |fl| ==> Apart(fl[i], b)
  }

  lemma Neighbours(fl: seq<Blk>, base: int, b: Blk)
    requires Canonical(fl, base) && Fits(fl, base, b)
    ensures var t := Below(fl, b.a);
      && fl[t].a + fl[t].n <= b.a && (t + 1 < |fl| ==> b.a + b.n <= fl[t + 1].a)
      && (fl[t].a + fl[t].n == b.a ==> t > 0)
  {
    BelowIs(fl, base, b.a);
    var t := Below(fl, b.a);
    assert Apart(fl[t], b);
    if t + 1 < |fl| {
      assert Apart(fl[t + 1], b) && fl[t + 1].n > 0;
    }
  }

  lemma ReplaceAt(fl: seq<Blk>, lo: nat, hi: nat, m: Blk, j: nat)
    requires lo <= hi <= |fl| && j < |Replace(fl, lo, hi, m)|
    ensures Replace(fl, lo, hi, m)[j] == if j < lo then fl[j] else if j == lo then m else fl[j + hi - lo - 1]
  {
  }

  lemma ReplaceCanonical(fl: seq<Blk>, base: int, lo: nat, hi: nat, m: Blk)
    requires Canonical(fl, base) && 1 <= lo <= hi <= |fl| && m.n > 0
    requires fl[lo - 1].a + fl[lo - 1].n < m.a && (hi < |fl| ==> m.a + m.n < fl[hi].a)
    ensures Canonical(Replace(fl, lo, hi, m), base)
  {
    var r := Replace(fl, lo, hi, m);
    forall i, j | 0 <= i < j < |r| ensures r[i].a + r[i].n < r[j].a {
      ReplaceAt(fl, lo, hi, m, i);
      ReplaceAt(fl, lo, hi, m, j);
      var i', j' := if i < lo then i else i + hi - lo - 1, if j < lo then j else j + hi - lo - 1;
      if i < lo - 1 && j == lo {
        assert fl[i].a + fl[i].n < fl[lo - 1].a && fl[lo - 1].n >= 0;
      } else if i == lo && j > lo + 1 {
        assert fl[hi].a + fl[hi].n < fl[j'].a && fl[hi].n > 0;
      } else if i != lo && j != lo {
        assert fl[i'].a + fl[i'].n < fl[j'].a;
      }
    }
    forall j | 1 <= j < |r| ensures r[j].n > 0 {
      ReplaceAt(fl, lo, hi, m, j);
    }
  }

  lemma ReplaceCovers(fl: seq<Blk>, lo: nat, hi: nat, m: Blk, u: int)
    requires lo <= hi <= |fl|
    ensures Covers(Replace(fl, lo, hi, m), u) <==> In(m, u) || Covers(fl[..lo], u) || Covers(fl[hi..], u)
  {
    var r := Replace(fl, lo, hi, m);
    CoversConcat(fl[..lo] + [m], fl[hi..], u);
    CoversConcat(fl[..lo], [m], u);
    assert In(m, u) <==> Covers([m], u) by {
      assert [m][0] == m;
    }
  }

  lemma CoversConcat(x: seq<Blk>, y: seq<Blk>, u: int)
    ensures Covers(x + y, u) <==> Covers(x, u) || Covers(y, u)
  {
    if Covers(x + y, u) {
      var i :| 0 <= i < |x + y| && In((x + y)[i], u);
      if i < |x| {
        assert In(x[i], u);
      } else {
        assert In(y[i - |x|], u);
      }
    }
    if Covers(x, u) {
      var i :| 0 <= i < |x| && In(x[i], u);
      assert In((x + y)[i], u);
    }
    if Covers(y, u) {
      var i :| 0 <= i < |y| && In(y[i], u);
      assert In((x + y)[|x| + i], u);
    }
  }

  lemma MergedEnds(fl: seq<Blk>, base: int, b: Blk, t: nat)
    requires Canonical(fl, base) && Fits(fl, base, b) && t == Below(fl, b.a)
    ensures var m := Merged(fl, b, t);
      && m.n > 0 && m.a == (if Down(fl, b, t) then fl[t].a else b.a)
      && m.a + m.n == (if Up(fl, b, t) then fl[t + 1].a + fl[t + 1].n else b.a + b.n)
  {
    assert fl[t].n >= 0 && (t + 1 < |fl| ==> fl[t + 1].n > 0);
  }

  lemma InsertCanonical(fl: seq<Blk>, base: int, b: Blk)
    requires Canonical(fl, base) && Fits(fl, base, b)
    ensures Canonical(Insert(fl, b, Below(fl, b.a)), base)
  {
    Neighbours(fl, base, b);
    var t := Below(fl, b.a);
    MergedEnds(fl, base, b, t);
    var m := Merged(fl, b, t);
    if Down(fl, b, t) {
      assert fl[t - 1].a + fl[t - 1].n < fl[t].a;
      ReplaceCanonical(fl, base, t, AboveMerged(fl, base, b, t), m);
    } else {
      ReplaceCanonical(fl, base, t + 1, AboveMerged(fl, base, b, t), m);
    }
  }

  /** First index past the blocks that are merged; what is there lies above the merged block. */
  ghost function AboveMerged(fl: seq<Blk>, base: int, b: Blk, t: nat): (hi: nat)
    requires Canonical(fl, base) && Fits(fl, base, b) && t == Below(fl, b.a)
    ensures hi == if Up(fl, b, t) then t + 2 else t + 1
    ensures hi <= |fl| && (hi < |fl| ==> Merged(fl, b, t).a + Merged(fl, b, t).n < fl[hi].a)
  {
    Neighbours(fl, base, b);
    MergedEnds(fl, base, b, t);
    if Up(fl, b, t) then t + 2 else t + 1
  }

  lemma MergedCovers(fl: seq<Blk>, base: int, b: Blk, t: nat, u: int)
    requires Canonical(fl, base) && t < |fl| && b.n > 0
    ensures In(Merged(fl, b, t), u) <==>
      In(b, u) || (Down(fl, b, t) && In(fl[t], u)) || (Up(fl, b, t) && In(fl[t + 1], u))
  {
    assert fl[t].n >= 0 && (t + 1 < |fl| ==> fl[t + 1].n > 0);
  }

  lemma MiddleCovers(fl: seq<Blk>, b: Blk, t: nat, lo: nat, hi: nat, u: int)
    requires t < |fl| && lo == (if Down(fl, b, t) then t else t + 1) && hi == if Up(fl, b, t) then t + 2 else t + 1
    ensures Covers(fl[lo..hi], u) <==> (Down(fl, b, t) && In(fl[t], u)) || (Up(fl, b, t) && In(fl[t + 1], u))
  {
    CoversFew(fl[lo..hi], u);
  }

  lemma CoversThree(fl: seq<Blk>, lo: nat, hi: nat, u: int)
    requires lo <= hi <= |fl|
    ensures Covers(fl, u) <==> Covers(fl[..lo], u) || Covers(fl[lo..hi], u) || Covers(fl[hi..], u)
  {
    assert fl == fl[..lo] + fl[lo..hi] + fl[hi..];
    CoversConcat(fl[..lo] + fl[lo..hi], fl[hi..], u);
    CoversConcat(fl[..lo], fl[lo..hi], u);
  }

  lemma InsertCovers(fl: seq<Blk>, base: int, b: Blk, u: int)
    requires Canonical(fl, base) && Fits(fl, base, b)
    ensures Covers(Insert(fl, b, Below(fl, b.a)), u) <==> Covers(fl, u) || In(b, u)
  {
    var t := Below(fl, b.a);
    var lo, hi := if Down(fl, b, t) then t else t + 1, if Up(fl, b, t) then t + 2 else t + 1;
    ReplaceCovers(fl, lo, hi, Merged(fl, b, t), u);
    MergedCovers(fl, base, b, t, u);
    MiddleCovers(fl, b, t, lo, hi, u);
    CoversThree(fl, lo, hi, u);
  }

  lemma CoversFew(x: seq<Blk>, u: int)
    requires |x| <= 2
    ensures Covers(x, u) <==> (|x| > 0 && In(x[0], u)) || (|x| > 1 && In(x[1], u))
  {
  }

  // ---------------------------------------------------------------- uniqueness

  /** A canonical list is determined by the units it covers. */
  lemma {:induction false} SameUnitsSameList(x: seq<Blk>, y: seq<Blk>, base: int)
    requires Canonical(x, base) && Canonical(y, base) && forall u :: Covers(x, u) <==> Covers(y, u)
    ensures x == y
    decreases |x|
  {
    OnlyBase(x, base);
    OnlyBase(y, base);
    if |x| > 1 {
      LastSame(x, y, base);
      var x', y' := x[..|x| - 1], y[..|y| - 1];
      forall u ensures Covers(x', u) <==> Covers(y', u) {
        WithoutLast(x, base, u);
        WithoutLast(y, base, u);
      }
      SameUnitsSameList(x', y', base);
    }
  }

  lemma OnlyBase(x: seq<Blk>, base: int)
    requires Canonical(x, base)
    ensures |x| == 1 <==> forall u :: !Covers(x, u)
  {
    if |x| > 1 {
      assert In(x[1], x[1].a);
      assert Covers(x, x[1].a);
    }
  }

  lemma WithoutLast(x: seq<Blk>, base: int, u: int)
    requires Canonical(x, base) && |x| > 1
    ensures Covers(x[..|x| - 1], u) <==> Covers(x, u) && !In(x[|x| - 1], u)
  {
    var x' := x[..|x| - 1];
    if Covers(x', u) {
      var i :| 0 <= i < |x'| && In(x'[i], u);
      assert In(x[i], u);
    }
    if Covers(x, u) && !In(x[|x| - 1], u) {
      var i :| 0 <= i < |x| && In(x[i], u);
      assert In(x'[i], u);
    }
  }

  lemma LastSame(x: seq<Blk>, y: seq<Blk>, base: int)
    requires Canonical(x, base) && Canonical(y, base) && |x| > 1 && |y| > 1
        && forall u :: Covers(x, u) <==> Covers(y, u)
    ensures x[|x| - 1] == y[|y| - 1]
  {
    var p, q := x[|x| - 1], y[|y| - 1];
    EndsSame(x, y, base);
    EndsSame(y, x, base);
    if p.a < q.a {
      StartsNotAbove(x, y, base);
    } else if q.a < p.a {
      StartsNotAbove(y, x, base);
    }
  }

  /** The last unit covered by `x` is not above the last one covered by `y`. */
  lemma EndsSame(x: seq<Blk>, y: seq<Blk>, base: int)
    requires Canonical(x, base) && Canonical(y, base) && |x| > 1 && |y| > 1 && forall u :: Covers(x, u) ==> Covers(y, u)
    ensures x[|x| - 1].a + x[|x| - 1].n <= y[|y| - 1].a + y[|y| - 1].n
  {
    var p := x[|x| - 1];
    var u := p.a + p.n - 1;
    assert In(p, u) && Covers(x, u);
    var j :| 0 <= j < |y| && In(y[j], u);
  }

  lemma GapBelow(y: seq<Blk>, base: int, i: nat)
    requires Canonical(y, base) && 1 <= i < |y|
    ensures !Covers(y, y[i].a - 1)
  {
    forall j | 0 <= j < |y| ensures !In(y[j], y[i].a - 1) {}
  }

  lemma StartsNotAbove(x: seq<Blk>, y: seq<Blk>, base: int)
    requires Canonical(x, base) && Canonical(y, base) && |x| > 1 && |y| > 1 && forall u :: Covers(x, u) ==> Covers(y, u)
    requires x[|x| - 1].a + x[|x| - 1].n == y[|y| - 1].a + y[|y| - 1].n
    ensures y[|y| - 1].a <= x[|x| - 1].a
  {
    var p, q := x[|x| - 1], y[|y| - 1];
    GapBelow(y, base, |y| - 1);
    assert In(p, q.a - 1) ==> Covers(x, q.a - 1);
  }

  /** Freeing two blocks in either order leaves the same list. */
  lemma FreesCommute(fl: seq<Blk>, base: int, b: Blk, c: Blk)
    requires Canonical(fl, base) && Fits(fl, base, b) && Fits(fl, base, c) && Apart(b, c)
    ensures var fb, fc := Insert(fl, b, Below(fl, b.a)), Insert(fl, c, Below(fl, c.a));
      && |fb| >= 1 && |fc| >= 1
      && Insert(fb, c, Below(fb, c.a)) == Insert(fc, b, Below(fc, b.a))
  {
    var fb, fc := Insert(fl, b, Below(fl, b.a)), Insert(fl, c, Below(fl, c.a));
    InsertCanonical(fl, base, b);
    InsertCanonical(fl, base, c);
    InsertFits(fl, base, b, c);
    InsertFits(fl, base, c, b);
    var x, y := Insert(fb, c, Below(fb, c.a)), Insert(fc, b, Below(fc, b.a));
    InsertCanonical(fb, base, c);
    InsertCanonical(fc, base, b);
    forall u ensures Covers(x, u) <==> Covers(y, u) {
      InsertCovers(fb, base, c, u);
      InsertCovers(fl, base, b, u);
      InsertCovers(fc, base, b, u);
      InsertCovers(fl, base, c, u);
    }
    SameUnitsSameList(x, y, base);
  }

  lemma InsertFits(fl: seq<Blk>, base: int, b: Blk, c: Blk)
    requires Canonical(fl, base) && Fits(fl, base, b) && Fits(fl, base, c) && Apart(b, c)
    ensures Fits(Insert(fl, b, Below(fl, b.a)), base, c)
  {
    InsertCanonical(fl, base, b);
    var r := Insert(fl, b, Below(fl, b.a));
    forall i | 0 <= i < |r| ensures Apart(r[i], c) {
      var u := if r[i].a < c.a then c.a else r[i].a;
      InsertCovers(fl, base, b, u);
      assert In(r[i], u) ==> Covers(r, u);
      assert In(c, u) ==> !In(b, u) && !Covers(fl, u);
    }
  }

  // ---------------------------------------------------------------- malloc

  /** malloc takes a block of exactly `n` units out of the list, or the upper end of a bigger one. */
  function Take(fl: seq<Blk>, k: nat, n: int): seq<Blk>
    requires k < |fl| && fl[k].n >= n
  {
    if fl[k].n == n then fl[..k] + fl[k + 1..] else fl[k := Blk(fl[k].a, fl[k].n - n)]
  }

  function Taken(fl: seq<Blk>, k: nat, n: int): Blk
    requires k < |fl|
  {
    Blk(fl[k].a + fl[k].n - n, n)
  }

  /** The tail of a block is handed out: no other block changes, and one that is used up leaves the list. */
  lemma TakeTail(fl: seq<Blk>, k: nat, n: int)
    requires k < |fl| && 0 < n <= fl[k].n
    ensures var b := fl[k]; var rest := if n < b.n then [Blk(b.a, b.n - n)] else [];
      Taken(fl, k, n).n == n && Taken(fl, k, n).a + n == b.a + b.n && Take(fl, k, n) == fl[..k] + rest + fl[k + 1..]
  {
    if n < fl[k].n {
      assert Take(fl, k, n) == fl[..k] + [Blk(fl[k].a, fl[k].n - n)] + fl[k + 1..];
    }
  }

  lemma TakeCanonical(fl: seq<Blk>, base: int, k: nat, n: int)
    requires Canonical(fl, base) && k < |fl| && 0 < n <= fl[k].n
    ensures Canonical(Take(fl, k, n), base)
  {
    var r := Take(fl, k, n);
    if fl[k].n == n {
      assert forall j :: 0 <= j < |r| ==> r[j] == fl[if j < k then j else j + 1];
    }
  }

  lemma TakeCovers(fl: seq<Blk>, base: int, k: nat, n: int, u: int)
    requires Canonical(fl, base) && k < |fl| && 0 < n <= fl[k].n
    ensures Covers(fl, u) <==> Covers(Take(fl, k, n), u) || In(Taken(fl, k, n), u)
    ensures !(Covers(Take(fl, k, n), u) && In(Taken(fl, k, n), u))
  {
    var r := Take(fl, k, n);
    CoversThree(fl, k, k + 1, u);
    CoversFew(fl[k..k + 1], u);
    if In(fl[k], u) {
      TakeLeaves(fl, base, k, n, u);
    }
    if fl[k].n == n {
      CoversConcat(fl[..k], fl[k + 1..], u);
    } else {
      CoversThree(r, k, k + 1, u);
      CoversFew(r[k..k + 1], u);
      assert r[..k] == fl[..k] && r[k + 1..] == fl[k + 1..];
    }
  }

  lemma TakeLeaves(fl: seq<Blk>, base: int, k: nat, n: int, u: int)
    requires Canonical(fl, base) && k < |fl| && In(fl[k], u)
    ensures !Covers(fl[..k], u) && !Covers(fl[k + 1..], u)
  {
    forall i | 0 <= i < |fl| && i != k ensures !In(fl[i], u) {}
    var y := fl[k + 1..];
    forall i | 0 <= i < |y| ensures !In(y[i], u) {
      assert y[i] == fl[k + 1 + i];
    }
  }
}
