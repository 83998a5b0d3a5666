/** The ring buffer of a pipe: 512 bytes and two counters that wrap at 2^32. */
module PipeRing {
  import opened Disk

  const PIPESIZE := 512
  const WRAP := 0x1_0000_0000

  datatype Ring = Ring(data: seq<Byte>, nread: int, nwrite: int)

  predicate Empty(r: Ring) { r.nread == r.nwrite }

  predicate Full(r: Ring) { r.nwrite == (r.nread + PIPESIZE) % WRAP }

  predicate Shaped(r: Ring) { |r.data| == PIPESIZE && 0 <= r.nread < WRAP && 0 <= r.nwrite < WRAP }

  function Put(r: Ring, b: Byte): Ring
    requires Shaped(r)
  {
    Ring(r.data[r.nwrite % PIPESIZE := b], r.nread, (r.nwrite + 1) % WRAP)
  }

  function First(r: Ring): Byte
    requires Shaped(r)
  {
    r.data[r.nread % PIPESIZE]
  }

  function Drop(r: Ring): Ring { r.(nread := (r.nread + 1) % WRAP) }

  /** Several bytes in, one after the other. */
  function PutAll(r: Ring, bs: seq<Byte>): (q: Ring)
    requires Shaped(r)
    ensures Shaped(q)
    decreases |bs|
  {
    if bs == [] then r else PutAll(Put(r, bs[0]), bs[1..])
  }

  lemma {:induction false} PutAllSnoc(r: Ring, bs: seq<Byte>, b: Byte)
    requires Shaped(r)
    ensures PutAll(r, bs + [b]) == Put(PutAll(r, bs), b)
    decreases |bs|
  {
    if bs == [] {
      assert (bs + [b])[1..] == [];
    } else {
      PutAllSnoc(Put(r, bs[0]), bs[1..], b);
      assert (bs + [b])[1..] == bs[1..] + [b];
    }
  }

  /** After `written` went in and the first `taken` of those bytes came out. */
  ghost predicate Holds(r: Ring, written: seq<Byte>, taken: nat)
  {
    && Shaped(r) && taken <= |written| <= taken + PIPESIZE
    && r.nread == taken % WRAP && r.nwrite == |written| % WRAP
    && forall k {:trigger written[k]} :: taken <= k < |written| ==> r.data[k % PIPESIZE] == written[k]
  }

  /** The counters tell empty and full apart, however often they have wrapped. */
  lemma Occupancy(r: Ring, written: seq<Byte>, taken: nat)
    requires Holds(r, written, taken)
    ensures Empty(r) <==> taken == |written|
    ensures Full(r) <==> |written| == taken + PIPESIZE
    ensures (r.nwrite - r.nread) % WRAP == |written| - taken
  {
    var c := |written| - taken;
    assert |written| % WRAP == (taken % WRAP + c) % WRAP;
    assert 0 <= c <= PIPESIZE;
  }

  lemma SlotOfCounter(k: nat)
    ensures (k % WRAP) % PIPESIZE == k % PIPESIZE
  {
    var q := k / WRAP;
    assert k == q * WRAP + k % WRAP;
    assert q * WRAP == PIPESIZE * (q * 8388608);
  }

  lemma NextCounter(k: nat)
    ensures (k % WRAP + 1) % WRAP == (k + 1) % WRAP
  {
  }

  /** Two bytes within one buffer length of each other have different places. */
  lemma PlacesApart(j: nat, k: nat)
    requires j < k < j + PIPESIZE
    ensures j % PIPESIZE != k % PIPESIZE
  {
  }

  lemma PutHolds(r: Ring, written: seq<Byte>, taken: nat, b: Byte)
    requires Holds(r, written, taken) && !Full(r)
    ensures Holds(Put(r, b), written + [b], taken)
  {
    Occupancy(r, written, taken);
    SlotOfCounter(|written|);
    NextCounter(|written|);
    var w := written + [b];
    forall k | taken <= k < |w| ensures Put(r, b).data[k % PIPESIZE] == w[k] {
      if k < |written| {
        PlacesApart(k, |written|);
        assert w[k] == written[k];
      }
    }
  }

  lemma TakeHolds(r: Ring, written: seq<Byte>, taken: nat)
    requires Holds(r, written, taken) && !Empty(r)
    ensures taken < |written| && First(r) == written[taken] && Holds(Drop(r), written, taken + 1)
  {
    Occupancy(r, written, taken);
    SlotOfCounter(taken);
    NextCounter(taken);
    assert First(r) == r.data[taken % PIPESIZE];
  }

  /** The copy loops of pipewrite and piperead, run with the pipe's lock held. */
  class Pipe {
    var data: array<Byte>
    var nread: int
    var nwrite: int
    ghost var written: seq<Byte>
    ghost var taken: nat

    ghost function Value(): Ring
      reads this, data
    {
      Ring(data[..], nread, nwrite)
    }

    ghost predicate Valid()
      reads this, data
    {
      data.Length == PIPESIZE && Holds(Value(), written, taken)
    }

    constructor ()
      ensures Valid() && fresh(data) && written == [] && taken == 0
    {
      data := new Byte[PIPESIZE](_ => 0);
      nread, nwrite, written, taken := 0, 0, [], 0;
    }

    /** One byte in. */
    method PutByte(b: Byte)
      requires Valid() && !Full(Value())
      modifies this`nwrite, this`written, data
      ensures Valid() && written == old(written) + [b] && Value() == Put(old(Value()), b)
    {
      PutHolds(Value(), written, taken, b);
      ghost var next := Put(Value(), b);
      data[nwrite % PIPESIZE] := b;
      nwrite := (nwrite + 1) % WRAP;
      assert data[..] == next.data;
      written := written + [b];
    }

    /** One byte out. */
    method TakeByte() returns (b: Byte)
      requires Valid() && !Empty(Value())
      modifies this`nread, this`taken
      ensures Valid() && taken == old(taken) + 1 <= |written| && b == written[taken - 1]
    {
      TakeHolds(Value(), written, taken);
      b := data[nread % PIPESIZE];
      nread := (nread + 1) % WRAP;
      taken := taken + 1;
    }

    /** pipewrite's loop from byte `i` on, until all is written or the buffer is full. */
    method CopyIn(addr: seq<Byte>, i0: nat) returns (i: nat)
      requires Valid() && i0 <= |addr|
      modifies this`nwrite, this`written, data
      ensures Valid() && i0 <= i <= |addr| && written == old(written) + addr[i0..i]
      ensures i < |addr| <==> |addr| - i0 > PIPESIZE - (|old(written)| - taken)
      ensures i < |addr| ==> Full(Value())
      ensures Shaped(old(Value())) && Value() == PutAll(old(Value()), addr[i0..i])
    {
      i := i0;
      while i < |addr| && nwrite != (nread + PIPESIZE) % WRAP
        invariant Valid() && i0 <= i <= |addr| && written == old(written) + addr[i0..i]
        invariant Value() == PutAll(old(Value()), addr[i0..i])
      {
        PutAllSnoc(old(Value()), addr[i0..i], addr[i]);
        assert addr[i0..i + 1] == addr[i0..i] + [addr[i]];
        PutByte(addr[i]);
        i := i + 1;
      }
      Occupancy(Value(), written, taken);
    }

    /** piperead's loop: as many of the oldest bytes as there are and as were asked for, in order. */
    method CopyOut(n: nat) returns (got: seq<Byte>)
      requires Valid()
      modifies this`nread, this`taken
      ensures Valid() && |got| == (if n < |written| - old(taken) then n else |written| - old(taken))
      ensures taken == old(taken) + |got| && got == written[old(taken)..taken]
      ensures Value() == old(Value()).(nread := taken % WRAP)
    {
      got := [];
      var i := 0;
      while i < n
        invariant Valid() && i == |got| <= n && taken == old(taken) + i && got == written[old(taken)..taken]
      {
        Occupancy(Value(), written, taken);
        if nread == nwrite {
          break;
        }
        var b := TakeByte();
        got := got + [b];
        i := i + 1;
      }
      Occupancy(Value(), written, taken);
    }
  }
}
