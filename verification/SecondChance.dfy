/** Second-chance page replacement: the single pass of removeSCFIFO against the textbook loop. */
module SecondChance {
  import opened Options

  /** `acc[pte]` is the accessed bit of a page table entry, `ptes[page]` the entry of a page. */
  datatype Outcome = Outcome(victim: nat, queue: seq<nat>, acc: seq<bool>)

  ghost predicate Known(q: seq<nat>, ptes: seq<nat>, acc: seq<bool>)
  {
    forall i :: 0 <= i < |q| ==> q[i] < |ptes| && ptes[q[i]] < |acc|
  }

  predicate Bit(page: nat, ptes: seq<nat>, acc: seq<bool>)
    requires page < |ptes| && ptes[page] < |acc|
  {
    acc[ptes[page]]
  }

  /** Entries of the queued pages whose accessed bit is set. */
  ghost function Referenced(q: seq<nat>, ptes: seq<nat>, acc: seq<bool>): set<nat>
    requires Known(q, ptes, acc)
  {
    set i | 0 <= i < |q| && acc[ptes[q[i]]] :: ptes[q[i]]
  }

  lemma RequeueForgets(q: seq<nat>, ptes: seq<nat>, acc: seq<bool>)
    requires q != [] && Known(q, ptes, acc) && Bit(q[0], ptes, acc)
    ensures var q', acc' := q[1..] + [q[0]], acc[ptes[q[0]] := false];
      Known(q', ptes, acc') && Referenced(q', ptes, acc') < Referenced(q, ptes, acc)
  {
    var q', acc' := q[1..] + [q[0]], acc[ptes[q[0]] := false];
    forall i | 0 <= i < |q'| ensures q'[i] == q[if i + 1 < |q| then i + 1 else 0] {}
    assert ptes[q[0]] in Referenced(q, ptes, acc) && ptes[q[0]] !in Referenced(q', ptes, acc');
  }

  /** Take the head; if it was referenced, clear its bit and put it at the back; else it is the victim. */
  ghost function Textbook(q: seq<nat>, ptes: seq<nat>, acc: seq<bool>): Outcome
    requires q != [] && Known(q, ptes, acc)
    decreases Referenced(q, ptes, acc)
  {
    if Bit(q[0], ptes, acc) then
      RequeueForgets(q, ptes, acc);
      Textbook(q[1..] + [q[0]], ptes, acc[ptes[q[0]] := false])
    else
      Outcome(q[0], q[1..], acc)
  }

  /** The bits after the entries of the first `k` pages were cleared. */
  function Cleared(q: seq<nat>, ptes: seq<nat>, acc: seq<bool>, k: nat): (r: seq<bool>)
    requires k <= |q| && Known(q, ptes, acc)
    ensures |r| == |acc|
  {
    if k == 0 then acc else Cleared(q, ptes, acc, k - 1)[ptes[q[k - 1]] := false]
  }

  /** Each of the first `k` pages was found referenced, in the order of the queue. */
  ghost predicate AllReferenced(q: seq<nat>, ptes: seq<nat>, acc: seq<bool>, k: nat)
    requires k <= |q| && Known(q, ptes, acc)
  {
    forall i :: 0 <= i < k ==> Bit(q[i], ptes, Cleared(q, ptes, acc, i))
  }

  lemma RotationKnown(q: seq<nat>, ptes: seq<nat>, acc: seq<bool>, k: nat)
    requires k <= |q| && Known(q, ptes, acc)
    ensures Known(q[k..] + q[..k], ptes, Cleared(q, ptes, acc, k))
  {
  }

  lemma RotateOne(q: seq<nat>, k: nat)
    requires 0 < k <= |q|
    ensures var b := q[k - 1..] + q[..k - 1]; b[0] == q[k - 1] && b[1..] + [b[0]] == q[k..] + q[..k]
  {
    var b, r := q[k - 1..] + q[..k - 1], q[k..] + q[..k];
    var c := b[1..] + [b[0]];
    assert forall i :: 0 <= i < |q| ==> c[i] == r[i];
  }

  /** So the textbook loop has come as far as the single pass. */
  lemma {:induction false} PassedOver(q: seq<nat>, ptes: seq<nat>, acc: seq<bool>, k: nat)
    requires q != [] && k <= |q| && Known(q, ptes, acc) && AllReferenced(q, ptes, acc, k)
    ensures Known(q[k..] + q[..k], ptes, Cleared(q, ptes, acc, k))
    ensures Textbook(q, ptes, acc) == Textbook(q[k..] + q[..k], ptes, Cleared(q, ptes, acc, k))
  {
    RotationKnown(q, ptes, acc, k);
    if k == 0 {
      assert q[0..] + q[..0] == q;
    } else {
      PassedOver(q, ptes, acc, k - 1);
      RotateOne(q, k);
      assert Bit(q[k - 1], ptes, Cleared(q, ptes, acc, k - 1));
    }
  }

  /** The first page not referenced is the victim; those before it go behind those after it. */
  lemma FirstIdle(q: seq<nat>, ptes: seq<nat>, acc: seq<bool>, k: nat)
    requires k < |q| && Known(q, ptes, acc) && AllReferenced(q, ptes, acc, k)
        && !Bit(q[k], ptes, Cleared(q, ptes, acc, k))
    ensures Textbook(q, ptes, acc) == Outcome(q[k], q[k + 1..] + q[..k], Cleared(q, ptes, acc, k))
  {
    PassedOver(q, ptes, acc, k);
    var r := q[k..] + q[..k];
    assert r[0] == q[k] && r[1..] == q[k + 1..] + q[..k];
  }

  lemma {:induction false} ClearedStays(q: seq<nat>, ptes: seq<nat>, acc: seq<bool>, i: nat, k: nat)
    requires i < k <= |q| && Known(q, ptes, acc)
    ensures !Bit(q[i], ptes, Cleared(q, ptes, acc, k))
  {
    if i < k - 1 {
      ClearedStays(q, ptes, acc, i, k - 1);
    }
  }

  /** When all were referenced the head goes, after all, and all bits are clear. */
  lemma AllBusy(q: seq<nat>, ptes: seq<nat>, acc: seq<bool>)
    requires q != [] && Known(q, ptes, acc) && AllReferenced(q, ptes, acc, |q|)
    ensures Textbook(q, ptes, acc) == Outcome(q[0], q[1..], Cleared(q, ptes, acc, |q|))
  {
    PassedOver(q, ptes, acc, |q|);
    assert q[|q|..] + q[..|q|] == q;
    ClearedStays(q, ptes, acc, 0, |q|);
  }

  lemma {:induction false} ClearedElsewhere(q: seq<nat>, ptes: seq<nat>, acc: seq<bool>, k: nat, e: nat)
    requires k <= |q| && Known(q, ptes, acc) && e < |acc| && forall i :: 0 <= i < k ==> ptes[q[i]] != e
    ensures Cleared(q, ptes, acc, k)[e] == acc[e]
  {
    if k > 0 {
      ClearedElsewhere(q, ptes, acc, k - 1, e);
    }
  }

  /** A pass finds all pages referenced exactly when all bits are set and no two pages share an entry. */
  lemma AllReferencedMeans(q: seq<nat>, ptes: seq<nat>, acc: seq<bool>)
    requires Known(q, ptes, acc)
    ensures AllReferenced(q, ptes, acc, |q|) <==>
              && (forall i :: 0 <= i < |q| ==> Bit(q[i], ptes, acc))
              && (forall i, j :: 0 <= i < j < |q| ==> ptes[q[i]] != ptes[q[j]])
  {
    if AllReferenced(q, ptes, acc, |q|) {
      forall i, j | 0 <= i < j < |q| ensures ptes[q[i]] != ptes[q[j]] {
        ClearedStays(q, ptes, acc, i, j);
        assert Bit(q[j], ptes, Cleared(q, ptes, acc, j));
      }
      forall i | 0 <= i < |q| ensures Bit(q[i], ptes, acc) {
        ClearedElsewhere(q, ptes, acc, i, ptes[q[i]]);
        assert Bit(q[i], ptes, Cleared(q, ptes, acc, i));
      }
    }
    if (forall i :: 0 <= i < |q| ==> Bit(q[i], ptes, acc))
       && (forall i, j :: 0 <= i < j < |q| ==> ptes[q[i]] != ptes[q[j]]) {
      forall i | 0 <= i < |q| ensures Bit(q[i], ptes, Cleared(q, ptes, acc, i)) {
        ClearedElsewhere(q, ptes, acc, i, ptes[q[i]]);
      }
    }
  }

  // ---------------------------------------------------------------- the arrays

  /** RAMQueue holds the pages `q`, then -1. */
  ghost predicate Shows(a: seq<int>, q: seq<nat>)
  {
    |q| <= |a| && forall i :: 0 <= i < |a| ==> a[i] == if i < |q| then q[i] else -1
  }

  /** updateQueue */
  method UpdateQueue(ram: array<int>, at: nat)
    requires at < ram.Length
    modifies ram
    ensures forall i :: 0 <= i < ram.Length ==>
              ram[i] == if i < at then old(ram[i]) else if i + 1 < ram.Length then old(ram[i + 1]) else -1
  {
    var index := at;
    while index < ram.Length - 1
      invariant at <= index <= ram.Length - 1
      invariant forall i :: 0 <= i < ram.Length ==> ram[i] == if at <= i < index then old(ram[i + 1]) else old(ram[i])
    {
      ram[index] := ram[index + 1];
      index := index + 1;
    }
    ram[ram.Length - 1] := -1;
  }

  /** The pass has put the first `k` pages into `temp` and cleared their bits. */
  ghost predicate Passed(q: seq<nat>, ptes: seq<nat>, a0: seq<bool>, k: nat, acc: seq<bool>, temp: seq<int>)
  {
    && k <= |q| && Known(q, ptes, a0) && AllReferenced(q, ptes, a0, k)
    && acc == Cleared(q, ptes, a0, k) && Shows(temp, q[..k])
  }

  lemma OneMoreShown(temp: seq<int>, q: seq<nat>, k: nat)
    requires k < |q| && k < |temp| && Shows(temp, q[..k])
    ensures Shows(temp[k := q[k]], q[..k + 1])
  {
  }

  lemma PassedOne(q: seq<nat>, ptes: seq<nat>, a0: seq<bool>, k: nat, acc: seq<bool>, temp: seq<int>)
    requires Passed(q, ptes, a0, k, acc, temp) && k < |q| && k < |temp| && q[k] < |ptes| && ptes[q[k]] < |acc|
        && acc[ptes[q[k]]]
    ensures Passed(q, ptes, a0, k + 1, acc[ptes[q[k]] := false], temp[k := q[k]])
  {
    hide Shows;
    OneMoreShown(temp, q, k);
  }

  lemma Room(a: seq<int>, q: seq<nat>)
    requires Shows(a, q)
    ensures |q| <= |a|
  {
  }

  /** Entry `k` is a page of the queue or the mark behind it. */
  lemma PageAt(a: seq<int>, q: seq<nat>, ptes: seq<nat>, acc: seq<bool>, k: nat)
    requires Shows(a, q) && Known(q, ptes, acc) && k < |a|
    ensures if k >= |q| then a[k] == -1 else a[k] == q[k] < |ptes| && ptes[q[k]] < |acc|
  {
  }

  lemma IdleAt(q: seq<nat>, ptes: seq<nat>, acc: seq<bool>, k: nat)
    requires k < |q| && q[k] < |ptes| && ptes[q[k]] < |acc| && !acc[ptes[q[k]]]
    ensures !Bit(q[k], ptes, acc)
  {
  }

  /** A referenced page: its bit is cleared and it goes to `temp`. */
  method PassOver(page: nat, pte: nat, acc: array<bool>, temp: array<int>, ghost q: seq<nat>, ghost ptes: seq<nat>,
                  ghost a0: seq<bool>, k: nat)
    requires Passed(q, ptes, a0, k, acc[..], temp[..]) && k < |q| && k < temp.Length && page == q[k] < |ptes|
    requires pte == ptes[page] < acc.Length && acc[pte]
    modifies acc, temp
    ensures Passed(q, ptes, a0, k + 1, acc[..], temp[..])
  {
    hide Passed;
    PassedOne(q, ptes, a0, k, acc[..], temp[..]);
    ghost var acc1, temp1 := acc[..][pte := false], temp[..][k := page];
    acc[pte] := false;
    temp[k] := page;
    assert acc[..] == acc1 && temp[..] == temp1;
  }

  /**
   The pass: clear bits until a page is found whose bit is clear; `k` is its place, or the length of the array.
   `beyond`: it has come to an entry -1 instead, whose page does not exist.
   */
  method Pass(ram: array<int>, ptes: seq<nat>, acc: array<bool>, temp: array<int>, ghost q: seq<nat>)
    returns (k: nat, beyond: bool)
    requires Shows(ram[..], q) && Known(q, ptes, acc[..]) && temp.Length == ram.Length && temp != ram
    requires Shows(temp[..], [])
    modifies acc, temp
    ensures Passed(q, ptes, old(acc[..]), k, acc[..], temp[..])
    ensures k < |q| ==> !Bit(q[k], ptes, acc[..])
    ensures beyond <==> k == |q| < ram.Length
  {
    ghost var a0 := acc[..];
    hide AllReferenced, Cleared, Passed, Shows, Known, Bit;
    PassedNone(q, ptes, a0, temp[..]);
    Room(ram[..], q);
    k := 0;
    while k < ram.Length
      invariant k <= |q| && Passed(q, ptes, a0, k, acc[..], temp[..])
    {
      PageAt(ram[..], q, ptes, a0, k);
      if ram[k] == -1 {
        return k, true;
      }
      var pte := ptes[ram[k]];
      if !acc[pte] {
        IdleAt(q, ptes, acc[..], k);
        return k, false;
      }
      PassOver(ram[k], pte, acc, temp, q, ptes, a0, k);
      k := k + 1;
    }
    beyond := false;
  }

  lemma PassedNone(q: seq<nat>, ptes: seq<nat>, acc: seq<bool>, temp: seq<int>)
    requires Known(q, ptes, acc) && Shows(temp, [])
    ensures Passed(q, ptes, acc, 0, acc, temp)
  {
  }

  /** The pass stops at an idle page before its end. */
  lemma StopsEarly(q: seq<nat>, ptes: seq<nat>, a0: seq<bool>, k: nat, acc: seq<bool>, temp: seq<int>)
    requires Passed(q, ptes, a0, k, acc, temp) && k < |q| && !Bit(q[k], ptes, acc)
    ensures !AllReferenced(q, ptes, a0, |q|)
  {
  }

  /** First copying loop: the pages behind place `k` move to the front. */
  method MoveUp(ram: array<int>, k: nat, ghost q: seq<nat>) returns (index: nat)
    requires Shows(ram[..], q) && k < |q|
    modifies ram
    ensures index == |q| - k - 1 && index <= ram.Length && ram[..index] == q[k + 1..]
  {
    ghost var a := ram[..];
    var i := k + 1;
    index := 0;
    while i < ram.Length && ram[i] != -1
      invariant k + 1 <= i <= |q| && index == i - k - 1
      invariant forall j :: 0 <= j < index ==> ram[j] == q[k + 1 + j]
      invariant forall j :: index <= j < ram.Length ==> ram[j] == a[j]
    {
      ram[index] := ram[i];
      i, index := i + 1, index + 1;
    }
  }

  /** Second copying loop: the rest of the queue is filled from `temp`. */
  method FillFrom(ram: array<int>, temp: array<int>, index0: nat)
    requires temp.Length == ram.Length && temp != ram && index0 <= ram.Length
    modifies ram
    ensures ram[..] == old(ram[..index0]) + temp[..ram.Length - index0]
  {
    ghost var a := ram[..];
    var i, index := 0, index0;
    while index < ram.Length
      invariant index0 <= index <= ram.Length && i == index - index0
      invariant forall j :: 0 <= j < index ==> ram[j] == if j < index0 then a[j] else temp[j - index0]
    {
      ram[index] := temp[i];
      i, index := i + 1, index + 1;
    }
  }

  lemma RotationShows(a: seq<int>, q: seq<nat>, k: nat, temp: seq<int>)
    requires |a| == |temp| && k < |q| <= |a| && Shows(temp, q[..k]) && a == q[k + 1..] + temp[..|a| - (|q| - k - 1)]
    ensures Shows(a, q[k + 1..] + q[..k])
  {
  }

  /** The pages behind place `k`, then those in `temp`. */
  method Rotate(ram: array<int>, temp: array<int>, k: nat, ghost q: seq<nat>)
    requires Shows(ram[..], q) && k < |q| && temp.Length == ram.Length && temp != ram && Shows(temp[..], q[..k])
    modifies ram
    ensures Shows(ram[..], q[k + 1..] + q[..k])
  {
    var index := MoveUp(ram, k, q);
    FillFrom(ram, temp, index);
    RotationShows(ram[..], q, k, temp[..]);
  }

  /**
   removeSCFIFO gives the victim, the order of the others and the accessed bits of the textbook loop,
   whether or not pages share a page table entry and also when every bit is set. `None`, where the source
   reads pages[-1], comes about exactly when the queue is not full and the pass finds every page referenced.
   */
  method RemoveScfifo(ram: array<int>, ptes: seq<nat>, acc: array<bool>, ghost q: seq<nat>)
    returns (victim: Option<nat>)
    requires 0 < ram.Length && Shows(ram[..], q) && Known(q, ptes, acc[..])
    modifies ram, acc
    ensures Known(q, ptes, old(acc[..]))
    ensures victim.None? <==> |q| < ram.Length && AllReferenced(q, ptes, old(acc[..]), |q|)
    ensures victim.None? ==> ram[..] == old(ram[..]) && acc[..] == Cleared(q, ptes, old(acc[..]), |q|)
    ensures victim.Some? ==> q != [] && var r := Textbook(q, ptes, old(acc[..]));
              victim.value == r.victim && Shows(ram[..], r.queue) && acc[..] == r.acc
  {
    ghost var a0 := acc[..];
    var temp := new int[ram.Length](_ => -1);
    var k, beyond := Pass(ram, ptes, acc, temp, q);
    if beyond {
      return None;
    }
    if k == ram.Length {
      AllBusy(q, ptes, a0);
      victim := Some(ram[0]);
      UpdateQueue(ram, 0);
    } else {
      StopsEarly(q, ptes, a0, k, acc[..], temp[..]);
      FirstIdle(q, ptes, a0, k);
      victim := Some(ram[k]);
      Rotate(ram, temp, k, q);
    }
  }
}
