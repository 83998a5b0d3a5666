/** The bytes of a directory: a sequence of 16-byte entries, and the finite map they stand for. */
module Directory {
  import opened Disk
  import FsSpec

  const DIRSIZ: nat := 14
  const DESIZE: nat := 16

  type Name = seq<Byte>

  /** A C string: no NUL among its bytes. */
  predicate IsString(name: Name) { forall i :: 0 <= i < |name| ==> name[i] != 0 }

  /** What fits into a name field. */
  function Trunc<T>(s: seq<T>): seq<T> { if |s| > DIRSIZ then s[..DIRSIZ] else s }

  /** A name field up to its first NUL. */
  function Cut(f: seq<Byte>): (r: Name)
    ensures IsString(r)
  {
    if f == [] || f[0] == 0 then [] else [f[0]] + Cut(f[1..])
  }

  function Pad(n: nat): (r: seq<Byte>)
    ensures |r| == n && forall i :: 0 <= i < n ==> r[i] == 0
  {
    seq(n, _ => 0)
  }

  /** `strncpy(f, name, n)` */
  function Strncpy(name: Name, n: nat): (f: seq<Byte>)
    ensures |f| == n
  {
    if n == 0 then []
    else if name == [] then Pad(n)
    else [name[0]] + Strncpy(name[1..], n - 1)
  }

  /** `strncmp(name, f, n) == 0` */
  predicate StrncmpEq(name: Name, f: seq<Byte>, n: nat)
    requires n <= |f|
  {
    if n == 0 then true
    else if name == [] then f[0] == 0
    else name[0] == f[0] && StrncmpEq(name[1..], f[1..], n - 1)
  }

  lemma {:induction false} CutStrncpy(name: Name, n: nat)
    requires IsString(name)
    ensures Cut(Strncpy(name, n)) == if |name| > n then name[..n] else name
  {
    if n > 0 && name != [] {
      CutStrncpy(name[1..], n - 1);
      assert Strncpy(name, n)[1..] == Strncpy(name[1..], n - 1);
      assert name == [name[0]] + name[1..];
    }
  }

  /** namecmp tells names apart by their first DIRSIZ bytes. */
  lemma {:induction false} StrncmpCut(name: Name, f: seq<Byte>)
    requires IsString(name)
    ensures StrncmpEq(name, f, |f|) <==> Cut(f) == if |name| > |f| then name[..|f|] else name
    decreases |f|
  {
    if f != [] && name != [] {
      StrncmpCut(name[1..], f[1..]);
      var a, b := if |name| > |f| then name[..|f|] else name, if |name[1..]| > |f[1..]| then name[1..][..|f[1..]|]
          else name[1..];
      assert a == [name[0]] + b;
      if f[0] != 0 {
        assert Cut(f)[1..] == Cut(f[1..]);
      }
    }
  }

  // ---------------------------------------------------------------- entries

  predicate Whole(c: seq<Byte>) { |c| % DESIZE == 0 }

  function Slots(c: seq<Byte>): nat { |c| / DESIZE }

  function Entry(c: seq<Byte>, i: nat): (r: seq<Byte>)
    requires i < Slots(c)
    ensures |r| == DESIZE
  {
    c[DESIZE * i..DESIZE * i + DESIZE]
  }

  /** The little-endian `ushort inum` at the front of an entry. */
  function InumOf(e: seq<Byte>): nat
    requires |e| == DESIZE
  {
    var lo: int, hi: int := e[0], e[1];
    lo + 256 * hi
  }

  function NameOf(e: seq<Byte>): Name
    requires |e| == DESIZE
  {
    Cut(e[2..])
  }

  predicate Live(c: seq<Byte>, i: nat)
    requires i < Slots(c)
  {
    InumOf(Entry(c, i)) != 0
  }

  predicate Names(c: seq<Byte>, i: nat, name: Name)
    requires i < Slots(c)
  {
    Live(c, i) && NameOf(Entry(c, i)) == name
  }

  lemma SameName(name: Name, e: seq<Byte>)
    requires IsString(name) && |e| == DESIZE
    ensures StrncmpEq(name, e[2..], DIRSIZ) <==> NameOf(e) == Trunc(name)
  {
    StrncmpCut(name, e[2..]);
  }

  /** The entry dirlink builds; only 16 bits of the inode number are stored. */
  function Dirent(name: Name, inum: Uint): (e: seq<Byte>)
    ensures |e| == DESIZE && InumOf(e) == inum % 65536
  {
    var e: seq<Byte> := [inum % 256, inum / 256 % 256] + Strncpy(name, DIRSIZ);
    var h := inum / 256;
    assert inum % 65536 == inum % 256 + 256 * (h % 256);
    e
  }

  lemma DirentName(name: Name, inum: Uint)
    requires IsString(name)
    ensures NameOf(Dirent(name, inum)) == Trunc(name)
  {
    CutStrncpy(name, DIRSIZ);
    assert Dirent(name, inum)[2..] == Strncpy(name, DIRSIZ);
  }

  /** Live entries have distinct names. */
  ghost predicate DirOk(c: seq<Byte>)
  {
    && Whole(c)
    && forall i, j :: 0 <= i < j < Slots(c) && Live(c, i) && Live(c, j) ==> NameOf(Entry(c, i)) != NameOf(Entry(c, j))
  }

  /** What the first `n` entries bind. */
  ghost function MapTo(c: seq<Byte>, n: nat): map<Name, nat>
    requires n <= Slots(c)
  {
    if n == 0 then map[]
    else if Live(c, n - 1) then MapTo(c, n - 1)[NameOf(Entry(c, n - 1)) := InumOf(Entry(c, n - 1))]
    else MapTo(c, n - 1)
  }

  ghost function DirMap(c: seq<Byte>): map<Name, nat> { MapTo(c, Slots(c)) }

  lemma {:induction false} MapToHas(c: seq<Byte>, n: nat, name: Name)
    requires n <= Slots(c)
    ensures name in MapTo(c, n) <==> exists i :: 0 <= i < n && Names(c, i, name)
    ensures DirOk(c) ==>
              forall i :: 0 <= i < n && Names(c, i, name) ==>
              name in MapTo(c, n) && MapTo(c, n)[name] == InumOf(Entry(c, i))
  {
    if n > 0 {
      MapToHas(c, n - 1, name);
      if name in MapTo(c, n) && name in MapTo(c, n - 1) {
        var i :| 0 <= i < n - 1 && Names(c, i, name);
      } else if name in MapTo(c, n) {
        assert Names(c, n - 1, name);
      }
    }
  }

  // ---------------------------------------------------------------- one entry is written

  /** `c` with entry `k` overwritten, or appended. */
  ghost predicate WritesEntry(c: seq<Byte>, d: seq<Byte>, k: nat, e: seq<Byte>)
  {
    && |e| == DESIZE && Whole(c) && Whole(d) && k < Slots(d) && k <= Slots(c)
       && Slots(d) == (if k < Slots(c) then Slots(c) else k + 1)
    && Entry(d, k) == e
    && forall i :: 0 <= i < Slots(c) && i != k ==> Entry(d, i) == Entry(c, i)
  }

  lemma SpliceEntry(c: seq<Byte>, k: nat, e: seq<Byte>)
    requires Whole(c) && k <= Slots(c) && |e| == DESIZE
    ensures DESIZE * k <= |c| && WritesEntry(c, FsSpec.Splice(c, DESIZE * k, e), k, e)
  {
    var d := FsSpec.Splice(c, DESIZE * k, e);
    assert |c| == DESIZE * Slots(c);
    assert |d| == if k < Slots(c) then |c| else DESIZE * (k + 1);
    assert Entry(d, k) == e;
    forall i | 0 <= i < Slots(c) && i != k ensures Entry(d, i) == Entry(c, i) {
      SplicedElsewhere(c, k, e, i);
    }
  }

  lemma SplicedElsewhere(c: seq<Byte>, k: nat, e: seq<Byte>, i: nat)
    requires Whole(c) && k <= Slots(c) && |e| == DESIZE && i < Slots(c) && i != k
    ensures DESIZE * k <= |c| && i < Slots(FsSpec.Splice(c, DESIZE * k, e))
        && Entry(FsSpec.Splice(c, DESIZE * k, e), i) == Entry(c, i)
  {
    var d := FsSpec.Splice(c, DESIZE * k, e);
    assert |c| == DESIZE * Slots(c);
    assert |d| >= |c|;
    if i < k {
      assert DESIZE * i + DESIZE <= DESIZE * k;
    } else {
      assert DESIZE * k + DESIZE <= DESIZE * i;
    }
  }

  /** A free slot, or the one behind the last, gets an entry whose name no live entry has. */
  lemma LinkKeepsOk(c: seq<Byte>, d: seq<Byte>, k: nat, e: seq<Byte>)
    requires DirOk(c) && WritesEntry(c, d, k, e) && (k < Slots(c) ==> !Live(c, k))
    requires InumOf(e) != 0 ==> forall i :: 0 <= i < Slots(c) ==> !Names(c, i, NameOf(e))
    ensures DirOk(d)
  {
    forall i, j | 0 <= i < j < Slots(d) && Live(d, i) && Live(d, j) ensures NameOf(Entry(d, i)) != NameOf(Entry(d, j)) {
      assert i != k ==> !Names(c, i, NameOf(e)) || InumOf(e) == 0;
      assert j != k ==> !Names(c, j, NameOf(e)) || InumOf(e) == 0;
    }
  }

  lemma LinkBinds(c: seq<Byte>, d: seq<Byte>, k: nat, e: seq<Byte>, name: Name)
    requires DirOk(c) && DirOk(d) && WritesEntry(c, d, k, e) && (k < Slots(c) ==> !Live(c, k))
    ensures name in DirMap(d) <==> name in DirMap(c) || (InumOf(e) != 0 && name == NameOf(e))
    ensures name in DirMap(d) ==> DirMap(d)[name] == if InumOf(e) != 0 && name == NameOf(e) then InumOf(e)
        else DirMap(c)[name]
  {
    MapToHas(c, Slots(c), name);
    MapToHas(d, Slots(d), name);
    if name in DirMap(d) {
      var i :| 0 <= i < Slots(d) && Names(d, i, name);
      if i != k {
        assert Names(c, i, name);
        assert InumOf(e) != 0 ==> Live(d, k) && NameOf(Entry(d, k)) != NameOf(Entry(d, i));
      }
    }
    if name in DirMap(c) {
      var i :| 0 <= i < Slots(c) && Names(c, i, name);
      assert Names(d, i, name);
    }
    if InumOf(e) != 0 && name == NameOf(e) {
      assert Names(d, k, name);
    }
  }

  lemma LinkMap(c: seq<Byte>, d: seq<Byte>, k: nat, e: seq<Byte>)
    requires DirOk(c) && DirOk(d) && WritesEntry(c, d, k, e) && (k < Slots(c) ==> !Live(c, k))
    ensures DirMap(d) == if InumOf(e) != 0 then DirMap(c)[NameOf(e) := InumOf(e)] else DirMap(c)
  {
    forall name ensures
      && (name in DirMap(d) <==> name in DirMap(c) || (InumOf(e) != 0 && name == NameOf(e)))
      && (name in DirMap(d) ==> DirMap(d)[name] == if InumOf(e) != 0 && name == NameOf(e) then InumOf(e)
         else DirMap(c)[name])
    {
      LinkBinds(c, d, k, e, name);
    }
  }

  /** Zeroing a live entry, as unlink does, unbinds its name and nothing else. */
  lemma ClearKeeps(c: seq<Byte>, d: seq<Byte>, k: nat)
    requires DirOk(c) && k < Slots(c) && Live(c, k) && WritesEntry(c, d, k, Pad(DESIZE))
    ensures DirOk(d) && DirMap(d) == DirMap(c) - {NameOf(Entry(c, k))}
  {
    assert !Live(d, k);
    forall i, j | 0 <= i < j < Slots(d) && Live(d, i) && Live(d, j) ensures NameOf(Entry(d, i)) != NameOf(Entry(d, j)) {
      assert Live(c, i) && Live(c, j);
    }
    forall name ensures
      && (name in DirMap(d) <==> name in DirMap(c) && name != NameOf(Entry(c, k)))
      && (name in DirMap(d) ==> DirMap(d)[name] == DirMap(c)[name])
    {
      ClearUnbinds(c, d, k, name);
    }
  }

  lemma ClearUnbinds(c: seq<Byte>, d: seq<Byte>, k: nat, name: Name)
    requires DirOk(c) && DirOk(d) && k < Slots(c) && Live(c, k) && WritesEntry(c, d, k, Pad(DESIZE))
    ensures name in DirMap(d) <==> name in DirMap(c) && name != NameOf(Entry(c, k))
    ensures name in DirMap(d) ==> DirMap(d)[name] == DirMap(c)[name]
  {
    MapToHas(c, Slots(c), name);
    MapToHas(d, Slots(d), name);
    assert !Live(d, k);
    if name in DirMap(d) {
      var i :| 0 <= i < Slots(d) && Names(d, i, name);
      assert Names(c, i, name);
      assert NameOf(Entry(c, k)) != name;
    }
    if name in DirMap(c) && name != NameOf(Entry(c, k)) {
      var i :| 0 <= i < Slots(c) && Names(c, i, name);
      assert i != k && Names(d, i, name);
    }
  }
}
