/** dirlookup, dirlink and the removal of an entry, over readi and writei. */
module DirOps {
  import opened Options
  import opened Disk
  import opened FsLayout
  import opened FsSpec
  import opened FileSystem
  import opened FileIO
  import opened Directory

  /** The caller holds the directory `dp`, whose bytes are `c`. */
  ghost predicate Reading(fs: FileSystem, dp: Inode, c: seq<Byte>)
    reads fs, dp
  {
    && fs.Holding(dp) && dp.inum < |fs.st.files| && Shape(fs.st.files[dp.inum]) && dp.size <= MAXFILE * BSIZE
    && c == Content(fs.st, dp.inum) && |c| == dp.size && Whole(c)
  }

  /** `readi(dp, &de, off, sizeof(de))`; the "read" panics cannot happen. */
  method ReadEntry(fs: FileSystem, dp: Inode, i: nat, ghost c: seq<Byte>) returns (de: seq<Byte>)
    requires Reading(fs, dp, c) && i < Slots(c)
    modifies fs`blk, fs`logged, fs`writes, fs`st, dp`addrs
    ensures Reading(fs, dp, c) && fs.Untouched(old(fs.st), old(dp.addrs), old(fs.logged), dp)
    ensures |de| == DESIZE && de == Entry(c, i)
  {
    hide Good, OthersSynced;
    var r;
    var off: Uint := DESIZE * i;
    EntryInside(c, i);
    de, r := Readi(fs, dp, off, DESIZE);
  }

  lemma EntryInside(c: seq<Byte>, i: nat)
    requires Whole(c) && i < Slots(c)
    ensures DESIZE * i + DESIZE <= |c|
  {
  }

  /** dirlookup: the number of the inode bound to the name, and the place of its entry. */
  method Dirlookup(fs: FileSystem, dp: Inode, name: Name, ghost c: seq<Byte>) returns (r: Option<(nat, nat)>)
    requires Reading(fs, dp, c) && IsString(name)
    modifies fs`blk, fs`logged, fs`writes, fs`st, dp`addrs
    ensures Reading(fs, dp, c) && fs.Untouched(old(fs.st), old(dp.addrs), old(fs.logged), dp)
    ensures r.Some? ==>
              r.value.1 < Slots(c) && Names(c, r.value.1, Trunc(name)) && r.value.0 == InumOf(Entry(c, r.value.1))
    ensures r.None? ==> forall i :: 0 <= i < Slots(c) ==> !Names(c, i, Trunc(name))
  {
    hide Good, OthersSynced, NameOf, StrncmpEq, Trunc, Content;
    ghost var s := fs.st;
    var i := 0;
    while DESIZE * i < dp.size
      invariant 0 <= i <= Slots(c) && Reading(fs, dp, c)
      invariant fs.Untouched(s, old(dp.addrs), old(fs.logged), dp)
      invariant forall j :: 0 <= j < i ==> !Names(c, j, Trunc(name))
      decreases Slots(c) - i
    {
      var de := ReadEntry(fs, dp, i, c);
      var inum := InumOf(de);
      if inum != 0 {
        SameName(name, de);
        if StrncmpEq(name, de[2..], DIRSIZ) {
          return Some((inum, i));
        }
      }
      i := i + 1;
    }
    return None;
  }

  /** dirlink's search for an empty entry; the place behind the last if there is none. */
  method FindEmpty(fs: FileSystem, dp: Inode, ghost c: seq<Byte>) returns (k: nat)
    requires Reading(fs, dp, c)
    modifies fs`blk, fs`logged, fs`writes, fs`st, dp`addrs
    ensures Reading(fs, dp, c) && fs.Untouched(old(fs.st), old(dp.addrs), old(fs.logged), dp)
    ensures k <= Slots(c) && (k < Slots(c) ==> !Live(c, k)) && forall i :: 0 <= i < k ==> Live(c, i)
  {
    hide Good, OthersSynced;
    ghost var s := fs.st;
    k := 0;
    while DESIZE * k < dp.size
      invariant 0 <= k <= Slots(c) && Reading(fs, dp, c)
      invariant fs.Untouched(s, old(dp.addrs), old(fs.logged), dp)
      invariant forall i :: 0 <= i < k ==> Live(c, i)
      decreases Slots(c) - k
    {
      var de := ReadEntry(fs, dp, k, c);
      if InumOf(de) == 0 {
        break;
      }
      k := k + 1;
    }
  }

  /** `dp` is a directory with distinct names, its bytes are `c`, and its inode on disk is up to date. */
  ghost predicate HoldsDir(fs: FileSystem, dp: Inode, c: seq<Byte>)
    reads fs, dp
  {
    Reading(fs, dp, c) && DirOk(c) && dp.inum < |fs.st.dinos| && fs.st.dinos[dp.inum] == Ino(dp.size, dp.addrs)
  }

  /** Every other file has the contents it had. */
  ghost predicate OnlyChanges(s: Fs, t: Fs, i: nat)
  {
    && |s.files| == |t.files| && Mapped(s.files) && Mapped(t.files)
    && forall x :: 0 <= x < |t.files| && x != i ==> Content(t, x) == Content(s, x)
  }

  /** Entry `k` can be written: it is there, or the file may still grow and the blocks for it are free. */
  ghost predicate Fits(s: Fs, i: nat, c: seq<Byte>, k: nat)
  {
    k < Slots(c) || (DESIZE * k + DESIZE <= MAXFILE * BSIZE && Room(s, i, RangeSlots(DESIZE * k, DESIZE)))
  }

  lemma FitsExactly(fs: FileSystem, dp: Inode, c: seq<Byte>, k: nat)
    requires HoldsDir(fs, dp, c) && k <= Slots(c)
    ensures DESIZE * k <= dp.size
    ensures Fits(fs.st, dp.inum, c, k)
            <==> DESIZE * k + DESIZE <= MAXFILE * BSIZE && Room(fs.st, dp.inum, RangeSlots(DESIZE * k, DESIZE))
  {
    hide Good, DirOk, Room, RangeSlots;
    HasContent(fs.sb, fs.st, dp.inum);
    if k < Slots(c) {
      EntryInside(c, k);
      InsideNeedsNothing(fs.sb, fs.st, dp.inum, DESIZE * k, DESIZE);
    }
  }

  /** `writei(dp, &de, off, sizeof(de))`; `false` is a panic, in balloc or because the result is -1. */
  method WriteEntry(fs: FileSystem, dp: Inode, k: nat, de: seq<Byte>, ghost c: seq<Byte>)
    returns (ok: bool, ghost d: seq<Byte>)
    requires HoldsDir(fs, dp, c) && k <= Slots(c) && |de| == DESIZE
    modifies fs`blk, fs`logged, fs`writes, fs`st, dp
    ensures ok ==> Reading(fs, dp, d) && WritesEntry(c, d, k, de) && OnlyChanges(old(fs.st), fs.st, dp.inum)
    ensures ok ==> dp.inum < |fs.st.dinos| && fs.st.dinos[dp.inum] == Ino(dp.size, dp.addrs)
    ensures ok <==> Fits(old(fs.st), dp.inum, c, k)
  {
    hide Good, OthersSynced, DirOk, WritesEntry, Room, Fills, NoneFree, RangeSlots, Fits;
    ghost var new_;
    FitsExactly(fs, dp, c, k);
    SpliceEntry(c, k, de);
    var off: Uint := DESIZE * k;
    var r;
    r, ok, new_ := Writei(fs, dp, off, de);
    d := [];
    if ok && r != DESIZE {
      ok := false;
    }
    if ok {
      HasContent(fs.sb, fs.st, dp.inum);
      d := Splice(c, DESIZE * k, de);
      WrittenWhole(c, d, k, de);
    }
  }

  lemma WrittenWhole(c: seq<Byte>, d: seq<Byte>, k: nat, e: seq<Byte>)
    requires WritesEntry(c, d, k, e)
    ensures Whole(d)
  {
  }

  /**
   dirlink: -1 and no change exactly when the truncated name is bound; else the directory is the old one
   with the name bound to the low 16 bits of the inode number (to nothing if those are 0). The entry `k` is the
   first empty one, or a new one if there is none; only then it may fail.
   */
  method Dirlink(fs: FileSystem, dp: Inode, name: Name, inum: Uint, ghost c: seq<Byte>)
    returns (r: int, ok: bool, ghost d: seq<Byte>, ghost k: nat)
    requires HoldsDir(fs, dp, c) && IsString(name)
    modifies fs`blk, fs`logged, fs`writes, fs`st, dp
    ensures ok ==> HoldsDir(fs, dp, d)
    ensures Trunc(name) in DirMap(c) ==> ok && r == -1 && fs.st == old(fs.st) && d == c
    ensures Trunc(name) !in DirMap(c) && ok ==> r == 0 && OnlyChanges(old(fs.st), fs.st, dp.inum)
    ensures Trunc(name) !in DirMap(c) && ok ==>
              DirMap(d) == if inum % 65536 != 0 then DirMap(c)[Trunc(name) := inum % 65536] else DirMap(c)
    ensures Trunc(name) !in DirMap(c) ==>
              && k <= Slots(c) && (k < Slots(c) ==> !Live(c, k)) && (forall i :: 0 <= i < k ==> Live(c, i))
              && (ok <==> Fits(old(fs.st), dp.inum, c, k))
              && (ok ==> WritesEntry(c, d, k, Dirent(name, inum)))
  {
    hide Good, OthersSynced, DirOk, WritesEntry, DirMap, OnlyChanges, Fits;
    d, k := c, 0;
    var found := Dirlookup(fs, dp, name, c);
    Lookup(c, Trunc(name));
    if found.Some? {
      return -1, true, c, 0;
    }
    var at := FindEmpty(fs, dp, c);
    k := at;
    var de := Dirent(name, inum);
    DirentName(name, inum);
    ok, d := WriteEntry(fs, dp, at, de, c);
    if ok {
      LinkKeepsOk(c, d, k, de);
      LinkMap(c, d, k, de);
    }
    r := 0;
  }

  /** The map binds a name exactly when some live entry has it. */
  lemma Lookup(c: seq<Byte>, name: Name)
    requires DirOk(c)
    ensures name in DirMap(c) <==> exists i :: 0 <= i < Slots(c) && Names(c, i, name)
    ensures
              forall i :: 0 <= i < Slots(c) && Names(c, i, name) ==>
              name in DirMap(c) && DirMap(c)[name] == InumOf(Entry(c, i))
  {
    MapToHas(c, Slots(c), name);
  }

  /** dirlookup agrees with the map. */
  method LookupInMap(fs: FileSystem, dp: Inode, name: Name, ghost c: seq<Byte>) returns (r: Option<(nat, nat)>)
    requires HoldsDir(fs, dp, c) && IsString(name)
    modifies fs`blk, fs`logged, fs`writes, fs`st, dp`addrs
    ensures HoldsDir(fs, dp, c) && fs.st == old(fs.st)
    ensures r.Some? <==> Trunc(name) in DirMap(c)
    ensures r.Some? ==> r.value.0 == DirMap(c)[Trunc(name)] && r.value.1 < Slots(c) && Names(c, r.value.1, Trunc(name))
  {
    hide Good, OthersSynced, DirOk, DirMap;
    Lookup(c, Trunc(name));
    r := Dirlookup(fs, dp, name, c);
  }

  /** What unlink does to the directory: the entry found by dirlookup is overwritten with zeros; it cannot fail. */
  method Unbind(fs: FileSystem, dp: Inode, name: Name, ghost c: seq<Byte>)
    returns (r: int, ok: bool, ghost d: seq<Byte>)
    requires HoldsDir(fs, dp, c) && IsString(name)
    modifies fs`blk, fs`logged, fs`writes, fs`st, dp
    ensures ok && HoldsDir(fs, dp, d)
    ensures Trunc(name) !in DirMap(c) ==> ok && r == -1 && fs.st == old(fs.st) && d == c
    ensures Trunc(name) in DirMap(c) && ok ==>
              r == 0 && OnlyChanges(old(fs.st), fs.st, dp.inum) && DirMap(d) == DirMap(c) - {Trunc(name)}
  {
    hide Good, OthersSynced, DirOk, WritesEntry, DirMap, OnlyChanges;
    d := c;
    var found := LookupInMap(fs, dp, name, c);
    if found.None? {
      return -1, true, c;
    }
    ok, d := WriteEntry(fs, dp, found.value.1, Pad(DESIZE), c);
    if ok {
      ClearKeeps(c, d, found.value.1);
    }
    r := 0;
  }

  // ---------------------------------------------------------------- any sequence of calls

  datatype Call = Link(name: Name, inum: Uint) | Unlink(name: Name)

  function Bound(m: map<Name, nat>, o: Call): map<Name, nat>
  {
    match o
    case Link(name, inum) => if Trunc(name) in m || inum % 65536 == 0 then m else m[Trunc(name) := inum % 65536]
    case Unlink(name) => m - {Trunc(name)}
  }

  function BoundAll(m: map<Name, nat>, os: seq<Call>): map<Name, nat>
  {
    if os == [] then m else Bound(BoundAll(m, os[..|os| - 1]), os[|os| - 1])
  }

  lemma BoundSnoc(m: map<Name, nat>, os: seq<Call>, k: nat)
    requires k < |os|
    ensures BoundAll(m, os[..k + 1]) == Bound(BoundAll(m, os[..k]), os[k])
  {
    assert os[..k + 1][..k] == os[..k];
  }

  method Perform(fs: FileSystem, dp: Inode, o: Call, ghost c: seq<Byte>) returns (ok: bool, ghost d: seq<Byte>)
    requires HoldsDir(fs, dp, c) && IsString(o.name)
    modifies fs`blk, fs`logged, fs`writes, fs`st, dp
    ensures ok ==> HoldsDir(fs, dp, d) && DirMap(d) == Bound(DirMap(c), o)
    ensures !ok ==> o.Link? && Trunc(o.name) !in DirMap(c) && (forall i :: 0 <= i < Slots(c) ==> Live(c, i))
                    && !Fits(old(fs.st), dp.inum, c, Slots(c))
  {
    hide Good, OthersSynced, DirOk, DirMap, OnlyChanges, Reading, WritesEntry;
    var r;
    ghost var k;
    match o
    case Link(name, inum) => r, ok, d, k := Dirlink(fs, dp, name, inum, c);
    case Unlink(name) => r, ok, d := Unbind(fs, dp, name, c);
  }

  /**
   After any sequence of links and unlinks the live entries have distinct names and stand for the map
   that those calls describe. `false` is a panic on the way.
   */
  method PerformAll(fs: FileSystem, dp: Inode, os: seq<Call>, ghost c: seq<Byte>) returns (ok: bool, ghost d: seq<Byte>)
    requires HoldsDir(fs, dp, c) && forall i :: 0 <= i < |os| ==> IsString(os[i].name)
    modifies fs`blk, fs`logged, fs`writes, fs`st, dp
    ensures ok ==> HoldsDir(fs, dp, d) && DirMap(d) == BoundAll(DirMap(c), os)
  {
    hide Good, OthersSynced, DirOk, DirMap, Reading, Bound;
    ok, d := true, c;
    var k := 0;
    while k < |os|
      invariant 0 <= k <= |os| && HoldsDir(fs, dp, d) && DirMap(d) == BoundAll(DirMap(c), os[..k])
    {
      BoundSnoc(DirMap(c), os, k);
      ok, d := Perform(fs, dp, os[k], d);
      if !ok {
        return;
      }
      k := k + 1;
    }
    assert os[..k] == os;
    ok := true;
  }
}
