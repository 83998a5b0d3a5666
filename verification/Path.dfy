/** skipelem: a path is taken apart into its '/'-separated components. A C string ends before its NUL. */
module Path {
  import opened Options
  import opened Directory

  // ---------------------------------------------------------------- what the components are

  /** The fields between slashes, empty ones included. */
  function Fields(path: string): (r: seq<string>)
    ensures |r| >= 1
  {
    if path == "" then [""]
    else if path[0] == '/' then [""] + Fields(path[1..])
    else
      var r := Fields(path[1..]);
      [[path[0]] + r[0]] + r[1..]
  }

  function NonEmpty(fs: seq<string>): seq<string>
  {
    if fs == [] then [] else if fs[0] == "" then NonEmpty(fs[1..]) else [fs[0]] + NonEmpty(fs[1..])
  }

  function Components(path: string): seq<string> { NonEmpty(Fields(path)) }

  function TruncAll(ss: seq<string>): seq<string> { if ss == [] then [] else [Trunc(ss[0])] + TruncAll(ss[1..]) }

  lemma SlashSkips(path: string)
    requires path != "" && path[0] == '/'
    ensures Components(path) == Components(path[1..])
  {
    assert Fields(path)[1..] == Fields(path[1..]);
  }

  /** A path that starts with `e`, ended by a slash or by the end of the string. */
  lemma {:induction false} ElementFirst(e: string, rest: string)
    requires e != "" && '/' !in e && (rest == "" || rest[0] == '/')
    ensures Components(e + rest) == [e] + Components(rest)
  {
    var p := e + rest;
    FirstField(e, rest);
    assert Fields(p)[1..] == if rest == "" then [] else Fields(rest)[1..];
    if rest == "" {
      assert NonEmpty(Fields(p)[1..]) == [];
    } else {
      assert Fields(rest)[0] == "";
    }
  }

  lemma {:induction false} FirstField(e: string, rest: string)
    requires '/' !in e && (rest == "" || rest[0] == '/')
    ensures Fields(e + rest)[0] == e && Fields(e + rest)[1..] == Fields(rest)[1..]
  {
    if e == "" {
      assert e + rest == rest;
    } else {
      FirstField(e[1..], rest);
      assert (e + rest)[0] == e[0] && (e + rest)[1..] == e[1..] + rest;
      assert '/' !in e[1..];
      assert e[0] != '/';
    }
  }

  lemma NoLeadingSlash(path: string)
    requires path != "" ==> path[0] != '/'
    ensures path == "" <==> Components(path) == []
  {
  }

  // ---------------------------------------------------------------- the code

  /** `while(*path == '/') path++` */
  method SkipSlashes(path: string, at: nat) returns (k: nat)
    requires at <= |path|
    ensures at <= k <= |path| && (k < |path| ==> path[k] != '/') && Components(path[k..]) == Components(path[at..])
  {
    k := at;
    while k < |path| && path[k] == '/'
      invariant at <= k <= |path| && Components(path[k..]) == Components(path[at..])
    {
      SlashSkips(path[k..]);
      assert path[k..][1..] == path[k + 1..];
      k := k + 1;
    }
  }

  /**
   skipelem: `None` exactly when no component is left; else the first one, truncated, and the rest of the
   path, which has no leading slash and is empty exactly when that component was the last.
   */
  method SkipElem(path: string) returns (r: Option<(string, string)>)
    ensures r.None? <==> Components(path) == []
    ensures r.Some? ==> Components(path) != [] && r.value.0 == Trunc(Components(path)[0])
    ensures r.Some? ==> Components(r.value.1) == Components(path)[1..] && |r.value.1| < |path|
    ensures r.Some? ==> (r.value.1 != "" ==> r.value.1[0] != '/') && (r.value.1 == "" <==> |Components(path)| == 1)
  {
    assert path[0..] == path;
    var s := SkipSlashes(path, 0);
    if s == |path| {
      assert path[s..] == "";
      return None;
    }
    var p := s;
    while p < |path| && path[p] != '/'
      invariant s <= p <= |path| && '/' !in path[s..p] && (p == s ==> p < |path| && path[p] != '/')
    {
      assert path[s..p + 1] == path[s..p] + [path[p]];
      p := p + 1;
    }
    var e := path[s..p];
    assert path[s..] == e + path[p..];
    ElementFirst(e, path[p..]);
    var len := p - s;
    var name := if len >= DIRSIZ then path[s..s + DIRSIZ] else path[s..p];
    assert name == Trunc(e);
    var k := SkipSlashes(path, p);
    NoLeadingSlash(path[k..]);
    return Some((name, path[k..]));
  }

  /** Repeated skipelem, as in namex, yields exactly the components, each truncated. */
  method AllElements(path: string) returns (names: seq<string>)
    ensures names == TruncAll(Components(path))
  {
    names := [];
    var p, going := path, true;
    while going
      invariant names + TruncAll(Components(p)) == TruncAll(Components(path)) && (!going ==> Components(p) == [])
      decreases going, |p|
    {
      var r := SkipElem(p);
      if r.None? {
        going := false;
      } else {
        names, p := names + [r.value.0], r.value.1;
      }
    }
  }
}
