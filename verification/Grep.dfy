/**
 The regular expression matcher of grep.c. A C string is the sequence of its characters before the
 terminating NUL, so `*text == '\0'` is `t == []`.
 */
module Grep {
  // ---------------------------------------------------------------- what a pattern means

  /** `One`: a character, any if it is '.'. `Many`: zero or more of them. */
  datatype Atom = One(c: char) | Many(c: char)

  predicate Fits(c: char, x: char) { c == '.' || c == x }

  /** The atoms of a pattern behind a leading '^'; a '$' in last place is not one of them. */
  function Atoms(re: string): seq<Atom>
  {
    if re == "" then []
    else if |re| >= 2 && re[1] == '*' then [Many(re[0])] + Atoms(re[2..])
    else if re == "$" then []
    else [One(re[0])] + Atoms(re[1..])
  }

  /** Whether the pattern ends in an anchor; a '$' before a '*' is an ordinary character. */
  predicate Anchored(re: string)
  {
    if re == "" then false
    else if |re| >= 2 && re[1] == '*' then Anchored(re[2..])
    else re == "$" || Anchored(re[1..])
  }

  predicate AtomTakes(a: Atom, w: string)
  {
    (a.One? ==> |w| == 1) && forall i :: 0 <= i < |w| ==> Fits(a.c, w[i])
  }

  /** `w` can be cut into pieces, one for each atom. */
  ghost predicate InLanguage(as_: seq<Atom>, w: string)
  {
    if as_ == [] then w == ""
    else exists k :: 0 <= k <= |w| && AtomTakes(as_[0], w[..k]) && InLanguage(as_[1..], w[k..])
  }

  /** Some prefix of `t`, all of it if the pattern is anchored, is in the language of the pattern. */
  ghost predicate Here(re: string, t: string)
  {
    exists j :: 0 <= j <= |t| && PrefixTaken(re, t, j)
  }

  ghost predicate PrefixTaken(re: string, t: string, j: nat)
    requires j <= |t|
  {
    InLanguage(Atoms(re), t[..j]) && (Anchored(re) ==> j == |t|)
  }

  /** `text[i..j]` is in the language; '^' ties it to the start of the text, '$' to the end. */
  ghost predicate Found(start: bool, body: string, text: string, i: nat, j: nat)
  {
    && i <= j <= |text| && InLanguage(Atoms(body), text[i..j])
    && (start ==> i == 0) && (Anchored(body) ==> j == |text|)
  }

  predicate AtStart(re: string) { re != "" && re[0] == '^' }

  function Body(re: string): string { if AtStart(re) then re[1..] else re }

  /** The text has a substring that the pattern means. */
  ghost predicate Means(re: string, text: string)
  {
    exists i, j :: Found(AtStart(re), Body(re), text, i, j)
  }

  lemma FoundHere(start: bool, body: string, text: string, i: nat, j: nat)
    requires Found(start, body, text, i, j)
    ensures Here(body, text[i..])
  {
    assert text[i..j] == text[i..][..j - i];
    assert PrefixTaken(body, text[i..], j - i);
  }

  lemma HereFound(start: bool, body: string, text: string, i: nat)
    requires i <= |text| && Here(body, text[i..]) && (start ==> i == 0)
    ensures exists j :: Found(start, body, text, i, j)
  {
    var k :| 0 <= k <= |text[i..]| && PrefixTaken(body, text[i..], k);
    assert text[i..i + k] == text[i..][..k];
    assert Found(start, body, text, i, i + k);
  }

  // ---------------------------------------------------------------- one step of the matcher

  lemma HereNothing(t: string)
    ensures Here("", t)
  {
    assert PrefixTaken("", t, 0);
  }

  lemma HereEnd(t: string)
    ensures Here("$", t) <==> t == ""
  {
    assert PrefixTaken("$", "", 0);
  }

  lemma HereOneTakes(re: string, t: string, j: nat)
    requires re != "" && !(|re| >= 2 && re[1] == '*') && re != "$" && j <= |t|
    ensures PrefixTaken(re, t, j) <==> 0 < j && Fits(re[0], t[0]) && PrefixTaken(re[1..], t[1..], j - 1)
  {
    var w := t[..j];
    assert Atoms(re)[0] == One(re[0]) && Atoms(re)[1..] == Atoms(re[1..]);
    if j > 0 {
      assert w[1..] == t[1..][..j - 1];
      assert AtomTakes(One(re[0]), w[..1]) <==> Fits(re[0], t[0]);
    }
    assert InLanguage(Atoms(re), w) <==> 0 < j && AtomTakes(One(re[0]), w[..1]) && InLanguage(Atoms(re[1..]), w[1..]);
  }

  lemma HereOne(re: string, t: string)
    requires re != "" && !(|re| >= 2 && re[1] == '*') && re != "$"
    ensures Here(re, t) <==> t != "" && Fits(re[0], t[0]) && Here(re[1..], t[1..])
  {
    if Here(re, t) {
      var j :| 0 <= j <= |t| && PrefixTaken(re, t, j);
      HereOneTakes(re, t, j);
    }
    if t != "" && Fits(re[0], t[0]) && Here(re[1..], t[1..]) {
      var j :| 0 <= j <= |t[1..]| && PrefixTaken(re[1..], t[1..], j);
      HereOneTakes(re, t, j + 1);
    }
  }

  /** `c*` takes the first `k` characters and the rest of the pattern goes on from there. */
  ghost predicate StarThen(c: char, rest: string, t: string, k: nat)
    requires k <= |t|
  {
    AtomTakes(Many(c), t[..k]) && Here(rest, t[k..])
  }

  lemma HereManyTakes(re: string, t: string, j: nat)
    requires |re| >= 2 && re[1] == '*' && j <= |t| && PrefixTaken(re, t, j)
    ensures exists k :: 0 <= k <= |t| && StarThen(re[0], re[2..], t, k)
  {
    var w := t[..j];
    assert Atoms(re)[0] == Many(re[0]) && Atoms(re)[1..] == Atoms(re[2..]);
    var k :| 0 <= k <= |w| && AtomTakes(Many(re[0]), w[..k]) && InLanguage(Atoms(re[2..]), w[k..]);
    assert w[..k] == t[..k] && w[k..] == t[k..][..j - k];
    assert PrefixTaken(re[2..], t[k..], j - k);
    assert StarThen(re[0], re[2..], t, k);
  }

  lemma ManyTakesHere(re: string, t: string, k: nat)
    requires |re| >= 2 && re[1] == '*' && k <= |t| && StarThen(re[0], re[2..], t, k)
    ensures Here(re, t)
  {
    var j :| 0 <= j <= |t[k..]| && PrefixTaken(re[2..], t[k..], j);
    var w := t[..k + j];
    assert Atoms(re)[0] == Many(re[0]) && Atoms(re)[1..] == Atoms(re[2..]);
    assert w[..k] == t[..k] && w[k..] == t[k..][..j];
    assert PrefixTaken(re, t, k + j);
  }

  lemma HereMany(re: string, t: string)
    requires |re| >= 2 && re[1] == '*'
    ensures Here(re, t) <==> exists k :: 0 <= k <= |t| && StarThen(re[0], re[2..], t, k)
  {
    if Here(re, t) {
      var j :| 0 <= j <= |t| && PrefixTaken(re, t, j);
      HereManyTakes(re, t, j);
    }
    if k :| 0 <= k <= |t| && StarThen(re[0], re[2..], t, k) {
      ManyTakesHere(re, t, k);
    }
  }

  // ---------------------------------------------------------------- the code

  /** matchhere */
  method MatchHere(re: string, t: string) returns (r: bool)
    ensures r <==> Here(re, t)
    decreases |re|, 0
  {
    if re == "" {
      HereNothing(t);
      return true;
    }
    if |re| >= 2 && re[1] == '*' {
      HereMany(re, t);
      r := MatchStar(re[0], re[2..], t);
      return;
    }
    if re[0] == '$' && |re| == 1 {
      assert re == "$";
      HereEnd(t);
      return t == "";
    }
    HereOne(re, t);
    if t != "" && (re[0] == '.' || re[0] == t[0]) {
      r := MatchHere(re[1..], t[1..]);
      return;
    }
    return false;
  }

  /** matchstar: try the rest of the pattern after 0, 1, 2, ... characters that fit. */
  method MatchStar(c: char, re: string, t: string) returns (r: bool)
    ensures r <==> exists k :: 0 <= k <= |t| && StarThen(c, re, t, k)
    decreases |re|, 1
  {
    var k := 0;
    while true
      invariant 0 <= k <= |t| && AtomTakes(Many(c), t[..k])
      invariant forall i :: 0 <= i < k ==> !Here(re, t[i..])
      decreases |t| - k
    {
      r := MatchHere(re, t[k..]);
      if r {
        assert StarThen(c, re, t, k);
        return;
      }
      if !(k < |t| && (t[k] == c || c == '.')) {
        break;
      }
      assert t[..k + 1] == t[..k] + [t[k]];
      k := k + 1;
    }
    forall j | 0 <= j <= |t| ensures !StarThen(c, re, t, j) {
      if j > k {
        assert t[..j][k] == t[k];
      }
    }
    r := false;
  }

  /** match: 1 exactly when the text has a substring that the pattern means. */
  method Match(re: string, text: string) returns (r: bool)
    ensures r <==> Means(re, text)
  {
    if re != "" && re[0] == '^' {
      assert text[0..] == text;
      r := MatchHere(re[1..], text);
      if r {
        HereFound(AtStart(re), Body(re), text, 0);
      } else if i, j :| Found(AtStart(re), Body(re), text, i, j) {
        FoundHere(AtStart(re), Body(re), text, i, j);
      }
      return;
    }
    var k := 0;
    while true
      invariant 0 <= k <= |text|
      invariant forall i :: 0 <= i < k ==> !Here(re, text[i..])
      decreases |text| - k
    {
      r := MatchHere(re, text[k..]);
      if r {
        HereFound(AtStart(re), Body(re), text, k);
        return;
      }
      if k == |text| {
        break;
      }
      k := k + 1;
    }
    if i, j :| Found(AtStart(re), Body(re), text, i, j) {
      FoundHere(AtStart(re), Body(re), text, i, j);
    }
    r := false;
  }
}
