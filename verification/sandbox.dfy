/** The sandbox (core/sandbox): the lexical path guard and the in-memory entries behind it. */
module Sandbox {
  import opened EventLog
  import opened Worm

  // ---- Path functions ----------------------------------------------------------------

  function Slashes(p: string): (s: string) {
    seq(|p|, i requires 0 <= i < |p| => if p[i] == '\\' then '/' else p[i])
  }

  function Strip(s: string): string {
    if |s| > 1 && s[|s| - 1] == '/' then Strip(s[..|s| - 1]) else s
  }

  function Normalised(p: string): string {
    Strip(Slashes(p))
  }

  method Normalise(p: string) returns (s: string)
    ensures s == Normalised(p)
  {
    s := Slashes(p);
    while |s| > 1 && s[|s| - 1] == '/'
      invariant Strip(s) == Normalised(p)
      decreases |s|
    {
      s := s[..|s| - 1];
    }
  }

  predicate StartsWith(s: string, prefix: string) {
    |s| >= |prefix| && s[..|prefix|] == prefix
  }

  predicate EndsWith(s: string, suffix: string) {
    |s| >= |suffix| && s[|s| - |suffix|..] == suffix
  }

  predicate FoundAt(s: string, sub: string, i: int) {
    0 <= i && i + |sub| <= |s| && s[i..i + |sub|] == sub
  }

  predicate Contains(s: string, sub: string) {
    exists i | 0 <= i <= |s| :: FoundAt(s, sub, i)
  }

  predicate HasDotdot(s: string) {
    s == ".." || StartsWith(s, "../") || EndsWith(s, "/..") || Contains(s, "/../")
  }

  predicate IsInside(absPath: string, rootPath: string) {
    var path := Normalised(absPath);
    var root := Normalised(rootPath);
    if HasDotdot(path) then false
    else
      || path == root
      || (|path| > |root| && path[..|root|] == root && path[|root|] == '/')
  }

  /** The key of a path under a root that is already normalised; empty if outside.  A path inside
      and other than the root is longer than the root: the last disjunct is never decisive. */
  function ToRel(root: string, absPath: string): string {
    var path := Normalised(absPath);
    if HasDotdot(path) || !IsInside(path, root) || (path != root && |path| <= |root|) then ""
    else if path == root then "."
    else path[|root| + 1..]
  }

  // ---- Components --------------------------------------------------------------------

  function FirstSlash(s: string): (k: nat)
    ensures k <= |s|
    ensures forall i :: 0 <= i < k ==> s[i] != '/'
    ensures k < |s| ==> s[k] == '/'
  {
    if s == "" || s[0] == '/' then 0 else FirstSlash(s[1..]) + 1
  }

  /** The path split at its slashes. */
  function Split(s: string): (cs: seq<string>)
    ensures |cs| > 0
  {
    var k := FirstSlash(s);
    if k == |s| then [s] else [s[..k]] + Split(s[k + 1..])
  }

  function Join(cs: seq<string>): string
    requires |cs| > 0
  {
    if |cs| == 1 then cs[0] else cs[0] + "/" + Join(cs[1..])
  }

  lemma JoinCons(c: string, cs: seq<string>)
    requires |cs| > 0
    ensures Join([c] + cs) == c + "/" + Join(cs)
  {
    assert ([c] + cs)[1..] == cs;
  }

  lemma {:induction false} JoinSplit(s: string)
    ensures Join(Split(s)) == s
  {
    var k := FirstSlash(s);
    if k < |s| {
      JoinSplit(s[k + 1..]);
      JoinCons(s[..k], Split(s[k + 1..]));
      assert s == s[..k] + "/" + s[k + 1..];
    }
  }

  lemma {:induction false} JoinConcat(a: seq<string>, b: seq<string>)
    requires |a| > 0 && |b| > 0
    ensures Join(a + b) == Join(a) + "/" + Join(b)
  {
    if |a| == 1 {
      assert (a + b)[1..] == b;
    } else {
      JoinConcat(a[1..], b);
      assert (a + b)[1..] == a[1..] + b;
      assert a[0] + "/" + (Join(a[1..]) + "/" + Join(b)) == (a[0] + "/" + Join(a[1..])) + "/" + Join(b);
    }
  }

  lemma FirstSlashIs(s: string, k: nat)
    requires k <= |s| && (forall i :: 0 <= i < k ==> s[i] != '/') && (k < |s| ==> s[k] == '/')
    ensures FirstSlash(s) == k
  {
    if s != "" && k > 0 {
      FirstSlashIs(s[1..], k - 1);
    }
  }

  lemma {:induction false} SplitConcat(a: string, b: string)
    ensures Split(a + "/" + b) == Split(a) + Split(b)
  {
    var k := FirstSlash(a);
    var s := a + "/" + b;
    if k == |a| {
      assert s[..k] == a;
      FirstSlashIs(s, k);
      assert s[k + 1..] == b;
    } else {
      assert s[..k] == a[..k];
      FirstSlashIs(s, k);
      assert s[k + 1..] == a[k + 1..] + "/" + b;
      SplitConcat(a[k + 1..], b);
    }
  }

  predicate CutAtSlash(a: string, b: string) {
    |b| > |a| && b[..|a|] == a && b[|a|] == '/'
  }

  lemma CutForm(a: string, rest: string)
    ensures CutAtSlash(a, a + "/" + rest)
  {
  }

  lemma ComponentsThenPrefix(a: string, b: string)
    requires Split(a) <= Split(b)
    ensures b == a || CutAtSlash(a, b)
  {
    var rest := Split(b)[|Split(a)|..];
    assert Split(b) == Split(a) + rest;
    JoinSplit(a);
    JoinSplit(b);
    if rest == [] {
      assert Split(b) == Split(a);
    } else {
      JoinConcat(Split(a), rest);
      CutForm(a, Join(rest));
    }
  }

  lemma PrefixThenComponents(a: string, b: string)
    requires b == a || CutAtSlash(a, b)
    ensures Split(a) <= Split(b)
  {
    if b != a {
      assert b == a + "/" + b[|a| + 1..];
      SplitConcat(a, b[|a| + 1..]);
    }
  }

  /** `a` is `b` cut at a slash exactly when its components begin those of `b`. */
  lemma PrefixIffComponents(a: string, b: string)
    ensures Split(a) <= Split(b) <==> b == a || CutAtSlash(a, b)
  {
    if Split(a) <= Split(b) {
      ComponentsThenPrefix(a, b);
    }
    if b == a || CutAtSlash(a, b) {
      PrefixThenComponents(a, b);
    }
  }

  // ---- has_dotdot is exact -----------------------------------------------------------

  predicate DotdotAt(s: string, i: int) {
    && 0 <= i <= |s| - 2
    && s[i] == '.' && s[i + 1] == '.'
    && (i == 0 || s[i - 1] == '/')
    && (i + 2 == |s| || s[i + 2] == '/')
  }

  ghost predicate DotdotSomewhere(s: string) {
    exists i :: DotdotAt(s, i)
  }

  lemma HasDotdotAt(s: string)
    ensures HasDotdot(s) <==> DotdotSomewhere(s)
  {
    if HasDotdot(s) {
      if s == ".." || StartsWith(s, "../") {
        assert StartsWith(s, "../") ==> s[0] == s[..3][0] && s[1] == s[..3][1] && s[2] == s[..3][2];
        assert DotdotAt(s, 0);
      } else if EndsWith(s, "/..") {
        var n := |s| - 3;
        assert s[n] == s[n..][0] && s[n + 1] == s[n..][1] && s[n + 2] == s[n..][2];
        assert DotdotAt(s, n + 1);
      } else {
        var i :| 0 <= i <= |s| && FoundAt(s, "/../", i);
        var m := s[i..i + 4];
        assert s[i] == m[0] && s[i + 1] == m[1] && s[i + 2] == m[2] && s[i + 3] == m[3];
        assert DotdotAt(s, i + 1);
      }
    }
    if i :| DotdotAt(s, i) {
      if i == 0 {
        assert s == ".." || s[..3] == "../";
      } else if i + 2 == |s| {
        assert s[|s| - 3..] == "/..";
      } else {
        assert FoundAt(s, "/../", i - 1);
      }
    }
  }

  lemma {:induction false} ComponentDotdotAt(s: string)
    ensures ".." in Split(s) <==> DotdotSomewhere(s)
  {
    var k := FirstSlash(s);
    if k == |s| {
      NoSlashDotdot(s);
    } else {
      ComponentDotdotAt(s[k + 1..]);
      assert ".." in Split(s) <==> s[..k] == ".." || ".." in Split(s[k + 1..]);
      FirstComponentDotdot(s, k);
      FirstOrLaterDotdot(s, k);
    }
  }

  lemma FirstOrLaterDotdot(s: string, k: nat)
    requires k < |s| && FirstSlash(s) == k
    ensures DotdotSomewhere(s) <==> DotdotAt(s, 0) || DotdotSomewhere(s[k + 1..])
  {
    var rest := s[k + 1..];
    if i :| DotdotAt(rest, i) {
      assert DotdotAt(s, i + k + 1);
    }
    if i :| DotdotAt(s, i) && i != 0 {
      LaterDotdot(s, k, i);
    }
  }

  lemma NoSlashDotdot(s: string)
    requires FirstSlash(s) == |s|
    ensures Split(s) == [s]
    ensures s == ".." <==> DotdotSomewhere(s)
  {
    assert s[..|s|] == s;
    if s == ".." {
      assert DotdotAt(s, 0);
    }
    if i :| DotdotAt(s, i) {
      assert s[i..i + 2] == "..";
    }
  }

  lemma FirstComponentDotdot(s: string, k: nat)
    requires k < |s| && FirstSlash(s) == k
    ensures s[..k] == ".." <==> DotdotAt(s, 0)
  {
    if s[..k] == ".." {
      assert s[0] == s[..k][0] && s[1] == s[..k][1];
    }
    if DotdotAt(s, 0) {
      assert k == 2;
    }
  }

  lemma LaterDotdot(s: string, k: nat, i: int)
    requires k < |s| && FirstSlash(s) == k && DotdotAt(s, i) && i != 0
    ensures DotdotAt(s[k + 1..], i - k - 1)
  {
    assert i - 1 >= k;
  }

  /** has_dotdot holds exactly when ".." is a component of the path. */
  lemma HasDotdotIffComponent(s: string)
    ensures HasDotdot(s) <==> ".." in Split(s)
  {
    HasDotdotAt(s);
    ComponentDotdotAt(s);
  }

  // ---- The guard ---------------------------------------------------------------------

  /** is_inside accepts exactly the paths without a ".." component whose components begin with
      those of the root. */
  lemma InsideIffComponents(absPath: string, rootPath: string)
    ensures IsInside(absPath, rootPath) <==>
              && ".." !in Split(Normalised(absPath))
              && Split(Normalised(rootPath)) <= Split(Normalised(absPath))
  {
    HasDotdotIffComponent(Normalised(absPath));
    PrefixIffComponents(Normalised(rootPath), Normalised(absPath));
  }

  /** Walk the components with a stack: "" and "." stay, ".." goes up, a name goes down. */
  function Resolve(cs: seq<string>): seq<string> {
    if cs == [] then []
    else
      var stack := Resolve(cs[..|cs| - 1]);
      var c := cs[|cs| - 1];
      if c == "" || c == "." then stack
      else if c == ".." then (if stack == [] then [] else stack[..|stack| - 1])
      else stack + [c]
  }

  lemma {:induction false} ResolveExtends(a: seq<string>, b: seq<string>)
    requires a <= b && ".." !in b[|a|..]
    ensures Resolve(a) <= Resolve(b)
  {
    if a != b {
      var b' := b[..|b| - 1];
      assert b'[|a|..] == b[|a|..][..|b'| - |a|];
      ResolveExtends(a, b');
      assert b[|b| - 1] in b[|a|..];
    } else {
      assert a == b;
    }
  }

  /** Whatever the guard accepts stays below the root when it is resolved. */
  lemma LexicalContainment(absPath: string, rootPath: string)
    requires IsInside(absPath, rootPath)
    ensures Resolve(Split(Normalised(rootPath))) <= Resolve(Split(Normalised(absPath)))
  {
    InsideIffComponents(absPath, rootPath);
    ResolveExtends(Split(Normalised(rootPath)), Split(Normalised(absPath)));
  }

  predicate ProperName(c: string) {
    c != "" && c != "." && c != ".."
  }

  /** p is written like r as far as r goes: a name where r has a name, and the same "" or "." where
      r has one. */
  predicate Follows(p: seq<string>, r: seq<string>) {
    && |r| <= |p|
    && forall i :: 0 <= i < |r| ==> if ProperName(r[i]) then ProperName(p[i]) else p[i] == r[i]
  }

  lemma SameLast(a: seq<string>, c: string, b: seq<string>, d: string)
    ensures a + [c] == b + [d] ==> a == b && c == d
  {
    if a + [c] == b + [d] {
      assert a == (a + [c])[..|a|] && b == (b + [d])[..|b|];
      assert (a + [c])[|a|] == (b + [d])[|b|];
    }
  }

  lemma {:induction false} FollowsResolves(r: seq<string>, q: seq<string>)
    requires Follows(q, r) && |q| == |r| && ".." !in q
    ensures |Resolve(q)| == |Resolve(r)|
    ensures Resolve(q) == Resolve(r) ==> q == r
  {
    if r != [] {
      var n := |r| - 1;
      assert ".." !in q[..n];
      FollowsResolves(r[..n], q[..n]);
      assert q[n] in q && q == q[..n] + [q[n]] && r == r[..n] + [r[n]];
      if ProperName(r[n]) {
        SameLast(Resolve(q[..n]), q[n], Resolve(r[..n]), r[n]);
      }
    }
  }

  /** Components that resolve below r, and follow r as far as it goes, begin with r. */
  lemma FollowsBelow(r: seq<string>, p: seq<string>)
    requires Follows(p, r) && ".." !in p && Resolve(r) <= Resolve(p)
    ensures r <= p
  {
    var q := p[..|r|];
    assert forall c :: c in q || c in p[|r|..] ==> c in p;
    FollowsResolves(r, q);
    ResolveExtends(q, p);
  }

  /** is_inside is documented to hold if and only if the path is inside the root.  For every root it
      holds exactly when the path resolves to the root or below it, has no ".." component, and is
      written like the root as far as the root goes: without a "." or an empty component that the
      root does not have there. */
  lemma GuardExact(absPath: string, rootPath: string)
    ensures var r, p := Split(Normalised(rootPath)), Split(Normalised(absPath));
            IsInside(absPath, rootPath) <==> Resolve(r) <= Resolve(p) && ".." !in p && Follows(p, r)
  {
    var r, p := Split(Normalised(rootPath)), Split(Normalised(absPath));
    InsideIffComponents(absPath, rootPath);
    if IsInside(absPath, rootPath) {
      LexicalContainment(absPath, rootPath);
      PrefixFollows(r, p);
    } else if Resolve(r) <= Resolve(p) && ".." !in p && Follows(p, r) {
      FollowsBelow(r, p);
    }
  }

  lemma PrefixFollows(r: seq<string>, p: seq<string>)
    requires r <= p
    ensures Follows(p, r)
  {
    assert forall i :: 0 <= i < |r| ==> p[i] == r[i];
  }

  /** Every path is below the root "/", but of the paths without ".." it accepts just "/" itself and
      those that begin with two slashes. */
  lemma RootSlashAccepts(absPath: string)
    ensures var path := Normalised(absPath);
            && Resolve(Split(Normalised("/"))) <= Resolve(Split(path))
            && (IsInside(absPath, "/") <==>
                  ".." !in Split(path) && (path == "/" || StartsWith(path, "//")))
  {
    assert Slashes("/") == "/" && Strip("/") == "/";
    assert Split("") == [""] && Split("/") == ["", ""];
    assert ["", ""][..1] == [""] && [""][..0] == [];
    assert Resolve([""]) == [];
    HasDotdotIffComponent(Normalised(absPath));
  }

  // ---- Keys --------------------------------------------------------------------------

  lemma {:induction false} StripNormal(s: string)
    ensures |Strip(s)| > 1 ==> Strip(s)[|Strip(s)| - 1] != '/'
    ensures Strip(s) <= s
    ensures Strip(Strip(s)) == Strip(s)
  {
    if |s| > 1 && s[|s| - 1] == '/' {
      StripNormal(s[..|s| - 1]);
    }
  }

  lemma NormalisedTwice(p: string)
    ensures Normalised(Normalised(p)) == Normalised(p)
  {
    var s := Slashes(p);
    StripNormal(s);
    assert '\\' !in s;
    assert Slashes(Strip(s)) == Strip(s);
  }

  /** A normalised root and a path it accepts: the key leads back to the path, and it is empty
      only for the path "/" under the empty root. */
  lemma KeyRoundTrip(root: string, absPath: string)
    requires Normalised(root) == root && IsInside(absPath, root)
    ensures if Normalised(absPath) == root then ToRel(root, absPath) == "."
            else Normalised(absPath) == root + "/" + ToRel(root, absPath)
    ensures ToRel(root, absPath) == "" <==> root == "" && Normalised(absPath) == "/"
  {
    NormalisedTwice(absPath);
    var path := Normalised(absPath);
    StripNormal(Slashes(absPath));
    if path != root {
      assert path == root + "/" + path[|root| + 1..];
    }
  }

  /** Two accepted paths have the same key exactly when they normalise to the same path, or are
      the root and the root followed by "/.". */
  lemma KeyInjective(root: string, p: string, q: string)
    requires Normalised(root) == root && IsInside(p, root) && IsInside(q, root)
    ensures ToRel(root, p) == ToRel(root, q) <==>
              || Normalised(p) == Normalised(q)
              || (Normalised(p) == root && Normalised(q) == root + "/.")
              || (Normalised(q) == root && Normalised(p) == root + "/.")
  {
    KeyRoundTrip(root, p);
    KeyRoundTrip(root, q);
    NormalisedTwice(p);
    NormalisedTwice(q);
    RootDot(root);
    var np, nq := Normalised(p), Normalised(q);
    if np == root + "/." {
      assert np[|root| + 1..] == ".";
    }
    if nq == root + "/." {
      assert nq[|root| + 1..] == ".";
    }
  }

  lemma RootDot(root: string)
    ensures root + "/" + "." == root + "/."
    ensures root + "/." != root
  {
    assert |root + "/."| != |root|;
  }

  // ---- Either separator --------------------------------------------------------------

  predicate Separator(c: char) {
    c == '/' || c == '\\'
  }

  /** What normalise leaves: the characters of the path with each separator written as a slash, up to
      the separators at its end, of which only one is kept and only if there is nothing else. */
  lemma NormalForm(p: string)
    ensures var s := Normalised(p);
            && |s| <= |p| && (p != "" ==> s != "")
            && (forall i :: 0 <= i < |s| ==> s[i] == if Separator(p[i]) then '/' else p[i])
            && (forall i :: |s| <= i < |p| ==> Separator(p[i]))
            && (|s| > 1 ==> s[|s| - 1] != '/')
            && '\\' !in s
  {
    StripNormal(Slashes(p));
    StripsSlashes(Slashes(p));
    forall i | |Normalised(p)| <= i < |p| ensures Separator(p[i]) {
      assert Slashes(p)[i] == '/';
    }
  }

  lemma {:induction false} StripsSlashes(s: string)
    ensures (s != "" ==> Strip(s) != "") && forall i :: |Strip(s)| <= i < |s| ==> s[i] == '/'
  {
    if |s| > 1 && s[|s| - 1] == '/' {
      StripsSlashes(s[..|s| - 1]);
    }
  }

  /** The same path, written with either separator. */
  predicate SameUpToSeparators(p: string, q: string) {
    |p| == |q| && forall i :: 0 <= i < |p| ==> p[i] == q[i] || (Separator(p[i]) && Separator(q[i]))
  }

  /** The guard, the key and the outcome of a write do not depend on which separator is used, in the
      path or in the root. */
  lemma EitherSeparator(absPath: string, absPath': string, rootPath: string, rootPath': string,
                        entries: Entries, wormLocked: bool)
    requires SameUpToSeparators(absPath, absPath') && SameUpToSeparators(rootPath, rootPath')
    ensures IsInside(absPath, rootPath) == IsInside(absPath', rootPath')
    ensures var root, root' := Normalised(rootPath), Normalised(rootPath');
            && ToRel(root, absPath) == ToRel(root', absPath')
            && WriteOutcome(entries, root, absPath, wormLocked) == WriteOutcome(entries, root', absPath', wormLocked)
  {
    assert Slashes(absPath) == Slashes(absPath') && Slashes(rootPath) == Slashes(rootPath');
  }

  function FirstSeparator(p: string): (k: nat)
    ensures k <= |p|
    ensures forall i :: 0 <= i < k ==> !Separator(p[i])
    ensures k < |p| ==> Separator(p[k])
  {
    if p == "" || Separator(p[0]) then 0 else FirstSeparator(p[1..]) + 1
  }

  /** The components of a path as it is given, cut at either separator. */
  function RawSplit(p: string): (cs: seq<string>)
    ensures |cs| > 0
  {
    var k := FirstSeparator(p);
    if k == |p| then [p] else [p[..k]] + RawSplit(p[k + 1..])
  }

  lemma {:induction false} RawSplitIsSplit(p: string)
    ensures RawSplit(p) == Split(Slashes(p))
  {
    var k := FirstSeparator(p);
    SlashesCut(p, k);
    if k < |p| {
      RawSplitIsSplit(p[k + 1..]);
    }
  }

  lemma SlashesCut(p: string, k: nat)
    requires FirstSeparator(p) == k
    ensures FirstSlash(Slashes(p)) == k && Slashes(p)[..k] == p[..k]
    ensures k < |p| ==> Slashes(p)[k + 1..] == Slashes(p[k + 1..])
    ensures k == |p| ==> Slashes(p) == p
  {
    FirstSlashIs(Slashes(p), k);
    AgreeBefore(Slashes(p), p, k);
    if k < |p| {
      SlashesOfRest(p, k + 1);
    } else {
      AgreeBefore(Slashes(p), p, |p|);
    }
  }

  lemma AgreeBefore(s: string, p: string, k: nat)
    requires k <= |s| == |p| && forall i :: 0 <= i < k ==> s[i] == p[i]
    ensures s[..k] == p[..k]
    ensures k == |p| ==> s == p
  {
  }

  lemma SlashesOfRest(p: string, n: nat)
    requires n <= |p|
    ensures Slashes(p)[n..] == Slashes(p[n..])
  {
  }

  lemma TrailingEmpty(cs: seq<string>)
    ensures Resolve(cs + [""]) == Resolve(cs)
    ensures ".." in cs + [""] <==> ".." in cs
  {
    assert (cs + [""])[..|cs|] == cs;
  }

  lemma {:induction false} StripKeepsComponents(s: string)
    ensures Resolve(Split(Strip(s))) == Resolve(Split(s))
    ensures ".." in Split(Strip(s)) <==> ".." in Split(s)
  {
    if |s| > 1 && s[|s| - 1] == '/' {
      var t := s[..|s| - 1];
      StripKeepsComponents(t);
      SplitConcat(t, "");
      assert s == t + "/" + "" && Split("") == [""];
      TrailingEmpty(Split(t));
    }
  }

  lemma RawComponents(p: string)
    ensures Resolve(Split(Normalised(p))) == Resolve(RawSplit(p))
    ensures ".." in Split(Normalised(p)) <==> ".." in RawSplit(p)
  {
    RawSplitIsSplit(p);
    StripKeepsComponents(Slashes(p));
  }

  /** Containment of the path as it is given: whatever the guard accepts has no ".." between any two
      separators of either kind, and resolves to the resolved root or below it. */
  lemma RawContainment(absPath: string, rootPath: string)
    requires IsInside(absPath, rootPath)
    ensures ".." !in RawSplit(absPath)
    ensures Resolve(RawSplit(rootPath)) <= Resolve(RawSplit(absPath))
  {
    InsideIffComponents(absPath, rootPath);
    LexicalContainment(absPath, rootPath);
    RawComponents(absPath);
    RawComponents(rootPath);
  }

  /** And it is exact in these terms: it rejects no such path, in whatever separators, that is written
      like the root as far as the root goes. */
  lemma RawGuardExact(absPath: string, rootPath: string)
    ensures IsInside(absPath, rootPath) <==>
              && Resolve(RawSplit(rootPath)) <= Resolve(RawSplit(absPath))
              && ".." !in RawSplit(absPath)
              && Follows(Split(Normalised(absPath)), Split(Normalised(rootPath)))
  {
    GuardExact(absPath, rootPath);
    RawComponents(absPath);
    RawComponents(rootPath);
  }

  // ---- Entries -----------------------------------------------------------------------

  datatype SandboxEntry =
    SandboxEntry(content: string, version: nat, locked: bool, sizeBytes: int, lastModified: int)

  type Entries = map<string, SandboxEntry>

  datatype SandboxResult = Ok | Outside | NoRelPath | WormActive | EntryLocked | NotFound

  function WriteOutcome(entries: Entries, root: string, absPath: string, wormLocked: bool): SandboxResult {
    var rel := ToRel(root, absPath);
    if !IsInside(absPath, root) then Outside
    else if rel == "" then NoRelPath
    else if wormLocked then WormActive
    else if rel in entries && entries[rel].locked then EntryLocked
    else Ok
  }

  function Written(entries: Entries, rel: string, content: string, nowMs: int): Entries {
    var version := if rel in entries then entries[rel].version + 1 else 1;
    entries[rel := SandboxEntry(content, version, false, |content|, nowMs)]
  }

  function SetLock(entries: Entries, rel: string, locked: bool): Entries {
    if rel in entries then entries[rel := entries[rel].(locked := locked)] else entries
  }

  datatype File = File(rel: string, content: string, sizeBytes: int)

  function Populated(entries: Entries, files: seq<File>, nowMs: int): Entries {
    if files == [] then entries
    else
      var before := Populated(entries, files[..|files| - 1], nowMs);
      var f := files[|files| - 1];
      if f.rel in before then before
      else before[f.rel := SandboxEntry(f.content, 1, false, f.sizeBytes, nowMs)]
  }

  datatype Step =
    | OnWrite(absPath: string, content: string, wormLocked: bool, nowMs: int)
    | OnLockEntry(absPath: string)
    | OnUnlockEntry(absPath: string)
    | OnLockAll
    | OnPopulate(files: seq<File>, nowMs: int)

  function Apply(root: string, entries: Entries, s: Step): Entries {
    match s
    case OnWrite(absPath, content, wormLocked, nowMs) =>
      if WriteOutcome(entries, root, absPath, wormLocked) == Ok then
        Written(entries, ToRel(root, absPath), content, nowMs)
      else entries
    case OnLockEntry(absPath) =>
      if IsInside(absPath, root) then SetLock(entries, ToRel(root, absPath), true) else entries
    case OnUnlockEntry(absPath) =>
      if IsInside(absPath, root) then SetLock(entries, ToRel(root, absPath), false) else entries
    case OnLockAll => map rel | rel in entries :: entries[rel].(locked := true)
    case OnPopulate(files, nowMs) => Populated(entries, files, nowMs)
  }

  function Run(root: string, entries: Entries, steps: seq<Step>): Entries {
    if steps == [] then entries else Apply(root, Run(root, entries, steps[..|steps| - 1]), steps[|steps| - 1])
  }

  /** The answer to a write by the first check that fails. */
  lemma WriteAnswer(entries: Entries, root: string, absPath: string, wormLocked: bool)
    ensures var r := WriteOutcome(entries, root, absPath, wormLocked);
            var key := ToRel(root, absPath);
            && (r == Outside <==> !IsInside(absPath, root))
            && (r == NoRelPath <==> IsInside(absPath, root) && key == "")
            && (r == WormActive <==> IsInside(absPath, root) && key != "" && wormLocked)
            && (r == EntryLocked <==>
                  IsInside(absPath, root) && key != "" && !wormLocked && key in entries && entries[key].locked)
            && r != NotFound
  {
  }

  /** A write that is refused changes nothing; one that lands changes the entry of its key alone, to
      the content, its length and the time of the write, and one version on. */
  lemma WriteEffect(root: string, entries: Entries, absPath: string, content: string, wormLocked: bool, nowMs: int)
    ensures var after := Apply(root, entries, OnWrite(absPath, content, wormLocked, nowMs));
            var key := ToRel(root, absPath);
            if WriteOutcome(entries, root, absPath, wormLocked) == Ok then
              && after.Keys == entries.Keys + {key} && after - {key} == entries - {key}
              && after[key].content == content && after[key].sizeBytes == |content|
              && after[key].lastModified == nowMs && !after[key].locked
              && after[key].version == if key in entries then entries[key].version + 1 else 1
            else after == entries
  {
  }

  /** Locking and unlocking by path touch the mark of one known entry inside the root, locking
      everything the marks of all. */
  lemma LockEffects(root: string, entries: Entries, absPath: string, rel: string)
    ensures var l := Apply(root, entries, OnLockEntry(absPath));
            && l.Keys == entries.Keys
            && (rel in entries ==> l[rel].(locked := entries[rel].locked) == entries[rel])
            && (rel in entries ==> (l[rel].locked <==>
                                    entries[rel].locked || (IsInside(absPath, root) && ToRel(root, absPath) == rel)))
    ensures var u := Apply(root, entries, OnUnlockEntry(absPath));
            && u.Keys == entries.Keys
            && (rel in entries ==> u[rel].(locked := entries[rel].locked) == entries[rel])
            && (rel in entries ==> (u[rel].locked <==>
                                    entries[rel].locked && !(IsInside(absPath, root) && ToRel(root, absPath) == rel)))
    ensures var all := Apply(root, entries, OnLockAll);
            && all.Keys == entries.Keys
            && (rel in entries ==> all[rel].locked && all[rel].(locked := entries[rel].locked) == entries[rel])
  {
  }

  /** The writes of a run that land on a key. */
  function Landed(root: string, entries: Entries, steps: seq<Step>, rel: string): nat {
    if steps == [] then 0
    else
      var before, s := steps[..|steps| - 1], steps[|steps| - 1];
      Landed(root, entries, before, rel)
      + if && s.OnWrite? && ToRel(root, s.absPath) == rel
           && WriteOutcome(Run(root, entries, before), root, s.absPath, s.wormLocked) == Ok then 1 else 0
  }

  /** Over every run the version of an entry counts the writes that landed on it. */
  lemma {:induction false} VersionCountsWrites(root: string, entries: Entries, steps: seq<Step>, rel: string)
    requires rel in entries
    ensures rel in Run(root, entries, steps)
    ensures Run(root, entries, steps)[rel].version == entries[rel].version + Landed(root, entries, steps, rel)
  {
    if steps != [] {
      VersionCountsWrites(root, entries, steps[..|steps| - 1], rel);
      var s := steps[|steps| - 1];
      if s.OnPopulate? {
        PopulateKeeps(Run(root, entries, steps[..|steps| - 1]), s.files, s.nowMs, rel);
      }
    }
  }

  /** A key that populate creates gets the first file of that name, unlocked and at version 1. */
  lemma {:induction false} PopulateCreates(entries: Entries, files: seq<File>, nowMs: int, i: nat)
    requires i < |files| && files[i].rel !in entries
    requires forall j :: 0 <= j < i ==> files[j].rel != files[i].rel
    ensures files[i].rel in Populated(entries, files, nowMs)
    ensures Populated(entries, files, nowMs)[files[i].rel]
         == SandboxEntry(files[i].content, 1, false, files[i].sizeBytes, nowMs)
  {
    var n := |files| - 1;
    if i < n {
      PopulateCreates(entries, files[..n], nowMs, i);
    } else {
      PopulateKeeps(entries, files[..n], nowMs, files[i].rel);
    }
  }

  lemma {:induction false} PopulateKeeps(entries: Entries, files: seq<File>, nowMs: int, rel: string)
    ensures rel in entries ==>
              rel in Populated(entries, files, nowMs) && Populated(entries, files, nowMs)[rel] == entries[rel]
    ensures rel in Populated(entries, files, nowMs) <==>
              rel in entries || exists i :: 0 <= i < |files| && files[i].rel == rel
  {
    if files != [] {
      var n := |files| - 1;
      PopulateKeeps(entries, files[..n], nowMs, rel);
      if i :| 0 <= i < |files| && files[i].rel == rel {
        assert i < n ==> files[..n][i].rel == rel;
      }
      if i :| 0 <= i < |files[..n]| && files[..n][i].rel == rel {
        assert files[i].rel == rel;
      }
    }
  }

  /** A locked entry is frozen: no run of writes, locks and populations changes it, and only an
      unlock_entry of its own key can. */
  lemma {:induction false} LockedEntryFrozen(root: string, entries: Entries, steps: seq<Step>, rel: string)
    requires rel in entries && entries[rel].locked
    requires forall i :: 0 <= i < |steps| && steps[i].OnUnlockEntry? ==> ToRel(root, steps[i].absPath) != rel
    ensures rel in Run(root, entries, steps) && Run(root, entries, steps)[rel] == entries[rel]
  {
    if steps != [] {
      LockedEntryFrozen(root, entries, steps[..|steps| - 1], rel);
      var s := steps[|steps| - 1];
      if s.OnPopulate? {
        PopulateKeeps(Run(root, entries, steps[..|steps| - 1]), s.files, s.nowMs, rel);
      }
    }
  }

  /** While the global lockdown is active no entry's content changes, whatever is locked or
      unlocked individually. */
  lemma {:induction false} WormFreezesContent(root: string, entries: Entries, steps: seq<Step>, rel: string)
    requires rel in entries
    requires forall i :: 0 <= i < |steps| && steps[i].OnWrite? ==> steps[i].wormLocked
    ensures rel in Run(root, entries, steps)
    ensures Run(root, entries, steps)[rel].(locked := false) == entries[rel].(locked := false)
  {
    if steps != [] {
      WormFreezesContent(root, entries, steps[..|steps| - 1], rel);
      var s := steps[|steps| - 1];
      if s.OnPopulate? {
        PopulateKeeps(Run(root, entries, steps[..|steps| - 1]), s.files, s.nowMs, rel);
      }
    }
  }

  /** Entries are never removed, versions never decrease, and an unchanged version means an
      unchanged file. */
  lemma {:induction false} VersionTracksContent(root: string, entries: Entries, steps: seq<Step>, rel: string)
    requires rel in entries
    ensures rel in Run(root, entries, steps)
    ensures Run(root, entries, steps)[rel].version >= entries[rel].version
    ensures Run(root, entries, steps)[rel].version == entries[rel].version ==>
              Run(root, entries, steps)[rel].(locked := false) == entries[rel].(locked := false)
  {
    if steps != [] {
      VersionTracksContent(root, entries, steps[..|steps| - 1], rel);
      var s := steps[|steps| - 1];
      if s.OnPopulate? {
        PopulateKeeps(Run(root, entries, steps[..|steps| - 1]), s.files, s.nowMs, rel);
      }
    }
  }

  // ---- Implementation ----------------------------------------------------------------

  class SandboxStore {
    const root: string
    const worm: WormLock      // lock_check_ is wired to its is_locked
    var entries: Entries

    constructor (rootPath: string, worm: WormLock)
      ensures this.root == Normalised(rootPath) && this.worm == worm && entries == map[]
    {
      this.root := Normalised(rootPath);
      this.worm := worm;
      entries := map[];
    }

    method Write(absPath: string, content: string, nowMs: int) returns (r: SandboxResult)
      modifies this, worm.log
      ensures r == WriteOutcome(old(entries), root, absPath, worm.locked)
      ensures entries == Apply(root, old(entries), OnWrite(absPath, content, worm.locked, nowMs))
      ensures r == Ok ==> ToRel(root, absPath) in entries && entries[ToRel(root, absPath)].content == content
      ensures worm.log.entries == old(worm.log.entries) + (if r == Ok then [SandboxWrite] else [])
    {
      if !IsInside(absPath, root) {
        return Outside;
      }
      var rel := ToRel(root, absPath);
      if rel == "" {
        return NoRelPath;
      }
      if worm.locked {
        return WormActive;
      }
      if rel in entries && entries[rel].locked {
        return EntryLocked;
      }
      if rel !in entries {
        entries := entries[rel := SandboxEntry(content, 1, false, |content|, nowMs)];
      } else {
        var e := entries[rel];
        e := e.(content := content, version := e.version + 1, sizeBytes := |content|, lastModified := nowMs);
        entries := entries[rel := e];
      }
      worm.log.Add(SandboxWrite);
      return Ok;
    }

    method LockEntry(absPath: string) returns (r: SandboxResult)
      modifies this, worm.log
      ensures entries == Apply(root, old(entries), OnLockEntry(absPath))
      ensures r == if !IsInside(absPath, root) then Outside
                   else if ToRel(root, absPath) in old(entries) then Ok else NotFound
      ensures r == Ok ==> entries[ToRel(root, absPath)].locked
      ensures worm.log.entries == old(worm.log.entries) + (if r == Ok then [SandboxEntryLocked] else [])
    {
      if !IsInside(absPath, root) {
        return Outside;
      }
      var rel := ToRel(root, absPath);
      if rel !in entries {
        return NotFound;
      }
      entries := entries[rel := entries[rel].(locked := true)];
      worm.log.Add(SandboxEntryLocked);
      return Ok;
    }

    method UnlockEntry(absPath: string) returns (r: SandboxResult)
      modifies this, worm.log
      ensures entries == Apply(root, old(entries), OnUnlockEntry(absPath))
      ensures r == if !IsInside(absPath, root) then Outside
                   else if ToRel(root, absPath) in old(entries) then Ok else NotFound
      ensures r == Ok ==> !entries[ToRel(root, absPath)].locked
      ensures worm.log.entries == old(worm.log.entries) + (if r == Ok then [SandboxEntryUnlocked] else [])
    {
      if !IsInside(absPath, root) {
        return Outside;
      }
      var rel := ToRel(root, absPath);
      if rel !in entries {
        return NotFound;
      }
      entries := entries[rel := entries[rel].(locked := false)];
      worm.log.Add(SandboxEntryUnlocked);
      return Ok;
    }

    method LockAll() returns (newlyLocked: nat)
      modifies this, worm.log
      ensures entries == Apply(root, old(entries), OnLockAll)
      ensures newlyLocked == |set rel | rel in old(entries) && !old(entries)[rel].locked|
      ensures worm.log.entries == old(worm.log.entries) + [SandboxLockAll]
    {
      newlyLocked := 0;
      var todo := entries.Keys;
      ghost var counted: set<string> := {};
      while todo != {}
        invariant todo <= entries.Keys == old(entries).Keys
        invariant forall rel :: rel in entries ==>
                    entries[rel] == if rel in todo then old(entries)[rel] else old(entries)[rel].(locked := true)
        invariant forall rel :: rel in counted <==> rel in old(entries) && rel !in todo && !old(entries)[rel].locked
        invariant newlyLocked == |counted|
        invariant worm.log.entries == old(worm.log.entries)
        decreases |todo|
      {
        var rel :| rel in todo;
        todo := todo - {rel};
        if !entries[rel].locked {
          entries := entries[rel := entries[rel].(locked := true)];
          newlyLocked := newlyLocked + 1;
          counted := counted + {rel};
        }
      }
      assert counted == set rel | rel in old(entries) && !old(entries)[rel].locked;
      worm.log.Add(SandboxLockAll);
    }

    /** The synthetic file table is an argument. */
    method Populate(files: seq<File>, nowMs: int) returns (created: nat)
      modifies this, worm.log
      ensures entries == Apply(root, old(entries), OnPopulate(files, nowMs))
      ensures created == |entries| - |old(entries)|
      ensures worm.log.entries == old(worm.log.entries) + (if created > 0 then [SandboxPopulated] else [])
    {
      created := 0;
      var i := 0;
      while i < |files|
        invariant i <= |files|
        invariant entries == Populated(old(entries), files[..i], nowMs)
        invariant created == |entries| - |old(entries)|
        invariant worm.log.entries == old(worm.log.entries)
      {
        var f := files[i];
        assert files[..i + 1][..i] == files[..i];
        if f.rel !in entries {
          entries := entries[f.rel := SandboxEntry(f.content, 1, false, f.sizeBytes, nowMs)];
          created := created + 1;
        }
        i := i + 1;
      }
      assert files[..i] == files;
      if created > 0 {
        worm.log.Add(SandboxPopulated);
      }
    }
  }
}
