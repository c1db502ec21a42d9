/**
 * Go's `path.Join` and `path.Clean` on slash-separated paths, stated on the
 * list of elements between the slashes.
 *
 * `Clean` applies the lexical rules of `path.Clean`: empty elements (from
 * repeated slashes) and `.` elements are dropped, a `..` element removes the
 * real element before it, a `..` at the root of a rooted path is dropped, and
 * the leading `..` elements of an unrooted path are kept.  The empty result
 * becomes `.` (unrooted) or `/` (rooted).
 */
module Paths {

  /** `strings.Split(s, "/")`: the elements between the slashes, at least one. */
  function Split(s: string): (r: seq<string>)
    ensures |r| >= 1
    ensures forall i :: 0 <= i < |r| ==> '/' !in r[i]
    decreases |s|
  {
    if s == [] then [[]]
    else if s[0] == '/' then [[]] + Split(s[1..])
    else var t := Split(s[1..]); [[s[0]] + t[0]] + t[1..]
  }

  /** `strings.Join(segs, "/")`. */
  function Intercalate(segs: seq<string>): string
    decreases |segs|
  {
    if |segs| == 0 then "" else if |segs| == 1 then segs[0] else segs[0] + "/" + Intercalate(segs[1..])
  }

  /** An element that `Clean` keeps as it is. */
  predicate IsName(e: string) { e != "" && e != "." && e != ".." && '/' !in e }

  /** The elements of a clean path: names, and in an unrooted path leading `..` elements. */
  predicate Cleaned(segs: seq<string>, rooted: bool)
  {
    && (forall i :: 0 <= i < |segs| ==> IsName(segs[i]) || (!rooted && segs[i] == ".."))
    && (forall i, j :: 0 <= j < i < |segs| && segs[i] == ".." ==> segs[j] == "..")
  }

  /** One element of the walk over a path: the lexical rules of `path.Clean`. */
  function Step(acc: seq<string>, e: string, rooted: bool): seq<string>
  {
    if e == "" || e == "." then acc
    else if e == ".." then
      if |acc| > 0 && acc[|acc| - 1] != ".." then acc[..|acc| - 1]
      else if rooted then acc
      else acc + [".."]
    else acc + [e]
  }

  function Resolve(acc: seq<string>, elems: seq<string>, rooted: bool): seq<string>
    decreases |elems|
  {
    if elems == [] then acc else Resolve(Step(acc, elems[0], rooted), elems[1..], rooted)
  }

  function Render(segs: seq<string>, rooted: bool): string
  {
    if rooted then "/" + Intercalate(segs)
    else if segs == [] then "."
    else Intercalate(segs)
  }

  predicate NoDoubleSlash(s: string)
  {
    forall i :: 0 <= i < |s| - 1 ==> !(s[i] == '/' && s[i + 1] == '/')
  }

  predicate IsRooted(s: string) { |s| > 0 && s[0] == '/' }

  lemma {:induction false} ResolveKeepsCleaned(acc: seq<string>, elems: seq<string>, rooted: bool)
    requires Cleaned(acc, rooted)
    requires forall i :: 0 <= i < |elems| ==> '/' !in elems[i]
    ensures Cleaned(Resolve(acc, elems, rooted), rooted)
    decreases |elems|
  {
    if elems != [] {
      var e := elems[0];
      if e == ".." && !(|acc| > 0 && acc[|acc| - 1] != "..") && !rooted {
        // every element so far is `..`, so one more keeps them all leading
        assert forall j :: 0 <= j < |acc| ==> acc[j] == "..";
      }
      ResolveKeepsCleaned(Step(acc, e, rooted), elems[1..], rooted);
    }
  }

  lemma {:induction false} IntercalateShape(segs: seq<string>)
    requires |segs| >= 1
    requires forall i :: 0 <= i < |segs| ==> segs[i] != "" && '/' !in segs[i]
    ensures var r := Intercalate(segs);
      |r| > 0 && r[0] != '/' && r[|r| - 1] != '/' && NoDoubleSlash(r)
    decreases |segs|
  {
    if |segs| > 1 {
      IntercalateShape(segs[1..]);
      var a, b := segs[0], Intercalate(segs[1..]);
      var r := a + "/" + b;
      assert '/' !in a;
      forall i | 0 <= i < |r| - 1 ensures !(r[i] == '/' && r[i + 1] == '/') {
        if i < |a| {
          assert r[i] == a[i];
        } else if i > |a| {
          assert r[i] == b[i - |a| - 1] && r[i + 1] == b[i - |a|];
        } else {
          assert r[i + 1] == b[0];
        }
      }
    }
  }

  /** What `Render` makes of clean elements: non-empty, no `//`, no trailing slash but the root. */
  lemma RenderShape(segs: seq<string>, rooted: bool)
    requires Cleaned(segs, rooted)
    ensures var r := Render(segs, rooted);
      && r != ""
      && NoDoubleSlash(r)
      && (r == "/" || r[|r| - 1] != '/')
      && (IsRooted(r) <==> rooted)
  {
    if segs != [] {
      IntercalateShape(segs);
      var m := Intercalate(segs);
      if rooted {
        var r := "/" + m;
        forall i | 0 <= i < |r| - 1 ensures !(r[i] == '/' && r[i + 1] == '/') {
          if i > 0 {
            assert r[i] == m[i - 1] && r[i + 1] == m[i];
          }
        }
      }
    }
  }

  /** `path.Clean(p)`. */
  function Clean(p: string): (r: string)
    ensures r != ""
    ensures NoDoubleSlash(r)
    ensures r == "/" || r[|r| - 1] != '/'
    ensures IsRooted(r) <==> IsRooted(p)
  {
    if p == "" then "."
    else
      var rooted := p[0] == '/';
      var segs := Resolve([], Split(p), rooted);
      ResolveKeepsCleaned([], Split(p), rooted);
      RenderShape(segs, rooted);
      Render(segs, rooted)
  }

  /** `path.Join(a, b)`: the non-empty arguments joined with a slash, then cleaned. */
  function Join(a: string, b: string): (r: string)
    ensures r == "" <==> a == "" && b == ""
    ensures a != "" ==> (IsRooted(r) <==> IsRooted(a))
  {
    if |a| + |b| == 0 then ""
    else Clean(if a == "" then b else a + "/" + b)
  }

  /** Join never yields `//` nor a trailing slash (other than the root), and is rooted as its first argument is. */
  lemma JoinShape(a: string, b: string)
    requires |a| + |b| > 0
    ensures var r := Join(a, b);
      && r != ""
      && NoDoubleSlash(r)
      && (r == "/" || r[|r| - 1] != '/')
      && (IsRooted(r) <==> (if a == "" then IsRooted(b) else IsRooted(a)))
  {
    if a != "" {
      assert (a + "/" + b)[0] == a[0];
    }
  }

  lemma {:induction false} SplitConcat(x: string, y: string)
    ensures Split(x + "/" + y) == Split(x) + Split(y)
    decreases |x|
  {
    if x == [] {
      assert x + "/" + y == "/" + y;
      assert ("/" + y)[1..] == y;
    } else {
      assert (x + "/" + y)[0] == x[0];
      assert (x + "/" + y)[1..] == x[1..] + "/" + y;
      SplitConcat(x[1..], y);
    }
  }

  lemma {:induction false} SplitName(x: string)
    requires '/' !in x
    ensures Split(x) == [x]
    decreases |x|
  {
    if x != [] {
      SplitName(x[1..]);
      assert [x[0]] + x[1..] == x;
    }
  }

  lemma {:induction false} SplitIntercalate(segs: seq<string>)
    requires |segs| >= 1
    requires forall i :: 0 <= i < |segs| ==> '/' !in segs[i]
    ensures Split(Intercalate(segs)) == segs
    decreases |segs|
  {
    if |segs| == 1 {
      SplitName(segs[0]);
    } else {
      SplitConcat(segs[0], Intercalate(segs[1..]));
      SplitName(segs[0]);
      SplitIntercalate(segs[1..]);
      assert [segs[0]] + segs[1..] == segs;
    }
  }

  lemma {:induction false} IntercalateAppend(xs: seq<string>, ys: seq<string>)
    requires |xs| >= 1 && |ys| >= 1
    ensures Intercalate(xs + ys) == Intercalate(xs) + "/" + Intercalate(ys)
    decreases |xs|
  {
    if |xs| == 1 {
      assert (xs + ys)[1..] == ys;
    } else {
      assert (xs + ys)[1..] == xs[1..] + ys;
      IntercalateAppend(xs[1..], ys);
    }
  }

  lemma {:induction false} ResolveAppend(acc: seq<string>, e1: seq<string>, e2: seq<string>, rooted: bool)
    ensures Resolve(acc, e1 + e2, rooted) == Resolve(Resolve(acc, e1, rooted), e2, rooted)
    decreases |e1|
  {
    if e1 == [] {
      assert e1 + e2 == e2;
    } else {
      assert (e1 + e2)[0] == e1[0];
      assert (e1 + e2)[1..] == e1[1..] + e2;
      ResolveAppend(Step(acc, e1[0], rooted), e1[1..], e2, rooted);
    }
  }

  /** Already-clean elements pass through the walk unchanged. */
  lemma {:induction false} ResolveCleaned(acc: seq<string>, elems: seq<string>, rooted: bool)
    requires Cleaned(acc + elems, rooted)
    ensures Resolve(acc, elems, rooted) == acc + elems
    decreases |elems|
  {
    if elems != [] {
      var e := elems[0];
      assert (acc + elems)[|acc|] == e;
      if e == ".." {
        forall j | 0 <= j < |acc| ensures acc[j] == ".." {
          assert (acc + elems)[j] == acc[j];
        }
        if |acc| > 0 {
          assert acc[|acc| - 1] == "..";
        }
      }
      assert Step(acc, e, rooted) == acc + [e];
      assert (acc + [e]) + elems[1..] == acc + elems;
      ResolveCleaned(acc + [e], elems[1..], rooted);
    }
  }

  /** The names among `elems`: what the walk appends when no element is `..`. */
  function Names(elems: seq<string>): (r: seq<string>)
    ensures |r| <= |elems|
    decreases |elems|
  {
    if elems == [] then []
    else if elems[0] == "" || elems[0] == "." then Names(elems[1..])
    else [elems[0]] + Names(elems[1..])
  }

  lemma {:induction false} ResolveWithoutDotDot(acc: seq<string>, elems: seq<string>, rooted: bool)
    requires forall i :: 0 <= i < |elems| ==> elems[i] != ".."
    ensures Resolve(acc, elems, rooted) == acc + Names(elems)
    decreases |elems|
  {
    if elems != [] {
      ResolveWithoutDotDot(Step(acc, elems[0], rooted), elems[1..], rooted);
      if elems[0] != "" && elems[0] != "." {
        assert (acc + [elems[0]]) + Names(elems[1..]) == acc + ([elems[0]] + Names(elems[1..]));
      }
    }
  }

  /** The cleaned form of a path is a clean rendering of its elements. */
  lemma CleanIsRender(p: string)
    requires p != ""
    ensures var rooted := IsRooted(p);
      var segs := Resolve([], Split(p), rooted);
      Cleaned(segs, rooted) && Clean(p) == Render(segs, rooted)
  {
    ResolveKeepsCleaned([], Split(p), IsRooted(p));
  }

  /** Cleaning a clean rendering gives it back. */
  lemma CleanRender(segs: seq<string>, rooted: bool)
    requires Cleaned(segs, rooted)
    ensures Clean(Render(segs, rooted)) == Render(segs, rooted)
  {
    var r := Render(segs, rooted);
    if segs == [] {
      if rooted {
        assert r[1..] == "";
        assert Split(r) == [""] + Split("");
        assert Split(r) == ["", ""];
        assert Resolve([], ["", ""], true) == Resolve([], [""], true) == Resolve([], [], true);
        assert Clean(r) == Render([], true);
      } else {
        SplitName(r);
        assert Resolve([], Split(r), false) == [];
        assert Clean(r) == Render([], false);
      }
    } else {
      var m := Intercalate(segs);
      IntercalateShape(segs);
      SplitIntercalate(segs);
      assert [] + segs == segs;
      ResolveCleaned([], segs, rooted);
      if rooted {
        assert r[1..] == m;
        assert Split(r) == [""] + segs;
        assert Resolve([], Split(r), true) == Resolve([], segs, true);
      }
    }
  }

  /** `path.Clean` is idempotent. */
  lemma CleanIdempotent(p: string)
    ensures Clean(Clean(p)) == Clean(p)
  {
    if p == "" {
      SplitName(".");
    } else {
      CleanIsRender(p);
      CleanRender(Resolve([], Split(p), IsRooted(p)), IsRooted(p));
    }
  }

  /** Join's result is clean: joining it with nothing changes nothing. */
  lemma JoinIsClean(a: string, b: string)
    requires |a| + |b| > 0
    ensures Clean(Join(a, b)) == Join(a, b)
  {
    CleanIdempotent(if a == "" then b else a + "/" + b);
  }

  /**
   * Joining a rooted base with a path that has no `..` element keeps the
   * cleaned base (trailing slash and dot elements dropped) as a prefix,
   * followed by exactly one slash before what is appended.
   */
  lemma JoinKeepsBase(a: string, b: string)
    requires IsRooted(a)
    requires forall i :: 0 <= i < |Split(b)| ==> Split(b)[i] != ".."
    ensures var r, ca := Join(a, b), Clean(a);
      && |ca| <= |r| && r[..|ca|] == ca
      && (|r| > |ca| && ca != "/" ==> r[|ca|] == '/')
  {
    CleanIsRender(a);
    JoinAppendsNames(a, b);
    RenderExtends(Resolve([], Split(a), true), Names(Split(b)));
  }

  lemma RenderExtends(segs: seq<string>, names: seq<string>)
    ensures var a, r := Render(segs, true), Render(segs + names, true);
      && |a| <= |r| && r[..|a|] == a
      && (|r| > |a| && a != "/" ==> r[|a|] == '/')
  {
    var a, r := Render(segs, true), Render(segs + names, true);
    if segs == [] {
      assert segs + names == names;
      assert a == "/";
      assert r[..1] == "/";
    } else if names == [] {
      assert segs + names == segs;
    } else {
      IntercalateAppend(segs, names);
      assert r == a + "/" + Intercalate(names);
    }
  }

  lemma JoinAppendsNames(a: string, b: string)
    requires IsRooted(a)
    requires forall i :: 0 <= i < |Split(b)| ==> Split(b)[i] != ".."
    ensures Join(a, b) == Render(Resolve([], Split(a), true) + Names(Split(b)), true)
  {
    var x := a + "/" + b;
    assert x[0] == '/';
    CleanIsRender(x);
    SplitConcat(a, b);
    ResolveAppend([], Split(a), Split(b), true);
    ResolveWithoutDotDot(Resolve([], Split(a), true), Split(b), true);
  }

  lemma {:induction false} NamesOfNames(segs: seq<string>)
    requires forall i :: 0 <= i < |segs| ==> IsName(segs[i])
    ensures Names(segs) == segs
    decreases |segs|
  {
    if segs != [] {
      NamesOfNames(segs[1..]);
      assert [segs[0]] + segs[1..] == segs;
    }
  }

  /** The elements of a clean rooted path other than the root itself: the empty root element, then names. */
  lemma SplitCleanRooted(segs: seq<string>)
    requires segs != [] && Cleaned(segs, true)
    ensures Split(Render(segs, true)) == [""] + segs
  {
    IntercalateShape(segs);
    SplitIntercalate(segs);
    assert Render(segs, true)[1..] == Intercalate(segs);
  }

  /** The names of a clean rooted path are its cleaned elements, and none of its elements is `..`. */
  lemma CleanRootedNames(b: string)
    requires IsRooted(b) && Clean(b) == b
    ensures forall i :: 0 <= i < |Split(b)| ==> Split(b)[i] != ".."
    ensures Names(Split(b)) == Resolve([], Split(b), true)
  {
    CleanIsRender(b);
    var segs := Resolve([], Split(b), true);
    if segs == [] {
      assert b == "/";
      assert Split(b) == ["", ""];
      assert ["", ""][1..] == [""] && [""][1..] == [];
      assert Names(["", ""]) == Names([""]) == Names([]) == [];
    } else {
      SplitCleanRooted(segs);
      NamesOfNames(segs);
      assert Split(b)[0] == "" && Split(b)[1..] == segs;
    }
  }

  lemma RenderConcat(xs: seq<string>, ys: seq<string>)
    ensures Render(xs + ys, true) ==
      if xs == [] then Render(ys, true)
      else if ys == [] then Render(xs, true)
      else Render(xs, true) + Render(ys, true)
  {
    if xs == [] {
      assert xs + ys == ys;
    } else if ys == [] {
      assert xs + ys == xs;
    } else {
      IntercalateAppend(xs, ys);
      var a, b := Intercalate(xs), Intercalate(ys);
      assert Render(xs + ys, true) == "/" + (a + "/" + b);
      assert "/" + (a + "/" + b) == ("/" + a) + ("/" + b);
    }
  }

  /**
   * Joining two clean paths, the second rooted, concatenates them: the root
   * of either side is absorbed, nothing else changes.
   */
  lemma JoinCleanRooted(a: string, b: string)
    requires a == "" || (IsRooted(a) && Clean(a) == a)
    requires IsRooted(b) && Clean(b) == b
    ensures Join(a, b) == if a == "" || a == "/" then b else if b == "/" then a else a + b
  {
    if a != "" {
      CleanIsRender(a);
      CleanIsRender(b);
      CleanRootedNames(b);
      JoinAppendsNames(a, b);
      RenderConcat(Resolve([], Split(a), true), Resolve([], Split(b), true));
    }
  }

  lemma {:induction false} IntercalateExtendLast(segs: seq<string>, t: string)
    requires |segs| >= 1
    ensures Intercalate(segs[..|segs| - 1] + [segs[|segs| - 1] + t]) == Intercalate(segs) + t
    decreases |segs|
  {
    var n := |segs|;
    var ext := segs[..n - 1] + [segs[n - 1] + t];
    if n > 1 {
      IntercalateExtendLast(segs[1..], t);
      assert ext[0] == segs[0];
      assert ext[1..] == segs[1..][..n - 2] + [segs[1..][n - 2] + t];
    } else {
      assert ext == [segs[0] + t];
    }
  }

  lemma ExtendName(x: string, t: string)
    requires IsName(x) && '/' !in t
    ensures IsName(x + t)
  {
    var y := x + t;
    assert '/' !in y by {
      forall i | 0 <= i < |y| ensures y[i] != '/' {
        if i < |x| { assert y[i] == x[i]; } else { assert y[i] == t[i - |x|]; }
      }
    }
    if t != [] && |y| <= 2 {
      assert |x| == 1 && x == [y[0]];
    }
  }

  lemma ExtendLastCleaned(segs: seq<string>, t: string)
    requires segs != [] && Cleaned(segs, true)
    requires '/' !in t
    ensures Cleaned(segs[..|segs| - 1] + [segs[|segs| - 1] + t], true)
  {
    var n := |segs|;
    var ext := segs[..n - 1] + [segs[n - 1] + t];
    ExtendName(segs[n - 1], t);
    forall i | 0 <= i < |ext| ensures IsName(ext[i]) {
      if i < n - 1 {
        assert ext[i] == segs[i];
      }
    }
  }

  /** Text without a slash appended to a clean rooted path other than the root leaves it clean. */
  lemma CleanAppendSuffix(p: string, t: string)
    requires IsRooted(p) && Clean(p) == p && p != "/"
    requires '/' !in t
    ensures Clean(p + t) == p + t
  {
    CleanIsRender(p);
    var segs := Resolve([], Split(p), true);
    var ext := segs[..|segs| - 1] + [segs[|segs| - 1] + t];
    ExtendLastCleaned(segs, t);
    RenderExtendLast(segs, t);
    CleanRender(ext, true);
  }

  /** Text appended to a rooted rendering extends its last element. */
  lemma RenderExtendLast(segs: seq<string>, t: string)
    requires segs != []
    ensures Render(segs, true) + t == Render(segs[..|segs| - 1] + [segs[|segs| - 1] + t], true)
  {
    IntercalateExtendLast(segs, t);
  }
}
