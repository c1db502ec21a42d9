/**
 * The part of Go's `net/url` the client relies on: a parsed URL and
 * `URL.ResolveReference` for a reference that carries only a path, with
 * the RFC 3986 dot-segment removal of `resolvePath`.
 */
module NetUrl {
  import opened Wrappers
  import Paths

  /** The fields of `url.URL` that resolution reads or writes; `user` is the optional userinfo. */
  datatype Url = Url(
    scheme: string,
    opaquePart: string,
    user: Option<string>,
    host: string,
    path: string,
    rawQuery: string,
    fragment: string)

  /** `strings.LastIndex(s, "/")`. */
  function LastSlash(s: string): (i: int)
    ensures -1 <= i < |s|
    ensures i >= 0 ==> s[i] == '/'
    ensures forall j :: i < j < |s| ==> s[j] != '/'
    decreases |s|
  {
    if s == [] then -1
    else if s[|s| - 1] == '/' then |s| - 1
    else LastSlash(s[..|s| - 1])
  }

  /**
   * The element walk of `resolvePath`: the stack holds the output elements
   * after the leading slash; a lone `""` records a `.` seen at the start.
   */
  function Walk(stack: seq<string>, elems: seq<string>): seq<string>
    decreases |elems|
  {
    if elems == [] then stack
    else
      var e := elems[0];
      var next :=
        if e == "." then (if stack == [] then [""] else stack)
        else if e == ".." then (if |stack| <= 1 then [] else stack[..|stack| - 1])
        else stack + [e];
      Walk(next, elems[1..])
  }

  /** The path `resolvePath` starts from: the reference, merged onto the base's directory when relative. */
  function MergePath(base: string, ref: string): (full: string)
    ensures full == "" <==> base == "" && ref == ""
  {
    if ref == "" then base
    else if ref[0] != '/' then base[..LastSlash(base) + 1] + ref
    else ref
  }

  /** The dot-segment removal of `resolvePath`, always yielding a rooted path. */
  function RemoveDotSegments(full: string): (r: string)
    requires full != ""
    ensures r != "" && r[0] == '/'
  {
    var elems := Paths.Split(full);
    var last := elems[|elems| - 1];
    var r := "/" + Paths.Intercalate(Walk([], elems)) + (if last == "." || last == ".." then "/" else "");
    if |r| > 1 && r[1] == '/' then r[1..] else r
  }

  /** `resolvePath(base, ref)`. */
  function ResolvePath(base: string, ref: string): (r: string)
    ensures r == "" <==> base == "" && ref == ""
    ensures r != "" ==> r[0] == '/'
  {
    var full := MergePath(base, ref);
    if full == "" then "" else RemoveDotSegments(full)
  }

  /** `base.ResolveReference(&url.URL{Path: refPath})`. */
  function ResolveReference(base: Url, refPath: string): (r: Url)
    ensures r.scheme == base.scheme
    ensures refPath == "" ==> r.rawQuery == base.rawQuery && r.fragment == base.fragment
    ensures refPath != "" ==> r.rawQuery == "" && r.fragment == ""
    ensures refPath != "" || base.opaquePart == "" ==>
      r.opaquePart == "" && r.user == base.user && r.host == base.host && r.path == ResolvePath(base.path, refPath)
    ensures refPath == "" && base.opaquePart != "" ==>
      r.opaquePart == base.opaquePart && r.user == None && r.host == "" && r.path == ""
  {
    var query := if refPath == "" then base.rawQuery else "";
    var fragment := if refPath == "" then base.fragment else "";
    if refPath == "" && base.opaquePart != "" then Url(base.scheme, base.opaquePart, None, "", "", query, fragment)
    else Url(base.scheme, "", base.user, base.host, ResolvePath(base.path, refPath), query, fragment)
  }

  lemma {:induction false} WalkNames(stack: seq<string>, names: seq<string>)
    requires forall i :: 0 <= i < |names| ==> Paths.IsName(names[i])
    ensures Walk(stack, names) == stack + names
    decreases |names|
  {
    if names != [] {
      WalkNames(stack + [names[0]], names[1..]);
      assert (stack + [names[0]]) + names[1..] == stack + names;
    }
  }

  lemma RemoveDotSegmentsRoot()
    ensures RemoveDotSegments("/") == "/"
  {
    assert "/"[1..] == "";
    assert Paths.Split("/") == ["", ""];
    assert Walk([], ["", ""]) == ["", ""];
  }

  lemma WalkRootedNames(segs: seq<string>)
    requires Paths.Cleaned(segs, true)
    ensures Walk([], [""] + segs) == [""] + segs
  {
    var elems := [""] + segs;
    assert elems[0] == "" && elems[1..] == segs;
    assert [] + [""] == [""];
    WalkNames([""], segs);
  }

  lemma IntercalateRooted(segs: seq<string>)
    requires segs != []
    ensures Paths.Intercalate([""] + segs) == "/" + Paths.Intercalate(segs)
  {
    assert ([""] + segs)[1..] == segs;
  }

  lemma RemoveDotSegmentsOfNames(segs: seq<string>)
    requires segs != [] && Paths.Cleaned(segs, true)
    ensures RemoveDotSegments(Paths.Render(segs, true)) == Paths.Render(segs, true)
  {
    var ref := Paths.Render(segs, true);
    Paths.SplitCleanRooted(segs);
    var elems := Paths.Split(ref);
    WalkRootedNames(segs);
    IntercalateRooted(segs);
    var last := elems[|elems| - 1];
    assert last == segs[|segs| - 1];
    assert Paths.IsName(last);
    var r := "/" + Paths.Intercalate(Walk([], elems)) + "";
    assert r == "/" + ref;
    assert r[1..] == ref;
  }

  /** Dot-segment removal leaves a rooted path that `path.Clean` produced unchanged, whatever the base. */
  lemma ResolvePathOfClean(base: string, x: string)
    requires Paths.IsRooted(x)
    ensures ResolvePath(base, Paths.Clean(x)) == Paths.Clean(x)
  {
    Paths.CleanIsRender(x);
    var segs := Paths.Resolve([], Paths.Split(x), true);
    if segs == [] {
      RemoveDotSegmentsRoot();
    } else {
      RemoveDotSegmentsOfNames(segs);
    }
  }
}
