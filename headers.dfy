/**
 * The operations of Go's `http.Header` that the client uses, on a map from
 * header key to the list of its values, and the header-building loops of
 * `do` in pkg/gowa/client.go.
 */
module Headers {

  type Header = map<string, seq<string>>

  /** `Header.Add`: append one value to the key's list. */
  function Add(h: Header, k: string, v: string): (r: Header)
    ensures r.Keys == h.Keys + {k}
    ensures |r[k]| >= 1 && Last(r[k]) == v && r[k][..|r[k]| - 1] == (if k in h then h[k] else [])
    ensures forall k' :: k' in h && k' != k ==> r[k'] == h[k']
  {
    h[k := (if k in h then h[k] else []) + [v]]
  }

  /** `Header.Set`: replace the key's list by the one value. */
  function Set(h: Header, k: string, v: string): (r: Header)
    ensures r.Keys == h.Keys + {k}
    ensures r[k] == [v]
    ensures forall k' :: k' in h && k' != k ==> r[k'] == h[k']
  {
    h[k := [v]]
  }

  function Last(vs: seq<string>): string
    requires vs != []
  {
    vs[|vs| - 1]
  }

  /** Whether the overrides name `k` with at least one value. */
  predicate Overrides(overrides: Header, k: string)
  {
    k in overrides && overrides[k] != []
  }

  /**
   * The header `do` sends: every common key with at least one value keeps its
   * values, in order, unless the overrides name it with a value, in which case
   * it holds exactly the last value listed there; nothing else is present.
   */
  function Merged(common: Header, overrides: Header): (r: Header)
    ensures forall k :: Overrides(overrides, k) ==> k in r && r[k] == [Last(overrides[k])]
    ensures forall k :: k in common && common[k] != [] && !Overrides(overrides, k) ==> k in r && r[k] == common[k]
    ensures forall k :: k in r ==> Overrides(overrides, k) || (k in common && common[k] != [])
  {
    map k | k in common.Keys + overrides.Keys && (Overrides(overrides, k) || (k in common && common[k] != [])) ::
      if Overrides(overrides, k) then [Last(overrides[k])] else common[k]
  }

  /** With no overrides the merge sends the common header as it is, when every common key has a value. */
  lemma MergedWithoutOverrides(common: Header)
    requires forall k :: k in common ==> common[k] != []
    ensures Merged(common, map[]) == common
  {
    assert Merged(common, map[]).Keys == common.Keys;
  }

  /** An override with a single value sets exactly that value. */
  lemma MergedOverride(common: Header, k: string, v: string)
    ensures var r := Merged(common, map[k := [v]]); k in r && r[k] == [v]
  {
    assert Overrides(map[k := [v]], k);
  }

  /** Overriding a key with the single value it already holds changes nothing. */
  lemma MergedSameValue(common: Header, k: string, v: string)
    requires forall k' :: k' in common ==> common[k'] != []
    requires k in common && common[k] == [v]
    ensures Merged(common, map[k := [v]]) == common
  {
    assert Merged(common, map[k := [v]]).Keys == common.Keys;
  }

  /** The inner loop over the common values of `k`: `Add` each in turn. */
  method AddValues(h0: Header, k: string, vs: seq<string>) returns (h: Header)
    ensures vs == [] ==> h == h0
    ensures vs != [] ==> h == h0[k := (if k in h0 then h0[k] else []) + vs]
  {
    h := h0;
    var base := if k in h0 then h0[k] else [];
    var i := 0;
    while i < |vs|
      invariant 0 <= i <= |vs|
      invariant i == 0 ==> h == h0
      invariant i > 0 ==> h == h0[k := base + vs[..i]]
    {
      assert (if k in h then h[k] else []) == base + vs[..i];
      assert (base + vs[..i]) + [vs[i]] == base + vs[..i + 1];
      h := Add(h, k, vs[i]);
      i := i + 1;
    }
    assert vs[..i] == vs;
  }

  /** The inner loop over the override values of `k`: `Set` each in turn, so the last one stays. */
  method SetValues(h0: Header, k: string, vs: seq<string>) returns (h: Header)
    ensures vs == [] ==> h == h0
    ensures vs != [] ==> h == h0[k := [Last(vs)]]
  {
    h := h0;
    var i := 0;
    while i < |vs|
      invariant 0 <= i <= |vs|
      invariant h == if i == 0 then h0 else h0[k := [vs[i - 1]]]
    {
      h := Set(h, k, vs[i]);
      i := i + 1;
    }
  }

  /** The first loop of `do`: every value of every common key added to an empty header. */
  method AddCommon(common: Header) returns (h: Header)
    ensures forall k :: k in h <==> k in common && common[k] != []
    ensures forall k :: k in h ==> h[k] == common[k]
  {
    h := map[];
    var todo := common.Keys;
    while todo != {}
      invariant todo <= common.Keys
      invariant forall k :: k in h <==> k in common && k !in todo && common[k] != []
      invariant forall k :: k in h ==> h[k] == common[k]
      decreases |todo|
    {
      var k :| k in todo;
      h := AddValues(h, k, common[k]);
      todo := todo - {k};
    }
  }

  /** The second loop of `do`: every value of every override key set over the common header. */
  method SetOverrides(h0: Header, overrides: Header) returns (h: Header)
    ensures forall k :: k in h <==> k in h0 || Overrides(overrides, k)
    ensures forall k :: k in h ==> h[k] == if Overrides(overrides, k) then [Last(overrides[k])] else h0[k]
  {
    h := h0;
    var todo := overrides.Keys;
    while todo != {}
      invariant todo <= overrides.Keys
      invariant forall k :: k in h <==> k in h0 || (Overrides(overrides, k) && k !in todo)
      invariant forall k :: k in h ==> h[k] == if Overrides(overrides, k) && k !in todo then [Last(overrides[k])] else h0[k]
      decreases |todo|
    {
      var k :| k in todo;
      h := SetValues(h, k, overrides[k]);
      todo := todo - {k};
    }
  }

  /**
   * The header-building loops of `do`: the common values added, then the
   * override values set.  Keys are taken in an arbitrary order, as Go's map
   * iteration takes them; the result does not depend on that order.
   */
  method Build(common: Header, overrides: Header) returns (h: Header)
    ensures h == Merged(common, overrides)
  {
    var added := AddCommon(common);
    h := SetOverrides(added, overrides);
  }
}
