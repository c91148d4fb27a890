/**
 * `AlwaysIncludedDimensionsWrapper`: a client that adds a fixed set of base
 * dimensions to every hit before handing it to the client it wraps, the hit's
 * own dimension values winning over the base ones. The base map is held as
 * the value it had when the wrapper was built (the library keeps the caller's
 * dictionary, whose later edits this model does not follow). The wrapped
 * client is either the client the first wrapper was built around or another
 * wrapper, which is how `withBaseDimensions` nests them. A call is modelled by the hit the
 * innermost client receives.
 */
module DimensionsWrapper {
  import opened Common
  import opened Hits

  /** The `underlying` client: the one at the bottom of the chain, or another wrapper. */
  datatype Underlying = Client | Wrapped(wrapper: Wrapper)

  datatype Wrapper = Wrapper(underlying: Underlying, dimensions: DimensionValues)
  {
    /**
     * `add`: a null map gives the base map itself; otherwise the base map is
     * copied and every pair of `dims` is written over the copy, in order.
     */
    method Add(dims: DimensionValues) returns (r: Result<DimensionValues>)
      ensures r == AddSpec(dimensions, dims)
    {
      if dims.None? {
        return Ok(dimensions);
      }
      if dimensions.None? {
        return Err(ArgumentNull("dictionary"));  // new Dictionary<,>(null)
      }
      var d := dimensions.value;
      var vals := dims.value;
      for i := 0 to |vals|
        invariant d == Merge(dimensions.value, vals[..i])
      {
        assert vals[..i + 1][..i] == vals[..i];
        d := Put(d, vals[i].0, vals[i].1);
      }
      assert vals[..|vals|] == vals;
      return Ok(Some(d));
    }

    /** `Event`: one call below, with the dimensions merged and every other field as given. */
    method Event(d: GAEvent) returns (r: Result<GAEvent>)
      ensures Delivered(this, d.dimensionValues).Err? ==> r == Err(Delivered(this, d.dimensionValues).error)
      ensures Delivered(this, d.dimensionValues).Ok? ==>
                r == Ok(d.(dimensionValues := Delivered(this, d.dimensionValues).value))
      decreases this
    {
      var dims := Add(d.dimensionValues);
      if dims.Err? {
        return Err(dims.error);
      }
      if underlying.Client? {
        return Ok(d.(dimensionValues := dims.value));
      }
      r := underlying.wrapper.Event(d.(dimensionValues := dims.value));
    }

    /** `AppView`: one call below, with the dimensions merged and every other field as given. */
    method AppView(d: GAAppView) returns (r: Result<GAAppView>)
      ensures Delivered(this, d.dimensionValues).Err? ==> r == Err(Delivered(this, d.dimensionValues).error)
      ensures Delivered(this, d.dimensionValues).Ok? ==>
                r == Ok(d.(dimensionValues := Delivered(this, d.dimensionValues).value))
      decreases this
    {
      var dims := Add(d.dimensionValues);
      if dims.Err? {
        return Err(dims.error);
      }
      if underlying.Client? {
        return Ok(d.(dimensionValues := dims.value));
      }
      r := underlying.wrapper.AppView(d.(dimensionValues := dims.value));
    }

    /** `Item`: one call below, with the dimensions merged and every other field as given. */
    method Item(d: GAItem) returns (r: Result<GAItem>)
      ensures Delivered(this, d.dimensionValues).Err? ==> r == Err(Delivered(this, d.dimensionValues).error)
      ensures Delivered(this, d.dimensionValues).Ok? ==>
                r == Ok(d.(dimensionValues := Delivered(this, d.dimensionValues).value))
      decreases this
    {
      var dims := Add(d.dimensionValues);
      if dims.Err? {
        return Err(dims.error);
      }
      if underlying.Client? {
        return Ok(d.(dimensionValues := dims.value));
      }
      r := underlying.wrapper.Item(d.(dimensionValues := dims.value));
    }

    /** `withBaseDimensions` on a wrapper: a new wrapper around this one. */
    function WithBaseDimensions(dims: DimensionValues): (w: Wrapper)
      ensures w.underlying == Wrapped(this) && w.dimensions == dims
    {
      Wrapper(Wrapped(this), dims)
    }
  }

  /** `GAClient.withBaseDimensions` on any client: a wrapper around it. */
  function WithBaseDimensions(underlying: Underlying, dims: DimensionValues): (w: Wrapper)
    ensures w.underlying == underlying && w.dimensions == dims
  {
    Wrapper(underlying, dims)
  }

  /** Writing the pairs of `dims` over `base`, first to last, as `d[kv.Key] = kv.Value` does. */
  function Merge(base: Dict<Key, string>, dims: Dict<Key, string>): Dict<Key, string>
    decreases |dims|
  {
    if |dims| == 0 then base
    else Put(Merge(base, dims[..|dims| - 1]), dims[|dims| - 1].0, dims[|dims| - 1].1)
  }

  /** What `add` returns. */
  function AddSpec(base: DimensionValues, dims: DimensionValues): Result<DimensionValues> {
    if dims.None? then Ok(base)
    else if base.None? then Err(ArgumentNull("dictionary"))
    else Ok(Some(Merge(base.value, dims.value)))
  }

  /** The dimension values the innermost client receives for a hit carrying `dims`. */
  function Delivered(w: Wrapper, dims: DimensionValues): Result<DimensionValues>
    decreases w
  {
    var merged :- AddSpec(w.dimensions, dims);
    if w.underlying.Client? then Ok(merged) else Delivered(w.underlying.wrapper, merged)
  }

  /** The keys of the merge are those of both maps. */
  lemma {:induction false} MergeKeys(base: Dict<Key, string>, dims: Dict<Key, string>)
    ensures Keys(Merge(base, dims)) == Keys(base) + Keys(dims)
    decreases |dims|
  {
    if |dims| != 0 {
      var init, last := dims[..|dims| - 1], dims[|dims| - 1];
      assert dims == init + [last];
      KeysAppend(init, [last]);
      MergeKeys(base, init);
      PutKeys(Merge(base, init), last.0, last.1);
    }
  }

  /** Merging into a dictionary gives a dictionary: no key is repeated. */
  lemma {:induction false} MergeDistinct(base: Dict<Key, string>, dims: Dict<Key, string>)
    requires DistinctKeys(base)
    ensures DistinctKeys(Merge(base, dims))
    decreases |dims|
  {
    if |dims| != 0 {
      var init, last := dims[..|dims| - 1], dims[|dims| - 1];
      MergeDistinct(base, init);
      PutDistinct(Merge(base, init), last.0, last.1);
    }
  }

  /** Each key of `dims` holds the value `dims` gives it; every other key keeps the base's value. */
  lemma {:induction false} MergeLookup(base: Dict<Key, string>, dims: Dict<Key, string>, k: Key)
    requires DistinctKeys(dims)
    ensures Lookup(Merge(base, dims), k) == if k in Keys(dims) then Lookup(dims, k) else Lookup(base, k)
    decreases |dims|
  {
    if |dims| != 0 {
      var init, last := dims[..|dims| - 1], dims[|dims| - 1];
      assert dims == init + [last];
      DistinctKeysAppend(init, [last]);
      KeysAppend(init, [last]);
      LookupAppend(init, [last], k);
      MergeLookup(base, init, k);
      PutLookup(Merge(base, init), last.0, last.1, k);
    }
  }

  /**
   * The merge is a union of the two maps in which `dims` wins: its keys are
   * those of both, each key of `dims` holds the value `dims` gives it, every
   * other key the base's value, and no key is repeated.
   */
  lemma MergeUnion(base: Dict<Key, string>, dims: Dict<Key, string>, k: Key)
    requires DistinctKeys(base) && DistinctKeys(dims)
    ensures Keys(Merge(base, dims)) == Keys(base) + Keys(dims)
    ensures DistinctKeys(Merge(base, dims))
    ensures Lookup(Merge(base, dims), k) == if k in Keys(dims) then Lookup(dims, k) else Lookup(base, k)
  {
    MergeKeys(base, dims);
    MergeDistinct(base, dims);
    MergeLookup(base, dims, k);
  }

  /**
   * `add` with a null map returns the base map as it is (null included); with
   * a map and no base it throws; otherwise it returns the union in which the
   * hit's values win.
   */
  lemma AddMerges(base: DimensionValues, dims: DimensionValues, k: Key)
    requires base.Some? ==> DistinctKeys(base.value)
    requires dims.Some? ==> DistinctKeys(dims.value)
    ensures dims.None? ==> AddSpec(base, dims) == Ok(base)
    ensures dims.Some? && base.None? ==> AddSpec(base, dims) == Err(ArgumentNull("dictionary"))
    ensures dims.Some? && base.Some? ==>
      && AddSpec(base, dims).Ok? && AddSpec(base, dims).value.Some?
      && var m := AddSpec(base, dims).value.value;
      && DistinctKeys(m)
      && Keys(m) == Keys(base.value) + Keys(dims.value)
      && Lookup(m, k) == if k in Keys(dims.value) then Lookup(dims.value, k) else Lookup(base.value, k)
  {
    if dims.Some? && base.Some? {
      MergeUnion(base.value, dims.value, k);
    }
  }

  /** Merging twice: the later map wins over the earlier ones. */
  lemma MergeTwice(inner: Dict<Key, string>, outer: Dict<Key, string>, hit: Dict<Key, string>, k: Key)
    requires DistinctKeys(inner) && DistinctKeys(outer) && DistinctKeys(hit)
    ensures Keys(Merge(inner, Merge(outer, hit))) == Keys(inner) + Keys(outer) + Keys(hit)
    ensures Lookup(Merge(inner, Merge(outer, hit)), k) == if k in Keys(hit) then Lookup(hit, k)
                                                          else if k in Keys(outer) then Lookup(outer, k)
                                                          else Lookup(inner, k)
  {
    MergeUnion(outer, hit, k);
    MergeUnion(inner, Merge(outer, hit), k);
  }

  /** Two nested wrappers merge the hit's values into the outer base, then that into the inner base. */
  lemma NestedDelivered(inner: DimensionValues, outer: Dict<Key, string>, hit: Dict<Key, string>)
    ensures var w := WithBaseDimensions(Client, inner).WithBaseDimensions(Some(outer));
      Delivered(w, Some(hit)) == AddSpec(inner, Some(Merge(outer, hit)))
  {
    var w0 := WithBaseDimensions(Client, inner);
    var w := w0.WithBaseDimensions(Some(outer));
    assert Delivered(w, Some(hit)) == Delivered(w0, Some(Merge(outer, hit)));
  }

  /**
   * Two nested wrappers: the hit's own value wins, then the outer wrapper's
   * base dimension, then the inner one's; the keys are all three maps' keys.
   */
  lemma NestedPrecedence(inner: Dict<Key, string>, outer: Dict<Key, string>, hit: Dict<Key, string>, k: Key)
    requires DistinctKeys(inner) && DistinctKeys(outer) && DistinctKeys(hit)
    ensures var w := WithBaseDimensions(Client, Some(inner)).WithBaseDimensions(Some(outer));
      && Delivered(w, Some(hit)) == Ok(Some(Merge(inner, Merge(outer, hit))))
      && Keys(Merge(inner, Merge(outer, hit))) == Keys(inner) + Keys(outer) + Keys(hit)
      && Lookup(Merge(inner, Merge(outer, hit)), k) == if k in Keys(hit) then Lookup(hit, k)
                                                       else if k in Keys(outer) then Lookup(outer, k)
                                                       else Lookup(inner, k)
  {
    NestedDelivered(Some(inner), outer, hit);
    MergeTwice(inner, outer, hit, k);
  }

  /** A single wrapper around a client hands it the union of its base and the hit's dimensions. */
  lemma SingleWrapper(base: DimensionValues, dims: DimensionValues)
    ensures Delivered(WithBaseDimensions(Client, base), dims) == AddSpec(base, dims)
  {
  }
}
