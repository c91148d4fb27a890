/**
 * The hit data model of the struct-based client: four immutable hit values
 * checked when they are constructed, the referrer (campaign attribution)
 * value with its query-string reader and its textual form, and the
 * constants shared by the client.
 */
module Hits {
  import opened Common
  import FormExts

  /**
   * A custom metric or dimension key (`IMetric`, `IDimension`). The interfaces
   * define no equality, so dictionaries compare key objects by reference: `id`
   * stands for that reference, and two keys with the same text and slot are
   * still different keys when their ids differ. `name` is the key's text and
   * `index` its slot.
   */
  datatype Key = Key(id: nat, name: string, index: uint32)

  /** `IDictionary<IMetric, uint>`, null being `None`. */
  type MetricValues = Option<Dict<Key, uint32>>

  /** `IDictionary<IDimension, string>`, null being `None`. */
  type DimensionValues = Option<Dict<Key, string>>

  const MAX_CATEGORY_LENGTH: int := 150
  const MAX_ACTION_LENGTH: int := 500
  const MAX_LABEL_LENGTH: int := 500
  const DEFAULT_URL: string := "http://www.google-analytics.com/collect"

  // ---------------------------------------------------------------------
  // The referrer.

  /** Campaign attribution; every field is independently optional. */
  datatype GAReferrer = GAReferrer(
    documentReferrer: Option<string>,
    campaignName: Option<string>,
    campaignSource: Option<string>,
    campaignMedium: Option<string>,
    campaignKeyword: Option<string>,
    campaignContent: Option<string>,
    campaignId: Option<string>)
  {
    /** The present fields, in declaration order, each as "name: value". */
    function Parts(): seq<string> {
      Part("documentReferrer", documentReferrer) + Part("campaignName", campaignName)
      + Part("campaignSource", campaignSource) + Part("campaignMedium", campaignMedium)
      + Part("campaignKeyword", campaignKeyword) + Part("campaignContent", campaignContent)
      + Part("campaignId", campaignId)
    }

    /** `ToString`: builds the text part by part, a flag telling whether a separator is due. */
    method ToString() returns (s: string)
      ensures s == "GAReferrer[" + Join(Parts()) + "]"
    {
      var first := true;
      var sb := "GAReferrer";
      sb := sb + "[";
      ghost var head := sb;
      ghost var done: seq<string> := [];
      sb, first, done := AddPartTracked(sb, "documentReferrer", documentReferrer, first, head, done);
      sb, first, done := AddPartTracked(sb, "campaignName", campaignName, first, head, done);
      sb, first, done := AddPartTracked(sb, "campaignSource", campaignSource, first, head, done);
      sb, first, done := AddPartTracked(sb, "campaignMedium", campaignMedium, first, head, done);
      sb, first, done := AddPartTracked(sb, "campaignKeyword", campaignKeyword, first, head, done);
      sb, first, done := AddPartTracked(sb, "campaignContent", campaignContent, first, head, done);
      sb, first, done := AddPartTracked(sb, "campaignId", campaignId, first, head, done);
      assert done == Parts() by {
        assert [] + Part("documentReferrer", documentReferrer) == Part("documentReferrer", documentReferrer);
      }
      sb := sb + "]";
      s := sb;
    }
  }

  function Part(name: string, optVal: Option<string>): seq<string> {
    if optVal.Some? then [name + ": " + optVal.value] else []
  }

  /** The parts joined by ", ". */
  function Join(ps: seq<string>): string {
    if |ps| == 0 then "" else if |ps| == 1 then ps[0] else Join(ps[..|ps| - 1]) + ", " + ps[|ps| - 1]
  }

  lemma JoinSnoc(ps: seq<string>, p: string)
    ensures Join(ps + [p]) == Join(ps) + (if ps == [] then "" else ", ") + p
  {
    assert (ps + [p])[..|ps|] == ps;
  }

  /** `addPart`: appends "name: value", preceded by ", " unless it is the first part. */
  method AddPart(sb: string, name: string, optVal: Option<string>, first: bool) returns (sb': string, first': bool)
    ensures optVal.None? ==> sb' == sb && first' == first
    ensures optVal.Some? ==> !first' && sb' == sb + (if first then "" else ", ") + name + ": " + optVal.value
  {
    sb', first' := sb, first;
    if optVal.Some? {
      if first' { first' := false; } else { sb' := sb' + ", "; }
      sb' := sb' + name;
      sb' := sb' + ": ";
      sb' := sb' + optVal.value;
    }
  }

  /** `addPart` together with the record of the parts written so far. */
  method AddPartTracked(sb: string, name: string, optVal: Option<string>, first: bool,
                        ghost head: string, ghost done: seq<string>)
    returns (sb': string, first': bool, ghost done': seq<string>)
    requires sb == head + Join(done) && first == (done == [])
    ensures done' == done + Part(name, optVal)
    ensures sb' == head + Join(done') && first' == (done' == [])
  {
    sb', first' := AddPart(sb, name, optVal, first);
    done' := done + Part(name, optVal);
    if optVal.Some? {
      JoinSnoc(done, name + ": " + optVal.value);
    } else {
      assert done' == done;
    }
  }

  /** `QueryString.parseKV`'s pairs into a dictionary: `ToDictionary` adds them one by one. */
  function ToDictionary(list: seq<(string, string)>): Result<Dict<string, string>> {
    if |list| == 0 then Ok([])
    else
      var d :- ToDictionary(list[..|list| - 1]);
      FormExts.DictAdd(d, list[|list| - 1].0, list[|list| - 1].1)
  }

  /** `ToDictionary` fails exactly on a repeated key, and otherwise keeps the pairs in order. */
  lemma {:induction false} ToDictionaryOk(list: seq<(string, string)>)
    ensures ToDictionary(list).Ok? <==> DistinctKeys(list)
    ensures ToDictionary(list).Ok? ==> ToDictionary(list).value == list
  {
    if |list| != 0 {
      var init, last := list[..|list| - 1], list[|list| - 1];
      assert list == init + [last];
      ToDictionaryOk(init);
      DistinctKeysAppend(init, [last]);
    }
  }

  /**
   * `fromQueryString`, given what the query-string parser returned: the five
   * `utm_*` parameters become the campaign fields.
   */
  function FromQueryString(parsed: Result<seq<(string, string)>>): Result<GAReferrer> {
    var list :- parsed;
    var dict :- ToDictionary(list);
    Ok(GAReferrer(
      documentReferrer := None,
      campaignName := Lookup(dict, "utm_campaign"),
      campaignSource := Lookup(dict, "utm_source"),
      campaignMedium := Lookup(dict, "utm_medium"),
      campaignKeyword := Lookup(dict, "utm_term"),
      campaignContent := Lookup(dict, "utm_content"),
      campaignId := None))
  }

  /**
   * A parsed query string without repeated parameters gives the referrer whose
   * campaign fields are the `utm_*` values, with no document referrer and no
   * campaign id; a repeated parameter or a parse failure gives no referrer.
   */
  lemma FromQueryStringFields(parsed: Result<seq<(string, string)>>)
    ensures parsed.Err? ==> FromQueryString(parsed) == Err(parsed.error)
    ensures parsed.Ok? ==> (FromQueryString(parsed).Ok? <==> DistinctKeys(parsed.value))
    ensures parsed.Ok? && FromQueryString(parsed).Ok? ==>
      var r, l := FromQueryString(parsed).value, parsed.value;
      && r.documentReferrer == None && r.campaignId == None
      && r.campaignName == Lookup(l, "utm_campaign")
      && r.campaignSource == Lookup(l, "utm_source")
      && r.campaignMedium == Lookup(l, "utm_medium")
      && r.campaignKeyword == Lookup(l, "utm_term")
      && r.campaignContent == Lookup(l, "utm_content")
  {
    if parsed.Ok? {
      ToDictionaryOk(parsed.value);
    }
  }

  // ---------------------------------------------------------------------
  // The four hits.

  datatype GAEvent = GAEvent(
    category: Option<string>,
    action: Option<string>,
    labelText: Option<string>,
    value: Option<int32>,
    metricValues: MetricValues,
    dimensionValues: DimensionValues,
    referrer: Option<GAReferrer>)
  {
    /** What the constructor guarantees: not everything is null. */
    predicate Valid() {
      category.Some? || action.Some? || labelText.Some? || value.Some?
    }

    /**
     * `withReferrer`: the constructor re-run on the same fields with the new
     * referrer. It throws on an event with nothing set, which is what
     * `default(GAEvent)` is, since a struct's default skips the constructor.
     */
    function WithReferrer(r: Option<GAReferrer>): (e: Result<GAEvent>)
      ensures e.Err? <==> !Valid()
      ensures e.Err? ==> e.error == AllParametersNull
      ensures e.Ok? ==> e.value.referrer == r && e.value.(referrer := referrer) == this && e.value.Valid()
    {
      NewEvent(category, action, labelText, value, metricValues, dimensionValues, r)
    }
  }

  /** The `GAEvent` constructor. */
  function NewEvent(category: Option<string>, action: Option<string>, labelText: Option<string>,
                    value: Option<int32>, metricValues: MetricValues,
                    dimensionValues: DimensionValues, referrer: Option<GAReferrer>): Result<GAEvent>
  {
    if category.None? && action.None? && labelText.None? && value.None? then Err(AllParametersNull)
    else Ok(GAEvent(category, action, labelText, value, metricValues, dimensionValues, referrer))
  }

  /**
   * The constructor rejects exactly the event with category, action, label and
   * value all null; any other event it stores as given, and what it builds is Valid.
   */
  lemma NewEventChecks(category: Option<string>, action: Option<string>, labelText: Option<string>,
                       value: Option<int32>, metricValues: MetricValues,
                       dimensionValues: DimensionValues, referrer: Option<GAReferrer>)
    ensures var r := NewEvent(category, action, labelText, value, metricValues, dimensionValues, referrer);
      && (r.Err? <==> category.None? && action.None? && labelText.None? && value.None?)
      && (r.Err? ==> r.error == AllParametersNull)
      && (r.Ok? ==> r.value.Valid() && r.value.category == category && r.value.action == action
                    && r.value.labelText == labelText && r.value.value == value
                    && r.value.metricValues == metricValues && r.value.dimensionValues == dimensionValues
                    && r.value.referrer == referrer)
  {
  }

  datatype GAAppView = GAAppView(
    screenName: Option<string>,
    metricValues: MetricValues,
    dimensionValues: DimensionValues,
    referrer: Option<GAReferrer>)
  {
    function WithReferrer(r: Option<GAReferrer>): (a: GAAppView)
      ensures a.referrer == r && a.(referrer := referrer) == this
    {
      GAAppView(screenName, metricValues, dimensionValues, r)
    }
  }

  datatype GAItem = GAItem(
    name: Option<string>,  // null only in `default(GAItem)`
    code: Option<string>,
    category: Option<string>,
    currencyCode: Option<string>,
    price: Option<string>,  // the text of the float price
    quantity: Option<int32>,
    metricValues: MetricValues,
    dimensionValues: DimensionValues,
    referrer: Option<GAReferrer>)
  {
    /** What the constructor guarantees: the name is not null. */
    predicate Valid() {
      name.Some?
    }

    /**
     * `withReferrer`: the constructor re-run with the new referrer; it throws
     * on `default(GAItem)`, whose name is null.
     */
    function WithReferrer(r: Option<GAReferrer>): (i: Result<GAItem>)
      ensures i.Err? <==> !Valid()
      ensures i.Err? ==> i.error == ArgumentNull("name")
      ensures i.Ok? ==> i.value.referrer == r && i.value.(referrer := referrer) == this && i.value.Valid()
    {
      NewItem(name, code, category, currencyCode, price, quantity, metricValues, dimensionValues, r)
    }
  }

  /** The `GAItem` constructor: only a null name is rejected (an empty one is accepted). */
  function NewItem(name: Option<string>, code: Option<string>, category: Option<string>,
                   currencyCode: Option<string>, price: Option<string>, quantity: Option<int32>,
                   metricValues: MetricValues, dimensionValues: DimensionValues,
                   referrer: Option<GAReferrer>): (r: Result<GAItem>)
    ensures r.Err? <==> name.None?
    ensures r.Err? ==> r.error == ArgumentNull("name")
    ensures r.Ok? ==> r.value.Valid() && r.value.name == name && r.value.code == code && r.value.category == category
                      && r.value.currencyCode == currencyCode && r.value.price == price
                      && r.value.quantity == quantity && r.value.metricValues == metricValues
                      && r.value.dimensionValues == dimensionValues && r.value.referrer == referrer
  {
    if name.None? then Err(ArgumentNull("name"))
    else Ok(GAItem(name, code, category, currencyCode, price, quantity, metricValues, dimensionValues, referrer))
  }

  datatype GATiming = GATiming(
    category: Option<string>,
    name: Option<string>,
    timeMs: int32,
    labelText: Option<string>,
    metricValues: MetricValues,
    dimensionValues: DimensionValues,
    referrer: Option<GAReferrer>)
  {
    function WithReferrer(r: Option<GAReferrer>): (t: GATiming)
      ensures t.referrer == r && t.(referrer := referrer) == this
    {
      GATiming(category, name, timeMs, labelText, metricValues, dimensionValues, r)
    }
  }

  /** Any of the four hits, as the client interface receives them. */
  datatype Hit =
    | EventHit(event: GAEvent)
    | AppViewHit(appView: GAAppView)
    | ItemHit(item: GAItem)
    | TimingHit(timing: GATiming)
  {
    function Referrer(): Option<GAReferrer> {
      match this
      case EventHit(e) => e.referrer
      case AppViewHit(a) => a.referrer
      case ItemHit(i) => i.referrer
      case TimingHit(t) => t.referrer
    }

    /** Whether the hit is one its constructor can build (only a struct's default is not). */
    predicate Valid() {
      match this
      case EventHit(e) => e.Valid()
      case ItemHit(i) => i.Valid()
      case _ => true
    }

    /** The error `withReferrer` throws on a hit that is not `Valid`. */
    function InvalidError(): Error {
      if EventHit? then AllParametersNull else ArgumentNull("name")
    }

    function WithReferrer(r: Option<GAReferrer>): Result<Hit> {
      match this
      case EventHit(e) => var e' :- e.WithReferrer(r); Ok(EventHit(e'))
      case AppViewHit(a) => Ok(AppViewHit(a.WithReferrer(r)))
      case ItemHit(i) => var i' :- i.WithReferrer(r); Ok(ItemHit(i'))
      case TimingHit(t) => Ok(TimingHit(t.WithReferrer(r)))
    }
  }

  /**
   * The documented promise of `withDefaultReferrer`: the given referrer is added
   * only to a hit that carries none, through the hit's `withReferrer`; a hit
   * with a referrer is passed on as it is.
   */
  function WithDefaultReferrer(h: Hit, referrer: GAReferrer): (h': Result<Hit>)
    ensures h.Referrer().Some? ==> h' == Ok(h)
    ensures h.Referrer().None? ==> (h'.Ok? <==> h.Valid())
    ensures h.Referrer().None? && !h.Valid() ==> h' == Err(h.InvalidError())
    ensures h'.Ok? ==> h'.value.Referrer().Some?
    ensures h.Referrer().None? && h'.Ok? ==>
              && h'.value.Valid() && h'.value.Referrer() == Some(referrer)
              && h'.value.WithReferrer(None) == Ok(h)
  {
    if h.Referrer().Some? then Ok(h) else h.WithReferrer(Some(referrer))
  }
}
