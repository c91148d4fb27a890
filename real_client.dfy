/**
 * `GAClientImpl`, the struct-based client: it builds one form per hit by
 * successive dictionary insertions and posts a copy of it, with `tid` added,
 * once per tracking id. Posting is modelled by appending the request to
 * `sent`; what goes over the network is not part of this model.
 */
module RealClient {
  import opened Common
  import opened FormExts
  import opened Hits
  import opened RealForms

  /** One request `post` would send: the URL and the fields of its `WWWForm`, in order. */
  datatype Request = Request(url: string, fields: seq<(string, string)>)

  /** The screen name every form reports until the first `AppView`. */
  const NOT_SET: string := "Not Set"

  /** The requests `post` sends for `form`: one per tracking id, in order, each the form plus its `tid`. */
  function Requests(url: string, trackingIds: seq<string>, form: Dict<string, string>): seq<Request> {
    seq(|trackingIds|, i requires 0 <= i < |trackingIds| => Request(url, form + [("tid", trackingIds[i])]))
  }

  /**
   * `post` sends one request per tracking id, each carrying the whole form,
   * in order, followed by its own `tid`; a form without `tid` therefore
   * reports exactly that id.
   */
  lemma RequestsCarryTrackingId(url: string, trackingIds: seq<string>, form: Dict<string, string>, i: int)
    requires 0 <= i < |trackingIds|
    ensures |Requests(url, trackingIds, form)| == |trackingIds|
    ensures Requests(url, trackingIds, form)[i].url == url
    ensures form <= Requests(url, trackingIds, form)[i].fields
    ensures "tid" !in Keys(form) ==> Lookup(Requests(url, trackingIds, form)[i].fields, "tid") == Some(trackingIds[i])
  {
    LookupAppend(form, [("tid", trackingIds[i])], "tid");
  }

  /** The checks the constructor makes before anything else. */
  function ConstructorCheck(appName: string, appVersion: string): (r: Outcome)
    ensures r.Pass? <==> |appName| <= 100 && |appVersion| <= 100
    ensures r.Fail? && |appName| > 100 ==> r.error == ArgumentTooLong("appName", 100)
    ensures r.Fail? && |appName| <= 100 ==> r.error == ArgumentTooLong("appVersion", 100)
  {
    match CheckLength(appName, "appName", 100)
    case Fail(e) => Fail(e)
    case Pass => CheckLength(appVersion, "appVersion", 100)
  }

  class GAClientImpl {
    const trackingIds: seq<string>
    const clientId: string
    const appName: string
    const appVersion: string
    const url: string
    /** `"{Screen.width}x{Screen.height}"`, read once at construction. */
    const screenResolution: string
    var screenName: Option<string>
    /** Every request posted so far, oldest first. */
    var sent: seq<Request>

    /** The fields `createForm` would produce now. */
    function Base(): Dict<string, string>
      reads this
    {
      BaseForm(clientId, appName, appVersion, screenResolution, screenName)
    }

    constructor (trackingIds: seq<string>, clientId: string, appName: string, appVersion: string,
                 url: string, screenResolution: string)
      requires ConstructorCheck(appName, appVersion) == Pass
      ensures this.trackingIds == trackingIds && this.clientId == clientId
      ensures this.appName == appName && this.appVersion == appVersion
      ensures this.url == url && this.screenResolution == screenResolution
      ensures screenName == Some(NOT_SET) && sent == []
    {
      this.trackingIds := trackingIds;
      this.clientId := clientId;
      this.appName := appName;
      this.appVersion := appVersion;
      this.url := url;
      this.screenResolution := screenResolution;
      screenName := Some(NOT_SET);
      sent := [];
    }

    /** `new GAClientImpl(...)`, which throws when `appName` or `appVersion` is over 100 characters. */
    static method Create(trackingIds: seq<string>, clientId: string, appName: string, appVersion: string,
                         url: string, screenResolution: string) returns (r: Result<GAClientImpl>)
      ensures r.Ok? <==> ConstructorCheck(appName, appVersion) == Pass
      ensures r.Err? ==> ConstructorCheck(appName, appVersion) == Fail(r.error)
      ensures r.Ok? ==> fresh(r.value) && r.value.screenName == Some(NOT_SET) && r.value.sent == []
      ensures r.Ok? ==> r.value.trackingIds == trackingIds && r.value.clientId == clientId
                        && r.value.appName == appName && r.value.appVersion == appVersion
                        && r.value.url == url && r.value.screenResolution == screenResolution
    {
      var check := ConstructorCheck(appName, appVersion);
      if check.Fail? {
        return Err(check.error);
      }
      var c := new GAClientImpl(trackingIds, clientId, appName, appVersion, url, screenResolution);
      return Ok(c);
    }

    /** `createForm`. */
    method CreateForm() returns (form: FormDictionary)
      ensures fresh(form) && form.Valid() && form.entries == Base()
    {
      form := new FormDictionary();
      var r := form.Add("v", "1");
      assert form.entries == [("v", "1")];
      r := form.Add("cid", clientId);
      assert form.entries == [("v", "1"), ("cid", clientId)];
      r := form.Add("an", appName);
      assert form.entries == [("v", "1"), ("cid", clientId), ("an", appName)];
      r := form.Add("av", appVersion);
      assert form.entries == [("v", "1"), ("cid", clientId), ("an", appName), ("av", appVersion)];
      r := form.Add("sr", screenResolution);
      ghost var fixed := [("v", "1"), ("cid", clientId), ("an", appName), ("av", appVersion), ("sr", screenResolution)];
      assert form.entries == fixed;
      r := FormExts.Add(form, "cd", screenName, 2048);
    }

    /** `addCustom`: one field per pair, in enumeration order; a repeated name throws. */
    static method AddCustom(googleName: string, form: FormDictionary, values: Option<Dict<Key, string>>) returns (r: Outcome)
      requires form.Valid()
      modifies form
      ensures form.Valid()
      ensures r == RunStep(old(form.entries), Custom(googleName, values)).ToOutcome()
      ensures r.Pass? ==> form.entries == RunStep(old(form.entries), Custom(googleName, values)).value
    {
      if values.None? {
        return Pass;
      }
      var vals := values.value;
      var i := 0;
      while i < |vals|
        invariant 0 <= i <= |vals| && form.Valid()
        invariant CustomList(googleName, old(form.entries), vals) == CustomList(googleName, form.entries, vals[i..])
      {
        assert vals[i..][1..] == vals[i + 1..];
        r := form.Add(googleName + NatToString(vals[i].0.index), vals[i].1);
        if r.Fail? {
          return;
        }
        i := i + 1;
      }
      r := Pass;
    }

    /** `addMetrics`: each value rendered in decimal under `cm<index>`. */
    static method AddMetrics(form: FormDictionary, values: MetricValues) returns (r: Outcome)
      requires form.Valid()
      modifies form
      ensures form.Valid()
      ensures r == RunStep(old(form.entries), Custom("cm", MetricStrings(values))).ToOutcome()
      ensures r.Pass? ==> form.entries == RunStep(old(form.entries), Custom("cm", MetricStrings(values))).value
    {
      r := AddCustom("cm", form, MetricStrings(values));
    }

    /** `addDimensions`: every value is checked against 150 before any `cd<index>` field is added. */
    static method AddDimensions(form: FormDictionary, values: DimensionValues) returns (r: Outcome)
      requires form.Valid()
      modifies form
      ensures form.Valid()
      ensures r == RunSteps(old(form.entries), [CheckDimensions(values), Custom("cd", values)]).ToOutcome()
      ensures r.Pass? ==> form.entries == RunSteps(old(form.entries), [CheckDimensions(values), Custom("cd", values)]).value
    {
      RunStepsPair(old(form.entries), CheckDimensions(values), Custom("cd", values));
      if values.None? {
        return Pass;
      }
      var vals := values.value;
      var i := 0;
      while i < |vals|
        invariant 0 <= i <= |vals| && form.entries == old(form.entries)
        invariant CheckDimensionList(vals) == CheckDimensionList(vals[i..])
      {
        assert vals[i..][1..] == vals[i + 1..];
        r := CheckLength(vals[i].1, DimensionArgName(vals[i].0), MAX_DIMENSION_LENGTH);
        if r.Fail? {
          return;
        }
        i := i + 1;
      }
      r := AddCustom("cd", form, values);
    }

    /** `addReferrer`: the referrer's present fields, each truncated to its limit. */
    static method AddReferrer(form: FormDictionary, referrer: GAReferrer) returns (r: Outcome)
      requires form.Valid()
      modifies form
      ensures form.Valid()
      ensures r == RunSteps(old(form.entries), AddReferrerSteps(referrer)).ToOutcome()
      ensures r.Pass? ==> form.entries == RunSteps(old(form.entries), AddReferrerSteps(referrer)).value
    {
      ghost var f0 := form.entries;
      ghost var rest := AddReferrerSteps(referrer);
      RunStepsCons(form.entries, rest);
      r := FormExts.Add(form, "dr", referrer.documentReferrer, 2048);
      if r.Fail? { return; }
      rest := rest[1..];
      RunStepsCons(form.entries, rest);
      r := FormExts.Add(form, "cn", referrer.campaignName, 100);
      if r.Fail? { return; }
      rest := rest[1..];
      RunStepsCons(form.entries, rest);
      r := FormExts.Add(form, "cs", referrer.campaignSource, 100);
      if r.Fail? { return; }
      rest := rest[1..];
      RunStepsCons(form.entries, rest);
      r := FormExts.Add(form, "cm", referrer.campaignMedium, 50);
      if r.Fail? { return; }
      rest := rest[1..];
      RunStepsCons(form.entries, rest);
      r := FormExts.Add(form, "ck", referrer.campaignKeyword, 500);
      if r.Fail? { return; }
      rest := rest[1..];
      RunStepsCons(form.entries, rest);
      r := FormExts.Add(form, "cc", referrer.campaignContent, 500);
      if r.Fail? { return; }
      rest := rest[1..];
      RunStepsCons(form.entries, rest);
      r := FormExts.Add(form, "ci", referrer.campaignId, 100);
      if r.Fail? { return; }
      rest := rest[1..];
      assert rest == [];
    }

    /**
     * `addMetrics`, `addDimensions` and, for a present referrer, `addReferrer`:
     * the statements every hit method ends its form with.
     */
    static method AddCustomFields(form: FormDictionary, metrics: MetricValues, dimensions: DimensionValues,
                                  referrer: Option<GAReferrer>) returns (r: Outcome)
      requires form.Valid()
      modifies form
      ensures form.Valid()
      ensures r == RunSteps(old(form.entries), CustomSteps(metrics, dimensions, referrer)).ToOutcome()
      ensures r.Pass? ==> form.entries == RunSteps(old(form.entries), CustomSteps(metrics, dimensions, referrer)).value
    {
      var dims := [CheckDimensions(dimensions), Custom("cd", dimensions)];
      assert CustomSteps(metrics, dimensions, referrer) == [Custom("cm", MetricStrings(metrics))] + (dims + ReferrerSteps(referrer));
      RunStepsAppend(old(form.entries), [Custom("cm", MetricStrings(metrics))], dims + ReferrerSteps(referrer));
      r := AddMetrics(form, metrics);
      if r.Fail? { return; }
      ghost var f1 := form.entries;
      RunStepsAppend(f1, dims, ReferrerSteps(referrer));
      r := AddDimensions(form, dimensions);
      if r.Fail? { return; }
      if referrer.Some? {
        r := AddReferrer(form, referrer.value);
      }
    }

    /** `foreach (var kv in form) wwwForm.AddField(kv.Key, kv.Value)` on a new `WWWForm`. */
    static method CopyToWwwForm(form: Dict<string, string>) returns (w: WwwForm)
      ensures fresh(w) && w.fields == form
    {
      w := new WwwForm();
      for j := 0 to |form|
        invariant w.fields == form[..j]
      {
        w.AddField(form[j].0, form[j].1);
      }
      assert form[..|form|] == form;
    }

    /** `post`: one request per tracking id, in collection order. */
    method Post(form: Dict<string, string>)
      modifies this
      ensures screenName == old(screenName)
      ensures sent == old(sent) + Requests(url, trackingIds, form)
    {
      for i := 0 to |trackingIds|
        invariant screenName == old(screenName)
        invariant sent == old(sent) + Requests(url, trackingIds[..i], form)
      {
        var wwwForm := CopyToWwwForm(form);
        wwwForm.AddField("tid", trackingIds[i]);
        sent := sent + [Request(url, wwwForm.fields)];
        assert Requests(url, trackingIds[..i + 1], form) == Requests(url, trackingIds[..i], form) + [Request(url, wwwForm.fields)];
      }
      assert trackingIds[..|trackingIds|] == trackingIds;
    }

    /** The statements of `Event` that fill in the event's own fields. */
    static method AddEventHead(form: FormDictionary, d: GAEvent) returns (r: Outcome)
      requires form.Valid()
      modifies form
      ensures form.Valid()
      ensures r == RunSteps(old(form.entries), EventHead(d)).ToOutcome()
      ensures r.Pass? ==> form.entries == RunSteps(old(form.entries), EventHead(d)).value
    {
      ghost var rest := EventHead(d);
      RunStepsCons(form.entries, rest);
      r := form.Add("t", "event");
      if r.Fail? { return; }
      rest := rest[1..];
      RunStepsCons(form.entries, rest);
      r := FormExts.Add(form, "ec", d.category, MAX_CATEGORY_LENGTH);
      if r.Fail? { return; }
      rest := rest[1..];
      RunStepsCons(form.entries, rest);
      r := FormExts.Add(form, "ea", d.action, MAX_ACTION_LENGTH);
      if r.Fail? { return; }
      rest := rest[1..];
      RunStepsCons(form.entries, rest);
      r := FormExts.Add(form, "el", d.labelText, MAX_LABEL_LENGTH);
      if r.Fail? { return; }
      rest := rest[1..];
      RunStepsCons(form.entries, rest);
      if d.value.Some? {
        r := FormExts.Add(form, "ev", Some(IntToString(d.value.value)), -1);
        if r.Fail? { return; }
      }
      rest := rest[1..];
      assert rest == [];
    }

    /** `Event`: posts the event's form, or throws before posting anything. */
    method Event(d: GAEvent) returns (r: Outcome)
      modifies this
      ensures screenName == old(screenName)
      ensures r == RunSteps(old(Base()), EventSteps(d)).ToOutcome()
      ensures sent == old(sent) + if r.Pass? then Requests(url, trackingIds, RunSteps(old(Base()), EventSteps(d)).value) else []
    {
      var form := CreateForm();
      RunStepsAppend(form.entries, EventHead(d), CustomSteps(d.metricValues, d.dimensionValues, d.referrer));
      r := AddEventHead(form, d);
      if r.Fail? { return; }
      r := AddCustomFields(form, d.metricValues, d.dimensionValues, d.referrer);
      if r.Fail? { return; }
      Post(form.entries);
    }

    /** `AppView`: the screen name becomes the hit's, then the form is posted. */
    method AppView(d: GAAppView) returns (r: Outcome)
      modifies this
      ensures screenName == d.screenName
      ensures r == RunSteps(Base(), AppViewSteps(d)).ToOutcome()
      ensures sent == old(sent) + if r.Pass? then Requests(url, trackingIds, RunSteps(Base(), AppViewSteps(d)).value) else []
    {
      screenName := d.screenName;
      var form := CreateForm();
      RunStepsAppend(form.entries, [Put("t", "screenview")], CustomSteps(d.metricValues, d.dimensionValues, d.referrer));
      RunStepsCons(form.entries, [Put("t", "screenview")]);
      r := form.Add("t", "screenview");
      if r.Fail? { return; }
      r := AddCustomFields(form, d.metricValues, d.dimensionValues, d.referrer);
      if r.Fail? { return; }
      Post(form.entries);
    }

    /** The statements of `Item` that fill in the item's own fields. */
    static method AddItemHead(form: FormDictionary, d: GAItem) returns (r: Outcome)
      requires form.Valid()
      modifies form
      ensures form.Valid()
      ensures r == RunSteps(old(form.entries), ItemHead(d)).ToOutcome()
      ensures r.Pass? ==> form.entries == RunSteps(old(form.entries), ItemHead(d)).value
    {
      ghost var rest := ItemHead(d);
      RunStepsCons(form.entries, rest);
      r := FormExts.Add(form, "in", d.name, 500);
      if r.Fail? { return; }
      rest := rest[1..];
      RunStepsCons(form.entries, rest);
      if d.price.Some? {
        r := FormExts.Add(form, "ip", d.price, -1);
        if r.Fail? { return; }
      }
      rest := rest[1..];
      RunStepsCons(form.entries, rest);
      if d.quantity.Some? {
        r := FormExts.Add(form, "iq", Some(IntToString(d.quantity.value)), -1);
        if r.Fail? { return; }
      }
      rest := rest[1..];
      RunStepsCons(form.entries, rest);
      r := FormExts.Add(form, "ic", d.code, 500);
      if r.Fail? { return; }
      rest := rest[1..];
      RunStepsCons(form.entries, rest);
      r := FormExts.Add(form, "iv", d.category, 500);
      if r.Fail? { return; }
      rest := rest[1..];
      RunStepsCons(form.entries, rest);
      r := FormExts.Add(form, "cu", d.currencyCode, 10);
      if r.Fail? { return; }
      rest := rest[1..];
      assert rest == [];
    }

    /** `Item`: posts the item's form, or throws before posting anything. */
    method Item(d: GAItem) returns (r: Outcome)
      modifies this
      ensures screenName == old(screenName)
      ensures r == RunSteps(old(Base()), ItemSteps(d)).ToOutcome()
      ensures sent == old(sent) + if r.Pass? then Requests(url, trackingIds, RunSteps(old(Base()), ItemSteps(d)).value) else []
    {
      var form := CreateForm();
      RunStepsAppend(form.entries, ItemHead(d), CustomSteps(d.metricValues, d.dimensionValues, d.referrer));
      r := AddItemHead(form, d);
      if r.Fail? { return; }
      r := AddCustomFields(form, d.metricValues, d.dimensionValues, d.referrer);
      if r.Fail? { return; }
      Post(form.entries);
    }

    /** The statements of `Timing` that fill in the timing's own fields. */
    static method AddTimingHead(form: FormDictionary, d: GATiming) returns (r: Outcome)
      requires form.Valid()
      modifies form
      ensures form.Valid()
      ensures r == RunSteps(old(form.entries), TimingHead(d)).ToOutcome()
      ensures r.Pass? ==> form.entries == RunSteps(old(form.entries), TimingHead(d)).value
    {
      ghost var rest := TimingHead(d);
      RunStepsCons(form.entries, rest);
      r := form.Add("t", "timing");
      if r.Fail? { return; }
      rest := rest[1..];
      RunStepsCons(form.entries, rest);
      r := FormExts.Add(form, "utc", d.category, 150);
      if r.Fail? { return; }
      rest := rest[1..];
      RunStepsCons(form.entries, rest);
      r := FormExts.Add(form, "utv", d.name, 500);
      if r.Fail? { return; }
      rest := rest[1..];
      RunStepsCons(form.entries, rest);
      r := FormExts.Add(form, "utt", Some(IntToString(d.timeMs)), -1);
      if r.Fail? { return; }
      rest := rest[1..];
      RunStepsCons(form.entries, rest);
      if d.labelText.Some? {
        r := FormExts.Add(form, "utl", d.labelText, 500);
        if r.Fail? { return; }
      }
      rest := rest[1..];
      assert rest == [];
    }

    /** `Timing`: posts the timing's form, or throws before posting anything. */
    method Timing(d: GATiming) returns (r: Outcome)
      modifies this
      ensures screenName == old(screenName)
      ensures r == RunSteps(old(Base()), TimingSteps(d)).ToOutcome()
      ensures sent == old(sent) + if r.Pass? then Requests(url, trackingIds, RunSteps(old(Base()), TimingSteps(d)).value) else []
    {
      var form := CreateForm();
      RunStepsAppend(form.entries, TimingHead(d), CustomSteps(d.metricValues, d.dimensionValues, d.referrer));
      r := AddTimingHead(form, d);
      if r.Fail? { return; }
      r := AddCustomFields(form, d.metricValues, d.dimensionValues, d.referrer);
      if r.Fail? { return; }
      Post(form.entries);
    }
  }
}
