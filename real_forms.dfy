/**
 * The fields `GAClientImpl` writes for each hit, described as the sequence of
 * dictionary insertions its methods perform, together with what that sequence
 * amounts to: the form is the base fields followed by exactly the listed
 * entries, and building it fails exactly when a dimension value is too long or
 * two entries share a field name.
 */
module RealForms {
  import opened Common
  import opened FormExts
  import opened Hits

  /** The longest dimension value `addDimensions` lets through. */
  const MAX_DIMENSION_LENGTH: int := 150

  /** One insertion (or check) the client performs while building a form. */
  datatype Step =
    | Put(key: string, text: string)                               // form.Add(key, value)
    | Field(key: string, value: Option<string>, maxLength: int)    // form.add(key, value, maxLength)
    | Custom(googleName: string, values: Option<Dict<Key, string>>) // addCustom(googleName, form, values)
    | CheckDimensions(dimensions: DimensionValues)                 // the length check of addDimensions

  // ---------------------------------------------------------------------
  // Running the steps, as the client does.

  function CustomList(googleName: string, f: Dict<string, string>, vals: Dict<Key, string>): Result<Dict<string, string>>
    decreases |vals|
  {
    if |vals| == 0 then Ok(f)
    else
      var f' :- DictAdd(f, googleName + NatToString(vals[0].0.index), vals[0].1);
      CustomList(googleName, f', vals[1..])
  }

  function DimensionArgName(k: Key): string {
    "dimension " + k.name + " value"
  }

  /** The first dimension value over the limit, if any, throws. */
  function CheckDimensionList(vals: Dict<Key, string>): Outcome
    decreases |vals|
  {
    if |vals| == 0 then Pass
    else match CheckLength(vals[0].1, DimensionArgName(vals[0].0), MAX_DIMENSION_LENGTH)
      case Fail(e) => Fail(e)
      case Pass => CheckDimensionList(vals[1..])
  }

  function RunStep(f: Dict<string, string>, s: Step): Result<Dict<string, string>> {
    match s
    case Put(k, v) => DictAdd(f, k, v)
    case Field(k, v, m) => AddSpec(f, k, v, m)
    case Custom(g, vs) => if vs.None? then Ok(f) else CustomList(g, f, vs.value)
    case CheckDimensions(ds) =>
      if ds.None? then Ok(f)
      else match CheckDimensionList(ds.value)
        case Fail(e) => Err(e)
        case Pass => Ok(f)
  }

  function RunSteps(f: Dict<string, string>, steps: seq<Step>): Result<Dict<string, string>>
    decreases |steps|
  {
    if |steps| == 0 then Ok(f)
    else
      var f' :- RunStep(f, steps[0]);
      RunSteps(f', steps[1..])
  }

  // ---------------------------------------------------------------------
  // The steps of each hit, in the order the client performs them.

  /** `uint.ToString()` of every metric value. */
  function MetricStrings(values: MetricValues): Option<Dict<Key, string>> {
    if values.None? then None
    else Some(seq(|values.value|, i requires 0 <= i < |values.value| => (values.value[i].0, NatToString(values.value[i].1))))
  }

  function IntText(n: Option<int32>): Option<string> {
    if n.Some? then Some(IntToString(n.value)) else None
  }

  /** `addReferrer`. */
  function AddReferrerSteps(r: GAReferrer): seq<Step> {
    [Field("dr", r.documentReferrer, 2048), Field("cn", r.campaignName, 100),
     Field("cs", r.campaignSource, 100), Field("cm", r.campaignMedium, 50),
     Field("ck", r.campaignKeyword, 500), Field("cc", r.campaignContent, 500),
     Field("ci", r.campaignId, 100)]
  }

  /** `foreach (var referrer in d.referrer) addReferrer(form, referrer)`. */
  function ReferrerSteps(referrer: Option<GAReferrer>): seq<Step> {
    if referrer.None? then [] else AddReferrerSteps(referrer.value)
  }

  /** `addMetrics`, `addDimensions` and the referrer: what every hit ends with. */
  function CustomSteps(metrics: MetricValues, dimensions: DimensionValues, referrer: Option<GAReferrer>): seq<Step> {
    [Custom("cm", MetricStrings(metrics)), CheckDimensions(dimensions), Custom("cd", dimensions)]
    + ReferrerSteps(referrer)
  }

  function EventHead(d: GAEvent): seq<Step> {
    [Put("t", "event"),
     Field("ec", d.category, MAX_CATEGORY_LENGTH),
     Field("ea", d.action, MAX_ACTION_LENGTH),
     Field("el", d.labelText, MAX_LABEL_LENGTH),
     Field("ev", IntText(d.value), -1)]
  }

  function EventSteps(d: GAEvent): seq<Step> {
    EventHead(d) + CustomSteps(d.metricValues, d.dimensionValues, d.referrer)
  }

  function AppViewSteps(d: GAAppView): seq<Step> {
    [Put("t", "screenview")] + CustomSteps(d.metricValues, d.dimensionValues, d.referrer)
  }

  function ItemHead(d: GAItem): seq<Step> {
    [Field("in", d.name, 500),
     Field("ip", d.price, -1),
     Field("iq", IntText(d.quantity), -1),
     Field("ic", d.code, 500),
     Field("iv", d.category, 500),
     Field("cu", d.currencyCode, 10)]
  }

  function ItemSteps(d: GAItem): seq<Step> {
    ItemHead(d) + CustomSteps(d.metricValues, d.dimensionValues, d.referrer)
  }

  function TimingHead(d: GATiming): seq<Step> {
    [Put("t", "timing"),
     Field("utc", d.category, 150),
     Field("utv", d.name, 500),
     Field("utt", Some(IntToString(d.timeMs)), -1),
     Field("utl", d.labelText, 500)]
  }

  function TimingSteps(d: GATiming): seq<Step> {
    TimingHead(d) + CustomSteps(d.metricValues, d.dimensionValues, d.referrer)
  }

  /** The fields `createForm` starts every hit with; `cd` is the current screen name. */
  function BaseForm(clientId: string, appName: string, appVersion: string, screenResolution: string,
                    screenName: Option<string>): Dict<string, string>
  {
    [("v", "1"), ("cid", clientId), ("an", appName), ("av", appVersion), ("sr", screenResolution)]
    + Opt("cd", screenName, 2048)
  }

  // ---------------------------------------------------------------------
  // What the steps amount to.

  /** One optional field as `add` writes it: nothing when null, the truncated value otherwise. */
  function Opt(key: string, value: Option<string>, maxLength: int): Dict<string, string> {
    if value.Some? then [(key, FixLength(value.value, maxLength))] else []
  }

  /** The fields `addCustom` writes: `googleName` followed by the key's index, and the value. */
  function CustomEntries(googleName: string, values: Option<Dict<Key, string>>): Dict<string, string> {
    if values.None? then []
    else seq(|values.value|, i requires 0 <= i < |values.value| =>
               (googleName + NatToString(values.value[i].0.index), values.value[i].1))
  }

  function Entries(s: Step): Dict<string, string> {
    match s
    case Put(k, v) => [(k, v)]
    case Field(k, v, m) => Opt(k, v, m)
    case Custom(g, vs) => CustomEntries(g, vs)
    case CheckDimensions(_) => []
  }

  function StepsEntries(steps: seq<Step>): Dict<string, string>
    decreases |steps|
  {
    if |steps| == 0 then [] else Entries(steps[0]) + StepsEntries(steps[1..])
  }

  /** Every dimension value is within the limit (a null map has none). */
  predicate DimensionsFit(dimensions: DimensionValues) {
    dimensions.None? || forall i :: 0 <= i < |dimensions.value| ==> |dimensions.value[i].1| <= MAX_DIMENSION_LENGTH
  }

  predicate StepFits(s: Step) {
    s.CheckDimensions? ==> DimensionsFit(s.dimensions)
  }

  predicate StepsFit(steps: seq<Step>) {
    forall i :: 0 <= i < |steps| ==> StepFits(steps[i])
  }

  /** `r` is `f` extended by `e`, and it is there exactly when `ok` holds and no name repeats. */
  ghost predicate Extends(r: Result<Dict<string, string>>, ok: bool, f: Dict<string, string>, e: Dict<string, string>) {
    && (r.Ok? <==> ok && DistinctKeys(f + e))
    && (r.Ok? ==> r.value == f + e)
  }

  lemma ConcatAssoc<T>(a: seq<T>, b: seq<T>, c: seq<T>)
    ensures a + (b + c) == (a + b) + c
  {
  }

  lemma PrefixDistinct(f: Dict<string, string>, e1: Dict<string, string>, e2: Dict<string, string>)
    requires DistinctKeys(f + (e1 + e2))
    ensures DistinctKeys(f + e1)
  {
    assert f + (e1 + e2) == (f + e1) + e2;
    DistinctKeysAppend(f + e1, e2);
  }

  lemma {:induction false} CustomListExtends(g: string, f: Dict<string, string>, vals: Dict<Key, string>)
    requires DistinctKeys(f)
    ensures Extends(CustomList(g, f, vals), true, f, CustomEntries(g, Some(vals)))
    decreases |vals|
  {
    var e := CustomEntries(g, Some(vals));
    if |vals| != 0 {
      var first := (g + NatToString(vals[0].0.index), vals[0].1);
      var rest := CustomEntries(g, Some(vals[1..]));
      assert e == [first] + rest;
      assert f + e == (f + [first]) + rest;
      DistinctKeysAppend(f, [first]);
      DistinctKeysAppend(f + [first], rest);
      DictAddSpec(f, first.0, first.1);
      if first.0 !in Keys(f) {
        CustomListExtends(g, f + [first], vals[1..]);
      }
    }
  }

  lemma {:induction false} CheckDimensionListFits(vals: Dict<Key, string>)
    ensures CheckDimensionList(vals).Pass? <==> DimensionsFit(Some(vals))
  {
    if |vals| != 0 {
      CheckDimensionListFits(vals[1..]);
      assert forall i :: 1 <= i < |vals| ==> vals[i] == vals[1..][i - 1];
    }
  }

  lemma StepExtends(f: Dict<string, string>, s: Step)
    requires DistinctKeys(f)
    ensures Extends(RunStep(f, s), StepFits(s), f, Entries(s))
  {
    match s
    case Put(k, v) => DistinctKeysAppend(f, [(k, v)]); DictAddSpec(f, k, v);
    case Field(k, v, m) =>
      DistinctKeysAppend(f, Opt(k, v, m));
      if v.Some? { DictAddSpec(f, k, FixLength(v.value, m)); }
    case Custom(g, vs) => if vs.Some? { CustomListExtends(g, f, vs.value); }
    case CheckDimensions(ds) => if ds.Some? { CheckDimensionListFits(ds.value); }
  }

  /** The entries and the fit of a step list, split at its head. */
  lemma StepsSplit(steps: seq<Step>)
    requires |steps| != 0
    ensures StepsEntries(steps) == Entries(steps[0]) + StepsEntries(steps[1..])
    ensures StepsFit(steps) <==> StepFits(steps[0]) && StepsFit(steps[1..])
  {
    assert forall i :: 1 <= i < |steps| ==> steps[i] == steps[1..][i - 1];
  }

  /**
   * Running a list of steps on a form with distinct names gives the form
   * followed by the entries of the steps, in order, and fails exactly when a
   * check fails or a field name repeats.
   */
  lemma {:induction false} RunStepsExtends(f: Dict<string, string>, steps: seq<Step>)
    requires DistinctKeys(f)
    ensures Extends(RunSteps(f, steps), StepsFit(steps), f, StepsEntries(steps))
    decreases |steps|
  {
    if |steps| != 0 {
      var e1, e2 := Entries(steps[0]), StepsEntries(steps[1..]);
      var r1 := RunStep(f, steps[0]);
      StepsSplit(steps);
      StepExtends(f, steps[0]);
      ConcatAssoc(f, e1, e2);
      if r1.Ok? {
        assert RunSteps(f, steps) == RunSteps(f + e1, steps[1..]);
        RunStepsExtends(f + e1, steps[1..]);
      } else {
        assert RunSteps(f, steps) == Err(r1.error);
        if DistinctKeys(f + (e1 + e2)) {
          PrefixDistinct(f, e1, e2);
        }
      }
    }
  }

  /** Running `a + b` is running `a`, then `b` on its result; a failure in `a` skips `b`. */
  lemma {:induction false} RunStepsAppend(f: Dict<string, string>, a: seq<Step>, b: seq<Step>)
    ensures RunSteps(f, a + b) == (var r := RunSteps(f, a); if r.Ok? then RunSteps(r.value, b) else Err(r.error))
    decreases |a|
  {
    if |a| == 0 {
      assert a + b == b;
    } else {
      assert (a + b)[0] == a[0];
      assert (a + b)[1..] == a[1..] + b;
      var r0 := RunStep(f, a[0]);
      if r0.Ok? {
        RunStepsAppend(r0.value, a[1..], b);
      }
    }
  }

  lemma {:induction false} RunStepsCons(f: Dict<string, string>, steps: seq<Step>)
    requires |steps| != 0
    ensures RunSteps(f, steps) == (var r := RunStep(f, steps[0]); if r.Ok? then RunSteps(r.value, steps[1..]) else Err(r.error))
  {
  }

  lemma RunStepsPair(f: Dict<string, string>, s1: Step, s2: Step)
    ensures RunSteps(f, [s1, s2]) == (var r := RunStep(f, s1); if r.Ok? then RunStep(r.value, s2) else Err(r.error))
  {
    var steps := [s1, s2];
    RunStepsCons(f, steps);
    var r := RunStep(f, s1);
    if r.Ok? {
      assert steps[1..] == [s2];
      RunStepsCons(r.value, [s2]);
      assert [s2][1..] == [];
    }
  }

  lemma StepsEntriesAppend(a: seq<Step>, b: seq<Step>)
    ensures StepsEntries(a + b) == StepsEntries(a) + StepsEntries(b)
    ensures StepsFit(a + b) <==> StepsFit(a) && StepsFit(b)
  {
    if |a| != 0 {
      assert (a + b)[1..] == a[1..] + b;
      StepsEntriesAppend(a[1..], b);
    } else {
      assert a + b == b;
    }
    assert forall i :: 0 <= i < |a| ==> (a + b)[i] == a[i];
    assert forall i :: 0 <= i < |b| ==> (a + b)[|a| + i] == b[i];
  }

  // ---------------------------------------------------------------------
  // The fields of each hit, written out.

  function AddReferrerFields(r: GAReferrer): Dict<string, string> {
    Opt("dr", r.documentReferrer, 2048) + Opt("cn", r.campaignName, 100) + Opt("cs", r.campaignSource, 100)
    + Opt("cm", r.campaignMedium, 50) + Opt("ck", r.campaignKeyword, 500) + Opt("cc", r.campaignContent, 500)
    + Opt("ci", r.campaignId, 100)
  }

  function ReferrerFields(referrer: Option<GAReferrer>): Dict<string, string> {
    if referrer.None? then [] else AddReferrerFields(referrer.value)
  }

  function CustomFields(metrics: MetricValues, dimensions: DimensionValues, referrer: Option<GAReferrer>): Dict<string, string> {
    CustomEntries("cm", MetricStrings(metrics)) + CustomEntries("cd", dimensions) + ReferrerFields(referrer)
  }

  function EventHeadFields(d: GAEvent): Dict<string, string> {
    [("t", "event")] + Opt("ec", d.category, MAX_CATEGORY_LENGTH) + Opt("ea", d.action, MAX_ACTION_LENGTH)
    + Opt("el", d.labelText, MAX_LABEL_LENGTH) + Opt("ev", IntText(d.value), -1)
  }

  function ItemHeadFields(d: GAItem): Dict<string, string> {
    Opt("in", d.name, 500) + Opt("ip", d.price, -1) + Opt("iq", IntText(d.quantity), -1)
    + Opt("ic", d.code, 500) + Opt("iv", d.category, 500) + Opt("cu", d.currencyCode, 10)
  }

  function TimingHeadFields(d: GATiming): Dict<string, string> {
    [("t", "timing")] + Opt("utc", d.category, 150) + Opt("utv", d.name, 500)
    + [("utt", IntToString(d.timeMs))] + Opt("utl", d.labelText, 500)
  }

  lemma AddReferrerStepsFields(r: GAReferrer)
    ensures StepsEntries(AddReferrerSteps(r)) == AddReferrerFields(r)
    ensures StepsFit(AddReferrerSteps(r))
  {
    var h := AddReferrerSteps(r);
    var o1, o2, o3, o4 := Opt("dr", r.documentReferrer, 2048), Opt("cn", r.campaignName, 100),
                          Opt("cs", r.campaignSource, 100), Opt("cm", r.campaignMedium, 50);
    var o5, o6, o7 := Opt("ck", r.campaignKeyword, 500), Opt("cc", r.campaignContent, 500), Opt("ci", r.campaignId, 100);
    StepsSplit(h[6..]);
    StepsSplit(h[5..]); assert h[5..][1..] == h[6..];
    StepsSplit(h[4..]); assert h[4..][1..] == h[5..];
    assert StepsEntries(h[4..]) == o5 + (o6 + o7);
    StepsSplit(h[3..]); assert h[3..][1..] == h[4..];
    StepsSplit(h[2..]); assert h[2..][1..] == h[3..];
    StepsSplit(h[1..]); assert h[1..][1..] == h[2..];
    StepsSplit(h);
    assert StepsEntries(h) == o1 + (o2 + (o3 + (o4 + StepsEntries(h[4..]))));
    ConcatAssoc(o1, o2, o3 + (o4 + StepsEntries(h[4..])));
    ConcatAssoc(o1 + o2, o3, o4 + StepsEntries(h[4..]));
    ConcatAssoc(o1 + o2 + o3, o4, StepsEntries(h[4..]));
    var x := o1 + o2 + o3 + o4;
    ConcatAssoc(x, o5, o6 + o7);
    ConcatAssoc(x + o5, o6, o7);
  }

  lemma CustomValueSteps(metrics: MetricValues, dimensions: DimensionValues)
    ensures var c := [Custom("cm", MetricStrings(metrics)), CheckDimensions(dimensions), Custom("cd", dimensions)];
      && StepsEntries(c) == CustomEntries("cm", MetricStrings(metrics)) + CustomEntries("cd", dimensions)
      && (StepsFit(c) <==> DimensionsFit(dimensions))
  {
    var c := [Custom("cm", MetricStrings(metrics)), CheckDimensions(dimensions), Custom("cd", dimensions)];
    var e1, e3 := CustomEntries("cm", MetricStrings(metrics)), CustomEntries("cd", dimensions);
    StepsSplit(c[2..]); assert c[2..][1..] == [];
    assert StepsEntries(c[2..]) == e3 + [] == e3;
    StepsSplit(c[1..]); assert c[1..][1..] == c[2..];
    assert StepsEntries(c[1..]) == [] + e3 == e3;
    StepsSplit(c);
  }

  lemma CustomStepsFields(metrics: MetricValues, dimensions: DimensionValues, referrer: Option<GAReferrer>)
    ensures StepsEntries(CustomSteps(metrics, dimensions, referrer)) == CustomFields(metrics, dimensions, referrer)
    ensures StepsFit(CustomSteps(metrics, dimensions, referrer)) <==> DimensionsFit(dimensions)
  {
    var c := [Custom("cm", MetricStrings(metrics)), CheckDimensions(dimensions), Custom("cd", dimensions)];
    CustomValueSteps(metrics, dimensions);
    StepsEntriesAppend(c, ReferrerSteps(referrer));
    if referrer.Some? {
      AddReferrerStepsFields(referrer.value);
    }
  }

  /** Five steps in a row produce the entries of each, in order. */
  lemma FiveSteps(s1: Step, s2: Step, s3: Step, s4: Step, s5: Step)
    ensures StepsEntries([s1, s2, s3, s4, s5]) == Entries(s1) + Entries(s2) + Entries(s3) + Entries(s4) + Entries(s5)
    ensures StepsFit([s1, s2, s3, s4, s5]) <==> StepFits(s1) && StepFits(s2) && StepFits(s3) && StepFits(s4) && StepFits(s5)
  {
    var h := [s1, s2, s3, s4, s5];
    var e1, e2, e3, e4, e5 := Entries(s1), Entries(s2), Entries(s3), Entries(s4), Entries(s5);
    StepsSplit(h[4..]); assert h[4..][1..] == [];
    StepsSplit(h[3..]); assert h[3..][1..] == h[4..];
    StepsSplit(h[2..]); assert h[2..][1..] == h[3..];
    StepsSplit(h[1..]); assert h[1..][1..] == h[2..];
    StepsSplit(h);
    assert StepsEntries(h) == e1 + (e2 + (e3 + (e4 + e5)));
    ConcatAssoc(e1, e2, e3 + (e4 + e5));
    ConcatAssoc(e1 + e2, e3, e4 + e5);
    ConcatAssoc(e1 + e2 + e3, e4, e5);
  }

  /** Six steps in a row produce the entries of each, in order. */
  lemma SixSteps(s1: Step, s2: Step, s3: Step, s4: Step, s5: Step, s6: Step)
    ensures StepsEntries([s1, s2, s3, s4, s5, s6])
         == Entries(s1) + Entries(s2) + Entries(s3) + Entries(s4) + Entries(s5) + Entries(s6)
    ensures StepsFit([s1, s2, s3, s4, s5, s6])
        <==> StepFits(s1) && StepFits(s2) && StepFits(s3) && StepFits(s4) && StepFits(s5) && StepFits(s6)
  {
    var h := [s1, s2, s3, s4, s5, s6];
    assert h[1..] == [s2, s3, s4, s5, s6];
    FiveSteps(s2, s3, s4, s5, s6);
    StepsSplit(h);
    var e1, e2, e3, e4, e5, e6 := Entries(s1), Entries(s2), Entries(s3), Entries(s4), Entries(s5), Entries(s6);
    ConcatAssoc(e1, e2, e3);
    ConcatAssoc(e1, e2 + e3, e4);
    ConcatAssoc(e1, e2 + e3 + e4, e5);
    ConcatAssoc(e1, e2 + e3 + e4 + e5, e6);
  }

  lemma EventHeadSteps(d: GAEvent)
    ensures StepsEntries(EventHead(d)) == EventHeadFields(d)
    ensures StepsFit(EventHead(d))
  {
    FiveSteps(Put("t", "event"), Field("ec", d.category, MAX_CATEGORY_LENGTH), Field("ea", d.action, MAX_ACTION_LENGTH),
              Field("el", d.labelText, MAX_LABEL_LENGTH), Field("ev", IntText(d.value), -1));
  }

  lemma ItemHeadSteps(d: GAItem)
    ensures StepsEntries(ItemHead(d)) == ItemHeadFields(d)
    ensures StepsFit(ItemHead(d))
  {
    SixSteps(Field("in", d.name, 500), Field("ip", d.price, -1), Field("iq", IntText(d.quantity), -1),
             Field("ic", d.code, 500), Field("iv", d.category, 500), Field("cu", d.currencyCode, 10));
  }

  lemma TimingHeadSteps(d: GATiming)
    ensures StepsEntries(TimingHead(d)) == TimingHeadFields(d)
    ensures StepsFit(TimingHead(d))
  {
    FiveSteps(Put("t", "timing"), Field("utc", d.category, 150), Field("utv", d.name, 500),
              Field("utt", Some(IntToString(d.timeMs)), -1), Field("utl", d.labelText, 500));
  }

  // ---------------------------------------------------------------------
  // When the names of a form are distinct.

  /** A name `addCustom` can produce: `cm` or `cd` followed by a digit. */
  predicate IsCustomName(s: string) {
    |s| >= 3 && s[0] == 'c' && (s[1] == 'm' || s[1] == 'd') && IsDigit(s[2])
  }

  /** No two keys of a custom-value map share an index (a null map has no keys). */
  predicate IndicesDistinct<V>(values: Option<Dict<Key, V>>) {
    values.None? || forall i, j :: 0 <= i < j < |values.value| ==> values.value[i].0.index != values.value[j].0.index
  }

  lemma MetricStringsIndices(metrics: MetricValues)
    ensures IndicesDistinct(MetricStrings(metrics)) <==> IndicesDistinct(metrics)
  {
    if metrics.Some? {
      assert forall i :: 0 <= i < |metrics.value| ==> MetricStrings(metrics).value[i].0 == metrics.value[i].0;
    }
  }

  /**
   * The names `addCustom` writes all belong to its family, and they are
   * distinct exactly when the keys' indices are.
   */
  lemma CustomEntriesNames(g: string, values: Option<Dict<Key, string>>)
    requires g == "cm" || g == "cd"
    ensures forall k :: k in Keys(CustomEntries(g, values)) ==> IsCustomName(k) && k[1] == g[1]
    ensures DistinctKeys(CustomEntries(g, values)) <==> IndicesDistinct(values)
  {
    var e := CustomEntries(g, values);
    if values.Some? {
      var vs := values.value;
      forall i | 0 <= i < |e| ensures e[i].0 == g + NatToString(vs[i].0.index) && IsCustomName(e[i].0) {
        var n := NatToString(vs[i].0.index);
        assert (g + n)[2] == n[0];
      }
      forall i, j | 0 <= i < |e| && 0 <= j < |e|
        ensures e[i].0 == e[j].0 <==> vs[i].0.index == vs[j].0.index
      {
        var a, b := NatToString(vs[i].0.index), NatToString(vs[j].0.index);
        assert (g + a)[2..] == a && (g + b)[2..] == b;
        NatToStringInjective(vs[i].0.index, vs[j].0.index);
      }
    }
  }

  /**
   * A form made of plain names, then the `cm` family, then the `cd` family,
   * then plain names again has distinct names exactly when each part does.
   */
  lemma Partition(p1: Dict<string, string>, cm: Dict<string, string>, cd: Dict<string, string>, p2: Dict<string, string>)
    requires forall k :: k in Keys(p1) ==> !IsCustomName(k)
    requires forall k :: k in Keys(p2) ==> !IsCustomName(k)
    requires forall k :: k in Keys(cm) ==> IsCustomName(k) && k[1] == 'm'
    requires forall k :: k in Keys(cd) ==> IsCustomName(k) && k[1] == 'd'
    ensures DistinctKeys(p1 + cm + cd + p2) <==> DistinctKeys(p1 + p2) && DistinctKeys(cm) && DistinctKeys(cd)
  {
    KeysAppend(p1, cm);
    KeysAppend(p1 + cm, cd);
    DistinctKeysAppend(p1, cm);
    DistinctKeysAppend(p1 + cm, cd);
    DistinctKeysAppend(p1 + cm + cd, p2);
    DistinctKeysAppend(p1, p2);
  }

  /** Distinct names, all drawn from `names`. */
  ghost predicate Plain(d: Dict<string, string>, names: set<string>) {
    DistinctKeys(d) && Keys(d) <= names
  }

  lemma Grow(a: Dict<string, string>, b: Dict<string, string>, s: set<string>, t: set<string>)
    requires Plain(a, s) && Plain(b, t) && s !! t
    ensures Plain(a + b, s + t)
  {
    DistinctKeysAppend(a, b);
    KeysAppend(a, b);
  }

  lemma OptPlain(key: string, value: Option<string>, maxLength: int)
    ensures Plain(Opt(key, value, maxLength), {key})
  {
  }

  const BASE_NAMES: set<string> := {"v", "cid", "an", "av", "sr", "cd"}
  const REFERRER_NAMES: set<string> := {"dr", "cn", "cs", "cm", "ck", "cc", "ci"}
  const EVENT_NAMES: set<string> := {"t", "ec", "ea", "el", "ev"}
  const APP_VIEW_NAMES: set<string> := {"t"}
  const ITEM_NAMES: set<string> := {"in", "ip", "iq", "ic", "iv", "cu"}
  const TIMING_NAMES: set<string> := {"t", "utc", "utv", "utt", "utl"}

  lemma BasePlain(clientId: string, appName: string, appVersion: string, screenResolution: string,
                  screenName: Option<string>)
    ensures Plain(BaseForm(clientId, appName, appVersion, screenResolution, screenName), BASE_NAMES)
  {
    var fixed := [("v", "1"), ("cid", clientId), ("an", appName), ("av", appVersion), ("sr", screenResolution)];
    assert Plain(fixed, {"v", "cid", "an", "av", "sr"});
    OptPlain("cd", screenName, 2048);
    Grow(fixed, Opt("cd", screenName, 2048), {"v", "cid", "an", "av", "sr"}, {"cd"});
  }

  lemma ReferrerNames(o1: Dict<string, string>, o2: Dict<string, string>, o3: Dict<string, string>,
                      o4: Dict<string, string>, o5: Dict<string, string>, o6: Dict<string, string>,
                      o7: Dict<string, string>)
    requires Plain(o1, {"dr"}) && Plain(o2, {"cn"}) && Plain(o3, {"cs"}) && Plain(o4, {"cm"})
    requires Plain(o5, {"ck"}) && Plain(o6, {"cc"}) && Plain(o7, {"ci"})
    ensures Plain(o1 + o2 + o3 + o4 + o5 + o6 + o7, REFERRER_NAMES)
  {
    Names5(o1, o2, o3, o4, o5, "dr", "cn", "cs", "cm", "ck");
    Grow(o1 + o2 + o3 + o4 + o5, o6, {"dr", "cn", "cs", "cm", "ck"}, {"cc"});
    Grow(o1 + o2 + o3 + o4 + o5 + o6, o7, {"dr", "cn", "cs", "cm", "ck", "cc"}, {"ci"});
  }

  lemma ReferrerPlain(referrer: Option<GAReferrer>)
    ensures Plain(ReferrerFields(referrer), REFERRER_NAMES)
  {
    if referrer.Some? {
      var r := referrer.value;
      OptPlain("dr", r.documentReferrer, 2048); OptPlain("cn", r.campaignName, 100);
      OptPlain("cs", r.campaignSource, 100); OptPlain("cm", r.campaignMedium, 50);
      OptPlain("ck", r.campaignKeyword, 500); OptPlain("cc", r.campaignContent, 500);
      OptPlain("ci", r.campaignId, 100);
      ReferrerNames(Opt("dr", r.documentReferrer, 2048), Opt("cn", r.campaignName, 100),
                    Opt("cs", r.campaignSource, 100), Opt("cm", r.campaignMedium, 50),
                    Opt("ck", r.campaignKeyword, 500), Opt("cc", r.campaignContent, 500),
                    Opt("ci", r.campaignId, 100));
    }
  }

  lemma Names5(o1: Dict<string, string>, o2: Dict<string, string>, o3: Dict<string, string>,
               o4: Dict<string, string>, o5: Dict<string, string>,
               n1: string, n2: string, n3: string, n4: string, n5: string)
    requires Plain(o1, {n1}) && Plain(o2, {n2}) && Plain(o3, {n3}) && Plain(o4, {n4}) && Plain(o5, {n5})
    requires n1 != n2 && n1 != n3 && n1 != n4 && n1 != n5 && n2 != n3 && n2 != n4 && n2 != n5
    requires n3 != n4 && n3 != n5 && n4 != n5
    ensures Plain(o1 + o2 + o3 + o4 + o5, {n1, n2, n3, n4, n5})
  {
    Grow(o1, o2, {n1}, {n2});
    Grow(o1 + o2, o3, {n1, n2}, {n3});
    Grow(o1 + o2 + o3, o4, {n1, n2, n3}, {n4});
    Grow(o1 + o2 + o3 + o4, o5, {n1, n2, n3, n4}, {n5});
  }

  lemma EventHeadPlain(d: GAEvent)
    ensures Plain(EventHeadFields(d), EVENT_NAMES)
  {
    OptPlain("ec", d.category, MAX_CATEGORY_LENGTH);
    OptPlain("ea", d.action, MAX_ACTION_LENGTH);
    OptPlain("el", d.labelText, MAX_LABEL_LENGTH);
    OptPlain("ev", IntText(d.value), -1);
    Names5([("t", "event")], Opt("ec", d.category, MAX_CATEGORY_LENGTH), Opt("ea", d.action, MAX_ACTION_LENGTH),
           Opt("el", d.labelText, MAX_LABEL_LENGTH), Opt("ev", IntText(d.value), -1), "t", "ec", "ea", "el", "ev");
  }

  lemma ItemHeadPlain(d: GAItem)
    ensures Plain(ItemHeadFields(d), ITEM_NAMES)
  {
    var o1 := Opt("in", d.name, 500);
    OptPlain("in", d.name, 500);
    OptPlain("ip", d.price, -1);
    OptPlain("iq", IntText(d.quantity), -1);
    OptPlain("ic", d.code, 500);
    OptPlain("iv", d.category, 500);
    OptPlain("cu", d.currencyCode, 10);
    Names5(o1, Opt("ip", d.price, -1), Opt("iq", IntText(d.quantity), -1), Opt("ic", d.code, 500),
           Opt("iv", d.category, 500), "in", "ip", "iq", "ic", "iv");
    Grow(o1 + Opt("ip", d.price, -1) + Opt("iq", IntText(d.quantity), -1) + Opt("ic", d.code, 500) + Opt("iv", d.category, 500),
         Opt("cu", d.currencyCode, 10), {"in", "ip", "iq", "ic", "iv"}, {"cu"});
  }

  lemma TimingHeadPlain(d: GATiming)
    ensures Plain(TimingHeadFields(d), TIMING_NAMES)
  {
    OptPlain("utc", d.category, 150);
    OptPlain("utv", d.name, 500);
    OptPlain("utl", d.labelText, 500);
    Names5([("t", "timing")], Opt("utc", d.category, 150), Opt("utv", d.name, 500),
           [("utt", IntToString(d.timeMs))], Opt("utl", d.labelText, 500), "t", "utc", "utv", "utt", "utl");
  }

  /** `tid` is neither a plain name of the hit nor a custom name, so the form does not have it yet. */
  lemma NoTrackingId(p1: Dict<string, string>, cm: Dict<string, string>, cd: Dict<string, string>,
                     p2: Dict<string, string>, names: set<string>)
    requires Keys(p1) <= names && Keys(p2) <= names && "tid" !in names
    requires forall k :: k in Keys(cm) ==> IsCustomName(k)
    requires forall k :: k in Keys(cd) ==> IsCustomName(k)
    ensures "tid" !in Keys(p1 + cm + cd + p2)
  {
    KeysAppend(p1, cm);
    KeysAppend(p1 + cm, cd);
    KeysAppend(p1 + cm + cd, p2);
  }

  /**
   * The names of a hit's form are distinct exactly when no two of its metrics,
   * and no two of its dimensions, share an index; `tid` is never among them.
   */
  lemma FormNames(p1: Dict<string, string>, names: set<string>,
                  metrics: MetricValues, dimensions: DimensionValues, referrer: Option<GAReferrer>)
    requires Plain(p1, names)
    requires names !! REFERRER_NAMES
    requires forall k :: k in names + REFERRER_NAMES ==> !IsCustomName(k)
    requires "tid" !in names
    ensures var all := p1 + CustomFields(metrics, dimensions, referrer);
      && (DistinctKeys(all) <==> IndicesDistinct(metrics) && IndicesDistinct(dimensions))
      && "tid" !in Keys(all)
  {
    var cm, cd, rf := CustomEntries("cm", MetricStrings(metrics)), CustomEntries("cd", dimensions), ReferrerFields(referrer);
    ConcatAssoc(p1, cm + cd, rf);
    ConcatAssoc(p1, cm, cd);
    ReferrerPlain(referrer);
    Grow(p1, rf, names, REFERRER_NAMES);
    CustomEntriesNames("cm", MetricStrings(metrics));
    CustomEntriesNames("cd", dimensions);
    MetricStringsIndices(metrics);
    Partition(p1, cm, cd, rf);
    NoTrackingId(p1, cm, cd, rf, names + REFERRER_NAMES);
  }

  /**
   * Names a hit may use for its plain fields: none is a referrer field, none
   * looks like a custom value's name, and none is `tid`.
   */
  ghost predicate HitNames(names: set<string>) {
    && names !! REFERRER_NAMES
    && (forall k :: k in names + REFERRER_NAMES ==> !IsCustomName(k))
    && "tid" !in names
  }

  lemma EventNames() ensures HitNames(BASE_NAMES + EVENT_NAMES) { }
  lemma AppViewNames() ensures HitNames(BASE_NAMES + APP_VIEW_NAMES) { }
  lemma ItemNames() ensures HitNames(BASE_NAMES + ITEM_NAMES) { }
  lemma TimingNames() ensures HitNames(BASE_NAMES + TIMING_NAMES) { }

  /**
   * A hit whose plain fields have distinct names succeeds exactly when its
   * dimension values fit and no two of its metrics, and no two of its
   * dimensions, share an index; the form is then the base, the hit's own
   * fields, the custom values and the referrer, in that order.
   */
  lemma HitFormOutcome(base: Dict<string, string>, head: seq<Step>, headFields: Dict<string, string>, names: set<string>,
                       metrics: MetricValues, dimensions: DimensionValues, referrer: Option<GAReferrer>)
    requires Plain(base + headFields, names)
    requires HitNames(names)
    requires StepsEntries(head) == headFields && StepsFit(head)
    ensures var r := RunSteps(base, head + CustomSteps(metrics, dimensions, referrer));
      && (r.Ok? <==> DimensionsFit(dimensions) && IndicesDistinct(metrics) && IndicesDistinct(dimensions))
      && (r.Ok? ==> r.value == base + headFields + CustomFields(metrics, dimensions, referrer))
      && (r.Ok? ==> "tid" !in Keys(r.value))
  {
    var custom := CustomSteps(metrics, dimensions, referrer);
    DistinctKeysAppend(base, headFields);
    StepsEntriesAppend(head, custom);
    CustomStepsFields(metrics, dimensions, referrer);
    RunStepsExtends(base, head + custom);
    ConcatAssoc(base, headFields, CustomFields(metrics, dimensions, referrer));
    FormNames(base + headFields, names, metrics, dimensions, referrer);
  }

  /** `Event`: the form it posts, and when it throws instead. */
  lemma EventFormOutcome(clientId: string, appName: string, appVersion: string, screenResolution: string,
                         screenName: Option<string>, d: GAEvent)
    ensures var base := BaseForm(clientId, appName, appVersion, screenResolution, screenName);
      var r := RunSteps(base, EventSteps(d));
      && (r.Ok? <==> DimensionsFit(d.dimensionValues) && IndicesDistinct(d.metricValues) && IndicesDistinct(d.dimensionValues))
      && (r.Ok? ==> r.value == base + EventHeadFields(d) + CustomFields(d.metricValues, d.dimensionValues, d.referrer))
      && (r.Ok? ==> "tid" !in Keys(r.value))
  {
    var base := BaseForm(clientId, appName, appVersion, screenResolution, screenName);
    BasePlain(clientId, appName, appVersion, screenResolution, screenName);
    EventHeadPlain(d);
    Grow(base, EventHeadFields(d), BASE_NAMES, EVENT_NAMES);
    EventHeadSteps(d);
    EventNames();
    HitFormOutcome(base, EventHead(d), EventHeadFields(d), BASE_NAMES + EVENT_NAMES,
                   d.metricValues, d.dimensionValues, d.referrer);
  }

  /** `AppView`: the form it posts, and when it throws instead. */
  lemma AppViewFormOutcome(clientId: string, appName: string, appVersion: string, screenResolution: string,
                           d: GAAppView)
    ensures var base := BaseForm(clientId, appName, appVersion, screenResolution, d.screenName);
      var r := RunSteps(base, AppViewSteps(d));
      && (r.Ok? <==> DimensionsFit(d.dimensionValues) && IndicesDistinct(d.metricValues) && IndicesDistinct(d.dimensionValues))
      && (r.Ok? ==> r.value == base + [("t", "screenview")] + CustomFields(d.metricValues, d.dimensionValues, d.referrer))
      && (r.Ok? ==> "tid" !in Keys(r.value))
  {
    var base := BaseForm(clientId, appName, appVersion, screenResolution, d.screenName);
    var head := [Put("t", "screenview")];
    BasePlain(clientId, appName, appVersion, screenResolution, d.screenName);
    Grow(base, [("t", "screenview")], BASE_NAMES, APP_VIEW_NAMES);
    StepsSplit(head);
    AppViewNames();
    HitFormOutcome(base, head, [("t", "screenview")], BASE_NAMES + APP_VIEW_NAMES,
                   d.metricValues, d.dimensionValues, d.referrer);
  }

  /** `Item`: the form it posts, and when it throws instead. */
  lemma ItemFormOutcome(clientId: string, appName: string, appVersion: string, screenResolution: string,
                        screenName: Option<string>, d: GAItem)
    ensures var base := BaseForm(clientId, appName, appVersion, screenResolution, screenName);
      var r := RunSteps(base, ItemSteps(d));
      && (r.Ok? <==> DimensionsFit(d.dimensionValues) && IndicesDistinct(d.metricValues) && IndicesDistinct(d.dimensionValues))
      && (r.Ok? ==> r.value == base + ItemHeadFields(d) + CustomFields(d.metricValues, d.dimensionValues, d.referrer))
      && (r.Ok? ==> "tid" !in Keys(r.value))
  {
    var base := BaseForm(clientId, appName, appVersion, screenResolution, screenName);
    BasePlain(clientId, appName, appVersion, screenResolution, screenName);
    ItemHeadPlain(d);
    Grow(base, ItemHeadFields(d), BASE_NAMES, ITEM_NAMES);
    ItemHeadSteps(d);
    ItemNames();
    HitFormOutcome(base, ItemHead(d), ItemHeadFields(d), BASE_NAMES + ITEM_NAMES,
                   d.metricValues, d.dimensionValues, d.referrer);
  }

  /** `Timing`: the form it posts, and when it throws instead. */
  lemma TimingFormOutcome(clientId: string, appName: string, appVersion: string, screenResolution: string,
                          screenName: Option<string>, d: GATiming)
    ensures var base := BaseForm(clientId, appName, appVersion, screenResolution, screenName);
      var r := RunSteps(base, TimingSteps(d));
      && (r.Ok? <==> DimensionsFit(d.dimensionValues) && IndicesDistinct(d.metricValues) && IndicesDistinct(d.dimensionValues))
      && (r.Ok? ==> r.value == base + TimingHeadFields(d) + CustomFields(d.metricValues, d.dimensionValues, d.referrer))
      && (r.Ok? ==> "tid" !in Keys(r.value))
  {
    var base := BaseForm(clientId, appName, appVersion, screenResolution, screenName);
    BasePlain(clientId, appName, appVersion, screenResolution, screenName);
    TimingHeadPlain(d);
    Grow(base, TimingHeadFields(d), BASE_NAMES, TIMING_NAMES);
    TimingHeadSteps(d);
    TimingNames();
    HitFormOutcome(base, TimingHead(d), TimingHeadFields(d), BASE_NAMES + TIMING_NAMES,
                   d.metricValues, d.dimensionValues, d.referrer);
  }
}
