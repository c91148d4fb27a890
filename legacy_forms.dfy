/**
 * The fields the two registry-based clients (`ClientImpl` and the older
 * `Client`) put into a Unity `WWWForm` for each call, and the statements that
 * build them. Both classes contain the same form-building code, so it is
 * stated once here. A call either yields the list of fields that `post`
 * sends, or throws before anything is posted.
 *
 * Metrics and dimensions in this generation are opaque objects looked up in
 * a registry passed to the constructor (`IDictionary<IMetric, uint>`,
 * `IDictionary<IDimension, uint>`); the registry gives each its slot number.
 */
module LegacyForms {
  import opened Common
  import RejectingFormExts

  /** An `IMetric` or `IDimension` object: only its identity and its `ToString()` text matter. */
  datatype CustomKey = CustomKey(id: nat, name: string)

  /** A registry from the constructor: null, or a slot number per key. */
  type Registry = Option<map<CustomKey, uint32>>

  type Fields = seq<(string, string)>

  /** What the constructor stores and `createForm` reads. */
  datatype Setup = Setup(trackingId: string, clientId: string, appName: string, appVersion: string,
                         screenResolution: string, customMetrics: Registry, customDimensions: Registry)

  const MAX_DIMENSION_LENGTH: int := 150

  // ---------------------------------------------------------------------
  // Specification.

  /** `createForm`: protocol version, tracking id, client id, app name and version, screen resolution. */
  function BaseForm(s: Setup): Fields {
    [("v", "1"), ("tid", s.trackingId), ("cid", s.clientId), ("an", s.appName),
     ("av", s.appVersion), ("sr", s.screenResolution)]
  }

  /** `uint.ToString()`. */
  function UintText(v: uint32): string { NatToString(v) }

  /** `string.ToString()`. */
  function StringText(v: string): string { v }

  /** The `foreach` of `addCustom`, from `fields`: a key missing from the registry throws. */
  function CustomList<V>(fields: Fields, family: string, googleName: string, indexes: map<CustomKey, uint32>,
                         pairs: Dict<CustomKey, V>, show: V -> string): Result<Fields>
    decreases |pairs|
  {
    if |pairs| == 0 then Ok(fields)
    else if pairs[0].0 !in indexes then Err(Unregistered(family, pairs[0].0.name))
    else CustomList(fields + [(googleName + NatToString(indexes[pairs[0].0]), show(pairs[0].1))],
                    family, googleName, indexes, pairs[1..], show)
  }

  /** `addCustom(name, googleName, form, indexes, values)`. */
  function AddCustomSpec<V>(fields: Fields, family: string, googleName: string, indexes: Registry,
                            values: Option<Dict<CustomKey, V>>, show: V -> string): Result<Fields>
  {
    if values.None? then Ok(fields)
    else if indexes.None? then Err(NoRegistry(family))
    else CustomList(fields, family, googleName, indexes.value, values.value, show)
  }

  /** The argument name `addDimensions` reports for an over-long value. */
  function DimensionArgName(k: CustomKey): string {
    "dimension " + k.name + " value"
  }

  /** The first `foreach` of `addDimensions`: every value is checked against the limit, in order. */
  function CheckDimensionList(pairs: Dict<CustomKey, string>): Outcome
    decreases |pairs|
  {
    if |pairs| == 0 then Pass
    else match RejectingFormExts.CheckLength(pairs[0].1, DimensionArgName(pairs[0].0), MAX_DIMENSION_LENGTH)
      case Fail(e) => Fail(e)
      case Pass => CheckDimensionList(pairs[1..])
  }

  /** `addMetrics`. */
  function AddMetricsSpec(fields: Fields, indexes: Registry, values: Option<Dict<CustomKey, uint32>>): Result<Fields> {
    AddCustomSpec(fields, "metric", "cm", indexes, values, UintText)
  }

  /** `addDimensions`: all values are checked before `addCustom` runs. */
  function AddDimensionsSpec(fields: Fields, indexes: Registry, values: Option<Dict<CustomKey, string>>): Result<Fields> {
    if values.None? then Ok(fields)
    else match CheckDimensionList(values.value)
      case Fail(e) => Err(e)
      case Pass => AddCustomSpec(fields, "dimension", "cd", indexes, values, StringText)
  }

  /** `SessionStart` (`control == "start"`) and `SessionEnd` (`control == "end"`). */
  function SessionForm(s: Setup, control: string): Fields {
    BaseForm(s) + [("sc", control)]
  }

  /** `Event`. */
  function EventForm(s: Setup, category: Option<string>, action: Option<string>, labelText: Option<string>,
                     value: Option<int32>, metricValues: Option<Dict<CustomKey, uint32>>,
                     dimensionValues: Option<Dict<CustomKey, string>>): Result<Fields>
  {
    if category.None? && action.None? && labelText.None? && value.None? then Err(AllParametersNull)
    else
      var f1 :- RejectingFormExts.AddSpec(BaseForm(s) + [("t", "event")], "category", category, "ec", 150);
      var f2 :- RejectingFormExts.AddSpec(f1, "action", action, "ea", 500);
      var f3 :- RejectingFormExts.AddSpec(f2, "label", labelText, "el", 500);
      var f4 :- if value.Some? then RejectingFormExts.AddSpec(f3, "value", Some(IntToString(value.value)), "ev", 0)
                else Ok(f3);
      var f5 :- AddMetricsSpec(f4, s.customMetrics, metricValues);
      AddDimensionsSpec(f5, s.customDimensions, dimensionValues)
  }

  /** `AppView`. */
  function AppViewForm(s: Setup, screenName: Option<string>): Result<Fields> {
    RejectingFormExts.AddSpec(BaseForm(s) + [("t", "appview")], "screenName", screenName, "cd", 1500)
  }

  /** `Item`; the price's `float.ToString()` text is taken as given. */
  function ItemForm(s: Setup, name: Option<string>, price: Option<string>, quantity: Option<int32>,
                    code: Option<string>, category: Option<string>, currencyCode: Option<string>): Result<Fields>
  {
    if name.None? then Err(ArgumentNull("name"))
    else
      var f1 :- RejectingFormExts.AddSpec(BaseForm(s), "name", name, "in", 500);
      var f2 :- if price.Some? then RejectingFormExts.AddSpec(f1, "price", price, "ip", 0) else Ok(f1);
      var f3 :- if quantity.Some? then RejectingFormExts.AddSpec(f2, "quantity", Some(IntToString(quantity.value)), "iq", 0)
                else Ok(f2);
      var f4 :- RejectingFormExts.AddSpec(f3, "code", code, "ic", 500);
      var f5 :- RejectingFormExts.AddSpec(f4, "category", category, "iv", 500);
      RejectingFormExts.AddSpec(f5, "currencyCode", currencyCode, "cu", 10)
  }

  // ---------------------------------------------------------------------
  // Reference definitions the properties are stated with.

  /** A value that `add` accepts under a non-zero limit. */
  predicate Within(v: Option<string>, maxLength: int) {
    v.None? || |v.value| <= maxLength
  }

  /** The field `add` appends for a value: nothing when it is null. */
  function OptField(name: string, v: Option<string>): Fields {
    if v.None? then [] else [(name, v.value)]
  }

  /** Every key of a non-null values map is in the registry (and so that registry is not null). */
  predicate Registered<V>(indexes: Registry, values: Option<Dict<CustomKey, V>>) {
    values.None? || (indexes.Some? && forall i :: 0 <= i < |values.value| ==> values.value[i].0 in indexes.value)
  }

  /** The custom field of one registered pair: `googleName` followed by the slot number. */
  function CustomField<V>(googleName: string, indexes: map<CustomKey, uint32>, pair: (CustomKey, V),
                          show: V -> string): (string, string)
    requires pair.0 in indexes
  {
    (googleName + NatToString(indexes[pair.0]), show(pair.1))
  }

  /** The fields `addCustom` appends when every key is registered: one per pair, in order. */
  function CustomFieldsOf<V>(googleName: string, indexes: Registry, values: Option<Dict<CustomKey, V>>,
                             show: V -> string): (r: Fields)
    requires Registered(indexes, values)
  {
    if values.None? then []
    else seq(|values.value|, i requires 0 <= i < |values.value| =>
               CustomField(googleName, indexes.value, values.value[i], show))
  }

  /** Every dimension value of a non-null map is within 150 characters. */
  predicate DimensionsWithin(values: Option<Dict<CustomKey, string>>) {
    values.None? || forall i :: 0 <= i < |values.value| ==> |values.value[i].1| <= MAX_DIMENSION_LENGTH
  }

  // ---------------------------------------------------------------------
  // Properties.

  /**
   * The rejecting `add` in the terms of the properties below: under a limit
   * of 0, or within a non-zero limit, it appends the field of a present
   * value; beyond the limit it throws.
   */
  lemma AddMeaning(fields: Fields, argName: string, v: Option<string>, googleName: string, maxLength: int)
    requires maxLength >= 0
    ensures RejectingFormExts.AddSpec(fields, argName, v, googleName, maxLength)
              == if maxLength == 0 || Within(v, maxLength) then Ok(fields + OptField(googleName, v))
                 else Err(ArgumentTooLong(argName, maxLength))
  {
    if v.None? {
      assert fields + [] == fields;
    }
  }

  /**
   * The `foreach` of `addCustom` succeeds exactly when every key is
   * registered, and then appends one field per pair, in order; otherwise it
   * throws for the first key that is not.
   */
  lemma {:induction false} CustomListSpec<V>(fields: Fields, family: string, googleName: string,
                                             indexes: map<CustomKey, uint32>, pairs: Dict<CustomKey, V>,
                                             show: V -> string)
    ensures CustomList(fields, family, googleName, indexes, pairs, show).Ok? <==>
            forall i :: 0 <= i < |pairs| ==> pairs[i].0 in indexes
    ensures CustomList(fields, family, googleName, indexes, pairs, show).Ok? ==>
      && var r := CustomList(fields, family, googleName, indexes, pairs, show).value;
      && |r| == |fields| + |pairs| && fields <= r
      && forall i :: 0 <= i < |pairs| ==> r[|fields| + i] == CustomField(googleName, indexes, pairs[i], show)
    ensures CustomList(fields, family, googleName, indexes, pairs, show).Err? ==>
      exists j :: && 0 <= j < |pairs| && pairs[j].0 !in indexes
                  && (forall i :: 0 <= i < j ==> pairs[i].0 in indexes)
                  && CustomList(fields, family, googleName, indexes, pairs, show).error == Unregistered(family, pairs[j].0.name)
    decreases |pairs|
  {
    if |pairs| != 0 {
      if pairs[0].0 !in indexes {
        assert pairs[0].0 !in indexes;
      } else {
        var f := fields + [CustomField(googleName, indexes, pairs[0], show)];
        var rest := pairs[1..];
        CustomListSpec(f, family, googleName, indexes, rest, show);
        assert forall i :: 1 <= i < |pairs| ==> pairs[i] == rest[i - 1];
        var r := CustomList(f, family, googleName, indexes, rest, show);
        if r.Err? {
          var j :| && 0 <= j < |rest| && rest[j].0 !in indexes
                   && (forall i :: 0 <= i < j ==> rest[i].0 in indexes)
                   && r.error == Unregistered(family, rest[j].0.name);
          assert pairs[j + 1] == rest[j];
        }
      }
    }
  }

  /**
   * `addCustom`: a null values map appends nothing; otherwise a null registry
   * throws; otherwise every key must be registered, and one field per pair is
   * appended, in order, named by the key's slot.
   */
  lemma AddCustomSpecMeaning<V>(fields: Fields, family: string, googleName: string, indexes: Registry,
                                values: Option<Dict<CustomKey, V>>, show: V -> string)
    ensures values.None? ==> AddCustomSpec(fields, family, googleName, indexes, values, show) == Ok(fields)
    ensures values.Some? && indexes.None? ==>
              AddCustomSpec(fields, family, googleName, indexes, values, show) == Err(NoRegistry(family))
    ensures AddCustomSpec(fields, family, googleName, indexes, values, show).Ok? <==> Registered(indexes, values)
    ensures Registered(indexes, values) ==>
              AddCustomSpec(fields, family, googleName, indexes, values, show)
                == Ok(fields + CustomFieldsOf(googleName, indexes, values, show))
    ensures AddCustomSpec(fields, family, googleName, indexes, values, show).Err? && indexes.Some? ==>
              AddCustomSpec(fields, family, googleName, indexes, values, show).error.Unregistered?
  {
    if values.Some? && indexes.Some? {
      CustomListSpec(fields, family, googleName, indexes.value, values.value, show);
      if Registered(indexes, values) {
        var r := AddCustomSpec(fields, family, googleName, indexes, values, show).value;
        assert r == fields + CustomFieldsOf(googleName, indexes, values, show);
      }
    } else if values.None? {
      assert fields + [] == fields;
    }
  }

  /**
   * The dimension check passes exactly when every value is within 150
   * characters; otherwise it throws for the first value that is not.
   */
  lemma {:induction false} CheckDimensionListSpec(pairs: Dict<CustomKey, string>)
    ensures CheckDimensionList(pairs).Pass? <==> forall i :: 0 <= i < |pairs| ==> |pairs[i].1| <= MAX_DIMENSION_LENGTH
    ensures CheckDimensionList(pairs).Fail? ==>
      exists j :: && 0 <= j < |pairs| && |pairs[j].1| > MAX_DIMENSION_LENGTH
                  && (forall i :: 0 <= i < j ==> |pairs[i].1| <= MAX_DIMENSION_LENGTH)
                  && CheckDimensionList(pairs).error == ArgumentTooLong(DimensionArgName(pairs[j].0), MAX_DIMENSION_LENGTH)
    decreases |pairs|
  {
    if |pairs| != 0 && |pairs[0].1| <= MAX_DIMENSION_LENGTH {
      var rest := pairs[1..];
      CheckDimensionListSpec(rest);
      assert forall i :: 1 <= i < |pairs| ==> pairs[i] == rest[i - 1];
      if CheckDimensionList(rest).Fail? {
        var j :| && 0 <= j < |rest| && |rest[j].1| > MAX_DIMENSION_LENGTH
                 && (forall i :: 0 <= i < j ==> |rest[i].1| <= MAX_DIMENSION_LENGTH)
                 && CheckDimensionList(rest).error == ArgumentTooLong(DimensionArgName(rest[j].0), MAX_DIMENSION_LENGTH);
        assert pairs[j + 1] == rest[j];
      }
    }
  }

  /**
   * `addDimensions` checks every value before it looks at the registry: an
   * over-long value throws `ArgumentTooLong` even when the registry is null
   * or a key is unregistered. With every value within the limit it is
   * `addCustom` itself.
   */
  lemma DimensionsCheckedFirst(fields: Fields, indexes: Registry, values: Option<Dict<CustomKey, string>>)
    ensures !DimensionsWithin(values) ==>
              AddDimensionsSpec(fields, indexes, values).Err? && AddDimensionsSpec(fields, indexes, values).error.ArgumentTooLong?
    ensures DimensionsWithin(values) ==>
              AddDimensionsSpec(fields, indexes, values) == AddCustomSpec(fields, "dimension", "cd", indexes, values, StringText)
  {
    if values.Some? {
      CheckDimensionListSpec(values.value);
    }
  }

  /**
   * `addDimensions` succeeds exactly when every value is within the limit
   * and every key is registered; it then appends one `cd<slot>` field per
   * pair, in order.
   */
  lemma AddDimensionsMeaning(fields: Fields, indexes: Registry, values: Option<Dict<CustomKey, string>>)
    ensures AddDimensionsSpec(fields, indexes, values).Ok? <==> DimensionsWithin(values) && Registered(indexes, values)
    ensures AddDimensionsSpec(fields, indexes, values).Ok? ==>
              AddDimensionsSpec(fields, indexes, values).value == fields + CustomFieldsOf("cd", indexes, values, StringText)
  {
    DimensionsCheckedFirst(fields, indexes, values);
    AddCustomSpecMeaning(fields, "dimension", "cd", indexes, values, StringText);
  }

  /** The form `Event` posts when it does not throw. */
  function EventFields(s: Setup, category: Option<string>, action: Option<string>, labelText: Option<string>,
                       value: Option<int32>, metricValues: Option<Dict<CustomKey, uint32>>,
                       dimensionValues: Option<Dict<CustomKey, string>>): Fields
    requires Registered(s.customMetrics, metricValues) && Registered(s.customDimensions, dimensionValues)
  {
    BaseForm(s) + [("t", "event")] + OptField("ec", category) + OptField("ea", action) + OptField("el", labelText)
      + OptField("ev", if value.Some? then Some(IntToString(value.value)) else None)
      + CustomFieldsOf("cm", s.customMetrics, metricValues, UintText)
      + CustomFieldsOf("cd", s.customDimensions, dimensionValues, StringText)
  }

  /**
   * `Event` throws when all four of category, action, label and value are
   * null, when a category is over 150 characters or an action or a label over
   * 500 (rejected, not truncated), when metrics or dimensions cannot be
   * registered, and when a dimension value is over 150; otherwise it yields
   * the base form, `t=event`, the present fields and the custom fields.
   */
  lemma EventOutcome(s: Setup, category: Option<string>, action: Option<string>, labelText: Option<string>,
                     value: Option<int32>, metricValues: Option<Dict<CustomKey, uint32>>,
                     dimensionValues: Option<Dict<CustomKey, string>>)
    ensures category.None? && action.None? && labelText.None? && value.None? ==>
              EventForm(s, category, action, labelText, value, metricValues, dimensionValues) == Err(AllParametersNull)
    ensures EventForm(s, category, action, labelText, value, metricValues, dimensionValues).Ok? <==>
              && !(category.None? && action.None? && labelText.None? && value.None?)
              && Within(category, 150) && Within(action, 500) && Within(labelText, 500)
              && Registered(s.customMetrics, metricValues)
              && DimensionsWithin(dimensionValues) && Registered(s.customDimensions, dimensionValues)
    ensures EventForm(s, category, action, labelText, value, metricValues, dimensionValues).Ok? ==>
              && Registered(s.customMetrics, metricValues) && Registered(s.customDimensions, dimensionValues)
              && EventForm(s, category, action, labelText, value, metricValues, dimensionValues).value
                   == EventFields(s, category, action, labelText, value, metricValues, dimensionValues)
  {
    var valueText := if value.Some? then Some(IntToString(value.value)) else None;
    var f0 := BaseForm(s) + [("t", "event")];
    AddMeaning(f0, "category", category, "ec", 150);
    var f1 := f0 + OptField("ec", category);
    AddMeaning(f1, "action", action, "ea", 500);
    var f2 := f1 + OptField("ea", action);
    AddMeaning(f2, "label", labelText, "el", 500);
    var f3 := f2 + OptField("el", labelText);
    AddMeaning(f3, "value", valueText, "ev", 0);
    var f4 := f3 + OptField("ev", valueText);
    assert value.None? ==> f4 == f3;
    if !(category.None? && action.None? && labelText.None? && value.None?)
       && Within(category, 150) && Within(action, 500) && Within(labelText, 500)
    {
      AddCustomSpecMeaning(f4, "metric", "cm", s.customMetrics, metricValues, UintText);
      if Registered(s.customMetrics, metricValues) {
        var f5 := f4 + CustomFieldsOf("cm", s.customMetrics, metricValues, UintText);
        AddDimensionsMeaning(f5, s.customDimensions, dimensionValues);
      }
    }
  }

  /** The over-long fields of an event are rejected with the argument's name and limit, category first. */
  lemma EventTooLong(s: Setup, category: Option<string>, action: Option<string>, labelText: Option<string>,
                     value: Option<int32>, metricValues: Option<Dict<CustomKey, uint32>>,
                     dimensionValues: Option<Dict<CustomKey, string>>)
    ensures !Within(category, 150) ==>
              EventForm(s, category, action, labelText, value, metricValues, dimensionValues) == Err(ArgumentTooLong("category", 150))
    ensures Within(category, 150) && !Within(action, 500) ==>
              EventForm(s, category, action, labelText, value, metricValues, dimensionValues) == Err(ArgumentTooLong("action", 500))
    ensures Within(category, 150) && Within(action, 500) && !Within(labelText, 500) ==>
              EventForm(s, category, action, labelText, value, metricValues, dimensionValues) == Err(ArgumentTooLong("label", 500))
  {
  }

  /** `AppView` yields `t=appview` and the screen name as `cd`, rejecting a name over 1500. */
  lemma AppViewOutcome(s: Setup, screenName: Option<string>)
    ensures AppViewForm(s, screenName).Ok? <==> Within(screenName, 1500)
    ensures !Within(screenName, 1500) ==> AppViewForm(s, screenName) == Err(ArgumentTooLong("screenName", 1500))
    ensures Within(screenName, 1500) ==>
              AppViewForm(s, screenName) == Ok(BaseForm(s) + [("t", "appview")] + OptField("cd", screenName))
  {
    AddMeaning(BaseForm(s) + [("t", "appview")], "screenName", screenName, "cd", 1500);
  }

  /** The form `Item` posts when it does not throw: no hit type, then the present fields in order. */
  function ItemFields(s: Setup, name: string, price: Option<string>, quantity: Option<int32>,
                      code: Option<string>, category: Option<string>, currencyCode: Option<string>): Fields
  {
    BaseForm(s) + [("in", name)] + OptField("ip", price)
      + OptField("iq", if quantity.Some? then Some(IntToString(quantity.value)) else None)
      + OptField("ic", code) + OptField("iv", category) + OptField("cu", currencyCode)
  }

  /**
   * `Item` throws for a null name (an empty one is accepted), for a name,
   * code or category over 500 and for a currency code over 10; otherwise it
   * yields the base form and the present fields.
   */
  lemma ItemOutcome(s: Setup, name: Option<string>, price: Option<string>, quantity: Option<int32>,
                    code: Option<string>, category: Option<string>, currencyCode: Option<string>)
    ensures name.None? ==> ItemForm(s, name, price, quantity, code, category, currencyCode) == Err(ArgumentNull("name"))
    ensures ItemForm(s, name, price, quantity, code, category, currencyCode).Ok? <==>
              name.Some? && Within(name, 500) && Within(code, 500) && Within(category, 500) && Within(currencyCode, 10)
    ensures ItemForm(s, name, price, quantity, code, category, currencyCode).Ok? ==>
              ItemForm(s, name, price, quantity, code, category, currencyCode).value
                == ItemFields(s, name.value, price, quantity, code, category, currencyCode)
  {
    if name.Some? {
      var quantityText := if quantity.Some? then Some(IntToString(quantity.value)) else None;
      var f0 := BaseForm(s);
      AddMeaning(f0, "name", name, "in", 500);
      var f1 := f0 + OptField("in", name);
      AddMeaning(f1, "price", price, "ip", 0);
      var f2 := f1 + OptField("ip", price);
      assert price.None? ==> f2 == f1;
      AddMeaning(f2, "quantity", quantityText, "iq", 0);
      var f3 := f2 + OptField("iq", quantityText);
      assert quantity.None? ==> f3 == f2;
      AddMeaning(f3, "code", code, "ic", 500);
      var f4 := f3 + OptField("ic", code);
      AddMeaning(f4, "category", category, "iv", 500);
      var f5 := f4 + OptField("iv", category);
      AddMeaning(f5, "currencyCode", currencyCode, "cu", 10);
    }
  }

  /** Every form the clients post starts with the base form. */
  lemma FormsStartWithBase(s: Setup, category: Option<string>, action: Option<string>, labelText: Option<string>,
                           value: Option<int32>, metricValues: Option<Dict<CustomKey, uint32>>,
                           dimensionValues: Option<Dict<CustomKey, string>>, screenName: Option<string>,
                           name: Option<string>, price: Option<string>, quantity: Option<int32>,
                           code: Option<string>, currencyCode: Option<string>, control: string)
    ensures BaseForm(s) <= SessionForm(s, control)
    ensures EventForm(s, category, action, labelText, value, metricValues, dimensionValues).Ok? ==>
              BaseForm(s) <= EventForm(s, category, action, labelText, value, metricValues, dimensionValues).value
    ensures AppViewForm(s, screenName).Ok? ==> BaseForm(s) <= AppViewForm(s, screenName).value
    ensures ItemForm(s, name, price, quantity, code, category, currencyCode).Ok? ==>
              BaseForm(s) <= ItemForm(s, name, price, quantity, code, category, currencyCode).value
  {
    EventOutcome(s, category, action, labelText, value, metricValues, dimensionValues);
    ItemOutcome(s, name, price, quantity, code, category, currencyCode);
  }

  // ---------------------------------------------------------------------
  // The statements that build the forms.

  /** `createForm`. */
  method CreateForm(s: Setup) returns (form: WwwForm)
    ensures fresh(form) && form.fields == BaseForm(s)
  {
    form := new WwwForm();
    form.AddField("v", "1");
    form.AddField("tid", s.trackingId);
    form.AddField("cid", s.clientId);
    form.AddField("an", s.appName);
    form.AddField("av", s.appVersion);
    form.AddField("sr", s.screenResolution);
  }

  /**
   * `addCustom`: the fields are added while the pairs are enumerated, so a
   * key missing from the registry throws after the fields of the keys before
   * it were added (the form is then never posted).
   */
  method AddCustom<V>(family: string, googleName: string, form: WwwForm, indexes: Registry,
                      values: Option<Dict<CustomKey, V>>, show: V -> string) returns (r: Outcome)
    modifies form
    ensures r == AddCustomSpec(old(form.fields), family, googleName, indexes, values, show).ToOutcome()
    ensures r.Pass? ==> form.fields == AddCustomSpec(old(form.fields), family, googleName, indexes, values, show).value
    ensures old(form.fields) <= form.fields
  {
    if values.None? {
      return Pass;
    }
    if indexes.None? {
      return Fail(NoRegistry(family));
    }
    var vals := values.value;
    var i := 0;
    while i < |vals|
      invariant 0 <= i <= |vals| && old(form.fields) <= form.fields
      invariant CustomList(old(form.fields), family, googleName, indexes.value, vals, show)
                == CustomList(form.fields, family, googleName, indexes.value, vals[i..], show)
    {
      assert vals[i..][1..] == vals[i + 1..];
      if vals[i].0 !in indexes.value {
        return Fail(Unregistered(family, vals[i].0.name));
      }
      var idx := indexes.value[vals[i].0];
      form.AddField(googleName + NatToString(idx), show(vals[i].1));
      i := i + 1;
    }
    r := Pass;
  }

  /** `addMetrics`. */
  method AddMetrics(s: Setup, form: WwwForm, values: Option<Dict<CustomKey, uint32>>) returns (r: Outcome)
    modifies form
    ensures r == AddMetricsSpec(old(form.fields), s.customMetrics, values).ToOutcome()
    ensures r.Pass? ==> form.fields == AddMetricsSpec(old(form.fields), s.customMetrics, values).value
  {
    r := AddCustom("metric", "cm", form, s.customMetrics, values, UintText);
  }

  /** `addDimensions`: every value is checked before `addCustom` adds any field. */
  method AddDimensions(s: Setup, form: WwwForm, values: Option<Dict<CustomKey, string>>) returns (r: Outcome)
    modifies form
    ensures r == AddDimensionsSpec(old(form.fields), s.customDimensions, values).ToOutcome()
    ensures r.Pass? ==> form.fields == AddDimensionsSpec(old(form.fields), s.customDimensions, values).value
  {
    if values.None? {
      return Pass;
    }
    var vals := values.value;
    var i := 0;
    while i < |vals|
      invariant 0 <= i <= |vals| && form.fields == old(form.fields)
      invariant CheckDimensionList(vals) == CheckDimensionList(vals[i..])
    {
      assert vals[i..][1..] == vals[i + 1..];
      r := RejectingFormExts.CheckLength(vals[i].1, DimensionArgName(vals[i].0), MAX_DIMENSION_LENGTH);
      if r.Fail? {
        return;
      }
      i := i + 1;
    }
    r := AddCustom("dimension", "cd", form, s.customDimensions, values, StringText);
  }

  /** The fields of `SessionStart` / `SessionEnd`. */
  method BuildSession(s: Setup, control: string) returns (fields: Fields)
    ensures fields == SessionForm(s, control)
  {
    var form := CreateForm(s);
    form.AddField("sc", control);
    fields := form.fields;
  }

  /** The fields of `Event`, or the exception it throws. */
  method BuildEvent(s: Setup, category: Option<string>, action: Option<string>, labelText: Option<string>,
                    value: Option<int32>, metricValues: Option<Dict<CustomKey, uint32>>,
                    dimensionValues: Option<Dict<CustomKey, string>>) returns (r: Result<Fields>)
    ensures r == EventForm(s, category, action, labelText, value, metricValues, dimensionValues)
  {
    if category.None? && action.None? && labelText.None? && value.None? {
      return Err(AllParametersNull);
    }
    var form := CreateForm(s);
    form.AddField("t", "event");
    var o := RejectingFormExts.Add(form, "category", category, "ec", 150);
    if o.Fail? { return Err(o.error); }
    o := RejectingFormExts.Add(form, "action", action, "ea", 500);
    if o.Fail? { return Err(o.error); }
    o := RejectingFormExts.Add(form, "label", labelText, "el", 500);
    if o.Fail? { return Err(o.error); }
    if value.Some? {
      o := RejectingFormExts.Add(form, "value", Some(IntToString(value.value)), "ev", 0);  // a limit of 0 never throws
    }
    o := AddMetrics(s, form, metricValues);
    if o.Fail? { return Err(o.error); }
    o := AddDimensions(s, form, dimensionValues);
    if o.Fail? { return Err(o.error); }
    return Ok(form.fields);
  }

  /** The fields of `AppView`, or the exception it throws. */
  method BuildAppView(s: Setup, screenName: Option<string>) returns (r: Result<Fields>)
    ensures r == AppViewForm(s, screenName)
  {
    var form := CreateForm(s);
    form.AddField("t", "appview");
    var o := RejectingFormExts.Add(form, "screenName", screenName, "cd", 1500);
    if o.Fail? { return Err(o.error); }
    return Ok(form.fields);
  }

  /** The fields of `Item`, or the exception it throws. */
  method BuildItem(s: Setup, name: Option<string>, price: Option<string>, quantity: Option<int32>,
                   code: Option<string>, category: Option<string>, currencyCode: Option<string>)
    returns (r: Result<Fields>)
    ensures r == ItemForm(s, name, price, quantity, code, category, currencyCode)
  {
    if name.None? {
      return Err(ArgumentNull("name"));
    }
    var form := CreateForm(s);
    var o := RejectingFormExts.Add(form, "name", name, "in", 500);
    if o.Fail? { return Err(o.error); }
    if price.Some? {
      o := RejectingFormExts.Add(form, "price", price, "ip", 0);  // a limit of 0 never throws
    }
    if quantity.Some? {
      o := RejectingFormExts.Add(form, "quantity", Some(IntToString(quantity.value)), "iq", 0);  // a limit of 0 never throws
    }
    o := RejectingFormExts.Add(form, "code", code, "ic", 500);
    if o.Fail? { return Err(o.error); }
    o := RejectingFormExts.Add(form, "category", category, "iv", 500);
    if o.Fail? { return Err(o.error); }
    o := RejectingFormExts.Add(form, "currencyCode", currencyCode, "cu", 10);
    if o.Fail? { return Err(o.error); }
    return Ok(form.fields);
  }
}
