# Google Analytics client for Unity, in Dafny

The library turns typed analytics hits into flat key/value forms that follow
the Google Analytics Measurement Protocol (version 1). It posts one form per
tracking id. Three generations of the code live side by side in the
repository, and each is modelled as its own part:

- **Field helpers.** `FormExts`: the newer copies truncate a value to a
  field's limit (`fixLength`) and insert it with `Dictionary.Add`, which
  throws on a repeated name. `RejectingFormExts`: the oldest copy rejects an
  over-long value instead (`checkLength`, where a limit of 0 means "no
  limit") and appends it to a Unity `WWWForm`.
- **Hit data model** (`Hits`): the four immutable hit structs (`GAEvent`,
  `GAAppView`, `GAItem`, `GATiming`) with their constructor checks and
  `withReferrer` copies, and the `GAReferrer` value with `fromQueryString`
  and its `ToString`.
- **The struct-based client** (`RealForms`, `RealClient`). `GAClientImpl`
  builds each hit's form by successive dictionary insertions, keeps the
  current screen name as its one piece of mutable state, and posts the form
  once per tracking id with `tid` added. `RealForms` describes each hit's
  form as a list of insertion steps and proves what form results. `RealClient`
  is the client class, whose methods run those steps on a form object.
- **The registry-based clients** (`LegacyForms`, `LegacyClient`). `ClientImpl`
  and the older `Client` look custom metrics and dimensions up in registries
  passed to the constructor. Every error is raised before anything is posted:
  a missing registry, an unregistered key, an over-long value, an event with
  nothing set, an item without a name.
- **Composition** (`DimensionsWrapper`, `MultiClient`, `TestClient`,
  `LegacyTestClient`, `NoOp`):
  - a wrapper that merges base dimensions into every hit, the hit's own
    values winning;
  - a fan-out client that calls its clients in order;
  - recording test doubles;
  - a singleton client that does nothing.

Exceptions are modelled as `Outcome`/`Result` values. Nullable hit fields,
optional arguments and `Option` values are modelled as `Option`. Constructor
arguments and collections are never null (see "## Left out"). Dictionaries that are enumerated are association lists in
enumeration order, and registries that are only looked up are maps. Sending a
form over the network is modelled by appending the request to the client's
`sent` list.

All paths below are relative to the repository root. Two files are copies of files modelled once. `parts/0000-core/Assets/Vendor/GoogleAnalytics/FormExts.cs` is the truncating helper without the `Option` overload, so it shares `FormExts`. In `Assets/Vendor/GoogleAnalytics/Client.cs`, the `Client` class's `addCustom`, `addDimensions` and `createForm` are those of `ClientImpl` and share `LegacyForms`.

## Model

| member | source | states |
|---|---|---|
| FormExts.FixLength | parts/0000-core/Assets/Plugins/Vendor/GoogleAnalytics/FormExts.cs:30-34 | With a negative limit the value is returned unchanged. Otherwise the result is a prefix of the value of length min(length, limit). |
| FormExts.FixLengthIdempotent | parts/0000-core/Assets/Plugins/Vendor/GoogleAnalytics/FormExts.cs:30-34 | Truncating twice to the same limit gives the same result as truncating once. |
| FormExts.FixLengthWithinLimit | parts/0000-core/Assets/Plugins/Vendor/GoogleAnalytics/FormExts.cs:32 | A value already within the limit is left as it is. |
| FormExts.CheckLength | parts/0000-core/Assets/Plugins/Vendor/GoogleAnalytics/FormExts.cs:21-28 | Fails exactly when the limit is non-zero and the value is longer than it, and the error names the argument and the limit. |
| FormExts.CheckLengthZeroDisables | parts/0000-core/Assets/Plugins/Vendor/GoogleAnalytics/FormExts.cs:24 | A limit of 0 never fails. |
| FormExts.DictAddSpec | parts/0000-core/Assets/Plugins/Vendor/GoogleAnalytics/FormExts.cs:11 | `Dictionary.Add` succeeds exactly when the key is absent, and then appends the entry. Otherwise it throws for that key. |
| FormExts.FormDictionary.Add | parts/0000-core/Assets/Plugins/Vendor/GoogleAnalytics/FormExts.cs:11 | The form object changes as `DictAdd` says and keeps its keys distinct. |
| FormExts.AddInsertsOnlyKey | parts/0000-core/Assets/Plugins/Vendor/GoogleAnalytics/FormExts.cs:7-19 | A null string or an empty `Option` leaves the form unchanged. A present value fails exactly when the key is already there. Otherwise it keeps every earlier entry, maps the key to the truncated value and changes no other lookup. |
| FormExts.Add | parts/0000-core/Assets/Plugins/Vendor/GoogleAnalytics/FormExts.cs:7-19 | `add` on a form object leaves the state that `AddSpec` describes, and fails when `AddSpec` does. |
| RejectingFormExts.AddAppendsOrRejects | Assets/Vendor/GoogleAnalytics/FormExts.cs:6-13 | A null value appends nothing. A value within the limit, or any value when the limit is 0 (the default), appends exactly `(googleName, value)` unmodified. An over-long value fails and appends nothing. |
| RejectingFormExts.Add | Assets/Vendor/GoogleAnalytics/FormExts.cs:6-13 | The check comes before the append: a failed check leaves the form as it was. |
| LegacyForms.AddMeaning | Assets/Vendor/GoogleAnalytics/FormExts.cs:6-13 | For a non-negative limit, `add` appends the present value unchanged when the limit is 0 or the value is within it, and throws `ArgumentTooLong` otherwise. |
| RejectingFormExts.CheckLengthWithinLimit | Assets/Vendor/GoogleAnalytics/FormExts.cs:15-22 | The check passes whenever the value is within the limit. |
| Hits.NewEventChecks | parts/0000-core/Assets/Vendor/GoogleAnalytics/Client.cs:18-35 | The constructor rejects exactly the event whose category, action, label and value are all null. Any other event is stored as given. |
| Hits.GAEvent.WithReferrer | parts/0000-core/Assets/Vendor/GoogleAnalytics/Client.cs:18-38 | The copy goes through the constructor again. It throws `AllParametersNull` exactly when category, action, label and value are all null, which only `default(GAEvent)` can be. Otherwise it equals the receiver in every field except the referrer, which is the argument. |
| Hits.GAAppView.WithReferrer | parts/0000-core/Assets/Vendor/GoogleAnalytics/Client.cs:71-72 | Only the referrer differs from the receiver. |
| Hits.NewItem | parts/0000-core/Assets/Vendor/GoogleAnalytics/Client.cs:101-119 | The constructor throws `ArgumentNullException("name")` exactly for a null name. Otherwise every field is stored as given. |
| Hits.GAItem.WithReferrer | parts/0000-core/Assets/Vendor/GoogleAnalytics/Client.cs:101-123 | The copy goes through the constructor again. It throws `ArgumentNullException("name")` exactly when the name is null, which only `default(GAItem)` can have. Otherwise only the referrer differs from the receiver. |
| Hits.GATiming.WithReferrer | parts/0000-core/Assets/Vendor/GoogleAnalytics/Client.cs:167-169 | Only the referrer differs from the receiver. |
| Hits.ToDictionaryOk | parts/0000-core/Assets/Vendor/GoogleAnalytics/Client.cs:220 | `ToDictionary` fails exactly on a repeated key, and otherwise keeps the pairs in order. |
| Hits.FromQueryStringFields | parts/0000-core/Assets/Vendor/GoogleAnalytics/Client.cs:218-229 | A parse failure is passed on. A repeated parameter fails. Otherwise the campaign name, source, medium, keyword and content are the `utm_campaign`, `utm_source`, `utm_medium`, `utm_term` and `utm_content` values, and the document referrer and campaign id are empty. |
| Hits.AddPart | parts/0000-core/Assets/Vendor/GoogleAnalytics/Client.cs:231-240 | An absent value changes nothing. A present one appends "name: value", preceded by ", " unless it is the first part, and clears the flag. |
| Hits.AddPartTracked | parts/0000-core/Assets/Vendor/GoogleAnalytics/Client.cs:231-240 | After each call the builder holds the parts written so far joined by ", ", and the flag says whether none has been written yet. |
| Hits.GAReferrer.ToString | parts/0000-core/Assets/Vendor/GoogleAnalytics/Client.cs:242-255 | The text is "GAReferrer[", then the present fields in declaration order as "name: value" joined by ", ", then "]". |
| Hits.WithDefaultReferrer | parts/0000-core/Assets/Vendor/GoogleAnalytics/Client.cs:305-308 | A hit that has a referrer is passed on unchanged. A hit without one is modelled as getting the given referrer through its `withReferrer`, and nothing else changes. That copy throws, with the constructor's error, exactly for a struct default its constructor rejects. |
| DimensionsWrapper.WithBaseDimensions | parts/0000-core/Assets/Vendor/GoogleAnalytics/Client.cs:301-303 | The result is a wrapper around the client with the given base dimensions. |
| RealClient.ConstructorCheck | parts/0000-core/Assets/Vendor/GoogleAnalytics/Implementations/Real.cs:26-27 | The constructor throws exactly when the app name or the app version is over 100 characters, naming the app name first. |
| RealClient.GAClientImpl.Create | parts/0000-core/Assets/Vendor/GoogleAnalytics/Implementations/Real.cs:21-50 | A new client exists exactly when the check passes. It stores its arguments, its screen name is "Not Set", and it has sent nothing. |
| RealClient.GAClientImpl.constructor | parts/0000-core/Assets/Vendor/GoogleAnalytics/Implementations/Real.cs:14 | The initial screen name is "Not Set". |
| RealClient.GAClientImpl.CreateForm | parts/0000-core/Assets/Vendor/GoogleAnalytics/Implementations/Real.cs:136-146 | The new form is `v=1`, `cid`, `an`, `av`, `sr`, then `cd` with the current screen name truncated to 2048 (no `cd` when the name is null). |
| RealClient.GAClientImpl.AddCustom | parts/0000-core/Assets/Vendor/GoogleAnalytics/Implementations/Real.cs:125-134 | Each pair is added, in enumeration order, under "googleName + index" with its value. A null map adds nothing, and a repeated name throws. |
| RealClient.GAClientImpl.AddMetrics | parts/0000-core/Assets/Vendor/GoogleAnalytics/Implementations/Real.cs:103-105 | Metric values are added in decimal under `cm<index>`. |
| RealClient.GAClientImpl.AddDimensions | parts/0000-core/Assets/Vendor/GoogleAnalytics/Implementations/Real.cs:107-113 | Every value is checked against 150 before any `cd<index>` field is added. A null map adds nothing. |
| RealForms.CheckDimensionListFits | parts/0000-core/Assets/Vendor/GoogleAnalytics/Implementations/Real.cs:109-110 | The check passes exactly when every dimension value is at most 150 characters. |
| RealClient.GAClientImpl.AddReferrer | parts/0000-core/Assets/Vendor/GoogleAnalytics/Implementations/Real.cs:115-123 | The referrer's present fields are added in order, as `dr`≤2048, `cn`≤100, `cs`≤100, `cm`≤50, `ck`≤500, `cc`≤500 and `ci`≤100. |
| RealForms.AddReferrerStepsFields | parts/0000-core/Assets/Vendor/GoogleAnalytics/Implementations/Real.cs:115-123 | The referrer's steps add exactly its present fields, each truncated to its limit, and never fail on their own. |
| RealClient.GAClientImpl.AddCustomFields | parts/0000-core/Assets/Vendor/GoogleAnalytics/Implementations/Real.cs:59-61 | Metrics, then dimensions, then the referrer if there is one, as the common steps describe. |
| RealForms.CustomStepsFields | parts/0000-core/Assets/Vendor/GoogleAnalytics/Implementations/Real.cs:59-61 | The common tail of every hit adds the metric fields, then the dimension fields, then the referrer fields. It fails only on an over-long dimension value. |
| RealForms.FormNames | parts/0000-core/Assets/Vendor/GoogleAnalytics/Implementations/Real.cs:125-134 | A hit's form names are distinct exactly when no two metrics, and no two dimensions, share an index. `tid` is never among them. |
| RealClient.GAClientImpl.CopyToWwwForm | parts/0000-core/Assets/Vendor/GoogleAnalytics/Implementations/Real.cs:150-151 | The `WWWForm` holds the form's entries in enumeration order. |
| RealClient.GAClientImpl.Post | parts/0000-core/Assets/Vendor/GoogleAnalytics/Implementations/Real.cs:148-153 | One request per tracking id is sent, in collection order. Each is the form followed by `tid` with that id. The screen name is untouched. |
| RealClient.RequestsCarryTrackingId | parts/0000-core/Assets/Vendor/GoogleAnalytics/Implementations/Real.cs:148-153 | There are as many requests as tracking ids. Each carries the whole form, and for a form without `tid` it reports exactly its own id. |
| RealClient.GAClientImpl.AddEventHead | parts/0000-core/Assets/Vendor/GoogleAnalytics/Implementations/Real.cs:53-58 | The form gets `t=event`, then `ec`/`ea`/`el` truncated and omitted when null, then `ev` only when the value is present. |
| RealClient.GAClientImpl.Event | parts/0000-core/Assets/Vendor/GoogleAnalytics/Implementations/Real.cs:52-64 | The outcome is that of the event's steps from the current base form. Its requests are sent only when it succeeds. The screen name does not change. |
| RealForms.EventFormOutcome | parts/0000-core/Assets/Vendor/GoogleAnalytics/Implementations/Real.cs:52-64 | An event succeeds exactly when its dimension values fit and no metric or dimension index repeats. Its form is then the base, the event fields and the custom fields, without `tid`. |
| RealClient.GAClientImpl.AppView | parts/0000-core/Assets/Vendor/GoogleAnalytics/Implementations/Real.cs:66-74 | The screen name becomes the hit's before the form is built, so its own `cd` and every later hit's `cd` reflect it. The form gets `t=screenview` and is sent only on success. |
| RealForms.AppViewFormOutcome | parts/0000-core/Assets/Vendor/GoogleAnalytics/Implementations/Real.cs:66-74 | A screen view's form is the base with its own screen name, `t=screenview` and the custom fields. It fails exactly as for events. |
| RealClient.GAClientImpl.AddItemHead | parts/0000-core/Assets/Vendor/GoogleAnalytics/Implementations/Real.cs:78-83 | The form gets `in` (truncated to 500, and omitted for the null name of `default(GAItem)`), `ip`/`iq` only when present, `ic`/`iv` (500) and `cu` (10). There is no hit type. |
| RealClient.GAClientImpl.Item | parts/0000-core/Assets/Vendor/GoogleAnalytics/Implementations/Real.cs:76-88 | The outcome is that of the item's steps, and its requests are sent only on success. The screen name does not change. |
| RealForms.ItemFormOutcome | parts/0000-core/Assets/Vendor/GoogleAnalytics/Implementations/Real.cs:76-88 | An item's form is the base, the item fields and the custom fields. It fails exactly as for events. |
| RealClient.GAClientImpl.AddTimingHead | parts/0000-core/Assets/Vendor/GoogleAnalytics/Implementations/Real.cs:92-96 | The form gets `t=timing`, `utc`≤150, `utv`≤500, `utt` = the time in decimal, and `utl`≤500 only when the label is non-null. |
| RealClient.GAClientImpl.Timing | parts/0000-core/Assets/Vendor/GoogleAnalytics/Implementations/Real.cs:90-101 | The outcome is that of the timing's steps, and its requests are sent only on success. The screen name does not change. |
| RealForms.HitFormOutcome | parts/0000-core/Assets/Vendor/GoogleAnalytics/Implementations/Real.cs:52-101 | Every hit's steps succeed exactly when its dimension values fit and no custom index repeats. The form is then the base, the head fields and the custom fields, and it holds no `tid`. |
| RealForms.TimingFormOutcome | parts/0000-core/Assets/Vendor/GoogleAnalytics/Implementations/Real.cs:90-101 | A timing's form is the base, the timing fields and the custom fields. It fails exactly as for events. |
| DimensionsWrapper.Wrapper.Add | parts/0000-core/Assets/Vendor/GoogleAnalytics/Implementations/Wrappers.cs:49-54 | The loop computes `AddSpec`: a null map gives the base map itself. Otherwise the pairs are written over a copy of the base, in order. |
| DimensionsWrapper.AddMerges | parts/0000-core/Assets/Vendor/GoogleAnalytics/Implementations/Wrappers.cs:49-54 | A null map gives the base. A null base with a map throws. Otherwise the result has every key of both maps, a key of the hit maps to the hit's value and any other key to the base's, and no key repeats. |
| DimensionsWrapper.MergeUnion | parts/0000-core/Assets/Vendor/GoogleAnalytics/Implementations/Wrappers.cs:51-53 | Overwriting a copy gives the union in which the later map wins. |
| DimensionsWrapper.Wrapper.Event | parts/0000-core/Assets/Vendor/GoogleAnalytics/Implementations/Wrappers.cs:13-23 | The innermost client receives the event with every field unchanged except its dimensions, which are merged through every wrapper. A failing merge throws. |
| DimensionsWrapper.Wrapper.AppView | parts/0000-core/Assets/Vendor/GoogleAnalytics/Implementations/Wrappers.cs:25-31 | The same, for a screen view. |
| DimensionsWrapper.Wrapper.Item | parts/0000-core/Assets/Vendor/GoogleAnalytics/Implementations/Wrappers.cs:33-43 | The same, for an item. |
| DimensionsWrapper.Wrapper.WithBaseDimensions | parts/0000-core/Assets/Vendor/GoogleAnalytics/Implementations/Wrappers.cs:45-47 | The result is a new wrapper whose underlying client is this wrapper. |
| DimensionsWrapper.SingleWrapper | parts/0000-core/Assets/Vendor/GoogleAnalytics/Implementations/Wrappers.cs:18-22 | One wrapper hands its client what `add` returns. |
| DimensionsWrapper.NestedDelivered | parts/0000-core/Assets/Vendor/GoogleAnalytics/Implementations/Wrappers.cs:45-47 | Two nested wrappers merge the hit into the outer base, then the result into the inner base. |
| DimensionsWrapper.MergeTwice | parts/0000-core/Assets/Vendor/GoogleAnalytics/Implementations/Wrappers.cs:49-54 | Of two merges, the later map wins over the earlier ones. |
| DimensionsWrapper.NestedPrecedence | parts/0000-core/Assets/Vendor/GoogleAnalytics/Implementations/Wrappers.cs:45-54 | Under nesting, the hit's value wins, then the outer base, then the inner base. The keys are those of all three maps. |
| MultiClient.Dispatch | parts/0000-core/Assets/Plugins/Vendor/GoogleAnalytics/Implementations/Multi.cs:7-9 | The calls are made to the clients in array order, each with the identical hit. The loop finishes exactly when every client returns. Otherwise the last call is to the first client that throws, and its exception is the result. |
| MultiClient.NoClientsNoCalls | parts/0000-core/Assets/Plugins/Vendor/GoogleAnalytics/Implementations/Multi.cs:8 | With no clients nothing is called and nothing fails. |
| MultiClient.AllClientsCalled | parts/0000-core/Assets/Plugins/Vendor/GoogleAnalytics/Implementations/Multi.cs:7-21 | When every client returns, each is called exactly once, in order, with the same hit. |
| MultiClient.StopsAtFirstFailure | parts/0000-core/Assets/Plugins/Vendor/GoogleAnalytics/Implementations/Multi.cs:8 | When client j throws after all earlier clients returned, clients 0..j are called and no later one is. |
| MultiClient.MultiGAClient.constructor | parts/0000-core/Assets/Plugins/Vendor/GoogleAnalytics/Implementations/Multi.cs:5 | The array of clients is stored. |
| MultiClient.MultiGAClient.Send | parts/0000-core/Assets/Plugins/Vendor/GoogleAnalytics/Implementations/Multi.cs:8 | The `foreach` loop makes exactly the calls `Dispatch` describes. |
| MultiClient.MultiGAClient.Event | parts/0000-core/Assets/Plugins/Vendor/GoogleAnalytics/Implementations/Multi.cs:7-9 | The event is fanned out as `Dispatch` says. |
| MultiClient.MultiGAClient.AppView | parts/0000-core/Assets/Plugins/Vendor/GoogleAnalytics/Implementations/Multi.cs:11-13 | The screen view is fanned out as `Dispatch` says. |
| MultiClient.MultiGAClient.Item | parts/0000-core/Assets/Plugins/Vendor/GoogleAnalytics/Implementations/Multi.cs:15-17 | The item is fanned out as `Dispatch` says. |
| MultiClient.MultiGAClient.Timing | parts/0000-core/Assets/Plugins/Vendor/GoogleAnalytics/Implementations/Multi.cs:19-21 | The timing is fanned out as `Dispatch` says. |
| TestClient.GATestClient.constructor | parts/0000-core/Assets/Plugins/Vendor/GoogleAnalytics/Editor/Test/TestClient.cs:5-8 | All four lists start empty. |
| TestClient.GATestClient.Clear | parts/0000-core/Assets/Plugins/Vendor/GoogleAnalytics/Editor/Test/TestClient.cs:10-15 | All four lists become empty. |
| TestClient.GATestClient.Event | parts/0000-core/Assets/Plugins/Vendor/GoogleAnalytics/Editor/Test/TestClient.cs:17 | The event is appended to `events`, and the other lists are unchanged. |
| TestClient.GATestClient.AppView | parts/0000-core/Assets/Plugins/Vendor/GoogleAnalytics/Editor/Test/TestClient.cs:18 | Only `appViews` grows. |
| TestClient.GATestClient.Item | parts/0000-core/Assets/Plugins/Vendor/GoogleAnalytics/Editor/Test/TestClient.cs:19 | Only `items` grows. |
| TestClient.GATestClient.Timing | parts/0000-core/Assets/Plugins/Vendor/GoogleAnalytics/Editor/Test/TestClient.cs:20 | Only `timings` grows. |
| TestClient.RecordAllInOrder | parts/0000-core/Assets/Plugins/Vendor/GoogleAnalytics/Editor/Test/TestClient.cs:17-20 | After any sequence of calls, each list is its old contents followed by the hits of its kind, in call order, and has grown by their number. |
| TestClient.CountKinds | parts/0000-core/Assets/Plugins/Vendor/GoogleAnalytics/Editor/Test/TestClient.cs:17-20 | Every call lands in exactly one list. |
| LegacyTestClient.GATestClient.constructor | parts/0000-core/Assets/Vendor/GoogleAnalytics/Editor/Test/TestClient.cs:5-7 | All three lists start empty. |
| LegacyTestClient.GATestClient.Clear | parts/0000-core/Assets/Vendor/GoogleAnalytics/Editor/Test/TestClient.cs:9-13 | All three lists become empty. |
| LegacyTestClient.GATestClient.Event | parts/0000-core/Assets/Vendor/GoogleAnalytics/Editor/Test/TestClient.cs:15 | The event is appended to `events` only. |
| LegacyTestClient.GATestClient.AppView | parts/0000-core/Assets/Vendor/GoogleAnalytics/Editor/Test/TestClient.cs:16 | The screen view is appended to `appViews` only. |
| LegacyTestClient.GATestClient.Item | parts/0000-core/Assets/Vendor/GoogleAnalytics/Editor/Test/TestClient.cs:17 | The item is appended to `items` only. |
| NoOp.OnlyInstance | parts/0000-core/Assets/Vendor/GoogleAnalytics/Implementations/NoOp.cs:3-4 | There is exactly one no-op client, the shared instance. |
| NoOp.GAClientNoOpImpl.Event | parts/0000-core/Assets/Vendor/GoogleAnalytics/Implementations/NoOp.cs:6 | Any event is accepted and nothing happens. |
| NoOp.GAClientNoOpImpl.AppView | parts/0000-core/Assets/Vendor/GoogleAnalytics/Implementations/NoOp.cs:7 | Any screen view is accepted and nothing happens. |
| NoOp.GAClientNoOpImpl.Item | parts/0000-core/Assets/Vendor/GoogleAnalytics/Implementations/NoOp.cs:8 | Any item is accepted and nothing happens. |
| NoOp.GAClientNoOpImpl.Timing | parts/0000-core/Assets/Vendor/GoogleAnalytics/Implementations/NoOp.cs:9 | Any timing is accepted and nothing happens. |
| LegacyClient.ClientImpl.Create | parts/0000-core/Vendor/GoogleAnalytics/Client.cs:100-119 | The constructor throws exactly when the app name or version is over 100 characters. Otherwise it stores its arguments and has sent nothing. |
| LegacyClient.ClientImpl.constructor | parts/0000-core/Vendor/GoogleAnalytics/Client.cs:100-136 | A client built from arguments that pass the check stores them and has sent nothing. |
| LegacyClient.ClientImpl.Post | parts/0000-core/Vendor/GoogleAnalytics/Client.cs:239-258 | One request, holding the form, is sent to the client's url. |
| LegacyForms.CreateForm | parts/0000-core/Vendor/GoogleAnalytics/Client.cs:228-237 | The new form holds, in order, `v=1`, `tid`, `cid`, `an`, `av` and `sr`. |
| LegacyClient.ClientImpl.SessionStart | parts/0000-core/Vendor/GoogleAnalytics/Client.cs:138-142 | One request is posted: the base form plus `sc=start`. |
| LegacyClient.ClientImpl.SessionEnd | parts/0000-core/Vendor/GoogleAnalytics/Client.cs:144-148 | One request is posted: the base form plus `sc=end`. |
| LegacyForms.BuildEvent | parts/0000-core/Vendor/GoogleAnalytics/Client.cs:156-167 | The statements of `Event` give exactly `EventForm`: the value, or the exception. |
| LegacyForms.EventOutcome | parts/0000-core/Vendor/GoogleAnalytics/Client.cs:150-170 | An all-null event throws. An event is posted exactly when it is not all-null, `ec`/`ea`/`el` are within 150/500/500, every custom key is registered and every dimension value fits. The form is then the base, `t=event`, the present fields (with `ev` only for a value) and the custom fields. |
| LegacyForms.EventTooLong | parts/0000-core/Vendor/GoogleAnalytics/Client.cs:161-163 | An over-long category, action or label is rejected, not truncated, with its argument name and limit, category first. |
| LegacyClient.ClientImpl.Event | parts/0000-core/Vendor/GoogleAnalytics/Client.cs:150-170 | Every check precedes `post`: the event's form is posted only when it succeeds, and a failing event sends nothing. |
| LegacyForms.BuildAppView | parts/0000-core/Vendor/GoogleAnalytics/Client.cs:172-177 | The statements of `AppView` give exactly `AppViewForm`. |
| LegacyForms.AppViewOutcome | parts/0000-core/Vendor/GoogleAnalytics/Client.cs:172-177 | The form is the base, `t=appview` and `cd` = the screen name. A name over 1500 is rejected, and a null name adds no `cd`. |
| LegacyClient.ClientImpl.AppView | parts/0000-core/Vendor/GoogleAnalytics/Client.cs:172-177 | The form is posted only when it is well-formed. |
| LegacyForms.BuildItem | parts/0000-core/Vendor/GoogleAnalytics/Client.cs:183-191 | The statements of `Item` give exactly `ItemForm`. |
| LegacyForms.ItemOutcome | parts/0000-core/Vendor/GoogleAnalytics/Client.cs:179-193 | A null name throws `ArgumentNullException("name")`. An item is posted exactly when it has a name and `in`/`ic`/`iv` ≤500 and `cu` ≤10. The form is then the base, `in`, `ip`/`iq` when present, `ic`, `iv` and `cu`. |
| LegacyClient.ClientImpl.Item | parts/0000-core/Vendor/GoogleAnalytics/Client.cs:179-193 | The item's form is posted only when it succeeds. |
| LegacyForms.AddMetrics | parts/0000-core/Vendor/GoogleAnalytics/Client.cs:195-197 | `addCustom` with the metric registry, under `cm`. |
| LegacyForms.AddDimensions | parts/0000-core/Vendor/GoogleAnalytics/Client.cs:199-205 | Every value is checked against 150 before `addCustom` adds any field, and a null map adds nothing. |
| LegacyForms.DimensionsCheckedFirst | parts/0000-core/Vendor/GoogleAnalytics/Client.cs:199-205 | An over-long dimension value throws `ArgumentTooLong` even when the registry is null or a key is unregistered. With every value within the limit, the result is `addCustom` itself. |
| LegacyForms.CheckDimensionListSpec | parts/0000-core/Vendor/GoogleAnalytics/Client.cs:201-202 | The check passes exactly when every value is within 150. Otherwise it throws for the first value that is not, naming "dimension <key> value". |
| LegacyForms.AddDimensionsMeaning | parts/0000-core/Vendor/GoogleAnalytics/Client.cs:199-205 | Adding dimensions succeeds exactly when every value fits and every key is registered. It then appends one `cd<slot>` field per pair, in order. |
| LegacyForms.AddCustom | parts/0000-core/Vendor/GoogleAnalytics/Client.cs:207-226 | The loop computes `AddCustomSpec`. On a throw the form has only grown from its old contents. |
| LegacyForms.AddCustomSpecMeaning | parts/0000-core/Vendor/GoogleAnalytics/Client.cs:212-225 | A null values map appends nothing. A null registry then throws. Otherwise it succeeds exactly when every key is registered, appending `googleName + registry[key]` with the value for each pair, in order, and it throws `Unregistered` when a key is missing. |
| LegacyForms.CustomListSpec | parts/0000-core/Vendor/GoogleAnalytics/Client.cs:217-225 | The loop succeeds exactly when every key is registered, and then appends one field per pair, in order. Otherwise it throws for the first key that is not registered. |
| LegacyForms.FormsStartWithBase | parts/0000-core/Vendor/GoogleAnalytics/Client.cs:138-193 | Every form the client posts starts with the base form. |
| LegacyClient.ClientNoOpImpl.Event | parts/0000-core/Vendor/GoogleAnalytics/Client.cs:288 | Any event is accepted and nothing happens. |
| LegacyClient.ClientNoOpImpl.SessionStart | parts/0000-core/Vendor/GoogleAnalytics/Client.cs:286 | Returns, doing nothing. |
| LegacyClient.ClientNoOpImpl.SessionEnd | parts/0000-core/Vendor/GoogleAnalytics/Client.cs:287 | Returns, doing nothing. |
| LegacyClient.ClientNoOpImpl.AppView | parts/0000-core/Vendor/GoogleAnalytics/Client.cs:289 | Returns, doing nothing. |
| LegacyClient.ClientNoOpImpl.Item | parts/0000-core/Vendor/GoogleAnalytics/Client.cs:290 | Returns, doing nothing. |
| LegacyClient.Client.Create | Assets/Vendor/GoogleAnalytics/Client.cs:57-77 | The constructor throws exactly when the app name or version is over 100 characters (lines 64-65). Otherwise it stores its arguments. |
| LegacyClient.Client.constructor | Assets/Vendor/GoogleAnalytics/Client.cs:57-77 | A client built from arguments that pass the check stores them and has sent nothing. |
| LegacyClient.Client.Post | Assets/Vendor/GoogleAnalytics/Client.cs:200-215 | One request, holding the form, is sent to the client's url. |
| LegacyClient.Client.SessionStart | Assets/Vendor/GoogleAnalytics/Client.cs:84-88 | The base form plus `sc=start` is posted. |
| LegacyClient.Client.SessionEnd | Assets/Vendor/GoogleAnalytics/Client.cs:91-95 | The base form plus `sc=end` is posted. |
| LegacyClient.Client.Event | Assets/Vendor/GoogleAnalytics/Client.cs:98-118 | An all-null event and over-long `ec`/`ea`/`el` (150/500/500) throw before `post`. `ev` is added only when present, and the form is posted only on success. |
| LegacyClient.Client.AppView | Assets/Vendor/GoogleAnalytics/Client.cs:121-126 | `t=appview` and `cd` = the screen name, limited to 1500, are posted only on success. |
| LegacyClient.Client.Item | Assets/Vendor/GoogleAnalytics/Client.cs:140-154 | A null name and over-long `in`/`ic`/`iv` (500) or `cu` (10) throw before `post`. |
| LegacyForms.BuildSession | Assets/Vendor/GoogleAnalytics/Client.cs:84-95 | The session forms are the base form plus `sc`. |

## Left out

- **Network and Unity I/O.** These are I/O and are out of reach of the verifier:
  - `new WWW(...)`, the encoding of `WWWForm.data`, `Debug.Log`, and the editor's `debugCurrentWwws` listing are not modelled. A post is the request appended to `sent`.
  - The iOS one-request-at-a-time queue (`ASync.oneAtATimeWWW`) is concurrency in a library this model does not see.
- **Platform reads.** The User-Agent header built from `SystemInfo` and the `Screen.width`/`Screen.height` read are left out. The screen resolution is a constructor parameter.
- **Random client ids.** `randomClientId` is left out, because `Guid`, `Random.value` and float rounding cannot be modelled deterministically.
- **Float formatting.** `price.ToString()` is float formatting, so `ip` is an opaque string the caller supplies.
- **Logging.** The logging client forwards to an external `ILog`, and is not part of this model.
- **`QueryString.parseKV`** belongs to an external library, so its result is a parameter of `FromQueryString` (the pairs, or a failure). `Option.ensureValue` (a null `Option` becomes `None`) is implied by the `Option` datatype.
- **The hit structs' own `ToString` overrides** depend on the external `asString`. Only `GAReferrer.ToString` is modelled.
- **`DefaultReferrerWrapper`'s body** is not part of the selected files. `Hits.WithDefaultReferrer` states the promise of the doc comment of `withDefaultReferrer`.
- **Wrapper interface.** `AlwaysIncludedDimensionsWrapper` is written against the older parameter-list interface. Its merge and delegation are modelled on the hit structs' `dimensionValues` field (every other argument is passed through unchanged). It has no `Timing`, so neither does the model.
- **The underlying client** of a wrapper is not run. A wrapper call is modelled by the hit the innermost client receives.
- **Obsolete extension overloads** (`GAClient.Event`/`AppView`/`Item` taking separate parameters) are left out. They only forward to the constructors.
- **Multi-client clients.** The clients of `MultiGAClient` are code this model does not see, so their answers are the `respond` parameter of each call. A call is recorded as the hit it receives.
- **Key objects.** `IMetric` and `IDimension` define no equality, so the dictionaries compare key objects by reference. The model gives each key an `id` standing for that reference: two keys with the same text and slot are different keys. The text a key contributes to an error message is its `name`, standing in for the key object's `ToString()`.
- **Null constructor arguments and collections.** `trackingIds`, `trackingId`, `clientId`, `appName`, `appVersion`, `url` and the `clients` array of `MultiGAClient` are never null in the model. In the library these cases throw:
  - A null `appName` or `appVersion` throws `NullReferenceException` in the constructor, because `checkLength` reads its `Length` (`Real.cs` lines 26-27, and lines 107-108 and 64-65 of the two `Client.cs` files).
  - A null `trackingIds` throws at the `foreach` of `post`, after the form is built.
  - A null `clients` array throws at the first call of `MultiGAClient`.
- RealClient.ConstructorCheck, LegacyClient.ClientImpl.Create, LegacyClient.Client.Create: "throws exactly when the app name or version is over 100 characters" holds for non-null arguments only. The null case is the `NullReferenceException` above.
- **Null values inside dictionaries** are not modelled: a dimension value is a string, never null.
- RealClient.GAClientImpl.CreateForm: the lookups of the base form (for example `cid` holding the client id) are not stated as a separate lemma. The form's entries are stated as a list instead.
- **Wrapper base map.** `add` writes into a copy of the base map and never into the map itself (`Wrappers.cs` line 51). The model states this by giving each call its own merged value.
- **Shared collections.** The C# constructors keep the caller's collections by reference and read them again on every call:
  - the tracking ids (`Real.cs` line 29);
  - the two registries (lines 114-115 and 71-72 of the two `Client.cs` files);
  - the clients array (`Multi.cs` line 5);
  - the base dimensions (`Wrappers.cs` line 10).

  A later change by the caller reaches later hits. If the caller adds a tracking id, the next hit is posted to it too, and so on. The model stores each collection as a value taken at construction, so it sees none of these changes. Aliasing between clients that share one collection is not captured either. The lines below name the members this affects.
- RealClient.GAClientImpl.Create: the tracking ids are a copy taken at construction, so ids the caller adds to or removes from its collection later do not change where hits are posted.
- LegacyClient.ClientImpl.Create: the metric and dimension registries are copies taken at construction, so keys registered later do not count.
- LegacyClient.ClientImpl.constructor: the registries are copies, as for `Create`.
- LegacyClient.Client.Create: the registries are copies taken at construction, so keys registered later do not count.
- LegacyClient.Client.constructor: the registries are copies, as for `Create`.
- MultiClient.MultiGAClient.constructor: the clients are a copy of the array, so later writes to the caller's array do not change which clients are called.
- DimensionsWrapper.WithBaseDimensions: the base dimensions are a copy taken when the wrapper is built, so the caller's later edits to that dictionary do not reach later hits.
- DimensionsWrapper.Wrapper.WithBaseDimensions: the new wrapper's base dimensions are a copy, as for `WithBaseDimensions`.
- LegacyForms.AddCustom: on failure the contract only says the form has grown from its old contents. The form is never posted then, and which fields precede the throw is not stated.
- **UTF-16 lengths.** C# `String.Length` and `Substring` count UTF-16 code units. A Dafny `string` is a sequence of Unicode scalar values, so every length in the model counts code points. A character outside the Basic Multilingual Plane (an emoji, say) is therefore one unit of the limit in the model and two in the library. A `Substring` that splits a surrogate pair cannot be expressed at all. The lines below name the members this affects.
- FormExts.FixLength: cuts to the limit in code points, not UTF-16 code units. A value of 100 emoji (200 code units) is cut to 150 code units by the library and kept whole by the model.
- FormExts.CheckLength: compares the length in code points with the limit. A value of more than the limit in UTF-16 code units but not in code points passes in the model and throws in the library.
- RejectingFormExts.CheckLength: the same difference. It applies to every limit of the registry-based clients: `LegacyForms.EventForm`, `AppViewForm`, `ItemForm` and `CheckDimensionList`.
- RealClient.ConstructorCheck: the 100-character limits on the app name and version are counted in code points.
