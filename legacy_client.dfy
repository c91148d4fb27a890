/**
 * The two registry-based clients. `ClientImpl` (with the `Client` interface
 * it implements and the do-nothing `ClientNoOpImpl`) and the older
 * `Client` class build their forms with the same statements
 * (`LegacyForms`); they differ only in the iOS User-Agent header
 * `ClientImpl` computes, which is not part of this model. Posting a form is
 * modelled by appending the request to `sent`. Both constructors check the
 * application name and version exactly as the struct-based client does
 * (`RealClient.ConstructorCheck`).
 */
module LegacyClient {
  import opened Common
  import opened LegacyForms
  import opened RealClient

  /** `ClientImpl`, the registry-based client behind the `Client` interface. */
  class ClientImpl {
    const trackingId: string
    const clientId: string
    const appName: string
    const appVersion: string
    const url: string
    const customMetrics: Registry
    const customDimensions: Registry
    /** `"{Screen.width}x{Screen.height}"`, read once at construction. */
    const screenResolution: string
    /** Every request posted so far, oldest first. */
    var sent: seq<Request>

    /** What `createForm` and the custom-field helpers read. */
    function Settings(): Setup {
      Setup(trackingId, clientId, appName, appVersion, screenResolution, customMetrics, customDimensions)
    }

    constructor (trackingId: string, clientId: string, appName: string, appVersion: string,
                 customMetrics: Registry, customDimensions: Registry, url: string, screenResolution: string)
      requires ConstructorCheck(appName, appVersion) == Pass
      ensures Settings() == Setup(trackingId, clientId, appName, appVersion, screenResolution, customMetrics, customDimensions)
      ensures this.url == url && sent == []
    {
      this.trackingId := trackingId;
      this.clientId := clientId;
      this.appName := appName;
      this.appVersion := appVersion;
      this.customMetrics := customMetrics;
      this.customDimensions := customDimensions;
      this.url := url;
      this.screenResolution := screenResolution;
      sent := [];
    }

    /** `new ClientImpl(...)`, which throws when `appName` or `appVersion` is over 100 characters. */
    static method Create(trackingId: string, clientId: string, appName: string, appVersion: string,
                         customMetrics: Registry, customDimensions: Registry, url: string,
                         screenResolution: string) returns (r: Result<ClientImpl>)
      ensures r.Ok? <==> ConstructorCheck(appName, appVersion) == Pass
      ensures r.Err? ==> ConstructorCheck(appName, appVersion) == Fail(r.error)
      ensures r.Ok? ==> && fresh(r.value) && r.value.sent == [] && r.value.url == url
                        && r.value.Settings() == Setup(trackingId, clientId, appName, appVersion, screenResolution,
                                                       customMetrics, customDimensions)
    {
      var check := ConstructorCheck(appName, appVersion);
      if check.Fail? {
        return Err(check.error);
      }
      var c := new ClientImpl(trackingId, clientId, appName, appVersion, customMetrics, customDimensions, url, screenResolution);
      return Ok(c);
    }

    /** `post`: one request to `url` with the form. */
    method Post(fields: Fields)
      modifies this
      ensures sent == old(sent) + [Request(url, fields)]
    {
      sent := sent + [Request(url, fields)];
    }

    /** `SessionStart`: posts the base form with `sc=start`. */
    method SessionStart()
      modifies this
      ensures sent == old(sent) + [Request(url, SessionForm(Settings(), "start"))]
    {
      var fields := BuildSession(Settings(), "start");
      Post(fields);
    }

    /** `SessionEnd`: posts the base form with `sc=end`. */
    method SessionEnd()
      modifies this
      ensures sent == old(sent) + [Request(url, SessionForm(Settings(), "end"))]
    {
      var fields := BuildSession(Settings(), "end");
      Post(fields);
    }

    /** `Event`: posts the event's form, or throws before posting anything. */
    method Event(category: Option<string>, action: Option<string>, labelText: Option<string>, value: Option<int32>,
                 metricValues: Option<Dict<CustomKey, uint32>>, dimensionValues: Option<Dict<CustomKey, string>>)
      returns (r: Outcome)
      modifies this
      ensures r == EventForm(Settings(), category, action, labelText, value, metricValues, dimensionValues).ToOutcome()
      ensures sent == old(sent) + if r.Fail? then []
                                 else [Request(url, EventForm(Settings(), category, action, labelText, value,
                                                              metricValues, dimensionValues).value)]
    {
      var fields := BuildEvent(Settings(), category, action, labelText, value, metricValues, dimensionValues);
      if fields.Err? {
        return Fail(fields.error);
      }
      Post(fields.value);
      r := Pass;
    }

    /** `AppView`: posts the screen view's form, or throws before posting anything. */
    method AppView(screenName: Option<string>) returns (r: Outcome)
      modifies this
      ensures r == AppViewForm(Settings(), screenName).ToOutcome()
      ensures sent == old(sent) + if r.Fail? then [] else [Request(url, AppViewForm(Settings(), screenName).value)]
    {
      var fields := BuildAppView(Settings(), screenName);
      if fields.Err? {
        return Fail(fields.error);
      }
      Post(fields.value);
      r := Pass;
    }

    /** `Item`: posts the item's form, or throws before posting anything. */
    method Item(name: Option<string>, price: Option<string>, quantity: Option<int32>, code: Option<string>,
                category: Option<string>, currencyCode: Option<string>) returns (r: Outcome)
      modifies this
      ensures r == ItemForm(Settings(), name, price, quantity, code, category, currencyCode).ToOutcome()
      ensures sent == old(sent) + if r.Fail? then []
                                 else [Request(url, ItemForm(Settings(), name, price, quantity, code, category,
                                                             currencyCode).value)]
    {
      var fields := BuildItem(Settings(), name, price, quantity, code, category, currencyCode);
      if fields.Err? {
        return Fail(fields.error);
      }
      Post(fields.value);
      r := Pass;
    }
  }

  /** `Client`, the oldest client: the same fields and statements as `ClientImpl`. */
  class Client {
    const trackingId: string
    const clientId: string
    const appName: string
    const appVersion: string
    const url: string
    const customMetrics: Registry
    const customDimensions: Registry
    /** `"{Screen.width}x{Screen.height}"`, read once at construction. */
    const screenResolution: string
    /** Every request posted so far, oldest first. */
    var sent: seq<Request>

    /** What `createForm` and the custom-field helpers read. */
    function Settings(): Setup {
      Setup(trackingId, clientId, appName, appVersion, screenResolution, customMetrics, customDimensions)
    }

    constructor (trackingId: string, clientId: string, appName: string, appVersion: string,
                 customMetrics: Registry, customDimensions: Registry, url: string, screenResolution: string)
      requires ConstructorCheck(appName, appVersion) == Pass
      ensures Settings() == Setup(trackingId, clientId, appName, appVersion, screenResolution, customMetrics, customDimensions)
      ensures this.url == url && sent == []
    {
      this.trackingId := trackingId;
      this.clientId := clientId;
      this.appName := appName;
      this.appVersion := appVersion;
      this.customMetrics := customMetrics;
      this.customDimensions := customDimensions;
      this.url := url;
      this.screenResolution := screenResolution;
      sent := [];
    }

    /** `new Client(...)`, which throws when `appName` or `appVersion` is over 100 characters. */
    static method Create(trackingId: string, clientId: string, appName: string, appVersion: string,
                         customMetrics: Registry, customDimensions: Registry, url: string,
                         screenResolution: string) returns (r: Result<Client>)
      ensures r.Ok? <==> ConstructorCheck(appName, appVersion) == Pass
      ensures r.Err? ==> ConstructorCheck(appName, appVersion) == Fail(r.error)
      ensures r.Ok? ==> && fresh(r.value) && r.value.sent == [] && r.value.url == url
                        && r.value.Settings() == Setup(trackingId, clientId, appName, appVersion, screenResolution,
                                                       customMetrics, customDimensions)
    {
      var check := ConstructorCheck(appName, appVersion);
      if check.Fail? {
        return Err(check.error);
      }
      var c := new Client(trackingId, clientId, appName, appVersion, customMetrics, customDimensions, url, screenResolution);
      return Ok(c);
    }

    /** `post`: one request to `url` with the form. */
    method Post(fields: Fields)
      modifies this
      ensures sent == old(sent) + [Request(url, fields)]
    {
      sent := sent + [Request(url, fields)];
    }

    /** `SessionStart`: posts the base form with `sc=start`. */
    method SessionStart()
      modifies this
      ensures sent == old(sent) + [Request(url, SessionForm(Settings(), "start"))]
    {
      var fields := BuildSession(Settings(), "start");
      Post(fields);
    }

    /** `SessionEnd`: posts the base form with `sc=end`. */
    method SessionEnd()
      modifies this
      ensures sent == old(sent) + [Request(url, SessionForm(Settings(), "end"))]
    {
      var fields := BuildSession(Settings(), "end");
      Post(fields);
    }

    /** `Event`: posts the event's form, or throws before posting anything. */
    method Event(category: Option<string>, action: Option<string>, labelText: Option<string>, value: Option<int32>,
                 metricValues: Option<Dict<CustomKey, uint32>>, dimensionValues: Option<Dict<CustomKey, string>>)
      returns (r: Outcome)
      modifies this
      ensures r == EventForm(Settings(), category, action, labelText, value, metricValues, dimensionValues).ToOutcome()
      ensures sent == old(sent) + if r.Fail? then []
                                 else [Request(url, EventForm(Settings(), category, action, labelText, value,
                                                              metricValues, dimensionValues).value)]
    {
      var fields := BuildEvent(Settings(), category, action, labelText, value, metricValues, dimensionValues);
      if fields.Err? {
        return Fail(fields.error);
      }
      Post(fields.value);
      r := Pass;
    }

    /** `AppView`: posts the screen view's form, or throws before posting anything. */
    method AppView(screenName: Option<string>) returns (r: Outcome)
      modifies this
      ensures r == AppViewForm(Settings(), screenName).ToOutcome()
      ensures sent == old(sent) + if r.Fail? then [] else [Request(url, AppViewForm(Settings(), screenName).value)]
    {
      var fields := BuildAppView(Settings(), screenName);
      if fields.Err? {
        return Fail(fields.error);
      }
      Post(fields.value);
      r := Pass;
    }

    /** `Item`: posts the item's form, or throws before posting anything. */
    method Item(name: Option<string>, price: Option<string>, quantity: Option<int32>, code: Option<string>,
                category: Option<string>, currencyCode: Option<string>) returns (r: Outcome)
      modifies this
      ensures r == ItemForm(Settings(), name, price, quantity, code, category, currencyCode).ToOutcome()
      ensures sent == old(sent) + if r.Fail? then []
                                 else [Request(url, ItemForm(Settings(), name, price, quantity, code, category,
                                                             currencyCode).value)]
    {
      var fields := BuildItem(Settings(), name, price, quantity, code, category, currencyCode);
      if fields.Err? {
        return Fail(fields.error);
      }
      Post(fields.value);
      r := Pass;
    }
  }

  /** `ClientNoOpImpl`: every call returns without doing anything. */
  datatype ClientNoOpImpl = ClientNoOpImpl
  {
    function SessionStart(): (r: Outcome)
      ensures r == Pass
    {
      Pass
    }

    function SessionEnd(): (r: Outcome)
      ensures r == Pass
    {
      Pass
    }

    function Event(category: Option<string>, action: Option<string>, labelText: Option<string>, value: Option<int32>,
                   metricValues: Option<Dict<CustomKey, uint32>>, dimensionValues: Option<Dict<CustomKey, string>>)
      : (r: Outcome)
      ensures r == Pass
    {
      Pass
    }

    function AppView(screenName: Option<string>): (r: Outcome)
      ensures r == Pass
    {
      Pass
    }

    function Item(name: Option<string>, price: Option<string>, quantity: Option<int32>, code: Option<string>,
                  category: Option<string>, currencyCode: Option<string>): (r: Outcome)
      ensures r == Pass
    {
      Pass
    }
  }
}
