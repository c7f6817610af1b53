/**
 * The gateway every AFIP web service builds on: it picks the production or
 * the test WSDL and endpoint once, at construction, creates its SOAP client
 * lazily on the first request, and invokes named SOAP operations.
 *
 * The SOAP library is an oracle (`Soap`): loading a WSDL yields the endpoint
 * the WSDL declares, or fails; invoking an operation on a client yields the
 * reply tuple, or fails.
 */
module WebService {
  import opened Js

  /** The parent `Afip` object: its `options.production` flag and the represented CUIT. */
  datatype Afip = Afip(production: Value, CUIT: Value)

  /** The options object handed to the gateway's constructor. */
  datatype WebServiceOptions = WebServiceOptions(
    soapV12: Value,
    nsArrayElems: Value,
    WSDL: string,
    URL: string,
    WSDL_TEST: string,
    URL_TEST: string,
    afip: Afip)

  /** The options the SOAP client is created with. */
  datatype ClientOptions = ClientOptions(
    disableCache: bool,
    forceSoap12Headers: Value,
    namespaceArrayElements: Value,
    dateDeserializer: (string, Value) -> string)

  /** A created SOAP client: the WSDL it was loaded from, its options and its current endpoint. */
  datatype Client = Client(wsdl: string, options: ClientOptions, endpoint: string)

  /** The per-call options bag; the only option the SDK uses is a hook that rewrites the request XML before it is sent. */
  datatype CallOptions = CallOptions(postProcess: Option<string -> string>)

  const NoCallOptions: CallOptions := CallOptions(None)

  /** The SOAP library, as seen by the gateway. */
  datatype Soap = Soap(
    load: (string, ClientOptions) -> Result<string, Exception>,
    invoke: (Client, string, Value, CallOptions) -> Result<seq<Value>, Exception>)

  /** One invocation handed to the SOAP library: client method name, argument and options. */
  datatype Call = Call(operation: string, params: Value, options: CallOptions)

  /** The date deserializer the client is created with: the raw text of the element, unparsed. */
  function RawDate(text: string, context: Value): (r: string)
    ensures |r| == |text| && forall i :: 0 <= i < |r| ==> r[i] == text[i]
  {
    text
  }

  const ResourceDir: string := "Afip_res/"

  /** The location of a WSDL file shipped in the package's resource directory. */
  function ResourcePath(file: string): (p: string)
    ensures |p| == |ResourceDir| + |file|
    ensures p[..|ResourceDir|] == ResourceDir && p[|ResourceDir|..] == file
  {
    ResourceDir + file
  }

  /**
   * A plain file name: non-empty, no directory separator, and not one of the
   * relative segments `.` and `..`, so that resolving it against a directory
   * only appends it.
   */
  predicate PlainFileName(file: string) {
    && file != "" && file != "." && file != ".."
    && forall i :: 0 <= i < |file| ==> file[i] != '/'
  }

  /** Two different plain file names never resolve to the same location. */
  lemma ResourcePathInjective(a: string, b: string)
    requires PlainFileName(a) && PlainFileName(b)
    requires ResourcePath(a) == ResourcePath(b)
    ensures a == b
  {
    assert a == ResourcePath(a)[|ResourceDir|..];
  }

  /** `options.soapV12 || false`: the option itself when truthy, otherwise `false`. */
  function SoapV12(option: Value): (r: Value)
    ensures Truthy(r) <==> Truthy(option)
    ensures !Truthy(option) ==> r == Bool(false)
    ensures Truthy(option) ==> r == option
  {
    if Truthy(option) then option else Bool(false)
  }

  /** `true` when the option is undefined; any supplied value, `false` and `null` included, is kept. */
  function NsArrayElems(option: Value): (r: Value)
    ensures option.Undefined? ==> r == Bool(true)
    ensures !option.Undefined? ==> r == option
  {
    if option.Undefined? then Bool(true) else option
  }

  /** A supplied `false` survives for the array-semantics flag but not for the SOAP 1.2 flag. */
  lemma ExplicitFalseKeptOnlyForArrays()
    ensures NsArrayElems(Bool(false)) == Bool(false) && NsArrayElems(Undefined) == Bool(true)
    ensures SoapV12(Undefined) == Bool(false) && SoapV12(Num(0)) == Bool(false)
  {
  }

  /** The reply tuple's first element (`let [result] = reply`). */
  function FirstOf(reply: seq<Value>): (r: Value)
    ensures |reply| > 0 ==> r == reply[0]
    ensures |reply| == 0 ==> r == Undefined
  {
    if |reply| > 0 then reply[0] else Undefined
  }

  /** The gateway's settings, fixed by the constructor. */
  datatype Settings = Settings(
    soapv12: Value,
    nsArrayElems: Value,
    WSDL: string,
    URL: string,
    WSDL_TEST: string,
    URL_TEST: string,
    afip: Afip)

  class AfipWebService {
    var soapv12: Value
    var nsArrayElems: Value
    var WSDL: string
    var URL: string
    var WSDL_TEST: string
    var URL_TEST: string
    var afip: Afip
    /** The lazily created SOAP client. */
    var soapClient: Option<Client>

    /** How many clients this instance has created. */
    ghost var created: nat
    /** Every invocation handed to the SOAP library, oldest first. */
    ghost var calls: seq<Call>

    /** A created client exists exactly when one was created, and it talks to the resolved URL. */
    ghost predicate Valid()
      reads this
    {
      && created == (if soapClient.Some? then 1 else 0)
      && (soapClient.Some? ==> soapClient.value.wsdl == WSDL && soapClient.value.endpoint == URL)
    }

    function CurrentSettings(): Settings
      reads this
    {
      Settings(soapv12, nsArrayElems, WSDL, URL, WSDL_TEST, URL_TEST, afip)
    }

    /** The options a new client is created with. */
    function NewClientOptions(): (o: ClientOptions)
      reads this
      ensures o.disableCache && o.forceSoap12Headers == soapv12 && o.namespaceArrayElements == nsArrayElems
      ensures o.dateDeserializer == RawDate
    {
      ClientOptions(true, soapv12, nsArrayElems, RawDate)
    }

    /** The constructor body once the options object is known to be present. */
    constructor (options: WebServiceOptions)
      ensures Valid() && soapClient == None && calls == []
      ensures soapv12 == SoapV12(options.soapV12) && nsArrayElems == NsArrayElems(options.nsArrayElems)
      ensures WSDL_TEST == options.WSDL_TEST && URL_TEST == options.URL_TEST && afip == options.afip
      ensures Truthy(options.afip.production) ==> WSDL == ResourcePath(options.WSDL) && URL == options.URL
      ensures !Truthy(options.afip.production) ==> WSDL == ResourcePath(options.WSDL_TEST) && URL == options.URL_TEST
    {
      soapv12 := if Truthy(options.soapV12) then options.soapV12 else Bool(false);
      nsArrayElems := if options.nsArrayElems.Undefined? then Bool(true) else options.nsArrayElems;
      WSDL := options.WSDL;
      URL := options.URL;
      WSDL_TEST := options.WSDL_TEST;
      URL_TEST := options.URL_TEST;
      afip := options.afip;
      soapClient := None;
      created := 0;
      calls := [];
      new;
      if Truthy(afip.production) {
        WSDL := ResourcePath(WSDL);
      } else {
        WSDL := ResourcePath(WSDL_TEST);
        URL := URL_TEST;
      }
    }

    /**
     * `new AfipWebService(options)`: a missing (falsy) options object throws
     * 'Missing Web Service Object'; otherwise the gateway is built.
     */
    static method Create(options: Option<WebServiceOptions>) returns (r: Result<AfipWebService, Exception>)
      ensures r.Failure? <==> options.None?
      ensures r.Failure? ==> r.error == Error("Missing Web Service Object")
      ensures r.Success? ==> fresh(r.value) && r.value.Valid() && r.value.soapClient == None
      ensures r.Success? ==> r.value.calls == [] && r.value.afip == options.value.afip
      ensures r.Success? ==> r.value.soapv12 == SoapV12(options.value.soapV12)
                             && r.value.nsArrayElems == NsArrayElems(options.value.nsArrayElems)
      ensures r.Success? ==> r.value.WSDL_TEST == options.value.WSDL_TEST && r.value.URL_TEST == options.value.URL_TEST
      ensures r.Success? ==> r.value.WSDL == (if Truthy(options.value.afip.production)
                                              then ResourcePath(options.value.WSDL)
                                              else ResourcePath(options.value.WSDL_TEST))
      ensures r.Success? ==> r.value.URL == (if Truthy(options.value.afip.production)
                                             then options.value.URL else options.value.URL_TEST)
    {
      if options.None? {
        return Failure(Error("Missing Web Service Object"));
      }
      var gateway := new AfipWebService(options.value);
      return Success(gateway);
    }

    /** The client a request runs on: the cached one, or a newly loaded one pointed at `URL`. */
    function ClientFor(soap: Soap): (r: Result<Client, Exception>)
      reads this
      ensures soapClient.Some? ==> r == Success(soapClient.value)
      ensures soapClient.None? && r.Success? ==> r.value.wsdl == WSDL && r.value.endpoint == URL
      ensures soapClient.None? ==> (r.Success? <==> soap.load(WSDL, NewClientOptions()).Success?)
      ensures soapClient.None? && r.Failure? ==> r.error == soap.load(WSDL, NewClientOptions()).error
      ensures soapClient.None? && r.Success? ==> r.value.options == NewClientOptions()
    {
      match soapClient
      case Some(c) => Success(c)
      case None =>
        match soap.load(WSDL, NewClientOptions())
        case Failure(e) => Failure(e)
        case Success(_) => Success(Client(WSDL, NewClientOptions(), URL))
    }

    /** What `executeRequest(operation, params, options)` resolves or rejects with. */
    function Response(soap: Soap, operation: string, params: map<string, Value>, options: CallOptions): (r: Result<Value, Exception>)
      reads this
      ensures ClientFor(soap).Failure? ==> r == Failure(ClientFor(soap).error)
      ensures ClientFor(soap).Success? ==>
                var reply := soap.invoke(ClientFor(soap).value, operation + "Async", Record(params), options);
                && (reply.Failure? ==> r == Failure(reply.error))
                && (reply.Success? ==> r == Success(FirstOf(reply.value)))
    {
      match ClientFor(soap)
      case Failure(e) => Failure(e)
      case Success(c) =>
        match soap.invoke(c, operation + "Async", Record(params), options)
        case Failure(e) => Failure(e)
        case Success(reply) => Success(FirstOf(reply))
    }

    /** The invocations `executeRequest(operation, params, options)` hands to the SOAP library. */
    function Sent(soap: Soap, operation: string, params: map<string, Value>, options: CallOptions): (s: seq<Call>)
      reads this
      ensures |s| <= 1
      ensures |s| == 1 <==> ClientFor(soap).Success?
      ensures |s| == 1 ==> s[0] == Call(operation + "Async", Record(params), options)
    {
      if ClientFor(soap).Success? then [Call(operation + "Async", Record(params), options)] else []
    }

    /**
     * `executeRequest`: creates the client if there is none yet (and points it
     * at `URL`), then invokes `<operation>Async` with the parameters and options
     * unchanged and returns the first element of the reply.
     */
    method ExecuteRequest(soap: Soap, operation: string, params: map<string, Value>, options: CallOptions)
      returns (r: Result<Value, Exception>)
      requires Valid()
      modifies this
      ensures Valid() && CurrentSettings() == old(CurrentSettings())
      ensures r == old(Response(soap, operation, params, options))
      ensures calls == old(calls) + old(Sent(soap, operation, params, options))
      ensures soapClient == (if old(ClientFor(soap)).Success? then Some(old(ClientFor(soap)).value) else None)
      ensures old(soapClient).Some? ==> soapClient == old(soapClient)
      ensures created <= 1 && (old(soapClient).Some? ==> created == old(created))
    {
      if soapClient.None? {
        var clientOptions := NewClientOptions();
        var loaded := soap.load(WSDL, clientOptions);
        if loaded.Failure? {
          return Failure(loaded.error);
        }
        soapClient := Some(Client(WSDL, clientOptions, loaded.value));
        created := created + 1;
        // setEndpoint: the WSDL's own endpoint is replaced by the resolved URL
        soapClient := Some(soapClient.value.(endpoint := URL));
      }
      var params' := Record(params);
      var reply := soap.invoke(soapClient.value, operation + "Async", params', options);
      calls := calls + [Call(operation + "Async", params', options)];
      match reply {
        case Failure(e) => r := Failure(e);
        case Success(tuple) => r := Success(FirstOf(tuple));
      }
    }
  }
}
