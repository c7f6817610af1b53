/**
 * The flour packing-slip adapter (service `wsremharina`). Its
 * `executeRequest` takes a transport-options bag and an explicit result
 * operation, and returns the unwrapped `Return` value WITHOUT checking it
 * for an `Errors` envelope.
 */
module Flour {
  import opened Js
  import opened WebService
  import opened PackingSlip

  const Wsdl: string := "wsremharina-production.wsdl"
  const Url: string := "https://serviciosjava.afip.gob.ar/wsremharina/RemHarinaService"
  const WsdlTest: string := "wsremharina.wsdl"
  const UrlTest: string := "https://fwshomo.afip.gov.ar/wsremharina/RemHarinaService"

  /** The service the authentication tickets are requested for. */
  const Service: string := "wsremharina"
  /** The status probe, the one operation sent without authentication. */
  const Probe: string := "dummy"

  /** The empty request wrapper the status probe's outgoing request XML is stripped of. */
  const DummyRequestTag: string := "<dummyRequest></dummyRequest>"

  /** The options the adapter's constructor hands to the gateway. */
  function Options(afip: Afip): (o: WebServiceOptions)
    ensures o.soapV12 == Undefined && o.nsArrayElems == Undefined && o.afip == afip
  {
    WebServiceOptions(Undefined, Undefined, Wsdl, Url, WsdlTest, UrlTest, afip)
  }

  /** `getWSInitialRequest`: nothing for `dummy`, otherwise an `authRequest` for a `wsremharina` ticket. */
  function InitialRequest(authority: TicketAuthority, cuit: Value, operation: string): (r: Result<map<string, Value>, Exception>)
    ensures operation == Probe ==> r == Success(map[])
    ensures operation != Probe ==> (r.Failure? <==> authority(Service).Failure?)
    ensures operation != Probe && r.Failure? ==> r.error == authority(Service).error
    ensures operation != Probe && r.Success? ==> r.value == AuthRequest(authority(Service).value, cuit)
  {
    AuthParams(Probe, Service, authority, cuit, operation)
  }

  /** `key` is present exactly when `v` is truthy, and then holds `v`: the `...(v && { key: v })` idiom. */
  predicate Carries(params: map<string, Value>, key: string, v: Value) {
    && (key in params <==> Truthy(v))
    && (key in params ==> params[key] == v)
  }

  /** The object built from `...(v && { key: v })` spreads: the fields whose values are truthy. */
  function TruthyFields(fields: map<string, Value>): (r: map<string, Value>)
    ensures r.Keys <= fields.Keys
    ensures forall key :: key in fields ==> Carries(r, key, fields[key])
  {
    map key | key in fields && Truthy(fields[key]) :: fields[key]
  }

  /** The argument object of `getPackingSlip`. */
  datatype SlipQuery = SlipQuery(slipCode: Value, idReq: Value, slipType: Value, loc: Value, refNumber: Value, cuit: Value)

  /** The parameters of `consultarRemito`: each key only when the caller's value is truthy. */
  function PackingSlipParams(q: SlipQuery): (r: map<string, Value>)
    ensures r.Keys <= {"codRemito", "idReqCliente", "tipoComprobante", "puntoEmision", "nroComprobante", "cuitEmisor"}
    ensures Carries(r, "codRemito", q.slipCode)
    ensures Carries(r, "idReqCliente", q.idReq)
    ensures Carries(r, "tipoComprobante", q.slipType)
    ensures Carries(r, "puntoEmision", q.loc)
    ensures Carries(r, "nroComprobante", q.refNumber)
    ensures Carries(r, "cuitEmisor", q.cuit)
  {
    TruthyFields(map["codRemito" := q.slipCode, "idReqCliente" := q.idReq, "tipoComprobante" := q.slipType,
                     "puntoEmision" := q.loc, "nroComprobante" := q.refNumber, "cuitEmisor" := q.cuit])
  }

  /** An omitted reference number leaves `nroComprobante` out altogether, not present as undefined. */
  lemma OmittedFieldIsAbsent(q: SlipQuery)
    requires q.refNumber == Undefined
    ensures "nroComprobante" !in PackingSlipParams(q)
    ensures Truthy(q.slipCode) ==> PackingSlipParams(q)["codRemito"] == q.slipCode
  {
  }

  /** The argument object of `getPackingSlipsReceivers`; `page` is accepted but never sent. */
  datatype ReceiversQuery = ReceiversQuery(statusType: Value, fromDate: Value, toDate: Value, page: Value)

  /** The parameters of `consultarRemitosReceptor`: the status always, the date range only when both ends are truthy. */
  function ReceiversParams(q: ReceiversQuery): (r: map<string, Value>)
    ensures r.Keys <= {"estadoRecepcion", "rangoFechas"}
    ensures "estadoRecepcion" in r && r["estadoRecepcion"] == q.statusType
    ensures "rangoFechas" in r <==> Truthy(q.fromDate) && Truthy(q.toDate)
    ensures "rangoFechas" in r ==> r["rangoFechas"] == Record(map["fechaDesde" := q.fromDate, "fechaHasta" := q.toDate])
  {
    map["estadoRecepcion" := q.statusType]
      + (if Truthy(q.fromDate) && Truthy(q.toDate)
         then map["rangoFechas" := Record(map["fechaDesde" := q.fromDate, "fechaHasta" := q.toDate])]
         else map[])
  }

  /** The argument object of `registerReception`. */
  datatype Reception = Reception(slipCode: Value, status: Value, date: Value, products: Value)

  /** The parameters of `registrarRecepcion`: exactly these four keys, whatever their values. */
  function ReceptionParams(q: Reception): (r: map<string, Value>)
    ensures r.Keys == {"codRemito", "fecha", "aceptado", "arrayRecepcionMercaderia"}
    ensures r["codRemito"] == q.slipCode && r["fecha"] == q.date
    ensures r["aceptado"] == q.status && r["arrayRecepcionMercaderia"] == q.products
  {
    map["codRemito" := q.slipCode, "fecha" := q.date, "aceptado" := q.status, "arrayRecepcionMercaderia" := q.products]
  }

  /** With a ticket, `registrarRecepcion` sends the four reception keys and the authentication block, nothing else. */
  lemma ReceptionRequestKeys(authority: TicketAuthority, cuit: Value, q: Reception)
    requires authority(Service).Success?
    ensures var sent := Merge(InitialRequest(authority, cuit, "registrarRecepcion").value, ReceptionParams(q));
            sent.Keys == {"authRequest", "codRemito", "fecha", "aceptado", "arrayRecepcionMercaderia"}
  {
  }

  predicate OccursAt(s: string, pat: string, i: nat) {
    i + |pat| <= |s| && s[i..i + |pat|] == pat
  }

  /** The first index at or after `from` where `pat` occurs in `s`, as `indexOf` finds it. */
  function IndexOf(s: string, pat: string, from: nat): (r: Option<nat>)
    requires from <= |s|
    ensures r.Some? ==> from <= r.value && OccursAt(s, pat, r.value)
    ensures r.Some? ==> forall j :: from <= j < r.value ==> !OccursAt(s, pat, j)
    ensures r.None? ==> forall j :: from <= j ==> !OccursAt(s, pat, j)
    decreases |s| - from
  {
    if from + |pat| > |s| then None
    else if s[from..from + |pat|] == pat then Some(from)
    else if from == |s| then None
    else IndexOf(s, pat, from + 1)
  }

  /** `s.replace(pat, '')` with a string pattern: the first occurrence removed, if there is one. */
  function RemoveFirst(s: string, pat: string): (r: string)
    ensures (forall j :: !OccursAt(s, pat, j)) ==> r == s
    ensures IndexOf(s, pat, 0).Some? ==>
              var i := IndexOf(s, pat, 0).value;
              |r| == |s| - |pat| && r[..i] == s[..i] && r[i..] == s[i + |pat|..]
  {
    match IndexOf(s, pat, 0)
    case None => s
    case Some(i) => s[..i] + s[i + |pat|..]
  }

  /** Without an occurrence the text is unchanged; with one it is one pattern shorter. */
  lemma RemoveFirstShape(s: string, pat: string)
    ensures (forall j :: !OccursAt(s, pat, j)) ==> RemoveFirst(s, pat) == s
    ensures (exists j :: OccursAt(s, pat, j)) ==> |RemoveFirst(s, pat)| == |s| - |pat|
  {
    if exists j :: OccursAt(s, pat, j) {
      var j :| OccursAt(s, pat, j);
      assert IndexOf(s, pat, 0).Some?;
    }
  }

  /**
   * Only the first occurrence goes: putting the pattern back where it was
   * rebuilds the text, nothing before that point matched, and everything
   * after it (later occurrences included) is intact.
   */
  lemma {:induction false} RemoveFirstReinserted(s: string, pat: string)
    requires exists j :: OccursAt(s, pat, j)
    ensures var i := IndexOf(s, pat, 0).value;
            var r := RemoveFirst(s, pat);
            && r[..i] + pat + r[i..] == s
            && r[i..] == s[i + |pat|..]
            && forall j :: 0 <= j < i ==> !OccursAt(s, pat, j)
  {
    var j :| OccursAt(s, pat, j);
    var i := IndexOf(s, pat, 0).value;
    var r := RemoveFirst(s, pat);
    assert r == s[..i] + s[i + |pat|..];
    assert r[..i] == s[..i];
    assert r[i..] == s[i + |pat|..];
    assert s[i..i + |pat|] == pat;
    assert s == s[..i] + s[i..i + |pat|] + s[i + |pat|..];
  }

  /** The status probe's `postProcess` hook: strip the first empty `dummyRequest` element from the request XML before it is sent. */
  function PostProcess(xml: string): (r: string)
    ensures (forall j :: !OccursAt(xml, DummyRequestTag, j)) ==> r == xml
    ensures (exists j :: OccursAt(xml, DummyRequestTag, j)) ==> |r| == |xml| - |DummyRequestTag|
    ensures IndexOf(xml, DummyRequestTag, 0).Some? ==>
              var i := IndexOf(xml, DummyRequestTag, 0).value;
              i + |DummyRequestTag| <= |xml| && r == xml[..i] + xml[i + |DummyRequestTag|..]
  {
    RemoveFirstShape(xml, DummyRequestTag);
    RemoveFirst(xml, DummyRequestTag)
  }

  /** The call options of `getServerStatus`. */
  const StatusOptions: CallOptions := CallOptions(Some(PostProcess))

  /**
   * `_checkErrors` of this adapter (not called by its `executeRequest`): the
   * `Return` value is read with optional chaining, so a missing one passes.
   */
  function CheckErrors(operation: string, results: Value): (r: Outcome<Exception>)
    ensures Nullish(results) ==> r == Fail(TypeError)
    ensures !Nullish(results) && Nullish(Prop(results, operation + "Return")) ==> r == Pass
    ensures !Nullish(results) && !Nullish(Prop(results, operation + "Return")) ==>
              r == ErrorEnvelope(Prop(results, operation + "Return"))
  {
    match Get(results, operation + "Return")
    case Failure(e) => Fail(e)
    case Success(res) => if Nullish(res) then Pass else ErrorEnvelope(res)
  }

  /** Where the meat and sugar check throws on a missing `Return`, this one passes. */
  lemma MissingReturnTolerated(operation: string, results: map<string, Value>)
    requires operation + "Return" !in results
    ensures CheckErrors(operation, Record(results)) == Pass
    ensures CheckReturnErrors(operation, Record(results)) == Fail(TypeError)
  {
  }

  /** The adapter returns the `Return` value even when it holds an `Errors` envelope. */
  lemma ErrorsPassThrough(results: map<string, Value>, resultOperation: string)
    requires resultOperation + "Return" in results
    requires Truthy(Prop(results[resultOperation + "Return"], "Errors"))
    ensures Finish(Record(results), resultOperation, false) == Success(results[resultOperation + "Return"])
    ensures CheckErrors(resultOperation, Record(results)).Fail?
  {
  }

  class ElectronicPackingSlipFlour {
    const gateway: AfipWebService

    ghost predicate Valid()
      reads gateway
    {
      gateway.Valid()
    }

    constructor (afip: Afip)
      ensures Valid() && fresh(gateway) && gateway.soapClient == None && gateway.calls == []
      ensures gateway.afip == afip
      ensures gateway.WSDL == ResourcePath(if Truthy(afip.production) then Wsdl else WsdlTest)
      ensures gateway.URL == if Truthy(afip.production) then Url else UrlTest
      ensures gateway.soapv12 == Bool(false) && gateway.nsArrayElems == Bool(true)
      ensures gateway.WSDL_TEST == WsdlTest && gateway.URL_TEST == UrlTest
    {
      gateway := new AfipWebService(Options(afip));
    }

    /** What `executeRequest(operation, params, options, resultOperation)` resolves or rejects with. */
    function RequestOutcome(soap: Soap, authority: TicketAuthority, operation: string, params: map<string, Value>,
                            options: CallOptions, resultOperation: string): (r: Result<Value, Exception>)
      reads gateway
      ensures operation != Probe && authority(Service).Failure? ==> r == Failure(authority(Service).error)
    {
      RequestResult(gateway, soap, InitialRequest(authority, gateway.afip.CUIT, operation),
              operation, params, options, resultOperation, false)
    }

    /** The invocations `executeRequest(operation, params, options, ...)` hands to the SOAP library. */
    function RequestCalls(soap: Soap, authority: TicketAuthority, operation: string, params: map<string, Value>,
                          options: CallOptions): (s: seq<Call>)
      reads gateway
      ensures operation != Probe && authority(Service).Failure? ==> s == []
      ensures |s| <= 1 && (|s| == 1 ==> s[0].operation == operation + "Async")
    {
      Transmitted(gateway, soap, InitialRequest(authority, gateway.afip.CUIT, operation), operation, params, options)
    }

    /** The gateway's client once `executeRequest(operation, ...)` is done. */
    function RequestClient(soap: Soap, authority: TicketAuthority, operation: string): (c: Option<Client>)
      reads gateway
      ensures gateway.soapClient.Some? ==> c == gateway.soapClient
      ensures operation != Probe && authority(Service).Failure? ==> c == gateway.soapClient
      ensures gateway.soapClient.None? && (operation == Probe || authority(Service).Success?) ==>
                (c.Some? <==> soap.load(gateway.WSDL, gateway.NewClientOptions()).Success?)
      ensures gateway.Valid() && c.Some? ==> c.value.wsdl == gateway.WSDL && c.value.endpoint == gateway.URL
    {
      ClientAfter(gateway, soap, InitialRequest(authority, gateway.afip.CUIT, operation))
    }

    method ExecuteRequest(soap: Soap, authority: TicketAuthority, operation: string, params: map<string, Value>,
                          options: CallOptions, resultOperation: string := operation)
      returns (r: Result<Value, Exception>)
      requires Valid()
      modifies gateway
      ensures Valid() && gateway.CurrentSettings() == old(gateway.CurrentSettings())
      ensures r == old(RequestOutcome(soap, authority, operation, params, options, resultOperation))
      ensures gateway.calls == old(gateway.calls) + old(RequestCalls(soap, authority, operation, params, options))
      ensures gateway.soapClient == old(RequestClient(soap, authority, operation))
    {
      var authParams := InitialRequest(authority, gateway.afip.CUIT, operation);
      r := Execute(gateway, soap, authParams, operation, params, options, resultOperation, false);
    }

    method GetPackingSlip(soap: Soap, authority: TicketAuthority, q: SlipQuery) returns (r: Result<Value, Exception>)
      requires Valid()
      modifies gateway
      ensures Valid() && gateway.CurrentSettings() == old(gateway.CurrentSettings())
      ensures r == old(RequestOutcome(soap, authority, "consultarRemito", PackingSlipParams(q), NoCallOptions, "consultarRemito"))
      ensures gateway.calls == old(gateway.calls)
                               + old(RequestCalls(soap, authority, "consultarRemito", PackingSlipParams(q), NoCallOptions))
      ensures gateway.soapClient == old(RequestClient(soap, authority, "consultarRemito"))
    {
      r := ExecuteRequest(soap, authority, "consultarRemito", PackingSlipParams(q), NoCallOptions, "consultarRemito");
    }

    method GetPackingSlipsReceivers(soap: Soap, authority: TicketAuthority, q: ReceiversQuery) returns (r: Result<Value, Exception>)
      requires Valid()
      modifies gateway
      ensures Valid() && gateway.CurrentSettings() == old(gateway.CurrentSettings())
      ensures r == old(RequestOutcome(soap, authority, "consultarRemitosReceptor", ReceiversParams(q), NoCallOptions, "consultarRemitos"))
      ensures gateway.calls == old(gateway.calls)
                               + old(RequestCalls(soap, authority, "consultarRemitosReceptor", ReceiversParams(q), NoCallOptions))
      ensures gateway.soapClient == old(RequestClient(soap, authority, "consultarRemitosReceptor"))
    {
      r := ExecuteRequest(soap, authority, "consultarRemitosReceptor", ReceiversParams(q), NoCallOptions, "consultarRemitos");
    }

    method RegisterReception(soap: Soap, authority: TicketAuthority, q: Reception) returns (r: Result<Value, Exception>)
      requires Valid()
      modifies gateway
      ensures Valid() && gateway.CurrentSettings() == old(gateway.CurrentSettings())
      ensures r == old(RequestOutcome(soap, authority, "registrarRecepcion", ReceptionParams(q), NoCallOptions, "operacion"))
      ensures gateway.calls == old(gateway.calls)
                               + old(RequestCalls(soap, authority, "registrarRecepcion", ReceptionParams(q), NoCallOptions))
      ensures gateway.soapClient == old(RequestClient(soap, authority, "registrarRecepcion"))
    {
      r := ExecuteRequest(soap, authority, "registrarRecepcion", ReceptionParams(q), NoCallOptions, "operacion");
    }

    /** `getServerStatus`: the unauthenticated probe, whose request XML is post-processed before sending. */
    method GetServerStatus(soap: Soap, authority: TicketAuthority) returns (r: Result<Value, Exception>)
      requires Valid()
      modifies gateway
      ensures Valid() && gateway.CurrentSettings() == old(gateway.CurrentSettings())
      ensures r == old(RequestOutcome(soap, authority, Probe, map[], StatusOptions, Probe))
      ensures gateway.calls == old(gateway.calls) + old(gateway.Sent(soap, Probe, map[], StatusOptions))
      ensures gateway.soapClient == old(RequestClient(soap, authority, Probe))
    {
      r := ExecuteRequest(soap, authority, Probe, map[], StatusOptions);
    }
  }
}
