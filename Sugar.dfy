/**
 * The sugar packing-slip adapter (service `wsremazucar`). Like the meat
 * adapter, its `executeRequest` checks the unwrapped `Return` value for an
 * `Errors` envelope before returning it.
 */
module Sugar {
  import opened Js
  import opened WebService
  import opened PackingSlip

  const Wsdl: string := "wsremazucar-production.wsdl"
  const Url: string := "https://serviciosjava.afip.gob.ar/wsremazucar/RemAzucarService"
  const WsdlTest: string := "wsremazucar.wsdl"
  const UrlTest: string := "https://fwshomo.afip.gov.ar/wsremazucar/RemAzucarService"

  /** The service the authentication tickets are requested for. */
  const Service: string := "wsremazucar"
  /** The status probe, the one operation sent without authentication. */
  const Probe: string := "FEDummy"

  /** The options the adapter's constructor hands to the gateway. */
  function Options(afip: Afip): (o: WebServiceOptions)
    ensures o.soapV12 == Undefined && o.nsArrayElems == Undefined && o.afip == afip
  {
    WebServiceOptions(Undefined, Undefined, Wsdl, Url, WsdlTest, UrlTest, afip)
  }

  /** `getWSInitialRequest`: nothing for `FEDummy`, otherwise an `authRequest` for a `wsremazucar` ticket. */
  function InitialRequest(authority: TicketAuthority, cuit: Value, operation: string): (r: Result<map<string, Value>, Exception>)
    ensures operation == Probe ==> r == Success(map[])
    ensures operation != Probe ==> (r.Failure? <==> authority(Service).Failure?)
    ensures operation != Probe && r.Failure? ==> r.error == authority(Service).error
    ensures operation != Probe && r.Success? ==> r.value == AuthRequest(authority(Service).value, cuit)
  {
    AuthParams(Probe, Service, authority, cuit, operation)
  }

  /** The parameters of `consultarRemitosReceptor`: all three keys, even when undefined; the page is never sent. */
  function ReceiversParams(fromDate: Value, toDate: Value, status: Value, page: Value): (r: map<string, Value>)
    ensures r.Keys == {"fechaDesde", "fechaHasta", "estado"}
    ensures r["fechaDesde"] == fromDate && r["fechaHasta"] == toDate && r["estado"] == status
  {
    map["fechaDesde" := fromDate, "fechaHasta" := toDate, "estado" := status]
  }

  /** The parameters of `confirmarRecepcionMercaderia`: exactly these two keys. */
  function ReceptionParams(slipCode: Value, status: Value): (r: map<string, Value>)
    ensures r.Keys == {"codigoRemito", "aceptaRecepcion"}
    ensures r["codigoRemito"] == slipCode && r["aceptaRecepcion"] == status
  {
    map["codigoRemito" := slipCode, "aceptaRecepcion" := status]
  }

  /** Undefined dates are still sent, as keys holding undefined. */
  lemma UndefinedDatesStillSent(authority: TicketAuthority, cuit: Value, status: Value, page: Value)
    requires authority(Service).Success?
    ensures var sent := Merge(InitialRequest(authority, cuit, "consultarRemitosReceptor").value,
                              ReceiversParams(Undefined, Undefined, status, page));
            && sent.Keys == {"authRequest", "fechaDesde", "fechaHasta", "estado"}
            && sent["fechaDesde"] == Undefined && sent["fechaHasta"] == Undefined
  {
  }

  /**
   * The check reads `Errors` of the unwrapped value without a guard: a reply
   * lacking the `Return` field makes the request fail, while the flour
   * adapter's unchecked unwrapping yields undefined.
   */
  lemma MissingReturnFails(results: map<string, Value>, resultOperation: string)
    requires resultOperation + "Return" !in results
    ensures Finish(Record(results), resultOperation, true) == Failure(TypeError)
    ensures Finish(Record(results), resultOperation, false) == Success(Undefined)
  {
  }

  class ElectronicPackingSlipSugar {
    const gateway: AfipWebService

    ghost predicate Valid()
      reads gateway
    {
      gateway.Valid()
    }

    constructor (afip: Afip)
      ensures Valid() && fresh(gateway) && gateway.soapClient == None && gateway.calls == []
      ensures gateway.afip == afip
      ensures gateway.WSDL == ResourcePath(if Truthy(afip.production) then Wsdl else WsdlTest)
      ensures gateway.URL == if Truthy(afip.production) then Url else UrlTest
      ensures gateway.soapv12 == Bool(false) && gateway.nsArrayElems == Bool(true)
      ensures gateway.WSDL_TEST == WsdlTest && gateway.URL_TEST == UrlTest
    {
      gateway := new AfipWebService(Options(afip));
    }

    /** What `executeRequest(operation, params, resultOperation)` resolves or rejects with. */
    function RequestOutcome(soap: Soap, authority: TicketAuthority, operation: string, params: map<string, Value>,
                            resultOperation: string): (r: Result<Value, Exception>)
      reads gateway
      ensures operation != Probe && authority(Service).Failure? ==> r == Failure(authority(Service).error)
    {
      RequestResult(gateway, soap, InitialRequest(authority, gateway.afip.CUIT, operation),
                    operation, params, NoCallOptions, resultOperation, true)
    }

    /** The invocations `executeRequest(operation, params, ...)` hands to the SOAP library. */
    function RequestCalls(soap: Soap, authority: TicketAuthority, operation: string, params: map<string, Value>): (s: seq<Call>)
      reads gateway
      ensures operation != Probe && authority(Service).Failure? ==> s == []
      ensures |s| <= 1 && (|s| == 1 ==> s[0].operation == operation + "Async")
    {
      Transmitted(gateway, soap, InitialRequest(authority, gateway.afip.CUIT, operation), operation, params, NoCallOptions)
    }

    /** The gateway's client once `executeRequest(operation, ...)` is done. */
    function RequestClient(soap: Soap, authority: TicketAuthority, operation: string): (c: Option<Client>)
      reads gateway
      ensures gateway.soapClient.Some? ==> c == gateway.soapClient
      ensures operation != Probe && authority(Service).Failure? ==> c == gateway.soapClient
      ensures gateway.soapClient.None? && (operation == Probe || authority(Service).Success?) ==>
                (c.Some? <==> soap.load(gateway.WSDL, gateway.NewClientOptions()).Success?)
      ensures gateway.Valid() && c.Some? ==> c.value.wsdl == gateway.WSDL && c.value.endpoint == gateway.URL
    {
      ClientAfter(gateway, soap, InitialRequest(authority, gateway.afip.CUIT, operation))
    }

    method ExecuteRequest(soap: Soap, authority: TicketAuthority, operation: string, params: map<string, Value>,
                          resultOperation: string := operation)
      returns (r: Result<Value, Exception>)
      requires Valid()
      modifies gateway
      ensures Valid() && gateway.CurrentSettings() == old(gateway.CurrentSettings())
      ensures r == old(RequestOutcome(soap, authority, operation, params, resultOperation))
      ensures gateway.calls == old(gateway.calls) + old(RequestCalls(soap, authority, operation, params))
      ensures gateway.soapClient == old(RequestClient(soap, authority, operation))
    {
      var authParams := InitialRequest(authority, gateway.afip.CUIT, operation);
      r := Execute(gateway, soap, authParams, operation, params, NoCallOptions, resultOperation, true);
    }

    method GetPackingSlipsReceivers(soap: Soap, authority: TicketAuthority, fromDate: Value, toDate: Value,
                                    status: Value, page: Value)
      returns (r: Result<Value, Exception>)
      requires Valid()
      modifies gateway
      ensures Valid() && gateway.CurrentSettings() == old(gateway.CurrentSettings())
      ensures r == old(RequestOutcome(soap, authority, "consultarRemitosReceptor",
                                      ReceiversParams(fromDate, toDate, status, page), "consultarRemitosReceptor"))
      ensures gateway.calls == old(gateway.calls)
                               + old(RequestCalls(soap, authority, "consultarRemitosReceptor",
                                                  ReceiversParams(fromDate, toDate, status, page)))
      ensures gateway.soapClient == old(RequestClient(soap, authority, "consultarRemitosReceptor"))
    {
      r := ExecuteRequest(soap, authority, "consultarRemitosReceptor", ReceiversParams(fromDate, toDate, status, page));
    }

    method RegisterReception(soap: Soap, authority: TicketAuthority, slipCode: Value, status: Value)
      returns (r: Result<Value, Exception>)
      requires Valid()
      modifies gateway
      ensures Valid() && gateway.CurrentSettings() == old(gateway.CurrentSettings())
      ensures r == old(RequestOutcome(soap, authority, "confirmarRecepcionMercaderia",
                                      ReceptionParams(slipCode, status), "confirmarRecepcionMercaderia"))
      ensures gateway.calls == old(gateway.calls)
                               + old(RequestCalls(soap, authority, "confirmarRecepcionMercaderia", ReceptionParams(slipCode, status)))
      ensures gateway.soapClient == old(RequestClient(soap, authority, "confirmarRecepcionMercaderia"))
    {
      r := ExecuteRequest(soap, authority, "confirmarRecepcionMercaderia", ReceptionParams(slipCode, status));
    }

    /** `getServerStatus`: the unauthenticated probe, whose `FEDummyReturn` is checked like any other reply. */
    method GetServerStatus(soap: Soap, authority: TicketAuthority) returns (r: Result<Value, Exception>)
      requires Valid()
      modifies gateway
      ensures Valid() && gateway.CurrentSettings() == old(gateway.CurrentSettings())
      ensures r == old(RequestOutcome(soap, authority, Probe, map[], Probe))
      ensures gateway.calls == old(gateway.calls) + old(gateway.Sent(soap, Probe, map[], NoCallOptions))
      ensures gateway.soapClient == old(RequestClient(soap, authority, Probe))
    {
      r := ExecuteRequest(soap, authority, Probe, map[]);
    }
  }
}
