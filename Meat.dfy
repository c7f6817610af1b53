/**
 * The meat packing-slip adapter (service `wsremcarne`). Its `executeRequest`
 * checks the unwrapped `Return` value for an `Errors` envelope before
 * returning it. It also offers `formatDate`, which rewrites the first run
 * of eight digits `YYYYMMDD` as `YYYY-MM-DD`.
 */
module Meat {
  import opened Js
  import opened WebService
  import opened PackingSlip

  const Wsdl: string := "wsremcarne-production.wsdl"
  const Url: string := "https://serviciosjava.afip.gob.ar/wsremcarne/RemCarneService"
  const WsdlTest: string := "wsremcarne.wsdl"
  const UrlTest: string := "https://fwshomo.afip.gov.ar/wsremcarne/RemCarneService"

  /** The service the authentication tickets are requested for. */
  const Service: string := "wsremcarne"
  /** The status probe, the one operation sent without authentication. */
  const Probe: string := "FEDummy"

  /** The options the adapter's constructor hands to the gateway. */
  function Options(afip: Afip): (o: WebServiceOptions)
    ensures o.soapV12 == Undefined && o.nsArrayElems == Undefined && o.afip == afip
  {
    WebServiceOptions(Undefined, Undefined, Wsdl, Url, WsdlTest, UrlTest, afip)
  }

  /** `getWSInitialRequest`: nothing for `FEDummy`, otherwise an `authRequest` for a `wsremcarne` ticket. */
  function InitialRequest(authority: TicketAuthority, cuit: Value, operation: string): (r: Result<map<string, Value>, Exception>)
    ensures operation == Probe ==> r == Success(map[])
    ensures operation != Probe ==> (r.Failure? <==> authority(Service).Failure?)
    ensures operation != Probe && r.Failure? ==> r.error == authority(Service).error
    ensures operation != Probe && r.Success? ==> r.value == AuthRequest(authority(Service).value, cuit)
  {
    AuthParams(Probe, Service, authority, cuit, operation)
  }

  /** The parameters of `consultarRemitosReceptor`: the status only; the page is never sent. */
  function ReceiversParams(statusType: Value, page: Value): (r: map<string, Value>)
    ensures r.Keys == {"estadoRecepcion"} && r["estadoRecepcion"] == statusType
  {
    map["estadoRecepcion" := statusType]
  }

  /** The parameters of `consultarTiposCategoriaReceptor`: it passes `null`, which spreads to nothing. */
  function CategoryTypesParams(): (r: map<string, Value>)
    ensures r == map[]
  {
    Spread(Null)
  }

  /** The parameters of `registrarRecepcion`: exactly these three keys, whatever their values. */
  function ReceptionParams(slipCode: Value, status: Value, category: Value): (r: map<string, Value>)
    ensures r.Keys == {"codRemito", "estado", "categoriaReceptor"}
    ensures r["codRemito"] == slipCode && r["estado"] == status && r["categoriaReceptor"] == category
  {
    map["codRemito" := slipCode, "estado" := status, "categoriaReceptor" := category]
  }

  /** With a ticket, `registrarRecepcion` sends the three reception keys and the authentication block, nothing else. */
  lemma ReceptionRequestKeys(authority: TicketAuthority, cuit: Value, slipCode: Value, status: Value, category: Value)
    requires authority(Service).Success?
    ensures var sent := Merge(InitialRequest(authority, cuit, "registrarRecepcion").value,
                              ReceptionParams(slipCode, status, category));
            && sent.Keys == {"authRequest", "codRemito", "estado", "categoriaReceptor"}
            && sent["authRequest"] == Record(map["token" := authority(Service).value.token,
                                                 "sign" := authority(Service).value.sign,
                                                 "cuitRepresentada" := cuit])
  {
  }

  /** Eight consecutive decimal digits start at `i` (`/\d{4}\d{2}\d{2}/` matches there). */
  predicate DateAt(s: string, i: nat) {
    i + 8 <= |s| && AllDigits(s[i..i + 8])
  }

  /** The leftmost position at or after `from` where eight digits start. */
  function FirstDateRun(s: string, from: nat): (r: Option<nat>)
    requires from <= |s|
    ensures r.Some? ==> from <= r.value && DateAt(s, r.value)
    ensures r.Some? ==> forall j :: from <= j < r.value ==> !DateAt(s, j)
    ensures r.None? ==> forall j :: from <= j ==> !DateAt(s, j)
    decreases |s| - from
  {
    if from + 8 > |s| then None
    else if AllDigits(s[from..from + 8]) then Some(from)
    else FirstDateRun(s, from + 1)
  }

  /** `s.replace(/(\d{4})(\d{2})(\d{2})/, '$1-$2-$3')`: only the leftmost run is rewritten. */
  function ReplaceDate(s: string): (r: string)
    ensures (forall j :: !DateAt(s, j)) ==> r == s
    ensures FirstDateRun(s, 0).Some? ==> |r| == |s| + 2
  {
    match FirstDateRun(s, 0)
    case None => s
    case Some(i) => s[..i] + s[i..i + 4] + "-" + s[i + 4..i + 6] + "-" + s[i + 6..i + 8] + s[i + 8..]
  }

  /** `formatDate(date)`: `date.toString()` with its first eight-digit run dashed; null and undefined throw. */
  function FormatDate(date: Value): (r: Result<string, Exception>)
    ensures r.Failure? <==> Nullish(date)
    ensures r.Failure? ==> r.error == TypeError
    ensures !Nullish(date) && (forall j :: !DateAt(ToString(date), j)) ==> r == Success(ToString(date))
  {
    if Nullish(date) then Failure(TypeError) else Success(ReplaceDate(ToString(date)))
  }

  /**
   * Where a run is found, the text before it and after it is kept, two dashes
   * are inserted after its fourth and sixth digits, and taking them out again
   * gives back the original text.
   */
  lemma {:induction false} ReplaceDateShape(s: string)
    requires FirstDateRun(s, 0).Some?
    ensures var i := FirstDateRun(s, 0).value;
            var r := ReplaceDate(s);
            && |r| == |s| + 2
            && r[..i] == s[..i]
            && r[i..i + 4] == s[i..i + 4] && r[i + 4] == '-'
            && r[i + 5..i + 7] == s[i + 4..i + 6] && r[i + 7] == '-'
            && r[i + 8..] == s[i + 6..]
            && r[..i + 4] + r[i + 5..i + 7] + r[i + 8..] == s
  {
    var i := FirstDateRun(s, 0).value;
    var r := ReplaceDate(s);
    assert r == s[..i] + s[i..i + 4] + "-" + s[i + 4..i + 6] + "-" + s[i + 6..i + 8] + s[i + 8..];
    assert r[..i + 4] == s[..i + 4];
    assert r[i + 5..i + 7] == s[i + 4..i + 6];
    assert r[i + 8..] == s[i + 6..i + 8] + s[i + 8..] == s[i + 6..];
    assert s == s[..i + 4] + s[i + 4..i + 6] + s[i + 6..];
  }

  /** A string of exactly eight digits `YYYYMMDD` becomes `YYYY-MM-DD`. */
  lemma EightDigitString(s: string)
    requires |s| == 8 && AllDigits(s)
    ensures FormatDate(Str(s)) == Success(s[..4] + "-" + s[4..6] + "-" + s[6..])
  {
    assert s[0..8] == s;
    assert FirstDateRun(s, 0) == Some(0);
    assert ReplaceDate(s) == s[..0] + s[0..4] + "-" + s[4..6] + "-" + s[6..8] + s[8..];
    assert s[..0] == [] && s[8..] == [] && s[0..4] == s[..4] && s[6..8] == s[6..];
    assert ReplaceDate(s) == s[..4] + "-" + s[4..6] + "-" + s[6..];
  }

  /** An eight-digit number formats like its decimal numeral. */
  lemma EightDigitNumber(n: nat)
    requires Pow10(7) <= n < Pow10(8)
    ensures |NatToString(n)| == 8
    ensures var d := NatToString(n);
            FormatDate(Num(n)) == Success(d[..4] + "-" + d[4..6] + "-" + d[6..])
  {
    NatToStringLength(n, 8);
    EightDigitString(NatToString(n));
  }

  /** The numeral of 20240131. */
  lemma NumeralExample()
    ensures NatToString(20240131) == "20240131"
  {
    assert NatToString(2) == "2";
    assert NatToString(20) == NatToString(2) + "0";
    assert NatToString(202) == NatToString(20) + "2";
    assert NatToString(2024) == NatToString(202) + "4";
    assert NatToString(20240) == NatToString(2024) + "0";
    assert NatToString(202401) == NatToString(20240) + "1";
    assert NatToString(2024013) == NatToString(202401) + "3";
    assert NatToString(20240131) == NatToString(2024013) + "1";
  }

  /** `formatDate('20240131')` gives "2024-01-31". */
  lemma FormatDateExample()
    ensures FormatDate(Str("20240131")) == Success("2024-01-31")
  {
    var s := "20240131";
    assert AllDigits(s);
    EightDigitString(s);
    assert s[..4] + "-" + s[4..6] + "-" + s[6..] == "2024-01-31";
  }

  /** `formatDate(20240131)`, given a number, gives "2024-01-31" too. */
  lemma FormatNumberExample()
    ensures FormatDate(Num(20240131)) == Success("2024-01-31")
  {
    NumeralExample();
    assert ToString(Num(20240131)) == "20240131";
    FormatDateExample();
  }

  /** Text without eight consecutive digits is returned unchanged; a run of nine keeps its last digit after the date. */
  lemma FormatDateOtherInputs()
    ensures FormatDate(Str("2024-01-31")) == Success("2024-01-31")
    ensures FormatDate(Str("x202401311")) == Success("x2024-01-311")
    ensures FormatDate(Undefined) == Failure(TypeError)
  {
    var s := "2024-01-31";
    assert !AllDigits(s[0..8]) by { assert s[0..8][4] == '-'; }
    assert !AllDigits(s[1..9]) by { assert s[1..9][3] == '-'; }
    assert !AllDigits(s[2..10]) by { assert s[2..10][2] == '-'; }
    assert FirstDateRun(s, 0) == None;
    var t := "x202401311";
    assert !DateAt(t, 0) by { assert t[0..8][0] == 'x'; }
    assert DateAt(t, 1);
    assert FirstDateRun(t, 0) == Some(1);
    assert ReplaceDate(t) == t[..1] + t[1..5] + "-" + t[5..7] + "-" + t[7..9] + t[9..];
    assert t[..1] + t[1..5] + "-" + t[5..7] + "-" + t[7..9] + t[9..] == "x2024-01-311";
  }

  class ElectronicPackingSlipMeat {
    const gateway: AfipWebService

    ghost predicate Valid()
      reads gateway
    {
      gateway.Valid()
    }

    constructor (afip: Afip)
      ensures Valid() && fresh(gateway) && gateway.soapClient == None && gateway.calls == []
      ensures gateway.afip == afip
      ensures gateway.WSDL == ResourcePath(if Truthy(afip.production) then Wsdl else WsdlTest)
      ensures gateway.URL == if Truthy(afip.production) then Url else UrlTest
      ensures gateway.soapv12 == Bool(false) && gateway.nsArrayElems == Bool(true)
      ensures gateway.WSDL_TEST == WsdlTest && gateway.URL_TEST == UrlTest
    {
      gateway := new AfipWebService(Options(afip));
    }

    /** What `executeRequest(operation, params, resultOperation)` resolves or rejects with. */
    function RequestOutcome(soap: Soap, authority: TicketAuthority, operation: string, params: map<string, Value>,
                            resultOperation: string): (r: Result<Value, Exception>)
      reads gateway
      ensures operation != Probe && authority(Service).Failure? ==> r == Failure(authority(Service).error)
    {
      RequestResult(gateway, soap, InitialRequest(authority, gateway.afip.CUIT, operation),
                    operation, params, NoCallOptions, resultOperation, true)
    }

    /** The invocations `executeRequest(operation, params, ...)` hands to the SOAP library. */
    function RequestCalls(soap: Soap, authority: TicketAuthority, operation: string, params: map<string, Value>): (s: seq<Call>)
      reads gateway
      ensures operation != Probe && authority(Service).Failure? ==> s == []
      ensures |s| <= 1 && (|s| == 1 ==> s[0].operation == operation + "Async")
    {
      Transmitted(gateway, soap, InitialRequest(authority, gateway.afip.CUIT, operation), operation, params, NoCallOptions)
    }

    /** The gateway's client once `executeRequest(operation, ...)` is done. */
    function RequestClient(soap: Soap, authority: TicketAuthority, operation: string): (c: Option<Client>)
      reads gateway
      ensures gateway.soapClient.Some? ==> c == gateway.soapClient
      ensures operation != Probe && authority(Service).Failure? ==> c == gateway.soapClient
      ensures gateway.soapClient.None? && (operation == Probe || authority(Service).Success?) ==>
                (c.Some? <==> soap.load(gateway.WSDL, gateway.NewClientOptions()).Success?)
      ensures gateway.Valid() && c.Some? ==> c.value.wsdl == gateway.WSDL && c.value.endpoint == gateway.URL
    {
      ClientAfter(gateway, soap, InitialRequest(authority, gateway.afip.CUIT, operation))
    }

    method ExecuteRequest(soap: Soap, authority: TicketAuthority, operation: string, params: map<string, Value>,
                          resultOperation: string := operation)
      returns (r: Result<Value, Exception>)
      requires Valid()
      modifies gateway
      ensures Valid() && gateway.CurrentSettings() == old(gateway.CurrentSettings())
      ensures r == old(RequestOutcome(soap, authority, operation, params, resultOperation))
      ensures gateway.calls == old(gateway.calls) + old(RequestCalls(soap, authority, operation, params))
      ensures gateway.soapClient == old(RequestClient(soap, authority, operation))
    {
      var authParams := InitialRequest(authority, gateway.afip.CUIT, operation);
      r := Execute(gateway, soap, authParams, operation, params, NoCallOptions, resultOperation, true);
    }

    method GetPackingSlipsReceivers(soap: Soap, authority: TicketAuthority, statusType: Value, page: Value)
      returns (r: Result<Value, Exception>)
      requires Valid()
      modifies gateway
      ensures Valid() && gateway.CurrentSettings() == old(gateway.CurrentSettings())
      ensures r == old(RequestOutcome(soap, authority, "consultarRemitosReceptor", ReceiversParams(statusType, page), "consultarRemitos"))
      ensures gateway.calls == old(gateway.calls)
                               + old(RequestCalls(soap, authority, "consultarRemitosReceptor", ReceiversParams(statusType, page)))
      ensures gateway.soapClient == old(RequestClient(soap, authority, "consultarRemitosReceptor"))
    {
      r := ExecuteRequest(soap, authority, "consultarRemitosReceptor", ReceiversParams(statusType, page), "consultarRemitos");
    }

    method GetReceiversCategoryTypes(soap: Soap, authority: TicketAuthority) returns (r: Result<Value, Exception>)
      requires Valid()
      modifies gateway
      ensures Valid() && gateway.CurrentSettings() == old(gateway.CurrentSettings())
      ensures r == old(RequestOutcome(soap, authority, "consultarTiposCategoriaReceptor", map[], "consultarCategoriasReceptor"))
      ensures gateway.calls == old(gateway.calls)
                               + old(RequestCalls(soap, authority, "consultarTiposCategoriaReceptor", map[]))
      ensures gateway.soapClient == old(RequestClient(soap, authority, "consultarTiposCategoriaReceptor"))
    {
      r := ExecuteRequest(soap, authority, "consultarTiposCategoriaReceptor", CategoryTypesParams(), "consultarCategoriasReceptor");
    }

    method RegisterReception(soap: Soap, authority: TicketAuthority, slipCode: Value, status: Value, category: Value)
      returns (r: Result<Value, Exception>)
      requires Valid()
      modifies gateway
      ensures Valid() && gateway.CurrentSettings() == old(gateway.CurrentSettings())
      ensures r == old(RequestOutcome(soap, authority, "registrarRecepcion", ReceptionParams(slipCode, status, category), "registrarRecepcion"))
      ensures gateway.calls == old(gateway.calls)
                               + old(RequestCalls(soap, authority, "registrarRecepcion", ReceptionParams(slipCode, status, category)))
      ensures gateway.soapClient == old(RequestClient(soap, authority, "registrarRecepcion"))
    {
      r := ExecuteRequest(soap, authority, "registrarRecepcion", ReceptionParams(slipCode, status, category));
    }

    /** `getServerStatus`: the unauthenticated probe, whose `FEDummyReturn` is checked like any other reply. */
    method GetServerStatus(soap: Soap, authority: TicketAuthority) returns (r: Result<Value, Exception>)
      requires Valid()
      modifies gateway
      ensures Valid() && gateway.CurrentSettings() == old(gateway.CurrentSettings())
      ensures r == old(RequestOutcome(soap, authority, Probe, map[], Probe))
      ensures gateway.calls == old(gateway.calls) + old(gateway.Sent(soap, Probe, map[], NoCallOptions))
      ensures gateway.soapClient == old(RequestClient(soap, authority, Probe))
    {
      r := ExecuteRequest(soap, authority, Probe, map[]);
    }
  }
}
