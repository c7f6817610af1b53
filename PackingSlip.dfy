/**
 * The request pattern the three packing-slip adapters (flour, meat, sugar)
 * share around the gateway: build the authentication block (none for the
 * status probe), spread it under the caller's parameters, call the gateway,
 * unwrap `results[resultOperation + 'Return']` and, where the adapter does
 * so, turn an `Errors.Err` envelope into an error "(<Code>) <Msg>".
 */
module PackingSlip {
  import opened Js
  import opened WebService

  /** What the ticket authority hands out for a service: `{ token, sign }`. */
  datatype Ticket = Ticket(token: Value, sign: Value)

  /** `afip.GetServiceTA(service)`: a ticket for the named service, or the failure it rejects with. */
  type TicketAuthority = string -> Result<Ticket, Exception>

  /** The `authRequest` block: the ticket's token and sign and the represented CUIT. */
  function AuthRequest(ticket: Ticket, cuit: Value): (r: map<string, Value>)
    ensures r.Keys == {"authRequest"}
    ensures r["authRequest"].Record? && r["authRequest"].fields.Keys == {"token", "sign", "cuitRepresentada"}
    ensures var block := r["authRequest"].fields;
            block["token"] == ticket.token && block["sign"] == ticket.sign && block["cuitRepresentada"] == cuit
  {
    map["authRequest" := Record(map["token" := ticket.token, "sign" := ticket.sign, "cuitRepresentada" := cuit])]
  }

  /**
   * `getWSInitialRequest(operation)`: no parameters for the status probe;
   * otherwise the authentication block for a ticket of `service`, or the
   * authority's failure.
   */
  function AuthParams(probe: string, service: string, authority: TicketAuthority, cuit: Value, operation: string)
    : (r: Result<map<string, Value>, Exception>)
    ensures operation == probe ==> r == Success(map[])
    ensures operation != probe ==> (r.Failure? <==> authority(service).Failure?)
    ensures operation != probe && r.Failure? ==> r.error == authority(service).error
    ensures operation != probe && r.Success? ==> r.value == AuthRequest(authority(service).value, cuit)
  {
    if operation == probe then Success(map[])
    else
      match authority(service)
      case Failure(e) => Failure(e)
      case Success(ticket) => Success(AuthRequest(ticket, cuit))
  }

  /** `{ ...authParams, ...params }`: every key of either, the caller's value winning on a collision. */
  function Merge(authParams: map<string, Value>, params: map<string, Value>): (r: map<string, Value>)
    ensures r.Keys == authParams.Keys + params.Keys
    ensures forall k :: k in params ==> r[k] == params[k]
    ensures forall k :: k in authParams && k !in params ==> r[k] == authParams[k]
  {
    authParams + params
  }

  /** For any operation but the probe, the request carries the ticket and the CUIT unless the caller overrides `authRequest`. */
  lemma AuthInjected(probe: string, service: string, authority: TicketAuthority, cuit: Value,
                     operation: string, params: map<string, Value>)
    requires operation != probe && authority(service).Success? && "authRequest" !in params
    ensures var sent := Merge(AuthParams(probe, service, authority, cuit, operation).value, params);
            && sent.Keys == params.Keys + {"authRequest"}
            && sent["authRequest"] == Record(map["token" := authority(service).value.token,
                                                 "sign" := authority(service).value.sign,
                                                 "cuitRepresentada" := cuit])
  {
  }

  /** The status probe sends exactly the caller's parameters, with no authentication block. */
  lemma ProbeSendsNoAuth(probe: string, service: string, authority: TicketAuthority, cuit: Value,
                         params: map<string, Value>)
    ensures AuthParams(probe, service, authority, cuit, probe).Success?
    ensures Merge(AuthParams(probe, service, authority, cuit, probe).value, params) == params
  {
  }

  /** `results[resultOperation + 'Return']`. */
  function Unwrap(results: Value, resultOperation: string): (r: Result<Value, Exception>)
    ensures r.Failure? <==> Nullish(results)
    ensures r.Failure? ==> r.error == TypeError
    ensures r.Success? && results.Record? && resultOperation + "Return" in results.fields ==>
              r.value == results.fields[resultOperation + "Return"]
    ensures r.Success? && (!results.Record? || resultOperation + "Return" !in results.fields) ==> r.value == Undefined
  {
    Get(results, resultOperation + "Return")
  }

  /** `Array.isArray(err) ? err[0] : err`. */
  function FirstEntry(err: Value): (r: Value)
    ensures err.List? && |err.items| > 0 ==> r == err.items[0]
    ensures err.List? && |err.items| == 0 ==> r == Undefined
    ensures !err.List? ==> r == err
  {
    if err.List? then (if |err.items| > 0 then err.items[0] else Undefined) else err
  }

  /** The message of a service error: `(${Code}) ${Msg}`. */
  function ServiceErrorMessage(code: Value, msg: Value): (r: string)
    ensures var c := ToString(code);
            && |r| == |c| + |ToString(msg)| + 3
            && r[0] == '(' && r[1..|c| + 1] == c
            && r[|c| + 1..|c| + 3] == ") " && r[|c| + 3..] == ToString(msg)
  {
    "(" + ToString(code) + ") " + ToString(msg)
  }

  /**
   * `if (res.Errors) { ... throw }`: passes when `Errors` is missing or falsy;
   * otherwise throws the first entry of `Errors.Err` as "(<Code>) <Msg>".
   * Reading a property of null or undefined throws a TypeError.
   */
  function ErrorEnvelope(res: Value): (r: Outcome<Exception>)
    ensures Nullish(res) ==> r == Fail(TypeError)
    ensures r.Pass? <==> !Nullish(res) && !Truthy(Prop(res, "Errors"))
    ensures !Nullish(res) && Truthy(Prop(res, "Errors")) ==>
              var err := FirstEntry(Prop(Prop(res, "Errors"), "Err"));
              && (Nullish(err) ==> r == Fail(TypeError))
              && (!Nullish(err) ==> r == Fail(Error(ServiceErrorMessage(Prop(err, "Code"), Prop(err, "Msg")))))
  {
    match Get(res, "Errors")
    case Failure(e) => Fail(e)
    case Success(errors) =>
      if !Truthy(errors) then Pass
      else
        match Get(errors, "Err")
        case Failure(e) => Fail(e)
        case Success(errs) =>
          var err := FirstEntry(errs);
          match Get(err, "Code")
          case Failure(e) => Fail(e)
          case Success(code) =>
            match Get(err, "Msg")
            case Failure(e) => Fail(e)
            case Success(msg) => Fail(Error(ServiceErrorMessage(code, msg)))
  }

  /**
   * A Return value whose `Errors.Err` is a single error record is reported as
   * "(<Code>) <Msg>" of that record, whatever other fields the value and its
   * `Errors` block carry.
   */
  lemma SingleErrorReported(rest: map<string, Value>, errors: map<string, Value>, entry: map<string, Value>)
    requires "Err" in errors && errors["Err"] == Record(entry)
    ensures var code := Prop(Record(entry), "Code");
            var msg := Prop(Record(entry), "Msg");
            ErrorEnvelope(Record(rest["Errors" := Record(errors)]))
              == Fail(Error("(" + ToString(code) + ") " + ToString(msg)))
  {
  }

  /** With several error entries only the first one is reported. */
  lemma FirstOfSeveralReported(entries: seq<Value>, rest: map<string, Value>, errors: map<string, Value>)
    requires |entries| > 0 && !entries[0].List?
    ensures ErrorEnvelope(Record(rest["Errors" := Record(errors["Err" := List(entries)])]))
         == ErrorEnvelope(Record(rest["Errors" := Record(errors["Err" := entries[0]])]))
  {
  }

  /** An empty `Err` array, or an `Errors` block without `Err` (or with a null one), throws a TypeError. */
  lemma NoEntryIsTypeError(rest: map<string, Value>, errors: map<string, Value>)
    requires "Err" !in errors || errors["Err"] == List([]) || errors["Err"] == Null
    ensures ErrorEnvelope(Record(rest["Errors" := Record(errors)])) == Fail(TypeError)
  {
  }

  /** The message of the error used in the example below. */
  lemma ExampleMessage()
    ensures ServiceErrorMessage(Num(1001), Str("CUIT no autorizada")) == "(1001) CUIT no autorizada"
  {
    assert NatToString(1001) == "1001" by {
      assert NatToString(1) == "1";
      assert NatToString(10) == "10";
      assert NatToString(100) == "100";
    }
  }

  /** A concrete error from the service. */
  lemma ServiceErrorExample()
    ensures var entry := Record(map["Code" := Num(1001), "Msg" := Str("CUIT no autorizada")]);
            var second := Record(map["Code" := Num(2), "Msg" := Str("otro")]);
            ErrorEnvelope(Record(map["Errors" := Record(map["Err" := List([entry, second])])]))
              == Fail(Error("(1001) CUIT no autorizada"))
  {
    var entry := Record(map["Code" := Num(1001), "Msg" := Str("CUIT no autorizada")]);
    var second := Record(map["Code" := Num(2), "Msg" := Str("otro")]);
    var res := Record(map["Errors" := Record(map["Err" := List([entry, second])])]);
    assert FirstEntry(Prop(Prop(res, "Errors"), "Err")) == entry;
    assert Prop(entry, "Code") == Num(1001) && Prop(entry, "Msg") == Str("CUIT no autorizada");
    ExampleMessage();
  }

  /**
   * `_checkErrors(operation, results)` of the meat and sugar adapters: the
   * unwrapped value is read without a guard, so a missing `Return` field
   * throws instead of passing.
   */
  function CheckReturnErrors(operation: string, results: Value): (r: Outcome<Exception>)
    ensures Unwrap(results, operation).Failure? ==> r == Fail(TypeError)
    ensures Unwrap(results, operation).Success? ==> r == ErrorEnvelope(Unwrap(results, operation).value)
  {
    match Get(results, operation + "Return")
    case Failure(e) => Fail(e)
    case Success(res) => ErrorEnvelope(res)
  }

  /**
   * What an adapter's `executeRequest` does with the gateway's result:
   * with error checking on, the envelope check runs first; in both cases the
   * unwrapped `Return` value is what comes back.
   */
  function Finish(results: Value, resultOperation: string, errorChecking: bool): (r: Result<Value, Exception>)
    ensures !errorChecking ==> r == Unwrap(results, resultOperation)
    ensures errorChecking && CheckReturnErrors(resultOperation, results).Fail? ==>
              r == Failure(CheckReturnErrors(resultOperation, results).error)
    ensures errorChecking && CheckReturnErrors(resultOperation, results).Pass? ==> r == Unwrap(results, resultOperation)
  {
    if errorChecking then
      match CheckReturnErrors(resultOperation, results)
      case Fail(e) => Failure(e)
      case Pass => Unwrap(results, resultOperation)
    else Unwrap(results, resultOperation)
  }

  /** A `Return` without a truthy `Errors` comes back unchanged, whatever the error policy. */
  lemma CleanReturnUnchanged(results: map<string, Value>, resultOperation: string, errorChecking: bool)
    requires resultOperation + "Return" in results
    requires !Nullish(results[resultOperation + "Return"])
    requires !Truthy(Prop(results[resultOperation + "Return"], "Errors"))
    ensures Finish(Record(results), resultOperation, errorChecking) == Success(results[resultOperation + "Return"])
  {
  }

  /**
   * With error checking on, a truthy `Errors` always fails the request, with
   * "(<Code>) <Msg>" of the first error entry; with it off it never does.
   */
  lemma ErrorsFailOnlyWhenChecked(results: map<string, Value>, resultOperation: string)
    requires resultOperation + "Return" in results
    requires Truthy(Prop(results[resultOperation + "Return"], "Errors"))
    ensures var err := FirstEntry(Prop(Prop(results[resultOperation + "Return"], "Errors"), "Err"));
            && Finish(Record(results), resultOperation, true).Failure?
            && (!Nullish(err) ==>
                  Finish(Record(results), resultOperation, true)
                    == Failure(Error(ServiceErrorMessage(Prop(err, "Code"), Prop(err, "Msg")))))
    ensures Finish(Record(results), resultOperation, false) == Success(results[resultOperation + "Return"])
  {
  }

  /** The result of an adapter's `executeRequest`, given the authentication parameters it computed. */
  function RequestResult(gateway: AfipWebService, soap: Soap, authParams: Result<map<string, Value>, Exception>,
                   operation: string, params: map<string, Value>, options: CallOptions,
                   resultOperation: string, errorChecking: bool): (r: Result<Value, Exception>)
    reads gateway
    ensures authParams.Failure? ==> r == Failure(authParams.error)
  {
    match authParams
    case Failure(e) => Failure(e)
    case Success(auth) =>
      match gateway.Response(soap, operation, Merge(auth, params), options)
      case Failure(e) => Failure(e)
      case Success(results) => Finish(results, resultOperation, errorChecking)
  }

  /** The invocations an adapter's `executeRequest` hands to the SOAP library. */
  function Transmitted(gateway: AfipWebService, soap: Soap, authParams: Result<map<string, Value>, Exception>,
                       operation: string, params: map<string, Value>, options: CallOptions): (s: seq<Call>)
    reads gateway
    ensures authParams.Failure? ==> s == []
    ensures authParams.Success? ==> s == gateway.Sent(soap, operation, Merge(authParams.value, params), options)
  {
    match authParams
    case Failure(_) => []
    case Success(auth) => gateway.Sent(soap, operation, Merge(auth, params), options)
  }

  /**
   * The gateway's client once an adapter's `executeRequest` is done: created
   * (and cached) by a request that got past the ticket, else as it was.
   */
  function ClientAfter(gateway: AfipWebService, soap: Soap, authParams: Result<map<string, Value>, Exception>)
    : (c: Option<Client>)
    reads gateway
    ensures authParams.Failure? ==> c == gateway.soapClient
    ensures gateway.soapClient.Some? ==> c == gateway.soapClient
    ensures authParams.Success? && gateway.soapClient.None? ==>
              (c.Some? <==> soap.load(gateway.WSDL, gateway.NewClientOptions()).Success?)
    ensures gateway.Valid() && c.Some? ==> c.value.wsdl == gateway.WSDL && c.value.endpoint == gateway.URL
  {
    if authParams.Success? && gateway.ClientFor(soap).Success? then Some(gateway.ClientFor(soap).value)
    else gateway.soapClient
  }

  /**
   * The shared body of the adapters' `executeRequest`: merge, call the
   * gateway, then unwrap (and check, where the adapter checks).
   */
  method Execute(gateway: AfipWebService, soap: Soap, authParams: Result<map<string, Value>, Exception>,
                 operation: string, params: map<string, Value>, options: CallOptions,
                 resultOperation: string, errorChecking: bool) returns (r: Result<Value, Exception>)
    requires gateway.Valid()
    modifies gateway
    ensures gateway.Valid() && gateway.CurrentSettings() == old(gateway.CurrentSettings())
    ensures r == old(RequestResult(gateway, soap, authParams, operation, params, options, resultOperation, errorChecking))
    ensures gateway.calls == old(gateway.calls) + old(Transmitted(gateway, soap, authParams, operation, params, options))
    ensures gateway.soapClient == old(ClientAfter(gateway, soap, authParams))
    ensures old(gateway.soapClient).Some? ==> gateway.soapClient == old(gateway.soapClient)
  {
    if authParams.Failure? {
      return Failure(authParams.error);
    }
    var results := gateway.ExecuteRequest(soap, operation, Merge(authParams.value, params), options);
    if results.Failure? {
      return Failure(results.error);
    }
    r := Finish(results.value, resultOperation, errorChecking);
  }
}
