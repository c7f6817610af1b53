# afip.js packing-slip services, modelled in Dafny

This project models the part of the afip.js SDK that talks to AFIP's three
electronic packing-slip web services (flour `wsremharina`, meat `wsremcarne`,
sugar `wsremazucar`) and the `AfipWebService` gateway they are built on.

- `Js.dfy` (module `Js`): the JavaScript values the SDK passes around
  (`Value`), truthiness, property access that throws a `TypeError` on null and
  undefined, object spread, and `String(v)` as template literals use it.
- `WebService.dfy` (module `WebService`): the gateway as a class. The
  constructor picks the production or the test WSDL and URL once. The SOAP
  client is created lazily on the first request and cached. Its endpoint is
  forced to the resolved URL. A request invokes `<operation>Async` and
  returns the first element of the reply. Two ghost fields record how many
  clients were created and every invocation handed to the SOAP library.
- `PackingSlip.dfy` (module `PackingSlip`): what the three adapters share.
  It builds the `authRequest` block (none for the status probe) and spreads
  it under the caller's parameters. It unwraps `results[resultOperation +
  'Return']`. Where the adapter checks errors, it turns an `Errors.Err`
  envelope into the error `"(<Code>) <Msg>"`.
- `Flour.dfy`, `Meat.dfy`, `Sugar.dfy`: one module per adapter. Each has its
  constants, its parameter builders and its `_checkErrors` variant. Each also
  has a class holding the gateway with one method per public operation. Meat
  adds `formatDate`; flour adds the status probe's rewrite of its request XML.

The SOAP library is a parameter of type `Soap`: `load` stands for loading
a WSDL and yields the endpoint it declares, or a failure; `invoke` yields a
reply tuple or a failure. The ticket authority (`afip.GetServiceTA`) is a
parameter of type `TicketAuthority`, from a service name to a ticket or a
failure. A rejected promise or a thrown exception is a `Failure` (or `Fail`)
carrying an `Exception`.

The adapters extend the gateway in the source. Here each adapter class holds
its gateway in a `const gateway` field and delegates to it. The state that
changes, the cached client, lives in the gateway in both designs.

The three adapters do not treat service errors alike. The flour adapter's
`executeRequest` does NOT run its `_checkErrors` (the call is commented out),
so a flour request returns a `Return` value holding `Errors` as it is. Only
meat and sugar fail on it.

## Model

| member | source | states |
|---|---|---|
| `Js.Prop` | src/Class/ElectronicPackingSlipSugar.js:136 | a record's own property, and undefined for an absent key or a value that is not a record |
| `Js.Get` | src/Class/ElectronicPackingSlipSugar.js:124 | reading a property fails with a TypeError exactly on null and undefined; otherwise it yields the own property or undefined |
| `Js.Spread` | src/Class/ElectronicPackingSlipMeat.js:102 | spreading an object contributes its fields; spreading null, undefined, a boolean or a number contributes nothing |
| `Js.ToString` | src/Class/ElectronicPackingSlipMeat.js:157 | a template literal shows a string as itself and a (safe integer) number as its decimal numeral with sign |
| `Js.IntToString` | src/Class/ElectronicPackingSlipMeat.js:85 | a non-negative number prints as its numeral; a negative one as a minus sign followed by the numeral of its magnitude |
| `Js.Join` | src/Class/ElectronicPackingSlipMeat.js:157 | an array in a template literal: nothing for no parts, the part itself for one, otherwise the first part and the separator lead |
| `Js.NatToString` | src/Class/ElectronicPackingSlipMeat.js:85 | the numeral of a natural number is non-empty, all digits, and starts with 0 only for 0 |
| `Js.NatToStringValue` | src/Class/ElectronicPackingSlipMeat.js:85 | reading the numeral's digits back gives the number itself |
| `Js.NatToStringLength` | src/Class/ElectronicPackingSlipMeat.js:85 | a number in [10^(k-1), 10^k) has a numeral of exactly k digits |
| `WebService.SoapV12` | src/Class/AfipWebService.js:18 | the SOAP 1.2 flag is the option when it is truthy and `false` otherwise |
| `WebService.NsArrayElems` | src/Class/AfipWebService.js:25 | the array-semantics flag is `true` only when the option is undefined; any supplied value is kept |
| `WebService.ExplicitFalseKeptOnlyForArrays` | src/Class/AfipWebService.js:18-25 | a supplied `false` survives for the array flag, while 0 or undefined become `false` for the SOAP 1.2 flag |
| `WebService.ResourcePath` | src/Class/AfipWebService.js:64 | the effective WSDL is the resource directory followed by the chosen file name |
| `WebService.ResourcePathInjective` | src/Class/AfipWebService.js:63-68 | for plain file names (no `/`, not `.` or `..`), the only kind the adapters pass, different names never resolve to the same location; a property of the model's resolution, which `path.resolve` shares for such names |
| `WebService.RawDate` | src/Class/AfipWebService.js:87-100 | the date deserializer returns the element's text unchanged |
| `WebService.FirstOf` | src/Class/AfipWebService.js:110 | the request's result is the first element of the reply tuple (undefined for an empty one) |
| `WebService.AfipWebService.NewClientOptions` | src/Class/AfipWebService.js:81-102 | a new client has caching disabled, the SOAP 1.2 and array flags of the instance and the raw date deserializer |
| `WebService.AfipWebService.constructor` | src/Class/AfipWebService.js:8-70 | flags defaulted; production keeps the production WSDL name and URL; test mode uses the test WSDL and overwrites URL with URL_TEST; no client yet |
| `WebService.AfipWebService.Create` | src/Class/AfipWebService.js:9-11 | construction fails with "Missing Web Service Object" exactly when the options object is missing; otherwise the new gateway has the defaulted flags, the production or test WSDL and URL, the test settings and parent kept, no client and no invocations |
| `WebService.AfipWebService.ClientFor` | src/Class/AfipWebService.js:80-107 | the cached client is reused; otherwise a client comes back exactly when loading WSDL succeeds, with the new-client options and the resolved URL, and a load failure is passed on as it is |
| `WebService.AfipWebService.Response` | src/Class/AfipWebService.js:78-113 | a failure to create the client or to invoke is the request's failure; otherwise the result is the reply's first element |
| `WebService.AfipWebService.Sent` | src/Class/AfipWebService.js:110 | at most one invocation, of `<operation>Async` with the parameters and options unchanged, and only once a client exists |
| `WebService.AfipWebService.ExecuteRequest` | src/Class/AfipWebService.js:78-114 | settings never change; the result and the invocations are as specified; a client is created at most once per instance and then reused; the client keeps the resolved URL |
| `PackingSlip.AuthRequest` | src/Class/ElectronicPackingSlipSugar.js:104-110 | the `authRequest` block holds exactly the ticket's token and sign and the represented CUIT |
| `PackingSlip.AuthParams` | src/Class/ElectronicPackingSlipSugar.js:97-111 | the probe gets no parameters; any other operation gets the auth block for a ticket of the adapter's service, or the authority's failure |
| `PackingSlip.Merge` | src/Class/ElectronicPackingSlipSugar.js:83 | the merged request has every key of either side, and the caller's value wins on a collision |
| `PackingSlip.AuthInjected` | src/Class/ElectronicPackingSlipMeat.js:100-102 | unless the caller overrides it, a non-probe request carries the caller's keys plus `authRequest` with the ticket and CUIT |
| `PackingSlip.ProbeSendsNoAuth` | src/Class/ElectronicPackingSlipFlour.js:124-127 | the status probe sends exactly the caller's parameters |
| `PackingSlip.Unwrap` | src/Class/ElectronicPackingSlipSugar.js:87 | unwrapping yields `<resultOperation>Return`, undefined when absent, and a TypeError on a null reply |
| `PackingSlip.FirstEntry` | src/Class/ElectronicPackingSlipSugar.js:137 | an array of errors yields its first entry; a single error yields itself |
| `PackingSlip.ServiceErrorMessage` | src/Class/ElectronicPackingSlipMeat.js:157 | the message is "(", the code's string form, ") ", then the message's string form, and nothing else |
| `PackingSlip.ErrorEnvelope` | src/Class/ElectronicPackingSlipSugar.js:136-139 | the check passes exactly when the value is not null or undefined and its `Errors` is falsy; otherwise it throws "(Code) Msg" of the first `Err` entry (of `Err` itself when not an array), or a TypeError when that entry is null or undefined |
| `PackingSlip.SingleErrorReported` | src/Class/ElectronicPackingSlipMeat.js:155-158 | a Return whose `Errors.Err` is one error record, whatever other fields it carries, is reported as "(Code) Msg" |
| `PackingSlip.FirstOfSeveralReported` | src/Class/ElectronicPackingSlipSugar.js:137-138 | with several entries, the outcome is that of the first entry alone, whatever other fields the Return and `Errors` carry |
| `PackingSlip.NoEntryIsTypeError` | src/Class/ElectronicPackingSlipSugar.js:137-138 | an empty, null or missing `Err` makes the check throw a TypeError, whatever other fields are present |
| `PackingSlip.ExampleMessage` | src/Class/ElectronicPackingSlipSugar.js:138 | code 1001 and message "CUIT no autorizada" give "(1001) CUIT no autorizada" |
| `PackingSlip.ServiceErrorExample` | src/Class/ElectronicPackingSlipSugar.js:136-139 | an envelope with code 1001 first yields "(1001) CUIT no autorizada" |
| `PackingSlip.CheckReturnErrors` | src/Class/ElectronicPackingSlipMeat.js:142-159 | the meat and sugar check reads the Return value without a guard: TypeError on a null reply, else the envelope check of the Return value |
| `PackingSlip.Finish` | src/Class/ElectronicPackingSlipMeat.js:104-106 | with checking on, a failed check is the request's failure and a passed one returns the unwrapped value; with it off the unwrapped value comes back |
| `PackingSlip.CleanReturnUnchanged` | src/Class/ElectronicPackingSlipSugar.js:85-87 | a Return without truthy `Errors` comes back unchanged under either policy |
| `PackingSlip.ErrorsFailOnlyWhenChecked` | src/Class/ElectronicPackingSlipMeat.js:104-106 | a truthy `Errors` fails a checked request, with "(Code) Msg" of the first error entry, and is returned as is by an unchecked one |
| `PackingSlip.RequestResult` | src/Class/ElectronicPackingSlipMeat.js:100-102 | a ticket failure fails the request before anything is sent |
| `PackingSlip.Transmitted` | src/Class/ElectronicPackingSlipMeat.js:100-102 | without a ticket nothing is sent; otherwise the gateway sends the merged parameters |
| `PackingSlip.ClientAfter` | src/Class/AfipWebService.js:80-107 | after an adapter's request the client is the cached one; a ticket failure leaves the gateway without one if it had none; otherwise one exists exactly when the WSDL loads, pointing at the resolved URL |
| `PackingSlip.Execute` | src/Class/ElectronicPackingSlipMeat.js:98-107 | the adapters' request: result, invocations and the client afterwards as specified, settings unchanged |
| `Flour.Options` | src/Class/ElectronicPackingSlipFlour.js:9-18 | the flour adapter supplies no SOAP 1.2 or array flag and passes the parent object through |
| `Flour.InitialRequest` | src/Class/ElectronicPackingSlipFlour.js:124-138 | `dummy` gets no parameters; anything else gets the auth block for a `wsremharina` ticket, or the authority's failure |
| `Flour.TruthyFields` | src/Class/ElectronicPackingSlipFlour.js:29-34 | a key is present exactly when its value is truthy, and then holds that value |
| `Flour.PackingSlipParams` | src/Class/ElectronicPackingSlipFlour.js:27-35 | each of the six query keys is present exactly when the caller's value is truthy; no other key is sent |
| `Flour.OmittedFieldIsAbsent` | src/Class/ElectronicPackingSlipFlour.js:33 | an undefined reference number leaves `nroComprobante` out rather than sending undefined |
| `Flour.ReceiversParams` | src/Class/ElectronicPackingSlipFlour.js:45-55 | `estadoRecepcion` always; `rangoFechas` only when both dates are truthy; never the page |
| `Flour.ReceptionParams` | src/Class/ElectronicPackingSlipFlour.js:70-77 | exactly the four reception keys with the caller's values |
| `Flour.ReceptionRequestKeys` | src/Class/ElectronicPackingSlipFlour.js:70-77 | the reception request carries the four keys and `authRequest`, nothing else |
| `Flour.IndexOf` | src/Class/ElectronicPackingSlipFlour.js:91 | the leftmost occurrence at or after a position, or none at all |
| `Flour.RemoveFirst` | src/Class/ElectronicPackingSlipFlour.js:91 | without an occurrence the text is unchanged; with one, the text before the leftmost occurrence and after it is kept and only the pattern goes |
| `Flour.RemoveFirstShape` | src/Class/ElectronicPackingSlipFlour.js:91 | text without the pattern is unchanged; text with it loses exactly one pattern's length |
| `Flour.RemoveFirstReinserted` | src/Class/ElectronicPackingSlipFlour.js:91 | only the first occurrence is removed: reinserting it rebuilds the text and everything after it is intact |
| `Flour.PostProcess` | src/Class/ElectronicPackingSlipFlour.js:89-92 | the probe's request XML loses its first empty `dummyRequest` element, and only that one, before it is sent: the text around the leftmost occurrence is kept; it is unchanged without one |
| `Flour.CheckErrors` | src/Class/ElectronicPackingSlipFlour.js:150-167 | a missing Return passes (optional chaining); a present one goes through the envelope check; a null reply throws |
| `Flour.MissingReturnTolerated` | src/Class/ElectronicPackingSlipFlour.js:163 | a reply lacking the Return field passes the flour check but fails the meat and sugar check |
| `Flour.ErrorsPassThrough` | src/Class/ElectronicPackingSlipFlour.js:112-114 | a Return holding `Errors` is returned unchanged although the flour check would fail on it |
| `Flour.ElectronicPackingSlipFlour.constructor` | src/Class/ElectronicPackingSlipFlour.js:9-19 | production uses the production WSDL and URL, test mode the test ones; the gateway keeps the test WSDL name and URL, SOAP 1.2 off (`false`) and array semantics on (`true`); no client yet |
| `Flour.ElectronicPackingSlipFlour.RequestOutcome` | src/Class/ElectronicPackingSlipFlour.js:106-115 | a ticket failure is the request's outcome, before anything is sent |
| `Flour.ElectronicPackingSlipFlour.RequestCalls` | src/Class/ElectronicPackingSlipFlour.js:106-115 | at most one invocation, of `<operation>Async`, and none on a ticket failure |
| `Flour.ElectronicPackingSlipFlour.RequestClient` | src/Class/ElectronicPackingSlipFlour.js:106-115 | a cached client stays; a ticket failure changes nothing; otherwise a client exists afterwards exactly when the WSDL loads, pointing at the resolved URL |
| `Flour.ElectronicPackingSlipFlour.ExecuteRequest` | src/Class/ElectronicPackingSlipFlour.js:106-115 | auth params merged under the caller's, the options forwarded, and the Return unwrapped without an error check; the gateway's client afterwards as specified |
| `Flour.ElectronicPackingSlipFlour.GetPackingSlip` | src/Class/ElectronicPackingSlipFlour.js:27-37 | `consultarRemito` with the truthy query fields, unwrapping `consultarRemitoReturn`; the gateway's client afterwards as specified |
| `Flour.ElectronicPackingSlipFlour.GetPackingSlipsReceivers` | src/Class/ElectronicPackingSlipFlour.js:45-57 | `consultarRemitosReceptor`, unwrapping `consultarRemitosReturn`; the gateway's client afterwards as specified |
| `Flour.ElectronicPackingSlipFlour.RegisterReception` | src/Class/ElectronicPackingSlipFlour.js:70-78 | `registrarRecepcion`, unwrapping `operacionReturn`; the gateway's client afterwards as specified |
| `Flour.ElectronicPackingSlipFlour.GetServerStatus` | src/Class/ElectronicPackingSlipFlour.js:88-95 | `dummy` with no parameters and the request-XML hook, unwrapping `dummyReturn`; the client afterwards as specified |
| `Meat.Options` | src/Class/ElectronicPackingSlipMeat.js:9-18 | the meat adapter supplies no SOAP 1.2 or array flag and passes the parent object through |
| `Meat.InitialRequest` | src/Class/ElectronicPackingSlipMeat.js:116-130 | `FEDummy` gets no parameters; anything else gets the auth block for a `wsremcarne` ticket, or the authority's failure |
| `Meat.ReceiversParams` | src/Class/ElectronicPackingSlipMeat.js:27-33 | only `estadoRecepcion`, never the page |
| `Meat.CategoryTypesParams` | src/Class/ElectronicPackingSlipMeat.js:43 | the null parameters spread to no keys at all |
| `Meat.ReceptionParams` | src/Class/ElectronicPackingSlipMeat.js:56-63 | exactly `codRemito`, `estado`, `categoriaReceptor` with the caller's values |
| `Meat.ReceptionRequestKeys` | src/Class/ElectronicPackingSlipMeat.js:56-63 | the reception request carries those three keys and the auth block, nothing else |
| `Meat.FirstDateRun` | src/Class/ElectronicPackingSlipMeat.js:86 | the leftmost position where eight consecutive digits start, or none |
| `Meat.FormatDate` | src/Class/ElectronicPackingSlipMeat.js:84-87 | null and undefined throw a TypeError; text without eight consecutive digits comes back as its string form |
| `Meat.ReplaceDateShape` | src/Class/ElectronicPackingSlipMeat.js:85-86 | only the first run is rewritten: the rest is kept, dashes go after the 4th and 6th digits, and removing them restores the text |
| `Meat.ReplaceDate` | src/Class/ElectronicPackingSlipMeat.js:86 | text without eight consecutive digits is unchanged; with a run, two characters longer |
| `Meat.EightDigitString` | src/Class/ElectronicPackingSlipMeat.js:84-87 | an eight-digit string YYYYMMDD becomes YYYY-MM-DD |
| `Meat.EightDigitNumber` | src/Class/ElectronicPackingSlipMeat.js:84-87 | an eight-digit number formats as its numeral with the two dashes |
| `Meat.NumeralExample` | src/Class/ElectronicPackingSlipMeat.js:85 | 20240131 converts to the string "20240131" |
| `Meat.FormatDateExample` | src/Class/ElectronicPackingSlipMeat.js:84-87 | "20240131" formats as "2024-01-31" |
| `Meat.FormatNumberExample` | src/Class/ElectronicPackingSlipMeat.js:84-87 | the number 20240131 formats as "2024-01-31" |
| `Meat.FormatDateOtherInputs` | src/Class/ElectronicPackingSlipMeat.js:85-86 | an already dashed date is unchanged, a nine-digit run keeps its last digit after the date, and undefined throws |
| `Meat.ElectronicPackingSlipMeat.constructor` | src/Class/ElectronicPackingSlipMeat.js:9-19 | production uses the production WSDL and URL, test mode the test ones; the gateway keeps the test WSDL name and URL, SOAP 1.2 off (`false`) and array semantics on (`true`); no client yet |
| `Meat.ElectronicPackingSlipMeat.RequestOutcome` | src/Class/ElectronicPackingSlipMeat.js:98-107 | a ticket failure is the request's outcome, before anything is sent |
| `Meat.ElectronicPackingSlipMeat.RequestCalls` | src/Class/ElectronicPackingSlipMeat.js:98-107 | at most one invocation, of `<operation>Async`, and none on a ticket failure |
| `Meat.ElectronicPackingSlipMeat.RequestClient` | src/Class/ElectronicPackingSlipMeat.js:98-107 | a cached client stays; a ticket failure changes nothing; otherwise a client exists afterwards exactly when the WSDL loads, pointing at the resolved URL |
| `Meat.ElectronicPackingSlipMeat.ExecuteRequest` | src/Class/ElectronicPackingSlipMeat.js:98-107 | auth params merged under the caller's, the Return checked for an error envelope, then unwrapped; the gateway's client afterwards as specified |
| `Meat.ElectronicPackingSlipMeat.GetPackingSlipsReceivers` | src/Class/ElectronicPackingSlipMeat.js:27-33 | `consultarRemitosReceptor`, unwrapping `consultarRemitosReturn`; the gateway's client afterwards as specified |
| `Meat.ElectronicPackingSlipMeat.GetReceiversCategoryTypes` | src/Class/ElectronicPackingSlipMeat.js:42-44 | `consultarTiposCategoriaReceptor` with no parameters of its own, unwrapping `consultarCategoriasReceptorReturn`; the gateway's client afterwards as specified |
| `Meat.ElectronicPackingSlipMeat.RegisterReception` | src/Class/ElectronicPackingSlipMeat.js:56-63 | `registrarRecepcion`, unwrapping `registrarRecepcionReturn`; the gateway's client afterwards as specified |
| `Meat.ElectronicPackingSlipMeat.GetServerStatus` | src/Class/ElectronicPackingSlipMeat.js:73-75 | `FEDummy` with no parameters, checked and unwrapped like any other reply; the gateway's client afterwards as specified |
| `Sugar.Options` | src/Class/ElectronicPackingSlipSugar.js:9-18 | the sugar adapter supplies no SOAP 1.2 or array flag and passes the parent object through |
| `Sugar.InitialRequest` | src/Class/ElectronicPackingSlipSugar.js:97-111 | `FEDummy` gets no parameters; anything else gets the auth block for a `wsremazucar` ticket, or the authority's failure |
| `Sugar.ReceiversParams` | src/Class/ElectronicPackingSlipSugar.js:31-39 | always exactly `fechaDesde`, `fechaHasta`, `estado`, whatever their values; never the page |
| `Sugar.ReceptionParams` | src/Class/ElectronicPackingSlipSugar.js:50-56 | exactly `codigoRemito` and `aceptaRecepcion` with the caller's values |
| `Sugar.UndefinedDatesStillSent` | src/Class/ElectronicPackingSlipSugar.js:31-39 | undefined dates are still sent as keys, beside the auth block |
| `Sugar.MissingReturnFails` | src/Class/ElectronicPackingSlipSugar.js:124-136 | a reply lacking the Return field fails a checked request with a TypeError, where an unchecked one would yield undefined |
| `Sugar.ElectronicPackingSlipSugar.constructor` | src/Class/ElectronicPackingSlipSugar.js:9-19 | production uses the production WSDL and URL, test mode the test ones; the gateway keeps the test WSDL name and URL, SOAP 1.2 off (`false`) and array semantics on (`true`); no client yet |
| `Sugar.ElectronicPackingSlipSugar.RequestOutcome` | src/Class/ElectronicPackingSlipSugar.js:79-88 | a ticket failure is the request's outcome, before anything is sent |
| `Sugar.ElectronicPackingSlipSugar.RequestCalls` | src/Class/ElectronicPackingSlipSugar.js:79-88 | at most one invocation, of `<operation>Async`, and none on a ticket failure |
| `Sugar.ElectronicPackingSlipSugar.RequestClient` | src/Class/ElectronicPackingSlipSugar.js:79-88 | a cached client stays; a ticket failure changes nothing; otherwise a client exists afterwards exactly when the WSDL loads, pointing at the resolved URL |
| `Sugar.ElectronicPackingSlipSugar.ExecuteRequest` | src/Class/ElectronicPackingSlipSugar.js:79-88 | auth params merged under the caller's, the Return checked for an error envelope, then unwrapped; the gateway's client afterwards as specified |
| `Sugar.ElectronicPackingSlipSugar.GetPackingSlipsReceivers` | src/Class/ElectronicPackingSlipSugar.js:31-39 | `consultarRemitosReceptor`, unwrapping `consultarRemitosReceptorReturn`; the gateway's client afterwards as specified |
| `Sugar.ElectronicPackingSlipSugar.RegisterReception` | src/Class/ElectronicPackingSlipSugar.js:50-56 | `confirmarRecepcionMercaderia`, unwrapping `confirmarRecepcionMercaderiaReturn`; the gateway's client afterwards as specified |
| `Sugar.ElectronicPackingSlipSugar.GetServerStatus` | src/Class/ElectronicPackingSlipSugar.js:66-68 | `FEDummy` with no parameters, checked and unwrapped like any other reply; the gateway's client afterwards as specified |

## Left out

- The SOAP library, XML, WSDL parsing and the network are not modelled. They appear only as the `Soap` parameter. The date deserializer's `context` argument is an opaque `Value`.
- `path.resolve` and the package's directory layout are not modelled. The effective WSDL is the file name behind a fixed resource-directory prefix. The absolute path is not modelled. Names containing `/`, `.` or `..` segments, which `path.resolve` would normalise, are outside `WebService.PlainFileName` and are not covered by `WebService.ResourcePathInjective`.
- `afip.GetServiceTA` is the `TicketAuthority` parameter. How tickets are issued, signed and cached is not modelled.
- Async scheduling is not modelled. Requests run one after another, so two first requests racing to create the client cannot happen here.
- The second argument to `new Error(message, code)` is ignored by JavaScript. Only the message is modelled.
- A missing `afip` or `afip.options` makes the constructor throw a TypeError. The model always has a parent object, with its `options.production` flag as `Afip.production`.
- `WebService.AfipWebService.constructor`: the WSDL and URL options are strings here. In the source a non-string WSDL name makes `path.resolve` throw a TypeError, so construction fails. Non-string URLs reach the SOAP library unchecked. Neither case is modelled.
- `Js.ToString`, `Meat.FormatDate`: numbers are the safe integers (magnitude at most 2^53 - 1), so every number prints without an exponent. NaN, infinities, -0, fractions and larger magnitudes are not modelled. For example, `formatDate(1e21)` gives "1e+21" in JavaScript.
- Objects have no inherited properties, so `length` and the like read as undefined.
- Object key order is not modelled. Records are maps, so the insertion order fixed by `{ ...authParams, ...params }` and the conditional spreads is lost. The SOAP library writes request elements in that order.
- A caller argument that is not an object cannot be destructured in the source (a TypeError before any request). Here the methods take the destructured fields directly.
- `page` is accepted by the receivers operations and never sent, as in the source. The model keeps the parameter and leaves it unused.
- The business meaning of the status codes (ACE, ACP, NAC, ...) and of the services' replies is not modelled.
