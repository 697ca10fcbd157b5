# Prosoft.Rpc in Dafny

A model of the RPC library Prosoft.Rpc. A client calls a method of a contract
interface through a generated proxy. The proxy posts the JSON-encoded
arguments over HTTP to a service URI. On the host, the contract is resolved by
name, a service type implementing it is found and instantiated, and the
request body is marshalled into a reflective method call.

The model has five modules:

- `RpcTypes` (`rpc_types.dfy`): the runtime world.
  - Types are values with a full name, interface and value-type flags, and public methods.
  - Assemblies are listed in load order; emit builders are marked.
  - Assignability is a given relation.
  - JSON values are opaque, and the JSON codec is a set of partial functions.
  - It also holds the exceptions and `Type.GetMethod`.
- `Guids` (`guids.dfy`): session ids, the empty id, and their text form.
- `RpcHost` (`host.dfy`): `Host.cs`.
  - class `Host` holds the two caches as fields.
  - `ResolveContract`, `FindService` and `TryCreateInstance` change them.
  - `ScanExportedTypes` is the nested assembly/type loop both lookups share.
  - `Invoke` fills the argument array in a loop.
- `RpcProxy` (`proxy.dfy`): `ProxyObject.cs`.
  - class `ProxyObject` holds the readonly fields. Its `Invoke` is the do-while retry loop.
  - class `ProxyTypeCache` holds the proxy-type cache.
  - `DefineProxyType` builds the forwarding-method descriptors in loops.
  - The retry loop is specified by the state machine `RunAttempts` over the outcomes of the four possible attempts.
- `RpcClient` (`client.dfy`): `Client.cs`.
  - class `Client` holds the `GetSession` and `GetUri` hooks.
  - `Create` is the proxy factory.

Each stateful method is proved against a specification function:

- `ScanExportedTypes` against `FirstWhere(Candidates(...))`.
- `ProxyObject.Invoke` against `RunAttempts` and `Classify`.
- `DefineProxyType` against `ForwarderFor`.
- `Host.Invoke` against `Marshal`.

Lemmas prove what those functions promise: first-match order, emit builders being skipped, case insensitivity, the retry bound, argument packing, and the round trips of the request target, the cookie and the id text.

## Model

| member | source | states |
|---|---|---|
| RpcTypes.GetMethod | Prosoft.Rpc/ProxyObject.cs:28 | nothing when no public method has the name; the one method with the name when it is unique; an ambiguity only when two methods share the name |
| Guids.GuidText | Prosoft.Rpc/ProxyObject.cs:50 | the text form of an id is 36 characters with hyphens at 8, 13, 18 and 23 |
| Guids.GuidTextRoundTrip | Prosoft.Rpc/ProxyObject.cs:50 | parsing the text form of an id gives the id back |
| Guids.GuidTextInjective | Prosoft.Rpc/ProxyObject.cs:50 | different session ids give different cookie texts |
| RpcHost.FoldIsCanonical | Prosoft.Rpc/Host.cs:14 | a folded name folds to itself and equals the original ignoring case, so it can serve as the ignore-case dictionary key |
| RpcHost.CandidatesMembers | Prosoft.Rpc/Host.cs:111-115 | a scan visits exactly the exported types of the assemblies that are not emit builders |
| RpcHost.FirstWhereMeaning | Prosoft.Rpc/Host.cs:117-123 | the first match satisfies the test and nothing before it does; there is none iff no candidate does |
| RpcHost.FoundAt | Prosoft.Rpc/Host.cs:109-121 | the scan runs in assembly order, then type order: type j of an assembly is found when it matches and nothing scanned before it does |
| RpcHost.EmitBuilderInvisible | Prosoft.Rpc/Host.cs:113 | an emit-builder assembly, wherever it is loaded, changes no scan |
| RpcHost.ScanExportedTypes | Prosoft.Rpc/Host.cs:109-124 | the nested loop returns the first matching exported type of a non-builder assembly, or nothing |
| RpcHost.ResolveIgnoresCase | Prosoft.Rpc/Host.cs:119 | two names equal up to case resolve to the same contract |
| RpcHost.ResolveMeaning | Prosoft.Rpc/Host.cs:109-126 | a resolved contract is exported by a non-builder assembly and has the queried name up to case; a miss means no such type exists |
| RpcHost.ContractShadowsLaterImplementers | Prosoft.Rpc/Host.cs:87-97 | because assignability is reflexive, the contract itself is the service found when it is scanned before every implementer |
| RpcHost.ConvertAll | Prosoft.Rpc/Host.cs:40-50 | success gives an array of the declared length, element i converted to parameter type i; it fails with "Parameter type mismatch" iff some element does not convert |
| RpcHost.Marshal | Prosoft.Rpc/Host.cs:26-50 | an empty body succeeds only for zero parameters, and otherwise fails with "Parameter count mismatch."; an unparsable body fails as a JSON read error; an array of the wrong length fails with "Parameter count mismatch"; then conversion decides, and a failed conversion throws "Parameter type mismatch"; no other error arises |
| RpcHost.Reflected | Prosoft.Rpc/Host.cs:53 | the invoked method's value passes through, and its exception arrives wrapped as a target-invocation exception |
| RpcHost.ServiceInstance.constructor | Prosoft.Rpc/Host.cs:76 | the created instance has the service type |
| RpcHost.Host.constructor | Prosoft.Rpc/Host.cs:14-16 | both caches start empty |
| RpcHost.Host.CoherentContractLookup | Prosoft.Rpc/Host.cs:107 | while the caches are coherent with the world, a cached contract equals what a fresh scan gives, whatever the case of the name |
| RpcHost.Host.CoherentServiceLookup | Prosoft.Rpc/Host.cs:83 | while the caches are coherent with the world, a cached service type equals what a fresh scan gives |
| RpcHost.Host.ResolveContract | Prosoft.Rpc/Host.cs:105-127 | a cached key, matched ignoring case, answers without a scan; otherwise the scan result, a miss included, is stored under the case-folded name; coherence is preserved |
| RpcHost.Host.FindService | Prosoft.Rpc/Host.cs:81-103 | a cached contract answers without a scan; otherwise the first assignable type, or nothing, is stored; coherence is preserved |
| RpcHost.Host.TryCreateInstance | Prosoft.Rpc/Host.cs:56-79 | a null name throws ArgumentNullException and leaves the caches alone; a failed lookup answers false with no instance; otherwise a fresh instance of the service type and true, or a missing-constructor exception for an interface |
| RpcHost.Host.Invoke | Prosoft.Rpc/Host.cs:18-54 | a missing method throws NullReferenceException and an ambiguous one AmbiguousMatchException; a marshalling failure is thrown and the method is not invoked; otherwise it is invoked once, with exactly the marshalled arguments |
| RpcProxy.TrimEndSlashes | Prosoft.Rpc/ProxyObject.cs:22 | the stored URI does not end in '/' and the input is the stored URI followed by slashes only |
| RpcProxy.TrimEndSlashesUndoesSlashes | Prosoft.Rpc/ProxyObject.cs:22 | trimming a URI with any number of slashes appended gives back the URI |
| RpcProxy.RequestTargetReadBack | Prosoft.Rpc/ProxyObject.cs:29 | URI, contract full name and method name can be read back from the request target when the URI has no '?' and the name no '&' |
| RpcProxy.SessionCookie | Prosoft.Rpc/ProxyObject.cs:48-51 | a cookie is sent iff the session id is not empty; it starts with "sessionId=" and holds a 36-character id |
| RpcProxy.SessionCookieReadBack | Prosoft.Rpc/ProxyObject.cs:50 | the session id is recovered from its cookie |
| RpcProxy.Payload | Prosoft.Rpc/ProxyObject.cs:30-35 | a body exists iff the argument array is non-null, and it is the serialized array |
| RpcProxy.Request | Prosoft.Rpc/ProxyObject.cs:44-66 | every attempt is a POST to the target with a 300000 ms timeout; it carries the session cookie, so "sessionId=<id>" exactly when the id is not empty; it has the content type "application/json" and a body only when there is content; the content length is the body's length, or 0 |
| RpcProxy.StreamFaultEscapesAtOnce | Prosoft.Rpc/ProxyObject.cs:53-62 | with a body, a fault opening or writing the request stream on the first attempt ends the call at once, with no retry and no sleep |
| RpcProxy.RunAttemptsShape | Prosoft.Rpc/ProxyObject.cs:37-84 | the loop makes one to four attempts; every attempt before the last gave nothing; the last decides the outcome with one sleep per earlier attempt, or all four gave nothing and the loop slept four times |
| RpcProxy.ResponseIsNeverRetried | Prosoft.Rpc/ProxyObject.cs:68-81 | an HTTP response of any status on the first attempt ends the loop after one attempt and no sleep |
| RpcProxy.FourthAttemptAnswers | Prosoft.Rpc/ProxyObject.cs:40-84 | with no stream fault, three silent attempts and a fourth answered give the fourth response after three sleeps, with or without a body |
| RpcProxy.ExhaustedIffNoAttemptAnswers | Prosoft.Rpc/ProxyObject.cs:84-87 | the loop ends exhausted, and so the call fails with "Unknown error", iff none of the four attempts gave a response or an escaping exception (the converse does not hold: see the next row) |
| RpcProxy.RemoteUnknownErrorLooksExhausted | Prosoft.Rpc/ProxyObject.cs:86-87 | an error response whose body is "Unknown error" throws the same exception as an exhausted loop, so a caller cannot tell the two apart |
| RpcProxy.Classify | Prosoft.Rpc/ProxyObject.cs:86-112 | no response gives "Unknown error"; status 200 and a void return give null whatever the body; any other status throws the body text; 200 and a value return give the decoded body or a JSON error; 200 with no such method throws NullReferenceException |
| RpcProxy.ProxyObject.constructor | Prosoft.Rpc/ProxyObject.cs:19-24 | contract and session id are kept and the URI is stored trimmed |
| RpcProxy.ProxyObject.Invoke | Prosoft.Rpc/ProxyObject.cs:26-113 | an ambiguous method name throws before any attempt; otherwise attempts, sleeps and the result are those of the retry state machine on the request built from URI, names, cookie and body, classified by status and return type |
| RpcProxy.ForwarderFor | Prosoft.Rpc/ProxyObject.cs:144-203 | a forwarding method keeps the contract method's name, parameter types and return type, and passes that name to Invoke; it passes null iff there are no parameters; it discards the result iff the return is void, and unboxes it iff the return is a value type |
| RpcProxy.StoresFillPrefix | Prosoft.Rpc/ProxyObject.cs:171-189 | after the first k element stores the array holds the first k arguments in order, followed by nulls |
| RpcProxy.ForwarderPacksArguments | Prosoft.Rpc/ProxyObject.cs:167-190 | a forwarding method passes null for zero parameters, and otherwise an array with argument i at index i |
| RpcProxy.ForwardedCallBody | Prosoft.Rpc/ProxyObject.cs:32-35 | a call through a forwarding method sends a body iff the contract method has parameters; the body is the serialized arguments in order, and the target names the contract and the method |
| RpcProxy.ProxyTypeCache.constructor | Prosoft.Rpc/ProxyObject.cs:115 | the cache starts empty and no type has been generated |
| RpcProxy.ProxyTypeCache.GetProxyObjectType | Prosoft.Rpc/ProxyObject.cs:121-210 | a cached contract returns its type with nothing generated; otherwise the type is generated, stored and logged; a type is generated at most once per contract |
| RpcProxy.DefineProxyType | Prosoft.Rpc/ProxyObject.cs:142-204 | the generated type has one forwarding method per contract method, in order, each the one ForwarderFor describes |
| RpcClient.UnresolvedUriMessage | Prosoft.Rpc/Client.cs:30 | the message quotes the contract's full name, which can be read back from it |
| RpcClient.Client.constructor | Prosoft.Rpc/Client.cs:15-17 | both hooks start unset |
| RpcClient.Client.SessionId | Prosoft.Rpc/Client.cs:7-13 | one call of the session hook; no hook throws NullReferenceException |
| RpcClient.Client.Create | Prosoft.Rpc/Client.cs:19-33 | a non-interface throws ArgumentException with the cache untouched; otherwise the proxy type is cached first, generated only when it was not cached; a missing URI hook or a null URI throws before the session is read, the null URI with a message that names the contract; otherwise the session is read once and a fresh proxy holds the contract, the trimmed URI and that session id |

## Left out

- The HTTP transport is not modelled. This covers `WebRequest`, the streams, `Dispose` and the wire format. Each attempt's outcome is an input function of the attempt number and the request.
- Real sleeping and the request timeout are not modelled. Sleeps are counted, and the timeout is only a field of the request.
- JSON serialization is not modelled. Encoding is an uninterpreted function, and parsing and decoding are partial functions. JSON text is never looked into.
- RpcProxy.ProxyTypeCache.GetProxyObjectType: assumes that creating the generated type always succeeds. A contract's `methods` stand for what `GetMethods()` returns, which is only the interface's own methods. So a contract that extends another interface (say `IApi : IDisposable`), or that has a generic method, leaves the generated type unable to be created. The runtime then throws before the type is cached, and `Create` throws before resolving the URI. Every later `Create` for that contract tries again. The model does not capture this failure. Its `GetProxyObjectType` and `Client.Create` always cache `ProxyTypeFor(contract)` for an interface.
- IL emission is not modelled. The emitted code is described by a forwarding-method descriptor: its name, parameter types, return type, argument packing and result handling.
- The generated type's name, built from a random suffix, is not modelled. It does not affect behaviour.
- The generated constructor, which passes its three arguments to the base constructor, is folded into `ProxyObject.constructor`.
- ForwarderFor: records that a value-typed result is unboxed, but the runtime effect of the unbox (an exception on null) is not modelled.
- Reflection is abstracted. `AppDomain.GetAssemblies` is the `World` argument, and `MethodInfo.Invoke` is the `target` argument, called at most once. `Activator.CreateInstance` is modelled only for the interface case, which throws.
- The concurrency of the unsynchronised static caches is not modelled.
- Type identity is structural. Two type values with the same fields are the same type, where the runtime compares references.
- RpcHost.ResolveIgnoresCase: ignoring case folds only ASCII letters. Invariant-culture folding of other letters is not modelled.
- RpcHost.EqualsIgnoreCase: one folding stands for two. The scan compares names by the current culture (Prosoft.Rpc/Host.cs:119), but the cache keys use the invariant culture (Prosoft.Rpc/Host.cs:14). The model assumes both fold alike. Under a culture such as Turkish they differ: a scan miss for "a.idemo" would be cached and then also answer "A.IDEMO", which a fresh scan would resolve.
- RpcHost.ContractShadowsLaterImplementers: takes reflexive assignability as a precondition. The `World` datatype does not enforce it.
- RpcHost.Host.ResolveContract: a null name, which throws from the dictionary, is not modelled. Its only caller rejects null first. Listing the exported types of an assembly whose dependencies are missing also throws. That is not modelled, for this lookup or for `FindService`: each assembly's exported types are a given sequence.
- RpcHost.Host.FindService: a null contract, which throws from the dictionary, is not modelled. Its only caller passes a resolved type.
- RpcHost.Host.Invoke: the request body is a byte sequence. A null stream or a stream without a length is not modelled. Neither is a null method name, for which `GetMethod` throws ArgumentNullException.
- RpcHost.Host.TryCreateInstance: `Activator.CreateInstance` is modelled only for an interface service, which throws. For any other service type the model creates an instance and answers true. The runtime also throws for an abstract class, for a type without a public parameterless constructor (a name that resolves to `System.String`, say), and when the constructor itself throws.
- RpcProxy.ProxyObject.Invoke: a URI that `WebRequest` rejects as malformed is not modelled.
- RpcProxy.RequestTargetReadBack: holds only for a URI without '?' and a contract name without '&'. The library escapes neither. `ReadTarget` is a literal split. A real query parser also turns '+' into a space and decodes '%' escapes, and a '#' starts a fragment. So a name containing '+', '%' or '#' (a nested contract such as "Outer+IApi", say) would not read back.
- RpcClient.Client.Create: a hook that itself throws is not modelled. The `GetUri` hook is a total function with `None` for null.
- The demo application (routing, console start-up, the sample contract and service) is not part of this model.
