/** The client side of the RPC library (ProxyObject.cs): the proxy base
    object, which turns a contract method call into an HTTP request, retries
    it while no response comes back and turns the response into a value or an
    exception; and the process-wide cache of generated proxy types together
    with the shape of the forwarding methods they contain. */
module RpcProxy {
  import opened RpcTypes
  import opened Guids

  // ---------------------------------------------------------------------
  // The service URI
  // ---------------------------------------------------------------------

  function Slashes(k: nat): (r: string)
    ensures |r| == k && forall i :: 0 <= i < k ==> r[i] == '/'
  {
    if k == 0 then [] else Slashes(k - 1) + ['/']
  }

  /** `uri.TrimEnd('/')`: the input without its trailing slashes. */
  function TrimEndSlashes(s: string): (r: string)
    ensures |r| <= |s|
    ensures s == r + Slashes(|s| - |r|)
    ensures |r| == 0 || r[|r| - 1] != '/'
    decreases |s|
  {
    if |s| > 0 && s[|s| - 1] == '/' then
      var r := TrimEndSlashes(s[..|s| - 1]);
      assert s == s[..|s| - 1] + ['/'];
      r
    else
      assert s == s + Slashes(0);
      s
  }

  /** Any trailing slashes, and only those, are trimmed: appending slashes to
      a URI that does not end in one and trimming gives the URI back. */
  lemma {:induction false} TrimEndSlashesUndoesSlashes(u: string, k: nat)
    requires |u| == 0 || u[|u| - 1] != '/'
    ensures TrimEndSlashes(u + Slashes(k)) == u
    decreases k
  {
    if k == 0 {
      assert u + Slashes(0) == u;
    } else {
      var s := u + Slashes(k);
      assert s[..|s| - 1] == u + Slashes(k - 1);
      TrimEndSlashesUndoesSlashes(u, k - 1);
    }
  }

  // ---------------------------------------------------------------------
  // The request
  // ---------------------------------------------------------------------

  /** The request target: the service URI with the contract's full name and
      the method name as query parameters. */
  function RequestTarget(uri: string, contractName: string, methodName: string): string {
    uri + "?name=" + contractName + "&method=" + methodName
  }

  /** The position of the first `c` in `s`. */
  function IndexOf(s: string, c: char): (r: Option<nat>)
    ensures r.Some? ==> r.value < |s| && s[r.value] == c && c !in s[..r.value]
    ensures r.None? ==> c !in s
  {
    if |s| == 0 then None
    else if s[0] == c then Some(0)
    else
      match IndexOf(s[1..], c)
      case None => None
      case Some(i) =>
        assert s[..i + 1] == [s[0]] + s[1..][..i];
        Some(i + 1)
  }

  lemma {:induction false} IndexOfAfter(a: string, b: string, c: char)
    requires c !in a && |b| > 0 && b[0] == c
    ensures IndexOf(a + b, c) == Some(|a|)
    decreases |a|
  {
    if |a| > 0 {
      assert (a + b)[1..] == a[1..] + b;
      IndexOfAfter(a[1..], b, c);
    }
  }

  /** A literal split of a target of the form `path?name=N&method=M`: the
      path up to the first '?', the name up to the next '&', and the method
      name after it. No percent-decoding and no '+' to space. */
  function ReadTarget(target: string): Option<(string, string, string)> {
    match IndexOf(target, '?')
    case None => None
    case Some(q) =>
      match ReadQuery(target[q + 1..])
      case None => None
      case Some((name, methodName)) => Some((target[..q], name, methodName))
  }

  function ReadQuery(query: string): Option<(string, string)> {
    if |query| < 5 || query[..5] != "name=" then None
    else
      var afterName := query[5..];
      match IndexOf(afterName, '&')
      case None => None
      case Some(a) =>
        var rest := afterName[a + 1..];
        if |rest| < 7 || rest[..7] != "method=" then None
        else Some((afterName[..a], rest[7..]))
  }

  lemma ReadQueryReadBack(contractName: string, methodName: string)
    requires '&' !in contractName
    ensures ReadQuery("name=" + contractName + "&method=" + methodName) == Some((contractName, methodName))
  {
    var query := "name=" + contractName + "&method=" + methodName;
    var afterName := query[5..];
    assert afterName == contractName + ("&method=" + methodName);
    IndexOfAfter(contractName, "&method=" + methodName, '&');
    assert afterName[..|contractName|] == contractName;
    var rest := afterName[|contractName| + 1..];
    assert rest == "method=" + methodName;
    assert rest[7..] == methodName;
  }

  /** The target carries the URI, the contract name and the method name
      recoverably, as long as the URI has no '?' and the name no '&' (the
      library escapes neither). */
  lemma RequestTargetReadBack(uri: string, contractName: string, methodName: string)
    requires '?' !in uri && '&' !in contractName
    ensures ReadTarget(RequestTarget(uri, contractName, methodName)) == Some((uri, contractName, methodName))
  {
    var target := RequestTarget(uri, contractName, methodName);
    var query := "name=" + contractName + "&method=" + methodName;
    assert target == uri + ("?" + query);
    IndexOfAfter(uri, "?" + query, '?');
    assert target[|uri| + 1..] == query;
    assert target[..|uri|] == uri;
    ReadQueryReadBack(contractName, methodName);
  }

  const CookiePrefix := "sessionId="

  /** The cookie an attempt carries: none for the empty session id. */
  function SessionCookie(sessionId: Guid): (r: Option<string>)
    ensures r.Some? <==> sessionId != EmptyGuid
    ensures r.Some? ==> |r.value| == |CookiePrefix| + 36 && r.value[..|CookiePrefix|] == CookiePrefix
  {
    if sessionId != EmptyGuid then Some(CookiePrefix + GuidText(sessionId)) else None
  }

  /** The session id is recovered from its cookie. */
  lemma SessionCookieReadBack(sessionId: Guid)
    requires sessionId != EmptyGuid
    ensures ParseGuid(SessionCookie(sessionId).value[|CookiePrefix|..]) == Some(sessionId)
  {
    assert SessionCookie(sessionId).value[|CookiePrefix|..] == GuidText(sessionId);
    GuidTextRoundTrip(sessionId);
  }

  const RequestTimeoutMs := 300000
  const JsonContentType := "application/json"

  datatype HttpRequest = HttpRequest(
    httpMethod: string,
    target: string,
    timeoutMs: nat,
    cookie: Option<string>,
    contentType: Option<string>,
    contentLength: nat,
    body: Option<seq<bv8>>)

  /** The request body: the serialized argument array, and none for a null
      array. */
  function Payload(parameters: Option<seq<Obj>>, codec: JsonCodec): (r: Option<seq<bv8>>)
    ensures r.Some? <==> parameters.Some?
    ensures r.Some? ==> r.value == codec.serialize(parameters.value)
  {
    match parameters
    case None => None
    case Some(ps) => Some(codec.serialize(ps))
  }

  /** The request every attempt sends. */
  function Request(target: string, sessionId: Guid, contentData: Option<seq<bv8>>): (req: HttpRequest)
    ensures req.httpMethod == "POST" && req.target == target && req.timeoutMs == RequestTimeoutMs
    ensures req.cookie == SessionCookie(sessionId)
    ensures req.cookie.Some? <==> sessionId != EmptyGuid
    ensures req.body == contentData
    ensures req.contentType == if contentData.Some? then Some(JsonContentType) else None
    ensures req.contentLength == if contentData.Some? then |contentData.value| else 0
  {
    HttpRequest(
      "POST", target, RequestTimeoutMs, SessionCookie(sessionId),
      if contentData.Some? then Some(JsonContentType) else None,
      if contentData.Some? then |contentData.value| else 0,
      contentData)
  }

  // ---------------------------------------------------------------------
  // The retry loop as a state machine over transport outcomes
  // ---------------------------------------------------------------------

  /** What waiting for the response of one attempt gives: nothing (a
      transport failure the loop swallows), an HTTP response of any status,
      or an exception the loop does not catch. */
  datatype Reply = NoResponse | Response(status: int, body: string) | Fault(e: Exception)

  /** One attempt: whether opening or writing the request stream throws
      (only consulted when there is a body), and the reply. */
  datatype Exchange = Exchange(streamFault: Option<Exception>, reply: Reply)

  /** The network: what the attempt with a given index gives. */
  type Transport = (nat, HttpRequest) -> Exchange

  datatype End = Got(status: int, body: string) | Escaped(e: Exception) | Exhausted

  /** How the loop ended, after how many attempts and how many sleeps. */
  datatype Run = Run(attempts: nat, sleeps: nat, end: End)

  const MaxAttempts := 4

  /** How one attempt ends the loop, or `None` when it is retried. */
  function Decides(x: Exchange, req: HttpRequest): Option<End> {
    if req.body.Some? && x.streamFault.Some? then Some(Escaped(x.streamFault.value))
    else
      match x.reply
      case NoResponse => None
      case Response(status, body) => Some(Got(status, body))
      case Fault(e) => Some(Escaped(e))
  }

  /** The loop from attempt `k` on, the `k` earlier attempts having each
      slept once. */
  function RunAttempts(transport: Transport, req: HttpRequest, k: nat): Run
    requires k < MaxAttempts
    decreases MaxAttempts - k
  {
    match Decides(transport(k, req), req)
    case Some(end) => Run(k + 1, k, end)
    case None =>
      if k == MaxAttempts - 1 then Run(MaxAttempts, MaxAttempts, Exhausted)
      else RunAttempts(transport, req, k + 1)
  }

  /** Failing to open or write the request stream is not caught: when the
      request has a body, the first attempt's stream fault ends the call with
      no retry and no sleep. */
  lemma StreamFaultEscapesAtOnce(transport: Transport, req: HttpRequest, e: Exception)
    requires req.body.Some? && transport(0, req).streamFault == Some(e)
    ensures RunAttempts(transport, req, 0) == Run(1, 0, Escaped(e))
  {
    assert Decides(transport(0, req), req) == Some(Escaped(e));
  }

  /** The loop makes between one and four attempts, every one but the last
      retried because it gave nothing, and sleeps after each attempt that gave
      nothing: the last attempt decides the outcome, or all four gave nothing
      and the loop is exhausted. */
  lemma {:induction false} RunAttemptsShape(transport: Transport, req: HttpRequest, k: nat)
    requires k < MaxAttempts
    ensures var run := RunAttempts(transport, req, k);
      && k < run.attempts <= MaxAttempts
      && (forall a :: k <= a < run.attempts - 1 ==> Decides(transport(a, req), req).None?)
      && (run.end.Exhausted? <==> Decides(transport(run.attempts - 1, req), req).None?)
      && (run.end.Exhausted? ==> run.attempts == MaxAttempts && run.sleeps == MaxAttempts)
      && (!run.end.Exhausted? ==> Decides(transport(run.attempts - 1, req), req) == Some(run.end) && run.sleeps == run.attempts - 1)
    decreases MaxAttempts - k
  {
    if Decides(transport(k, req), req).None? && k < MaxAttempts - 1 {
      RunAttemptsShape(transport, req, k + 1);
    }
  }

  /** Any HTTP response, whatever its status, ends the loop at once: a
      request answered on the first attempt is never retried or slept on. */
  lemma ResponseIsNeverRetried(transport: Transport, req: HttpRequest, status: int, body: string)
    requires transport(0, req).reply == Response(status, body)
    requires req.body.None? || transport(0, req).streamFault.None?
    ensures RunAttempts(transport, req, 0) == Run(1, 0, Got(status, body))
  {
  }

  /** Three attempts without a response and a fourth with one: the call gets
      the fourth response after three sleeps. */
  lemma FourthAttemptAnswers(transport: Transport, req: HttpRequest, status: int, body: string)
    requires forall a :: 0 <= a < MaxAttempts ==> transport(a, req).streamFault.None?
    requires forall a :: 0 <= a < 3 ==> transport(a, req).reply == NoResponse
    requires transport(3, req).reply == Response(status, body)
    ensures RunAttempts(transport, req, 0) == Run(4, 3, Got(status, body))
  {
    assert Decides(transport(0, req), req).None?;
    assert Decides(transport(1, req), req).None?;
    assert Decides(transport(2, req), req).None?;
  }

  /** The loop is exhausted exactly when no attempt of the four gave
      anything. */
  lemma ExhaustedIffNoAttemptAnswers(transport: Transport, req: HttpRequest)
    ensures RunAttempts(transport, req, 0).end.Exhausted? <==>
      forall a :: 0 <= a < MaxAttempts ==> Decides(transport(a, req), req).None?
  {
    RunAttemptsShape(transport, req, 0);
    var run := RunAttempts(transport, req, 0);
    if !run.end.Exhausted? {
      assert Decides(transport(run.attempts - 1, req), req).Some?;
    }
  }

  // ---------------------------------------------------------------------
  // The response
  // ---------------------------------------------------------------------

  const StatusOK := 200
  const UnknownError := "Unknown error"

  /** What the call returns or throws once the loop has ended. `returnType`
      is the return type of the contract method, or `None` when the contract
      has no method of that name. */
  function Classify(end: End, returnType: Option<ReturnType>, codec: JsonCodec): (r: Outcome<Obj>)
    ensures end.Exhausted? ==> r == Threw(Failure(UnknownError))
    ensures end.Escaped? ==> r == Threw(end.e)
    ensures end.Got? && end.status != StatusOK ==> r == Threw(Failure(end.body))
    ensures end.Got? && end.status == StatusOK && returnType == Some(Void) ==> r == Returned(Null)
    ensures end.Got? && end.status == StatusOK && returnType.Some? && returnType.value.Returns? ==>
      r == match codec.deserialize(end.body, returnType.value.t) { case Some(v) => Returned(v) case None => Threw(JsonRead) }
    ensures end.Got? && end.status == StatusOK && returnType.None? ==> r == Threw(NullReference)
  {
    match end
    case Exhausted => Threw(Failure(UnknownError))
    case Escaped(e) => Threw(e)
    case Got(status, body) =>
      if status == StatusOK && returnType.None? then Threw(NullReference)
      else if status == StatusOK && returnType.value.Void? then Returned(Null)
      else if status != StatusOK then Threw(Failure(body))
      else
        match codec.deserialize(body, returnType.value.t)
        case Some(v) => Returned(v)
        case None => Threw(JsonRead)
  }

  /** A caller cannot tell an exhausted loop from a service that answered
      with an error status and the text "Unknown error": both throw the same
      plain exception. */
  lemma RemoteUnknownErrorLooksExhausted(status: int, returnType: Option<ReturnType>, codec: JsonCodec)
    requires status != StatusOK
    ensures Classify(Got(status, UnknownError), returnType, codec) == Classify(Exhausted, returnType, codec)
  {
  }

  function ReturnTypeOf(lookup: MethodLookup): Option<ReturnType> {
    if lookup.Found? then Some(lookup.m.returnType) else None
  }

  // ---------------------------------------------------------------------
  // The proxy base object
  // ---------------------------------------------------------------------

  class ProxyObject {
    const contractType: ClrType
    const uri: string
    const sessionId: Guid

    constructor (contractType: ClrType, uri: string, sessionId: Guid)
      ensures this.contractType == contractType && this.sessionId == sessionId
      ensures this.uri == TrimEndSlashes(uri)
    {
      this.contractType := contractType;
      this.uri := TrimEndSlashes(uri);
      this.sessionId := sessionId;
    }

    /** The request a call of `methodName` sends on every attempt. */
    function RequestFor(methodName: string, parameters: Option<seq<Obj>>, codec: JsonCodec): HttpRequest {
      Request(RequestTarget(uri, contractType.fullName, methodName), sessionId, Payload(parameters, codec))
    }

    /** The shared routine every generated method calls. `parameters` is
        the argument array, `None` standing for null. */
    method Invoke(methodName: string, parameters: Option<seq<Obj>>, codec: JsonCodec, transport: Transport)
      returns (result: Outcome<Obj>, attempts: nat, sleeps: nat)
      ensures GetMethod(contractType, methodName).Ambiguous? ==>
        result == Threw(AmbiguousMatch) && attempts == 0 && sleeps == 0
      ensures !GetMethod(contractType, methodName).Ambiguous? ==>
        var run := RunAttempts(transport, RequestFor(methodName, parameters, codec), 0);
        && attempts == run.attempts && sleeps == run.sleeps
        && result == Classify(run.end, ReturnTypeOf(GetMethod(contractType, methodName)), codec)
    {
      var lookup := GetMethod(contractType, methodName);
      if lookup.Ambiguous? {
        return Threw(AmbiguousMatch), 0, 0;
      }
      var requestUri := RequestTarget(uri, contractType.fullName, methodName);
      var contentData: Option<seq<bv8>> := None;
      if parameters.Some? {
        contentData := Some(codec.serialize(parameters.value));
      }
      ghost var req := RequestFor(methodName, parameters, codec);

      var connTry := 0;
      var response: Option<(int, string)> := None;
      attempts, sleeps := 0, 0;
      while true
        invariant 0 <= connTry < MaxAttempts
        invariant attempts == connTry && sleeps == connTry
        invariant RunAttempts(transport, req, 0) == RunAttempts(transport, req, connTry)
        decreases MaxAttempts - connTry
      {
        response := None;
        var request := Request(requestUri, sessionId, contentData);
        var exchange := transport(connTry, request);
        attempts := attempts + 1;
        if contentData.Some? && exchange.streamFault.Some? {
          // writing the body happens before the try block
          return Threw(exchange.streamFault.value), attempts, sleeps;
        }
        match exchange.reply {
          case Response(status, body) =>
            response := Some((status, body));
            break;
          case Fault(e) =>
            return Threw(e), attempts, sleeps;
          case NoResponse =>
        }
        sleeps := sleeps + 1;
        var again := connTry < MaxAttempts - 1;
        if !again {
          break;
        }
        connTry := connTry + 1;
      }

      if response.None? {
        return Threw(Failure(UnknownError)), attempts, sleeps;
      }
      var (status, body) := response.value;
      if status == StatusOK {
        if lookup.NotFound? {
          return Threw(NullReference), attempts, sleeps;
        }
        if lookup.m.returnType.Void? {
          return Returned(Null), attempts, sleeps;
        }
      }
      var responseContent := body;
      if status != StatusOK {
        return Threw(Failure(responseContent)), attempts, sleeps;
      }
      var decoded := codec.deserialize(responseContent, lookup.m.returnType.t);
      if decoded.None? {
        return Threw(JsonRead), attempts, sleeps;
      }
      result := Returned(decoded.value);
    }
  }

  // ---------------------------------------------------------------------
  // Generated proxy types
  // ---------------------------------------------------------------------

  /** One element store of the argument array: at position `index`, the
      method's argument number `argument` (1-based: argument 0 is the proxy
      itself), boxed first when its type is a value type. */
  datatype Store = Store(index: nat, argument: nat, box: bool)

  /** The second argument a forwarding method hands to `Invoke`: null, or a
      new object array filled by a list of stores. */
  datatype Packing = PassNull | NewArray(length: nat, stores: seq<Store>)

  /** What a forwarding method does with the value `Invoke` returns. */
  datatype ResultHandling = Discard | UnboxAny(t: ClrType) | AsIs

  /** A generated method: its signature, the method name it passes to
      `Invoke`, how it packs its arguments and what it does with the result. */
  datatype Forwarder = Forwarder(
    name: string,
    parameterTypes: seq<ClrType>,
    returnType: ReturnType,
    invokeName: string,
    packing: Packing,
    result: ResultHandling)

  /** A generated proxy type: it derives from the proxy base object,
      implements `contract` and has one forwarding method per contract
      method. */
  datatype ProxyType = ProxyType(contract: ClrType, methods: seq<Forwarder>)

  function StoresFor(ps: seq<ClrType>): seq<Store> {
    seq(|ps|, i requires 0 <= i < |ps| => Store(i, i + 1, ps[i].isValueType))
  }

  /** The forwarding method generated for contract method `m`. */
  function ForwarderFor(m: MethodSig): (f: Forwarder)
    ensures f.name == m.name && f.parameterTypes == m.parameterTypes && f.returnType == m.returnType
    ensures f.invokeName == m.name
    ensures f.packing.PassNull? <==> |m.parameterTypes| == 0
    ensures f.result.Discard? <==> m.returnType.Void?
    ensures f.result.UnboxAny? <==> m.returnType.Returns? && m.returnType.t.isValueType
  {
    var ps := m.parameterTypes;
    Forwarder(
      m.name, ps, m.returnType, m.name,
      if |ps| == 0 then PassNull else NewArray(|ps|, StoresFor(ps)),
      match m.returnType
      case Void => Discard
      case Returns(t) => if t.isValueType then UnboxAny(t) else AsIs)
  }

  function ProxyTypeFor(contract: ClrType): ProxyType {
    ProxyType(contract, seq(|contract.methods|, j requires 0 <= j < |contract.methods| => ForwarderFor(contract.methods[j])))
  }

  /** The array a list of stores leaves behind, run in order on `arr`. A
      store outside the array or the arguments leaves it unchanged. */
  function RunStores(arr: seq<Obj>, stores: seq<Store>, args: seq<Obj>): (r: seq<Obj>)
    ensures |r| == |arr|
    decreases |stores|
  {
    if |stores| == 0 then arr
    else
      var before := RunStores(arr, stores[..|stores| - 1], args);
      var s := stores[|stores| - 1];
      if s.index < |before| && 1 <= s.argument <= |args| then before[s.index := args[s.argument - 1]]
      else before
  }

  /** The argument array a forwarding method passes on, `None` for null. */
  function PackedArguments(packing: Packing, args: seq<Obj>): Option<seq<Obj>> {
    match packing
    case PassNull => None
    case NewArray(n, stores) => Some(RunStores(seq(n, _ => Null), stores, args))
  }

  lemma {:induction false} StoresFillPrefix(ps: seq<ClrType>, args: seq<Obj>, k: nat)
    requires |args| == |ps| && k <= |ps|
    ensures RunStores(seq(|ps|, _ => Null), StoresFor(ps)[..k], args) == args[..k] + seq(|ps| - k, _ => Null)
    decreases k
  {
    var n := |ps|;
    if k == 0 {
      assert StoresFor(ps)[..0] == [];
    } else {
      var stores := StoresFor(ps)[..k];
      assert stores[..k - 1] == StoresFor(ps)[..k - 1];
      StoresFillPrefix(ps, args, k - 1);
      assert stores[k - 1] == Store(k - 1, k, ps[k - 1].isValueType);
      var before := args[..k - 1] + seq(n - (k - 1), _ => Null);
      assert before[k - 1 := args[k - 1]] == args[..k] + seq(n - k, _ => Null);
    }
  }

  /** A forwarding method passes null when its contract method has no
      parameters, and otherwise an array holding argument `i` at position
      `i`, for every `i`. */
  lemma ForwarderPacksArguments(m: MethodSig, args: seq<Obj>)
    requires |args| == |m.parameterTypes|
    ensures PackedArguments(ForwarderFor(m).packing, args) == if |args| == 0 then None else Some(args)
  {
    var ps := m.parameterTypes;
    if |ps| > 0 {
      StoresFillPrefix(ps, args, |ps|);
      assert StoresFor(ps)[..|ps|] == StoresFor(ps);
      assert args[..|ps|] + seq(0, _ => Null) == args;
    }
  }

  /** A call through a generated method sends a body exactly when the
      contract method has parameters, and the body is the serialized
      arguments in order. */
  lemma ForwardedCallBody(proxy: ProxyObject, m: MethodSig, args: seq<Obj>, codec: JsonCodec)
    requires |args| == |m.parameterTypes|
    ensures var req := proxy.RequestFor(ForwarderFor(m).invokeName, PackedArguments(ForwarderFor(m).packing, args), codec);
      && req.target == RequestTarget(proxy.uri, proxy.contractType.fullName, m.name)
      && (req.body.Some? <==> |m.parameterTypes| > 0)
      && (req.body.Some? ==> req.body.value == codec.serialize(args))
  {
    ForwarderPacksArguments(m, args);
  }

  /** The process-wide cache of generated proxy types, keyed by contract. The
      ghost log records every contract a type was generated for. */
  class ProxyTypeCache {
    var proxyTypes: map<ClrType, ProxyType>
    ghost var generated: seq<ClrType>

    ghost predicate Valid()
      reads this
    {
      && (forall c :: c in proxyTypes ==> proxyTypes[c] == ProxyTypeFor(c))
      && (forall c :: c in generated <==> c in proxyTypes)
      && (forall i, j :: 0 <= i < j < |generated| ==> generated[i] != generated[j])
    }

    constructor ()
      ensures Valid() && proxyTypes == map[] && generated == []
    {
      proxyTypes := map[];
      generated := [];
    }

    /** The generated type for `contract`: built on the first request and
        taken from the cache afterwards, so a type is generated at most once
        per contract. */
    method GetProxyObjectType(contract: ClrType) returns (proxyType: ProxyType)
      requires Valid()
      modifies this
      ensures Valid()
      ensures proxyType == ProxyTypeFor(contract)
      ensures contract in old(proxyTypes) ==> proxyTypes == old(proxyTypes) && generated == old(generated)
      ensures contract !in old(proxyTypes) ==>
        proxyTypes == old(proxyTypes)[contract := proxyType] && generated == old(generated) + [contract]
    {
      if contract in proxyTypes {
        return proxyTypes[contract];
      }
      proxyType := DefineProxyType(contract);
      proxyTypes := proxyTypes[contract := proxyType];
      generated := generated + [contract];
    }
  }

  /** Builds the proxy type for `contract`: one forwarding method per
      contract method, in order. */
  method DefineProxyType(contract: ClrType) returns (proxyType: ProxyType)
    ensures proxyType.contract == contract && |proxyType.methods| == |contract.methods|
    ensures forall j :: 0 <= j < |contract.methods| ==> proxyType.methods[j] == ForwarderFor(contract.methods[j])
  {
    var methods := contract.methods;
    var forwarders: seq<Forwarder> := [];
    var j := 0;
    while j < |methods|
      invariant 0 <= j <= |methods|
      invariant |forwarders| == j
      invariant forall k :: 0 <= k < j ==> forwarders[k] == ForwarderFor(methods[k])
    {
      var m := methods[j];
      var parameters := m.parameterTypes;
      var parameterTypes: seq<ClrType> := [];
      var i := 0;
      while i < |parameters|
        invariant 0 <= i <= |parameters|
        invariant parameterTypes == parameters[..i]
      {
        parameterTypes := parameterTypes + [parameters[i]];
        i := i + 1;
      }
      var packing: Packing;
      if |parameterTypes| == 0 {
        packing := PassNull;
      } else {
        var stores: seq<Store> := [];
        i := 0;
        while i < |parameterTypes|
          invariant 0 <= i <= |parameterTypes|
          invariant stores == StoresFor(parameterTypes)[..i]
        {
          stores := stores + [Store(i, i + 1, parameterTypes[i].isValueType)];
          i := i + 1;
        }
        packing := NewArray(|parameterTypes|, stores);
      }
      var handling := match m.returnType
        case Void => Discard
        case Returns(t) => if t.isValueType then UnboxAny(t) else AsIs;
      forwarders := forwarders + [Forwarder(m.name, parameterTypes, m.returnType, m.name, packing, handling)];
      j := j + 1;
    }
    proxyType := ProxyType(contract, forwarders);
  }
}
