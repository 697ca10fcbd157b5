/** The client entry point (Client.cs): the two process-wide hooks that
    supply the session id and the service URI, and the factory that turns a
    contract interface into a proxy bound to a URI and a session. */
module RpcClient {
  import opened RpcTypes
  import opened Guids
  import opened RpcProxy

  const NotInterfaceMessage := "Generic must be of type interface"
  const UnresolvedUriPrefix := "Unable to resolve service uri for type '"

  /** The message of the exception thrown when no URI is known for a
      contract; the contract's full name can be read back from it. */
  function UnresolvedUriMessage(fullName: string): (r: string)
    ensures |r| == |UnresolvedUriPrefix| + |fullName| + 1
    ensures r[..|UnresolvedUriPrefix|] == UnresolvedUriPrefix
    ensures r[|UnresolvedUriPrefix|..|r| - 1] == fullName && r[|r| - 1] == '\''
  {
    var r := UnresolvedUriPrefix + fullName + "'";
    assert r[..|UnresolvedUriPrefix|] == UnresolvedUriPrefix;
    assert r[|UnresolvedUriPrefix|..|r| - 1] == fullName;
    r
  }

  /** A created proxy: an instance of the generated type for the contract,
      whose base part is `target`. */
  datatype Proxy = Proxy(proxyType: ProxyType, target: ProxyObject)

  /** The static client state. A session hook is a function of how many
      times the session id has been read, so that each read can give a
      different id. A URI hook answers `None` for null. */
  class Client {
    var getSession: Option<nat -> Guid>
    var getUri: Option<ClrType -> Option<string>>
    var sessionReads: nat
    const proxyTypes: ProxyTypeCache

    constructor (proxyTypes: ProxyTypeCache)
      ensures getSession.None? && getUri.None? && sessionReads == 0
      ensures this.proxyTypes == proxyTypes
    {
      getSession := None;
      getUri := None;
      sessionReads := 0;
      this.proxyTypes := proxyTypes;
    }

    /** `SessionId`: one call of the session hook; no hook throws. */
    method SessionId() returns (r: Outcome<Guid>)
      modifies this`sessionReads
      ensures getSession.None? ==> r == Threw(NullReference) && sessionReads == old(sessionReads)
      ensures getSession.Some? ==>
        r == Returned(getSession.value(old(sessionReads))) && sessionReads == old(sessionReads) + 1
    {
      if getSession.None? {
        return Threw(NullReference);
      }
      r := Returned(getSession.value(sessionReads));
      sessionReads := sessionReads + 1;
    }

    /** `Create<T>`: rejects a non-interface before anything else, makes sure
        the proxy type exists, resolves the URI, and only then reads the
        session id, once. */
    method Create(contract: ClrType) returns (result: Outcome<Proxy>)
      requires proxyTypes.Valid()
      modifies proxyTypes, this`sessionReads
      ensures proxyTypes.Valid()
      ensures !contract.isInterface ==>
        result == Threw(Argument(NotInterfaceMessage))
        && proxyTypes.proxyTypes == old(proxyTypes.proxyTypes)
        && proxyTypes.generated == old(proxyTypes.generated)
        && sessionReads == old(sessionReads)
      ensures contract.isInterface ==>
        proxyTypes.proxyTypes == old(proxyTypes.proxyTypes)[contract := ProxyTypeFor(contract)]
      ensures contract.isInterface ==>
        proxyTypes.generated ==
          if contract in old(proxyTypes.proxyTypes) then old(proxyTypes.generated)
          else old(proxyTypes.generated) + [contract]
      ensures contract.isInterface && getUri.None? ==>
        result == Threw(NullReference) && sessionReads == old(sessionReads)
      ensures contract.isInterface && getUri.Some? && getUri.value(contract).None? ==>
        result == Threw(InvalidOperation(UnresolvedUriMessage(contract.fullName)))
        && sessionReads == old(sessionReads)
      ensures contract.isInterface && getUri.Some? && getUri.value(contract).Some? && getSession.None? ==>
        result == Threw(NullReference) && sessionReads == old(sessionReads)
      ensures contract.isInterface && getUri.Some? && getUri.value(contract).Some? && getSession.Some? ==>
        && result.Returned?
        && result.value.proxyType == ProxyTypeFor(contract)
        && fresh(result.value.target)
        && result.value.target.contractType == contract
        && result.value.target.uri == TrimEndSlashes(getUri.value(contract).value)
        && result.value.target.sessionId == getSession.value(old(sessionReads))
        && sessionReads == old(sessionReads) + 1
    {
      if !contract.isInterface {
        return Threw(Argument(NotInterfaceMessage));
      }
      var proxyType := proxyTypes.GetProxyObjectType(contract);
      if getUri.None? {
        return Threw(NullReference);
      }
      var uri := getUri.value(contract);
      if uri.None? {
        return Threw(InvalidOperation(UnresolvedUriMessage(contract.fullName)));
      }
      var sessionId := SessionId();
      if sessionId.Threw? {
        return Threw(sessionId.error);
      }
      var target := new ProxyObject(contract, uri.value, sessionId.value);
      result := Returned(Proxy(proxyType, target));
    }
  }
}
