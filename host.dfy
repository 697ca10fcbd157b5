/** The server side of the RPC library (Host.cs): resolving a contract name to
    a loaded type, finding the first loaded type that implements it, creating a
    service instance, and marshalling a request body into a method call. */
module RpcHost {
  import opened RpcTypes

  // ---------------------------------------------------------------------
  // Case-insensitive names
  // ---------------------------------------------------------------------

  /** Invariant-culture case folding, restricted to ASCII letters. */
  function FoldChar(c: char): char {
    if 'A' <= c <= 'Z' then (c as int + 32) as char else c
  }

  function Fold(s: string): string {
    seq(|s|, i requires 0 <= i < |s| => FoldChar(s[i]))
  }

  /** Equality ignoring case. It stands both for `string.Compare(a, b, true)
      == 0`, which folds by the current culture, and for key equality in a
      dictionary built with the invariant-culture ignore-case comparer; the
      model assumes the two cultures fold alike. */
  predicate EqualsIgnoreCase(a: string, b: string) {
    Fold(a) == Fold(b)
  }

  /** Folding a folded name changes nothing, so a folded name is its own
      dictionary key. */
  lemma FoldIsCanonical(s: string)
    ensures Fold(Fold(s)) == Fold(s)
    ensures EqualsIgnoreCase(s, Fold(s))
  {
    assert forall i :: 0 <= i < |s| ==> Fold(Fold(s))[i] == Fold(s)[i];
  }

  // ---------------------------------------------------------------------
  // The scan order over loaded assemblies
  // ---------------------------------------------------------------------

  /** The types an assembly contributes to a scan: none for an emit builder. */
  function Exported(a: Assembly): seq<ClrType> {
    if a.isEmitBuilder then [] else a.exportedTypes
  }

  /** Every type a scan visits, in assembly order and then type order. */
  function Candidates(asms: seq<Assembly>): seq<ClrType> {
    if |asms| == 0 then [] else Candidates(asms[..|asms| - 1]) + Exported(asms[|asms| - 1])
  }

  /** A scan visits exactly the exported types of the assemblies that are
      not emit builders. */
  lemma {:induction false} CandidatesMembers(asms: seq<Assembly>)
    ensures forall t :: t in Candidates(asms) <==> exists a :: a in asms && !a.isEmitBuilder && t in a.exportedTypes
    decreases |asms|
  {
    if |asms| > 0 {
      var init := asms[..|asms| - 1];
      CandidatesMembers(init);
      assert forall a :: a in asms <==> a in init || a == asms[|asms| - 1];
    }
  }

  lemma CandidatesOfOne(a: Assembly)
    ensures Candidates([a]) == Exported(a)
  {
    assert [a][..0] == [];
  }

  lemma {:induction false} CandidatesAppend(a: seq<Assembly>, b: seq<Assembly>)
    ensures Candidates(a + b) == Candidates(a) + Candidates(b)
    decreases |b|
  {
    if |b| == 0 {
      assert a + b == a;
    } else {
      var b' := b[..|b| - 1];
      assert (a + b)[..|a + b| - 1] == a + b';
      assert b[..|b| - 1] == b';
      CandidatesAppend(a, b');
    }
  }

  /** The first of `ts` that satisfies `p`. */
  function FirstWhere(ts: seq<ClrType>, p: ClrType -> bool): Option<ClrType> {
    if |ts| == 0 then None
    else if p(ts[0]) then Some(ts[0])
    else FirstWhere(ts[1..], p)
  }

  /** The first match is an element that satisfies the test with nothing
      before it that does; there is none exactly when no element does. */
  lemma {:induction false} FirstWhereMeaning(ts: seq<ClrType>, p: ClrType -> bool)
    ensures FirstWhere(ts, p).None? <==> forall i :: 0 <= i < |ts| ==> !p(ts[i])
    ensures FirstWhere(ts, p).Some? ==>
      exists k :: 0 <= k < |ts| && ts[k] == FirstWhere(ts, p).value && p(ts[k]) && forall j :: 0 <= j < k ==> !p(ts[j])
    decreases |ts|
  {
    if |ts| > 0 && !p(ts[0]) {
      var rest := ts[1..];
      FirstWhereMeaning(rest, p);
      assert forall i :: 1 <= i < |ts| ==> ts[i] == rest[i - 1];
      if FirstWhere(rest, p).Some? {
        var k :| 0 <= k < |rest| && rest[k] == FirstWhere(rest, p).value && p(rest[k]) && forall j :: 0 <= j < k ==> !p(rest[j]);
        assert ts[k + 1] == rest[k];
      }
    }
  }

  /** Scanning a concatenation finds the first part's match if it has one. */
  lemma {:induction false} FirstWhereAppend(a: seq<ClrType>, b: seq<ClrType>, p: ClrType -> bool)
    ensures FirstWhere(a + b, p) == if FirstWhere(a, p).Some? then FirstWhere(a, p) else FirstWhere(b, p)
    decreases |a|
  {
    if |a| == 0 {
      assert a + b == b;
    } else {
      assert (a + b)[0] == a[0];
      assert (a + b)[1..] == a[1..] + b;
      FirstWhereAppend(a[1..], b, p);
    }
  }

  /** Two tests that agree on every type pick the same first match. */
  lemma {:induction false} FirstWhereCongruent(ts: seq<ClrType>, p: ClrType -> bool, q: ClrType -> bool)
    requires forall t :: p(t) == q(t)
    ensures FirstWhere(ts, p) == FirstWhere(ts, q)
    decreases |ts|
  {
    if |ts| > 0 {
      FirstWhereCongruent(ts[1..], p, q);
    }
  }

  /** A non-builder assembly contributes its exported types between the
      types of the assemblies around it. */
  lemma CandidatesAround(left: seq<Assembly>, a: Assembly, right: seq<Assembly>)
    requires !a.isEmitBuilder
    ensures Candidates(left + [a] + right) == Candidates(left) + a.exportedTypes + Candidates(right)
  {
    CandidatesAppend(left + [a], right);
    CandidatesAppend(left, [a]);
    CandidatesOfOne(a);
  }

  /** The first match of a sequence is at `j` when nothing before `j`
      matches and the element at `j` does. */
  lemma FirstWhereAt(ts: seq<ClrType>, j: nat, p: ClrType -> bool)
    requires j < |ts| && FirstWhere(ts[..j], p).None? && p(ts[j])
    ensures FirstWhere(ts, p) == Some(ts[j])
  {
    assert ts == ts[..j] + ts[j..];
    FirstWhereAppend(ts[..j], ts[j..], p);
    assert ts[j..][0] == ts[j];
  }

  /** The scan in assembly order and then type order: the `j`-th exported type
      of assembly `a` is found when it matches and no type scanned before it
      does. */
  lemma FoundAt(left: seq<Assembly>, a: Assembly, right: seq<Assembly>, j: nat, p: ClrType -> bool)
    requires !a.isEmitBuilder && j < |a.exportedTypes|
    requires FirstWhere(Candidates(left), p).None?
    requires FirstWhere(a.exportedTypes[..j], p).None?
    requires p(a.exportedTypes[j])
    ensures FirstWhere(Candidates(left + [a] + right), p) == Some(a.exportedTypes[j])
  {
    var before, types, after := Candidates(left), a.exportedTypes, Candidates(right);
    CandidatesAround(left, a, right);
    FirstWhereAt(types, j, p);
    FirstWhereAppend(before, types, p);
    FirstWhereAppend(before + types, after, p);
  }

  /** An emit-builder assembly, loaded anywhere, leaves every scan unchanged. */
  lemma EmitBuilderInvisible(left: seq<Assembly>, builder: Assembly, right: seq<Assembly>)
    requires builder.isEmitBuilder
    ensures Candidates(left + [builder] + right) == Candidates(left + right)
  {
    CandidatesAppend(left + [builder], right);
    CandidatesAppend(left, [builder]);
    CandidatesOfOne(builder);
    CandidatesAppend(left, right);
  }

  /** One more type scanned without a match. */
  lemma NoMatchExtends(ts: seq<ClrType>, j: nat, p: ClrType -> bool)
    requires j < |ts| && FirstWhere(ts[..j], p).None? && !p(ts[j])
    ensures FirstWhere(ts[..j + 1], p).None?
  {
    FirstWhereAppend(ts[..j], [ts[j]], p);
    assert ts[..j + 1] == ts[..j] + [ts[j]];
  }

  /** One more assembly scanned without a match. */
  lemma NoMatchInAssemblies(asms: seq<Assembly>, i: nat, p: ClrType -> bool)
    requires i < |asms| && FirstWhere(Candidates(asms[..i]), p).None? && FirstWhere(Exported(asms[i]), p).None?
    ensures FirstWhere(Candidates(asms[..i + 1]), p).None?
  {
    assert asms[..i + 1] == asms[..i] + [asms[i]];
    CandidatesAppend(asms[..i], [asms[i]]);
    CandidatesOfOne(asms[i]);
    FirstWhereAppend(Candidates(asms[..i]), Exported(asms[i]), p);
  }

  /** A match in assembly `i` at type `j` is the scan's answer. */
  lemma MatchInAssemblies(asms: seq<Assembly>, i: nat, j: nat, p: ClrType -> bool)
    requires i < |asms| && !asms[i].isEmitBuilder && j < |asms[i].exportedTypes|
    requires FirstWhere(Candidates(asms[..i]), p).None?
    requires FirstWhere(asms[i].exportedTypes[..j], p).None?
    requires p(asms[i].exportedTypes[j])
    ensures FirstWhere(Candidates(asms), p) == Some(asms[i].exportedTypes[j])
  {
    var left, right := asms[..i], asms[i + 1..];
    assert left + [asms[i]] + right == asms;
    FoundAt(left, asms[i], right, j, p);
  }

  /** The nested loop shared by `ResolveContract` and `FindService`: the first
      type, in assembly order and then type order and skipping emit
      builders, that satisfies `p`. */
  method ScanExportedTypes(asms: seq<Assembly>, p: ClrType -> bool) returns (found: Option<ClrType>)
    ensures found == FirstWhere(Candidates(asms), p)
  {
    var i := 0;
    while i < |asms|
      invariant 0 <= i <= |asms|
      invariant FirstWhere(Candidates(asms[..i]), p).None?
    {
      if !asms[i].isEmitBuilder {
        var types := asms[i].exportedTypes;
        var j := 0;
        while j < |types|
          invariant 0 <= j <= |types|
          invariant FirstWhere(types[..j], p).None?
        {
          if p(types[j]) {
            MatchInAssemblies(asms, i, j, p);
            return Some(types[j]);
          }
          NoMatchExtends(types, j, p);
          j := j + 1;
        }
        assert types[..j] == types;
      }
      NoMatchInAssemblies(asms, i, p);
      i := i + 1;
    }
    assert asms[..i] == asms;
    return None;
  }

  // ---------------------------------------------------------------------
  // What the two lookups answer when they scan
  // ---------------------------------------------------------------------

  function NameMatcher(name: string): ClrType -> bool {
    (t: ClrType) => EqualsIgnoreCase(t.fullName, name)
  }

  function ImplementerMatcher(world: World, contract: ClrType): ClrType -> bool {
    (t: ClrType) => world.isAssignableFrom(contract, t)
  }

  /** The contract a scan resolves `name` to. */
  function ResolveIn(world: World, name: string): Option<ClrType> {
    FirstWhere(Candidates(world.assemblies), NameMatcher(name))
  }

  /** The service type a scan finds for `contract`. */
  function FindIn(world: World, contract: ClrType): Option<ClrType> {
    FirstWhere(Candidates(world.assemblies), ImplementerMatcher(world, contract))
  }

  /** Resolution ignores case: two names equal up to case resolve alike. */
  lemma ResolveIgnoresCase(world: World, a: string, b: string)
    requires EqualsIgnoreCase(a, b)
    ensures ResolveIn(world, a) == ResolveIn(world, b)
  {
    FirstWhereCongruent(Candidates(world.assemblies), NameMatcher(a), NameMatcher(b));
  }

  /** A resolved contract is an exported type of a non-builder assembly whose
      full name equals the query up to case; an unresolved name matches no
      such type. */
  lemma ResolveMeaning(world: World, name: string)
    ensures ResolveIn(world, name).Some? ==>
      var t := ResolveIn(world, name).value;
      EqualsIgnoreCase(t.fullName, name) &&
      exists a :: a in world.assemblies && !a.isEmitBuilder && t in a.exportedTypes
    ensures ResolveIn(world, name).None? ==>
      forall a, t :: a in world.assemblies && !a.isEmitBuilder && t in a.exportedTypes ==> !EqualsIgnoreCase(t.fullName, name)
  {
    var ts := Candidates(world.assemblies);
    CandidatesMembers(world.assemblies);
    FirstWhereMeaning(ts, NameMatcher(name));
    if ResolveIn(world, name).None? {
      forall a, t | a in world.assemblies && !a.isEmitBuilder && t in a.exportedTypes
        ensures !EqualsIgnoreCase(t.fullName, name)
      {
        assert t in ts;
        var k :| 0 <= k < |ts| && ts[k] == t;
        assert !NameMatcher(name)(ts[k]);
      }
    } else {
      var k :| 0 <= k < |ts| && ts[k] == ResolveIn(world, name).value && NameMatcher(name)(ts[k]) && forall j :: 0 <= j < k ==> !NameMatcher(name)(ts[j]);
      assert ts[k] in ts;
    }
  }

  /** `IsAssignableFrom` holds of a type and itself, so when the contract is
      itself exported and comes before every implementer, the service found
      for it is the contract. */
  lemma ContractShadowsLaterImplementers(world: World, contract: ClrType, k: nat)
    requires world.isAssignableFrom(contract, contract)
    requires k < |Candidates(world.assemblies)| && Candidates(world.assemblies)[k] == contract
    requires forall j :: 0 <= j < k ==> !world.isAssignableFrom(contract, Candidates(world.assemblies)[j])
    ensures FindIn(world, contract) == Some(contract)
  {
    var ts := Candidates(world.assemblies);
    var p := ImplementerMatcher(world, contract);
    assert ts == ts[..k] + ([ts[k]] + ts[k + 1..]);
    FirstWhereAppend(ts[..k], [ts[k]] + ts[k + 1..], p);
    FirstWhereMeaning(ts[..k], p);
  }

  // ---------------------------------------------------------------------
  // Argument marshalling
  // ---------------------------------------------------------------------

  const CountMismatchNoBody := "Parameter count mismatch."
  const CountMismatch := "Parameter count mismatch"
  const TypeMismatch := "Parameter type mismatch"

  /** Every element converted to its declared parameter type, failing as a
      whole when any one conversion fails. */
  function ConvertAll(elems: seq<Json>, ps: seq<ClrType>, codec: JsonCodec): (r: Outcome<seq<Obj>>)
    requires |elems| == |ps|
    ensures r.Returned? ==> |r.value| == |ps| && forall i :: 0 <= i < |ps| ==> codec.toObject(elems[i], ps[i]) == Some(r.value[i])
    ensures r.Threw? <==> exists i :: 0 <= i < |ps| && codec.toObject(elems[i], ps[i]).None?
    ensures r.Threw? ==> r.error == Failure(TypeMismatch)
    decreases |ps|
  {
    if |ps| == 0 then Returned([])
    else
      var n := |ps| - 1;
      var prefix := ConvertAll(elems[..n], ps[..n], codec);
      assert forall i :: 0 <= i < n ==> elems[..n][i] == elems[i] && ps[..n][i] == ps[i];
      match prefix
      case Threw(e) => prefix
      case Returned(vs) =>
        match codec.toObject(elems[n], ps[n])
        case None => Threw(Failure(TypeMismatch))
        case Some(v) => Returned(vs + [v])
  }

  /** The argument array a request body gives a method with parameter types
      `ps`, or the failure the host throws instead. */
  function Marshal(ps: seq<ClrType>, body: seq<bv8>, codec: JsonCodec): (r: Outcome<seq<Obj>>)
    ensures |body| == 0 ==> (r.Returned? <==> |ps| == 0)
    ensures |body| == 0 && |ps| != 0 ==> r == Threw(Failure(CountMismatchNoBody))
    ensures |body| != 0 && codec.parseArray(body).None? ==> r == Threw(JsonRead)
    ensures |body| != 0 && codec.parseArray(body).Some? && |codec.parseArray(body).value| != |ps| ==>
      r == Threw(Failure(CountMismatch))
    ensures |body| != 0 && codec.parseArray(body).Some? && |codec.parseArray(body).value| == |ps| ==>
      (r.Threw? <==> exists i :: 0 <= i < |ps| && codec.toObject(codec.parseArray(body).value[i], ps[i]).None?)
    ensures |body| != 0 && codec.parseArray(body).Some? && |codec.parseArray(body).value| == |ps| && r.Threw? ==>
      r.error == Failure(TypeMismatch)
    ensures r.Threw? ==> r.error in {Failure(CountMismatchNoBody), Failure(CountMismatch), Failure(TypeMismatch), JsonRead}
    ensures r.Returned? ==> |r.value| == |ps|
    ensures r.Returned? && |body| != 0 ==>
      codec.parseArray(body).Some? &&
      forall i :: 0 <= i < |ps| ==> codec.toObject(codec.parseArray(body).value[i], ps[i]) == Some(r.value[i])
  {
    if |body| == 0 then
      if |ps| != 0 then Threw(Failure(CountMismatchNoBody)) else Returned([])
    else
      match codec.parseArray(body)
      case None => Threw(JsonRead)
      case Some(elems) =>
        if |elems| != |ps| then Threw(Failure(CountMismatch)) else ConvertAll(elems, ps, codec)
  }

  /** What `MethodInfo.Invoke` reports: the method's own exception arrives
      wrapped. */
  function Reflected(o: Outcome<Obj>): (r: Outcome<Obj>)
    ensures r.Returned? <==> o.Returned?
    ensures o.Returned? ==> r == o
    ensures o.Threw? ==> r == Threw(TargetInvocation(o.error))
  {
    match o
    case Returned(_) => o
    case Threw(e) => Threw(TargetInvocation(e))
  }

  /** An object created by the host for one call. */
  class ServiceInstance {
    const ofType: ClrType

    constructor (t: ClrType)
      ensures ofType == t
    {
      ofType := t;
    }
  }

  /** A cache lookup that falls back to a scan of the world. */
  function ContractLookup(cache: map<string, Option<ClrType>>, world: World, name: string): Option<ClrType> {
    if Fold(name) in cache then cache[Fold(name)] else ResolveIn(world, name)
  }

  function ServiceLookup(cache: map<ClrType, Option<ClrType>>, world: World, contract: ClrType): Option<ClrType> {
    if contract in cache then cache[contract] else FindIn(world, contract)
  }

  /** The process-wide state of the host: the contract-name cache (keyed
      ignoring case) and the service-type cache. Neither is ever
      invalidated; a miss is cached as `None` like a hit. */
  class Host {
    var knownContractTypes: map<string, Option<ClrType>>
    var knownServiceTypes: map<ClrType, Option<ClrType>>

    constructor ()
      ensures knownContractTypes == map[] && knownServiceTypes == map[]
    {
      knownContractTypes := map[];
      knownServiceTypes := map[];
    }

    /** Every cached answer is what a scan of `world` would give now. */
    ghost predicate Coherent(world: World)
      reads this
    {
      && (forall key :: key in knownContractTypes ==> Fold(key) == key && knownContractTypes[key] == ResolveIn(world, key))
      && (forall c :: c in knownServiceTypes ==> knownServiceTypes[c] == FindIn(world, c))
    }

    /** While the caches are coherent, a cached contract, found under any
        case of the name, is what a scan would give. */
    lemma CoherentContractLookup(world: World, name: string)
      requires Coherent(world)
      ensures ContractLookup(knownContractTypes, world, name) == ResolveIn(world, name)
    {
      if Fold(name) in knownContractTypes {
        FoldIsCanonical(name);
        ResolveIgnoresCase(world, Fold(name), name);
      }
    }

    /** While the caches are coherent, a cached service type is what a scan
        would give. */
    lemma CoherentServiceLookup(world: World, contract: ClrType)
      requires Coherent(world)
      ensures ServiceLookup(knownServiceTypes, world, contract) == FindIn(world, contract)
    {
    }

    method ResolveContract(world: World, typeName: string) returns (contract: Option<ClrType>)
      modifies this`knownContractTypes
      ensures contract == ContractLookup(old(knownContractTypes), world, typeName)
      ensures knownContractTypes == old(knownContractTypes)[Fold(typeName) := contract]
      ensures old(Coherent(world)) ==> Coherent(world) && contract == ResolveIn(world, typeName)
    {
      var key := Fold(typeName);
      if key in knownContractTypes {
        contract := knownContractTypes[key];
        if Coherent(world) {
          CoherentContractLookup(world, typeName);
        }
        return;
      }
      contract := ScanExportedTypes(world.assemblies, NameMatcher(typeName));
      FoldIsCanonical(typeName);
      ResolveIgnoresCase(world, key, typeName);
      knownContractTypes := knownContractTypes[key := contract];
    }

    method FindService(world: World, contractType: ClrType) returns (service: Option<ClrType>)
      modifies this`knownServiceTypes
      ensures service == ServiceLookup(old(knownServiceTypes), world, contractType)
      ensures knownServiceTypes == old(knownServiceTypes)[contractType := service]
      ensures old(Coherent(world)) ==> Coherent(world) && service == FindIn(world, contractType)
    {
      if contractType in knownServiceTypes {
        service := knownServiceTypes[contractType];
        if Coherent(world) {
          CoherentServiceLookup(world, contractType);
        }
        return;
      }
      service := ScanExportedTypes(world.assemblies, ImplementerMatcher(world, contractType));
      knownServiceTypes := knownServiceTypes[contractType := service];
    }

    /** Resolves the contract named `typeName`, finds its service type and
        creates an instance of it. A null name throws; a failed lookup
        answers false with no instance. */
    method TryCreateInstance(world: World, typeName: Option<string>) returns (result: Outcome<bool>, instance: ServiceInstance?)
      modifies this
      ensures typeName.None? ==>
        result == Threw(ArgumentNull("typeName")) && instance == null &&
        knownContractTypes == old(knownContractTypes) && knownServiceTypes == old(knownServiceTypes)
      ensures typeName.Some? ==>
        var contract := ContractLookup(old(knownContractTypes), world, typeName.value);
        && knownContractTypes == old(knownContractTypes)[Fold(typeName.value) := contract]
        && (contract.None? ==>
              result == Returned(false) && instance == null && knownServiceTypes == old(knownServiceTypes))
        && (contract.Some? ==>
              var service := ServiceLookup(old(knownServiceTypes), world, contract.value);
              && knownServiceTypes == old(knownServiceTypes)[contract.value := service]
              && (service.None? ==> result == Returned(false) && instance == null)
              && (service.Some? && service.value.isInterface ==> result == Threw(MissingMethod) && instance == null)
              && (service.Some? && !service.value.isInterface ==>
                    result == Returned(true) && instance != null && fresh(instance) && instance.ofType == service.value))
      ensures old(Coherent(world)) ==> Coherent(world)
    {
      if typeName.None? {
        return Threw(ArgumentNull("typeName")), null;
      }
      var contractType := ResolveContract(world, typeName.value);
      if contractType.None? {
        return Returned(false), null;
      }
      var serviceType := FindService(world, contractType.value);
      if serviceType.None? {
        return Returned(false), null;
      }
      if serviceType.value.isInterface {
        // no instance can be created of an interface
        return Threw(MissingMethod), null;
      }
      instance := new ServiceInstance(serviceType.value);
      result := Returned(true);
    }

    /** Calls `methodName` on `serviceInstance` with the arguments the
        request body carries. `target` is the method body itself; the result
        says whether, and with which arguments, it was invoked. */
    static method Invoke(
      serviceInstance: ServiceInstance?, methodName: string, parameterStream: seq<bv8>,
      codec: JsonCodec, target: (ServiceInstance, MethodSig, seq<Obj>) -> Outcome<Obj>)
      returns (result: Outcome<Obj>, invokedWith: Option<seq<Obj>>)
      ensures serviceInstance == null ==> result == Threw(NullReference) && invokedWith == None
      ensures serviceInstance != null ==>
        match GetMethod(serviceInstance.ofType, methodName)
        case NotFound => result == Threw(NullReference) && invokedWith == None
        case Ambiguous => result == Threw(AmbiguousMatch) && invokedWith == None
        case Found(m) =>
          match Marshal(m.parameterTypes, parameterStream, codec)
          case Threw(e) => result == Threw(e) && invokedWith == None
          case Returned(args) => invokedWith == Some(args) && result == Reflected(target(serviceInstance, m, args))
    {
      if serviceInstance == null {
        return Threw(NullReference), None;
      }
      var lookup := GetMethod(serviceInstance.ofType, methodName);
      if lookup.NotFound? {
        return Threw(NullReference), None;
      }
      if lookup.Ambiguous? {
        return Threw(AmbiguousMatch), None;
      }
      var methodInfo := lookup.m;
      var methodParameters := methodInfo.parameterTypes;
      var parameters := new Obj[|methodParameters|];

      if |parameterStream| == 0 {
        if parameters.Length != 0 {
          return Threw(Failure(CountMismatchNoBody)), None;
        }
      } else {
        var parsed := codec.parseArray(parameterStream);
        if parsed.None? {
          return Threw(JsonRead), None;
        }
        var jarray := parsed.value;
        if |jarray| != |methodParameters| {
          return Threw(Failure(CountMismatch)), None;
        }
        var i := 0;
        while i < |methodParameters|
          invariant 0 <= i <= |methodParameters|
          invariant ConvertAll(jarray[..i], methodParameters[..i], codec) == Returned(parameters[..i])
        {
          var converted := codec.toObject(jarray[i], methodParameters[i]);
          if converted.None? {
            return Threw(Failure(TypeMismatch)), None;
          }
          parameters[i] := converted.value;
          assert jarray[..i + 1][..i] == jarray[..i];
          assert methodParameters[..i + 1][..i] == methodParameters[..i];
          assert parameters[..i + 1] == parameters[..i] + [parameters[i]];
          i := i + 1;
        }
        assert jarray[..i] == jarray && methodParameters[..i] == methodParameters;
        assert parameters[..i] == parameters[..];
      }
      var args := parameters[..];
      invokedWith := Some(args);
      result := Reflected(target(serviceInstance, methodInfo, args));
    }
  }
}
