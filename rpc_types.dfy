/** The runtime world both engines of the RPC library work against: types as
    the reflection layer shows them, loaded assemblies, opaque JSON values, the
    JSON codec as a set of partial functions, and the exceptions the library
    throws or lets escape. */
module RpcTypes {

  datatype Option<+T> = None | Some(value: T)

  /** A runtime type. Two types that agree on every field are the same type
      here; the reflection layer identifies them by reference. */
  datatype ClrType = ClrType(
    fullName: string,
    isInterface: bool,
    isValueType: bool,
    methods: seq<MethodSig>)

  /** A public method: its name, ordered parameter types and return type. */
  datatype MethodSig = MethodSig(name: string, parameterTypes: seq<ClrType>, returnType: ReturnType)

  datatype ReturnType = Void | Returns(t: ClrType)

  /** A loaded assembly. Dynamic assemblies built by the proxy generator are
      emit builders, whose exported types cannot be listed. */
  datatype Assembly = Assembly(isEmitBuilder: bool, exportedTypes: seq<ClrType>)

  /** The loaded type universe: the assemblies in load order, and
      `isAssignableFrom(a, b)`, which holds when a value of type `b` can be
      stored in a variable of type `a`. */
  datatype World = World(assemblies: seq<Assembly>, isAssignableFrom: (ClrType, ClrType) -> bool)

  /** A value passed to or returned from a remote method. `Null` is the null
      reference; `handle` tells apart different values of one type. */
  datatype Obj = Null | Value(ofType: ClrType, handle: nat)

  /** One JSON element, never looked into. */
  datatype Json = Json(text: string)

  /** The JSON serializer. Every partial function answers `None` where the
      serializer throws.
      - serialize: an argument array to its UTF-8 JSON text
      - parseArray: a request body to the elements of its top-level array
      - toObject: one element converted to a declared parameter type
      - deserialize: a response text converted to a declared return type */
  datatype JsonCodec = JsonCodec(
    serialize: seq<Obj> -> seq<bv8>,
    parseArray: seq<bv8> -> Option<seq<Json>>,
    toObject: (Json, ClrType) -> Option<Obj>,
    deserialize: (string, ClrType) -> Option<Obj>)

  /** The exceptions the core throws or lets through. */
  datatype Exception =
    | Failure(message: string)           // System.Exception with a message
    | ArgumentNull(paramName: string)
    | Argument(message: string)
    | InvalidOperation(message: string)
    | NullReference
    | AmbiguousMatch                     // two public methods share the name
    | MissingMethod                      // no instance can be created of the type
    | JsonRead                           // the serializer rejected its input
    | TargetInvocation(inner: Exception) // thrown by the invoked method itself

  /** What a call does: return a value or throw. */
  datatype Outcome<+T> = Returned(value: T) | Threw(error: Exception)

  /** The public methods of `ms` called `name`, in declaration order. */
  function MethodsNamed(ms: seq<MethodSig>, name: string): (r: seq<MethodSig>)
    ensures forall m :: m in r <==> m in ms && m.name == name
    ensures |r| >= 2 ==> exists i, j :: 0 <= i < j < |ms| && ms[i].name == name && ms[j].name == name
  {
    if |ms| == 0 then []
    else
      var rest := MethodsNamed(ms[1..], name);
      if ms[0].name == name then
        assert |rest| >= 1 ==> rest[0] in ms[1..];
        [ms[0]] + rest
      else rest
  }

  datatype MethodLookup = NotFound | Found(m: MethodSig) | Ambiguous

  /** `Type.GetMethod(name)`: the one public method with that exact
      (case-sensitive) name, nothing when there is none, and an ambiguity
      when several overloads share it. */
  function GetMethod(t: ClrType, name: string): (r: MethodLookup)
    ensures r.NotFound? <==> forall m :: m in t.methods ==> m.name != name
    ensures r.Found? ==> r.m in t.methods && r.m.name == name
    ensures r.Found? ==> forall m :: m in t.methods && m.name == name ==> m == r.m
    ensures r.Ambiguous? ==> exists i, j :: 0 <= i < j < |t.methods| && t.methods[i].name == name && t.methods[j].name == name
  {
    var named := MethodsNamed(t.methods, name);
    if |named| == 0 then
      NotFound
    else
      assert named[0] in named;
      if |named| == 1 then
      assert forall m :: m in t.methods && m.name == name ==> m == named[0] by {
        forall m | m in t.methods && m.name == name ensures m == named[0] {
          assert m in named;
        }
      }
      Found(named[0])
      else
        Ambiguous
  }
}
