/**
 * `CapsuleAccess`, the invocation handler behind the `Capsule` proxy: on each
 * call it decides what to do with the wrapped capsule object, trying the
 * method the capsule class declares first and a fixed table of fallbacks for
 * capsules built against an older interface second.
 */
module Facade {
  import opened Wrappers
  import opened Reflection

  const OBJECT_TYPE: TypeName := "java.lang.Object"
  const MAP_ENTRY_TYPE: TypeName := "java.util.Map$Entry"

  /** A capsule attribute descriptor; its conversion to a map entry is kept abstract. */
  datatype Attribute = Attribute(name: string)

  /** An argument passed through the proxy. */
  datatype Arg =
    | AttributeArg(attr: Attribute)   // an `Attribute`
    | EntryArg(attr: Attribute)       // `attr.toEntry()`, the `Map.Entry` form
    | AccessArg(isThis: bool)         // a `CapsuleAccess` handler; `isThis`: this very handler
    | OtherArg(id: nat)               // anything else, including null

  /** A constructed capsule object, with what its constructor observed. */
  datatype Instance = Instance(
    clazz: Class,                       // `getClass()`
    jarFile: Path,                      // the constructor's argument
    modeSeen: Option<string>,           // the own-layer `capsule.mode` while the constructor ran
    loaderSeen: LoaderId,               // the context class loader while the constructor ran
    target: Option<Path>)               // what `setTarget` was called with, if it was

  /** The handler: the capsule object and its class. */
  datatype CapsuleAccess = CapsuleAccess(capsule: Instance) {
    const clazz: Class := capsule.clazz
  }

  /** The interface method the proxy was called with. */
  datatype ProxyMethod = ProxyMethod(declaredByObject: bool, sig: Signature)

  /** Why a call is unsupported (`UnsupportedOperationException`). */
  datatype Unsupported = NoSuchOperation | MissingField(field: string)

  /** What one proxy call comes to. */
  datatype Action =
    | InvokeOn(target: MethodRef, args: seq<Arg>)  // `Method.invoke` on the capsule object
    | ReadStatic(field: FieldRef)                  // `Field.get` of a static field
    | ReturnBool(value: bool)                      // answered without dispatching
    | Refused(reason: Unsupported)                 // `UnsupportedOperationException`
    | NullPointer                                  // `invoke` on a null `Method`
    | BadArgument                                  // `args[0]` absent or not an `Attribute`
    | NoSuchMethodEscapes                          // `NoSuchMethodException` out of `equals`

  /** `NoSuchMethodException` raised by `call`. */
  datatype NoSuchMethod = NoSuchMethod

  /** `call`: invoke the method `m` resolves to on the capsule class, or fail with `NoSuchMethodException`. */
  function Call(a: CapsuleAccess, pub: map<Signature, MethodRef>, m: ProxyMethod, args: seq<Arg>): (r: Result<Action, NoSuchMethod>)
    // fails exactly when neither the public lookup nor any class of the chain has the signature
    ensures r.Failure? ==> m.sig !in pub && forall k :: 0 <= k < |Chain(a.clazz)| ==> m.sig !in Chain(a.clazz)[k].methods
    ensures (m.sig !in pub && forall k :: 0 <= k < |Chain(a.clazz)| ==> m.sig !in Chain(a.clazz)[k].methods) ==> r.Failure?
    // otherwise the method is invoked on the arguments as given
    ensures r.Success? ==> r.value.InvokeOn? && r.value.args == args
    // the public lookup wins ...
    ensures r.Success? && m.sig in pub ==> r.value.target == pub[m.sig]
    // ... and otherwise the target is the nearest declaration of the signature on the chain
    ensures r.Success? && m.sig !in pub ==>
      && r.value.target.sig == m.sig && m.sig in r.value.target.owner.methods
      && IsAncestorOrSelf(r.value.target.owner, a.clazz)
      && forall k :: 0 <= k < Distance(a.clazz, r.value.target.owner) ==> m.sig !in Chain(a.clazz)[k].methods
  {
    match GetMethod(pub, a.clazz, m.sig)
    case None => Failure(NoSuchMethod)
    case Some(resolved) => Success(InvokeOn(resolved, args))
  }

  /** `get`: read the static field `field` of the nearest declaring class, or refuse the call. */
  function Get(a: CapsuleAccess, field: string): (r: Action)
    ensures r.ReadStatic? || r == Refused(MissingField(field))
    ensures r.ReadStatic? ==> r.field.name == field && IsAncestorOrSelf(r.field.owner, a.clazz)
    ensures r.ReadStatic? ==> GetField(a.clazz, field) == Some(r.field)
    ensures r.Refused? <==> forall k :: 0 <= k < |Chain(a.clazz)| ==> field !in Chain(a.clazz)[k].fields
  {
    match GetField(a.clazz, field)
    case None => Refused(MissingField(field))
    case Some(f) => ReadStatic(f)
  }

  /** The `Map.Entry` overload of `getAttribute` / `hasAttribute`, called with `args[0].toEntry()`. */
  function EntryOverload(a: CapsuleAccess, pub: map<Signature, MethodRef>, name: string, args: seq<Arg>): (r: Action)
    ensures r.InvokeOn? || r == NullPointer || r == BadArgument
    ensures r == BadArgument <==> |args| == 0 || !args[0].AttributeArg?
    ensures r.InvokeOn? ==> |args| > 0 && r.args == [EntryArg(args[0].attr)]
    ensures r.InvokeOn? ==> Some(r.target) == GetMethod(pub, a.clazz, Signature(name, [MAP_ENTRY_TYPE]))
    ensures r == NullPointer ==> GetMethod(pub, a.clazz, Signature(name, [MAP_ENTRY_TYPE])).None?
  {
    var overload := GetMethod(pub, a.clazz, Signature(name, [MAP_ENTRY_TYPE]));
    // the argument is cast and converted before the null method is dereferenced
    if |args| == 0 || !args[0].AttributeArg? then BadArgument
    else if overload.None? then NullPointer
    else InvokeOn(overload.value, [EntryArg(args[0].attr)])
  }

  /** The fallback table consulted when `call` finds no method. */
  function Fallback(a: CapsuleAccess, pub: map<Signature, MethodRef>, name: string, args: seq<Arg>): Action
  {
    if name == "getVersion" then Get(a, "VERSION")
    else if name == "getProperties" then Get(a, "PROPERTIES")
    else if name == "getAttribute" || name == "hasAttribute" then EntryOverload(a, pub, name, args)
    else Refused(NoSuchOperation)
  }

  /** `Object.equals` is answered by the handler itself. */
  predicate IsEquals(m: ProxyMethod)
  {
    m.declaredByObject && m.sig.name == "equals"
  }

  /** `invoke`: the decision for one call through the proxy. */
  function Invoke(a: CapsuleAccess, pub: map<Signature, MethodRef>, m: ProxyMethod, args: seq<Arg>): (r: Action)
    // equals: true for this very handler, false for anything that is no handler, else dispatched
    ensures IsEquals(m) && |args| > 0 && args[0] == AccessArg(true) ==> r == ReturnBool(true)
    ensures IsEquals(m) && |args| > 0 && !args[0].AccessArg? ==> r == ReturnBool(false)
    ensures IsEquals(m) && |args| > 0 && args[0] == AccessArg(false) ==>
      r == (if GetMethod(pub, a.clazz, m.sig).Some? then InvokeOn(GetMethod(pub, a.clazz, m.sig).value, args) else NoSuchMethodEscapes)
    // a directly resolvable method is always preferred
    ensures !IsEquals(m) && GetMethod(pub, a.clazz, m.sig).Some? ==> r == InvokeOn(GetMethod(pub, a.clazz, m.sig).value, args)
    // otherwise the fallbacks, by name
    ensures !IsEquals(m) && GetMethod(pub, a.clazz, m.sig).None? ==>
      && (m.sig.name == "getVersion" ==> r == Get(a, "VERSION"))
      && (m.sig.name == "getProperties" ==> r == Get(a, "PROPERTIES"))
      && (m.sig.name in {"getAttribute", "hasAttribute"} ==> r == EntryOverload(a, pub, m.sig.name, args))
      && (m.sig.name !in {"getVersion", "getProperties", "getAttribute", "hasAttribute"} ==> r == Refused(NoSuchOperation))
  {
    if IsEquals(m) then
      if |args| == 0 then BadArgument
      else if args[0] == AccessArg(true) then ReturnBool(true)
      else if !args[0].AccessArg? then ReturnBool(false)
      else
        match Call(a, pub, m, args)
        case Success(act) => act
        case Failure(_) => NoSuchMethodEscapes
    else
      match Call(a, pub, m, args)
      case Success(act) => act
      case Failure(_) => Fallback(a, pub, m.sig.name, args)
  }

  /** Whatever a call comes to, a method it invokes is the direct resolution or the `Map.Entry` overload. */
  lemma InvokeTargetsResolvedMethod(a: CapsuleAccess, pub: map<Signature, MethodRef>, m: ProxyMethod, args: seq<Arg>)
    ensures var r := Invoke(a, pub, m, args);
      r.InvokeOn? ==>
        || (Some(r.target) == GetMethod(pub, a.clazz, m.sig) && r.args == args)
        || (&& m.sig.name in {"getAttribute", "hasAttribute"}
            && GetMethod(pub, a.clazz, m.sig).None?
            && Some(r.target) == GetMethod(pub, a.clazz, Signature(m.sig.name, [MAP_ENTRY_TYPE])))
  {
  }

  /** A refused call names the missing field exactly for the two field fallbacks. */
  lemma RefusedOnlyWithoutDirectMethod(a: CapsuleAccess, pub: map<Signature, MethodRef>, m: ProxyMethod, args: seq<Arg>)
    ensures var r := Invoke(a, pub, m, args);
      r.Refused? ==>
        && !IsEquals(m)
        && GetMethod(pub, a.clazz, m.sig).None?
        && (r.reason == NoSuchOperation <==> m.sig.name !in {"getVersion", "getProperties"})
        && (r.reason == MissingField("VERSION") <==> m.sig.name == "getVersion")
        && (r.reason == MissingField("PROPERTIES") <==> m.sig.name == "getProperties")
  {
  }
}
