/**
 * The part of Java reflection the launcher relies on, over an abstract class
 * hierarchy: each class has a name, an optional superclass, its declared fields,
 * methods and constructors, and its defining class loader.
 */
module Reflection {
  import opened Wrappers

  /**
   * The binary name (`Class.getName()`) of the base class every capsule descends
   * from: a class `Capsule` in the unnamed package.
   */
  const CAPSULE_CLASS_NAME: string := "Capsule"

  /** A file-system path (`java.nio.file.Path`), kept opaque. */
  type Path = string

  /** The fully qualified name of a parameter type. */
  type TypeName = string

  /** The identity of a class loader. */
  type LoaderId = nat

  /** A method is identified by its name and its parameter types. */
  datatype Signature = Signature(name: string, params: seq<TypeName>)

  /** A loaded class; Java class hierarchies are acyclic, so a datatype fits. */
  datatype Class = Class(
    name: string,                      // its binary name, as `Class.getName()` gives it
    superclass: Option<Class>,
    fields: set<string>,               // names declared by this class itself
    methods: set<Signature>,           // methods declared by this class itself
    constructors: set<seq<TypeName>>,  // parameter lists of its declared constructors
    loader: LoaderId)                  // its defining class loader

  /** A field declaration: the class that declares it and its name. */
  datatype FieldRef = FieldRef(owner: Class, name: string)

  /** A method declaration: the class that declares it and its signature. */
  datatype MethodRef = MethodRef(owner: Class, sig: Signature)

  /** The class itself followed by its superclasses, nearest first. */
  function Chain(c: Class): seq<Class>
    decreases c
  {
    match c.superclass
    case None => [c]
    case Some(parent) => [c] + Chain(parent)
  }

  /** The chain of a possibly-null class: empty for null. */
  function ChainOf(o: Option<Class>): seq<Class>
  {
    match o
    case None => []
    case Some(c) => Chain(c)
  }

  /** How many classes of `c`'s chain come before `a`, when `a` is an ancestor of `c`. */
  ghost function Distance(c: Class, a: Class): int
  {
    |Chain(c)| - |Chain(a)|
  }

  /** `a` is `c` or one of its superclasses: it sits on `c`'s chain, `Distance(c, a)` steps up. */
  ghost predicate IsAncestorOrSelf(a: Class, c: Class)
  {
    0 <= Distance(c, a) < |Chain(c)| && Chain(c)[Distance(c, a)] == a
  }

  /** A chain starts with the class itself. */
  lemma ChainHead(c: Class)
    ensures |Chain(c)| >= 1 && Chain(c)[0] == c
  {
  }

  /** Every class is its own ancestor, at distance zero. */
  lemma AncestorSelf(c: Class)
    ensures IsAncestorOrSelf(c, c) && Distance(c, c) == 0
  {
    ChainHead(c);
  }

  /** An ancestor of the superclass is an ancestor of the class, one step further away. */
  lemma AncestorOfParent(c: Class, parent: Class, a: Class)
    requires c.superclass == Some(parent)
    requires IsAncestorOrSelf(a, parent)
    ensures IsAncestorOrSelf(a, c)
    ensures Distance(c, a) == Distance(parent, a) + 1
  {
    assert Chain(c) == [c] + Chain(parent);
  }

  /**
   * `getField`: the declaration of `name` in the nearest class of the chain that
   * declares it (`getDeclaredField`, then the superclass), or null when none does.
   */
  function GetField(c: Class, name: string): (r: Option<FieldRef>)
    decreases c
    ensures r.Some? ==> r.value.name == name && name in r.value.owner.fields
    ensures r.Some? ==> IsAncestorOrSelf(r.value.owner, c)
    ensures r.Some? ==> forall k :: 0 <= k < Distance(c, r.value.owner) ==> name !in Chain(c)[k].fields
    ensures r.None? ==> forall k :: 0 <= k < |Chain(c)| ==> name !in Chain(c)[k].fields
    ensures (forall k :: 0 <= k < |Chain(c)| ==> name !in Chain(c)[k].fields) ==> r.None?
  {
    if name in c.fields then
      AncestorSelf(c);
      ChainHead(c);
      Some(FieldRef(c, name))
    else
      match c.superclass
      case None => None
      case Some(parent) =>
        var r := GetField(parent, name);
        if r.Some? then AncestorOfParent(c, parent, r.value.owner); r else r
  }

  /**
   * `getMethod0`: the declaration with signature `sig` in the nearest class of the
   * chain that declares it, or null when none does.
   */
  function GetMethod0(c: Class, sig: Signature): (r: Option<MethodRef>)
    decreases c
    ensures r.Some? ==> r.value.sig == sig && sig in r.value.owner.methods
    ensures r.Some? ==> IsAncestorOrSelf(r.value.owner, c)
    ensures r.Some? ==> forall k :: 0 <= k < Distance(c, r.value.owner) ==> sig !in Chain(c)[k].methods
    ensures r.None? ==> forall k :: 0 <= k < |Chain(c)| ==> sig !in Chain(c)[k].methods
    ensures (forall k :: 0 <= k < |Chain(c)| ==> sig !in Chain(c)[k].methods) ==> r.None?
  {
    if sig in c.methods then
      AncestorSelf(c);
      ChainHead(c);
      Some(MethodRef(c, sig))
    else
      match c.superclass
      case None => None
      case Some(parent) =>
        var r := GetMethod0(parent, sig);
        if r.Some? then AncestorOfParent(c, parent, r.value.owner); r else r
  }

  /**
   * `getMethod`: `Class.getMethod`'s public lookup, given here as the table `pub`
   * of what it resolves on `c`, takes precedence; otherwise `getMethod0`.
   */
  function GetMethod(pub: map<Signature, MethodRef>, c: Class, sig: Signature): (r: Option<MethodRef>)
    ensures sig in pub ==> r == Some(pub[sig])
    ensures sig !in pub ==> r == GetMethod0(c, sig)
    ensures r.None? ==> sig !in pub && forall k :: 0 <= k < |Chain(c)| ==> sig !in Chain(c)[k].methods
    ensures (sig !in pub && forall k :: 0 <= k < |Chain(c)| ==> sig !in Chain(c)[k].methods) ==> r.None?
  {
    if sig in pub then Some(pub[sig]) else GetMethod0(c, sig)
  }

  /** The first class of `c`'s chain named `Capsule`, or null. */
  function NearestCapsule(c: Class): (r: Option<Class>)
    decreases c
    ensures r.Some? ==> r.value.name == CAPSULE_CLASS_NAME && IsAncestorOrSelf(r.value, c)
    ensures r.Some? ==> forall k :: 0 <= k < Distance(c, r.value) ==> Chain(c)[k].name != CAPSULE_CLASS_NAME
    ensures r.None? ==> forall k :: 0 <= k < |Chain(c)| ==> Chain(c)[k].name != CAPSULE_CLASS_NAME
    ensures (forall k :: 0 <= k < |Chain(c)| ==> Chain(c)[k].name != CAPSULE_CLASS_NAME) ==> r.None?
  {
    if c.name == CAPSULE_CLASS_NAME then
      AncestorSelf(c);
      ChainHead(c);
      Some(c)
    else
      match c.superclass
      case None => None
      case Some(parent) =>
        var r := NearestCapsule(parent);
        if r.Some? then AncestorOfParent(c, parent, r.value); r else r
  }

  /**
   * Specification of `getActualCapsuleClass`: the first class of the chain
   * (starting with the class itself) named `Capsule`, or null.
   */
  function ActualCapsuleClass(o: Option<Class>): Option<Class>
  {
    match o
    case None => None
    case Some(c) => NearestCapsule(c)
  }

  /** The number of classes left to visit from `o` upwards. */
  function ChainLength(o: Option<Class>): nat
  {
    |ChainOf(o)|
  }

  /** `getActualCapsuleClass`: walks up the superclasses until a class named `Capsule`. */
  method GetActualCapsuleClass(clazz: Option<Class>) returns (r: Option<Class>)
    ensures r == ActualCapsuleClass(clazz)
  {
    r := clazz;
    while r.Some? && r.value.name != CAPSULE_CLASS_NAME
      invariant ActualCapsuleClass(r) == ActualCapsuleClass(clazz)
      decreases ChainLength(r)
    {
      r := r.value.superclass;
    }
  }

  /** `isCapsuleClass`: a non-null class with `Capsule` among its ancestors-or-self. */
  predicate IsCapsuleClass(o: Option<Class>)
  {
    o.Some? && ActualCapsuleClass(o).Some?
  }

  /** A class is a capsule class exactly when some class of its chain is named `Capsule`. */
  lemma IsCapsuleClassIff(c: Class)
    ensures IsCapsuleClass(Some(c)) <==> exists k :: 0 <= k < |Chain(c)| && Chain(c)[k].name == CAPSULE_CLASS_NAME
  {
    var r := NearestCapsule(c);
    if r.Some? {
      var d := Distance(c, r.value);
      ChainHead(r.value);
      assert Chain(c)[d] == Chain(r.value)[0];
    }
  }
}
