/** Finding a jar's capsule class from its manifest and its class loader. */
module Loading {
  import opened Wrappers
  import opened Reflection

  /** The manifest attribute naming the jar's entry point. */
  const ATTR_MAIN_CLASS: string := "Main-Class"

  /** A jar manifest, reduced to its optional `Main-Class` main attribute. */
  datatype Manifest = Manifest(mainClass: Option<string>)

  /** A class loader, reduced to the classes it can load, by binary name. */
  type ClassLoader = map<string, Class>

  /**
   * `loadCapsuleClass(Manifest, ClassLoader)`: the class named by `Main-Class`,
   * provided the loader finds it and it descends from `Capsule`; null otherwise.
   */
  function LoadCapsuleClass(mf: Manifest, cl: ClassLoader): (r: Option<Class>)
    ensures r.Some? ==> mf.mainClass.Some? && mf.mainClass.value in cl && r.value == cl[mf.mainClass.value]
    ensures r.Some? ==> IsCapsuleClass(r)
  {
    match mf.mainClass
    case None => None
    case Some(mainClass) =>
      if mainClass !in cl then None            // ClassNotFoundException
      else
        var clazz := cl[mainClass];
        if IsCapsuleClass(Some(clazz)) then Some(clazz) else None
  }

  /**
   * A jar is rejected as "not a valid capsule" exactly when its manifest has no
   * `Main-Class`, the class cannot be loaded, or no class on its chain is named `Capsule`.
   */
  lemma {:induction false} LoadCapsuleClassFails(mf: Manifest, cl: ClassLoader)
    ensures LoadCapsuleClass(mf, cl).None? <==>
      || mf.mainClass.None?
      || mf.mainClass.value !in cl
      || forall k :: 0 <= k < |Chain(cl[mf.mainClass.value])| ==> Chain(cl[mf.mainClass.value])[k].name != CAPSULE_CLASS_NAME
  {
    if mf.mainClass.Some? && mf.mainClass.value in cl {
      IsCapsuleClassIff(cl[mf.mainClass.value]);
    }
  }
}
