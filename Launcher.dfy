/**
 * `CapsuleLauncher`: loads a capsule jar's capsule class, writes the launcher's
 * configuration into the static slots of its `Capsule` base class, and creates
 * capsule instances wrapped in a `CapsuleAccess` facade.
 */
module Launcher {
  import opened Wrappers
  import opened Reflection
  import opened Loading
  import opened Props
  import opened Facade

  /** The property that selects the capsule's mode. */
  const PROP_MODE: string := "capsule.mode"
  const OPT_JMX_REMOTE: string := "com.sun.management.jmxremote"
  /** The JVM argument `enableJMX` adds. */
  const JMX_REMOTE_FLAG: string := "-D" + OPT_JMX_REMOTE

  /** Names of the static configuration slots on the `Capsule` class. */
  const JAVA_HOMES_FIELD: string := "JAVA_HOMES"
  const PROPERTIES_FIELD: string := "PROPERTIES"
  const CACHE_DIR_FIELD: string := "CACHE_DIR"

  const PATH_TYPE: TypeName := "java.nio.file.Path"
  /** The parameter list of the capsule constructor the launcher calls. */
  const PATH_CONSTRUCTOR: seq<TypeName> := [PATH_TYPE]
  /** `setTarget(Path)`, which hands a capsule the jar it wraps. */
  const SET_TARGET: Signature := Signature("setTarget", [PATH_TYPE])

  /** What a static configuration slot holds once the launcher has written it. */
  datatype SlotValue =
    | JavaHomesValue(homes: Option<map<string, seq<Path>>>)
    | PropertiesValue(table: PropertyTable)
    | CacheDirValue(dir: Option<Path>)

  /** `Field.set` on a null field, when the slot does not exist. */
  datatype ConfigError = MissingSlot(field: string)

  /** The reflective failures behind "Could not create capsule instance.". */
  datatype CreateFailure = NoPathConstructor | ConstructorThrew | NoSetTarget | SetTargetThrew

  datatype LaunchError =
    | NullManifest                                   // `NullPointerException`: the jar has no manifest
    | InvalidCapsule(jarFile: Path)                  // "... does not appear to be a valid capsule."
    | SlotFailure(error: ConfigError)
    | CouldNotCreateInstance(cause: CreateFailure)   // "Could not create capsule instance."

  /**
   * How the capsule's own code behaves when called; the code itself is not part
   * of this model. When its constructor runs it may update the shared property
   * table (the net effect on the own entries is `tableWrites`) and install a
   * context class loader of its own (`loaderChange`), before it returns or throws.
   */
  datatype CapsuleBehaviour = CapsuleBehaviour(
    constructorThrows: bool,
    setTargetThrows: bool,
    tableWrites: map<string, Option<string>>,
    loaderChange: Option<LoaderId>)

  /**
   * `getCapsuleField`: the slot `name` is looked up from the `Capsule` base class
   * upwards, never in the classes between the capsule class and that base; the
   * slot is the declaration nearest to that base.
   */
  function CapsuleField(capsuleClass: Class, name: string): (r: Option<FieldRef>)
    requires IsCapsuleClass(Some(capsuleClass))
    ensures IsAncestorOrSelf(NearestCapsule(capsuleClass).value, capsuleClass)
    ensures var base := NearestCapsule(capsuleClass).value;
      r.Some? ==> r.value.name == name && name in r.value.owner.fields && IsAncestorOrSelf(r.value.owner, base)
    ensures var base := NearestCapsule(capsuleClass).value;
      r.Some? ==> forall k :: 0 <= k < Distance(base, r.value.owner) ==> name !in Chain(base)[k].fields
    ensures var base := NearestCapsule(capsuleClass).value;
      r.None? ==> forall k :: 0 <= k < |Chain(base)| ==> name !in Chain(base)[k].fields
    ensures var base := NearestCapsule(capsuleClass).value;
      (forall k :: 0 <= k < |Chain(base)| ==> name !in Chain(base)[k].fields) ==> r.None?
  {
    GetField(ActualCapsuleClass(Some(capsuleClass)).value, name)
  }

  /**
   * `enableJMX`: the JVM arguments with the remote-management flag added at the
   * end unless it is already there, in which case the argument list itself.
   */
  function EnableJmx(jvmArgs: seq<string>): (r: seq<string>)
    ensures JMX_REMOTE_FLAG in r
    ensures |jvmArgs| <= |r| <= |jvmArgs| + 1 && r[..|jvmArgs|] == jvmArgs
    ensures forall x :: x in r <==> x in jvmArgs || x == JMX_REMOTE_FLAG
    ensures JMX_REMOTE_FLAG in jvmArgs ==> r == jvmArgs
  {
    if JMX_REMOTE_FLAG in jvmArgs then jvmArgs else jvmArgs + [JMX_REMOTE_FLAG]
  }

  /** Adding the flag twice is adding it once. */
  lemma EnableJmxIdempotent(jvmArgs: seq<string>)
    ensures EnableJmx(EnableJmx(jvmArgs)) == EnableJmx(jvmArgs)
  {
  }

  class CapsuleLauncher {
    const jarFile: Path
    const capsuleClass: Class
    var properties: PropertyTable
    /** The current thread's context class loader. */
    var contextLoader: LoaderId
    /** The static configuration slots the launcher has written. */
    var statics: map<FieldRef, SlotValue>

    /** The capsule class was validated when the jar was opened. */
    predicate Valid()
    {
      IsCapsuleClass(Some(capsuleClass))
    }

    /**
     * The part of `CapsuleLauncher(Path)` after the class is loaded:
     * `setProperties(null)` with the `PROPERTIES` slot present.
     */
    constructor (jarFile: Path, capsuleClass: Class, systemProperties: map<string, string>, threadLoader: LoaderId)
      requires IsCapsuleClass(Some(capsuleClass))
      requires CapsuleField(capsuleClass, PROPERTIES_FIELD).Some?
      ensures Valid() && this.jarFile == jarFile && this.capsuleClass == capsuleClass
      ensures fresh(properties) && properties.own == map[] && properties.defaults == systemProperties
      ensures statics == map[CapsuleField(capsuleClass, PROPERTIES_FIELD).value := PropertiesValue(properties)]
      ensures contextLoader == threadLoader
    {
      var slot := CapsuleField(capsuleClass, PROPERTIES_FIELD).value;
      this.jarFile := jarFile;
      this.capsuleClass := capsuleClass;
      var table := new PropertyTable(systemProperties);
      properties := table;
      contextLoader := threadLoader;
      statics := map[slot := PropertiesValue(table)];
      assert slot == CapsuleField(capsuleClass, PROPERTIES_FIELD).value;
    }

    /**
     * `CapsuleLauncher(Path)` with `loadCapsuleClass(Path)`: the jar must have a
     * manifest (`getManifest()` is null otherwise, and dereferencing it fails),
     * the manifest must name a capsule class, and that class must have the
     * `PROPERTIES` slot.
     */
    static method Open(jarFile: Path, manifest: Option<Manifest>, cl: ClassLoader, systemProperties: map<string, string>,
                       threadLoader: LoaderId)
      returns (r: Result<CapsuleLauncher, LaunchError>)
      ensures manifest.None? ==> r == Failure(NullManifest)
      ensures manifest.Some? && LoadCapsuleClass(manifest.value, cl).None? ==> r == Failure(InvalidCapsule(jarFile))
      ensures (&& manifest.Some? && LoadCapsuleClass(manifest.value, cl).Some?
               && CapsuleField(LoadCapsuleClass(manifest.value, cl).value, PROPERTIES_FIELD).None?) ==>
        r == Failure(SlotFailure(MissingSlot(PROPERTIES_FIELD)))
      ensures (&& manifest.Some? && LoadCapsuleClass(manifest.value, cl).Some?
               && CapsuleField(LoadCapsuleClass(manifest.value, cl).value, PROPERTIES_FIELD).Some?) ==>
        r.Success?
      ensures r.Success? ==> fresh(r.value) && fresh(r.value.properties) && r.value.Valid()
      ensures r.Success? ==>
        manifest.Some? && r.value.jarFile == jarFile && Some(r.value.capsuleClass) == LoadCapsuleClass(manifest.value, cl)
      ensures r.Success? ==> r.value.properties.own == map[] && r.value.properties.defaults == systemProperties
      ensures r.Success? ==> r.value.contextLoader == threadLoader
      ensures r.Success? ==>
        r.value.statics == map[CapsuleField(r.value.capsuleClass, PROPERTIES_FIELD).value := PropertiesValue(r.value.properties)]
    {
      if manifest.None? {
        return Failure(NullManifest);
      }
      var clazz := LoadCapsuleClass(manifest.value, cl);
      if clazz.None? {
        return Failure(InvalidCapsule(jarFile));
      }
      if CapsuleField(clazz.value, PROPERTIES_FIELD).None? {
        return Failure(SlotFailure(MissingSlot(PROPERTIES_FIELD)));
      }
      var launcher := new CapsuleLauncher(jarFile, clazz.value, systemProperties, threadLoader);
      r := Success(launcher);
    }

    /** `setJavaHomes`: written when the `JAVA_HOMES` slot exists, otherwise nothing changes. */
    method SetJavaHomes(javaHomes: Option<map<string, seq<Path>>>)
      requires Valid()
      modifies this`statics
      ensures CapsuleField(capsuleClass, JAVA_HOMES_FIELD).None? ==> statics == old(statics)
      ensures CapsuleField(capsuleClass, JAVA_HOMES_FIELD).Some? ==>
        statics == old(statics)[CapsuleField(capsuleClass, JAVA_HOMES_FIELD).value := JavaHomesValue(javaHomes)]
    {
      var homes := CapsuleField(capsuleClass, JAVA_HOMES_FIELD);
      if homes.Some? {
        statics := statics[homes.value := JavaHomesValue(javaHomes)];
      }
    }

    /**
     * `setProperties`: the table is replaced (by a fresh one over the system
     * properties when null is given) even when writing the `PROPERTIES` slot then fails.
     */
    method SetProperties(props: PropertyTable?, systemProperties: map<string, string>) returns (o: Outcome<ConfigError>)
      requires Valid()
      modifies this`properties, this`statics
      ensures props != null ==> properties == props
      ensures props == null ==> fresh(properties) && properties.own == map[] && properties.defaults == systemProperties
      ensures CapsuleField(capsuleClass, PROPERTIES_FIELD).Some? ==>
        o == Pass && statics == old(statics)[CapsuleField(capsuleClass, PROPERTIES_FIELD).value := PropertiesValue(properties)]
      ensures CapsuleField(capsuleClass, PROPERTIES_FIELD).None? ==>
        o == Fail(MissingSlot(PROPERTIES_FIELD)) && statics == old(statics)
    {
      if props != null {
        properties := props;
      } else {
        properties := new PropertyTable(systemProperties);
      }
      var slot := CapsuleField(capsuleClass, PROPERTIES_FIELD);
      if slot.None? {
        return Fail(MissingSlot(PROPERTIES_FIELD));
      }
      statics := statics[slot.value := PropertiesValue(properties)];
      o := Pass;
    }

    /**
     * `setProperty`: a value is set in the own entries, a null value removes the
     * own entry so that lookups fall back to the defaults; no other key changes.
     */
    method SetProperty(property: string, value: Option<string>)
      modifies properties
      ensures value.Some? ==> properties.own == old(properties.own)[property := value.value]
      ensures value.None? ==> properties.own == old(properties.own) - {property}
      ensures value.Some? ==> properties.GetProperty(property) == value
      ensures value.None? ==> properties.GetProperty(property) == Find(properties.defaults, property)
      ensures forall k :: k != property ==> properties.GetProperty(k) == old(properties.GetProperty(k))
      // the same, on the own entries alone
      ensures Find(properties.own, property) == value
      ensures forall k :: k != property ==> Find(properties.own, k) == old(Find(properties.own, k))
    {
      if value.Some? {
        properties.SetProperty(property, value.value);
      } else {
        properties.Remove(property);
      }
    }

    /** `setCacheDir`: writing a missing `CACHE_DIR` slot fails. */
    method SetCacheDir(dir: Option<Path>) returns (o: Outcome<ConfigError>)
      requires Valid()
      modifies this`statics
      ensures CapsuleField(capsuleClass, CACHE_DIR_FIELD).Some? ==>
        o == Pass && statics == old(statics)[CapsuleField(capsuleClass, CACHE_DIR_FIELD).value := CacheDirValue(dir)]
      ensures CapsuleField(capsuleClass, CACHE_DIR_FIELD).None? ==>
        o == Fail(MissingSlot(CACHE_DIR_FIELD)) && statics == old(statics)
    {
      var slot := CapsuleField(capsuleClass, CACHE_DIR_FIELD);
      if slot.None? {
        return Fail(MissingSlot(CACHE_DIR_FIELD));
      }
      statics := statics[slot.value := CacheDirValue(dir)];
      o := Pass;
    }

    /**
     * `newCapsule(mode, wrappedJar)`: constructs the capsule with the requested
     * mode and the capsule class's loader in place, and on every path puts back
     * the mode looked up before and the previous context class loader, whatever
     * the capsule's constructor did to them. The launcher itself changes no other
     * key; what the constructor wrote to other keys stays.
     */
    method NewCapsule(mode: Option<string>, wrappedJar: Option<Path>, behaviour: CapsuleBehaviour)
      returns (r: Result<CapsuleAccess, LaunchError>)
      modifies this`contextLoader, properties
      // restored on every path
      ensures contextLoader == old(contextLoader)
      ensures properties.GetProperty(PROP_MODE) == old(properties.GetProperty(PROP_MODE))
      // the looked-up mode is put back as an own entry, so one that came from the defaults is copied in
      ensures Find(properties.own, PROP_MODE) == old(properties.GetProperty(PROP_MODE))
      // every other own entry is the constructor's write, if it ran and wrote one, and otherwise as before
      ensures forall k :: k != PROP_MODE ==>
        Find(properties.own, k) ==
          if ConstructorRuns(capsuleClass) && k in behaviour.tableWrites then behaviour.tableWrites[k]
          else old(Find(properties.own, k))
      ensures forall k :: k != PROP_MODE && !(ConstructorRuns(capsuleClass) && k in behaviour.tableWrites) ==>
        properties.GetProperty(k) == old(properties.GetProperty(k))
      // the constructor ran with the requested mode and the capsule class's loader
      ensures r == WrapCreated(CreateInstance(capsuleClass, jarFile, mode, capsuleClass.loader, wrappedJar, behaviour))
    {
      var oldMode := properties.GetProperty(PROP_MODE);
      var oldLoader := contextLoader;
      contextLoader := capsuleClass.loader;
      // try
      SetProperty(PROP_MODE, mode);
      var created := CreateInstance(capsuleClass, jarFile, Find(properties.own, PROP_MODE), contextLoader, wrappedJar, behaviour);
      if ConstructorRuns(capsuleClass) {
        // what the capsule's constructor does to the shared table and the thread
        properties.Apply(behaviour.tableWrites);
        if behaviour.loaderChange.Some? {
          contextLoader := behaviour.loaderChange.value;
        }
      }
      r := WrapCreated(created);
      // finally
      SetProperty(PROP_MODE, oldMode);
      contextLoader := oldLoader;
    }
  }

  /** The capsule's constructor is entered exactly when the capsule class declares a `(Path)` constructor. */
  predicate ConstructorRuns(capsuleClass: Class)
  {
    PATH_CONSTRUCTOR in capsuleClass.constructors
  }

  /**
   * The reflective part of `newCapsule`: the `(Path)` constructor, then `setTarget`
   * exactly when a wrapped jar is given; `modeSeen` and `loaderSeen` are the
   * own-layer mode and the context class loader while they run.
   */
  function CreateInstance(capsuleClass: Class, jarFile: Path, modeSeen: Option<string>, loaderSeen: LoaderId,
                          wrappedJar: Option<Path>, behaviour: CapsuleBehaviour): (r: Result<Instance, CreateFailure>)
    ensures r.Success? <==>
      && PATH_CONSTRUCTOR in capsuleClass.constructors && !behaviour.constructorThrows
      && (wrappedJar.Some? ==> SET_TARGET in capsuleClass.methods && !behaviour.setTargetThrows)
    ensures PATH_CONSTRUCTOR !in capsuleClass.constructors ==> r == Failure(NoPathConstructor)
    ensures r == Failure(NoSetTarget) <==>
      PATH_CONSTRUCTOR in capsuleClass.constructors && !behaviour.constructorThrows && wrappedJar.Some? && SET_TARGET !in capsuleClass.methods
    ensures r.Success? ==> r.value == Instance(capsuleClass, jarFile, modeSeen, loaderSeen, wrappedJar)
    ensures r.Success? ==> (r.value.target.Some? <==> wrappedJar.Some?)
    ensures wrappedJar.None? ==> r != Failure(NoSetTarget) && r != Failure(SetTargetThrew)
  {
    if PATH_CONSTRUCTOR !in capsuleClass.constructors then Failure(NoPathConstructor)
    else if behaviour.constructorThrows then Failure(ConstructorThrew)
    else
      var capsule := Instance(capsuleClass, jarFile, modeSeen, loaderSeen, None);
      if wrappedJar.None? then Success(capsule)
      else if SET_TARGET !in capsuleClass.methods then Failure(NoSetTarget)
      else if behaviour.setTargetThrows then Failure(SetTargetThrew)
      else Success(capsule.(target := wrappedJar))
  }

  /** `wrap`, or the "Could not create capsule instance." failure. */
  function WrapCreated(created: Result<Instance, CreateFailure>): Result<CapsuleAccess, LaunchError>
  {
    match created
    case Success(capsule) => Success(CapsuleAccess(capsule))
    case Failure(cause) => Failure(CouldNotCreateInstance(cause))
  }
}
