# CapsuleLauncher, modelled in Dafny

This project models the decision and state core of `CapsuleLauncher` from the
Capsule project (`capsule-util`). `CapsuleLauncher` opens a capsule jar, finds its
capsule class, writes the launcher's configuration into static slots of that
class's `Capsule` base class, creates capsule instances, and puts each instance
behind a `Capsule` proxy whose handler (`CapsuleAccess`) copes with capsules built
against older versions of the interface.

Reflection is modelled over an abstract class hierarchy. A `Class` is a datatype
with a binary name (as `Class.getName()` gives it), an optional superclass, its declared fields, methods and
constructors, and its defining class loader. A jar is reduced to its manifest's
optional `Main-Class` and a class loader given as a map from names to classes.

- `Wrappers.dfy`: `Option`, `Result` and `Outcome`. They stand in for `null` and
  for exceptions.
- `Reflection.dfy`: the superclass chain, and the lookups done while walking up
  it: `getField`, `getMethod0`, `getMethod` and `getActualCapsuleClass`.
  `getActualCapsuleClass` is a `while` loop in the source, so it is a method
  here, proved equal to a recursive specification function, `NearestCapsule`.
- `Loading.dfy`: `loadCapsuleClass(Manifest, ClassLoader)`, and exactly when it
  rejects a jar.
- `Props.dfy`: `java.util.Properties` built over a defaults table, as the class
  `PropertyTable`. A lookup checks the table's own entries first and the defaults
  second. `setProperty` and `remove` change only the own entries.
- `Facade.dfy`: `CapsuleAccess.invoke`, `call` and `get`. Each returns an
  `Action` saying what the call comes to. The possible actions are: invoke a
  resolved method, read a static field, answer `equals` directly, refuse with
  `UnsupportedOperationException`, and a few failures the Java code raises.
- `Launcher.dfy`: the class `CapsuleLauncher`. Its state is:
  - the property table;
  - the thread's context class loader;
  - the static slots it has written.
  Its methods are the opening of a jar, the configuration setters and
  `newCapsule`. The file also holds `enableJMX`.

Some details of the code that the model keeps:

- Only `setJavaHomes` checks that its slot exists. `setProperties` and
  `setCacheDir` pass a possibly-null field to `Field.set`, which fails. The model
  returns `Fail(MissingSlot(..))` for them.
- `setProperties` replaces the table before writing the slot. So the new table
  stays in place even when the write fails.
- The `Capsule` base class is recognised by its binary name, so only a class
  `Capsule` in the unnamed package counts.
- A jar without a manifest is not reported as an invalid capsule: the null
  manifest is dereferenced first, and `Open` fails with `NullManifest`.
- Configuration slots are looked up from the `Capsule` base class upwards. A
  field declared only in a subclass of `Capsule` is not found.
- `newCapsule` looks up `setTarget(Path)` with `getDeclaredMethod` on the capsule
  class itself. The capsule class's ancestry is not searched.
- `newCapsule` saves the mode with `getProperty`, which also consults the
  defaults. If the mode came only from the defaults, the restore writes it into
  the own entries. The looked-up value is the same as before, but the own layer
  gains an entry. `NewCapsule`'s contract states this exactly.
- In the `getAttribute`/`hasAttribute` fallback, the argument is cast and
  converted before a missing overload is dereferenced. So a bad argument is
  reported before the null pointer.

## Model

| member | source | states |
|---|---|---|
| `Reflection.GetField` | capsule-util/src/main/java/co/paralleluniverse/capsule/CapsuleLauncher.java:325-331 | a found field is named as asked, is declared by an ancestor-or-self of the class, and no nearer class on the chain declares that name; null exactly when no class on the chain declares it |
| `Reflection.GetMethod0` | capsule-util/src/main/java/co/paralleluniverse/capsule/CapsuleLauncher.java:317-323 | a found method has the requested signature, is declared by an ancestor-or-self, and no nearer class declares that signature; null exactly when no class on the chain declares it |
| `Reflection.GetMethod` | capsule-util/src/main/java/co/paralleluniverse/capsule/CapsuleLauncher.java:309-315 | the public lookup wins when it resolves; otherwise the result is `getMethod0`'s; null exactly when neither finds the signature |
| `Reflection.NearestCapsule` | capsule-util/src/main/java/co/paralleluniverse/capsule/CapsuleLauncher.java:333-337 | the result is named `Capsule`, is an ancestor-or-self of the input, and no nearer class on the chain is named `Capsule`; null exactly when no class on the chain is |
| `Reflection.GetActualCapsuleClass` | capsule-util/src/main/java/co/paralleluniverse/capsule/CapsuleLauncher.java:333-337 | the superclass walk returns the first class on the chain named `Capsule` (null for a null input or when there is none) |
| `Reflection.IsCapsuleClassIff` | capsule-util/src/main/java/co/paralleluniverse/capsule/CapsuleLauncher.java:211-215 | a class is a capsule class exactly when some class on its chain is named `Capsule` |
| `Loading.LoadCapsuleClass` | capsule-util/src/main/java/co/paralleluniverse/capsule/CapsuleLauncher.java:196-209 | a loaded class is the class the loader maps `Main-Class` to, and it is a capsule class |
| `Loading.LoadCapsuleClassFails` | capsule-util/src/main/java/co/paralleluniverse/capsule/CapsuleLauncher.java:196-209 | the jar is rejected exactly when `Main-Class` is missing, the class cannot be loaded, or no class on its chain is named `Capsule` |
| `Props.PropertyTable.SetProperty` | capsule-util/src/main/java/co/paralleluniverse/capsule/CapsuleLauncher.java:106 | the own entry for the key is set, a later lookup yields the value, and every other key looks up as before |
| `Props.PropertyTable.Remove` | capsule-util/src/main/java/co/paralleluniverse/capsule/CapsuleLauncher.java:108 | the own entry is dropped, a later lookup yields the defaults' value, and every other key looks up as before |
| `Launcher.CapsuleField` | capsule-util/src/main/java/co/paralleluniverse/capsule/CapsuleLauncher.java:303-305 | the slot is looked up from the `Capsule` base class upwards: a found slot is the declaration nearest to the base, by the base or one of its ancestors, with no class between declaring the name; null exactly when no class from the base up declares it |
| `Launcher.EnableJmx` | capsule-util/src/main/java/co/paralleluniverse/capsule/CapsuleLauncher.java:294-301 | the result contains the JMX flag, starts with the input, is at most one element longer, holds exactly the input's elements plus the flag, and is the input itself when the flag is already there |
| `Launcher.EnableJmxIdempotent` | capsule-util/src/main/java/co/paralleluniverse/capsule/CapsuleLauncher.java:294-301 | applying `enableJMX` twice equals applying it once |
| `Launcher.CapsuleLauncher.constructor` | capsule-util/src/main/java/co/paralleluniverse/capsule/CapsuleLauncher.java:45-49 | a launcher starts with a fresh table over the system properties, installed in the `PROPERTIES` slot and in no other slot |
| `Launcher.CapsuleLauncher.Open` | capsule-util/src/main/java/co/paralleluniverse/capsule/CapsuleLauncher.java:183-197 | a jar without a manifest fails with a null dereference; a manifest that names no capsule class fails with "not a valid capsule"; a capsule class without `PROPERTIES` fails on the slot write; otherwise a launcher for the loaded class is returned |
| `Launcher.CapsuleLauncher.SetJavaHomes` | capsule-util/src/main/java/co/paralleluniverse/capsule/CapsuleLauncher.java:78-83 | the `JAVA_HOMES` slot is written when it exists, and nothing changes when it does not |
| `Launcher.CapsuleLauncher.SetProperties` | capsule-util/src/main/java/co/paralleluniverse/capsule/CapsuleLauncher.java:91-95 | the table becomes the given one, or a fresh one over the system properties; the `PROPERTIES` slot is written, and a missing slot fails but keeps the new table |
| `Launcher.CapsuleLauncher.SetProperty` | capsule-util/src/main/java/co/paralleluniverse/capsule/CapsuleLauncher.java:104-110 | a non-null value is looked up afterwards; a null value removes only the own entry, so the lookup falls back to the defaults; no other key changes |
| `Launcher.CapsuleLauncher.SetCacheDir` | capsule-util/src/main/java/co/paralleluniverse/capsule/CapsuleLauncher.java:118-121 | the `CACHE_DIR` slot is written when it exists; otherwise the call fails and nothing changes |
| `Launcher.CapsuleLauncher.NewCapsule` | capsule-util/src/main/java/co/paralleluniverse/capsule/CapsuleLauncher.java:159-181 | on every path the context loader and the looked-up mode are restored, even when the capsule's constructor changed them, and the mode is put back as an own entry; the launcher itself changes no other key, so every other own entry is the constructor's write or as before; the outcome is that of construction with the requested mode and the capsule class's loader in place |
| `Launcher.CreateInstance` | capsule-util/src/main/java/co/paralleluniverse/capsule/CapsuleLauncher.java:164-176 | success exactly when the `(Path)` constructor exists and returns, and, when a wrapped jar is given, `setTarget` exists and returns; `setTarget` is involved exactly when a wrapped jar is given; the instance records the target |
| `Facade.Call` | capsule-util/src/main/java/co/paralleluniverse/capsule/CapsuleLauncher.java:259-264 | fails with `NoSuchMethodException` exactly when neither the public lookup nor any class on the chain has the signature; otherwise it invokes, with the arguments unchanged, the public method when there is one, and else the declaration of the signature nearest on the chain |
| `Facade.Get` | capsule-util/src/main/java/co/paralleluniverse/capsule/CapsuleLauncher.java:266-271 | reads the nearest declaration of the static field, or refuses the call exactly when no class on the chain declares it |
| `Facade.EntryOverload` | capsule-util/src/main/java/co/paralleluniverse/capsule/CapsuleLauncher.java:249-252 | invokes the `Map.Entry` overload with the attribute's entry form; a missing or non-`Attribute` argument fails first, and a missing overload is a null dereference |
| `Facade.Invoke` | capsule-util/src/main/java/co/paralleluniverse/capsule/CapsuleLauncher.java:231-257 | `equals` with a non-handler argument is false without dispatching; a direct method is always preferred; otherwise `getVersion` reads `VERSION`, `getProperties` reads `PROPERTIES`, `getAttribute`/`hasAttribute` use the `Map.Entry` overload, and any other name is unsupported |
| `Facade.InvokeTargetsResolvedMethod` | capsule-util/src/main/java/co/paralleluniverse/capsule/CapsuleLauncher.java:241-256 | any method a call invokes is either the direct resolution with the original arguments, or the `Map.Entry` overload when no direct one exists |
| `Facade.RefusedOnlyWithoutDirectMethod` | capsule-util/src/main/java/co/paralleluniverse/capsule/CapsuleLauncher.java:244-255 | a refused call had no direct method, and names the missing field exactly for `getVersion` and `getProperties` |

## Left out

- `disableWarning` and the `sun.misc.Unsafe` patching in the static initialiser are left out. They suppress a JVM warning and carry no functional contract.
- Jar and manifest I/O, and building the `JarClassLoader`, are left out. The manifest (absent for a jar without one) and the class loader are given inputs instead.
- Manifest attribute names in Java are compared case-insensitively, and the main attributes may be null. The model keeps only an optional `Main-Class` value.
- `Proxy.newProxyInstance` is not modelled. `wrap` becomes the `CapsuleAccess` value itself.
- `setAccessible` is left out.
- `Method.invoke`, `Field.get`, `Field.set` and the `rethrow` wrapping are left out. They become `Action` values and slot-map updates.
- An exception thrown by a capsule method during a dispatched call is not modelled. `Method.invoke` wraps it in an `InvocationTargetException`, and what `rethrow` then throws depends on a library method that is not part of this model.
- What `Class.getMethod` resolves (public members, interfaces) is not modelled. It is an opaque table of public lookups, given as an input to dispatch.
- The identity of the proxy versus the handler in `equals` is not modelled. The argument is classified only as this handler, another handler, or something else.
- `findJavaHomes` is left out. It is a reflective call into a class loaded by the system class loader, and its failure is an `AssertionError`.
- The capsule's own code is not modelled. Its constructor and `setTarget` are reduced to whether they exist and whether they throw, plus the constructor's net effect on the own entries of the property table and on the context class loader (`CapsuleBehaviour`).
- Launcher.CapsuleLauncher.NewCapsule: writes that `setTarget` makes to the property table, a capsule that replaces the table object held in its `PROPERTIES` slot, and the order of the capsule's individual updates are not modelled; only the constructor's net effect is.
- The defaults layer is a fixed snapshot of the system properties. Later changes to the system properties, and non-string values in a table, are not modelled.
- The context class loader is one state variable of the launcher. Threads and concurrent `newCapsule` calls are not modelled; the source has no locking.
- Type checks that `Field.set` performs on the value are not modelled. Neither are null property names.
- The convenience overloads `newCapsule()`, `newCapsule(String)` and `newCapsule(Path)` only pass nulls on. They are `NewCapsule` with `None` arguments.
- The builder-style `return this` of the setters is not modelled.
