# qml handle layer, modelled in Dafny

This project models the bookkeeping and decision logic of `qml.go`, the
handle layer of the Go package `qml`, which lets Go programs drive a QML
engine through cgo. Nearly every operation of that file wraps a native call
in `gui(func(){...})`, a closure run on the GUI thread. The model runs every
such closure inline and atomically. It keeps what happens around the native
calls: the single-shot initialisation flag, the engine directory and engine
destruction, object destruction, the window wait table, type registration,
location normalisation and error trimming in `Load`, the argument bound of
`Call`, and the typed property accessors.

Native calls are opaque steps. What the native side answers (an address, a
lookup result, a compiler diagnostic) is a parameter of the method. The call
itself is appended to a trace, `Runtime.native`, so that contracts can say
which engine calls a method of the handle layer issues, and which of them it
does not reach when it panics or fails early. The native lookups behind the
pure accessors are not traced (see "## Left out").

Go panics (usage errors) and returned errors are both modelled as values:
`Result<T, Panic>` and `Result<T, Error>` in module `Results`.

Modules:

- `Results` (results.dfy): `Option`, `Result`, and one constructor for each
  panic site and for each returned error.
- `Ints` (ints.dfy): Go's `int32`/`int64` ranges, and the narrowing
  conversion to a 32- or 64-bit signed integer as explicit two's-complement
  wrap-around.
- `Location` (location.dfy): `strings.Index`, the test that decides whether
  `Load` prefixes `file:`, the rewrite itself, and `strings.TrimRight(msg, "\n")`.
- `Dynamic` (dynamic.dfy): the dynamically typed property value, and the
  accessors `Property`, `Int`, `Int64`, `Float64`, `Bool`, `String`, `Object`
  and `ObjectByName`.
- `Qml` (qml.dfy): the package variables (class `Runtime`) and the handles
  `Engine`, `Context`, `Object`, `Window`, `Waiter` and `TypeSpec`.
- `Scenarios` (scenarios.dfy): verified call sequences. They show that a
  second destroy changes nothing, that the wait handshake wakes its waiter
  once, that registration keeps its own copy of the spec, and that a nil
  sample fails naming the type.

Behaviour of `qml.go` that the model keeps as written:

- A location with a `:` but no `/` (such as `qrc:main.qml`) takes the
  `file:` rewrite, like an unschemed one (qml.go:122).
- The compiler diagnostic is trimmed of trailing `'\n'` only, not of other
  whitespace (qml.go:144).
- `Load` does not call `assertValid`, so it runs on a destroyed engine too
  (qml.go:117-152).
- A second `Window.Wait` on the same window overwrites the first waiter's
  entry, and that earlier waiter is never woken (qml.go:541).
- When compilation fails, the native component `Load` created is never
  deleted; the trace shows it created and nothing deleting it
  (qml.go:138-150).

## Model

| member | source | states |
|---|---|---|
| Qml.Runtime.Init | qml.go:41-57 | succeeds exactly when the flag was 0; afterwards the flag is 1 whatever happened; a later call panics with InitCalledTwice |
| Qml.Runtime.NewEngine | qml.go:72-80 | the new engine is live, keeps no values, and is entered in the engine directory under its native address |
| Qml.Runtime.HookWindowHidden | qml.go:553-563 | panics with WindowNotWaiting iff the address has no waiter, then changing nothing; otherwise removes exactly that entry and releases its waiter |
| Qml.Runtime.Register | qml.go:583-612 | a nil sample fails with an error naming the type and changes nothing; otherwise the native registration gets major/minor narrowed to C int, and exactly the copy taken on entry is appended to types |
| Qml.Runtime.RegisterType | qml.go:575-577 | the registerType contract with singleton false |
| Qml.Runtime.RegisterSingleton | qml.go:579-581 | the registerType contract with singleton true |
| Qml.Engine.AssertValid | qml.go:82-86 | panics with EngineAlreadyDestroyed iff the engine is destroyed |
| Qml.Engine.Destroy | qml.go:92-108 | afterwards destroyed; the first call issues one native delete and removes the directory entry iff the engine keeps no values, and any entry left under its address is an engine at that address; a call on a destroyed engine changes nothing |
| Qml.Engine.Context | qml.go:180-188 | panics iff the engine is destroyed, with no native call; otherwise a fresh context on the native root context, owned by this engine |
| Qml.Engine.Load | qml.go:117-152 | a read error is returned as is, and an unresolvable location fails, both with no native call; otherwise the component gets the resolved location, and a diagnostic fails with its trailing newlines trimmed |
| Qml.Object.Call | qml.go:423-440 | panics iff there are more params than argument slots, before any packing or native call; otherwise each param is packed into its slot as owned by the call, the other slots are untouched, and one invoke is issued |
| Qml.Object.Create | qml.go:448-462 | asks the native side whether the object is a component; panics iff it is not, with no further native call; otherwise a fresh object under the given context; with no context it passes the null context address, so the instance runs under obj's own context |
| Qml.Object.CreateWindow | qml.go:471-485 | as Create, yielding a fresh window on the new view |
| Qml.Object.Destroy | qml.go:489-498 | the address ends null; a native delete is issued exactly when the address was not null, so a second call issues nothing |
| Qml.Window.Wait | qml.go:534-545 | the wait table maps the window's address to a fresh, unreleased waiter; the hidden signal is connected |
| Qml.Window.Destroy | qml.go:549-551 | the Object.Destroy contract on the window's object |
| Location.IndexOf | qml.go:122 | the first position of the character, or -1 exactly when it does not occur |
| Location.KeptIffScheme | qml.go:122 | a location is kept exactly when some ':' has no '/' before it and a '/' after it |
| Location.ColonWithoutSlashIsRewritten | qml.go:122 | a location with a ':' and no '/' is rewritten |
| Location.Resolve | qml.go:122-133 | unchanged when the location names a scheme; fails iff it needs the prefix, is relative, and the working directory is unavailable; otherwise "file:" followed by the absolute path or the joined path |
| Location.FileUrlKept | qml.go:124-125 | a file: URL of an absolute path is itself kept by the test |
| Location.ResolveIdempotent | qml.go:122-133 | resolving an already resolved location changes nothing when the result is absolute |
| Location.TrimNewlines | qml.go:144 | the result is a prefix of the message, does not end in a newline, and only newlines were cut off |
| Location.TrimNewlinesUnique | qml.go:144 | any split into a text not ending in a newline followed by newlines yields that text |
| Location.TrimNewlinesIdempotent | qml.go:144 | trimming twice equals trimming once |
| Ints.Wrap | qml.go:305 | the converted value lies in the target range and differs from the input by a multiple of 2^bits, i.e. keeps its low bits |
| Ints.WrapIdentity | qml.go:305-308 | conversion leaves a value unchanged exactly when it fits the target width |
| Dynamic.Property | qml.go:281-294 | the value when the lookup found one; a panic naming the property otherwise |
| Dynamic.Int | qml.go:298-318 | succeeds iff the property exists, is numeric, and is not an int64 too large for the platform int; integers come back unchanged, floats through the truncation parameters; too-large and non-numeric values panic naming the property |
| Dynamic.Int64 | qml.go:322-339 | succeeds iff the property exists and is numeric; integers come back unchanged, floats through the truncation parameters; other kinds panic |
| Dynamic.Float64 | qml.go:343-358 | succeeds iff the property exists and is numeric; a float64 comes back unchanged, a float32 widened, an integer converted |
| Dynamic.Bool | qml.go:362-369 | returns the value iff its dynamic type is exactly bool, and panics otherwise |
| Dynamic.String | qml.go:373-380 | returns the value iff its dynamic type is exactly string, and panics otherwise |
| Dynamic.Object | qml.go:388-395 | returns the handle iff the dynamic type is exactly *Object, and panics otherwise |
| Dynamic.ObjectByName | qml.go:400-413 | returns the found object iff the search yielded an object, and panics naming the object name otherwise |
| Dynamic.IntIsInt64On64Bit | qml.go:298-339 | with a 64-bit int, Int and Int64 accept the same values and return the same numbers |
| Dynamic.TooLargeOn32Bit | qml.go:304-307 | with a 32-bit int, Int panics on the int64 9999999999, which Int64 returns |
| Dynamic.IntRefinesInt64 | qml.go:298-339 | whatever Int accepts, Int64 accepts, with the same number for integer kinds |
| Scenarios.DestroyEngineTwice | qml.go:88-108 | two Engine.Destroy calls have the effect of one |
| Scenarios.DestroyObjectTwice | qml.go:487-498 | two Object.Destroy calls issue one native delete |
| Scenarios.WaitThenHidden | qml.go:533-563 | Wait then the hidden signal releases the waiter and removes only that window's entry; a second signal panics |
| Scenarios.RegisterThenRename | qml.go:583-607 | renaming a spec after registration leaves the registered copy's name as it was |
| Scenarios.RegisterNilItem | qml.go:589-594 | registering "Item" 1.0 with a factory returning nil fails with an error naming "Item" and registers nothing |

## Left out

- The GUI-thread dispatcher (`gui`, `guiLoop`, `guiLoopReady`) is concurrency, and its code is not part of this model. Each closure runs inline and atomically. `Init` therefore does not start a loop.
- Engine.Destroy: the source tests `destroyed` a second time inside its closure. With the closure run atomically that is the same test, so it appears once. `stats.enginesAlive` is not part of this model.
- The mutex blocking in `Window.Wait` is concurrency. Only the wait-table insert, the removal and the release of the waiter are modelled.
- `packDataValue`, `unpackDataValue`, `wrapGoValue` and `typeInfo` are not part of this model. A packed slot records the value and its owner. An engine's retained values are a set of keys whose emptiness is all that matters. Releasing the last value, which clears the engine's directory entry later, is not modelled.
- `Context.SetVar`, `Context.SetVars`, `Context.Var`, `Object.Set`, `Window.Show`, `Window.Hide` and `Window.Root` are native calls around that packing or unpacking, with no decision logic of their own. `SetVar` and `Var` issue three each (`newString`, `contextSetProperty` or `contextGetProperty`, `delString`), `Object.Set` three (`CString`, `objectSetProperty`, `free`); the others issue one.
- C string allocation and release (`C.CString`, `C.free`, `newString`, `delString`) are not in the trace, including those inside the modelled `Call` (qml.go:427-428), `Load` (qml.go:145) and `registerType` (qml.go:597-598). The trace records the engine calls only.
- The native lookups `objectGetProperty` (behind `Dynamic.Property` and the typed accessors) and `objectFindChild` (behind `Dynamic.ObjectByName`) are not in the trace: those accessors are pure functions of the lookup's answer.
- `Object.Call`'s doc comment promises a panic when the method does not exist, but the code never checks (its result from `objectInvoke` is ignored). The model follows the code and has no such panic.
- A `TypeSpec` whose `New` field is nil makes registration panic (a call through a nil function). The model's `factory` is a total function, so this panic is not modelled.
- `LoadFile` and `LoadString` only open or wrap their input and forward it to `Load`. Reading is I/O, so the read result is a parameter of `Engine.Load`.
- Path semantics follow a Unix system: `filepath.IsAbs` means "starts with '/'" and `filepath.ToSlash` is the identity. `filepath.Join` and `os.Getwd` are parameters.
- Dynamic.Int: float32 and float64 payloads are opaque bit patterns, and their truncation to an integer is a parameter that the result is tied to. The model therefore states nothing about which integer a float yields (3.9 to 3). An `int` payload is kept in the int64 range on every platform, so on a 32-bit platform the model does not promise that an `int` result fits 32 bits.
- Dynamic.Int64: float truncation is a parameter, as for Int.
- Dynamic.Float64: the integer-to-float and float32-to-float64 conversions are parameters.
- Panic and error messages are structured values. They carry the property, object or type name but not the printed value (`%#v`) or Go's `%q` quoting.
- Object.Create and Object.CreateWindow call `objectIsComponent` outside the GUI closure. The model passes its answer in and cannot express on which thread it runs.
