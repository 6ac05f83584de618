/** The handle layer of the package: process-wide state (the single-shot
    initialisation flag, the engine directory, the window wait table, the
    registered types and the argument slots of Call) and the Engine, Context,
    Object, Window and TypeSpec handles.

    Every `gui(func() {...})` closure runs inline and atomically. Each call
    into the native engine is an opaque step: what the native side answers is
    a parameter of the method, and the call itself is appended to the trace
    `Runtime.native`, so that contracts can say which native calls an
    operation issues and when it issues none. */
module Qml {
  import opened Results
  import opened Ints
  import Dynamic
  import Location

  /** A native address; Nil is the null pointer. */
  type Addr = nat
  const Nil: Addr := 0

  type Byte = bv8

  /** The identity of a Go value an engine keeps alive for the native side */
  type ValueKey = nat

  type Value = Dynamic.Value<Object>

  /** Who owns a value packed into a native data slot: the engine for
      SetVar and Set, the JavaScript call for the arguments of Call. */
  datatype Owner = CppOwner | JsOwner

  /** A native data slot: empty, or holding a packed Go value. */
  datatype DataValue = Empty | Packed(value: Value, owner: Owner)

  /** The native calls the modelled operations issue. */
  datatype NativeCall =
    | NewEngine(engine: Addr)
    | DelObjectLater(obj: Addr)
    | EngineRootContext(engine: Addr, context: Addr)
    | NewComponent(engine: Addr, component: Addr)
    | ComponentSetData(component: Addr, data: seq<Byte>, location: string)
    | ComponentErrorString(component: Addr)
    | ObjectInvoke(obj: Addr, name: string, argc: nat)
    | ObjectIsComponent(obj: Addr)
    | ComponentCreate(component: Addr, context: Addr, root: Addr)
    | ComponentCreateView(component: Addr, context: Addr, window: Addr)
    | ViewConnectHidden(window: Addr)
    | NativeRegister(singleton: bool, location: string, major: Int32, minor: Int32, name: string, sample: Value)

  /** The copy of a TypeSpec that registration keeps. */
  datatype TypeRecord = TypeRecord(location: string, major: Int64, minor: Int64, name: string, factory: () -> Value)

  /** The package's process-wide variables. */
  class Runtime {
    /** `initialized`, the int32 flag Init swaps from 0 to 1 */
    var initialized: Int32
    /** `engines`, the directory from native engine address to Engine */
    var engines: map<Addr, Engine>
    /** `waitingWindows`, from native window address to the waiter to wake */
    var waitingWindows: map<Addr, Waiter>
    /** `types`, the copies of every registered TypeSpec, in order */
    var types: seq<TypeRecord>
    /** the native calls issued so far, in order */
    var native: seq<NativeCall>
    /** `dataValueArray`, the fixed argument slots Call packs into */
    const dataValueArray: array<DataValue>

    ghost predicate Valid()
      reads this
    {
      && (initialized == 0 || initialized == 1)
      && (forall a :: a in engines ==> engines[a].addr == a)
    }

    /** The package's state when the process starts; `capacity` is the
        length of dataValueArray, which is declared outside this model. */
    constructor (capacity: nat)
      ensures Valid()
      ensures initialized == 0 && engines == map[] && waitingWindows == map[]
      ensures types == [] && native == []
      ensures fresh(dataValueArray) && dataValueArray.Length == capacity
    {
      initialized := 0;
      engines := map[];
      waitingWindows := map[];
      types := [];
      native := [];
      dataValueArray := new DataValue[capacity](_ => Empty);
    }

    /** Init: succeeds only the first time; every later call panics and
        leaves the flag set. Starting the GUI loop is not modelled. */
    method Init() returns (r: Result<(), Panic>)
      requires Valid()
      modifies this`initialized
      ensures Valid() && initialized == 1
      ensures r.Ok? <==> old(initialized) == 0
      ensures r.Err? ==> r.error == InitCalledTwice
    {
      if initialized == 0 {
        initialized := 1;
        r := Ok(());
      } else {
        r := Err(InitCalledTwice);
      }
    }

    /** NewEngine: `addr` is what the native engine constructor returns. */
    method NewEngine(addr: Addr) returns (e: Engine)
      requires Valid()
      modifies this`engines, this`native
      ensures Valid() && fresh(e)
      ensures e.addr == addr && e.values == {} && !e.destroyed
      ensures engines == old(engines)[addr := e]
      ensures native == old(native) + [NativeCall.NewEngine(addr)]
    {
      e := new Engine(addr);
      engines := engines[addr := e];
      native := native + [NativeCall.NewEngine(addr)];
    }

    /** hookWindowHidden: the native "hidden" signal for the window at
        `addr`. It panics when no caller waits on that window; otherwise it
        removes exactly that entry of the wait table and wakes its waiter. */
    method HookWindowHidden(addr: Addr) returns (r: Result<(), Panic>)
      modifies this`waitingWindows, if addr in waitingWindows then {waitingWindows[addr]} else {}
      ensures r.Ok? <==> addr in old(waitingWindows)
      ensures r.Err? ==> r.error == WindowNotWaiting && waitingWindows == old(waitingWindows)
      ensures r.Ok? ==> waitingWindows == old(waitingWindows) - {addr} && old(waitingWindows)[addr].released
    {
      if addr !in waitingWindows {
        return Err(WindowNotWaiting);
      }
      var m := waitingWindows[addr];
      waitingWindows := waitingWindows - {addr};
      m.released := true;
      r := Ok(());
    }

    /** registerType: copies the spec, asks its factory for a sample and
        fails, naming the type, when the sample is nil; otherwise it issues
        the native registration (major and minor pass through C's 32-bit
        int) and appends exactly the copy taken on entry to `types`. */
    method Register(spec: TypeSpec, singleton: bool) returns (r: Result<(), Error>)
      modifies this`types, this`native
      ensures var local := old(spec.Snapshot()); var sample := local.factory();
        if sample.NilValue? then
          r == Err(NilSample(local.name)) && types == old(types) && native == old(native)
        else
          && r == Ok(())
          && types == old(types) + [local]
          && native == old(native) + [NativeRegister(singleton, local.location, Wrap(local.major, 32), Wrap(local.minor, 32), local.name, sample)]
    {
      var localSpec := spec.Snapshot();
      var sample := spec.factory();
      if sample.NilValue? {
        return Err(NilSample(spec.name));
      }
      native := native + [NativeRegister(singleton, localSpec.location, Wrap(localSpec.major, 32), Wrap(localSpec.minor, 32), localSpec.name, sample)];
      types := types + [localSpec];
      r := Ok(());
    }

    /** RegisterType: registration of a plain type. */
    method RegisterType(spec: TypeSpec) returns (r: Result<(), Error>)
      modifies this`types, this`native
      ensures var local := old(spec.Snapshot()); var sample := local.factory();
        if sample.NilValue? then
          r == Err(NilSample(local.name)) && types == old(types) && native == old(native)
        else
          && r == Ok(())
          && types == old(types) + [local]
          && native == old(native) + [NativeRegister(false, local.location, Wrap(local.major, 32), Wrap(local.minor, 32), local.name, sample)]
    {
      r := Register(spec, false);
    }

    /** RegisterSingleton: the same registration, as a singleton. */
    method RegisterSingleton(spec: TypeSpec) returns (r: Result<(), Error>)
      modifies this`types, this`native
      ensures var local := old(spec.Snapshot()); var sample := local.factory();
        if sample.NilValue? then
          r == Err(NilSample(local.name)) && types == old(types) && native == old(native)
        else
          && r == Ok(())
          && types == old(types) + [local]
          && native == old(native) + [NativeRegister(true, local.location, Wrap(local.major, 32), Wrap(local.minor, 32), local.name, sample)]
    {
      r := Register(spec, true);
    }
  }

  /** A QML engine. */
  class Engine {
    const addr: Addr
    /** the keys of the Go values the engine keeps alive; only whether there
        are any matters here */
    var values: set<ValueKey>
    var destroyed: bool

    constructor (addr: Addr)
      ensures this.addr == addr && values == {} && !destroyed
    {
      this.addr := addr;
      values := {};
      destroyed := false;
    }

    /** assertValid: a destroyed engine must not be used. */
    method AssertValid() returns (r: Result<(), Panic>)
      ensures r.Ok? <==> !destroyed
      ensures r.Err? ==> r.error == EngineAlreadyDestroyed
    {
      if destroyed {
        r := Err(EngineAlreadyDestroyed);
      } else {
        r := Ok(());
      }
    }

    /** Destroy: the first call marks the engine destroyed, asks the native
        side to delete it, and removes it from the engine directory only when
        it keeps no values alive (the last value released clears it later).
        Any later call changes nothing. */
    method Destroy(rt: Runtime)
      requires rt.Valid()
      modifies this`destroyed, rt`engines, rt`native
      ensures rt.Valid() && destroyed
      ensures old(destroyed) ==> rt.engines == old(rt.engines) && rt.native == old(rt.native)
      ensures !old(destroyed) ==> rt.native == old(rt.native) + [DelObjectLater(addr)]
      ensures !old(destroyed) ==> (addr in rt.engines <==> addr in old(rt.engines) && values != {})
      ensures addr in rt.engines ==> rt.engines[addr].addr == addr
      ensures !old(destroyed) ==> rt.engines == if values == {} then old(rt.engines) - {addr} else old(rt.engines)
    {
      if !destroyed {
        destroyed := true;
        rt.native := rt.native + [DelObjectLater(addr)];
        if |values| == 0 {
          rt.engines := rt.engines - {addr};
        }
      }
    }

    /** Context: the engine's root context; `root` is the native answer.
        Panics on a destroyed engine, before any native call. */
    method Context(rt: Runtime, root: Addr) returns (r: Result<Context, Panic>)
      modifies rt`native
      ensures r.Err? <==> destroyed
      ensures r.Err? ==> r.error == EngineAlreadyDestroyed && rt.native == old(rt.native)
      ensures r.Ok? ==> fresh(r.value) && fresh(r.value.obj)
      ensures r.Ok? ==> r.value.obj.addr == root && r.value.obj.engine == this
      ensures r.Ok? ==> rt.native == old(rt.native) + [EngineRootContext(addr, root)]
    {
      var valid := AssertValid();
      if valid.Err? {
        return Err(valid.error);
      }
      var obj := new Object(root, this);
      var ctx := new Context(obj);
      rt.native := rt.native + [EngineRootContext(addr, root)];
      r := Ok(ctx);
    }

    /** Load: `data` is the outcome of reading the content, `cwd` that of
        os.Getwd, `join` stands for filepath.Join, `component` is the address
        of the native component and `diagnostic` the compiler's error string,
        if any. A read error is returned as it is; a location that cannot be
        made absolute fails before any native call; a compiler diagnostic
        fails with its trailing newlines trimmed. Load does not check that
        the engine is still valid. */
    method Load(rt: Runtime, location: string, data: Result<seq<Byte>, string>,
                cwd: Result<string, string>, join: (string, string) -> string,
                component: Addr, diagnostic: Option<string>)
      returns (r: Result<Object, Error>)
      modifies rt`native
      ensures data.Err? ==> r == Err(ReadFailed(data.error)) && rt.native == old(rt.native)
      ensures data.Ok? && Location.Resolve(location, cwd, join).Err? ==>
        r == Err(Location.Resolve(location, cwd, join).error) && rt.native == old(rt.native)
      ensures data.Ok? && Location.Resolve(location, cwd, join).Ok? ==>
        && rt.native == old(rt.native) + [NewComponent(addr, component),
             ComponentSetData(component, data.value, Location.Resolve(location, cwd, join).value),
             ComponentErrorString(component)]
        && (diagnostic.Some? ==> r == Err(CompileFailed(Location.TrimNewlines(diagnostic.value))))
        && (diagnostic.None? ==> r.Ok? && fresh(r.value) && r.value.addr == component && r.value.engine == this)
    {
      if data.Err? {
        return Err(ReadFailed(data.error));
      }
      var resolved := Location.Resolve(location, cwd, join);
      if resolved.Err? {
        return Err(resolved.error);
      }
      var comp := new Object(component, this);
      rt.native := rt.native + [NewComponent(addr, component),
        ComponentSetData(component, data.value, resolved.value), ComponentErrorString(component)];
      if diagnostic.Some? {
        r := Err(CompileFailed(Location.TrimNewlines(diagnostic.value)));
      } else {
        r := Ok(comp);
      }
    }
  }

  /** A QML context; its lifetime is the engine's. */
  class Context {
    const obj: Object

    constructor (obj: Object)
      ensures this.obj == obj
    {
      this.obj := obj;
    }
  }

  /** A QML object; Nil is its address after Destroy. */
  class Object {
    var addr: Addr
    const engine: Engine

    constructor (addr: Addr, engine: Engine)
      ensures this.addr == addr && this.engine == engine
    {
      this.addr := addr;
      this.engine := engine;
    }

    /** The slots Call fills: the first |params| hold the packed parameters,
        the others are left as they were. */
    ghost predicate PackedInto(slots: seq<DataValue>, before: seq<DataValue>, params: seq<Value>)
    {
      && |params| <= |slots| == |before|
      && (forall i :: 0 <= i < |params| ==> slots[i] == Packed(params[i], JsOwner))
      && (forall i :: |params| <= i < |slots| ==> slots[i] == before[i])
    }

    /** Call: panics, before anything is packed or invoked, when there are
        more parameters than argument slots; otherwise packs every parameter
        into its slot, as owned by the JavaScript call, and invokes the
        method. `result` is the unpacked value the native side returns. */
    method Call(rt: Runtime, name: string, params: seq<Value>, result: Value) returns (r: Result<Value, Panic>)
      modifies rt`native, rt.dataValueArray
      ensures r.Err? <==> |params| > rt.dataValueArray.Length
      ensures r.Err? ==> r.error == TooManyParameters
      ensures r.Err? ==> rt.native == old(rt.native) && rt.dataValueArray[..] == old(rt.dataValueArray[..])
      ensures r.Ok? ==> r.value == result
      ensures r.Ok? ==> PackedInto(rt.dataValueArray[..], old(rt.dataValueArray[..]), params)
      ensures r.Ok? ==> rt.native == old(rt.native) + [ObjectInvoke(addr, name, |params|)]
    {
      var slots := rt.dataValueArray;
      if |params| > slots.Length {
        return Err(TooManyParameters);
      }
      var i := 0;
      while i < |params|
        modifies slots
        invariant 0 <= i <= |params|
        invariant forall k :: 0 <= k < i ==> slots[k] == Packed(params[k], JsOwner)
        invariant forall k :: i <= k < slots.Length ==> slots[k] == old(slots[k])
      {
        slots[i] := Packed(params[i], JsOwner);
        i := i + 1;
      }
      rt.native := rt.native + [ObjectInvoke(addr, name, |params|)];
      r := Ok(result);
    }

    /** Create: panics when the object is not a component (`isComponent` is
        the native answer); otherwise instantiates it under `ctx`, or under
        the component's own context when `ctx` is null. `root` is the address
        of the new instance. */
    method Create(rt: Runtime, ctx: Context?, isComponent: bool, root: Addr) returns (r: Result<Object, Panic>)
      modifies rt`native
      ensures r.Err? <==> !isComponent
      ensures r.Err? ==> r.error == NotAComponent && rt.native == old(rt.native) + [ObjectIsComponent(addr)]
      ensures r.Ok? ==> fresh(r.value) && r.value.addr == root && r.value.engine == engine
      ensures r.Ok? ==> rt.native == old(rt.native) + [ObjectIsComponent(addr), ComponentCreate(addr, if ctx == null then Nil else ctx.obj.addr, root)]
    {
      rt.native := rt.native + [ObjectIsComponent(addr)];
      if !isComponent {
        return Err(NotAComponent);
      }
      var ctxAddr := if ctx == null then Nil else ctx.obj.addr;
      var obj := new Object(root, engine);
      rt.native := rt.native + [ComponentCreate(addr, ctxAddr, root)];
      r := Ok(obj);
    }

    /** CreateWindow: as Create, with the instance placed in a new window
        at native address `window`. */
    method CreateWindow(rt: Runtime, ctx: Context?, isComponent: bool, window: Addr) returns (r: Result<Window, Panic>)
      modifies rt`native
      ensures r.Err? <==> !isComponent
      ensures r.Err? ==> r.error == NotAComponent && rt.native == old(rt.native) + [ObjectIsComponent(addr)]
      ensures r.Ok? ==> fresh(r.value) && fresh(r.value.obj)
      ensures r.Ok? ==> r.value.obj.addr == window && r.value.obj.engine == engine
      ensures r.Ok? ==> rt.native == old(rt.native) + [ObjectIsComponent(addr), ComponentCreateView(addr, if ctx == null then Nil else ctx.obj.addr, window)]
    {
      rt.native := rt.native + [ObjectIsComponent(addr)];
      if !isComponent {
        return Err(NotAComponent);
      }
      var ctxAddr := if ctx == null then Nil else ctx.obj.addr;
      var obj := new Object(window, engine);
      var win := new Window(obj);
      rt.native := rt.native + [ComponentCreateView(addr, ctxAddr, window)];
      r := Ok(win);
    }

    /** Destroy: asks the native side to delete the object only when its
        address is not null, and always leaves the address null, so a second
        call issues nothing. */
    method Destroy(rt: Runtime)
      modifies this`addr, rt`native
      ensures addr == Nil
      ensures rt.native == old(rt.native) + if old(addr) != Nil then [DelObjectLater(old(addr))] else []
    {
      if addr != Nil {
        rt.native := rt.native + [DelObjectLater(addr)];
        addr := Nil;
      }
    }
  }

  /** What a caller of Window.Wait blocks on until the hidden signal. */
  class Waiter {
    var released: bool

    constructor ()
      ensures !released
    {
      released := false;
    }
  }

  /** A QML window. */
  class Window {
    const obj: Object

    constructor (obj: Object)
      ensures this.obj == obj
    {
      this.obj := obj;
    }

    /** Wait: installs a fresh waiter for the window's address in the wait
        table, replacing any earlier one, and connects the native hidden
        signal. The caller then blocks until the waiter is released, which
        is not modelled. */
    method Wait(rt: Runtime) returns (m: Waiter)
      modifies rt`waitingWindows, rt`native
      ensures fresh(m) && !m.released
      ensures rt.waitingWindows == old(rt.waitingWindows)[obj.addr := m]
      ensures rt.native == old(rt.native) + [ViewConnectHidden(obj.addr)]
    {
      m := new Waiter();
      rt.waitingWindows := rt.waitingWindows[obj.addr := m];
      rt.native := rt.native + [ViewConnectHidden(obj.addr)];
    }

    /** Destroy: destroys the window's object. */
    method Destroy(rt: Runtime)
      modifies obj`addr, rt`native
      ensures obj.addr == Nil
      ensures rt.native == old(rt.native) + if old(obj.addr) != Nil then [DelObjectLater(old(obj.addr))] else []
    {
      obj.Destroy(rt);
    }
  }

  /** A caller's description of a type to register; the caller may change
      it after registration. */
  class TypeSpec {
    var location: string
    var major: Int64
    var minor: Int64
    var name: string
    var factory: () -> Value

    constructor (location: string, major: Int64, minor: Int64, name: string, factory: () -> Value)
      ensures Snapshot() == TypeRecord(location, major, minor, name, factory)
    {
      this.location := location;
      this.major := major;
      this.minor := minor;
      this.name := name;
      this.factory := factory;
    }

    /** The spec's current contents, as `*spec` copies them */
    function Snapshot(): TypeRecord
      reads this
    {
      TypeRecord(location, major, minor, name, factory)
    }
  }
}
