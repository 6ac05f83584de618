/** Client code over the handle layer, stating as verified sequences of
    calls the behaviour the package documents: destroying twice is
    destroying once, a window waiter is woken exactly once, registration
    keeps its own copy of the spec, and a nil sample fails naming the type. */
module Scenarios {
  import opened Results
  import opened Qml
  import Dynamic

  /** A second Engine.Destroy leaves the state the first one produced. */
  method DestroyEngineTwice(rt: Runtime, e: Engine)
    requires rt.Valid() && !e.destroyed
    modifies e`destroyed, rt`engines, rt`native
    ensures rt.Valid() && e.destroyed
    ensures rt.native == old(rt.native) + [DelObjectLater(e.addr)]
    ensures rt.engines == if e.values == {} then old(rt.engines) - {e.addr} else old(rt.engines)
  {
    e.Destroy(rt);
    ghost var engines, native := rt.engines, rt.native;
    e.Destroy(rt);
    assert rt.engines == engines && rt.native == native;
  }

  /** A second Object.Destroy issues no native call. */
  method DestroyObjectTwice(rt: Runtime, obj: Object)
    requires obj.addr != Nil
    modifies obj`addr, rt`native
    ensures obj.addr == Nil
    ensures rt.native == old(rt.native) + [DelObjectLater(old(obj.addr))]
  {
    obj.Destroy(rt);
    obj.Destroy(rt);
  }

  /** Wait followed by the hidden signal for the same window wakes the
      waiter, takes the window out of the table and leaves every other
      entry; a second signal for that window panics. */
  method WaitThenHidden(rt: Runtime, win: Window) returns (m: Waiter, second: Result<(), Panic>)
    modifies rt`waitingWindows, rt`native, rt.waitingWindows.Values
    ensures m.released
    ensures rt.waitingWindows == old(rt.waitingWindows) - {win.obj.addr}
    ensures second == Err(WindowNotWaiting)
  {
    m := win.Wait(rt);
    var first := rt.HookWindowHidden(win.obj.addr);
    assert first.Ok?;
    second := rt.HookWindowHidden(win.obj.addr);
  }

  /** Changing a spec after registering it does not change the registered
      copy. */
  method RegisterThenRename(rt: Runtime, spec: TypeSpec, newName: string) returns (r: Result<(), Error>)
    requires !spec.factory().NilValue?
    modifies rt`types, rt`native, spec`name
    ensures r.Ok? && |rt.types| == |old(rt.types)| + 1
    ensures rt.types[|rt.types| - 1].name == old(spec.name) && spec.name == newName
  {
    r := rt.RegisterType(spec);
    spec.name := newName;
  }

  /** Registering a type "Item", version 1.0, whose factory returns nil
      fails with an error naming "Item" and registers nothing. */
  method RegisterNilItem(rt: Runtime) returns (r: Result<(), Error>)
    modifies rt`types, rt`native
    ensures r == Err(NilSample("Item"))
    ensures rt.types == old(rt.types) && rt.native == old(rt.native)
  {
    var spec := new TypeSpec("", 1, 0, "Item", () => Dynamic.NilValue);
    r := rt.RegisterType(spec);
  }
}
