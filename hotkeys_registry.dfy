/**
 * The hotkey backend registry of libobs/obs-nix.c: one process-wide table of
 * six callbacks that is bound to the X11 or the Wayland backend as a unit,
 * dispatched through, and cleared again.
 */
module HotkeysRegistry {
  import opened Wrappers
  import opened Keys
  import opened Platform

  /** struct obs_core_hotkeys as far as a backend's init and free change it. */
  type CoreState

  /** obs_hotkeys_platform_t: the backend-owned state that is_pressed queries. */
  type PlatformContext

  datatype Backend = X11Backend | WaylandBackend

  /** One backend's operation set (the obs_x11_* or obs_wayland_* functions).
      init and free change the hotkeys core, so they map its old state to the
      new one; key_to_str yields the name it writes into its output string. */
  datatype Operations = Operations(
    init: CoreState -> (bool, CoreState),
    free: CoreState -> CoreState,
    isPressed: (PlatformContext, Key) -> bool,
    keyToStr: Key -> string,
    keyFromVirtualKey: int -> Key,
    keyToVirtualKey: Key -> int)

  /** A call the registry makes into a backend's init or free. */
  datatype BackendCall = InitCall(backend: Backend) | FreeCall(backend: Backend)

  /** The hotkeys core that init and free receive by pointer and update in place. */
  class HotkeysCore {
    var state: CoreState

    constructor (s: CoreState)
      ensures state == s
    {
      state := s;
    }
  }

  /** The static obs_hotkeys_callbacks table together with the backends that
      were compiled in (x11 is None without ENABLE_X11, wayland is None without
      ENABLE_WAYLAND). A None slot is a NULL function pointer. */
  class Registry {
    const x11: Option<Operations>
    const wayland: Option<Operations>

    var init: Option<CoreState -> (bool, CoreState)>
    var free: Option<CoreState -> CoreState>
    var isPressed: Option<(PlatformContext, Key) -> bool>
    var keyToStr: Option<Key -> string>
    var keyFromVirtualKey: Option<int -> Key>
    var keyToVirtualKey: Option<Key -> int>

    /** Which backend the six slots currently come from. */
    ghost var bound: Option<Backend>
    /** Every call made into a backend's init or free, in order. */
    ghost var calls: seq<BackendCall>

    ghost function Compiled(b: Backend): Option<Operations>
    {
      match b
      case X11Backend => x11
      case WaylandBackend => wayland
    }

    /** All six slots hold the operations of ops. */
    ghost predicate Holds(ops: Operations)
      reads this
    {
      init == Some(ops.init) && free == Some(ops.free) &&
      isPressed == Some(ops.isPressed) && keyToStr == Some(ops.keyToStr) &&
      keyFromVirtualKey == Some(ops.keyFromVirtualKey) &&
      keyToVirtualKey == Some(ops.keyToVirtualKey)
    }

    /** All six slots are NULL. */
    ghost predicate Unbound()
      reads this
    {
      init == None && free == None && isPressed == None && keyToStr == None &&
      keyFromVirtualKey == None && keyToVirtualKey == None
    }

    /** Either all six slots are bound to one compiled-in backend, or none is. */
    ghost predicate Valid()
      reads this
    {
      match bound
      case None => Unbound()
      case Some(b) => Compiled(b).Some? && Holds(Compiled(b).value)
    }

    ghost predicate IsBound()
      reads this
    {
      Valid() && bound.Some?
    }

    ghost function BoundOps(): Operations
      reads this
      requires IsBound()
    {
      Compiled(bound.value).value
    }

    /** The backend whose init obs_hotkeys_platform_init ends up calling: the
        compiled-in backend matching the platform, otherwise whatever the slots
        already held (prior), None when that is a NULL slot too. */
    ghost function Selected(platform: PlatformType, prior: Option<Backend>): (r: Option<Backend>)
      ensures r != prior ==> r.Some? && Compiled(r.value).Some?
      ensures r != prior ==> (r == Some(X11Backend) <==> platform == PlatformDefault)
      ensures platform == PlatformDefault && x11.Some? ==> r == Some(X11Backend)
      ensures platform == PlatformWayland && wayland.Some? ==> r == Some(WaylandBackend)
    {
      if platform == PlatformDefault && x11.Some? then Some(X11Backend)
      else if platform == PlatformWayland && wayland.Some? then Some(WaylandBackend)
      else prior
    }

    /** The zero-initialised static table. */
    constructor (x11: Option<Operations>, wayland: Option<Operations>)
      ensures this.x11 == x11 && this.wayland == wayland
      ensures Valid() && Unbound() && bound == None && calls == []
    {
      this.x11, this.wayland := x11, wayland;
      init, free, isPressed, keyToStr := None, None, None, None;
      keyFromVirtualKey, keyToVirtualKey := None, None;
      bound, calls := None, [];
    }

    /** One of the two blocks of six assignments in obs_hotkeys_platform_init. */
    method Bind(ops: Operations)
      modifies this
      ensures Holds(ops) && bound == old(bound) && calls == old(calls)
    {
      init, free, isPressed, keyToStr := Some(ops.init), Some(ops.free), Some(ops.isPressed), Some(ops.keyToStr);
      keyFromVirtualKey, keyToVirtualKey := Some(ops.keyFromVirtualKey), Some(ops.keyToVirtualKey);
    }

    /** obs_hotkeys_platform_init: bind the backend matching the platform, then
        return what its init returns. Calling through a NULL init slot is
        excluded by the second requires. */
    method PlatformInit(hotkeys: HotkeysCore, platform: PlatformType) returns (ok: bool)
      requires Valid()
      requires Selected(platform, bound).Some?
      modifies this, hotkeys
      ensures Valid() && bound == Selected(platform, old(bound))
      ensures platform == PlatformDefault && x11.Some? ==> Holds(x11.value)
      ensures platform == PlatformWayland && wayland.Some? ==> Holds(wayland.value)
      ensures Selected(platform, None) == None ==>
                init == old(init) && free == old(free) && isPressed == old(isPressed) &&
                keyToStr == old(keyToStr) && keyFromVirtualKey == old(keyFromVirtualKey) &&
                keyToVirtualKey == old(keyToVirtualKey)
      ensures (ok, hotkeys.state) == BoundOps().init(old(hotkeys.state))
      ensures calls == old(calls) + [InitCall(bound.value)]
    {
      if platform == PlatformDefault && x11.Some? {
        Bind(x11.value);
        bound := Some(X11Backend);
      }
      if platform == PlatformWayland && wayland.Some? {
        Bind(wayland.value);
        bound := Some(WaylandBackend);
      }
      var result := init.value(hotkeys.state);
      ok, hotkeys.state := result.0, result.1;
      calls := calls + [InitCall(bound.value)];
    }

    /** obs_hotkeys_platform_free: call the bound free once, then clear every slot. */
    method PlatformFree(hotkeys: HotkeysCore)
      requires IsBound()
      modifies this, hotkeys
      ensures Valid() && Unbound() && bound == None
      ensures hotkeys.state == old(BoundOps()).free(old(hotkeys.state))
      ensures calls == old(calls) + [FreeCall(old(bound).value)]
    {
      hotkeys.state := free.value(hotkeys.state);
      calls := calls + [FreeCall(bound.value)];
      init, free, isPressed, keyToStr := None, None, None, None;
      keyFromVirtualKey, keyToVirtualKey := None, None;
      bound := None;
    }

    /** obs_hotkeys_platform_is_pressed: forwards to the bound backend. */
    method PlatformIsPressed(context: PlatformContext, key: Key) returns (pressed: bool)
      requires IsBound()
      ensures pressed == BoundOps().isPressed(context, key)
    {
      pressed := isPressed.value(context, key);
    }

    /** obs_key_to_str: the name the bound backend writes for key. */
    method KeyToStr(key: Key) returns (name: string)
      requires IsBound()
      ensures name == BoundOps().keyToStr(key)
    {
      name := keyToStr.value(key);
    }

    /** obs_key_from_virtual_key: forwards to the bound backend. */
    method KeyFromVirtualKey(sym: int) returns (key: Key)
      requires IsBound()
      ensures key == BoundOps().keyFromVirtualKey(sym)
    {
      key := keyFromVirtualKey.value(sym);
    }

    /** obs_key_to_virtual_key: forwards to the bound backend. */
    method KeyToVirtualKey(key: Key) returns (sym: int)
      requires IsBound()
      ensures sym == BoundOps().keyToVirtualKey(key)
    {
      sym := keyToVirtualKey.value(key);
    }
  }

  /** A startup/shutdown pair on an unbound registry: the backend chosen for the
      platform gets exactly one init and then one free, and the table ends as
      unbound as it started. */
  method InitThenFree(registry: Registry, hotkeys: HotkeysCore, platform: PlatformType) returns (ok: bool)
    requires registry.Valid() && registry.bound == None
    requires registry.Selected(platform, None).Some?
    modifies registry, hotkeys
    ensures registry.Valid() && registry.Unbound() && registry.bound == None
    ensures var b := registry.Selected(platform, None).value;
            var ops := registry.Compiled(b).value;
            registry.calls == old(registry.calls) + [InitCall(b), FreeCall(b)] &&
            ok == ops.init(old(hotkeys.state)).0 &&
            hotkeys.state == ops.free(ops.init(old(hotkeys.state)).1)
  {
    ok := registry.PlatformInit(hotkeys, platform);
    registry.PlatformFree(hotkeys);
  }
}
