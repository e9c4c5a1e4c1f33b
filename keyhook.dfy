/**
 * The keyboard hook controller, its shared watch set, and the process-wide
 * slots through which the OS-invoked hook procedure finds them.
 */
module KeyHook {
  import opened Wrappers
  import opened Win32
  import opened KeyEvent
  import opened Dispatch

  /** `Arc<Mutex<HashSet<u32>>>`: the key set the controller and the registry share. */
  class WatchSet {
    var keys: set<u32>

    constructor ()
      ensures keys == {}
    {
      keys := {};
    }
  }

  /**
   * The statics `HOOK_CALLBACK`, `HHOOK` and `REGISTERED_KEYS`, plus, as a
   * ghost slot, the hook the operating system currently has in its chain.
   */
  class Registry {
    var callback: Option<Callback>
    var hhook: Option<isize>
    var registeredKeys: Option<WatchSet>
    ghost var osHook: Option<isize>

    /** All statics start out as None, and no hook is installed. */
    constructor ()
      ensures Unbound() && osHook.None?
    {
      callback, hhook, registeredKeys := None, None, None;
      osHook := None;
    }

    predicate Unbound()
      reads this
    {
      callback.None? && hhook.None? && registeredKeys.None?
    }

    function KeysFrame(): set<object>
      reads this
    {
      if registeredKeys.Some? then {registeredKeys.value} else {}
    }

    /** The binding the hook procedure reads: the callback and the current keys behind the shared handle. */
    function Published(): Binding
      reads this, KeysFrame()
    {
      Binding(callback, if registeredKeys.Some? then Some(registeredKeys.value.keys) else None)
    }

    /** `keyboard_hook_proc` on one notification, against the current statics. */
    function HookProc(n: Notification): (r: Outcome)
      reads this, KeysFrame()
      ensures r.verdict == Forward
      ensures r.delivered.Some? <==>
                && n.code == HC_ACTION && callback.Some? && registeredKeys.Some?
                && Watched(registeredKeys.value.keys, n.vk) && Transition(n.wparam).Some?
    {
      Decide(n, Published())
    }
  }

  /** The pump thread behind a join handle: in its message loop, or returned. */
  datatype PumpThread = Pumping | Exited

  /** `KeyboardHook`: the controller the application owns. */
  class KeyboardHook {
    var running: bool
    const watchSet: WatchSet
    var threadHandle: Option<PumpThread>
    /** The process-wide statics this controller writes. */
    const registry: Registry

    /**
     * The controller's own consistency with the statics, as long as it is the
     * only controller that starts or stops.
     */
    ghost predicate Valid()
      reads this, registry
    {
      && (running ==> threadHandle.Some?)
      && (!running ==> registry.hhook.None?)
      && (threadHandle == Some(Pumping) ==> running && registry.hhook.Some? && registry.osHook == registry.hhook)
      && (threadHandle != Some(Pumping) ==> registry.osHook.None?)
      && (threadHandle.Some? ==> registry.callback.Some? && registry.registeredKeys == Some(watchSet))
      && (threadHandle.None? ==> registry.Unbound() && registry.osHook.None?)
    }

    /** Stopped, with nothing published and no thread. */
    predicate Stopped()
      reads this, registry
    {
      !running && threadHandle.None? && registry.Unbound()
    }

    /** `KeyboardHook::new`: not running, no keys, no thread. */
    constructor (registry: Registry)
      ensures this.registry == registry && fresh(watchSet)
      ensures !running && threadHandle.None? && watchSet.keys == {}
      ensures registry.Unbound() && registry.osHook.None? ==> Valid()
    {
      running := false;
      watchSet := new WatchSet();
      threadHandle := None;
      this.registry := registry;
    }

    /** `register_key`: watch one more key. */
    method RegisterKey(vk: u32)
      modifies watchSet
      ensures watchSet.keys == old(watchSet.keys) + {vk}
      ensures vk in old(watchSet.keys) ==> watchSet.keys == old(watchSet.keys)
    {
      watchSet.keys := watchSet.keys + {vk};
    }

    /** `unregister_key`: stop watching a key; nothing happens if it was not watched. */
    method UnregisterKey(vk: u32)
      modifies watchSet
      ensures watchSet.keys == old(watchSet.keys) - {vk}
      ensures vk !in old(watchSet.keys) ==> watchSet.keys == old(watchSet.keys)
    {
      watchSet.keys := watchSet.keys - {vk};
    }

    /**
     * `start`. `install` is what `SetWindowsHookExA` returns on the pump
     * thread (0 on failure); the thread's start-up runs to its message loop,
     * or to its early return, before this method returns.
     */
    method Start(callback: Callback, install: isize) returns (r: Result<(), RegisterError>)
      modifies this, registry
      ensures r == Ok(())
      ensures old(running) ==> unchanged(this, registry)
      ensures !old(running) ==>
                && registry.callback == Some(callback)
                && registry.registeredKeys == Some(watchSet)
                && running == (install != 0)
                && threadHandle == Some(if install != 0 then Pumping else Exited)
                && registry.hhook == (if install != 0 then Some(install) else old(registry.hhook))
                && registry.osHook == (if install != 0 then Some(install) else old(registry.osHook))
      ensures old(Valid()) ==> Valid()
    {
      if running {
        return Ok(());
      }
      running := true;
      registry.callback := Some(callback);
      registry.registeredKeys := Some(watchSet);
      // The pump thread: install the hook, or give up and clear the flag.
      if install == 0 {
        running := false;
        threadHandle := Some(Exited);
      } else {
        registry.osHook := Some(install);
        registry.hhook := Some(install);
        threadHandle := Some(Pumping);
      }
      return Ok(());
    }

    /**
     * The pump thread's message loop ends on its own (`GetMessageA` returned
     * 0 or -1): the thread unhooks and returns, and `running` stays set.
     */
    method PumpLoopEnds()
      modifies this, registry
      ensures old(threadHandle) == Some(Pumping) ==>
                && threadHandle == Some(Exited)
                && registry.osHook == (if registry.hhook.Some? && old(registry.osHook) == registry.hhook
                                       then None else old(registry.osHook))
      ensures old(threadHandle) != Some(Pumping) ==> threadHandle == old(threadHandle) && registry.osHook == old(registry.osHook)
      ensures running == old(running)
      ensures registry.callback == old(registry.callback) && registry.hhook == old(registry.hhook)
      ensures registry.registeredKeys == old(registry.registeredKeys)
      ensures old(Valid()) ==> Valid()
    {
      if threadHandle == Some(Pumping) {
        Unhook();
        threadHandle := Some(Exited);
      }
    }

    /** The pump thread's exit path: `UnhookWindowsHookEx` on `HHOOK` when it is set. */
    method Unhook()
      modifies registry`osHook
      ensures registry.osHook == (if registry.hhook.Some? && old(registry.osHook) == registry.hhook
                                  then None else old(registry.osHook))
    {
      if registry.hhook.Some? && registry.osHook == registry.hhook {
        registry.osHook := None;
      }
    }

    /**
     * `stop`: clear the flag, join the pump thread (which leaves its loop and
     * unhooks), then clear all three statics.
     */
    method Stop()
      modifies this, registry
      ensures Stopped()
      ensures registry.osHook == (if old(threadHandle) == Some(Pumping) && old(registry.hhook).Some?
                                     && old(registry.osHook) == old(registry.hhook)
                                  then None else old(registry.osHook))
      ensures old(Valid()) ==> Valid() && registry.osHook.None?
    {
      running := false;
      if threadHandle.Some? {
        if threadHandle.value == Pumping {
          Unhook();
        }
        threadHandle := None;
      }
      registry.callback := None;
      registry.hhook := None;
      registry.registeredKeys := None;
    }

    /** `Drop::drop`: stop, whatever the state. */
    method Drop()
      modifies this, registry
      ensures Stopped()
      ensures registry.osHook == (if old(threadHandle) == Some(Pumping) && old(registry.hhook).Some?
                                     && old(registry.osHook) == old(registry.hhook)
                                  then None else old(registry.osHook))
      ensures old(Valid()) ==> Valid() && registry.osHook.None?
    {
      Stop();
    }
  }

  /**
   * While a valid controller has a thread, the hook procedure filters by the
   * controller's own key set as it is now, including keys registered after start.
   */
  lemma BoundHookFiltersByOwnKeys(h: KeyboardHook, n: Notification)
    requires h.Valid() && h.threadHandle.Some?
    ensures h.registry.HookProc(n).delivered.Some? <==>
              n.code == HC_ACTION && Watched(h.watchSet.keys, n.vk) && Transition(n.wparam).Some?
  {
  }

  /**
   * Registering A and then notifying A fires the callback; after unregistering A
   * it fires again, because the watch set is empty again and passes every key.
   * With B still registered, unregistering A does stop A.
   */
  method UnregisterScenario() returns (firedAfterRegister: bool, firedAfterOnlyKeyRemoved: bool, firedWithOtherKeyLeft: bool)
    ensures firedAfterRegister && firedAfterOnlyKeyRemoved && !firedWithOtherKeyLeft
  {
    var registry := new Registry();
    var hook := new KeyboardHook(registry);
    var downA := Notification(HC_ACTION, WM_KEYDOWN, VK_A);
    var _ := hook.Start(e => e, 1);
    hook.RegisterKey(VK_A);
    firedAfterRegister := registry.HookProc(downA).delivered.Some?;
    hook.UnregisterKey(VK_A);
    firedAfterOnlyKeyRemoved := registry.HookProc(downA).delivered.Some?;
    hook.RegisterKey(VK_A);
    hook.RegisterKey(VK_B);
    hook.UnregisterKey(VK_A);
    firedWithOtherKeyLeft := registry.HookProc(downA).delivered.Some?;
  }

  /**
   * A second controller that is created and dropped without ever starting
   * clears the statics of a running one: its keys stop reaching the callback,
   * and it still reports itself running.
   */
  method IdleDropScenario() returns (firedBefore: bool, firedAfter: bool, stillRunning: bool)
    ensures firedBefore && !firedAfter && stillRunning
  {
    var registry := new Registry();
    var first := new KeyboardHook(registry);
    var downSpace := Notification(HC_ACTION, WM_KEYDOWN, VK_SPACE);
    var _ := first.Start(e => e, 1);
    firedBefore := registry.HookProc(downSpace).delivered.Some?;
    var second := new KeyboardHook(registry);
    second.Drop();
    firedAfter := registry.HookProc(downSpace).delivered.Some?;
    stillRunning := first.running;
  }
}
