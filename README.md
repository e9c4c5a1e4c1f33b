# Global keyboard hook of QuickLook-RS, modelled in Dafny

This project models the Windows low-level keyboard hook in `src/keyhook/win.rs`.
The hook has three parts:

- **The watch set.** It is a set of virtual-key codes. The controller and the OS-invoked hook procedure share it. An empty set means "every key".
- **The hook procedure.** `keyboard_hook_proc` decides, for each keyboard notification, whether the user callback sees it and whether the notification goes on down the hook chain.
- **The controller.** `KeyboardHook` starts and stops the pump thread and publishes or retracts the process-wide statics `HOOK_CALLBACK`, `HHOOK` and `REGISTERED_KEYS`.

Files:

- `wrappers.dfy`: `Option` and `Result`.
- `win32.dfy`: the machine integer widths, the Win32 constants (`HC_ACTION` = 0, `WM_KEYDOWN` = 0x100, `WM_KEYUP` = 0x101, plus a few virtual-key codes) and the truncating `usize` to `u32` cast.
- `event.dfy`: `KeyHookEvent`, `ElementState`, `RegisterError`, and the callback type.
- `dispatch.dfy`: the hook procedure as a pure function of a notification and the published binding. Also the stream of events the callback receives, and the lemmas about it.
- `keyhook.dfy`: the classes `WatchSet` (the shared `Arc<Mutex<HashSet<u32>>>`), `Registry` (the three statics) and `KeyboardHook`.

How the OS and the callback are abstracted:

- The callback is modelled by what it does to the event it is handed: a function from event to event. Because the source hands it a clone, the procedure as written never looks at what comes back.
- `SetWindowsHookExA` becomes a parameter of `Start`: the handle value it returns, where 0 means failure. The pump thread's start-up (install, or clear `running` and return) happens atomically inside `Start`.
- The message loop ending on its own (`GetMessageA` returning 0 or -1) is a separate step, `PumpLoopEnds`.
- `Registry.osHook` is a ghost slot. It records which hook the OS currently has in its chain. It lets the model state that stopping a consistent controller leaves no native hook behind.

Where the source and its design description disagree, the model follows the source:

- `start` returns `Ok(())` even when installation fails. `RegisterError::HookFailed` is never produced. A failed install only clears `running`, and the callback and key set stay published.
- `start` on a controller whose message loop has ended on its own is a no-op, because `running` is still true.
- Removing the only watched key empties the set, and an empty set passes every key. So after `unregister_key(A)` the callback still fires for A (`UnregisterScenario`).
- Nothing guards the single process-wide slot. A second controller that is merely created and dropped clears the statics of a running one (`IdleDropScenario`).

## Model

| member | source | states |
|---|---|---|
| Win32.AsU32 | src/keyhook/win.rs:168 | `wparam.0 as u32` keeps the low 32 bits: values that fit are unchanged, and the result is congruent to the input modulo 2^32 |
| Dispatch.Transition | src/keyhook/win.rs:168-172 | the message maps to `Pressed` exactly when its truncated value is `WM_KEYDOWN`, and to `Released` exactly when it is `WM_KEYUP`; any other message maps to nothing |
| Dispatch.Decide | src/keyhook/win.rs:155-191 | the callback receives an event iff the code is `HC_ACTION`, both statics are set, the key set is empty or holds `vkCode`, and the message is key-down or key-up; the event carries `vkCode`, the matching state and `handled == false`; the verdict is always Forward, because the callback gets a clone |
| Dispatch.DecideConsuming | src/keyhook/win.rs:180-185 | corrected procedure: it delivers exactly what `Decide` delivers, and it swallows iff the notification qualifies and the callback marks its event handled |
| Dispatch.HandledFlagIsLostOnClone | src/keyhook/win.rs:174-185 | for a callback that sets `handled` on a watched key-down, the procedure as written forwards it, while the corrected one swallows it |
| Dispatch.Deliveries | src/keyhook/win.rs:155-191 | over a stream of notifications, the callback receives at most one event per notification; every event is unhandled and its key passes the published filter |
| Dispatch.DeliveriesAppend | src/keyhook/win.rs:155-191 | delivery is per notification: the events for a concatenated stream are the events for each part, concatenated |
| Dispatch.NoneQualifyingDeliversNothing | src/keyhook/win.rs:156-172 | if no notification in a stream qualifies, the callback is never invoked |
| Dispatch.AllQualifyingDeliversAll | src/keyhook/win.rs:162-180 | if every notification qualifies, the callback receives one event per notification, in order, each built from its notification |
| Dispatch.WatchOneKeyScenario | src/keyhook/win.rs:161-178 | with watch set {A}, the stream key-down A, key-down B, key-up A delivers exactly A pressed then A released |
| KeyHook.WatchSet.constructor | src/keyhook/win.rs:62 | a new key set is empty |
| KeyHook.Registry.constructor | src/keyhook/win.rs:53-55 | the three statics start as None, and no native hook is installed |
| KeyHook.Registry.HookProc | src/keyhook/win.rs:155-191 | against the current statics, the procedure delivers iff the code, both slots, the current contents of the shared key set, and the message allow it; it always forwards |
| KeyHook.KeyboardHook.constructor | src/keyhook/win.rs:59-65 | a new controller is not running, has an empty fresh key set and no thread handle, and is consistent with an unbound registry |
| KeyHook.KeyboardHook.RegisterKey | src/keyhook/win.rs:68-71 | the key set becomes old ∪ {k}; it is unchanged when k was already present; nothing else changes |
| KeyHook.KeyboardHook.UnregisterKey | src/keyhook/win.rs:74-77 | the key set becomes old \ {k}; it is unchanged when k was absent; nothing else changes |
| KeyHook.KeyboardHook.Start | src/keyhook/win.rs:80-130 | always returns `Ok`; while running it changes nothing, statics included; otherwise it publishes the callback and the shared key set and stores a thread handle; on install failure `running` ends false and `HHOOK` stays as it was; on success `HHOOK` and the OS chain hold the new hook; consistency is preserved |
| KeyHook.KeyboardHook.PumpLoopEnds | src/keyhook/win.rs:114-126 | when the message loop ends on its own, the thread unhooks `HHOOK` and exits; `running` and all three statics are left as they were |
| KeyHook.KeyboardHook.Unhook | src/keyhook/win.rs:123-125 | the hook named by `HHOOK`, if set, is removed from the OS chain |
| KeyHook.KeyboardHook.Stop | src/keyhook/win.rs:133-145 | from any state it ends not running, with no thread handle and all three statics None, so a second stop changes nothing; a pumping thread unhooks before the statics are cleared; from a consistent state no native hook remains |
| KeyHook.KeyboardHook.Drop | src/keyhook/win.rs:148-152 | dropping a controller has exactly the effect of `stop` |
| KeyHook.BoundHookFiltersByOwnKeys | src/keyhook/win.rs:157-165 | while a consistent controller has a thread, the procedure delivers iff the code, the message and the controller's current key set allow it, including keys registered after start |
| KeyHook.UnregisterScenario | src/keyhook/win.rs:68-77 | after start, registering A makes A fire; unregistering A when it was the only key leaves A still firing; with B also registered, unregistering A stops A |
| KeyHook.IdleDropScenario | src/keyhook/win.rs:133-152 | dropping a never-started second controller clears the statics of a running one: its key stops firing, and it still reports itself running |

## Findings

| source | as written | input that shows it | evidently intended | confidence | as-written member | corrected member |
|---|---|---|---|---|---|---|
| src/keyhook/win.rs:180-185 | the callback gets `event.clone()`, and the procedure then reads its own `event.handled`, which is always false, so `LRESULT(1)` is unreachable | a callback that sets `handled = true` on a key-down of a watched key | such a notification is swallowed, as the comment at line 183 says | high; not executed | Dispatch.HandledFlagIsLostOnClone | Dispatch.DecideConsuming |

`Registry.HookProc` keeps the procedure as written (`Decide`), because that is what the hook does today. `DecideConsuming` is the corrected procedure. Its swallow condition is proved, and it delivers the same events as `Decide`. In Rust the fix needs a callback that can hand the flag back, for example `Fn(&mut KeyHookEvent)`.

## Left out

- Threads, `Mutex` and `AtomicBool`: the model is single-threaded, and each step is atomic. Data races, cross-thread visibility, and a key removed while a notification is in flight cannot be expressed.
- The liveness of `stop`: `GetMessageA` blocks until some message arrives, so the join can wait for an unrelated keypress. The model treats the join as completing.
- The hook chain and native handles: `CallNextHookEx` is the Forward verdict, and `LRESULT(1)` is the Swallow verdict.
- `GetModuleHandleA(...).expect(...)` and a poisoned mutex's `unwrap()`: both are panics and are not modelled.
- Reading `vkCode` through the LPARAM pointer: it is a parameter of the notification.
- The callback's own effects: only what it leaves in the event it is handed is modelled.
- The join handle of a failed earlier start is overwritten by the next start, which detaches a thread that has already returned. The model simply replaces it.
- KeyHook.KeyboardHook.Valid: it assumes that this controller is the only one that starts or stops. With two controllers the statics are shared and no consistency holds (see `IdleDropScenario`).
- `src/main.rs` (window, tray and event-loop wiring) and `src/whatSelect.rs` (a COM shell query) are not part of this model.
