/** The event model: one key transition handed to the user callback. */
module KeyEvent {
  import opened Win32

  /** Whether the key went down or came up. */
  datatype ElementState = Pressed | Released

  /** One key transition; `handled` asks the dispatcher not to forward it. */
  datatype KeyHookEvent = KeyHookEvent(virtualKey: u32, state: ElementState, handled: bool)

  /** The only error `start` declares. */
  datatype RegisterError = HookFailed

  /**
   * The user callback, seen through its one observable effect: given the event
   * it is handed, it yields that event as the callback leaves it (it may have
   * set `handled`). Its other effects are outside the hook.
   */
  type Callback = KeyHookEvent -> KeyHookEvent
}
