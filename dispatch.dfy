/**
 * The decision `keyboard_hook_proc` takes on each low-level keyboard
 * notification, over the process-wide binding it reads.
 */
module Dispatch {
  import opened Wrappers
  import opened Win32
  import opened KeyEvent

  /** What the hook procedure returns: `CallNextHookEx` or `LRESULT(1)`. */
  datatype Verdict = Forward | Swallow

  /** The event handed to the callback, if any, and the verdict returned to the OS. */
  datatype Outcome = Outcome(delivered: Option<KeyHookEvent>, verdict: Verdict)

  /** The values of `HOOK_CALLBACK` and `REGISTERED_KEYS` at the time of a notification. */
  datatype Binding = Binding(callback: Option<Callback>, keys: Option<set<u32>>)

  /** One notification: the hook code, the message in WPARAM and `vkCode` behind LPARAM. */
  datatype Notification = Notification(code: i32, wparam: usize, vk: u32)

  /** The filter: an empty watch set lets every key through. */
  predicate Watched(keys: set<u32>, vk: u32) {
    keys == {} || vk in keys
  }

  /** The key transition named by WPARAM, or None for any other message. */
  function Transition(wparam: usize): (s: Option<ElementState>)
    ensures s == Some(Pressed) <==> AsU32(wparam) == WM_KEYDOWN
    ensures s == Some(Released) <==> AsU32(wparam) == WM_KEYUP
  {
    var m := AsU32(wparam);
    if m == WM_KEYDOWN then Some(Pressed)
    else if m == WM_KEYUP then Some(Released)
    else None
  }

  /** The conditions under which the callback is invoked. */
  predicate Qualifies(n: Notification, b: Binding) {
    && n.code == HC_ACTION
    && b.callback.Some?
    && b.keys.Some?
    && Watched(b.keys.value, n.vk)
    && Transition(n.wparam).Some?
  }

  /** The fresh event built for a qualifying notification. */
  function EventFor(n: Notification): KeyHookEvent
    requires Transition(n.wparam).Some?
  {
    KeyHookEvent(n.vk, Transition(n.wparam).value, false)
  }

  const Pass := Outcome(None, Forward)

  /**
   * The hook procedure as written: the callback is handed a clone of the
   * event, so the flag read back afterwards is the local one.
   */
  function Decide(n: Notification, b: Binding): (r: Outcome)
    ensures r.verdict == Forward
    ensures r.delivered.Some? <==> Qualifies(n, b)
    ensures Qualifies(n, b) ==> r.delivered == Some(EventFor(n))
  {
    if n.code != HC_ACTION then Pass
    else if b.callback.None? || b.keys.None? then Pass
    else if !Watched(b.keys.value, n.vk) then Pass
    else match Transition(n.wparam)
      case None => Pass
      case Some(state) =>
        var event := KeyHookEvent(n.vk, state, false);
        var callbacksCopy := b.callback.value(event);
        Outcome(Some(event), if event.handled then Swallow else Forward)
  }

  /**
   * The hook procedure as its comment intends: the callback works on the
   * event itself, and a `handled` flag it sets stops the notification.
   */
  function DecideConsuming(n: Notification, b: Binding): (r: Outcome)
    ensures r.delivered == Decide(n, b).delivered
    ensures r.verdict == Swallow <==> Qualifies(n, b) && b.callback.value(EventFor(n)).handled
  {
    if n.code != HC_ACTION then Pass
    else if b.callback.None? || b.keys.None? then Pass
    else if !Watched(b.keys.value, n.vk) then Pass
    else match Transition(n.wparam)
      case None => Pass
      case Some(state) =>
        var event := KeyHookEvent(n.vk, state, false);
        var afterCallback := b.callback.value(event);
        Outcome(Some(event), if afterCallback.handled then Swallow else Forward)
  }

  /**
   * A callback that marks every event handled: the code as written still
   * forwards the key, the intended behaviour swallows it.
   */
  lemma HandledFlagIsLostOnClone()
    ensures var b := Binding(Some((e: KeyHookEvent) => e.(handled := true)), Some({VK_SPACE}));
            var n := Notification(HC_ACTION, WM_KEYDOWN, VK_SPACE);
            && Decide(n, b) == Outcome(Some(KeyHookEvent(VK_SPACE, Pressed, false)), Forward)
            && DecideConsuming(n, b).verdict == Swallow
  {
  }

  /** The events the callback receives over a stream of notifications, in order. */
  function Deliveries(ns: seq<Notification>, b: Binding): (r: seq<KeyHookEvent>)
    ensures |r| <= |ns|
    ensures forall e | e in r :: !e.handled && b.keys.Some? && Watched(b.keys.value, e.virtualKey)
  {
    if ns == [] then []
    else
      match Decide(ns[0], b).delivered
      case Some(e) => [e] + Deliveries(ns[1..], b)
      case None => Deliveries(ns[1..], b)
  }

  /** Delivery is per notification: a stream splits into its parts. */
  lemma {:induction false} DeliveriesAppend(xs: seq<Notification>, ys: seq<Notification>, b: Binding)
    ensures Deliveries(xs + ys, b) == Deliveries(xs, b) + Deliveries(ys, b)
  {
    if xs != [] {
      assert (xs + ys)[1..] == xs[1..] + ys;
      DeliveriesAppend(xs[1..], ys, b);
    } else {
      assert xs + ys == ys;
    }
  }

  /** A stream in which no notification qualifies reaches the callback not at all. */
  lemma {:induction false} NoneQualifyingDeliversNothing(ns: seq<Notification>, b: Binding)
    requires forall i | 0 <= i < |ns| :: !Qualifies(ns[i], b)
    ensures Deliveries(ns, b) == []
  {
    if ns != [] {
      NoneQualifyingDeliversNothing(ns[1..], b);
    }
  }

  /** A stream in which every notification qualifies reaches the callback whole, in order. */
  lemma {:induction false} AllQualifyingDeliversAll(ns: seq<Notification>, b: Binding)
    requires forall i {:trigger ns[i]} | 0 <= i < |ns| :: Qualifies(ns[i], b)
    ensures |Deliveries(ns, b)| == |ns|
    ensures forall i | 0 <= i < |ns| :: Qualifies(ns[i], b) ==> Deliveries(ns, b)[i] == EventFor(ns[i])
  {
    if ns != [] {
      AllQualifyingDeliversAll(ns[1..], b);
    }
  }

  /**
   * With watch set {A}: key-down A, key-down B, key-up A reach the callback as
   * A pressed then A released; B is never seen.
   */
  lemma WatchOneKeyScenario(callback: Callback)
    ensures var b := Binding(Some(callback), Some({VK_A}));
            Deliveries([Notification(HC_ACTION, WM_KEYDOWN, VK_A),
                        Notification(HC_ACTION, WM_KEYDOWN, VK_B),
                        Notification(HC_ACTION, WM_KEYUP, VK_A)], b)
            == [KeyHookEvent(VK_A, Pressed, false), KeyHookEvent(VK_A, Released, false)]
  {
    var b := Binding(Some(callback), Some({VK_A}));
    var ns := [Notification(HC_ACTION, WM_KEYDOWN, VK_A),
               Notification(HC_ACTION, WM_KEYDOWN, VK_B),
               Notification(HC_ACTION, WM_KEYUP, VK_A)];
    assert Deliveries(ns[2..], b) == [KeyHookEvent(VK_A, Released, false)] by {
      assert Qualifies(ns[2], b);
      assert ns[2..][1..] == [];
    }
    assert Deliveries(ns[1..], b) == Deliveries(ns[2..], b) by {
      assert !Qualifies(ns[1], b);
      assert ns[1..][1..] == ns[2..];
    }
    assert Qualifies(ns[0], b);
  }
}
