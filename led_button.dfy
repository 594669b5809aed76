/** The mute button with its LED, `src/led_button.rs`: a falling edge on the
    button toggles `led_state`, drives the LED to match, disables the
    button's interrupt and arms a one-shot timer whose callback enables the
    interrupt again, so that contact bounce inside the window is ignored. */
module LedButtons {
  import opened Machine

  /** `led_state`, the LED pin level, the button's interrupt and its timer. */
  datatype ButtonState = ButtonState(ledState: bool, led: Level, interruptEnabled: bool, timer: Timer)

  /** `LedButton::new`: LED off and driven low, interrupt enabled. */
  const INITIAL: ButtonState := ButtonState(false, Low, true, Idle)

  /** The LED level and `led_state` agree. */
  predicate Consistent(s: ButtonState)
  {
    s.led == High <==> s.ledState
  }

  /** `callback_button`: the stored state flips, the LED shows the new state,
      the interrupt is disabled and the timer armed for `window`. */
  function AfterPress(s: ButtonState, window: Micros): (t: ButtonState)
    ensures t.ledState == !s.ledState
    ensures Consistent(t)
    ensures !t.interruptEnabled && t.timer == Armed(window)
  {
    ButtonState(!s.ledState, if s.ledState then Low else High, false, Armed(window))
  }

  /** `callback_timer`: the interrupt is enabled again, nothing else changes. */
  function AfterTimer(s: ButtonState): (t: ButtonState)
    ensures t.interruptEnabled && t.timer == Idle
    ensures t.ledState == s.ledState && t.led == s.led
  {
    s.(interruptEnabled := true, timer := Idle)
  }

  /** A falling edge on the button, or the firing of the timer. */
  datatype Event = Press | Fire

  /** An edge reaches `callback_button` only while the interrupt is enabled,
      and the timer fires only when armed. */
  function Step(s: ButtonState, e: Event, window: Micros): ButtonState
  {
    match e
    case Press => if s.interruptEnabled then AfterPress(s, window) else s
    case Fire => if s.timer.Armed? then AfterTimer(s) else s
  }

  function Run(s: ButtonState, events: seq<Event>, window: Micros): ButtonState
    decreases |events|
  {
    if events == [] then s else Run(Step(s, events[0], window), events[1..], window)
  }

  /** The number of edges among `events` that toggled the LED. */
  function Toggles(s: ButtonState, events: seq<Event>, window: Micros): nat
    decreases |events|
  {
    if events == [] then 0
    else
      var toggled := if events[0] == Press && s.interruptEnabled then 1 else 0;
      toggled + Toggles(Step(s, events[0], window), events[1..], window)
  }

  /** Two handled edges restore `led_state` and the LED level. */
  lemma PressTwice(s: ButtonState, window: Micros)
    requires Consistent(s)
    ensures AfterPress(AfterTimer(AfterPress(s, window)), window) == s.(interruptEnabled := false, timer := Armed(window))
  {
  }

  /** Every event keeps the LED level in step with `led_state`, and the
      stored state has flipped once per toggle. */
  lemma {:induction false} RunConsistent(s: ButtonState, events: seq<Event>, window: Micros)
    requires Consistent(s)
    ensures Consistent(Run(s, events, window))
    ensures Run(s, events, window).ledState == (if Toggles(s, events, window) % 2 == 0 then s.ledState else !s.ledState)
    decreases |events|
  {
    if events != [] {
      RunConsistent(Step(s, events[0], window), events[1..], window);
    }
  }

  /** From `LedButton::new`, the LED is on exactly after an odd number of toggles. */
  lemma LedOnAfterOddToggles(events: seq<Event>, window: Micros)
    ensures Run(INITIAL, events, window).ledState <==> Toggles(INITIAL, events, window) % 2 == 1
    ensures Run(INITIAL, events, window).led == High <==> Toggles(INITIAL, events, window) % 2 == 1
  {
    RunConsistent(INITIAL, events, window);
  }

  /** Without the timer firing, at most one edge toggles the LED, and one
      does exactly when the interrupt was enabled and an edge came. */
  lemma {:induction false} OneToggleUntilTimer(s: ButtonState, events: seq<Event>, window: Micros)
    requires forall i :: 0 <= i < |events| ==> events[i] == Press
    ensures Toggles(s, events, window) == (if s.interruptEnabled && events != [] then 1 else 0)
    decreases |events|
  {
    if events != [] {
      var t := Step(s, events[0], window);
      assert !t.interruptEnabled;
      OneToggleUntilTimer(t, events[1..], window);
    }
  }

  class LedButton {
    var ledState: bool
    var led: Level
    var interruptEnabled: bool
    var timer: Timer
    const debounceDuration: Micros

    function State(): ButtonState
      reads this
    {
      ButtonState(ledState, led, interruptEnabled, timer)
    }

    /** `LedButton::new`. */
    constructor (debounceDuration: Micros)
      ensures State() == INITIAL
      ensures this.debounceDuration == debounceDuration
    {
      this.debounceDuration := debounceDuration;
      led := Low;
      interruptEnabled := true;
      ledState := false;
      timer := Idle;
    }

    /** `callback_button`. */
    method CallbackButton()
      modifies this
      ensures State() == AfterPress(old(State()), debounceDuration)
    {
      interruptEnabled := false;
      var current := ledState;
      ledState := !current;
      led := if current then Low else High;
      timer := Armed(debounceDuration);
    }

    /** `callback_timer`. */
    method CallbackTimer()
      modifies this
      ensures State() == AfterTimer(old(State()))
    {
      interruptEnabled := true;
      timer := Idle;
    }

    /** The GPIO driver and the timer service: a callback runs only when its
        interrupt is enabled or its timer armed. */
    method Deliver(e: Event)
      modifies this
      ensures State() == Step(old(State()), e, debounceDuration)
    {
      match e {
        case Press =>
          if interruptEnabled {
            CallbackButton();
          }
        case Fire =>
          if timer.Armed? {
            CallbackTimer();
          }
      }
    }

    /** `is_led_on`: reads `led_state`. */
    method IsLedOn() returns (on: bool)
      ensures on == ledState
    {
      on := ledState;
    }
  }
}
