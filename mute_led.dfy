/** The mute indicator of `src/mute_led.rs`: an On/Off status cell kept in
    step with the level of the LED pin. */
module MuteLeds {
  import opened Machine

  datatype LedStatus = On | Off

  /** The status cell and the pin level. */
  datatype MuteLedState = MuteLedState(status: LedStatus, level: Level)

  /** `MuteLed::new`: status Off, pin driven low. */
  const INITIAL: MuteLedState := MuteLedState(Off, Low)

  /** The stored status agrees with the pin level. */
  predicate Agrees(s: MuteLedState)
  {
    s.status == On <==> s.level == High
  }

  /** A call of `set_led_on` or `set_led_off`. */
  datatype Command = SetOn | SetOff

  /** The state a setter leaves, whatever the state before. */
  function Apply(s: MuteLedState, c: Command): (t: MuteLedState)
    ensures Agrees(t)
    ensures t.status == (if c == SetOn then On else Off)
  {
    match c
    case SetOn => MuteLedState(On, High)
    case SetOff => MuteLedState(Off, Low)
  }

  function ApplyAll(s: MuteLedState, cs: seq<Command>): MuteLedState
    decreases |cs|
  {
    if cs == [] then s else ApplyAll(Apply(s, cs[0]), cs[1..])
  }

  /** After any sequence of setter calls from `new`, status and pin agree,
      and the last setter decides the status. */
  lemma {:induction false} ApplyAllAgrees(s: MuteLedState, cs: seq<Command>)
    requires Agrees(s)
    ensures Agrees(ApplyAll(s, cs))
    ensures cs != [] ==> ApplyAll(s, cs) == Apply(s, cs[|cs| - 1])
    ensures cs == [] ==> ApplyAll(s, cs) == s
    decreases |cs|
  {
    if cs != [] {
      ApplyAllAgrees(Apply(s, cs[0]), cs[1..]);
    }
  }

  /** Each setter is idempotent. */
  lemma SetterIdempotent(s: MuteLedState, c: Command)
    ensures Apply(Apply(s, c), c) == Apply(s, c)
  {
  }

  class MuteLed {
    var ledState: LedStatus
    var level: Level

    function State(): MuteLedState
      reads this
    {
      MuteLedState(ledState, level)
    }

    /** `MuteLed::new`. */
    constructor ()
      ensures State() == INITIAL
    {
      level := Low;
      ledState := Off;
    }

    /** `set_led_on`. */
    method SetLedOn()
      modifies this
      ensures State() == Apply(old(State()), SetOn)
    {
      ledState := On;
      level := High;
    }

    /** `set_led_off`. */
    method SetLedOff()
      modifies this
      ensures State() == Apply(old(State()), SetOff)
    {
      ledState := Off;
      level := Low;
    }

    /** `get_led_status`: reads the status cell. */
    method GetLedStatus() returns (status: LedStatus)
      ensures status == ledState
    {
      status := ledState;
    }
  }
}
