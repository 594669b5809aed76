/** The rotary encoder of `src/encoder.rs`: a shared position counter moved
    by the interrupt handlers of the two quadrature lines A and B. Each
    handler disables its own line's interrupt, moves the position by the
    decoded direction, reports the new position and arms its own one-shot
    timer, whose callback re-enables the line.

    The direction is what `Rotary::update` decodes from the pin levels; that
    library is not part of this model, so the direction is an input. */
module Encoding {
  import opened Machine

  /** What `Rotary::update` reports for one edge. */
  datatype Direction = Clockwise | CounterClockwise | None

  /** The two quadrature lines. */
  datatype Line = A | B

  /** How far one decoded direction moves the position (before wrapping). */
  function Delta(d: Direction): int
  {
    match d
    case Clockwise => 1
    case CounterClockwise => -1
    case None => 0
  }

  /** The encoder's state: the position counter and, per line, whether its
      interrupt is enabled and its re-enable timer. */
  datatype EncoderState = EncoderState(
    position: Int32,
    enabledA: bool, enabledB: bool,
    timerA: Timer, timerB: Timer)

  /** `Encoder::new`: position 0, both interrupts enabled, no timer armed. */
  const INITIAL: EncoderState := EncoderState(0, true, true, Idle, Idle)

  function Other(line: Line): Line
  {
    if line == A then B else A
  }

  function Enabled(s: EncoderState, line: Line): bool
  {
    if line == A then s.enabledA else s.enabledB
  }

  function TimerOf(s: EncoderState, line: Line): Timer
  {
    if line == A then s.timerA else s.timerB
  }

  /** The state after the handler of `line` ran for an edge decoded as `dir`:
      the position moves by `dir` with `i32` wrap-around, and only that
      line's interrupt and timer change. */
  function AfterEdge(s: EncoderState, line: Line, dir: Direction, window: Micros): (t: EncoderState)
    ensures t.position == WrapI32(s.position + Delta(dir))
    ensures !Enabled(t, line) && TimerOf(t, line) == Armed(window)
    ensures Enabled(t, Other(line)) == Enabled(s, Other(line))
    ensures TimerOf(t, Other(line)) == TimerOf(s, Other(line))
  {
    var p := WrapI32(s.position + Delta(dir));
    match line
    case A => s.(position := p, enabledA := false, timerA := Armed(window))
    case B => s.(position := p, enabledB := false, timerB := Armed(window))
  }

  /** The state after the timer of `line` fired: that line's interrupt is
      enabled again, and nothing else changes. */
  function AfterTimer(s: EncoderState, line: Line): (t: EncoderState)
    ensures t.position == s.position
    ensures Enabled(t, line) && TimerOf(t, line) == Idle
    ensures Enabled(t, Other(line)) == Enabled(s, Other(line))
    ensures TimerOf(t, Other(line)) == TimerOf(s, Other(line))
  {
    match line
    case A => s.(enabledA := true, timerA := Idle)
    case B => s.(enabledB := true, timerB := Idle)
  }

  /** What the GPIO driver and the timer service deliver: an edge on a line
      (decoded as a direction), or the firing of a line's timer. */
  datatype Event = Edge(line: Line, dir: Direction) | Fire(line: Line)

  /** An edge reaches its handler only while its line's interrupt is enabled,
      and a timer fires only when armed. */
  function Step(s: EncoderState, e: Event, window: Micros): EncoderState
  {
    match e
    case Edge(line, dir) => if Enabled(s, line) then AfterEdge(s, line, dir, window) else s
    case Fire(line) => if TimerOf(s, line).Armed? then AfterTimer(s, line) else s
  }

  function Run(s: EncoderState, events: seq<Event>, window: Micros): EncoderState
    decreases |events|
  {
    if events == [] then s else Run(Step(s, events[0], window), events[1..], window)
  }

  /** The event itself if it is an edge whose handler runs, else nothing. */
  function HandledEdge(s: EncoderState, e: Event): seq<Event>
  {
    if e.Edge? && Enabled(s, e.line) then [e] else []
  }

  /** The edges among `events` whose handler ran, in order. */
  function Handled(s: EncoderState, events: seq<Event>, window: Micros): (h: seq<Event>)
    ensures forall i :: 0 <= i < |h| ==> h[i].Edge?
    decreases |events|
  {
    if events == [] then []
    else HandledEdge(s, events[0]) + Handled(Step(s, events[0], window), events[1..], window)
  }

  /** The positions passed to the on-change callback, in order. */
  function Reported(s: EncoderState, events: seq<Event>, window: Micros): seq<Int32>
    decreases |events|
  {
    if events == [] then []
    else
      var e := events[0];
      var t := Step(s, e, window);
      (if e.Edge? && Enabled(s, e.line) then [t.position] else [])
        + Reported(t, events[1..], window)
  }

  /** The number of handled edges decoded as `d`. */
  function Count(edges: seq<Event>, d: Direction): nat
    decreases |edges|
  {
    if edges == [] then 0
    else (if edges[0].Edge? && edges[0].dir == d then 1 else 0) + Count(edges[1..], d)
  }

  /** How far the handled edges among `events` move the position, summed
      before wrapping. */
  function Moves(s: EncoderState, events: seq<Event>, window: Micros): int
    decreases |events|
  {
    if events == [] then 0
    else
      var e := events[0];
      (if e.Edge? && Enabled(s, e.line) then Delta(e.dir) else 0) + Moves(Step(s, e, window), events[1..], window)
  }

  /** After any sequence of events the position has moved by the number of
      clockwise handled edges minus the number of counter-clockwise ones,
      modulo `i32` wrap-around. */
  lemma RunPosition(s: EncoderState, events: seq<Event>, window: Micros)
    ensures Run(s, events, window).position == WrapI32(s.position + Net(Handled(s, events, window)))
  {
    RunMoves(s, events, window);
    MovesNet(s, events, window);
  }

  /** The position after a run is the start moved by `Moves`, wrapped once. */
  lemma {:induction false} RunMoves(s: EncoderState, events: seq<Event>, window: Micros)
    ensures Run(s, events, window).position == WrapI32(s.position + Moves(s, events, window))
    decreases |events|
  {
    if events != [] {
      var e := events[0];
      var t := Step(s, e, window);
      var d := if e.Edge? && Enabled(s, e.line) then Delta(e.dir) else 0;
      assert t.position == WrapI32(s.position + d);
      RunMoves(t, events[1..], window);
      WrapChain(s.position, d, Moves(t, events[1..], window),
        t.position, Run(s, events, window).position, Moves(s, events, window));
    }
  }

  /** `Moves` is clockwise minus counter-clockwise handled edges. */
  lemma {:induction false} MovesNet(s: EncoderState, events: seq<Event>, window: Micros)
    ensures Moves(s, events, window) == Net(Handled(s, events, window))
    decreases |events|
  {
    if events != [] {
      var e := events[0];
      var t := Step(s, e, window);
      MovesNet(t, events[1..], window);
      NetAppend(HandledEdge(s, e), Handled(t, events[1..], window));
      CountSingle(e, Clockwise);
      CountSingle(e, CounterClockwise);
    }
  }

  /** Clockwise minus counter-clockwise edges. */
  function Net(edges: seq<Event>): int
  {
    Count(edges, Clockwise) - Count(edges, CounterClockwise)
  }

  lemma NetAppend(a: seq<Event>, b: seq<Event>)
    ensures Net(a + b) == Net(a) + Net(b)
  {
    CountAppend(a, b, Clockwise);
    CountAppend(a, b, CounterClockwise);
  }

  /** Two wrapped moves in a row are one wrapped move by their sum. */
  lemma WrapChain(x: int, d: int, r: int, y: int, z: int, n: int)
    requires y == WrapI32(x + d) && z == WrapI32(y + r) && n == d + r
    ensures z == WrapI32(x + n)
  {
    WrapAdd(x + d, r);
    assert x + d + r == x + n;
  }

  lemma CountSingle(e: Event, d: Direction)
    ensures Count([e], d) == if e.Edge? && e.dir == d then 1 else 0
  {
    assert [e][1..] == [];
  }

  lemma {:induction false} CountAppend(a: seq<Event>, b: seq<Event>, d: Direction)
    ensures Count(a + b, d) == Count(a, d) + Count(b, d)
    decreases |a|
  {
    if a == [] {
      assert a + b == b;
    } else {
      assert (a + b)[1..] == a[1..] + b;
      CountAppend(a[1..], b, d);
    }
  }

  /** Starting from `Encoder::new`, the position is clockwise minus
      counter-clockwise handled edges (wrapping). */
  lemma PositionFromNew(events: seq<Event>, window: Micros)
    ensures Run(INITIAL, events, window).position == WrapI32(Net(Handled(INITIAL, events, window)))
  {
    RunPosition(INITIAL, events, window);
  }

  /** The on-change callback runs once per handled edge, `None` included, and
      the last position it received is the current one. */
  lemma {:induction false} ReportedPerHandledEdge(s: EncoderState, events: seq<Event>, window: Micros)
    ensures |Reported(s, events, window)| == |Handled(s, events, window)|
    ensures Reported(s, events, window) != [] ==>
      Reported(s, events, window)[|Reported(s, events, window)| - 1] == Run(s, events, window).position
    ensures Reported(s, events, window) == [] ==> Run(s, events, window).position == s.position
    decreases |events|
  {
    if events != [] {
      ReportedPerHandledEdge(Step(s, events[0], window), events[1..], window);
    }
  }

  /** While a line's interrupt is disabled and its timer does not fire, no
      edge on that line is handled, whatever happens on the other line. */
  lemma {:induction false} DisabledLineIgnored(s: EncoderState, line: Line, events: seq<Event>, window: Micros)
    requires !Enabled(s, line)
    requires forall i :: 0 <= i < |events| ==> events[i] != Fire(line)
    ensures forall i :: 0 <= i < |Handled(s, events, window)| ==> Handled(s, events, window)[i].line != line
    ensures !Enabled(Run(s, events, window), line)
    decreases |events|
  {
    if events != [] {
      var t := Step(s, events[0], window);
      assert !Enabled(t, line);
      DisabledLineIgnored(t, line, events[1..], window);
    }
  }

  /** One edge on each line is handled, a second edge on A before A's timer
      fires is ignored, and after the timer it counts again. */
  lemma ExampleTrace(window: Micros)
    ensures Run(INITIAL, [Edge(A, Clockwise), Edge(A, Clockwise), Edge(B, Clockwise),
                          Fire(A), Edge(A, CounterClockwise)], window)
      == EncoderState(1, false, false, Armed(window), Armed(window))
  {
  }

  class Encoder {
    var position: Int32
    var enabledA: bool
    var enabledB: bool
    var timerA: Timer
    var timerB: Timer
    /** The arguments of the on-change callback, oldest first. */
    var reported: seq<Int32>
    const debounceDuration: Micros

    function State(): EncoderState
      reads this
    {
      EncoderState(position, enabledA, enabledB, timerA, timerB)
    }

    /** `Encoder::new`: both lines' interrupts enabled, position 0. */
    constructor (debounceDuration: Micros)
      ensures State() == INITIAL && reported == []
      ensures this.debounceDuration == debounceDuration
    {
      this.debounceDuration := debounceDuration;
      position := 0;
      enabledA := true;
      enabledB := true;
      timerA := Idle;
      timerB := Idle;
      reported := [];
    }

    /** `callback_enc_gpio_a` / `callback_enc_gpio_b` for an edge decoded as `dir`. */
    method HandleEdge(line: Line, dir: Direction)
      modifies this
      ensures State() == AfterEdge(old(State()), line, dir, debounceDuration)
      ensures reported == old(reported) + [position]
    {
      if line == A { enabledA := false; } else { enabledB := false; }
      match dir {
        case Clockwise => position := WrapI32(position + 1);
        case CounterClockwise => position := WrapI32(position - 1);
        case None =>
      }
      reported := reported + [position];
      if line == A { timerA := Armed(debounceDuration); } else { timerB := Armed(debounceDuration); }
    }

    /** `callback_timer_a` / `callback_timer_b`. */
    method HandleTimer(line: Line)
      modifies this
      ensures State() == AfterTimer(old(State()), line)
      ensures reported == old(reported)
    {
      if line == A {
        enabledA := true;
        timerA := Idle;
      } else {
        enabledB := true;
        timerB := Idle;
      }
    }

    /** The GPIO driver and the timer service: an event runs its callback
        only if the line's interrupt is enabled or the timer is armed. */
    method Deliver(e: Event)
      modifies this
      ensures State() == Step(old(State()), e, debounceDuration)
      ensures reported == old(reported) + Reported(old(State()), [e], debounceDuration)
    {
      match e {
        case Edge(line, dir) =>
          if (if line == A then enabledA else enabledB) {
            HandleEdge(line, dir);
          }
        case Fire(line) =>
          if (if line == A then timerA else timerB).Armed? {
            HandleTimer(line);
          }
      }
    }

    /** `position()`: reads the counter. */
    method Position() returns (p: Int32)
      ensures p == position
    {
      p := position;
    }
  }
}
