/** The reporting loop of `src/main.rs`: every tick, while a host is
    connected, a change of the mute button's LED state since the last tick
    is sent as one `toggle_mute`, and a change of the encoder position as one
    volume step, up or down by the sign of the change. `last_pos` and
    `last_mute_state` remember what was last reported. */
module Reporting {
  import opened Machine
  import Keyboard
  import Encoding
  import LedButtons

  /** A keyboard action issued by a tick. */
  datatype Action = ToggleMute | VolumeUp | VolumeDown

  /** The loop's locals `last_pos` and `last_mute_state`. */
  datatype LoopState = LoopState(lastPos: Int32, lastMuteState: bool)

  /** The locals after a tick, and the actions it issued in order. */
  datatype TickResult = TickResult(next: LoopState, actions: seq<Action>)

  /** What one tick reads: whether a host is connected, the encoder position
      and the LED state. */
  datatype TickInput = TickInput(connected: bool, pos: Int32, ledOn: bool)

  function MuteActions(s: LoopState, ledOn: bool): seq<Action>
  {
    if s.lastMuteState != ledOn then [ToggleMute] else []
  }

  function VolumeActions(s: LoopState, pos: Int32): seq<Action>
  {
    if s.lastPos != pos then (if pos > s.lastPos then [VolumeUp] else [VolumeDown]) else []
  }

  /** One pass of the loop body. While disconnected nothing happens. While
      connected, a mute toggle is issued iff the LED state changed, a volume
      step iff the position changed, in the direction of the change, never
      more than one of each, the toggle first; the locals then hold what was
      read. */
  function LoopStep(s: LoopState, connected: bool, pos: Int32, ledOn: bool): (r: TickResult)
    ensures !connected ==> r == TickResult(s, [])
    ensures connected ==> r.next == LoopState(pos, ledOn)
    ensures ToggleMute in r.actions <==> connected && ledOn != s.lastMuteState
    ensures VolumeUp in r.actions <==> connected && pos > s.lastPos
    ensures VolumeDown in r.actions <==> connected && pos < s.lastPos
    ensures forall i, j :: 0 <= i < j < |r.actions| ==> r.actions[i] != r.actions[j]
    ensures ToggleMute in r.actions ==> r.actions[0] == ToggleMute
  {
    if connected then TickResult(LoopState(pos, ledOn), MuteActions(s, ledOn) + VolumeActions(s, pos))
    else TickResult(s, [])
  }

  /** Successive ticks: the final locals and every action issued, in order. */
  function RunTicks(s: LoopState, ticks: seq<TickInput>): TickResult
    decreases |ticks|
  {
    if ticks == [] then TickResult(s, [])
    else
      var first := LoopStep(s, ticks[0].connected, ticks[0].pos, ticks[0].ledOn);
      var rest := RunTicks(first.next, ticks[1..]);
      TickResult(rest.next, first.actions + rest.actions)
  }

  /** A tick that sees what the locals hold issues nothing; in particular the
      first tick after start-up, when nothing has moved. */
  lemma UnchangedTickQuiet(pos: Int32, ledOn: bool, connected: bool)
    ensures LoopStep(LoopState(pos, ledOn), connected, pos, ledOn) == TickResult(LoopState(pos, ledOn), [])
  {
  }

  /** The position wraps on `fetch_add`: a clockwise edge handled at
      `i32::MAX` leaves `i32::MIN`, which the next connected tick reads as a
      fall and answers with a volume-down step. */
  lemma WrapSendsVolumeDown(s: Encoding.EncoderState, line: Encoding.Line, window: Micros, ledOn: bool)
    requires s.position == I32_MAX
    ensures Encoding.AfterEdge(s, line, Encoding.Clockwise, window).position == I32_MIN
    ensures LoopStep(LoopState(I32_MAX, ledOn), true,
      Encoding.AfterEdge(s, line, Encoding.Clockwise, window).position, ledOn).actions == [VolumeDown]
  {
  }

  /** Changes made while disconnected are caught up by the first connected
      tick in a single step: the run issues exactly what one tick from the
      old locals to the latest readings would. */
  lemma {:induction false} CatchUpOnReconnect(s: LoopState, ticks: seq<TickInput>)
    requires |ticks| > 0 && ticks[|ticks| - 1].connected
    requires forall i :: 0 <= i < |ticks| - 1 ==> !ticks[i].connected
    ensures RunTicks(s, ticks) ==
      LoopStep(s, true, ticks[|ticks| - 1].pos, ticks[|ticks| - 1].ledOn)
    decreases |ticks|
  {
    if |ticks| > 1 {
      assert !ticks[0].connected;
      CatchUpOnReconnect(s, ticks[1..]);
    }
  }

  /** A disconnected run issues nothing and keeps the locals. */
  lemma {:induction false} DisconnectedRunQuiet(s: LoopState, ticks: seq<TickInput>)
    requires forall i :: 0 <= i < |ticks| ==> !ticks[i].connected
    ensures RunTicks(s, ticks) == TickResult(s, [])
    decreases |ticks|
  {
    if ticks != [] {
      assert !ticks[0].connected;
      DisconnectedRunQuiet(s, ticks[1..]);
    }
  }

  /** The keyboard reports a tick's actions send, from keyboard report `r`. */
  function TickKeyReports(actions: seq<Action>, r: Keyboard.KeyReport): seq<Keyboard.KeyReport>
  {
    if ToggleMute in actions then Keyboard.MuteReports(r) else []
  }

  /** The media reports a tick's actions send, from media report `m`. */
  function TickMediaReports(actions: seq<Action>, m: Keyboard.MediaKeyReport): seq<Keyboard.MediaKeyReport>
  {
    if VolumeUp in actions then Keyboard.VolumeReports(m, Keyboard.KEY_MEDIA_VOLUME_UP)
    else if VolumeDown in actions then Keyboard.VolumeReports(m, Keyboard.KEY_MEDIA_VOLUME_DOWN)
    else []
  }

  /** The keyboard report a tick's actions leave, from keyboard report `r`:
      the mute chord ends with the release, which empties it. */
  function TickKeyReport(actions: seq<Action>, r: Keyboard.KeyReport): Keyboard.KeyReport
  {
    if ToggleMute in actions then Keyboard.EMPTY_REPORT else r
  }

  /** The media report a tick's actions leave, from media report `m`: the
      last one sent, if any. */
  function TickMedia(actions: seq<Action>, m: Keyboard.MediaKeyReport): Keyboard.MediaKeyReport
  {
    var sent := TickMediaReports(actions, m);
    if sent == [] then m else sent[|sent| - 1]
  }

  /** A tick's mute part decides its keyboard reports and its volume part
      its media reports. */
  lemma SplitActions(mute: seq<Action>, volume: seq<Action>, r: Keyboard.KeyReport, m: Keyboard.MediaKeyReport)
    requires mute == [] || mute == [ToggleMute]
    requires volume == [] || volume == [VolumeUp] || volume == [VolumeDown]
    ensures ToggleMute in mute + volume <==> ToggleMute in mute
    ensures VolumeUp in mute + volume <==> VolumeUp in volume
    ensures VolumeDown in mute + volume <==> VolumeDown in volume
    ensures TickKeyReports(mute + volume, r) == TickKeyReports(mute, r)
    ensures TickKeyReport(mute + volume, r) == TickKeyReport(mute, r)
    ensures TickMediaReports(mute + volume, m) == TickMediaReports(volume, m)
    ensures TickMedia(mute + volume, m) == TickMedia(volume, m)
  {
    assert ToggleMute in mute + volume <==> ToggleMute in mute;
    assert VolumeUp in mute + volume <==> VolumeUp in volume;
    assert VolumeDown in mute + volume <==> VolumeDown in volume;
  }

  class ReportingLoop {
    var lastPos: Int32
    var lastMuteState: bool

    function State(): LoopState
      reads this
    {
      LoopState(lastPos, lastMuteState)
    }

    /** The locals start at the current position and LED state. */
    constructor (encoder: Encoding.Encoder, button: LedButtons.LedButton)
      ensures State() == LoopState(encoder.position, button.ledState)
    {
      var pos := encoder.Position();
      var ledOn := button.IsLedOn();
      lastPos := pos;
      lastMuteState := ledOn;
    }

    /** One pass of the loop body, reading the encoder and the button as the
        source does, and returning the actions it issued. */
    method Tick(kb: Keyboard.BleKeyboard, encoder: Encoding.Encoder, button: LedButtons.LedButton, connected: bool)
      returns (actions: seq<Action>)
      requires kb.Valid()
      modifies this, kb, kb.keys, kb.mediaKeyReport
      ensures kb.Valid()
      ensures TickResult(State(), actions) == LoopStep(old(State()), connected, encoder.position, button.ledState)
      ensures kb.keyReports == old(kb.keyReports) + TickKeyReports(actions, old(kb.Report()))
      ensures kb.mediaReports == old(kb.mediaReports) + TickMediaReports(actions, old(kb.Media()))
      ensures kb.Report() == TickKeyReport(actions, old(kb.Report()))
      ensures kb.Media() == TickMedia(actions, old(kb.Media()))
    {
      actions := [];
      if connected {
        var mute := CheckMute(kb, button);
        var volume := CheckVolume(kb, encoder);
        actions := mute + volume;
        SplitActions(mute, volume, old(kb.Report()), old(kb.Media()));
      }
    }

    /** The mute half of the loop body: a changed LED state is sent as one
        `toggle_mute` and remembered. */
    method CheckMute(kb: Keyboard.BleKeyboard, button: LedButtons.LedButton) returns (actions: seq<Action>)
      requires kb.Valid()
      modifies this, kb, kb.keys
      ensures kb.Valid()
      ensures actions == MuteActions(old(State()), button.ledState)
      ensures State() == old(State()).(lastMuteState := button.ledState)
      ensures kb.keyReports == old(kb.keyReports) + TickKeyReports(actions, old(kb.Report()))
      ensures kb.mediaReports == old(kb.mediaReports) && kb.Media() == old(kb.Media())
      ensures kb.Report() == TickKeyReport(actions, old(kb.Report()))
    {
      actions := [];
      var ledOn := button.IsLedOn();
      if lastMuteState != ledOn {
        kb.ToggleMute();
        actions := [ToggleMute];
        ledOn := button.IsLedOn();
        lastMuteState := ledOn;
      }
    }

    /** The volume half of the loop body: a changed position is sent as one
        volume step in the direction of the change and remembered. */
    method CheckVolume(kb: Keyboard.BleKeyboard, encoder: Encoding.Encoder) returns (actions: seq<Action>)
      requires kb.Valid()
      modifies this, kb, kb.mediaKeyReport
      ensures kb.Valid()
      ensures actions == VolumeActions(old(State()), encoder.position)
      ensures State() == old(State()).(lastPos := encoder.position)
      ensures kb.keyReports == old(kb.keyReports) && kb.Report() == old(kb.Report())
      ensures kb.mediaReports == old(kb.mediaReports) + TickMediaReports(actions, old(kb.Media()))
      ensures kb.Media() == TickMedia(actions, old(kb.Media()))
    {
      actions := [];
      var pos := encoder.Position();
      if lastPos != pos {
        pos := encoder.Position();
        if pos > lastPos {
          kb.VolumeUp();
          actions := [VolumeUp];
        } else {
          kb.VolumeDown();
          actions := [VolumeDown];
        }
        pos := encoder.Position();
        lastPos := pos;
      }
    }
  }
}
