/** What an accepted Acaia frame means: its diagnostic tag and the live event it decodes to. */
module AcaiaEvents {
  import opened AcaiaWire
  import opened Options

  const SETTINGS: Byte := 0x08
  const TIMER: Byte := 0x07
  const EVENT: Byte := 0x0C

  const WEIGHT_SAMPLE: Byte := 0x05
  const BATTERY_SAMPLE: Byte := 0x06
  const TIMER_SAMPLE: Byte := 0x07
  const KEY_SAMPLE: Byte := 0x08
  const HEARTBEAT_RESPONSE: Byte := 0x0B

  datatype InboundKind = Weight | Battery | Timer | Key | Unknown | Mixed | Rejected | Settings

  datatype Event =
    | WeightEvent(grams: real, stable: bool, scaleTimerMs: Option<nat>)
    | BatteryEvent(percent: Byte)
    | TimerEvent(ms: nat)
    | KeyEvent(code: Byte)
    | UnknownEvent

  function EventKind(id: Byte): InboundKind {
    if id == WEIGHT_SAMPLE then Weight
    else if id == BATTERY_SAMPLE then Battery
    else if id == TIMER_SAMPLE then Timer
    else if id == KEY_SAMPLE then Key
    else Unknown
  }

  function HeartbeatResponseKind(payload: seq<Byte>): InboundKind {
    if |payload| < 4 then Unknown
    else if payload[3] == WEIGHT_SAMPLE then (if |payload| >= 10 then Weight else Unknown)
    else if payload[3] == TIMER_SAMPLE then (if |payload| >= 7 then Timer else Unknown)
    else Unknown
  }

  function Classify(frame: Frame): InboundKind {
    if frame.msgType == SETTINGS then Settings
    else if frame.msgType == TIMER then Timer
    else if frame.msgType != EVENT then Unknown
    else if frame.payload == [] then Rejected
    else if frame.payload[0] == HEARTBEAT_RESPONSE then HeartbeatResponseKind(frame.payload)
    else EventKind(frame.payload[0])
  }

  function DecodeTimer(d: seq<Byte>): Option<nat> {
    if |d| < 3 then None else Some(d[0] as int * 60000 + d[1] as int * 1000 + d[2] as int * 100)
  }

  function PowerOfTen(n: nat): (p: real)
    ensures p >= 1.0
  {
    if n == 0 then 1.0 else PowerOfTen(n - 1) * 10.0
  }

  function DecodeWeight(d: seq<Byte>): Option<Event> {
    if |d| < 6 then None
    else
      var raw := d[0] as int + d[1] as int * 0x100 + d[2] as int * 0x1_0000 + d[3] as int * 0x100_0000;
      var magnitude := raw as real / PowerOfTen(d[4]);
      var grams := if d[5] / 2 % 2 == 1 then -magnitude else magnitude;
      var timer := if |d| >= 10 && d[6] == TIMER_SAMPLE then DecodeTimer(d[7..]) else None;
      Some(WeightEvent(grams, d[5] % 2 == 0, timer))
  }

  /** The event a sample of the given kind emits; None when it is too short to emit anything. */
  function Decode(id: Byte, d: seq<Byte>): Option<Event> {
    if id == WEIGHT_SAMPLE then DecodeWeight(d)
    else if id == BATTERY_SAMPLE then (if |d| < 1 then None else Some(BatteryEvent(d[0])))
    else if id == TIMER_SAMPLE then
      match DecodeTimer(d) { case None => None case Some(ms) => Some(TimerEvent(ms)) }
    else if id == KEY_SAMPLE then (if |d| < 1 then None else Some(KeyEvent(d[0])))
    else if id == HEARTBEAT_RESPONSE && |d| >= 4 && d[2] == WEIGHT_SAMPLE then DecodeWeight(d[3..])
    else if id == HEARTBEAT_RESPONSE && |d| >= 4 && d[2] == TIMER_SAMPLE then
      match DecodeTimer(d[3..]) { case None => None case Some(ms) => Some(TimerEvent(ms)) }
    else Some(UnknownEvent)
  }

  function DecodeFrame(frame: Frame): Option<Event> {
    if frame.msgType != EVENT || frame.payload == [] then None
    else Decode(frame.payload[0], frame.payload[1..])
  }

  /** The events `handleFrame` emits: a frame tagged Rejected is never decoded. */
  function Emitted(frame: Frame): Option<Event> {
    if Classify(frame) == Rejected then None else DecodeFrame(frame)
  }

  /** The diagnostic tag agrees with the decoder. A heartbeat response is tagged with a sample kind
      exactly when that sample is emitted; a direct sample may be tagged and still be too short. */
  lemma TagAgreesWithEmission(frame: Frame)
    requires frame.msgType == EVENT
    ensures Emitted(frame).Some? && Emitted(frame).value.WeightEvent? <==>
            Classify(frame) == Weight && |frame.payload| >= 7
    ensures Emitted(frame).Some? && Emitted(frame).value.TimerEvent? <==>
            Classify(frame) == Timer && |frame.payload| >= 4
    ensures Emitted(frame).Some? && Emitted(frame).value.BatteryEvent? <==>
            Classify(frame) == Battery && |frame.payload| >= 2
    ensures Emitted(frame).Some? && Emitted(frame).value.KeyEvent? <==>
            Classify(frame) == Key && |frame.payload| >= 2
  {
    if frame.payload != [] {
      var d := frame.payload[1..];
      if |d| >= 4 {
        assert d[2] == frame.payload[3] && |d[3..]| == |frame.payload| - 4;
      }
    }
  }
}
