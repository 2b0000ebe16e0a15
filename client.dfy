/**
  The phone-side WebSocket client (RCRemote/WebSocketManager.swift): the
  connection flags, the ack-gated sending of telemetry lines and the
  round-trip delay measurement.

  The transport is an append-only log `sent` of the texts handed to the
  socket task, plus a sequence of inbound frames; time is integer
  milliseconds passed in as `now`. String(format:) is the parameter
  `formatReal`, applied to a value and a number of decimals.
*/
module Client {
  import opened Common
  import opened Text
  import opened Wire

  /** The field labels of a telemetry line, in the order they are sent. */
  const Labels: seq<string> := ["OrieX", "OrieY", "OrieZ", "Pitch", "Roll", "Gripper", "Height"]

  /** `String(format: "%.<d>f", x)`, left uninterpreted. */
  type RealFormatter = (real, nat) -> string

  /** The seven telemetry values the manager holds and sends. */
  datatype Telemetry = Telemetry(
    orieX: real, orieY: real, orieZ: real, pitch: real, roll: real, gripper: real, height: real)

  /** The socket task: none yet, created and resumed, or cancelled by a disconnect. */
  datatype TaskState = NoTask | Running | Cancelled

  /** Everything the manager keeps apart from the telemetry values. */
  datatype LinkState = LinkState(
    connectionError: bool,
    isConnected: bool,
    highPrecision: bool,
    networkDelay: int,
    task: TaskState,
    listening: bool,           // a receive is armed on the task
    lastSendTime: Option<int>,
    sent: seq<string>)          // every text handed to the task, oldest first

  /** A receive is only ever armed on a running task. */
  predicate LinkValid(l: LinkState)
  {
    l.listening ==> l.task == Running
  }

  /** What one completed receive delivers. */
  datatype Frame = TextFrame(text: string) | BinaryFrame | ReceiveFailure

  /**
    A completed receive: the frame, the time it is handled, and the telemetry
    values the manager holds at that moment. The motion manager calls
    updateData on the main queue between completions, so each one may see
    different values.
  */
  datatype Inbound = Inbound(frame: Frame, at: int, data: Telemetry)

  /** The number of decimals of the format: "%.6f" in high precision, "%.3f" otherwise. */
  function Decimals(high: bool): nat
  {
    if high then 6 else 3
  }

  /** Swift's `Int(x)`: truncation toward zero. */
  function Truncate(x: real): (n: int)
    ensures 0.0 <= x ==> n as real <= x < n as real + 1.0
    ensures x < 0.0 ==> n as real - 1.0 < x <= n as real
  {
    if x >= 0.0 then x.Floor else -((-x).Floor)
  }

  function DigitChar(d: nat): char
    requires d < 10
  {
    "0123456789"[d]
  }

  /** Each digit character stands for its own value. */
  lemma DigitCharValue(d: nat)
    requires d < 10
    ensures '0' <= DigitChar(d) <= '9' && DigitChar(d) as int - '0' as int == d
  {
  }

  /** The decimal digits of `n`, most significant first. */
  function NatToString(n: nat): (s: string)
    ensures |s| >= 1
    ensures forall i :: 0 <= i < |s| ==> '0' <= s[i] <= '9'
  {
    DigitCharValue(n % 10);
    if n < 10 then [DigitChar(n)] else NatToString(n / 10) + [DigitChar(n % 10)]
  }

  /** The value of a string of decimal digits. */
  function DigitsValue(s: string): nat
    requires forall i :: 0 <= i < |s| ==> '0' <= s[i] <= '9'
  {
    if s == [] then 0 else 10 * DigitsValue(s[..|s| - 1]) + (s[|s| - 1] as int - '0' as int)
  }

  lemma {:induction false} NatToStringRoundTrip(n: nat)
    ensures DigitsValue(NatToString(n)) == n
  {
    var s := NatToString(n);
    DigitCharValue(n % 10);
    if n >= 10 {
      NatToStringRoundTrip(n / 10);
      assert s[..|s| - 1] == NatToString(n / 10);
    }
  }

  /** Swift's interpolation of an `Int`: a minus sign for negative values, then the digits. */
  function IntToString(n: int): (s: string)
    ensures n < 0 ==> |s| >= 2 && s[0] == '-' && forall i :: 1 <= i < |s| ==> '0' <= s[i] <= '9'
    ensures n >= 0 ==> |s| >= 1 && forall i :: 0 <= i < |s| ==> '0' <= s[i] <= '9'
  {
    if n < 0 then "-" + NatToString(-n) else NatToString(n)
  }

  /** Digits behind a minus sign keep their value. */
  lemma {:induction false} DropSign(s: string, d: string, v: nat)
    requires s == "-" + d && |d| >= 1 && (forall i :: 0 <= i < |d| ==> '0' <= d[i] <= '9') && DigitsValue(d) == v
    ensures |s| >= 2 && s[0] == '-' && s[1..] == d && DigitsValue(s[1..]) == v
  {
    assert s[1..] == d;
  }

  /** A negative integer's text reads back, after its sign, as the magnitude. */
  lemma NegativeRoundTrip(n: int)
    requires n < 0
    ensures var s := IntToString(n);
      |s| >= 2 && s[0] == '-' && DigitsValue(s[1..]) == -n
  {
    NatToStringRoundTrip(-n);
    DropSign(IntToString(n), NatToString(-n), -n);
  }

  /** Reading an integer text back gives the integer. */
  lemma {:induction false} IntToStringRoundTrip(n: int)
    ensures var s := IntToString(n);
      if n < 0 then |s| >= 2 && s[0] == '-' && -(DigitsValue(s[1..]) as int) == n
      else DigitsValue(s) == n
  {
    if n < 0 {
      NegativeRoundTrip(n);
    } else {
      NatToStringRoundTrip(n);
    }
  }

  /** The telemetry line of sendSensorData (WebSocketManager.swift:115-116). */
  function DataLine(t: Telemetry, high: bool, fmt: RealFormatter): string
  {
    var d := Decimals(high);
    "Data: OrieX=" + fmt(t.orieX, d) + ", OrieY=" + fmt(t.orieY, d) + ", OrieZ=" + fmt(t.orieZ, d)
    + ", Pitch=" + fmt(t.pitch, d) + ", Roll=" + fmt(t.roll, d)
    + ", Gripper=" + IntToString(Truncate(t.gripper)) + ", Height=" + fmt(t.height, d)
  }

  /** The telemetry value a label names. */
  function ValueOf(t: Telemetry, name: string): real
  {
    if name == "OrieX" then t.orieX
    else if name == "OrieY" then t.orieY
    else if name == "OrieZ" then t.orieZ
    else if name == "Pitch" then t.pitch
    else if name == "Roll" then t.roll
    else if name == "Gripper" then t.gripper
    else t.height
  }

  /**
    The text sent for a label: the gripper as Swift's `Int` interpolation of
    the truncated slider value, every other value through the formatter with
    the decimals of the current precision.
  */
  function TextOf(t: Telemetry, name: string, high: bool, fmt: RealFormatter): string
  {
    if name == "Gripper" then IntToString(Truncate(ValueOf(t, name)))
    else fmt(ValueOf(t, name), Decimals(high))
  }

  /** The seven value texts of a telemetry line: each label's own value, in the order of `Labels`. */
  function FieldTexts(t: Telemetry, high: bool, fmt: RealFormatter): (texts: seq<string>)
    ensures |texts| == |Labels|
    ensures forall i :: 0 <= i < |Labels| ==> texts[i] == TextOf(t, Labels[i], high, fmt)
  {
    var d := Decimals(high);
    [fmt(t.orieX, d), fmt(t.orieY, d), fmt(t.orieZ, d), fmt(t.pitch, d), fmt(t.roll, d),
     IntToString(Truncate(t.gripper)), fmt(t.height, d)]
  }

  /** The `label=value` entries of a telemetry line. */
  function Entries(texts: seq<string>): (entries: seq<string>)
    requires |texts| == |Labels|
    ensures |entries| == |Labels|
    ensures forall i :: 0 <= i < |Labels| ==> entries[i] == Labels[i] + "=" + texts[i]
  {
    seq(|Labels|, i requires 0 <= i < |Labels| => Labels[i] + "=" + texts[i])
  }

  lemma {:induction false} JoinSnoc(parts: seq<string>, last: string, sep: string)
    requires |parts| >= 1
    ensures Join(parts + [last], sep) == Join(parts, sep) + sep + last
    decreases |parts|
  {
    if |parts| > 1 {
      assert (parts + [last])[1..] == parts[1..] + [last];
      JoinSnoc(parts[1..], last, sep);
    }
  }

  /** One more `, name=value` on a line that so far is the prefix and the joined entries. */
  lemma AppendEntry(line: string, joined: string, piece: string, name: string, value: string)
    requires line == DataPrefix + joined && piece == ", " + name + "="
    ensures line + piece + value == DataPrefix + (joined + ", " + (name + "=" + value))
  {
  }

  /** Joining the first k + 1 entries: the first k joined, then the separator and entry k. */
  lemma JoinPrefix(es: seq<string>, k: nat)
    requires 1 <= k < |es|
    ensures Join(es[..k + 1], ", ") == Join(es[..k], ", ") + ", " + es[k]
  {
    assert es[..k + 1] == es[..k] + [es[k]];
    JoinSnoc(es[..k], es[k], ", ");
  }

  /** The first four entries of a telemetry line, up to Pitch. */
  lemma DataLineHead(t: Telemetry, high: bool, fmt: RealFormatter)
    ensures var v := FieldTexts(t, high, fmt);
      "Data: OrieX=" + v[0] + ", OrieY=" + v[1] + ", OrieZ=" + v[2] + ", Pitch=" + v[3]
      == DataPrefix + Join(Entries(v)[..4], ", ")
  {
    var v := FieldTexts(t, high, fmt);
    var es := Entries(v);
    var l0 := "Data: OrieX=" + v[0];
    assert l0 == DataPrefix + Join(es[..1], ", ");
    JoinPrefix(es, 1);
    AppendEntry(l0, Join(es[..1], ", "), ", OrieY=", "OrieY", v[1]);
    var l1 := l0 + ", OrieY=" + v[1];
    JoinPrefix(es, 2);
    AppendEntry(l1, Join(es[..2], ", "), ", OrieZ=", "OrieZ", v[2]);
    var l2 := l1 + ", OrieZ=" + v[2];
    JoinPrefix(es, 3);
    AppendEntry(l2, Join(es[..3], ", "), ", Pitch=", "Pitch", v[3]);
  }

  /**
    A telemetry line is the prefix "Data: " followed by the seven entries
    `label=value` in the fixed order OrieX, OrieY, OrieZ, Pitch, Roll,
    Gripper, Height, separated by ", ".
  */
  lemma DataLineLayout(t: Telemetry, high: bool, fmt: RealFormatter)
    ensures DataLine(t, high, fmt) == DataPrefix + Join(Entries(FieldTexts(t, high, fmt)), ", ")
  {
    var v := FieldTexts(t, high, fmt);
    var es := Entries(v);
    DataLineHead(t, high, fmt);
    var l3 := "Data: OrieX=" + v[0] + ", OrieY=" + v[1] + ", OrieZ=" + v[2] + ", Pitch=" + v[3];
    JoinPrefix(es, 4);
    AppendEntry(l3, Join(es[..4], ", "), ", Roll=", "Roll", v[4]);
    var l4 := l3 + ", Roll=" + v[4];
    JoinPrefix(es, 5);
    AppendEntry(l4, Join(es[..5], ", "), ", Gripper=", "Gripper", v[5]);
    var l5 := l4 + ", Gripper=" + v[5];
    JoinPrefix(es, 6);
    AppendEntry(l5, Join(es[..6], ", "), ", Height=", "Height", v[6]);
    assert es[..7] == es;
  }

  /** The text handed to `webSocketTask?.send`: logged only when there is a task. */
  function Transmit(l: LinkState, message: string): seq<string>
  {
    if l.task != NoTask then l.sent + [message] else l.sent
  }

  /** sendSensorData: stamp the send time, then send the telemetry line. */
  function SensorDataSent(l: LinkState, t: Telemetry, fmt: RealFormatter, now: int): LinkState
  {
    l.(lastSendTime := Some(now), sent := Transmit(l, DataLine(t, l.highPrecision, fmt)))
  }

  /** handleReceivedMessage, as a transition of the link state. */
  function OnMessage(l: LinkState, t: Telemetry, fmt: RealFormatter, message: string, now: int): LinkState
  {
    if message == EstablishedToken then
      SensorDataSent(l.(isConnected := true, connectionError := false), t, fmt, now)
    else if message == AckToken then
      var measured := if l.lastSendTime.Some? then l.(networkDelay := now - l.lastSendTime.value) else l;
      SensorDataSent(measured, t, fmt, now)
    else
      l
  }

  /** The completion of one armed receive. */
  function OnFrame(l: LinkState, fmt: RealFormatter, e: Inbound): LinkState
  {
    match e.frame
    case ReceiveFailure => l.(isConnected := false, listening := false)
    case BinaryFrame => l.(listening := false)
    case TextFrame(message) => OnMessage(l, e.data, fmt, message, e.at)
  }

  /** The receive loop: frames are handled one at a time while a receive is armed. */
  function Deliver(l: LinkState, fmt: RealFormatter, events: seq<Inbound>): LinkState
    decreases |events|
  {
    if events == [] || !l.listening then l else Deliver(OnFrame(l, fmt, events[0]), fmt, events[1..])
  }

  /** The frames the receive loop consumes: all of them up to and including the first that is not text. */
  function Consumed(listening: bool, events: seq<Inbound>): seq<Inbound>
    decreases |events|
  {
    if events == [] || !listening then []
    else if events[0].frame.TextFrame? then [events[0]] + Consumed(true, events[1..])
    else [events[0]]
  }

  /** One more completed receive of an armed loop. */
  lemma DeliverStep(l: LinkState, fmt: RealFormatter, events: seq<Inbound>, i: nat)
    requires i < |events| && l.listening
    ensures Deliver(l, fmt, events[i..]) == Deliver(OnFrame(l, fmt, events[i]), fmt, events[i + 1..])
  {
    assert events[i..][1..] == events[i + 1..];
  }

  /** The frame at `i` is consumed once the loop reaches it armed; the loop stays armed after a text. */
  lemma ConsumedStep(listening: bool, events: seq<Inbound>, i: nat)
    requires i < |events|
    requires Consumed(listening, events) == events[..i] + Consumed(true, events[i..])
    ensures Consumed(listening, events) == events[..i + 1] + Consumed(events[i].frame.TextFrame?, events[i + 1..])
  {
    assert events[i..][1..] == events[i + 1..];
    assert events[..i + 1] == events[..i] + [events[i]];
  }

  predicate IsTrigger(e: Inbound)
  {
    e.frame.TextFrame? && (e.frame.text == EstablishedToken || e.frame.text == AckToken)
  }

  /** The number of "Connection Established" and "received" texts among `events`. */
  function TriggerCount(events: seq<Inbound>): nat
    decreases |events|
  {
    if events == [] then 0 else (if IsTrigger(events[0]) then 1 else 0) + TriggerCount(events[1..])
  }

  /** The lines one completed receive sends. */
  function FrameLines(e: Inbound, high: bool, fmt: RealFormatter): seq<string>
  {
    if IsTrigger(e) then [DataLine(e.data, high, fmt)] else []
  }

  /**
    The telemetry lines the triggers among `events` send, in order, each built
    from the values in force when its trigger is handled: one per trigger.
  */
  function TriggerLines(events: seq<Inbound>, high: bool, fmt: RealFormatter): (lines: seq<string>)
    ensures |lines| == TriggerCount(events)
    decreases |events|
  {
    if events == [] then []
    else FrameLines(events[0], high, fmt) + TriggerLines(events[1..], high, fmt)
  }

  /**
    Each handled "Connection Established" or "received" sends exactly one
    telemetry line and nothing else; every other text changes nothing.
  */
  lemma OnMessageSends(l: LinkState, t: Telemetry, fmt: RealFormatter, message: string, now: int)
    requires l.task != NoTask
    ensures var l' := OnMessage(l, t, fmt, message, now);
      if message == EstablishedToken || message == AckToken then
        l'.sent == l.sent + [DataLine(t, l.highPrecision, fmt)] && l'.lastSendTime == Some(now)
      else
        l' == l
  {
  }

  /**
    "Connection Established" marks the link connected and clears the error;
    "received" replaces the delay by the time since the last send when there
    was one, and keeps it otherwise.
  */
  lemma OnMessageFlags(l: LinkState, t: Telemetry, fmt: RealFormatter, message: string, now: int)
    ensures var l' := OnMessage(l, t, fmt, message, now);
      && (message == EstablishedToken ==> l'.isConnected && !l'.connectionError && l'.networkDelay == l.networkDelay)
      && (message == AckToken ==>
            l'.isConnected == l.isConnected && l'.connectionError == l.connectionError
            && l'.networkDelay == (if l.lastSendTime.Some? then now - l.lastSendTime.value else l.networkDelay))
      && l'.task == l.task && l'.listening == l.listening && l'.highPrecision == l.highPrecision
  {
  }

  /**
    One completed receive: a trigger text appends one telemetry line, any
    other frame appends nothing; a text keeps the receive armed, anything
    else disarms it.
  */
  lemma FrameStep(l: LinkState, fmt: RealFormatter, e: Inbound)
    requires LinkValid(l) && l.listening
    ensures var l' := OnFrame(l, fmt, e);
      && l'.sent == l.sent + FrameLines(e, l.highPrecision, fmt)
      && l'.listening == e.frame.TextFrame?
      && LinkValid(l') && l'.highPrecision == l.highPrecision
  {
    if e.frame.TextFrame? {
      OnMessageSends(l, e.data, fmt, e.frame.text, e.at);
      OnMessageFlags(l, e.data, fmt, e.frame.text, e.at);
    } else {
      assert l.sent + [] == l.sent;
    }
  }

  /** `k` sends of the same line. */
  function Copies(line: string, k: nat): seq<string>
  {
    seq(k, _ => line)
  }

  lemma CopiesAppend(line: string, a: nat, b: nat)
    ensures Copies(line, a) + Copies(line, b) == Copies(line, a + b)
  {
  }

  lemma TriggerLinesCons(e: Inbound, rest: seq<Inbound>, high: bool, fmt: RealFormatter)
    ensures TriggerLines([e] + rest, high, fmt) == FrameLines(e, high, fmt) + TriggerLines(rest, high, fmt)
  {
    assert ([e] + rest)[1..] == rest;
  }

  lemma SentThrough(s0: seq<string>, s1: seq<string>, s2: seq<string>, head: seq<string>, tail: seq<string>)
    requires s1 == s0 + head && s2 == s1 + tail
    ensures s2 == s0 + (head + tail)
  {
  }

  /**
    Over any run of the receive loop the log grows by exactly the lines
    `TriggerLines` gives: one telemetry line per "Connection Established" or
    "received" handled, built from the values held when that text arrived,
    and nothing else.
  */
  lemma {:induction false} DataSendsMatchTriggers(l: LinkState, fmt: RealFormatter, events: seq<Inbound>)
    requires LinkValid(l)
    ensures var l' := Deliver(l, fmt, events);
      && l'.sent == l.sent + TriggerLines(Consumed(l.listening, events), l.highPrecision, fmt)
      && LinkValid(l') && l'.highPrecision == l.highPrecision
    decreases |events|
  {
    if events != [] && l.listening {
      var e := events[0];
      var l1 := OnFrame(l, fmt, e);
      FrameStep(l, fmt, e);
      var rest := Consumed(l1.listening, events[1..]);
      assert Consumed(l.listening, events) == [e] + rest by {
        if !e.frame.TextFrame? {
          assert rest == [];
        }
      }
      var l' := Deliver(l1, fmt, events[1..]);
      DataSendsMatchTriggers(l1, fmt, events[1..]);
      TriggerLinesCons(e, rest, l.highPrecision, fmt);
      SentThrough(l.sent, l1.sent, l'.sent, FrameLines(e, l.highPrecision, fmt), TriggerLines(rest, l.highPrecision, fmt));
    } else {
      assert l.sent + [] == l.sent;
    }
  }

  /** When no sample arrives during the run, the lines sent are copies of one telemetry line. */
  lemma {:induction false} TriggerLinesConstant(events: seq<Inbound>, t: Telemetry, high: bool, fmt: RealFormatter)
    requires forall k :: 0 <= k < |events| ==> events[k].data == t
    ensures TriggerLines(events, high, fmt) == Copies(DataLine(t, high, fmt), TriggerCount(events))
    decreases |events|
  {
    if events != [] {
      var line, k := DataLine(t, high, fmt), if IsTrigger(events[0]) then 1 else 0;
      TriggerLinesConstant(events[1..], t, high, fmt);
      CopiesAppend(line, k, TriggerCount(events[1..]));
    }
  }

  class WebSocketManager {
    var connectionError: bool
    var isConnected: bool
    var highPrecision: bool
    var networkDelay: int
    var task: TaskState
    var listening: bool
    var lastSendTime: Option<int>
    var orieX: real
    var orieY: real
    var orieZ: real
    var pitchChange: real
    var rollChange: real
    var gripperValue: real
    var height: real
    var sent: seq<string>
    const formatReal: RealFormatter

    ghost predicate Valid()
      reads this
    {
      LinkValid(Link())
    }

    function Link(): LinkState
      reads this
    {
      LinkState(connectionError, isConnected, highPrecision, networkDelay, task, listening, lastSendTime, sent)
    }

    function Snapshot(): Telemetry
      reads this
    {
      Telemetry(orieX, orieY, orieZ, pitchChange, rollChange, gripperValue, height)
    }

    constructor (fmt: RealFormatter)
      ensures Valid() && formatReal == fmt
      ensures Link() == LinkState(false, false, false, 0, NoTask, false, None, [])
      ensures Snapshot() == Telemetry(0.0, 0.0, 0.0, 0.0, 0.0, 0.0, 0.0)
    {
      connectionError, isConnected, highPrecision, networkDelay := false, false, false, 0;
      task, listening, lastSendTime, sent := NoTask, false, None, [];
      orieX, orieY, orieZ, pitchChange, rollChange, gripperValue, height := 0.0, 0.0, 0.0, 0.0, 0.0, 0.0, 0.0;
      formatReal := fmt;
    }

    /** Overwrites the seven telemetry values and nothing else. */
    method UpdateData(orieX: real, orieY: real, orieZ: real, pitch: real, roll: real, gripper: real, height: real)
      modifies this
      ensures Snapshot() == Telemetry(orieX, orieY, orieZ, pitch, roll, gripper, height)
      ensures Link() == old(Link())
    {
      this.orieX, this.orieY, this.orieZ := orieX, orieY, orieZ;
      this.pitchChange, this.rollChange, this.gripperValue, this.height := pitch, roll, gripper, height;
    }

    /**
      Composes "ws://address:port"; when URL(string:) rejects it the error flag
      is set and nothing else happens. Otherwise a new task is created and
      resumed, a receive is armed and the probe is sent.
    */
    method Connect(address: string, port: string, isValidUrl: string -> bool)
      requires Valid()
      modifies this
      ensures Valid() && Snapshot() == old(Snapshot())
      ensures if isValidUrl("ws://" + address + ":" + port)
        then Link() == old(Link()).(task := Running, listening := true, sent := old(sent) + [ProbeMessage])
        else Link() == old(Link()).(connectionError := true)
    {
      var url := "ws://" + address + ":" + port;
      if !isValidUrl(url) {
        connectionError := true;
        return;
      }
      task := Running;
      listening := true;
      SendMessage(ProbeMessage);
    }

    method SendMessage(message: string)
      modifies this
      ensures Link() == old(Link()).(sent := Transmit(old(Link()), message))
      ensures Snapshot() == old(Snapshot())
    {
      if task != NoTask {
        sent := sent + [message];
      }
    }

    /** The completion handler of a send that failed. */
    method SendFailed()
      modifies this
      ensures Link() == old(Link()).(connectionError := true)
      ensures Snapshot() == old(Snapshot())
    {
      connectionError := true;
    }

    /** The completion of the armed receive: failure, a non-text frame, or a text that is handled and re-arms. */
    method Receive(frame: Frame, now: int)
      requires Valid() && listening
      modifies this
      ensures Valid() && Snapshot() == old(Snapshot())
      ensures Link() == OnFrame(old(Link()), formatReal, Inbound(frame, now, Snapshot()))
    {
      match frame
      case ReceiveFailure =>
        isConnected := false;
        listening := false;
      case BinaryFrame =>
        listening := false;
      case TextFrame(text) =>
        HandleReceivedMessage(text, now);
    }

    method HandleReceivedMessage(message: string, now: int)
      modifies this
      ensures Snapshot() == old(Snapshot())
      ensures Link() == OnMessage(old(Link()), Snapshot(), formatReal, message, now)
    {
      if message == EstablishedToken {
        isConnected := true;
        connectionError := false;
        SendSensorData(now);
      } else if message == AckToken {
        if lastSendTime.Some? {
          networkDelay := now - lastSendTime.value;
        }
        SendSensorData(now);
      }
    }

    method UpdatePrecision(high: bool)
      modifies this
      ensures Link() == old(Link()).(highPrecision := high)
      ensures Snapshot() == old(Snapshot())
    {
      highPrecision := high;
    }

    method SendSensorData(now: int)
      modifies this
      ensures Snapshot() == old(Snapshot())
      ensures Link() == SensorDataSent(old(Link()), Snapshot(), formatReal, now)
    {
      var dataMessage := DataLine(Snapshot(), highPrecision, formatReal);
      lastSendTime := Some(now);
      SendMessage(dataMessage);
    }

    /** Cancels the task; both flags drop to false. The armed receive is given up. */
    method Disconnect()
      requires Valid()
      modifies this
      ensures Valid() && Snapshot() == old(Snapshot())
      ensures Link() == old(Link()).(
        task := if old(task) == NoTask then NoTask else Cancelled,
        listening := false, isConnected := false, connectionError := false)
    {
      if task != NoTask {
        task := Cancelled;
      }
      listening := false;
      isConnected := false;
      connectionError := false;
    }

    /** One completion: the values last pushed with updateData, then the armed receive. */
    method Complete(e: Inbound)
      requires Valid() && listening
      modifies this
      ensures Valid() && Snapshot() == e.data && listening == e.frame.TextFrame?
      ensures Link() == OnFrame(old(Link()), formatReal, e)
    {
      var d := e.data;
      UpdateData(d.orieX, d.orieY, d.orieZ, d.pitch, d.roll, d.gripper, d.height);
      FrameStep(Link(), formatReal, e);
      Receive(e.frame, e.at);
    }

    /**
      The receive loop, re-armed after each text frame, over a sequence of
      completed receives. Before each completion the telemetry values are
      those the motion manager last pushed with updateData; afterwards they
      are those of the last frame handled.
    */
    method Listen(events: seq<Inbound>)
      requires Valid()
      modifies this
      ensures Valid() && Link() == Deliver(old(Link()), formatReal, events)
      ensures var c := Consumed(old(listening), events);
        Snapshot() == if c == [] then old(Snapshot()) else c[|c| - 1].data
    {
      var i := 0;
      while i < |events| && listening
        invariant 0 <= i <= |events| && Valid()
        invariant Deliver(old(Link()), formatReal, events) == Deliver(Link(), formatReal, events[i..])
        invariant Consumed(old(listening), events) == events[..i] + Consumed(listening, events[i..])
        invariant Snapshot() == if i == 0 then old(Snapshot()) else events[i - 1].data
      {
        ConsumedStep(old(listening), events, i);
        DeliverStep(Link(), formatReal, events, i);
        Complete(events[i]);
        i := i + 1;
      }
    }
  }
}
