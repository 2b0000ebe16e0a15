/**
  The robot-side server of example_kinova_gen3_move.py: the `sensor_data`
  dictionary, `update_sensor_data`'s `key=value` parser, the reply choice of
  `handle_client`, and one step of `apply_robot_movement`.

  Python's `float()` is the parameter `parse`: None stands for the
  ValueError it raises on a text that is not a number.
*/
module Kinova {
  import opened Common
  import opened Text
  import opened Wire

  /** Python's `float(text)`, left uninterpreted. */
  type FloatParser = string -> Option<real>

  /** The keys `sensor_data` starts with. */
  const SensorKeys: set<string> := {"OrieX", "OrieY", "OrieZ", "Pitch", "Roll", "Gripper", "Height"}

  /** `sensor_data` at start-up: every key at 0.0. */
  const InitialSensorData: map<string, real> :=
    map["OrieX" := 0.0, "OrieY" := 0.0, "OrieZ" := 0.0, "Pitch" := 0.0, "Roll" := 0.0,
        "Gripper" := 0.0, "Height" := 0.0]

  /** Why an entry is rejected: it does not split into exactly two parts on "=", or its value is not a number. */
  datatype ParseError = WrongArity(entry: string) | NotAFloat(text: string)

  /**
    One entry `key=value`: the entry must contain exactly one "=" (otherwise
    the unpacking of `entry.split("=")` fails), and the value must be a number;
    the key is stored stripped, the value text is handed to float() as it is.
  */
  function ParseEntry(entry: string, parse: FloatParser): (r: Result<(string, real), ParseError>)
    ensures r == Err(WrongArity(entry)) <==> multiset(entry)['='] != 1
  {
    var kv := Split(entry, "=");
    SplitCharCount(entry, '=');
    if |kv| != 2 then Err(WrongArity(entry))
    else match parse(kv[1])
      case None => Err(NotAFloat(kv[1]))
      case Some(x) => Ok((Strip(kv[0]), x))
  }

  /** An entry written as `key=value`, with no "=" in either part, parses to the stripped key and float(value). */
  lemma ParseEntryOfPair(key: string, value: string, parse: FloatParser)
    requires '=' !in key && '=' !in value
    ensures ParseEntry(key + "=" + value, parse)
         == if parse(value).Some? then Ok((Strip(key), parse(value).value)) else Err(NotAFloat(value))
  {
    SplitPair(key, value);
  }

  lemma SplitPair(key: string, value: string)
    requires '=' !in key && '=' !in value
    ensures Split(key + "=" + value, "=") == [key, value]
  {
    ContainsChar(key, '=');
    ContainsChar(value, '=');
    assert "=" == ['='];
    SplitOfJoin([key, value], "=");
    assert Join([key, value], "=") == key + "=" + value;
  }

  /** The outcome of parsing one entry: the key and value to assign, or the error raised. */
  type Parsed = Result<(string, real), ParseError>

  /** Every entry of a message, parsed on its own. */
  function ParseEntries(entries: seq<string>, parse: FloatParser): (ps: seq<Parsed>)
    ensures |ps| == |entries|
    ensures forall i :: 0 <= i < |entries| ==> ps[i] == ParseEntry(entries[i], parse)
  {
    seq(|entries|, i requires 0 <= i < |entries| => ParseEntry(entries[i], parse))
  }

  /** The dictionary after a run of assignments, and the error that stopped it, if any. */
  datatype Applied = Applied(store: map<string, real>, error: Option<ParseError>)

  /**
    The `for entry in entries` loop of update_sensor_data over the parsed
    entries: they are applied left to right; the first failure raises,
    leaving the assignments made before it in place. No key is ever removed,
    and the run finishes without an error exactly when every entry parses.
  */
  function ApplyAll(m: map<string, real>, ps: seq<Parsed>): (a: Applied)
    ensures m.Keys <= a.store.Keys
    ensures a.error.None? <==> forall i :: 0 <= i < |ps| ==> ps[i].Ok?
    decreases |ps|
  {
    if ps == [] then Applied(m, None)
    else match ps[0]
      case Err(e) => Applied(m, Some(e))
      case Ok(kv) =>
        var a := ApplyAll(m[kv.0 := kv.1], ps[1..]);
        assert forall i :: 1 <= i < |ps| ==> ps[i] == ps[1..][i - 1];
        a
  }

  /** Applying the entries from index i: entry i first, then the rest, unless entry i fails. */
  lemma ApplyFrom(m: map<string, real>, ps: seq<Parsed>, i: nat)
    requires i < |ps|
    ensures ps[i].Err? ==> ApplyAll(m, ps[i..]) == Applied(m, Some(ps[i].error))
    ensures ps[i].Ok? ==> ApplyAll(m, ps[i..]) == ApplyAll(m[ps[i].value.0 := ps[i].value.1], ps[i + 1..])
  {
    assert ps[i..][0] == ps[i] && ps[i..][1..] == ps[i + 1..];
  }

  /** update_sensor_data: the text after "Data: " is split on ", " into entries, which are assigned in order. */
  function UpdatedSensorData(m: map<string, real>, dataStr: string, parse: FloatParser): Applied
  {
    ApplyAll(m, ParseEntries(Split(dataStr, ", "), parse))
  }

  /** The keys of the entries that parse, up to the first that does not. */
  function ParsedKeys(ps: seq<Parsed>): set<string>
    decreases |ps|
  {
    if ps == [] then {}
    else match ps[0]
      case Err(_) => {}
      case Ok(kv) => {kv.0} + ParsedKeys(ps[1..])
  }

  /** The keys afterwards are the old ones plus those the message assigned: unseen keys are added. */
  lemma {:induction false} ApplyKeys(m: map<string, real>, ps: seq<Parsed>)
    ensures ApplyAll(m, ps).store.Keys == m.Keys + ParsedKeys(ps)
    decreases |ps|
  {
    if ps != [] {
      match ps[0]
      case Err(_) =>
      case Ok(kv) =>
        ApplyKeys(m[kv.0 := kv.1], ps[1..]);
    }
  }

  /** When every entry parses, the assigned keys are exactly the keys of the entries. */
  lemma {:induction false} ParsedKeysAllOk(ps: seq<Parsed>)
    requires forall i :: 0 <= i < |ps| ==> ps[i].Ok?
    ensures forall k :: (k in ParsedKeys(ps) <==> exists i :: 0 <= i < |ps| && ps[i].value.0 == k)
    decreases |ps|
  {
    if ps != [] {
      var rest := ps[1..];
      assert forall i :: 1 <= i < |ps| ==> ps[i] == rest[i - 1];
      ParsedKeysAllOk(rest);
      assert ParsedKeys(ps) == {ps[0].value.0} + ParsedKeys(rest);
      forall k | k in ParsedKeys(ps)
        ensures exists i :: 0 <= i < |ps| && ps[i].value.0 == k
      {
        if k != ps[0].value.0 {
          assert k in ParsedKeys(rest);
          var j :| 0 <= j < |rest| && rest[j].value.0 == k;
          assert ps[j + 1].value.0 == k;
        }
      }
      forall k | exists i :: 0 <= i < |ps| && ps[i].value.0 == k
        ensures k in ParsedKeys(ps)
      {
        var i :| 0 <= i < |ps| && ps[i].value.0 == k;
        if i > 0 {
          assert rest[i - 1].value.0 == k;
        }
      }
    }
  }

  /** A key that no parsed entry names keeps its value. */
  lemma {:induction false} ApplyUntouched(m: map<string, real>, ps: seq<Parsed>, k: string)
    requires k in m
    requires forall i :: 0 <= i < |ps| && ps[i].Ok? ==> ps[i].value.0 != k
    ensures ApplyAll(m, ps).store[k] == m[k]
    decreases |ps|
  {
    if ps != [] {
      match ps[0]
      case Err(_) =>
      case Ok(kv) =>
        assert forall i :: 1 <= i < |ps| ==> ps[i] == ps[1..][i - 1];
        ApplyUntouched(m[kv.0 := kv.1], ps[1..], k);
    }
  }

  /**
    An entry that parses, with every entry before it parsing too, is applied;
    when no later entry that parses names the same key, the key ends up
    holding this entry's value, whether or not the run is stopped by a
    failure after it.
  */
  lemma {:induction false} ApplyLastWins(m: map<string, real>, ps: seq<Parsed>, i: nat)
    requires i < |ps| && forall j :: 0 <= j <= i ==> ps[j].Ok?
    requires forall j :: i < j < |ps| && ps[j].Ok? ==> ps[j].value.0 != ps[i].value.0
    ensures var kv := ps[i].value;
      kv.0 in ApplyAll(m, ps).store && ApplyAll(m, ps).store[kv.0] == kv.1
    decreases |ps|
  {
    var kv0 := ps[0].value;
    var m' := m[kv0.0 := kv0.1];
    assert forall j :: 1 <= j < |ps| ==> ps[j] == ps[1..][j - 1];
    if i == 0 {
      ApplyUntouched(m', ps[1..], kv0.0);
    } else {
      ApplyLastWins(m', ps[1..], i - 1);
    }
  }

  /**
    A run stopped at its first failing entry leaves the dictionary the entries
    before it produce, and raises that entry's error.
  */
  lemma {:induction false} ApplyStopsAtFailure(m: map<string, real>, ps: seq<Parsed>, f: nat)
    requires f < |ps| && ps[f].Err? && forall j :: 0 <= j < f ==> ps[j].Ok?
    ensures ApplyAll(m, ps) == Applied(ApplyAll(m, ps[..f]).store, Some(ps[f].error))
    decreases f
  {
    if f > 0 {
      var kv := ps[0].value;
      assert forall j :: 1 <= j < |ps| ==> ps[j] == ps[1..][j - 1];
      ApplyStopsAtFailure(m[kv.0 := kv.1], ps[1..], f - 1);
      assert ps[..f][0] == ps[0] && ps[..f][1..] == ps[1..][..f - 1];
    }
  }

  /** The servers' choice for one message. */
  datatype Action = StoreAndAck(payload: string) | AnswerProbe | NoReply

  /**
    handle_client's branch: a message starting with "Data: " has the rest
    stored and is acknowledged; exactly "Test Connection" is answered;
    anything else is only logged.
  */
  function Dispatch(message: string): (r: Action)
    ensures r.StoreAndAck? <==> StartsWith(message, DataPrefix)
    ensures r.StoreAndAck? ==> message == DataPrefix + r.payload
    ensures r.AnswerProbe? <==> message == ProbeMessage
  {
    assert ProbeMessage[0] != DataPrefix[0];
    if StartsWith(message, DataPrefix) then StoreAndAck(message[|DataPrefix|..])
    else if message == ProbeMessage then AnswerProbe
    else NoReply
  }

  /** The state after one message: the dictionary, the reply sent (if any) and the error raised (if any). */
  datatype Handled = Handled(store: map<string, real>, reply: Option<string>, error: Option<ParseError>)

  /**
    One pass of the `async for` body. A telemetry payload that fails to parse
    raises before "received" is sent, so it gets no reply.
  */
  function Reaction(m: map<string, real>, message: string, parse: FloatParser): (h: Handled)
    ensures m.Keys <= h.store.Keys
    ensures h.error.Some? ==> h.reply.None?
    ensures h.reply.Some? ==> h.reply.value == AckToken || h.reply.value == EstablishedToken
    ensures !StartsWith(message, DataPrefix) ==> h.store == m && h.error.None?
  {
    match Dispatch(message)
    case StoreAndAck(payload) =>
      var a := UpdatedSensorData(m, payload, parse);
      Handled(a.store, if a.error.None? then Some(AckToken) else None, a.error)
    case AnswerProbe => Handled(m, Some(EstablishedToken), None)
    case NoReply => Handled(m, None, None)
  }

  /** A connection's messages, handled in order; a raised error ends handle_client. */
  datatype Served = Served(store: map<string, real>, replies: seq<string>, error: Option<ParseError>)

  /** The replies of earlier messages in front of a session's outcome. */
  function Prepend(replies: seq<string>, s: Served): Served
  {
    s.(replies := replies + s.replies)
  }

  function Session(m: map<string, real>, messages: seq<string>, parse: FloatParser): (s: Served)
    ensures m.Keys <= s.store.Keys
    ensures |s.replies| <= |messages|
    decreases |messages|
  {
    if messages == [] then Served(m, [], None)
    else
      var h := Reaction(m, messages[0], parse);
      if h.error.Some? then Served(h.store, [], h.error)
      else
        Prepend(if h.reply.Some? then [h.reply.value] else [], Session(h.store, messages[1..], parse))
  }

  /** The first message of a session is handled first; an error ends the session there. */
  lemma SessionStep(m: map<string, real>, messages: seq<string>, parse: FloatParser)
    requires messages != []
    ensures var h := Reaction(m, messages[0], parse);
      Session(m, messages, parse)
      == if h.error.Some? then Served(h.store, [], h.error)
         else Prepend(if h.reply.Some? then [h.reply.value] else [], Session(h.store, messages[1..], parse))
  {
  }

  /** Handling the next message of a session, whose earlier replies are `replies`, moves its outcome one message on. */
  lemma SessionAdvance(total: Served, replies: seq<string>, m: map<string, real>, messages: seq<string>, parse: FloatParser)
    requires messages != []
    requires total == Prepend(replies, Session(m, messages, parse))
    ensures var h := Reaction(m, messages[0], parse);
      if h.error.Some? then total == Served(h.store, replies, h.error)
      else total == Prepend(replies + (if h.reply.Some? then [h.reply.value] else []), Session(h.store, messages[1..], parse))
  {
    SessionStep(m, messages, parse);
    var h := Reaction(m, messages[0], parse);
    if h.error.None? {
      var mine := if h.reply.Some? then [h.reply.value] else [];
      var rest := Session(h.store, messages[1..], parse);
      assert replies + (mine + rest.replies) == (replies + mine) + rest.replies;
    } else {
      assert replies + [] == replies;
    }
  }

  /** The robot's position. */
  datatype Position = Position(x: real, y: real, z: real)

  predicate HasMotionKeys(data: map<string, real>)
  {
    "Roll" in data && "Height" in data && "Pitch" in data
  }

  /** The offset added on each step: Roll drives x, Height drives y, Pitch drives z. */
  function Offset(data: map<string, real>): Position
    requires HasMotionKeys(data)
  {
    Position(data["Roll"] * 0.005, data["Height"] * -0.001, data["Pitch"] * -0.005)
  }

  /** One iteration of apply_robot_movement: the new target position. */
  function RobotStep(p: Position, data: map<string, real>): (q: Position)
    requires HasMotionKeys(data)
  {
    var d := Offset(data);
    Position(p.x + d.x, p.y + d.y, p.z + d.z)
  }

  /** The positions after consecutive iterations, each reading the dictionary as it then is. */
  function Drive(p: Position, readings: seq<map<string, real>>): Position
    requires forall i :: 0 <= i < |readings| ==> HasMotionKeys(readings[i])
    decreases |readings|
  {
    if readings == [] then p else Drive(RobotStep(p, readings[0]), readings[1..])
  }

  /** With the dictionary unchanged for n iterations, the robot moves n times the step offset. */
  lemma {:induction false} ConstantDrift(p: Position, data: map<string, real>, readings: seq<map<string, real>>)
    requires HasMotionKeys(data)
    requires forall i :: 0 <= i < |readings| ==> readings[i] == data
    ensures var d, n := Offset(data), |readings| as real;
      Drive(p, readings) == Position(p.x + n * d.x, p.y + n * d.y, p.z + n * d.z)
    decreases |readings|
  {
    if readings != [] {
      ConstantDrift(RobotStep(p, data), data, readings[1..]);
    }
  }

  datatype GripperCommand = Open | Close

  /** The gripper opens exactly when the Gripper value is above 500.0; 500.0 itself closes. */
  function GripperRule(data: map<string, real>): (c: GripperCommand)
    requires "Gripper" in data
    ensures c == Open <==> data["Gripper"] > 500.0
  {
    if data["Gripper"] > 500.0 then Open else Close
  }

  /** The start-up keys cover every key a robot iteration reads. */
  lemma StartUpKeysReadable(m: map<string, real>)
    requires SensorKeys <= m.Keys
    ensures HasMotionKeys(m) && "Gripper" in m
  {
    assert "Roll" in SensorKeys && "Height" in SensorKeys && "Pitch" in SensorKeys && "Gripper" in SensorKeys;
  }

  /** The server's global `sensor_data`, updated in place by the messages of the client. */
  class SensorStore {
    var sensorData: map<string, real>
    const parseFloat: FloatParser

    /** The start-up keys are always present, so a robot step can always read them. */
    ghost predicate Valid()
      reads this
    {
      SensorKeys <= sensorData.Keys
    }

    constructor (parse: FloatParser)
      ensures sensorData == InitialSensorData && parseFloat == parse && Valid()
    {
      sensorData := InitialSensorData;
      parseFloat := parse;
    }

    /**
      One iteration of apply_robot_movement's loop, reading `sensor_data` as it
      now is: the next target position and the gripper command. The keys it
      reads are always present.
    */
    method RobotIteration(p: Position) returns (q: Position, c: GripperCommand)
      requires Valid()
      ensures HasMotionKeys(sensorData) && "Gripper" in sensorData
      ensures q == RobotStep(p, sensorData) && c == GripperRule(sensorData)
    {
      StartUpKeysReadable(sensorData);
      var dx := sensorData["Roll"] * 0.005;
      var dy := sensorData["Height"] * -0.001;
      var dz := sensorData["Pitch"] * -0.005;
      q := Position(p.x + dx, p.y + dy, p.z + dz);
      c := if sensorData["Gripper"] > 500.0 then Open else Close;
    }

    /** update_sensor_data: assigns entry after entry until one fails to parse. */
    method UpdateSensorData(dataStr: string) returns (error: Option<ParseError>)
      requires Valid()
      modifies this
      ensures Valid()
      ensures Applied(sensorData, error) == UpdatedSensorData(old(sensorData), dataStr, parseFloat)
    {
      var entries := Split(dataStr, ", ");
      ghost var ps := ParseEntries(entries, parseFloat);
      var i := 0;
      error := None;
      while i < |entries|
        invariant i <= |entries| && Valid()
        invariant ApplyAll(old(sensorData), ps) == ApplyAll(sensorData, ps[i..])
      {
        ApplyFrom(sensorData, ps, i);
        match ParseEntry(entries[i], parseFloat)
        case Err(e) =>
          error := Some(e);
          return;
        case Ok(kv) =>
          sensorData := sensorData[kv.0 := kv.1];
        i := i + 1;
      }
    }

    /** One message of handle_client: the reply to send, if any, and the error raised, if any. */
    method HandleMessage(message: string) returns (reply: Option<string>, error: Option<ParseError>)
      requires Valid()
      modifies this
      ensures Valid()
      ensures Handled(sensorData, reply, error) == Reaction(old(sensorData), message, parseFloat)
    {
      match Dispatch(message)
      case StoreAndAck(payload) =>
        error := UpdateSensorData(payload);
        reply := if error.None? then Some(AckToken) else None;
      case AnswerProbe =>
        reply, error := Some(EstablishedToken), None;
      case NoReply =>
        reply, error := None, None;
    }

    /** handle_client: the `async for` over a connection's messages, ended by the first error raised. */
    method HandleClient(messages: seq<string>) returns (replies: seq<string>, error: Option<ParseError>)
      requires Valid()
      modifies this
      ensures Valid()
      ensures Served(sensorData, replies, error) == Session(old(sensorData), messages, parseFloat)
    {
      replies, error := [], None;
      var i := 0;
      while i < |messages|
        invariant i <= |messages| && Valid()
        invariant Session(old(sensorData), messages, parseFloat) == Prepend(replies, Session(sensorData, messages[i..], parseFloat))
      {
        assert messages[i..][0] == messages[i] && messages[i..][1..] == messages[i + 1..];
        SessionAdvance(Session(old(sensorData), messages, parseFloat), replies, sensorData, messages[i..], parseFloat);
        var reply, raised := HandleMessage(messages[i]);
        if raised.Some? {
          error := raised;
          return;
        }
        var mine := if reply.Some? then [reply.value] else [];
        replies := replies + mine;
        i := i + 1;
      }
    }
  }
}
