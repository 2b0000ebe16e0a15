# RCRemote, modelled in Dafny

RCRemote is a phone remote control for a robot arm. The phone integrates its
motion into seven telemetry values: orientation x/y/z, pitch and roll
accumulated from CoreMotion samples, a gripper slider, and a height. It sends
them over a WebSocket as one text line per acknowledgement. A server on the
robot side answers each line, parses it into a dictionary and drives the arm
from that dictionary.

This project models the four pieces that hold logic, and proves what each
one promises:

- `motion.dfy` (module `Motion`): the gate-and-accumulate aggregator of
  `MotionManager`. It is a class whose fields are updated in place. The pure
  `Step`/`Run` functions specify it, and lemmas prove telescoping, "frozen
  while disabled", no catching up and channel independence.
- `client.dfy` (module `Client`): the `WebSocketManager` state machine. It is
  a class over the manager's fields, with the outbound transport as an
  append-only log `sent`. Its transitions (`OnMessage`, `OnFrame`,
  `Deliver`) are pure functions over a `LinkState` value. The file also
  holds the fixed layout of the `Data:` line.
- `kinova.dfy` (module `Kinova`): the robot-side server of
  `example_kinova_gen3_move.py`. It covers the `sensor_data` dictionary,
  the `key=value` parser `update_sensor_data` (a class method with a loop),
  the reply branch of `handle_client`, and one step of `apply_robot_movement`.
- `tcp_server.dfy` (module `TcpServer`): the stateless reply rule of
  `PythonTCPServer/server.py`.
- `legacy_server.dfy` (module `LegacyServer`): the older positional parser
  of `server.py`.
- `protocol.dfy` (module `Protocol`): the client-to-server round trip. A line
  composed by the client parses, on the Kinova server, into exactly the seven
  start-up keys with the sent values. The gripper threshold is followed from
  the slider to the robot. The Kinova server's replies match the test
  server's. The exchange with the test server is ack-gated, one line per
  round. The older server cannot read the client's lines at all.
- `text.dfy` (module `Text`) models the Python string operations the servers
  use: `split` with a separator, `replace(old, "")`, `startswith` and
  `strip()`. The leftmost occurrence of a separator (`IndexOf`) and the
  joining of pieces (`Join`) are the helpers that define `split` and state
  what it inverts.
- `wire.dfy` holds the four protocol texts.
- `common.dfy` holds `Option`/`Result`.

Inputs the code takes from the outside world are parameters:
- Swift's `String(format:)` is the uninterpreted `fmt: RealFormatter`, applied to a value and a number of decimals.
- Python's `float()` is the uninterpreted `parse`, where `None` stands for the `ValueError` it raises.
- `URL(string:)` validity is the predicate `isValidUrl`.
- `Date()` is an integer number of milliseconds `now`.
- CoreMotion samples and inbound WebSocket frames are input sequences.

The round-trip lemmas need exactly two assumptions about the formatter, stated as hypotheses:
- `SeparatorFree`: formatted numbers contain neither `", "` nor `"="`.
- `AcceptsNumbers`: `float()` accepts every formatted number and every integer text.

The model follows the code as written, including where that is surprising:

- From the reset state, the first sample counts in full, because the previous sample is taken as 0. Three x readings 0.10, 0.12, 0.09 leave OrieX at 0.09, not at −0.01 (`Motion.ThreeSamplesFromReset`).
- The client keeps no outbound queue, and its link has no Connecting, AwaitingHandshake or Faulted state.
- A send is never refused while disconnected: it goes out whenever a socket task exists.
- The gripper and height values are not clamped.
- A reset sends no zeroed snapshot.
- `processSensorData` calls `updateData` without a `height` argument, although `updateData` requires one. The model passes the manager's current height, so a sample leaves the height as it was.
- In `server.py`, the first `", "`-piece of a message contains no `", "`. Still, `orie_data` can have more than one element, because removing `"Data: "` can bring a `","` and a `" "` together: `",Data:  x"` yields `["", "x"]` (`LegacyServer.OrieCanSplit`).
- `server.py` raises on every line the client sends, because it hands `OrieX=<value>` to `float()`. It therefore never gets past the probe (`Protocol.LegacyRejectsTelemetry`).

## Model

| member | source | states |
|---|---|---|
| Motion.StepChannel | RCRemote/ContentView.swift:55-66 | Per channel, a sample adds `value − previous value` (previous 0 when there is none) when that channel's gate is on, and leaves the channel unchanged when it is off |
| Motion.RunAppend | RCRemote/ContentView.swift:55-68 | Processing `a + b` equals processing `a`, then `b` from the `lastData` that `a` left |
| Motion.FrozenWhileDisabled | RCRemote/ContentView.swift:56-66 | A channel whose gate stays off keeps its accumulator over any run of samples |
| Motion.Telescoping | RCRemote/ContentView.swift:55-68 | With the gate on throughout a non-empty run, the accumulator grows by the last sample's value minus the value before the run |
| Motion.FromReset | RCRemote/ContentView.swift:57-68 | From zeroed accumulators and no `lastData`, an enabled channel holds exactly its value in the latest sample |
| Motion.NoCatchUp | RCRemote/ContentView.swift:56-68 | After an off stretch and then an on stretch, a channel holds only the change since the last sample of the off stretch; motion while off is lost |
| Motion.ChannelsIndependent | RCRemote/ContentView.swift:56-66 | A channel's value depends only on its own gate and the samples, never on other channels' gates or accumulators |
| Motion.ThreeSamplesFromReset | RCRemote/ContentView.swift:57-59 | Readings 0.10, 0.12, 0.09 from reset leave OrieX at 0.09 |
| Motion.MotionManager.constructor | RCRemote/ContentView.swift:14-31 | All accumulators 0, no previous sample, all gates on, not collecting, low precision, gripper 0 |
| Motion.MotionManager.Attach | RCRemote/ContentView.swift:101-103 | Links the WebSocketManager and changes nothing else |
| Motion.MotionManager.StartSensors | RCRemote/ContentView.swift:35-45 | Sample delivery starts; accumulators, gates and `lastData` stay |
| Motion.MotionManager.StopSensors | RCRemote/ContentView.swift:48-52 | Sample delivery stops and `lastData` is cleared; accumulators and settings stay |
| Motion.MotionManager.ProcessSensorData | RCRemote/ContentView.swift:55-71 | Accumulators become `Step` of the old ones under the old gates; `lastData` becomes the sample whatever the gates; settings unchanged; the WebSocketManager receives the new accumulators and the gripper value, keeps its height, and its link state is untouched |
| Motion.MotionManager.ResetData | RCRemote/ContentView.swift:74-81 | Accumulators zeroed and `lastData` cleared; gates, gripper, precision and `isCollecting` kept; nothing is sent to the WebSocketManager |
| Motion.MotionManager.SetCollecting | RCRemote/ContentView.swift:172-189 | Only a change of the toggle starts or stops the sensors; turning it off also clears `lastData` |
| Motion.MotionManager.ToggleOrie | RCRemote/ContentView.swift:212-217 | Flips the orientation gate only while collecting; otherwise nothing changes |
| Motion.MotionManager.TogglePitch | RCRemote/ContentView.swift:227-232 | Flips the pitch gate only while collecting |
| Motion.MotionManager.ToggleRoll | RCRemote/ContentView.swift:242-247 | Flips the roll gate only while collecting |
| Motion.MotionManager.TogglePrecision | RCRemote/ContentView.swift:192-195 | Flips the precision flag and hands the new value to the WebSocketManager, whose other state is unchanged |
| Motion.MotionManager.SetGripper | RCRemote/ContentView.swift:206 | Sets the gripper value (a whole number in 0…999, no clamping) and nothing else |
| Client.Truncate | RCRemote/WebSocketManager.swift:116 | `Int(x)` truncates toward zero: the result lies within 1 of `x`, on the side of 0 |
| Client.NatToString | RCRemote/WebSocketManager.swift:116 | The decimal text of a natural number is non-empty and made of digits |
| Client.NatToStringRoundTrip | RCRemote/WebSocketManager.swift:116 | Reading the digits back gives the number |
| Client.IntToString | RCRemote/WebSocketManager.swift:116 | A negative integer's text is a minus sign followed by at least one digit; any other integer's text is at least one digit |
| Client.IntToStringRoundTrip | RCRemote/WebSocketManager.swift:116 | An integer's text reads back as the integer, with the sign exactly when it is negative |
| Client.FieldTexts | RCRemote/WebSocketManager.swift:115-116 | One value text per label, in label order: the text under each label is that label's own telemetry value, the gripper as `Int(gripperValue)`, every other value formatted with 6 or 3 decimals by precision |
| Client.DataLineLayout | RCRemote/WebSocketManager.swift:115-116 | The telemetry line is `"Data: "` followed by the seven `label=value` entries joined by `", "`, in the order OrieX, OrieY, OrieZ, Pitch, Roll, Gripper, Height, with reals in 6 or 3 decimals by precision and Gripper as `Int(gripperValue)` |
| Client.OnMessageSends | RCRemote/WebSocketManager.swift:88-106 | "Connection Established" and "received" each append exactly one telemetry line to the sent log and stamp the send time; any other text changes nothing |
| Client.OnMessageFlags | RCRemote/WebSocketManager.swift:90-102 | "Connection Established" sets connected and clears the error; "received" sets the delay to `now − lastSendTime` only when a send time exists and leaves the flags alone |
| Client.FrameStep | RCRemote/WebSocketManager.swift:70-85 | One completed receive: a trigger text sends one line built from the telemetry held at that moment, other frames send nothing; a text keeps the receive armed, a failure or binary frame disarms it |
| Client.TriggerLines | RCRemote/WebSocketManager.swift:88-106 | One telemetry line per "Connection Established" or "received" among the frames |
| Client.DataSendsMatchTriggers | RCRemote/WebSocketManager.swift:70-106 | Over any receive loop, with samples arriving between completions, the log grows by exactly one line per "Connection Established" or "received" handled, each the `DataLine` of the telemetry held when that text was handled, and by nothing else |
| Client.TriggerLinesConstant | RCRemote/WebSocketManager.swift:88-106 | When no sample arrives during the loop, the lines sent are that many copies of one telemetry line |
| Client.WebSocketManager.constructor | RCRemote/WebSocketManager.swift:11-25 | Flags false, delay 0, no task, no send time, empty log, all telemetry 0 |
| Client.WebSocketManager.UpdateData | RCRemote/WebSocketManager.swift:27-36 | Overwrites exactly the seven telemetry fields with the arguments; the link state is unchanged |
| Client.WebSocketManager.Connect | RCRemote/WebSocketManager.swift:39-52 | For an invalid URL, only the error flag is set and nothing is sent; otherwise a task runs, a receive is armed and the probe "Test Connection" is the one text appended |
| Client.WebSocketManager.SendMessage | RCRemote/WebSocketManager.swift:55-67 | The text is appended to the log when a task exists (`webSocketTask?.send`), and nothing else changes |
| Client.WebSocketManager.SendFailed | RCRemote/WebSocketManager.swift:58-62 | A failed send only sets the error flag |
| Client.WebSocketManager.Receive | RCRemote/WebSocketManager.swift:70-85 | The new link state is `OnFrame` of the old: failure clears connected and disarms, a binary frame disarms, a text is handled |
| Client.WebSocketManager.HandleReceivedMessage | RCRemote/WebSocketManager.swift:88-106 | The new link state is `OnMessage` of the old, whose effects `OnMessageSends` and `OnMessageFlags` state |
| Client.WebSocketManager.UpdatePrecision | RCRemote/WebSocketManager.swift:109-111 | Only the precision flag changes |
| Client.WebSocketManager.SendSensorData | RCRemote/WebSocketManager.swift:114-119 | Stamps the send time, then sends the telemetry line of the current values |
| Client.WebSocketManager.Disconnect | RCRemote/WebSocketManager.swift:122-127 | The task is cancelled, the receive disarmed, and both flags become false |
| Client.WebSocketManager.Complete | RCRemote/WebSocketManager.swift:70-85 | One completion after the motion manager's latest `updateData`: the link state is `OnFrame` with the pushed values, and the receive stays armed exactly after a text |
| Client.WebSocketManager.Listen | RCRemote/WebSocketManager.swift:69-85 | Handling completed receives while one is armed, each after the `updateData` that precedes it, gives the link state `Deliver` specifies and leaves the values of the last frame handled |
| Kinova.ParseEntry | example_kinova_gen3_move.py:69-70 | An entry is rejected for its arity exactly when it does not contain exactly one "=" |
| Kinova.ParseEntryOfPair | example_kinova_gen3_move.py:69-70 | `key=value` with no "=" inside either part parses to the stripped key and `float(value)`, or fails on the value |
| Kinova.ApplyAll | example_kinova_gen3_move.py:68-70 | No key is ever removed; the run ends without error exactly when every entry parses |
| Kinova.ApplyKeys | example_kinova_gen3_move.py:66-70 | The keys afterwards are the old keys plus the keys assigned before the first failure; unseen keys are added |
| Kinova.ParsedKeysAllOk | example_kinova_gen3_move.py:68-70 | When all entries parse, the assigned keys are exactly the entries' keys |
| Kinova.ApplyUntouched | example_kinova_gen3_move.py:66-70 | A key no entry names keeps its previous value |
| Kinova.ApplyLastWins | example_kinova_gen3_move.py:68-70 | An entry reached before any failure is applied, and when no later parsed entry names its key, the key holds this entry's value, whether or not a failure stops the run afterwards |
| Kinova.ApplyStopsAtFailure | example_kinova_gen3_move.py:68-70 | A run stopped at its first failing entry raises that entry's error and leaves exactly the dictionary the entries before it produce |
| Kinova.Dispatch | example_kinova_gen3_move.py:92-100 | Store-and-ack exactly for messages starting "Data: " (the payload is the rest); answer exactly "Test Connection"; otherwise no reply |
| Kinova.Reaction | example_kinova_gen3_move.py:91-100 | A parse error gets no reply; replies are only "received" or "Connection Established"; non-telemetry messages leave the dictionary alone; no key is lost |
| Kinova.Session | example_kinova_gen3_move.py:87-104 | A connection's messages handled in order: keys are never lost and there is at most one reply per message |
| Kinova.SessionStep | example_kinova_gen3_move.py:91-101 | The first message is handled first, and an error ends the connection there |
| Kinova.SessionAdvance | example_kinova_gen3_move.py:91-101 | Handling the next message moves a connection's outcome on by one message |
| Kinova.ConstantDrift | example_kinova_gen3_move.py:114-137 | With the dictionary fixed, n steps move the arm by n × (Roll·0.005, Height·−0.001, Pitch·−0.005) |
| Kinova.GripperRule | example_kinova_gen3_move.py:127-131 | The gripper opens exactly when `Gripper > 500.0`, so 500.0 closes it |
| Kinova.StartUpKeysReadable | example_kinova_gen3_move.py:115-127 | A dictionary holding the start-up keys holds every key a robot iteration reads |
| Kinova.SensorStore.constructor | example_kinova_gen3_move.py:27-30 | The dictionary starts with the seven keys at 0.0 |
| Kinova.SensorStore.UpdateSensorData | example_kinova_gen3_move.py:66-70 | The loop over entries leaves the dictionary and error that `UpdatedSensorData` specifies; the start-up keys stay present |
| Kinova.SensorStore.HandleMessage | example_kinova_gen3_move.py:91-100 | One message changes the dictionary, replies and raises exactly as `Reaction` says |
| Kinova.SensorStore.HandleClient | example_kinova_gen3_move.py:87-104 | A whole connection ends with the dictionary, replies and error that `Session` specifies |
| Kinova.SensorStore.RobotIteration | example_kinova_gen3_move.py:115-132 | One robot iteration on the live dictionary never misses a key, and gives the `RobotStep` target and the `GripperRule` command |
| TcpServer.Reply | PythonTCPServer/server.py:19-27 | "received" exactly for messages starting "Data: "; "Connection Established" exactly for "Test Connection"; no reply exactly otherwise |
| TcpServer.Serve | PythonTCPServer/server.py:19-27 | At most one reply per message, and each reply is one of the two tokens |
| TcpServer.ServeConcat | PythonTCPServer/server.py:19-27 | No state is carried between messages: serving `a + b` is serving `a` then `b` |
| TcpServer.ServeCount | PythonTCPServer/server.py:19-27 | The number of replies is the number of probes plus telemetry lines |
| LegacyServer.FloatAll | server.py:15 | `tuple(map(float, …))` succeeds exactly when every text parses, with the parsed values in order; otherwise it raises `ValueError` naming the first text that does not parse |
| LegacyServer.Field | server.py:16-18 | Reading position k of fewer than k + 1 pieces raises IndexError; otherwise the value is what `float()` reads from piece k with its label removed, and a rejected text raises `ValueError` naming it |
| LegacyServer.Positional | server.py:13-18 | The reads succeed exactly when the message is readable (orientation texts parse, at least four pieces, pieces 1-3 parse once "Pitch: ", "Roll: ", "Gripper: " are removed), and then yield those values |
| LegacyServer.Handle | server.py:7-19 | Replied exactly for "Test Connection", always with "Connection Established"; any other message raises exactly when it is not readable and otherwise yields the four values `float()` reads; fewer than four pieces raise |
| LegacyServer.FormattedPieces | server.py:13 | `Data: <o>, Pitch: <p>, Roll: <r>, Gripper: <g>` with texts free of ", " splits into its four labelled pieces |
| LegacyServer.ReadsFormatted | server.py:13-18 | A message in that format, each text free of ", " and of its own label, yields `([float(o)], float(p), float(r), float(g))`, or a `ValueError` naming the first of o, p, r, g that `float()` rejects |
| LegacyServer.Serve | server.py:4-21 | Every reply is "Connection Established"; telemetry is never acknowledged |
| LegacyServer.ServeStops | server.py:6-21 | A message that raises ends the connection |
| LegacyServer.ServeProbe | server.py:8-10 | The probe is answered and the connection goes on |
| LegacyServer.OrieSingle | server.py:13-15 | `orie_data` has one element exactly when the text left after removing "Data: " has no ", " |
| LegacyServer.OrieCanSplit | server.py:13-15 | `",Data:  x"` is one piece after the first split, yet yields the two orientation texts `""` and `"x"` |
| Text.IndexOf | server.py:13-14 | The leftmost occurrence of the separator, where `split` cuts; none when it does not occur |
| Text.RemoveLeadingLabel | server.py:16-18 | `(label + x).replace(label, "")` is `x` when `x` holds no copy of the label |
| Text.Split | example_kinova_gen3_move.py:67 | The pieces join back to the text, and no piece contains the separator |
| Text.SplitSingle | server.py:14 | There is one piece exactly when the separator does not occur |
| Text.SplitOfJoin | example_kinova_gen3_move.py:67 | Splitting a join gives the list back when no element contains the border-free separator |
| Text.SplitCharCount | example_kinova_gen3_move.py:69 | Splitting on one character gives one piece more than its number of occurrences |
| Text.RemoveAll | server.py:14 | `replace(pat, "")` never lengthens the text, and leaves it unchanged when `pat` does not occur |
| Text.RemoveAllAtFirst | server.py:14 | `replace(pat, "")` keeps the text before the leftmost occurrence, drops the occurrence and goes on after it |
| Text.RemoveAllIsJoinSplit | server.py:14 | `s.replace(pat, "")` equals `"".join(s.split(pat))`: every occurrence split off is dropped |
| Text.RemoveAllAfterPrefix | server.py:14 | A prefix that lacks the first character of `pat` survives `replace(pat, "")` |
| Text.Strip | example_kinova_gen3_move.py:70 | `strip()` keeps one contiguous slice of the text and cuts off only white space before and after it; the slice neither starts nor ends with white space; a text with no white space at its ends stays as it is |
| Text.StripUnique | example_kinova_gen3_move.py:70 | Any slice cut that way, with no white space at its ends, is `strip()`'s result, so the contract fixes it |
| Text.StripExample | example_kinova_gen3_move.py:70 | `" ab ".strip()` is `"ab"` |
| Protocol.TelemetryEntries | RCRemote/WebSocketManager.swift:116 | The client's line starts with "Data: ", and the rest splits on ", " into exactly the seven entries |
| Protocol.EntriesPlain | RCRemote/WebSocketManager.swift:116 | No entry of a telemetry line contains ", ", and no value text contains "=" |
| Protocol.LabelsDistinct | RCRemote/WebSocketManager.swift:116 | The seven labels are pairwise different |
| Protocol.SensorKeysAreLabels | example_kinova_gen3_move.py:27-30 | The server's start-up keys are exactly the client's labels |
| Protocol.ApplyLabelled | example_kinova_gen3_move.py:66-70 | Seven entries, one per label, add exactly the start-up keys and store each value under its label |
| Protocol.TelemetryRoundTrip | example_kinova_gen3_move.py:66-70 | A client line, less "Data: ", updates the Kinova dictionary without error; its keys become the old keys plus the seven start-up keys; each label holds `float()` of its sent text |
| Protocol.GripperEndToEnd | example_kinova_gen3_move.py:127-131 | The stored Gripper value is the truncated slider value, so the gripper opens exactly when the slider is at 501 or more |
| Protocol.KinovaRepliesLikeTcpServer | example_kinova_gen3_move.py:91-100 | When nothing is raised, the Kinova server replies to a message as the test server does |
| Protocol.KinovaSessionLikeTcpServer | example_kinova_gen3_move.py:87-104 | Over a connection that raises nothing, the Kinova replies are the test server's |
| Protocol.ProbeAnswered | server.py:8-10 | All three servers answer the probe with "Connection Established", and the Kinova dictionary is unchanged by it |
| Protocol.LegacyRejectsTelemetry | server.py:13-15 | The older server raises on any client line, so a connection that sends the probe and then telemetry gets exactly one reply |
| Protocol.ExchangeRound | RCRemote/WebSocketManager.swift:88-119 | The test server answers the last text sent, and the client's handling of that answer sends exactly one telemetry line, which is itself answerable |
| Protocol.Lockstep | RCRemote/WebSocketManager.swift:88-119 | With the test server, each round adds exactly one telemetry line, and the send time is that of the last round |
| Protocol.LockstepConnected | RCRemote/WebSocketManager.swift:88-102 | Over the same exchange, answering the probe leaves the client connected with no error, and answers to telemetry lines leave both flags as they were |

## Left out

- The SwiftUI view body, ConnectView, UIColor and the app entry point: presentation only. The model keeps only the buttons' and toggles' actions.
- CoreMotion: samples are an input sequence of five reals (quaternion x, y, z, pitch, roll). `startSensors` only starts delivery; the update interval and the main queue are not modelled.
- Floating point: Swift `Double` and Python `float` values are exact Dafny `real`s, so rounding in the accumulators is not modelled.
- `String(format:)` and Python `float()`: left uninterpreted, as parameters. The round trip assumes formatted numbers hold no `", "` and no `"="`, and that `float()` accepts them.
- `URL(string:)`: a parameter predicate `isValidUrl`.
- Client.OnMessageFlags: `networkDelay` is `now − lastSendTime` on an integer-millisecond clock; the conversion `Int(delay * 1000)` from seconds is not modelled.
- URLSession, `DispatchQueue.main.async` hops and the recursive re-arming of `receive`: sends are appended to a log at once, and inbound frames are a sequence handled one at a time. The values `updateData` pushes between two completions are carried by each inbound frame. Delayed flag updates are not modelled.
- Heartbeat tasks, threads, event loops, `websockets.serve`, RCareWorld robot and gripper calls, and random box placement: I/O and concurrency. The robot thread's reads of `sensor_data` racing the server's writes are not modelled.
- Kinova.ConstantDrift: `apply_robot_movement`'s `while True` loop is modelled as `Drive` over a finite sequence of dictionary readings, one per iteration, and not as an endless loop.
- Client.WebSocketManager.Listen: the precision toggle is held fixed over one run of the receive loop; a toggle between completions is modelled by `UpdatePrecision` between two runs.
- `print` output and the `Received unknown message.` log.
- Text.Strip: only the ASCII white space of Python's `str.strip()` is removed; Unicode white space is not modelled.
- Text.RemoveAll: modelled for a non-empty pattern only, as every use in the source passes one.
- Binary WebSocket frames on the servers: every inbound message is modelled as text. A `bytes` message would make `startswith` or `split` raise TypeError and end the connection (PythonTCPServer/server.py:20, example_kinova_gen3_move.py:92, server.py:13). That path is not modelled. The client only ever sends text frames, so the round-trip lemmas cover every message it sends.
