/**
  The gate-and-accumulate aggregator of RCRemote/ContentView.swift
  (class MotionManager): each motion sample adds `current - previous` to
  every enabled channel's accumulator, and the previous sample advances on
  every call whatever the gates say. Reals are exact here.
*/
module Motion {
  import opened Common
  import opened Client

  /** The parts of a CMDeviceMotion sample the aggregator reads: attitude quaternion x, y, z, pitch and roll. */
  datatype Sample = Sample(qx: real, qy: real, qz: real, pitch: real, roll: real)

  /** orientationChange.x/y/z, pitchChange and rollChange. */
  datatype Accumulators = Accumulators(x: real, y: real, z: real, pitch: real, roll: real)

  /** isGettingOrie, isGettingPitch and isGettingRoll. */
  datatype Gates = Gates(orie: bool, pitch: bool, roll: bool)

  datatype Channel = OrieX | OrieY | OrieZ | Pitch | Roll

  const Zero := Accumulators(0.0, 0.0, 0.0, 0.0, 0.0)

  function Get(a: Accumulators, c: Channel): real
  {
    match c
    case OrieX => a.x
    case OrieY => a.y
    case OrieZ => a.z
    case Pitch => a.pitch
    case Roll => a.roll
  }

  function Value(s: Sample, c: Channel): real
  {
    match c
    case OrieX => s.qx
    case OrieY => s.qy
    case OrieZ => s.qz
    case Pitch => s.pitch
    case Roll => s.roll
  }

  /** The three orientation components share one gate. */
  function Enabled(g: Gates, c: Channel): bool
  {
    match c
    case OrieX | OrieY | OrieZ => g.orie
    case Pitch => g.pitch
    case Roll => g.roll
  }

  /** `lastData?.… ?? 0`: the previous sample, every channel 0 when there is none. */
  function Baseline(last: Option<Sample>): Sample
  {
    match last
    case None => Sample(0.0, 0.0, 0.0, 0.0, 0.0)
    case Some(s) => s
  }

  /** The accumulator update of processSensorData. */
  function Step(acc: Accumulators, g: Gates, last: Option<Sample>, s: Sample): Accumulators
  {
    var prev := Baseline(last);
    Accumulators(
      if g.orie then acc.x + (s.qx - prev.qx) else acc.x,
      if g.orie then acc.y + (s.qy - prev.qy) else acc.y,
      if g.orie then acc.z + (s.qz - prev.qz) else acc.z,
      if g.pitch then acc.pitch + (s.pitch - prev.pitch) else acc.pitch,
      if g.roll then acc.roll + (s.roll - prev.roll) else acc.roll)
  }

  /**
    Per channel, a step adds `sample - previous` when that channel's gate is
    on and leaves it alone when off; what happens to a channel depends on no
    other channel's gate or value.
  */
  lemma StepChannel(acc: Accumulators, g: Gates, last: Option<Sample>, s: Sample, c: Channel)
    ensures Get(Step(acc, g, last, s), c)
         == if Enabled(g, c) then Get(acc, c) + (Value(s, c) - Value(Baseline(last), c)) else Get(acc, c)
  {
  }

  /** One delivered sample together with the gates in force when it arrives. */
  datatype Tick = Tick(gates: Gates, sample: Sample)

  /** The accumulators after a run of samples. */
  function Run(acc: Accumulators, last: Option<Sample>, ticks: seq<Tick>): Accumulators
    decreases |ticks|
  {
    if ticks == [] then acc
    else Run(Step(acc, ticks[0].gates, last, ticks[0].sample), Some(ticks[0].sample), ticks[1..])
  }

  /** `lastData` after a run of samples. */
  function LastAfter(last: Option<Sample>, ticks: seq<Tick>): Option<Sample>
  {
    if ticks == [] then last else Some(ticks[|ticks| - 1].sample)
  }

  /** A run over `a + b` is the run over `a` continued over `b` from where `a` left `lastData`. */
  lemma {:induction false} RunAppend(acc: Accumulators, last: Option<Sample>, a: seq<Tick>, b: seq<Tick>)
    ensures Run(acc, last, a + b) == Run(Run(acc, last, a), LastAfter(last, a), b)
    decreases |a|
  {
    if a != [] {
      assert (a + b)[1..] == a[1..] + b;
      RunAppend(Step(acc, a[0].gates, last, a[0].sample), Some(a[0].sample), a[1..], b);
      assert a[1..] != [] ==> a[1..][|a[1..]| - 1] == a[|a| - 1];
    } else {
      assert a + b == b;
    }
  }

  /** A channel whose gate is off throughout a run keeps its value, whatever the samples. */
  lemma {:induction false} FrozenWhileDisabled(acc: Accumulators, last: Option<Sample>, ticks: seq<Tick>, c: Channel)
    requires forall i :: 0 <= i < |ticks| ==> !Enabled(ticks[i].gates, c)
    ensures Get(Run(acc, last, ticks), c) == Get(acc, c)
    decreases |ticks|
  {
    if ticks != [] {
      StepChannel(acc, ticks[0].gates, last, ticks[0].sample, c);
      FrozenWhileDisabled(Step(acc, ticks[0].gates, last, ticks[0].sample), Some(ticks[0].sample), ticks[1..], c);
    }
  }

  /**
    Telescoping: over a non-empty run with the channel enabled throughout,
    the accumulator grows by the last sample's value minus the value before
    the run (0 when there was no previous sample).
  */
  lemma {:induction false} Telescoping(acc: Accumulators, last: Option<Sample>, ticks: seq<Tick>, c: Channel)
    requires ticks != []
    requires forall i :: 0 <= i < |ticks| ==> Enabled(ticks[i].gates, c)
    ensures Get(Run(acc, last, ticks), c)
         == Get(acc, c) + Value(ticks[|ticks| - 1].sample, c) - Value(Baseline(last), c)
    decreases |ticks|
  {
    var next := Step(acc, ticks[0].gates, last, ticks[0].sample);
    StepChannel(acc, ticks[0].gates, last, ticks[0].sample, c);
    if |ticks| > 1 {
      Telescoping(next, Some(ticks[0].sample), ticks[1..], c);
    }
  }

  /**
    From the reset state (accumulators 0, no previous sample) an enabled
    channel holds exactly its value in the latest sample: the first sample
    after a reset counts in full.
  */
  lemma FromReset(ticks: seq<Tick>, c: Channel)
    requires ticks != []
    requires forall i :: 0 <= i < |ticks| ==> Enabled(ticks[i].gates, c)
    ensures Get(Run(Zero, None, ticks), c) == Value(ticks[|ticks| - 1].sample, c)
  {
    Telescoping(Zero, None, ticks, c);
  }

  /**
    No catching up: after a stretch with the channel off and a stretch with
    it on, the accumulator holds only the change measured from the last
    sample of the off stretch; the motion while off is lost.
  */
  lemma NoCatchUp(acc: Accumulators, last: Option<Sample>, off: seq<Tick>, on: seq<Tick>, c: Channel)
    requires forall i :: 0 <= i < |off| ==> !Enabled(off[i].gates, c)
    requires on != [] && forall i :: 0 <= i < |on| ==> Enabled(on[i].gates, c)
    ensures Get(Run(acc, last, off + on), c)
         == Get(acc, c) + Value(on[|on| - 1].sample, c) - Value(Baseline(LastAfter(last, off)), c)
  {
    RunAppend(acc, last, off, on);
    FrozenWhileDisabled(acc, last, off, c);
    Telescoping(Run(acc, last, off), LastAfter(last, off), on, c);
  }

  /**
    Channels are independent: two runs over the same samples, from
    accumulators that agree on channel `c`, whose gates agree on `c` at every
    step, end with the same value of `c`, however the other gates were set
    and whatever the other accumulators held.
  */
  lemma {:induction false} ChannelsIndependent(a1: Accumulators, a2: Accumulators, last: Option<Sample>, t1: seq<Tick>, t2: seq<Tick>, c: Channel)
    requires Get(a1, c) == Get(a2, c) && |t1| == |t2|
    requires forall i :: 0 <= i < |t1| ==> t1[i].sample == t2[i].sample
    requires forall i :: 0 <= i < |t1| ==> Enabled(t1[i].gates, c) == Enabled(t2[i].gates, c)
    ensures Get(Run(a1, last, t1), c) == Get(Run(a2, last, t2), c)
    decreases |t1|
  {
    if t1 != [] {
      StepChannel(a1, t1[0].gates, last, t1[0].sample, c);
      StepChannel(a2, t2[0].gates, last, t2[0].sample, c);
      ChannelsIndependent(
        Step(a1, t1[0].gates, last, t1[0].sample), Step(a2, t2[0].gates, last, t2[0].sample),
        Some(t1[0].sample), t1[1..], t2[1..], c);
    }
  }

  /**
    Three x readings 0.10, 0.12, 0.09 from the reset state leave OrieX at
    0.09, not at the sum of the two frame-to-frame deltas (-0.01), because
    the first sample is measured from 0.
  */
  lemma ThreeSamplesFromReset(g: Gates)
    requires g.orie
    ensures var ticks := [Tick(g, Sample(0.10, 0.0, 0.0, 0.0, 0.0)),
                          Tick(g, Sample(0.12, 0.0, 0.0, 0.0, 0.0)),
                          Tick(g, Sample(0.09, 0.0, 0.0, 0.0, 0.0))];
      Run(Zero, None, ticks).x == 0.09
  {
    var ticks := [Tick(g, Sample(0.10, 0.0, 0.0, 0.0, 0.0)),
                  Tick(g, Sample(0.12, 0.0, 0.0, 0.0, 0.0)),
                  Tick(g, Sample(0.09, 0.0, 0.0, 0.0, 0.0))];
    FromReset(ticks, OrieX);
  }

  /** The settings a sample never touches. */
  datatype Settings = Settings(
    isCollecting: bool, gates: Gates, gripperValue: real, highPrecision: bool, sensorsRunning: bool)

  class MotionManager {
    var lastData: Option<Sample>
    var orieX: real
    var orieY: real
    var orieZ: real
    var pitchChange: real
    var rollChange: real
    var gripperValue: real
    var isCollecting: bool
    var isGettingOrie: bool
    var isGettingPitch: bool
    var isGettingRoll: bool
    var highPrecision: bool
    var sensorsRunning: bool     // CoreMotion device-motion updates are started
    var webSocketManager: WebSocketManager?

    function Accumulated(): Accumulators
      reads this
    {
      Accumulators(orieX, orieY, orieZ, pitchChange, rollChange)
    }

    function GateState(): Gates
      reads this
    {
      Gates(isGettingOrie, isGettingPitch, isGettingRoll)
    }

    function Controls(): Settings
      reads this
    {
      Settings(isCollecting, GateState(), gripperValue, highPrecision, sensorsRunning)
    }

    constructor ()
      ensures Accumulated() == Zero && lastData == None && webSocketManager == null
      ensures Controls() == Settings(false, Gates(true, true, true), 0.0, false, false)
    {
      lastData := None;
      orieX, orieY, orieZ, pitchChange, rollChange, gripperValue := 0.0, 0.0, 0.0, 0.0, 0.0, 0.0;
      isCollecting, isGettingOrie, isGettingPitch, isGettingRoll := false, true, true, true;
      highPrecision, sensorsRunning := false, false;
      webSocketManager := null;
    }

    /** The view's onAppear hands its WebSocketManager to the motion manager. */
    method Attach(ws: WebSocketManager)
      modifies this
      ensures webSocketManager == ws
      ensures Accumulated() == old(Accumulated()) && lastData == old(lastData) && Controls() == old(Controls())
    {
      webSocketManager := ws;
    }

    /** Starts device-motion delivery; the update interval and queue are not modelled. */
    method StartSensors()
      modifies this
      ensures Controls() == old(Controls()).(sensorsRunning := true)
      ensures Accumulated() == old(Accumulated()) && lastData == old(lastData)
      ensures webSocketManager == old(webSocketManager)
    {
      sensorsRunning := true;
    }

    method StopSensors()
      modifies this
      ensures Controls() == old(Controls()).(sensorsRunning := false)
      ensures Accumulated() == old(Accumulated()) && lastData == None
      ensures webSocketManager == old(webSocketManager)
    {
      sensorsRunning := false;
      lastData := None;
    }

    /**
      Adds `sample - previous` to each enabled channel, makes the sample the
      new previous one whatever the gates, and forwards the accumulators and
      the gripper value to the WebSocketManager, whose height is left as it
      was and whose link state is untouched.
    */
    method ProcessSensorData(data: Sample)
      requires sensorsRunning
      modifies this, webSocketManager
      ensures webSocketManager == old(webSocketManager)
      ensures Accumulated() == Step(old(Accumulated()), old(GateState()), old(lastData), data)
      ensures lastData == Some(data)
      ensures Controls() == old(Controls())
      ensures webSocketManager != null ==>
        && webSocketManager.Snapshot()
           == Telemetry(orieX, orieY, orieZ, pitchChange, rollChange, gripperValue, old(webSocketManager.height))
        && webSocketManager.Link() == old(webSocketManager.Link())
    {
      var prev := Baseline(lastData);
      if isGettingOrie {
        orieX := orieX + (data.qx - prev.qx);
        orieY := orieY + (data.qy - prev.qy);
        orieZ := orieZ + (data.qz - prev.qz);
      }
      if isGettingPitch {
        pitchChange := pitchChange + (data.pitch - prev.pitch);
      }
      if isGettingRoll {
        rollChange := rollChange + (data.roll - prev.roll);
      }
      lastData := Some(data);
      if webSocketManager != null {
        webSocketManager.UpdateData(orieX, orieY, orieZ, pitchChange, rollChange, gripperValue, webSocketManager.height);
      }
    }

    /**
      Stops the sensors and zeroes the accumulators; the gates, the gripper
      value, the precision flag and isCollecting stay, and nothing is sent:
      the WebSocketManager keeps the old values.
    */
    method ResetData()
      modifies this
      ensures Accumulated() == Zero && lastData == None
      ensures Controls() == old(Controls()).(sensorsRunning := false)
      ensures webSocketManager == old(webSocketManager)
      ensures webSocketManager != null ==> webSocketManager.Snapshot() == old(webSocketManager.Snapshot())
    {
      StopSensors();
      orieX, orieY, orieZ := 0.0, 0.0, 0.0;
      pitchChange := 0.0;
      rollChange := 0.0;
    }

    /** The "Sensors" toggle: on a change of value, start or stop the sensors. */
    method SetCollecting(on: bool)
      modifies this
      ensures on == old(isCollecting) ==> Controls() == old(Controls()) && lastData == old(lastData)
      ensures on != old(isCollecting) && on ==>
        Controls() == old(Controls()).(isCollecting := true, sensorsRunning := true) && lastData == old(lastData)
      ensures on != old(isCollecting) && !on ==>
        Controls() == old(Controls()).(isCollecting := false, sensorsRunning := false) && lastData == None
      ensures Accumulated() == old(Accumulated()) && webSocketManager == old(webSocketManager)
    {
      if on != isCollecting {
        isCollecting := on;
        if on {
          StartSensors();
        } else {
          StopSensors();
        }
      }
    }

    /** The "Orie" button: flips the orientation gate, only while collecting. */
    method ToggleOrie()
      modifies this
      ensures Controls() == old(Controls()).(gates := old(GateState()).(orie := if old(isCollecting) then !old(isGettingOrie) else old(isGettingOrie)))
      ensures Accumulated() == old(Accumulated()) && lastData == old(lastData)
      ensures webSocketManager == old(webSocketManager)
    {
      if isCollecting {
        isGettingOrie := !isGettingOrie;
      }
    }

    /** The "Pitch" button: flips the pitch gate, only while collecting. */
    method TogglePitch()
      modifies this
      ensures Controls() == old(Controls()).(gates := old(GateState()).(pitch := if old(isCollecting) then !old(isGettingPitch) else old(isGettingPitch)))
      ensures Accumulated() == old(Accumulated()) && lastData == old(lastData)
      ensures webSocketManager == old(webSocketManager)
    {
      if isCollecting {
        isGettingPitch := !isGettingPitch;
      }
    }

    /** The "Roll" button: flips the roll gate, only while collecting. */
    method ToggleRoll()
      modifies this
      ensures Controls() == old(Controls()).(gates := old(GateState()).(roll := if old(isCollecting) then !old(isGettingRoll) else old(isGettingRoll)))
      ensures Accumulated() == old(Accumulated()) && lastData == old(lastData)
      ensures webSocketManager == old(webSocketManager)
    {
      if isCollecting {
        isGettingRoll := !isGettingRoll;
      }
    }

    /** The "Precise" button: flips the precision flag and passes it on to the WebSocketManager. */
    method TogglePrecision()
      modifies this, webSocketManager
      ensures Controls() == old(Controls()).(highPrecision := !old(highPrecision))
      ensures Accumulated() == old(Accumulated()) && lastData == old(lastData)
      ensures webSocketManager == old(webSocketManager)
      ensures webSocketManager != null ==>
        && webSocketManager.Link() == old(webSocketManager.Link()).(highPrecision := highPrecision)
        && webSocketManager.Snapshot() == old(webSocketManager.Snapshot())
    {
      highPrecision := !highPrecision;
      if webSocketManager != null {
        webSocketManager.UpdatePrecision(highPrecision);
      }
    }

    /** The gripper slider, which only produces whole numbers between 0 and 999. */
    method SetGripper(value: real)
      requires 0.0 <= value <= 999.0 && value.Floor as real == value
      modifies this
      ensures Controls() == old(Controls()).(gripperValue := value)
      ensures Accumulated() == old(Accumulated()) && lastData == old(lastData)
      ensures webSocketManager == old(webSocketManager)
    {
      gripperValue := value;
    }
  }
}
