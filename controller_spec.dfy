/**
 * The state machine of TelloController (drone_backend/src/tello/controller.py)
 * as values: `Ctl` is the controller's state together with its drone, and
 * each operation is a function from the old state to the new state and the
 * boolean the Python method returns. The class in controller.dfy is proved
 * against these functions.
 */
module ControllerSpec {
  import opened Wrappers
  import opened Drone
  import Pid

  datatype SafetyLimits = SafetyLimits(minBattery: int, maxHeight: int)

  const EmergencyBattery := 10
  const TrackCooldown: real := 0.5
  const DeadZone: real := 0.1
  const DepthTarget: real := 0.3
  const GainsXY := Pid.Gains(0.4, 0.0, 0.2)
  const GainsZ := Pid.Gains(0.3, 0.0, 0.15)

  /**
   * `hasDrone` says whether `self.drone` has been set (by `connect`);
   * `drone` is the environment the commands go to.
   */
  datatype Ctl = Ctl(
    limits: SafetyLimits,
    connected: bool,
    flying: bool,
    streaming: bool,
    hasDrone: bool,
    stopThread: bool,
    lastTrackTime: real,
    pidX: Pid.PidState,
    pidY: Pid.PidState,
    pidZ: Pid.PidState,
    startTime: Option<real>,
    totalFlightTime: real,
    drone: Tello)

  function Initial(limits: SafetyLimits, env: Tello): Ctl
  {
    Ctl(limits, false, false, false, false, false, 0.0,
        Pid.Zero, Pid.Zero, Pid.Zero, None, 0.0, env)
  }

  /** Python truthiness of an optional integer reading: neither None nor 0. */
  predicate Truthy(v: Option<int>) { v.Some? && v.value != 0 }

  function Clamp(v: int, lo: int, hi: int): int
  {
    if v < lo then lo else if v > hi then hi else v
  }

  function Abs(r: real): real { if r < 0.0 then -r else r }

  /** `int(np.clip(abs(control) * scale, 20, 50))`. */
  function StepSize(control: real, scale: real): (d: int)
    ensures 20 <= d <= 50
    ensures Abs(control) * scale <= 20.0 ==> d == 20
    ensures Abs(control) * scale >= 50.0 ==> d == 50
    ensures 20.0 <= Abs(control) * scale <= 50.0 ==> d as real <= Abs(control) * scale < d as real + 1.0
  {
    var v := Abs(control) * scale;
    var clipped := if v < 20.0 then 20.0 else if v > 50.0 then 50.0 else v;
    clipped.Floor
  }

  function GetBattery(c: Ctl): Option<int>
  {
    if !c.connected then None else c.drone.battery
  }

  function GetHeight(c: Ctl): Option<int>
  {
    if !c.connected then None else c.drone.height
  }

  /** `get_frame`: nothing unless connected and streaming. */
  function GetFrame(c: Ctl, camera: Observation): (r: Observation)
    ensures !(c.connected && c.streaming) ==> r == NoFrame
    ensures c.connected && c.streaming ==> r == camera
  {
    if !c.connected || !c.streaming then NoFrame else camera
  }

  /** The battery reading is below the emergency level and counts (not None, not 0). */
  predicate Critical(c: Ctl)
  {
    var b := GetBattery(c); Truthy(b) && b.value < EmergencyBattery
  }

  predicate TooHigh(c: Ctl)
  {
    var h := GetHeight(c); Truthy(h) && h.value > c.limits.maxHeight
  }

  /** The readings that let `_check_safety` return True. */
  predicate Safe(c: Ctl)
  {
    c.connected && !Critical(c) && !TooHigh(c)
  }

  /** What no command of the flight layer changes: connection, limits, readings, failures. */
  predicate SameSetting(c: Ctl, c': Ctl)
  {
    && c'.limits == c.limits
    && c'.connected == c.connected
    && c'.streaming == c.streaming
    && c'.hasDrone == c.hasDrone
    && c'.stopThread == c.stopThread
    && c'.drone.battery == c.drone.battery
    && c'.drone.height == c.drone.height
    && c'.drone.temperature == c.drone.temperature
    && c'.drone.failing == c.drone.failing
  }

  /** Every movement and rotation the drone receives is within the clamp ranges. */
  predicate WithinLimits(cmd: Command)
  {
    match cmd
    case Move(_, cm) => 20 <= cm <= 500
    case RotateClockwise(deg) => 1 <= deg <= 360
    case RotateCounterClockwise(deg) => 1 <= deg <= 360
    case _ => true
  }

  /** `c'` extends the log of `c`, and every command added is within limits. */
  predicate Appends(c: Ctl, c': Ctl)
  {
    && |c.drone.log| <= |c'.drone.log|
    && c'.drone.log[..|c.drone.log|] == c.drone.log
    && forall i | |c.drone.log| <= i < |c'.drone.log| :: WithinLimits(c'.drone.log[i])
  }

  /** Extending an extension of the log is extending the log. */
  lemma AppendsTrans(a: Ctl, b: Ctl, c: Ctl)
    requires Appends(a, b) && Appends(b, c)
    ensures Appends(a, c)
  {
    forall i | |a.drone.log| <= i < |c.drone.log|
      ensures WithinLimits(c.drone.log[i])
    {
      if i < |b.drone.log| {
        assert c.drone.log[i] == c.drone.log[..|b.drone.log|][i] == b.drone.log[i];
      }
    }
    assert c.drone.log[..|a.drone.log|] == c.drone.log[..|b.drone.log|][..|a.drone.log|];
  }

  function Send(c: Ctl, cmd: Command): (Ctl, bool)
  {
    var (d, ok) := Issue(c.drone, cmd);
    (c.(drone := d), ok)
  }

  /** Seconds added to the total flight time by a landing at `now`. */
  function FlightTime(start: Option<real>, now: real): real
  {
    if start.Some? && start.value != 0.0 then now - start.value else 0.0
  }

  /** `connect`: a fresh drone handle, the connect command, then two readings that must not raise. */
  function Connect(c: Ctl): (r: (Ctl, bool))
    ensures r.0.hasDrone && r.0.drone.log == c.drone.log + [Command.Connect]
    ensures r.1 <==> (Command.Connect !in c.drone.failing
                      && c.drone.battery.Some? && c.drone.temperature.Some?)
    ensures r.0.connected == r.1
    ensures r.0 == c.(hasDrone := true, connected := r.1, stopThread := r.0.stopThread,
                      drone := c.drone.(log := r.0.drone.log))
    ensures r.0.stopThread == (if r.1 then false else c.stopThread)
  {
    var (c1, ok) := Send(c.(hasDrone := true), Command.Connect);
    if !ok || c1.drone.battery.None? || c1.drone.temperature.None? then
      (c1.(connected := false), false)
    else
      (c1.(connected := true, stopThread := false), true)
  }

  /** `land`: refused without a connection; a landing that does not raise clears `is_flying`. */
  function Land(c: Ctl, now: real): (r: (Ctl, bool))
    ensures !c.connected ==> r == (c, false)
    ensures c.connected ==> r.0.drone.log == c.drone.log + [Command.Land]
    ensures r.1 <==> c.connected && Command.Land !in c.drone.failing
    ensures r.0.flying == (c.flying && !r.1)
    ensures SameSetting(c, r.0) && Appends(c, r.0)
  {
    if !c.connected then (c, false)
    else
      var (c1, ok) := Send(c, Command.Land);
      if !ok then (c1, false)
      else (c1.(flying := false,
                totalFlightTime := c1.totalFlightTime + FlightTime(c1.startTime, now)), true)
  }

  /**
   * `_check_safety`: it passes exactly on safe readings, and then changes
   * nothing; on a critical battery it lands the drone as a side effect; a
   * low battery above the emergency level only warns.
   */
  function CheckSafety(c: Ctl, now: real): (r: (Ctl, bool))
    ensures r.1 <==> Safe(c)
    ensures !(c.connected && Critical(c)) ==> r.0 == c
    ensures c.connected && Critical(c) ==>
              r.0.drone.log == c.drone.log + [Command.Land]
              && r.0.flying == (c.flying && Command.Land in c.drone.failing)
    ensures SameSetting(c, r.0) && Appends(c, r.0)
  {
    if !c.connected then (c, false)
    else
      var battery := GetBattery(c);
      if Truthy(battery) && battery.value < EmergencyBattery then (Land(c, now).0, false)
      else
        var height := GetHeight(c);
        if Truthy(height) && height.value > c.limits.maxHeight then (c, false)
        else (c, true)
  }

  /** The guard `not self.is_flying or not self._check_safety()` shared by every flight command. */
  function FlyingAndSafe(c: Ctl, now: real): (r: (Ctl, bool))
    ensures !c.flying ==> r == (c, false)
    ensures r.1 <==> c.flying && Safe(c)
    ensures r.1 ==> r.0 == c
    ensures r.0.drone.log == c.drone.log || r.0.drone.log == c.drone.log + [Command.Land]
    ensures SameSetting(c, r.0) && Appends(c, r.0)
  {
    if !c.flying then (c, false) else CheckSafety(c, now)
  }

  /** `takeoff`: safety check, takeoff, the fixed 80 cm climb, and only then `is_flying`. */
  function Takeoff(c: Ctl, now: real): (r: (Ctl, bool))
    ensures r.1 <==> (Safe(c) && Command.Takeoff !in c.drone.failing
                      && Move(Up, 80) !in c.drone.failing)
    ensures r.1 ==> r.0.flying && r.0.drone.log == c.drone.log + [Command.Takeoff, Move(Up, 80)]
    ensures !r.1 ==> r.0.flying == (c.flying && !(c.connected && Critical(c) && Command.Land !in c.drone.failing))
    ensures SameSetting(c, r.0) && Appends(c, r.0)
  {
    var (c1, safe) := CheckSafety(c, now);
    if !safe then (c1, false)
    else
      var (c2, took) := Send(c1, Command.Takeoff);
      if !took then (c2, false)
      else
        var (c3, climbed) := Send(c2, Move(Up, 80));
        if !climbed then (c3, false)
        else (c3.(flying := true, startTime := Some(now)), true)
  }

  /** `_execute_movement` (and so `move_up` ... `move_back`): guard, clamp to [20, 500], send. */
  function ExecuteMovement(c: Ctl, dir: Direction, distance: int, now: real): (r: (Ctl, bool))
    ensures !c.flying ==> r == (c, false)
    ensures c.flying && Safe(c) ==>
              r.0 == c.(drone := c.drone.(log := c.drone.log + [Move(dir, Clamp(distance, 20, 500))]))
    ensures r.1 <==> c.flying && Safe(c) && Move(dir, Clamp(distance, 20, 500)) !in c.drone.failing
    ensures r.0.flying ==> c.flying
    ensures SameSetting(c, r.0) && Appends(c, r.0)
    ensures r.0.pidX == c.pidX && r.0.pidY == c.pidY && r.0.pidZ == c.pidZ
            && r.0.lastTrackTime == c.lastTrackTime
  {
    var (c1, go) := FlyingAndSafe(c, now);
    if !go then (c1, false) else Send(c1, Move(dir, Clamp(distance, 20, 500)))
  }

  /** `rotate_clockwise` / `rotate_counter_clockwise`: guard, clamp to [1, 360], send. */
  function Rotate(c: Ctl, clockwise: bool, degrees: int, now: real): (r: (Ctl, bool))
    ensures !c.flying ==> r == (c, false)
    ensures c.flying && Safe(c) ==>
              var d := Clamp(degrees, 1, 360);
              r.0 == c.(drone := c.drone.(log := c.drone.log +
                  [if clockwise then RotateClockwise(d) else RotateCounterClockwise(d)]))
    ensures c.flying && !Safe(c) ==> r.0.drone.log == c.drone.log || r.0.drone.log == c.drone.log + [Command.Land]
    ensures r.1 <==> c.flying && Safe(c)
                     && (if clockwise then RotateClockwise(Clamp(degrees, 1, 360))
                         else RotateCounterClockwise(Clamp(degrees, 1, 360))) !in c.drone.failing
    ensures r.0.flying ==> c.flying
    ensures SameSetting(c, r.0) && Appends(c, r.0)
  {
    var (c1, go) := FlyingAndSafe(c, now);
    if !go then (c1, false)
    else
      var d := Clamp(degrees, 1, 360);
      Send(c1, if clockwise then RotateClockwise(d) else RotateCounterClockwise(d))
  }

  /** `flip`: guard, then the flip command. */
  function Flip(c: Ctl, dir: string, now: real): (r: (Ctl, bool))
    ensures !c.flying ==> r == (c, false)
    ensures c.flying && Safe(c) ==> r.0 == c.(drone := c.drone.(log := c.drone.log + [Command.Flip(dir)]))
    ensures r.1 <==> c.flying && Safe(c) && Command.Flip(dir) !in c.drone.failing
    ensures SameSetting(c, r.0) && Appends(c, r.0)
  {
    var (c1, go) := FlyingAndSafe(c, now);
    if !go then (c1, false) else Send(c1, Command.Flip(dir))
  }

  /** `send_rc_control`: guard, then the four velocities, passed through unclamped. */
  function SendRc(c: Ctl, leftRight: int, forwardBackward: int, upDown: int, yaw: int, now: real): (r: (Ctl, bool))
    ensures !c.flying ==> r == (c, false)
    ensures c.flying && Safe(c) ==>
              r.0 == c.(drone := c.drone.(log := c.drone.log + [Rc(leftRight, forwardBackward, upDown, yaw)]))
    ensures r.1 <==> c.flying && Safe(c) && Rc(leftRight, forwardBackward, upDown, yaw) !in c.drone.failing
    ensures r.0.flying ==> c.flying
    ensures SameSetting(c, r.0) && Appends(c, r.0)
  {
    var (c1, go) := FlyingAndSafe(c, now);
    if !go then (c1, false) else Send(c1, Rc(leftRight, forwardBackward, upDown, yaw))
  }

  /** A command `track_target` may send: a movement of 20 to 50 cm. */
  predicate TrackStep(cmd: Command)
  {
    cmd.Move? && 20 <= cmd.cm <= 50
  }

  /** `c'` extends the log of `c` with tracking steps only. */
  predicate TrackAppends(c: Ctl, c': Ctl)
  {
    && |c.drone.log| <= |c'.drone.log|
    && c'.drone.log[..|c.drone.log|] == c.drone.log
    && forall i | |c.drone.log| <= i < |c'.drone.log| :: TrackStep(c'.drone.log[i])
  }

  /**
   * The movement `track_target` sends on one lateral axis: nothing inside
   * the dead zone, otherwise one step of 20 to 50 cm toward `positive` when
   * the control output is positive and toward `negative` when it is not.
   */
  function AxisMove(error: real, control: real, positive: Direction, negative: Direction): (s: seq<Command>)
    ensures |s| <= 1
    ensures s != [] <==> Abs(error) > DeadZone
    ensures s != [] ==> s[0].Move? && s[0].dir == (if control > 0.0 then positive else negative)
                        && 20 <= s[0].cm <= 50
  {
    if Abs(error) > DeadZone then [Move(if control > 0.0 then positive else negative, StepSize(control, 100.0))]
    else []
  }

  /**
   * The depth correction for an optional target size: the z controller
   * advances and one step is sent only when the size is more than 0.1 away
   * from 0.3; a negative control output (target too small) moves forward,
   * any other moves back.
   */
  function DepthStep(pz: Pid.PidState, size: Option<real>): (r: (Pid.PidState, seq<Command>))
    ensures size.None? || Abs(size.value - DepthTarget) <= DeadZone ==> r == (pz, [])
    ensures size.Some? && Abs(size.value - DepthTarget) > DeadZone ==>
              && r.0 == Pid.Advance(pz, size.value - DepthTarget, Pid.DefaultDt)
              && |r.1| == 1 && r.1[0].Move? && 20 <= r.1[0].cm <= 50
              && (r.1[0].dir == Forward <==> Pid.Step(GainsZ, pz, size.value - DepthTarget, Pid.DefaultDt).1 < 0.0)
              && (r.1[0].dir == Forward || r.1[0].dir == Back)
  {
    if size.None? then (pz, [])
    else
      var ez := size.value - DepthTarget;
      if Abs(ez) > DeadZone then
        var (next, cz) := Pid.Step(GainsZ, pz, ez, Pid.DefaultDt);
        (next, [Move(if cz < 0.0 then Forward else Back, StepSize(cz, 80.0))])
      else (pz, [])
  }

  /**
   * The movements an accepted `track_target` call sends from the controller
   * states of `c`: right or left, then up or down, then forward or back.
   */
  function TrackCommands(c: Ctl, errorX: real, errorY: real, size: Option<real>): (s: seq<Command>)
    ensures |s| <= 3 && forall i | 0 <= i < |s| :: TrackStep(s[i])
  {
    var controlX := Pid.Step(GainsXY, c.pidX, errorX, Pid.DefaultDt).1;
    var controlY := Pid.Step(GainsXY, c.pidY, errorY, Pid.DefaultDt).1;
    AxisMove(errorX, controlX, Right, Left) + AxisMove(errorY, controlY, Up, Down) + DepthStep(c.pidZ, size).1
  }

  /** A log that grows by tracking steps only grows in the sense of `TrackAppends`. */
  lemma AppendsTrackSteps(c: Ctl, c': Ctl, s: seq<Command>)
    requires c'.drone.log == c.drone.log + s
    requires forall i | 0 <= i < |s| :: TrackStep(s[i])
    ensures TrackAppends(c, c')
  {
    assert c'.drone.log[..|c.drone.log|] == c.drone.log;
  }

  /** Three extensions of the log in a row, the last one with a new z state, make one. */
  lemma ComposeMoves(c: Ctl, c1: Ctl, c2: Ctl, c3: Ctl, a: seq<Command>, b: seq<Command>,
                     d: seq<Command>, pz: Pid.PidState)
    requires c1 == c.(drone := c.drone.(log := c.drone.log + a))
    requires c2 == c1.(drone := c1.drone.(log := c1.drone.log + b))
    requires c3 == c2.(pidZ := pz, drone := c2.drone.(log := c2.drone.log + d))
    ensures c3 == c.(pidZ := pz, drone := c.drone.(log := c.drone.log + (a + b + d)))
  {
    assert c.drone.log + a + b + d == c.drone.log + (a + b + d);
  }

  /** One lateral axis of `track_target`: the `move_*` call of `AxisMove`, if any. */
  function LateralMove(c: Ctl, error: real, control: real, positive: Direction, negative: Direction,
                       now: real): (r: Ctl)
    ensures Abs(error) <= DeadZone ==> r == c
    ensures c.flying && Safe(c) ==>
              r == c.(drone := c.drone.(log := c.drone.log + AxisMove(error, control, positive, negative)))
    ensures SameSetting(c, r) && Appends(c, r)
    ensures r.pidX == c.pidX && r.pidY == c.pidY && r.pidZ == c.pidZ && r.lastTrackTime == c.lastTrackTime
  {
    if Abs(error) > DeadZone then
      ExecuteMovement(c, if control > 0.0 then positive else negative, StepSize(control, 100.0), now).0
    else
      assert c.drone.log + [] == c.drone.log;
      c
  }

  /** The optional depth correction of `track_target`, driven by the target size. */
  function DepthMove(c: Ctl, size: Option<real>, now: real): (r: Ctl)
    ensures r.pidZ == DepthStep(c.pidZ, size).0
    ensures DepthStep(c.pidZ, size).1 == [] ==> r == c
    ensures c.flying && Safe(c) ==>
              r == c.(pidZ := r.pidZ, drone := c.drone.(log := c.drone.log + DepthStep(c.pidZ, size).1))
    ensures SameSetting(c, r) && Appends(c, r)
    ensures r.pidX == c.pidX && r.pidY == c.pidY && r.lastTrackTime == c.lastTrackTime
  {
    if size.None? then
      assert c.drone.log + [] == c.drone.log;
      c
    else
      var ez := size.value - DepthTarget;
      if Abs(ez) > DeadZone then
        var (pz, cz) := Pid.Step(GainsZ, c.pidZ, ez, Pid.DefaultDt);
        ExecuteMovement(c.(pidZ := pz), if cz < 0.0 then Forward else Back, StepSize(cz, 80.0), now).0
      else
        assert c.drone.log + [] == c.drone.log;
        c
  }

  /**
   * `track_target`: guard, a 0.5 s cooldown, both lateral PIDs advanced on
   * every accepted call, a 0.1 dead zone that sends nothing, and otherwise
   * up to three movements of 20 to 50 cm.
   */
  function TrackTarget(c: Ctl, targetX: real, targetY: real, targetSize: Option<real>,
                       centerX: real, centerY: real, now: real): (r: (Ctl, bool))
    ensures !c.flying ==> r == (c, false)
    ensures c.flying && Safe(c) && now - c.lastTrackTime < TrackCooldown ==> r == (c, false)
    ensures c.flying && Safe(c) && now - c.lastTrackTime >= TrackCooldown ==>
              && r.0.lastTrackTime == now
              && r.0.pidX == Pid.Step(GainsXY, c.pidX, targetX - centerX, Pid.DefaultDt).0
              && r.0.pidY == Pid.Step(GainsXY, c.pidY, centerY - targetY, Pid.DefaultDt).0
    ensures c.flying && Safe(c) && now - c.lastTrackTime >= TrackCooldown
            && Abs(targetX - centerX) < DeadZone && Abs(centerY - targetY) < DeadZone ==>
              !r.1 && r.0.drone.log == c.drone.log && r.0.pidZ == c.pidZ
    ensures r.1 <==> (c.flying && Safe(c) && now - c.lastTrackTime >= TrackCooldown
                      && !(Abs(targetX - centerX) < DeadZone && Abs(centerY - targetY) < DeadZone))
    ensures r.1 ==> r.0.drone.log == c.drone.log + TrackCommands(c, targetX - centerX, centerY - targetY, targetSize)
                    && r.0.pidZ == DepthStep(c.pidZ, targetSize).0
    ensures r.1 ==> TrackAppends(c, r.0)
    ensures r.1 ==> r.0 == c.(lastTrackTime := now, pidX := r.0.pidX, pidY := r.0.pidY, pidZ := r.0.pidZ,
                              drone := c.drone.(log := r.0.drone.log))
    ensures !r.1 ==> r.0.drone.log == c.drone.log || r.0.drone.log == c.drone.log + [Command.Land]
    ensures SameSetting(c, r.0) && Appends(c, r.0)
  {
    var (c1, go) := FlyingAndSafe(c, now);
    if !go then (c1, false)
    else if now - c1.lastTrackTime < TrackCooldown then (c1, false)
    else
      TrackAcceptedSends(c1, targetX, targetY, targetSize, centerX, centerY, now);
      TrackAcceptedStepsOnly(c1, targetX, targetY, targetSize, centerX, centerY, now);
      TrackAccepted(c1, targetX, targetY, targetSize, centerX, centerY, now)
  }

  /**
   * `track_target` once past its guards and its cooldown: the time stamp,
   * one step of the X and Y controllers, and the movements unless both
   * errors are inside the dead zone.
   */
  function TrackAccepted(c: Ctl, targetX: real, targetY: real, targetSize: Option<real>,
                         centerX: real, centerY: real, now: real): (r: (Ctl, bool))
    ensures c.flying && Safe(c) ==>
              && r.0.lastTrackTime == now
              && r.0.pidX == Pid.Step(GainsXY, c.pidX, targetX - centerX, Pid.DefaultDt).0
              && r.0.pidY == Pid.Step(GainsXY, c.pidY, centerY - targetY, Pid.DefaultDt).0
    ensures r.1 <==> !(Abs(targetX - centerX) < DeadZone && Abs(centerY - targetY) < DeadZone)
    ensures !r.1 ==> r.0.drone.log == c.drone.log && r.0.pidZ == c.pidZ
    ensures SameSetting(c, r.0) && Appends(c, r.0)
  {
    var errorX := targetX - centerX;
    var errorY := centerY - targetY;
    var c1 := StepLateral(c, errorX, errorY, now);
    if Abs(errorX) < DeadZone && Abs(errorY) < DeadZone then (c1, false)
    else
      var controlX := Pid.Step(GainsXY, c.pidX, errorX, Pid.DefaultDt).1;
      var controlY := Pid.Step(GainsXY, c.pidY, errorY, Pid.DefaultDt).1;
      (TrackMoves(c1, errorX, errorY, controlX, controlY, targetSize, now), true)
  }

  /** `TrackAccepted` split at its dead zone, for the proof of the class method. */
  lemma TrackAcceptedCases(c: Ctl, targetX: real, targetY: real, targetSize: Option<real>,
                           centerX: real, centerY: real, now: real)
    ensures var r := TrackAccepted(c, targetX, targetY, targetSize, centerX, centerY, now);
            var errorX, errorY := targetX - centerX, centerY - targetY;
            if Abs(errorX) < DeadZone && Abs(errorY) < DeadZone then r == (StepLateral(c, errorX, errorY, now), false)
            else r == (TrackMoves(StepLateral(c, errorX, errorY, now), errorX, errorY,
                                  Pid.Step(GainsXY, c.pidX, errorX, Pid.DefaultDt).1,
                                  Pid.Step(GainsXY, c.pidY, errorY, Pid.DefaultDt).1, targetSize, now), true)
  {
  }

  /** The time stamp and one step of the X and Y controllers. */
  function StepLateral(c: Ctl, errorX: real, errorY: real, now: real): (r: Ctl)
    ensures r.pidX == Pid.Advance(c.pidX, errorX, Pid.DefaultDt)
    ensures r.pidY == Pid.Advance(c.pidY, errorY, Pid.DefaultDt)
    ensures r == c.(lastTrackTime := now, pidX := r.pidX, pidY := r.pidY)
  {
    c.(lastTrackTime := now,
       pidX := Pid.Step(GainsXY, c.pidX, errorX, Pid.DefaultDt).0,
       pidY := Pid.Step(GainsXY, c.pidY, errorY, Pid.DefaultDt).0)
  }

  /**
   * An accepted call that leaves the dead zone sends exactly the tracking
   * commands of its errors, advances the z controller with them, and stays
   * in the air.
   */
  lemma TrackAcceptedSends(c: Ctl, targetX: real, targetY: real, targetSize: Option<real>,
                           centerX: real, centerY: real, now: real)
    requires c.flying && Safe(c)
    ensures var r := TrackAccepted(c, targetX, targetY, targetSize, centerX, centerY, now);
            r.1 ==>
              && r.0.drone.log == c.drone.log + TrackCommands(c, targetX - centerX, centerY - targetY, targetSize)
              && r.0.pidZ == DepthStep(c.pidZ, targetSize).0
              && r.0.flying
    ensures var r := TrackAccepted(c, targetX, targetY, targetSize, centerX, centerY, now);
            r.1 ==>
              r.0 == c.(lastTrackTime := now, pidX := r.0.pidX, pidY := r.0.pidY,
                        pidZ := DepthStep(c.pidZ, targetSize).0,
                        drone := c.drone.(log := c.drone.log + TrackCommands(c, targetX - centerX, centerY - targetY, targetSize)))
  {
    var errorX := targetX - centerX;
    var errorY := centerY - targetY;
    var controlX := Pid.Step(GainsXY, c.pidX, errorX, Pid.DefaultDt).1;
    var controlY := Pid.Step(GainsXY, c.pidY, errorY, Pid.DefaultDt).1;
    var c1 := StepLateral(c, errorX, errorY, now);
    if !(Abs(errorX) < DeadZone && Abs(errorY) < DeadZone) {
      assert c1.flying && Safe(c1);
      TrackMovesSends(c1, errorX, errorY, controlX, controlY, targetSize, now);
      var r := TrackMoves(c1, errorX, errorY, controlX, controlY, targetSize, now);
      assert r == TrackAccepted(c, targetX, targetY, targetSize, centerX, centerY, now).0;
    }
  }

  /** So an accepted call that sends anything sends tracking steps only. */
  lemma TrackAcceptedStepsOnly(c: Ctl, targetX: real, targetY: real, targetSize: Option<real>,
                               centerX: real, centerY: real, now: real)
    requires c.flying && Safe(c)
    ensures var r := TrackAccepted(c, targetX, targetY, targetSize, centerX, centerY, now);
            r.1 ==> TrackAppends(c, r.0)
  {
    var r := TrackAccepted(c, targetX, targetY, targetSize, centerX, centerY, now);
    if r.1 {
      TrackAcceptedSends(c, targetX, targetY, targetSize, centerX, centerY, now);
      AppendsTrackSteps(c, r.0, TrackCommands(c, targetX - centerX, centerY - targetY, targetSize));
    }
  }

  /**
   * Errors of exactly 0.1 on both axes pass the dead-zone check (it skips
   * only below 0.1) but reach no movement (each axis moves only above 0.1):
   * with no target size the call reports True although it sends nothing.
   */
  lemma BoundaryErrorsReportTrueWithoutMoves(c: Ctl, targetX: real, targetY: real,
                                             centerX: real, centerY: real, now: real)
    requires c.flying && Safe(c) && now - c.lastTrackTime >= TrackCooldown
    requires Abs(targetX - centerX) == DeadZone && Abs(centerY - targetY) == DeadZone
    ensures TrackTarget(c, targetX, targetY, None, centerX, centerY, now).1
    ensures TrackTarget(c, targetX, targetY, None, centerX, centerY, now).0.drone.log == c.drone.log
  {
    assert TrackCommands(c, targetX - centerX, centerY - targetY, None) == [];
    assert c.drone.log + [] == c.drone.log;
  }

  /**
   * From reset lateral controllers (after `reset_tracking`) each axis steps
   * toward the target: right of centre moves right, left moves left, above
   * centre moves up, below moves down.
   */
  lemma FreshLateralStepFollowsError(error: real, positive: Direction, negative: Direction)
    ensures var s := AxisMove(error, Pid.Step(GainsXY, Pid.Zero, error, Pid.DefaultDt).1, positive, negative);
            && (error > DeadZone ==> s == [Move(positive, StepSize(error, 240.0))])
            && (error < -DeadZone ==> s == [Move(negative, StepSize(error, 240.0))])
  {
    Pid.FreshStepIsProportional(GainsXY, error, Pid.DefaultDt);
    assert Abs(2.4 * error) * 100.0 == Abs(error) * 240.0;
  }

  /**
   * From a reset z controller the depth step approaches the target size: a
   * face larger than 0.4 of the frame moves back, one smaller than 0.2
   * moves forward.
   */
  lemma FreshDepthStepApproachesTarget(size: real)
    ensures var s := DepthStep(Pid.Zero, Some(size)).1;
            && (size > DepthTarget + DeadZone ==> s == [Move(Back, StepSize(size - DepthTarget, 144.0))])
            && (size < DepthTarget - DeadZone ==> s == [Move(Forward, StepSize(size - DepthTarget, 144.0))])
  {
    var ez := size - DepthTarget;
    Pid.FreshStepIsProportional(GainsZ, ez, Pid.DefaultDt);
    assert Abs(1.8 * ez) * 80.0 == Abs(ez) * 144.0;
  }

  /** The movements `track_target` sends once outside the dead zone. */
  function TrackMoves(c: Ctl, errorX: real, errorY: real, controlX: real, controlY: real,
                      size: Option<real>, now: real): (r: Ctl)
    ensures r.pidZ == DepthStep(c.pidZ, size).0
    ensures r.lastTrackTime == c.lastTrackTime && r.pidX == c.pidX && r.pidY == c.pidY
    ensures SameSetting(c, r) && Appends(c, r)
  {
    var c1 := LateralMove(c, errorX, controlX, Right, Left, now);
    var c2 := LateralMove(c1, errorY, controlY, Up, Down, now);
    var c3 := DepthMove(c2, size, now);
    AppendsTrans(c, c1, c2);
    AppendsTrans(c, c2, c3);
    c3
  }

  /**
   * From a flying, safe state the movements are exactly the right/left,
   * up/down and forward/back commands of the three axes, in that order,
   * and nothing but the z controller and the log changes.
   */
  lemma TrackMovesSends(c: Ctl, errorX: real, errorY: real, controlX: real, controlY: real,
                        size: Option<real>, now: real)
    requires c.flying && Safe(c)
    ensures TrackMoves(c, errorX, errorY, controlX, controlY, size, now)
            == c.(pidZ := DepthStep(c.pidZ, size).0,
                  drone := c.drone.(log := c.drone.log + (AxisMove(errorX, controlX, Right, Left)
                                                          + AxisMove(errorY, controlY, Up, Down)
                                                          + DepthStep(c.pidZ, size).1)))
  {
    var c1 := LateralMove(c, errorX, controlX, Right, Left, now);
    var c2 := LateralMove(c1, errorY, controlY, Up, Down, now);
    var c3 := DepthMove(c2, size, now);
    ComposeMoves(c, c1, c2, c3, AxisMove(errorX, controlX, Right, Left),
                 AxisMove(errorY, controlY, Up, Down), DepthStep(c.pidZ, size).1, c3.pidZ);
  }

  /** `emergency_stop`: the motor-cut command, only once a drone handle exists. */
  function EmergencyStop(c: Ctl): (r: Ctl)
    ensures !c.hasDrone ==> r == c
    ensures c.hasDrone ==> r.drone.log == c.drone.log + [Emergency]
                           && r.flying == (c.flying && Emergency in c.drone.failing)
    ensures SameSetting(c, r) && Appends(c, r)
  {
    if !c.hasDrone then c
    else
      var (c1, ok) := Send(c, Emergency);
      if ok then c1.(flying := false) else c1
  }

  /** n descent commands. */
  function Descents(n: nat): (s: seq<Command>)
    ensures |s| == n && forall i | 0 <= i < n :: s[i] == Descent
  {
    if n == 0 then [] else Descents(n - 1) + [Descent]
  }

  /** The first n iterations of the descent loop of `emergency_land`. */
  function Descend(c: Ctl, n: nat, now: real): (r: Ctl)
    ensures c.flying && Safe(c) ==> r == c.(drone := c.drone.(log := c.drone.log + Descents(n)))
    ensures SameSetting(c, r) && Appends(c, r)
  {
    if n == 0 then c
    else
      var previous := Descend(c, n - 1, now);
      var r := SendRc(previous, 0, 0, -80, 0, now).0;
      AppendsTrans(c, previous, r);
      assert c.flying && Safe(c) ==> c.drone.log + Descents(n) == c.drone.log + Descents(n - 1) + [Descent];
      r
  }

  /**
   * `emergency_land`: refused unless flying; otherwise one hover, exactly
   * fifteen descent commands and a normal landing. Every call inside
   * catches its own exceptions, so the `emergency_stop` fallback of the
   * source is never reached.
   */
  function EmergencyLand(c: Ctl, now: real): (r: (Ctl, bool))
    ensures !c.flying ==> r == (c, false)
    ensures c.flying ==> r.1
    ensures c.flying && Safe(c) ==>
              r.0.drone.log == c.drone.log + [Hover] + Descents(15) + [Command.Land]
              && (r.0.flying <==> Command.Land in c.drone.failing)
    ensures c.flying && c.connected ==>
              |r.0.drone.log| > 0 && r.0.drone.log[|r.0.drone.log| - 1] == Command.Land
    ensures SameSetting(c, r.0) && Appends(c, r.0)
  {
    if !c.flying then (c, false)
    else
      var c1 := SendRc(c, 0, 0, 0, 0, now).0;
      var c2 := Descend(c1, 15, now);
      var c3 := Land(c2, now).0;
      AppendsTrans(c, c1, c2);
      AppendsTrans(c, c2, c3);
      (c3, true)
  }

  /** `stream_on`: needs a connection; sets `is_streaming` when the command does not raise. */
  function StreamOn(c: Ctl): (r: (Ctl, bool))
    ensures !c.connected ==> r == (c, false)
    ensures c.connected ==> r.0.drone.log == c.drone.log + [Command.StreamOn]
    ensures r.1 <==> c.connected && Command.StreamOn !in c.drone.failing
    ensures r.0.streaming == (c.streaming || r.1)
    ensures r.0 == c.(drone := r.0.drone, streaming := r.0.streaming)
  {
    if !c.connected then (c, false)
    else
      var (c1, ok) := Send(c, Command.StreamOn);
      if ok then (c1.(streaming := true), true) else (c1, false)
  }

  /** `stream_off`: needs a connection; clears `is_streaming` when the command does not raise. */
  function StreamOff(c: Ctl): (r: (Ctl, bool))
    ensures !c.connected ==> r == (c, false)
    ensures c.connected ==> r.0.drone.log == c.drone.log + [Command.StreamOff]
    ensures r.1 <==> c.connected && Command.StreamOff !in c.drone.failing
    ensures r.0.streaming == (c.streaming && !r.1)
    ensures r.0 == c.(drone := r.0.drone, streaming := r.0.streaming)
  {
    if !c.connected then (c, false)
    else
      var (c1, ok) := Send(c, Command.StreamOff);
      if ok then (c1.(streaming := false), true) else (c1, false)
  }

  /**
   * `disconnect`: land if flying, stop the stream if streaming, then drop
   * the connection. A landing that raises leaves `is_flying` set.
   */
  function Disconnect(c: Ctl, now: real): (r: Ctl)
    ensures !r.connected && r.stopThread
    ensures !c.connected ==> r.drone.log == c.drone.log
    ensures c.connected ==> r.drone.log == c.drone.log + (if c.flying then [Command.Land] else [])
                                                     + (if c.streaming then [Command.StreamOff] else [])
    ensures r.flying == (c.flying && !(c.connected && Command.Land !in c.drone.failing))
    ensures r.streaming == (c.streaming && !(c.connected && Command.StreamOff !in c.drone.failing))
    ensures r.totalFlightTime == c.totalFlightTime
              + (if c.flying && c.connected && Command.Land !in c.drone.failing
                 then FlightTime(c.startTime, now) else 0.0)
    ensures r == c.(connected := false, stopThread := true, flying := r.flying, streaming := r.streaming,
                    totalFlightTime := r.totalFlightTime, drone := c.drone.(log := r.drone.log))
  {
    var c1 := if c.flying then Land(c, now).0 else c;
    var c2 := if c1.streaming then StreamOff(c1).0 else c1;
    c2.(stopThread := true, connected := false)
  }

  /** `reset_tracking`: all three PID axes back to zero, nothing else touched. */
  function ResetTracking(c: Ctl): (r: Ctl)
    ensures r.pidX == Pid.Zero && r.pidY == Pid.Zero && r.pidZ == Pid.Zero
    ensures r.(pidX := c.pidX, pidY := c.pidY, pidZ := c.pidZ) == c
  {
    c.(pidX := Pid.Zero, pidY := Pid.Zero, pidZ := Pid.Zero)
  }
}
