/**
 * TelloController (drone_backend/src/tello/controller.py) as a class whose
 * fields are the ones the source updates in place. Every method is proved
 * to move `Snapshot()` exactly as the matching function of ControllerSpec
 * does, so the properties proved there hold of the class.
 */
module Controller {
  import opened Wrappers
  import opened Drone
  import opened ControllerSpec
  import Pid

  class TelloController {
    const minBattery: int
    const maxHeight: int
    const emergencyBattery: int := EmergencyBattery
    const trackCooldown: real := TrackCooldown

    var isConnected: bool
    var isFlying: bool
    var isStreaming: bool
    /** Whether `self.drone` has been set. */
    var hasDrone: bool
    var stopThread: bool
    var lastTrackTime: real
    var startTime: Option<real>
    var totalFlightTime: real
    /** The drone this controller talks to. */
    var drone: Tello

    const pidX: Pid.PidController
    const pidY: Pid.PidController
    const pidZ: Pid.PidController

    /** The three PID controllers are distinct objects with the gains the source gives them. */
    predicate Valid()
    {
      && pidX != pidY && pidY != pidZ && pidX != pidZ
      && pidX.Gain() == GainsXY && pidY.Gain() == GainsXY && pidZ.Gain() == GainsZ
    }

    function Snapshot(): Ctl
      reads this, pidX, pidY, pidZ
    {
      Ctl(SafetyLimits(minBattery, maxHeight), isConnected, isFlying, isStreaming, hasDrone,
          stopThread, lastTrackTime, pidX.State(), pidY.State(), pidZ.State(),
          startTime, totalFlightTime, drone)
    }

    constructor (minBattery: int, maxHeight: int, env: Tello)
      ensures Valid() && fresh(pidX) && fresh(pidY) && fresh(pidZ)
      ensures Snapshot() == Initial(SafetyLimits(minBattery, maxHeight), env)
    {
      this.minBattery, this.maxHeight := minBattery, maxHeight;
      isConnected, isFlying, isStreaming := false, false, false;
      hasDrone, stopThread := false, false;
      lastTrackTime := 0.0;
      startTime, totalFlightTime := None, 0.0;
      drone := env;
      pidX := new Pid.PidController(0.4, 0.0, 0.2);
      pidY := new Pid.PidController(0.4, 0.0, 0.2);
      pidZ := new Pid.PidController(0.3, 0.0, 0.15);
    }

    /** One call into the drone. */
    method Send(cmd: Command) returns (ok: bool)
      modifies this`drone
      ensures (drone, ok) == Issue(old(drone), cmd)
    {
      ok := cmd !in drone.failing;
      drone := drone.(log := drone.log + [cmd]);
    }

    function GetBattery(): Option<int>
      reads this
    {
      if !isConnected then None else drone.battery
    }

    function GetHeight(): Option<int>
      reads this
    {
      if !isConnected then None else drone.height
    }

    function GetFrame(camera: Observation): Observation
      reads this
    {
      if !isConnected || !isStreaming then NoFrame else camera
    }

    method Connect() returns (ok: bool)
      modifies this
      ensures Snapshot() == ControllerSpec.Connect(old(Snapshot())).0
      ensures ok == ControllerSpec.Connect(old(Snapshot())).1
    {
      hasDrone := true;
      ok := Send(Command.Connect);
      if !ok {
        isConnected := false;
        return;
      }
      isConnected := true;
      // get_battery and get_temperature on the raw drone: a raise drops the connection
      if drone.battery.None? || drone.temperature.None? {
        isConnected := false;
        return false;
      }
      stopThread := false;
    }

    method Land(now: real) returns (ok: bool)
      modifies this
      ensures Snapshot() == ControllerSpec.Land(old(Snapshot()), now).0
      ensures ok == ControllerSpec.Land(old(Snapshot()), now).1
    {
      if !isConnected {
        return false;
      }
      ok := Send(Command.Land);
      if !ok {
        return;
      }
      isFlying := false;
      if startTime.Some? && startTime.value != 0.0 {
        totalFlightTime := totalFlightTime + (now - startTime.value);
      }
    }

    method CheckSafety(now: real) returns (ok: bool)
      modifies this
      ensures Snapshot() == ControllerSpec.CheckSafety(old(Snapshot()), now).0
      ensures ok == ControllerSpec.CheckSafety(old(Snapshot()), now).1
    {
      if !isConnected {
        return false;
      }
      var battery := GetBattery();
      if Truthy(battery) && battery.value < emergencyBattery {
        var _ := Land(now);
        return false;
      }
      var height := GetHeight();
      if Truthy(height) && height.value > maxHeight {
        return false;
      }
      return true;
    }

    method Takeoff(now: real) returns (ok: bool)
      modifies this
      ensures Snapshot() == ControllerSpec.Takeoff(old(Snapshot()), now).0
      ensures ok == ControllerSpec.Takeoff(old(Snapshot()), now).1
    {
      var safe := CheckSafety(now);
      if !safe {
        return false;
      }
      ok := Send(Command.Takeoff);
      if !ok {
        return;
      }
      ok := Send(Move(Up, 80));
      if !ok {
        return;
      }
      isFlying := true;
      startTime := Some(now);
    }

    method ExecuteMovement(dir: Direction, distance: int, now: real) returns (ok: bool)
      modifies this
      ensures Snapshot() == ControllerSpec.ExecuteMovement(old(Snapshot()), dir, distance, now).0
      ensures ok == ControllerSpec.ExecuteMovement(old(Snapshot()), dir, distance, now).1
    {
      if !isFlying {
        return false;
      }
      var safe := CheckSafety(now);
      if !safe {
        return false;
      }
      ok := Send(Move(dir, Clamp(distance, 20, 500)));
    }

    method MoveUp(distance: int, now: real) returns (ok: bool)
      modifies this
      ensures Snapshot() == ControllerSpec.ExecuteMovement(old(Snapshot()), Up, distance, now).0
      ensures ok == ControllerSpec.ExecuteMovement(old(Snapshot()), Up, distance, now).1
    {
      ok := ExecuteMovement(Up, distance, now);
    }

    method MoveDown(distance: int, now: real) returns (ok: bool)
      modifies this
      ensures Snapshot() == ControllerSpec.ExecuteMovement(old(Snapshot()), Down, distance, now).0
      ensures ok == ControllerSpec.ExecuteMovement(old(Snapshot()), Down, distance, now).1
    {
      ok := ExecuteMovement(Down, distance, now);
    }

    method MoveLeft(distance: int, now: real) returns (ok: bool)
      modifies this
      ensures Snapshot() == ControllerSpec.ExecuteMovement(old(Snapshot()), Left, distance, now).0
      ensures ok == ControllerSpec.ExecuteMovement(old(Snapshot()), Left, distance, now).1
    {
      ok := ExecuteMovement(Left, distance, now);
    }

    method MoveRight(distance: int, now: real) returns (ok: bool)
      modifies this
      ensures Snapshot() == ControllerSpec.ExecuteMovement(old(Snapshot()), Right, distance, now).0
      ensures ok == ControllerSpec.ExecuteMovement(old(Snapshot()), Right, distance, now).1
    {
      ok := ExecuteMovement(Right, distance, now);
    }

    method MoveForward(distance: int, now: real) returns (ok: bool)
      modifies this
      ensures Snapshot() == ControllerSpec.ExecuteMovement(old(Snapshot()), Forward, distance, now).0
      ensures ok == ControllerSpec.ExecuteMovement(old(Snapshot()), Forward, distance, now).1
    {
      ok := ExecuteMovement(Forward, distance, now);
    }

    method MoveBack(distance: int, now: real) returns (ok: bool)
      modifies this
      ensures Snapshot() == ControllerSpec.ExecuteMovement(old(Snapshot()), Back, distance, now).0
      ensures ok == ControllerSpec.ExecuteMovement(old(Snapshot()), Back, distance, now).1
    {
      ok := ExecuteMovement(Back, distance, now);
    }

    method RotateClockwise(degrees: int, now: real) returns (ok: bool)
      modifies this
      ensures Snapshot() == ControllerSpec.Rotate(old(Snapshot()), true, degrees, now).0
      ensures ok == ControllerSpec.Rotate(old(Snapshot()), true, degrees, now).1
    {
      if !isFlying {
        return false;
      }
      var safe := CheckSafety(now);
      if !safe {
        return false;
      }
      ok := Send(Command.RotateClockwise(Clamp(degrees, 1, 360)));
    }

    method RotateCounterClockwise(degrees: int, now: real) returns (ok: bool)
      modifies this
      ensures Snapshot() == ControllerSpec.Rotate(old(Snapshot()), false, degrees, now).0
      ensures ok == ControllerSpec.Rotate(old(Snapshot()), false, degrees, now).1
    {
      if !isFlying {
        return false;
      }
      var safe := CheckSafety(now);
      if !safe {
        return false;
      }
      ok := Send(Command.RotateCounterClockwise(Clamp(degrees, 1, 360)));
    }

    method Flip(dir: string, now: real) returns (ok: bool)
      modifies this
      ensures Snapshot() == ControllerSpec.Flip(old(Snapshot()), dir, now).0
      ensures ok == ControllerSpec.Flip(old(Snapshot()), dir, now).1
    {
      if !isFlying {
        return false;
      }
      var safe := CheckSafety(now);
      if !safe {
        return false;
      }
      ok := Send(Command.Flip(dir));
    }

    method SendRcControl(leftRight: int, forwardBackward: int, upDown: int, yaw: int, now: real)
      returns (ok: bool)
      modifies this
      ensures Snapshot() == SendRc(old(Snapshot()), leftRight, forwardBackward, upDown, yaw, now).0
      ensures ok == SendRc(old(Snapshot()), leftRight, forwardBackward, upDown, yaw, now).1
    {
      if !isFlying {
        return false;
      }
      var safe := CheckSafety(now);
      if !safe {
        return false;
      }
      ok := Send(Rc(leftRight, forwardBackward, upDown, yaw));
    }

    /** `hover`: the all-zero RC command. */
    method Hover(now: real) returns (ok: bool)
      modifies this
      ensures Snapshot() == SendRc(old(Snapshot()), 0, 0, 0, 0, now).0
      ensures ok == SendRc(old(Snapshot()), 0, 0, 0, 0, now).1
    {
      ok := SendRcControl(0, 0, 0, 0, now);
    }

    method TrackTarget(targetX: real, targetY: real, targetSize: Option<real>,
                       centerX: real, centerY: real, now: real) returns (ok: bool)
      requires Valid()
      modifies this, pidX, pidY, pidZ
      ensures Snapshot() == ControllerSpec.TrackTarget(old(Snapshot()), targetX, targetY, targetSize, centerX, centerY, now).0
      ensures ok == ControllerSpec.TrackTarget(old(Snapshot()), targetX, targetY, targetSize, centerX, centerY, now).1
    {
      if !isFlying {
        return false;
      }
      var safe := CheckSafety(now);
      if !safe {
        return false;
      }
      if now - lastTrackTime < trackCooldown {
        return false;
      }
      ok := TrackAccepted(targetX, targetY, targetSize, centerX, centerY, now);
    }

    /** `track_target` past its guards and its cooldown. */
    method TrackAccepted(targetX: real, targetY: real, targetSize: Option<real>,
                         centerX: real, centerY: real, now: real) returns (ok: bool)
      requires Valid()
      modifies this, pidX, pidY, pidZ
      ensures Snapshot() == ControllerSpec.TrackAccepted(old(Snapshot()), targetX, targetY, targetSize, centerX, centerY, now).0
      ensures ok == ControllerSpec.TrackAccepted(old(Snapshot()), targetX, targetY, targetSize, centerX, centerY, now).1
    {
      TrackAcceptedCases(Snapshot(), targetX, targetY, targetSize, centerX, centerY, now);
      var errorX := targetX - centerX;
      var errorY := centerY - targetY;
      var controlX, controlY := StepLateral(errorX, errorY, now);
      if Abs(errorX) < DeadZone && Abs(errorY) < DeadZone {
        return false;
      }
      SendTrackMoves(errorX, errorY, controlX, controlY, targetSize, now);
      return true;
    }

    /** The time stamp and one step of the X and Y controllers. */
    method StepLateral(errorX: real, errorY: real, now: real) returns (controlX: real, controlY: real)
      requires Valid()
      modifies this, pidX, pidY
      ensures Snapshot() == ControllerSpec.StepLateral(old(Snapshot()), errorX, errorY, now)
      ensures controlX == Pid.Step(GainsXY, old(pidX.State()), errorX, Pid.DefaultDt).1
      ensures controlY == Pid.Step(GainsXY, old(pidY.State()), errorY, Pid.DefaultDt).1
    {
      lastTrackTime := now;
      controlX := pidX.Calculate(errorX, Pid.DefaultDt);
      controlY := pidY.Calculate(errorY, Pid.DefaultDt);
    }

    /** The movement part of `track_target`, once outside the dead zone. */
    method SendTrackMoves(errorX: real, errorY: real, controlX: real, controlY: real,
                          targetSize: Option<real>, now: real)
      requires Valid()
      modifies this, pidZ
      ensures Snapshot() == TrackMoves(old(Snapshot()), errorX, errorY, controlX, controlY, targetSize, now)
    {
      var distanceX := StepSize(controlX, 100.0);
      var distanceY := StepSize(controlY, 100.0);
      if Abs(errorX) > DeadZone {
        if controlX > 0.0 {
          var _ := MoveRight(distanceX, now);
        } else {
          var _ := MoveLeft(distanceX, now);
        }
      }
      ghost var moved := Snapshot();
      assert moved == LateralMove(old(Snapshot()), errorX, controlX, Right, Left, now);
      if Abs(errorY) > DeadZone {
        if controlY > 0.0 {
          var _ := MoveUp(distanceY, now);
        } else {
          var _ := MoveDown(distanceY, now);
        }
      }
      assert Snapshot() == LateralMove(moved, errorY, controlY, Up, Down, now);
      SendDepthMove(targetSize, now);
    }

    /** The optional depth correction of `track_target`. */
    method SendDepthMove(targetSize: Option<real>, now: real)
      requires Valid()
      modifies this, pidZ
      ensures Snapshot() == DepthMove(old(Snapshot()), targetSize, now)
    {
      if targetSize.Some? {
        var errorZ := targetSize.value - DepthTarget;
        if Abs(errorZ) > DeadZone {
          var controlZ := pidZ.Calculate(errorZ, Pid.DefaultDt);
          var distanceZ := StepSize(controlZ, 80.0);
          if controlZ < 0.0 {
            var _ := MoveForward(distanceZ, now);
          } else {
            var _ := MoveBack(distanceZ, now);
          }
        }
      }
    }

    method EmergencyStop()
      modifies this
      ensures Snapshot() == ControllerSpec.EmergencyStop(old(Snapshot()))
    {
      if hasDrone {
        var ok := Send(Emergency);
        if ok {
          isFlying := false;
        }
      }
    }

    method EmergencyLand(now: real) returns (ok: bool)
      modifies this
      ensures Snapshot() == ControllerSpec.EmergencyLand(old(Snapshot()), now).0
      ensures ok == ControllerSpec.EmergencyLand(old(Snapshot()), now).1
    {
      if !isFlying {
        return false;
      }
      var _ := SendRcControl(0, 0, 0, 0, now);
      ghost var hovered := Snapshot();
      var i := 0;
      while i < 15
        invariant 0 <= i <= 15
        invariant Snapshot() == Descend(hovered, i, now)
      {
        var _ := SendRcControl(0, 0, -80, 0, now);
        i := i + 1;
      }
      var _ := Land(now);
      return true;
    }

    method StreamOn() returns (ok: bool)
      modifies this
      ensures Snapshot() == ControllerSpec.StreamOn(old(Snapshot())).0
      ensures ok == ControllerSpec.StreamOn(old(Snapshot())).1
    {
      if !isConnected {
        return false;
      }
      ok := Send(Command.StreamOn);
      if ok {
        isStreaming := true;
      }
    }

    method StreamOff() returns (ok: bool)
      modifies this
      ensures Snapshot() == ControllerSpec.StreamOff(old(Snapshot())).0
      ensures ok == ControllerSpec.StreamOff(old(Snapshot())).1
    {
      if !isConnected {
        return false;
      }
      ok := Send(Command.StreamOff);
      if ok {
        isStreaming := false;
      }
    }

    method Disconnect(now: real)
      modifies this
      ensures Snapshot() == ControllerSpec.Disconnect(old(Snapshot()), now)
    {
      if isFlying {
        var _ := Land(now);
      }
      if isStreaming {
        var _ := StreamOff();
      }
      stopThread := true;
      isConnected := false;
    }

    method ResetTracking()
      requires Valid()
      modifies pidX, pidY, pidZ
      ensures Snapshot() == ControllerSpec.ResetTracking(old(Snapshot()))
    {
      pidX.Reset();
      pidY.Reset();
      pidZ.Reset();
    }
  }
}
