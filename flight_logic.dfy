/**
 * FlightLogic (drone_backend/src/tello/flight_logic.py) as a class over a
 * TelloController, proved against the functions of FlightSpec.
 */
module FlightLogic {
  import opened Drone
  import opened ControllerSpec
  import opened FlightSpec
  import Controller

  class FlightLogic {
    const drone: Controller.TelloController
    var phase: Phase
    var calibrationComplete: bool
    var faceFound: bool
    const targetFaceSize: real := 0.1
    const arucoMarkerId: int := 0

    function Snapshot(): Flight
      reads this, drone, drone.pidX, drone.pidY, drone.pidZ
    {
      Flight(phase, faceFound, drone.Snapshot())
    }

    constructor (env: Tello)
      ensures fresh(drone) && drone.Valid()
      ensures Snapshot() == Flight(Idle, false, Initial(SafetyLimits(20, 300), env))
    {
      drone := new Controller.TelloController(20, 300, env);
      phase := Idle;
      calibrationComplete := false;
      faceFound := false;
    }

    method ConnectAndTakeoff(now: real) returns (ok: bool)
      modifies drone
      ensures drone.Snapshot() == FlightSpec.ConnectAndTakeoff(old(drone.Snapshot()), now).0
      ensures ok == FlightSpec.ConnectAndTakeoff(old(drone.Snapshot()), now).1
    {
      ok := drone.Connect();
      if !ok {
        return;
      }
      ok := drone.StreamOn();
      if !ok {
        return;
      }
      ok := drone.Takeoff(now);
    }

    method SearchForFace(scan: seq<Observation>, now: real) returns (outcome: SearchOutcome)
      modifies this, drone
      ensures Snapshot() == FlightSpec.SearchForFace(old(Snapshot()), scan, now).0
      ensures outcome == FlightSpec.SearchForFace(old(Snapshot()), scan, now).1
    {
      ghost var start := drone.Snapshot();
      var total := 0;
      var i := 0;
      while i < |scan| && total < FullTurn
        invariant 0 <= i <= |scan|
        invariant FlightSpec.SearchLoop(drone.Snapshot(), scan[i..], total, now) == FlightSpec.SearchLoop(start, scan, 0, now)
        invariant phase == old(phase) && faceFound == old(faceFound)
      {
        var frame := drone.GetFrame(scan[i]);
        assert scan[i..][1..] == scan[i + 1..];
        i := i + 1;
        if frame.NoFrame? {
          continue;
        }
        if frame.detection == Face {
          faceFound := true;
          return Found;
        }
        if frame.detection == DetectorRaises {
          return Raised;
        }
        var _ := drone.RotateClockwise(RotationStep, now);
        total := total + RotationStep;
      }
      var _ := drone.EmergencyLand(now);
      return NotFound;
    }

    method StartFlightSequence(scan: seq<Observation>, trackingRaises: bool, now: real) returns (ok: bool)
      modifies this, drone
      ensures Snapshot() == FlightSpec.StartFlightSequence(old(Snapshot()), scan, trackingRaises, now).0
      ensures ok == FlightSpec.StartFlightSequence(old(Snapshot()), scan, trackingRaises, now).1
    {
      phase := TakingOff;
      ok := ConnectAndTakeoff(now);
      if !ok {
        return false;
      }
      phase := Searching;
      ok := SearchAndTrack(scan, trackingRaises, now);
    }

    /** The search and tracking phases, once airborne. */
    method SearchAndTrack(scan: seq<Observation>, trackingRaises: bool, now: real) returns (ok: bool)
      modifies this, drone
      ensures Snapshot() == FlightSpec.SearchAndTrack(old(Snapshot()), scan, trackingRaises, now).0
      ensures ok == FlightSpec.SearchAndTrack(old(Snapshot()), scan, trackingRaises, now).1
    {
      var outcome := SearchForFace(scan, now);
      if outcome == Raised {
        var _ := drone.EmergencyLand(now);
        return false;
      }
      if outcome == NotFound {
        var _ := drone.Land(now);
        return false;
      }
      phase := Tracking;
      if trackingRaises {
        var _ := drone.EmergencyLand(now);
        return false;
      }
      return true;
    }

    method Stop(now: real)
      modifies this, drone
      ensures Snapshot() == FlightSpec.Stop(old(Snapshot()), now)
    {
      phase := Idle;
      var _ := drone.Land(now);
    }
  }
}
