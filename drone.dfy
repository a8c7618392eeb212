/**
 * The djitellopy `Tello` object as an abstract environment: it answers the
 * telemetry getters with fixed readings (None when the getter raises), it
 * raises for exactly the commands in `failing`, and it records every
 * command that reaches it, in order, whether or not it raised.
 */
module Drone {
  import opened Wrappers

  datatype Direction = Up | Down | Left | Right | Forward | Back

  datatype Command =
    | Connect
    | Takeoff
    | Land
    | Move(dir: Direction, cm: int)
    | RotateClockwise(degrees: int)
    | RotateCounterClockwise(degrees: int)
    | Flip(flipDir: string)
    | Rc(leftRight: int, forwardBackward: int, upDown: int, yaw: int)
    | Emergency
    | StreamOn
    | StreamOff

  datatype Tello = Tello(
    battery: Option<int>,
    height: Option<int>,
    temperature: Option<int>,
    failing: set<Command>,
    log: seq<Command>)

  /** What the face detector reports for one frame; it may raise. */
  datatype Detection = Face | NoFace | DetectorRaises

  /** What the camera yields at one read: no frame yet, or a frame and its detection. */
  datatype Observation = NoFrame | Frame(detection: Detection)

  /** Send one command: it is logged, and it succeeds unless it is one that raises. */
  function Issue(d: Tello, c: Command): (Tello, bool)
  {
    (d.(log := d.log + [c]), c !in d.failing)
  }

  /** The hover command and the descent command of an emergency landing. */
  const Hover := Rc(0, 0, 0, 0)
  const Descent := Rc(0, 0, -80, 0)
}
