/**
  Key-set to wheel-speed mixing of the motor driver (server/driver/RoverDriver.py).
  `update_movement` is a straight-line computation followed by calls to the board;
  here it returns the board commands it issues and the status line it prints.
  The stdin loop around it is I/O and not modelled.
*/
module RoverDriver {
  import opened Wrappers
  import Iic

  const BASE_SPEED := 500

  /** `base_speed * turn_factor` = 500 * 0.3, which binary64 arithmetic rounds to exactly 150.0. */
  const TURN_SPEED := 150

  /** Forward/backward component: `w` adds, `s` subtracts. */
  function Vertical(keys: seq<string>): int {
    (if "w" in keys then BASE_SPEED else 0) - (if "s" in keys then BASE_SPEED else 0)
  }

  /** Steering component before the tank-turn rule: `a` turns left, `d` right. */
  function Steering(keys: seq<string>): int {
    (if "d" in keys then TURN_SPEED else 0) - (if "a" in keys then TURN_SPEED else 0)
  }

  /** Left and right wheel speeds; steering alone spins in place at full speed. */
  function Wheels(keys: seq<string>): (w: (int, int))
    ensures w.0 + w.1 == 2 * Vertical(keys)
    ensures Vertical(keys) != 0 ==> w.0 - w.1 == 2 * Steering(keys)
    ensures Vertical(keys) == 0 ==> w.0 == -w.1
    ensures Vertical(keys) == 0 && Steering(keys) > 0 ==> w.0 == BASE_SPEED
    ensures Vertical(keys) == 0 && Steering(keys) < 0 ==> w.0 == -BASE_SPEED
    ensures Vertical(keys) == 0 && Steering(keys) == 0 ==> w == (0, 0)
  {
    var v := Vertical(keys);
    var h0 := Steering(keys);
    var h := if v == 0 && h0 != 0 then (if h0 > 0 then BASE_SPEED else -BASE_SPEED) else h0;
    (v + h, v - h)
  }

  datatype MotorCommand =
    | ControlSpeed(m1: int, m2: int, m3: int, m4: int)
    | ControlPwm(p1: int, p2: int, p3: int, p4: int)

  /** The line printed after a command; `Failed` when the voltage read raised. */
  datatype Report =
    | Ok(left: int, right: int, keys: seq<string>, voltage: real)
    | Failed

  datatype Movement = Movement(commands: seq<MotorCommand>, report: Report)

  /**
    `update_movement`: speeds to motors in the order (L, L, R, R), an extra
    zero-PWM command when both wheels stop, then the status line. The voltage
    comes from a board call that is not part of this model (`None`: it raised,
    after the motor commands had already gone out).
  */
  function UpdateMovement(keys: seq<string>, voltage: Option<real>): (m: Movement)
    ensures |m.commands| >= 1
    ensures m.commands[0] == ControlSpeed(Wheels(keys).0, Wheels(keys).0, Wheels(keys).1, Wheels(keys).1)
    ensures |m.commands| == if Wheels(keys) == (0, 0) then 2 else 1
    ensures |m.commands| == 2 ==> m.commands[1] == ControlPwm(0, 0, 0, 0)
    ensures m.report.Ok? <==> voltage.Some?
    ensures m.report.Ok? ==> m.report.left == Wheels(keys).0 && m.report.right == Wheels(keys).1 && m.report.keys == keys
    ensures m.report.Ok? ==> m.report.voltage == voltage.value
  {
    var (left, right) := Wheels(keys);
    var speed := [ControlSpeed(left, left, right, right)];
    var commands := if left == 0 && right == 0 then speed + [ControlPwm(0, 0, 0, 0)] else speed;
    var report := match voltage
      case Some(volts) => Ok(left, right, keys, volts)
      case None => Failed;
    Movement(commands, report)
  }

  /** The direction keys. */
  const DRIVE_KEYS: seq<string> := ["w", "a", "s", "d"]

  /** Only membership of w/a/s/d matters: order, duplicates and other strings do not. */
  lemma WheelsDependOnMembershipOnly(k1: seq<string>, k2: seq<string>)
    requires forall c :: c in DRIVE_KEYS ==> (c in k1 <==> c in k2)
    ensures Wheels(k1) == Wheels(k2)
  {
    assert "w" in DRIVE_KEYS && "a" in DRIVE_KEYS && "s" in DRIVE_KEYS && "d" in DRIVE_KEYS;
  }

  /** The documented key combinations. */
  lemma WheelsTable()
    ensures Wheels([]) == (0, 0)
    ensures Wheels(["w"]) == (500, 500) && Wheels(["s"]) == (-500, -500)
    ensures Wheels(["a"]) == (-500, 500) && Wheels(["d"]) == (500, -500)
    ensures Wheels(["w", "d"]) == (650, 350) && Wheels(["w", "a"]) == (350, 650)
    ensures Wheels(["s", "d"]) == (-350, -650) && Wheels(["s", "a"]) == (-650, -350)
  {
  }

  /** Opposite keys cancel: w with s has no forward component, a with d no steering. */
  lemma OppositeKeysCancel(keys: seq<string>)
    ensures "w" in keys && "s" in keys ==> Vertical(keys) == 0 && Wheels(keys).0 == -Wheels(keys).1
    ensures "a" in keys && "d" in keys ==> Wheels(keys).0 == Wheels(keys).1 == Vertical(keys)
  {
  }

  /** Speeds stay within 650 and their sum is twice the forward component. */
  lemma WheelsBounded(keys: seq<string>)
    ensures -650 <= Wheels(keys).0 <= 650 && -650 <= Wheels(keys).1 <= 650
    ensures Wheels(keys).0 + Wheels(keys).1 == 2 * Vertical(keys)
  {
  }

  /** Both wheels stop exactly when the forward keys cancel and so do the steering keys. */
  lemma StopsExactlyWhenBalanced(keys: seq<string>)
    ensures Wheels(keys) == (0, 0) <==> Vertical(keys) == 0 && Steering(keys) == 0
  {
  }

  /**
    The speed frame sent for any key set carries the wheel speeds exactly: every
    speed fits a signed 16-bit word, so decoding each motor's two bytes gives
    back L, L, R, R.
  */
  lemma SpeedFrameCarriesWheels(keys: seq<string>)
    ensures var (l, r) := Wheels(keys);
      var f := Iic.SpeedFrame(l, l, r, r);
      Iic.Signed16(Iic.Word(f[0], f[1])) == l && Iic.Signed16(Iic.Word(f[2], f[3])) == l
      && Iic.Signed16(Iic.Word(f[4], f[5])) == r && Iic.Signed16(Iic.Word(f[6], f[7])) == r
  {
    var (l, r) := Wheels(keys);
    WheelsBounded(keys);
    Iic.SpeedBytesSigned(l);
    Iic.SpeedBytesSigned(r);
  }
}
