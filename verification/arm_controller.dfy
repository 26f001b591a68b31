/**
 * The servo controller of the arm: the preset table, the one-degree-per-step
 * moves towards a target pose, and the dispatch of the command character
 * received over BLE. The global `posAtual_*` variables are the fields of
 * `Arm`; each `ledcWrite` round of a loop iteration is one entry of
 * `Arm.writes`, carrying the angles whose duty (`AngleToDuty`) is written.
 * Delays, serial output and the BLE server set-up are not part of this model.
 */
module ArmController {

  /** `Posicao`: the angles of base, first arm segment, second arm segment and gripper. */
  datatype Pose = Pose(base: int, arm1: int, arm2: int, gripper: int)

  /** The eight preset poses `posicoes[0..7]`. */
  const PRESETS: seq<Pose> := [
    Pose(160, 130, 150, 90),
    Pose(120, 130, 150, 90),
    Pose(60, 130, 150, 90),
    Pose(5, 130, 150, 90),
    Pose(160, 100, 120, 90),
    Pose(120, 100, 120, 90),
    Pose(60, 100, 120, 90),
    Pose(5, 100, 120, 90)
  ]

  /** Every preset leaves the gripper at 90 degrees. */
  lemma PresetsKeepGripper(i: int)
    requires 0 <= i < |PRESETS|
    ensures |PRESETS| == 8 && PRESETS[i].gripper == 90
    ensures 5 <= PRESETS[i].base <= 160 && PRESETS[i].arm1 in {100, 130} && PRESETS[i].arm2 == PRESETS[i].arm1 + 20
  {
  }

  /** The pose the controller starts in: every `posAtual_*` at 90. */
  const HOME := Pose(90, 90, 90, 90)

  // ---------------------------------------------------------------------------
  // Duty cycle

  function Abs(a: int): nat { if a < 0 then -a else a }

  /** C's `/` on integers: the quotient is truncated towards zero. */
  function TruncDiv(a: int, b: int): (q: int)
    requires b != 0
    ensures b > 0 && a >= 0 ==> q == a / b
    ensures b > 0 && a < 0 ==> q == -((-a) / b)
  {
    var m := Abs(a) / Abs(b);
    if (a < 0) == (b < 0) then m else -m
  }

  /** Arduino's `map`: `(x - inMin) * (outMax - outMin) / (inMax - inMin) + outMin` with C division. */
  function ArduinoMap(x: int, inMin: int, inMax: int, outMin: int, outMax: int): int
    requires inMax != inMin
  {
    TruncDiv((x - inMin) * (outMax - outMin), inMax - inMin) + outMin
  }

  /** `angleToDuty`: 0..180 degrees onto the 16-bit duty range 1638..8192 at 50 Hz. */
  function AngleToDuty(ang: int): (d: int)
    ensures d == TruncDiv(ang * 6554, 180) + 1638
    ensures 0 <= ang <= 180 ==> 1638 <= d <= 8192
  {
    assert (ang - 0) * (8192 - 1638) == ang * 6554;
    ArduinoMap(ang, 0, 180, 1638, 8192)
  }

  /** The end points of the duty range, and the duty never decreases with the angle. */
  lemma AngleToDutyMonotone(a: int, b: int)
    requires a <= b
    ensures AngleToDuty(0) == 1638 && AngleToDuty(180) == 8192
    ensures AngleToDuty(a) <= AngleToDuty(b)
  {
    var x, y := a * 6554, b * 6554;
    assert x <= y;
    assert AngleToDuty(a) == TruncDiv(x, 180) + 1638 && AngleToDuty(b) == TruncDiv(y, 180) + 1638;
    if a >= 0 {
      Div180Monotone(x, y);
      assert TruncDiv(x, 180) == x / 180 && TruncDiv(y, 180) == y / 180;
    } else if b <= 0 {
      Div180Monotone(-y, -x);
      assert TruncDiv(x, 180) == -((-x) / 180) && TruncDiv(y, 180) == -((-y) / 180);
    } else {
      assert TruncDiv(x, 180) <= 0 <= TruncDiv(y, 180);
    }
  }

  lemma Div180Monotone(x: int, y: int)
    requires 0 <= x <= y
    ensures x / 180 <= y / 180
  {
  }

  // ---------------------------------------------------------------------------
  // Unit steps towards a target

  /** One joint after `if (a < t) a += 1; if (a > t) a -= 1;`. */
  function StepJoint(a: int, t: int): (r: int)
    ensures a != t ==> Abs(r - t) == Abs(a - t) - 1 && Abs(r - a) == 1
    ensures a == t ==> r == a
    ensures (a <= r <= t) || (t <= r <= a)
  {
    if a < t then a + 1 else if a > t then a - 1 else a
  }

  /** The largest distance of a joint from its target. */
  function MaxDist(p: Pose, t: Pose): nat
  {
    Max(Max(Abs(p.base - t.base), Abs(p.arm1 - t.arm1)), Max(Abs(p.arm2 - t.arm2), Abs(p.gripper - t.gripper)))
  }

  function Max(a: nat, b: nat): nat { if a < b then b else a }

  /**
   * One iteration of `aplicarPosicaoCompleta`: every joint not yet at its
   * target moves one degree towards it; the largest distance drops by one.
   */
  function Step(p: Pose, t: Pose): (r: Pose)
    requires p != t
    ensures MaxDist(r, t) == MaxDist(p, t) - 1
  {
    Pose(StepJoint(p.base, t.base), StepJoint(p.arm1, t.arm1), StepJoint(p.arm2, t.arm2), StepJoint(p.gripper, t.gripper))
  }

  /** One round of `ledcWrite` calls. */
  datatype ServoWrite = AllJoints(pose: Pose) | GripperOnly(angle: int)

  /** The writes of `aplicarPosicaoCompleta(t)` from pose `p`: one per iteration, with the stepped pose. */
  function FullMoveWrites(p: Pose, t: Pose): seq<ServoWrite>
    decreases MaxDist(p, t)
  {
    if p == t then [] else [AllJoints(Step(p, t))] + FullMoveWrites(Step(p, t), t)
  }

  /** The loop runs exactly `MaxDist(p, t)` times. */
  lemma {:induction false} FullMoveLength(p: Pose, t: Pose)
    ensures |FullMoveWrites(p, t)| == MaxDist(p, t)
    decreases MaxDist(p, t)
  {
    if p != t {
      FullMoveLength(Step(p, t), t);
    }
  }

  /** Pose `q` lies joint by joint between `p` and `t`. */
  predicate Between(p: Pose, q: Pose, t: Pose)
  {
    InRange(p.base, q.base, t.base) && InRange(p.arm1, q.arm1, t.arm1) &&
    InRange(p.arm2, q.arm2, t.arm2) && InRange(p.gripper, q.gripper, t.gripper)
  }

  predicate InRange(a: int, b: int, c: int) { (a <= b <= c) || (c <= b <= a) }

  /**
   * Every pose the move writes lies between the start and the target, each
   * joint is at most one degree from its previous value, and no joint ever
   * moves away from its target.
   */
  lemma {:induction false} FullMoveStaysBetween(p: Pose, t: Pose, i: int)
    requires 0 <= i < |FullMoveWrites(p, t)|
    ensures var w := FullMoveWrites(p, t);
      w[i].AllJoints? && Between(p, w[i].pose, t) &&
      (i > 0 ==> w[i - 1].AllJoints? && UnitMove(w[i - 1].pose, w[i].pose, t))
    decreases MaxDist(p, t)
  {
    var q := Step(p, t);
    var w := FullMoveWrites(p, t);
    assert w == [AllJoints(q)] + FullMoveWrites(q, t);
    if i > 0 {
      FullMoveStaysBetween(q, t, i - 1);
      if i > 1 {
        FullMoveStaysBetween(q, t, i - 2);
      } else {
        assert w[i - 1] == AllJoints(q);
        assert FullMoveWrites(q, t)[0] == AllJoints(Step(q, t));
      }
    }
  }

  /** From `a` to `b` every joint takes one step towards `t`, or stays when already there. */
  predicate UnitMove(a: Pose, b: Pose, t: Pose)
  {
    b == StepTowards(a, t)
  }

  /** `Step` extended to a pose already at the target. */
  function StepTowards(a: Pose, t: Pose): Pose
  {
    if a == t then a else Step(a, t)
  }

  /** The last write of a non-empty move is the target itself. */
  lemma {:induction false} FullMoveEndsAtTarget(p: Pose, t: Pose)
    requires p != t
    ensures var w := FullMoveWrites(p, t);
      |w| > 0 && w[|w| - 1] == AllJoints(t)
    decreases MaxDist(p, t)
  {
    var q := Step(p, t);
    if q != t {
      FullMoveEndsAtTarget(q, t);
    }
  }

  /** The writes of `moverGarraPara(t)` from gripper angle `a`: one per degree. */
  function GripperMoveWrites(a: int, t: int): seq<ServoWrite>
    decreases Abs(a - t)
  {
    if a == t then [] else [GripperOnly(StepJoint(a, t))] + GripperMoveWrites(StepJoint(a, t), t)
  }

  /** The gripper loop runs `|a - t|` times and ends on `t`. */
  lemma {:induction false} GripperMoveShape(a: int, t: int)
    ensures var w := GripperMoveWrites(a, t);
      |w| == Abs(a - t) && (a != t ==> w[|w| - 1] == GripperOnly(t))
    decreases Abs(a - t)
  {
    if a != t {
      GripperMoveShape(StepJoint(a, t), t);
    }
  }

  // ---------------------------------------------------------------------------
  // Command dispatch

  /** What `onWrite` does with a received value. */
  datatype Command = NoCommand | Preset(idx: nat) | MoveGripper(angle: int) | Invalid(ch: char)

  /**
   * Only the first character counts: '0'..'7' select a preset, '8' moves the
   * gripper to 60 degrees, '9' to 120 degrees, anything else is rejected; an
   * empty value is ignored.
   */
  function ParseCommand(value: string): (c: Command)
    ensures value == [] <==> c == NoCommand
    ensures c.Preset? ==> c.idx < |PRESETS| && c.idx == value[0] as int - '0' as int
    ensures value != [] ==> (c.Preset? <==> '0' <= value[0] <= '7')
    ensures value != [] && value[0] == '8' ==> c == MoveGripper(60)
    ensures value != [] && value[0] == '9' ==> c == MoveGripper(120)
    ensures value != [] && !('0' <= value[0] <= '9') ==> c == Invalid(value[0])
  {
    if |value| == 0 then NoCommand
    else
      var cmd := value[0];
      if '0' <= cmd <= '7' then Preset(cmd as int - '0' as int)
      else if cmd == '8' then MoveGripper(60)
      else if cmd == '9' then MoveGripper(120)
      else Invalid(cmd)
  }

  /** Characters after the first never change the command. */
  lemma OnlyFirstCharCounts(value: string, rest: string)
    requires value != []
    ensures ParseCommand(value + rest) == ParseCommand(value[..1])
  {
    assert (value + rest)[0] == value[0] == value[..1][0];
  }

  /** The pose the arm holds after the command. */
  function TargetPose(p: Pose, c: Command): (r: Pose)
    requires c.Preset? ==> c.idx < |PRESETS|
    ensures c.Preset? ==> r == PRESETS[c.idx] && r.gripper == 90
    ensures c.MoveGripper? ==> r == p.(gripper := c.angle)
    ensures c.NoCommand? || c.Invalid? ==> r == p
  {
    match c
    case NoCommand => p
    case Invalid(_) => p
    case Preset(i) => PresetsKeepGripper(i); PRESETS[i]
    case MoveGripper(a) => p.(gripper := a)
  }

  /** The servo writes the command causes from pose `p`. */
  function CommandWrites(p: Pose, c: Command): seq<ServoWrite>
    requires c.Preset? ==> c.idx < |PRESETS|
  {
    match c
    case NoCommand => []
    case Invalid(_) => []
    case Preset(i) => FullMoveWrites(p, PRESETS[i])
    case MoveGripper(a) => GripperMoveWrites(p.gripper, a)
  }

  /** A value whose first character is not a command leaves the arm alone and writes nothing. */
  lemma InvalidIsNoOp(p: Pose, value: string)
    requires value == [] || !('0' <= value[0] <= '9')
    ensures TargetPose(p, ParseCommand(value)) == p && CommandWrites(p, ParseCommand(value)) == []
  {
  }

  /**
   * A gripper command moves only the gripper: the other three joints keep
   * their angles through the whole move, and the move takes `|angle - g|` writes.
   */
  lemma GripperCommandMovesGripperOnly(p: Pose, value: string)
    requires value != [] && (value[0] == '8' || value[0] == '9')
    ensures var c := ParseCommand(value);
      var r := TargetPose(p, c);
      r.base == p.base && r.arm1 == p.arm1 && r.arm2 == p.arm2 &&
      r.gripper == (if value[0] == '8' then 60 else 120) &&
      |CommandWrites(p, c)| == Abs(p.gripper - r.gripper) &&
      forall i :: 0 <= i < |CommandWrites(p, c)| ==> CommandWrites(p, c)[i].GripperOnly?
  {
    var c := ParseCommand(value);
    GripperMoveShape(p.gripper, c.angle);
    GripperOnlyWrites(p.gripper, c.angle);
  }

  lemma {:induction false} GripperOnlyWrites(a: int, t: int)
    ensures forall i :: 0 <= i < |GripperMoveWrites(a, t)| ==> GripperMoveWrites(a, t)[i].GripperOnly?
    decreases Abs(a - t)
  {
    if a != t {
      GripperOnlyWrites(StepJoint(a, t), t);
    }
  }

  // ---------------------------------------------------------------------------
  // The controller state

  /** The controller: the current pose (`posAtual_*`) and the servo writes so far. */
  class Arm {
    var pos: Pose
    var writes: seq<ServoWrite>

    constructor ()
      ensures pos == HOME && writes == []
    {
      pos := HOME;
      writes := [];
    }

    /** The two comparisons each joint gets per iteration of `aplicarPosicaoCompleta`. */
    static method StepToward(a: int, t: int) returns (r: int)
      ensures r == StepJoint(a, t)
    {
      r := a;
      if r < t { r := r + 1; }
      if r > t { r := r - 1; }
    }

    /** `aplicarPosicaoCompleta`: step all four joints until they reach the target. */
    method ApplyFullPose(target: Pose)
      modifies this
      ensures pos == target
      ensures writes == old(writes) + FullMoveWrites(old(pos), target)
    {
      var aBase, aArm1, aArm2, aGripper := pos.base, pos.arm1, pos.arm2, pos.gripper;
      while aBase != target.base || aArm1 != target.arm1 || aArm2 != target.arm2 || aGripper != target.gripper
        invariant writes + FullMoveWrites(Pose(aBase, aArm1, aArm2, aGripper), target) ==
          old(writes) + FullMoveWrites(old(pos), target)
        decreases MaxDist(Pose(aBase, aArm1, aArm2, aGripper), target)
      {
        ghost var before := Pose(aBase, aArm1, aArm2, aGripper);
        aBase := StepToward(aBase, target.base);
        aArm1 := StepToward(aArm1, target.arm1);
        aArm2 := StepToward(aArm2, target.arm2);
        aGripper := StepToward(aGripper, target.gripper);
        assert Pose(aBase, aArm1, aArm2, aGripper) == Step(before, target);
        writes := writes + [AllJoints(Pose(aBase, aArm1, aArm2, aGripper))];
      }
      assert FullMoveWrites(Pose(aBase, aArm1, aArm2, aGripper), target) == [];
      pos := target;
    }

    /** `moverGarraPara`: step the gripper alone until it reaches `angle`. */
    method MoveGripperTo(angle: int)
      modifies this
      ensures pos == old(pos).(gripper := angle)
      ensures writes == old(writes) + GripperMoveWrites(old(pos).gripper, angle)
    {
      var current := pos.gripper;
      while current != angle
        invariant pos == old(pos)
        invariant writes + GripperMoveWrites(current, angle) == old(writes) + GripperMoveWrites(old(pos).gripper, angle)
        decreases Abs(current - angle)
      {
        if current < angle {
          current := current + 1;
        } else if current > angle {
          current := current - 1;
        }
        writes := writes + [GripperOnly(current)];
      }
      assert GripperMoveWrites(current, angle) == [];
      pos := pos.(gripper := angle);
    }

    /** `ComandoBLE::onWrite`: dispatch on the first character of the received value. */
    method OnWrite(value: string)
      modifies this
      ensures pos == TargetPose(old(pos), ParseCommand(value))
      ensures writes == old(writes) + CommandWrites(old(pos), ParseCommand(value))
    {
      if |value| > 0 {
        var cmd := value[0];
        if '0' <= cmd <= '7' {
          var idx := cmd as int - '0' as int;
          ApplyFullPose(PRESETS[idx]);
        } else if cmd == '8' {
          MoveGripperTo(60);
        } else if cmd == '9' {
          MoveGripperTo(120);
        }
      }
    }
  }
}
