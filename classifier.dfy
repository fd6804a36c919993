/**
 * The dab classifier of src/utils.js: an elbow-angle gate picks the side of
 * the dab, then the bent arm ("chicken wing") and the straight arm each give
 * a direction, and the two must agree.
 */
module Classifier {
  import opened Geometry

  /** The seven values of DAB_TYPES. */
  datatype DabType =
    | LeftUpDab | LeftSideDab | LeftDownDab
    | RightUpDab | RightSideDab | RightDownDab
    | NotDab
  {
    predicate IsLeft()
    {
      LeftUpDab? || LeftSideDab? || LeftDownDab?
    }

    predicate IsRight()
    {
      RightUpDab? || RightSideDab? || RightDownDab?
    }

    predicate IsUp()
    {
      LeftUpDab? || RightUpDab?
    }

    predicate IsSide()
    {
      LeftSideDab? || RightSideDab?
    }

    predicate IsDown()
    {
      LeftDownDab? || RightDownDab?
    }
  }

  /** The string each label stands for in DAB_TYPES. */
  function Name(t: DabType): string
  {
    match t
    case LeftUpDab => "leftUpDab"
    case LeftSideDab => "leftSideDab"
    case LeftDownDab => "leftDownDab"
    case RightUpDab => "rightUpDab"
    case RightSideDab => "rightSideDab"
    case RightDownDab => "rightDownDab"
    case NotDab => "notDab"
  }

  /** What an arm helper returns: `false`, or a direction -1, 0 or 1. */
  datatype ArmReading = Rejected | Dir(d: int)

  /** The landmarks of `results.poseLandmarks` that the classifier reads. */
  datatype Frame = Frame(
    leftShoulder: Point, rightShoulder: Point,
    leftElbow: Point, rightElbow: Point,
    leftWrist: Point, rightWrist: Point)

  function Abs(r: real): real
  {
    if r < 0.0 then -r else r
  }

  /**
   * The slope bucketing both arm helpers share: 0 within `tolerance` degrees
   * of horizontal, 1 above it, -1 below it.
   */
  function SlopeDirection(deg: real, tolerance: real): (d: int)
    requires tolerance >= 0.0
    ensures d == 0 <==> -tolerance <= deg <= tolerance
    ensures d == 1 <==> deg > tolerance
    ensures d == -1 <==> deg < -tolerance
  {
    if Abs(deg) <= tolerance then 0
    else if deg > tolerance then 1
    else -1
  }

  /** The angle at the elbow between forearm and upper arm, from angleBetween2DVectors. */
  function Bend(wrist: Point, elbow: Point, shoulder: Point, f: FloatOps): real
  {
    Angle2(Vec2(wrist.x - elbow.x, wrist.y - elbow.y), Vec2(shoulder.x - elbow.x, shoulder.y - elbow.y), f)
  }

  /** The forearm's slope in degrees: the arctangent of rise over run from elbow to wrist. */
  function ForearmSlope(wrist: Point, elbow: Point, f: FloatOps): real
  {
    f.atanDeg(f.div(wrist.y - elbow.y, wrist.x - elbow.x))
  }

  /** The whole arm's slope in degrees, from shoulder to wrist. */
  function ReachSlope(wrist: Point, shoulder: Point, f: FloatOps): real
  {
    f.atanDeg(f.div(wrist.y - shoulder.y, wrist.x - shoulder.x))
  }

  /**
   * isChickenWing: a sharply bent arm whose forearm is not vertical; its
   * direction is read from the forearm's slope with a 25 degree tolerance.
   */
  function IsChickenWing(wrist: Point, elbow: Point, shoulder: Point, f: FloatOps): (r: ArmReading)
    ensures r.Rejected? <==> Bend(wrist, elbow, shoulder, f) > 30.0 || wrist.x - elbow.x == 0.0
    ensures r.Dir? ==> var slope := ForearmSlope(wrist, elbow, f);
      && (r.d == 0 <==> Abs(slope) <= 25.0)
      && (r.d == 1 <==> slope > 25.0)
      && (r.d == -1 <==> slope < -25.0)
  {
    var forearmDx := wrist.x - elbow.x;
    if Bend(wrist, elbow, shoulder, f) > 30.0 || forearmDx == 0.0 then Rejected
    else Dir(SlopeDirection(ForearmSlope(wrist, elbow, f), 25.0))
  }

  /**
   * isStraightArm: an arm whose elbow angle lies in [165, 195]; its direction
   * is read from the shoulder-to-wrist slope with a 20 degree tolerance.
   */
  function IsStraightArm(wrist: Point, elbow: Point, shoulder: Point, f: FloatOps): (r: ArmReading)
    ensures r.Rejected? <==> Bend(wrist, elbow, shoulder, f) < 165.0 || Bend(wrist, elbow, shoulder, f) > 195.0
    ensures r.Dir? ==> var slope := ReachSlope(wrist, shoulder, f);
      && (r.d == 0 <==> Abs(slope) <= 20.0)
      && (r.d == 1 <==> slope > 20.0)
      && (r.d == -1 <==> slope < -20.0)
  {
    var angle := Bend(wrist, elbow, shoulder, f);
    if angle < 165.0 || angle > 195.0 then Rejected
    else Dir(SlopeDirection(ReachSlope(wrist, shoulder, f), 20.0))
  }

  function RightElbowAngle(fr: Frame, f: FloatOps): real
  {
    Angle3(fr.rightWrist, fr.rightElbow, fr.rightShoulder, f)
  }

  function LeftElbowAngle(fr: Frame, f: FloatOps): real
  {
    Angle3(fr.leftShoulder, fr.leftElbow, fr.leftWrist, f)
  }

  /** Right arm sharply bent, left arm nearly straight (strict bounds). */
  predicate RightDabGate(fr: Frame, f: FloatOps)
  {
    RightElbowAngle(fr, f) < 65.0 && LeftElbowAngle(fr, f) > 165.0
  }

  /** Left arm sharply bent, right arm nearly straight (strict bounds). */
  predicate LeftDabGate(fr: Frame, f: FloatOps)
  {
    LeftElbowAngle(fr, f) < 65.0 && RightElbowAngle(fr, f) > 165.0
  }

  function RightWing(fr: Frame, f: FloatOps): ArmReading
  {
    IsChickenWing(fr.rightWrist, fr.rightElbow, fr.rightShoulder, f)
  }

  function LeftWing(fr: Frame, f: FloatOps): ArmReading
  {
    IsChickenWing(fr.leftWrist, fr.leftElbow, fr.leftShoulder, f)
  }

  function RightStraight(fr: Frame, f: FloatOps): ArmReading
  {
    IsStraightArm(fr.rightWrist, fr.rightElbow, fr.rightShoulder, f)
  }

  function LeftStraight(fr: Frame, f: FloatOps): ArmReading
  {
    IsStraightArm(fr.leftWrist, fr.leftElbow, fr.leftShoulder, f)
  }

  /** Both arms gave a direction, and the same one. */
  predicate Agree(a: ArmReading, b: ArmReading)
  {
    a.Dir? && b.Dir? && a.d == b.d
  }

  /**
   * classifyPose. A right dab needs the right-dab gate and agreeing readings
   * of the bent right arm and the straight left arm; a left dab is the mirror
   * image. Directions map to labels mirrored between the sides: 1 is down on
   * the right and up on the left.
   */
  function ClassifyPose(fr: Frame, f: FloatOps): (r: DabType)
    ensures r != NotDab ==> RightDabGate(fr, f) || LeftDabGate(fr, f)
  {
    if RightDabGate(fr, f) then
      var rightArmDir := RightWing(fr, f);
      var leftArmDir := LeftStraight(fr, f);
      if rightArmDir.Rejected? || leftArmDir.Rejected? || rightArmDir != leftArmDir then NotDab
      else if rightArmDir.d == 1 then RightDownDab
      else if rightArmDir.d == 0 then RightSideDab
      else RightUpDab
    else if LeftDabGate(fr, f) then
      var rightArmDir := RightStraight(fr, f);
      var leftArmDir := LeftWing(fr, f);
      if rightArmDir.Rejected? || leftArmDir.Rejected? || rightArmDir != leftArmDir then NotDab
      else if rightArmDir.d == 1 then LeftUpDab
      else if rightArmDir.d == 0 then LeftSideDab
      else LeftDownDab
    else NotDab
  }

  /**
   * A right dab is reported exactly when the right-dab gate holds and the
   * bent right arm and the straight left arm agree; 1 means down, 0 side and
   * -1 up.
   */
  lemma ClassifyRight(fr: Frame, f: FloatOps)
    ensures ClassifyPose(fr, f).IsRight() <==> RightDabGate(fr, f) && Agree(RightWing(fr, f), LeftStraight(fr, f))
    ensures ClassifyPose(fr, f).IsRight() ==> var r, d := ClassifyPose(fr, f), RightWing(fr, f).d;
      && (r == RightDownDab <==> d == 1)
      && (r == RightSideDab <==> d == 0)
      && (r == RightUpDab <==> d == -1)
  {
    if RightDabGate(fr, f) {
      var w, s := RightWing(fr, f), LeftStraight(fr, f);
      assert w.Dir? ==> -1 <= w.d <= 1;
    }
  }

  /**
   * A left dab is reported exactly when the left-dab gate holds and the
   * straight right arm and the bent left arm agree; the mapping is mirrored:
   * 1 means up, 0 side and -1 down.
   */
  lemma ClassifyLeft(fr: Frame, f: FloatOps)
    ensures ClassifyPose(fr, f).IsLeft() <==> LeftDabGate(fr, f) && Agree(RightStraight(fr, f), LeftWing(fr, f))
    ensures ClassifyPose(fr, f).IsLeft() ==> var r, d := ClassifyPose(fr, f), LeftWing(fr, f).d;
      && (r == LeftUpDab <==> d == 1)
      && (r == LeftSideDab <==> d == 0)
      && (r == LeftDownDab <==> d == -1)
  {
    if LeftDabGate(fr, f) {
      var w, s := LeftWing(fr, f), RightStraight(fr, f);
      assert w.Dir? ==> -1 <= w.d <= 1;
    }
  }

  /** The two gates never hold together, so at most one branch of classifyPose applies. */
  lemma GatesExclusive(fr: Frame, f: FloatOps)
    ensures !(RightDabGate(fr, f) && LeftDabGate(fr, f))
  {
  }

  /** Both elbow gates are strict: angles of exactly 65 and 165 degrees do not qualify. */
  lemma GateBoundaries(fr: Frame, f: FloatOps)
    ensures RightElbowAngle(fr, f) == 65.0 || LeftElbowAngle(fr, f) == 165.0 ==> !RightDabGate(fr, f)
    ensures LeftElbowAngle(fr, f) == 65.0 || RightElbowAngle(fr, f) == 165.0 ==> !LeftDabGate(fr, f)
  {
  }

  // ---- Mirror symmetry ----------------------------------------------------

  /** The frame seen in a mirror: each landmark reflected, left and right exchanged. */
  function MirrorFrame(fr: Frame): Frame
  {
    Frame(Mirror(fr.rightShoulder), Mirror(fr.leftShoulder),
          Mirror(fr.rightElbow), Mirror(fr.leftElbow),
          Mirror(fr.rightWrist), Mirror(fr.leftWrist))
  }

  /** The same direction of dab on the other side. */
  function MirrorLabel(t: DabType): DabType
  {
    match t
    case LeftUpDab => RightUpDab
    case LeftSideDab => RightSideDab
    case LeftDownDab => RightDownDab
    case RightUpDab => LeftUpDab
    case RightSideDab => LeftSideDab
    case RightDownDab => LeftDownDab
    case NotDab => NotDab
  }

  function Negate(a: ArmReading): ArmReading
  {
    match a
    case Rejected => Rejected
    case Dir(d) => Dir(-d)
  }

  lemma SlopeDirectionOdd(deg: real, tolerance: real)
    requires tolerance >= 0.0
    ensures SlopeDirection(-deg, tolerance) == -SlopeDirection(deg, tolerance)
  {
  }

  lemma BendMirror(wrist: Point, elbow: Point, shoulder: Point, f: FloatOps)
    ensures Bend(Mirror(wrist), Mirror(elbow), Mirror(shoulder), f) == Bend(wrist, elbow, shoulder, f)
  {
    var u := Vec2(wrist.x - elbow.x, wrist.y - elbow.y);
    var v := Vec2(shoulder.x - elbow.x, shoulder.y - elbow.y);
    Angle2Mirror(u, v, f);
    assert Vec2(Mirror(wrist).x - Mirror(elbow).x, Mirror(wrist).y - Mirror(elbow).y) == Vec2(-u.x, u.y);
    assert Vec2(Mirror(shoulder).x - Mirror(elbow).x, Mirror(shoulder).y - Mirror(elbow).y) == Vec2(-v.x, v.y);
  }

  /** A slope that is not vertical has the opposite sign in the mirror. */
  lemma SlopeMirror(p: Point, q: Point, f: FloatOps)
    requires SignSymmetric(f) && p.x != q.x
    ensures f.atanDeg(f.div(Mirror(p).y - Mirror(q).y, Mirror(p).x - Mirror(q).x))
         == -f.atanDeg(f.div(p.y - q.y, p.x - q.x))
  {
    var dy, dx := p.y - q.y, p.x - q.x;
    assert Mirror(p).y - Mirror(q).y == dy && Mirror(p).x - Mirror(q).x == -dx;
    assert f.div(dy, -dx) == -f.div(dy, dx);
    assert f.atanDeg(-f.div(dy, dx)) == -f.atanDeg(f.div(dy, dx));
  }

  lemma ChickenWingMirror(wrist: Point, elbow: Point, shoulder: Point, f: FloatOps)
    requires SignSymmetric(f)
    ensures IsChickenWing(Mirror(wrist), Mirror(elbow), Mirror(shoulder), f)
         == Negate(IsChickenWing(wrist, elbow, shoulder, f))
  {
    BendMirror(wrist, elbow, shoulder, f);
    if wrist.x != elbow.x {
      SlopeMirror(wrist, elbow, f);
      SlopeDirectionOdd(ForearmSlope(wrist, elbow, f), 25.0);
    }
  }

  /** A straight arm that is not vertical reads the opposite direction in the mirror. */
  lemma StraightArmMirror(wrist: Point, elbow: Point, shoulder: Point, f: FloatOps)
    requires SignSymmetric(f) && wrist.x != shoulder.x
    ensures IsStraightArm(Mirror(wrist), Mirror(elbow), Mirror(shoulder), f)
         == Negate(IsStraightArm(wrist, elbow, shoulder, f))
  {
    BendMirror(wrist, elbow, shoulder, f);
    SlopeMirror(wrist, shoulder, f);
    SlopeDirectionOdd(ReachSlope(wrist, shoulder, f), 20.0);
  }

  /**
   * A vertical straight arm is the exception: its run is zero in the mirror
   * too, so the slope (division by zero, then arctangent) and the reading are
   * the same as the original's, whatever the primitives compute.
   */
  lemma StraightArmMirrorVertical(wrist: Point, elbow: Point, shoulder: Point, f: FloatOps)
    requires wrist.x == shoulder.x
    ensures IsStraightArm(Mirror(wrist), Mirror(elbow), Mirror(shoulder), f)
         == IsStraightArm(wrist, elbow, shoulder, f)
  {
    BendMirror(wrist, elbow, shoulder, f);
    assert Mirror(wrist).x - Mirror(shoulder).x == wrist.x - shoulder.x;
    assert ReachSlope(Mirror(wrist), Mirror(shoulder), f) == ReachSlope(wrist, shoulder, f);
  }

  /** Neither arm runs vertically from shoulder to wrist. */
  predicate ReachNotVertical(fr: Frame)
  {
    fr.leftWrist.x != fr.leftShoulder.x && fr.rightWrist.x != fr.rightShoulder.x
  }

  /** In the mirror, the elbow angles of the two arms trade places. */
  lemma ElbowAnglesMirror(fr: Frame, f: FloatOps)
    requires SignSymmetric(f)
    ensures RightElbowAngle(MirrorFrame(fr), f) == LeftElbowAngle(fr, f)
    ensures LeftElbowAngle(MirrorFrame(fr), f) == RightElbowAngle(fr, f)
  {
    Angle3Mirror(fr.leftWrist, fr.leftElbow, fr.leftShoulder, f);
    Angle3Symmetric(fr.leftWrist, fr.leftElbow, fr.leftShoulder, f);
    Angle3Mirror(fr.rightShoulder, fr.rightElbow, fr.rightWrist, f);
    Angle3Symmetric(fr.rightShoulder, fr.rightElbow, fr.rightWrist, f);
  }

  /** Each arm reading of the mirrored frame is the negated reading of the other arm. */
  lemma ArmsMirror(fr: Frame, f: FloatOps)
    requires SignSymmetric(f) && ReachNotVertical(fr)
    ensures RightWing(MirrorFrame(fr), f) == Negate(LeftWing(fr, f))
    ensures LeftWing(MirrorFrame(fr), f) == Negate(RightWing(fr, f))
    ensures RightStraight(MirrorFrame(fr), f) == Negate(LeftStraight(fr, f))
    ensures LeftStraight(MirrorFrame(fr), f) == Negate(RightStraight(fr, f))
  {
    ChickenWingMirror(fr.leftWrist, fr.leftElbow, fr.leftShoulder, f);
    ChickenWingMirror(fr.rightWrist, fr.rightElbow, fr.rightShoulder, f);
    StraightArmMirror(fr.leftWrist, fr.leftElbow, fr.leftShoulder, f);
    StraightArmMirror(fr.rightWrist, fr.rightElbow, fr.rightShoulder, f);
  }

  /**
   * Two frames whose elbow angles are exchanged and whose arm readings are
   * exchanged and negated get labels that are mirror images.
   */
  lemma ClassifySwapped(fr: Frame, m: Frame, f: FloatOps)
    requires RightElbowAngle(m, f) == LeftElbowAngle(fr, f)
    requires LeftElbowAngle(m, f) == RightElbowAngle(fr, f)
    requires RightWing(m, f) == Negate(LeftWing(fr, f))
    requires LeftWing(m, f) == Negate(RightWing(fr, f))
    requires RightStraight(m, f) == Negate(LeftStraight(fr, f))
    requires LeftStraight(m, f) == Negate(RightStraight(fr, f))
    ensures ClassifyPose(m, f) == MirrorLabel(ClassifyPose(fr, f))
  {
    if RightDabGate(fr, f) {
      assert LeftDabGate(m, f) && !RightDabGate(m, f);
    } else if LeftDabGate(fr, f) {
      assert RightDabGate(m, f);
    } else {
      assert !RightDabGate(m, f) && !LeftDabGate(m, f);
    }
  }

  /**
   * The classifier treats the two sides as mirror images: the mirrored frame
   * is classified as the same direction of dab on the other side, provided
   * neither arm is vertical from shoulder to wrist (see
   * `StraightArmMirrorVertical` for that case).
   */
  lemma ClassifyMirror(fr: Frame, f: FloatOps)
    requires SignSymmetric(f) && ReachNotVertical(fr)
    ensures ClassifyPose(MirrorFrame(fr), f) == MirrorLabel(ClassifyPose(fr, f))
  {
    ElbowAnglesMirror(fr, f);
    ArmsMirror(fr, f);
    ClassifySwapped(fr, MirrorFrame(fr), f);
  }
}
