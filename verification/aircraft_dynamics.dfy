/** The aircraft body: the box inertia it gives its rigidbody, the largest
    fore-aft and lateral moment arms of its wings, and the per-wing mix of the
    pilot's pitch, roll and yaw commands into one surface command. */
module Aircraft {
  import opened UnityMath

  /** Box dimensions (metres) used for the inertia tensor. */
  const Length: real := 8.0
  const WingSpan: real := 7.0
  const Height: real := 3.0

  /** The part of the rigidbody this script sets. */
  class Rigidbody {
    const mass: real
    var inertiaTensor: Vec3
    var velocity: Vec3

    constructor (mass: real)
      ensures this.mass == mass && inertiaTensor == Origin && velocity == Origin
    {
      this.mass := mass;
      inertiaTensor := Origin;
      velocity := Origin;
    }
  }

  // ---------------------------------------------------------------------
  // Inertia

  /** The diagonal inertia tensor of a solid box of the given mass whose
      sides are WingSpan (x), Height (y) and Length (z). */
  function BoxInertia(mass: real): (inertia: Vec3)
    ensures mass >= 0.0 ==> inertia.x >= 0.0 && inertia.y >= 0.0 && inertia.z >= 0.0
  {
    Vec3((Height * Height + Length * Length) * mass / 12.0,
         (WingSpan * WingSpan + Length * Length) * mass / 12.0,
         (Height * Height + WingSpan * WingSpan) * mass / 12.0)
  }

  /** The box's inertia is that of a physical body: each principal moment is
      at most the sum of the other two, with equality nowhere for a positive
      mass (the excess is a sixth of the mass times the square of the side
      along that axis). */
  lemma BoxInertiaTriangle(mass: real)
    ensures var i := BoxInertia(mass);
      i.x + i.y - i.z == Length * Length * mass / 6.0
      && i.y + i.z - i.x == WingSpan * WingSpan * mass / 6.0
      && i.z + i.x - i.y == Height * Height * mass / 6.0
  {
  }

  /** The tensor scales with the mass: a heavier body is harder to turn
      about every axis. */
  lemma BoxInertiaGrowsWithMass(m1: real, m2: real)
    requires m1 <= m2
    ensures BoxInertia(m1).x <= BoxInertia(m2).x
    ensures BoxInertia(m1).y <= BoxInertia(m2).y
    ensures BoxInertia(m1).z <= BoxInertia(m2).z
  {
    assert (Height * Height + Length * Length) * (m2 - m1) >= 0.0;
    assert (WingSpan * WingSpan + Length * Length) * (m2 - m1) >= 0.0;
    assert (Height * Height + WingSpan * WingSpan) * (m2 - m1) >= 0.0;
  }

  // ---------------------------------------------------------------------
  // Moment arms

  /** The fore-aft moment arm of a wing at local position p: |p . back|. */
  function BackArm(p: Vec3): (arm: real)
    ensures arm >= 0.0 && (arm == p.z || arm == -p.z)
  {
    Abs(Dot(p, Back))
  }

  /** The lateral moment arm of a wing at local position p: |p . right|. */
  function RightArm(p: Vec3): (arm: real)
    ensures arm >= 0.0 && (arm == p.x || arm == -p.x)
  {
    Abs(Dot(p, Right))
  }

  function BackArms(ps: seq<Vec3>): (arms: seq<real>)
    ensures |arms| == |ps| && forall i :: 0 <= i < |ps| ==> arms[i] == BackArm(ps[i])
  {
    seq(|ps|, i requires 0 <= i < |ps| => BackArm(ps[i]))
  }

  function RightArms(ps: seq<Vec3>): (arms: seq<real>)
    ensures |arms| == |ps| && forall i :: 0 <= i < |ps| ==> arms[i] == RightArm(ps[i])
  {
    seq(|ps|, i requires 0 <= i < |ps| => RightArm(ps[i]))
  }

  /** The value a running maximum that starts at start holds after seeing
      arms in order, replacing itself only on a strictly larger value. It is
      the largest of start and the arms, and is one of them. */
  function RunningMax(arms: seq<real>, start: real): (m: real)
    ensures m >= start && forall i :: 0 <= i < |arms| ==> arms[i] <= m
    ensures m == start || exists i :: 0 <= i < |arms| && m == arms[i]
  {
    if |arms| == 0 then start
    else
      var before := RunningMax(arms[..|arms| - 1], start);
      if arms[|arms| - 1] > before then arms[|arms| - 1] else before
  }

  /** The scan's result does not depend on the order in which the wings are
      found: any rearrangement of the arms gives the same maximum. */
  lemma RunningMaxOrderIrrelevant(a: seq<real>, b: seq<real>, start: real)
    requires multiset(a) == multiset(b)
    ensures RunningMax(a, start) == RunningMax(b, start)
  {
    BoundedByRearrangement(a, b, start);
    BoundedByRearrangement(b, a, start);
  }

  lemma BoundedByRearrangement(a: seq<real>, b: seq<real>, start: real)
    requires multiset(a) == multiset(b)
    ensures RunningMax(a, start) <= RunningMax(b, start)
  {
    var m := RunningMax(a, start);
    if m != start {
      var i :| 0 <= i < |a| && m == a[i];
      assert a[i] in multiset(b);
      var j :| 0 <= j < |b| && b[j] == a[i];
    }
  }

  /** From a zero start the scan finds the largest arm of all, or 0 when
      there are no wings. */
  lemma ScanFromRest(ps: seq<Vec3>)
    ensures |ps| == 0 ==> RunningMax(BackArms(ps), 0.0) == 0.0
    ensures forall i :: 0 <= i < |ps| ==> BackArm(ps[i]) <= RunningMax(BackArms(ps), 0.0)
    ensures |ps| > 0 ==> exists i :: 0 <= i < |ps| && RunningMax(BackArms(ps), 0.0) == BackArm(ps[i])
  {
    var arms := BackArms(ps);
    var m := RunningMax(arms, 0.0);
    if |ps| > 0 && m == 0.0 {
      // Every arm is non-negative, so a zero maximum is attained by all of them.
      assert arms[0] == 0.0;
    }
  }

  // ---------------------------------------------------------------------
  // Command mix

  /** The pilot's three inceptor values. */
  datatype Inceptors = Inceptors(pitch: real, roll: real, yaw: real)

  /** What the mixer sends to one wing: an incidence command, a trailing-flap
      command and a leading-flap command. */
  datatype WingCommand = WingCommand(wingControl: real, trailFlapControl: real, leadFlapControl: real)

  /** +1 when the component is positive, otherwise (zero included) -1. */
  function Inverter(component: real): (s: real)
    ensures s == 1.0 || s == -1.0
    ensures s == 1.0 <==> component > 0.0
  {
    if component > 0.0 then 1.0 else -1.0
  }

  /** The point where the wing's force acts, in the aircraft's frame. */
  function ActionPoint(position: Vec3, centreOfPressure: Vec3): (v: Vec3) {
    Add(position, centreOfPressure)
  }

  function PitchInverter(position: Vec3, centreOfPressure: Vec3): (r: real)
    ensures r == 1.0 || r == -1.0
    ensures r == 1.0 <==> position.z + centreOfPressure.z < 0.0
  {
    Inverter(Dot(ActionPoint(position, centreOfPressure), Back))
  }

  function RollInverter(position: Vec3, centreOfPressure: Vec3): (r: real)
    ensures r == 1.0 || r == -1.0
    ensures r == 1.0 <==> position.x + centreOfPressure.x > 0.0
  {
    Inverter(Dot(ActionPoint(position, centreOfPressure), Right))
  }

  function YawInverter(position: Vec3, centreOfPressure: Vec3): (r: real)
    ensures r == 1.0 || r == -1.0
    ensures r == 1.0 <==> position.z + centreOfPressure.z < 0.0
  {
    Inverter(Dot(ActionPoint(position, centreOfPressure), Back))
  }

  /** The sum of the three inceptors, each signed by the side of the aircraft
      the wing's force acts on. */
  function InputSum(fcs: Inceptors, position: Vec3, centreOfPressure: Vec3): (r: real)
    ensures r == (fcs.pitch + fcs.yaw) * PitchInverter(position, centreOfPressure)
                 + fcs.roll * RollInverter(position, centreOfPressure)
  {
    fcs.pitch * PitchInverter(position, centreOfPressure)
      + fcs.roll * RollInverter(position, centreOfPressure)
      + fcs.yaw * YawInverter(position, centreOfPressure)
  }

  /** The command for one wing: the same sum drives incidence and the
      trailing flap; the leading flap stays neutral. */
  function MixCommand(fcs: Inceptors, position: Vec3, centreOfPressure: Vec3): (c: WingCommand)
    ensures c.wingControl == c.trailFlapControl && c.leadFlapControl == 0.0
  {
    var sum := InputSum(fcs, position, centreOfPressure);
    WingCommand(sum, sum, 0.0)
  }

  /** Pitch and yaw use the same test, so their inverters always agree; a
      wing aft of the origin (action point with negative z) gets +1. */
  lemma PitchAndYawInvertersAgree(position: Vec3, centreOfPressure: Vec3)
    ensures PitchInverter(position, centreOfPressure) == YawInverter(position, centreOfPressure)
    ensures PitchInverter(position, centreOfPressure) == 1.0
        <==> ActionPoint(position, centreOfPressure).z < 0.0
  {
  }

  /** The roll inverter is +1 exactly for a wing acting right of the centre
      line; a wing acting on the centre line itself counts as left. */
  lemma RollInverterSide(position: Vec3, centreOfPressure: Vec3)
    ensures RollInverter(position, centreOfPressure) == 1.0
        <==> ActionPoint(position, centreOfPressure).x > 0.0
  {
  }

  /** Mirroring a wing across the centre line. */
  function Mirror(v: Vec3): (m: Vec3) {
    Vec3(-v.x, v.y, v.z)
  }

  /** Roll acts differentially: a wing and its mirror image off the centre
      line receive the same pitch and yaw share and opposite roll shares, so
      their commands differ by exactly twice the signed roll input. */
  lemma RollIsDifferential(fcs: Inceptors, position: Vec3, centreOfPressure: Vec3)
    requires ActionPoint(position, centreOfPressure).x != 0.0
    ensures InputSum(fcs, position, centreOfPressure) - InputSum(fcs, Mirror(position), Mirror(centreOfPressure))
         == 2.0 * fcs.roll * RollInverter(position, centreOfPressure)
  {
    var s := RollInverter(position, centreOfPressure);
    assert RollInverter(Mirror(position), Mirror(centreOfPressure)) == -s;
    assert fcs.roll * s - fcs.roll * -s == 2.0 * fcs.roll * s;
  }

  /** The mixed command is at most the sum of the inceptor magnitudes. */
  lemma InputSumBound(fcs: Inceptors, position: Vec3, centreOfPressure: Vec3)
    ensures Abs(InputSum(fcs, position, centreOfPressure)) <= Abs(fcs.pitch) + Abs(fcs.roll) + Abs(fcs.yaw)
  {
    SignedIsMagnitude(fcs.pitch, PitchInverter(position, centreOfPressure));
    SignedIsMagnitude(fcs.roll, RollInverter(position, centreOfPressure));
    SignedIsMagnitude(fcs.yaw, YawInverter(position, centreOfPressure));
  }

  lemma SignedIsMagnitude(x: real, s: real)
    requires s == 1.0 || s == -1.0
    ensures Abs(x * s) == Abs(x)
  {
  }

  // ---------------------------------------------------------------------
  // The aircraft

  class AircraftDynamics {
    const rb: Rigidbody
    /** Local positions of the wings gathered from the children. */
    var wingPositions: seq<Vec3>
    var density: real
    var deflection: real
    var backMaxMomentArm: real
    var rightMaxMomentArm: real

    constructor (rb: Rigidbody)
      ensures this.rb == rb && wingPositions == []
      ensures density == 1.225 && deflection == 0.0
      ensures backMaxMomentArm == 0.0 && rightMaxMomentArm == 0.0
    {
      this.rb := rb;
      wingPositions := [];
      density := 1.225;
      deflection := 0.0;
      backMaxMomentArm := 0.0;
      rightMaxMomentArm := 0.0;
    }

    /** Gathers the wings, gives the rigidbody its box inertia and launch
        velocity, and scans the wings for the largest moment arms, starting
        from the arms' current values. */
    method Start(childWings: seq<Vec3>)
      modifies this, rb
      ensures wingPositions == childWings
      ensures rb.inertiaTensor == BoxInertia(rb.mass) && rb.velocity == Vec3(0.0, 0.0, 100.0)
      ensures backMaxMomentArm == RunningMax(BackArms(childWings), old(backMaxMomentArm))
      ensures rightMaxMomentArm == RunningMax(RightArms(childWings), old(rightMaxMomentArm))
      ensures density == old(density) && deflection == old(deflection)
    {
      GatherWings(childWings);
      rb.inertiaTensor := BoxInertia(rb.mass);
      rb.velocity := Vec3(0.0, 0.0, 100.0);
      ScanMomentArms();
    }

    /** Collects the wings found among the children, in order. */
    method GatherWings(childWings: seq<Vec3>)
      modifies this`wingPositions
      ensures wingPositions == childWings
    {
      wingPositions := [];
      for k := 0 to |childWings|
        invariant wingPositions == childWings[..k]
      {
        wingPositions := wingPositions + [childWings[k]];
      }
      assert childWings[..|childWings|] == childWings;
    }

    /** Raises each running maximum to any larger arm among the wings. */
    method ScanMomentArms()
      modifies this`backMaxMomentArm, this`rightMaxMomentArm
      ensures backMaxMomentArm == RunningMax(BackArms(wingPositions), old(backMaxMomentArm))
      ensures rightMaxMomentArm == RunningMax(RightArms(wingPositions), old(rightMaxMomentArm))
    {
      ghost var backArms, rightArms := BackArms(wingPositions), RightArms(wingPositions);
      var i := 0;
      while i < |wingPositions|
        invariant 0 <= i <= |wingPositions|
        invariant backMaxMomentArm == RunningMax(backArms[..i], old(backMaxMomentArm))
        invariant rightMaxMomentArm == RunningMax(rightArms[..i], old(rightMaxMomentArm))
      {
        assert backArms[..i + 1][..i] == backArms[..i];
        assert rightArms[..i + 1][..i] == rightArms[..i];
        var backMomentArm := Abs(Dot(wingPositions[i], Back));
        if backMomentArm > backMaxMomentArm {
          backMaxMomentArm := backMomentArm;
        }
        var rightMomentArm := Abs(Dot(wingPositions[i], Right));
        if rightMomentArm > rightMaxMomentArm {
          rightMaxMomentArm := rightMomentArm;
        }
        i := i + 1;
      }
      assert backArms[..i] == backArms && rightArms[..i] == rightArms;
    }

    /** One physics step of the mixer: the command each wing receives, given
        each wing's current centre of pressure. */
    method FixedUpdate(fcs: Inceptors, centresOfPressure: seq<Vec3>) returns (commands: seq<WingCommand>)
      requires |centresOfPressure| == |wingPositions|
      ensures |commands| == |wingPositions|
      ensures forall i :: 0 <= i < |commands| ==>
        commands[i] == MixCommand(fcs, wingPositions[i], centresOfPressure[i])
    {
      commands := [];
      for i := 0 to |wingPositions|
        invariant |commands| == i
        invariant forall j :: 0 <= j < i ==> commands[j] == MixCommand(fcs, wingPositions[j], centresOfPressure[j])
      {
        var actionPoint := Add(wingPositions[i], centresOfPressure[i]);
        var inverterPitch := if Dot(actionPoint, Back) > 0.0 then 1.0 else -1.0;
        var inverterRoll := if Dot(actionPoint, Right) > 0.0 then 1.0 else -1.0;
        var inverterYaw := if Dot(actionPoint, Back) > 0.0 then 1.0 else -1.0;
        var resultantPitchInput := fcs.pitch * inverterPitch;
        var resultantRollInput := fcs.roll * inverterRoll;
        var resultantYawInput := fcs.yaw * inverterYaw;
        var inputSum := resultantPitchInput + resultantRollInput + resultantYawInput;
        commands := commands + [WingCommand(inputSum, inputSum, 0.0)];
      }
    }
  }
}
