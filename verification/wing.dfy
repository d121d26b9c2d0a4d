/** A lifting surface: its planform and derived areas, set once when the wing
    wakes, and the per-step rules that turn control commands into clamped
    surface deflections, a centre of pressure and lift and drag coefficients.
    Angles of attack, tangents, the stall angle, the lift-curve gradient and
    the degree-to-radian factor are inputs: they come from trigonometry the
    model does not evaluate. */
module Wings {
  import opened UnityMath

  /** Thickness of the wing as a fraction of its chord. */
  const WingThickness: real := 0.1
  /** A flap deflection shifts the effective angle of attack by this fraction of itself. */
  const FlapEffectiveness: real := 0.5

  /** The inspector settings of one wing. Angles are in degrees. */
  datatype WingGeometry = WingGeometry(
    zeroLiftAngle: real,
    wingSpan: real,
    rootChord: real,
    tipChord: real,
    mirror: bool,
    pivotPosition: real,
    trailFlapChord: real,
    leadFlapChord: real,
    maxRotation: real,
    maxTrailFlapAngle: real,
    maxLeadFlapAngle: real)

  /** Values the wing obtains from the float library: the stall angle and the
      lift-curve gradient (both derived from the sweep with trigonometry),
      Mathf.Deg2Rad, and the drag law's scale 20736 / Mathf.Pow(Mathf.PI, 4). */
  datatype Aero = Aero(stallAngle: real, liftCurveGradient: real, deg2Rad: real, quarticScale: real)

  /** The lift and drag coefficients, in that order. */
  datatype Coefficients = Coefficients(cl: real, cd: real)

  // ---------------------------------------------------------------------
  // Lift and drag coefficients

  /** Mathf.Pow for a natural exponent. */
  function Power(x: real, n: nat): (r: real) {
    if n == 0 then 1.0 else x * Power(x, n - 1)
  }

  /** The effective angle of attack shift (radians) from the zero-lift angle
      and the flap deflections. */
  function ModAttack(g: WingGeometry, deg2Rad: real, trailFlapControl: real, leadFlapControl: real): (r: real)
    ensures trailFlapControl == 0.0 && leadFlapControl == 0.0 ==> r == -g.zeroLiftAngle * deg2Rad
    ensures deg2Rad > 0.0 && leadFlapControl == 0.0 && trailFlapControl * g.maxTrailFlapAngle > 0.0
        ==> r < -g.zeroLiftAngle * deg2Rad
    ensures deg2Rad > 0.0 && trailFlapControl == 0.0 && leadFlapControl * g.maxLeadFlapAngle > 0.0
        ==> r > -g.zeroLiftAngle * deg2Rad
  {
    (-g.zeroLiftAngle - FlapEffectiveness * (trailFlapControl * g.maxTrailFlapAngle - leadFlapControl * g.maxLeadFlapAngle)) * deg2Rad
  }

  /** The stall test: the angle of attack, offset by the leading-edge flap,
      exceeds the stall angle in either direction. */
  predicate Stalled(g: WingGeometry, a: Aero, alpha: real, leadFlapControl: real)
    ensures leadFlapControl == 0.0 ==> (Stalled(g, a, alpha, leadFlapControl) <==> Abs(alpha) > a.stallAngle)
    ensures a.stallAngle < 0.0 ==> Stalled(g, a, alpha, leadFlapControl)
  {
    Abs(alpha - FlapEffectiveness * leadFlapControl * g.maxLeadFlapAngle * a.deg2Rad) > a.stallAngle
  }

  /** The drag law: a quartic in the effective angle of attack scaled by the
      maximum lift coefficient, clamped to [0, 2]. */
  function DragCoefficient(clMax: real, quarticScale: real, effectiveAlpha: real): (cd: real)
    ensures 0.0 <= cd <= 2.0
  {
    Clamp(DragGain(clMax, quarticScale) * Power(effectiveAlpha, 4) + Abs(clMax) / 100.0, 0.0, 2.0)
  }

  /** The factor 9 |Clmax| / 100 * 20736 / pi^4 in front of the quartic term. */
  function DragGain(clMax: real, quarticScale: real): (k: real)
    ensures quarticScale >= 0.0 ==> k >= 0.0
  {
    9.0 * Abs(clMax) / 100.0 * quarticScale
  }

  /** The coefficients for angle of attack alpha (radians) and the two flap
      commands. A stalled wing produces no lift. */
  function LiftCoefficient(g: WingGeometry, a: Aero, alpha: real, trailFlapControl: real, leadFlapControl: real): (c: Coefficients)
    ensures 0.0 <= c.cd <= 2.0
    ensures Stalled(g, a, alpha, leadFlapControl) ==> c.cl == 0.0
  {
    var modAttack := ModAttack(g, a.deg2Rad, trailFlapControl, leadFlapControl);
    var clMax := (a.stallAngle + modAttack) * a.liftCurveGradient;
    var cl := if Stalled(g, a, alpha, leadFlapControl) then 0.0 else (alpha + modAttack) * a.liftCurveGradient;
    Coefficients(cl, DragCoefficient(clMax, a.quarticScale, alpha + modAttack))
  }

  /** Lift vanishes exactly when the wing is stalled or the linear lift law
      gives zero. */
  lemma LiftVanishes(g: WingGeometry, a: Aero, alpha: real, trailFlapControl: real, leadFlapControl: real)
    ensures LiftCoefficient(g, a, alpha, trailFlapControl, leadFlapControl).cl == 0.0
        <==> Stalled(g, a, alpha, leadFlapControl)
             || (alpha + ModAttack(g, a.deg2Rad, trailFlapControl, leadFlapControl)) * a.liftCurveGradient == 0.0
  {
    if !Stalled(g, a, alpha, leadFlapControl) {
      UnstalledLift(g, a, alpha, trailFlapControl, leadFlapControl);
    }
  }

  /** Below the stall the lift coefficient follows the lift curve through the
      effective angle of attack. */
  lemma UnstalledLift(g: WingGeometry, a: Aero, alpha: real, trailFlapControl: real, leadFlapControl: real)
    requires !Stalled(g, a, alpha, leadFlapControl)
    ensures LiftCoefficient(g, a, alpha, trailFlapControl, leadFlapControl).cl
         == (alpha + ModAttack(g, a.deg2Rad, trailFlapControl, leadFlapControl)) * a.liftCurveGradient
  {
  }

  /** With both flap commands at zero the effective shift is the zero-lift
      angle alone, the stall test is |alpha| > stallAngle, and below the stall
      the lift is (alpha - zeroLiftAngle * deg2Rad) * gradient. */
  lemma CleanWingLift(g: WingGeometry, a: Aero, alpha: real)
    ensures ModAttack(g, a.deg2Rad, 0.0, 0.0) == -g.zeroLiftAngle * a.deg2Rad
    ensures Stalled(g, a, alpha, 0.0) <==> Abs(alpha) > a.stallAngle
    ensures Abs(alpha) <= a.stallAngle ==>
      LiftCoefficient(g, a, alpha, 0.0, 0.0).cl == (alpha - g.zeroLiftAngle * a.deg2Rad) * a.liftCurveGradient
  {
  }

  /** A symmetric section (zero-lift angle 0) with its flaps neutral gives
      lift odd in the angle of attack. */
  lemma SymmetricSectionLift(g: WingGeometry, a: Aero, alpha: real)
    requires g.zeroLiftAngle == 0.0
    ensures LiftCoefficient(g, a, -alpha, 0.0, 0.0).cl == -LiftCoefficient(g, a, alpha, 0.0, 0.0).cl
  {
    assert ModAttack(g, a.deg2Rad, 0.0, 0.0) == 0.0;
    assert Stalled(g, a, -alpha, 0.0) == Stalled(g, a, alpha, 0.0);
  }

  /** The drag law depends on the effective angle of attack only through its
      magnitude. */
  lemma DragEven(clMax: real, quarticScale: real, e: real)
    ensures DragCoefficient(clMax, quarticScale, -e) == DragCoefficient(clMax, quarticScale, e)
  {
    FourthPowerEven(e);
  }

  /** Multiplying non-negative factors is monotone in both of them. */
  lemma ProductMonotone(a: real, b: real, c: real, d: real)
    requires 0.0 <= a <= b && 0.0 <= c <= d
    ensures 0.0 <= a * c <= b * d
  {
    assert a * c <= b * c;
    assert b * c <= b * d;
  }

  /** A power of a non-negative base grows with the base. */
  lemma {:induction false} PowerMonotone(x: real, y: real, n: nat)
    requires 0.0 <= x <= y
    ensures 0.0 <= Power(x, n) <= Power(y, n)
  {
    if n > 0 {
      PowerMonotone(x, y, n - 1);
      ProductMonotone(x, y, Power(x, n - 1), Power(y, n - 1));
    }
  }

  /** Negating the base leaves an even power unchanged and negates an odd one. */
  lemma {:induction false} PowerOfNegation(x: real, n: nat)
    ensures Power(-x, n) == if n % 2 == 0 then Power(x, n) else -Power(x, n)
  {
    if n > 0 {
      PowerOfNegation(x, n - 1);
      assert Power(-x, n) == -x * Power(-x, n - 1);
    }
  }

  /** The fourth power is even. */
  lemma FourthPowerEven(x: real)
    ensures Power(-x, 4) == Power(x, 4)
  {
    PowerOfNegation(x, 4);
  }

  /** The fourth power grows with the magnitude of its argument. */
  lemma FourthPowerMonotone(x: real, y: real)
    requires Abs(x) <= Abs(y)
    ensures 0.0 <= Power(x, 4) <= Power(y, 4)
  {
    PowerMonotone(Abs(x), Abs(y), 4);
    assert Power(Abs(x), 4) == Power(x, 4) by { FourthPowerEven(x); }
    assert Power(Abs(y), 4) == Power(y, 4) by { FourthPowerEven(y); }
  }

  /** Drag never falls as the effective angle of attack moves away from zero,
      and it is at least |Clmax| / 100 unless the clamp at 2 applies. */
  lemma DragGrowsWithAngle(clMax: real, quarticScale: real, e1: real, e2: real)
    requires quarticScale >= 0.0 && Abs(e1) <= Abs(e2)
    ensures DragCoefficient(clMax, quarticScale, e1) <= DragCoefficient(clMax, quarticScale, e2)
    ensures DragCoefficient(clMax, quarticScale, e1) == 2.0 || DragCoefficient(clMax, quarticScale, e1) >= Abs(clMax) / 100.0
  {
    var k := DragGain(clMax, quarticScale);
    var p1, p2 := Power(e1, 4), Power(e2, 4);
    assert 0.0 <= k * p1 <= k * p2 by {
      FourthPowerMonotone(e1, e2);
      ProductMonotone(k, k, p1, p2);
    }
    ClampMonotone(k * p1 + Abs(clMax) / 100.0, k * p2 + Abs(clMax) / 100.0, 0.0, 2.0);
  }

  // ---------------------------------------------------------------------
  // Planform geometry set once in Awake

  /** +1 for a right wing, -1 for a mirrored (left) wing. */
  function SwitchLeftRight(mirror: bool): (s: real)
    ensures s == 1.0 || s == -1.0
    ensures mirror <==> s < 0.0
  {
    if mirror then -1.0 else 1.0
  }

  /** Offset that puts the pivot at PivotPosition of the root chord. */
  function ChordShift(g: WingGeometry): (v: Vec3) {
    Vec3(0.0, 0.0, g.rootChord * g.pivotPosition)
  }

  /** The tip of the leading edge; sweepTan is the tangent of the sweep angle. */
  function LeadingTip(g: WingGeometry, sweepTan: real): (v: Vec3) {
    Vec3(SwitchLeftRight(g.mirror) * g.wingSpan, 0.0, -g.wingSpan * sweepTan)
  }

  function TrailingRoot(g: WingGeometry): (v: Vec3) {
    Vec3(0.0, 0.0, -g.rootChord)
  }

  function TrailingTip(g: WingGeometry, sweepTan: real): (v: Vec3) {
    Add(LeadingTip(g, sweepTan), Vec3(0.0, 0.0, -g.tipChord))
  }

  /** The wing mesh's vertices: four corners when the tip chord is positive,
      otherwise a triangle. The wing lies in its own xz plane, its root edge
      on the x = 0 line spans the root chord and, for four corners, its tip
      edge spans the tip chord. */
  function MeshVertices(g: WingGeometry, sweepTan: real): (vs: seq<Vec3>)
    ensures |vs| == if g.tipChord > 0.0 then 4 else 3
    ensures forall k :: 0 <= k < |vs| ==> vs[k].y == 0.0
    ensures vs[0].x == vs[|vs| - 1].x == 0.0 && vs[0].z - vs[|vs| - 1].z == g.rootChord
    ensures vs[1].x == SwitchLeftRight(g.mirror) * g.wingSpan
    ensures |vs| == 4 ==> vs[1].x == vs[2].x && vs[1].z - vs[2].z == g.tipChord
  {
    var shift := ChordShift(g);
    if g.tipChord > 0.0 then
      [shift, Add(LeadingTip(g, sweepTan), shift), Add(TrailingTip(g, sweepTan), shift), Add(TrailingRoot(g), shift)]
    else
      [shift, Add(LeadingTip(g, sweepTan), shift), Add(TrailingRoot(g), shift)]
  }

  /** The wing mesh's triangle list: every index names one of its vertices. */
  function MeshTriangles(g: WingGeometry): (ts: seq<nat>)
    ensures |ts| % 3 == 0
    ensures forall k :: 0 <= k < |ts| ==> ts[k] < (if g.tipChord > 0.0 then 4 else 3)
  {
    if g.tipChord > 0.0 then [0, 1, 2, 0, 2, 3] else [0, 1, 2]
  }

  /** The planform area from the cross products of the outline's edge vectors:
      two triangles for a four-sided wing, one for a triangular wing. */
  function BasePlanformArea(g: WingGeometry, sweepTan: real): (area: real)
    ensures area >= 0.0
  {
    var leadingTip := LeadingTip(g, sweepTan);
    var trailingRoot := TrailingRoot(g);
    if g.tipChord > 0.0 then
      var trailingTip := TrailingTip(g, sweepTan);
      (AxisMagnitude(Cross(leadingTip, trailingTip)) + AxisMagnitude(Cross(trailingTip, trailingRoot))) / 2.0
    else
      AxisMagnitude(Cross(leadingTip, trailingRoot)) / 2.0
  }

  /** For non-negative dimensions the planform is the trapezoid
      span * (root + tip) / 2, whatever the sweep. */
  lemma PlanformIsTrapezoid(g: WingGeometry, sweepTan: real)
    requires g.wingSpan >= 0.0 && g.rootChord >= 0.0 && g.tipChord >= 0.0
    ensures BasePlanformArea(g, sweepTan) == g.wingSpan * (g.rootChord + g.tipChord) / 2.0
  {
    var s := SwitchLeftRight(g.mirror);
    var leadingTip := LeadingTip(g, sweepTan);
    var trailingRoot := TrailingRoot(g);
    var trailingTip := TrailingTip(g, sweepTan);
    assert g.wingSpan * g.rootChord >= 0.0 && g.wingSpan * g.tipChord >= 0.0;
    assert Cross(leadingTip, trailingRoot).y == s * g.wingSpan * g.rootChord;
    assert Abs(s * g.wingSpan * g.rootChord) == g.wingSpan * g.rootChord;
    if g.tipChord > 0.0 {
      assert Cross(leadingTip, trailingTip).y == s * g.wingSpan * g.tipChord;
      assert Cross(trailingTip, trailingRoot).y == s * g.wingSpan * g.rootChord;
      assert Abs(s * g.wingSpan * g.tipChord) == g.wingSpan * g.tipChord;
    }
  }

  /** Two vectors in the wing plane (y = 0) have a cross product along the
      y axis, whose value is the signed area of their parallelogram. */
  lemma CrossInWingPlane(a: Vec3, b: Vec3)
    requires a.y == 0.0 && b.y == 0.0
    ensures Cross(a, b) == Vec3(0.0, a.z * b.x - a.x * b.z, 0.0)
  {
  }

  /** The frontal area, the same formula in both branches of Awake. */
  function FrontalArea(g: WingGeometry): (r: real)
    ensures g.wingSpan >= 0.0 && g.rootChord + g.tipChord >= 0.0 ==> r >= 0.0
  {
    (g.rootChord * WingThickness + g.tipChord * WingThickness) * g.wingSpan * 0.5
  }

  /** The frontal area is the planform area scaled by the thickness ratio. */
  lemma FrontalIsThickPlanform(g: WingGeometry, sweepTan: real)
    requires g.wingSpan >= 0.0 && g.rootChord >= 0.0 && g.tipChord >= 0.0
    ensures FrontalArea(g) == WingThickness * BasePlanformArea(g, sweepTan)
  {
    PlanformIsTrapezoid(g, sweepTan);
  }

  /** The area a flap of the given chord adds to the planform. */
  function FlapArea(chord: real, span: real): (area: real)
    ensures span >= 0.0 ==> area >= 0.0
    ensures area != 0.0 ==> chord > 0.0
  {
    if chord > 0.0 then chord * span else 0.0
  }

  function Positive(x: real): (r: real)
    ensures r >= 0.0 && (r == x || r == 0.0)
  {
    if x > 0.0 then x else 0.0
  }

  /** The whole planform with both flaps: the trapezoid plus a span-long strip
      per flap of positive chord. */
  lemma PlanformWithFlaps(g: WingGeometry, sweepTan: real)
    requires g.wingSpan >= 0.0 && g.rootChord >= 0.0 && g.tipChord >= 0.0
    ensures BasePlanformArea(g, sweepTan) + FlapArea(g.trailFlapChord, g.wingSpan) + FlapArea(g.leadFlapChord, g.wingSpan)
         == g.wingSpan * ((g.rootChord + g.tipChord) / 2.0 + Positive(g.trailFlapChord) + Positive(g.leadFlapChord))
  {
    var base := BasePlanformArea(g, sweepTan);
    assert base == g.wingSpan * (g.rootChord + g.tipChord) / 2.0 by { PlanformIsTrapezoid(g, sweepTan); }
    FlapStrip(g.trailFlapChord, g.wingSpan);
    FlapStrip(g.leadFlapChord, g.wingSpan);
  }

  /** A flap adds a strip of its chord times the span, or nothing. */
  lemma FlapStrip(chord: real, span: real)
    ensures FlapArea(chord, span) == span * Positive(chord)
  {
  }

  /** The spanwise station of the centre of pressure as a fraction of the
      span, for a trapezoid whose chords are widened by both flaps. */
  function SpanFractionCoP(tipChord: real, rootChord: real, combinedFlapChord: real): (r: real)
    requires 3.0 * (tipChord + rootChord + 2.0 * combinedFlapChord) != 0.0
    ensures r == 1.0 / 3.0 + (tipChord + combinedFlapChord) / (3.0 * (tipChord + rootChord + 2.0 * combinedFlapChord))
  {
    var den := 3.0 * (tipChord + rootChord + 2.0 * combinedFlapChord);
    var r := (2.0 * (tipChord + combinedFlapChord) + rootChord + combinedFlapChord) / den;
    assert r == den / 3.0 / den + (tipChord + combinedFlapChord) / den;
    r
  }

  /** Without flaps the fraction is the trapezoid centroid rule
      (2 tip + root) / (3 (tip + root)). */
  lemma SpanFractionWithoutFlaps(tipChord: real, rootChord: real)
    requires tipChord + rootChord != 0.0
    ensures SpanFractionCoP(tipChord, rootChord, 0.0) == (2.0 * tipChord + rootChord) / (3.0 * (tipChord + rootChord))
  {
  }

  /** For non-negative chords and a positive root chord the station lies in
      [1/3, 2/3] of the span, so strictly between root and tip. */
  lemma SpanFractionBounds(tipChord: real, rootChord: real, combinedFlapChord: real)
    requires tipChord >= 0.0 && rootChord > 0.0 && combinedFlapChord >= 0.0
    ensures 3.0 * (tipChord + rootChord + 2.0 * combinedFlapChord) != 0.0
    ensures 1.0 / 3.0 <= SpanFractionCoP(tipChord, rootChord, combinedFlapChord) <= 2.0 / 3.0
    ensures 0.0 < SpanFractionCoP(tipChord, rootChord, combinedFlapChord) < 1.0
  {
    var num := 2.0 * (tipChord + combinedFlapChord) + rootChord + combinedFlapChord;
    var den := 3.0 * (tipChord + rootChord + 2.0 * combinedFlapChord);
    FractionBetween(num, den, 1.0 / 3.0, 2.0 / 3.0);
  }

  /** A quotient with a positive denominator inherits bounds on its numerator. */
  lemma FractionBetween(num: real, den: real, lo: real, hi: real)
    requires den > 0.0 && lo * den <= num <= hi * den
    ensures lo <= num / den <= hi
  {
    assert num / den * den == num;
  }

  // ---------------------------------------------------------------------
  // Per-step rules of Operate

  /** The angle passed to a surface's rotation: the command scaled by its
      limit, mirrored for a left wing, clamped to [-limit, limit]. */
  function Deflection(switchLeftRight: real, control: real, limit: real): (angle: real)
    ensures limit >= 0.0 ==> -limit <= angle <= limit
  {
    Clamp(switchLeftRight * control * limit, -limit, limit)
  }

  /** A command within [-1, 1] never saturates. */
  lemma DeflectionUnsaturated(switchLeftRight: real, control: real, limit: real)
    requires switchLeftRight == 1.0 || switchLeftRight == -1.0
    requires -1.0 <= control <= 1.0 && limit >= 0.0
    ensures Deflection(switchLeftRight, control, limit) == switchLeftRight * control * limit
  {
    var c := switchLeftRight * control;
    assert -1.0 <= c <= 1.0;
    BoundedScale(c, limit);
  }

  /** A factor in [-1, 1] keeps a non-negative limit within [-limit, limit]. */
  lemma BoundedScale(c: real, limit: real)
    requires -1.0 <= c <= 1.0 && limit >= 0.0
    ensures -limit <= c * limit <= limit
  {
    if c >= 0.0 {
      ScaleByFraction(limit, c);
      assert limit * c == c * limit;
    } else {
      ScaleByFraction(limit, -c);
      assert limit * -c == -(c * limit);
    }
  }

  /** Mirrored wings deflect by opposite angles for the same command. */
  lemma MirroredDeflection(control: real, limit: real)
    requires limit >= 0.0
    ensures Deflection(-1.0, control, limit) == -Deflection(1.0, control, limit)
  {
  }

  /** The chordwise fraction of the centre of pressure: the quarter chord,
      moved by a quarter of the trailing-flap command when the wing has a
      trailing-flap limit. */
  function ChordFractionCoP(maxTrailFlapAngle: real, trailFlapControl: real): (f: real)
    ensures maxTrailFlapAngle <= 0.0 || trailFlapControl == 0.0 ==> f == 0.25
    ensures maxTrailFlapAngle > 0.0 ==> f == 0.25 * (1.0 - trailFlapControl)
    ensures -1.0 <= trailFlapControl <= 1.0 ==> 0.0 <= f <= 0.5
  {
    var trailFlapCoP := if maxTrailFlapAngle > 0.0 then 0.25 * -trailFlapControl else 0.0;
    0.25 + trailFlapCoP
  }

  /** The point a fraction of the way back along a chord whose leading edge
      sits leadFlapChord ahead of the given wing vertex. */
  function ChordPoint(vertex: Vec3, chord: real, leadFlapChord: real, fraction: real): (v: Vec3) {
    Sub(vertex, Vec3(0.0, 0.0, fraction * chord - leadFlapChord))
  }

  /** The centre of pressure: a point chordFraction of the way back along the
      flapped chord, interpolated between the root and tip leading-edge
      vertices at the spanwise fraction. */
  function CentreOfPressure(root: Vec3, tip: Vec3, g: WingGeometry, combinedFlapChord: real,
                            spanFraction: real, chordFraction: real): (cop: Vec3)
    ensures cop.x == Lerp(root.x, tip.x, spanFraction) && cop.y == Lerp(root.y, tip.y, spanFraction)
  {
    LerpVec(ChordPoint(root, g.rootChord + combinedFlapChord, g.leadFlapChord, chordFraction),
            ChordPoint(tip, g.tipChord + combinedFlapChord, g.leadFlapChord, chordFraction),
            spanFraction)
  }

  /** On the wing's own mesh the centre of pressure lies in the wing plane,
      at the span fraction (clamped to [0, 1]) of the way from root to tip. */
  lemma CentreOfPressureSpanStation(g: WingGeometry, sweepTan: real, combinedFlapChord: real,
                                    spanFraction: real, chordFraction: real)
    ensures var vs := MeshVertices(g, sweepTan);
      var cop := CentreOfPressure(vs[0], vs[1], g, combinedFlapChord, spanFraction, chordFraction);
      cop.y == 0.0 && cop.x == Clamp01(spanFraction) * SwitchLeftRight(g.mirror) * g.wingSpan
  {
  }

  /** A larger chord fraction moves the centre of pressure aft (towards -z)
      and leaves its spanwise position unchanged. */
  lemma CentreOfPressureMovesAft(root: Vec3, tip: Vec3, g: WingGeometry, combinedFlapChord: real,
                                 spanFraction: real, f1: real, f2: real)
    requires f1 <= f2
    requires g.rootChord + combinedFlapChord >= 0.0 && g.tipChord + combinedFlapChord >= 0.0
    ensures var c1 := CentreOfPressure(root, tip, g, combinedFlapChord, spanFraction, f1);
      var c2 := CentreOfPressure(root, tip, g, combinedFlapChord, spanFraction, f2);
      c2.z <= c1.z && c2.x == c1.x && c2.y == c1.y
  {
    var root1 := ChordPoint(root, g.rootChord + combinedFlapChord, g.leadFlapChord, f1);
    var root2 := ChordPoint(root, g.rootChord + combinedFlapChord, g.leadFlapChord, f2);
    var tip1 := ChordPoint(tip, g.tipChord + combinedFlapChord, g.leadFlapChord, f1);
    var tip2 := ChordPoint(tip, g.tipChord + combinedFlapChord, g.leadFlapChord, f2);
    ChordPointMovesAft(root, g.rootChord + combinedFlapChord, g.leadFlapChord, f1, f2);
    ChordPointMovesAft(tip, g.tipChord + combinedFlapChord, g.leadFlapChord, f1, f2);
    LerpDepthMonotone(root2, tip2, root1, tip1, spanFraction);
  }

  /** A larger fraction moves a chord point aft and nowhere else. */
  lemma ChordPointMovesAft(vertex: Vec3, chord: real, leadFlapChord: real, f1: real, f2: real)
    requires f1 <= f2 && chord >= 0.0
    ensures var p1 := ChordPoint(vertex, chord, leadFlapChord, f1);
      var p2 := ChordPoint(vertex, chord, leadFlapChord, f2);
      p2.z <= p1.z && p2.x == p1.x && p2.y == p1.y
  {
    assert f1 * chord <= f2 * chord;
  }

  /** Vector3.Lerp's depth is monotone in the depths of its end points. */
  lemma LerpDepthMonotone(a1: Vec3, b1: Vec3, a2: Vec3, b2: Vec3, t: real)
    requires a1.z <= a2.z && b1.z <= b2.z
    ensures LerpVec(a1, b1, t).z <= LerpVec(a2, b2, t).z
  {
    LerpEndpointsMonotone(a1.z, b1.z, a2.z, b2.z, t);
  }

  /** A larger trailing-flap command moves the centre of pressure forward. */
  lemma TrailFlapMovesCentreOfPressureForward(root: Vec3, tip: Vec3, g: WingGeometry, combinedFlapChord: real,
                                              spanFraction: real, control1: real, control2: real)
    requires control1 <= control2
    requires g.rootChord + combinedFlapChord >= 0.0 && g.tipChord + combinedFlapChord >= 0.0
    ensures CentreOfPressure(root, tip, g, combinedFlapChord, spanFraction, ChordFractionCoP(g.maxTrailFlapAngle, control1)).z
         <= CentreOfPressure(root, tip, g, combinedFlapChord, spanFraction, ChordFractionCoP(g.maxTrailFlapAngle, control2)).z
  {
    CentreOfPressureMovesAft(root, tip, g, combinedFlapChord, spanFraction,
      ChordFractionCoP(g.maxTrailFlapAngle, control2), ChordFractionCoP(g.maxTrailFlapAngle, control1));
  }

  /** For a chord fraction in [0, 1] the centre of pressure lies between the
      flapped leading edge (root.z + LeadFlapChord) and the flapped trailing
      edge (root.z - RootChord - TrailFlapChord), interpolated along the span. */
  lemma CentreOfPressureWithinChord(root: Vec3, tip: Vec3, g: WingGeometry,
                                    spanFraction: real, chordFraction: real)
    requires 0.0 <= chordFraction <= 1.0
    requires g.rootChord + g.trailFlapChord + g.leadFlapChord >= 0.0
    requires g.tipChord + g.trailFlapChord + g.leadFlapChord >= 0.0
    ensures var cop := CentreOfPressure(root, tip, g, g.trailFlapChord + g.leadFlapChord, spanFraction, chordFraction);
      Lerp(root.z - g.rootChord - g.trailFlapChord, tip.z - g.tipChord - g.trailFlapChord, spanFraction)
        <= cop.z <= Lerp(root.z + g.leadFlapChord, tip.z + g.leadFlapChord, spanFraction)
  {
    var combined := g.trailFlapChord + g.leadFlapChord;
    var rootPoint := ChordPoint(root, g.rootChord + combined, g.leadFlapChord, chordFraction);
    var tipPoint := ChordPoint(tip, g.tipChord + combined, g.leadFlapChord, chordFraction);
    ChordPointWithinChord(root, g.rootChord, g.trailFlapChord, g.leadFlapChord, chordFraction);
    ChordPointWithinChord(tip, g.tipChord, g.trailFlapChord, g.leadFlapChord, chordFraction);
    LerpBetween(root.z - g.rootChord - g.trailFlapChord, tip.z - g.tipChord - g.trailFlapChord,
                rootPoint.z, tipPoint.z, root.z + g.leadFlapChord, tip.z + g.leadFlapChord, spanFraction);
  }

  /** A chord point at a fraction in [0, 1] of a chord widened by both flaps
      lies between the flapped trailing edge and the flapped leading edge. */
  lemma ChordPointWithinChord(vertex: Vec3, chord: real, trail: real, lead: real, f: real)
    requires 0.0 <= f <= 1.0 && chord + trail + lead >= 0.0
    ensures vertex.z - chord - trail <= ChordPoint(vertex, chord + (trail + lead), lead, f).z <= vertex.z + lead
  {
    FractionOf(f, chord + (trail + lead));
  }

  /** Interpolating between end points that lie between two other pairs of
      end points gives a value between the two interpolations. */
  lemma LerpBetween(lo0: real, lo1: real, x0: real, x1: real, hi0: real, hi1: real, t: real)
    requires lo0 <= x0 <= hi0 && lo1 <= x1 <= hi1
    ensures Lerp(lo0, lo1, t) <= Lerp(x0, x1, t) <= Lerp(hi0, hi1, t)
  {
    LerpEndpointsMonotone(lo0, lo1, x0, x1, t);
    LerpEndpointsMonotone(x0, x1, hi0, hi1, t);
  }

  /** A fraction in [0, 1] of a non-negative length lies between 0 and the length. */
  lemma FractionOf(f: real, d: real)
    requires 0.0 <= f <= 1.0 && d >= 0.0
    ensures 0.0 <= f * d <= d
  {
    ScaleByFraction(d, f);
    assert f * d == d * f;
  }

  // ---------------------------------------------------------------------
  // The wing object

  class Wing {
    const geometry: WingGeometry

    var switchLeftRight: real
    var meshVertices: seq<Vec3>
    var meshTriangles: seq<nat>
    var planformArea: real
    var frontalArea: real
    /** Whether Awake attached a trailing-edge or leading-edge flap. */
    var hasTrailFlap: bool
    var hasLeadFlap: bool
    var combinedFlapChord: real
    var spanFractionCoP: real

    /** The angles (degrees) last passed to the wing and flap rotations. */
    var incidenceAngle: real
    var trailFlapAngle: real
    var leadFlapAngle: real
    var centreOfPressure: Vec3
    /** The coefficients that scaled the last lift and drag forces. */
    var coefficients: Coefficients

    /** A wing that has woken: its mesh is built and its side is set. */
    ghost predicate Built()
      reads this
    {
      |meshVertices| >= 3 && (switchLeftRight == 1.0 || switchLeftRight == -1.0)
    }

    /** A wing before Awake: every computed field holds its C# default. */
    constructor (geometry: WingGeometry)
      ensures this.geometry == geometry
      ensures switchLeftRight == 0.0
      ensures meshVertices == [] && meshTriangles == []
      ensures planformArea == 0.0 && frontalArea == 0.0 && combinedFlapChord == 0.0 && spanFractionCoP == 0.0
      ensures !hasTrailFlap && !hasLeadFlap
      ensures incidenceAngle == 0.0 && trailFlapAngle == 0.0 && leadFlapAngle == 0.0
      ensures centreOfPressure == Origin && coefficients == Coefficients(0.0, 0.0)
    {
      this.geometry := geometry;
      switchLeftRight := 0.0;
      meshVertices := [];
      meshTriangles := [];
      planformArea := 0.0;
      frontalArea := 0.0;
      hasTrailFlap := false;
      hasLeadFlap := false;
      combinedFlapChord := 0.0;
      spanFractionCoP := 0.0;
      incidenceAngle := 0.0;
      trailFlapAngle := 0.0;
      leadFlapAngle := 0.0;
      centreOfPressure := Origin;
      coefficients := Coefficients(0.0, 0.0);
    }

    /** Builds the wing mesh, the planform and frontal areas, the flaps'
        area additions and the spanwise centre-of-pressure fraction. */
    method Awake(sweepTan: real)
      requires 3.0 * (geometry.tipChord + geometry.rootChord
                      + 2.0 * (geometry.trailFlapChord + geometry.leadFlapChord)) != 0.0
      modifies this
      ensures Built()
      ensures switchLeftRight == SwitchLeftRight(geometry.mirror)
      ensures meshVertices == MeshVertices(geometry, sweepTan)
      ensures meshTriangles == MeshTriangles(geometry)
      ensures planformArea == BasePlanformArea(geometry, sweepTan)
                              + FlapArea(geometry.trailFlapChord, geometry.wingSpan)
                              + FlapArea(geometry.leadFlapChord, geometry.wingSpan)
      ensures frontalArea == FrontalArea(geometry)
      ensures hasTrailFlap == (geometry.trailFlapChord > 0.0) && hasLeadFlap == (geometry.leadFlapChord > 0.0)
      ensures combinedFlapChord == geometry.trailFlapChord + geometry.leadFlapChord
      ensures spanFractionCoP == SpanFractionCoP(geometry.tipChord, geometry.rootChord, combinedFlapChord)
      ensures incidenceAngle == old(incidenceAngle) && trailFlapAngle == old(trailFlapAngle)
      ensures leadFlapAngle == old(leadFlapAngle) && centreOfPressure == old(centreOfPressure)
      ensures coefficients == old(coefficients)
    {
      BuildWing(sweepTan);
      AddFlaps();
      LocateCentreOfPressure();
    }

    /** The wing section of Awake: side, outline mesh and base areas. */
    method BuildWing(sweepTan: real)
      modifies this`switchLeftRight, this`meshVertices, this`meshTriangles, this`planformArea, this`frontalArea
      ensures switchLeftRight == SwitchLeftRight(geometry.mirror)
      ensures meshVertices == MeshVertices(geometry, sweepTan)
      ensures meshTriangles == MeshTriangles(geometry)
      ensures planformArea == BasePlanformArea(geometry, sweepTan)
      ensures frontalArea == FrontalArea(geometry)
    {
      var g := geometry;
      switchLeftRight := SwitchLeftRight(g.mirror);
      var chordShift := ChordShift(g);
      var leadingTip := LeadingTip(g, sweepTan);
      var trailingRoot := TrailingRoot(g);
      if g.tipChord > 0.0 {
        var trailingTip := Add(leadingTip, Vec3(0.0, 0.0, -g.tipChord));
        meshVertices := [chordShift, Add(leadingTip, chordShift), Add(trailingTip, chordShift), Add(trailingRoot, chordShift)];
        meshTriangles := [0, 1, 2, 0, 2, 3];
        CrossInWingPlane(leadingTip, trailingTip);
        CrossInWingPlane(trailingTip, trailingRoot);
        planformArea := (AxisMagnitude(Cross(leadingTip, trailingTip)) + AxisMagnitude(Cross(trailingTip, trailingRoot))) / 2.0;
        frontalArea := FrontalArea(g);
      } else {
        meshVertices := [chordShift, Add(leadingTip, chordShift), Add(trailingRoot, chordShift)];
        meshTriangles := [0, 1, 2];
        CrossInWingPlane(leadingTip, trailingRoot);
        planformArea := AxisMagnitude(Cross(leadingTip, trailingRoot)) / 2.0;
        frontalArea := FrontalArea(g);
      }
    }

    /** The flaps section of Awake: each flap of positive chord is attached
        and adds its area to the planform. */
    method AddFlaps()
      modifies this`planformArea, this`hasTrailFlap, this`hasLeadFlap
      ensures planformArea == old(planformArea) + FlapArea(geometry.trailFlapChord, geometry.wingSpan)
                              + FlapArea(geometry.leadFlapChord, geometry.wingSpan)
      ensures hasTrailFlap == (geometry.trailFlapChord > 0.0) && hasLeadFlap == (geometry.leadFlapChord > 0.0)
    {
      var g := geometry;
      hasTrailFlap := false;
      hasLeadFlap := false;
      if g.trailFlapChord > 0.0 {
        planformArea := planformArea + g.trailFlapChord * g.wingSpan;
        hasTrailFlap := true;
      }
      if g.leadFlapChord > 0.0 {
        planformArea := planformArea + g.leadFlapChord * g.wingSpan;
        hasLeadFlap := true;
      }
    }

    /** The centre-of-pressure section of Awake. */
    method LocateCentreOfPressure()
      requires 3.0 * (geometry.tipChord + geometry.rootChord
                      + 2.0 * (geometry.trailFlapChord + geometry.leadFlapChord)) != 0.0
      modifies this`combinedFlapChord, this`spanFractionCoP
      ensures combinedFlapChord == geometry.trailFlapChord + geometry.leadFlapChord
      ensures spanFractionCoP == SpanFractionCoP(geometry.tipChord, geometry.rootChord, combinedFlapChord)
    {
      var g := geometry;
      combinedFlapChord := g.trailFlapChord + g.leadFlapChord;
      spanFractionCoP := (2.0 * (g.tipChord + combinedFlapChord) + g.rootChord + combinedFlapChord)
                         / (3.0 * (g.tipChord + g.rootChord + 2.0 * combinedFlapChord));
    }

    /** One physics step: deflect the wing and its flaps, place the centre of
        pressure and evaluate the coefficients at angle of attack alpha. */
    method Operate(wingControl: real, trailFlapControl: real, leadFlapControl: real, alpha: real, aero: Aero)
      requires Built()
      modifies this
      ensures Built()
      ensures incidenceAngle == Deflection(switchLeftRight, wingControl, geometry.maxRotation)
      ensures trailFlapAngle == if hasTrailFlap then Deflection(switchLeftRight, trailFlapControl, geometry.maxTrailFlapAngle)
                                else old(trailFlapAngle)
      ensures leadFlapAngle == if hasLeadFlap then Deflection(switchLeftRight, leadFlapControl, geometry.maxLeadFlapAngle)
                               else old(leadFlapAngle)
      ensures centreOfPressure == CentreOfPressure(meshVertices[0], meshVertices[1], geometry, combinedFlapChord,
                                                   spanFractionCoP, ChordFractionCoP(geometry.maxTrailFlapAngle, trailFlapControl))
      ensures coefficients == LiftCoefficient(geometry, aero, alpha, trailFlapControl, leadFlapControl)
      ensures switchLeftRight == old(switchLeftRight) && meshVertices == old(meshVertices)
      ensures meshTriangles == old(meshTriangles)
      ensures planformArea == old(planformArea) && frontalArea == old(frontalArea)
      ensures hasTrailFlap == old(hasTrailFlap) && hasLeadFlap == old(hasLeadFlap)
      ensures combinedFlapChord == old(combinedFlapChord) && spanFractionCoP == old(spanFractionCoP)
    {
      incidenceAngle := Deflection(switchLeftRight, wingControl, geometry.maxRotation);
      if hasTrailFlap {
        trailFlapAngle := Deflection(switchLeftRight, trailFlapControl, geometry.maxTrailFlapAngle);
      }
      if hasLeadFlap {
        leadFlapAngle := Deflection(switchLeftRight, leadFlapControl, geometry.maxLeadFlapAngle);
      }
      var chordFraction := ChordFractionCoP(geometry.maxTrailFlapAngle, trailFlapControl);
      centreOfPressure := CentreOfPressure(meshVertices[0], meshVertices[1], geometry, combinedFlapChord,
                                           spanFractionCoP, chordFraction);
      coefficients := LiftCoefficient(geometry, aero, alpha, trailFlapControl, leadFlapControl);
    }
  }
}
