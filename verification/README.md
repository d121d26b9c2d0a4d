# Verified model of a Unity flight toy's exact core

The flight toy is a Unity project. An aircraft carries wings and a jet engine, and a rigidbody flies it under aerodynamic forces. Most of its physics is floating-point vector and trigonometric code. This project models, in Dafny, the parts that are exact logic and proves what they promise:

- **Cylinder meshes** (`cylinder_mesh.dfy`, module `Meshes`). `CylinderMesh` builds an open cylinder or cone frustum. The mesh has a front ring of `n` vertices, a rear ring of `n` vertices and two triangles per segment. The constructor fills the vertex, normal and index arrays in one loop, wrapping back to vertex 0 and vertex `n` on the last segment. `Resize` rebuilds only the vertex array. The model keeps the arrays and the loop. Each loop is proved against a specification of the whole buffer. The layout properties are lemmas: wrap-around, index range, shared edges, every slot written exactly once, and every vertex used.
- **Wing rules** (`wing.dfy`, module `Wings`).
  - The lift and drag coefficient law: the stall branch, the quartic drag law and the clamp to [0, 2].
  - The quantities `Awake` derives once: the wing outline, the planform area from cross products, the frontal area, the flap area additions and the spanwise centre-of-pressure fraction.
  - The per-step rules of `Operate`: the clamped deflections, the chordwise centre-of-pressure fraction and `CalculateCoP`.
  - `Wing` is a class. `Awake` and `Operate` are methods that set its fields, and each is specified by the functions above.
- **Aircraft** (`aircraft_dynamics.dfy`, module `Aircraft`).
  - The box inertia tensor.
  - The `Start` scan, which raises two running maxima (the largest fore-aft and lateral moment arms) in place. It is proved against a recursive maximum.
  - The mixer in `FixedUpdate`. For each wing, the pitch, roll and yaw inputs are signed by the side its force acts on. They are summed and sent as one command for incidence and the trailing flap.
- **Engine** (`engine.dfy`, module `Engines`). The nozzle schedule: minimum opening up to throttle 0.7, then a clamped lerp to the full diameter. `UpdateNozzle` resizes the three nozzle meshes, and lemmas show that the three sections join up.
- **Unity helpers** (`unity_math.dfy`, module `UnityMath`). Exact-real counterparts of `Vector3`, `Mathf.Clamp`, `Mathf.Clamp01`, `Mathf.Lerp` and `Vector3.Lerp` (both lerps clamp their parameter). `Mathf.Clamp` tests the lower bound first.

Conventions:

- Every float is a Dafny `real`, so there is no rounding.
- The model does not evaluate any transcendental value. These enter as parameters:
  - the cos and sin of each ring angle (`UnitPoint`);
  - the tangent of the sweep angle (`sweepTan`);
  - the stall angle, the lift-curve gradient, `Mathf.Deg2Rad` and the drag scale `20736 / Mathf.Pow(Mathf.PI, 4)` (datatype `Aero`);
  - the angle of attack.
- Unity normalisation is kept symbolic as `Normalized(v)`.
- C# arrays start zero-filled, and the model's loop specifications say so.

Behaviour modelled as written, with a lemma that makes it explicit:

- The rear-ring normals are the normalised FRONT vertices (`CylinderMesh.cs:31`); see `Meshes.RingNormalsLayout`.
- `Awake` puts the nozzle throat at `-NozzleLength * NozzleThroatPos`, while `UpdateNozzle` puts it at `-NozzleLength / 2`. The two agree only when the throat position is one half or the nozzle has no length; see `Engines.ThroatAfterUpdate`.
- A wing whose force acts exactly on a reference plane gets inverter −1, not 0; see `Aircraft.RollInverterSide` and `Aircraft.PitchAndYawInvertersAgree`.

## Model

| member | source | states |
|---|---|---|
| `UnityMath.Clamp` | Assets/Scripts/Wing.cs:189 | Mathf.Clamp: the result is the value when in range; a value below lo gives lo even when lo > hi (the lower bound is tested first); a value at least lo and above hi gives hi; within the bounds whenever lo <= hi |
| `UnityMath.Clamp01` | Assets/Scripts/Engine.cs:59 | Mathf.Clamp01: the result lies in [0, 1], is 0 at or below 0, 1 at or above 1, and the value itself inside |
| `UnityMath.ClampMonotone` | Assets/Scripts/Wing.cs:178 | Mathf.Clamp never decreases as the clamped value grows |
| `UnityMath.Lerp` | Assets/Scripts/Engine.cs:59 | Mathf.Lerp: the first end point for t <= 0, the second for t >= 1, and always between the two end points |
| `UnityMath.LerpMonotone` | Assets/Scripts/Engine.cs:59 | for rising end points, Lerp never falls as t grows |
| `UnityMath.LerpEndpointsMonotone` | Assets/Scripts/Wing.cs:249 | raising either end point never lowers the interpolated value |
| `UnityMath.AxisMagnitude` | Assets/Scripts/Wing.cs:84 | the magnitude of a vector on the y axis is non-negative and is ±y |
| `UnityMath.AxisMagnitudeIsLength` | Assets/Scripts/Wing.cs:94 | that magnitude squared is the vector's dot product with itself, i.e. it is the Euclidean length |
| `Meshes.Next` | Assets/Scripts/CylinderMesh.cs:27 | the source's conditional successor `i < n - 1 ? i + 1 : 0` names a vertex of the ring |
| `Meshes.TriangleAt` | Assets/Scripts/CylinderMesh.cs:25-34 | triangle t starts at vertex t, its second corner names one of the 2n vertices and its third corner a front-ring vertex |
| `Meshes.SlotValue` | Assets/Scripts/CylinderMesh.cs:25-34 | every slot of the index buffer holds the index of one of the 2n vertices |
| `Meshes.RingVertices` | Assets/Scripts/CylinderMesh.cs:14 | the vertex array holds 2n vertices |
| `Meshes.RingNormals` | Assets/Scripts/CylinderMesh.cs:16 | the normal array holds 2n normals |
| `Meshes.TriangleLayout` | Assets/Scripts/CylinderMesh.cs:15 | the index buffer holds 6n indices, three per triangle for 2n triangles |
| `Meshes.RingVerticesLayout` | Assets/Scripts/CylinderMesh.cs:23-30 | front vertex i lies at depth z0 on ring angle i scaled by d0/2; rear vertex i + n lies at depth z1 scaled by d1/2 |
| `Meshes.RingNormalsLayout` | Assets/Scripts/CylinderMesh.cs:24-31 | both normals of angle i (slots i and i + n) are the normalised front vertex i |
| `Meshes.TrianglesStep` | Assets/Scripts/CylinderMesh.cs:25-34 | one loop iteration writes exactly segment i's front and rear triangles and leaves every other slot as it was |
| `Meshes.TrianglesStepAt` | Assets/Scripts/CylinderMesh.cs:25-34 | slot by slot: after iteration i a slot holds its corner of segment i's triangles if it is one of their six slots, and its previous value otherwise |
| `Meshes.SetSegmentTriangles` | Assets/Scripts/CylinderMesh.cs:25-34 | writing segment i's front and rear triangles extends the buffer's finished prefix from i segments to i + 1 |
| `Meshes.VerticesStep` | Assets/Scripts/CylinderMesh.cs:23-30 | one loop iteration writes exactly vertices i and i + n |
| `Meshes.NormalsStep` | Assets/Scripts/CylinderMesh.cs:24-31 | one loop iteration writes exactly normals i and i + n |
| `Meshes.NextWraps` | Assets/Scripts/CylinderMesh.cs:27 | the conditional `i < n - 1 ? i + 1 : 0` is the ring successor (i + 1) mod n |
| `Meshes.SlotOfCorner` | Assets/Scripts/CylinderMesh.cs:25-34 | slot 3t + c of the buffer holds corner c of triangle t |
| `Meshes.SlotInRange` | Assets/Scripts/CylinderMesh.cs:25-34 | every index in the buffer names one of the 2n vertices |
| `Meshes.FrontTriangle` | Assets/Scripts/CylinderMesh.cs:25-27 | segment i's first triangle is (i, i + n, i + 1), wrapping to vertex 0 on the last segment |
| `Meshes.RearTriangle` | Assets/Scripts/CylinderMesh.cs:32-34 | segment i's second triangle is (i + n, i + n + 1, i + 1), wrapping to rear vertex n and front vertex 0 on the last segment |
| `Meshes.SegmentSharesEdge` | Assets/Scripts/CylinderMesh.cs:26-34 | the two triangles of a segment share the edge from rear vertex i + n to front vertex (i + 1) mod n |
| `Meshes.SlotsCovered` | Assets/Scripts/CylinderMesh.cs:18-35 | every slot 0..6n-1 of the buffer is written by some iteration and corner |
| `Meshes.SlotsDisjoint` | Assets/Scripts/CylinderMesh.cs:18-35 | no slot is written by two different (iteration, corner, ring) writes |
| `Meshes.TrianglesNonDegenerate` | Assets/Scripts/CylinderMesh.cs:25-34 | with at least two segments, every triangle has three distinct corners |
| `Meshes.EveryVertexUsed` | Assets/Scripts/CylinderMesh.cs:25-34 | each of the 2n vertices occurs in the index buffer |
| `Meshes.SharedRingCoincides` | Assets/Scripts/CylinderMesh.cs:23-30 | two meshes over the same angles, where the first one's rear ring has the diameter and depth of the second one's front ring, have identical vertices along that seam |
| `Meshes.SetTriangle` | Assets/Scripts/CylinderMesh.cs:25-27 | writes a triangle's three corners into slots 3t..3t+2 and nothing else |
| `Meshes.SetPair` | Assets/Scripts/CylinderMesh.cs:23-30 | writes a front slot i and a rear slot i + n and nothing else |
| `Meshes.CylinderMesh.constructor` | Assets/Scripts/CylinderMesh.cs:10-41 | allocates 2n vertices, 2n normals and 6n indices; fills them with the two rings, the front-vertex normals and the full triangle layout |
| `Meshes.CylinderMesh.Resize` | Assets/Scripts/CylinderMesh.cs:43-59 | replaces only the vertex array (still 2n long) with the rings for the new diameters and depths; indices and normals unchanged |
| `Wings.DragCoefficient` | Assets/Scripts/Wing.cs:178 | the drag coefficient lies in [0, 2] for every input |
| `Wings.DragGain` | Assets/Scripts/Wing.cs:178 | the quartic term's factor is non-negative when the drag scale is |
| `Wings.ModAttack` | Assets/Scripts/Wing.cs:162 | with neutral flaps the effective-angle offset is -ZeroLiftAngle * Deg2Rad; a trailing-flap command deflecting the flap (command times maximum angle positive) lowers it, and a leading-flap command raises it |
| `Wings.Stalled` | Assets/Scripts/Wing.cs:167 | with a neutral leading flap the stall test is abs(alpha) > stallAngle; a negative stall angle means stalled at every angle |
| `Wings.LiftCoefficient` | Assets/Scripts/Wing.cs:154-181 | Cd lies in [0, 2]; a stalled wing has Cl = 0 |
| `Wings.LiftVanishes` | Assets/Scripts/Wing.cs:167-176 | Cl = 0 if and only if the wing is stalled or the lift curve gives zero at the effective angle |
| `Wings.UnstalledLift` | Assets/Scripts/Wing.cs:162-176 | below the stall, Cl = (alpha + modAttack) * gradient |
| `Wings.CleanWingLift` | Assets/Scripts/Wing.cs:162-176 | with both flap commands 0: modAttack = -ZeroLiftAngle * Deg2Rad, the stall test is abs(alpha) > stallAngle, and below it Cl = (alpha - ZeroLiftAngle * Deg2Rad) * gradient |
| `Wings.SymmetricSectionLift` | Assets/Scripts/Wing.cs:162-176 | with zero-lift angle 0 and neutral flaps, Cl is odd in the angle of attack |
| `Wings.DragEven` | Assets/Scripts/Wing.cs:178 | the drag law depends on the effective angle only through its magnitude |
| `Wings.PowerMonotone` | Assets/Scripts/Wing.cs:178 | Mathf.Pow with a natural exponent grows with a non-negative base |
| `Wings.PowerOfNegation` | Assets/Scripts/Wing.cs:178 | negating the base keeps an even power and negates an odd one |
| `Wings.FourthPowerMonotone` | Assets/Scripts/Wing.cs:178 | the fourth power is non-negative and grows with the magnitude of its argument |
| `Wings.DragGrowsWithAngle` | Assets/Scripts/Wing.cs:178 | drag never falls as the effective angle moves away from 0, and it is at least abs(Clmax)/100 unless clamped at 2 |
| `Wings.SwitchLeftRight` | Assets/Scripts/Wing.cs:71 | the side factor is ±1, and it is negative exactly for a mirrored wing |
| `Wings.MeshVertices` | Assets/Scripts/Wing.cs:72-91 | four corners when the tip chord is positive, otherwise three. All lie in the wing plane (y = 0), the root edge lies at x = 0 and spans the root chord, the tip lies at x = ±span, and for four corners the tip edge spans the tip chord |
| `Wings.MeshTriangles` | Assets/Scripts/Wing.cs:82-92 | whole triangles whose indices all name a vertex of the outline |
| `Wings.BasePlanformArea` | Assets/Scripts/Wing.cs:84-94 | the cross-product planform area is non-negative |
| `Wings.PlanformIsTrapezoid` | Assets/Scripts/Wing.cs:74-94 | for non-negative dimensions, the cross-product area is span * (root + tip) / 2 in both branches, whatever the sweep |
| `Wings.CrossInWingPlane` | Assets/Scripts/Wing.cs:84-94 | the cross product of two vectors in the wing plane (y = 0) points along the y axis, with y component z₁x₂ − x₁z₂ |
| `Wings.FrontalArea` | Assets/Scripts/Wing.cs:85-95 | the frontal area is non-negative for a non-negative span and chord sum |
| `Wings.FrontalIsThickPlanform` | Assets/Scripts/Wing.cs:85-95 | FrontalArea = (root + tip) * 0.1 * span / 2, which is the thickness ratio times the planform, in both branches |
| `Wings.FlapArea` | Assets/Scripts/Wing.cs:104-124 | for a non-negative span a flap adds a non-negative area, and it adds any area only when its chord is positive |
| `Wings.FlapStrip` | Assets/Scripts/Wing.cs:111 | a flap of positive chord adds exactly chord * span; an absent flap adds nothing |
| `Wings.PlanformWithFlaps` | Assets/Scripts/Wing.cs:84-124 | the final planform is span * ((root + tip)/2 + positive part of each flap chord) |
| `Wings.SpanFractionWithoutFlaps` | Assets/Scripts/Wing.cs:133 | with no flap chord, the fraction reduces to (2 tip + root) / (3 (tip + root)), as the inline comment states |
| `Wings.SpanFractionCoP` | Assets/Scripts/Wing.cs:133 | the fraction is 1/3 plus (tip + flap chord) over 3 (tip + root + 2 flap chord), i.e. the centroid, measured from the root, of the trapezoid whose root and tip chords are each lengthened by the flap chord |
| `Wings.SpanFractionBounds` | Assets/Scripts/Wing.cs:133 | for non-negative chords and a positive root chord, the denominator is non-zero and the fraction lies in [1/3, 2/3], hence strictly between 0 and 1 |
| `Wings.Deflection` | Assets/Scripts/Wing.cs:189-200 | each rotation angle lies in [-limit, limit] |
| `Wings.DeflectionUnsaturated` | Assets/Scripts/Wing.cs:189-200 | a command within [-1, 1] is passed through unclamped as side * command * limit |
| `Wings.BoundedScale` | Assets/Scripts/Wing.cs:189-200 | a command within [-1, 1] scales a non-negative limit to a value inside [-limit, limit], so the clamp never binds |
| `Wings.MirroredDeflection` | Assets/Scripts/Wing.cs:189 | a mirrored wing deflects by the opposite angle for the same command |
| `Wings.ChordFractionCoP` | Assets/Scripts/Wing.cs:206-207 | 0.25 when MaxTrailFlapAngle <= 0 or the command is 0; otherwise 0.25 - 0.25 * command; within [0, 0.5] for commands in [-1, 1] |
| `Wings.CentreOfPressure` | Assets/Scripts/Wing.cs:247-250 | the centre of pressure's x and y are the Lerp of the root and tip points at the span fraction; only z depends on the chord fraction |
| `Wings.CentreOfPressureSpanStation` | Assets/Scripts/Wing.cs:247-250 | on the wing's own mesh, the centre of pressure lies in the wing plane at the clamped span fraction of the tip's x |
| `Wings.CentreOfPressureMovesAft` | Assets/Scripts/Wing.cs:247-250 | a larger chord fraction moves the centre of pressure aft and leaves x and y unchanged |
| `Wings.ChordPointMovesAft` | Assets/Scripts/Wing.cs:249 | one Lerp end point of CalculateCoP moves aft, and only aft, as the chord fraction grows over a non-negative chord |
| `Wings.ChordPointWithinChord` | Assets/Scripts/Wing.cs:249 | for a fraction in [0, 1], an end point of CalculateCoP lies between its chord's flapped trailing edge and flapped leading edge |
| `Wings.TrailFlapMovesCentreOfPressureForward` | Assets/Scripts/Wing.cs:206-250 | a larger trailing-flap command never moves the centre of pressure aft |
| `Wings.CentreOfPressureWithinChord` | Assets/Scripts/Wing.cs:247-250 | for a chord fraction in [0, 1], the centre of pressure lies between the flapped trailing edge and the flapped leading edge, interpolated along the span |
| `Wings.Wing.constructor` | Assets/Scripts/Wing.cs:35-51 | before Awake, every computed field holds its C# default (side factor 0, empty mesh, zero areas, chords and angles, no flaps, the origin as centre of pressure, zero coefficients) |
| `Wings.Wing.Awake` | Assets/Scripts/Wing.cs:59-141 | sets the side, the outline and its triangles, the planform area including flap strips, the frontal area, the flap presence, the combined flap chord and the span fraction; the per-step fields are untouched |
| `Wings.Wing.BuildWing` | Assets/Scripts/Wing.cs:71-97 | the wing section of Awake: side, outline, triangles, base planform and frontal area |
| `Wings.Wing.AddFlaps` | Assets/Scripts/Wing.cs:104-128 | each flap of positive chord is attached and adds its strip to the planform |
| `Wings.Wing.LocateCentreOfPressure` | Assets/Scripts/Wing.cs:131-133 | the combined flap chord and the spanwise centre-of-pressure fraction |
| `Wings.Wing.Operate` | Assets/Scripts/Wing.cs:184-215 | sets the clamped incidence angle, each present flap's clamped angle, the centre of pressure and the coefficients; every Awake-derived field is unchanged |
| `Aircraft.BoxInertia` | Assets/Scripts/AircraftDynamics.cs:29 | the inertia diagonal ((H²+L²)m/12, (W²+L²)m/12, (H²+W²)m/12) is non-negative when the mass is |
| `Aircraft.BoxInertiaTriangle` | Assets/Scripts/AircraftDynamics.cs:12-29 | each principal moment falls short of the sum of the other two by a sixth of the mass times the square of that axis's box side |
| `Aircraft.BoxInertiaGrowsWithMass` | Assets/Scripts/AircraftDynamics.cs:29 | every diagonal entry grows with the mass |
| `Aircraft.BackArm` | Assets/Scripts/AircraftDynamics.cs:34 | the fore-aft arm is abs(z) of the position |
| `Aircraft.RightArm` | Assets/Scripts/AircraftDynamics.cs:40 | the lateral arm is abs(x) of the position |
| `Aircraft.BackArms` | Assets/Scripts/AircraftDynamics.cs:32-34 | one fore-aft arm per wing, in order |
| `Aircraft.RightArms` | Assets/Scripts/AircraftDynamics.cs:32-40 | one lateral arm per wing, in order |
| `Aircraft.RunningMax` | Assets/Scripts/AircraftDynamics.cs:32-45 | the strict-greater running maximum ends at the largest of its start value and all arms, and it equals one of them |
| `Aircraft.RunningMaxOrderIrrelevant` | Assets/Scripts/AircraftDynamics.cs:24-45 | the order in which the wings are found does not change the maxima |
| `Aircraft.BoundedByRearrangement` | Assets/Scripts/AircraftDynamics.cs:24-45 | a rearrangement of the arms never yields a larger running maximum |
| `Aircraft.ScanFromRest` | Assets/Scripts/AircraftDynamics.cs:18-39 | from the initial 0, the scan gives 0 with no wings; otherwise it gives the largest abs(z) of the wings, which some wing attains |
| `Aircraft.Inverter` | Assets/Scripts/AircraftDynamics.cs:56-58 | an inverter is ±1, and +1 exactly when the component is positive (0 gives −1) |
| `Aircraft.PitchInverter` | Assets/Scripts/AircraftDynamics.cs:56 | ±1, and +1 exactly when the wing's action point (position plus centre of pressure) is aft, z < 0 |
| `Aircraft.RollInverter` | Assets/Scripts/AircraftDynamics.cs:57 | ±1, and +1 exactly when the action point is right of the centre line, x > 0 |
| `Aircraft.YawInverter` | Assets/Scripts/AircraftDynamics.cs:58 | ±1, and +1 exactly when the action point is aft, z < 0 |
| `Aircraft.InputSum` | Assets/Scripts/AircraftDynamics.cs:56-65 | since pitch and yaw share an inverter, the command is (pitch + yaw) times the pitch inverter plus roll times the roll inverter |
| `Aircraft.MixCommand` | Assets/Scripts/AircraftDynamics.cs:61-66 | the same input sum drives incidence and the trailing flap; the leading-flap command is 0 |
| `Aircraft.PitchAndYawInvertersAgree` | Assets/Scripts/AircraftDynamics.cs:56-58 | pitch and yaw inverters are always equal, +1 exactly when the action point is aft (z < 0) |
| `Aircraft.RollInverterSide` | Assets/Scripts/AircraftDynamics.cs:57 | the roll inverter is +1 exactly when the action point is right of the centre line (x > 0) |
| `Aircraft.RollIsDifferential` | Assets/Scripts/AircraftDynamics.cs:56-65 | a wing and its mirror image off the centre line get commands that differ by exactly twice the signed roll input |
| `Aircraft.InputSumBound` | Assets/Scripts/AircraftDynamics.cs:61-65 | the command's magnitude is at most the sum of the inceptor magnitudes |
| `Aircraft.AircraftDynamics.constructor` | Assets/Scripts/AircraftDynamics.cs:16-19 | Density 1.225, deflection 0, both maxima 0, no wings |
| `Aircraft.AircraftDynamics.Start` | Assets/Scripts/AircraftDynamics.cs:21-46 | gathers the wings, sets the box inertia and the launch velocity (0, 0, 100), and leaves each maximum at the running maximum of its arms from its old value |
| `Aircraft.AircraftDynamics.GatherWings` | Assets/Scripts/AircraftDynamics.cs:23-27 | the wing list is the children's wings in order |
| `Aircraft.AircraftDynamics.ScanMomentArms` | Assets/Scripts/AircraftDynamics.cs:32-45 | the scan loop leaves BackMaxMomentArm and RightMaxMomentArm at the running maxima of the fore-aft and lateral arms |
| `Aircraft.AircraftDynamics.FixedUpdate` | Assets/Scripts/AircraftDynamics.cs:52-67 | one command per wing, equal to that wing's mixed command |
| `Engines.NozzleDiameter` | Assets/Scripts/Engine.cs:53-60 | throttle <= 0.7 gives MinNozDiameter; throttle >= 1 gives Diameter; otherwise the opening lies between the two |
| `Engines.NozzleDiameterMonotone` | Assets/Scripts/Engine.cs:53-60 | when MinNozDiameter <= Diameter, the opening never shrinks as the throttle rises |
| `Engines.NozzleOpensLinearly` | Assets/Scripts/Engine.cs:56-60 | between 0.7 and 1 the opening is exactly linear in the throttle, so it is continuous at the threshold |
| `Engines.AwakeExternal` | Assets/Scripts/Engine.cs:37 | Awake's external nozzle section starts at depth 0 and is NozzleLength long |
| `Engines.AwakeInternalLead` | Assets/Scripts/Engine.cs:38 | Awake's internal lead section starts at depth 0 and is NozzleLength * NozzleThroatPos long |
| `Engines.AwakeInternalTrail` | Assets/Scripts/Engine.cs:39 | Awake's internal trail section is a straight tube (equal diameters) ending at −NozzleLength, NozzleLength * (1 − NozzleThroatPos) long |
| `Engines.ExternalSection` | Assets/Scripts/Engine.cs:62 | UpdateNozzle's external section starts at depth 0 and is NozzleLength long |
| `Engines.InternalLeadSection` | Assets/Scripts/Engine.cs:63 | UpdateNozzle's internal lead section starts at depth 0 and is half the nozzle long |
| `Engines.InternalTrailSection` | Assets/Scripts/Engine.cs:64 | UpdateNozzle's internal trail section ends at −NozzleLength and is half the nozzle long |
| `Engines.NozzleSectionsJoin` | Assets/Scripts/Engine.cs:62-64 | the internal lead section ends (MinNozDiameter, −L/2) where the trail section begins; internal and external surfaces share inlet and exit; the exit has the scheduled diameter |
| `Engines.ThroatAfterUpdate` | Assets/Scripts/Engine.cs:37-64 | below the threshold the resized external nozzle equals Awake's. The resized lead section equals Awake's if and only if the nozzle has no length or its throat position is 0.5 |
| `Engines.NewSectionMesh` | Assets/Scripts/Engine.cs:34-39 | a freshly allocated well-formed mesh on the given ring showing the section, with the normals of its front ring |
| `Engines.Engine.constructor` | Assets/Scripts/Engine.cs:28-49 | builds four distinct, freshly allocated, well-formed meshes on the one ring of angles it is given: the nacelle (D, D, 0, EngineLength) and the three nozzle sections at the minimum opening with the throat at −L·NozzleThroatPos; each mesh's normals are those of its front ring (diameter D at depth 0, or MinNozDiameter at the throat for the trail section) |
| `Engines.Engine.UpdateNozzle` | Assets/Scripts/Engine.cs:51-65 | resizes the three nozzle meshes to the external, lead and trail sections for the scheduled opening; the meshes stay well formed and keep the same normal and index arrays, with the normals unchanged; afterwards the lead mesh's rear ring is vertex for vertex the trail mesh's front ring, and the trail and external meshes share their exit ring |
| `Engines.Engine.NozzleSeams` | Assets/Scripts/Engine.cs:62-64 | meshes showing the three resized sections meet vertex for vertex: lead rear ring = trail front ring at the throat, trail rear ring = external rear ring at the exit |

## Left out

- Trigonometry and square roots are not evaluated; their results are inputs:
  - the ring angles' cos/sin (`CylinderMesh.cs:20-23`);
  - `Mathf.Tan` of the sweep (`Wing.cs:74`);
  - `liftCurveMagnitude`, `liftCurveGradient` and `stallAngle` (`Wing.cs:157-159`), carried in `Aero`;
  - `Mathf.PI` in the drag scale;
  - the angle of attack from `Atan2` (`Wing.cs:210-213`).
- `Vector3.normalized` is kept symbolic (`Meshes.Normal`), so no property of unit length is stated.
- Floating-point rounding, NaN and infinities are not modelled. Division by zero is excluded by a precondition instead:
  - `Wings.SpanFractionCoP` and `Wings.Wing.Awake` require a non-zero denominator 3 * (tip + root + 2 * combined flap chord). C# would store an infinity or NaN there when all chords are 0.
  - `Engines.NozzleDiameter` divides by 1 − 0.7, a constant.
- Lift and drag force vectors are left out. This covers their directions (cross products, `normalized`), the dynamic pressure from `Density` and the velocity, `Rigidbody.GetPointVelocity` and `AddForceAtPosition` (`Wing.cs:210-227`). The model stops at the coefficients, which `Wings.Wing.Operate` stores.
- Quaternion rotations (`Wing.cs:189-201`) are recorded as the clamped angles passed to `Quaternion.AngleAxis`. The axes and the composition with the rotation datums are left out.
- `AspectRatio` (`Wing.cs:99`) and `Volume` (`Wing.cs:86,96`) are written but never read, and `AspectRatio` needs a tangent. The flap meshes and their placement (`Wing.cs:107-127`) only feed rendering.
- Sub-wing placement in `Wing.Start` (`Wing.cs:143-151`), `Update`/`DebugForces` and `Debug.Log` (`Wing.cs:252-261`, `AircraftDynamics.cs:59,70-77`) are display and scene plumbing. So are `GetComponent`, `Instantiate`, mesh filters and the exhaust VFX calls (`Engine.cs:30-31,41-48,66-67`).
- `Wings.Wing.Operate` takes the angle of attack and the `Aero` values as parameters. `Aircraft.AircraftDynamics.FixedUpdate` returns the commands instead of calling `Wing.Operate`. The source's call passes three arguments to a four-parameter method, so it does not compile as shown, and the model keeps only the mixing arithmetic.
- FlightControlInput.cs is not part of this model: it only stores input values. The inceptors enter `FixedUpdate` as an `Inceptors` value.
- `Aircraft.AircraftDynamics.Start` takes the wings' local positions as a sequence. `GetComponentsInChildren` and the transforms are not modelled. `Rigidbody` keeps only the mass, inertia tensor and velocity that this script sets.
- The wing's `PitchContribution`, `RollContribution` and `YawContribution` fields (`Wing.cs:30-32`) are never read or written by the code and are not modelled.
- `circPoints`/`CircleSegments` are `nat`. A negative count makes the C# array allocation throw, which is not modelled.
- `Wings.LiftCoefficient`: its own contract states only the drag bounds and the stall case. The unstalled lift law is stated by `Wings.UnstalledLift` and `Wings.LiftVanishes`.
