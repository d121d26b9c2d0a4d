/** The jet engine's meshes: a nacelle and a three-part nozzle built as
    cylinder meshes, and the throttle schedule that opens the nozzle in
    afterburner and reshapes the nozzle meshes to match. */
module Engines {
  import opened UnityMath
  import opened Meshes

  /** Throttle above which the afterburner opens the nozzle. */
  const Threshold: real := 0.7

  /** The nozzle exit diameter for a throttle setting: the minimum up to the
      threshold, then Mathf.Lerp towards the full diameter over the rest of
      the throttle range (the lerp parameter is clamped to [0, 1]). */
  function NozzleDiameter(minNozDiameter: real, diameter: real, throttle: real): (d: real)
    ensures throttle <= Threshold ==> d == minNozDiameter
    ensures throttle >= 1.0 ==> d == diameter
    ensures minNozDiameter <= diameter ==> minNozDiameter <= d <= diameter
    ensures diameter <= minNozDiameter ==> diameter <= d <= minNozDiameter
  {
    if throttle > Threshold then
      Lerp(minNozDiameter, diameter, (throttle - Threshold) / (1.0 - Threshold))
    else
      minNozDiameter
  }

  /** Opening the throttle never closes the nozzle when the full diameter is
      at least the minimum. */
  lemma NozzleDiameterMonotone(minNozDiameter: real, diameter: real, t1: real, t2: real)
    requires minNozDiameter <= diameter && t1 <= t2
    ensures NozzleDiameter(minNozDiameter, diameter, t1) <= NozzleDiameter(minNozDiameter, diameter, t2)
  {
    if t1 > Threshold {
      LerpMonotone(minNozDiameter, diameter, (t1 - Threshold) / (1.0 - Threshold), (t2 - Threshold) / (1.0 - Threshold));
    }
  }

  /** Inside the afterburner range the nozzle opens linearly: the schedule is
      continuous at the threshold and reaches the full diameter at 1. */
  lemma NozzleOpensLinearly(minNozDiameter: real, diameter: real, throttle: real)
    requires Threshold <= throttle <= 1.0
    ensures NozzleDiameter(minNozDiameter, diameter, throttle)
         == minNozDiameter + (diameter - minNozDiameter) * ((throttle - Threshold) / (1.0 - Threshold))
  {
    var s := (throttle - Threshold) / (1.0 - Threshold);
    assert 0.0 <= s <= 1.0;
    assert Clamp01(s) == s;
  }

  /** One cylinder section: front and rear diameters and depths, the four
      numbers CylinderMesh is built or resized with. */
  datatype Section = Section(d0: real, d1: real, z0: real, z1: real)

  /** The nozzle sections Awake builds, with the throat at
      -NozzleLength * NozzleThroatPos and the nozzle at its minimum. */
  function AwakeExternal(nozzleLength: real, diameter: real, minNozDiameter: real): (s: Section)
    ensures s.z0 == 0.0 && s.z0 - s.z1 == nozzleLength
  {
    Section(diameter, minNozDiameter, 0.0, -nozzleLength)
  }

  function AwakeInternalLead(nozzleLength: real, diameter: real, minNozDiameter: real, throatPos: real): (s: Section)
    ensures s.z0 == 0.0 && s.z0 - s.z1 == nozzleLength * throatPos
  {
    Section(diameter, minNozDiameter, 0.0, -nozzleLength * throatPos)
  }

  function AwakeInternalTrail(nozzleLength: real, minNozDiameter: real, throatPos: real): (s: Section)
    ensures s.d0 == s.d1 && s.z1 == -nozzleLength && s.z0 - s.z1 == nozzleLength * (1.0 - throatPos)
  {
    Section(minNozDiameter, minNozDiameter, -nozzleLength * throatPos, -nozzleLength)
  }

  /** The nozzle sections UpdateNozzle resizes to, for exit diameter noz; the
      throat sits at half the nozzle length. */
  function ExternalSection(nozzleLength: real, diameter: real, noz: real): (s: Section)
    ensures s.z0 == 0.0 && s.z0 - s.z1 == nozzleLength
  {
    Section(diameter, noz, 0.0, -nozzleLength)
  }

  function InternalLeadSection(nozzleLength: real, diameter: real, minNozDiameter: real): (s: Section)
    ensures s.z0 == 0.0 && s.z0 - s.z1 == nozzleLength / 2.0
  {
    Section(diameter, minNozDiameter, 0.0, -nozzleLength / 2.0)
  }

  function InternalTrailSection(nozzleLength: real, minNozDiameter: real, noz: real): (s: Section)
    ensures s.z1 == -nozzleLength && s.z0 - s.z1 == nozzleLength / 2.0
  {
    Section(minNozDiameter, noz, -nozzleLength / 2.0, -nozzleLength)
  }

  /** The resized nozzle is watertight: the internal lead section ends where
      the trail section begins (minimum diameter at the throat, halfway along
      the nozzle), the internal and external surfaces start together at the
      inlet and end together at the exit, and the exit has the scheduled
      diameter. */
  lemma NozzleSectionsJoin(nozzleLength: real, diameter: real, minNozDiameter: real, throttle: real)
    ensures var noz := NozzleDiameter(minNozDiameter, diameter, throttle);
      var ext := ExternalSection(nozzleLength, diameter, noz);
      var lead := InternalLeadSection(nozzleLength, diameter, minNozDiameter);
      var trail := InternalTrailSection(nozzleLength, minNozDiameter, noz);
      lead.d1 == trail.d0 == minNozDiameter && lead.z1 == trail.z0
      && lead.d0 == ext.d0 && lead.z0 == ext.z0
      && trail.d1 == ext.d1 == noz && trail.z1 == ext.z1 == -nozzleLength
      && lead.z1 == (ext.z0 + ext.z1) / 2.0
  {
  }

  /** Below the afterburner threshold the resized nozzle has the same
      diameters as the one Awake built, but its throat moves from
      -NozzleLength * NozzleThroatPos to -NozzleLength / 2 unless the throat
      position is one half or the nozzle has no length. */
  lemma ThroatAfterUpdate(nozzleLength: real, diameter: real, minNozDiameter: real, throatPos: real, throttle: real)
    requires throttle <= Threshold
    ensures var noz := NozzleDiameter(minNozDiameter, diameter, throttle);
      ExternalSection(nozzleLength, diameter, noz) == AwakeExternal(nozzleLength, diameter, minNozDiameter)
    ensures InternalLeadSection(nozzleLength, diameter, minNozDiameter)
         == AwakeInternalLead(nozzleLength, diameter, minNozDiameter, throatPos)
        <==> nozzleLength == 0.0 || throatPos == 0.5
  {
    if nozzleLength != 0.0 && -nozzleLength / 2.0 == -nozzleLength * throatPos {
      assert nozzleLength * (throatPos - 0.5) == 0.0;
    }
  }

  /** Mesh m currently shows section s. */
  ghost predicate ShowsSection(m: CylinderMesh, s: Section)
    reads m, m.vertices
  {
    m.Shows(s.d0, s.d1, s.z0, s.z1)
  }

  /** The objects a cylinder mesh's state lives in. */
  ghost function MeshFootprint(m: CylinderMesh): set<object>
    reads m
  {
    {m, m.vertices, m.triangles, m.normals}
  }

  /** A new mesh showing section s on the given ring. */
  method NewSectionMesh(s: Section, circleSegments: nat, ring: seq<UnitPoint>) returns (m: CylinderMesh)
    requires |ring| == circleSegments
    ensures fresh(m) && fresh(m.vertices) && fresh(m.triangles) && fresh(m.normals)
    ensures m.Valid() && m.circPoints == circleSegments && m.ring == ring
    ensures ShowsSection(m, s)
    ensures m.normals[..] == RingNormals(ring, s.d0, s.z0)
  {
    m := new CylinderMesh(s.d0, s.d1, s.z0, s.z1, circleSegments, ring);
  }

  class Engine {
    const engineLength: real
    const nozzleLength: real
    const diameter: real
    const minNozDiameter: real
    const nozzleThroatPos: real
    const circleSegments: nat

    const nacelleMesh: CylinderMesh
    const nozzleExternalMesh: CylinderMesh
    const nozzleInternalLeadMesh: CylinderMesh
    const nozzleInternalTrailMesh: CylinderMesh

    ghost function Footprint(): set<object>
      reads nacelleMesh, nozzleExternalMesh, nozzleInternalLeadMesh, nozzleInternalTrailMesh
    {
      MeshFootprint(nacelleMesh) + MeshFootprint(nozzleExternalMesh)
        + MeshFootprint(nozzleInternalLeadMesh) + MeshFootprint(nozzleInternalTrailMesh)
    }

    /** Four distinct, well-formed meshes, each with one vertex per ring
        segment on each of its rings. */
    ghost predicate Valid()
      reads Footprint()
    {
      nacelleMesh != nozzleExternalMesh && nacelleMesh != nozzleInternalLeadMesh
      && nacelleMesh != nozzleInternalTrailMesh && nozzleExternalMesh != nozzleInternalLeadMesh
      && nozzleExternalMesh != nozzleInternalTrailMesh && nozzleInternalLeadMesh != nozzleInternalTrailMesh
      && nacelleMesh.Valid() && nozzleExternalMesh.Valid()
      && nozzleInternalLeadMesh.Valid() && nozzleInternalTrailMesh.Valid()
      && nacelleMesh.circPoints == nozzleExternalMesh.circPoints == circleSegments
      && nozzleInternalLeadMesh.circPoints == nozzleInternalTrailMesh.circPoints == circleSegments
      && nacelleMesh.ring == nozzleExternalMesh.ring == nozzleInternalLeadMesh.ring == nozzleInternalTrailMesh.ring
    }

    /** Two of the engine's meshes meet along a whole ring: rear vertex i of
        the first is front vertex i of the second. */
    ghost predicate Seam(front: CylinderMesh, rear: CylinderMesh)
      reads this, front, front.vertices, rear, rear.vertices
    {
      front.vertices.Length == 2 * circleSegments && rear.vertices.Length == 2 * circleSegments
      && forall i :: 0 <= i < circleSegments ==> front.vertices[i + circleSegments] == rear.vertices[i]
    }

    /** Two of the engine's meshes share a rear ring: rear vertex i is the
        same point in both. */
    ghost predicate SameExit(a: CylinderMesh, b: CylinderMesh)
      reads this, a, a.vertices, b, b.vertices
    {
      a.vertices.Length == 2 * circleSegments && b.vertices.Length == 2 * circleSegments
      && forall k :: circleSegments <= k < 2 * circleSegments ==> a.vertices[k] == b.vertices[k]
    }

    /** Awake: the nacelle from the front face to EngineLength, and the
        three nozzle sections at their minimum opening. The cos/sin of the
        ring angles enter as ring. */
    constructor (engineLength: real, nozzleLength: real, diameter: real, minNozDiameter: real,
                 nozzleThroatPos: real, circleSegments: nat, ring: seq<UnitPoint>)
      requires |ring| == circleSegments
      ensures Valid()
      ensures this.engineLength == engineLength && this.nozzleLength == nozzleLength
      ensures this.diameter == diameter && this.minNozDiameter == minNozDiameter
      ensures this.nozzleThroatPos == nozzleThroatPos && this.circleSegments == circleSegments
      ensures ShowsSection(nacelleMesh, Section(diameter, diameter, 0.0, engineLength))
      ensures ShowsSection(nozzleExternalMesh, AwakeExternal(nozzleLength, diameter, minNozDiameter))
      ensures ShowsSection(nozzleInternalLeadMesh, AwakeInternalLead(nozzleLength, diameter, minNozDiameter, nozzleThroatPos))
      ensures ShowsSection(nozzleInternalTrailMesh, AwakeInternalTrail(nozzleLength, minNozDiameter, nozzleThroatPos))
      ensures nacelleMesh.ring == ring
      ensures fresh(nacelleMesh) && fresh(nozzleExternalMesh) && fresh(nozzleInternalLeadMesh) && fresh(nozzleInternalTrailMesh)
      ensures nacelleMesh.normals[..] == RingNormals(ring, diameter, 0.0)
      ensures nozzleExternalMesh.normals[..] == RingNormals(ring, diameter, 0.0)
      ensures nozzleInternalLeadMesh.normals[..] == RingNormals(ring, diameter, 0.0)
      ensures nozzleInternalTrailMesh.normals[..] == RingNormals(ring, minNozDiameter, -nozzleLength * nozzleThroatPos)
    {
      // Nacelle
      var nacelle := NewSectionMesh(Section(diameter, diameter, 0.0, engineLength), circleSegments, ring);
      // Nozzle
      var external := NewSectionMesh(AwakeExternal(nozzleLength, diameter, minNozDiameter), circleSegments, ring);
      var lead := NewSectionMesh(AwakeInternalLead(nozzleLength, diameter, minNozDiameter, nozzleThroatPos), circleSegments, ring);
      var trail := NewSectionMesh(AwakeInternalTrail(nozzleLength, minNozDiameter, nozzleThroatPos), circleSegments, ring);
      this.engineLength := engineLength;
      this.nozzleLength := nozzleLength;
      this.diameter := diameter;
      this.minNozDiameter := minNozDiameter;
      this.nozzleThroatPos := nozzleThroatPos;
      this.circleSegments := circleSegments;
      nacelleMesh, nozzleExternalMesh, nozzleInternalLeadMesh, nozzleInternalTrailMesh := nacelle, external, lead, trail;
    }

    /** Sets the nozzle opening for a throttle setting and reshapes the three
        nozzle meshes to the sections that opening calls for; the nacelle is
        not touched. */
    method UpdateNozzle(throttle: real)
      requires Valid()
      modifies nozzleExternalMesh, nozzleInternalLeadMesh, nozzleInternalTrailMesh
      ensures Valid()
      ensures var noz := NozzleDiameter(minNozDiameter, diameter, throttle);
        ShowsSection(nozzleExternalMesh, ExternalSection(nozzleLength, diameter, noz))
        && ShowsSection(nozzleInternalLeadMesh, InternalLeadSection(nozzleLength, diameter, minNozDiameter))
        && ShowsSection(nozzleInternalTrailMesh, InternalTrailSection(nozzleLength, minNozDiameter, noz))
      ensures nozzleExternalMesh.normals == old(nozzleExternalMesh.normals)
           && nozzleExternalMesh.triangles == old(nozzleExternalMesh.triangles)
      ensures nozzleInternalLeadMesh.normals == old(nozzleInternalLeadMesh.normals)
           && nozzleInternalLeadMesh.triangles == old(nozzleInternalLeadMesh.triangles)
      ensures nozzleInternalTrailMesh.normals == old(nozzleInternalTrailMesh.normals)
           && nozzleInternalTrailMesh.triangles == old(nozzleInternalTrailMesh.triangles)
      ensures nozzleExternalMesh.normals[..] == old(nozzleExternalMesh.normals[..])
           && nozzleInternalLeadMesh.normals[..] == old(nozzleInternalLeadMesh.normals[..])
           && nozzleInternalTrailMesh.normals[..] == old(nozzleInternalTrailMesh.normals[..])
      ensures Seam(nozzleInternalLeadMesh, nozzleInternalTrailMesh)
      ensures SameExit(nozzleInternalTrailMesh, nozzleExternalMesh)
    {
      var threshold := Threshold;
      var nozDiameter := minNozDiameter;
      if throttle > threshold {
        // Afterburner
        nozDiameter := Lerp(minNozDiameter, diameter, (throttle - threshold) / (1.0 - threshold));
      }
      nozzleExternalMesh.Resize(diameter, nozDiameter, 0.0, -nozzleLength);
      nozzleInternalLeadMesh.Resize(diameter, minNozDiameter, 0.0, -nozzleLength / 2.0);
      nozzleInternalTrailMesh.Resize(minNozDiameter, nozDiameter, -nozzleLength / 2.0, -nozzleLength);
      NozzleSeams(nozDiameter);
    }

    /** The internal lead and trail sections meet at the throat, and the
        internal trail section ends on the external section's exit ring. */
    lemma NozzleSeams(noz: real)
      requires Valid()
      requires ShowsSection(nozzleExternalMesh, ExternalSection(nozzleLength, diameter, noz))
      requires ShowsSection(nozzleInternalLeadMesh, InternalLeadSection(nozzleLength, diameter, minNozDiameter))
      requires ShowsSection(nozzleInternalTrailMesh, InternalTrailSection(nozzleLength, minNozDiameter, noz))
      ensures Seam(nozzleInternalLeadMesh, nozzleInternalTrailMesh)
      ensures SameExit(nozzleInternalTrailMesh, nozzleExternalMesh)
    {
      var ring := nozzleExternalMesh.ring;
      var n := circleSegments;
      forall i | 0 <= i < n
        ensures nozzleInternalLeadMesh.vertices[i + n] == nozzleInternalTrailMesh.vertices[i]
      {
        SharedRingCoincides(ring, diameter, minNozDiameter, noz, 0.0, -nozzleLength / 2.0, -nozzleLength, i);
      }
      forall k | n <= k < 2 * n
        ensures nozzleInternalTrailMesh.vertices[k] == nozzleExternalMesh.vertices[k]
      {
        RingVerticesLayout(ring, minNozDiameter, noz, -nozzleLength / 2.0, -nozzleLength, k - n);
        RingVerticesLayout(ring, diameter, noz, 0.0, -nozzleLength, k - n);
      }
    }
  }
}
