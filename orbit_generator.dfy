/**
 * The constellation phasing engine of the orbit generator.
 *
 * From one reference orbit, a constellation pattern, a plane count and a
 * per-plane satellite count, `GenerateOrbits` builds the ordered list of the
 * orbits of every satellite: plane by plane, and satellite by satellite
 * within each plane. Each satellite's mean anomaly is phased by its index
 * within the plane; its right ascension of the ascending node (RAAN) is
 * phased by its plane index according to the pattern. All other elements are
 * copied from the reference orbit.
 *
 * Orbital elements are exact reals: the phasing only divides by a positive
 * count, multiplies and adds, and the model states the intended values
 * rather than their floating-point roundings.
 */
module OrbitGenerator {

  /** The three constellation patterns the generator knows. */
  datatype ConstellationType = WalkerStar | WalkerDelta | Fill

  /** The six classical orbital elements (lengths in km, angles in degrees). */
  datatype Orbit = Orbit(
    semiMajorAxis: real,
    eccentricity: real,
    inclination: real,
    raan: real,
    argumentOfPerigee: real,
    meanAnomaly: real)

  /** The ways in which generation is aborted, in the order they are detected. */
  datatype Error =
    | FillNeedsSinglePlane    // the exception raised for a Fill pattern with several planes
    | DivisionByZero          // mean-anomaly spacing computed with zero satellites per plane
    | StarInclinationNot90    // the Walker-Star inclination assertion
    | DeltaInclinationNot45   // the Walker-Delta inclination assertion

  datatype Result<T> = Ok(value: T) | Err(error: Error)

  // ---------------------------------------------------------------------
  // The phasing rules
  // ---------------------------------------------------------------------

  /** Angle between consecutive satellites of one plane. */
  function MeanAnomalySpacing(numSats: nat): real
    requires numSats >= 1
  {
    360.0 / numSats as real
  }

  /** Angle between consecutive planes of a Walker-Star constellation: half a turn shared out. */
  function StarRaanSpacing(numPlanes: nat): real
    requires numPlanes >= 1
  {
    (360.0 / 2.0) / numPlanes as real
  }

  /** Angle between consecutive planes of a Walker-Delta constellation: a whole turn shared out. */
  function DeltaRaanSpacing(numPlanes: nat): real
    requires numPlanes >= 1
  {
    360.0 / numPlanes as real
  }

  /** The angle reached after `index` steps of `spacing` from `offset`; no reduction modulo 360 is made. */
  function Phase(index: nat, spacing: real, offset: real): real
  {
    index as real * spacing + offset
  }

  /** The orbit of satellite `sat` in plane `plane`, in closed form. */
  function PhasedOrbit(ref: Orbit, t: ConstellationType, numPlanes: nat, numSats: nat, plane: nat, sat: nat): Orbit
    requires plane < numPlanes && sat < numSats
  {
    var phased := ref.(meanAnomaly := Phase(sat, MeanAnomalySpacing(numSats), ref.meanAnomaly));
    match t
    case WalkerStar => phased.(raan := Phase(plane, StarRaanSpacing(numPlanes), ref.raan))
    case WalkerDelta => phased.(raan := Phase(plane, DeltaRaanSpacing(numPlanes), ref.raan))
    case Fill => phased
  }

  /** The satellites of plane `plane`, in satellite order. */
  function PlaneOrbits(ref: Orbit, t: ConstellationType, numPlanes: nat, numSats: nat, plane: nat): seq<Orbit>
    requires plane < numPlanes
  {
    seq(numSats, sat requires 0 <= sat < numSats => PhasedOrbit(ref, t, numPlanes, numSats, plane, sat))
  }

  /** The satellites of the first `count` planes, plane after plane. */
  function Planes(ref: Orbit, t: ConstellationType, numPlanes: nat, numSats: nat, count: nat): (os: seq<Orbit>)
    requires count <= numPlanes
    ensures |os| == count * numSats
  {
    if count == 0 then []
    else Planes(ref, t, numPlanes, numSats, count - 1) + PlaneOrbits(ref, t, numPlanes, numSats, count - 1)
  }

  /** The inputs that generation accepts. */
  predicate Accepted(ref: Orbit, t: ConstellationType, numPlanes: nat, numSats: nat)
  {
    && (t == Fill ==> numPlanes == 1)
    && numSats >= 1
    && (t == WalkerStar && numPlanes >= 1 ==> ref.inclination == 90.0)
    && (t == WalkerDelta && numPlanes >= 1 ==> ref.inclination == 45.0)
  }

  /**
   * The specification of generation: the first failure the generator meets,
   * or the satellites of all planes. The inclination assertions sit inside
   * the loop, so they only fire when the loop runs at least once.
   */
  function Generate(ref: Orbit, t: ConstellationType, numPlanes: nat, numSats: nat): (r: Result<seq<Orbit>>)
    ensures r.Ok? ==> |r.value| == numPlanes * numSats
  {
    if t == Fill && numPlanes != 1 then Err(FillNeedsSinglePlane)
    else if numSats == 0 then Err(DivisionByZero)
    else if t == WalkerStar && numPlanes >= 1 && ref.inclination != 90.0 then Err(StarInclinationNot90)
    else if t == WalkerDelta && numPlanes >= 1 && ref.inclination != 45.0 then Err(DeltaInclinationNot45)
    else Ok(Planes(ref, t, numPlanes, numSats, numPlanes))
  }

  // ---------------------------------------------------------------------
  // The generator
  // ---------------------------------------------------------------------

  /**
   * The generator itself: two nested loops append one phased copy of the
   * reference orbit per satellite, failing as soon as an input check fails.
   */
  method GenerateOrbits(ref: Orbit, t: ConstellationType, numPlanes: nat, numSats: nat)
    returns (r: Result<seq<Orbit>>)
    ensures r == Generate(ref, t, numPlanes, numSats)
  {
    if t == Fill && numPlanes != 1 {
      return Err(FillNeedsSinglePlane);
    }
    if numSats == 0 {
      return Err(DivisionByZero);
    }
    var meanAnomalySpacing := 360.0 / numSats as real;
    var meanAnomalyOffset := ref.meanAnomaly;
    var raanOffset := ref.raan;

    var orbits: seq<Orbit> := [];
    var plane: nat := 0;
    while plane < numPlanes
      invariant plane <= numPlanes
      invariant orbits == Planes(ref, t, numPlanes, numSats, plane)
      invariant t == WalkerStar && plane > 0 ==> ref.inclination == 90.0
      invariant t == WalkerDelta && plane > 0 ==> ref.inclination == 45.0
    {
      ghost var done := orbits;
      ghost var thisPlane := PlaneOrbits(ref, t, numPlanes, numSats, plane);
      var sat: nat := 0;
      while sat < numSats
        invariant sat <= numSats
        invariant orbits == done + thisPlane[..sat]
        invariant t == WalkerStar && (plane > 0 || sat > 0) ==> ref.inclination == 90.0
        invariant t == WalkerDelta && (plane > 0 || sat > 0) ==> ref.inclination == 45.0
      {
        var orbit := ref.(meanAnomaly := Phase(sat, meanAnomalySpacing, meanAnomalyOffset));
        if t == WalkerStar {
          if ref.inclination != 90.0 {
            return Err(StarInclinationNot90);
          }
          var raanSpacing := (360.0 / 2.0) / numPlanes as real;
          orbit := orbit.(raan := Phase(plane, raanSpacing, raanOffset));
        } else if t == WalkerDelta {
          if ref.inclination != 45.0 {
            return Err(DeltaInclinationNot45);
          }
          var raanSpacing := 360.0 / numPlanes as real;
          orbit := orbit.(raan := Phase(plane, raanSpacing, raanOffset));
        }
        assert orbit == thisPlane[sat];
        assert thisPlane[..sat + 1] == thisPlane[..sat] + [thisPlane[sat]];
        orbits := orbits + [orbit];
        sat := sat + 1;
      }
      assert thisPlane[..numSats] == thisPlane;
      plane := plane + 1;
    }
    r := Ok(orbits);
  }

  // ---------------------------------------------------------------------
  // Failures
  // ---------------------------------------------------------------------

  /** A Fill constellation with any plane count other than one is refused before anything is built. */
  lemma FillWithSeveralPlanesFails(ref: Orbit, numPlanes: nat, numSats: nat)
    requires numPlanes != 1
    ensures Generate(ref, Fill, numPlanes, numSats) == Err(FillNeedsSinglePlane)
  {
  }

  /** Zero satellites per plane always fails: by the plane-count check, or by the spacing's division. */
  lemma ZeroSatsPerPlaneFails(ref: Orbit, t: ConstellationType, numPlanes: nat)
    ensures Generate(ref, t, numPlanes, 0).Err?
    ensures !(t == Fill && numPlanes != 1) ==> Generate(ref, t, numPlanes, 0) == Err(DivisionByZero)
  {
  }

  /** Walker-Star with at least one satellite to place demands a polar reference orbit. */
  lemma StarNeedsPolarInclination(ref: Orbit, numPlanes: nat, numSats: nat)
    requires numPlanes >= 1 && numSats >= 1 && ref.inclination != 90.0
    ensures Generate(ref, WalkerStar, numPlanes, numSats) == Err(StarInclinationNot90)
  {
  }

  /** Walker-Delta with at least one satellite to place demands a 45-degree reference orbit. */
  lemma DeltaNeedsInclination45(ref: Orbit, numPlanes: nat, numSats: nat)
    requires numPlanes >= 1 && numSats >= 1 && ref.inclination != 45.0
    ensures Generate(ref, WalkerDelta, numPlanes, numSats) == Err(DeltaInclinationNot45)
  {
  }

  /** Generation succeeds exactly on the accepted inputs. */
  lemma GenerateSucceedsIff(ref: Orbit, t: ConstellationType, numPlanes: nat, numSats: nat)
    ensures Generate(ref, t, numPlanes, numSats).Ok? <==> Accepted(ref, t, numPlanes, numSats)
  {
  }

  // ---------------------------------------------------------------------
  // Plane-major order
  // ---------------------------------------------------------------------

  /** Satellite `sat` of plane `plane` sits at `plane * numSats + sat` once that plane is built. */
  lemma {:induction false} PlanesAt(ref: Orbit, t: ConstellationType, numPlanes: nat, numSats: nat, count: nat, plane: nat, sat: nat)
    requires count <= numPlanes && plane < count && sat < numSats
    ensures plane * numSats + sat < |Planes(ref, t, numPlanes, numSats, count)|
    ensures Planes(ref, t, numPlanes, numSats, count)[plane * numSats + sat]
      == PhasedOrbit(ref, t, numPlanes, numSats, plane, sat)
  {
    var before := Planes(ref, t, numPlanes, numSats, count - 1);
    assert count * numSats == (count - 1) * numSats + numSats;
    if plane == count - 1 {
      assert plane * numSats + sat == |before| + sat;
    } else {
      PlanesAt(ref, t, numPlanes, numSats, count - 1, plane, sat);
    }
  }

  /** Every orbit of the first `count` planes is the phased orbit of some satellite of one of them. */
  lemma {:induction false} PlanesMember(ref: Orbit, t: ConstellationType, numPlanes: nat, numSats: nat, count: nat, o: Orbit)
    requires count <= numPlanes && o in Planes(ref, t, numPlanes, numSats, count)
    ensures exists plane: nat, sat: nat :: plane < count && sat < numSats && o == PhasedOrbit(ref, t, numPlanes, numSats, plane, sat)
  {
    if o in Planes(ref, t, numPlanes, numSats, count - 1) {
      PlanesMember(ref, t, numPlanes, numSats, count - 1, o);
    } else {
      var thisPlane := PlaneOrbits(ref, t, numPlanes, numSats, count - 1);
      assert o in thisPlane;
      var sat :| 0 <= sat < numSats && thisPlane[sat] == o;
      assert o == PhasedOrbit(ref, t, numPlanes, numSats, count - 1, sat);
    }
  }

  /** The generated orbit at a plane-major position is the specified one. */
  lemma GeneratedIs(ref: Orbit, t: ConstellationType, numPlanes: nat, numSats: nat, plane: nat, sat: nat)
    requires Generate(ref, t, numPlanes, numSats).Ok?
    requires plane < numPlanes && sat < numSats
    ensures plane * numSats + sat < |Generate(ref, t, numPlanes, numSats).value|
    ensures Generate(ref, t, numPlanes, numSats).value[plane * numSats + sat]
      == PhasedOrbit(ref, t, numPlanes, numSats, plane, sat)
  {
    PlanesAt(ref, t, numPlanes, numSats, numPlanes, plane, sat);
  }

  // ---------------------------------------------------------------------
  // Shape of a successful result
  // ---------------------------------------------------------------------

  /** The closed form's elements, written out per pattern. */
  lemma PhasedFields(ref: Orbit, t: ConstellationType, numPlanes: nat, numSats: nat, plane: nat, sat: nat)
    requires plane < numPlanes && sat < numSats
    ensures var o := PhasedOrbit(ref, t, numPlanes, numSats, plane, sat);
      && o.semiMajorAxis == ref.semiMajorAxis
      && o.eccentricity == ref.eccentricity
      && o.inclination == ref.inclination
      && o.argumentOfPerigee == ref.argumentOfPerigee
      && o.meanAnomaly == sat as real * (360.0 / numSats as real) + ref.meanAnomaly
      && (t == WalkerStar ==> o.raan == plane as real * (180.0 / numPlanes as real) + ref.raan)
      && (t == WalkerDelta ==> o.raan == plane as real * (360.0 / numPlanes as real) + ref.raan)
      && (t == Fill ==> o.raan == ref.raan)
  {
  }

  /**
   * Ordering and closed form: the orbit at index `plane * numSats + sat` is
   * satellite `sat` of plane `plane`, phased in mean anomaly by its satellite
   * index and in RAAN by its plane index as the pattern says, with the other
   * four elements taken from the reference.
   */
  lemma GeneratedOrbitAt(ref: Orbit, t: ConstellationType, numPlanes: nat, numSats: nat, plane: nat, sat: nat)
    requires Generate(ref, t, numPlanes, numSats).Ok?
    requires plane < numPlanes && sat < numSats
    ensures plane * numSats + sat < |Generate(ref, t, numPlanes, numSats).value|
    ensures var o := Generate(ref, t, numPlanes, numSats).value[plane * numSats + sat];
      && o.semiMajorAxis == ref.semiMajorAxis
      && o.eccentricity == ref.eccentricity
      && o.inclination == ref.inclination
      && o.argumentOfPerigee == ref.argumentOfPerigee
      && o.meanAnomaly == sat as real * (360.0 / numSats as real) + ref.meanAnomaly
      && (t == WalkerStar ==> o.raan == plane as real * (180.0 / numPlanes as real) + ref.raan)
      && (t == WalkerDelta ==> o.raan == plane as real * (360.0 / numPlanes as real) + ref.raan)
      && (t == Fill ==> o.raan == ref.raan)
  {
    GeneratedIs(ref, t, numPlanes, numSats, plane, sat);
    PhasedFields(ref, t, numPlanes, numSats, plane, sat);
  }

  /** Nothing else changes: every generated orbit keeps the reference's size, shape, inclination and perigee. */
  lemma OtherElementsCopied(ref: Orbit, t: ConstellationType, numPlanes: nat, numSats: nat)
    requires Generate(ref, t, numPlanes, numSats).Ok?
    ensures forall o :: o in Generate(ref, t, numPlanes, numSats).value ==>
      && o.semiMajorAxis == ref.semiMajorAxis
      && o.eccentricity == ref.eccentricity
      && o.inclination == ref.inclination
      && o.argumentOfPerigee == ref.argumentOfPerigee
  {
    forall o | o in Generate(ref, t, numPlanes, numSats).value
      ensures o.semiMajorAxis == ref.semiMajorAxis && o.eccentricity == ref.eccentricity
      ensures o.inclination == ref.inclination && o.argumentOfPerigee == ref.argumentOfPerigee
    {
      PlanesMember(ref, t, numPlanes, numSats, numPlanes, o);
    }
  }

  /** A Fill constellation leaves every RAAN at the reference's. */
  lemma FillKeepsRaan(ref: Orbit, numPlanes: nat, numSats: nat)
    requires Generate(ref, Fill, numPlanes, numSats).Ok?
    ensures forall o :: o in Generate(ref, Fill, numPlanes, numSats).value ==> o.raan == ref.raan
  {
    forall o | o in Generate(ref, Fill, numPlanes, numSats).value
      ensures o.raan == ref.raan
    {
      PlanesMember(ref, Fill, numPlanes, numSats, numPlanes, o);
    }
  }

  // ---------------------------------------------------------------------
  // Arithmetic of the closed form
  // ---------------------------------------------------------------------

  /** `k` shares of a whole cut into `n` equal shares, with `k < n`, stay below the whole. */
  lemma SharesBelowWhole(k: nat, n: nat, whole: real)
    requires k < n && whole > 0.0
    ensures 0.0 <= k as real * (whole / n as real) < whole
  {
  }

  /** The closed form's mean anomalies step by one spacing from satellite to satellite. */
  lemma PhasedMeanAnomalyStep(ref: Orbit, t: ConstellationType, numPlanes: nat, numSats: nat, plane: nat, sat: nat)
    requires plane < numPlanes && sat + 1 < numSats
    ensures PhasedOrbit(ref, t, numPlanes, numSats, plane, sat + 1).meanAnomaly
      == PhasedOrbit(ref, t, numPlanes, numSats, plane, sat).meanAnomaly + 360.0 / numSats as real
  {
  }

  /** The closed form's RAANs step by one plane spacing from plane to plane. */
  lemma PhasedRaanStep(ref: Orbit, t: ConstellationType, numPlanes: nat, numSats: nat, plane: nat, sat: nat)
    requires plane + 1 < numPlanes && sat < numSats
    ensures var step := PhasedOrbit(ref, t, numPlanes, numSats, plane + 1, sat).raan
      - PhasedOrbit(ref, t, numPlanes, numSats, plane, sat).raan;
      && (t == WalkerStar ==> step == 180.0 / numPlanes as real)
      && (t == WalkerDelta ==> step == 360.0 / numPlanes as real)
  {
  }

  /** The closed form's last satellite of a plane is one spacing short of a full turn past the first. */
  lemma PhasedClosesTurn(ref: Orbit, t: ConstellationType, numPlanes: nat, numSats: nat, plane: nat)
    requires plane < numPlanes && numSats >= 1
    ensures PhasedOrbit(ref, t, numPlanes, numSats, plane, numSats - 1).meanAnomaly + 360.0 / numSats as real
      == PhasedOrbit(ref, t, numPlanes, numSats, plane, 0).meanAnomaly + 360.0
  {
  }

  // ---------------------------------------------------------------------
  // Phasing within a plane
  // ---------------------------------------------------------------------

  /** Consecutive satellites of a plane are exactly `360 / numSats` degrees apart in mean anomaly. */
  lemma MeanAnomalyStep(ref: Orbit, t: ConstellationType, numPlanes: nat, numSats: nat, plane: nat, sat: nat)
    requires Generate(ref, t, numPlanes, numSats).Ok?
    requires plane < numPlanes && sat + 1 < numSats
    ensures plane * numSats + sat + 1 < |Generate(ref, t, numPlanes, numSats).value|
    ensures var os := Generate(ref, t, numPlanes, numSats).value;
      os[plane * numSats + sat + 1].meanAnomaly - os[plane * numSats + sat].meanAnomaly == 360.0 / numSats as real
  {
    GeneratedIs(ref, t, numPlanes, numSats, plane, sat);
    GeneratedIs(ref, t, numPlanes, numSats, plane, sat + 1);
    PhasedMeanAnomalyStep(ref, t, numPlanes, numSats, plane, sat);
  }

  /**
   * No reduction modulo 360 is made: the mean anomalies of a plane all lie
   * in the one turn that starts at the reference's, and values past 360 are
   * kept as they are.
   */
  lemma MeanAnomalyWithinOneTurn(ref: Orbit, t: ConstellationType, numPlanes: nat, numSats: nat, plane: nat, sat: nat)
    requires Generate(ref, t, numPlanes, numSats).Ok?
    requires plane < numPlanes && sat < numSats
    ensures plane * numSats + sat < |Generate(ref, t, numPlanes, numSats).value|
    ensures var o := Generate(ref, t, numPlanes, numSats).value[plane * numSats + sat];
      ref.meanAnomaly <= o.meanAnomaly < ref.meanAnomaly + 360.0
  {
    GeneratedIs(ref, t, numPlanes, numSats, plane, sat);
    SharesBelowWhole(sat, numSats, 360.0);
  }

  /** One more step after the last satellite of a plane lands a full turn past the first. */
  lemma MeanAnomalyClosesTurn(ref: Orbit, t: ConstellationType, numPlanes: nat, numSats: nat, plane: nat)
    requires Generate(ref, t, numPlanes, numSats).Ok?
    requires plane < numPlanes
    ensures numSats >= 1
    ensures plane * numSats + (numSats - 1) < |Generate(ref, t, numPlanes, numSats).value|
    ensures var os := Generate(ref, t, numPlanes, numSats).value;
      os[plane * numSats + (numSats - 1)].meanAnomaly + 360.0 / numSats as real
        == os[plane * numSats].meanAnomaly + 360.0
  {
    GeneratedIs(ref, t, numPlanes, numSats, plane, numSats - 1);
    GeneratedIs(ref, t, numPlanes, numSats, plane, 0);
    PhasedClosesTurn(ref, t, numPlanes, numSats, plane);
  }

  // ---------------------------------------------------------------------
  // Phasing between planes
  // ---------------------------------------------------------------------

  /** All satellites of one plane share that plane's RAAN. */
  lemma RaanSharedWithinPlane(ref: Orbit, t: ConstellationType, numPlanes: nat, numSats: nat, plane: nat, sat1: nat, sat2: nat)
    requires Generate(ref, t, numPlanes, numSats).Ok?
    requires plane < numPlanes && sat1 < numSats && sat2 < numSats
    ensures plane * numSats + sat1 < |Generate(ref, t, numPlanes, numSats).value|
    ensures plane * numSats + sat2 < |Generate(ref, t, numPlanes, numSats).value|
    ensures var os := Generate(ref, t, numPlanes, numSats).value;
      os[plane * numSats + sat1].raan == os[plane * numSats + sat2].raan
  {
    GeneratedIs(ref, t, numPlanes, numSats, plane, sat1);
    GeneratedIs(ref, t, numPlanes, numSats, plane, sat2);
  }

  /** Neighbouring Walker-Star planes are `180 / numPlanes` degrees apart in RAAN: the planes share out half a turn. */
  lemma StarPlaneSpacing(ref: Orbit, numPlanes: nat, numSats: nat, plane: nat, sat: nat)
    requires Generate(ref, WalkerStar, numPlanes, numSats).Ok?
    requires plane + 1 < numPlanes && sat < numSats
    ensures plane * numSats + sat < (plane + 1) * numSats + sat < |Generate(ref, WalkerStar, numPlanes, numSats).value|
    ensures var os := Generate(ref, WalkerStar, numPlanes, numSats).value;
      os[(plane + 1) * numSats + sat].raan - os[plane * numSats + sat].raan == 180.0 / numPlanes as real
  {
    GeneratedIs(ref, WalkerStar, numPlanes, numSats, plane, sat);
    GeneratedIs(ref, WalkerStar, numPlanes, numSats, plane + 1, sat);
    PhasedRaanStep(ref, WalkerStar, numPlanes, numSats, plane, sat);
  }

  /** Neighbouring Walker-Delta planes are `360 / numPlanes` degrees apart in RAAN: the planes share out a whole turn. */
  lemma DeltaPlaneSpacing(ref: Orbit, numPlanes: nat, numSats: nat, plane: nat, sat: nat)
    requires Generate(ref, WalkerDelta, numPlanes, numSats).Ok?
    requires plane + 1 < numPlanes && sat < numSats
    ensures plane * numSats + sat < (plane + 1) * numSats + sat < |Generate(ref, WalkerDelta, numPlanes, numSats).value|
    ensures var os := Generate(ref, WalkerDelta, numPlanes, numSats).value;
      os[(plane + 1) * numSats + sat].raan - os[plane * numSats + sat].raan == 360.0 / numPlanes as real
  {
    GeneratedIs(ref, WalkerDelta, numPlanes, numSats, plane, sat);
    GeneratedIs(ref, WalkerDelta, numPlanes, numSats, plane + 1, sat);
    PhasedRaanStep(ref, WalkerDelta, numPlanes, numSats, plane, sat);
  }

  // ---------------------------------------------------------------------
  // A worked example
  // ---------------------------------------------------------------------

  /** Two Walker-Delta planes of two satellites each, from an inclined circular orbit at 500 km. */
  lemma DeltaTwoByTwo()
    ensures Generate(Orbit(500.0, 0.0, 45.0, 0.0, 0.0, 0.0), WalkerDelta, 2, 2) == Ok([
      Orbit(500.0, 0.0, 45.0, 0.0, 0.0, 0.0),
      Orbit(500.0, 0.0, 45.0, 0.0, 0.0, 180.0),
      Orbit(500.0, 0.0, 45.0, 180.0, 0.0, 0.0),
      Orbit(500.0, 0.0, 45.0, 180.0, 0.0, 180.0)])
  {
    var ref := Orbit(500.0, 0.0, 45.0, 0.0, 0.0, 0.0);
    var plane0 := PlaneOrbits(ref, WalkerDelta, 2, 2, 0);
    var plane1 := PlaneOrbits(ref, WalkerDelta, 2, 2, 1);
    assert plane0 == [ref, ref.(meanAnomaly := 180.0)] by {
      assert plane0[1] == PhasedOrbit(ref, WalkerDelta, 2, 2, 0, 1);
    }
    assert plane1 == [ref.(raan := 180.0), ref.(raan := 180.0, meanAnomaly := 180.0)] by {
      assert plane1[0] == PhasedOrbit(ref, WalkerDelta, 2, 2, 1, 0);
      assert plane1[1] == PhasedOrbit(ref, WalkerDelta, 2, 2, 1, 1);
    }
    assert Planes(ref, WalkerDelta, 2, 2, 2) == plane0 + plane1;
    assert Generate(ref, WalkerDelta, 2, 2) == Ok(plane0 + plane1);
    assert plane0 + plane1 == [ref, ref.(meanAnomaly := 180.0), ref.(raan := 180.0), ref.(raan := 180.0, meanAnomaly := 180.0)];
  }
}
