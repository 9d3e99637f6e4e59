# Orbit generator: constellation phasing engine in Dafny

This project models `generate_orbits` from `orbit_generator.py`. The function derives the orbit of every satellite in a constellation from one reference orbit. It takes:

- a pattern: Walker-Star, Walker-Delta or Fill;
- a plane count P;
- a number S of satellites per plane.

It builds a list of P × S orbits, plane by plane, and within each plane satellite by satellite. Satellite `s` of plane `p` is a copy of the reference orbit with two changes:

- Mean anomaly: `s · (360 / S) + M₀`, where M₀ is the reference's mean anomaly.
- RAAN (right ascension of the ascending node):
  - Walker-Star: `p · (180 / P) + Ω₀`, where Ω₀ is the reference's RAAN;
  - Walker-Delta: `p · (360 / P) + Ω₀`;
  - Fill: `Ω₀`, unchanged.

Semi-major axis, eccentricity, inclination and argument of perigee are copied unchanged. Generation fails in four cases, checked in the code's order:

1. A Fill pattern with any plane count other than 1 raises an exception.
2. S = 0 divides by zero when the mean-anomaly spacing is computed.
3. Walker-Star asserts that the inclination is 90°.
4. Walker-Delta asserts that the inclination is 45°.

Both assertions sit inside the loop, so they fire only when at least one satellite is placed (P ≥ 1 and S ≥ 1).

Everything is in `orbit_generator.dfy`, in the module `OrbitGenerator`:

- `ConstellationType` is the pattern enumeration. `Orbit` is a datatype with the six classical elements as exact `real`s. Because `Orbit` is a value type, each satellite gets an independent copy, as the source's deep copy does.
- `Result` carries either the list or one `Error` for each way the source aborts.
- `PhasedOrbit` gives satellite `s` of plane `p` in closed form. `PlaneOrbits` and `Planes` assemble these plane by plane. `Generate` is the specification: the first failure, or all planes.
- `GenerateOrbits` is the generator itself. It is a method with the source's two nested loops. It copies the reference, overwrites the mean anomaly and the RAAN, and appends the result. It is proved to return exactly `Generate`.
- The lemmas state the promised properties of `Generate`: when it fails, how long the result is, plane-major order, the closed form at each index, even spacing, the RAAN each plane shares, and that the other elements are unchanged.

The model follows `orbit_generator.py` as written:

- Validation is strict: Walker-Star requires exactly 90° and Walker-Delta exactly 45°, with no relaxed variant.
- The third pattern is `FILL`, which keeps the reference RAAN.
- Angles are not reduced modulo 360.
- A plane count of 0 is accepted for Walker-Star and Walker-Delta and yields an empty list. Only zero satellites per plane is an error.
- The inclination checks run on every satellite, before it is appended. A bad inclination fails on the very first one, so no partial list is ever built.

## Model

`PhasedOrbit`, which models the loop body (orbit_generator.py:50-70), and `PlaneOrbits`, which models one run of the inner loop (orbit_generator.py:49-70), are definitions without contracts of their own. Their meaning is stated by the `PhasedFields` and `PlanesAt` rows below.

| member | source | states |
|---|---|---|
| `OrbitGenerator.GenerateOrbits` | orbit_generator.py:24-72 | The nested loops return exactly the specified result: the first failure among Fill-with-several-planes, zero satellites per plane and the Star/Delta inclination assertions, or the full plane-major list of phased copies. |
| `OrbitGenerator.Generate` | orbit_generator.py:29-70 | A successful generation yields exactly numPlanes × numSats orbits. |
| `OrbitGenerator.Planes` | orbit_generator.py:47-70 | After `count` iterations of the outer loop, the list holds count × numSats orbits. |
| `OrbitGenerator.FillWithSeveralPlanesFails` | orbit_generator.py:29-30 | Fill with a plane count other than 1 fails with `FillNeedsSinglePlane` before any orbit is built, whatever S is. |
| `OrbitGenerator.ZeroSatsPerPlaneFails` | orbit_generator.py:42 | S = 0 always fails. Unless the Fill check fails first, the failure is the division by zero. |
| `OrbitGenerator.StarNeedsPolarInclination` | orbit_generator.py:53-54 | Walker-Star with P ≥ 1, S ≥ 1 and an inclination other than 90 fails with `StarInclinationNot90`. |
| `OrbitGenerator.DeltaNeedsInclination45` | orbit_generator.py:60-61 | Walker-Delta with P ≥ 1, S ≥ 1 and an inclination other than 45 fails with `DeltaInclinationNot45`. |
| `OrbitGenerator.GenerateSucceedsIff` | orbit_generator.py:29-66 | Generation succeeds if and only if all four checks pass: Fill has one plane, S ≥ 1, Star with P ≥ 1 has inclination 90, and Delta with P ≥ 1 has inclination 45. |
| `OrbitGenerator.PlanesAt` | orbit_generator.py:48-70 | Once plane `p` is built, satellite `s` of that plane sits at index p·S + s and is its phased orbit. |
| `OrbitGenerator.PlanesMember` | orbit_generator.py:48-70 | Every orbit in the list is the phased orbit of some satellite of some plane already built. |
| `OrbitGenerator.GeneratedIs` | orbit_generator.py:48-70 | The order is plane-major and satellite-minor: index p·S + s of a successful result holds satellite `s` of plane `p`. |
| `OrbitGenerator.PhasedFields` | orbit_generator.py:50-68 | A phased orbit has mean anomaly s·(360/S) + M₀ and the pattern's RAAN (p·(180/P) + Ω₀, p·(360/P) + Ω₀, or Ω₀). Its other four elements equal the reference's. |
| `OrbitGenerator.GeneratedOrbitAt` | orbit_generator.py:42-70 | The orbit at index p·S + s of a successful result has exactly the closed-form elements above. |
| `OrbitGenerator.OtherElementsCopied` | orbit_generator.py:50-51 | Every generated orbit keeps the reference's semi-major axis, eccentricity, inclination and argument of perigee. |
| `OrbitGenerator.FillKeepsRaan` | orbit_generator.py:67-68 | With Fill, every generated orbit's RAAN equals the reference's. |
| `OrbitGenerator.PhasedMeanAnomalyStep` | orbit_generator.py:42-51 | In closed form, satellite s+1 is 360/S degrees ahead of satellite s in the same plane. |
| `OrbitGenerator.PhasedRaanStep` | orbit_generator.py:53-66 | In closed form, plane p+1's RAAN is 180/P (Star) or 360/P (Delta) degrees past plane p's. |
| `OrbitGenerator.PhasedClosesTurn` | orbit_generator.py:42-51 | In closed form, one spacing past the last satellite of a plane is exactly one full turn past the first. |
| `OrbitGenerator.MeanAnomalyStep` | orbit_generator.py:42-51 | In a successful result, consecutive satellites of a plane differ in mean anomaly by exactly 360/S. |
| `OrbitGenerator.MeanAnomalyWithinOneTurn` | orbit_generator.py:42-51 | No reduction modulo 360 is made: every mean anomaly lies in [M₀, M₀ + 360), and values above 360 are kept as they are. |
| `OrbitGenerator.MeanAnomalyClosesTurn` | orbit_generator.py:42-51 | The last satellite's mean anomaly plus 360/S equals the first satellite's plus 360, so the phasing covers one whole turn. |
| `OrbitGenerator.RaanSharedWithinPlane` | orbit_generator.py:53-68 | All satellites of one plane share the same RAAN, for every pattern. |
| `OrbitGenerator.StarPlaneSpacing` | orbit_generator.py:53-59 | In a Walker-Star result, the same satellite in neighbouring planes differs in RAAN by exactly 180/P. |
| `OrbitGenerator.DeltaPlaneSpacing` | orbit_generator.py:60-66 | In a Walker-Delta result, the same satellite in neighbouring planes differs in RAAN by exactly 360/P. |
| `OrbitGenerator.DeltaTwoByTwo` | orbit_generator.py:24-72 | Walker-Delta with 2 planes of 2 satellites from {a=500, e=0, i=45, Ω=0, ω=0, M=0} yields, in order, (Ω, M) = (0, 0), (0, 180), (180, 0), (180, 180). |

## Left out

- Command-line parsing with `argparse` (orbit_generator.py:75-91) is I/O glue. The model takes typed arguments instead.
- Parsing the arguments with `int(...)`, `float(...)` and `ConstellationType[...]` (orbit_generator.py:25-27, 32-39) is left out. An unknown pattern name or an unparseable number raises in Python; the model takes an enumeration value, `nat` counts and `real` elements.
- Negative counts are not modelled. Python's `int` accepts them: `range` over a negative count is empty and `360 / S` is defined for negative S, so the source prints an empty list. Two exceptions remain: Fill with a plane count other than 1 raises at orbit_generator.py:29-30, and S = 0 raises ZeroDivisionError at orbit_generator.py:42 whatever the plane count. The model's counts are `nat`.
- Printing the list with `pprint` (orbit_generator.py:72) is output only. The Python function returns `None`; the model returns the list it prints.
- IEEE floating-point rounding of the divisions, products and sums is not modelled. Elements are exact reals, so the model states the intended values and not their rounded versions. The inclination comparisons are exact in both.
- Running Python with `-O` strips `assert` statements, which would remove the Star and Delta inclination checks. The model follows the default interpreter, in which they raise.
- The deep copy's aliasing behaviour is not modelled: `Orbit` is a value type, so every satellite owns its copy.
- Ground-station sampling, scenario sweeps, node naming and record writing are not part of this model. They are not in `orbit_generator.py`.
