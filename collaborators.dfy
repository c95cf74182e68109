/** The parts of the orbital package that the elements object calls but that
    lie outside this model: the central body and a handful of numeric
    formulas. They are passed in as values, so that nothing is assumed about
    them beyond what a contract states. */
module Collaborators {

  /** An instance of orbital.bodies.Body as the elements object uses it: the
      gravitational parameter and the names its apsides go by (for the Earth,
      "apogee" and "perigee"). */
  datatype Body = Body(mu: real, apoapsisNames: seq<string>, periapsisNames: seq<string>)

  /** The numeric routines whose formulas rely on square and cube roots or on
      code of orbital.utilities that is not part of this model:
      - meanMotion(mu, a)         = sqrt(mu / a^3)              (orbital/elements.py:260)
      - axisFromMeanMotion(mu, n) = (mu / n^2)^(1/3)            (orbital/elements.py:265)
      - axisFromPeriod(mu, T)     = (mu T^2 / (4 pi^2))^(1/3)   (orbital/elements.py:275)
      - radiusFromAltitude(alt, body) and elementsForApsides(apocenter, pericenter),
        the functions of orbital.utilities of the same names;
      - meanFromEccentric(e, E) and meanFromTrue(e, f), the anomaly conversions
        mean_anomaly_from_eccentric and mean_anomaly_from_true. */
  datatype Numerics = Numerics(
    meanMotion: (real, real) -> real,
    axisFromMeanMotion: (real, real) -> real,
    axisFromPeriod: (real, real) -> real,
    radiusFromAltitude: (real, Body) -> real,
    elementsForApsides: (real, real) -> (real, real),
    meanFromEccentric: (real, real) -> real,
    meanFromTrue: (real, real) -> real)
  {
    /** The one fact the model uses about these routines: a square root of a
        positive quotient is positive. */
    ghost predicate Valid() {
      forall mu: real, a: real :: mu > 0.0 && a > 0.0 ==> meanMotion(mu, a) > 0.0
    }
  }
}
