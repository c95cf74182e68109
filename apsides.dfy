/** The element pairs the apside constructors `with_apside_radii` and
    `with_apside_altitudes` compute before constructing: the two values are
    sorted, the smaller taken as the pericentre and the larger as the
    apocentre. */
module Apsides {
  import opened Collaborators

  /** Sorting a two-element list: the smaller value first. */
  function SortPair(x: real, y: real): (p: (real, real))
    ensures p.0 <= p.1
    ensures multiset{p.0, p.1} == multiset{x, y}
  {
    if x <= y then (x, y) else (y, x)
  }

  /** `(a, e)` for two apside radii given in either order. */
  function RadiiElements(lib: Numerics, radius1: real, radius2: real): (real, real) {
    var sorted := SortPair(radius1, radius2);
    var pericenterRadius := sorted.0;
    var apocenterRadius := sorted.1;
    lib.elementsForApsides(apocenterRadius, pericenterRadius)
  }

  /** `(a, e)` for two apside altitudes given in either order: sorted as
      altitudes, then each converted to a radius about the body. */
  function AltitudeElements(lib: Numerics, body: Body, alt1: real, alt2: real): (real, real) {
    var sorted := SortPair(alt1, alt2);
    var apocenterRadius := lib.radiusFromAltitude(sorted.1, body);
    var pericenterRadius := lib.radiusFromAltitude(sorted.0, body);
    lib.elementsForApsides(apocenterRadius, pericenterRadius)
  }

  /** The order of the two radii does not matter, and the larger one is
      passed as the apocentre. */
  lemma RadiiOrderIrrelevant(lib: Numerics, radius1: real, radius2: real)
    ensures RadiiElements(lib, radius1, radius2) == RadiiElements(lib, radius2, radius1)
    ensures radius1 <= radius2 ==> RadiiElements(lib, radius1, radius2) == lib.elementsForApsides(radius2, radius1)
  {
  }

  /** The order of the two altitudes does not matter, and the higher one is
      converted and passed as the apocentre. */
  lemma AltitudeOrderIrrelevant(lib: Numerics, body: Body, alt1: real, alt2: real)
    ensures AltitudeElements(lib, body, alt1, alt2) == AltitudeElements(lib, body, alt2, alt1)
    ensures alt1 <= alt2 ==> AltitudeElements(lib, body, alt1, alt2)
                             == lib.elementsForApsides(lib.radiusFromAltitude(alt2, body),
                                                       lib.radiusFromAltitude(alt1, body))
  {
  }
}
