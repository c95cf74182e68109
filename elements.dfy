/** The KeplerianElements class: its stored attributes, its constructors,
    the property setters that rewrite them in place, the apsis-name lookup
    and the pickling pair. Each setter is proved to leave the attributes as
    the matching transition function of OrbitState says, and its `modifies`
    clause names exactly the attributes it writes. */
module Elements {
  import opened Angles
  import opened Collaborators
  import opened OrbitState
  import opened Apsides
  import opened Pickling

  datatype Result<T> = Success(value: T) | Failure(error: string)

  /** The text of the AttributeError `__getattr__` raises. */
  function NoAttributeMessage(attr: string): string {
    "'KeplerianElements' object has no attribute '" + attr + "'"
  }

  /** Some name of the list, followed by "_radius", spells `attr`. */
  predicate NamesRadius(names: seq<string>, attr: string) {
    exists k :: 0 <= k < |names| && attr == names[k] + "_radius"
  }

  class KeplerianElements {
    /** The numeric routines the properties call. */
    const lib: Numerics

    var a: real        // `_a`, semimajor axis [m]
    var e: real        // eccentricity
    var i: real        // inclination [rad]
    var raan: real     // right ascension of the ascending node [rad]
    var argPe: real    // argument of periapsis [rad]
    var m0: real       // `M0`, mean anomaly at the reference epoch [rad]
    var body: Body
    var refEpoch: real // reference epoch [s]
    var m: real        // `_M`, mean anomaly at time `t` [rad]
    var t: real        // `_t`, time since the reference epoch [s]

    /** The stored attributes as one value. */
    function Snapshot(): State
      reads this
    {
      State(a, e, i, raan, argPe, m0, body, refEpoch, m, t)
    }

    /** The `n` getter. */
    function MeanMotion(): (n: real)
      reads this
      ensures lib.Valid() && body.mu > 0.0 && a > 0.0 ==> n > 0.0
    {
      Snapshot().MeanMotion(lib)
    }

    /** The `T` getter. */
    function Period(): (period: real)
      reads this
      requires lib.Valid() && a > 0.0 && body.mu > 0.0
      ensures period > 0.0 && period * MeanMotion() == TWO_PI
    {
      Snapshot().Period(lib)
    }

    /** The `epoch` getter. */
    function Epoch(): (epoch: real)
      reads this
      ensures epoch - refEpoch == t
    {
      Snapshot().Epoch()
    }

    function ApocenterRadius(): (r: real)
      reads this
      ensures r + PericenterRadius() == 2.0 * a
      ensures a > 0.0 ==> (r >= a <==> e >= 0.0)
    {
      Snapshot().ApocenterRadius()
    }

    function PericenterRadius(): (r: real)
      reads this
      ensures a > 0.0 ==> (r > 0.0 <==> e < 1.0)
    {
      Snapshot().PericenterRadius()
    }

    /** `__getstate__`: a dictionary of exactly the ten attribute keys from
        which `__setstate__` reads back every stored attribute. */
    function GetState(): (d: map<string, Value>)
      reads this
      ensures d.Keys == StateKeys && Unpicklable(d)
      ensures Unpickle(d) == Snapshot()
    {
      UnpickleAfterPickle(Snapshot());
      Pickle(Snapshot())
    }

    /** `__init__`: the five elements, `M0`, the body and the reference
        epoch as given, `_M` equal to `M0` and `_t` zero. */
    constructor (lib: Numerics, a: real, e: real, i: real, raan: real, argPe: real,
                 m0: real, body: Body, refEpoch: real)
      ensures this.lib == lib
      ensures Snapshot() == Initial(a, e, i, raan, argPe, m0, body, refEpoch)
      ensures Snapshot().Congruent(lib)
    {
      InitialCongruent(lib, a, e, i, raan, argPe, m0, body, refEpoch);
      this.lib := lib;
      this.a := a;
      this.e := e;
      this.i := i;
      this.raan := raan;
      this.argPe := argPe;
      this.m0 := m0;
      this.m := m0;
      this.body := body;
      this.refEpoch := refEpoch;
      this.t := 0.0;
    }

    /** `with_period`: constructed without an axis, then the period is set. */
    static method WithPeriod(lib: Numerics, period: real, body: Body, e: real, i: real,
                             raan: real, argPe: real, m0: real, refEpoch: real)
      returns (ke: KeplerianElements)
      ensures fresh(ke) && ke.lib == lib
      ensures ke.Snapshot() == Initial(0.0, e, i, raan, argPe, m0, body, refEpoch).AfterPeriod(lib, period)
    {
      // The source passes no axis; the placeholder is overwritten before it is read.
      ke := new KeplerianElements(lib, 0.0, e, i, raan, argPe, m0, body, refEpoch);
      ke.SetPeriod(period);
    }

    /** `with_apside_radii`. */
    static method WithApsideRadii(lib: Numerics, radius1: real, radius2: real, i: real,
                                  raan: real, argPe: real, m0: real, body: Body, refEpoch: real)
      returns (ke: KeplerianElements)
      ensures fresh(ke) && ke.lib == lib
      ensures ke.Snapshot() == Initial(RadiiElements(lib, radius1, radius2).0,
                                       RadiiElements(lib, radius1, radius2).1,
                                       i, raan, argPe, m0, body, refEpoch)
    {
      var ae := RadiiElements(lib, radius1, radius2);
      ke := new KeplerianElements(lib, ae.0, ae.1, i, raan, argPe, m0, body, refEpoch);
    }

    /** `with_apside_altitudes`. */
    static method WithApsideAltitudes(lib: Numerics, alt1: real, alt2: real, i: real,
                                      raan: real, argPe: real, m0: real, body: Body, refEpoch: real)
      returns (ke: KeplerianElements)
      ensures fresh(ke) && ke.lib == lib
      ensures ke.Snapshot() == Initial(AltitudeElements(lib, body, alt1, alt2).0,
                                       AltitudeElements(lib, body, alt1, alt2).1,
                                       i, raan, argPe, m0, body, refEpoch)
    {
      var ae := AltitudeElements(lib, body, alt1, alt2);
      ke := new KeplerianElements(lib, ae.0, ae.1, i, raan, argPe, m0, body, refEpoch);
    }

    /** `__getattr__`: "<name>_radius" for an apoapsis name of the body gives
        the apocentre radius, checked first; for a periapsis name, the
        pericentre radius; anything else is an AttributeError naming `attr`. */
    method GetAttr(attr: string) returns (r: Result<real>)
      ensures NamesRadius(body.apoapsisNames, attr) ==> r == Success(ApocenterRadius())
      ensures !NamesRadius(body.apoapsisNames, attr) && NamesRadius(body.periapsisNames, attr)
              ==> r == Success(PericenterRadius())
      ensures !NamesRadius(body.apoapsisNames, attr) && !NamesRadius(body.periapsisNames, attr)
              ==> r == Failure(NoAttributeMessage(attr))
    {
      var apoapsisNames := body.apoapsisNames;
      for k := 0 to |apoapsisNames|
        invariant forall j :: 0 <= j < k ==> attr != apoapsisNames[j] + "_radius"
      {
        if attr == apoapsisNames[k] + "_radius" {
          return Success(ApocenterRadius());
        }
      }
      var periapsisNames := body.periapsisNames;
      for k := 0 to |periapsisNames|
        invariant forall j :: 0 <= j < k ==> attr != periapsisNames[j] + "_radius"
      {
        if attr == periapsisNames[k] + "_radius" {
          return Success(PericenterRadius());
        }
      }
      return Failure(NoAttributeMessage(attr));
    }

    /** The `a` setter: `_a` is written first, so the mean motion used to
        refit `M0` is that of the new axis. */
    method SetSemimajorAxis(x: real)
      modifies this`a, this`m0
      ensures Snapshot() == old(Snapshot()).AfterSemimajorAxis(lib, x)
      ensures Snapshot().Congruent(lib)
      ensures old(0.0 <= m < TWO_PI) ==> Snapshot().Consistent(lib)
    {
      a := x;
      var rewound := m - MeanMotion() * t;
      assert rewound == Snapshot().Rewound(lib);
      m0 := Mod(rewound, TWO_PI);
      SemimajorAxisRefitsEpochAnomaly(lib, old(Snapshot()), x);
      if 0.0 <= m < TWO_PI {
        SemimajorAxisKeepsMeanAnomaly(lib, old(Snapshot()), x);
      }
    }

    /** The `M` setter. */
    method SetMeanAnomaly(x: real)
      modifies this`m
      ensures Snapshot() == old(Snapshot()).AfterMeanAnomaly(x)
      ensures 0.0 <= m < TWO_PI
    {
      m := Mod(x, TWO_PI);
    }

    /** The `E` setter: the eccentric anomaly is converted and handed to the `M` setter. */
    method SetEccentricAnomaly(x: real)
      modifies this`m
      ensures Snapshot() == old(Snapshot()).AfterMeanAnomaly(lib.meanFromEccentric(e, x))
    {
      SetMeanAnomaly(lib.meanFromEccentric(e, x));
    }

    /** The `f` setter: the true anomaly is converted and handed to the `M` setter. */
    method SetTrueAnomaly(x: real)
      modifies this`m
      ensures Snapshot() == old(Snapshot()).AfterMeanAnomaly(lib.meanFromTrue(e, x))
    {
      SetMeanAnomaly(lib.meanFromTrue(e, x));
    }

    /** The `epoch` setter. */
    method SetEpoch(x: real)
      modifies this`m, this`t
      ensures Snapshot() == old(Snapshot()).AfterEpoch(lib, x)
      ensures Snapshot() == old(Snapshot()).AfterTime(lib, x - old(refEpoch))
      ensures Epoch() == x
      ensures Snapshot().Congruent(lib)
    {
      var elapsed := x - refEpoch;
      assert m0 + MeanMotion() * elapsed == Snapshot().Advanced(lib, elapsed);
      m := m0 + MeanMotion() * elapsed;
      m := Mod(m, TWO_PI);
      t := elapsed;
      EpochSetterIsTimeSetter(lib, old(Snapshot()), x);
      TimeSettersEstablishCongruence(lib, old(Snapshot()), x);
    }

    /** The `t` setter. */
    method SetTime(x: real)
      modifies this`m, this`t
      ensures Snapshot() == old(Snapshot()).AfterTime(lib, x)
      ensures t == x && 0.0 <= m < TWO_PI
      ensures Snapshot().Consistent(lib) && Snapshot().Congruent(lib)
    {
      assert m0 + MeanMotion() * x == Snapshot().Advanced(lib, x);
      m := m0 + MeanMotion() * x;
      m := Mod(m, TWO_PI);
      t := x;
      TimeSettersEstablishCongruence(lib, old(Snapshot()), x);
    }

    /** The `n` setter. */
    method SetMeanMotion(x: real)
      modifies this`a, this`m0
      ensures Snapshot() == old(Snapshot()).AfterMeanMotion(lib, x)
      ensures Snapshot().Congruent(lib)
    {
      SetSemimajorAxis(lib.axisFromMeanMotion(body.mu, x));
    }

    /** The `T` setter. */
    method SetPeriod(x: real)
      modifies this`a, this`m0
      ensures Snapshot() == old(Snapshot()).AfterPeriod(lib, x)
      ensures Snapshot().Congruent(lib)
    {
      SetSemimajorAxis(lib.axisFromPeriod(body.mu, x));
    }

    /** `__setstate__`: the ten attributes assigned from the dictionary, in
        the order the source assigns them. */
    method SetState(d: map<string, Value>)
      requires Unpicklable(d)
      modifies this`a, this`e, this`i, this`raan, this`argPe, this`m0, this`body,
               this`refEpoch, this`m, this`t
      ensures Snapshot() == Unpickle(d)
    {
      a := d["_a"].x;
      e := d["e"].x;
      i := d["i"].x;
      raan := d["raan"].x;
      argPe := d["arg_pe"].x;
      m0 := d["M0"].x;
      body := d["body"].body;
      refEpoch := d["ref_epoch"].x;
      m := d["_M"].x;
      t := d["_t"].x;
    }

    /** What pickling and unpickling an object does: a new object is made
        (pickle does not run `__init__`; every attribute the constructor sets
        here is overwritten) and `__setstate__` is given `__getstate__`'s
        dictionary. The copy has every stored attribute of the original. */
    static method CopyByPickling(source: KeplerianElements) returns (copy: KeplerianElements)
      ensures fresh(copy) && copy.lib == source.lib
      ensures copy.Snapshot() == source.Snapshot()
    {
      var d := source.GetState();
      copy := new KeplerianElements(source.lib, 0.0, 0.0, 0.0, 0.0, 0.0, 0.0, source.body, 0.0);
      copy.SetState(d);
      UnpickleAfterPickle(source.Snapshot());
    }
  }
}
