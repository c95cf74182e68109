/** The stored attributes of a KeplerianElements object as one value, and
    the effect of each property setter on them as a function of the old
    value. The class in elements.dfy is proved to follow these functions; the
    lemmas here say what the functions promise. */
module OrbitState {
  import opened Angles
  import opened Collaborators

  /** The ten attributes an elements object stores: the semimajor axis `_a`,
      `e`, `i`, `raan`, `arg_pe`, the mean anomaly `M0` at the reference epoch,
      the body, the reference epoch (seconds), the current mean anomaly `_M`
      and the time `_t` elapsed since the reference epoch. */
  datatype State = State(
    a: real, e: real, i: real, raan: real, argPe: real, m0: real,
    body: Body, refEpoch: real, m: real, t: real)
  {
    /** Mean motion `n`, derived from `a` on every read and never stored. */
    function MeanMotion(lib: Numerics): (n: real)
      ensures lib.Valid() && body.mu > 0.0 && a > 0.0 ==> n > 0.0
    {
      lib.meanMotion(body.mu, a)
    }

    /** Period `T = 2 pi / n`. */
    function Period(lib: Numerics): (period: real)
      requires lib.Valid() && a > 0.0 && body.mu > 0.0
      ensures period > 0.0
      ensures period * MeanMotion(lib) == TWO_PI
    {
      var n := MeanMotion(lib);
      assert n > 0.0;
      PositiveFactor(n, TWO_PI / n);
      TWO_PI / n
    }

    /** Current epoch: the reference epoch advanced by `t` seconds. */
    function Epoch(): (epoch: real)
      ensures epoch - refEpoch == t
    {
      refEpoch + t
    }

    /** Apocentre radius `(1 + e) a`: the two apsis radii average to `a`, and
        for a positive axis the apocentre lies at or beyond `a` exactly when
        `e` is not negative. */
    function ApocenterRadius(): (r: real)
      ensures r + PericenterRadius() == 2.0 * a
      ensures a > 0.0 ==> (r >= a <==> e >= 0.0)
    {
      ApsisOffset(a, e);
      (1.0 + e) * a
    }

    /** Pericentre radius `(1 - e) a`: for a positive axis it is positive
        exactly when the orbit is bound (`e < 1`). */
    function PericenterRadius(): (r: real)
      ensures a > 0.0 ==> (r > 0.0 <==> e < 1.0)
    {
      ApsisOffset(a, -e);
      (1.0 - e) * a
    }

    /** The mean anomaly `M0 + n t` reached `t` seconds after the reference
        epoch, before reduction into [0, 2 pi). */
    function Advanced(lib: Numerics, elapsed: real): real {
      m0 + MeanMotion(lib) * elapsed
    }

    /** The law tying the current mean anomaly to time: `M = (M0 + n t) mod 2 pi`. */
    predicate Consistent(lib: Numerics) {
      m == Mod(Advanced(lib, t), TWO_PI)
    }

    /** The time law up to whole turns, `M = M0 + n t (mod 2 pi)`, which also
        covers a current mean anomaly stored unreduced, as the constructor
        stores it. */
    predicate Congruent(lib: Numerics) {
      Mod(m, TWO_PI) == Mod(Advanced(lib, t), TWO_PI)
    }

    /** The current mean anomaly wound back by `t` seconds, `M - n t`,
        before reduction into [0, 2 pi). */
    function Rewound(lib: Numerics): real {
      m - MeanMotion(lib) * t
    }

    /** `M0` refitted to the current `M`, `t` and mean motion:
        `M0 = (M - n t) mod 2 pi`. */
    function RefitEpochAnomaly(lib: Numerics): State {
      this.(m0 := Mod(Rewound(lib), TWO_PI))
    }

    /** Setting `a`: the new axis is stored first, then `M0` is refitted
        with the mean motion of the NEW axis, so that `M` and `t` survive. */
    function AfterSemimajorAxis(lib: Numerics, x: real): (r: State)
      ensures r == this.(a := x, m0 := r.m0)
      ensures 0.0 <= r.m0 < TWO_PI
    {
      this.(a := x).RefitEpochAnomaly(lib)
    }

    /** Setting `n`: converted to an axis and handed to the `a` setter. */
    function AfterMeanMotion(lib: Numerics, x: real): (r: State)
      ensures r == this.(a := r.a, m0 := r.m0)
      ensures r.a == lib.axisFromMeanMotion(body.mu, x)
    {
      AfterSemimajorAxis(lib, lib.axisFromMeanMotion(body.mu, x))
    }

    /** Setting `T`: converted to an axis and handed to the `a` setter. */
    function AfterPeriod(lib: Numerics, x: real): (r: State)
      ensures r == this.(a := r.a, m0 := r.m0)
      ensures r.a == lib.axisFromPeriod(body.mu, x)
    {
      AfterSemimajorAxis(lib, lib.axisFromPeriod(body.mu, x))
    }

    /** Setting `M`: the value is stored reduced into [0, 2 pi); neither
        `M0` nor `t` is adjusted. */
    function AfterMeanAnomaly(x: real): (r: State)
      ensures r == this.(m := r.m)
      ensures 0.0 <= r.m < TWO_PI
      ensures x - r.m == TWO_PI * (x / TWO_PI).Floor as real
    {
      ModDecompose(x, TWO_PI);
      this.(m := Mod(x, TWO_PI))
    }

    /** Setting `t`: the current mean anomaly is recomputed from `M0`. */
    function AfterTime(lib: Numerics, x: real): (r: State)
      ensures r == this.(m := r.m, t := x)
      ensures 0.0 <= r.m < TWO_PI
      ensures r.Consistent(lib)
    {
      var r := this.(m := Mod(Advanced(lib, x), TWO_PI), t := x);
      assert r.Advanced(lib, x) == Advanced(lib, x);
      r
    }

    /** Setting `epoch`: the elapsed time is the distance from the reference
        epoch, and the mean anomaly is recomputed as the `t` setter does. */
    function AfterEpoch(lib: Numerics, x: real): (r: State)
      ensures r.Epoch() == x
    {
      var elapsed := x - refEpoch;
      this.(m := Mod(Advanced(lib, elapsed), TWO_PI), t := elapsed)
    }
  }

  /** The attributes right after construction: `_M` is `M0` as given (not
      reduced) and `_t` is zero. */
  function Initial(a: real, e: real, i: real, raan: real, argPe: real, m0: real,
                   body: Body, refEpoch: real): State
  {
    State(a, e, i, raan, argPe, m0, body, refEpoch, m0, 0.0)
  }

  /** Setting `epoch` to `x` has exactly the effect of setting `t` to
      `x - ref_epoch`. */
  lemma EpochSetterIsTimeSetter(lib: Numerics, s: State, x: real)
    ensures s.AfterEpoch(lib, x) == s.AfterTime(lib, x - s.refEpoch)
  {
  }

  /** Constructed with `M0` in [0, 2 pi), the object satisfies the time law. */
  lemma InitialConsistent(lib: Numerics, a: real, e: real, i: real, raan: real,
                          argPe: real, m0: real, body: Body, refEpoch: real)
    requires 0.0 <= m0 < TWO_PI
    ensures Initial(a, e, i, raan, argPe, m0, body, refEpoch).Consistent(lib)
  {
    var s := Initial(a, e, i, raan, argPe, m0, body, refEpoch);
    assert s.m0 + s.MeanMotion(lib) * s.t == m0;
    ModOfReduced(m0, TWO_PI);
  }

  /** The exact time law implies the law up to whole turns. */
  lemma ConsistentIsCongruent(lib: Numerics, s: State)
    requires s.Consistent(lib)
    ensures s.Congruent(lib)
  {
    ModOfReduced(s.m, TWO_PI);
  }

  /** The exact time law holds only for a reduced mean anomaly, and the
      constructor stores `M0` unreduced: built with `M0 = 7 > 2 pi` the object
      breaks the exact law, though it satisfies it up to whole turns. */
  lemma InitialMayBeInconsistent(lib: Numerics)
    ensures !Initial(1.0, 0.0, 0.0, 0.0, 0.0, 7.0, Body(1.0, [], []), 0.0).Consistent(lib)
    ensures Initial(1.0, 0.0, 0.0, 0.0, 0.0, 7.0, Body(1.0, [], []), 0.0).Congruent(lib)
  {
    InitialCongruent(lib, 1.0, 0.0, 0.0, 0.0, 0.0, 7.0, Body(1.0, [], []), 0.0);
  }

  /** Whatever `M0` it is given, a freshly constructed object satisfies the
      time law up to whole turns. */
  lemma InitialCongruent(lib: Numerics, a: real, e: real, i: real, raan: real,
                         argPe: real, m0: real, body: Body, refEpoch: real)
    ensures Initial(a, e, i, raan, argPe, m0, body, refEpoch).Congruent(lib)
  {
    var s := Initial(a, e, i, raan, argPe, m0, body, refEpoch);
    assert s.Advanced(lib, s.t) == m0;
  }

  /** The `t` and `epoch` setters establish the time law from any state. */
  lemma TimeSettersEstablishCongruence(lib: Numerics, s: State, x: real)
    ensures s.AfterTime(lib, x).Congruent(lib)
    ensures s.AfterEpoch(lib, x).Congruent(lib)
  {
    ConsistentIsCongruent(lib, s.AfterTime(lib, x));
    EpochSetterIsTimeSetter(lib, s, x);
    ConsistentIsCongruent(lib, s.AfterTime(lib, x - s.refEpoch));
  }

  /** Setting `a` keeps the current mean anomaly and time, and, from any
      state, `M0` is refitted so that the time law holds up to whole turns
      with the new mean motion. */
  lemma SemimajorAxisRefitsEpochAnomaly(lib: Numerics, s: State, x: real)
    ensures s.AfterSemimajorAxis(lib, x).m == s.m
    ensures s.AfterSemimajorAxis(lib, x).t == s.t
    ensures Mod(s.AfterSemimajorAxis(lib, x).Advanced(lib, s.t), TWO_PI) == Mod(s.m, TWO_PI)
    ensures s.AfterSemimajorAxis(lib, x).Congruent(lib)
  {
    var r := s.AfterSemimajorAxis(lib, x);
    var s1 := s.(a := x);
    var drift := r.MeanMotion(lib) * s.t;
    assert s1.Rewound(lib) == s.m - drift;
    assert r.m0 == Mod(s.m - drift, TWO_PI);
    assert r.Advanced(lib, r.t) == Mod(s.m - drift, TWO_PI) + drift;
    ModOfSum(s.m - drift, drift, TWO_PI);
    assert s.m - drift + drift == s.m;
  }

  /** The `a`, `n` and `T` setters establish the time law up to whole turns
      from any state, in particular from one constructed with `M0` outside
      [0, 2 pi). */
  lemma AxisSettersPreserveCongruence(lib: Numerics, s: State, x: real)
    ensures s.AfterSemimajorAxis(lib, x).Congruent(lib)
    ensures s.AfterMeanMotion(lib, x).Congruent(lib)
    ensures s.AfterPeriod(lib, x).Congruent(lib)
  {
    SemimajorAxisRefitsEpochAnomaly(lib, s, x);
    SemimajorAxisRefitsEpochAnomaly(lib, s, lib.axisFromMeanMotion(s.body.mu, x));
    SemimajorAxisRefitsEpochAnomaly(lib, s, lib.axisFromPeriod(s.body.mu, x));
  }

  /** Setting `a` keeps the current mean anomaly and time, and since `M0` was
      fitted with the new mean motion, re-setting `t` to its current value
      afterwards changes nothing: the state obeys the time law again. */
  lemma SemimajorAxisKeepsMeanAnomaly(lib: Numerics, s: State, x: real)
    requires 0.0 <= s.m < TWO_PI
    ensures s.AfterSemimajorAxis(lib, x).m == s.m
    ensures s.AfterSemimajorAxis(lib, x).t == s.t
    ensures s.AfterSemimajorAxis(lib, x).Consistent(lib)
    ensures s.AfterSemimajorAxis(lib, x).AfterTime(lib, s.t) == s.AfterSemimajorAxis(lib, x)
  {
    SemimajorAxisRefitsEpochAnomaly(lib, s, x);
    ModOfReduced(s.m, TWO_PI);
  }

  /** Setting `epoch` to the epoch it already reads changes nothing when the
      time law holds. */
  lemma EpochSetterAtCurrentEpoch(lib: Numerics, s: State)
    requires s.Consistent(lib)
    ensures s.AfterEpoch(lib, s.Epoch()) == s
  {
    assert s.Epoch() - s.refEpoch == s.t;
  }

  /** The time law is preserved by the `a`, `n` and `T` setters. */
  lemma AxisSettersPreserveConsistency(lib: Numerics, s: State, x: real)
    requires s.Consistent(lib)
    ensures s.AfterSemimajorAxis(lib, x).Consistent(lib)
    ensures s.AfterMeanMotion(lib, x).Consistent(lib)
    ensures s.AfterPeriod(lib, x).Consistent(lib)
  {
    SemimajorAxisKeepsMeanAnomaly(lib, s, x);
    SemimajorAxisKeepsMeanAnomaly(lib, s, lib.axisFromMeanMotion(s.body.mu, x));
    SemimajorAxisKeepsMeanAnomaly(lib, s, lib.axisFromPeriod(s.body.mu, x));
  }

  /** Setting `M` to a value already in [0, 2 pi) stores it unchanged; in
      particular setting it to its own current value is a no-op. */
  lemma MeanAnomalyStoredAsGiven(s: State, x: real)
    requires 0.0 <= x < TWO_PI
    ensures s.AfterMeanAnomaly(x).m == x
    ensures s.m == x ==> s.AfterMeanAnomaly(x) == s
  {
    ModOfReduced(x, TWO_PI);
  }

  /** The `M` setter only sees the angle: values a whole number of turns
      apart are stored alike. */
  lemma MeanAnomalyTurnsIrrelevant(s: State, x: real, k: int)
    ensures s.AfterMeanAnomaly(x + TWO_PI * k as real) == s.AfterMeanAnomaly(x)
  {
    ModShift(x, k, TWO_PI);
  }

  /** The `M` setter does not keep the time law: an object constructed with
      `M0 = 0` obeys it, and after `M = 1` it no longer does, because `t` and
      `M0` are left as they were. */
  lemma MeanAnomalySetterBreaksConsistency(lib: Numerics)
    ensures Initial(1.0, 0.0, 0.0, 0.0, 0.0, 0.0, Body(1.0, [], []), 0.0).Consistent(lib)
    ensures !Initial(1.0, 0.0, 0.0, 0.0, 0.0, 0.0, Body(1.0, [], []), 0.0).AfterMeanAnomaly(1.0).Consistent(lib)
  {
    InitialConsistent(lib, 1.0, 0.0, 0.0, 0.0, 0.0, 0.0, Body(1.0, [], []), 0.0);
    MeanAnomalyStoredAsGiven(Initial(1.0, 0.0, 0.0, 0.0, 0.0, 0.0, Body(1.0, [], []), 0.0), 1.0);
  }

  /** `with_period` constructs with no axis and then sets `T`. The axis it
      starts from is never read, `M0` ends up reduced into [0, 2 pi) while
      `_M` keeps `M0` as given, and `t` is zero. */
  lemma WithPeriodState(lib: Numerics, period: real, body: Body, e: real, i: real,
                        raan: real, argPe: real, m0: real, refEpoch: real, p: real, q: real)
    ensures Initial(p, e, i, raan, argPe, m0, body, refEpoch).AfterPeriod(lib, period)
         == Initial(q, e, i, raan, argPe, m0, body, refEpoch).AfterPeriod(lib, period)
    ensures Initial(p, e, i, raan, argPe, m0, body, refEpoch).AfterPeriod(lib, period)
         == State(lib.axisFromPeriod(body.mu, period), e, i, raan, argPe, Mod(m0, TWO_PI),
                  body, refEpoch, m0, 0.0)
  {
    var n := lib.meanMotion(body.mu, lib.axisFromPeriod(body.mu, period));
    assert m0 - n * 0.0 == m0;
  }

  /** For an ellipse the two apsides bracket the semimajor axis, which is their mean. */
  lemma ApsidesBracketAxis(s: State)
    requires s.a > 0.0 && 0.0 <= s.e < 1.0
    ensures 0.0 < s.PericenterRadius() <= s.a <= s.ApocenterRadius()
    ensures s.ApocenterRadius() + s.PericenterRadius() == 2.0 * s.a
  {
  }
}
