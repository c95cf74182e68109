# KeplerianElements state bookkeeping

A Dafny model of the `KeplerianElements` class of the orbital package
(`orbital/elements.py`). It covers the following:

- The ten attributes the object stores: `_a`, `e`, `i`, `raan`, `arg_pe`, `M0`, `body`, `ref_epoch`, `_M` and `_t`.
- The constructor and the `with_period`, `with_apside_radii` and `with_apside_altitudes` class methods.
- The property setters `a`, `n`, `T`, `M`, `E`, `f`, `t` and `epoch`. Each one rewrites a fixed subset of the attributes in place.
- The getters `n`, `T`, `epoch`, `apocenter_radius` and `pericenter_radius`.
- The apsis-name lookup `__getattr__`.
- The pickling pair `__getstate__` and `__setstate__`.

Layout:

- `angles.dfy` (module `Angles`):
  - `TWO_PI`;
  - the floored remainder `Mod(x, m) = x - m * floor(x / m)` that the setters reduce angles by;
  - the remainder's algebra: its range, that it is unique, that whole turns do not change it, and that it is compatible with addition.
- `collaborators.dfy` (module `Collaborators`):
  - the body (gravitational parameter and apsis names);
  - a `Numerics` record of function values. It stands for the square-root and cube-root formulas of the `n` and `T` properties and for the orbital.utilities routines, which are not part of this model. The only fact assumed about them is `Numerics.Valid`: the mean motion is positive for a positive axis and gravitational parameter.
- `orbit_state.dfy` (module `OrbitState`):
  - the stored attributes as a value `State`;
  - one transition function per setter;
  - lemmas on what those transitions keep: the frames, the epoch/time equivalence, and the time law in two forms. `Consistent` is the exact law `M = (M0 + n t) mod 2 pi`, which needs `M` reduced. `Congruent` is the law up to whole turns, which also covers the unreduced `M0` the constructor may store.
- `apsides.dfy` (module `Apsides`): the sort-then-call step of the two apside constructors.
- `pickling.dfy` (module `Pickling`): the state dictionary and its two round trips.
- `elements.dfy` (module `Elements`):
  - the class `KeplerianElements`, with one mutable field per stored attribute;
  - setters as methods whose `modifies` clause names exactly the attributes the source writes;
  - each setter proved to leave `Snapshot()` equal to the `OrbitState` transition.

## Model

| member | source | states |
|---|---|---|
| Angles.Mod | orbital/elements.py:226 | the reduced angle always lies in [0, 2 pi) (any positive modulus) |
| Angles.ModOfSum | orbital/elements.py:159 | reducing before adding a drift gives the same angle as reducing after |
| OrbitState.Initial | orbital/elements.py:41-54 | (used by the constructor) `_M` is `M0` as given, `_t` is zero, the rest are the arguments |
| Elements.KeplerianElements.constructor | orbital/elements.py:41-54 | after construction the attributes are exactly the arguments, with `_M == M0` and `_t == 0`, and the time law holds up to whole turns |
| OrbitState.InitialConsistent | orbital/elements.py:41-54 | a freshly constructed object with `M0` in [0, 2 pi) satisfies the exact time law `M = (M0 + n t) mod 2 pi` |
| OrbitState.InitialCongruent | orbital/elements.py:41-54 | a freshly constructed object satisfies the time law up to whole turns, whatever `M0` it is given |
| OrbitState.InitialMayBeInconsistent | orbital/elements.py:48-54 | because `_M` is stored unreduced, an object built with `M0 = 7` breaks the exact law but keeps it up to whole turns |
| OrbitState.ConsistentIsCongruent | orbital/elements.py:248-255 | the exact time law implies the law up to whole turns |
| OrbitState.State.MeanMotion | orbital/elements.py:257-260 | the `n` getter: positive for a positive axis and gravitational parameter |
| Elements.KeplerianElements.MeanMotion | orbital/elements.py:257-260 | the object's `n` getter: positive for a positive axis and gravitational parameter |
| OrbitState.State.Period | orbital/elements.py:267-270 | for a positive axis and gravitational parameter the period is positive and `T * n == 2 pi` |
| Elements.KeplerianElements.Period | orbital/elements.py:267-270 | the object's `T` getter: positive, and `T * n == 2 pi` |
| OrbitState.State.Epoch | orbital/elements.py:228-231 | the `epoch` getter lies `t` seconds after the reference epoch |
| Elements.KeplerianElements.Epoch | orbital/elements.py:228-231 | the object's `epoch` getter lies `t` seconds after the reference epoch |
| OrbitState.EpochSetterAtCurrentEpoch | orbital/elements.py:228-241 | when the exact time law holds, setting `epoch` to the epoch it reads changes nothing |
| OrbitState.State.AfterTime | orbital/elements.py:248-255 | setting `t = x` stores `x`, puts `M` in [0, 2 pi), changes nothing but `_M` and `_t`, and leaves the time law satisfied |
| Elements.KeplerianElements.SetTime | orbital/elements.py:248-255 | the object's new attributes are `AfterTime` of the old ones; `t == x`, `M` in [0, 2 pi) and the time law holds exactly and up to whole turns |
| OrbitState.TimeSettersEstablishCongruence | orbital/elements.py:233-255 | the `t` and `epoch` setters establish the time law up to whole turns from any state |
| OrbitState.State.AfterEpoch | orbital/elements.py:228-241 | after setting the epoch to `x`, reading the epoch gives `x` |
| OrbitState.EpochSetterIsTimeSetter | orbital/elements.py:233-255 | setting `epoch = x` has exactly the effect of setting `t = x - ref_epoch` |
| Elements.KeplerianElements.SetEpoch | orbital/elements.py:233-241 | the new attributes are those of the `t` setter at `x - ref_epoch`, the epoch reads back as `x`, and the time law holds up to whole turns |
| OrbitState.State.AfterMeanAnomaly | orbital/elements.py:224-226 | setting `M = x` changes only `_M`, stores it in [0, 2 pi), and differs from `x` by whole turns |
| OrbitState.MeanAnomalyStoredAsGiven | orbital/elements.py:224-226 | an angle already in [0, 2 pi) is stored unchanged; setting `M` to its own value is a no-op |
| OrbitState.MeanAnomalyTurnsIrrelevant | orbital/elements.py:224-226 | values a whole number of turns apart are stored alike |
| OrbitState.MeanAnomalySetterBreaksConsistency | orbital/elements.py:224-226 | the `M` setter does not keep the time law: a consistent object stops being consistent after `M = 1` |
| Elements.KeplerianElements.SetMeanAnomaly | orbital/elements.py:224-226 | the new attributes are `AfterMeanAnomaly` of the old ones; only `_M` may change |
| Elements.KeplerianElements.SetEccentricAnomaly | orbital/elements.py:290-292 | the `E` setter is the `M` setter applied to the converted anomaly; only `_M` may change |
| Elements.KeplerianElements.SetTrueAnomaly | orbital/elements.py:299-301 | the `f` setter is the `M` setter applied to the converted anomaly; only `_M` may change |
| OrbitState.State.AfterSemimajorAxis | orbital/elements.py:150-159 | setting `a` changes only `_a` and `M0`, and the refitted `M0` lies in [0, 2 pi) |
| OrbitState.State.RefitEpochAnomaly | orbital/elements.py:159 | (no contract of its own; used by `AfterSemimajorAxis`, whose contract and `SemimajorAxisRefitsEpochAnomaly` state its effect) `M0` becomes `(M - n t) mod 2 pi` with the mean motion of the current axis |
| OrbitState.SemimajorAxisRefitsEpochAnomaly | orbital/elements.py:150-159 | from any state, setting `a` keeps `M` and `t`, and the refitted `M0` advanced by the new `n` over `t` equals `M` up to whole turns |
| OrbitState.SemimajorAxisKeepsMeanAnomaly | orbital/elements.py:150-159 | with `M` in [0, 2 pi), setting `a` keeps `M` and `t`, satisfies the time law with the new mean motion, and re-setting `t` to its current value afterwards changes nothing |
| Elements.KeplerianElements.SetSemimajorAxis | orbital/elements.py:150-159 | `_a` written before `M0` is refitted with the new mean motion; the new attributes are `AfterSemimajorAxis` of the old ones; only `_a` and `M0` may change; the time law then holds up to whole turns, and exactly if `M` was reduced |
| OrbitState.State.AfterMeanMotion | orbital/elements.py:262-265 | setting `n` changes only `_a` and `M0`, and the new axis is the one derived from `mu` and `n` |
| OrbitState.State.AfterPeriod | orbital/elements.py:272-275 | setting `T` changes only `_a` and `M0`, and the new axis is the one derived from `mu` and `T` |
| OrbitState.AxisSettersPreserveConsistency | orbital/elements.py:150-159 | the `a`, `n` and `T` setters all preserve the exact time law |
| OrbitState.AxisSettersPreserveCongruence | orbital/elements.py:150-159 | the `a`, `n` and `T` setters establish the time law up to whole turns from any state, including one built with `M0` outside [0, 2 pi) |
| Elements.KeplerianElements.SetMeanMotion | orbital/elements.py:262-265 | the `n` setter is the `a` setter at the derived axis; only `_a` and `M0` may change; the time law then holds up to whole turns |
| Elements.KeplerianElements.SetPeriod | orbital/elements.py:272-275 | the `T` setter is the `a` setter at the derived axis; only `_a` and `M0` may change; the time law then holds up to whole turns |
| OrbitState.WithPeriodState | orbital/elements.py:70-79 | the placeholder axis `with_period` starts from is never read; the result has `M0` reduced, `_M` equal to `M0` as given, and `t` zero |
| Elements.KeplerianElements.WithPeriod | orbital/elements.py:70-79 | a fresh object: construction without an axis followed by the `T` setter |
| Apsides.SortPair | orbital/elements.py:86-92 | the sorted pair is ordered (pericentre first) and a permutation of its arguments |
| Apsides.RadiiElements | orbital/elements.py:105-111 | (no contract of its own; used by `WithApsideRadii`, and stated by `RadiiOrderIrrelevant`) the two radii sorted, then `elements_for_apsides` with the larger as apocentre |
| Apsides.AltitudeElements | orbital/elements.py:86-95 | (no contract of its own; used by `WithApsideAltitudes`, and stated by `AltitudeOrderIrrelevant`) the two altitudes sorted, each converted to a radius, then `elements_for_apsides` with the higher as apocentre |
| Apsides.RadiiOrderIrrelevant | orbital/elements.py:100-114 | `(a, e)` from two radii does not depend on their order; the larger is passed as the apocentre |
| Apsides.AltitudeOrderIrrelevant | orbital/elements.py:81-98 | `(a, e)` from two altitudes does not depend on their order; the higher one becomes the apocentre radius |
| Elements.KeplerianElements.WithApsideRadii | orbital/elements.py:100-114 | a fresh object constructed with the `(a, e)` of the sorted radii |
| Elements.KeplerianElements.WithApsideAltitudes | orbital/elements.py:81-98 | a fresh object constructed with the `(a, e)` of the sorted altitudes |
| OrbitState.State.ApocenterRadius | orbital/elements.py:277-279 | the two apsis radii average to `a`; for a positive axis the apocentre is at or beyond `a` exactly when `e >= 0` |
| OrbitState.State.PericenterRadius | orbital/elements.py:281-283 | for a positive axis the pericentre radius is positive exactly when `e < 1` |
| Elements.KeplerianElements.ApocenterRadius | orbital/elements.py:277-279 | the object's apocentre and pericentre radii average to `a`; the apocentre is at or beyond a positive `a` exactly when `e >= 0` |
| Elements.KeplerianElements.PericenterRadius | orbital/elements.py:281-283 | the object's pericentre radius is positive for a positive axis exactly when `e < 1` |
| OrbitState.ApsidesBracketAxis | orbital/elements.py:277-283 | for an ellipse, `0 < pericenter_radius <= a <= apocenter_radius` and the two radii average to `a` |
| Elements.NoAttributeMessage | orbital/elements.py:136-138 | (no contract of its own; used by the failure case of `GetAttr`'s contract) the AttributeError text naming the class and `attr` |
| Elements.KeplerianElements.GetAttr | orbital/elements.py:128-138 | `<name>_radius` for an apoapsis name gives the apocentre radius (this takes precedence); otherwise for a periapsis name the pericentre radius; otherwise an AttributeError naming `attr` |
| Elements.KeplerianElements.GetState | orbital/elements.py:392-402 | the object's state dictionary has exactly the ten keys, and reading it back gives every stored attribute |
| Pickling.Pickle | orbital/elements.py:392-402 | the dictionary has exactly the ten attribute keys, each holding a value of its attribute's kind |
| Pickling.Unpickle | orbital/elements.py:404-414 | (no contract of its own; used by `SetState`'s contract and stated by `UnpickleAfterPickle` and `PickleAfterUnpickle`) the ten attributes `__setstate__` assigns, each read from its key |
| Pickling.UnpickleAfterPickle | orbital/elements.py:392-414 | `__setstate__(__getstate__())` restores all ten attributes exactly |
| Pickling.PickleAfterUnpickle | orbital/elements.py:392-414 | a well-formed dictionary holding exactly the ten keys is reproduced by reading it and writing it back |
| Elements.KeplerianElements.SetState | orbital/elements.py:404-414 | the attributes become the ten dictionary entries |
| Elements.KeplerianElements.CopyByPickling | orbital/elements.py:392-414 | a fresh object given the original's state dictionary holds every stored attribute of the original |

## Left out

- Angles and times are exact reals. Floating-point rounding is not modelled, including in `mod`, `2 * pi / n` and the square and cube roots.
- Epochs are real numbers of seconds. The astropy `Time`/`TimeDelta` arithmetic and the `J2000` default are a foreign library, so the reference epoch is always passed explicitly.
- The constructor's default arguments (`a=None`, zeros, `body=None`, `ref_epoch=J2000`) are not modelled: every argument is passed. For `with_period` a placeholder axis is passed, and `OrbitState.WithPeriodState` shows that it is never read.
- `sqrt(mu / a**3)`, `(mu / n**2)**(1/3)`, `(mu T**2 / (4 pi**2))**(1/3)`, `radius_from_altitude`, `elements_for_apsides` and the anomaly conversions are function values with no further properties, apart from positive mean motion. Their error cases (division by zero, complex roots) are therefore not modelled.
- `E` and `f` getters: the Kepler-equation solver in orbital.utilities is not part of this model. Only their setters are modelled, as the `M` setter applied to an unspecified conversion.
- `with_altitude` is a floating-point formula over the anomaly solver, which is not part of this model.
- The `r`, `v`, `U`, `V`, `W` and `UVW` properties are trigonometry over numpy vectors with no discrete content.
- The `v` setter (orbit determination from a velocity) is this kind of numerics too. Two apparent source defects in it are therefore not modelled:
  - line 196 divides `ev[0]` where `n[0]` is expected;
  - the test at line 214, `abs(d) - 1 < 1e-15`, holds for every `|d| <= 1`.
- `apply_maneuver`, `propagate_anomaly_to` and `propagate_anomaly_by` dispatch to orbital.maneuver, which is not part of this model.
- `__repr__` and `__str__` are string formatting only.
- `__getattr__` is modelled as a method returning a `Result`; Python's attribute-lookup protocol around it is not modelled.
- Elements.NoAttributeMessage: names `KeplerianElements` as the class. The source formats `type(self).__name__`, so an instance of a subclass would name its own class. Subclasses are not modelled.
- The `a` and `M` getters return the stored field. They are the fields `a` and `m` themselves.
- Elements.KeplerianElements.SetState: requires a dictionary holding all ten keys with values of the right kind. A missing key raises `KeyError` in the source after the earlier assignments have been made; that partial write is not modelled.
- Elements.KeplerianElements.CopyByPickling: pickle creates the new object without running `__init__`. The model constructs it with placeholder values and then overwrites every stored attribute.
