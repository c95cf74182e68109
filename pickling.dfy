/** The flat dictionary `__getstate__` hands to pickle and `__setstate__`
    reads back, keyed by the attribute names of the source. */
module Pickling {
  import opened Collaborators
  import opened OrbitState

  /** A dictionary value: every stored attribute is a number except the body. */
  datatype Value = Number(x: real) | BodyValue(body: Body)

  /** The ten keys `__getstate__` writes. */
  const StateKeys: set<string> :=
    {"_a", "e", "i", "raan", "arg_pe", "M0", "body", "ref_epoch", "_M", "_t"}

  /** The dictionary of the ten stored attributes. */
  function Pickle(s: State): (d: map<string, Value>)
    ensures d.Keys == StateKeys
    ensures Unpicklable(d)
  {
    map[
      "_a" := Number(s.a),
      "e" := Number(s.e),
      "i" := Number(s.i),
      "raan" := Number(s.raan),
      "arg_pe" := Number(s.argPe),
      "M0" := Number(s.m0),
      "body" := BodyValue(s.body),
      "ref_epoch" := Number(s.refEpoch),
      "_M" := Number(s.m),
      "_t" := Number(s.t)]
  }

  /** A dictionary `__setstate__` can read: each of the ten keys is present
      and holds a value of the kind its attribute takes. Keys beyond these
      are ignored. */
  predicate Unpicklable(d: map<string, Value>) {
    && "_a" in d && d["_a"].Number?
    && "e" in d && d["e"].Number?
    && "i" in d && d["i"].Number?
    && "raan" in d && d["raan"].Number?
    && "arg_pe" in d && d["arg_pe"].Number?
    && "M0" in d && d["M0"].Number?
    && "body" in d && d["body"].BodyValue?
    && "ref_epoch" in d && d["ref_epoch"].Number?
    && "_M" in d && d["_M"].Number?
    && "_t" in d && d["_t"].Number?
  }

  /** The attributes `__setstate__` assigns from a dictionary. */
  function Unpickle(d: map<string, Value>): State
    requires Unpicklable(d)
  {
    State(d["_a"].x, d["e"].x, d["i"].x, d["raan"].x, d["arg_pe"].x, d["M0"].x,
          d["body"].body, d["ref_epoch"].x, d["_M"].x, d["_t"].x)
  }

  /** Reading back what was written restores every attribute exactly. */
  lemma UnpickleAfterPickle(s: State)
    ensures Unpickle(Pickle(s)) == s
  {
  }

  /** Writing what was read reproduces a dictionary that holds exactly the ten keys. */
  lemma PickleAfterUnpickle(d: map<string, Value>)
    requires Unpicklable(d) && d.Keys == StateKeys
    ensures Pickle(Unpickle(d)) == d
  {
    var p := Pickle(Unpickle(d));
    forall k | k in StateKeys
      ensures p[k] == d[k]
    {
    }
  }
}
