/**
 * Python dictionaries as the core uses them: string keys, scalar values,
 * and objects that are updated in place and may be shared between lists.
 */
module Dicts {

  /** The scalar values that occur in the augment records. */
  datatype Value = Null | Bool(b: bool) | Int(i: int) | Float(x: real) | Str(s: string)

  /** `isinstance(v, (int, float))`; in Python `bool` is a subclass of `int`. */
  predicate IsNumber(v: Value) {
    v.Bool? || v.Int? || v.Float?
  }

  /** The number a numeric value stands for in arithmetic (`True` is 1). */
  function AsReal(v: Value): real
    requires IsNumber(v)
  {
    match v
    case Bool(b) => if b then 1.0 else 0.0
    case Int(i) => i as real
    case Float(x) => x
  }

  /** Python's `v == c` for a numeric literal `c`: false for strings and `None`. */
  predicate EqualsNumber(v: Value, c: real) {
    IsNumber(v) && AsReal(v) == c
  }

  /** The key is present and holds a number. */
  predicate HasNumber(m: map<string, Value>, key: string) {
    key in m && IsNumber(m[key])
  }

  /** A mutable Python dict. */
  class Dict {
    var entries: map<string, Value>

    constructor (m: map<string, Value>)
      ensures entries == m
    {
      entries := m;
    }
  }

  /** No dict object occurs twice in the list. */
  predicate Distinct(ds: seq<Dict>) {
    forall i, j | 0 <= i < j < |ds| :: ds[i] != ds[j]
  }

  /** The current contents of every dict in the list, position by position. */
  function Contents(ds: seq<Dict>): (ms: seq<map<string, Value>>)
    reads set d | d in ds
    ensures |ms| == |ds|
    ensures forall i | 0 <= i < |ds| :: ms[i] == ds[i].entries
  {
    seq(|ds|, i requires 0 <= i < |ds| reads ds => ds[i].entries)
  }

  /** The numbers stored under `key`, in list order. */
  function Numbers(ms: seq<map<string, Value>>, key: string): (vs: seq<real>)
    requires forall i | 0 <= i < |ms| :: HasNumber(ms[i], key)
    ensures |vs| == |ms|
    ensures forall i | 0 <= i < |ms| :: HasNumber(ms[i], key) && vs[i] == AsReal(ms[i][key])
  {
    seq(|ms|, i requires 0 <= i < |ms| && HasNumber(ms[i], key) => AsReal(ms[i][key]))
  }
}
