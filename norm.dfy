/**
 * Normalisation and scoring helpers (utils/norm.py): outlier-robust
 * min-max bounds, min-max and z-score scalers, and the two annotators that
 * write a derived attribute into every dict of a list.
 */
module Norm {
  import opened Wrappers
  import opened Dicts

  /**
   * The numeric library calls the helpers make and this model does not
   * define: `np.percentile(values, q)`, the square root inside `np.std`,
   * and Python's `round(x, ndigits)`.
   */
  datatype Numerics = Numerics(
    percentile: (seq<real>, real) -> real,
    sqrt: real -> real,
    round: (real, nat) -> real)

  type NonZero = r: real | r != 0.0 witness 1.0

  /**
   * The closure a normaliser returns: either the constant `lambda x: 0.0`
   * or `lambda x: (x - center) / spread`.
   */
  datatype Scaler = Zero | Affine(center: real, spread: NonZero) {
    function Apply(x: real): real {
      match this
      case Zero => 0.0
      case Affine(c, s) => (x - c) / s
    }
  }

  // ---------------------------------------------------------------------
  // Bounds of a population

  function Min(s: seq<real>): (m: real)
    requires |s| > 0
    ensures m in s
    ensures forall x | x in s :: m <= x
  {
    if |s| == 1 then s[0]
    else
      var rest := Min(s[1..]);
      assert s == [s[0]] + s[1..];
      if s[0] <= rest then s[0] else rest
  }

  function Max(s: seq<real>): (m: real)
    requires |s| > 0
    ensures m in s
    ensures forall x | x in s :: x <= m
  {
    if |s| == 1 then s[0]
    else
      var rest := Max(s[1..]);
      assert s == [s[0]] + s[1..];
      if rest <= s[0] then s[0] else rest
  }

  /** The closed interval `[lower, upper]` that counts as normal data. */
  datatype Window = Window(lower: real, upper: real) {
    predicate Contains(x: real) {
      lower <= x <= upper
    }
  }

  /** Tukey's fences: `[q1 - 1.5 * iqr, q3 + 1.5 * iqr]` with `iqr = q3 - q1`. */
  function IqrWindow(values: seq<real>, num: Numerics): Window {
    var q1 := num.percentile(values, 25.0);
    var q3 := num.percentile(values, 75.0);
    var iqr := q3 - q1;
    Window(q1 - 1.5 * iqr, q3 + 1.5 * iqr)
  }

  /**
   * The fences are four interquartile ranges apart, centred on the
   * quartiles' midpoint, and hold both quartiles when they are ordered.
   */
  lemma IqrWindowFences(values: seq<real>, num: Numerics)
    ensures var w, q1, q3 := IqrWindow(values, num), num.percentile(values, 25.0), num.percentile(values, 75.0);
      && w.upper - w.lower == 4.0 * (q3 - q1)
      && w.lower + w.upper == q1 + q3
      && (q1 <= q3 ==> w.Contains(q1) && w.Contains(q3))
  {
  }

  /** `arr[mask]`: the values inside the window, in order. */
  function Inside(s: seq<real>, w: Window): (r: seq<real>)
    ensures forall x :: x in r <==> x in s && w.Contains(x)
    ensures |r| <= |s|
  {
    if s == [] then []
    else
      assert s == [s[0]] + s[1..];
      (if w.Contains(s[0]) then [s[0]] else []) + Inside(s[1..], w)
  }

  /** `arr[~mask].tolist()`: the values outside the window, in order. */
  function Outside(s: seq<real>, w: Window): (r: seq<real>)
    ensures forall x :: x in r <==> x in s && !w.Contains(x)
    ensures |r| <= |s|
  {
    if s == [] then []
    else
      assert s == [s[0]] + s[1..];
      (if w.Contains(s[0]) then [] else [s[0]]) + Outside(s[1..], w)
  }

  /** Each value outside the window is kept as often as it occurs; the others are dropped. */
  lemma {:induction false} OutsideCounts(s: seq<real>, w: Window)
    ensures forall x :: multiset(Outside(s, w))[x] == if w.Contains(x) then 0 else multiset(s)[x]
  {
    if s != [] {
      OutsideCounts(s[1..], w);
      assert s == [s[0]] + s[1..];
      assert multiset(s) == multiset([s[0]]) + multiset(s[1..]);
    }
  }

  /** Every position moved up by one. */
  function Shift(ps: seq<nat>): (r: seq<nat>)
    ensures |r| == |ps| && forall j | 0 <= j < |ps| :: r[j] == ps[j] + 1
  {
    seq(|ps|, j requires 0 <= j < |ps| => ps[j] + 1)
  }

  /** The positions of the values of `s` outside `w`, in increasing order. */
  ghost function OutsidePositions(s: seq<real>, w: Window): (ps: seq<nat>)
    ensures forall j | 0 <= j < |ps| :: ps[j] < |s|
    ensures forall j, k | 0 <= j < k < |ps| :: ps[j] < ps[k]
    ensures forall i | 0 <= i < |s| :: i in ps <==> !w.Contains(s[i])
  {
    if s == [] then []
    else
      var tail := OutsidePositions(s[1..], w);
      assert forall i | 0 <= i < |s| - 1 :: i in tail <==> !w.Contains(s[i + 1]) by {
        forall i | 0 <= i < |s| - 1 ensures s[1..][i] == s[i + 1] { }
      }
      ConsPositions(s, w, tail);
      (if w.Contains(s[0]) then [] else [0]) + Shift(tail)
  }

  /** The outside positions of `s` from those of `s[1..]`: the head's, then the tail's moved up by one. */
  lemma ConsPositions(s: seq<real>, w: Window, tail: seq<nat>)
    requires s != []
    requires forall j | 0 <= j < |tail| :: tail[j] < |s| - 1
    requires forall j, k | 0 <= j < k < |tail| :: tail[j] < tail[k]
    requires forall i | 0 <= i < |s| - 1 :: i in tail <==> !w.Contains(s[i + 1])
    ensures var ps := (if w.Contains(s[0]) then [] else [0]) + Shift(tail);
      && (forall j | 0 <= j < |ps| :: ps[j] < |s|)
      && (forall j, k | 0 <= j < k < |ps| :: ps[j] < ps[k])
      && (forall i | 0 <= i < |s| :: i in ps <==> !w.Contains(s[i]))
  {
    var ps := (if w.Contains(s[0]) then [] else [0]) + Shift(tail);
    ShiftMembers(tail);
    forall i | 0 <= i < |s| ensures i in ps <==> !w.Contains(s[i]) {
      if i > 0 {
        assert s[(i - 1) + 1] == s[i];
      }
    }
  }

  /** The shifted positions are those one above an original one. */
  lemma ShiftMembers(ps: seq<nat>)
    ensures forall i :: i in Shift(ps) <==> 1 <= i && i - 1 in ps
  {
    var r := Shift(ps);
    forall i ensures i in r <==> 1 <= i && i - 1 in ps {
      if i in r {
        var j :| 0 <= j < |r| && r[j] == i;
        assert ps[j] == i - 1;
      }
      if 1 <= i && i - 1 in ps {
        var j :| 0 <= j < |ps| && ps[j] == i - 1;
        assert r[j] == i;
      }
    }
  }

  /**
   * The outliers keep the input order: they are the input read at the
   * increasing positions of the values outside the window.
   */
  lemma {:induction false} OutsideInOrder(s: seq<real>, w: Window)
    ensures |Outside(s, w)| == |OutsidePositions(s, w)|
    ensures forall j | 0 <= j < |Outside(s, w)| :: Outside(s, w)[j] == s[OutsidePositions(s, w)[j]]
  {
    if s != [] {
      OutsideInOrder(s[1..], w);
      ReadAtPositions(s, Outside(s[1..], w), OutsidePositions(s[1..], w), !w.Contains(s[0]));
    }
  }

  /**
   * A selection of `s[1..]` read at its positions, behind the head of `s`
   * when `first` holds, is `s` read at the shifted positions.
   */
  lemma ReadAtPositions(s: seq<real>, rest: seq<real>, tail: seq<nat>, first: bool)
    requires s != [] && |rest| == |tail|
    requires forall j | 0 <= j < |tail| :: tail[j] < |s| - 1 && rest[j] == s[1..][tail[j]]
    ensures var r, ps := (if first then [s[0]] else []) + rest, (if first then [0] else []) + Shift(tail);
      |r| == |ps| && forall j | 0 <= j < |ps| :: ps[j] < |s| && r[j] == s[ps[j]]
  {
  }

  /** The dict `get_normal_min_max` returns. */
  datatype NormalRange = NormalRange(min: real, max: real, outliers: seq<real>)

  /**
   * IQR outlier filtering: the bounds of the values inside Tukey's fences,
   * or of all values when none lies inside.
   */
  function GetNormalMinMax(values: seq<real>, num: Numerics): (r: NormalRange)
    requires |values| > 0
    ensures r.min <= r.max
    ensures r.min in values && r.max in values
    ensures forall x :: x in r.outliers <==> x in values && !IqrWindow(values, num).Contains(x)
    ensures (exists x :: x in values && IqrWindow(values, num).Contains(x)) ==>
              IqrWindow(values, num).Contains(r.min) && IqrWindow(values, num).Contains(r.max) &&
              forall x | x in values && IqrWindow(values, num).Contains(x) :: r.min <= x <= r.max
    ensures (forall x | x in values :: !IqrWindow(values, num).Contains(x)) ==>
              forall x | x in values :: r.min <= x <= r.max
  {
    var w := IqrWindow(values, num);
    var normal := Inside(values, w);
    var pool := if |normal| == 0 then values else normal;
    NormalRange(Min(pool), Max(pool), Outside(values, w))
  }

  /**
   * The outliers are `Outside` of the values: each value beyond the fences
   * as often as it occurs, in input order (`OutsideInOrder`).
   */
  lemma NormalRangeOutliers(values: seq<real>, num: Numerics)
    requires |values| > 0
    ensures GetNormalMinMax(values, num).outliers == Outside(values, IqrWindow(values, num))
    ensures var outliers, w := GetNormalMinMax(values, num).outliers, IqrWindow(values, num);
      forall x :: multiset(outliers)[x] == if w.Contains(x) then 0 else multiset(values)[x]
  {
    OutsideCounts(values, IqrWindow(values, num));
  }

  // ---------------------------------------------------------------------
  // The two normalisers

  /** The dict `min_max_normalize` returns. */
  datatype MinMaxScaling = MinMaxScaling(func: Scaler, min: real, max: real)

  /**
   * Min-max rescaling over the robust bounds (`minMaxNorm`) or over the
   * plain population bounds; the constant zero scaler when the bounds meet.
   */
  function MinMaxNormalize(values: seq<real>, minMaxNorm: bool, num: Numerics): (r: MinMaxScaling)
    requires |values| > 0
    ensures minMaxNorm ==> r.min == GetNormalMinMax(values, num).min && r.max == GetNormalMinMax(values, num).max
    ensures !minMaxNorm ==> r.min in values && r.max in values && forall x | x in values :: r.min <= x <= r.max
    ensures r.min <= r.max
    ensures r.min == r.max ==> forall x :: r.func.Apply(x) == 0.0
    ensures r.min != r.max ==> r.func.Apply(r.min) == 0.0 && r.func.Apply(r.max) == 1.0
    ensures r.min != r.max ==> r.func.Affine? && r.func.spread > 0.0
  {
    var lo := if minMaxNorm then GetNormalMinMax(values, num).min else Min(values);
    var hi := if minMaxNorm then GetNormalMinMax(values, num).max else Max(values);
    if hi == lo then MinMaxScaling(Zero, lo, hi)
    else
      AffineUnit(lo, hi - lo);
      MinMaxScaling(Affine(lo, hi - lo), lo, hi)
  }

  /** The affine scaler sends its center to 0 and `center + spread` to 1. */
  lemma AffineUnit(c: real, s: NonZero)
    ensures Affine(c, s).Apply(c) == 0.0 && Affine(c, s).Apply(c + s) == 1.0
  {
    var d: real := s;
    assert d / d == 1.0;
    assert c + s - c == d;
  }

  function Sum(s: seq<real>): real {
    if s == [] then 0.0 else s[0] + Sum(s[1..])
  }

  /** The population variance (`np.std` uses `ddof = 0`). */
  function SquaredDeviations(s: seq<real>, mean: real): real {
    if s == [] then 0.0 else (s[0] - mean) * (s[0] - mean) + SquaredDeviations(s[1..], mean)
  }

  /** The dict `z_score_normalize` returns. */
  datatype ZScoreScaling = ZScoreScaling(func: Scaler, mean: real, std: real)

  /** Z-score rescaling; the constant zero scaler when the deviation is zero. */
  function ZScoreNormalize(values: seq<real>, num: Numerics): (r: ZScoreScaling)
    requires |values| > 0
    ensures r.mean * (|values| as real) == Sum(values)
    ensures r.std == num.sqrt(SquaredDeviations(values, r.mean) / (|values| as real))
    ensures r.std == 0.0 ==> forall x :: r.func.Apply(x) == 0.0
    ensures r.std != 0.0 ==> r.func.Apply(r.mean) == 0.0 && r.func.Apply(r.mean + r.std) == 1.0
  {
    var mean := Sum(values) / (|values| as real);
    var std := num.sqrt(SquaredDeviations(values, mean) / (|values| as real));
    if std == 0.0 then ZScoreScaling(Zero, mean, std)
    else
      AffineUnit(mean, std);
      ZScoreScaling(Affine(mean, std), mean, std)
  }

  /** An affine scaler with a positive spread keeps the order of its inputs strictly. */
  lemma AffineIncreasing(f: Scaler, x: real, y: real)
    requires f.Affine? && f.spread > 0.0
    requires x < y
    ensures f.Apply(x) < f.Apply(y)
  {
    var c, s := f.center, f.spread;
    assert f.Apply(x) * s == x - c;
    assert f.Apply(y) * s == y - c;
    assert (f.Apply(y) - f.Apply(x)) * s == y - x;
  }

  /** A min-max scaler with distinct bounds keeps the order of its inputs strictly. */
  lemma MinMaxStrictlyIncreasing(values: seq<real>, minMaxNorm: bool, num: Numerics, x: real, y: real)
    requires |values| > 0
    requires MinMaxNormalize(values, minMaxNorm, num).min != MinMaxNormalize(values, minMaxNorm, num).max
    requires x < y
    ensures MinMaxNormalize(values, minMaxNorm, num).func.Apply(x) < MinMaxNormalize(values, minMaxNorm, num).func.Apply(y)
  {
    AffineIncreasing(MinMaxNormalize(values, minMaxNorm, num).func, x, y);
  }

  /**
   * Values between the bounds land in `[0, 1]`; values beyond them are not
   * clamped and land outside it.
   */
  lemma MinMaxRange(values: seq<real>, minMaxNorm: bool, num: Numerics, x: real)
    requires |values| > 0
    requires MinMaxNormalize(values, minMaxNorm, num).min != MinMaxNormalize(values, minMaxNorm, num).max
    ensures var r := MinMaxNormalize(values, minMaxNorm, num);
      && (r.min <= x <= r.max ==> 0.0 <= r.func.Apply(x) <= 1.0)
      && (x < r.min ==> r.func.Apply(x) < 0.0)
      && (r.max < x ==> 1.0 < r.func.Apply(x))
  {
    var r := MinMaxNormalize(values, minMaxNorm, num);
    if r.min < x {
      AffineIncreasing(r.func, r.min, x);
    } else if x < r.min {
      AffineIncreasing(r.func, x, r.min);
    }
    if x < r.max {
      AffineIncreasing(r.func, x, r.max);
    } else if r.max < x {
      AffineIncreasing(r.func, r.max, x);
    }
  }

  // ---------------------------------------------------------------------
  // Annotators

  /** The exceptions the annotators raise. */
  datatype NormError =
    | KeyError(index: nat, key: string)   // item `index` lacks attribute `key`
    | TypeError(index: nat, key: string)  // its value is neither an int nor a float
    | ValueError(normType: string)        // unsupported normalisation type
    | EmptyPopulation                     // `min()` or `np.percentile` of an empty list

  /** The first item, from `from` on, whose `key` is missing or not a number. */
  function FirstInvalid(ms: seq<map<string, Value>>, key: string, from: nat): (r: Option<NormError>)
    requires from <= |ms|
    decreases |ms| - from
    ensures r.None? <==> forall i | from <= i < |ms| :: HasNumber(ms[i], key)
    ensures r.Some? ==>
      && (r.value.KeyError? || r.value.TypeError?)
      && r.value.key == key
      && from <= r.value.index < |ms|
      && !HasNumber(ms[r.value.index], key)
      && (r.value.KeyError? <==> key !in ms[r.value.index])
      && forall i | from <= i < r.value.index :: HasNumber(ms[i], key)
  {
    if from == |ms| then None
    else if key !in ms[from] then Some(KeyError(from, key))
    else if !IsNumber(ms[from][key]) then Some(TypeError(from, key))
    else FirstInvalid(ms, key, from + 1)
  }

  /** The error `add_normalized_attr` raises, if any, before it writes anything. */
  function NormalizeError(ms: seq<map<string, Value>>, srcAttr: string, normType: string): (r: Option<NormError>)
    ensures r.None? <==>
      && (forall i | 0 <= i < |ms| :: HasNumber(ms[i], srcAttr))
      && (normType == "min-max" || normType == "z-score")
      && (normType == "min-max" ==> |ms| > 0)
    ensures FirstInvalid(ms, srcAttr, 0).Some? ==> r == FirstInvalid(ms, srcAttr, 0)
    ensures r == Some(ValueError(normType)) <==>
      FirstInvalid(ms, srcAttr, 0).None? && normType != "min-max" && normType != "z-score"
    ensures r == Some(EmptyPopulation) <==> normType == "min-max" && |ms| == 0
  {
    match FirstInvalid(ms, srcAttr, 0)
    case Some(e) => Some(e)
    case None =>
      if normType != "min-max" && normType != "z-score" then Some(ValueError(normType))
      else if normType == "min-max" && |ms| == 0 then Some(EmptyPopulation)
      else None
  }

  /**
   * `f` sends the population's reference points to 0 and 1: the bounds
   * for min-max, the mean and one deviation above it for z-score; it is
   * constantly 0 when those points meet or the population is empty.
   */
  ghost predicate Calibrated(values: seq<real>, normType: string, minMaxNorm: bool, num: Numerics, f: Scaler)
    requires normType == "min-max" ==> |values| > 0
  {
    && (normType == "min-max" ==> var m := MinMaxNormalize(values, minMaxNorm, num);
         && (m.min == m.max ==> forall x :: f.Apply(x) == 0.0)
         && (m.min != m.max ==> f.Apply(m.min) == 0.0 && f.Apply(m.max) == 1.0))
    && (normType != "min-max" && |values| == 0 ==> forall x :: f.Apply(x) == 0.0)
    && (normType != "min-max" && |values| > 0 ==> var z := ZScoreNormalize(values, num);
         && (z.std == 0.0 ==> forall x :: f.Apply(x) == 0.0)
         && (z.std != 0.0 ==> f.Apply(z.mean) == 0.0 && f.Apply(z.mean + z.std) == 1.0))
  }

  /** The scaler `add_normalized_attr` builds from the population. */
  function ChooseScaler(values: seq<real>, normType: string, minMaxNorm: bool, num: Numerics): Scaler
    requires normType == "min-max" ==> |values| > 0
  {
    if normType == "min-max" then MinMaxNormalize(values, minMaxNorm, num).func
    else if |values| == 0 then Zero
    else ZScoreNormalize(values, num).func
  }

  /** The scaler chosen for a population is calibrated on it. */
  lemma ChooseScalerCalibrated(values: seq<real>, normType: string, minMaxNorm: bool, num: Numerics)
    requires normType == "min-max" ==> |values| > 0
    ensures Calibrated(values, normType, minMaxNorm, num, ChooseScaler(values, normType, minMaxNorm, num))
  {
  }

  /** One item after step 3 of `add_normalized_attr`. */
  function NormalizedItem(m: map<string, Value>, srcAttr: string, newAttr: string, f: Scaler, num: Numerics): map<string, Value>
    requires HasNumber(m, srcAttr)
  {
    m[newAttr := Float(num.round(f.Apply(AsReal(m[srcAttr])), 4))]
  }

  /**
   * Step 1 of `add_normalized_attr`: collects the values under `srcAttr`,
   * stopping at the first item that lacks it or holds a non-number.
   */
  method CollectNumbers(dataList: seq<Dict>, srcAttr: string) returns (r: Result<seq<real>, NormError>)
    ensures r.Failure? <==> FirstInvalid(Contents(dataList), srcAttr, 0).Some?
    ensures r.Failure? ==> FirstInvalid(Contents(dataList), srcAttr, 0) == Some(r.error)
    ensures r.Success? ==> r.value == Numbers(Contents(dataList), srcAttr)
  {
    ghost var ms := Contents(dataList);
    var srcValues: seq<real> := [];
    for idx := 0 to |dataList|
      invariant |srcValues| == idx
      invariant forall j | 0 <= j < idx :: HasNumber(ms[j], srcAttr) && srcValues[j] == AsReal(ms[j][srcAttr])
    {
      var item := dataList[idx];
      if srcAttr !in item.entries {
        return Failure(KeyError(idx, srcAttr));
      }
      if !IsNumber(item.entries[srcAttr]) {
        return Failure(TypeError(idx, srcAttr));
      }
      srcValues := srcValues + [AsReal(item.entries[srcAttr])];
    }
    return Success(srcValues);
  }

  /** Step 3 of `add_normalized_attr`: writes the rounded scaled value into every dict. */
  method WriteScaled(dataList: seq<Dict>, srcAttr: string, newAttr: string, f: Scaler, num: Numerics)
    requires Distinct(dataList)
    requires forall i | 0 <= i < |dataList| :: HasNumber(dataList[i].entries, srcAttr)
    modifies set d | d in dataList
    ensures forall i | 0 <= i < |dataList| ::
      dataList[i].entries == NormalizedItem(old(dataList[i].entries), srcAttr, newAttr, f, num)
  {
    for i := 0 to |dataList|
      invariant forall j | 0 <= j < i :: dataList[j].entries == NormalizedItem(old(dataList[j].entries), srcAttr, newAttr, f, num)
      invariant forall j | i <= j < |dataList| :: dataList[j].entries == old(dataList[j].entries)
    {
      var item := dataList[i];
      var v := f.Apply(AsReal(item.entries[srcAttr]));
      item.entries := item.entries[newAttr := Float(v)];
      item.entries := item.entries[newAttr := Float(num.round(AsReal(item.entries[newAttr]), 4))];
    }
  }

  /**
   * Checks every item, then chooses the scaler, and only then writes the
   * rounded scaled value under `newAttr` into each dict.
   */
  method AddNormalizedAttr(dataList: seq<Dict>, srcAttr: string, newAttr: string, normType: string,
                           minMaxNorm: bool, num: Numerics)
    returns (err: Option<NormError>)
    requires Distinct(dataList)
    modifies set d | d in dataList
    ensures err == NormalizeError(old(Contents(dataList)), srcAttr, normType)
    ensures err.Some? ==> Contents(dataList) == old(Contents(dataList))
    ensures err.None? ==>
      && (forall i | 0 <= i < |dataList| :: HasNumber(old(dataList[i].entries), srcAttr))
      && var f := ChooseScaler(Numbers(old(Contents(dataList)), srcAttr), normType, minMaxNorm, num);
         forall i | 0 <= i < |dataList| ::
           dataList[i].entries == NormalizedItem(old(dataList[i].entries), srcAttr, newAttr, f, num)
  {
    var collected := CollectNumbers(dataList, srcAttr);
    if collected.Failure? {
      return Some(collected.error);
    }
    var srcValues := collected.value;

    var f: Scaler;
    if normType == "min-max" {
      if |srcValues| == 0 {
        return Some(EmptyPopulation);
      }
      f := MinMaxNormalize(srcValues, minMaxNorm, num).func;
    } else if normType == "z-score" {
      f := if |srcValues| == 0 then Zero else ZScoreNormalize(srcValues, num).func;
    } else {
      return Some(ValueError(normType));
    }

    WriteScaled(dataList, srcAttr, newAttr, f, num);
    err := None;
  }

  /** `round(v1 * w1 + v2 * w2, 2)`. */
  function WeightedSum(v1: real, v2: real, w1: real, w2: real, num: Numerics): real {
    num.round(v1 * w1 + v2 * w2, 2)
  }

  /** The checks `add_weighted_sum_attr` makes on item `idx`, in their order. */
  function CheckPair(m: map<string, Value>, idx: nat, attr1: string, attr2: string): (r: Option<NormError>)
    ensures r.None? <==> HasNumber(m, attr1) && HasNumber(m, attr2)
    ensures r.Some? ==> (r.value.KeyError? || r.value.TypeError?) && r.value.index == idx
    ensures r.Some? ==> (r.value.KeyError? <==> attr1 !in m || attr2 !in m)
    ensures r.Some? && r.value.KeyError? ==> r.value.key == (if attr1 !in m then attr1 else attr2)
    ensures r.Some? && r.value.TypeError? ==> r.value.key == (if !IsNumber(m[attr1]) then attr1 else attr2)
  {
    if attr1 !in m then Some(KeyError(idx, attr1))
    else if attr2 !in m then Some(KeyError(idx, attr2))
    else if !IsNumber(m[attr1]) then Some(TypeError(idx, attr1))
    else if !IsNumber(m[attr2]) then Some(TypeError(idx, attr2))
    else None
  }

  /** One item after `add_weighted_sum_attr` wrote it. */
  function WeightedItem(m: map<string, Value>, attr1: string, attr2: string, w1: real, w2: real,
                        newAttr: string, num: Numerics): map<string, Value>
    requires HasNumber(m, attr1) && HasNumber(m, attr2)
  {
    m[newAttr := Float(WeightedSum(AsReal(m[attr1]), AsReal(m[attr2]), w1, w2, num))]
  }

  /** The contents of the list after a run of the annotator, and what it raised. */
  datatype Pass = Pass(out: seq<map<string, Value>>, err: Option<NormError>)

  /** Where a pass stopped: the failing index, or the end of the list. */
  function Stop(p: Pass, n: nat): nat {
    if p.err.Some? && (p.err.value.KeyError? || p.err.value.TypeError?) then p.err.value.index else n
  }

  /**
   * `add_weighted_sum_attr` from item `from` on: each item is checked and
   * then written, so the items before a failing one are already written.
   */
  function WeightedFrom(ms: seq<map<string, Value>>, attr1: string, attr2: string, w1: real, w2: real,
                        newAttr: string, num: Numerics, from: nat): (p: Pass)
    requires from <= |ms|
    decreases |ms| - from
    ensures |p.out| == |ms|
    ensures from <= Stop(p, |ms|) <= |ms|
    ensures p.err.Some? ==> Stop(p, |ms|) < |ms| && p.err == CheckPair(ms[Stop(p, |ms|)], Stop(p, |ms|), attr1, attr2)
    ensures forall j | 0 <= j < |ms| ::
      if from <= j < Stop(p, |ms|)
      then HasNumber(ms[j], attr1) && HasNumber(ms[j], attr2) &&
           p.out[j] == WeightedItem(ms[j], attr1, attr2, w1, w2, newAttr, num)
      else p.out[j] == ms[j]
  {
    if from == |ms| then Pass(ms, None)
    else
      match CheckPair(ms[from], from, attr1, attr2)
      case Some(e) => Pass(ms, Some(e))
      case None =>
        var m := WeightedItem(ms[from], attr1, attr2, w1, w2, newAttr, num);
        var next := ms[from := m];
        assert forall j | 0 <= j < |ms| && j != from :: next[j] == ms[j];
        WeightedFrom(next, attr1, attr2, w1, w2, newAttr, num, from + 1)
  }

  /**
   * Checks and writes item by item: on an error the items before the
   * failing one already carry `newAttr`.
   */
  method AddWeightedSumAttr(dataList: seq<Dict>, attr1: string, attr2: string, weight1: real, weight2: real,
                            newAttr: string, num: Numerics)
    returns (err: Option<NormError>)
    requires Distinct(dataList)
    modifies set d | d in dataList
    ensures var p := WeightedFrom(old(Contents(dataList)), attr1, attr2, weight1, weight2, newAttr, num, 0);
      Contents(dataList) == p.out && err == p.err
  {
    ghost var goal := WeightedFrom(Contents(dataList), attr1, attr2, weight1, weight2, newAttr, num, 0);
    for idx := 0 to |dataList|
      invariant WeightedFrom(Contents(dataList), attr1, attr2, weight1, weight2, newAttr, num, idx) == goal
    {
      var item := dataList[idx];
      ghost var before := Contents(dataList);
      var check := CheckPair(item.entries, idx, attr1, attr2);
      if check.Some? {
        return check;
      }
      var val1 := AsReal(item.entries[attr1]);
      var val2 := AsReal(item.entries[attr2]);
      var weightedSum := WeightedSum(val1, val2, weight1, weight2, num);
      item.entries := item.entries[newAttr := Float(weightedSum)];
      assert item.entries == WeightedItem(before[idx], attr1, attr2, weight1, weight2, newAttr, num);
      assert forall j | 0 <= j < |dataList| && j != idx :: dataList[j].entries == before[j];
      assert Contents(dataList) == before[idx := WeightedItem(before[idx], attr1, attr2, weight1, weight2, newAttr, num)];
    }
    err := None;
  }

  /**
   * Swapping the (attribute, weight) pairs changes neither what is written
   * nor where the pass stops.
   */
  lemma {:induction false} WeightedFromSymmetric(ms: seq<map<string, Value>>, attr1: string, attr2: string,
                                                 w1: real, w2: real, newAttr: string, num: Numerics, from: nat)
    requires from <= |ms|
    decreases |ms| - from
    ensures var p := WeightedFrom(ms, attr1, attr2, w1, w2, newAttr, num, from);
            var q := WeightedFrom(ms, attr2, attr1, w2, w1, newAttr, num, from);
            p.out == q.out && p.err.Some? == q.err.Some? && Stop(p, |ms|) == Stop(q, |ms|)
  {
    if from < |ms| {
      var c := CheckPair(ms[from], from, attr1, attr2);
      if c.None? {
        var m := WeightedItem(ms[from], attr1, attr2, w1, w2, newAttr, num);
        var v1, v2 := AsReal(ms[from][attr1]), AsReal(ms[from][attr2]);
        assert WeightedSum(v1, v2, w1, w2, num) == WeightedSum(v2, v1, w2, w1, num) by {
          assert v1 * w1 + v2 * w2 == v2 * w2 + v1 * w1;
        }
        assert m == WeightedItem(ms[from], attr2, attr1, w2, w1, newAttr, num);
        WeightedFromSymmetric(ms[from := m], attr1, attr2, w1, w2, newAttr, num, from + 1);
      }
    }
  }
}
