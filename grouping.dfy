/**
 * The steps of the recommendation engine's constructor
 * (algorithm/suggest.py, `Suggest.__init__`): records without data are
 * dropped, every remaining record is tagged with its augment's level and
 * name and put in the bucket of its level, and each bucket is scored and
 * ranked.
 */
module Grouping {
  import opened Wrappers
  import opened Dicts
  import opened Norm
  import opened Ordering

  /** The `performance` value the data source uses for "no data". */
  const NoDataPerformance: real := 170.0
  const PerformanceWeight: real := 0.7
  const PopularWeight: real := 0.3

  // ---------------------------------------------------------------------
  // Filtering

  /** A record as the data source delivers it. */
  predicate RawRecord(m: map<string, Value>) {
    "id" in m && HasNumber(m, "performance") && HasNumber(m, "popular")
  }

  /** `item["performance"] != 170 and item["popular"] != 0`. */
  predicate Survives(m: map<string, Value>): (b: bool)
    ensures b ==> "performance" in m && "popular" in m
    ensures HasNumber(m, "performance") && HasNumber(m, "popular") ==>
      (b <==> AsReal(m["performance"]) != NoDataPerformance && AsReal(m["popular"]) != 0.0)
  {
    "performance" in m && "popular" in m &&
    !EqualsNumber(m["performance"], NoDataPerformance) && !EqualsNumber(m["popular"], 0.0)
  }

  /** The list comprehension that keeps the records with data, in input order. */
  function Kept(raw: seq<Dict>): (kept: seq<Dict>)
    reads set d | d in raw
    ensures |kept| <= |raw|
    ensures forall j | 0 <= j < |kept| :: kept[j] in raw && Survives(kept[j].entries)
    ensures forall i | 0 <= i < |raw| && Survives(raw[i].entries) :: raw[i] in kept
    ensures Distinct(raw) ==> Distinct(kept)
  {
    if raw == [] then []
    else
      var n := |raw| - 1;
      var front := Kept(raw[..n]);
      assert forall j | 0 <= j < |front| :: front[j] in raw[..n];
      if Survives(raw[n].entries) then front + [raw[n]] else front
  }

  /** The positions of the records with data, in increasing order. */
  ghost function SurvivorPositions(raw: seq<Dict>): (ps: seq<nat>)
    reads set d | d in raw
    ensures forall j | 0 <= j < |ps| :: ps[j] < |raw|
    ensures forall j, k | 0 <= j < k < |ps| :: ps[j] < ps[k]
    ensures forall i | 0 <= i < |raw| :: i in ps <==> Survives(raw[i].entries)
  {
    if raw == [] then []
    else
      var n := |raw| - 1;
      var front := SurvivorPositions(raw[..n]);
      assert forall i | 0 <= i < n :: i in front <==> Survives(raw[i].entries) by {
        forall i | 0 <= i < n ensures raw[..n][i] == raw[i] { }
      }
      assert n !in front;
      front + (if Survives(raw[n].entries) then [n] else [])
  }

  /**
   * The comprehension keeps the input order: the kept records are the
   * input read at the increasing positions of the records with data.
   */
  lemma {:induction false} KeptInOrder(raw: seq<Dict>)
    ensures |Kept(raw)| == |SurvivorPositions(raw)|
    ensures forall j | 0 <= j < |Kept(raw)| :: Kept(raw)[j] == raw[SurvivorPositions(raw)[j]]
  {
    if raw != [] {
      var n := |raw| - 1;
      KeptInOrder(raw[..n]);
      ReadAtLast(raw, Kept(raw[..n]), SurvivorPositions(raw[..n]), Survives(raw[n].entries));
    }
  }

  /**
   * A selection of all but the last element read at its positions,
   * followed by the last element when `last` holds, is `xs` read at the
   * extended positions.
   */
  lemma ReadAtLast<T>(xs: seq<T>, front: seq<T>, ps: seq<nat>, last: bool)
    requires xs != [] && |front| == |ps|
    requires forall j | 0 <= j < |ps| :: ps[j] < |xs| - 1 && front[j] == xs[..|xs| - 1][ps[j]]
    ensures var r, qs := front + (if last then [xs[|xs| - 1]] else []), ps + (if last then [|xs| - 1] else []);
      |r| == |qs| && forall j | 0 <= j < |qs| :: qs[j] < |xs| && r[j] == xs[qs[j]]
  {
  }

  // ---------------------------------------------------------------------
  // Tagging and grouping

  /** What `augment_tool.get_augment_info` tells about an augment. */
  datatype AugmentInfo = AugmentInfo(level: Value, name: Value)

  /**
   * The lookups the engine borrows: Python's `str()` of an id,
   * `augment_tool.get_augment_info` and `augment_tool.get_augment_id`.
   */
  datatype Catalog = Catalog(text: Value -> string, info: string -> AugmentInfo, idOf: string -> string)

  /** `str(item["id"])`. */
  function IdText(m: map<string, Value>, cat: Catalog): string
    requires "id" in m
  {
    cat.text(m["id"])
  }

  function Info(m: map<string, Value>, cat: Catalog): AugmentInfo
    requires "id" in m
  {
    cat.info(IdText(m, cat))
  }

  /** A record after the constructor wrote its `level` and `name`. */
  function Tagged(m: map<string, Value>, cat: Catalog): map<string, Value>
    requires "id" in m
  {
    var info := Info(m, cat);
    m["level" := info.level]["name" := info.name]
  }

  /** Tagging adds the augment's level and name and leaves every other entry as it was. */
  lemma TaggedEntries(m: map<string, Value>, cat: Catalog)
    requires "id" in m
    ensures Tagged(m, cat).Keys == m.Keys + {"level", "name"}
    ensures Tagged(m, cat)["level"] == Info(m, cat).level && Tagged(m, cat)["name"] == Info(m, cat).name
    ensures forall k | k in m && k != "level" && k != "name" :: Tagged(m, cat)[k] == m[k]
  {
  }

  /** The level of every record, in list order. */
  function Levels(ms: seq<map<string, Value>>, cat: Catalog): (ls: seq<Value>)
    requires forall i | 0 <= i < |ms| :: "id" in ms[i]
    ensures |ls| == |ms|
    ensures forall i | 0 <= i < |ms| :: "id" in ms[i] && ls[i] == Info(ms[i], cat).level
  {
    seq(|ms|, i requires 0 <= i < |ms| && "id" in ms[i] => Info(ms[i], cat).level)
  }

  /** The positions holding level `l`, in increasing order. */
  function Positions(ls: seq<Value>, l: Value): (ps: seq<nat>)
    ensures forall j | 0 <= j < |ps| :: ps[j] < |ls| && ls[ps[j]] == l
    ensures forall j, k | 0 <= j < k < |ps| :: ps[j] < ps[k]
    ensures forall i | 0 <= i < |ls| && ls[i] == l :: i in ps
  {
    if ls == [] then []
    else
      var n := |ls| - 1;
      Positions(ls[..n], l) + (if ls[n] == l then [n] else [])
  }

  /** The records of level `l`, in input order. */
  function Select<T>(xs: seq<T>, ls: seq<Value>, l: Value): seq<T>
    requires |xs| == |ls|
  {
    if xs == [] then []
    else
      var n := |xs| - 1;
      Select(xs[..n], ls[..n], l) + (if ls[n] == l then [xs[n]] else [])
  }

  /** The selection of `l` is the list read at the positions holding `l`, in order. */
  lemma {:induction false} SelectAtPositions<T>(xs: seq<T>, ls: seq<Value>, l: Value)
    requires |xs| == |ls|
    ensures |Select(xs, ls, l)| == |Positions(ls, l)|
    ensures forall j | 0 <= j < |Select(xs, ls, l)| :: Select(xs, ls, l)[j] == xs[Positions(ls, l)[j]]
  {
    if xs != [] {
      var n := |xs| - 1;
      SelectAtPositions(xs[..n], ls[..n], l);
      assert xs[..n] + [xs[n]] == xs;
    }
  }

  /** Record `i` is in the selection of `l` exactly when its level is `l`. */
  lemma SelectMembership(xs: seq<Dict>, ls: seq<Value>, l: Value, i: nat)
    requires |xs| == |ls| && i < |xs| && Distinct(xs)
    ensures xs[i] in Select(xs, ls, l) <==> ls[i] == l
  {
    var r := Select(xs, ls, l);
    var ps := Positions(ls, l);
    SelectAtPositions(xs, ls, l);
    if ls[i] == l {
      var j :| 0 <= j < |ps| && ps[j] == i;
      assert r[j] == xs[i];
    }
    if xs[i] in r {
      var j :| 0 <= j < |r| && r[j] == xs[i];
      assert xs[ps[j]] == xs[i];
    }
  }

  /** A selection holds no record twice, and only records of the list. */
  lemma SelectDistinct(xs: seq<Dict>, ls: seq<Value>, l: Value)
    requires |xs| == |ls| && Distinct(xs)
    ensures Distinct(Select(xs, ls, l))
    ensures forall j | 0 <= j < |Select(xs, ls, l)| :: Select(xs, ls, l)[j] in xs
  {
    var r := Select(xs, ls, l);
    var ps := Positions(ls, l);
    SelectAtPositions(xs, ls, l);
    forall j, k | 0 <= j < k < |r| ensures r[j] != r[k] {
      assert ps[j] < ps[k];
    }
  }

  /**
   * `g` holds the buckets of `xs` by level: one per level that occurs,
   * holding the records of that level in input order.
   */
  ghost predicate Buckets(g: map<Value, seq<Dict>>, xs: seq<Dict>, ls: seq<Value>)
    requires |xs| == |ls|
  {
    && (forall l :: l in g <==> l in ls)
    && (forall l | l in g :: g[l] == Select(xs, ls, l))
  }

  /** A level that does not occur selects nothing. */
  lemma SelectAbsent(xs: seq<Dict>, ls: seq<Value>, l: Value)
    requires |xs| == |ls| && l !in ls
    ensures Select(xs, ls, l) == []
  {
    SelectAtPositions(xs, ls, l);
  }

  /** Appending a record to the list appends it to the selection of its level. */
  lemma SelectAppend(xs: seq<Dict>, ls: seq<Value>, x: Dict, l0: Value, l: Value)
    requires |xs| == |ls|
    ensures Select(xs + [x], ls + [l0], l) == Select(xs, ls, l) + (if l0 == l then [x] else [])
  {
    var xs1, ls1 := xs + [x], ls + [l0];
    assert xs1[..|xs|] == xs && ls1[..|ls|] == ls;
  }

  /** Appending a record appends it to the bucket of its level and to no other. */
  lemma BucketsAppend(g: map<Value, seq<Dict>>, xs: seq<Dict>, ls: seq<Value>, x: Dict, l0: Value)
    requires |xs| == |ls| && Buckets(g, xs, ls)
    ensures Buckets(g[l0 := (if l0 in g then g[l0] else []) + [x]], xs + [x], ls + [l0])
  {
    var h := g[l0 := (if l0 in g then g[l0] else []) + [x]];
    assert forall l :: l in ls + [l0] <==> l in ls || l == l0;
    forall l | l in h ensures h[l] == Select(xs + [x], ls + [l0], l) {
      SelectAppend(xs, ls, x, l0, l);
      if l == l0 && l0 !in ls {
        SelectAbsent(xs, ls, l0);
      }
    }
  }

  /** Writes `level` and `name` into one record and returns the level. */
  method TagRecord(item: Dict, cat: Catalog) returns (level: Value)
    requires "id" in item.entries
    modifies item
    ensures item.entries == Tagged(old(item.entries), cat)
    ensures level == Info(old(item.entries), cat).level
  {
    var info := Info(item.entries, cat);
    level := info.level;
    item.entries := item.entries["level" := level];
    item.entries := item.entries["name" := info.name];
  }

  /**
   * The first loop of the constructor: writes `level` and `name` into each
   * kept record and appends it to the bucket of its level.
   */
  method TagAndGroup(kept: seq<Dict>, ghost before: seq<map<string, Value>>, cat: Catalog)
      returns (groups: map<Value, seq<Dict>>)
    requires Distinct(kept) && Contents(kept) == before
    requires forall i | 0 <= i < |before| :: "id" in before[i]
    modifies set d | d in kept
    ensures forall i | 0 <= i < |kept| :: kept[i].entries == Tagged(before[i], cat)
    ensures Buckets(groups, kept, Levels(before, cat))
  {
    ghost var ls := Levels(before, cat);
    groups := map[];
    for i := 0 to |kept|
      invariant forall j | 0 <= j < i :: kept[j].entries == Tagged(before[j], cat)
      invariant forall j | i <= j < |kept| :: kept[j].entries == before[j]
      invariant Buckets(groups, kept[..i], ls[..i])
    {
      var item := kept[i];
      var level := TagRecord(item, cat);
      assert level == ls[i];
      ghost var prefix, levels := kept[..i], ls[..i];
      assert kept[..i + 1] == prefix + [item] && ls[..i + 1] == levels + [level];
      BucketsAppend(groups, prefix, levels, item, level);
      if level !in groups {
        groups := groups[level := []];
      }
      groups := groups[level := groups[level] + [item]];
    }
    assert kept[..|kept|] == kept;
    assert ls[..|kept|] == ls;
  }

  // ---------------------------------------------------------------------
  // Scoring and ranking one bucket

  predicate Scorable(m: map<string, Value>) {
    HasNumber(m, "performance") && HasNumber(m, "popular")
  }

  /** A bucket member after the three annotators ran on its bucket. */
  function Scored(m: map<string, Value>, fPerf: Scaler, fPop: Scaler, num: Numerics): (r: map<string, Value>)
    requires Scorable(m)
    ensures HasNumber(r, "weighted_sum")
  {
    var m1 := NormalizedItem(m, "performance", "performance_norm", fPerf, num);
    var m2 := NormalizedItem(m1, "popular", "popular_norm", fPop, num);
    WeightedItem(m2, "performance_norm", "popular_norm", PerformanceWeight, PopularWeight, "weighted_sum", num)
  }

  /** Robust min-max scaling of `performance` over the bucket. */
  function PerformanceScaler(ms: seq<map<string, Value>>, num: Numerics): Scaler
    requires |ms| > 0 && forall i | 0 <= i < |ms| :: Scorable(ms[i])
  {
    assert forall i | 0 <= i < |ms| :: HasNumber(ms[i], "performance") by {
      forall i | 0 <= i < |ms| ensures HasNumber(ms[i], "performance") { assert Scorable(ms[i]); }
    }
    ChooseScaler(Numbers(ms, "performance"), "min-max", true, num)
  }

  /** Plain min-max scaling of `popular` over the bucket. */
  function PopularScaler(ms: seq<map<string, Value>>, num: Numerics): Scaler
    requires |ms| > 0 && forall i | 0 <= i < |ms| :: Scorable(ms[i])
  {
    assert forall i | 0 <= i < |ms| :: HasNumber(ms[i], "popular") by {
      forall i | 0 <= i < |ms| ensures HasNumber(ms[i], "popular") { assert Scorable(ms[i]); }
    }
    ChooseScaler(Numbers(ms, "popular"), "min-max", false, num)
  }

  /** The whole bucket after the three annotators, in bucket order. */
  function ScoredAll(ms: seq<map<string, Value>>, fPerf: Scaler, fPop: Scaler, num: Numerics): (r: seq<map<string, Value>>)
    requires forall i | 0 <= i < |ms| :: Scorable(ms[i])
    ensures |r| == |ms|
    ensures forall i | 0 <= i < |ms| :: Scorable(ms[i]) && r[i] == Scored(ms[i], fPerf, fPop, num)
  {
    seq(|ms|, i requires 0 <= i < |ms| && Scorable(ms[i]) => Scored(ms[i], fPerf, fPop, num))
  }

  function Score(m: map<string, Value>): real
    requires HasNumber(m, "weighted_sum")
  {
    AsReal(m["weighted_sum"])
  }

  /** The sort keys, `x["weighted_sum"]` for each element. */
  function Scores(ms: seq<map<string, Value>>): (ks: seq<real>)
    requires forall i | 0 <= i < |ms| :: HasNumber(ms[i], "weighted_sum")
    ensures |ks| == |ms|
    ensures forall i | 0 <= i < |ms| :: HasNumber(ms[i], "weighted_sum") && ks[i] == Score(ms[i])
  {
    seq(|ms|, i requires 0 <= i < |ms| && HasNumber(ms[i], "weighted_sum") => Score(ms[i]))
  }

  /** A record after the ranking loop wrote its place. */
  function Ranked(m: map<string, Value>, rank: nat, size: nat): map<string, Value> {
    m["rank" := Int(rank)]["group_size" := Int(size)]
  }

  /** The bucket after the three annotator calls of the constructor. */
  function BucketScores(before: seq<map<string, Value>>, num: Numerics): (scored: seq<map<string, Value>>)
    requires |before| > 0 && forall i | 0 <= i < |before| :: Scorable(before[i])
    ensures |scored| == |before|
    ensures forall i | 0 <= i < |scored| :: HasNumber(scored[i], "weighted_sum")
  {
    ScoredAll(before, PerformanceScaler(before, num), PopularScaler(before, num), num)
  }

  /**
   * Sorting and ranking a bucket whose contents are `scored`: `order` is
   * the bucket `members` in stable descending `weighted_sum` order,
   * `sorted` lists the dicts in that order and `final` holds their
   * contents once each has its rank and the bucket size written.
   */
  ghost predicate RankedBy(members: seq<Dict>, scored: seq<map<string, Value>>, order: seq<Keyed<Dict>>,
                           sorted: seq<Dict>, final: seq<map<string, Value>>)
  {
    && |scored| == |members|
    && (forall i | 0 <= i < |scored| :: HasNumber(scored[i], "weighted_sum"))
    && order == SortDesc(members, Scores(scored))
    && |sorted| == |order| && |final| == |order|
    && forall j {:trigger order[j]} | 0 <= j < |order| ::
         sorted[j] == order[j].item && final[j] == Ranked(scored[order[j].pos], j + 1, |members|)
  }

  /**
   * One bucket through the whole second loop of the constructor: its
   * contents `before` are scored (`BucketScores`), then ranked as in
   * `RankedBy`. Stated position by position.
   */
  ghost predicate GroupRanked(members: seq<Dict>, before: seq<map<string, Value>>, num: Numerics,
                              order: seq<Keyed<Dict>>, sorted: seq<Dict>, final: seq<map<string, Value>>)
  {
    && 0 < |members| == |before| == |order| == |sorted| == |final|
    && (forall i | 0 <= i < |before| :: Scorable(before[i]))
    && forall j {:trigger order[j]} | 0 <= j < |order| ::
         var scored := BucketScores(before, num);
         && order[j] == SortDesc(members, Scores(scored))[j]
         && sorted[j] == order[j].item
         && final[j] == Ranked(scored[order[j].pos], j + 1, |members|)
  }

  predicate SameMembers(a: seq<Dict>, b: seq<Dict>) {
    (forall i | 0 <= i < |a| :: a[i] in b) && (forall j | 0 <= j < |b| :: b[j] in a)
  }

  /** The attribute names the scoring steps read and write are pairwise different. */
  lemma KeysDiffer()
    ensures "performance" != "performance_norm" && "performance" != "popular_norm" && "performance" != "weighted_sum"
    ensures "popular" != "performance_norm" && "popular" != "popular_norm" && "popular" != "weighted_sum"
    ensures "performance_norm" != "popular_norm" && "performance_norm" != "weighted_sum" && "popular_norm" != "weighted_sum"
  {
  }

  /** The three writes of the scoring steps reach `Scored`, each finding the keys it reads. */
  predicate ScoreSteps(m: map<string, Value>, fPerf: Scaler, fPop: Scaler, num: Numerics)
    requires Scorable(m)
  {
    var m1 := NormalizedItem(m, "performance", "performance_norm", fPerf, num);
    && HasNumber(m1, "popular") && m1["popular"] == m["popular"]
    && var m2 := NormalizedItem(m1, "popular", "popular_norm", fPop, num);
       && HasNumber(m2, "performance_norm") && HasNumber(m2, "popular_norm")
       && WeightedItem(m2, "performance_norm", "popular_norm", PerformanceWeight, PopularWeight, "weighted_sum", num)
          == Scored(m, fPerf, fPop, num)
  }

  lemma ScoredInSteps(m: map<string, Value>, fPerf: Scaler, fPop: Scaler, num: Numerics)
    requires Scorable(m)
    ensures ScoreSteps(m, fPerf, fPop, num)
  {
  }

  /** `add_normalized_attr(group, src, dst, "min-max", robust)` on a bucket whose values are all numbers. */
  method NormalizeBucket(group: seq<Dict>, src: string, dst: string, robust: bool, num: Numerics)
    requires |group| > 0 && Distinct(group)
    requires forall i | 0 <= i < |group| :: HasNumber(group[i].entries, src)
    modifies set d | d in group
    ensures forall i | 0 <= i < |group| ::
      group[i].entries == NormalizedItem(old(group[i].entries), src, dst,
                                         ChooseScaler(Numbers(old(Contents(group)), src), "min-max", robust, num), num)
  {
    var e := AddNormalizedAttr(group, src, dst, "min-max", robust, num);
    assert e == None;
  }

  /** `add_weighted_sum_attr` with the constructor's arguments on a bucket that has both normalised values. */
  method WeighBucket(group: seq<Dict>, num: Numerics)
    requires Distinct(group)
    requires forall i | 0 <= i < |group| ::
      HasNumber(group[i].entries, "performance_norm") && HasNumber(group[i].entries, "popular_norm")
    modifies set d | d in group
    ensures forall i | 0 <= i < |group| ::
      group[i].entries == WeightedItem(old(group[i].entries), "performance_norm", "popular_norm",
                                       PerformanceWeight, PopularWeight, "weighted_sum", num)
  {
    ghost var before := Contents(group);
    var e := AddWeightedSumAttr(group, "performance_norm", "popular_norm", PerformanceWeight, PopularWeight,
                                "weighted_sum", num);
    ghost var p := WeightedFrom(before, "performance_norm", "popular_norm", PerformanceWeight, PopularWeight,
                                "weighted_sum", num, 0);
    assert Stop(p, |before|) == |before|;
  }

  /** Normalising `performance` leaves the `popular` values as they were. */
  lemma PopularUntouched(before: seq<map<string, Value>>, after: seq<map<string, Value>>, f: Scaler, num: Numerics)
    requires |before| == |after|
    requires forall i | 0 <= i < |before| :: HasNumber(before[i], "performance") && HasNumber(before[i], "popular")
    requires forall i | 0 <= i < |before| ::
      after[i] == NormalizedItem(before[i], "performance", "performance_norm", f, num)
    ensures forall i | 0 <= i < |after| :: HasNumber(after[i], "popular")
    ensures Numbers(after, "popular") == Numbers(before, "popular")
  {
    KeysDiffer();
    assert forall i | 0 <= i < |before| :: after[i]["popular"] == before[i]["popular"];
  }

  /** The two `add_normalized_attr` calls of the constructor on one bucket. */
  method NormalizeGroup(group: seq<Dict>, num: Numerics) returns (ghost fPerf: Scaler, ghost fPop: Scaler)
    requires |group| > 0 && Distinct(group)
    requires forall i | 0 <= i < |group| :: Scorable(group[i].entries)
    modifies set d | d in group
    ensures fPerf == PerformanceScaler(old(Contents(group)), num) && fPop == PopularScaler(old(Contents(group)), num)
    ensures forall i | 0 <= i < |group| ::
      Scorable(old(group[i].entries)) &&
      group[i].entries == NormalizedItem(NormalizedItem(old(group[i].entries), "performance", "performance_norm", fPerf, num),
                                         "popular", "popular_norm", fPop, num)
  {
    KeysDiffer();
    ghost var before := Contents(group);
    fPerf := PerformanceScaler(before, num);
    fPop := PopularScaler(before, num);
    NormalizeBucket(group, "performance", "performance_norm", true, num);
    PopularUntouched(before, Contents(group), fPerf, num);
    NormalizeBucket(group, "popular", "popular_norm", false, num);
  }

  /**
   * The three annotator calls on one bucket: `performance` scaled robustly,
   * `popular` plainly, then their 0.7 / 0.3 weighted sum.
   */
  method ScoreGroup(group: seq<Dict>, num: Numerics) returns (ghost fPerf: Scaler, ghost fPop: Scaler)
    requires |group| > 0 && Distinct(group)
    requires forall i | 0 <= i < |group| :: Scorable(group[i].entries)
    modifies set d | d in group
    ensures fPerf == PerformanceScaler(old(Contents(group)), num) && fPop == PopularScaler(old(Contents(group)), num)
    ensures forall i | 0 <= i < |group| ::
      Scorable(old(group[i].entries)) && group[i].entries == Scored(old(group[i].entries), fPerf, fPop, num)
  {
    ghost var before := Contents(group);
    forall i | 0 <= i < |group| ensures ScoreSteps(before[i], PerformanceScaler(before, num), PopularScaler(before, num), num) {
      ScoredInSteps(before[i], PerformanceScaler(before, num), PopularScaler(before, num), num);
    }
    fPerf, fPop := NormalizeGroup(group, num);
    WeighBucket(group, num);
  }

  /** The ranking loop: position `j` of the sorted bucket gets rank `j + 1`. */
  method WriteRanks(sorted: seq<Dict>, groupSize: nat)
    requires Distinct(sorted)
    modifies set d | d in sorted
    ensures forall j | 0 <= j < |sorted| :: sorted[j].entries == Ranked(old(sorted[j].entries), j + 1, groupSize)
  {
    for j := 0 to |sorted|
      invariant forall k | 0 <= k < j :: sorted[k].entries == Ranked(old(sorted[k].entries), k + 1, groupSize)
      invariant forall k | j <= k < |sorted| :: sorted[k].entries == old(sorted[k].entries)
    {
      var item := sorted[j];
      item.entries := item.entries["rank" := Int(j + 1)];
      item.entries := item.entries["group_size" := Int(groupSize)];
    }
  }

  /** Every member of the bucket is in the sorted bucket. */
  lemma SortedHasAll(group: seq<Dict>, keys: seq<real>)
    requires |group| == |keys|
    ensures forall i | 0 <= i < |group| :: group[i] in Items(SortDesc(group, keys))
  {
    var order := SortDesc(group, keys);
    forall i | 0 <= i < |group| ensures group[i] in Items(order) {
      SortDescCovers(group, keys, i);
      var j :| 0 <= j < |order| && order[j].pos == i;
      assert Items(order)[j] == group[i];
    }
  }

  /** The sorted bucket holds no member twice. */
  lemma SortedDistinct(group: seq<Dict>, keys: seq<real>)
    requires |group| == |keys| && Distinct(group)
    ensures Distinct(Items(SortDesc(group, keys)))
  {
    SortDescInjective(group, keys);
  }

  /** Sorting a bucket rearranges it: the same dicts, none twice. */
  lemma SortedPermutes(group: seq<Dict>, keys: seq<real>)
    requires |group| == |keys| && Distinct(group)
    ensures |Items(SortDesc(group, keys))| == |group|
    ensures Distinct(Items(SortDesc(group, keys))) && SameMembers(group, Items(SortDesc(group, keys)))
  {
    SortedHasAll(group, keys);
    SortedDistinct(group, keys);
  }

  /** `sorted(group, key=weighted_sum, reverse=True)` followed by the ranking loop. */
  method SortAndRank(group: seq<Dict>) returns (sorted: seq<Dict>, ghost order: seq<Keyed<Dict>>)
    requires Distinct(group)
    requires forall i | 0 <= i < |group| :: HasNumber(group[i].entries, "weighted_sum")
    modifies set d | d in group
    ensures RankedBy(group, old(Contents(group)), order, sorted, Contents(sorted))
    ensures |sorted| == |group| && Distinct(sorted) && SameMembers(group, sorted)
  {
    var keys := Scores(Contents(group));
    var byScore := SortDesc(group, keys);
    sorted := Items(byScore);
    order := byScore;
    SortedPermutes(group, keys);
    WriteRanks(sorted, |group|);
  }

  /**
   * One iteration of the constructor's second loop: normalise, combine,
   * sort by `weighted_sum` (stable, descending) and write `rank` and
   * `group_size`.
   */
  method RankGroup(group: seq<Dict>, num: Numerics) returns (sorted: seq<Dict>, ghost order: seq<Keyed<Dict>>)
    requires |group| > 0 && Distinct(group)
    requires forall i | 0 <= i < |group| :: Scorable(group[i].entries)
    modifies set d | d in group
    ensures GroupRanked(group, old(Contents(group)), num, order, sorted, Contents(sorted))
    ensures |sorted| == |group| && Distinct(sorted) && SameMembers(group, sorted)
  {
    ghost var before := Contents(group);
    ghost var fPerf, fPop := ScoreGroup(group, num);
    ghost var scored := Contents(group);
    assert scored == BucketScores(before, num);
    sorted, order := SortAndRank(group);
    RankedAfterScoring(group, before, num, scored, order, sorted, Contents(sorted));
  }

  /** Ranking the scored contents of a bucket is what `GroupRanked` describes. */
  lemma RankedAfterScoring(members: seq<Dict>, before: seq<map<string, Value>>, num: Numerics,
                           scored: seq<map<string, Value>>, order: seq<Keyed<Dict>>,
                           sorted: seq<Dict>, final: seq<map<string, Value>>)
    requires |members| > 0 && |before| == |members|
    requires forall i | 0 <= i < |before| :: Scorable(before[i])
    requires scored == BucketScores(before, num)
    requires RankedBy(members, scored, order, sorted, final)
    ensures GroupRanked(members, before, num, order, sorted, final)
  {
  }

  /** A bucket of the engine: its records, best first, and how many there are. */
  datatype Group = Group(augments: seq<Dict>, number: nat)

  /**
   * `owner` maps the dicts of the buckets, and only those, to their
   * bucket's level, so no dict lies in two buckets.
   */
  ghost predicate Owned(buckets: map<Value, seq<Dict>>, owner: map<Dict, Value>) {
    && (forall l, i | l in buckets && 0 <= i < |buckets[l]| :: buckets[l][i] in owner && owner[buckets[l][i]] == l)
    && (forall d | d in owner :: owner[d] in buckets && d in buckets[owner[d]])
  }

  /**
   * One iteration of the second loop, on the bucket of `level` whose
   * contents are `before`: it is scored and ranked, and no dict owned by
   * another level changes.
   */
  method RankLevel(buckets: map<Value, seq<Dict>>, ghost owner: map<Dict, Value>, level: Value,
                   ghost before: seq<map<string, Value>>, num: Numerics)
      returns (sorted: seq<Dict>, ghost order: seq<Keyed<Dict>>, ghost final: seq<map<string, Value>>)
    requires Owned(buckets, owner) && level in buckets
    requires |buckets[level]| > 0 && Distinct(buckets[level])
    requires Contents(buckets[level]) == before && forall i | 0 <= i < |before| :: Scorable(before[i])
    modifies set d | d in buckets[level]
    ensures GroupRanked(buckets[level], before, num, order, sorted, final)
    ensures |sorted| == |final| == |buckets[level]|
    ensures forall j | 0 <= j < |sorted| :: sorted[j] in owner && owner[sorted[j]] == level && sorted[j].entries == final[j]
    ensures forall d | d in owner && owner[d] != level :: d.entries == old(d.entries)
  {
    sorted, order := RankGroup(buckets[level], num);
    final := Contents(sorted);
    forall j | 0 <= j < |sorted| ensures sorted[j] in owner && owner[sorted[j]] == level {
      assert sorted[j] in buckets[level];
    }
  }

  /**
   * The levels in `groups` are visited: each bucket is ranked, with its
   * order and final contents recorded, and its dicts are owned by its level.
   */
  ghost predicate Visited(buckets: map<Value, seq<Dict>>, before: map<Value, seq<map<string, Value>>>,
                          owner: map<Dict, Value>, num: Numerics, groups: map<Value, Group>,
                          orders: map<Value, seq<Keyed<Dict>>>, finals: map<Value, seq<map<string, Value>>>)
  {
    forall l | l in groups ::
      && l in buckets && l in before && l in orders && l in finals
      && groups[l].number == |buckets[l]| == |groups[l].augments|
      && GroupRanked(buckets[l], before[l], num, orders[l], groups[l].augments, finals[l])
      && forall j | 0 <= j < |groups[l].augments| :: groups[l].augments[j] in owner && owner[groups[l].augments[j]] == l
  }

  /** Recording one more ranked bucket keeps `Visited`. */
  lemma VisitedStep(buckets: map<Value, seq<Dict>>, before: map<Value, seq<map<string, Value>>>,
                    owner: map<Dict, Value>, num: Numerics, groups: map<Value, Group>,
                    orders: map<Value, seq<Keyed<Dict>>>, finals: map<Value, seq<map<string, Value>>>,
                    level: Value, sorted: seq<Dict>, order: seq<Keyed<Dict>>, final: seq<map<string, Value>>)
    requires Visited(buckets, before, owner, num, groups, orders, finals)
    requires level in buckets && level in before && |sorted| == |buckets[level]|
    requires GroupRanked(buckets[level], before[level], num, order, sorted, final)
    requires forall j | 0 <= j < |sorted| :: sorted[j] in owner && owner[sorted[j]] == level
    ensures Visited(buckets, before, owner, num, groups[level := Group(sorted, |buckets[level]|)],
                    orders[level := order], finals[level := final])
  {
  }

  /**
   * Dicts of visited levels hold their final contents; dicts of levels
   * still to visit hold their contents from `before`.
   */
  ghost predicate Holding(owner: map<Dict, Value>, buckets: map<Value, seq<Dict>>,
                          before: map<Value, seq<map<string, Value>>>, todo: set<Value>,
                          groups: map<Value, Group>, finals: map<Value, seq<map<string, Value>>>)
    reads owner.Keys
  {
    && (forall l, j | l in groups && l in finals && 0 <= j < |groups[l].augments| && j < |finals[l]| ::
          groups[l].augments[j] in owner ==> groups[l].augments[j].entries == finals[l][j])
    && (forall l, i | l in todo && l in buckets && l in before && 0 <= i < |buckets[l]| && i < |before[l]| ::
          buckets[l][i] in owner ==> buckets[l][i].entries == before[l][i])
  }

  /** `before` records, for every bucket, contents that can be scored. */
  ghost predicate Recorded(buckets: map<Value, seq<Dict>>, before: map<Value, seq<map<string, Value>>>) {
    forall l | l in buckets ::
      && l in before && |before[l]| == |buckets[l]| > 0 && Distinct(buckets[l])
      && forall i | 0 <= i < |before[l]| :: Scorable(before[l][i])
  }

  /** The state of the second loop: the levels outside `todo` are visited and hold their final contents. */
  ghost predicate Progress(buckets: map<Value, seq<Dict>>, owner: map<Dict, Value>, num: Numerics,
                           before: map<Value, seq<map<string, Value>>>, todo: set<Value>, groups: map<Value, Group>,
                           orders: map<Value, seq<Keyed<Dict>>>, finals: map<Value, seq<map<string, Value>>>)
    reads owner.Keys
  {
    && todo <= buckets.Keys && groups.Keys == buckets.Keys - todo
    && Visited(buckets, before, owner, num, groups, orders, finals)
    && Holding(owner, buckets, before, todo, groups, finals)
  }

  /** One iteration of the second loop, with the loop's bookkeeping. */
  method RankStep(buckets: map<Value, seq<Dict>>, ghost owner: map<Dict, Value>, num: Numerics,
                  ghost before: map<Value, seq<map<string, Value>>>, todo: set<Value>, groups: map<Value, Group>,
                  ghost orders: map<Value, seq<Keyed<Dict>>>, ghost finals: map<Value, seq<map<string, Value>>>,
                  level: Value)
      returns (groups': map<Value, Group>, ghost orders': map<Value, seq<Keyed<Dict>>>,
               ghost finals': map<Value, seq<map<string, Value>>>)
    requires Owned(buckets, owner) && Recorded(buckets, before)
    requires level in todo && Progress(buckets, owner, num, before, todo, groups, orders, finals)
    modifies set d | d in buckets[level]
    ensures Progress(buckets, owner, num, before, todo - {level}, groups', orders', finals')
  {
    assert Contents(buckets[level]) == before[level];
    var sorted, order, final := RankLevel(buckets, owner, level, before[level], num);
    VisitedStep(buckets, before, owner, num, groups, orders, finals, level, sorted, order, final);
    groups' := groups[level := Group(sorted, |buckets[level]|)];
    orders' := orders[level := order];
    finals' := finals[level := final];
  }

  /** When no level is left, every bucket is ranked and its dicts hold the ranked contents. */
  lemma Finished(buckets: map<Value, seq<Dict>>, owner: map<Dict, Value>, num: Numerics,
                 before: map<Value, seq<map<string, Value>>>, groups: map<Value, Group>,
                 orders: map<Value, seq<Keyed<Dict>>>, finals: map<Value, seq<map<string, Value>>>)
    requires Progress(buckets, owner, num, before, {}, groups, orders, finals)
    ensures groups.Keys == buckets.Keys
    ensures forall l | l in groups ::
      && l in before && l in orders && groups[l].number == |buckets[l]| == |groups[l].augments|
      && GroupRanked(buckets[l], before[l], num, orders[l], groups[l].augments, Contents(groups[l].augments))
  {
    forall l | l in groups ensures Contents(groups[l].augments) == finals[l] {
    }
  }

  /**
   * The constructor's second loop: scores and ranks every bucket and stores
   * it, best first, with its size. Buckets are disjoint, so the order in
   * which they are visited does not matter.
   */
  method RankAll(buckets: map<Value, seq<Dict>>, ghost owner: map<Dict, Value>,
                 ghost before: map<Value, seq<map<string, Value>>>, num: Numerics)
      returns (groups: map<Value, Group>, ghost orders: map<Value, seq<Keyed<Dict>>>)
    requires Owned(buckets, owner)
    requires forall l | l in buckets :: |buckets[l]| > 0 && Distinct(buckets[l])
    requires forall l | l in buckets :: l in before && Contents(buckets[l]) == before[l]
    requires forall l, i | l in before && 0 <= i < |before[l]| :: Scorable(before[l][i])
    modifies owner.Keys
    ensures groups.Keys == buckets.Keys
    ensures forall l | l in groups ::
      && l in orders && groups[l].number == |buckets[l]| == |groups[l].augments|
      && GroupRanked(buckets[l], before[l], num, orders[l], groups[l].augments, Contents(groups[l].augments))
  {
    ghost var finals: map<Value, seq<map<string, Value>>> := map[];
    orders := map[];
    groups := map[];
    var todo := buckets.Keys;
    assert Recorded(buckets, before);
    while todo != {}
      invariant Progress(buckets, owner, num, before, todo, groups, orders, finals)
      decreases |todo|
    {
      var level :| level in todo;
      groups, orders, finals := RankStep(buckets, owner, num, before, todo, groups, orders, finals, level);
      todo := todo - {level};
    }
    Finished(buckets, owner, num, before, groups, orders, finals);
  }
}
