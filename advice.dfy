/**
 * The recommendation step of the engine (`Suggest.get_suggest_info`): the
 * offered augments are sorted by weighted score, and each gets a verdict
 * from its rank within its level and from its score.
 */
module Advising {
  import opened Wrappers
  import opened Dicts
  import opened Ordering
  import opened Grouping
  import Configuration

  // ---------------------------------------------------------------------
  // Thresholds

  /** The four class attributes read from the `suggest` table of the configuration. */
  datatype Thresholds = Thresholds(
    immediateScore: real,   // immediate_select_weighted_sum_threshold
    immediateShare: real,   // immediate_select_precentage_threshold
    considerScore: real,    // consider_select_weighted_sum_threshold
    considerShare: real)    // consider_select_precentage_threshold

  /** A configuration value Python can compare with a number, as that number. */
  function TomlNumber(v: Configuration.Toml): Option<real> {
    match v
    case Bool(b) => Some(if b then 1.0 else 0.0)
    case Int(i) => Some(i as real)
    case Float(x) => Some(x)
    case _ => None
  }

  /** `config.get("suggest", key)`, as a number when it is one. */
  function ThresholdOf(data: map<string, Configuration.Toml>, key: string): Option<real> {
    TomlNumber(Configuration.Lookup(Configuration.Table(data), ["suggest", key], Configuration.Null))
  }

  /** A threshold written in the configuration is the one the engine uses. */
  lemma ThresholdAtPath(data: map<string, Configuration.Toml>, key: string, v: Configuration.Toml)
    requires Configuration.Reaches(Configuration.Table(data), ["suggest", key], v)
    ensures ThresholdOf(data, key) == TomlNumber(v)
  {
    Configuration.LookupFollowsPath(Configuration.Table(data), ["suggest", key], v, Configuration.Null);
  }

  /** A threshold missing from the configuration is `None`, which no comparison accepts. */
  lemma ThresholdMissing(data: map<string, Configuration.Toml>, key: string)
    requires forall v :: !Configuration.Reaches(Configuration.Table(data), ["suggest", key], v)
    ensures ThresholdOf(data, key) == None
  {
    Configuration.LookupFallsBack(Configuration.Table(data), ["suggest", key], Configuration.Null);
  }

  /** The four thresholds, when all of them are numbers. */
  function LoadThresholds(data: map<string, Configuration.Toml>): (r: Option<Thresholds>)
    ensures r.Some? <==>
      && ThresholdOf(data, "immediate_select_weighted_sum_threshold").Some?
      && ThresholdOf(data, "immediate_select_precentage_threshold").Some?
      && ThresholdOf(data, "consider_select_weighted_sum_threshold").Some?
      && ThresholdOf(data, "consider_select_precentage_threshold").Some?
    ensures r.Some? ==>
      && Some(r.value.immediateScore) == ThresholdOf(data, "immediate_select_weighted_sum_threshold")
      && Some(r.value.immediateShare) == ThresholdOf(data, "immediate_select_precentage_threshold")
      && Some(r.value.considerScore) == ThresholdOf(data, "consider_select_weighted_sum_threshold")
      && Some(r.value.considerShare) == ThresholdOf(data, "consider_select_precentage_threshold")
  {
    match (ThresholdOf(data, "immediate_select_weighted_sum_threshold"),
           ThresholdOf(data, "immediate_select_precentage_threshold"),
           ThresholdOf(data, "consider_select_weighted_sum_threshold"),
           ThresholdOf(data, "consider_select_precentage_threshold"))
    case (Some(a), Some(b), Some(c), Some(d)) => Some(Thresholds(a, b, c, d))
    case _ => None
  }

  // ---------------------------------------------------------------------
  // Verdicts

  /**
   * The four messages: pick it at once; worth considering and, being the
   * best offered, worth keeping for now; worth considering but may be
   * rerolled; not worth taking.
   */
  datatype Verdict = Pick | Hold | Reroll | Skip

  /** How strongly a verdict recommends the augment; the position only splits `Hold` from `Reroll`. */
  function Tier(v: Verdict): nat {
    match v
    case Pick => 2
    case Hold => 1
    case Reroll => 1
    case Skip => 0
  }

  /**
   * The verdict for an augment of rank `rank` and score `score`, shown at
   * position `idx` of the sorted offer, in a level of `size` augments.
   */
  function Classify(rank: real, score: real, idx: nat, size: real, t: Thresholds): (v: Verdict)
    ensures v == Skip <==>
      && rank > size * t.immediateShare && score < t.immediateScore
      && rank > size * t.considerShare && score < t.considerScore
    ensures v == Hold || v == Reroll ==> (v == Hold <==> idx == 0)
  {
    if rank <= size * t.immediateShare || score >= t.immediateScore then Pick
    else if rank <= size * t.considerShare || score >= t.considerScore then
      if idx == 0 then Hold else Reroll
    else Skip
  }

  /** A better rank and a higher score never give a weaker verdict, wherever either is shown. */
  lemma ClassifyMonotone(rank1: real, score1: real, idx1: nat, rank2: real, score2: real, idx2: nat,
                         size: real, t: Thresholds)
    requires rank1 <= rank2 && score1 >= score2
    ensures Tier(Classify(rank1, score1, idx1, size, t)) >= Tier(Classify(rank2, score2, idx2, size, t))
  {
  }

  /** The position decides only between `Hold` and `Reroll`, and only the first is held. */
  lemma ClassifyPosition(rank: real, score: real, idx: nat, size: real, t: Thresholds)
    ensures Tier(Classify(rank, score, idx, size, t)) == Tier(Classify(rank, score, 0, size, t))
    ensures Classify(rank, score, idx, size, t) == Hold ==> idx == 0
    ensures Classify(rank, score, idx, size, t) == Reroll ==> idx > 0
  {
  }

  /**
   * The middle verdict: the immediate tests both fail and one of the
   * consider tests passes.
   */
  lemma ClassifyConsider(rank: real, score: real, idx: nat, size: real, t: Thresholds)
    ensures Tier(Classify(rank, score, idx, size, t)) == 1 <==>
      && !(rank <= size * t.immediateShare || score >= t.immediateScore)
      && (rank <= size * t.considerShare || score >= t.considerScore)
  {
  }

  /** Either criterion alone is enough for the strongest verdict, and failing both rules it out. */
  lemma ClassifyPick(rank: real, score: real, idx: nat, size: real, t: Thresholds)
    ensures Classify(rank, score, idx, size, t) == Pick <==> rank <= size * t.immediateShare || score >= t.immediateScore
  {
  }

  // ---------------------------------------------------------------------
  // Advice for an offer

  /** What one message says: the verdict, the augment's name, its rank and the level size shown. */
  datatype Advice = Advice(verdict: Verdict, name: Value, rank: Value, size: Value)

  /**
   * Why `get_suggest_info` raises: an empty offer (`IndexError`), an augment
   * that was not found (subscripting `None`), or a record that lacks a
   * numeric `group_size`, `weighted_sum` or `rank`, or a `name`.
   */
  datatype SuggestError = NoAugments | UnknownAugment | Malformed

  /** The contents of the offered records; `None` stays `None`. */
  function Snapshot(xs: seq<Option<Dict>>): (ms: seq<Option<map<string, Value>>>)
    reads set o | o in xs && o.Some? :: o.value
    ensures |ms| == |xs|
    ensures forall i | 0 <= i < |xs| :: ms[i] == if xs[i].Some? then Some(xs[i].value.entries) else None
  {
    seq(|xs|, i requires 0 <= i < |xs| reads set o | o in xs && o.Some? :: o.value =>
      if xs[i].Some? then Some(xs[i].value.entries) else None)
  }

  predicate AllKnown(ms: seq<Option<map<string, Value>>>) {
    forall i | 0 <= i < |ms| :: ms[i].Some?
  }

  function Records(ms: seq<Option<map<string, Value>>>): (recs: seq<map<string, Value>>)
    requires AllKnown(ms)
    ensures |recs| == |ms| && forall i | 0 <= i < |ms| :: Some(recs[i]) == ms[i]
  {
    seq(|ms|, i requires 0 <= i < |ms| && AllKnown(ms) => ms[i].value)
  }

  predicate AllScored(recs: seq<map<string, Value>>) {
    forall i | 0 <= i < |recs| :: HasNumber(recs[i], "weighted_sum")
  }

  /** A record the message loop can read: a numeric `rank` and a `name`. */
  predicate Listable(m: map<string, Value>) {
    HasNumber(m, "rank") && "name" in m
  }

  predicate AllListable(recs: seq<map<string, Value>>) {
    forall i | 0 <= i < |recs| :: Listable(recs[i])
  }

  /**
   * `sorted(augments, key=lambda x: x["weighted_sum"], reverse=True)`, as
   * the input position shown at each place.
   */
  function Order(recs: seq<map<string, Value>>): (p: seq<nat>)
    requires AllScored(recs)
    ensures |p| == |recs|
    ensures forall j | 0 <= j < |p| :: p[j] < |recs|
  {
    var sorted := SortDesc(recs, Scores(recs));
    seq(|sorted|, j requires 0 <= j < |sorted| => sorted[j].pos)
  }

  /** Every offered record is shown exactly once. */
  lemma OrderPermutes(recs: seq<map<string, Value>>)
    requires AllScored(recs)
    ensures forall i | 0 <= i < |recs| :: i in Order(recs)
    ensures forall j, k | 0 <= j < k < |recs| :: Order(recs)[j] != Order(recs)[k]
  {
    var sorted := SortDesc(recs, Scores(recs));
    SortDescInjective(recs, Scores(recs));
    forall i | 0 <= i < |recs| ensures i in Order(recs) {
      SortDescCovers(recs, Scores(recs), i);
      var j :| 0 <= j < |recs| && sorted[j].pos == i;
      assert Order(recs)[j] == i;
    }
  }

  /** Records are shown best score first; equal scores keep the offered order. */
  lemma OrderByScore(recs: seq<map<string, Value>>, j: nat, k: nat)
    requires AllScored(recs) && j < k < |recs|
    ensures Score(recs[Order(recs)[j]]) >= Score(recs[Order(recs)[k]])
    ensures Score(recs[Order(recs)[j]]) == Score(recs[Order(recs)[k]]) ==> Order(recs)[j] < Order(recs)[k]
  {
    SortDescOrdered(recs, Scores(recs), j, k);
  }

  /** The message for record `m` shown at position `idx`. */
  function AdviceAt(m: map<string, Value>, idx: nat, size: Value, t: Thresholds): Advice
    requires HasNumber(m, "weighted_sum") && Listable(m) && IsNumber(size)
  {
    Advice(Classify(AsReal(m["rank"]), Score(m), idx, AsReal(size), t), m["name"], m["rank"], size)
  }

  /**
   * The message loop over the sorted records, which raises on the first one
   * it cannot read; otherwise message `j` is about the record shown at
   * place `j`.
   */
  function Messages(recs: seq<map<string, Value>>, size: Value, t: Thresholds): (r: Result<seq<Advice>, SuggestError>)
    requires AllScored(recs) && IsNumber(size)
    ensures r.Success? <==> AllListable(recs)
    ensures r.Failure? ==> r.error == Malformed
    ensures r.Success? ==> |r.value| == |recs| && forall j | 0 <= j < |recs| ::
      && "name" in recs[Order(recs)[j]] && "rank" in recs[Order(recs)[j]]
      && r.value[j].name == recs[Order(recs)[j]]["name"]
      && r.value[j].rank == recs[Order(recs)[j]]["rank"]
      && r.value[j].size == size
  {
    if !AllListable(recs) then Failure(Malformed)
    else
      var order := Order(recs);
      Success(seq(|order|, j requires 0 <= j < |order| => AdviceAt(recs[order[j]], j, size, t)))
  }

  /** `sorted` can compute the record's key: it is not `None` and holds `weighted_sum`. */
  predicate KeyReadable(o: Option<map<string, Value>>) {
    o.Some? && "weighted_sum" in o.value
  }

  /**
   * `sorted` computes the key of every record, in list order, before it
   * compares any two: the first record, from `from` on, whose key cannot
   * be read.
   */
  function FirstUnkeyed(ms: seq<Option<map<string, Value>>>, from: nat): (r: Option<nat>)
    requires from <= |ms|
    decreases |ms| - from
    ensures r.None? <==> forall i | from <= i < |ms| :: KeyReadable(ms[i])
    ensures r.Some? ==>
      && from <= r.value < |ms| && !KeyReadable(ms[r.value])
      && forall i | from <= i < r.value :: KeyReadable(ms[i])
  {
    if from == |ms| then None
    else if !KeyReadable(ms[from]) then Some(from)
    else FirstUnkeyed(ms, from + 1)
  }

  /** An offer `get_suggest_info` answers without raising. */
  predicate Answerable(ms: seq<Option<map<string, Value>>>) {
    && |ms| > 0
    && AllKnown(ms)
    && HasNumber(ms[0].value, "group_size")
    && AllScored(Records(ms))
    && AllListable(Records(ms))
  }

  /**
   * `get_suggest_info(augments)`: the level size comes from the first
   * offered record, the records are sorted by score and each gets its
   * message. The checks come in the order Python meets them: the first
   * record, then the sort keys in list order (a `None` record is unknown,
   * a record without `weighted_sum` malformed), then the comparisons, then
   * the loop's own reads.
   */
  function SuggestInfo(ms: seq<Option<map<string, Value>>>, t: Thresholds): (r: Result<seq<Advice>, SuggestError>)
    ensures r.Success? <==> Answerable(ms)
    ensures r == Failure(NoAugments) <==> |ms| == 0
    ensures r == Failure(UnknownAugment) <==>
      && |ms| > 0 && (ms[0].Some? ==> HasNumber(ms[0].value, "group_size"))
      && exists i | 0 <= i < |ms| :: ms[i].None? && forall k | 0 <= k < i :: KeyReadable(ms[k])
    ensures r.Success? ==> |r.value| == |ms|
  {
    if |ms| == 0 then Failure(NoAugments)
    else if ms[0].None? then Failure(UnknownAugment)
    else if !HasNumber(ms[0].value, "group_size") then Failure(Malformed)
    else match FirstUnkeyed(ms, 0)
      case Some(i) => if ms[i].None? then Failure(UnknownAugment) else Failure(Malformed)
      case None =>
        assert AllKnown(ms);
        var recs := Records(ms);
        if !AllScored(recs) then Failure(Malformed)
        else Messages(recs, ms[0].value["group_size"], t)
  }

  /**
   * What an answer says: the message at place `j` is about the record at
   * input position `Order(...)[j]`, with the level size of the first
   * record; its strength does not depend on where it is shown, and a
   * middle verdict is `Hold` exactly at the first place.
   */
  lemma AdviceDescribes(ms: seq<Option<map<string, Value>>>, t: Thresholds, j: nat)
    requires Answerable(ms) && j < |ms|
    ensures var recs := Records(ms);
            var m := recs[Order(recs)[j]];
            var a := SuggestInfo(ms, t).value[j];
            && a.name == m["name"] && a.rank == m["rank"] && a.size == ms[0].value["group_size"]
            && Tier(a.verdict) == Tier(Classify(AsReal(m["rank"]), Score(m), 0, AsReal(a.size), t))
            && (Tier(a.verdict) == 1 ==> (a.verdict == Hold <==> j == 0))
  {
    var recs := Records(ms);
    var m := recs[Order(recs)[j]];
    ClassifyPosition(AsReal(m["rank"]), Score(m), j, AsReal(ms[0].value["group_size"]), t);
  }

  /** Of two offered augments, the one shown first is at least as strongly recommended when its rank is no worse. */
  lemma AdviceFollowsOrder(ms: seq<Option<map<string, Value>>>, t: Thresholds, j: nat, k: nat)
    requires Answerable(ms) && j < k < |ms|
    requires var recs := Records(ms);
             AsReal(recs[Order(recs)[j]]["rank"]) <= AsReal(recs[Order(recs)[k]]["rank"])
    ensures Tier(SuggestInfo(ms, t).value[j].verdict) >= Tier(SuggestInfo(ms, t).value[k].verdict)
  {
    var recs := Records(ms);
    var a, b := recs[Order(recs)[j]], recs[Order(recs)[k]];
    var size := AsReal(ms[0].value["group_size"]);
    OrderByScore(recs, j, k);
    ClassifyMonotone(AsReal(a["rank"]), Score(a), j, AsReal(b["rank"]), Score(b), k, size, t);
  }
}
