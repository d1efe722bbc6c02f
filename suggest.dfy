/**
 * The recommendation engine (`algorithm/suggest.py`, class `Suggest`): it
 * keeps the augment records of one champion that have data, groups them
 * by augment level, scores and ranks every group, and answers lookups by
 * id and requests for advice on an offer of augments.
 */
module Suggestion {
  import opened Wrappers
  import opened Dicts
  import opened Norm
  import opened Ordering
  import opened Grouping
  import opened Advising

  /**
   * A raw record the filter can read: `performance` is present, and so is
   * `popular` unless `performance` already marks the record as having no
   * data (the `and` stops there).
   */
  predicate Filterable(m: map<string, Value>) {
    "performance" in m && (!EqualsNumber(m["performance"], NoDataPerformance) ==> "popular" in m)
  }

  /** A record as the constructor leaves it: tagged, scored, and ranked within its level. */
  predicate Ready(m: map<string, Value>) {
    && "id" in m && "level" in m && "name" in m
    && HasNumber(m, "weighted_sum")
    && "rank" in m && m["rank"].Int?
    && "group_size" in m && m["group_size"].Int?
    && 1 <= m["rank"].i <= m["group_size"].i
  }

  /** Every record after `level` and `name` were written. */
  function TagAll(ms: seq<map<string, Value>>, cat: Catalog): (r: seq<map<string, Value>>)
    requires forall i | 0 <= i < |ms| :: "id" in ms[i]
    ensures |r| == |ms|
    ensures forall i | 0 <= i < |ms| :: "id" in ms[i] && r[i] == Tagged(ms[i], cat)
  {
    seq(|ms|, i requires 0 <= i < |ms| && "id" in ms[i] => Tagged(ms[i], cat))
  }

  // ---------------------------------------------------------------------
  // Building the groups

  /** Which level each kept record was filed under. */
  ghost function LevelOwner(kept: seq<Dict>, ls: seq<Value>): (owner: map<Dict, Value>)
    requires |kept| == |ls| && Distinct(kept)
    ensures owner.Keys == set d | d in kept
    ensures forall i | 0 <= i < |kept| :: owner[kept[i]] == ls[i]
  {
    map i | 0 <= i < |kept| :: kept[i] := ls[i]
  }

  /** The buckets of a list of distinct records are disjoint, each owned by its level. */
  lemma OwnedByLevel(kept: seq<Dict>, ls: seq<Value>, g: map<Value, seq<Dict>>)
    requires |kept| == |ls| && Distinct(kept) && Buckets(g, kept, ls)
    ensures Owned(g, LevelOwner(kept, ls))
  {
    var owner := LevelOwner(kept, ls);
    forall l, i | l in g && 0 <= i < |g[l]| ensures g[l][i] in owner && owner[g[l][i]] == l {
      SelectAtPositions(kept, ls, l);
      assert g[l][i] == kept[Positions(ls, l)[i]];
    }
    forall d | d in owner ensures owner[d] in g && d in g[owner[d]] {
      var i :| 0 <= i < |kept| && kept[i] == d;
      SelectMembership(kept, ls, ls[i], i);
    }
  }

  /** Every bucket is non-empty, holds no record twice, and holds only records of the list. */
  lemma BucketsFilled(kept: seq<Dict>, ls: seq<Value>, g: map<Value, seq<Dict>>)
    requires |kept| == |ls| && Distinct(kept) && Buckets(g, kept, ls)
    ensures forall l | l in g :: |g[l]| > 0 && Distinct(g[l]) && forall k | 0 <= k < |g[l]| :: g[l][k] in kept
  {
    forall l | l in g ensures |g[l]| > 0 && Distinct(g[l]) && forall k | 0 <= k < |g[l]| :: g[l][k] in kept {
      var i :| 0 <= i < |ls| && ls[i] == l;
      SelectAtPositions(kept, ls, l);
      assert i in Positions(ls, l);
      SelectDistinct(kept, ls, l);
    }
  }

  /** After tagging, a bucket holds the tagged contents of its records, in bucket order. */
  lemma BucketContents(kept: seq<Dict>, ls: seq<Value>, tagged: seq<map<string, Value>>, l: Value)
    requires |kept| == |ls| == |tagged|
    requires forall i | 0 <= i < |kept| :: kept[i].entries == tagged[i]
    ensures Contents(Select(kept, ls, l)) == Select(tagged, ls, l)
  {
    SelectAtPositions(kept, ls, l);
    SelectAtPositions(tagged, ls, l);
  }

  /** A record of the bucket is listed once its bucket is ranked, and where. */
  lemma RankedPlace(members: seq<Dict>, before: seq<map<string, Value>>, num: Numerics,
                    order: seq<Keyed<Dict>>, sorted: seq<Dict>, final: seq<map<string, Value>>, p: nat)
      returns (j: nat)
    requires GroupRanked(members, before, num, order, sorted, final) && p < |members|
    ensures j < |sorted| && sorted[j] == members[p]
    ensures final[j] == Ranked(BucketScores(before, num)[p], j + 1, |members|)
  {
    var scored := BucketScores(before, num);
    SortDescCovers(members, Scores(scored), p);
    j :| 0 <= j < |members| && SortDesc(members, Scores(scored))[j].pos == p;
    assert order[j] == SortDesc(members, Scores(scored))[j];
  }

  /** A kept record comes out of scoring and ranking ready for advice, with its id unchanged. */
  lemma ProcessedReady(m: map<string, Value>, cat: Catalog, fPerf: Scaler, fPop: Scaler, num: Numerics,
                       rank: nat, size: nat)
    requires RawRecord(m) && 1 <= rank <= size
    ensures Scorable(Tagged(m, cat))
    ensures Ready(Ranked(Scored(Tagged(m, cat), fPerf, fPop, num), rank, size))
    ensures Ranked(Scored(Tagged(m, cat), fPerf, fPop, num), rank, size)["id"] == m["id"]
  {
  }

  /** Every record of a ranked bucket is ready, with the id it had before tagging. */
  lemma MemberReady(members: seq<Dict>, before: seq<map<string, Value>>, num: Numerics,
                    order: seq<Keyed<Dict>>, sorted: seq<Dict>, final: seq<map<string, Value>>,
                    p: nat, raw: map<string, Value>, cat: Catalog)
      returns (j: nat)
    requires GroupRanked(members, before, num, order, sorted, final) && p < |members|
    requires RawRecord(raw) && before[p] == Tagged(raw, cat)
    ensures j < |sorted| && sorted[j] == members[p]
    ensures Ready(final[j]) && final[j]["id"] == raw["id"]
  {
    j := RankedPlace(members, before, num, order, sorted, final, p);
    ProcessedReady(raw, cat, PerformanceScaler(before, num), PopularScaler(before, num), num, j + 1, |members|);
  }

  /** After tagging, every record of every bucket can be scored. */
  lemma TaggedScorable(before: seq<map<string, Value>>, cat: Catalog, ls: seq<Value>,
                       middle: map<Value, seq<map<string, Value>>>)
    requires |before| == |ls|
    requires forall i | 0 <= i < |before| :: "id" in before[i]
    requires forall i | 0 <= i < |before| :: RawRecord(before[i])
    requires forall l | l in middle :: middle[l] == Select(TagAll(before, cat), ls, l)
    ensures forall l, k | l in middle && 0 <= k < |middle[l]| :: Scorable(middle[l][k])
  {
    var tagged := TagAll(before, cat);
    forall l, k | l in middle && 0 <= k < |middle[l]| ensures Scorable(middle[l][k]) {
      SelectAtPositions(tagged, ls, l);
      var i := Positions(ls, l)[k];
      assert middle[l][k] == Tagged(before[i], cat);
    }
  }

  /** After tagging, the buckets hold the tagged contents of their records. */
  lemma BucketsTagged(kept: seq<Dict>, ls: seq<Value>, tagged: seq<map<string, Value>>, g: map<Value, seq<Dict>>)
    requires |kept| == |ls| == |tagged|
    requires forall i | 0 <= i < |kept| :: kept[i].entries == tagged[i]
    requires forall l | l in g :: g[l] == Select(kept, ls, l)
    ensures forall l | l in g :: Contents(g[l]) == Select(tagged, ls, l)
  {
    forall l | l in g ensures Contents(g[l]) == Select(tagged, ls, l) {
      var bucket := g[l];
      assert bucket == Select(kept, ls, l);
      BucketContents(kept, ls, tagged, l);
    }
  }

  /**
   * The groups built from the kept records `kept`, whose contents were
   * `before`: one per level that occurs, holding the bucket of that level
   * (its records in the order they were kept), scored and ranked as
   * `GroupRanked` states, with the bucket's size.
   */
  ghost predicate Grouped(kept: seq<Dict>, before: seq<map<string, Value>>, cat: Catalog, num: Numerics,
                          groups: map<Value, Group>, orders: map<Value, seq<Keyed<Dict>>>)
    reads set l, k | l in groups && 0 <= k < |groups[l].augments| :: groups[l].augments[k]
  {
    && |kept| == |before|
    && (forall i | 0 <= i < |before| :: "id" in before[i])
    && groups.Keys == (set l | l in Levels(before, cat))
    && forall l | l in groups ::
         var ls := Levels(before, cat);
         && l in orders && groups[l].number == |Select(kept, ls, l)|
         && GroupRanked(Select(kept, ls, l), Select(TagAll(before, cat), ls, l), num,
                        orders[l], groups[l].augments, Contents(groups[l].augments))
  }

  /**
   * The buckets after tagging meet everything the ranking loop needs:
   * they are owned by their levels, non-empty, free of repeats, and hold
   * the tagged contents `middle` of their records, which can be scored.
   */
  lemma ReadyToRank(kept: seq<Dict>, before: seq<map<string, Value>>, cat: Catalog,
                    buckets: map<Value, seq<Dict>>, middle: map<Value, seq<map<string, Value>>>)
    requires Distinct(kept) && |kept| == |before|
    requires forall i | 0 <= i < |before| :: "id" in before[i]
    requires forall i | 0 <= i < |before| :: RawRecord(before[i])
    requires forall i | 0 <= i < |kept| :: kept[i].entries == Tagged(before[i], cat)
    requires Buckets(buckets, kept, Levels(before, cat))
    requires middle == map l | l in buckets :: Select(TagAll(before, cat), Levels(before, cat), l)
    ensures Owned(buckets, LevelOwner(kept, Levels(before, cat)))
    ensures forall l | l in buckets :: |buckets[l]| > 0 && Distinct(buckets[l])
    ensures forall l | l in buckets :: l in middle && Contents(buckets[l]) == middle[l]
    ensures forall l, k | l in middle && 0 <= k < |middle[l]| :: Scorable(middle[l][k])
  {
    var ls := Levels(before, cat);
    OwnedByLevel(kept, ls, buckets);
    BucketsFilled(kept, ls, buckets);
    BucketsTagged(kept, ls, TagAll(before, cat), buckets);
    TaggedScorable(before, cat, ls, middle);
  }

  /**
   * Once every bucket is ranked, the groups are those of `BuildGroups`,
   * and every kept record is ready, with its id unchanged.
   */
  lemma Assembled(kept: seq<Dict>, before: seq<map<string, Value>>, cat: Catalog, num: Numerics,
                  buckets: map<Value, seq<Dict>>, middle: map<Value, seq<map<string, Value>>>,
                  groups: map<Value, Group>, orders: map<Value, seq<Keyed<Dict>>>)
    requires |kept| == |before|
    requires forall i | 0 <= i < |before| :: "id" in before[i]
    requires forall i | 0 <= i < |before| :: RawRecord(before[i])
    requires Buckets(buckets, kept, Levels(before, cat))
    requires middle == map l | l in buckets :: Select(TagAll(before, cat), Levels(before, cat), l)
    requires groups.Keys == buckets.Keys
    requires forall l | l in groups ::
      && l in orders && groups[l].number == |buckets[l]| == |groups[l].augments|
      && GroupRanked(buckets[l], middle[l], num, orders[l], groups[l].augments, Contents(groups[l].augments))
    ensures Grouped(kept, before, cat, num, groups, orders)
    ensures forall i | 0 <= i < |kept| :: Ready(kept[i].entries) && kept[i].entries["id"] == before[i]["id"]
  {
    AllReady(kept, before, cat, num, buckets, middle, groups, orders);
  }

  /** Once every bucket is ranked, every kept record is ready, with its id unchanged. */
  lemma AllReady(kept: seq<Dict>, before: seq<map<string, Value>>, cat: Catalog, num: Numerics,
                 buckets: map<Value, seq<Dict>>, middle: map<Value, seq<map<string, Value>>>,
                 groups: map<Value, Group>, orders: map<Value, seq<Keyed<Dict>>>)
    requires |kept| == |before|
    requires forall i | 0 <= i < |before| :: "id" in before[i]
    requires forall i | 0 <= i < |before| :: RawRecord(before[i])
    requires Buckets(buckets, kept, Levels(before, cat))
    requires middle == map l | l in buckets :: Select(TagAll(before, cat), Levels(before, cat), l)
    requires groups.Keys == buckets.Keys
    requires forall l | l in groups ::
      && l in orders
      && GroupRanked(buckets[l], middle[l], num, orders[l], groups[l].augments, Contents(groups[l].augments))
    ensures forall i | 0 <= i < |kept| :: Ready(kept[i].entries) && kept[i].entries["id"] == before[i]["id"]
  {
    var ls := Levels(before, cat);
    forall i | 0 <= i < |kept| ensures Ready(kept[i].entries) && kept[i].entries["id"] == before[i]["id"] {
      var l := ls[i];
      RecordReady(kept, before, cat, num, buckets[l], middle[l], orders[l], groups[l].augments, i);
    }
  }

  /** Record `i`, once the bucket of its level is ranked, is ready, with its id unchanged. */
  lemma RecordReady(kept: seq<Dict>, before: seq<map<string, Value>>, cat: Catalog, num: Numerics,
                    bucket: seq<Dict>, middle: seq<map<string, Value>>, order: seq<Keyed<Dict>>,
                    augments: seq<Dict>, i: nat)
    requires |kept| == |before| && i < |kept|
    requires forall k | 0 <= k < |before| :: "id" in before[k]
    requires RawRecord(before[i])
    requires bucket == Select(kept, Levels(before, cat), Levels(before, cat)[i])
    requires middle == Select(TagAll(before, cat), Levels(before, cat), Levels(before, cat)[i])
    requires GroupRanked(bucket, middle, num, order, augments, Contents(augments))
    ensures Ready(kept[i].entries) && kept[i].entries["id"] == before[i]["id"]
  {
    var ls := Levels(before, cat);
    var l := ls[i];
    SelectAtPositions(kept, ls, l);
    SelectAtPositions(TagAll(before, cat), ls, l);
    assert i in Positions(ls, l);
    var p :| 0 <= p < |Positions(ls, l)| && Positions(ls, l)[p] == i;
    var j := MemberReady(bucket, middle, num, order, augments, Contents(augments), p, before[i], cat);
  }

  /**
   * Both loops of the constructor on the kept records: tag and group them
   * by level, then score and rank every group. Each group is the bucket of
   * its level, in the order the records were kept, scored and ranked as
   * `GroupRanked` states; every record ends up ready for advice.
   */
  method BuildGroups(kept: seq<Dict>, ghost before: seq<map<string, Value>>, cat: Catalog, num: Numerics)
      returns (groups: map<Value, Group>, ghost orders: map<Value, seq<Keyed<Dict>>>)
    requires Distinct(kept) && Contents(kept) == before
    requires forall i | 0 <= i < |before| :: "id" in before[i]
    requires forall i | 0 <= i < |before| :: RawRecord(before[i])
    modifies set d | d in kept
    ensures Grouped(kept, before, cat, num, groups, orders)
    ensures forall i | 0 <= i < |kept| :: Ready(kept[i].entries) && kept[i].entries["id"] == before[i]["id"]
  {
    ghost var ls := Levels(before, cat);
    var buckets := TagAndGroup(kept, before, cat);
    ghost var owner := LevelOwner(kept, ls);
    ghost var middle := map l | l in buckets :: Select(TagAll(before, cat), ls, l);
    ReadyToRank(kept, before, cat, buckets, middle);
    groups, orders := RankAll(buckets, owner, middle, num);
    Assembled(kept, before, cat, num, buckets, middle, groups, orders);
  }

  // ---------------------------------------------------------------------
  // Looking up a record

  /**
   * Where `get_augment_info_by_id` stops: the first record whose id, as
   * text, is `id`, if there is one.
   */
  function FindIndex(data: seq<Dict>, id: string, cat: Catalog): (r: Option<nat>)
    reads set d | d in data
    requires forall i | 0 <= i < |data| :: "id" in data[i].entries
    ensures r.None? <==> forall i | 0 <= i < |data| :: IdText(data[i].entries, cat) != id
    ensures r.Some? ==> r.value < |data| && IdText(data[r.value].entries, cat) == id
    ensures r.Some? ==> forall i | 0 <= i < r.value :: IdText(data[i].entries, cat) != id
  {
    if data == [] then None
    else if IdText(data[0].entries, cat) == id then Some(0)
    else match FindIndex(data[1..], id, cat)
      case None => None
      case Some(k) => Some(k + 1)
  }

  /** The record found for `id`, or `None`. */
  function Found(data: seq<Dict>, id: string, cat: Catalog): Option<Dict>
    reads set d | d in data
    requires forall i | 0 <= i < |data| :: "id" in data[i].entries
  {
    match FindIndex(data, id, cat)
    case None => None
    case Some(i) => Some(data[i])
  }

  /** The records found for the ids of the augments named in an offer. */
  function Lookups(data: seq<Dict>, names: seq<string>, cat: Catalog): (r: seq<Option<Dict>>)
    reads set d | d in data
    requires forall i | 0 <= i < |data| :: "id" in data[i].entries
    ensures |r| == |names|
    ensures forall k | 0 <= k < |names| :: r[k] == Found(data, cat.idOf(names[k]), cat)
  {
    seq(|names|, k requires 0 <= k < |names| && forall i | 0 <= i < |data| :: "id" in data[i].entries
                   reads set d | d in data => Found(data, cat.idOf(names[k]), cat))
  }

  /** Looking up one more name appends the record found for it. */
  lemma LookupsAppend(data: seq<Dict>, names: seq<string>, name: string, cat: Catalog)
    requires forall i | 0 <= i < |data| :: "id" in data[i].entries
    ensures Lookups(data, names + [name], cat) == Lookups(data, names, cat) + [Found(data, cat.idOf(name), cat)]
  {
    assert (names + [name])[|names|] == name;
    assert forall k | 0 <= k < |names| :: (names + [name])[k] == names[k];
  }

  /** The records found for an offer are ready records of the engine; a name is unknown exactly when nothing is found. */
  lemma FoundReady(data: seq<Dict>, names: seq<string>, cat: Catalog)
    requires forall i | 0 <= i < |data| :: "id" in data[i].entries
    requires forall i | 0 <= i < |data| :: Ready(data[i].entries)
    ensures var ms := Snapshot(Lookups(data, names, cat));
            && (forall k | 0 <= k < |ms| :: ms[k].Some? ==> Ready(ms[k].value))
            && (AllKnown(ms) <==> forall k | 0 <= k < |names| :: Found(data, cat.idOf(names[k]), cat).Some?)
  {
    var ms := Snapshot(Lookups(data, names, cat));
    forall k | 0 <= k < |ms| && ms[k].Some? ensures Ready(ms[k].value) {
      var i := FindIndex(data, cat.idOf(names[k]), cat).value;
      assert ms[k].value == data[i].entries;
    }
  }

  /** An offer of found engine records never meets a malformed record; it fails only when empty or when a name is unknown. */
  lemma ReadyOfferAnswered(ms: seq<Option<map<string, Value>>>, t: Thresholds)
    requires forall i | 0 <= i < |ms| :: ms[i].Some? ==> Ready(ms[i].value)
    ensures SuggestInfo(ms, t) != Failure(Malformed)
    ensures SuggestInfo(ms, t).Success? <==> |ms| > 0 && AllKnown(ms)
  {
    if |ms| > 0 && AllKnown(ms) {
      var recs := Records(ms);
      assert forall i | 0 <= i < |recs| :: Ready(recs[i]);
    }
  }

  /** A message loop that read every sorted record produced the whole answer. */
  lemma ListedAnswer(recs: seq<map<string, Value>>, size: Value, t: Thresholds, result: seq<Advice>)
    requires AllScored(recs) && IsNumber(size) && |result| == |recs|
    requires forall k | 0 <= k < |recs| ::
               Listable(recs[Order(recs)[k]]) && result[k] == AdviceAt(recs[Order(recs)[k]], k, size, t)
    ensures Messages(recs, size, t) == Success(result)
  {
    var order := Order(recs);
    OrderPermutes(recs);
    assert AllListable(recs) by {
      forall i | 0 <= i < |recs| ensures Listable(recs[i]) {
        assert i in order;
        var k :| 0 <= k < |order| && order[k] == i;
        assert Listable(recs[order[k]]);
      }
    }
    assert result == seq(|order|, j requires 0 <= j < |order| => AdviceAt(recs[order[j]], j, size, t));
  }

  /**
   * The message loop of `get_suggest_info` over the records sorted by
   * score: it stops at the first record without a numeric `rank` or a
   * `name`.
   */
  method ListMessages(recs: seq<map<string, Value>>, size: Value, t: Thresholds)
      returns (r: Result<seq<Advice>, SuggestError>)
    requires AllScored(recs) && IsNumber(size)
    ensures r == Messages(recs, size, t)
  {
    var order := Order(recs);
    var result := [];
    for j := 0 to |order|
      invariant |result| == j
      invariant forall k | 0 <= k < j :: Listable(recs[order[k]]) && result[k] == AdviceAt(recs[order[k]], k, size, t)
    {
      var augment := recs[order[j]];
      if !Listable(augment) {
        return Failure(Malformed);
      }
      result := result + [AdviceAt(augment, j, size, t)];
    }
    ListedAnswer(recs, size, t, result);
    return Success(result);
  }

  /** The filter keeps only records that have data, and those have everything scoring reads. */
  lemma KeptRecords(raw: seq<Dict>)
    requires forall i | 0 <= i < |raw| && Survives(raw[i].entries) :: RawRecord(raw[i].entries)
    ensures forall j | 0 <= j < |Kept(raw)| :: "id" in Kept(raw)[j].entries
    ensures forall j | 0 <= j < |Kept(raw)| :: RawRecord(Kept(raw)[j].entries)
  {
    var kept := Kept(raw);
    forall j | 0 <= j < |kept| ensures RawRecord(kept[j].entries) {
      var i :| 0 <= i < |raw| && raw[i] == kept[j];
    }
  }

  // ---------------------------------------------------------------------
  // The engine

  class Suggest {
    /** The class attributes read from the configuration. */
    const thresholds: Thresholds
    /** The augment catalogue the engine consults (`augment_tool` and `str`). */
    const catalog: Catalog
    /** The kept records, in input order. */
    var championAugmentData: seq<Dict>
    /** The groups by level: their records best first, and their size. */
    var augmentGroup: map<Value, Group>
    /** The kept records as the data source delivered them. */
    ghost var records: seq<map<string, Value>>
    /** The sort order behind every group. */
    ghost var orders: map<Value, seq<Keyed<Dict>>>

    /** Every kept record is ready for advice. */
    ghost predicate Valid()
      reads this, set d | d in championAugmentData
    {
      forall i | 0 <= i < |championAugmentData| :: Ready(championAugmentData[i].entries)
    }

    /**
     * `Suggest(champion_augment_data)` on the records `raw` the data source
     * delivered: keeps those with data, groups them by level and ranks
     * every group. Records that are not kept are left as they were.
     */
    constructor (raw: seq<Dict>, t: Thresholds, cat: Catalog, num: Numerics)
      requires Distinct(raw)
      requires forall i | 0 <= i < |raw| :: Filterable(raw[i].entries)
      requires forall i | 0 <= i < |raw| && Survives(raw[i].entries) :: RawRecord(raw[i].entries)
      modifies set d | d in raw
      ensures thresholds == t && catalog == cat
      ensures championAugmentData == old(Kept(raw)) && records == old(Contents(Kept(raw)))
      ensures forall i | 0 <= i < |records| :: "id" in records[i]
      ensures forall i | 0 <= i < |records| :: RawRecord(records[i])
      ensures Valid()
      ensures forall i | 0 <= i < |championAugmentData| :: championAugmentData[i].entries["id"] == records[i]["id"]
      ensures Grouped(championAugmentData, records, cat, num, augmentGroup, orders)
      ensures forall i | 0 <= i < |raw| && raw[i] !in championAugmentData :: raw[i].entries == old(raw[i].entries)
    {
      var kept := Kept(raw);
      ghost var before := Contents(kept);
      KeptRecords(raw);
      var groups;
      ghost var byLevel;
      groups, byLevel := BuildGroups(kept, before, cat, num);
      assert kept == old(Kept(raw)) && before == old(Contents(Kept(raw)));
      thresholds := t;
      catalog := cat;
      championAugmentData := kept;
      records := before;
      augmentGroup := groups;
      orders := byLevel;
    }

    /** `get_augment_info_by_id(augment_id)`: the first kept record with that id, or `None`. */
    method GetAugmentInfoById(augmentId: string) returns (r: Option<Dict>)
      requires Valid()
      ensures FindIndex(championAugmentData, augmentId, catalog).None? ==> r.None?
      ensures FindIndex(championAugmentData, augmentId, catalog).Some? ==>
                r == Some(championAugmentData[FindIndex(championAugmentData, augmentId, catalog).value])
    {
      for i := 0 to |championAugmentData|
        invariant forall k | 0 <= k < i :: IdText(championAugmentData[k].entries, catalog) != augmentId
      {
        var item := championAugmentData[i];
        if IdText(item.entries, catalog) == augmentId {
          return Some(item);
        }
      }
      return None;
    }

    /** `get_suggest_info(augments)` on records that may be `None`; it changes nothing. */
    method GetSuggestInfo(augments: seq<Option<Dict>>) returns (r: Result<seq<Advice>, SuggestError>)
      ensures r == SuggestInfo(Snapshot(augments), thresholds)
    {
      if |augments| == 0 {
        return Failure(NoAugments);
      }
      if augments[0].None? {
        return Failure(UnknownAugment);
      }
      var head := augments[0].value.entries;
      if !HasNumber(head, "group_size") {
        return Failure(Malformed);
      }
      var ms := Snapshot(augments);
      for i := 0 to |ms|
        invariant forall k | 0 <= k < i :: KeyReadable(ms[k])
      {
        if !KeyReadable(ms[i]) {
          assert FirstUnkeyed(ms, 0) == Some(i);
          if ms[i].None? {
            return Failure(UnknownAugment);
          }
          return Failure(Malformed);
        }
      }
      assert FirstUnkeyed(ms, 0).None?;
      var recs := Records(ms);
      if !AllScored(recs) {
        return Failure(Malformed);
      }
      r := ListMessages(recs, head["group_size"], thresholds);
    }

    /**
     * `suggest(augments)`: looks up the id of every named augment and its
     * record, then advises on them. With every record ready, the answer
     * fails only for an empty offer or an unknown name.
     */
    method Suggest(augments: seq<string>) returns (r: Result<seq<Advice>, SuggestError>)
      requires Valid()
      ensures r == SuggestInfo(Snapshot(Lookups(championAugmentData, augments, catalog)), thresholds)
      ensures r != Failure(Malformed)
      ensures r.Success? <==>
        |augments| > 0 && forall k | 0 <= k < |augments| :: Found(championAugmentData, catalog.idOf(augments[k]), catalog).Some?
    {
      var info := [];
      for k := 0 to |augments|
        invariant info == Lookups(championAugmentData, augments[..k], catalog)
      {
        var augmentId := catalog.idOf(augments[k]);
        var item := GetAugmentInfoById(augmentId);
        assert augments[..k + 1] == augments[..k] + [augments[k]];
        LookupsAppend(championAugmentData, augments[..k], augments[k], catalog);
        info := info + [item];
      }
      assert augments[..|augments|] == augments;
      r := GetSuggestInfo(info);
      FoundReady(championAugmentData, augments, catalog);
      ReadyOfferAnswered(Snapshot(info), thresholds);
    }
  }
}
