# ARAM Mayhem augment advisor — core model

This project is a Dafny model of the recommendation core of `aram_mayhem_helper`.
The helper advises a League of Legends player which of the augments offered in an
ARAM Mayhem game to pick.

The engine (`Suggest`) is built from one champion's augment records. Each record is
a dict with `id`, `performance` and `popular`. The constructor does three things:

- It drops records without data: `performance == 170` or `popular == 0`.
- It tags every remaining record with its augment's `level` and `name`, and files it
  in the bucket of its level.
- For each bucket it:
  - rescales `performance` with outlier-robust min-max bounds (Tukey's fences);
  - rescales `popular` with plain min-max bounds;
  - combines them into `weighted_sum = round(0.7 * p + 0.3 * q, 2)`;
  - sorts the bucket by that score (stable, descending);
  - writes `rank` and `group_size` into every record.

Asked about an offer of augment names, the engine looks up each record by id. It
sorts the offered records by score and gives each a verdict:

- pick it at once;
- consider it and keep it for now (only the first shown);
- consider it but it may be rerolled;
- skip it.

The verdict follows from the record's rank within its level and from its score,
against four thresholds read from the configuration.

Modules, one per source unit:

- `Dicts` (`dicts.dfy`): Python dicts as a `Dict` class whose `entries` map is
  updated in place. `Value` holds Python's scalar values.
- `Norm` (`norm.dfy`): `utils/norm.py`. The bound and scaler helpers are pure
  functions. The two annotators are methods that change the dicts, each proved
  against a function of the list's contents.
- `Configuration` (`config.dfy`): `utils/config.py`, the nested `Config.get`.
- `Ordering` (`ordering.dfy`): Python's stable `sorted(..., reverse=True)` as a
  function, with its order, coverage and injectivity proved.
- `Grouping` (`grouping.dfy`): the constructor's filter, its tagging loop and its
  per-level scoring and ranking loop.
- `Advising` (`advice.dfy`): the thresholds and the verdicts of
  `get_suggest_info`, as a specification function `SuggestInfo`.
- `Suggestion` (`suggest.dfy`): the class `Suggest`, meaning its constructor,
  `get_augment_info_by_id`, `suggest` and `get_suggest_info`.

Calls into code outside the core are parameters:

- `Numerics` stands for `np.percentile`, the square root in `np.std` and
  `round`.
- `Catalog` stands for `str()` of an id, `augment_tool.get_augment_info` and
  `augment_tool.get_augment_id`.
- The configuration table is given as already parsed TOML.

## Model

| member | source | states |
|---|---|---|
| Norm.Min | src/aram_mayhem_helper/utils/norm.py:43 | `min(values)` is an element of the list and no element is smaller |
| Norm.Max | src/aram_mayhem_helper/utils/norm.py:44 | `max(values)` is an element of the list and no element is larger |
| Norm.Inside | src/aram_mayhem_helper/utils/norm.py:20-21 | `arr[mask]` holds exactly the values inside the window, and is no longer than the input |
| Norm.IqrWindowFences | src/aram_mayhem_helper/utils/norm.py:11-17 | Tukey's fences are four interquartile ranges apart, centred on the quartiles' midpoint, and hold both quartiles when q1 <= q3 |
| Norm.Outside | src/aram_mayhem_helper/utils/norm.py:20-22 | `arr[~mask]` holds exactly the values outside the window |
| Norm.OutsideCounts | src/aram_mayhem_helper/utils/norm.py:22 | `arr[~mask]` holds each value outside the window as often as the input does, and no other value |
| Norm.OutsidePositions | src/aram_mayhem_helper/utils/norm.py:20-22 | the positions outside the window, strictly increasing, each in range, and exactly those whose value is outside |
| Norm.OutsideInOrder | src/aram_mayhem_helper/utils/norm.py:22 | `arr[~mask]` is the input read at those increasing positions, so it keeps input order |
| Norm.GetNormalMinMax | src/aram_mayhem_helper/utils/norm.py:4-28 | min <= max, both are input values, and the outliers are exactly the values outside Tukey's fences. When some value is inside, min and max are inside and bound every inside value. When none is, they bound all values |
| Norm.NormalRangeOutliers | src/aram_mayhem_helper/utils/norm.py:20-28 | the `outliers` list is `Outside` of the values: each value beyond the fences as often as it occurs, in input order |
| Norm.MinMaxNormalize | src/aram_mayhem_helper/utils/norm.py:31-54 | the bounds are the robust ones or the plain population bounds. Equal bounds give the constant-zero scaler. Otherwise min maps to 0, max maps to 1, and the spread is positive |
| Norm.ZScoreNormalize | src/aram_mayhem_helper/utils/norm.py:57-75 | mean * n equals the sum and std is the root of the population variance. Zero std gives the constant-zero scaler; otherwise mean maps to 0 and mean + std maps to 1 |
| Norm.AffineIncreasing | src/aram_mayhem_helper/utils/norm.py:51-52 | a scaler `(x - c) / s` with `s > 0` is strictly increasing |
| Norm.MinMaxStrictlyIncreasing | src/aram_mayhem_helper/utils/norm.py:47-54 | with distinct bounds, min-max normalisation keeps the order of its inputs strictly |
| Norm.MinMaxRange | src/aram_mayhem_helper/utils/norm.py:47-54 | with distinct bounds, values between them land in [0, 1]. Values below or above them land below 0 or above 1, since nothing is clamped |
| Norm.FirstInvalid | src/aram_mayhem_helper/utils/norm.py:96-103 | no error iff every item from `from` on holds a number under the key. Otherwise the error names the first item that does not, KeyError iff the key is missing |
| Norm.CollectNumbers | src/aram_mayhem_helper/utils/norm.py:95-103 | the first loop of `add_normalized_attr` fails iff some item is invalid, with the first such item's error. Otherwise it returns the numbers in list order |
| Norm.NormalizeError | src/aram_mayhem_helper/utils/norm.py:96-111 | no error iff every item holds a number, the type is `min-max` or `z-score`, and `min-max` has a non-empty population. The first invalid item's error wins; `ValueError` iff all items are valid and the type is unknown; the empty-population error iff the type is `min-max` and the list is empty |
| Norm.ChooseScalerCalibrated | src/aram_mayhem_helper/utils/norm.py:105-111 | the chosen scaler sends the population's reference points to 0 and 1: its bounds for `min-max`, its mean and one deviation above for `z-score`. It is constantly 0 when those points meet or the population is empty |
| Norm.WriteScaled | src/aram_mayhem_helper/utils/norm.py:113-117 | every dict gets `newAttr` = round(f(value), 4) and nothing else changes |
| Norm.AddNormalizedAttr | src/aram_mayhem_helper/utils/norm.py:79-117 | the error is the one `NormalizeError` names (first invalid item, then an unknown type), and on error no dict changes. Otherwise every item had a number and every dict got its rounded scaled value, with the scaler chosen from the whole population |
| Norm.CheckPair | src/aram_mayhem_helper/utils/norm.py:141-153 | no error iff both attributes hold numbers; otherwise a KeyError at this item iff an attribute is missing (naming `attr1` first), else a TypeError naming the first attribute whose value is not a number |
| Norm.WeightedFrom | src/aram_mayhem_helper/utils/norm.py:140-159 | the pass stops at the first item failing its checks, with that item's error. Items before it carry round(v1*w1 + v2*w2, 2); the rest are untouched |
| Norm.AddWeightedSumAttr | src/aram_mayhem_helper/utils/norm.py:120-159 | the dicts end up as `WeightedFrom` describes and the error is its error, so items before a failing one are already written |
| Norm.WeightedFromSymmetric | src/aram_mayhem_helper/utils/norm.py:156 | swapping the two (attribute, weight) pairs writes the same values and stops at the same item |
| Configuration.Config.constructor | src/aram_mayhem_helper/utils/config.py:11-19 | the configuration holds the parsed table |
| Configuration.Config.Get | src/aram_mayhem_helper/utils/config.py:21-33 | `get(*keys, default)` returns `Lookup` of the path; it changes nothing |
| Configuration.LookupFollowsPath | src/aram_mayhem_helper/utils/config.py:26-33 | a path that resolves through tables yields the value at its end, whatever the default |
| Configuration.LookupFallsBack | src/aram_mayhem_helper/utils/config.py:27-32 | a path that does not resolve yields the default |
| Configuration.LookupIsPathOrDefault | src/aram_mayhem_helper/utils/config.py:26-33 | the result is the default or the value the path resolves to |
| Configuration.LookupKeepsFalsy | src/aram_mayhem_helper/utils/config.py:31 | falsy values (`0`, `False`, `""`) at a resolving path are returned, since only `None` falls back |
| Configuration.LookupAppend | src/aram_mayhem_helper/utils/config.py:27-30 | looking up `head + tail` is looking up `tail` from where `head` leads |
| Ordering.Insert | src/aram_mayhem_helper/algorithm/suggest.py:40 | inserting into a sorted sequence adds exactly that element (multiset) and keeps it sorted |
| Ordering.SortDesc | src/aram_mayhem_helper/algorithm/suggest.py:40 | same length; each output element is an input element with its key and position; the output is ordered by key descending, then by position |
| Ordering.SortDescCovers | src/aram_mayhem_helper/algorithm/suggest.py:40 | every input position occurs in the sorted output |
| Ordering.SortDescInjective | src/aram_mayhem_helper/algorithm/suggest.py:40 | no input position occurs twice in the sorted output |
| Ordering.SortDescOrdered | src/aram_mayhem_helper/algorithm/suggest.py:88 | keys never increase along the output, and equal keys keep input order (stability) |
| Grouping.Survives | src/aram_mayhem_helper/algorithm/suggest.py:19 | a record passes the filter only if it has both keys; with numeric values it passes iff `performance != 170` and `popular != 0` |
| Grouping.Kept | src/aram_mayhem_helper/algorithm/suggest.py:18-20 | the kept records are input records that have data, and every input record with data is kept |
| Grouping.SurvivorPositions | src/aram_mayhem_helper/algorithm/suggest.py:18-20 | the positions of the records with data, strictly increasing, each in range, and exactly those that pass the filter |
| Grouping.KeptInOrder | src/aram_mayhem_helper/algorithm/suggest.py:18-20 | the kept list is the input read at those increasing positions, so it keeps input order |
| Grouping.TaggedEntries | src/aram_mayhem_helper/algorithm/suggest.py:24-27 | tagging adds exactly the keys `level` and `name`, holding the catalogue's level and name, and leaves every other entry as it was |
| Grouping.SelectAtPositions | src/aram_mayhem_helper/algorithm/suggest.py:28-31 | the bucket of level `l` is the list read at the increasing positions holding `l`, so it keeps input order |
| Grouping.SelectMembership | src/aram_mayhem_helper/algorithm/suggest.py:28-31 | a record is in the bucket of level `l` iff its level is `l` |
| Grouping.SelectDistinct | src/aram_mayhem_helper/algorithm/suggest.py:28-31 | a bucket holds no record twice, and only records of the list |
| Grouping.SelectAppend | src/aram_mayhem_helper/algorithm/suggest.py:31 | appending a record appends it to the selection of its own level only |
| Grouping.BucketsAppend | src/aram_mayhem_helper/algorithm/suggest.py:28-31 | one iteration of the grouping loop keeps `Buckets`: one bucket per level that occurs, holding its records in input order |
| Grouping.TagRecord | src/aram_mayhem_helper/algorithm/suggest.py:24-27 | the record gets the catalogue's `level` and `name`, and the level is returned |
| Grouping.TagAndGroup | src/aram_mayhem_helper/algorithm/suggest.py:21-31 | every kept record is tagged, and the result is exactly the buckets of the records by level, in input order |
| Grouping.Scored | src/aram_mayhem_helper/algorithm/suggest.py:36-38 | a scored record has a numeric `weighted_sum` |
| Grouping.NormalizeBucket | src/aram_mayhem_helper/algorithm/suggest.py:36-37 | `add_normalized_attr` on a bucket of numbers raises nothing and writes the rounded scaled value into each record |
| Grouping.WeighBucket | src/aram_mayhem_helper/algorithm/suggest.py:38 | `add_weighted_sum_attr(..., 0.7, 0.3, "weighted_sum")` raises nothing and writes the weighted sum into each record |
| Grouping.PopularUntouched | src/aram_mayhem_helper/algorithm/suggest.py:36-37 | normalising `performance` leaves every `popular` value as it was |
| Grouping.NormalizeGroup | src/aram_mayhem_helper/algorithm/suggest.py:36-37 | the two normalisations write `performance_norm` and `popular_norm` from the bucket's original populations |
| Grouping.ScoreGroup | src/aram_mayhem_helper/algorithm/suggest.py:36-38 | after the three annotators, each record is `Scored` with the bucket's two scalers |
| Grouping.WriteRanks | src/aram_mayhem_helper/algorithm/suggest.py:42-44 | position `j` of the sorted bucket gets `rank = j + 1` and the bucket size |
| Grouping.SortedPermutes | src/aram_mayhem_helper/algorithm/suggest.py:40-41 | the sorted bucket is a rearrangement: same size, same records, none twice |
| Grouping.SortAndRank | src/aram_mayhem_helper/algorithm/suggest.py:40-44 | the records are in stable descending `weighted_sum` order with their ranks written (`RankedBy`), and the sorted bucket rearranges the bucket |
| Grouping.RankGroup | src/aram_mayhem_helper/algorithm/suggest.py:33-44 | one bucket scored, sorted and ranked as `GroupRanked` states; it is a rearrangement of the bucket |
| Grouping.RankedAfterScoring | src/aram_mayhem_helper/algorithm/suggest.py:36-44 | ranking the scored contents of a bucket is `GroupRanked` of its original contents |
| Grouping.RankLevel | src/aram_mayhem_helper/algorithm/suggest.py:32-44 | one level ranked, and the dicts of every other level unchanged |
| Grouping.VisitedStep | src/aram_mayhem_helper/algorithm/suggest.py:32-41 | storing one more ranked bucket keeps `Visited` |
| Grouping.RankStep | src/aram_mayhem_helper/algorithm/suggest.py:32-44 | one iteration of the second loop moves a level from to-do to done and keeps the loop invariant `Progress` |
| Grouping.Finished | src/aram_mayhem_helper/algorithm/suggest.py:32-44 | with no level left, every bucket is stored ranked, with its size, and its dicts hold the ranked contents |
| Grouping.RankAll | src/aram_mayhem_helper/algorithm/suggest.py:32-44 | the groups have exactly the buckets' levels, and each is its bucket scored and ranked with its size |
| Suggestion.TagAll | src/aram_mayhem_helper/algorithm/suggest.py:24-27 | every record tagged, position by position |
| Suggestion.OwnedByLevel | src/aram_mayhem_helper/algorithm/suggest.py:28-31 | buckets of distinct records are disjoint, each record owned by its level |
| Suggestion.BucketsFilled | src/aram_mayhem_helper/algorithm/suggest.py:28-31 | every bucket is non-empty, with no repeats, holding only kept records |
| Suggestion.BucketContents | src/aram_mayhem_helper/algorithm/suggest.py:31 | a bucket's contents after tagging are the tagged records of its level, in order |
| Suggestion.BucketsTagged | src/aram_mayhem_helper/algorithm/suggest.py:22-31 | the same for every bucket |
| Suggestion.TaggedScorable | src/aram_mayhem_helper/algorithm/suggest.py:24-37 | every tagged record of every bucket has numeric `performance` and `popular` |
| Suggestion.ReadyToRank | src/aram_mayhem_helper/algorithm/suggest.py:21-36 | after the first loop, the buckets meet what the second loop needs: disjoint, non-empty, scorable, and holding the tagged records |
| Suggestion.RankedPlace | src/aram_mayhem_helper/algorithm/suggest.py:40-44 | each member of a ranked bucket sits at some place `j`, with rank `j + 1` written |
| Suggestion.ProcessedReady | src/aram_mayhem_helper/algorithm/suggest.py:24-44 | a raw record once tagged, scored and ranked has a level, a name, a score, and `1 <= rank <= group_size`, with its id unchanged |
| Suggestion.MemberReady | src/aram_mayhem_helper/algorithm/suggest.py:32-44 | every member of a ranked bucket is ready, with its original id |
| Suggestion.RecordReady | src/aram_mayhem_helper/algorithm/suggest.py:21-44 | each kept record is ready once its level's bucket is ranked |
| Suggestion.AllReady | src/aram_mayhem_helper/algorithm/suggest.py:21-44 | every kept record is ready, with its original id |
| Suggestion.Assembled | src/aram_mayhem_helper/algorithm/suggest.py:21-44 | the ranked buckets are the groups `Grouped` describes, and every kept record is ready |
| Suggestion.BuildGroups | src/aram_mayhem_helper/algorithm/suggest.py:21-44 | both loops: one group per level that occurs, each the bucket of that level in kept order, scored, sorted and ranked, with its size; every record is ready, with its original id |
| Suggestion.KeptRecords | src/aram_mayhem_helper/algorithm/suggest.py:18-20 | every kept record has an id and numeric `performance` and `popular` |
| Suggestion.FindIndex | src/aram_mayhem_helper/algorithm/suggest.py:56-58 | the first record whose id text matches, or none iff no record matches |
| Suggestion.Lookups | src/aram_mayhem_helper/algorithm/suggest.py:70-71 | one lookup per offered name, in offer order |
| Suggestion.LookupsAppend | src/aram_mayhem_helper/algorithm/suggest.py:71 | one more name appends its lookup |
| Suggestion.FoundReady | src/aram_mayhem_helper/algorithm/suggest.py:56-58 | records found in the engine are ready; an offer is all known iff every name's id is found |
| Suggestion.ReadyOfferAnswered | src/aram_mayhem_helper/algorithm/suggest.py:85-109 | an offer of ready records never fails as malformed, and is answered iff it is non-empty and every record was found |
| Suggestion.ListedAnswer | src/aram_mayhem_helper/algorithm/suggest.py:90-107 | a loop that read every sorted record produced the `Messages` answer |
| Suggestion.ListMessages | src/aram_mayhem_helper/algorithm/suggest.py:88-109 | the message loop returns `Messages`: one advice per sorted record, or a failure at the first unreadable one |
| Suggestion.Suggest.constructor | src/aram_mayhem_helper/algorithm/suggest.py:14-44 | the engine keeps exactly the records with data, in order. Its groups are those `Grouped` describes and every kept record is ready (`Valid`), with its id unchanged. Dropped records are untouched |
| Suggestion.Suggest.GetAugmentInfoById | src/aram_mayhem_helper/algorithm/suggest.py:46-58 | returns the first record whose id text matches, or `None` when none does |
| Suggestion.Suggest.GetSuggestInfo | src/aram_mayhem_helper/algorithm/suggest.py:75-109 | returns `SuggestInfo` of the records' contents, checking the sort keys in list order; it changes nothing |
| Suggestion.Suggest.Suggest | src/aram_mayhem_helper/algorithm/suggest.py:60-73 | returns `SuggestInfo` of the looked-up records. It never fails as malformed, and succeeds iff the offer is non-empty and every named augment has a kept record |
| Advising.ThresholdAtPath | src/aram_mayhem_helper/algorithm/suggest.py:9-12 | a threshold present under `suggest` is the number the engine uses |
| Advising.ThresholdMissing | src/aram_mayhem_helper/algorithm/suggest.py:9-12 | a threshold missing from the configuration yields `None` |
| Advising.LoadThresholds | src/aram_mayhem_helper/algorithm/suggest.py:9-12 | thresholds load iff all four are numbers, and each is the configured value |
| Advising.Classify | src/aram_mayhem_helper/algorithm/suggest.py:91-107 | the verdict is "skip" iff both the immediate and the consider tests fail; a consider verdict is "keep for now" iff the record is shown first |
| Advising.ClassifyConsider | src/aram_mayhem_helper/algorithm/suggest.py:97-106 | a consider verdict happens iff both immediate tests fail and a consider test passes |
| Advising.ClassifyMonotone | src/aram_mayhem_helper/algorithm/suggest.py:91-107 | a better rank and a higher score never give a weaker verdict |
| Advising.ClassifyPosition | src/aram_mayhem_helper/algorithm/suggest.py:97-106 | the position only splits "keep for now" (first place only) from "may reroll" |
| Advising.ClassifyPick | src/aram_mayhem_helper/algorithm/suggest.py:91-96 | the immediate pick happens iff the rank is within the share or the score reaches the threshold |
| Advising.OrderPermutes | src/aram_mayhem_helper/algorithm/suggest.py:88 | every offered record is shown exactly once |
| Advising.OrderByScore | src/aram_mayhem_helper/algorithm/suggest.py:88 | records are shown best score first; ties keep offer order |
| Advising.Order | src/aram_mayhem_helper/algorithm/suggest.py:88 | the display order has one place per record, each naming a record of the offer |
| Advising.FirstUnkeyed | src/aram_mayhem_helper/algorithm/suggest.py:88 | the first record, in list order, whose sort key cannot be read; none iff every record is present and holds `weighted_sum` |
| Advising.Messages | src/aram_mayhem_helper/algorithm/suggest.py:89-107 | the loop answers iff every record is readable, and otherwise fails as Malformed. Message `j` names the record shown at place `j`, with its rank and the level size |
| Advising.SuggestInfo | src/aram_mayhem_helper/algorithm/suggest.py:85-109 | answered iff the offer is answerable. Empty offer iff NoAugments. UnknownAugment iff the first record is `None`, or it has `group_size` and the first record whose sort key cannot be read is `None`. An answer has one advice per record |
| Advising.AdviceDescribes | src/aram_mayhem_helper/algorithm/suggest.py:90-107 | advice `j` names the record shown at place `j`, with its rank and the first record's level size. Its strength does not depend on the place, and a consider verdict is "keep for now" exactly at place 0 |
| Advising.AdviceFollowsOrder | src/aram_mayhem_helper/algorithm/suggest.py:88-107 | of two records shown, the earlier is at least as strongly advised when its rank is no worse |

## Left out

- I/O is not modelled: reading `config.toml`, logging, and the crawlers and data classes that deliver the records. The configuration is given as a parsed table and the records as `Dict` objects.
- `np.percentile`, the square root inside `np.std` and `round` are parameters (`Numerics`). So are `str()` of an id, `augment_tool.get_augment_info` and `augment_tool.get_augment_id` (`Catalog`). Floating point is modelled as exact reals.
- Suggestion.Suggest.constructor: requires that every raw record has `performance`, and also `popular` unless `performance` is 170. It also requires that every record that passes the filter has an `id` and numeric `performance` and `popular`. On other data Python raises `KeyError` or `TypeError` from the filter, from `str(item["id"])` or from the annotators. That path is not modelled.
- Suggestion.Suggest.constructor: requires the raw records to be distinct objects (`Distinct`). The same dict listed twice would be annotated twice.
- Norm.WriteScaled: requires the dicts of the list to be distinct objects (`Distinct`). With the same dict listed twice and `new_attr == src_attr`, Python rescales that dict twice; the model does not cover that aliasing.
- Norm.AddNormalizedAttr: requires `Distinct` for the same reason. Its only callers, `algorithm/suggest.py` lines 36-37, meet it through the constructor's requirement.
- Norm.AddWeightedSumAttr: requires `Distinct` as well. Its only caller, `algorithm/suggest.py` line 38, meets it through the constructor's requirement.
- Suggestion.Suggest.constructor: levels are grouped by `Value` equality. Python's dict keys would also merge `1`, `1.0` and `True`.
- Grouping.RankAll: visits the levels in an unspecified order, not dict insertion order. Buckets are disjoint, so the final state does not depend on the order. The order of `augment_group`'s keys is not modelled.
- Advising.SuggestInfo: the exceptions of `get_suggest_info` are collapsed into `SuggestError`:
  - an empty offer (`IndexError`) is `NoAugments`;
  - a `None` record (`TypeError`) is `UnknownAugment`;
  - a missing or non-numeric `group_size` is `Malformed`, and so is a missing `weighted_sum` (`KeyError`), whichever the sort meets first;
  - a missing `rank` or `name` is `Malformed` (`KeyError`).
- Advising.SuggestInfo: refuses as `Malformed` a present but non-numeric `weighted_sum` or `rank`. Python's comparisons would raise `TypeError` on most such offers, but not on all. A lone record is never compared by the sort, and the loop's `or` can skip its `weighted_sum`, so Python may answer where the model refuses.
- Advising.Advice: the message text is not modelled. An advice carries the verdict and the name, rank and level size the message shows.
- Advising.LoadThresholds: a threshold that is missing or not a number is refused at load (`None`). Python stores `None` instead. A missing share threshold then raises at the multiplication `augments_num * None` (`algorithm/suggest.py` lines 86-87), before any comparison. A missing score threshold raises only when a comparison reaches it: `or` short-circuits (`algorithm/suggest.py` lines 92-93 and 98-99), so Python still answers every offer whose records all pass the rank tests, and the model refuses those offers.
- Suggestion.Suggest.Suggest: `augment_tool.get_augment_id` is a total function (`Catalog.idOf`). Its behaviour on an unknown name is outside the core.
- Norm.AddNormalizedAttr: `z-score` on an empty list writes nothing. Python computes `np.mean([])` with a warning and also writes nothing.
