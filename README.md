# Process-monitor wallpaper: a Dafny model

The repository has two scripts that sample the running processes and draw a desktop wallpaper from them.

- **collect.py** draws one bubble per application. A bubble's area grows with the application's memory and its colour marks the CPU tier. A bubble keeps the position it had on earlier runs, which are read from a position file.
- **main.py** draws a text dashboard. It shows one horizontal bar per application and a label shortened to fit its column. After drawing, it calls notifier.py's `check_high_memory`, which sends a desktop notification when some application uses at least 7000 MB.

Both scripts rank their applications with a `collect_usage` function; main.py uses the one in monitor.py. That function:

- walks the process records and skips those whose query raised;
- sums memory and CPU per name in a dictionary that keeps insertion order;
- sorts stably by memory, descending;
- drops the entries under `min_mb` and keeps the first `limit`.

The model is split into modules:

| module | file | what it holds |
|---|---|---|
| `Sequences` | `sequences.dfy` | the list builtins: filter, slice and max |
| `Ranking` | `ranking.dfy` | the stable descending sort as an insertion sort, and the sort/filter/truncate pipeline |
| `Sampling` | `sampling.dfy` | the aggregation loop as a method over the record stream, with a reference definition by recursion |
| `Monitor` | `monitor.dfy` | monitor.py's key, which maps a missing or empty name to `"unknown"`, and the `(name, pid, mem, cpu)` rows the dashboard expects |
| `Placement` | `placement.dfy` | collect.py's `overlaps`, the 200-attempt search and the position-reuse loop, as methods proved against a recursive `Layout` |
| `Collect` | `collect.dfy` | collect.py's bubble sizes, colour tiers and `generate_wallpaper` |
| `Notifier` | `notifier.dfy` | offenders, offender lines, the message and the two effects |
| `Dashboard` | `main.dfy` | `truncate_to_fit`, the bar lengths, rows and colours, and the script at the bottom of main.py, both as written and corrected |

Inputs replace the calls to the outside world:

- the process records are a sequence of `Option<Proc>`, where `None` is a record that raised;
- the `random()` results are a caller-supplied sequence of draws;
- the loaded position file is a map;
- the rendered width of a label is an abstract predicate `fits`.

## Model

| member | source | states |
|---|---|---|
| Sequences.Filter | monitor.py:29-33 | the comprehension's `if` keeps a subset of the input, holding exactly the elements that satisfy the test |
| Sequences.Take | monitor.py:33 | `[:limit]` keeps the first `min(limit, len)` elements, unchanged |
| Sequences.Max | collect.py:64 | `max` returns an element of the list that no element exceeds |
| Sequences.AssignedInOrder | collect.py:78-95 | a dictionary built by assigning key after key from empty has exactly those keys, and the last assignment to a key wins |
| Ranking.Insert | monitor.py:23-27 | one insertion step of the sort adds exactly one entry and keeps the multiset otherwise |
| Ranking.SortByMem | monitor.py:23-27 | the sort is a permutation of the dictionary's items |
| Ranking.InsertMembers | monitor.py:23-27 | an insertion holds the inserted entry and exactly the old entries |
| Ranking.SortMembers | monitor.py:23-27 | the sorted list holds exactly the items |
| Ranking.InsertSorted | monitor.py:23-27 | inserting into a list ordered by descending memory keeps it ordered |
| Ranking.SortSorted | monitor.py:23-27 | the sorted list is non-increasing in memory |
| Ranking.InsertKeepsTies | monitor.py:23-27 | the inserted entry goes ahead of the old entries of equal memory |
| Ranking.SortKeepsTies | monitor.py:23-27 | the entries of any one memory value keep their input order, so the sort is stable under `reverse=True` |
| Ranking.InsertCount | monitor.py:23-27 | an insertion adds one to the count of any property the inserted entry has |
| Ranking.SortCount | monitor.py:23-27 | sorting keeps the number of entries with any property |
| Ranking.InsertNamesDistinct | monitor.py:23-27 | inserting a new name keeps the names distinct |
| Ranking.SortNamesDistinct | monitor.py:23-27 | sorting keeps the names distinct |
| Ranking.FilterSorted | monitor.py:29-33 | filtering an ordered list keeps it ordered |
| Ranking.Rank | monitor.py:23-33 | `sorted(...)`, then the `min_mb` filter, then `[:limit]`: at most `limit` entries, each at or above `min_mb`; the lemmas below state the rest |
| Ranking.RankBounded | monitor.py:23-33 | the result has `min(limit, #survivors)` entries, at most `limit`, each from the items and at or above `min_mb`, in descending memory order |
| Ranking.RankNamesDistinct | monitor.py:29-33 | distinct names in the items give distinct names in the result |
| Ranking.RankComplete | monitor.py:29-33 | the filter comes before the slice: a qualifying item is in the result unless `limit` entries at least as large fill it |
| Ranking.RankStable | monitor.py:23-33 | two result entries of equal memory keep the order they had in the items |
| Sampling.FirstSeen | monitor.py:14-15 | the dictionary's keys are distinct, each is the key of some record that did not raise, and every such record's key is among them |
| Sampling.Grouped | monitor.py:14-18 | the dictionary's items, in first-seen order, carry each key's sums of memory and CPU over its records; the names are distinct |
| Sampling.AbsentKeyHasZeroTotals | monitor.py:14-18 | a key that never appears has zero sums |
| Sampling.Aggregate | monitor.py:6-21 | the loop over the records builds exactly the first-seen key order and, for each key, the sums over that key's records that did not raise |
| Sampling.Items | monitor.py:24 | `usage.items()`: one entry per key, in key order, with that key's sums |
| Sampling.CollectBy | monitor.py:5-33 | the function's result is the ranking of the grouped records, and it is a top usage list (bounded, floored, ordered, distinct names, exact sums, complete, stable) |
| Sampling.BeforeNames | monitor.py:24 | items in key order put names in the same order as their keys |
| Sampling.RankedAreGroups | monitor.py:29-31 | every output entry is a key that occurred, with that key's memory and CPU sums |
| Sampling.RankedGroupsComplete | monitor.py:29-33 | a group at or above `min_mb` is in the output unless `limit` entries at least as large fill it |
| Sampling.RankedGroupsStable | monitor.py:23-27 | output entries of equal memory appear in the order their names were first seen |
| Sampling.RankedGroupsAreTop | monitor.py:5-33 | the ranking of the grouped records meets every clause of the top usage list |
| Sampling.TotalsAppend | monitor.py:17-18 | the sums over two runs of records joined end to end are the sums of the sums |
| Sampling.FirstSeenAppendSkipped | monitor.py:20-21 | a record that raised adds no key to the dictionary |
| Sampling.SkippedRecordContributesNothing | monitor.py:20-21 | removing a record that raised from anywhere in the stream leaves the items unchanged |
| Sampling.GroupSkipped | monitor.py:20-21 | a record that raised adds nothing to any key's sums |
| Sampling.SkippedAlone | monitor.py:20-21 | a stream holding only a record that raised gives zero sums |
| Sampling.Mb | monitor.py:11 | `rss / (1024 * 1024)`: `Sampling.MbInverse` proves it non-negative and that multiplying back by `1024 * 1024` gives the byte count |
| Sampling.MbInverse | monitor.py:11 | the memory figure is non-negative and is exactly the byte count divided by `1024 * 1024` |
| Sampling.GroupTotals | monitor.py:14-18 | the bucket of key `k` after the records: the sums of `mem` and `cpu` over the records with key `k`; the loop `Sampling.Aggregate` is proved to compute it, and `Sampling.TotalsAppend` and `Sampling.GroupMemNonnegative` state its properties |
| Sampling.GroupMemNonnegative | monitor.py:17 | a bucket's memory sum is never negative |
| Sampling.GroupStep | monitor.py:14-18 | one more record adds its `mem` and `cpu` to its own key's bucket only, and appends its key to the key order exactly when the key is new |
| Sampling.AddRecordOrder | monitor.py:14-15 | adding a record inserts its key into the dictionary, at the end of the key order, exactly when the key is new |
| Sampling.AddRecordTotals | monitor.py:14-18 | after adding a record, every bucket holds the sums over the records so far: a new key starts from zero, and other keys' buckets are unchanged |
| Monitor.UsageKey | monitor.py:10 | the key is never empty, and it is `"unknown"` exactly when the name is missing, empty or already `"unknown"` |
| Monitor.CollectUsage | monitor.py:5-33 | monitor.py's `collect_usage` is a top usage list under the `"unknown"` key |
| Monitor.UnknownMergesNameless | monitor.py:10-18 | the `"unknown"` group's memory and CPU are the sums over nameless, empty-named and `"unknown"`-named records together |
| Monitor.UnknownContribution | monitor.py:10-18 | one record adds to `"unknown"` what it adds to the three raw-name groups together |
| Monitor.NamedBucketsUnchanged | monitor.py:10-18 | every other name's sums are those of the raw name |
| Monitor.UsageKeyMatches | monitor.py:10 | a non-empty name other than `"unknown"` is its own key and nothing else's |
| Monitor.Heaviest | main.py:44 | the PID that `pids = [d[1] for d in data]` and notifier.py:43 expect, which no code computes: in the corrected model a group has a representative process exactly when it has a record, and no record of the group has larger `rss` (an assumption of the corrected model, see "## Left out") |
| Monitor.HeaviestIsFirstLargest | main.py:44 | the assumed representative is the first record of the group with the largest `rss` |
| Monitor.Rows | main.py:43-46 | the `(name, pid, mem, cpu)` rows are the ranked entries in order, each with its group's representative PID |
| Placement.Overlaps | collect.py:39-43 | `overlaps` is true exactly when some circle in `others` is strictly closer than the sum of the two radii |
| Placement.Closer | collect.py:41 | `math.hypot(x - ox, y - oy) < r + orad` as a squared comparison; `Placement.CloserMatchesHypot` proves the two agree |
| Placement.CloserMatchesHypot | collect.py:41 | for `h` the non-negative length with `h² = dx² + dy²`, the squared comparison holds exactly when `h < s` |
| Placement.Uniform | collect.py:87-88 | `random.uniform(a, b)` as `a + (b - a) * random()`; `Placement.UniformBetween` bounds it |
| Placement.Candidate | collect.py:87-88 | the attempt `(uniform(r, 10 - r), uniform(r, 6 - r))` from one pair of draws; `Placement.SearchedPositionInBox` places it in the box |
| Placement.OverlapsEdges | collect.py:39-43 | an empty `others` gives false, and a circle exactly touching gives false |
| Placement.UniformBetween | collect.py:87-88 | `random.uniform(a, b)` with `random()` in `[0, 1)` lies between `a` and `b`, in either order |
| Placement.Pick | collect.py:86-90 | the attempt kept is the first that does not overlap, or else the last one, and every attempt before it overlapped |
| Placement.PickUnique | collect.py:86-90 | that characterisation determines the attempt |
| Placement.SearchPosition | collect.py:86-90 | the retry loop makes 1 to 200 attempts, keeps the picked attempt's candidate, and a point found before the budget ran out overlaps nothing placed |
| Placement.Used | collect.py:83-90 | an app uses at most 200 attempts |
| Placement.Layout | collect.py:82-95 | after `n` apps, `placed` holds `n` circles and at most `200 n` attempts were consumed |
| Placement.LayoutStep | collect.py:82-95 | one iteration appends the app's circle, records its point in the new map and advances the stream by the attempts used |
| Placement.PlaceCircles | collect.py:77-97 | the placement loop produces exactly the `placed` list and position map of the reference `Layout` |
| Placement.StoredStep | collect.py:83-84 | a stored app is appended at its stored point and consumes no attempt |
| Placement.SearchedStep | collect.py:86-95 | a searched app is appended at the searched point and consumes the attempts the search made |
| Placement.LayoutPrefix | collect.py:92 | later iterations only append: the first `i` circles never change |
| Placement.CircleFixedWhenPlaced | collect.py:82-92 | circle `i` of the run is app `i`'s spot, chosen against exactly the circles before it |
| Placement.OneCirclePerApp | collect.py:82-92 | one circle per app, in rank order, with the app's radius |
| Placement.StoredPositionReused | collect.py:83-84 | an app in the loaded map is placed exactly at its stored point, with no overlap test and no attempt consumed |
| Placement.SearchedPositionIsFirstFree | collect.py:86-92 | a searched app's centre is the first candidate clear of every earlier circle (stored ones included), or the 200th; a centre found early is apart from every earlier circle |
| Placement.SearchedCentreIsCandidate | collect.py:86-88 | a searched centre is the candidate of some draw of the stream |
| Placement.SearchedPositionInBox | collect.py:87-88 | a searched centre lies in `[r, 10-r] x [r, 6-r]`, or in `[10-r, r] x [6-r, r]` when the radius reverses the interval |
| Placement.ApartSymmetric | collect.py:41 | not overlapping is symmetric |
| Placement.EarlyStopSucceeds | collect.py:86-90 | a search that breaks before its 200th attempt has succeeded: the spot kept overlaps no earlier circle |
| Placement.FoundClearOfEarlier | collect.py:89-92 | a circle whose search succeeded, early or at the 200th attempt, is apart from every earlier circle, in both directions |
| Placement.CleanSearchesDoNotOverlap | collect.py:82-95 | when every app was searched for and every search succeeded, no two circles of the run overlap |
| Placement.SavedStep | collect.py:95 | each iteration sets the app's entry of the new map to its placed point |
| Placement.SavedMapIsBatch | collect.py:78-97 | the saved map's keys are exactly the batch's apps, with stale keys dropped, and each maps to the centre placed for its last occurrence |
| Scaling.RatioBounds | collect.py:65 | `m / max_mem` lies in `(0, 1]` for positive figures and is 1 for the largest |
| Scaling.RatioMonotone | collect.py:65 | `m / max_mem` is strictly increasing in `m` |
| Collect.CollectUsage | collect.py:17-36 | collect.py's `collect_usage` is a top usage list under the raw name, with `None` its own key |
| Collect.CollectDefault | collect.py:132 | `collect_usage()` with the defaults `limit=6, min_mb=50` of collect.py:17: the ranking of the raw-name groups, at most 6 entries, each at least 50 MB |
| Collect.Names | collect.py:60 | `apps` is the names, in order |
| Collect.Mems | collect.py:61 | `mems` is the memory figures, in order |
| Collect.Size | collect.py:65 | `(m / max_mem) * 6000 + 800`; `Collect.SizeBounds` and `Collect.SizeMonotone` state its range and order |
| Collect.Sizes | collect.py:64-65 | one size per app, each `m / max_mem * 6000 + 800` |
| Collect.SizeBounds | collect.py:65 | a positive figure gets a size in `(800, 6800]`, and the largest gets 6800 |
| Collect.SizeMonotone | collect.py:65 | more memory gives a strictly larger size |
| Collect.SizesInRange | collect.py:64-65 | over the whole list: every size in `(800, 6800]`, the largest app at 6800, sizes strictly increasing with memory |
| Collect.CpuTier | collect.py:69-75 | red exactly above 50, orange exactly in `(20, 50]`, green exactly at or below 20 |
| Collect.TierMonotone | collect.py:69-75 | a busier app is never given a calmer colour |
| Collect.CpuColors | collect.py:68-75 | the colour loop gives one tier per CPU figure, in order |
| Collect.RadiusMonotone | collect.py:66 | a larger area gives a larger radius |
| Collect.RadiusExceedsBox | collect.py:65-88 | the radius of every size of at least 800 exceeds 5, so `r > 10 - r` and `r > 6 - r` and both `uniform` intervals are reversed |
| Collect.SearchedBubbleInReversedBox | collect.py:65-88 | with positive memory, every searched bubble's centre lies in the reversed box `[10-r, r] x [6-r, r]` |
| Collect.GenerateWallpaper | collect.py:59-97 | one bubble per app with its name, its placed centre, its size and its CPU tier, and the saved map is the rebuilt map of the run |
| Notifier.Offenders | notifier.py:41-45 | the rows kept by `if mem >= MEMORY_THRESHOLD_MB`; `Notifier.OffendersExact` and `Notifier.OffendersInOrder` state which and in what order |
| Notifier.OffendersExact | notifier.py:41-45 | the offenders are exactly the rows at or above 7000 MB, threshold included; they come from the input, are no more numerous than it, and are none exactly when every row is below |
| Notifier.OffendersInOrder | notifier.py:41-45 | two offenders appear in the order they have in the input |
| Notifier.TruncToInt | notifier.py:42 | `int(mem)` truncates toward zero |
| Notifier.Digits | notifier.py:42 | the decimal digits of a number are non-empty and have no leading zero |
| Notifier.DigitsRoundTrip | notifier.py:42 | the digits read back as the number |
| Notifier.IntText | notifier.py:42 | `str` of an integer is a minus sign or a digit followed by digits |
| Notifier.IntTextRoundTrip | notifier.py:42 | `str` of every integer reads back as that integer |
| Notifier.NegativeTextRoundTrip | notifier.py:42 | the same for negative integers |
| Notifier.OffenderLine | notifier.py:42 | `f"{name} (PID {pid}) – {int(mem)} MB"`; `Notifier.OffenderLineReadsBack` states its shape and that its figure reads back |
| Notifier.OffenderLineReadsBack | notifier.py:42 | an offender line starts with the name and ends with `" MB"`, with its exact length; the figure before `" MB"` reads back as the truncated memory |
| Notifier.Join | notifier.py:28 | `sep.join(items)`; `Notifier.JoinAt`, `Notifier.JoinSeparatorAt` and `Notifier.JoinLength` pin down every character of it |
| Notifier.JoinLength | notifier.py:28 | a join is the items plus one separator between each neighbouring pair |
| Notifier.JoinEnds | notifier.py:28 | a join starts with the first item and ends with the last, with no leading or trailing separator |
| Notifier.JoinContains | notifier.py:28 | every item occurs in the join |
| Notifier.JoinOffsetStep | notifier.py:28 | item `i + 1` starts one item and one separator after item `i` |
| Notifier.JoinSplit | notifier.py:28 | a join of two or more items is the join of all but the last, a separator and the last item, and the last item starts at its offset |
| Notifier.JoinAt | notifier.py:28 | item `i` sits in the join at its offset: the total length of the items before it plus one separator for each of them |
| Notifier.JoinSeparatorAt | notifier.py:28 | a separator follows every item but the last, and the next item starts right after it |
| Notifier.Bulleted | notifier.py:28 | item `i` is `"• "` followed by line `i` |
| Notifier.Message | notifier.py:28 | `"\n\n".join(f"• {line}" for line in lines)`; `Notifier.MessageListsEveryLine` and `Notifier.MessageLineAt` state its contents |
| Notifier.MessageListsEveryLine | notifier.py:28 | the message is empty exactly for no lines; otherwise it starts with a bullet, holds every line behind its bullet, and ends with the last line |
| Notifier.MessageLineAt | notifier.py:28 | bullet `i` sits at its offset, and unless it is the last it is followed by one blank line and then bullet `i + 1`: every line appears, in order, with no trailing separator |
| Notifier.OffenderLines | notifier.py:41-45 | line `i` is the offender line of offender `i` |
| Notifier.CheckHighMemory | notifier.py:40-51 | either no effect, or a notification followed by recording the alert time |
| Notifier.CheckHighMemoryEffects | notifier.py:40-51 | no effect exactly when every row is under the threshold; otherwise the critical notification with the offenders' message, then the alert-time write |
| Dashboard.Shorten | main.py:37 | `text[:-2] + "…"` is one character shorter and ends with `…` |
| Dashboard.Truncated | main.py:29-39 | shorten until the text fits or has at most one character; `Dashboard.TruncatedShape` and `Dashboard.TruncatedLongest` state the result |
| Dashboard.TruncateToFit | main.py:25-39 | the shortening loop returns the reference result `Truncated` |
| Dashboard.TruncatedShape | main.py:29-39 | fitting text is unchanged; otherwise the result fits or is at most one character, and a changed result is a prefix of the text followed by `…` |
| Dashboard.TruncatedLongest | main.py:29-39 | no longer shortening fits: the loop stops at the first fitting length |
| Dashboard.RowMems | main.py:45 | `mems` is the rows' memory, in order |
| Dashboard.MemNorm | main.py:48-49 | one bar length per row, each `m / max_mem * 100` |
| Dashboard.MemNormBounds | main.py:48-49 | with positive figures every length is in `(0, 100]`, the largest row's is 100, and the lengths strictly increase with memory |
| Dashboard.YPositions | main.py:113 | `list(range(n))[::-1]` gives rank `i` the row `n - 1 - i` |
| Dashboard.YPositionsDescending | main.py:113 | rank 0 is on the top row, and every later rank is on a distinct lower row, down to 0 |
| Dashboard.GreenChannel | main.py:118-119 | `0.75 + min(cpu / 100, 1.0) * 0.25`; `Dashboard.GreenChannelRange` states its range |
| Dashboard.GreenChannelRange | main.py:117-119 | the green channel is in `[0.75, 1]` for a non-negative figure, is 1 exactly from 100 on, and never decreases with CPU |
| Dashboard.BarColor | main.py:119 | the colour `(0.1, green channel, 0.9)` of one bar |
| Dashboard.Label | main.py:133 | `f"[{pids[i]}] {app}"`, the text `Dashboard.Captions` shortens |
| Dashboard.StatsText | main.py:158 | `f"{int(mems[i])} MB \| {int(cpus[i])}%"`, the text `Dashboard.Stats` holds |
| Dashboard.BarColors | main.py:116-119 | the colour loop gives one colour per CPU figure, in order |
| Dashboard.Colors | main.py:116-119 | colour `i` is the bar colour of row `i`'s CPU figure |
| Dashboard.Captions | main.py:132-141 | caption `i` is row `i`'s label `[pid] name` shortened to fit |
| Dashboard.Stats | main.py:155-158 | stats text `i` is row `i`'s `"{int(mem)} MB \| {int(cpu)}%"` |
| Dashboard.Bars | main.py:121-164 | the first `n` bars, bar `i` made of the `i`-th entry of each column |
| Dashboard.Panel | main.py:42-164 | one bar per row, in rank order; bar `i` has rank `i`'s row, normalised length and colour, its label `[pid] name` shortened to fit, and `"{int(mem)} MB \| {int(cpu)}%"` |
| Dashboard.GeneratePanel | main.py:42-164 | `generate_wallpaper` computes exactly the reference panel |
| Dashboard.DrawLabels | main.py:132-164 | the label loop draws each row's shortened label and stats beside its bar |
| Dashboard.Raised | main.py:189 | every alert of `check_high_memory` becomes an action, in order |
| Dashboard.RowsClearFloor | main.py:185 | every row from the sampler is at least 50 MB, so the division in `generate_wallpaper` is defined |
| Dashboard.Drawn | main.py:186-188 | with no data nothing is drawn; otherwise the wallpaper is rendered and then set |
| Dashboard.Act | main.py:186-189 | the script's effects for given rows: the drawing half, then the alerts of `check_high_memory`; `Dashboard.ActDrawsOnlyWithData` and `Dashboard.ActNotifiesOffenders` state them |
| Dashboard.Script | main.py:184-189 | the script's effects for one snapshot, over the corrected rows; `Dashboard.ScriptDrawsOnlyWithData` and `Dashboard.ScriptNotifiesOffenders` state them |
| Dashboard.Draw | main.py:186-188 | the `if data:` block produces exactly `Dashboard.Drawn`: nothing without rows, else render then set |
| Dashboard.Run | main.py:184-189 | the `__main__` block performs exactly the reference script |
| Dashboard.ActDrawsOnlyWithData | main.py:186-189 | rendering happens exactly when there are rows, render comes before set, and the memory check's effects always follow |
| Dashboard.ActNotifiesOffenders | main.py:189 | a notification is sent exactly when some row is at or above the threshold, and each notification is followed by the alert-time write |
| Dashboard.ScriptDrawsOnlyWithData | main.py:184-189 | for every snapshot: the wallpaper is drawn exactly when the sampler returns data, and `check_high_memory` runs unconditionally afterwards |
| Dashboard.ScriptNotifiesOffenders | main.py:184-189 | for every snapshot: notified exactly when some reported application reaches 7000 MB, and the alert time is written right after |
| Dashboard.Triples | monitor.py:29-31 | monitor.py returns one 3-tuple per entry |
| Dashboard.Column | main.py:43-46 | a column projection raises IndexError exactly when some tuple is too short; otherwise it is the column |
| Dashboard.ScriptAsWritten | main.py:184-189 | the script as written over monitor.py's tuples: it finishes with no action on `[]`, and otherwise raises IndexError at the first missing column of main.py:43-46; `Dashboard.ScriptAsWrittenNeverNotifies` states the outcome |
| Dashboard.ScriptAsWrittenNeverNotifies | main.py:43-46 | over monitor.py's 3-tuples the script as written crashes whenever there is data, does nothing otherwise, and the tuples never unpack as 4-tuples |
| Dashboard.OneAppGroups | monitor.py:5-33 | one 100 MB process named `a` groups to the single entry `("a", 100, 0)` |
| Dashboard.SingleGroupRanked | monitor.py:23-33 | a single entry above the floor is ranked as itself |
| Dashboard.CrashExample | main.py:46 | for one 100 MB process the script as written raises IndexError |

## Left out

- psutil is not modelled. The enumeration and the blocking `cpu_percent(interval=0.1)` are replaced by the input record sequence, and the CPU figure is taken as given.
- `random.uniform` is `a + (b - a) * random()`, with the `random()` results as a caller-supplied stream. The stream must hold 200 draws per app (`Attempts * |apps| <= |draws|`), since the search can use up to that many.
- The JSON position file is not modelled. `load_positions` becomes the input map, and a failed load is that map being empty. `save_positions` becomes the output map.
  - A `None` name is a key of the map here, but it would be written out as `"null"` in JSON.
  - Malformed stored entries are not modelled.
- The `x_vals` and `y_vals` lists are not modelled separately; they are the centres of `placed`.
- All matplotlib rendering is not modelled, including scatter, barh, text, savefig, the fixed title and time panels, and the axis limits. The panel is the list of bars with their rows, lengths, colours and texts. The renderer's width test in `truncate_to_fit` is the abstract `fits` predicate.
- The bubble label text `f"{app}\n{int(mems[i])} MB\n{int(cpus[i])}%"` (collect.py:105-115) is not modelled; a bubble carries its app, memory-derived size and tier.
- `math.sqrt` radii are inputs tied to the sizes by `IsRadius` (`r > 0` and `r² = s / π`, with π the decimal value of `math.pi`). `math.hypot` is decided as a squared-distance comparison over the reals.
- Floating-point rounding is not modelled; memory and CPU figures are reals.
- `subprocess.run` (gsettings and notify-send), `datetime.now()` and the alert-time file are not modelled. `check_high_memory` returns its two effects as values; `update_last_alert_time`'s file content (the current time) is not.
- The commented-out cooldown (notifier.py:13-19) is not live code.
- background.py and `draw_neural_background` are left out: the drawing is random and decorative, with no contract.
- collect.py's `__main__` block (collect.py:131-135): only its call `collect_usage()` is modelled (`Collect.CollectDefault`). Its `if data:` gate is the one main.py has, which `Dashboard.Draw` models, except that it draws bubbles rather than the panel. Its `generate_wallpaper` would also need radii supplied by the caller.
- `limit` is a `nat`. Python would treat a negative `limit` as slicing from the end.
- `Collect.GenerateWallpaper`, `Collect.Sizes`, `Dashboard.GeneratePanel`, `Dashboard.MemNorm` and `Dashboard.Panel` require a non-empty list with a positive maximum memory. The source raises ValueError on an empty `max` and ZeroDivisionError on a zero maximum. Both call sites guard against this: the scripts draw only when `data` is non-empty, and every entry clears the 50 MB floor (`Dashboard.RowsClearFloor`).
- Monitor.Rows: the PID of a row is the group's heaviest process, the first record with the largest `rss`. The source has no PID anywhere, so this representative is an assumption of the corrected model.
- The position store: collect.py:78 starts `new_positions` empty on every run, and only it is saved (collect.py:97), so entries of apps not in the current batch are dropped (`Placement.SavedMapIsBatch`).
- The placement box is 10 by 6 (collect.py:87-88), not the image's 1366 by 768. Every radius exceeds 5 (it is about 16 or more), so the interval `[r, 10 - r]` is reversed and every searched centre lies in `[10 - r, r] x [6 - r, r]` (`Collect.SearchedBubbleInReversedBox`). The model keeps this behaviour instead of guessing the intended units.

## Findings

| source | as written | input that shows it | evidently intended | confidence | as-written member | corrected member |
|---|---|---|---|---|---|---|
| main.py:43-46, notifier.py:43, monitor.py:29-31 | main.py takes `collect_usage` from monitor.py, which returns 3-tuples `(name, mem, cpu)`. `generate_wallpaper` and `check_high_memory` read `(name, pid, mem, cpu)` 4-tuples, so `cpus = [d[3] for d in data]` raises IndexError whenever there is data, and no notification is ever sent. | one readable process named `a` with 100 MB of `rss` | rows `(name, pid, mem, cpu)` carrying a PID per application, drawn and checked as main.py and notifier.py expect | not executed | Dashboard.ScriptAsWrittenNeverNotifies, Dashboard.CrashExample | Monitor.Rows, Dashboard.Run, Dashboard.ScriptNotifiesOffenders |
