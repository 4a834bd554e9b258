# Endpoint monitoring operator: a verified model

A Dafny model of the parts of the endpoint monitoring operator that carry state
across failures, and proofs of what they keep. `dafny verify dfyconfig.toml`
checks all of it.

## What is modelled

**The dashboard's rollups and incidents** (`dashboard/internal/store`,
`dashboard/internal/status`). An hour of a location's raw samples becomes counts
and runs of failures (`HourRollup`); hours become an aggregate with a status
(`Rollups`, `Ladder`), tied to the raw hashes in `HourMeaning`, that the primary
keeps under outages and expiry (`PrimaryStore`); hourly runs are stitched back
into a location's episodes (`Stitching`) and merged across locations into
incidents (`Incidents`, `IncidentMeaning`); hours are summed into days and uptime
(`Days`, `Histories`, `Percent`); and the latency chart chooses between raw checks
and rollups and groups them into buckets (`LatencyChart`, `ChartSources`).
Each stored form is tied to its meaning over the raw samples.

**The rollup runner** (`dashboard/internal/rollup`). The repair flags over any
run of events (`RepairFlags`), the runner's passes and backfills as methods that
make exactly those events (`RollupRunner`), what a backfill leaves behind in the
hours and the days and what of that it notes (`Backfills`, `ForgottenRepairs`),
what a pass and its backfill settle once everything answers (`Recovery`),
what is owed in every state that passes, backfills and expiry can reach
(`RepairRuns`), and which calls a stored hour then comes from (`HourHistories`).

**The alert protocol** (`internal/controller`, `pkg/factory`). One alert to the
end of its retries (`Alerts`), the critical sections of the retry registry
(`RetryRegistry`), and the reconciler interleaved with its background retries
and other writers over a versioned status cell with stale reads and failing
writes (`Announcing`). `StopAndRetries`, `RetryTurns`, `Reconciling`,
`ChangeChain` and `StatusTimes` prove what holds in every interleaving.

**RESP** (`internal/notifier/valkey`, `internal/driver`,
`dashboard/internal/valkeytest`). Two encoders and two parsers, over arbitrary
bytes (`Resp`), replies of every kind (`RespReplies`), and what the reply parser
refuses (`RespErrors`).

`Base`, `Sums` and `Sorting` hold options, maps, sums and sorting.

Loops and objects of the source are methods and classes here, each proved
against a specification function; the theorems are lemmas about those
functions. A map visited in no fixed order is visited through `Base.Pick`,
which promises nothing about the order, so what is proved holds for every order.

## Reading the model

- Times are whole seconds, days are UTC day numbers, averages are reals.
- A location's hour of samples maps distinct timestamps inside the hour to a
  success or a failure, with at most one detail each. Response times are
  never negative where a lemma needs that.
- Every command sent to the primary, every read and every status update has an
  arbitrary outcome given as a parameter. A failed write may still have
  changed the stored value.
- One `RollupHour` call, one pass and one backfill are each one step.
- `requires Holdable` and `requires Printable` in `Resp` and `RespReplies` say that
  lengths and numbers fit a Go `int`, and that a line holds no line feed.

## Where the code and its documentation differ

- `UpdateDailyRollup` is documented to report whether it wrote a rollup. It also
  reports one for a day too old to be kept, for which `writeExpiring` writes
  nothing, and reports none for one whose HSET was done and whose HEXPIRE or
  PERSIST failed (`dashboard/internal/store/store.go:446-461,732-739,783-801`).
  `PrimaryStore.ReportIsWrong` gives both inputs, `PrimaryStore.ReportIsRight`
  the exact condition.
- `afterPass` is documented to start a backfill that finishes what earlier
  passes and backfills left incomplete
  (`dashboard/internal/rollup/rollup.go:249-255`). Some of it is never finished,
  with no flag set. `ForgottenRepairs` shows an input for each way:
  - a backfill passes over a service that it cannot list or whose hours it
    cannot read (`dashboard/internal/rollup/rollup.go:92-118`),
    `UnreadableServiceIsForgotten`;
  - a full one passes over the days of a service whose daily rollups it cannot
    read (`dashboard/internal/rollup/rollup.go:166-173`), `UnreadableDaysAreForgotten`;
  - when the update of a day that has a rollup fails, the full backfill that
    the failure asks for finds the day's hours complete and a rollup stored, and
    skips the day (`dashboard/internal/rollup/rollup.go:175-180`),
    `UpdateFailureIsForgotten`;
  - the day in which the window begins is never updated, although its hours are
    written and the comment speaks of every finished day whose hours were
    (`dashboard/internal/rollup/rollup.go:157-164`), `DayBeforeTheWindowIsForgotten`;
  - a full backfill that can read no samples of an hour older than all that is
    stored of its service marks nothing, and the backfill that the miss asks for
    is not a full one (`dashboard/internal/rollup/rollup.go:145,256-283`),
    `UnmarkedHourIsForgotten`;
  - a pass that comes more than an hour after the one before leaves that one's
    current hour in progress; any positive interval is a valid configuration
    (`dashboard/internal/config/config.go:95`), `LatePassForgetsTheHour`;
  - so does a pass whose listing lacks the service. A listing is the union over
    the locations that could be reached (`dashboard/internal/store/store.go:126-155`),
    `UnlistedServiceIsForgotten`.

  The exact conditions: `Backfills.UndoneHourIsOwed` and
  `Backfills.UndoneDayIsOwed` say when a backfill noted what it left undone,
  `Backfills.DayInWindowBehind` and `Backfills.DayBeforeWindowBehind` which days
  stay behind although nothing fails. `RepairRuns.WhatIsUndoneIsOwed` proves that
  no hour is forgotten in any run without the four ways that concern hours, the
  first and the last three.
- RESP has a nil array, of length -1. `readReply` reads a nil bulk string as nil
  but panics on a nil array (`internal/notifier/valkey/client.go:132-150`),
  `RespReplies.NilArrayPanics`. `RespReplies.ReplyReadsBack` is exact for every
  reply: the first error or nil array in it decides, an error is returned and a
  nil array panics, and any other reply is read as what it means.
  `readCommand` also panics on negative sizes, but for -1 at the very end of the
  input (`dashboard/internal/valkeytest/valkeytest.go:171-192`),
  `Resp.NegativeCountPanics` and `Resp.NegativeSize`.

## Model

| member | source | states |
|---|---|---|
| `Ladder.AggregateFromLocations` | dashboard/internal/status/ladder.go:32-54 | The status depends only on how many locations there are, how many are not successful and how many are out, so not on their order |
| `Ladder.AggregateStatusOf` | dashboard/internal/store/store.go:355-361 | For any visiting order of the locations the hour's status is the one of those three numbers |
| `Ladder.FailuresNeverImprove` | dashboard/internal/status/ladder.go:22-67 | Adding failed checks to any location, known or new, never improves the hour's status |
| `Ladder.SuccessesNeverWorsen` | dashboard/internal/status/ladder.go:22-67 | Adding successful checks to any location, known or new, worsens the hour's status if and only if the hour had no location at all |
| `Ladder.StatusMeans` | dashboard/internal/status/ladder.go:22-54 | An hour is a major outage exactly when every location failed some check and one failed more than it succeeded, and operational exactly when some location failed none, none failed more than it succeeded, and at most one failed at all |
| `HourRollup.ReadSamples` | dashboard/internal/store/store.go:205-225 | The samples are listed once each and in time order, whatever order the hash is visited in |
| `HourRollup.ComputeLocationRollup` | dashboard/internal/store/store.go:201-283 | Counts, measured response times, status and failure runs are those of the hour's samples |
| `HourRollup.SpansAreTheMaximalRuns` | dashboard/internal/store/store.go:231-267 | The runs are exactly the stretches of failures with one message that cannot be extended on either side |
| `HourRollup.ReadingRollupUnique` | dashboard/internal/store/store.go:201-283 | The rollup of a reading is determined by it |
| `HourRollup.RollupBounds` | dashboard/internal/store/store.go:227-282 | Total is success plus failure, measured at most success, min at most average at most max, and average times measured is the exact sum |
| `HourMeaning.RollupCounts` | dashboard/internal/store/store.go:201-283 | Success and failure are the numbers of timestamps whose status says so, measured that of the successful ones with a detail, and least, greatest and average are those of their response times |
| `HourMeaning.RollupRuns` | dashboard/internal/store/store.go:231-267 | Each run begins and ends at failing timestamps, and all checks between fail with its message and are what it counts; every failing timestamp lies in a run, neighbours are apart, and a run is open at an end exactly when no check lies beyond |
| `HourMeaning.HourCounts` | dashboard/internal/store/store.go:331-361 | An hour's counts are the numbers of checks in its locations' hashes, its average is over all their response times, and its status says how many of them failed and which mostly |
| `HourMeaning.ReadHourCounts` | dashboard/internal/store/store.go:307-329 | What a read of the hour gives counts every check found at any location |
| `Stitching.StitchRuns` | dashboard/internal/store/store.go:635-645 | The loop over one hour's runs extends or appends as the specification does |
| `Stitching.SpansOfAppend` | dashboard/internal/store/store.go:628-651 | The maximal runs of two stretches put together are those of each, the last and first perhaps joined |
| `Stitching.StitchIsOnePass` | dashboard/internal/store/store.go:628-651 | However the stream is cut into hours, stitching gives the maximal runs of one pass over all samples with gaps of at most six hours, and knows whether and when the newest sample failed |
| `Stitching.EpisodesCountFailures` | dashboard/internal/store/store.go:639-643 | A location's episodes count each failing sample once |
| `Stitching.AllSegments` | dashboard/internal/store/store.go:628-659 | For any order of the locations, each contributes exactly its stitched and finished runs |
| `Incidents.OngoingMeansFailingNow` | dashboard/internal/store/store.go:652-659 | A location's last run, and no other, is ongoing exactly when live is asked for, its newest sample failed and that sample's hour is within six hours |
| `Incidents.GatherBlock` | dashboard/internal/store/store.go:675-690 | A window takes every run that chains on within 300 seconds and stops at a real gap |
| `Incidents.MergeSegments` | dashboard/internal/store/store.go:666-701 | The windows are exactly the connected components of same-message runs within 300 seconds, each with its locations, bounds, count and ongoing mark, newest first |
| `Incidents.OrderDoesNotMatter` | dashboard/internal/store/store.go:666-701 | Any order of the runs gives the same list of incidents |
| `Incidents.IncidentsCountEverything` | dashboard/internal/store/store.go:676-686 | The incidents' counts sum to the runs' counts |
| `Incidents.FailureWindows` | dashboard/internal/store/store.go:622-661 | From stored hours to incidents: the incidents of every location's runs over the sorted hours |
| `Incidents.IncidentsAreDetermined` | dashboard/internal/store/store.go:609-701 | The returned list is the same for every map iteration order |
| `Incidents.IncidentsCountFailingSamples` | dashboard/internal/store/store.go:609-701 | When each stored hour is the rollup of its samples, the incidents count every failing sample of every location once |
| `Incidents.HourRunsInside` | dashboard/internal/store/store.go:241-267 | The runs stored for an hour lie in the hour, and only the first can be open at its start |
| `IncidentMeaning.IncidentsAreWhereChecksFail` | dashboard/internal/store/store.go:609-701 | Every failing sample lies in an incident with its message and location, and every incident begins and ends with failing samples of its message, and holds one of each of its locations |
| `IncidentMeaning.NearFailuresShareAnIncident` | dashboard/internal/store/store.go:666-690 | Failing samples of one message no more than 300 seconds apart, at whatever locations, belong to one incident |
| `IncidentMeaning.IncidentsLieApart` | dashboard/internal/store/store.go:666-690 | Two incidents of one message lie more than 300 seconds apart |
| `IncidentMeaning.NewestFirst` | dashboard/internal/store/store.go:693-699 | The list begins with the incident that began last; those that began together are in the order of their messages |
| `Rollups.Aggregate` | dashboard/internal/store/store.go:331-353 | The hour's success and failure are the sums over its locations and its average is weighted by measured checks |
| `Rollups.AverageOfAverages` | dashboard/internal/store/store.go:331-353 | The hour's average is total milliseconds over measured checks of all raw samples, although computed from per-location averages |
| `Rollups.MergeStored` | dashboard/internal/store/store.go:366-375 | Each location keeps the record that counts more checks, the latest when they count as many, and the sums are made again |
| `Rollups.ComputeAggregate` | dashboard/internal/store/store.go:307-328 | Exactly the readable locations with checks are rolled up, exactly the unreadable ones are missing |
| `Rollups.LiveHour` | dashboard/internal/store/store.go:379-383 | The live hour is the fresh reading merged with the stored record, found exactly when a location that can be read has samples or the stored record has checks |
| `PrimaryStore.Primary.WriteExpiring` | dashboard/internal/store/store.go:446-461 | What is stored, and what is reported, for every way the three commands can end |
| `PrimaryStore.Primary.RollupHour` | dashboard/internal/store/store.go:405-440 | One call does to the stored hour exactly what the step function says, for every outcome of reads and writes |
| `PrimaryStore.RunKeepsBestReading` | dashboard/internal/store/store.go:366-440 | Over any run of calls and expiries, each location is stored as it was last read with the most checks |
| `PrimaryStore.StoredTotalIsMostRead` | dashboard/internal/store/store.go:366-440 | A location's stored total is the most checks any call read and stored since the record was dropped |
| `PrimaryStore.StoredTotalNeverDecreases` | dashboard/internal/store/store.go:366-440 | No call lowers a stored total, whatever it read and whatever failed |
| `PrimaryStore.RunKeepsRecordOk` | dashboard/internal/store/store.go:405-440 | Every stored record sums up its locations; one without locations lists a missing one and is not in progress |
| `PrimaryStore.RecordIsLastWrite` | dashboard/internal/store/store.go:405-440 | In every run a record lists exactly the locations that the last call which wrote it could not read, is in progress exactly when that call came before the hour's end, and is there exactly when there was such a call |
| `PrimaryStore.CallReports` | dashboard/internal/store/store.go:405-461 | Against the same call with every command done: what is left is the same if the record could be read and the change took effect, and the old one otherwise; it says it wrote exactly when it put a record there with its TTL, and an error tells of every failed command |
| `PrimaryStore.CallWrites` | dashboard/internal/store/store.go:418-440 | With every command done a call writes whenever some location has checks, and otherwise only to change which locations a finished hour lacks |
| `PrimaryStore.RepeatedStepChangesNothing` | dashboard/internal/store/store.go:405-440 | Repeating a call with the same inputs changes nothing more |
| `PrimaryStore.Primary.GetAggregateRollups` | dashboard/internal/store/store.go:516-543 | Exactly the service's stored hours in the range |
| `PrimaryStore.Primary.UpdateDailyRollup` | dashboard/internal/store/store.go:787-801 | Stores the sum of the day's hours when there are checks and the day is kept, and what it reports in every case |
| `PrimaryStore.ReportIsRight` | dashboard/internal/store/store.go:783-801 | What is reported is what was stored if and only if a day with checks is still kept and a write that took effect was completed |
| `PrimaryStore.ReportIsWrong` | dashboard/internal/store/store.go:446-461 | A day too old to be kept is reported written; one stored without its TTL is reported unwritten |
| `PrimaryStore.Primary.WriteDaily` | dashboard/internal/store/store.go:732-739 | What is stored and reported for every outcome of the commands |
| `Days.ComputeDailyFromHours` | dashboard/internal/store/store.go:769-781 | Each day's counts are the sums over its hours, and no other day appears |
| `Days.ByDay` | dashboard/internal/store/store.go:826-842 | A finished day counts from its daily rollup when there is one, every other day from its hours |
| `Days.Uptime` | dashboard/internal/store/store.go:846-855 | The sum of those days' counts over the window |
| `Days.UptimeIsTheDirectSum` | dashboard/internal/store/store.go:826-855 | Without daily rollups of finished days, uptime is the direct sum over the hours of the window |
| `Days.UptimeSurvivesExpiry` | dashboard/internal/store/store.go:823-855 | Once any hours of a finished day have expired, uptime is what it was from all its hours if and only if the daily rollup agrees with them |
| `Histories.GetDailyRollups` | dashboard/internal/store/store.go:741-765 | Exactly the service's stored days in the range |
| `Histories.ReadHistory` | dashboard/internal/store/store.go:553-568 | The stored hours of the window, the current one live exactly when its locations have samples or its record has checks, and the stored days of the last year |
| `Histories.DayInHistory` | dashboard/internal/store/store.go:553-568 | A finished day of the window sums to the same in a history as UpdateDailyRollup sums it in the store |
| `Histories.StoredDayOutlivesItsHours` | dashboard/internal/store/store.go:769-855 | While the hour window covers a finished day, uptime over any window is unchanged by any of its hours expiring after its sum was stored |
| `Histories.StoredDayCounts` | dashboard/internal/store/store.go:826-842 | Within a year a finished day counts as its daily rollup says, whatever hours are left of it |
| `Histories.StoreDayThenExpire` | dashboard/internal/store/store.go:783-801 | The same through the store, and beyond the hour window: at any time in the year after a successful UpdateDailyRollup of a day still kept, whatever hours have expired, the day counts what its hours counted when it was stored, and uptime is that of everything else and this count |
| `Histories.UptimeOutlivesTheHours` | dashboard/internal/store/store.go:826-855 | However many hours have expired, uptime over up to a year and a day is the plain sum over every hour ever stored, as long as each finished day is kept as the sum of its hours or as the hours themselves |
| `Days.UptimeMonotone` | dashboard/internal/store/store.go:846-855 | More days never count fewer checks or successes, and successes never exceed checks |
| `Percent.ShowsThePercentage` | dashboard/internal/store/store.go:803-816 | Read back as a decimal the text is the percentage rounded down to two decimals; 100% exactly when nothing failed; no zeros that say nothing |
| `Percent.ShownMonotone` | dashboard/internal/store/store.go:806-816 | A better ratio never shows a lower percentage |
| `LatencyChart.Accumulator.Merge` | dashboard/internal/store/latency.go:59-72 | Merging changes the receiver to the merge of the two tallies |
| `LatencyChart.MergeLaws` | dashboard/internal/store/latency.go:59-72 | Merging is commutative and associative, with an empty entry changing nothing |
| `LatencyChart.PoolPermuted` | dashboard/internal/store/latency.go:59-81 | Merging entries in any order gives the same checks, failures, sum, minimum and maximum |
| `LatencyChart.PoolRange` | dashboard/internal/store/latency.go:59-67 | Minimum and maximum are attained by some entry with response times and bound all of them |
| `LatencyChart.RollupStandsForItsChecks` | dashboard/internal/store/latency.go:90-105 | An hour's rollup entry equals what merging its raw checks gives |
| `LatencyChart.ReadHour` | dashboard/internal/store/latency.go:225-240 | Exactly the hour's checks inside the range, once each, and the hour's full count |
| `ChartSources.RawHourShows` | dashboard/internal/store/latency.go:225-240 | What is read of an hour is each of its checks inside the range once, failed or with its response time, and how many there are in all |
| `LatencyChart.RawEntries` | dashboard/internal/store/latency.go:199-243 | Every hour asked for, or nothing at all when any hour cannot be read |
| `LatencyChart.LocationEntries` | dashboard/internal/store/latency.go:132-153 | For any order of the hours, each hour contributes its rollup or its raw checks exactly once, in time order |
| `LatencyChart.SettledHourCountsTheLarger` | dashboard/internal/store/latency.go:116-155 | A settled hour fully inside the range counts exactly the larger of raw count and rollup total, from that one source only |
| `ChartSources.RecentHourShowsItsChecks` | dashboard/internal/store/latency.go:122-156 | The current and the previous hour, and the one that begins before the range, show exactly their raw checks inside the range when any can be read, whatever their rollups count; otherwise an hour that begins in the range shows its rollup |
| `ChartSources.SettledHourShowsOne` | dashboard/internal/store/latency.go:122-156 | Any other hour shows its rollup alone when that counts more checks than could be read, and otherwise each check once |
| `ChartSources.PointShowsChecks` | dashboard/internal/store/latency.go:59-88 | A point counts its checks and failures, and shows the average, least and greatest of their response times, or none when none has one |
| `ChartSources.PointShowsRollup` | dashboard/internal/store/latency.go:74-105 | A point for one stored hour counts its checks and failures and shows its average and extremes; a rollup that does not say how many checks were measured counts as having measured its successes |
| `LatencyChart.Series` | dashboard/internal/store/latency.go:164-192 | Points are the entries or buckets that cover exactly the entries of their interval, in strictly increasing time; the total merges all entries |
| `LatencyChart.GroupingConserves` | dashboard/internal/store/latency.go:172-189 | Merging the buckets gives the same tally as merging all the entries |
| `LatencyChart.AtMostMaxPoints` | dashboard/internal/store/latency.go:157-162 | With the width the chart computes there are at most maxPoints buckets |
| `LatencyChart.Latency` | dashboard/internal/store/latency.go:118-195 | Every location's sources, series and stats, the one bucket width, and no series longer than maxPoints |
| `RepairFlags.OneBackfillAtATime` | dashboard/internal/rollup/rollup.go:73-80 | In every run at most one backfill is active, and the flag says whether one is |
| `RepairFlags.FullBackfillsAreApart` | dashboard/internal/rollup/rollup.go:256-283 | Any two full backfills start at least the gap apart |
| `RepairFlags.FlagsRemember` | dashboard/internal/rollup/rollup.go:243-310 | Each flag holds exactly when what it stands for was noted since the start that clears it |
| `RepairFlags.PassStartsWhen` | dashboard/internal/rollup/rollup.go:256-283 | In every run with no backfill active, a pass starts one if and only if a miss was noted since the last start and no location is down, or one down in a pass answered in the next since then; or a failure was noted since and the pass failed nowhere; or one since the last full start, the gap ago, and the pass failed nowhere. In the last case alone it is a full one |
| `RepairFlags.StartsArePaidFor` | dashboard/internal/rollup/rollup.go:243-310 | Backfills started by passes are at most the misses noted plus twice the failures noted |
| `RepairFlags.CleanPassesSettle` | dashboard/internal/rollup/rollup.go:256-283 | In every run, a clean pass and its backfill leave nothing owed but a full one held back by the gap, and a second one the gap later leaves nothing owed at all |
| `RepairFlags.PlayNotes` | dashboard/internal/rollup/rollup.go:243-310 | However often misses and failures are noted, each raises exactly its own flags |
| `RollupRunner.Runner.constructor` | dashboard/internal/rollup/rollup.go:34-45 | The runner starts with a full backfill active |
| `RollupRunner.Runner.NoteStoreFailed` | dashboard/internal/rollup/rollup.go:243-247 | Notes one failure |
| `RollupRunner.Runner.NoteBackfillEnds` | dashboard/internal/rollup/rollup.go:73-80 | Ends the active backfill |
| `RollupRunner.Runner.AfterPass` | dashboard/internal/rollup/rollup.go:256-283 | Changes the flags as the event of an ended pass does, and starts what that event starts |
| `RollupRunner.Runner.RollupServiceHour` | dashboard/internal/rollup/rollup.go:297-310 | One rollup step on the primary, noting exactly a miss and a failure where there was one |
| `RollupRunner.Runner.UpdateDaily` | dashboard/internal/rollup/rollup.go:285-292 | The day's new rollup, noting a failure exactly when there was one |
| `RollupRunner.Runner.PassService` | dashboard/internal/rollup/rollup.go:223-236 | One attempt at each of the service's two latest hours, the day of the older one once it is over, and what was noted of them |
| `RollupRunner.Runner.RunOnce` | dashboard/internal/rollup/rollup.go:199-241 | What a pass stores, hour by hour and day by day, for exactly the services listed; it notes a miss exactly when an attempt missed and a failure exactly when a listing, an hour or a day failed, and then ends accordingly |
| `RollupRunner.PassEndsAsNoted` | dashboard/internal/rollup/rollup.go:213-240 | A pass ends failed exactly when it noted a failure, and with exactly the locations down that it could not read for an hour it attempted |
| `RollupRunner.PassDayIsNoted` | dashboard/internal/rollup/rollup.go:230-233 | The first pass after midnight that leaves yesterday without the sum of its hours notes a failure |
| `RollupRunner.ReadRef` | dashboard/internal/rollup/rollup.go:119-127 | The finished hours, the marked ones and the first one of what is stored |
| `RollupRunner.Runner.ListRefs` | dashboard/internal/rollup/rollup.go:100-130 | One description for each service that could be read |
| `RollupRunner.Runner.FillHours` | dashboard/internal/rollup/rollup.go:132-155 | Attempts exactly the due hours, once each, knows which days it touched, and notes a miss or a failure exactly when an attempt met one |
| `RollupRunner.Runner.RebuildDays` | dashboard/internal/rollup/rollup.go:157-193 | Updates exactly the finished days of the window that were touched, or in a full backfill are missing, and notes a failure exactly when one of them failed |
| `RollupRunner.Runner.Backfill` | dashboard/internal/rollup/rollup.go:91-197 | The three phases together, as the events they note: earlier notes are kept, and a miss and a failure are noted exactly when one was met |
| `Backfills.CompleteHoursAreKept` | dashboard/internal/rollup/rollup.go:119-155 | Whatever fails, a backfill leaves every complete stored hour unchanged |
| `Backfills.WindowHourAttempted` | dashboard/internal/rollup/rollup.go:132-147 | An hour of the window is attempted exactly when it is marked, or missing in a full backfill |
| `Backfills.WindowIsRepaired` | dashboard/internal/rollup/rollup.go:82-155 | Where nothing fails no finished hour of the window is left marked; a full backfill leaves every hour with samples stored, another adds none |
| `Backfills.DarkHourIsMarked` | dashboard/internal/rollup/rollup.go:143-148 | An hour of the window that a full backfill can read at no location is left marked, all of them missing, if it was marked before or comes after a stored hour of its service, and left out otherwise |
| `Backfills.FirstFullDay` | dashboard/internal/rollup/rollup.go:160-164 | The first full day is the least one none of whose hours comes before the window |
| `Backfills.SkippedServiceIsUntouched` | dashboard/internal/rollup/rollup.go:102-118 | A service that could not be listed or read keeps every hour and day as it was, and nothing of it is attempted |
| `Backfills.UndoneHourIsOwed` | dashboard/internal/rollup/rollup.go:82-155 | Whatever fails, an hour of the window left marked, or by a full backfill left out although there are samples, was noted if and only if its service could be read |
| `Backfills.UndoneHourKeepsAFlag` | dashboard/internal/rollup/rollup.go:249-283 | Such an hour of a readable service leaves a flag set that asks for another backfill |
| `Backfills.UndoneDayIsOwed` | dashboard/internal/rollup/rollup.go:157-193 | A finished day that a backfill leaves behind its hours had a failure noted at it if and only if the backfill was to update it: it lies in the window, its daily rollups could be read or need not be, and an hour of it was written or a full backfill found no rollup of it |
| `Backfills.OwedDayKeepsAFlag` | dashboard/internal/rollup/rollup.go:285-292 | A failure noted at a day leaves the flags set that ask for a full backfill, which need not make it good |
| `Backfills.DayInWindowBehind` | dashboard/internal/rollup/rollup.go:157-193 | Where nothing fails, a finished day of the window is behind after a backfill if and only if it was behind before, no hour of it was written, and a full backfill found a rollup of it |
| `Backfills.DayBeforeWindowBehind` | dashboard/internal/rollup/rollup.go:157-175 | Whatever fails, a day before the first full one keeps its rollup and nothing is noted at it: it is behind afterwards if and only if the old rollup is not the sum of its hours |
| `Backfills.CompleteDayIsUntouched` | dashboard/internal/rollup/rollup.go:132-149 | A day whose hours are each stored complete or have no samples is not touched by a backfill for which nothing fails |
| `Backfills.OwedDayIsForgotten` | dashboard/internal/rollup/rollup.go:174-180 | For any two backfills: a day with a rollup that the first left behind and noted stays behind, unnoted, after the full one that follows, for which nothing fails, once its hours are settled |
| `Backfills.BackfillRaises` | dashboard/internal/rollup/rollup.go:243-310 | What a backfill notes raises the flags of a miss and of a failure exactly when it met one, and changes nothing else |
| `ForgottenRepairs.UnreadableServiceIsForgotten` | dashboard/internal/rollup/rollup.go:102-118 | A backfill at a concrete input leaves a marked hour marked and no flag changed |
| `ForgottenRepairs.UnreadableDaysAreForgotten` | dashboard/internal/rollup/rollup.go:166-173 | A full backfill at a concrete input repairs an hour, leaves its day's rollup at the old sum, and changes no flag |
| `ForgottenRepairs.DayBeforeTheWindowIsForgotten` | dashboard/internal/rollup/rollup.go:157-175 | A full backfill for which nothing fails writes an hour of the day in which its window begins, and leaves that day's rollup at the old sum with no flag changed |
| `ForgottenRepairs.UpdateFailureIsForgotten` | dashboard/internal/rollup/rollup.go:174-184 | The update of a day's rollup fails once; after the full backfill this asks for nothing is owed, and the rollup is still at the old sum |
| `ForgottenRepairs.UnmarkedHourIsForgotten` | dashboard/internal/rollup/rollup.go:132-149 | The first backfill of a new runner cannot read the one location; after the pass and the backfill that follow, for which nothing fails, nothing is owed, and an hour with samples in the window is not stored |
| `ForgottenRepairs.LatePassForgetsTheHour` | dashboard/internal/rollup/rollup.go:207-224 | Two passes three hours apart, for which nothing fails, leave the first one's hour in progress with nothing owed |
| `ForgottenRepairs.UnlistedServiceIsForgotten` | dashboard/internal/rollup/rollup.go:215-224 | Three passes an hour apart, the second with a listing that lacks the service, leave the first one's hour in progress with nothing owed |
| `Recovery.PassKeepsRight` | dashboard/internal/rollup/rollup.go:199-241 | Whatever fails, a pass keeps every record right |
| `Recovery.RecoveryIsComplete` | dashboard/internal/rollup/rollup.go:91-283 | Once everything answers, a pass and the backfill it starts leave no finished hour of the window marked and nothing owed but a full backfill held back by the gap; a finished day of the window is behind exactly when it was before, neither updated it for an hour written or a day over, and a full backfill found a rollup of it. Flags and records before are whatever earlier failures left |
| `RepairRuns.WhatIsUndoneIsOwed` | dashboard/internal/rollup/rollup.go:38-310 | In every run of passes, backfills and expiry, whatever fails: an hour of the window stored incomplete is owed by a flag or the backfill under way, and one with samples that is not stored by the flag for a full backfill or a full one under way. Passes come hour by hour and list the service or fail to list; backfills can read its hours |
| `RepairRuns.NothingOwedMeansComplete` | dashboard/internal/rollup/rollup.go:249-283 | Whenever in such a run nothing is owed and no backfill is under way, every finished hour of the window with samples is stored complete |
| `RepairRuns.TwoRoundsRestoreEveryHour` | dashboard/internal/rollup/rollup.go:249-283 | After any such run, two passes the gap apart with their backfills, for which nothing fails, leave nothing owed and every finished hour of the window with samples stored complete |
| `RepairRuns.PassIsAMove` | dashboard/internal/rollup/rollup.go:199-283 | Each pass of the runner is a move of these runs, with the state that the move gives |
| `RepairRuns.BackfillIsAMove` | dashboard/internal/rollup/rollup.go:73-197 | So is each backfill it started, up to its end |
| `HourHistories.HourIsARun` | dashboard/internal/rollup/rollup.go:91-240 | In every run of passes, backfills and expiry an hour is stored as the calls for it make it, so all that holds of any run of such calls holds of the system |
| `HourHistories.CompleteWasReadEverywhere` | dashboard/internal/rollup/rollup.go:91-240 | An hour stored complete was last written by a call that came after its end and could read every location |
| `HourHistories.NothingOwedMeansReadEverywhere` | dashboard/internal/rollup/rollup.go:249-283 | Whenever nothing is owed and no backfill is under way, this holds of every finished hour of the window with samples, and each location is stored as last read with the most checks |
| `Backfills.RecordsStayRight` | dashboard/internal/store/store.go:405-440 | Whatever fails, a backfill keeps every record right |
| `Backfills.DayIsRepaired` | dashboard/internal/rollup/rollup.go:157-193 | Where nothing fails a finished day's rollup still is the sum of its hours after the backfill, and a full one leaves one for every day with checks |
| `Alerts.SendAlert` | pkg/factory/factory.go:107-120 | Every notifier is sent to, and the error lists exactly those that failed, in order |
| `Alerts.QueueRetries` | internal/controller/retry.go:110-139 | What is retried, what is reported at once, and when the retry may record the change |
| `Alerts.RetriedOrReported` | internal/controller/retry.go:115-125 | Each failure is retried or reported at once, never both, and nothing else is |
| `Alerts.RetryAlert` | internal/controller/retry.go:141-185 | The retry ends at the first turn that does not ask for another, with exactly the sends and the one report of that ending |
| `Alerts.RetryEnds` | internal/controller/retry.go:141-185 | Delivered, one report or monitor gone, exactly one of them, and at most the allowed sends in all |
| `Alerts.RetryEndsAtFirst` | internal/controller/retry.go:141-185 | A retry sends on every turn that does not stop it, while the notifier fails for now, up to its last try, and ends on the first other turn with exactly the sends, the record or the report that turn makes |
| `Alerts.HandleAlert` | internal/controller/retry.go:110-185 | From the first sends to the end of every retry: each notifier's part ends exactly as its first answer and its retry's turns make it, with at most the allowed sends, and the change is left to a retry only when it is the only failure |
| `RetryTurns.ReportsAfterAllTries` | internal/controller/retry.go:141-185 | In every interleaving a retry reports its failure only once it was stopped, failed for good, or failed all the tries left |
| `RetryTurns.RemovedAtItsEnd` | internal/controller/retry.go:141-203 | In every interleaving a retry that removes itself has reported, found the monitor gone, or was accepted, and then, if it may record, tried again after each refused write it may repeat and noted its write; it sent at most as often as allowed |
| `RetryRegistry.AlertRetries.TakePending` | internal/controller/retry.go:53-57 | Takes the monitor's retries and leaves none, other monitors untouched |
| `RetryRegistry.AlertRetries.ForgetWrite` | internal/controller/retry.go:62-64 | Forgets only that monitor's write |
| `RetryRegistry.AlertRetries.NoteWrite` | internal/controller/retry.go:68-75 | Notes only that monitor's write |
| `RetryRegistry.AlertRetries.Add` | internal/controller/retry.go:77-86 | Adds the retry last in its monitor's list |
| `RetryRegistry.AlertRetries.Remove` | internal/controller/retry.go:88-97 | Takes the retry out of its monitor's list, and drops an empty list |
| `Announcing.Monitor.AfterCheck` | internal/controller/endpointmonitor_controller.go:108-141 | The status the first update writes, with what was announced kept |
| `Announcing.Monitor.AfterChangeAlert` | internal/controller/endpointmonitor_controller.go:169-172 | The status the second update writes |
| `Announcing.Monitor.MarkAnnounced` | internal/controller/retry.go:195-200 | A retry records the change only if the status has not moved on, and changes nothing else |
| `StopAndRetries.AlwaysStopInv` | internal/controller/retry.go:49-97 | In every interleaving each live retry is registered or waited for, and none from before the last stop is alive |
| `StopAndRetries.StopSeesEveryWrite` | internal/controller/retry.go:49-75 | Stop returns true if any retry successfully wrote the status since it last returned |
| `Reconciling.CheckIsFresh` | internal/controller/endpointmonitor_controller.go:85-89 | In every interleaving, after such a return the next check is made on a version read past the cache since, no older than the newest then, and its update can be stored exactly when nothing wrote the status after that read |
| `Reconciling.StopAnswersTrueWhen` | internal/controller/retry.go:49-66 | Stop answers true exactly when at its first look a retry had not removed itself, or one had noted a write since it last returned |
| `Reconciling.WrittenCheckIsAnnounced` | internal/controller/endpointmonitor_controller.go:141-182 | In every interleaving a written check is followed, before the reconciler begins again, by the status alert and, exactly when the status announced differs, by a change alert that says so; that is recorded at once exactly when every notifier took it, and each failure a later try may not repeat is queued for a retry, and none else |
| `Reconciling.NothingSentUnwritten` | internal/controller/endpointmonitor_controller.go:137-148 | Alerts are sent, and changes recorded, only after a check that was stored |
| `StatusTimes.StatusBeganThen` | internal/controller/endpointmonitor_controller.go:127-134 | In every interleaving the newest status is what the last stored check found, and began when a stored check first found it after another, every one since finding the same |
| `StatusTimes.AnnouncedBeganThen` | internal/controller/endpointmonitor_controller.go:124-172 | In every interleaving the status announced began when the last recorded alert says so |
| `StopAndRetries.StoppedRetriesAreQuiet` | internal/controller/retry.go:49-66 | Once Stop has returned, a retry queued before it sends no alert, writes no status and records no event |
| `ChangeChain.RecordedMeansAccepted` | internal/controller/endpointmonitor_controller.go:160-177 | A change is recorded only when every notifier accepted its alert, and the stored status always announces what the last recorded alert said |
| `ChangeChain.RecordedAlertsChain` | internal/controller/endpointmonitor_controller.go:85-177 | In every interleaving, with stale reads and failing writes, each recorded alert leaves the status the one before announced, for another |
| `ChangeChain.DeliveredAlertsChain` | internal/controller/endpointmonitor_controller.go:85-177 | Of two alerts one notifier accepted in turn, the second leaves the status the first announced if and only if the first was recorded |
| `ChangeChain.AlertSizes` | internal/controller/endpointmonitor_controller.go:160-163 | Every alert reports a change, and knows each notifier's answer |
| `ChangeChain.StatusHasNotMovedOn` | internal/controller/retry.go:189-203 | A retry that delivered a change never finds that the status has moved on |
| `ChangeChain.OneNotifierChain` | internal/controller/endpointmonitor_controller.go:85-177 | With one notifier and no failed recording, the delivered change alerts form a chain, however stale the reads |
| `ChangeChain.FailedRecordRepeatsTheAlert` | internal/controller/endpointmonitor_controller.go:169-176 | The guard is needed: when the recording write fails the same change is announced again |
| `Resp.EncodeCommand` | internal/notifier/valkey/client.go:98-111 | Writes the encoding of the arguments |
| `Resp.RedisEncode` | internal/driver/redis.go:148-155 | Writes the same bytes |
| `Resp.ReadReply` | internal/notifier/valkey/client.go:113-162 | Reads what the parsing function says and leaves the reader just after it; errors and panics where it does |
| `Resp.ReadItems` | internal/notifier/valkey/client.go:145-158 | The array case, recursing into ReadReply |
| `Resp.ReadCommand` | dashboard/internal/valkeytest/valkeytest.go:163-195 | Reads what its parsing function says and leaves the reader just after it |
| `Resp.CommandReadsBack` | internal/notifier/valkey/client.go:98-162 | Either parser reads an encoded command back exactly, whatever its bytes and whatever follows, taking no byte of what follows |
| `Resp.EncodingIsPrefixFree` | internal/notifier/valkey/client.go:98-111 | No command's encoding begins another's |
| `Resp.PipelineReadsBack` | dashboard/internal/valkeytest/valkeytest.go:144-161 | A pipeline of commands is read back as those commands in order |
| `Resp.MoreBytesReply` | internal/notifier/valkey/client.go:113-162 | What was read does not depend on the bytes after it |
| `Resp.TruncatedCommandFails` | internal/notifier/valkey/client.go:113-162 | A command cut short anywhere is an error, never another reply and never a panic |
| `Resp.NegativeCountPanics` | dashboard/internal/valkeytest/valkeytest.go:171-175 | Any negative number of elements makes either parser panic |
| `Resp.NegativeSize` | dashboard/internal/valkeytest/valkeytest.go:184-192 | A negative size is a nil string to readReply; readCommand panics on it, but for -1 at the end of the input |
| `RespReplies.ReplyReadsBack` | internal/notifier/valkey/client.go:113-162 | Every printable reply is read as what it means, with what follows left unread, unless it holds an error or a nil array, the first of which decides between an error and a panic |
| `RespReplies.PanicsOnNilArrays` | internal/notifier/valkey/client.go:145-158 | A reply without errors panics if and only if it holds a nil array |
| `RespReplies.NilArrayPanics` | internal/notifier/valkey/client.go:145-150 | The shortest reply that panics, and one whose nil array is never reached |
| `RespReplies.TruncatedReplyFails` | internal/notifier/valkey/client.go:113-162 | A reply without errors or nil arrays that is cut short anywhere is an error |
| `RespErrors.AtoiTakesNumerals` | internal/notifier/valkey/client.go:132-146 | A number is read exactly when it is an optional sign, zeros and the digits of a value that an int holds |
| `RespErrors.OtherLinesFail` | internal/notifier/valkey/client.go:113-162 | Without a line's end, or with any first byte but four, a reply is an error |
| `RespErrors.IntegerDecides` | internal/notifier/valkey/client.go:126-131 | An integer is what its line holds with nothing but space around it, and an error when that is no number of an int |
| `RespErrors.SizeDecides` | internal/notifier/valkey/client.go:132-144 | A bulk string is the bytes that its line counts, with two more after them, and an error when it counts none or they are not there |
| `RespErrors.CountDecides` | internal/notifier/valkey/client.go:145-158 | An array is as many replies as its line counts, and an error when it counts none |

## Left out

- FormatPercent: the overflow of `success * 10000` in 64 bits, and negative counts, are not modelled.
- RawEntries, ComputeLocationRollup: timestamps and details are numbers already, so fields that do not parse are not modelled; nor is a stored record that is not valid JSON.
- RollupHour, MergeSegments: lists of missing locations and of an incident's locations are sets; the source keeps them sorted.
- RunKeepsBestReading: says nothing of a pass and a backfill whose halves interleave on one hour, since the read and the write are not locked together.
- Backfill: does not give stored fields their TTL (`ExpireRollupFields`), and is neither paced nor cancelled half-way.
- GetAggregateRollups: does not work out the status of a stored record again; for a record that `RollupHour` stored it comes out the same.
- FailureWindows: takes the stored hours with the live one, if any, already put in by `LiveHour`.
- ListServices: listings are taken as given; that a listing is a partial union when some locations cannot be reached (dashboard/internal/store/store.go:126-155) shows only as a service missing from it.
- WhatIsUndoneIsOwed: a pass or a backfill is one step, so it says nothing of a backfill whose reads and writes interleave with a pass.
- RunOnce, Backfill: a service is one name, and the dashboard it belongs to is part of it; a backfill that cannot list a dashboard is one that cannot read its services.
- ReadReply, ReadCommand: `strings.TrimSpace` on space outside ASCII, and sizes too large to allocate, are not modelled.
- HandleAlert: the event's text and which copy of the monitor it is attached to are not modelled.
- Announcing: deleting and recreating the monitor, changing its notifiers between checks, and a restart of the operator are not modelled; a lost monitor shows as failing reads and writes. The read past the cache is one of the newest version; without an API reader the source falls back to the cached client, which is not modelled.
- A field's TTL is modelled only by the field being dropped at any time; the rest of the test server's key and field expiry is not.
- Sub-second times, rounding of floating point and the formatting of dates.
- The checks themselves, the notifiers' transports and templates, TLS, DNS and the other drivers: a check and a send are arbitrary results.
- The HTTP server, the page, configuration, the CRD types and controller-runtime's scheduling.
