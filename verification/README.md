# AirAlert: a verified model of the alarm logic

AirAlert is a siren controller on an ESP8266 and a LAN proxy in Lua. The device polls a list of regional
air-raid alerts, decides which of its selected locations are concerned, confirms starts and ends over several
polls, queues signals and plays them on a relay. The proxy keeps the nationwide list, edits it by webhooks, and
sends each device only what it needs. Together they decide when a siren sounds.

The project models that logic in Dafny. Objects whose methods update fields are classes, loops are methods
with invariants, and each is proved equal to a function over its state; the promises are proved about those
functions, over every run.

| files | what they hold |
|---|---|
| `Catalogue`, `Decimal`, `AlertsParser`, `SnapshotBuilder` | region tree, location table, decoded alerts, the device's aggregate |
| `ProxyState`, `Webhooks`, `ProxyFilter`, `ProxyStore` | the proxy: filter, webhook edits, lossless filtering, validators and 304 |
| `AlertsClient`, `BothEnds` | the device's cached snapshot; device and proxy in one run, and 304 across both |
| `AlertEngine`, `NotificationQueue`, `NotificationEngine`, `Alarm` | confirmation, queue, mute and playback, and the wiring of polls |
| `Firmware` | client, builder and alarm together: from API replies to active types, with and without the proxy |
| `Pattern`, `Relay` | signal playback against a plain timeline; the relay owner as a timed system |
| `Config`, `AtomicJsonFile`, `ConfigStore` | the configuration document and its crash-safe file |
| `Iso8601`, `Clock`, `Types` | calendar, wrapping clock, shared enumerations |

What crosses files: `Firmware.ActiveExactly` (replies, aggregate, confirmation), `Firmware.ProxyChangesNothing`,
`BothEnds.NotModifiedAcrossBothEnds` (device text, proxy parser, filter, stamps, 304, aggregate),
`ProxyFilter.LosslessAfterWebhooks`, `NotificationEngines.PlaysToCompletion` over `Patterns.TickTracks`,
`NotificationEngines.TickServesQueue` over `NotificationQueues.DrainIsStableSort`, `Alarm.ActiveAfterRun` and
`Alarm.StartIsVoicedExactly` over `AlertEngines.ActiveIffConfirmed`, and `ConfigStores.SavedSurvives` over the
round trip and the file replace.

The clock, the network's replies, the outcome of each file step and the times at which timers fire are
parameters or events. Time in `Relay` is an unbounded integer that may not pass an armed deadline. A relay
method is one step; the proxy's two writes of a change are two steps with readers between them.

## Conditions the code needs

- The filter loses nothing when both ends share one catalogue with unique, canonically written ids and depth at
  most 3, selected locations carry that catalogue's parents, and every inherited alert copy has an identical
  twin in its own region's entry. Webhooks keep the last of these.
- A poll's batch must fit the 8 event slots for the siren's mask to stay right (`Alarm.MaskKeptExactly`,
  `Alarm.EightSlotsCanLose`).
- For the siren's deadline, in two-relay mode, a reconfiguration must not come while a hand-pressed START is
  outstanding (`Relay.DeadlineExactly`, `Relay.BeginSafeExactly`); buttons and trips need no such condition.
- A file replace needs the main file readable, or no readable backup, at its start
  (`AtomicJsonFile.SafeExactly`).
- A filtered 304 is true when the last change is newer than the catalogue, whatever was asked before, and not
  always otherwise (`ProxyStore.FilteredTrueExactly`); by the clock, once a change was stamped in a later second
  than the catalogue (`ProxyStore.TrueByTheClock`).
- All-clear claims hold when an End is queued; it may be played after a later Start.

## Where the code and its own comments differ

The model follows the code.

- `src/alerts/AlertsClient.h:52` says the builder is committed by the caller on Ok only; `poll` streams into it
  directly, so a body that breaks off leaves it half filled. What saves the promise is the dropped cache.
- `proxy/lua/airalert/state.lua:120-121` promises different stamps for any two changes; that holds for
  unfiltered requests, not for the larger of the list's and the catalogue's stamp.
- `src/alerts/AlertsClient.h:44-45` says the proxy's Last-Modified does not depend on the regions; it differs
  between filtered and full replies.
- `lib/core/src/airalert/Iso8601.h:13-14` lets :60 seconds and negative times of day through.
- `lib/core/src/airalert/Config.h:143-144` calls the old ON/OFF pair equivalent to two steps; lengths under 5 ms
  are dropped from the pair but refused as steps.

## Model

| member | source | states |
|---|---|---|
| `Clock.ElapsedIsExact` | lib/core/src/airalert/TimeUtils.h:8-12 | unsigned 32-bit subtraction of two wrapped readings is the true elapsed time while that is under 2^32 ms |
| `Patterns.Add` | lib/core/src/airalert/Pattern.h:32-39 | appending a step never takes a pattern out of range, and a refused step changes nothing |
| `Patterns.SoundingWindows` | tools/web_preview.py:63-71 | the preview loop yields exactly the ON intervals of the step list repeated `repeat` times |
| `Patterns.PatternScheduler.StartPattern` | lib/core/src/airalert/Pattern.h:61-68 | the object starts in the specified first state, silence skipped |
| `Patterns.PatternScheduler.Stop` | lib/core/src/airalert/Pattern.h:70 | only `running` drops |
| `Patterns.PatternScheduler.TickAt` | lib/core/src/airalert/Pattern.h:73-85 | the catch-up loop computes the specified tick and returns whether the siren sounds |
| `Patterns.PatternScheduler.LeaveStep` | lib/core/src/airalert/Pattern.h:77-82 | leaving a step moves phase, index and repetition together, then skips closing silence |
| `Patterns.PatternScheduler.SkipSilenceInPlace` | lib/core/src/airalert/Pattern.h:92-99 | running ends as soon as no ON step is left in any repetition |
| `Patterns.StartTracks` | lib/core/src/airalert/Pattern.h:61-68 | a started scheduler stands at the head of its timeline |
| `Patterns.TickFollows` | lib/core/src/airalert/Pattern.h:73-83 | one tick, however late within the wrap, stops on the step that is current at that true time |
| `Patterns.OutputIsTimeline` | lib/core/src/airalert/Pattern.h:84-99 | a scheduler standing on the current step sounds iff the time lies in an ON window, and runs iff the last window has not closed |
| `Patterns.TickTracks` | lib/core/src/airalert/Pattern.h:73-99 | state, output and end keep following the timeline after a tick from any earlier tick, with gaps under 2^32 - 60000 ms |
| `Patterns.PlaybackIsTimeline` | lib/core/src/airalert/Pattern.h:59-106 | for every pattern in range and all non-decreasing tick times with such gaps, across the 32-bit wrap: the last tick sounds iff its time is inside one of the plain windows, and the signal runs iff the last window is still open |
| `Patterns.PulsesBeep` | lib/core/src/airalert/Pattern.h:22-39 | a pulse pattern sounds `repeat` times for the rounded ON time, each a rounded ON time and pause after the one before |
| `Iso8601.DayCount` | lib/core/src/airalert/Iso8601.h:15-20 | the closed form equals the year-by-year, month-by-month Gregorian count of days since 1970-01-01 |
| `Iso8601.StrictlyIncreasing` | lib/core/src/airalert/Iso8601.h:13-21 | without leap seconds stamps order valid dates both ways and equal stamps mean equal fields |
| `Iso8601.LeapSecondCollides` | lib/core/src/airalert/Iso8601.h:14 | concrete failure of strictness: 23:59:60 shares its stamp with the next midnight |
| `Iso8601.NeverDecreasing` | lib/core/src/airalert/Iso8601.h:13-21 | an earlier valid moment never gets a later stamp |
| `Iso8601.StrictExactly` | lib/core/src/airalert/Iso8601.h:13-21 | a moment is below all later ones iff its seconds are under 60 |
| `Iso8601.NextDayCounts` | lib/core/src/airalert/Iso8601.h:15-20 | the calendar's next day is counted one higher, across month and year ends |
| `Iso8601.ZeroMeansRefusedOrEpoch` | lib/core/src/airalert/Iso8601.h:11-14 | for every scan, negative parts included: 0 is returned for refused fields and for 1970-01-01 with parts that add up to 0 only |
| `Iso8601.NegativeHourAccepted` | lib/core/src/airalert/Iso8601.h:13-14 | a negative hour passes the checks and yields a negative stamp |
| `AtomicJsonFile.Storage.WriteDocument` | src/config/AtomicJsonFile.h:22-55 | the write passes through exactly the specified file states, in order, and returns the specified result, for every combination of failing steps |
| `AtomicJsonFile.Storage.SwapIn` | src/config/AtomicJsonFile.h:43-54 | the part after the check: delete backup, move, move, roll back or drop the backup |
| `AtomicJsonFile.Storage.Place` | src/config/AtomicJsonFile.h:49-54 | moving the new file into place, with its roll-back |
| `AtomicJsonFile.Storage.Begin` | src/config/AtomicJsonFile.h:24-31 | filling the temporary file, which may be torn |
| `AtomicJsonFile.SwapIsSafe` | src/config/AtomicJsonFile.h:43-54 | from a good temporary file every state in between reads as the old or the new document |
| `AtomicJsonFile.CrashSafe` | src/config/AtomicJsonFile.h:15-55 | a crash between any two steps, or any failing step, leaves the old or the new document readable, and the result says which; main file readable (or nothing to lose) at the start |
| `AtomicJsonFile.SucceedsExactly` | src/config/AtomicJsonFile.h:22-54 | a write succeeds iff the temporary file opens, takes every byte and reads back and the needed renames work; then the document is in place and no temporary file is left |
| `AtomicJsonFile.SafeExactly` | src/config/AtomicJsonFile.h:43 | that start condition is necessary as well as sufficient |
| `AtomicJsonFile.ReadableAgain` | src/config/AtomicJsonFile.h:44-53 | the condition holds for the next write unless both the move into place and the roll-back failed |
| `AtomicJsonFile.TwoCrashesLose` | src/config/AtomicJsonFile.h:43-49 | from any good start two crashes in a row can lose every document |
| `NotificationQueues.BestIsUnique` | lib/core/src/airalert/NotificationQueue.h:75-80 | no two waiting signals tie: rank, then priority, then arrival picks one |
| `NotificationQueues.PopIsRemoval` | lib/core/src/airalert/NotificationQueue.h:38-52 | pop removes exactly the best signal |
| `NotificationQueues.RunBalances` | lib/core/src/airalert/NotificationQueue.h:25-54 | over every run of push, pop and clear: keys distinct, at most 12 wait, and accepted = popped + cleared + waiting |
| `NotificationQueues.DrainIsPermutation` | lib/core/src/airalert/NotificationQueue.h:38-52 | draining loses and invents nothing |
| `NotificationQueues.DrainIsSorted` | lib/core/src/airalert/NotificationQueue.h:57-80 | draining goes heaviest first |
| `NotificationQueues.DrainIsStable` | lib/core/src/airalert/NotificationQueue.h:79 | equals leave in order of arrival |
| `NotificationQueues.WeightIsOrder` | lib/core/src/airalert/NotificationQueue.h:57-80 | tests before starts and escalations before ends before reminders, whatever the priorities; within a kind the priority decides |
| `NotificationQueues.DrainInOrder` | lib/core/src/airalert/NotificationQueue.h:57-80 | a drained queue plays no signal before one of a kind ahead of it |
| `NotificationQueues.StableSortIsUnique` | lib/core/src/airalert/NotificationQueue.h:75-80 | a list sorted by weight with given levels is unique |
| `NotificationQueues.DrainIsStableSort` | lib/core/src/airalert/NotificationQueue.h:38-52 | draining a queue is its stable sort by weight |
| `NotificationQueues.DrainAfterRun` | lib/core/src/airalert/NotificationQueue.h:21-87 | after any run from empty, an order is the drain iff it is the stable priority sort of what waits |
| `NotificationQueues.NotificationQueue.PushOne` | lib/core/src/airalert/NotificationQueue.h:25-35 | the ring takes the signal unless it is already pending or 12 wait; the result says whether it is pending afterwards |
| `NotificationQueues.NotificationQueue.PopBest` | lib/core/src/airalert/NotificationQueue.h:38-52 | the ring gives its best signal and keeps the order of the rest |
| `NotificationQueues.NotificationQueue.Clear` | lib/core/src/airalert/NotificationQueue.h:54 | nothing waits |
| `NotificationQueues.NotificationQueue.ShiftDown` | lib/core/src/airalert/NotificationQueue.h:46-50 | closing the gap in both arrays removes one position only |
| `AlertEngines.EventsMembership` | lib/core/src/airalert/AlertEngine.cpp:41-98 | an event is in the batch iff its own type's step emits it |
| `AlertEngines.MoveIsOnly` | lib/core/src/airalert/AlertEngine.cpp:54-95 | a type that starts or ends reports nothing else in that sample |
| `AlertEngines.CountersAreRuns` | lib/core/src/airalert/AlertEngine.cpp:54-95 | the two counters are the lengths of the current runs of presences and absences |
| `AlertEngines.ActiveIffConfirmed` | lib/core/src/airalert/AlertEngine.cpp:54-95 | after any history a type is Active iff some s consecutive presences occurred with no later e consecutive absences |
| `AlertEngines.EndedNeedsAbsences` | lib/core/src/airalert/AlertEngine.cpp:85-93 | Ended always rests on e absences in a row |
| `AlertEngines.ReportsExactly` | lib/core/src/airalert/AlertEngine.cpp:50-100 | after any history: a start or end is reported iff the type becomes active or ceases to be; escalation, reduction and added location iff the sample differs so from the last one that showed the type |
| `AlertEngines.StartedAtIsFirst` | lib/core/src/airalert/AlertEngine.cpp:60-84 | an active type's start is the first time known since the sample that made it active |
| `AlertEngines.SessionBalance` | lib/core/src/airalert/AlertEngine.cpp:73-84 | within one Active session Escalated minus CoverageReduced is the net change of coverage |
| `AlertEngines.AlertEngine.ApplySnapshot` | lib/core/src/airalert/AlertEngine.cpp:41-98 | all seven types step and the buffer holds the first events that fit |
| `AlertEngines.AlertEngine.ApplyType` | lib/core/src/airalert/AlertEngine.cpp:46-95 | one type's branch of the loop; the other types stay |
| `AlertEngines.AlertEngine.Emit` | lib/core/src/airalert/AlertEngine.cpp:6-8 | an event beyond the buffer is silently dropped |
| `AlertEngines.AlertEngine.AnyActive` | lib/core/src/airalert/AlertEngine.cpp:11-15 | true iff the set of Active types is not empty |
| `AlertEngines.AlertEngine.IsHandover` | lib/core/src/airalert/AlertEngine.cpp:17-34 | true iff some rival type is active at this end, about to end at this start, or ends in this batch |
| `AlertEngines.AlertEngine.Reset` | lib/core/src/airalert/AlertEngine.cpp:36-39 | every type is back to not synced |
| `AlertEngines.PreexistingAlerts.Observe` | lib/core/src/airalert/PreexistingAlerts.h:19-28 | the mask is set at the first sample and afterwards only loses absent types |
| `AlertEngines.PreexistingAlerts.ConsumeStart` | lib/core/src/airalert/PreexistingAlerts.h:31-36 | a mark is reported once |
| `Decimal.ShowIsCanonical` | lib/core/src/airalert/AlertsParser.h:38-45 | reading back a printed uid gives the uid |
| `Decimal.UidFromJson` | lib/core/src/airalert/AlertsParser.h:40-44 | the digit loop, with its 32-bit wrap and the cut to 16 bits, is the number modulo 2^16 |
| `Catalogue.Flatten` | tools/update_locations.py:35-51 | the nested loops emit exactly the rows of the tree, with parents' uids, skipping state 0 |
| `Catalogue.LookupFinds` | src/alerts/LocationCatalog.h:19-38 | a found row is in the table and has the uid; none found means none there |
| `Catalogue.FindByUid` | src/alerts/LocationCatalog.h:19-38 | binary search over the sorted table finds what a linear search finds |
| `Catalogue.MatchIsHierarchy` | lib/core/src/airalert/LocationMatcher.cpp:5-29 | coverage is full iff the alert is at the location or at a parent of it, and partial iff it lies inside it |
| `SnapshotBuilders.Least` | lib/core/src/airalert/SnapshotBuilder.h:42-44 | the least positive start, or 0 |
| `SnapshotBuilders.AddIsAggregate` | lib/core/src/airalert/SnapshotBuilder.h:34-53 | streaming one alert into the aggregate of a set is the aggregate of the larger set: order and duplicates do not matter |
| `SnapshotBuilders.ViewByMatched` | lib/core/src/airalert/SnapshotBuilder.h:37-39 | alerts that concern no selected location leave no trace |
| `SnapshotBuilders.CellsAgree` | lib/core/src/airalert/SnapshotBuilder.h:40-52 | the per-location cells give the snapshot's coverage (as maximum) and its location count |
| `SnapshotBuilders.CellStartsAreWrapped` | lib/core/src/airalert/SnapshotBuilder.h:46-50 | whatever the starts, the least start of the cells is the least of the starts as the cast to uint32 leaves them |
| `SnapshotBuilders.CellStartsAgree` | lib/core/src/airalert/SnapshotBuilder.h:42-50 | so for starts that fit uint32 it is the start of the snapshot |
| `SnapshotBuilders.NegativeStartSplits` | lib/core/src/airalert/SnapshotBuilder.h:42-50 | a negative start is unknown to the snapshot but a time near 2^32 in the cell |
| `SnapshotBuilders.SnapshotBuilder.Reset` | lib/core/src/airalert/SnapshotBuilder.h:27-32 | the builder holds the aggregate of no alerts |
| `SnapshotBuilders.SnapshotBuilder.SetSelected` | lib/core/src/airalert/SnapshotBuilder.h:19-24 | more than 16 locations are refused and change nothing |
| `SnapshotBuilders.SnapshotBuilder.Add` | lib/core/src/airalert/SnapshotBuilder.h:34-53 | a builder that held the aggregate of a set holds that of the set with this alert |
| `SnapshotBuilders.SnapshotBuilder.Record` | lib/core/src/airalert/SnapshotBuilder.h:40-50 | the update for one matching location: type, mask and cell |
| `AlertsParsers.ColourStartExactly` | lib/core/src/airalert/AlertsParser.h:69-75 | for any stamps: the start gathered from the levels of one colour is their least positive time iff the first known one is not negative; a negative one that comes first stays |
| `AlertsParsers.RedDominates` | lib/core/src/airalert/AlertsParser.h:60-77 | one raid becomes one alert: yellow iff every level is yellow, with the start gathered from its own colour |
| `AlertsParsers.KindExactly` | lib/core/src/airalert/AlertsParser.h:55-90 | which type an API alert is by its kind and levels, and which are skipped |
| `AlertsParsers.DecodeAlert` | lib/core/src/airalert/AlertsParser.h:54-77 | the loop over the levels computes the specified alert, or none for INFO and unusable ids |
| `AlertsParsers.RegionToAlerts` | lib/core/src/airalert/AlertsParser.h:53-79 | a region's alerts join the set the builder holds |
| `AlertsParsers.ParseBody` | lib/core/src/airalert/AlertsParser.h:82-88 | after reset and streaming the builder holds the aggregate of the body's alerts |
| `ProxyState.WalkInto` | proxy/lua/airalert/state.lua:24-33 | the recursive walk adds exactly the parent table of the nodes |
| `ProxyState.ParentTable` | proxy/lua/airalert/state.lua:20-37 | the parent table of the catalogue, or nil for an empty one |
| `ProxyState.WantedAndAncestors` | proxy/lua/airalert/state.lua:104-109 | the two sets filled for the requested ids: themselves and all their proper ancestors |
| `ProxyState.Hits` | proxy/lua/airalert/state.lua:112-114 | the upward walk finds a hit iff the entry is an ancestor of, equal to, or below a requested id |
| `ProxyState.ChainMeets` | proxy/lua/airalert/state.lua:114 | one step of that walk |
| `ProxyState.Select` | proxy/lua/airalert/state.lua:102-118 | the kept entries are exactly the relevant ones, in order; without filter or catalogue all are kept |
| `ProxyState.KeptExactly` | proxy/lua/airalert/state.lua:99-117 | kept are exactly the entries of a requested region, of one above it or of one below it |
| `ProxyState.ChainIsClimb` | proxy/lua/airalert/state.lua:105-112 | the upward walk meets exactly the regions that parent links lead to |
| `ProxyState.ParseIds` | proxy/lua/airalert/state.lua:89-97 | the accepted lists are the non-empty comma lists of up to 32 numbers |
| `ProxyState.FilterExactly` | proxy/lua/airalert/state.lua:89-97 | a text filters by a list iff the list is 1 to 32 numbers and the text is them joined by commas |
| `ProxyState.PiecesOfJoin` | proxy/lua/airalert/state.lua:92-95 | cutting a joined list at its commas gives the list back |
| `ProxyState.JoinUids` | src/main.cpp:159-163 | the loop writes the selected uids with commas between |
| `ProxyState.RegionsRoundTrip` | proxy/lua/airalert/state.lua:88-97 | the proxy reads back exactly the selection the device sent |
| `Webhooks.ApplyEvent` | proxy/lua/airalert/state.lua:46-86 | the two backward loops and the append compute the specified list; unusable events give nothing |
| `Webhooks.EditEntry` | proxy/lua/airalert/state.lua:56-70 | one turn of the outer loop, with the position of the own entry |
| `Webhooks.RewriteList` | proxy/lua/airalert/state.lua:58-64 | the inner loop rewrites or removes every copy of the key |
| `Webhooks.ApplyIsPointwise` | proxy/lua/airalert/state.lua:46-86 | region by region a webhook is one small step on that region's own list |
| `Webhooks.ApplyKeepsShape` | proxy/lua/airalert/state.lua:65-78 | no emptied entry stays and no region is listed twice |
| `Webhooks.ApplyWritesKey` | proxy/lua/airalert/state.lua:46-86 | in the map from (region, type) to levels only the event's key changes, to the event's levels |
| `Webhooks.RunIsLastWrite` | proxy/lua/airalert/state.lua:46-86 | after any run of webhooks every key holds what was last written to it |
| `Webhooks.EventIsHeard` | proxy/lua/airalert/state.lua:46-85 | a webhook is refused iff a field is missing or the id is not all digits; any other sets its key to its levels, or clears it when it has none, and no other key |
| `Webhooks.NewAlertArrives` | proxy/lua/airalert/state.lua:70-84 | a new alert comes last in its region's list, with the event's time and levels and the catalogue's type; a region without an entry gets one at the end |
| `Webhooks.RunIsLastWord` | proxy/lua/airalert/proxy.lua:208-219 | over any run of upstream lists and raw webhooks, good and bad, every key holds what was last said of it |
| `Webhooks.CopiesAndOthers` | proxy/lua/airalert/state.lua:57-64 | all copies of the key carry the event's levels or are gone; every other alert is untouched and in place |
| `Webhooks.ApplyKeepsTwins` | proxy/lua/airalert/state.lua:57-85 | every inherited copy still has its identical twin in its own region's entry |
| `Webhooks.RunKeepsTwins` | proxy/lua/airalert/state.lua:57-85 | so after any run |
| `Webhooks.ApplyIsIdempotent` | proxy/lua/airalert/state.lua:46-86 | the same webhook twice is the same as once |
| `Webhooks.ApplyCommutes` | proxy/lua/airalert/state.lua:46-86 | webhooks on different keys commute: equal lists per region, up to order where both appended to that region |
| `ProxyFilter.TreeIsRanked` | proxy/lua/airalert/state.lua:24-34 | with unique ids every parent is strictly higher in the tree, so every ancestor walk ends |
| `ProxyFilter.RepeatedIdLoops` | proxy/lua/airalert/state.lua:106-114 | with a repeated id a region can be its own parent and the walk never ends |
| `ProxyFilter.RowsLinked` | tools/update_locations.py:38-50 | each table row's parents are its ancestors in the proxy's parent table |
| `ProxyFilter.MatchIsRelevant` | lib/core/src/airalert/LocationMatcher.cpp:5-29 | whatever the device would match, the proxy's filter calls relevant |
| `ProxyFilter.FilterIsLossless` | proxy/lua/airalert/state.lua:102-118 | for any entries and selection the filtered list and the full list give the device the same snapshot and cells |
| `ProxyFilter.LosslessAfterWebhooks` | proxy/lua/airalert/state.lua:46-118 | and it stays so after any run of webhooks |
| `ProxyFilter.RunStaysCanonical` | proxy/lua/airalert/state.lua:51-52 | webhooks with canonical ids keep all ids canonical |
| `ProxyStore.StampsGrow` | proxy/lua/airalert/state.lua:122-124 | a change always gets a later stamp, whatever the clock; under a filter iff it passes the catalogue's stamp |
| `ProxyStore.StampIsLeast` | proxy/lua/airalert/state.lua:120-124 | a new stamp is the least whole second above the last stamp that the clock has not passed |
| `ProxyStore.CopyIsNotOlder` | proxy/lua/airalert/proxy.lua:148-156 | a worker's decoded copy is never older than the stamp the request saw |
| `ProxyStore.StepKeepsInv` | proxy/lua/airalert/proxy.lua:100-184 | with the two writes of a change and all readers interleaved, filtered requests at any time included, every reply given out is at least as new as the change its stamp was read under |
| `ProxyStore.RunKeepsInv` | proxy/lua/airalert/proxy.lua:100-184 | so over every run |
| `ProxyStore.NotModifiedIsTrue` | proxy/lua/airalert/proxy.lua:173-177 | in every such state an unfiltered 304, or a filtered one after a change newer than the catalogue, means the client keeps the stored body, or the one a half-written change is just replacing |
| `ProxyStore.NotModifiedOverRuns` | proxy/lua/airalert/proxy.lua:158-184 | the same from an empty dictionary over every interleaving, the condition looked at only when the 304 is given |
| `ProxyStore.TrueByTheClock` | proxy/lua/airalert/proxy.lua:165-180 | once a change was stamped at a clock reading of a later second than the catalogue's, every 304 is true, filtered or not |
| `ProxyStore.FilteredTrueExactly` | proxy/lua/airalert/proxy.lua:173-175 | over all runs that end with a given catalogue stamp and last change, filtered 304s are all true iff the change is the newer one (or the first possible stamp) |
| `ProxyStore.FalseFiltered304` | proxy/lua/airalert/proxy.lua:173-177 | the run that shows it: a request between two changes, both not newer than the catalogue, and then a 304 for a list that was replaced |
| `ProxyStore.StoreIsTwoWrites` | proxy/lua/airalert/proxy.lua:100-105 | the two ordered writes of an undisturbed change are the one step they are to other writers |
| `ProxyStore.SharedDict.Store` | proxy/lua/airalert/proxy.lua:100-105 | an equal body changes nothing; another one is stored under a later stamp |
| `ProxyStore.SharedDict.ServeWebhook` | proxy/lua/airalert/proxy.lua:210-219 | the stored list is the rewritten one, or nothing changes, and the stamp moves iff the list does |
| `ProxyStore.SharedDict.ServeAlerts` | proxy/lua/airalert/proxy.lua:158-185 | 403, 401, 503, 400, 304 or a body with its stamp: exactly when each, and the filtered or full list |
| `AlertsClients.ValidExactly` | src/alerts/AlertsClient.h:25-49 | over every run the cache is valid iff some 200 was read to its end and since then token, URL and selection have stood and no body broke off |
| `AlertsClients.ValidHoldsLastGood` | src/alerts/AlertsClient.cpp:157-172 | then the builder holds the aggregate of the last complete body under the current selection, asked for with the current token, URL and regions |
| `AlertsClients.RegionsFollow` | src/main.cpp:157-164 | the regions sent are always those of the current selection, and an invalid cache has no validator |
| `AlertsClients.ValidatorNeedsSnapshot` | src/alerts/AlertsClient.cpp:150 | If-Modified-Since is sent only with a snapshot behind it |
| `AlertsClients.AppliedIsWhole` | src/main.cpp:237-258 | whatever a poll hands on as a picture is one whole body under the current selection |
| `AlertsClients.OpKeeps` | src/main.cpp:157-164 | every operation keeps regions and selection together and leaves no validator without a snapshot |
| `AlertsClients.KeepsOrDrops` | src/main.cpp:123-164 | a setting that leaves the cache valid leaves URL, selection, validator and snapshot as they were |
| `AlertsClients.SettingTakesHold` | src/main.cpp:143-164 | a setting that is taken takes effect on token, URL, selection and regions, and on nothing else of these |
| `AlertsClients.BootIsGood` | src/main.cpp:157-164 | booting with stored settings starts without a snapshot and with the selection as regions |
| `BothEnds.StepKeepsInv` | src/alerts/AlertsClient.cpp:92-181 | device and proxy in one run: after every event of either, the device's date and snapshot are those of the reply the proxy made for it, for the version the proxy remembers |
| `BothEnds.RunKeepsInv` | src/alerts/AlertsClient.cpp:92-181 | so over every run |
| `BothEnds.DateIsStamp` | proxy/lua/airalert/proxy.lua:175-177 | comparing the date the device sent is comparing stamps, and only a device with a snapshot is told 304 |
| `BothEnds.ServedIsKept` | proxy/lua/airalert/proxy.lua:168-182 | the regions text the device sends filters by exactly its selection |
| `BothEnds.NotModifiedAcrossBothEnds` | src/alerts/AlertsClient.cpp:173-181 | from power-on over every run of both: a 304 after a change newer than the catalogue is accepted, and the builder then holds the aggregate of all the proxy stores |
| `AlertsClients.LastGood` | src/alerts/AlertsClient.cpp:158-171 | the last poll that read a 200 body to its end |
| `AlertsClients.AlertsClient.Begin` | src/alerts/AlertsClient.h:25-28 | another token drops the cache |
| `AlertsClients.AlertsClient.SetMockUrl` | src/alerts/AlertsClient.h:38-41 | another URL drops the cache |
| `AlertsClients.AlertsClient.SetRegions` | src/alerts/AlertsClient.h:46-49 | other regions drop the cache |
| `AlertsClients.AlertsClient.Poll` | src/alerts/AlertsClient.cpp:154-193 | for each reply the result kind, the new cache state and what the builder holds |
| `AlertsClients.AlertsClient.ReadBody` | src/alerts/AlertsClient.cpp:38-82 | no array: builder untouched; a body that breaks off: the entries before the break; else all |
| `AlertsClients.AlertsClient.RefreshLocations` | src/main.cpp:128-129 | builder emptied and cache dropped |
| `AlertsClients.AlertsClient.ApplyConfig` | src/main.cpp:157-164 | selection and regions move together |
| `AlertsClients.AlertsClient.HandleConfigPut` | src/web/WebUi.cpp:322-335 | a save that changes the locations reloads them, any other keeps the snapshot, a failed one changes nothing |
| `AlertsClients.AlertsClient.HandleLocationsPut` | src/web/WebUi.cpp:348-362 | an accepted and saved location list always reloads |
| `Relay.NoGrantReachesLimit` | lib/core/src/airalert/RelayGuard.h:18-28 | over any calls of a fresh guard, across the clock wrap: from any call to any later one with everything granted between, less than the limit passes |
| `Relay.TripLatches` | lib/core/src/airalert/RelayGuard.h:15-20 | a tripped guard grants nothing until a call without a request |
| `Relay.RelayGuard.TickAt` | lib/core/src/airalert/RelayGuard.h:18-28 | the object's tick is the specified one |
| `Relay.StepKeepsSound` | src/hardware/RelayController.h:30-172 | every enabled event, reconfigurations and hand presses at any time included, keeps: pins never both asserted, each assertion with its release armed, no siren commanded after a trip |
| `Relay.RunIsSound` | src/hardware/RelayController.h:30-172 | so over every interleaving |
| `Relay.ButtonsAreReleased` | src/hardware/RelayController.h:153-172 | from power-on over every interleaving: START and STOP never both asserted, and whichever is has its release armed 300 ms after its press |
| `Relay.TickIs` | src/hardware/RelayController.h:69-79 | a tick presses the button of one change or none, and starts nothing after a trip |
| `Relay.StepKeepsDeadline` | src/hardware/RelayController.h:30-172 | every enabled event keeps the account of which siren has its deadline armed |
| `Relay.DeadlineExactly` | src/hardware/RelayController.h:30-172 | from power-on over every interleaving: a sounding siren has its deadline armed at its last START plus the limit, not yet passed, iff no reconfiguration came over a hand-pressed START with nothing pressed since |
| `Relay.StepKeepsInv` | src/hardware/RelayController.h:30-172 | with no such reconfiguration every event also keeps the history of presses in order and in time |
| `Relay.RunIsSafe` | src/hardware/RelayController.h:30-172 | so over every run without such a reconfiguration |
| `Relay.SirenHasDeadline` | src/hardware/RelayController.h:30-177 | in those runs a latched siren always has the safety timer armed at its last START plus the limit, not yet passed |
| `Relay.StopsBetweenStarts` | src/hardware/RelayController.h:137-149 | without hand presses any START is followed by a STOP within the limit, before any other START |
| `Relay.BeginSafeExactly` | src/hardware/RelayController.h:30-66 | in two-relay mode a reconfiguration keeps the deadline promise iff no hand-pressed START is outstanding |
| `Relay.HandStartIsReachable` | src/hardware/RelayController.h:96-103 | that exception is reached by one hand press |
| `Relay.StepAfterTrip` | src/hardware/RelayController.h:69-79 | one event after an asynchronous trip |
| `Relay.TripHolds` | src/hardware/RelayController.h:69-79 | over every interleaving: after an asynchronous trip no tick presses START until the request drops or someone forces or reconfigures |
| `Relay.CommandedExactly` | src/hardware/RelayController.h:69-81 | from power-on over every interleaving with ticks that read the right clock: after a tick with no button held the siren is commanded on iff it is requested, no safety timer fired and less than the limit has passed since the request began; a change presses START and arms the deadline, or presses STOP and drops it; else nothing is pressed |
| `Relay.PressesAreMade` | src/hardware/RelayController.h:83-134 | presses by hand, by force, by the safety timer and at a reconfiguration reach the outputs, with the deadline each leaves |
| `Relay.ReleaseLetsGo` | src/hardware/RelayController.h:168-171 | the release lets every button go and changes nothing else |
| `Relay.TripIsReported` | src/hardware/RelayController.h:70-73 | a trip is reported when the guard first refuses and when the safety timer fires |
| `Relay.LogStaysBalanced` | src/hardware/RelayController.h:115-122 | accepted presses = popped + pending in order, and losses are counted up to 255 |
| `Relay.PressRing.QueuePress` | src/hardware/RelayController.h:173-181 | the ring keeps the oldest 15 and counts the rest |
| `Relay.PressRing.PopPress` | src/hardware/RelayController.h:115-122 | the oldest press and the loss count, which is cleared |
| `Relay.RelayController.BeginNow` | src/hardware/RelayController.h:30-66 | pins released, timers and flags dropped, STOP pressed iff the siren was on |
| `Relay.RelayController.TickNow` | src/hardware/RelayController.h:69-79 | guard asked, change applied, flags updated |
| `Relay.RelayController.ForceOffNow` | src/hardware/RelayController.h:83-92 | deadline dropped and STOP pressed unless it is already held |
| `Relay.RelayController.TestPulseNow` | src/hardware/RelayController.h:96-103 | one press by hand; START arms the deadline, STOP drops it unless a pattern plays |
| `Relay.RelayController.EmergencyOffNow` | src/hardware/RelayController.h:129-135 | the safety timer's stop and its latch |
| `Relay.RelayController.EndPulseNow` | src/hardware/RelayController.h:168-171 | the held button is released |
| `Relay.RelayController.ApplyNow` | src/hardware/RelayController.h:137-149 | a change is pressed once, and waits while a button is held |
| `Relay.RelayController.Push` | src/hardware/RelayController.h:153-157 | level mode moves the pin, pulse mode taps a button |
| `Relay.RelayController.Tap` | src/hardware/RelayController.h:160-167 | the other button is let go first and the release is armed 300 ms ahead |
| `NotificationEngines.MuteState.OnAllClear` | lib/core/src/airalert/MuteState.h:34-36 | lifts all scopes but the snooze |
| `NotificationEngines.MuteState.ShouldSilence` | lib/core/src/airalert/MuteState.h:44-53 | what is silenced, and a run-out snooze lifted by the question itself |
| `NotificationEngines.MuteHoldsOverRun` | lib/core/src/airalert/NotificationEngine.h:112-183 | nothing but the listed operations lifts a mute, over every run; an all-clear or reset lifts no snooze |
| `NotificationEngines.EventQueues` | lib/core/src/airalert/NotificationEngine.h:116-146 | which signal an event queues, if any |
| `NotificationEngines.MutedSilence` | lib/core/src/airalert/NotificationEngine.h:76-82 | after a mute whatever sounds is a manual test or (unless all types are muted) a type not active at the mute; the mute changes no alert state |
| `NotificationEngines.PlaysThroughRun` | lib/core/src/airalert/NotificationEngine.h:112-183 | a playing signal is carried through any undisturbed run |
| `NotificationEngines.PlaysToCompletion` | lib/core/src/airalert/NotificationEngine.h:161-168 | any signal, from the tick that picks it up, is played to its end unless interrupted: each tick sounds exactly the timeline of its type's start pattern for a start or escalation, end pattern for an end, reminder pattern for a reminder, and of the pattern under test for a test; it is let go exactly when the last window closes |
| `NotificationEngines.PlaysOn` | lib/core/src/airalert/NotificationEngine.h:161-168 | the same for a signal already playing, at any point of its timeline |
| `NotificationEngines.PickedUpPlays` | lib/core/src/airalert/NotificationEngine.h:170-181 | a signal enters that state when the engine picks it up |
| `NotificationEngines.OnlyTheseInterrupt` | lib/core/src/airalert/NotificationEngine.h:122-127 | what cuts a signal short, exactly: mute, stop, reset, and for a reminder the voiced start of an enabled type |
| `NotificationEngines.TestIsTheLast` | lib/core/src/airalert/NotificationEngine.h:49-53 | over every run the pattern under test is the one last given |
| `NotificationEngines.TestIsNext` | lib/core/src/airalert/NotificationEngine.h:170-173 | with nothing playing and room in the queue the next tick plays a test, muted or not |
| `NotificationEngines.PicksFirst` | lib/core/src/airalert/NotificationEngine.h:170-182 | of the waiting signals in queue order the first that is heard and has an ON step is played, those behind it go on waiting, and none is played only when none would sound |
| `NotificationEngines.TickServesQueue` | lib/core/src/airalert/NotificationEngine.h:149-183 | the same for a whole tick, after the reminders due have joined; while a signal plays the others wait |
| `NotificationEngines.ReminderExactly` | lib/core/src/airalert/NotificationEngine.h:151-159 | in true time a reminder is queued iff its type is active and enabled, its reminders are on and not held back by stale data, and the interval has passed since its start or last reminder |
| `NotificationEngines.CountedFrom` | lib/core/src/airalert/NotificationEngine.h:117-119 | what an interval is counted from: the start, a reset, or the last reminder |
| `NotificationEngines.MuteLastsExactly` | lib/core/src/airalert/MuteState.h:44-53 | in true time what a mute silences and until when, for both kinds of mute |
| `NotificationEngines.LiftEndsMute` | lib/core/src/airalert/MuteState.h:34-36 | an unmute, a reset and the last end do lift the mutes they may lift |
| `NotificationEngines.NothingIsLeft` | lib/core/src/airalert/NotificationEngine.h:63-82 | a mute, a stop and a reset silence at once and leave nothing waiting |
| `NotificationEngines.NotificationEngine.OnEngineEvent` | lib/core/src/airalert/NotificationEngine.h:112-147 | mask, reminder time, queue, preemption and mute for each kind of event |
| `NotificationEngines.NotificationEngine.TickNow` | lib/core/src/airalert/NotificationEngine.h:149-183 | reminders, then playback or the next signal; the result is whether the siren sounds |
| `NotificationEngines.NotificationEngine.Remind` | lib/core/src/airalert/NotificationEngine.h:151-159 | due reminders are queued and their clocks restarted |
| `NotificationEngines.NotificationEngine.Next` | lib/core/src/airalert/NotificationEngine.h:170-182 | the loop skips silenced and empty signals until one plays |
| `NotificationEngines.NotificationEngine.HaltAndClear` | lib/core/src/airalert/NotificationEngine.h:63-67 | playback and queue end |
| `NotificationEngines.NotificationEngine.MuteNow` | lib/core/src/airalert/NotificationEngine.h:76-82 | playback ends and the active types are muted |
| `NotificationEngines.NotificationEngine.Reset` | lib/core/src/airalert/NotificationEngine.h:68-73 | no type active, nothing queued, reminder clocks at 0, mute lifted like an all-clear |
| `NotificationEngines.NotificationEngine.PlayTestNow` | lib/core/src/airalert/NotificationEngine.h:49-53 | the test pattern is kept and a manual test queued |
| `Alarm.MaskAfterApply` | src/main.cpp:189-226 | the siren's active mask after a batch, by its starts and ends |
| `Alarm.MaskKeptExactly` | src/main.cpp:192-193 | the mask stays the engine's Active set iff no start or end is dropped; 14 slots always suffice |
| `Alarm.EightSlotsCanLose` | src/main.cpp:192-193 | with the 8 slots of the code two polls after a location refresh can lose a start |
| `Alarm.MaskMatchesOverRun` | src/main.cpp:110-133 | across polls, failed polls, mutes, tests, OTA stops, new settings and location refreshes the mask is the Active set, given that batches fit |
| `Alarm.ActiveAfterRun` | src/main.cpp:228-306 | after a location refresh and any run of polls, ticks, mutes, tests and stops a type is Active iff the validated samples confirm it; failed polls contribute none |
| `Alarm.EndedAfterRun` | src/main.cpp:228-306 | an end reported in such a run rests on e validated absences in a row |
| `Alarm.NoFalseAllClear` | src/main.cpp:207-213 | an End that enters the queue is true after the whole batch: nothing active under quiet_transitions 2, else the other air-raid colour inactive |
| `Alarm.TrueAllClearIsQueued` | src/main.cpp:207-213 | conversely a real all-clear of an enabled type is queued, room permitting |
| `Alarm.MarkIsSeen` | src/main.cpp:195-196 | the mark of a start is the one taken when the snapshot was observed |
| `Alarm.AlreadyActiveExactly` | src/main.cpp:189-196 | in such a run a start is voiced as already active iff its type was in every validated sample since the location refresh |
| `Alarm.VoicedExactly` | src/main.cpp:194-213 | every signal a poll adds is owed, and every owed one waits afterwards, room permitting: a start not already active, not partial-only with the partial siren off, not half of a hand-over; an end with no rival left; an escalation as configured |
| `Alarm.StartIsVoicedExactly` | src/main.cpp:190-213 | over a run from a location change on, the poll that reports a start leaves its signal waiting iff the type was not in every sample, is not partial-only with the partial siren off and is not half of a hand-over |
| `Alarm.AlarmApp.ApplyAndNotify` | src/main.cpp:189-226 | observe, step, then each event in turn with its mode |
| `Alarm.AlarmApp.NotifyAll` | src/main.cpp:194-225 | the loop takes the events in order, each with its own clock reading |
| `Alarm.AlarmApp.NotifyOne` | src/main.cpp:194-213 | one event: mark consumed, mode decided, siren told |
| `Alarm.AlarmApp.IsQuiet` | src/main.cpp:201-212 | silent iff already active, partial-only with the partial siren off, or a hand-over |
| `Alarm.AlarmApp.DoPoll` | src/main.cpp:228-306 | a 200 or an accepted 304 applies the snapshot, anything else changes nothing |
| `Alarm.AlarmApp.RefreshLocations` | src/main.cpp:123-128 | both engines and the snapshot start over |
| `Firmware.SamplesAreBodies` | src/main.cpp:237-258 | the samples a run supplies are the aggregates of the whole 200 bodies and of the body each accepted 304 stands for, and no others |
| `Firmware.PresenceIsConcern` | lib/core/src/airalert/AlertEngine.cpp:50-52 | a type is present in a sample iff some alert of it is at, above or (where partial coverage counts) inside a selected location |
| `Firmware.ActiveExactly` | src/main.cpp:228-306 | after a location refresh and any run of polls, ticks, mutes, tests and stops a type is Active iff s samples in a row concerned the selection with no e samples since that did not |
| `Firmware.EndedNeedsQuietBodies` | src/main.cpp:228-306 | an end is reported only on e whole bodies in a row that did not concern the selection |
| `Firmware.TrimmedPollIsSame` | proxy/lua/airalert/proxy.lua:179-184 | one trimmed reply leaves the device in the same state as the full one |
| `Firmware.ProxyChangesNothing` | proxy/lua/airalert/proxy.lua:158-184 | over every run the trimmed bodies put the alarm through exactly what the full ones would |
| `Firmware.Poller.DoPoll` | src/main.cpp:228-306 | the reply goes through the client into the builder; what the builder holds then is what the alarm applies, or nothing |
| `Configs.ValidatePlaces` | lib/core/src/airalert/Config.h:90-101 | the nested loops accept exactly the lists of well-formed locations with distinct uids |
| `Configs.ValidatePattern` | lib/core/src/airalert/Config.h:104-108 | the loop accepts exactly the patterns within the limits |
| `Configs.ValidateProfiles` | lib/core/src/airalert/Config.h:102-111 | all patterns and reminder intervals within the limits |
| `Configs.ValidateConfig` | lib/core/src/airalert/Config.h:75-113 | the error returned is that of the first broken limit |
| `Configs.WithinLimitsExactly` | lib/core/src/airalert/Config.h:75-113 | a configuration passes iff every limit holds, in numbers |
| `Configs.ValidFeedsPlayer` | lib/core/src/airalert/Config.h:102-111 | profiles of a valid configuration are what the siren's player relies on |
| `Configs.CString` | lib/core/src/airalert/Config.h:240-244 | text ends at its first NUL and is unchanged iff it has none |
| `Configs.ReadInterval` | lib/core/src/airalert/Config.h:315-319 | the interval read is whole seconds, and what was printed comes back cut to seconds |
| `Configs.StepsTrip` | lib/core/src/airalert/Config.h:118-125 | printed steps read back as the same steps |
| `Configs.PatternTrip` | lib/core/src/airalert/Config.h:118-175 | a valid pattern survives printing and reading over any other |
| `Configs.ProfileTrip` | lib/core/src/airalert/Config.h:219-229 | a profile survives with its reminder cut to whole seconds |
| `Configs.PlacesTrip` | lib/core/src/airalert/Config.h:211-218 | locations survive, with absent parents left out of the document |
| `Configs.TypeNameTrip` | lib/core/src/airalert/Config.h:177-185 | location type names read back as the type |
| `Configs.RoundTrip` | lib/core/src/airalert/Config.h:187-330 | reading a printed valid configuration over any other gives it back, schema 1 migrated and reminders cut to seconds |
| `Configs.RoundTripExactly` | lib/core/src/airalert/Config.h:187-330 | every field is reproduced iff the schema is current and reminders are whole seconds |
| `Configs.AcceptedSurvives` | lib/core/src/airalert/Config.h:234-330 | whatever is accepted over whole-second reminders survives every later trip unchanged |
| `Configs.FromJson` | lib/core/src/airalert/Config.h:232-330 | an accepted document yields a valid schema-2 configuration, with whole seconds if the base had them |
| `Configs.MissingKeeps` | lib/core/src/airalert/Config.h:232-330 | missing sections leave their part of the configuration alone |
| `Configs.SectionsAreSet` | lib/core/src/airalert/Config.h:234-330 | an accepted document sets exactly the fields its sections name |
| `Configs.AlertsAreSet` | lib/core/src/airalert/Config.h:248-261 | member by member for the alert settings |
| `Configs.RelayIsSet` | lib/core/src/airalert/Config.h:262-266 | member by member for the relay |
| `Configs.ProfileIsSet` | lib/core/src/airalert/Config.h:301-320 | member by member for a profile |
| `Configs.OldDefaultsAreLifted` | lib/core/src/airalert/Config.h:322-330 | schema 1: only the two untouched defaults are lifted |
| `Configs.LegacyPairIsSteps` | lib/core/src/airalert/Config.h:143-175 | the old ON/OFF pair means the two steps iff both lengths round to a step |
| `Configs.HalfPairKeepsOther` | lib/core/src/airalert/Config.h:168-174 | of an old pair given by halves the other half stays |
| `Configs.PatternFromJson` | lib/core/src/airalert/Config.h:145-175 | steps, pair or neither: the pattern read or the refusal |
| `Configs.StepsFromJson` | lib/core/src/airalert/Config.h:155-166 | the loop stops at the first bad step |
| `Configs.ProfileFromJson` | lib/core/src/airalert/Config.h:305-319 | one profile's overlay |
| `Configs.ProfilesFromJson` | lib/core/src/airalert/Config.h:304-320 | the loop over the types stops at the first bad profile |
| `Configs.PlaceFromJson` | lib/core/src/airalert/Config.h:283-296 | one location; unknown type, uid 0 and duplicates are refused |
| `Configs.PlacesFromJson` | lib/core/src/airalert/Config.h:280-299 | the loop over the locations stops at the first bad one |
| `Configs.ConfigFromJson` | lib/core/src/airalert/Config.h:234-330 | all sections in order, the first error winning, then migration and limits |
| `Configs.ConfigToJson` | lib/core/src/airalert/Config.h:187-230 | the document with all sections, locations and profiles |
| `ConfigStores.DefaultsAreGood` | lib/core/src/airalert/Config.h:17-66 | the default configuration is valid, current and whole-second |
| `ConfigStores.DefaultsSpeak` | lib/core/src/airalert/AlertProfiles.h:9-36 | the shipped priorities are in the documented order, and what each default signal sounds like |
| `ConfigStores.SavedSurvives` | src/config/ConfigStore.h:15-32 | a save cut short anywhere leaves the next boot the old configuration or the whole new one, and its result says which |
| `ConfigStores.AcceptedChangeSurvivesBoot` | src/config/ConfigStore.h:15-32 | an accepted change is found unchanged after the next boot once the save succeeded |
| `ConfigStores.ConfigStore.Load` | src/config/ConfigStore.h:15-24 | the stored configuration over the defaults, or the caller's own |
| `ConfigStores.ConfigStore.Save` | src/config/ConfigStore.h:27-32 | an invalid configuration touches no file; a valid one is written as its document |

## Left out

- HTTP, TLS, heap guards, Wi-Fi, NTP, captive portal, OTA download, sessions and login: platform plumbing; only the result of a request is modelled.
- JSON text and byte scanning: documents are decoded trees, timestamps are six numbers after scanning; object members are numbered keys.
- LocationTable.h contents: any sorted table generated from the tree.
- Catalogue.Flatten: the order in which the generator visits siblings is taken from the tree; the emitted table is sorted afterwards anyway. Names and location types of its rows are not kept.
- Catalogue.FindByUid: the row's type is not returned, matching never reads it.
- AlertsParsers.RegionToAlerts: the counts of seen and skipped alerts are not kept.
- AlertsParsers.DecodeAlert: region ids are strings, as the API sends them; a JSON number would be cut to 16 bits directly.
- Webhooks.ApplyCommutes: compares the alerts of every region, not the header fields an entry created by a webhook takes from whichever event came first.
- Webhooks.ApplyEvent: entries are rewritten as values, not as shared tables; an entry without a list counts as empty.
- ProxyStore.NotModifiedOverRuns: the catalogue is fixed for a run; its arrival, a newer one, and the two writes of that are not covered.
- ProxyStore.SharedDict.ServeAlerts: a worker's decoded copies are part of the interleaved model in the same file, not of this member; counters and headers are not kept.
- BothEnds.NotModifiedAcrossBothEnds: the writing of a stamp as an HTTP date is any one-to-one function; that stored lists have twins and canonical ids is a condition on what upstream sends.
- ProxyStore.SharedDict.ServeWebhook: signatures, skew and duplicate checks happen before it and are not modelled; lock expiry and eviction from the shared dictionary are not either.
- AlertsClients.AlertsClient.HandleConfigPut: parsing and the other subsystems of the handler are separate; here only what reaches the client and the builder.
- AlertsClients.AlertsClient.HandleLocationsPut: likewise.
- AlertsClients.AlertsClient.Poll: retry delays and error details are not kept.
- Alarm.MaskMatchesOverRun: the relay is not part of this device state, so the forced stop at a mute is proved in Relay only; that the snapshot a 304 reapplies is a whole body is proved in Firmware.SamplesAreBodies.
- Alarm.AlarmApp.DoPoll: journal, health, streak of 401s and backoff are not modelled.
- Relay.RunIsSafe: the wiring mode is fixed for a run, and polarity during the writes inside begin is not modelled.
- Relay.RelayController.TickNow: the press ring is a separate object; the controller records its presses in a full history instead.
- Relay.PressRing.PopPress: the journal loop that overwrites the loss count is not modelled.
- NotificationQueues.DrainAfterRun: arrival order needs fewer than 2^32 accepted pushes; the counter's wrap is excluded.
- Patterns.Add: steps beyond the used count of the fixed array do not exist in the model, and a configuration's array of locations likewise.
- Configs.ConfigFromJson: on an error the source has partly written its output, which every caller throws away; the model returns the error alone.
- SnapshotBuilders.CellStartsAgree: only starts in 0..2^32-1; what the cast makes of others is in SnapshotBuilders.CellStartsAreWrapped.
- Debouncing, backoff, health, event log, LEDs, web pages, the emulator and the buttons: they neither decide which types are active nor move the relay on their own, so nothing proved here rests on them.
