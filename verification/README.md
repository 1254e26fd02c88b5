# hole-balancer: a verified model

hole-balancer is a DNS load balancer in front of several Pi-holes. This project models the parts of
it that decide who answers a query and the ledgers that account for it, and proves what they promise
over all inputs and all runs:

- **Wire.dfy**: the slice of the DNS wire format (RFC 1035 sections 3.1, 4.1.1, 4.1.2 and 5.1) that is
  read and written: names, questions, probe queries, error responses.
- **Health.dfy**: the rise/fall verdict of one network path, its latency average, and the race between
  a report's locked decision and its later store.
- **Selection.dfy**: rotation, weighted draw, stable sort and shuffle, for every stream of random draws.
- **Config.dfy**: what a usable list of upstreams is, and how files and the management interface
  arrive at one.
- **Plans.dfy**, **Pool.dfy**: endpoints, upstreams and the pool as objects updated in place: membership,
  the tiered plan, the health reports.
- **Outage.dfy**: the fallback tracker's windowed accounting of outage time and queries.
- **Stats.dfy**: the statistics collector with its two ring-buffer histories.
- **Net.dfy**, **Fallback.dfy**: exchanges with the outside world and the rotation over public resolvers.
- **Ledger.dfy**, **Proxy.dfy**: forwarding one query, and the books four components keep about it.
- **Interleaving.dfy**: the same books when queries overlap.
- **Control.dfy**: the manager that applies a change, saves it and rolls it back.
- **Balancer.dfy**: the whole process, from its configuration file through any sequence of happenings.
- **Arith.dfy**, **Basics.dfy**: shared vocabulary.

Objects that the balancer mutates are classes here. Each carries a ghost log of what it was told, its
`Valid` predicate ties every field to that log, and the theorems are about the log. Queries are counted
with unbounded integers, except the rotation counters, which are 64-bit words converted to `int`.
Randomness is an arbitrary stream of numbers, replies are an arbitrary script, cancellation is a
permanent event at an arbitrary moment, a save is told whether it succeeds, address normalisation is an
arbitrary function, and the clock is a parameter that does not run backwards.

The main results, each over every input, world or run:

- Forwarding is a function of its world (`ForwardRule`, met by `Proxy.Server.Forward` and `Resolve`): first
  good answer of the plan's prefix, else the public rotation, else the last error, else a synthetic one;
  `UncancelledForward` spells it out, and the other properties of a reply are corollaries.
- A plan is an exact cover of the usable paths in the strategy's order (`PlanExactCover`, `Pool.Plan`), and
  what each strategy puts first is said without reference to the code (`FailoverChoice`, `LatencyChoice`,
  `RandomChoice`, `PlanRepeatedly`); shuffles are uniform (`ShuffleReaches`, `ShuffleUnique`).
- The health verdict has a closed form over its history (`VerdictClosedForm`); when a report's decision and
  its store are separated, every store still has its own full run, and the exact conditions for agreement and
  for alternating announcements are given (`StoredVerdictsAreBacked`, `StoresAgreeExactly`, `AlternationExact`).
- Outage windows conserve time, episodes and queries (`OutageConserved`), and each reports exactly the instants
  down, the longest outage and the queries of its own stretch (`WindowOutage`, `LongestReported`,
  `WindowCounts`); the ring buffers show the log exactly where the time zone allows it (`HistoryExact`,
  `TallyCounts`).
- The books of four components balance after every run of queries, probes, sweeps, summaries and changes
  (`Balancer.Operate` with `TotalsBalance`, `AttemptsBalance`, `AnswersBalance`); overlapping queries balance
  at every moment, and end with the counters of the serial log (`EveryInterleavingBalances`,
  `OverlapEqualsSerial`).
- Names, questions and probes survive the wire in both directions (`DecodeRender`, `ProbeRoundTrip`).
- A run of changes and failed saves has exactly the effect of the changes in turn, accounts for every upstream,
  and leaves configuration, pool and resolver in agreement (`Control.Run`, `RunAccounts`).

Where code and documentation disagree, the model follows the code:

- README.md:196-197 says no query reaches public DNS while any Pi-hole answers. The code guarantees this
  within the attempt budget (`PublicOnlyAfterBudget`, `PublicContactExact`). Beyond it the promise fails
  (`BudgetCutsPlan`); it holds for the whole plan exactly under the condition of `WholePlanFirst`.
- internal/control/control.go:6-9 says a failed write leaves server and file in disagreement. The code
  rolls back, so configuration, pool and resolver always agree (`Agree`); what is not restored is the
  position of a removed upstream (`PutBackKeeps`) and its health and drain state, since it is built anew.
- internal/config/config.go:261-264 calls `PrepareUpstream` the single definition shared with the file.
  `Validate` does not call it, and the two differ in the name rules (`FileAndInterfaceDiffer`,
  `SlashOnlyInFiles`).
- internal/stats/stats.go:151-174 files a record under its local hour but labels the slot with the
  absolute hour. The history is exact if and only if the zone's offset is a whole number of periods
  (`HistoryExact`); in half-hour zones the second half of every hour is filed where nobody looks
  (`LoneRecordShown`).
- internal/pool/pool.go:368 and internal/fallback/fallback.go:114 index with a signed conversion of an
  unsigned counter. `RotationInRange` says exactly when every index is in range; on a 32-bit target
  (Makefile:31) that ends after 2^31 queries unless the counter divides evenly (`RotationFails`).

## Model

| member | source | states |
|---|---|---|
| Wire.ScanSound | internal/dnsmsg/dnsmsg.go:208-239 | an accepted name is byte for byte the encoding of its labels, each 1 to 63 octets, within the length budget |
| Wire.ScanComplete | internal/dnsmsg/dnsmsg.go:208-239 | every encoding with labels in range and budget is accepted and read back as those labels, whatever follows it |
| Wire.ScanExtension | internal/dnsmsg/dnsmsg.go:208-239 | name parsing depends only on the bytes it consumes |
| Wire.ScanTruncated | internal/dnsmsg/dnsmsg.go:208-239 | every proper prefix of an accepted name is rejected as malformed |
| Wire.ParseName | internal/dnsmsg/dnsmsg.go:206-239 | the reading loop succeeds exactly where the scan does, with the same error otherwise, and returns the escaped presentation form and the offset past the root octet |
| Wire.WriteEscaped | internal/dnsmsg/dnsmsg.go:241-255 | the rendering loop appends exactly the escaped label |
| Wire.DecodeRender | internal/dnsmsg/dnsmsg.go:216-255 | a decoder for the RFC 1035 section 5.1 escapes recovers the exact label sequence from the printed name, for every byte content |
| Wire.RenderInjective | internal/dnsmsg/dnsmsg.go:216-255 | different wire names never print alike |
| Wire.QuestionExtension | internal/dnsmsg/dnsmsg.go:184-204 | every message that extends the consumed bytes of a question parses to the same question |
| Wire.QuestionTruncated | internal/dnsmsg/dnsmsg.go:184-204 | cutting a message anywhere inside its question makes the question unreadable |
| Wire.PackLabels | internal/dnsmsg/dnsmsg.go:264-273 | the packing loop refuses for the first unacceptable label, else yields the encoding without the root octet |
| Wire.PackName | internal/dnsmsg/dnsmsg.go:257-279 | a name is accepted exactly when all its labels are 1 to 63 octets and the encoding is at most 255, and then packed to that encoding; the error is that of the first bad label |
| Wire.BuildQuery | internal/dnsmsg/dnsmsg.go:281-296 | builds, for exactly the acceptable names, a query with the given id, RD, one question and class IN |
| Wire.BuiltQueryParses | internal/dnsmsg/dnsmsg.go:140-296 | every built query parses back to its own labels, type and class and to a plain recursive query header |
| Wire.ProbeRoundTrip | internal/dnsmsg/dnsmsg.go:184-296 | for every accepted name the round trip through the wire keeps labels, type and class, and gives the fully qualified spelling if and only if every byte is printable and not a backslash |
| Wire.ErrorResponse | internal/dnsmsg/dnsmsg.go:298-340 | nothing exactly for requests too short, already responses, or with an unreadable question; otherwise a response no longer than the request with its id, opcode and RD, QR and RA set, AA, TC and Z clear, counts 1/0/0/0 or zero, and the same parsed question |
| Wire.ValidateResponse | internal/dnsmsg/dnsmsg.go:342-358 | accepts exactly messages with a full header, the wanted id and the response bit |
| Wire.HeaderBits | internal/dnsmsg/dnsmsg.go:140-160 | the flag octets are made up of the fields read from them as section 4.1.1 of RFC 1035 lays them out, with three unread bits between RA and RCODE; ids and counts are 16-bit numbers |
| Wire.CodesRecognised | internal/dnsmsg/dnsmsg.go:71-78 | exactly code 3 prints as NXDOMAIN and exactly code 2 as SERVFAIL |
| Wire.BuiltQueryType | internal/dnsmsg/dnsmsg.go:105-112 | the type filed for a query is that of its question |
| Health.VerdictClosedForm | internal/pool/pool.go:446-495 | after any serial history a path is up exactly when the latest point ending a run of `rise` successes or `fall` failures ended a success run; the counters are never both nonzero, up implies failures below `fall`, down implies successes below `rise` |
| Health.CountersAreRuns | internal/pool/pool.go:465-482 | the two counters are the lengths of the trailing runs |
| Health.VerdictStep | internal/pool/pool.go:429-526 | how probes, queries (only when passive checks are on) and initial verdicts move the state; an initial verdict counts as one full decisive run |
| Health.CallbacksAlternate | internal/pool/pool.go:491-526 | over any log the announced transitions strictly alternate, beginning with up, and the last one is the current verdict |
| Health.PassiveOffIgnoresQueries | internal/pool/pool.go:433-444 | with passive checks off, client queries have no say in the verdict |
| Health.PassiveOnCountsQueries | internal/pool/pool.go:433-444 | with them on, a query counts as a probe with its outcome would |
| Health.InitialForgets | internal/pool/pool.go:497-526 | an initial verdict is taken as it is and forgets everything before it |
| Health.QueriesCount | internal/pool/pool.go:436-442 | the traffic counters are the client queries logged and those that failed |
| Health.BlendMoves | internal/pool/pool.go:448-454 | one sample moves the average a fifth of the gap, rounded down or up, and never past the sample |
| Health.LatencyBetweenSamples | internal/pool/pool.go:446-454 | the average is zero exactly when unmeasured, and otherwise lies between the least and greatest sample since it was last set |
| Health.EqualSamplesConverge | internal/pool/pool.go:446-454 | n equal samples bring the average within (4/5)^n of its former distance, up to 4 ns of rounding; an unmeasured path takes the first sample whole |
| Health.OnlySamplesMove | internal/pool/pool.go:446-454 | failures and unmeasured successes leave the average alone |
| Health.StoredVerdictsAreBacked | internal/pool/pool.go:447-526 | in every interleaving of locked decisions and later stores, each stored or pending verdict ended a full run of `rise` successes or `fall` failures at the very position where it was decided; positions are all different and in lock order, stores and pending ones together are exactly the decisions, each once, and the flag is the verdict stored last |
| Health.DisciplinedRunAgrees | internal/pool/pool.go:446-526 | when every decision, initial ones included, is taken with no store outstanding, flag and counters agree at every quiet moment |
| Health.LateStoreDisagrees | internal/pool/pool.go:489-494 | for all thresholds, from any reachable state with a store of b outstanding, enough opposite reports and then the stores, that one last, end quiet with a full run contradicting the flag |
| Health.StoresAgreeExactly | internal/pool/pool.go:489-494 | in any state, every order in which the outstanding stores can land ends in agreement if and only if no full run contradicts an outstanding verdict (or the flag, when none is outstanding) |
| Health.OneReportHeals | internal/pool/pool.go:447-494 | from any reachable state with no store outstanding, one more serial report makes verdict and counters agree |
| Health.OneAtATimeAlternates | internal/pool/pool.go:489-526 | with never more than one store outstanding, announcements alternate beginning with up, initial verdicts included |
| Health.DisciplinedIsOneAtATime | internal/pool/pool.go:446-526 | when every decision is taken with no store outstanding, there is never more than one outstanding |
| Health.AlternationExact | internal/pool/pool.go:489-494 | for reports: announcements alternate however the outstanding stores of any moment land, if and only if there is never more than one outstanding |
| Health.SerialRunIsDisciplined | internal/pool/pool.go:446-526 | a run in which every event stores before the next one begins is disciplined |
| Health.SerialRunIsReplay | internal/pool/pool.go:446-526 | for every log of probes, queries and initial verdicts the two-step machine run serially ends in the verdict, counters and announcements of the one-step automaton |
| Selection.Shuffle | internal/pool/pool.go:424-426 | a permutation, the one its draws lead to, one number per position but the first |
| Selection.ShuffleReaches | internal/pool/pool.go:424-426 | every order comes out of some draws |
| Selection.ShuffleUnique | internal/pool/pool.go:424-426 | of distinct elements, different draws give different orders, so each of the n! comes out of exactly one |
| Selection.RotationInRange | internal/pool/pool.go:368-371 | every index of a rotation is in range if and only if the counter converted to int is non-negative or a multiple of the length, which is the same as the start not being negative; while the counter fits, the start is the counter modulo the length |
| Selection.RotationFails | internal/pool/pool.go:368-371 | a concrete failing input: on a 32-bit target the rotation over three candidates at counter 2^31 starts below zero |
| Selection.ToIntWraps | internal/pool/pool.go:368 | the conversion of the counter stays in the range of int and differs by whole wraps |
| Selection.TruncRemIs | internal/pool/pool.go:368 | the remainder is short of n, has the sign of the dividend and leaves a multiple of n |
| Selection.TurnsOn | internal/pool/pool.go:366-373 | one step of the counter turns the order on by one |
| Selection.RotationFair | internal/pool/pool.go:366-373 | m consecutive calls put each of n candidates first floor(m/n) or ceil(m/n) times |
| Selection.RotationServesAll | internal/pool/pool.go:366-373 | with unchanged candidates and a counter that fits, each candidate heads floor(m/n) or ceil(m/n) of m consecutive rotations |
| Selection.WeightedPick | internal/pool/pool.go:405-422 | returns the index whose weight interval holds the number drawn below the total, or a plain draw when the total is not positive |
| Selection.PickSelects | internal/pool/pool.go:414-421 | for non-negative weights the trailing return is unreachable |
| Selection.DrawProportional | internal/pool/pool.go:405-422 | each index is selected by exactly as many draws as its weight, if and only if no weight is negative |
| Selection.ShuffledDrawProportional | internal/pool/pool.go:380-386 | for every shuffle, exactly Weight(u) of the total draws select u, the total being the same for every shuffle |
| Selection.StableSortCorrect | internal/pool/pool.go:375-378 | sorting permutes, orders by key and keeps the order of equal keys |
| Config.CleanEndpoints | internal/config/config.go:283-299 | succeeds exactly when every address normalises and none repeats here or earlier, and returns the cleaned endpoints |
| Config.Validate | internal/config/config.go:500-544 | succeeds exactly when the list after defaults has distinct names and addresses, weights of at least 1 and an endpoint each, and returns that list |
| Config.PrepareUpstream | internal/config/config.go:265-302 | accepts exactly upstreams with an allowed trimmed name, non-negative weight and distinct normalising addresses; the result is well formed |
| Config.AddKeepsValid | internal/pool/pool.go:157-178 | adding a well-formed upstream that clashes with none keeps the list valid |
| Config.RemoveKeepsValid | internal/pool/pool.go:185-214 | removing one of several keeps the list valid, and putting it back last is always possible |
| Config.ValidMeans | internal/config/config.go:500-544 | a list is valid if and only if it is not empty, every upstream is named, weighted and reachable, and no name and no address occurs twice |
| Config.FillKeeps | internal/config/config.go:504-540 | names given and weights set are kept, addresses normalised, an unnamed path named after its address, a zero weight made 1 |
| Config.DefaultNames | internal/config/config.go:506-508 | names given are kept and default names differ |
| Config.AllowedNames | internal/config/config.go:265-272 | a name is allowed if and only if it is not all blanks and has no slash, question mark, hash or backslash |
| Config.TrimSpaceCuts | internal/config/config.go:266 | trimming cuts blanks at both ends and nothing else |
| Config.FileAndInterfaceDiffer | internal/config/config.go:265-302 | for a named upstream the interface accepts exactly what the file accepts with an allowed name, with the same result exactly when the name has no surrounding blanks |
| Config.SlashOnlyInFiles | internal/config/config.go:270-272 | a concrete upstream the file accepts and the interface refuses |
| Plans.Upstream.constructor | internal/pool/pool.go:138-144 | fresh distinct paths in configuration order, pointing back, all down and unreported |
| Plans.Upstream.Active | internal/pool/pool.go:73-83 | the path that is up with no path before it up, or none when all are down |
| Plans.FirstUpExact | internal/pool/pool.go:73-83 | the preferred path is the first one up in configuration order, and there is none exactly when every path is down |
| Plans.HealthyMeans | internal/pool/pool.go:63-71 | an upstream is healthy if and only if it is undrained and some path of it is up |
| Plans.TiersCover | internal/pool/pool.go:307-332 | preferred, other healthy and down paths of a list of upstreams are together its paths, each exactly once |
| Plans.PlanExactCover | internal/pool/pool.go:288-348 | a plan repeats nothing and holds exactly the paths of undrained upstreams, or all paths when those have none; it is empty only when there is no path at all |
| Plans.FirstAttemptsDistinct | internal/pool/pool.go:275-311 | the first attempts, one per healthy upstream in the chosen order, reach different Pi-holes |
| Plans.PlanOpens | internal/pool/pool.go:307-311 | the first attempt goes to the preferred path of the upstream the strategy put first |
| Plans.RetriesReach | internal/pool/pool.go:313-339 | every order of the other paths up, with every order of those down, comes out of some draws |
| Plans.MeasuredFirst | internal/pool/pool.go:391-403 | in least-latency order, before a preferred path measured under an hour come only measured ones that are no slower |
| Pool.Pool.constructor | internal/pool/pool.go:119-136 | builds the configured upstreams in order with the membership invariant, everything down and undrained |
| Pool.Pool.Add | internal/pool/pool.go:153-178 | succeeds exactly when neither name nor any address is taken, then appends a fresh, undrained and unreported upstream; keeps the membership invariant and list validity, and leaves health and drain state alone |
| Pool.Pool.Remove | internal/pool/pool.go:180-214 | succeeds exactly for a known name that is not the only upstream, then drops the first of that name with its paths; keeps the membership invariant and list validity |
| Pool.Pool.SetStrategy | internal/pool/pool.go:223-233 | changes the strategy exactly for a recognised name |
| Pool.Pool.HealthyUpstreams | internal/pool/pool.go:262-273 | the number of undrained upstreams with a path up |
| Pool.Pool.Order | internal/pool/pool.go:350-389 | under every strategy a permutation of the healthy upstreams: unchanged, rotated from the counter, stably sorted by latency, or the shuffle and draw that the random numbers at hand lead to; it takes exactly those numbers |
| Pool.FailoverChoice | internal/pool/pool.go:361-362 | "failover": the first attempt is the first path up of the first undrained upstream in configuration order that has one |
| Pool.LatencyChoice | internal/pool/pool.go:375-378 | "least-latency": the first attempt is no slower than any preferred path measured under an hour |
| Pool.RandomChoice | internal/pool/pool.go:380-386 | "random": u comes first for exactly Weight(u) of the numbers below the total weight |
| Pool.Pool.Plan | internal/pool/pool.go:275-348 | an exact-cover plan for the snapshot: the first path up of each healthy upstream in the strategy's order, then the other paths up, then those down, each of these two in the order the random numbers at hand lead to; drained upstreams only if nothing else is left |
| Pool.Pool.PlanRepeatedly | internal/pool/pool.go:366-373 | under rotation, with flags standing still and a counter that fits, the m results are plans in orders rotated one further each, the counter moves by m, and each healthy upstream gets the first attempt in floor(m/n) or ceil(m/n) of them |
| Pool.Pool.Record | internal/pool/pool.go:446-495 | one outcome moves average, counters, flag and announcements as the automaton says |
| Pool.Pool.ReportProbe | internal/pool/pool.go:428-431 | appends a probe to the path's log and keeps every counter what the log says |
| Pool.Pool.ReportQuery | internal/pool/pool.go:433-444 | the same for a client query, with the query and failure totals |
| Pool.Pool.SetInitial | internal/pool/pool.go:497-526 | the same for an initial verdict, which bypasses the thresholds |
| Outage.EveryRunAccounts | internal/fallback/fallback.go:205-313 | every interleaving of observations, queries and cuts under a non-decreasing clock leaves windows that account for it |
| Outage.OutageConserved | internal/fallback/fallback.go:205-313 | windows tile time; outage totals over all windows and the open one equal the observed down time; episodes equal outages begun plus cuts made while down; queries and answers add up; longest <= total <= length and queries = failures + answers in each window |
| Outage.DownTimeIsInstants | internal/fallback/fallback.go:205-226 | the down time is the number of instants at which the latest observation said all down |
| Outage.WindowOutage | internal/fallback/fallback.go:205-292 | a window's outage total is the number of instants since its start at which all were down |
| Outage.WindowCounts | internal/fallback/fallback.go:228-239 | a window's queries, failures and each server's answers are those logged since the last cut |
| Outage.LongestReported | internal/fallback/fallback.go:216-292 | the longest outage is at least every outage ended in the window and the one in progress, and is one of them or 0 |
| Outage.EndedExact | internal/fallback/fallback.go:213-222 | the outages ended in a window are the down-to-up observations since the last cut, in order, each with its length |
| Outage.DownSinceIs | internal/fallback/fallback.go:209-313 | the outage in progress counts from where it began or from the last cut during it |
| Outage.EventsCount | internal/fallback/fallback.go:205-313 | outages begun and cuts made while down are the positions of the log where that happens |
| Outage.UsesCount | internal/fallback/fallback.go:228-239 | queries and answers are the entries of the log that say so |
| Outage.WindowsAre | internal/fallback/fallback.go:294-313 | the windows closed are those that stood open at the cuts, in order |
| Outage.QuietWindow | internal/fallback/fallback.go:256-258 | a window goes unreported if and only if no query was sent in it and no outage began in it or was carried over |
| Outage.SkippingLosesNothing | internal/fallback/fallback.go:256-258 | leaving out empty windows loses no outage, episode, query or answer |
| Outage.Tracker.Observe | internal/fallback/fallback.go:202-226 | begins or ends an outage once, idempotently, and keeps the accounts |
| Outage.Tracker.RecordQuery | internal/fallback/fallback.go:228-239 | counts one query as a failure or under its server |
| Outage.Tracker.Snapshot | internal/fallback/fallback.go:260-292 | the open window, an outage in progress counted so far |
| Outage.Tracker.Take | internal/fallback/fallback.go:294-313 | closes the window and opens the next at the same instant, splitting an outage in progress without loss |
| Outage.Tracker.Report | internal/fallback/fallback.go:332-337 | takes the window and reports it unless it is empty |
| Stats.RecordKeepsDescribes | internal/stats/stats.go:151-171 | refreshing one slot keeps the ring a description of the log, stale history reset |
| Stats.TallyCounts | internal/stats/stats.go:155-171 | the counts of a period are the numbers of its records, of those marked fallback, of those marked failed and of those with code NXDOMAIN |
| Stats.TotalsCount | internal/stats/stats.go:106-128 | failed, fallback and retry totals are the failed records, the fallback records not failed, and the attempts beyond each record's first |
| Stats.NodeCounts | internal/stats/stats.go:130-142 | a node's counters are the records under its name and their attempts beyond the first |
| Stats.LabelsCounted | internal/stats/stats.go:107-115 | each label map counts the records with that protocol, type and code |
| Stats.SlotReads | internal/stats/stats.go:336-357 | for each period of the last lap the slot read shows exactly the log's counts |
| Stats.Series | internal/stats/stats.go:336-357 | n points, oldest first, evenly spaced, each showing its slot or zero |
| Stats.HistoryExact | internal/stats/stats.go:147-174 | the history equals the log in every run and for every period of the last lap if and only if the zone offset is a whole number of periods |
| Stats.LoneRecordShown | internal/stats/stats.go:151-174 | a lone record is shown in its period, whichever that is, if and only if its offset in the period plus the zone's is below one period; otherwise the history shows nothing |
| Stats.PartialOffsetMisfiles | internal/stats/stats.go:151-174 | with any offset that is not a whole number of periods, every period has an instant whose record its history does not show |
| Stats.Collector.Record | internal/stats/stats.go:100-153 | appends to the log; totals, label tallies, per-node counters and both histories remain what the log says |
| Stats.Collector.AddToBucket | internal/stats/stats.go:155-171 | updates one slot in place, clearing it first when it belongs to another period |
| Stats.Collector.ForgetUpstream | internal/stats/stats.go:176-182 | drops one node's counters and nothing else |
| Stats.Collector.Reset | internal/stats/stats.go:184-198 | clears counters and histories |
| Stats.Collector.History | internal/stats/stats.go:248-268 | the 60 minute and 24 hour points equal the log's counts of queries, fallback, failed and blocked in their periods, in zones of whole minutes and hours |
| Net.World.Exchange | internal/dnsclient/dnsclient.go:85-103 | an exchange yields a message exactly when the bytes that arrived pass validation, and then those very bytes; the round trip is the measured one |
| Net.World.OfferedThrough | internal/proxy/proxy.go:143-209 | attempts that stop at the first good answer, at the end of their allowance or on cancellation have heard exactly what was offered up to there |
| Fallback.Resolver.Resolve | internal/fallback/fallback.go:99-157 | for every world and every moment of cancellation, result and answers are those of the reference: the first good answer of the rotation, else any answer of the last server, else failure; the contacts are that prefix of the rotation, one tracker entry each |
| Fallback.ScanStops | internal/fallback/fallback.go:117-156 | each way the loop can stop is the one the reference prescribes |
| Fallback.ResolveComplete | internal/fallback/fallback.go:117-156 | a failure for want of answers means every server was tried in vain; a canceled one means the context was cancelled by then; a reply is the first good answer, or a bad one of the last server after all others failed |
| Fallback.Resolver.ResolveRepeatedly | internal/fallback/fallback.go:102-157 | a series of resolutions: each follows the reference in an order rotated one further, the contacts and tracker entries are exactly those of the rounds in sequence, the counter moves by m, and each of n servers heads floor(m/n) or ceil(m/n) of m rounds |
| Fallback.RoundStands | internal/fallback/fallback.go:117-122 | the first contact of a round stands right after those of the rounds before it and is with the head of its order |
| Fallback.SomebodyAsked | internal/fallback/fallback.go:117-122 | a client that never gives up gets at least one server asked |
| Fallback.UsageCounts | internal/fallback/fallback.go:123-150 | exactly one success is recorded when an answer is returned, none otherwise, and one entry per exchange |
| Fallback.CreditToAnswerer | internal/fallback/fallback.go:123-150 | the server credited with an answer is the one that gave the reply, and no other is |
| Ledger.UncancelledForward | internal/proxy/proxy.go:143-235 | for a query not cancelled while it runs: the reply is the first good answer of the first `budget` plan entries; else, the budget being spent, the first good public answer or the last server's message; else, every server having been tried, the last message of a Pi-hole, or a synthetic SERVFAIL |
| Ledger.EarlyStopIsCancellation | internal/proxy/proxy.go:144-147 | attempts end before the budget only with a good answer or a cancelled context, and the public result is "canceled" only with a cancelled context |
| Ledger.AttemptsMade | internal/proxy/proxy.go:124-147 | paths tried never exceed the configured number, the plan, or one in a known outage with fallback; without a good answer one of these limits is reached unless the client gives up |
| Ledger.RetryCodesDecide | internal/proxy/proxy.go:169-186 | the answer of a Pi-hole that ends a query carries no retry code, and every attempt before it brought nothing or a retry code |
| Ledger.LastMessageIs | internal/proxy/proxy.go:171-229 | the last error is the last message received, with nothing but silence after it |
| Ledger.OutcomeShape | internal/proxy/proxy.go:143-235 | one answer per path tried; a Pi-hole's reply excludes public contacts, and any other end means every answer was rejected |
| Ledger.FirstGoodAnswerWins | internal/proxy/proxy.go:143-209 | the first good answer the plan prefix would give is the reply, unchanged; nothing after it is contacted |
| Ledger.BlockedStaysBlocked | internal/proxy/proxy.go:169-208 | NXDOMAIN is never asked again unless it is a retry code |
| Ledger.PublicOnlyAfterBudget | internal/proxy/proxy.go:143-213 | a public resolver is contacted only after the whole budget was spent and every answer rejected |
| Ledger.PublicContactExact | internal/proxy/proxy.go:143-213 | public servers hear of a query if and only if some are in use, every answer within the budget was rejected, and the client still waits |
| Ledger.WholePlanFirst | internal/proxy/proxy.go:124-136 | a query that reaches public servers has tried every path of its plan if and only if the configured attempts cover the plan and it is not a known outage with a second path |
| Ledger.BudgetCutsPlan | internal/proxy/proxy.go:124-136 | a concrete query with two paths and one attempt: the second path, which would answer, is never asked and a public server is; with two attempts it answers |
| Ledger.ReplyShape | internal/proxy/proxy.go:208-235 | every reply has a full header, the response bit and the client's id; there is none exactly when nobody answered and the question is unreadable |
| Ledger.TriesBalance | internal/pool/pool.go:436-444 | attempts counted per path equal attempts counted per query |
| Ledger.ServedBalance | internal/pool/pool.go:436-444 | per Pi-hole, attempts minus failures equal the replies it gave |
| Ledger.ReportedExact | internal/proxy/proxy.go:154-188 | each path tried gains exactly the report of its own attempt, good or not, with its own round trip; every other log stands |
| Ledger.CountsFollow | internal/pool/pool.go:433-444 | traffic counters read off the logs follow the attempts and failures of the outcomes |
| Ledger.RecordsBalance | internal/stats/stats.go:106-128 | attempts equal retries plus queries attempted, and every query is exactly one of answered, fallback or failed |
| Ledger.RecordTellsReply | internal/proxy/proxy.go:194-235 | the code filed is that of the reply sent, and the path or server filed is the one that gave it |
| Ledger.RunsCount | internal/pool/pool.go:436-444 | tries, failures and public answers over a run are the outcomes that say so |
| Ledger.NodesBalance | internal/stats/stats.go:130-145 | per-node answers add up to the records naming a node |
| Ledger.ServedIsNode | internal/proxy/proxy.go:188-195 | the replies a Pi-hole gave are the records filed under its name |
| Proxy.Server.AskPool | internal/proxy/proxy.go:138-209 | for every world, contacts the plan in order and hears exactly the answers offered up to the first good one; the last real error is remembered; each attempt is reported to its own path, with its verdict and round trip, and to no other |
| Proxy.AskStops | internal/proxy/proxy.go:143-209 | each way the attempt loop can stop is the one the reference prescribes |
| Proxy.Server.Settle | internal/proxy/proxy.go:211-269 | the public reply of the reference, else the last error, else synthetic SERVFAIL; one tracker entry per exchange, no window cut, and the rotation counter moved once |
| Proxy.Server.Route | internal/proxy/proxy.go:124-136 | a plan in the order the strategy chooses and the random numbers lead to, a budget of the configured attempts, the plan's length, or one in a known outage with fallback, and the counter moved as the strategy says |
| Proxy.Server.Forward | internal/proxy/proxy.go:114-235 | for every world the outcome and the reply are those of the reference on an exact-cover plan in the strategy's order; the first contact is the first path up of the strategy's first choice; as many paths are tried as the configured limits allow, unless one answers or the client gives up; exactly the outcome's contacts are made; health logs, tracker, both rotation counters and records move exactly as the outcome says; the books of four components balance |
| Proxy.Server.Resolve | internal/proxy/proxy.go:90-112 | short or reflected messages get nothing and leave counters, logs, tracker, records, draws and contacts as they were; any other query gets the reference's reply with all the effects of forwarding, well shaped, or none exactly when nobody answered and the question is unreadable |
| Proxy.PublicTurnsOn | internal/fallback/fallback.go:114 | a query without a good answer turns the public servers on by one for the next |
| Proxy.PoolTurnsOn | internal/pool/pool.go:366-373 | under rotation every query turns the healthy upstreams on by one for the next |
| Proxy.Server.Probe | internal/health/health.go:90-94 | a probe enters its path's log, nothing else moves, and the books are kept |
| Proxy.Server.SweepDone | cmd/hole-balancer/main.go:125 | the tracker is told whether any Pi-hole can answer; the books are kept |
| Proxy.TotalsBalance | internal/stats/stats.go:101-145 | total = answers per Pi-hole + fallback + failed, and fallback = answers the tracker counted over all windows |
| Proxy.AttemptsBalance | internal/proxy/proxy.go:143-157 | queries counted by the paths = retries + queries with at least one attempt |
| Proxy.AnswersBalance | internal/proxy/proxy.go:154-195 | per Pi-hole, queries minus failures of its paths = answers filed under its name |
| Interleaving.EveryInterleavingBalances | internal/proxy/proxy.go:114-235 | when queries overlap in any way, the books balance at every moment up to the queries in flight |
| Interleaving.QuietBooksBalance | internal/proxy/proxy.go:114-235 | once no query is in flight the four identities are exact |
| Interleaving.InterleavingExact | internal/proxy/proxy.go:114-235 | an interleaving is possible if and only if each query's own actions are, and every query is where those alone would have taken it |
| Interleaving.BooksAddUp | internal/proxy/proxy.go:114-235 | after any interleaving every counter is the sum of what each query alone would have left |
| Interleaving.ForwardedQueryPossible | internal/proxy/proxy.go:114-235 | the actions of a forwarded query are possible wherever it begins and file it under exactly one of answered, fallback and failed |
| Interleaving.OutcomeIsTrip | internal/proxy/proxy.go:114-235 | the outcome of the forwarding reference, its paths named after the Pi-holes that own them, is such a query, with the record that was filed and the answering Pi-hole named last |
| Interleaving.MergePossible | internal/proxy/proxy.go:114-235 | any merge of the actions of any number of queries is possible and ends with none in flight |
| Interleaving.OverlapEqualsSerial | internal/stats/stats.go:100-145 | however overlapping queries are merged, in the end every counter is that of the serial log of their records, per Pi-hole too |
| Interleaving.ForwardedQueriesOverlap | internal/proxy/proxy.go:114-235 | the same for queries forwarded over one pool, each in its own world |
| Interleaving.EveryMomentBalances | internal/proxy/proxy.go:114-235 | at every moment of such a merge the books balance up to the queries in flight |
| Control.Manager.AddUpstream | internal/control/control.go:101-128 | succeeds exactly when writable, preparable, unclashing and saved; otherwise configuration and pool are as before, and the restoring removal cannot fail |
| Control.Manager.RemoveUpstream | internal/control/control.go:130-172 | succeeds exactly when writable, known, not the last and saved; a failed save puts it back last in both places, as a new object that is down, undrained and unreported, and the restoring addition cannot fail; statistics are forgotten only on success |
| Control.Manager.SetDrained | internal/control/control.go:174-189 | succeeds exactly when writable and known, and then sets the flag of the one upstream of that name and no other |
| Control.Manager.SetStrategy | internal/control/control.go:191-211 | changes both strategies or neither |
| Control.Manager.SetFallback | internal/control/control.go:213-250 | changes configuration and live resolvers together or not at all |
| Config.NormaliseServers | internal/config/config.go:482-493 | the cleaned list without duplicates, or the first fault; the management interface runs the same loop |
| Config.CleanServersExact | internal/config/config.go:482-493 | a resolver list is accepted if and only if every address normalises and no two are alike, and is then those addresses |
| Control.FallbackFollowsConfig | internal/control/control.go:213-250 | no public server is ever next while the configuration has fallback off; while it is on, those configured are, each once |
| Control.PutBackKeeps | internal/control/control.go:157-163 | a rolled-back removal keeps the multiset of upstreams, and their order if and only if the last one was removed |
| Control.Run | internal/control/control.go:101-250 | any run of changes with any fate of their saves has exactly the effect of the changes applied in turn, on the configuration and on the drained names, and keeps configuration, pool and resolver in agreement; read-only mode changes nothing |
| Control.RunAccounts | internal/control/control.go:101-172 | over a run, upstreams present and gained are those still present and gone, as multisets |
| Control.FailedSavesKeepAll | internal/control/control.go:101-250 | if no save succeeds, a run changes nothing in the configuration but the order of its upstreams |
| Control.AppliedKeepsSound | internal/control/control.go:101-250 | every change keeps the configuration valid |
| Control.Start | internal/config/config.go:415-545 | exactly the files with a known strategy, thresholds of at least 1, usable resolvers when enabled and an acceptable upstream list start the balancer; pool, resolver and configuration then agree on the file's settings, addresses normalised, permissions, retry codes and zone are those given, and nothing has been reported yet |
| Balancer.Launch | cmd/hole-balancer/main.go:60-115 | a balancer started from a usable file has its books open and balanced |
| Balancer.Operate | cmd/hole-balancer/main.go:78-130 | any sequence of queries, probes, first verdicts, sweeps, summaries and changes that take nothing out, in any order: each moves the state exactly as its operation says, everything stays in agreement and the books balance; it ends early only before a query whose rotation may index below zero |

## Left out

- Sockets, deadlines, watcher goroutines, listeners and the in-flight limit: I/O; only the outcome of an exchange is modelled.
- YAML, file writing, backups and permissions: a save is a success or a failure.
- Address normalisation: an arbitrary function of the text; the validity of host and port is not modelled.
- Validation of listen addresses, timeouts, attempt limits, log levels, probe settings and fallback intervals: easy range checks.
- Pool.Pool.Plan: one snapshot of the health and drain flags, although the code re-reads them; and only when the rotation does not start below zero, where the code panics with an index out of range (RotationInRange says exactly when).
- Pool.Pool.Order: only when the rotation does not start below zero, where the code panics.
- Fallback.Resolver.Resolve: only when the rotation does not start below zero, where the code panics.
- Health.StoredVerdictsAreBacked: storing a flag and announcing it are one step, and reports are those that bear on health.
- Health.LatencyBetweenSamples: exact integer arithmetic instead of rounded floating point, and no negative initial round trip.
- Stats.HistoryExact: a fixed zone offset; changes of offset during the day are not modelled.
- Proxy.Server.Forward: one query at a time; overlapping queries are the subject of module Interleaving, which groups path counters by Pi-hole. A panic of a rotation is excluded as for the plan.
- Balancer.Operate: leaves out removal of an upstream and the reset of statistics, after which path counters and statistics count different periods; and it stops before any query for which one of the two rotations would start below zero, although the code panics only on reaching it.
- Proxy.Server.SweepDone: the tracker is told at the end of a sweep; that it is told on each transition of a path as well is not modelled.
- A missing resolver or collector: a resolver without servers behaves like a missing one, and a collector is always present.
- Last-change times, error texts, latency sums and last-seen stamps: shown, never decided upon.
- Shares, rates and sorted label lists of the statistics snapshot: floating-point rendering.
- Metrics, the admin server, the web interface, the prober's own judgement of replies and process wiring: counters, rendering and HTTP.
- The 255-octet limit of RFC 1035 section 2.3.4 for parsed names: the reader counts labels without the root octet.
