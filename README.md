# StreamSurfer core, modelled in Dafny

StreamSurfer watches media streams (HLS, HDS, Widevine) and plain HTTP
resources. The configuration lists groups of streams. A *stream box* per
stream issues a check task every few seconds and classifies the prober's
answer with an error code (`ErrType`). A *heartbeat* probes sample URLs and
switches monitoring on or off for every box. The *statistics keeper* owns the
per-stream counters and the persisted history of results and errors. The
*problem analyzer* walks each HLS stream's history and groups failing checks
into error ranges, reporting the long ones. A small web interface lists
streams with their recent problem counts, shows a stream's error buckets, and
shows its check history.

This project models those parts:

| file | module | what it holds |
|---|---|---|
| `wrappers.dfy` | `Wrappers` | `Option` |
| `structures.dfy` | `Structures` | error, severity, stream-type and command constants; `Key` and its hex rendering; the records that flow between the parts |
| `helpers.dfy` | `Helpers` | trimming, case mapping and decimal conversion as Go's library does them; `String2StreamErr`, `StreamType2String`, `UserAgent` |
| `logging.dfy` | `Logging` | error-code texts, the composition of a log line, the log queue |
| `groupconfig.dfy` | `GroupConfig` | `ConfigGroup` and the `Config` object with its `Params` lookup |
| `config.dfy` | `ConfigParsing` | `splitName`, `String2StreamType`, local and remote stream lists, the options and groups sections |
| `sourceloader.dfy` | `SourceLoader` | the older loader's `splitName` and `addLocalConfig` |
| `stats.dfy` | `StatsKeeping` | the statistics keeper as a class, one method per channel case |
| `monitor.dfy` | `Monitor` | probe classification (`ExecHTTP`, `TaskExpired`), the stream box as a state machine, the heartbeat round |
| `analyzer.dfy` | `Analyzer` | the HLS error-range walk as a loop, with a pure specification of it; the checkpoint bookkeeping |
| `apihelpers.dfy` | `ApiHelpers` | `href`, `span`, `bytewe`, `KeyFromHex` |
| `webreport.dfy` | `WebReport` | the counting, labelling and row-building rules of the three activity pages |

Time is an integer number of nanoseconds. Random draws are parameters
constrained to the range of `rand.Intn`. The network, the clock and the
store's failures are inputs. SHA-256 is an uninterpreted `hash` function, and
a user-supplied regular expression is an uninterpreted `capture` function.

The code and the prose description of the system disagree in a few places.
The model follows the code:
- After a heartbeat round, the state is the outcome of the LAST sample URL, not "off if any sample failed".
- The extra back-off sleep is taken only for an error type strictly above CRITICAL_LEVEL. The back-off switch also lists TTLEXPIRED (internal/pkg/monitor/monitor.go:235), but that case is never reached: an expired reply leaves the iteration earlier, at monitor.go:215-216.
- A probe is CTIMEOUT only when the elapsed time is strictly greater than the connect timeout.
- `LoadHistoryErrors` reports "result not found" only when the store fails. An empty error map still travels as a non-nil interface value, so it is a valid reply.
- `analyzeHLS` never advances the caller's checkpoint, because it only rebinds its local pointer. A stream's checkpoint therefore stays at its seed, and every pass walks the history again from that seed.

## Model

| member | source | states |
|---|---|---|
| Structures.ErrTypesIncrease | internal/pkg/structures/other.go:38-59 | the twenty error codes strictly increase in declaration order, from SUCCESS to UNKERR |
| Structures.SeverityBands | internal/pkg/structures/other.go:39-58 | every named code lies in its band between the DEBUG, WARNING, ERROR and CRITICAL thresholds, with UNKERR on top |
| Structures.SeveritiesOrdered | internal/pkg/structures/other.go:28-33 | INFO < WARNING < ERROR < CRITICAL |
| Structures.StreamTypesDense | internal/pkg/structures/other.go:19-26 | the stream types are UNKSTREAM = 0 to WV = 5, without gaps |
| Structures.CommandsDistinct | internal/pkg/structures/other.go:62-64 | STOP_MON = 0 and START_MON = 1 are distinct |
| Structures.KeyString | internal/pkg/structures/other.go:176-178 | a key renders as exactly 64 characters |
| Structures.KeyStringIsLowerHex | internal/pkg/structures/other.go:176-178 | every character of a key's rendering is a lower-case hex digit |
| Structures.HexBytesAlphabet | internal/pkg/structures/other.go:176-178 | `%x` of any byte string uses only lower-case hex digits |
| Helpers.TrimSpace | internal/pkg/config/config.go:204 | trimming leaves no white space at either end and never lengthens |
| Helpers.TrimSpaceIsFactor | internal/pkg/config/config.go:204 | what trimming keeps is a contiguous part of the input |
| Helpers.TrimSpaceUnchanged | internal/pkg/config/config.go:204 | a string without white space at either end is its own trimming |
| Helpers.TrimLeftSuffix | internal/pkg/config/config.go:204 | left trimming drops only white space and keeps a suffix |
| Helpers.TrimRightPrefix | internal/pkg/config/config.go:204 | right trimming drops only white space and keeps a prefix |
| Helpers.Index | internal/pkg/config/config.go:208 | the result is the first occurrence at or after the start, and None means there is none |
| Helpers.SplitFirst | internal/pkg/config/config.go:208 | SplitN(s, sep, 2) gives two parts exactly when the separator occurs |
| Helpers.SplitFirstJoin | internal/pkg/config/config.go:208 | the two parts joined by the separator give back the input, cut at the first occurrence; one part is the input itself |
| Helpers.SplitFirstHead | source-loader.go:93 | the text before the first space is a prefix holding no space |
| Helpers.Lower | internal/pkg/helpers/helpers.go:67 | lower-casing maps each character on its own, keeping the length |
| Helpers.LowerIdempotent | internal/pkg/helpers/helpers.go:67 | lower-casing twice is lower-casing once |
| Helpers.LowerOfUpper | internal/pkg/config/config.go:119 | upper-casing first does not change the lower-cased text |
| Helpers.ParseInt | internal/pkg/http_api/webui-report.go:182 | a parsed value always fits in 64 bits |
| Helpers.ParseIntOfIntToString | internal/pkg/http_api/webui-report.go:182 | decimal parsing undoes decimal formatting for every 64-bit integer |
| Helpers.String2StreamErr | internal/pkg/helpers/helpers.go:66-109 | the result is a declared code, UNKERR at most |
| Helpers.String2StreamErrIgnoresCase | internal/pkg/helpers/helpers.go:67 | upper- or lower-casing the input does not change the code |
| Helpers.ThresholdNames | internal/pkg/helpers/helpers.go:70-103 | "debug", "warning", "error" and "critical" give the four thresholds |
| Helpers.ErrNameRoundTrip | internal/pkg/helpers/helpers.go:68-105 | every code below UNKERR is produced by its own name |
| Helpers.ErrNameUnique | internal/pkg/helpers/helpers.go:68-108 | any input giving a code other than UNKERR is that code's name up to case, so every other string gives UNKERR |
| Helpers.StreamType2String | internal/pkg/helpers/helpers.go:111-125 | "unknown" exactly for a type outside SAMPLE..WV |
| Helpers.UserAgent | internal/pkg/helpers/helpers.go:58-64 | as written: the default agent with none configured, a panic with one, otherwise an agent other than the last |
| Helpers.UserAgentSkipsLast | internal/pkg/helpers/helpers.go:60 | as written, the last configured agent is never returned |
| Helpers.UserAgentTwoAgentsExample | internal/pkg/helpers/helpers.go:60 | with agents ["a", "b"] every admissible draw returns "a" |
| Helpers.UserAgentIntended | internal/pkg/helpers/helpers.go:58-64 | the default agent with none configured, otherwise one of the configured agents |
| Helpers.UserAgentIntendedReachesAll | internal/pkg/helpers/helpers.go:60 | every configured agent, the last one included, is returned for some draw |
| Logging.StreamErr2String | internal/pkg/logging/logging.go:86-120 | every code has a non-empty text, and only SUCCESS reads "success" |
| Logging.UnnamedErrTypes | internal/pkg/logging/logging.go:86-120 | the thresholds and UNKERR read "unknown"; SUCCESS reads "success" and TTLEXPIRED "TTL expired" |
| Logging.NamedErrTypesHaveText | internal/pkg/logging/logging.go:86-120 | a code has a text other than "unknown" exactly when it is a named code |
| Logging.StreamErr2StringInjective | internal/pkg/logging/logging.go:87-117 | distinct named codes have distinct texts |
| Logging.SeverityWord | internal/pkg/logging/logging.go:53-58 | a severity contributes a word exactly when it is WARNING or ERROR |
| Logging.LogLine | internal/pkg/logging/logging.go:51-71 | a line starts with the time, a space, the severity word and ": ", and ends with group, ": ", name and a newline |
| Logging.LogLineShowsSeverity | internal/pkg/logging/logging.go:51-59 | the severity is read back from the line: "warning", "error" or nothing after the time stamp |
| Logging.LogLineFields | internal/pkg/logging/logging.go:60-67 | between the head and the stream, the error text, the HTTP code, the content length and the elapsed time follow one another, each followed by one space, and nothing else |
| Logging.LogLineShowsErrType | internal/pkg/logging/logging.go:60-61 | two lines that differ only in a named error type differ, so the type is read back from the line |
| Logging.LogQueue.Log | internal/pkg/logging/logging.go:81-83 | exactly one message, with the given severity, stream and result, is appended to the queue |
| GroupConfig.Config.constructor | internal/pkg/config/config.go:98-99 | a new configuration holds no groups and no streams |
| GroupConfig.Config.Params | internal/pkg/structures/config.go:35-41 | a copy of the group stored under the hash of its name, or the zero group for an unknown name, reading nothing else |
| ConfigParsing.String2StreamType | internal/pkg/config/config.go:182-197 | the result is a declared stream type |
| ConfigParsing.String2StreamTypeIgnoresCase | internal/pkg/config/config.go:183 | case does not matter |
| ConfigParsing.StreamTypeRoundTrip | internal/pkg/config/config.go:182-197 | naming a declared stream type and parsing the name gives the type back |
| ConfigParsing.StreamTypeNameRoundTrip | internal/pkg/helpers/helpers.go:111-125 | a recognised name is the lower-cased name of the type it gives |
| ConfigParsing.FindScheme | internal/pkg/config/config.go:205 | the leftmost match of htt(p\|ps)://, or None when the line has none |
| ConfigParsing.UriTitle | internal/pkg/config/config.go:206-217 | a line without a scheme gives neither URI nor title, and the title never starts or ends in white space |
| ConfigParsing.SplitName | internal/pkg/config/config.go:203-233 | without a pattern the name is the title, and an empty title means an empty URI |
| ConfigParsing.UriFirst | internal/pkg/config/config.go:208-213 | with the scheme at the start, the URI is the trimmed first space-delimited token and the title the trimmed rest |
| ConfigParsing.TitleFirst | internal/pkg/config/config.go:214-217 | with the scheme later, the URI is the line from the scheme on and the title the trimmed text before it |
| ConfigParsing.SplitNameUriAndTitle | internal/pkg/config/config.go:205-221 | with a scheme the URI carries it and the title is never empty; without one both are empty |
| ConfigParsing.SplitNameName | internal/pkg/config/config.go:222-232 | the name is the first captured group when a pattern is given and captures, otherwise the title |
| ConfigParsing.StreamOf | internal/pkg/config/config.go:144-146 | a line's stream is keyed by the hash of its URI, with the group's type and the group name |
| ConfigParsing.LocalStreams | internal/pkg/config/config.go:142-148 | every old key stays, and every new entry carries its own key, the group and the group's stream type |
| ConfigParsing.LocalStreamsLastWins | internal/pkg/config/config.go:143-146 | the last line with a given key is the stream stored under it |
| ConfigParsing.LocalStreamsKeepsOthers | internal/pkg/config/config.go:142-148 | keys no line produces keep their old entries |
| ConfigParsing.LocalStreamsOrigin | internal/pkg/config/config.go:142-148 | every new entry is the stream of one of the lines |
| ConfigParsing.AddLocalConfig | internal/pkg/config/config.go:142-148 | the loop leaves the map the specification of the whole list describes |
| ConfigParsing.CompleteLines | internal/pkg/config/config.go:168-177 | there are at most as many lines as characters |
| ConfigParsing.CompleteLinesTerminated | internal/pkg/config/config.go:170-173 | every line read ends in its newline and holds no other |
| ConfigParsing.CompleteLinesCover | internal/pkg/config/config.go:169-177 | the lines read are the body up to its last newline, and what follows holds no newline |
| ConfigParsing.AddRemoteConfig | internal/pkg/config/config.go:150-180 | a failed request adds nothing and reports failure; otherwise every complete line of the body is added as a local line |
| ConfigParsing.GroupOf | internal/pkg/config/config.go:103-122 | the type by its name, the HTTP method upper-cased, every other field copied |
| ConfigParsing.ParsedParams | internal/pkg/config/config.go:101-105 | every group is stored under the hash of its name |
| ConfigParsing.ParsedKeysAgree | internal/pkg/config/config.go:101-130 | every group with parameters has a stream map, and no other key has one |
| ConfigParsing.ParsedGroupFound | internal/pkg/config/config.go:101-130 | a group whose name hash no later group shares is found under it, with its parameters and its streams |
| ConfigParsing.ParseOptions | internal/pkg/config/config.go:85-94 | the options are copied and the retention period is turned from hours into a duration; the groups are untouched |
| ConfigParsing.AddGroupStreams | internal/pkg/config/config.go:124-130 | a group with a URI gets the remote list, any other group its local list |
| ConfigParsing.ParseGroups | internal/pkg/config/config.go:97-140 | the group parameters and stream maps are those of the groups in order; samples, user agents, listen address, expiry, user and password are untouched |
| ConfigParsing.ParamsAfterParse | internal/pkg/structures/config.go:35-37 | after parsing, Params finds every configured group by its name |
| SourceLoader.LegacySplitName | source-loader.go:92-101 | a URI that is split off never holds a space |
| SourceLoader.LegacyUriIsFirstToken | source-loader.go:92-94 | the URI is the leading token of the trimmed line and holds no space |
| SourceLoader.LegacyNamedLine | source-loader.go:95-96 | with text after the URI, the name is that text, trimmed |
| SourceLoader.LegacyUnnamedLine | source-loader.go:97-98 | without it, the name is the URI after its first "://" |
| SourceLoader.LegacyPanicExample | source-loader.go:97-98 | a line without "://" and without a name makes splitName fail |
| SourceLoader.LegacyStreams | source-loader.go:104-109 | one stream per line when no line fails |
| SourceLoader.LegacyStreamsPanic | source-loader.go:104-109 | a failing line makes the whole list fail |
| SourceLoader.LegacyStreamsDefined | source-loader.go:104-109 | when no line fails, the list is produced |
| SourceLoader.LegacyStreamsFields | source-loader.go:105-108 | each stream carries its own line's URI and name, the given type and the group name |
| SourceLoader.AddLocalConfig | source-loader.go:104-109 | the loop appends the streams of the lines, in order, after the existing ones |
| StatsKeeping.StatsFor | internal/pkg/stats/stats.go:73-78 | the saved statistics of a key, or zeros if none were saved |
| StatsKeeping.SaveThenLoadStats | internal/pkg/stats/stats.go:70-78 | a save is seen by the next load of the same key and by no other key |
| StatsKeeping.Window | internal/pkg/stats/stats.go:88-90 | the window holds only stored entries started within its bounds |
| StatsKeeping.WindowComplete | internal/pkg/stats/stats.go:88-90 | every stored entry within the bounds is in the window |
| StatsKeeping.WindowAfterKeep | internal/pkg/stats/stats.go:80-90 | keeping a result that lies in the window makes it the window's last entry |
| StatsKeeping.ErrorWindow | internal/pkg/stats/stats.go:96-98 | exactly the errors timed within the bounds, with their types |
| StatsKeeping.Unexpired | internal/pkg/stats/stats.go:106-111 | expiry never adds entries |
| StatsKeeping.UnexpiredMembers | internal/pkg/stats/stats.go:106-111 | an entry survives expiry exactly when it was stored and is not older than the cutoff |
| StatsKeeping.UnexpiredErrors | internal/pkg/stats/stats.go:106-111 | expiry only removes errors older than the cutoff and changes none of the others |
| StatsKeeping.UnexpiredErrorsMembers | internal/pkg/stats/stats.go:106-111 | an error survives expiry, unchanged, exactly when it is timed at or after the cutoff |
| StatsKeeping.ExpireResults | internal/pkg/stats/stats.go:106-111 | every stream keeps its place and keeps its unexpired results |
| StatsKeeping.ExpireErrors | internal/pkg/stats/stats.go:106-111 | every stream keeps its place and keeps its unexpired errors |
| StatsKeeping.StatKeeper.constructor | internal/pkg/stats/stats.go:53-68 | the keeper starts with no statistics and an empty store |
| StatsKeeping.StatKeeper.SaveStats | internal/pkg/stats/stats.go:70-71 | the stream's statistics are overwritten and nothing else changes |
| StatsKeeping.StatKeeper.LoadStats | internal/pkg/stats/stats.go:73-78 | the saved statistics, or zeros for a key never saved |
| StatsKeeping.StatKeeper.SaveResult | internal/pkg/stats/stats.go:80-85 | the result is appended to the stream's history, and recorded as an error under its start time exactly when its type is above WARNING_LEVEL |
| StatsKeeping.StatKeeper.LoadHistoryResults | internal/pkg/stats/stats.go:88-94 | the results of the last six hours, or "not found" on a store failure or an empty window |
| StatsKeeping.StatKeeper.LoadLastResult | internal/pkg/stats/stats.go:135-144 | the newest entry of the six-hour window, or an empty record and "not found" |
| StatsKeeping.StatKeeper.LoadHistoryErrors | internal/pkg/stats/stats.go:96-104 | the errors of [now - from, now], or "not found" exactly on a store failure |
| StatsKeeping.StatKeeper.CleanUp | internal/pkg/stats/stats.go:106-111 | cleanup runs exactly when more than thirty seconds have passed; it then expires both stores and restarts the period, and otherwise changes nothing |
| StatsKeeping.LastResultIsNewest | internal/pkg/stats/stats.go:80-94 | a result saved within the last six hours is what the next LoadLastResult returns |
| StatsKeeping.ErrorVisible | internal/pkg/stats/stats.go:80-104 | an error-level result saved within the queried period shows up in the error history with its type |
| Monitor.GoDiv | internal/pkg/monitor/monitor.go:205-207 | integer division truncates toward zero, as Go's does |
| Monitor.Jitter | internal/pkg/monitor/monitor.go:205-207 | the sleep lies in [T/4*3, T); the draw panics exactly for a non-positive T |
| Monitor.BackOff | internal/pkg/monitor/monitor.go:230-242 | above CRITICAL_LEVEL or on TTLEXPIRED, a jittered CheckBrokenTime in [C/4*3, C) seconds; otherwise zero |
| Monitor.TaskExpired | internal/pkg/monitor/monitor.go:301-306 | TTLEXPIRED, content length -1, elapsed 0, no status |
| Monitor.ProbeErrType | internal/pkg/monitor/monitor.go:309-367 | BADURI exactly for a malformed URI or a request that cannot be built; CTIMEOUT only after a client failure past the connect timeout; body errors only when the body is read |
| Monitor.ProbeErrTypes | internal/pkg/monitor/monitor.go:309-367 | a probe yields only SUCCESS, BADURI, CTIMEOUT, REFUSED, BADLENGTH, BODYREAD or BADSTATUS |
| Monitor.ProbeSuccess | internal/pkg/monitor/monitor.go:309-367 | a probe succeeds exactly when the URI is good, the request is sent and answered with a 2xx/3xx status, and the body is read without error and at its declared length |
| Monitor.HeadOnlyProbe | internal/pkg/monitor/monitor.go:349-365 | without a body read, an answered probe fails only on its status |
| Monitor.ExecHTTP | internal/pkg/monitor/monitor.go:309-367 | the error type follows the priority of the assignments; BADURI, CTIMEOUT and REFUSED have code 0, no status and length -1; no request is sent for a bad URI; a sent request carries a configured agent |
| Monitor.LogDecisionErrors | internal/pkg/monitor/monitor.go:244-247 | a result is logged as ERROR exactly when its type is at least WARNING_LEVEL, and then unchanged |
| Monitor.LogDecisionSlow | internal/pkg/monitor/monitor.go:248-255 | below WARNING_LEVEL, a slow answer is logged as WARNING with its type changed to VERYSLOW (which wins) or SLOW, and nothing else changed |
| Monitor.LogDecision | internal/pkg/monitor/monitor.go:244-256 | nothing is logged exactly for a quick result below WARNING_LEVEL; a logged message names the stream and keeps the elapsed time |
| Monitor.ReadsBody | internal/pkg/monitor/monitor.go:173-184 | the body is read exactly for HLS and HDS streams |
| Monitor.SavedResults | internal/pkg/monitor/monitor.go:224-228 | the sub-results are saved first, marked as having a parent, then the result itself, whose sub-results are those marked copies |
| Monitor.StreamBox.constructor | internal/pkg/monitor/monitor.go:157-172 | a box starts offline, with task ids counting from the start time |
| Monitor.StreamBox.Control | internal/pkg/monitor/monitor.go:190-197 | START_MON switches monitoring on, STOP_MON switches it off, and any other command changes nothing |
| Monitor.StreamBox.Tick | internal/pkg/monitor/monitor.go:198-199 | the statistics handed to SaveStats count every issued task |
| Monitor.StreamBox.Iterate | internal/pkg/monitor/monitor.go:200-257 | only the check counter of the statistics moves, to the number of issued tasks; offline, only a one-second sleep; online, one task with the next tid and TTL now + TaskTTL; an expired reply is neither counted, saved, backed off nor logged; any other reply is counted, saved as received, sets the back-off and is logged by the log rule; any non-expired reply at or below CRITICAL_LEVEL clears the extra sleep, so the TTLEXPIRED case of the back-off is never reached |
| Monitor.StreamBox.TidsIncrease | internal/pkg/monitor/monitor.go:208-209 | issued task ids strictly increase, by one each time |
| Monitor.Transition | internal/pkg/monitor/monitor.go:286-294 | START_MON exactly on a false-to-true change, STOP_MON exactly on true-to-false, nothing otherwise |
| Monitor.StateAfter | internal/pkg/monitor/monitor.go:271-285 | the state changes only when samples were probed; all reached turns it on, none reached turns it off |
| Monitor.Heartbeat.constructor | internal/pkg/monitor/monitor.go:264 | monitoring starts off |
| Monitor.Heartbeat.Round | internal/pkg/monitor/monitor.go:271-295 | after a round the state is the outcome of the last sample, the command follows the change, and the previous state is updated |
| Monitor.LastSampleWins | internal/pkg/monitor/monitor.go:271-285 | a failing last sample stops monitoring even after a reached one, and vice versa |
| Analyzer.AnalyzeHLS | internal/pkg/analyzer/analyzer.go:64-128 | the loop's reports are one per permanent range of the specified walk over the history since the checkpoint |
| Analyzer.RangeReports | internal/pkg/analyzer/analyzer.go:121-126 | one report per range longer than ten minutes, in order |
| Analyzer.NextTask | internal/pkg/analyzer/analyzer.go:80-93 | the cursor remembers the task just seen; emitted ranges are never withdrawn, and a task change emits at most the saved range of an OK task |
| Analyzer.Record | internal/pkg/analyzer/analyzer.go:95-111 | a failing check leaves a range open, marks the task failed, raises the level to at least its type and saves the open range |
| Analyzer.Step | internal/pkg/analyzer/analyzer.go:75-111 | one entry emits at most one range, and a failing entry since the checkpoint leaves a range open above ERROR_LEVEL |
| Analyzer.Walk | internal/pkg/analyzer/analyzer.go:75-112 | the walk emits at most one range per entry |
| Analyzer.Finish | internal/pkg/analyzer/analyzer.go:115-117 | the emitted ranges stay first; one more, at the running error level, is added exactly when a range is open with a positive level |
| Analyzer.ErrorRanges | internal/pkg/analyzer/analyzer.go:75-117 | the ranges emitted during the walk come first, with at most one more than there are entries |
| Analyzer.Permanent | internal/pkg/analyzer/analyzer.go:123 | a permanent range ends after it begins |
| Analyzer.PermanentReports | internal/pkg/analyzer/analyzer.go:121-126 | never more reports than ranges |
| Analyzer.OldEntryIgnored | internal/pkg/analyzer/analyzer.go:76-78 | entries older than the checkpoint leave the walk unchanged |
| Analyzer.WalkOfKept | internal/pkg/analyzer/analyzer.go:76-78 | dropping the entries older than the checkpoint beforehand changes nothing |
| Analyzer.Kept | internal/pkg/analyzer/analyzer.go:76-78 | the entries walked are stored entries not older than the checkpoint |
| Analyzer.TaskBoundary | internal/pkg/analyzer/analyzer.go:80-93 | at a task change after an OK task, the open range is emitted and closed |
| Analyzer.OpeningRange | internal/pkg/analyzer/analyzer.go:100-105 | opening a range sets both task ends to the check's task and both time ends to its start |
| Analyzer.ExtendingRange | internal/pkg/analyzer/analyzer.go:106-110 | a later failing check moves the range's end to its task and to its start plus elapsed |
| Analyzer.NoFailureNoRanges | internal/pkg/analyzer/analyzer.go:95-96 | without a check above ERROR_LEVEL since the checkpoint, no range is reported |
| Analyzer.FailureGivesRange | internal/pkg/analyzer/analyzer.go:95-111 | a failing check since the checkpoint always gives a range |
| Analyzer.RangesFailingAndMonotone | internal/pkg/analyzer/analyzer.go:97-99 | every range failed, and the error levels never decrease in output order |
| Analyzer.OpenRangeEmittedLast | internal/pkg/analyzer/analyzer.go:114-117 | a range still open at the end is the last one emitted |
| Analyzer.OpenRangeIsSaved | internal/pkg/analyzer/analyzer.go:110 | the copy saved for emission is exactly the open range |
| Analyzer.WalkInv | internal/pkg/analyzer/analyzer.go:80-111 | the walk keeps the open range and its saved copy in agreement, and every emitted range failed |
| Analyzer.RangesSeparated | internal/pkg/analyzer/analyzer.go:80-111 | for a history in task order the ranges are well formed, disjoint and follow one another |
| Analyzer.PermanentReportsCount | internal/pkg/analyzer/analyzer.go:121-126 | the number of reports is the number of ranges lasting over ten minutes, each the sample report |
| Analyzer.PermanentBoundary | internal/pkg/analyzer/analyzer.go:122 | a range of exactly ten minutes is not reported; one nanosecond more is |
| Analyzer.FiveFailingTasksThenSuccess | internal/pkg/analyzer/analyzer.go:80-126 | five failing tasks three minutes apart and then a success give one range and one report |
| Analyzer.FailureThenSuccessInOneTask | internal/pkg/analyzer/analyzer.go:95-117 | a failure and a success in the same task leave a zero-length range open, emitted at the end and not reported |
| Analyzer.GeneratePermanentErrorsReport | internal/pkg/analyzer/analyzer.go:143-145 | the report is the fixed "Sample report", whatever the arguments |
| Analyzer.AnalyzeHDS | internal/pkg/analyzer/analyzer.go:130-132 | the HDS analysis reports nothing |
| Analyzer.AnalyzeHTTP | internal/pkg/analyzer/analyzer.go:134-136 | the HTTP analysis reports nothing |
| Analyzer.LoadReports | internal/pkg/analyzer/analyzer.go:52-54 | loading reports gives none |
| Analyzer.Seed | internal/pkg/analyzer/analyzer.go:18-21 | a new stream's checkpoint is task 0, two hours ago, with no open range |
| Analyzer.CheckPointFor | internal/pkg/analyzer/analyzer.go:18-22 | the stored checkpoint, or the seed for a stream seen for the first time |
| Analyzer.ReportsFor | internal/pkg/analyzer/analyzer.go:27-34 | HLS gives at most one report per range, HDS and HTTP none, and any other type keeps the previous reports |
| Analyzer.ProblemAnalyzer.constructor | internal/pkg/analyzer/analyzer.go:11-12 | no checkpoints and no reports |
| Analyzer.ProblemAnalyzer.AnalyzeStream | internal/pkg/analyzer/analyzer.go:18-35 | the stream's checkpoint is seeded if new and otherwise kept; the reports are those of the stream's type, or unchanged when the history is not found |
| Analyzer.ProblemAnalyzer.Cycle | internal/pkg/analyzer/analyzer.go:16-40 | after a pass, every visited stream has a checkpoint, old ones are kept and new ones are the seed |
| ApiHelpers.Href | internal/pkg/http_api/helpers.go:9-18 | every anchor opens with "<a " and ends with the target and the text; any count of options other than one or two gives the plain anchor |
| ApiHelpers.HrefExtraOptionsIgnored | internal/pkg/http_api/helpers.go:9-18 | more than two options give the plain anchor |
| ApiHelpers.Span | internal/pkg/http_api/helpers.go:20-22 | the text is wrapped between the opening tag of the class and "</span>", with nothing added but the 22 characters of markup |
| ApiHelpers.SpanInjective | internal/pkg/http_api/helpers.go:20-22 | within one CSS class, the span shows which text it wraps |
| ApiHelpers.Bytewe | internal/pkg/http_api/helpers.go:24-26 | the bytes are returned whatever the error |
| ApiHelpers.DecodeHex | internal/pkg/http_api/helpers.go:29 | a decoded string has even length and gives half as many bytes |
| ApiHelpers.DecodePairsRejects | internal/pkg/http_api/helpers.go:29-32 | a character that is not a hex digit makes decoding fail |
| ApiHelpers.KeyFromHex | internal/pkg/http_api/helpers.go:28-36 | invalid hex gives the zero key and an error; valid hex panics exactly when the decoded slice's capacity (the string's length plus the allocation's spare bytes) is below 32; otherwise the key is the first 32 bytes of the shared array: the decoded bytes, then the string's own characters, then zeros |
| ApiHelpers.KeyFromHexRejects | internal/pkg/http_api/helpers.go:28-33 | any non-hex character gives the zero key and an error |
| ApiHelpers.KeyFromHexLong | internal/pkg/http_api/helpers.go:29-35 | at least 64 valid digits give exactly the first 32 decoded bytes, whatever the spare capacity |
| ApiHelpers.KeyFromShortHex | internal/pkg/http_api/helpers.go:29-35 | 32 zero digits give 16 zero bytes followed by 16 bytes of ASCII '0', not a panic or a zero-padded key |
| ApiHelpers.DecodeHexBytes | internal/pkg/http_api/helpers.go:29 | decoding undoes the `%x` rendering of any byte string |
| ApiHelpers.KeyFromHexOfKeyString | internal/pkg/http_api/helpers.go:28-36 | a key's rendering decodes back to the key |
| ApiHelpers.KeyFromHexOfUpperKeyString | internal/pkg/http_api/helpers.go:28-36 | the upper-cased rendering decodes to the same key |
| ApiHelpers.KeyStringInjective | internal/pkg/structures/other.go:176-178 | distinct keys have distinct renderings |
| WebReport.CountAbove | internal/pkg/http_api/webui-report.go:49-57 | the count is the number of loaded errors above the level, or zero when the window could not be loaded |
| WebReport.AboveMonotone | internal/pkg/http_api/webui-report.go:49-66 | a narrower window of the same record never counts more |
| WebReport.WindowCountsNest | internal/pkg/http_api/webui-report.go:49-84 | the 3-minute count is at most the 15-minute count, which is at most the 1-hour count |
| WebReport.RowSeverity | internal/pkg/http_api/webui-report.go:74-87 | the severity is "error", "warning" or empty |
| WebReport.RowSeverityMeaning | internal/pkg/http_api/webui-report.go:74-87 | empty exactly when the short count is zero; "error" exactly when a short-window error lies above ERROR_LEVEL |
| WebReport.ShortWindow | internal/pkg/http_api/webui-report.go:67-87 | the loop gives the row severity and the count of errors above WARNING_LEVEL |
| WebReport.AtMostOneGroupListed | internal/pkg/http_api/webui-report.go:41-44 | a filter lists at most one group |
| WebReport.Row | internal/pkg/http_api/webui-report.go:88-107 | the group cell is present exactly without a filter, the severity is empty exactly when the 3-minute window holds no problem, and the average time is "0" |
| WebReport.RowFitsHead | internal/pkg/http_api/webui-report.go:35-107 | every row has one cell more than the header, the severity, in both layouts |
| WebReport.StreamRow | internal/pkg/http_api/webui-report.go:46-107 | the row's severity and its three counts are those of the stream's windows |
| WebReport.StreamRows | internal/pkg/http_api/webui-report.go:46-108 | one row per stream |
| WebReport.IndexRows | internal/pkg/http_api/webui-report.go:41-109 | the list has one row per stream of every listed group |
| WebReport.ActivityIndex | internal/pkg/http_api/webui-report.go:26-112 | the title and header follow the filter, and the body is the rows of the listed groups in order |
| WebReport.GroupRows | internal/pkg/http_api/webui-report.go:46-108 | the inner loop gives one row per stream, in order |
| WebReport.BucketOf | internal/pkg/http_api/webui-report.go:150-159 | only named error codes fall in a bucket |
| WebReport.BucketedTypes | internal/pkg/http_api/webui-report.go:150-159 | only codes between WARNING_LEVEL and UNKERR are counted; the slow bucket is exactly the band below ERROR_LEVEL; every named error above ERROR_LEVEL is in another bucket |
| WebReport.InBucket | internal/pkg/http_api/webui-report.go:150-159 | a bucket holds only loaded errors |
| WebReport.InfoBuckets | internal/pkg/http_api/webui-report.go:143-161 | the four counters are the sizes of the four buckets, or zero when the errors could not be loaded |
| WebReport.BucketsBounded | internal/pkg/http_api/webui-report.go:149-160 | the four counts add up to at most the number of errors |
| WebReport.ActivityStreamInfo | internal/pkg/http_api/webui-report.go:114-163 | a key that is not hex, or whose decoded slice has capacity below 32, panics; an unknown group or stream writes nothing; otherwise the page shows the stream, its links, the last result's URL when found and the buckets of the day's errors |
| WebReport.InfoLinksDecode | internal/pkg/http_api/webui-report.go:137-138 | the page's links name keys that decode back to the group and the stream |
| WebReport.Label | internal/pkg/http_api/webui-report.go:227-236 | "info" exactly for SUCCESS, "warning" exactly up to WARNING_LEVEL, "error" exactly above it |
| WebReport.CheckTypeMeaning | internal/pkg/http_api/webui-report.go:237-244 | the cell reads "master" exactly for a master check and "media" otherwise |
| WebReport.RowOf | internal/pkg/http_api/webui-report.go:227-250 | a row is labelled "error" exactly for a result above WARNING_LEVEL, shows a non-empty result text and keeps the start time |
| WebReport.NewestFirst | internal/pkg/http_api/webui-report.go:222-251 | never more rows than results |
| WebReport.ErrorEntries | internal/pkg/http_api/webui-report.go:224 | errors mode keeps only stored results above WARNING_LEVEL |
| WebReport.NewestFirstAll | internal/pkg/http_api/webui-report.go:222-251 | in full mode there is one row per result, and row k shows the k-th newest result |
| WebReport.NewestFirstErrors | internal/pkg/http_api/webui-report.go:224-226 | errors mode is full mode over the error entries alone |
| WebReport.ErrorRowsLabelled | internal/pkg/http_api/webui-report.go:224-233 | every row of errors mode is labelled "error" |
| WebReport.HistoryRows | internal/pkg/http_api/webui-report.go:222-251 | the loop gives the rows, newest first, of the results the mode shows |
| WebReport.FirstStarted | internal/pkg/http_api/webui-report.go:181-186 | a found position holds a result started at the stamp |
| WebReport.FirstStartedFirst | internal/pkg/http_api/webui-report.go:181-186 | the first result started at the stamp is found |
| WebReport.FirstStartedAt | internal/pkg/http_api/webui-report.go:181-186 | the position found is the first match |
| WebReport.FirstStartedNone | internal/pkg/http_api/webui-report.go:181-186 | nothing is found only when no result matches |
| WebReport.FindStamp | internal/pkg/http_api/webui-report.go:180-207 | the loop selects the first result started at the parsed stamp, and none for an empty or unparsable stamp |
| WebReport.RawLinkTarget | internal/pkg/http_api/webui-report.go:186-250 | following a row's raw link selects the first result started at the same instant |
| WebReport.ActivityStreamHistory | internal/pkg/http_api/webui-report.go:165-254 | a key that is not hex writes nothing, and one whose decoded slice has capacity below 32 panics; a missing history gives the 404 message; a matched stamp dumps that result; otherwise the titled table of the rows the mode shows |

## Left out

- Goroutines, channels, `bcast` fan-out and the sleeps between loop passes: every handler and loop pass is modelled as one sequential step.
- Network I/O (`http.NewRequest`, `client.Do`, body reading, `NewTimeoutClient`, `TimeoutDialer`): each exchange is an input record, and a remote stream list is the response body given as an input.
- The `storage` package is not part of this model. The store is a map of per-stream result sequences and error maps inside the keeper, and a store failure is an input flag. A stored empty result list is taken to arrive as a nil slice, so `LoadLastResult`'s index panic on a non-nil empty list is not modelled.
- `time.Now`, `math/rand`, SHA-256 and regular expressions with a configured pattern: these are parameters, bounded draws, an uninterpreted `hash` and an uninterpreted `capture`.
- Go's map iteration order: the map ranges in `parseGroupsConfig`, `ActivityIndex` and the counting loops are given as sequences, or as a nondeterministic pick of the next key.
- Time formatting (`Format`, `Duration.String`): the log line and the history table take the formatted text as an input or keep the raw integer.
- Time values compare as instants: `time.Time` equality is nanosecond equality.
- The Go runtime's size classes: how many zeroed bytes the allocation of `[]byte(hexstr)` adds beyond the string's length is a `spare` parameter of `KeyFromHex` and of the two pages that call it.
- Helpers.Upper: upper-cases ASCII letters only. Go's `strings.ToUpper` also maps non-ASCII letters, which only reach the HTTP method name.
- Helpers.Lower: maps ASCII capitals, U+0130 and U+212A only. These are the runes whose lower case is ASCII, so keyword matching is exact. Other non-ASCII letters are left as they are.
- Go's 64-bit integers: durations, counters and content lengths are unbounded integers, and overflow is not modelled.
- HTML template execution, the raw dump's response headers and the `isactivity` flags of the pages.
- The `errorCache1Hour` cache of the stream list: its read branch needs `cacheTimers`, which is never set, so every row loads its own 3-minute window.
- `Stubs` and `Zabbix` options, expvar debug counters and `fmt.Print*` diagnostics.
- YAML and file reading (`rawConfig`, `ReadConfig`, `FullPath`), and the program's entry point.
- The older loader's `addRemoteConfig`: it only fetches a list and feeds each line to the same `splitName` and append as `addLocalConfig`.
- Text after the last newline of a remote list is dropped, as `ReadString` reports an error for it. The model reads only complete lines.
- The empty stubs `GroupBox`, `verifyHLS` and `ProblemReporter`.
- `ReportIndex` and `ReportStreamErrors`: page handlers outside the three activity pages.
- Monitor.ExecHTTP: uses the corrected agent choice (see Findings), so the panic with exactly one configured agent is not reproduced, and the model can pick the last configured agent, which the code as written never does.

## Findings

| source | as written | input that shows it | evidently intended | confidence | as-written member | corrected member |
|---|---|---|---|---|---|---|
| internal/pkg/helpers/helpers.go:60 | `rand.Intn(len(cfg.UserAgents)-1)` draws from [0, len-1), so the last agent is never used, and with exactly one agent `rand.Intn(0)` panics | agents ["a", "b"]: every draw returns "a"; agents ["a"]: panic | draw from [0, len) so that every configured agent can be chosen | not executed | Helpers.UserAgent | Helpers.UserAgentIntended |
