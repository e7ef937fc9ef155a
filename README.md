# FinalPing tracker core, modelled in Dafny

FinalPing is a desktop app for aircraft owners. It watches a list of tracked
aircraft near an airport and posts notifications when one approaches or lands. The
app has two halves that this project models.

- **The bridge** (`src/main/tracker_bridge.js`, Electron main process):
  - `buildTrackerConfig` turns four backend resources (aircraft, airport
    configuration, alert settings, integrations) into one configuration document;
  - `startTracker` validates that document, writes it to disk and spawns the tracker;
  - the bridge keeps a 200-entry log buffer fed by the tracker's stdout and stderr;
  - it tells one subscriber about every change;
  - `stopTracker` kills the process.
- **The tracker** (`tracker/aviation_tracker_discord_bot.py`):
  - polls the adsb.lol area query and keeps the tracked records;
  - `check_and_notify` keeps per-aircraft state and sends the distance alerts, the
    "sequential approach" landing message and the "landed" messages, subject to a
    per-event cooldown;
  - a sweep in `run` reports aircraft whose signal was lost;
  - `WebhookSender` posts each message to the Discord, Slack and Teams webhooks;
  - `is_quiet_hours` silences it during quiet hours.
- **The hand-off** between the two is the JSON file: `JSON.stringify` on one side,
  `json.load` on the other.

The project has one module per concern. Each module takes the form of the code it
models.

- **Bridge modules:**
  - `ConfigAssembler` and `LogBuffer` are functions and lemmas;
  - `Supervisor.TrackerBridge` is a class whose methods update the bridge's
    variables. Each method is specified by the plan functions or buffer functions.
- **Tracker modules:**
  - `Webhooks.WebhookSender` is a class;
  - `Tracker.AviationTracker` is a class whose four dictionaries are fields. Each
    method is specified by a function from the tables before to the tables after;
    the tracker's promises are lemmas about those functions;
  - `AircraftFeed` is the filter loop of `get_aircraft_data`;
  - `QuietHours` is `is_quiet_hours`.
- **Handoff** relates the bridge's document to what the tracker reads.
- **Support modules:**
  - `JsText` and `PyText` give the string operations of each language: trim and
    strip, split, replace, `parseFloat`, number formatting, Python string order;
  - `Sorting` is a stable descending sort;
  - `PyConfig` is the document as Python sees it. A JSON number there is either an
    `int` or a `float`.

The clock, the network, the file system and the child process are parameters:
- the current time;
- the fetch outcome;
- whether the config file could be written;
- whether the binary or the script exists;
- the process id;
- the HTTP outcome of each post.

## Model

| member | source | states |
|---|---|---|
| ConfigAssembler.BuildTrackerConfig | src/main/tracker_bridge.js:51-141 | Tail numbers and ICAO codes are the fetched lists in order, with `''` for a missing code. The floor is 0 AGL, floor MSL is the field elevation, and ceiling MSL is field elevation plus ceiling AGL. Alert distances are non-empty and descending. Quiet hours are always enabled with non-empty ends. A non-empty legacy Discord URL equals the enabled Discord integration's URL. |
| ConfigAssembler.TailNumbers | src/main/tracker_bridge.js:60 | The tail numbers of the fetched aircraft, in order (its properties are in `BuildTrackerConfig`'s contract). |
| ConfigAssembler.Icao24Codes | src/main/tracker_bridge.js:61 | The ICAO codes of the fetched aircraft, in order, with `''` for a missing one (stated in `BuildTrackerConfig`'s contract). |
| ConfigAssembler.AirspaceOf | src/main/tracker_bridge.js:71-110 | The `airspace` block, field by field; `AirportFields` states each field's fallback. |
| ConfigAssembler.QuietHoursOf | src/main/tracker_bridge.js:83-85 | The quiet-hours block; `AirportFields` and `BridgeNotificationSettings` state its fallbacks and that it is always enabled. |
| ConfigAssembler.ChannelFor | src/main/tracker_bridge.js:78-80 | One `integrations` entry; `ChannelIsFirstEnabled` and `NoEnabledIntegration` state which integration it copies. |
| ConfigAssembler.DiscordBotFor | src/main/tracker_bridge.js:113-117 | The legacy `discord_bot` block; `NoEnabledIntegration` and `BuildTrackerConfig` state what it holds. |
| ConfigAssembler.ParseFloatOf | src/main/tracker_bridge.js:100-101 | `parseFloat` of a value that arrives as a number or as text, NaN being `None`; `CoordinateText` and `CoordinateUnparsable` state what it reads. |
| ConfigAssembler.Coordinate | src/main/tracker_bridge.js:100-101 | `parseFloat(x) \|\| 0`; `AirportFields` states its fallback. |
| ConfigAssembler.AirportFields | src/main/tracker_bridge.js:71-137 | For any airport configuration, each field is the backend's value when it is set (present and not 0 or `''`) and otherwise its default: radius 5, query radius 100, field elevation 0, ceiling 3000 AGL, name "My Airport", poll 10 s, quiet hours 23:00 and 06:00, and a centre of 0 when the coordinate does not parse or parses to 0. Floor and ceiling MSL follow from elevation and ceiling. Quiet hours are enabled and the cooldown is 1. |
| ConfigAssembler.CoordinateText | src/main/tracker_bridge.js:100-101 | A coordinate sent as text such as `"40N"` reads as its leading number. |
| ConfigAssembler.CoordinateUnparsable | src/main/tracker_bridge.js:100-101 | Text that does not start with a number (after white space) is NaN, and the coordinate falls back to 0. |
| ConfigAssembler.Candidates | src/main/tracker_bridge.js:64-67 | The filter/map/filter chain yields at most one distance per alert setting. |
| ConfigAssembler.CandidatesFrom | src/main/tracker_bridge.js:64-67 | A distance is a candidate iff some enabled, non-landing alert's tag parses to it. |
| ConfigAssembler.AlertDistances | src/main/tracker_bridge.js:65-109 | The written list is sorted largest first and never empty. |
| ConfigAssembler.AlertDistancesSpec | src/main/tracker_bridge.js:64-109 | With candidates, the list is their descending sort, as a permutation. Without candidates it is [10, 5, 2]. Every listed distance comes from an enabled non-landing alert. |
| ConfigAssembler.DuplicatesKept | src/main/tracker_bridge.js:64-68 | Two copies of one distance alert give the distance twice: nothing is de-duplicated. |
| ConfigAssembler.NoCandidates | src/main/tracker_bridge.js:64 | With no enabled non-landing alert there is no candidate. |
| ConfigAssembler.SingleDistanceAlert | src/main/tracker_bridge.js:64-68 | Disabled and landing alerts are ignored. One enabled distance alert gives exactly its distance. |
| ConfigAssembler.TagOf | src/main/tracker_bridge.js:66 | A tag `<n>nm` parses to n. |
| ConfigAssembler.SortTwo | src/main/tracker_bridge.js:68 | Two distances already in descending order keep their order. |
| ConfigAssembler.FindEnabled | src/main/tracker_bridge.js:78-80 | `find` returns the first integration of the type that is enabled, and none exists before it. None means there is none. |
| ConfigAssembler.ChannelIsFirstEnabled | src/main/tracker_bridge.js:78-124 | A channel takes the URL of the first enabled integration of its type. |
| ConfigAssembler.NoEnabledIntegration | src/main/tracker_bridge.js:113-124 | Without an enabled integration a channel is `{enabled: false}`. Without a Discord integration the legacy block is all empty strings. |
| ConfigAssembler.SlackOnlyExample | src/main/tracker_bridge.js:113-124 | A Slack-only setup enables only Slack, with its URL, and leaves the legacy block empty. |
| ConfigAssembler.EmptyAirportDefaults | src/main/tracker_bridge.js:71-137 | A null airport configuration gives the documented defaults: radius 5, query radius 100, ceiling 3000, poll 10 s, quiet hours 23:00-06:00. |
| JsText.TrimStartFacts | src/main/tracker_bridge.js:174 | `trimStart` removes exactly the longest all-white-space prefix. |
| JsText.TrimEndFacts | src/main/tracker_bridge.js:174 | `trimEnd` removes exactly the longest all-white-space suffix. |
| JsText.TrimEmptyIffAllSpace | src/main/tracker_bridge.js:231 | `l.trim()` is falsy iff `l` is all white space. |
| JsText.AllSpaceConcat | src/main/tracker_bridge.js:231 | A concatenation is all white space iff both parts are. |
| JsText.TrimIsSlice | src/main/tracker_bridge.js:174 | `trim` returns a contiguous slice of its argument. |
| JsText.TrimStartShape | src/main/tracker_bridge.js:174 | `trimStart` returns a suffix. |
| JsText.TrimEndShape | src/main/tracker_bridge.js:174 | `trimEnd` returns a prefix. |
| JsText.TrimEndsNonSpace | src/main/tracker_bridge.js:174 | A non-empty trim result starts and ends with non-space characters. |
| JsText.TrimAfterTag | src/main/tracker_bridge.js:235 | Trimming `"⚠ " + l` keeps l's leading white space and drops only its trailing white space. |
| JsText.TrimEndAppend | src/main/tracker_bridge.js:235 | When `b` is not all white space, `trimEnd` of `a + b` trims only `b`. |
| JsText.Split | src/main/tracker_bridge.js:231 | `split('\n')` gives at least one piece, and no piece holds a separator. |
| JsText.JoinSplit | src/main/tracker_bridge.js:231 | Joining the pieces of a split gives back the text. |
| JsText.SplitJoin | src/main/tracker_bridge.js:231 | Splitting a join of separator-free pieces gives back the pieces. |
| JsText.SplitNoSep | src/main/tracker_bridge.js:231 | Text without a separator splits into itself. |
| JsText.FirstIndexSpec | src/main/tracker_bridge.js:66 | The index found is an occurrence with none before it. None means no occurrence. |
| JsText.RemoveFirst | src/main/tracker_bridge.js:66 | `replace('nm', '')` removes the first occurrence and leaves the text unchanged when there is none. |
| JsText.DigitRun | src/main/tracker_bridge.js:66 | The longest digit prefix is all digits and is followed by a non-digit. |
| JsText.NatText | src/main/tracker_bridge.js:206 | A count is written as a non-empty string of digits. |
| JsText.FractionDigits | src/main/tracker_bridge.js:207 | Fraction digits are digits. |
| JsText.NatTextValue | src/main/tracker_bridge.js:206 | Reading back the digits of n gives n. |
| JsText.ParseNatText | src/main/tracker_bridge.js:66 | `parseFloat` of n's digits followed by non-numeric text is n. |
| JsText.ParseDigits | src/main/tracker_bridge.js:66 | Digits not followed by a point or exponent parse to their value. |
| JsText.ParseInteger | src/main/tracker_bridge.js:66 | A literal with no point and no exponent reads as its digit run. |
| JsText.DigitRunOf | src/main/tracker_bridge.js:66 | The digit run of digits followed by a non-digit is those digits. |
| JsText.AlertTagValue | src/main/tracker_bridge.js:66 | `parseFloat("<n>nm".replace('nm',''))` is n: the tag round-trips. |
| JsText.UnitAfterDigits | src/main/tracker_bridge.js:66 | In `<digits>nm` the first `nm` follows the digits. |
| LogBuffer.Pushed | src/main/tracker_bridge.js:173-175 | A buffer within capacity stays within capacity after a push. |
| LogBuffer.PushedFacts | src/main/tracker_bridge.js:173-175 | A push appends the entry. The oldest entry goes only when the buffer held 200 entries. |
| LogBuffer.Window | src/main/tracker_bridge.js:173-175 | The window never exceeds 200 entries. |
| LogBuffer.PushedWindow | src/main/tracker_bridge.js:173-175 | A push onto the last 200 entries is the last 200 entries after the push. |
| LogBuffer.PushAllWindow | src/main/tracker_bridge.js:173-175 | After any sequence of pushes the buffer is the most recent 200 entries, in push order. |
| LogBuffer.PushAllBounded | src/main/tracker_bridge.js:175 | The buffer never exceeds 200 entries, and nothing is dropped below capacity. |
| LogBuffer.NonBlank | src/main/tracker_bridge.js:231 | The blank-line filter never lengthens the list. |
| LogBuffer.ChunkLines | src/main/tracker_bridge.js:231 | Each kept line is free of line breaks and not blank. |
| LogBuffer.NonBlankIn | src/main/tracker_bridge.js:231 | The filter keeps exactly the lines whose trim is non-empty. |
| LogBuffer.Stamp | src/main/tracker_bridge.js:174 | One entry per line. |
| LogBuffer.Tagged | src/main/tracker_bridge.js:235 | One tagged line per line. |
| LogBuffer.StderrText | src/main/tracker_bridge.js:234-235 | A stderr entry is the warning sign, a space and the line with only its trailing white space removed. |
| LogBuffer.StdoutText | src/main/tracker_bridge.js:230-231 | Stdout entries are never blank and contain no line break. |
| LogBuffer.TrimKeepsOut | src/main/tracker_bridge.js:174 | Trimming introduces no character. |
| LogBuffer.SingleLineChunk | src/main/tracker_bridge.js:230-231 | A one-line chunk gives exactly one trimmed entry. |
| Supervisor.AnnounceStep | src/main/tracker_bridge.js:173-179 | Each push adds one callback call carrying the buffer after that push. |
| Supervisor.WindowStep | src/main/tracker_bridge.js:173-175 | Pushing onto a window is the window of the longer sequence. |
| Supervisor.StampSnoc | src/main/tracker_bridge.js:174 | Stamping one more line appends one entry. |
| Supervisor.Announce | src/main/tracker_bridge.js:176-178 | The callback calls of a run of pushes, one per push; `AnnounceStep` states what each carries. |
| Supervisor.PlanLaunch | src/main/tracker_bridge.js:209-226 | The launch decision; `LaunchChoice` and `SpawnSucceedsIff` state it. |
| Supervisor.PlanSpawn | src/main/tracker_bridge.js:205-226 | Write, announce, launch; `SpawnSucceedsIff` states when it succeeds. |
| Supervisor.PlanValidated | src/main/tracker_bridge.js:196-226 | The two validation refusals, then `PlanSpawn`; `ValidatedSucceedsIff` and `ValidationRefusal` state it. |
| Supervisor.PlanFetched | src/main/tracker_bridge.js:194-256 | After the `await`: a failed fetch is logged and returned, otherwise `PlanValidated`. |
| Supervisor.PlanStart | src/main/tracker_bridge.js:188-257 | The guard, the fetching line, then `PlanFetched`; `StartSucceedsIff` states when it succeeds. |
| Supervisor.CloseLine | src/main/tracker_bridge.js:240 | The exit line; `CloseLineStoppedIff` states it. |
| Supervisor.OptionSeq | src/main/tracker_bridge.js:205-228 | A start writes at most one file and spawns at most one process. |
| Supervisor.StartSucceedsIff | src/main/tracker_bridge.js:188-257 | A start spawns iff it succeeds. It succeeds iff all of: nothing runs; the fetch succeeded; there is an aircraft; latitude and longitude, after `parseFloat`, are both non-zero; the file was written; the binary or the script exists. |
| Supervisor.ValidatedSucceedsIff | src/main/tracker_bridge.js:196-251 | The same iff, after the fetch. |
| Supervisor.SpawnSucceedsIff | src/main/tracker_bridge.js:205-251 | After validation: success iff the write succeeded and a binary or script exists. |
| Supervisor.ValidationRefusal | src/main/tracker_bridge.js:198-203 | A refused configuration writes nothing and spawns nothing, and the reply names the first failed check. |
| Supervisor.LaunchChoice | src/main/tracker_bridge.js:205-226 | The packaged binary takes the config path. Otherwise the command is `python` on Windows, else `python3`, with the script and the config path. A missing script fails after the file is written. |
| Supervisor.KillFor | src/main/tracker_bridge.js:265-269 | On Windows, `taskkill /pid <pid> /f /t` for the handle; SIGTERM elsewhere. |
| Supervisor.CloseLineStoppedIff | src/main/tracker_bridge.js:240 | Only exit code 0 logs "Tracker stopped.". |
| Supervisor.TrackerBridge.constructor | src/main/tracker_bridge.js:20-22 | No process, no subscriber, an empty buffer. |
| Supervisor.TrackerBridge.PushLog | src/main/tracker_bridge.js:173-179 | The buffer becomes `Pushed` of the trimmed, stamped line. The subscriber, if any, gets one call with the running flag and the new buffer. Nothing else changes. |
| Supervisor.TrackerBridge.NotifyStatus | src/main/tracker_bridge.js:181-185 | One call to the subscriber, if any, with running, buffer and the optional error. |
| Supervisor.TrackerBridge.PushLines | src/main/tracker_bridge.js:230-236 | Pushing several lines leaves the buffer at the window of the stamped lines, with one call per line. |
| Supervisor.TrackerBridge.OnStdout | src/main/tracker_bridge.js:230-232 | The buffer is the window of the chunk's non-blank lines. The calls are `Announce` of those entries. |
| Supervisor.TrackerBridge.OnStderr | src/main/tracker_bridge.js:234-236 | The same, for the lines tagged with the warning sign. |
| Supervisor.TrackerBridge.BeginStart | src/main/tracker_bridge.js:188-195 | The part before the `await`: refused with "Already running" iff a handle exists, logging the matching line. Nothing else changes, so nothing marks a start as under way. |
| Supervisor.TrackerBridge.FinishStart | src/main/tracker_bridge.js:196-256 | The part after the `await`, following `PlanFetched` without checking the guard again. A spawned process replaces whatever handle there is now. |
| Supervisor.TrackerBridge.AfterFetch | src/main/tracker_bridge.js:196-256 | A failed fetch logs "Error starting tracker" and fails; otherwise `Validate`. The logs and calls continue those before the fetch. |
| Supervisor.TrackerBridge.Start | src/main/tracker_bridge.js:188-257 | `BeginStart` then `AfterFetch`, with nothing in between. Reply, logged lines, file written and command spawned are those of `PlanStart`. The handle is set exactly when a process is spawned, and then the subscriber hears running. |
| Supervisor.TrackerBridge.Validate | src/main/tracker_bridge.js:196-251 | The part after the fetch follows `PlanValidated`. |
| Supervisor.TrackerBridge.WriteAndSpawn | src/main/tracker_bridge.js:205-251 | Write and spawn follow `PlanSpawn`. |
| Supervisor.TrackerBridge.WriteConfig | src/main/tracker_bridge.js:205-207 | The file is recorded and the two announcement lines are logged. |
| Supervisor.TrackerBridge.Spawn | src/main/tracker_bridge.js:209-251 | The launch follows `PlanLaunch`. |
| Supervisor.TrackerBridge.Stop | src/main/tracker_bridge.js:260-277 | Fails without a handle, and fails unchanged when the kill throws. Otherwise it sends the platform's kill to the handle, clears it, logs "Tracker stopped by user." and notifies. Success iff running and the kill did not throw. |
| Supervisor.TrackerBridge.OnCloseAsWritten | src/main/tracker_bridge.js:238-242 | As written: any close clears the handle, logs the exit line and notifies. |
| Supervisor.TrackerBridge.OnErrorAsWritten | src/main/tracker_bridge.js:244-248 | As written: any error clears the handle, logs it and notifies with the error. |
| Supervisor.TrackerBridge.OnClose | src/main/tracker_bridge.js:238-242 | Corrected: only the close of the current process clears the handle. |
| Supervisor.TrackerBridge.OnError | src/main/tracker_bridge.js:244-248 | Corrected: only an error of the current process clears the handle. |
| Supervisor.TrackerBridge.GetStatus | src/main/tracker_bridge.js:280-282 | Running iff there is a handle, together with the buffer. |
| Supervisor.TrackerBridge.OnStatusChange | src/main/tracker_bridge.js:284-286 | The callback replaces any earlier one. Nothing else changes. |
| Supervisor.RestartThenLateCloseAsWritten | src/main/tracker_bridge.js:238-270 | Stop, restart, then a late close of the stopped process leaves the bridge reporting not running. |
| Supervisor.RestartThenLateClose | src/main/tracker_bridge.js:238-270 | The same sequence with the corrected handler keeps the new process's handle and reports running. |
| Supervisor.DoubleStartOrphans | src/main/tracker_bridge.js:188-228 | Two starts whose fetches overlap both pass the guard and both spawn. The handle ends on the second process, so the first is running with no handle that reaches it. |
| Supervisor.StopDuringFetch | src/main/tracker_bridge.js:188-277 | A stop during a start's fetch is refused with "Tracker is not running" and kills nothing, and the start then spawns and reports running. |
| Sorting.Insert | src/main/tracker_bridge.js:68 | Insertion into a sorted list keeps it sorted and adds exactly one element. |
| Sorting.SortDesc | tracker/aviation_tracker_discord_bot.py:232 | The result is sorted largest first and is a permutation of the input. |
| Sorting.SortDescOfSorted | tracker/aviation_tracker_discord_bot.py:232 | Sorting an already sorted list leaves it unchanged. |
| PyText.StripStartFacts | tracker/aviation_tracker_discord_bot.py:147 | `strip` removes exactly the leading white space. |
| PyText.StripEndFacts | tracker/aviation_tracker_discord_bot.py:147 | `strip` removes exactly the trailing white space. |
| PyText.StripFacts | tracker/aviation_tracker_discord_bot.py:147 | `strip()` is a slice that neither starts nor ends with white space, and is empty iff the text is all white space. |
| PyText.Lower | tracker/aviation_tracker_discord_bot.py:133-140 | Lower-casing keeps the length. |
| PyText.Upper | tracker/aviation_tracker_discord_bot.py:399-414 | Upper-casing keeps the length. |
| PyText.LowerIdempotent | tracker/aviation_tracker_discord_bot.py:136-140 | Lower-casing twice is lower-casing once. |
| PyText.LexTotal | tracker/aviation_tracker_discord_bot.py:184-187 | String `<=` is total and antisymmetric. |
| PyText.LexLessStrict | tracker/aviation_tracker_discord_bot.py:184-187 | String `<` is irreflexive and asymmetric. |
| PyText.LexLeIffNotLess | tracker/aviation_tracker_discord_bot.py:184-187 | `a <= b` iff not `b < a`. |
| PyText.LexLessAt | tracker/aviation_tracker_discord_bot.py:184-187 | Equal-length strings compare at their first difference. |
| QuietHours.ClockOrder | tracker/aviation_tracker_discord_bot.py:181-187 | On `HH:MM` texts, string order is time order. |
| QuietHours.IsQuietHours | tracker/aviation_tracker_discord_bot.py:175-189 | `is_quiet_hours` with the clock as a parameter; `QuietByMinutes` and the lemmas below state it. |
| QuietHours.QuietByMinutes | tracker/aviation_tracker_discord_bot.py:175-189 | With well-formed times, quiet hours are the minute window from start to end, wrapping past midnight when start is after end. A disabled block is never quiet. |
| QuietHours.DefaultWindow | tracker/aviation_tracker_discord_bot.py:182-187 | Without start and end: quiet from 23:00 through 06:00 inclusive. |
| QuietHours.OvernightComplement | tracker/aviation_tracker_discord_bot.py:186-187 | An overnight window is quiet at all times except those strictly between end and start. |
| QuietHours.OvernightHasMidnight | tracker/aviation_tracker_discord_bot.py:186-187 | An overnight window contains 00:00. |
| Webhooks.SelectUrlsSpec | tracker/aviation_tracker_discord_bot.py:32-40 | Slack and Teams are configured iff their integration is enabled with a URL. Discord is too, and otherwise falls back to the legacy URL. |
| Webhooks.SelectUrls | tracker/aviation_tracker_discord_bot.py:32-40 | The three URLs kept; `SelectUrlsSpec` states them. |
| Webhooks.Attempts | tracker/aviation_tracker_discord_bot.py:52-61 | The posts of one send; `AttemptsSpec` states them. |
| Webhooks.AttemptsSpec | tracker/aviation_tracker_discord_bot.py:52-61 | A send posts the message to each configured channel exactly once, at its URL, and to no other channel. |
| Webhooks.WebhookSender.constructor | tracker/aviation_tracker_discord_bot.py:32-40 | The kept URLs are `SelectUrls` of the configuration. |
| Webhooks.WebhookSender.Send | tracker/aviation_tracker_discord_bot.py:52-61 | The posts made are `Attempts`, in Discord, Slack, Teams order. The result is true iff some configured channel's post succeeded. |
| AircraftFeed.MaxValueSpec | tracker/aviation_tracker_discord_bot.py:123 | `max` is an upper bound that the list attains, compared by value. |
| AircraftFeed.QueryRadius | tracker/aviation_tracker_discord_bot.py:120-123 | The query radius, `None` for the `ValueError`; `QueryRadiusCoversAlerts` states it. |
| AircraftFeed.QueryRadiusCoversAlerts | tracker/aviation_tracker_discord_bot.py:120-159 | Without `query_radius_nm` the radius is 5 nm past the largest alert distance. An empty alert list raises, and no aircraft are returned. |
| AircraftFeed.LowerAll | tracker/aviation_tracker_discord_bot.py:140 | One lower-cased code per code. |
| AircraftFeed.IndexOfSpec | tracker/aviation_tracker_discord_bot.py:140 | `index` finds the first occurrence. None means absent. |
| AircraftFeed.LookupTail | tracker/aviation_tracker_discord_bot.py:139-143 | The tail-number lookup; `LookupTailSpec` states it. |
| AircraftFeed.Describe | tracker/aviation_tracker_discord_bot.py:145-153 | The dict appended for one record; `CallsignChoice` states its callsign. |
| AircraftFeed.Sightings | tracker/aviation_tracker_discord_bot.py:132-153 | The filtered list; `SightingsSpec` and `SightingsPositions` state it. |
| AircraftFeed.LookupTailSpec | tracker/aviation_tracker_discord_bot.py:139-143 | The tail number is the one at the first matching code. None means the first matching code, if any, has no tail number (the `IndexError`). |
| AircraftFeed.CollectTracked | tracker/aviation_tracker_discord_bot.py:133-153 | The loop's list is `Sightings` of the records. |
| AircraftFeed.GetAircraftData | tracker/aviation_tracker_discord_bot.py:113-159 | No aircraft when the radius cannot be computed, the request fails or `ac` is missing. Otherwise the tracked records, described. |
| AircraftFeed.SightingsSpec | tracker/aviation_tracker_discord_bot.py:132-153 | Every tracked record comes out described, never more than came in, every address is a tracked code, and with every record tracked nothing is dropped. |
| AircraftFeed.TrackedPositions | tracker/aviation_tracker_discord_bot.py:135-138 | The positions in the response of the records the loop keeps. |
| AircraftFeed.PositionsTracked | tracker/aviation_tracker_discord_bot.py:135-138 | Every kept position is in range and its record is tracked. |
| AircraftFeed.PositionsIncrease | tracker/aviation_tracker_discord_bot.py:135 | Kept positions are in response order. |
| AircraftFeed.PositionsComplete | tracker/aviation_tracker_discord_bot.py:135-138 | Every tracked record's position is kept. |
| AircraftFeed.PositionsDescribed | tracker/aviation_tracker_discord_bot.py:145-153 | The j-th sighting is the description of the record at the j-th kept position. |
| AircraftFeed.SightingsPositions | tracker/aviation_tracker_discord_bot.py:132-153 | The list is exactly the tracked records, each described once, in response order: one sighting per kept position, positions increasing, every tracked position kept. Every sighting is the description of a tracked record. |
| AircraftFeed.CallsignChoice | tracker/aviation_tracker_discord_bot.py:141-147 | The callsign is the stripped `flight` when non-blank, else the tail number, else the address. |
| AircraftFeed.MissingHexMatchesMissingCode | tracker/aviation_tracker_discord_bot.py:136-141 | A record without `hex` is taken for the first tracked aircraft whose code is empty. |
| Tracker.CooldownWindow | tracker/aviation_tracker_discord_bot.py:161-173 | After an allowed key is recorded, it is refused until `cooldown` minutes have passed and allowed from then on. Other keys are unaffected. |
| Tracker.Allowed | tracker/aviation_tracker_discord_bot.py:161-173 | The answer of `should_notify`; `CooldownWindow` states it. |
| Tracker.Recorded | tracker/aviation_tracker_discord_bot.py:161-173 | The time is recorded when allowed; `CooldownWindow` states the effect. |
| Tracker.ThresholdStep | tracker/aviation_tracker_discord_bot.py:249-279 | One iteration of the alert loop, for either landing guard; `ThresholdStepSpec` and `ThresholdStepFrame` state it. |
| Tracker.Sweep | tracker/aviation_tracker_discord_bot.py:248-279 | The alert loop; `SweepSpec` states it. |
| Tracker.GuardsAgreeOnFloats | tracker/aviation_tracker_discord_bot.py:254-255 | The guard as written and the by-value guard agree whenever every threshold sent is a float. They differ only on integer thresholds. |
| Tracker.ThresholdStepFrame | tracker/aviation_tracker_discord_bot.py:248-279 | One threshold step touches only this aircraft, changes its state only in `landed`, and never clears `landed`. |
| Tracker.ThresholdStepSpec | tracker/aviation_tracker_discord_bot.py:248-279 | A step does nothing unless the alert is due. Otherwise it adds the threshold with exactly one distance message, or, at 2 nm behind the guard for a not-landed aircraft, exactly one landing message, marking it landed. |
| Tracker.AlertAtMostOnce | tracker/aviation_tracker_discord_bot.py:253 | A threshold already in the set is never alerted again. |
| Tracker.SweepSpec | tracker/aviation_tracker_discord_bot.py:248-279 | Over the whole loop, alert sets only grow and other aircraft are untouched. Messages are appended, each a distance or landing message with the callsign. A landed aircraft stays landed and gets no landing message. |
| Tracker.AsWrittenNeverLands | tracker/aviation_tracker_discord_bot.py:249-255 | With the guard as written and no float `10.0` among the thresholds, no landing message is ever sent. |
| Tracker.IntegerKeysAtTwoMiles | tracker/aviation_tracker_discord_bot.py:249-279 | With integer thresholds 10 and 5 sent, reaching 2 nm gives "2nm out" as written and the landing message by value. |
| Tracker.DistanceBlock | tracker/aviation_tracker_discord_bot.py:231-289 | The `if not on_ground` block, for either guard; `DistanceBlockSpec` states it. |
| Tracker.BlockSweepSpec | tracker/aviation_tracker_discord_bot.py:234-279 | For either guard: the set exists after the loop and has only grown. Only this aircraft changes. A landed aircraft gets distance messages only. |
| Tracker.DistanceBlockSpec | tracker/aviation_tracker_discord_bot.py:231-289 | For either guard: after the block, `last_distance` is the distance and `max_distance` is the running maximum, never below it or the old maximum. Beyond 12 nm the set is emptied, and otherwise it only grows. Only this aircraft changes. |
| Tracker.DistanceBlockLanded | tracker/aviation_tracker_discord_bot.py:231-289 | For either guard: a landed aircraft stays landed through the block and gets distance messages only. |
| Tracker.AsWrittenBlockNeverLands | tracker/aviation_tracker_discord_bot.py:231-289 | As written, with no float 10.0 configured or already sent, the block sends no sequential landing message, only appends messages, and does not add 10.0. |
| Tracker.LeavingFrame | tracker/aviation_tracker_discord_bot.py:292-309 | Leaving touches only this aircraft, leaves the alert sets alone and sends at most one "landed" message. |
| Tracker.GroundedFrame | tracker/aviation_tracker_discord_bot.py:312-320 | Ground detection touches only this aircraft, leaves the alert sets alone, sends at most one "landed" message and does nothing once it has landed. |
| Tracker.Leaving | tracker/aviation_tracker_discord_bot.py:292-309 | The leaving branch; `LeavingFrame` states it. |
| Tracker.Grounded | tracker/aviation_tracker_discord_bot.py:312-320 | The ground branch; `GroundedFrame` states it. |
| Tracker.Refreshed | tracker/aviation_tracker_discord_bot.py:322-340 | The final state update; `RefreshedSpec` states it. |
| Tracker.RefreshedSpec | tracker/aviation_tracker_discord_bot.py:323-340 | The state records position, ground flag, time and a zero missing count. On takeoff the set is emptied, `landed` is false, the maximum restarts and the departure time is removed. No message is sent. |
| Tracker.TransitionsFrame | tracker/aviation_tracker_discord_bot.py:231-320 | For either guard: the distance block and the transition branches touch only this aircraft. |
| Tracker.TransitionsAfterBlock | tracker/aviation_tracker_discord_bot.py:292-320 | After the distance block, the transition branches leave the alert sets alone and send at most one "landed" message. |
| Tracker.Check | tracker/aviation_tracker_discord_bot.py:198-340 | `check_and_notify`; with `AsWritten` it is the program, with `ByValue` the corrected one. `CheckSpec` states it. |
| Tracker.CheckSpec | tracker/aviation_tracker_discord_bot.py:198-340 | For either guard: a sighting without position changes nothing. Otherwise the aircraft gets an entry recording where it is and that it was just seen, and no other aircraft changes. |
| Tracker.NoRepeatLanding | tracker/aviation_tracker_discord_bot.py:257-314 | For either guard: an aircraft already landed gets only distance messages from a sighting, so no second landing message. |
| Tracker.AsWrittenCheckNeverLands | tracker/aviation_tracker_discord_bot.py:198-340 | As written, with no float 10.0 configured or already sent, a sighting never brings the sequential landing message and never adds 10.0, so no run of sightings does. |
| Tracker.MissingStepSpec | tracker/aviation_tracker_discord_bot.py:384-420 | One missing aircraft is dropped when lost, and its count goes up otherwise. Only loss messages are sent, and nothing else changes. |
| Tracker.MissingStep | tracker/aviation_tracker_discord_bot.py:384-420 | One iteration of the missing-aircraft sweep; `MissingStepSpec` states it. |
| Tracker.MissingSweep | tracker/aviation_tracker_discord_bot.py:383-420 | The sweep; `MissingSweepSpec` states it. |
| Tracker.MissingSweepSpec | tracker/aviation_tracker_discord_bot.py:383-420 | Seen aircraft are unchanged. Each missing aircraft is kept iff it is not lost, with its count raised. No aircraft is added, alert sets are unchanged, and only loss messages are appended. |
| Tracker.AviationTracker.constructor | tracker/aviation_tracker_discord_bot.py:95-102 | Empty tables. |
| Tracker.AviationTracker.ShouldNotify | tracker/aviation_tracker_discord_bot.py:161-173 | The answer is `Allowed`, and the time is recorded exactly when allowed. |
| Tracker.AviationTracker.SendNotification | tracker/aviation_tracker_discord_bot.py:191-196 | The message is appended to the outbox. |
| Tracker.AviationTracker.CheckThreshold | tracker/aviation_tracker_discord_bot.py:248-279 | The tables become `ThresholdStep` with the guard as written: the keys `"10.0nm"` and `"5.0nm"` are float thresholds. |
| Tracker.AviationTracker.AlertLoop | tracker/aviation_tracker_discord_bot.py:249-279 | The tables become `Sweep` with the guard as written. |
| Tracker.AviationTracker.DistanceAlerts | tracker/aviation_tracker_discord_bot.py:231-289 | The tables become `DistanceBlock` with the guard as written. |
| Tracker.AviationTracker.LeaveAirspace | tracker/aviation_tracker_discord_bot.py:292-309 | The tables become `Leaving`. |
| Tracker.AviationTracker.DetectGround | tracker/aviation_tracker_discord_bot.py:312-320 | The tables become `Grounded`. |
| Tracker.AviationTracker.UpdateState | tracker/aviation_tracker_discord_bot.py:322-340 | The tables become `Refreshed`. |
| Tracker.AviationTracker.CheckAndNotify | tracker/aviation_tracker_discord_bot.py:198-340 | The tables become `Check` with the guard as written. |
| Tracker.AviationTracker.CountMissing | tracker/aviation_tracker_discord_bot.py:384-420 | The tables become `MissingStep`. |
| Tracker.AviationTracker.SweepMissing | tracker/aviation_tracker_discord_bot.py:383-420 | The tables become `MissingSweep` over the dictionary's order. |
| Handoff.JsonNum | src/main/tracker_bridge.js:151 | A written number reads back with the same value. It is a `float` iff it has a fraction or is at least 1e21 in size. |
| Handoff.JsonNums | src/main/tracker_bridge.js:151 | The list reads back element by element. |
| Handoff.NoFloatTen | tracker/aviation_tracker_discord_bot.py:232-255 | No threshold written by the bridge is the float 10.0. |
| Handoff.BridgeConfigNeverLands | tracker/aviation_tracker_discord_bot.py:248-279 | With a bridge-written file, the loop as written never sends the sequential landing message. |
| Handoff.BridgeCheckNeverLands | tracker/aviation_tracker_discord_bot.py:198-340 | With a bridge-written file, `check_and_notify` as the tracker runs it never sends the sequential landing message, and the next sighting starts from the same condition. |
| Handoff.DefaultBridgeThresholds | src/main/tracker_bridge.js:109 | Without distance alerts the tracker sees the integers 10, 5, 2, in that order. |
| Handoff.BridgeLandsByValue | tracker/aviation_tracker_discord_bot.py:254-279 | With those thresholds, after 10 and 5, 2 nm gives the landing message by value and "2nm out" as written. |
| Handoff.BridgeNotificationSettings | src/main/tracker_bridge.js:130-137 | The bridge's file always enables quiet hours with both ends present and sets a one-minute cooldown. |
| Handoff.BridgeWebhookUrls | tracker/aviation_tracker_discord_bot.py:32-40 | The tracker posts to exactly the channels the bridge enabled, at their URLs. The legacy URL never changes that. |

## Left out

- I/O is not modelled; its outcomes are parameters, as listed above. This covers:
  - the HTTP calls (`apiGet`, `requests.get`, `requests.post`);
  - the file write and the child process;
  - the `log` lines of the tracker.
- The tracker's process start-up (`main`, reading the file) is not modelled. The
  hand-off is modelled as `Handoff.FromBridge`.
- Clocks are parameters: the Python time is a number of seconds, and the bridge's
  time stamp is text.
- `haversine_distance` and the unit conversions are left out because they are
  floating point. The distance in nautical miles is an input. Altitude is kept in
  feet and ground speed in knots, so `* 0.3048 * 3.28084` and `* 0.514444 * 1.94384`
  are taken as identity.
- Message texts are not modelled; each notification is a `Message` tag with its
  callsign. The ETA and altitude in the text are omitted.
- `send_notification` is recorded in the outbox whether or not it was quiet.
  Quiet hours (`QuietHours.IsQuietHours`) and delivery
  (`Webhooks.WebhookSender.Send`) are modelled on their own, not chained.
- `run`'s poll loop, which chains fetch, check and sweep, is not one method.
  `CheckAndNotify` and `SweepMissing` are its steps. The dictionary's insertion
  order is an input of `SweepMissing`.
- `radius_nm` missing (a `KeyError`) is not modelled. Neither is any exception
  escaping `check_and_notify`.
- Tracker.AviationTracker.ShouldNotify: the cooldown key `f"{id}_{event}"` is
  modelled as the pair (address, event). Keys that collide through an underscore
  inside an address are not captured.
- AircraftFeed.GetAircraftData: `alt_baro` values other than absent, `"ground"` or a
  number are not modelled. Neither are `hex`, `flight` or `webhook_url` set to JSON
  `null`.
- PyText.Lower: case mapping covers ASCII letters only. ICAO addresses are hex
  digits.
- The document and the code disagree on the bridge's alert distances. The document
  says they are de-duplicated and strictly descending. The code only sorts them
  (`ConfigAssembler.DuplicatesKept`). The model follows the code.
- `getTrackerBinaryPath`, `getTrackerScriptPath` and `getConfigPath` are reduced to
  the `Host` parameters they read.
- The promise rejections of `buildTrackerConfig` other than a failed fetch are not
  modelled. Any fetch failure is one `FetchFailed` message.
- ConfigAssembler.AirspaceOf: the latitude and longitude may arrive as numbers or as
  text and go through `parseFloat`. The other numeric airport fields (field elevation,
  detection radius, ceiling, poll interval) are taken as numbers only. A backend that
  sent them as text would make `fieldElevation + ceilingAgl` (`src/main/tracker_bridge.js:107`) concatenate
  strings; that case is not modelled.
- JsText.ParseFloat: reads decimal literals only. The `Infinity` literals that
  `parseFloat` also accepts (so `"Infinitynm"` gives Infinity) are not modelled, nor is
  any numeric result outside the reals.
- The `await` in `startTracker` splits it in two (`BeginStart` and `FinishStart`).
  Interleavings at that point are modelled as the code behaves, with nothing marking a
  start as under way: `Supervisor.DoubleStartOrphans` and `Supervisor.StopDuringFetch`.
  No corrected start is modelled. Other interleavings (a close or error event, or log
  output, during the fetch) are not captured by a scenario of their own.

## Findings

| source | as written | input that shows it | evidently intended | confidence | as-written member | corrected member |
|---|---|---|---|---|---|---|
| tracker/aviation_tracker_discord_bot.py:249-255 | The sequential-landing guard looks for the keys `"10.0nm"` and `"5.0nm"`. A key is `f"{alert_distance}nm"`, and the bridge writes its distances as JavaScript numbers (`JSON.stringify` gives `10`), which `json.load` reads as `int`. So the keys are `"10nm"` and `"5nm"`, the guard never holds, and 2 nm sends a plain "2nm out" message. | A configuration written by the bridge with the default distances [10, 5, 2]: an aircraft approaching from 12 nm to 1.5 nm. | The landing message at 2 nm once the 10 nm and 5 nm alerts went out, whatever the numbers' type. | high (not executed) | Handoff.BridgeConfigNeverLands | Handoff.BridgeLandsByValue |
| src/main/tracker_bridge.js:238-270 | The close and error handlers set `trackerProcess = null` for whichever process fired them. `stopTracker` clears the handle at once, so a restart can spawn a new process before the old one's `close` arrives. That late event then clears the new process's handle. | Stop, then start again before the stopped process has exited: the new tracker keeps running, `getStatus` reports not running, and a further stop is refused. | Clear the handle only when the event comes from the current process. | medium (not executed) | Supervisor.RestartThenLateCloseAsWritten | Supervisor.RestartThenLateClose |

The tracker's class runs the landing guard as written. The guard is a parameter of the
tracker's functions (`Tracker.Guard`), and the frame, growth and no-repeat lemmas hold
for both guards. The corrected guard compares thresholds by value; with it, a
bridge-written file gets the landing message (`Handoff.BridgeLandsByValue`). As written,
it never does (`Handoff.BridgeConfigNeverLands` for the alert loop,
`Handoff.BridgeCheckNeverLands` for the whole of `check_and_notify`).
