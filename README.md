# Threat intelligence dashboard: a verified model

The model covers a small threat-intelligence dashboard with two halves.

The Angular component `AppComponent` does three things:
- it validates and posts an analysis form;
- it fetches the list of analysed threats;
- it derives three summaries from that list: a risk score per source IP, a count per threat type and a count per day.

It can also refresh that list every ten seconds through a timer subscription.

The FastAPI service does the following:
- it validates a submitted threat;
- it classifies the threat with a severity/blacklist/age decision table;
- it appends the threat to an in-memory log;
- it serves that log whole or filtered by source IP.

The model is in Dafny, one module per concern:

| module | file | what it holds |
|---|---|---|
| `Outcomes` | outcomes.dfy | `Option` and `Result` |
| `Text` | text.dfy | digits, `split` on one character and its inverse `Join` |
| `Tally` | tally.dfy | first-seen order of distinct elements, occurrence counts and their sum |
| `LexOrder` | lex_order.dfy | the default order of `Array.prototype.sort` on strings, and a sort |
| `JsMap` | js_map.dfy | a JavaScript `Map`: lookup plus iteration in insertion order |
| `IpAddress` | ip_address.dfy | the component's `ipValidator` |
| `Aggregation` | aggregation.dfy | `computeRiskScores` and the two counting loops of `updateCharts` |
| `Dashboard` | dashboard.dfy | the form validators, timestamp padding and the `AppComponent` class |
| `ThreatApi` | threat_api.dfy | `backend/main.py`: validators, decision table and the `ThreatLog` class |
| `CrossCheck` | cross_check.dfy | how the form's checks relate to the service's |

The component's loops are imperative Dafny over `InsertionMap` values, each proved against a ghost specification:
- `IsRiskTable` for the risk scores;
- `IsFirstSeenHistogram` for the type counts;
- `IsDailySeries` for the day counts.

Both classes keep their fields and update them in methods with `modifies` clauses.

Asynchrony is modelled as follows:
- An HTTP request is recorded when it is issued, in the ghost fields `pendingHistory`, `pendingPosts` and `sentPayloads`.
- The outcome of a request is a later call of its success or error callback method.
- An rxjs timer is a handle in the ghost set `liveSubscriptions`. A tick can arrive only through a live handle.

Behaviour of the code worth knowing:
- Fetching the history has no in-flight guard. Every call issues a request, and the first response to arrive clears the spinner.
- Enabling auto-refresh subscribes a new timer without cancelling one already held (`ToggleAutoRefresh`, `AutoRefreshLeak`). Ticking and unticking the checkbox never triggers this (`CheckboxKeepsNoOrphans`).
- Nothing discards a response that arrives after `ngOnDestroy`. `ngOnDestroy` also leaves the handle field set.
- An invalid form makes `submitThreat` return silently. It reports no field-level error.
- `submitThreat` writes the UTC text into `threatForm.value` itself, which is the form group's cached value object and not a copy. The controls keep the local time, so the form stays valid. A second submit without an edit therefore converts the UTC text again as if it were local time, and the posted time shifts by the zone offset once more (`ResubmitConvertsTwice`).
- The trend counts every record. The date key is whatever comes before the first `T`, even for a timestamp that does not parse.
- The type histogram counts every record, including one with an empty type. Its counts therefore sum to the number of records.
- The service accepts an empty threat type.
- The risk loop compares a severity with `riskMap.get(ip) || 0`. A record with severity 0 or below therefore never creates a row. Every record the service logs has a severity of at least 1 (its `ge=1`), so every fetched record's IP has a row (`RiskTableOnePerIp`).
- The service's address check is looser than the form's: it does no 0..255 range check. Python's `$` also lets one trailing line feed through (`OutOfRangeOctet`, `TrailingLineFeedAccepted`).

## Model

| member | source | states |
|---|---|---|
| Tally.FirstSeenSpec | frontend/src/app/app.component.ts:264-271 | the keys a `Map` iterates over are distinct and are exactly the elements inserted |
| Tally.FirstSeenOrder | frontend/src/app/app.component.ts:264-271 | keys iterate in the order each was first inserted |
| Tally.CountsCoverLength | frontend/src/app/app.component.ts:277-283 | counts over distinct keys covering a list add up to the list's length |
| JsMap.InsertionMap.Set | frontend/src/app/app.component.ts:268 | `set` keeps every key once; an existing key keeps its place, a new key goes last, the value is replaced |
| LexOrder.SortAscendingSpec | frontend/src/app/app.component.ts:314 | sorting distinct strings gives a strictly ascending permutation of them |
| LexOrder.BelowTotal | frontend/src/app/app.component.ts:314 | any two distinct strings are ordered one way or the other |
| LexOrder.BelowTransitive | frontend/src/app/app.component.ts:314 | the string order is transitive |
| IpAddress.OctetPatternValue | frontend/src/app/app.component.ts:201 | the alternatives of one group match exactly the one-to-three digit strings of value 0..255 |
| IpAddress.IpValidatorSpec | frontend/src/app/app.component.ts:200-204 | an empty value passes; a non-empty value passes exactly when it is four decimal octets 0..255 joined by dots |
| Aggregation.DatePrefixSpec | frontend/src/app/app.component.ts:310 | the date key is the longest `T`-free prefix of the timestamp, followed by `T` when shorter |
| Aggregation.ScoredIpsMembers | frontend/src/app/app.component.ts:265-269 | an IP can enter the risk map exactly when one of its records has a positive severity |
| Aggregation.ScoredIpsAllPositive | backend/main.py:28 | with every severity at least 1, every record's IP enters the risk map, in list order |
| Aggregation.RiskOrderStep | frontend/src/app/app.component.ts:266-268 | a higher severity for a known IP changes its value without moving it; a new IP goes last |
| Aggregation.ComputeRiskScores | frontend/src/app/app.component.ts:263-272 | the result is the risk table: one row per scored IP in first-seen order, each holding that IP's maximum severity |
| Aggregation.RiskTableOnePerIp | frontend/src/app/app.component.ts:263-271 | with severities at least 1, the table has exactly one row per distinct source IP, in first-seen order |
| Aggregation.RiskTableUnique | frontend/src/app/app.component.ts:263-271 | the history determines the risk table: two tables of the same history are equal |
| Aggregation.CountByKey | frontend/src/app/app.component.ts:277-281 | the counting loop yields keys in first-seen order, each with its number of occurrences |
| Aggregation.ThreatTypeChart | frontend/src/app/app.component.ts:277-283 | bar labels are the threat types in first-seen order; each count is its number of records, at least 1; counts sum to the record count |
| Aggregation.TrendChart | frontend/src/app/app.component.ts:308-315 | line labels are the distinct date keys, strictly ascending; each count is that day's number of records, at least 1, with no zero-filled days; counts sum to the record count |
| Dashboard.FormValidSpec | frontend/src/app/app.component.ts:178-184 | a valid form holds two dotted quads, a non-empty type, a severity in 1..10 and a non-empty timestamp |
| Dashboard.InitialFormInvalid | frontend/src/app/app.component.ts:178-184 | the form as built cannot be submitted |
| Dashboard.PadTimestampShape | frontend/src/app/app.component.ts:215 | a minute-precision value gains `:00` seconds, a second-precision value is unchanged, and padding is idempotent |
| Dashboard.PaddedDatePrefix | frontend/src/app/app.component.ts:214-215 | padding keeps the date part the user picked; this is the local date, and the trend later groups the service's UTC date, which may differ |
| Dashboard.AppComponent.constructor | frontend/src/app/app.component.ts:167-186 | initial fields, including severity 5, and the first history request issued |
| Dashboard.AppComponent.EditForm | frontend/src/app/app.component.ts:30-57 | editing the controls changes them and rebuilds the value object from them; nothing else changes |
| Dashboard.AppComponent.LoadThreatHistory | frontend/src/app/app.component.ts:235-237 | raises `loadingHistory` and issues one more request; nothing else changes |
| Dashboard.AppComponent.OnHistoryLoaded | frontend/src/app/app.component.ts:238-244 | history replaced wholesale, spinner off, time stamped, risk table and drawn charts recomputed for the new history; nothing else changes |
| Dashboard.AppComponent.UpdateCharts | frontend/src/app/app.component.ts:274-315 | each chart whose canvas exists is redrawn from the current history; the others stay undrawn |
| Dashboard.AppComponent.OnHistoryError | frontend/src/app/app.component.ts:245-248 | only the spinner goes; history, risk table and charts are kept |
| Dashboard.AppComponent.SubmitThreat | frontend/src/app/app.component.ts:206-222 | an invalid form changes nothing; a valid one sets `loading`, clears `result`, writes the padded and converted timestamp into the value object and posts that object; the controls keep the local time |
| Dashboard.AppComponent.OnAnalyzeSuccess | frontend/src/app/app.component.ts:223-227 | shows the result, drops `loading` and issues a history request |
| Dashboard.AppComponent.OnAnalyzeError | frontend/src/app/app.component.ts:228-231 | only `loading` goes |
| Dashboard.AppComponent.ToggleAutoRefresh | frontend/src/app/app.component.ts:252-261 | enabling holds a fresh live timer and orphans any timer held before; disabling unsubscribes the held timer and drops it |
| Dashboard.AppComponent.OnCheckboxChange | frontend/src/app/app.component.ts:101 | the checkbox stores its value, then toggles; a timer is held exactly when it is ticked |
| Dashboard.AppComponent.OnRefreshTick | frontend/src/app/app.component.ts:254 | a tick of a live timer issues a history request |
| Dashboard.AppComponent.NgOnDestroy | frontend/src/app/app.component.ts:188-192 | the held timer, if any, is no longer live; the field keeps its value |
| Dashboard.ResubmitConvertsTwice | frontend/src/app/app.component.ts:206-227 | two submits without an edit post the first UTC text and then that text converted again |
| Dashboard.AutoRefreshLeak | frontend/src/app/app.component.ts:252-254 | enabling while a live timer is held leaves that timer live and no longer held |
| Dashboard.CheckboxKeepsNoOrphans | frontend/src/app/app.component.ts:252-261 | driven by checkbox clicks alone, no timer is ever orphaned |
| ThreatApi.LooseQuadSpec | backend/main.py:22 | a full match of the pattern is four groups of one to three digits joined by dots |
| ThreatApi.IpRegexSpec | backend/main.py:22 | `IP_REGEX.match` accepts exactly a loose quad, optionally followed by one line feed |
| ThreatApi.Validate | backend/main.py:24-47 | each field error is reported exactly when its check fails; no error exactly when both addresses match, severity is in 1..10 and the time is at most five minutes ahead |
| ThreatApi.ValidateLater | backend/main.py:43-47 | a request valid now stays valid later |
| ThreatApi.IpInBlacklist | backend/main.py:49-51 | true exactly for "192.168.1.100" and "10.0.0.66" |
| ThreatApi.Classify | backend/main.py:58-69 | Critical exactly for severity at least 9 or a blacklisted source; otherwise High for 6..8, Medium for 3..5, Low below 3 |
| ThreatApi.ClassifyMonotone | backend/main.py:58-69 | more severity or blacklisting never lowers the level |
| ThreatApi.Assess | backend/main.py:55-72 | the alert is the level's alert, and the recommendation starts with the level's advice and is exactly as long as the advice plus, for a record older than seven days, the age note |
| ThreatApi.StaleNoteSpec | backend/main.py:71-72 | the recommendation ends with the age note exactly when the record is more than seven days old |
| ThreatApi.AlertIgnoresAge | backend/main.py:55-72 | age never changes the alert; records on the same side of seven days get the same answer |
| ThreatApi.FromSourceCounts | backend/main.py:95 | the filter keeps every entry from the IP, as often as it is logged, and nothing else |
| ThreatApi.FromSourceAppend | backend/main.py:95 | the filter keeps log order |
| ThreatApi.ThreatLog.constructor | backend/main.py:20 | the log starts empty |
| ThreatApi.ThreatLog.AnalyzeThreat | backend/main.py:53-85 | called only on a validated request: the answer is the assessment, exactly one entry is appended holding the input fields and the answer, and every logged severity stays in 1..10 |
| ThreatApi.ThreatLog.PostAnalyzeThreat | backend/main.py:24-54 | an invalid request gets its field errors and leaves the log alone; a valid one is analysed and logged; every logged severity stays in 1..10 |
| ThreatApi.ThreatLog.GetThreats | backend/main.py:87-89 | the whole log, in order |
| ThreatApi.ThreatLog.GetThreatsBySource | backend/main.py:91-98 | 400 exactly on a malformed address, 404 when no entry matches, otherwise the non-empty list of matching entries in log order |
| ThreatApi.LoggedThenFound | backend/main.py:83 | after an entry is logged, its source's lookup lists the earlier matches followed by it |
| CrossCheck.FrontendImpliesBackend | backend/main.py:22 | every non-empty address the form accepts matches `IP_REGEX` |
| CrossCheck.OutOfRangeOctet | backend/main.py:22 | `256.0.0.1` matches `IP_REGEX` but fails `ipValidator` |
| CrossCheck.TrailingLineFeedAccepted | backend/main.py:22 | `10.0.0.1` followed by a line feed matches `IP_REGEX` |
| CrossCheck.TrailingLineFeedRefused | frontend/src/app/app.component.ts:201 | the same string fails `ipValidator` |
| CrossCheck.ValidFormAccepted | backend/main.py:24-47 | a valid form stamped at most five minutes ahead passes the service's validation |
| CrossCheck.FutureFormRefused | backend/main.py:43-47 | a valid form stamped further ahead fails on its timestamp alone |

## Left out

- HTTP transport, FastAPI routing, CORS and server start-up are not modelled. Requests and responses are the callback methods and values described above.
- Chart.js is not modelled. A chart is the `ChartData` last handed to it. Replacing a chart on an already used canvas is not modelled.
- The DOM lookups of the canvases are two constant flags.
- The Angular template and the forms framework are not modelled. `EditForm` stands for the user typing, and `OnCheckboxChange` for the checkbox binding.
- Timer timing and concurrency are not modelled. Only the handles are.
- `Dashboard.AppComponent.SubmitThreat` does not model the clock: `new Date(..).toISOString()` without `.000Z` is a parameter `toUtc`. The `RangeError` that an unparsable date would raise is not modelled.
- `toLocaleString()` is a string parameter. `datetime.utcnow()` is the integer parameter `now`. The validator and the handler read the clock separately, but the model gives both the same `now`.
- `ThreatApi.ThreatLog.AnalyzeThreat` stores the timestamp as seconds, not as its `isoformat()` text. Pydantic's own datetime parsing, and its handling of timezone-aware values, are not modelled.
- The `alert()` pop-ups and `exportToSIEM` are not modelled. They have only console and UI effects.
- `/health` is not modelled. It has no logic.
- `LexOrder.SortAscendingSpec` compares strings by code point, whereas JavaScript compares UTF-16 code units. The two agree except on characters outside the Basic Multilingual Plane.
- `Dashboard.FormValid` treats a missing severity as `None` and checks strings for emptiness only. Angular's coercion of other input types is not modelled.
- `Dashboard.FormValid` holds severity as an integer. The number input also yields fractional values such as 5.5. Those pass `min(1)` and `max(10)` and are posted, and the model cannot represent them.
- `CrossCheck.ValidFormAccepted` covers integer severities only. A fractional severity is posted, and the service then truncates it or answers 422, depending on how pydantic coerces it to `int`. That case is not modelled.
- The text of the 422 response, and how the component reads `detail[0].msg` out of it, are not modelled.
