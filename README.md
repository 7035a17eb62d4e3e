# ThreatStream core, modelled in Dafny

ThreatStream is a security-operations dashboard. It has two halves:

- a React front end that simulates a live feed of security events, keeps a capped event ledger, drifts a risk score, derives a threat level, asks an AI model for an analysis of the CRITICAL events, and talks to the back end over a reconnecting WebSocket;
- a FastAPI back end that runs every incoming event through a pipeline: a stale-scenario check, geolocation, AI analysis with a rule-based fallback, a composite risk score, in-memory threat and alert stores, a risk index with decay, alert priorities, response playbooks and a WebSocket fan-out.

This project models the logic under the rendering and the I/O, one Dafny module per source file:

| module | source file | form |
|---|---|---|
| `AppController` | `App.tsx` | class `Controller` (state updated step by step) plus pure functions for the event, the drift and the level ladder |
| `WebSocketClient` | `services/websocketService.ts` | class `ThreatStreamWebSocket` |
| `TypeMappers` | `typeMappers.ts` | functions |
| `GeminiService` | `geminiService.ts` | functions over a sequence of call outcomes |
| `TopSources`, `EventStream`, `ThreatMap`, `LiveKafkaStream` | `components/*.tsx` | functions; the `reduce` in TopSources is a method with a loop |
| `DemoControls` | `components/DemoControls.tsx` | `FormatTime` plus class `DemoPanel` |
| `ThreatProcessor` | `backend/app/services/threat_processor.py` | risk-score functions plus class `ThreatProcessor` |
| `MetricsService`, `FirestoreService`, `PlaybookService`, `ConnectionManager` | back-end services | classes with `seq`/`map` fields |
| `AlertService` | `backend/app/services/alert_service.py` | priority function plus class over the store |
| `GeoService`, `IpUtils`, `MitreMapping`, `Config` | back-end utilities | functions |
| `GeminiAnalyzer` | `backend/app/core/gemini_analyzer.py` | fence stripping, fallback tables, `Verdict` and class `ThreatAnalyzer` |

Shared helper modules:

- `Wrappers`: `Option` and `Result`.
- `Seqs`: Python-style prefixes, `Filter`, subsequences and counting.
- `Text`: `str.split`, `strip`, decimal digits.
- `Numeric`: powers of two and truncation.
- `UiTypes` and `BackendTypes`: the records and enums of `types.ts`, `backendTypes.ts` and the back end's models.

What comes from the environment enters as parameters:

- random draws (each a real in [0, 1));
- clock readings and generated ids;
- the model's reply and its JSON decoding;
- the facts Python's `ipaddress` would report;
- which WebSocket sends fail.

Some behaviour of `App.tsx` that a reader might expect is absent, and the model follows the code as it stands:

- The ledger has no id-based deduplication; ids are distinct only because they come from a counter.
- The analysis cooldown is 15000 ms and is not tied to a level change.
- Only CRITICAL events, not HIGH ones, are sent to analysis.
- There are no scenario epochs and no handshakes sent from `App.tsx`.
- Switching to the normal scenario does not prune the ledger.
- `createSimulationEvent` puts no epoch into the metadata.

## Model

| member | source | states |
|---|---|---|
| AppController.Signature | App.tsx:73-96 | each attack scenario gives its event type and MITRE id: brute force T1110, SQL injection T1190, DDoS T1498, ransomware T1486 |
| AppController.TickCountry | App.tsx:65-67 | a suspicious event comes from a hostile country (RU, CN, KP, IR), any other from US, DE, GB, IN or BR; both lists lie in the coordinate table |
| AppController.InternalIp | App.tsx:102 | the routine source address is a well-formed dotted quad starting "10.0.0." |
| UiTypes.CoordsOrOrigin | App.tsx:108 | a listed country gives its table coordinates, any other [0, 0] |
| AppController.TickEvent | App.tsx:62-110 | the tick's event is numbered "TX-n"; it is CRITICAL, SUSPICIOUS and carries a MITRE id exactly when the tick is suspicious; suspicious events carry the scenario's signature, a hostile country and the vulnerable admin user; routine ones carry a routine type, MEDIUM or INFO severity, SUCCESS or FAILURE status and an internal address; coordinates come from the country table |
| AppController.Eps | App.tsx:113 | events per second lie in [50, 150) during an attack and in [1, 5] otherwise |
| AppController.InitialStatsInRange | App.tsx:47-53 | the initial statistics satisfy the latency range invariant (70-130 ms, at most 15 samples) |
| AppController.NextStats | App.tsx:115-125 | processed grows by one, blocked and critical grow only under their attack conditions, the latency stays in [70, 130], never rises during an attack and never falls otherwise, and the history is the last 14 samples plus the new one |
| AppController.DriftRisk | App.tsx:127-131 | with mitigation the score is max(8, prev-1.5); otherwise a score in [0, 100] stays in [0, 100], rising by less than 12 during an attack and moving within [-1.5, 0.5) otherwise |
| AppController.LevelOf | App.tsx:138-140 | CRITICAL iff score > 65, SUSPICIOUS iff 35 < score <= 65, NORMAL iff score <= 35 |
| AppController.LevelMonotone | App.tsx:138-140 | a higher score never gives a lower level |
| AppController.CriticalBatch | App.tsx:150 | the first min(5, CRITICAL count) CRITICAL events of the ledger, in ledger order (each CRITICAL event of rank k < the batch size sits at position k), so an order-preserving subsequence, empty iff no event is CRITICAL, and holding every CRITICAL event when fewer than 5 exist |
| AppController.NumberedBounds | App.tsx:55 | every ledger number lies in [1, counter] and ledger entry i is "TX-" of its number |
| AppController.NumberedDecreasing | App.tsx:99 | ledger numbers strictly decrease from newest to oldest |
| AppController.DistinctIds | App.tsx:99 | no two ledger entries share an id |
| AppController.NumberedTake | App.tsx:112 | capping the ledger keeps its numbering |
| AppController.NumberedPrepend | App.tsx:99-112 | prepending the event numbered counter+1 and capping at 50 keeps the ledger numbered under the new counter |
| AppController.Controller.constructor | App.tsx:34-56 | the initial state: empty ledger, risk 12, NORMAL level, streaming, baseline reasoning, normal scenario, baseline statistics, counter 0, one timeline sample from the first run of the level effect |
| AppController.Controller.PushEvent | App.tsx:98-112 | the counter grows by one and the ledger becomes the new event followed by the old ledger, capped at 50; the ledger stays numbered |
| AppController.Controller.UpdateMetrics | App.tsx:113-131 | events per second, statistics and risk are their one-tick updates; the risk stays in [0, 100] and the latency range is kept |
| AppController.Controller.RiskEffect | App.tsx:137-145 | when the score changed, the level is recomputed and a {time, risk} sample is appended, keeping the last 30; otherwise nothing changes |
| AppController.Controller.Tick | App.tsx:58-145 | paused, nothing changes; streaming, the counter advances, the new event leads the capped ledger, and events per second, statistics and risk take their one-tick values, followed by the level/timeline effect |
| AppController.Controller.AnalysisEffect | App.tsx:147-162 | past the gate (level not NORMAL, more than 15000 ms since the last attempt, nothing in flight) the attempt time is recorded even when no CRITICAL event exists, and the first CRITICAL events are sent when there are any; otherwise, at NORMAL with a non-baseline summary, the baseline reasoning returns and mitigation ends |
| AppController.Controller.AnalysisSucceeded | App.tsx:153-155 | the returned reasoning is shown and nothing is in flight |
| AppController.Controller.AnalysisFailed | App.tsx:156 | nothing is in flight and the previous reasoning stays |
| AppController.Controller.RestoreBaseline | App.tsx:158-161 | the baseline reasoning returns and mitigation ends, nothing else changes |
| AppController.Controller.SetScenario | App.tsx:44 | only the scenario changes |
| AppController.Controller.SetStreaming | App.tsx:37 | only the streaming flag changes |
| AppController.Controller.ResetSystem | App.tsx:164-179 | empty ledger, risk 12, NORMAL level, normal scenario, baseline reasoning, no mitigation, no playbook step, baseline statistics; the id counter is not reset |
| AppController.Controller.Reset | App.tsx:164-179 | resetSystem followed by the level/timeline effect, which appends a sample only if the score was not already 12 |
| AppController.Controller.ExecuteMitigation | App.tsx:181-190 | mitigation is on, the four steps and then PROTECTION_VERIFIED are shown in order, the step display ends cleared, and mitigation is not switched off |
| WebSocketClient.ReconnectSchedule | services/websocketService.ts:19-20 | the five reconnect delays are 3000, 6000, 12000, 24000 and 48000 ms, and delays strictly increase with the attempt number |
| WebSocketClient.ThreatStreamWebSocket.constructor | services/websocketService.ts:15-22 | no socket, no handlers, no attempts, no timer, not manually closed |
| WebSocketClient.ThreatStreamWebSocket.NotifyStatus | services/websocketService.ts:194-202 | every registered status handler is called with the status, in registration order |
| WebSocketClient.ThreatStreamWebSocket.AttemptReconnect | services/websocketService.ts:175-189 | after 5 attempts nothing happens; otherwise the counter grows by one and a timer is set for 3000·2^(n-1) ms |
| WebSocketClient.ThreatStreamWebSocket.Connect | services/websocketService.ts:27-49 | a no-op while OPEN; otherwise the manual flag is cleared and 'connecting' notified, then either a CONNECTING socket exists or, when creation throws, 'error' is notified and a reconnect is attempted |
| WebSocketClient.ThreatStreamWebSocket.ReconnectTimerFires | services/websocketService.ts:186-188 | the timer runs connect: an open socket is left alone; otherwise a socket that opens becomes the connecting socket, and one whose creation throws logs an error and schedules the next backoff attempt |
| WebSocketClient.ThreatStreamWebSocket.Disconnect | services/websocketService.ts:54-67 | manual flag set, pending timer cancelled, socket dropped, 'disconnected' notified |
| WebSocketClient.ThreatStreamWebSocket.Send | services/websocketService.ts:72-78 | the message is transmitted iff the socket is OPEN |
| WebSocketClient.ThreatStreamWebSocket.SendHandshake | services/websocketService.ts:83-89 | a handshake carrying the epoch is transmitted iff the socket is OPEN |
| WebSocketClient.ThreatStreamWebSocket.RequestState | services/websocketService.ts:94-96 | a state request is transmitted iff the socket is OPEN |
| WebSocketClient.ThreatStreamWebSocket.OnMessage | services/websocketService.ts:101-102 | the handler is registered once; registering it again changes nothing |
| WebSocketClient.ThreatStreamWebSocket.UnsubscribeMessage | services/websocketService.ts:103 | exactly that handler is removed, the others stay in order, and the result says whether it was registered |
| WebSocketClient.ThreatStreamWebSocket.OnStatus | services/websocketService.ts:109-110 | the handler is registered once; registering it again changes nothing |
| WebSocketClient.ThreatStreamWebSocket.UnsubscribeStatus | services/websocketService.ts:111 | exactly that handler is removed, the others stay in order, and the result says whether it was registered |
| WebSocketClient.ThreatStreamWebSocket.HandleOpen | services/websocketService.ts:117-124 | the attempt counter returns to 0 and 'connected' is notified |
| WebSocketClient.ThreatStreamWebSocket.HandleMessage | services/websocketService.ts:129-149 | a parsed non-heartbeat message reaches every message handler in order; a heartbeat or an unparsable message reaches none |
| WebSocketClient.ThreatStreamWebSocket.HandleError | services/websocketService.ts:154-157 | 'error' is notified |
| WebSocketClient.ThreatStreamWebSocket.HandleClose | services/websocketService.ts:162-170 | 'disconnected' is notified, and a reconnect is scheduled only when the close was not manual and fewer than 5 attempts were made |
| WebSocketClient.ThreatStreamWebSocket.GetStatus | services/websocketService.ts:207-221 | 'connected' iff the socket is OPEN, 'connecting' iff it is CONNECTING, never 'error' |
| TypeMappers.MapSeverity | typeMappers.ts:36-51 | the result is the value's own severity or INFO |
| TypeMappers.MapSeverityRoundTrip | typeMappers.ts:36-51 | every severity maps back from its wire name |
| TypeMappers.MapSeverityUnknown | typeMappers.ts:48-49 | an unlisted value maps to INFO |
| TypeMappers.MapThreatType | typeMappers.ts:56-76 | PHISHING and MALWARE give File Access, NETWORK_ANOMALY gives Firewall Event, DATA_EXFILTRATION and every unlisted type give API Request, each other listed type its own event type; Login and SQL Injection are never produced |
| TypeMappers.DdosAttackShownAsApiRequest | typeMappers.ts:56-76 | the back end's DDOS_ATTACK and SQL_INJECTION values are not in the front end's list and are shown as API Request |
| TypeMappers.MapStatus | typeMappers.ts:81-95 | BLOCKED iff auto-blocked; otherwise SUSPICIOUS for CRITICAL/HIGH, FAILURE for MEDIUM, SUCCESS for anything else |
| TypeMappers.SuccessMeansLowOrInfo | typeMappers.ts:81-95 | an event shown as SUCCESS has severity LOW or INFO |
| TypeMappers.GetCoordinates | typeMappers.ts:100-103 | a present, non-empty, listed code gives its table entry; anything else gives [0, 0] |
| TypeMappers.CountryLabel | typeMappers.ts:118 | the country is the code, else the name, else "Unknown", and never empty |
| TypeMappers.MapThreatToEvent | typeMappers.ts:108-122 | id, source IP, description, timestamp and MITRE id are kept; userId is "threat_" plus the last 8 characters of the id (all of it if shorter); severity, status, type, country and coordinates come from the mappers above |
| TypeMappers.MapStats | typeMappers.ts:127-135 | fields are carried over and a missing latency history becomes [] |
| TypeMappers.Octet | typeMappers.ts:149 | `Math.floor(r*255)` is a decimal numeral below 255 |
| TypeMappers.DottedQuadSplit | typeMappers.ts:149 | an address built from four octets splits on "." into four numerals |
| TypeMappers.RandomIp | typeMappers.ts:149 | four random octets joined by "." form a dotted quad |
| TypeMappers.CreateSimulationEvent | typeMappers.ts:140-212 | the id is "SIM-" plus the clock; a known scenario gives its own template (its key as event type and metadata scenario), an unknown one the normal template; normal events use the listed types, ports and protocols and 10.0.x addresses; ransomware comes from 10.0.0.x and the other attacks from a dotted quad |
| GeminiService.ContextOf | geminiService.ts:11-19 | one context entry per event, in order, projecting the seven fields |
| GeminiService.AnalyzeThreat | geminiService.ts:7-64 | at least one and, from retry count 0, at most 4 model calls, with one wait between consecutive calls |
| GeminiService.Attempts | geminiService.ts:27-63 | the retry recursion makes at most 3 - retryCount retries |
| GeminiService.AttemptsWaits | geminiService.ts:52 | the wait before retry k is 2^k·2000 ms |
| GeminiService.AttemptsRetries | geminiService.ts:51 | a retry happens only after a 429 failure with retryCount < 3 |
| GeminiService.AttemptsResult | geminiService.ts:49-62 | the result is the last reply, or the fixed throttled reasoning when the last call failed with a non-429 error or with a 429 after three retries |
| GeminiService.AnalyzeThreatOutcome | geminiService.ts:7-64 | the wait, retry and result facts above, for the full call on the events' context |
| GeminiService.AnalyzeThreatBackoff | geminiService.ts:51-53 | from retry count 0 there are at most 4 calls and the waits are a prefix of 2000, 4000, 8000 |
| GeminiService.NoRetryOnOtherErrors | geminiService.ts:50-62 | a non-429 failure gives the throttled reasoning after one call, with no wait |
| GeminiService.GenerateForensicReport | geminiService.ts:83-108 | a reply gives the report; every failure is passed on unchanged rather than replaced by a default |
| TopSources.GroupSources | components/TopSources.tsx:11-18 | the reduce loop builds exactly the groups of `SourceGroups` |
| TopSources.SourceGroups | components/TopSources.tsx:11-18 | one group per distinct source IP, in first-seen order, and the counts add up to the number of events |
| TopSources.GroupContents | components/TopSources.tsx:12-16 | a group's count is the number of events from its IP, its country is the first such event's, and its severity is CRITICAL iff one of its events is CRITICAL, else the first event's |
| TopSources.GroupsDomain | components/TopSources.tsx:11-18 | the groups are keyed by exactly the IPs that occur |
| TopSources.KeysGrouped | components/TopSources.tsx:20 | every first-seen IP has a group labelled with that IP |
| TopSources.SumCountsValues | components/TopSources.tsx:15 | the counts of the groups add up to the occurrences of their IPs |
| TopSources.SortByCount | components/TopSources.tsx:21 | the result is sorted by non-increasing count and is a permutation of the groups |
| TopSources.InsertSorted | components/TopSources.tsx:21 | inserting a group by count keeps the order sorted |
| TopSources.TopRows | components/TopSources.tsx:20-22 | min(6, groups) rows, sorted by count, a sub-multiset of the groups (so distinct groups give distinct rows), and no group left out has a higher count than a shown row |
| TopSources.TopSourceRows | components/TopSources.tsx:11-22 | the rows shown are the top rows of the grouped events |
| TopSources.BarWidth | components/TopSources.tsx:53 | the width is min(100, count·10) percent |
| EventStream.FilteredEvents | components/EventStream.tsx:13-15 | ALL gives the list unchanged; a severity gives an order-preserving subsequence holding exactly the events of that severity, each as often as it occurs in the list |
| ThreatMap.ArcEvents | components/ThreatMap.tsx:56-58 | the first min(15, matches) CRITICAL or HIGH events of the ledger, in ledger order |
| ThreatMap.ArcData | components/ThreatMap.tsx:55-66 | one arc per selected event, from its coordinates to the fixed target, red for CRITICAL and orange for HIGH |
| ThreatMap.RingEvents | components/ThreatMap.tsx:69-71 | the first min(5, matches) CRITICAL events of the ledger, in ledger order |
| ThreatMap.RingsData | components/ThreatMap.tsx:68-76 | one ring per selected event, at its coordinates |
| ThreatMap.RingsAmongArcs | components/ThreatMap.tsx:56-71 | when at most 15 events are CRITICAL or HIGH, every event drawn as a ring is also drawn as an arc |
| LiveKafkaStream.StreamData | components/LiveKafkaStream.tsx:21-27 | the first min(8, n) events in order, each unchanged, item i at xPos 75 - 12·i |
| LiveKafkaStream.SeverityColor | components/LiveKafkaStream.tsx:29-36 | red iff CRITICAL, orange iff HIGH, amber iff MEDIUM, emerald for LOW and INFO |
| DemoControls.FormatTime | components/DemoControls.tsx:61-65 | "mm:ss" whose minutes read back as s/60 and seconds as s%60 (below 60), so mm·60+ss = s; exactly 5 characters below 6000 s |
| DemoControls.DemoPanel.constructor | components/DemoControls.tsx:28-31 | dropdown closed, timer 0 |
| DemoControls.DemoPanel.ScenarioChanged | components/DemoControls.tsx:51-59 | the timer is reset to 0 when the scenario is normal and kept otherwise |
| DemoControls.DemoPanel.Tick | components/DemoControls.tsx:54 | the timer grows by one each second only while an attack runs |
| DemoControls.DemoPanel.HealthyFlow | components/DemoControls.tsx:138-142 | nothing changes when already normal; otherwise normal scenario, dropdown closed, timer 0 |
| DemoControls.DemoPanel.ToggleDropdown | components/DemoControls.tsx:158 | the dropdown flips and nothing else changes |
| DemoControls.DemoPanel.SelectAttack | components/DemoControls.tsx:175 | the chosen attack runs and the dropdown closes |
| DemoControls.DemoPanel.StopAttack | components/DemoControls.tsx:195-199 | normal scenario, dropdown closed, timer 0 |
| DemoControls.DemoPanel.ToggleStreaming | components/DemoControls.tsx:223 | the streaming flag flips |
| DemoControls.DemoPanel.Reset | components/DemoControls.tsx:235 | normal scenario, dropdown closed, timer 0 |
| BackendTypes.ParseSeverity | backend/app/core/gemini_analyzer.py:148 | a value parses iff it is a severity's wire value, and then to that severity |
| BackendTypes.ParseThreatType | backend/app/core/gemini_analyzer.py:149 | a value parses to a threat type iff it is that type's wire value: a parse result has the value, and every type with the value is the result |
| BackendTypes.FindType | backend/app/core/gemini_analyzer.py:149 | the search returns a member with the value, or None when no member has it |
| ThreatProcessor.SeverityPoints | backend/app/services/threat_processor.py:200-207 | 10 points per severity rank: CRITICAL 40, HIGH 30, MEDIUM 20, LOW 10, INFO 0 |
| ThreatProcessor.TypePoints | backend/app/services/threat_processor.py:213-221 | 20 iff brute force, SQL injection, ransomware or DDoS; 15 iff data exfiltration, malware or port scan; 10 otherwise |
| ThreatProcessor.RiskScore | backend/app/services/threat_processor.py:184-227 | always within [0, 100]; the raw sum when it is in range, else the nearer bound |
| ThreatProcessor.RiskScoreUnclamped | backend/app/services/threat_processor.py:209-227 | with confidence in [0, 1] and multiplier in [0, 2] each truncated part lies in [0, 20] and the clamp never bites |
| ThreatProcessor.RiskScoreMonotoneInSeverity | backend/app/services/threat_processor.py:200-207 | with the other inputs fixed, a more severe analysis never scores lower |
| ThreatProcessor.RiskScoreMonotoneInConfidence | backend/app/services/threat_processor.py:210 | with the other inputs fixed, a higher confidence never scores lower |
| ThreatProcessor.ThreatFor | backend/app/services/threat_processor.py:92-116 | the threat carries the event's id and time, the analysis's severity, type and audit ref, the clamped risk score, the geo country, code and zone, the analysis's confidence, description, contextual analysis and MITRE id and name, the measured processing time, and is not auto-blocked |
| ThreatProcessor.ThreatProcessor.constructor | backend/app/services/threat_processor.py:26-37 | all three counters start at 0 |
| ThreatProcessor.ThreatProcessor.AssessEvent | backend/app/services/threat_processor.py:80-116 | the threat is built from the geo lookup and the analyzer's verdict, and the analyzer's request counter grows iff the model is consulted |
| ThreatProcessor.ThreatProcessor.RecordInMetrics | backend/app/services/threat_processor.py:133-150 | the metrics record the event, the threat and the detection time; the processor's threat counter grows iff severity is not INFO |
| ThreatProcessor.ThreatProcessor.RaiseAlert | backend/app/services/threat_processor.py:152-156 | an alert is created, stored and counted iff severity is CRITICAL or HIGH |
| ThreatProcessor.ThreatProcessor.RecordThreat | backend/app/services/threat_processor.py:118-156 | the threat is stored at the front of the capped store; metrics count one more threat, the index takes its step, the new timeline point ends the last 30 and the processing time ends the last detection times; the counters advance; and an alert is created iff severity is CRITICAL or HIGH |
| ThreatProcessor.ThreatProcessor.ProcessEvent | backend/app/services/threat_processor.py:41-182 | a stale-epoch event is dropped and an event without a source IP rejected, both changing nothing; an accepted event adds one to events processed, consults the model once iff the analyzer would, builds the threat from the verdict and the geo lookup, stores it, counts it as a threat iff not INFO, updates the metrics (threat count, risk index, timeline, detection times), and creates and stores an alert iff CRITICAL or HIGH |
| ThreatProcessor.ThreatProcessor.GetStats | backend/app/services/threat_processor.py:229-236 | the counters as they are, with alerts <= threats <= events |
| MetricsService.SeverityWeight | backend/app/services/metrics_service.py:107-115 | weights in [0, 15], zero exactly for INFO, 15 for CRITICAL |
| MetricsService.SeverityWeightMonotone | backend/app/services/metrics_service.py:107-113 | a more severe threat never weighs less |
| MetricsService.RiskContribution | backend/app/services/metrics_service.py:105-120 | with confidence in [0, 1] the contribution lies between 0 and the severity's weight |
| MetricsService.NextIndex | backend/app/services/metrics_service.py:52-125 | one index step, the threat update of line 52 or the decay of line 125: a threat leaves the index in [0, 100] and, with non-negative confidence, never lowers it below min(index, 100); decay never goes below 10 and never raises an index of at least 10 |
| MetricsService.IndexStaysInBand | backend/app/services/metrics_service.py:33-125 | from the initial index 10 (line 33), or any index in [10, 100], any sequence of threats with non-negative confidence and decays keeps it in [10, 100] |
| MetricsService.RiskLevel | backend/app/services/metrics_service.py:127-136 | CRITICAL iff >= 86, SUSPICIOUS iff in [61, 86), ELEVATED iff in [31, 61), NORMAL iff < 31 |
| MetricsService.AverageDetectionTime | backend/app/services/metrics_service.py:87 | 120 when there are no samples, else the truncated mean |
| MetricsService.AverageWithinBounds | backend/app/services/metrics_service.py:87 | the mean of samples in [lo, hi] lies in [lo, hi] |
| MetricsService.SumBounds | backend/app/services/metrics_service.py:87 | samples in [lo, hi] sum to between lo·n and hi·n |
| MetricsService.MetricsService.constructor | backend/app/services/metrics_service.py:18-34 | counters 0, empty lists, index 10, trend STABLE |
| MetricsService.MetricsService.RecordEventProcessed | backend/app/services/metrics_service.py:38-40 | events processed grows by one |
| MetricsService.MetricsService.RecordThreat | backend/app/services/metrics_service.py:42-59 | threats grow by one, the index takes its clamped step, and the new point ends the timeline, of which the last 30 are kept |
| MetricsService.MetricsService.RecordAlert | backend/app/services/metrics_service.py:61-63 | alerts grow by one |
| MetricsService.MetricsService.RecordDetectionTime | backend/app/services/metrics_service.py:65-69 | the sample ends the list, of which the last 100 are kept |
| MetricsService.MetricsService.DecayRiskIndex | backend/app/services/metrics_service.py:122-125 | the index becomes max(10, 0.98·index): never below 10, never raised from at least 10 |
| MetricsService.MetricsService.GetCurrentRiskIndex | backend/app/services/metrics_service.py:71-79 | the value is int(index), in [0, 100], with its level band and the trend |
| MetricsService.MetricsService.GetRiskTimeline | backend/app/services/metrics_service.py:81-83 | the timeline's points, in order |
| MetricsService.MetricsService.GetDashboardStats | backend/app/services/metrics_service.py:85-97 | counters as they are; with no samples the default time 120 and the default history; otherwise the truncated mean and the last 15 samples |
| AlertService.DeterminePriority | backend/app/services/alert_service.py:76-95 | CRITICAL gives P1; HIGH gives P1 iff risk >= 80, else P2; MEDIUM gives P2 iff risk >= 60, else P3; P4 exactly for LOW and INFO |
| AlertService.PriorityMonotoneInRisk | backend/app/services/alert_service.py:89-93 | for a fixed severity, a higher risk never gives a less urgent priority |
| AlertService.PriorityMonotoneInSeverity | backend/app/services/alert_service.py:86-95 | for a fixed risk, a more severe threat never gives a less urgent priority |
| AlertService.AlertFor | backend/app/services/alert_service.py:31-45 | status NEW, the threat's id, severity value, IP, country and MITRE id, title "TYPE: description", and the priority of its severity and risk |
| AlertService.ResolutionStatus | backend/app/services/alert_service.py:67 | RESOLVED iff the resolution is "RESOLVED", FALSE_POSITIVE for every other string |
| AlertService.AlertService.constructor | backend/app/services/alert_service.py:17-19 | the service uses the shared store |
| AlertService.AlertService.CreateAlert | backend/app/services/alert_service.py:21-50 | the alert built for the threat is stored at the front of the alerts |
| AlertService.AlertService.AcknowledgeAlert | backend/app/services/alert_service.py:52-63 | true iff the id exists; the first alert with it becomes ACKNOWLEDGED and assigned; an unknown id changes nothing |
| AlertService.AlertService.ResolveAlert | backend/app/services/alert_service.py:65-74 | true iff the id exists; the first alert with it takes the resolution's status; an unknown id changes nothing |
| AlertService.UpdateSetsStatus | backend/app/services/firestore_service.py:82-89 | after an update of a known id, the first alert with it has the new status and every other alert is unchanged |
| FirestoreService.FirstAlertIndex | backend/app/services/firestore_service.py:82-83 | the index of the first alert with the id, or None iff there is none |
| FirestoreService.WithStatus | backend/app/services/firestore_service.py:84-87 | the status is set; assignee and time only when the analyst id is non-empty |
| FirestoreService.AlertsAfterUpdate | backend/app/services/firestore_service.py:80-90 | same length and ids, and every alert with another id is unchanged |
| FirestoreService.OfSeverity | backend/app/services/firestore_service.py:58 | exactly the threats of the given severity, each as often as in the store, in store order |
| FirestoreService.CountBy | backend/app/services/firestore_service.py:97-106 | the counting loop gives the keys in first-seen order and each key's number of occurrences |
| FirestoreService.DistributionsAddUp | backend/app/services/firestore_service.py:92-112 | each distribution's counts add up to the total number of threats |
| FirestoreService.FirestoreService.constructor | backend/app/services/firestore_service.py:23-27 | both lists start empty |
| FirestoreService.FirestoreService.StoreThreat | backend/app/services/firestore_service.py:31-39 | the threat goes to the front and at most 1000 threats are kept, dropping the oldest |
| FirestoreService.FirestoreService.GetThreat | backend/app/services/firestore_service.py:46-51 | the first (most recent) threat with the id, or None iff there is none |
| FirestoreService.FirestoreService.GetRecentThreats | backend/app/services/firestore_service.py:53-60 | an order-preserving subsequence; with a severity, the first min(limit, matches) threats of that severity in store order, and for a negative limit all but the last -limit of them; without one, the Python prefix of `limit` |
| FirestoreService.FirestoreService.StoreAlert | backend/app/services/firestore_service.py:62-67 | the alert goes to the front, with no cap |
| FirestoreService.FirestoreService.GetActiveAlerts | backend/app/services/firestore_service.py:72-78 | the first min(limit, active) NEW, ACKNOWLEDGED or INVESTIGATING alerts in store order, and for a negative limit all but the last -limit of them |
| FirestoreService.FirestoreService.UpdateAlertStatus | backend/app/services/firestore_service.py:80-90 | true iff an alert has the id; only the first one changes; a miss changes nothing |
| FirestoreService.FirestoreService.GetThreatStats | backend/app/services/firestore_service.py:92-112 | the total is the number of threats, and each distribution maps exactly the occurring severities or types to their counts |
| PlaybookService.InitialPlaybooks | backend/app/services/playbook_service.py:22-94 | exactly pb-brute-001, pb-ddos-001 and pb-sql-001, each keyed by its own id with actions "1" and "2"; only pb-sql-001 is not auto-executed |
| PlaybookService.ExecuteAction | backend/app/services/playbook_service.py:138-148 | a simulated action always succeeds |
| PlaybookService.PlaybookService.constructor | backend/app/services/playbook_service.py:17-20 | the built-in playbooks and no executions |
| PlaybookService.PlaybookService.ExecutePlaybook | backend/app/services/playbook_service.py:96-136 | an unknown id fails and records nothing; otherwise every action id lands among the executed in playbook order, none fail, the run is COMPLETED and exactly one record is appended |
| PlaybookService.PlaybookService.GetPlaybooks | backend/app/services/playbook_service.py:150-152 | the three playbooks, in declaration order |
| PlaybookService.PlaybookService.GetExecutionHistory | backend/app/services/playbook_service.py:154-156 | the oldest min(limit, n) records in insertion order (a negative limit drops from the end) |
| GeoService.GuessedCodesInTable | backend/app/services/geo_service.py:13-34 | every code the heuristic can guess has an entry in the coordinate table |
| GeoService.Band | backend/app/services/geo_service.py:96-115 | the first-octet ladder always gives a guessable code |
| GeoService.BandHostile | backend/app/services/geo_service.py:98-113 | the guess is a hostile country iff the first octet is in 51-100 or 181-220 |
| GeoService.GuessCountryFromIp | backend/app/services/geo_service.py:83-117 | not four parts, or a non-numeric first part, gives US; otherwise the first-octet band |
| GeoService.LookupIp | backend/app/services/geo_service.py:43-81 | an address with a private prefix gives the Internal record; otherwise the guessed code with its own table entry, its zone and its multiplier, which is at least 1 |
| GeoService.GetCountryCoords | backend/app/services/geo_service.py:119-122 | the entry's coordinates, or the US coordinates for an unlisted code |
| GeoService.GetCountryName | backend/app/services/geo_service.py:124-129 | the entry's name, or "Unknown" |
| IpUtils.IsPrivateIp | backend/app/utils/ip_utils.py:8-22 | true iff the input parses and is private |
| IpUtils.IsValidIp | backend/app/utils/ip_utils.py:25-39 | true iff the input parses |
| IpUtils.GetIpType | backend/app/utils/ip_utils.py:42-62 | invalid iff unparsable, loopback before private, public otherwise |
| IpUtils.ClassifySourceZone | backend/app/utils/ip_utils.py:65-95 | INTERNAL iff private or loopback; otherwise HOSTILE iff the code is RU, CN, KP or IR; never TRUSTED |
| IpUtils.CountryRiskMultiplier | backend/app/utils/ip_utils.py:98-117 | RU 1.5, CN 1.4, KP 1.8, IR 1.3, anything else 1.0, so always >= 1 |
| IpUtils.MaskIp | backend/app/utils/ip_utils.py:120-140 | input without four dot-parts gives "***.***.***.*" |
| IpUtils.MaskIpParts | backend/app/utils/ip_utils.py:131-136 | on four parts and 0 <= k <= 4 the first k parts are kept and the rest become "*" |
| MitreMapping.NamesShape | backend/app/utils/mitre_mapping.py:8-97 | exactly 8 distinct known ids, each name entry under its own id |
| MitreMapping.DetailsShape | backend/app/utils/mitre_mapping.py:8-97 | each tactic/description entry sits under its own id |
| MitreMapping.FindKnown | backend/app/utils/mitre_mapping.py:113 | lookup succeeds in both columns iff the id is known |
| MitreMapping.FindKnownName | backend/app/utils/mitre_mapping.py:113 | the name column has an entry iff the id is known |
| MitreMapping.BaseId | backend/app/utils/mitre_mapping.py:111 | an id without "." is its own base |
| MitreMapping.GetMitreInfo | backend/app/utils/mitre_mapping.py:100-113 | an entry iff the base id is known, and the entry's id is that base id |
| MitreMapping.SubTechniqueIgnored | backend/app/utils/mitre_mapping.py:111-113 | "T1110.001" and "T1110" give the same entry |
| MitreMapping.TechniqueName | backend/app/utils/mitre_mapping.py:126-128 | a name iff the base id is known |
| MitreMapping.TechniqueNameOfInfo | backend/app/utils/mitre_mapping.py:126-128 | the name is the entry's technique name |
| MitreMapping.GetTechniqueName | backend/app/utils/mitre_mapping.py:116-129 | the entry's name, or the input id itself for an unknown id |
| MitreMapping.GetTactic | backend/app/utils/mitre_mapping.py:132-145 | the entry's tactic iff the id is known, else None |
| MitreMapping.EnrichWithMitre | backend/app/utils/mitre_mapping.py:148-177 | None or "" gives three Nones; otherwise the id is kept with its suffix, and name and tactic are present together, exactly for known ids |
| GeminiAnalyzer.StripFences | backend/app/core/gemini_analyzer.py:133-136 | the result contains no fence, and text without a fence is unchanged |
| GeminiAnalyzer.StripJsonBlock | backend/app/core/gemini_analyzer.py:133-134 | a "```json" block yields exactly its body |
| GeminiAnalyzer.StripPlainBlock | backend/app/core/gemini_analyzer.py:135-136 | a plain fenced block yields exactly its body |
| GeminiAnalyzer.MitreName | backend/app/core/gemini_analyzer.py:141-145 | a name iff the id is present, non-empty and known, and then the table's technique name |
| GeminiAnalyzer.ModelAnswer | backend/app/core/gemini_analyzer.py:138-158 | a result iff the reply decodes and its severity and type parse; it carries the decoded description, contextual analysis, recommended actions and other fields, the MITRE name and audit ref VERTEX-AI-GEMINI |
| GeminiAnalyzer.ReplaceChar | backend/app/core/gemini_analyzer.py:179 | same length, no underscore left, other characters kept |
| GeminiAnalyzer.ForcedNormal | backend/app/core/gemini_analyzer.py:174-186 | INFO, NORMAL_TRAFFIC, confidence 0.95, no MITRE, audit ref HEALTHY-FLOW, description "Normal <type with spaces> activity" |
| GeminiAnalyzer.FallbackTablesShareKeys | backend/app/core/gemini_analyzer.py:189-220 | both tables have the same 13 distinct keys |
| GeminiAnalyzer.FallbackSeverity | backend/app/core/gemini_analyzer.py:222 | an unlisted type defaults to MEDIUM |
| GeminiAnalyzer.FallbackType | backend/app/core/gemini_analyzer.py:223 | an unlisted type defaults to AUTHENTICATION |
| GeminiAnalyzer.AttackSeverity | backend/app/core/gemini_analyzer.py:190-194 | the five attack types are CRITICAL |
| GeminiAnalyzer.AttackType | backend/app/core/gemini_analyzer.py:207-211 | the five attack types map to attack threat types |
| GeminiAnalyzer.RuleBased | backend/app/core/gemini_analyzer.py:169-236 | confidence 0.5, audit ref FALLBACK-ENGINE, no MITRE, signals [source IP or "unknown"], "Event detected: <type>", MEDIUM/AUTHENTICATION for unlisted types |
| GeminiAnalyzer.RuleBasedAttacksCritical | backend/app/core/gemini_analyzer.py:189-220 | brute_force, sql_injection, ddos, ransomware and malware are classed CRITICAL attacks |
| GeminiAnalyzer.Verdict | backend/app/core/gemini_analyzer.py:88-167 | a normal-scenario event gets the forced-normal result; otherwise the model's answer when configured and usable, and the rule-based fallback when unconfigured or on any decode or parse failure |
| GeminiAnalyzer.ThreatAnalyzer.constructor | backend/app/core/gemini_analyzer.py:28-49 | the model is configured iff the project id is set, not the placeholder, and initialisation succeeds; no requests yet |
| GeminiAnalyzer.ThreatAnalyzer.Analyze | backend/app/core/gemini_analyzer.py:88-167 | the verdict, and the request counter grows by one iff the model is consulted |
| Config.CorsOriginsList | backend/app/config.py:79-81 | (commas + 1) origins, the k-th being the k-th comma-separated piece stripped at both ends; none holds a comma, empty ones are kept |
| Config.SingleOrigin | backend/app/config.py:79-81 | a value without commas gives one stripped origin |
| Config.TrimmedSingleOrigin | backend/app/config.py:79-81 | a comma-free value with no surrounding whitespace is its own single origin |
| Config.DefaultOrigins | backend/app/config.py:55 | the default settings allow exactly the origin http://localhost:3000 |
| Text.Strip | backend/app/config.py:81 | the result is a slice of the input that starts and ends with a non-space, with only whitespace cut on either side |
| Text.StripUnchanged | backend/app/config.py:81 | a non-empty string with no whitespace at its ends is unchanged |
| Config.StrippedPiecesCommaFree | backend/app/config.py:80 | stripping pieces that hold no comma leaves them comma-free |
| Config.KafkaConfig | backend/app/config.py:84-102 | the four consumer keys are always there with their settings; the four SASL keys are added iff key and secret are both non-empty, with the key and secret as username and password |
| Config.KafkaProducerConfig | backend/app/config.py:105-120 | no consumer key; bootstrap servers always; SASL keys iff credentials |
| Config.ProducerIsConsumerWithoutGroupKeys | backend/app/config.py:84-120 | the producer config is the consumer config minus the group, offset and commit keys |
| ConnectionManager.ConnectionManager.constructor | backend/app/api/websocket/manager.py:17-19 | no connections |
| ConnectionManager.ConnectionManager.Connect | backend/app/api/websocket/manager.py:21-25 | the socket joins the end and the count grows by one |
| ConnectionManager.ConnectionManager.Disconnect | backend/app/api/websocket/manager.py:27-31 | the first occurrence leaves and the count drops by one; an unknown socket changes nothing |
| ConnectionManager.ConnectionManager.Broadcast | backend/app/api/websocket/manager.py:33-54 | with no connections nothing happens; otherwise exactly the connections whose send failed are removed and the rest stay in order |
| ConnectionManager.SurvivorsOfBroadcast | backend/app/api/websocket/manager.py:52-54 | the survivors are an ordered subsequence in which a failed socket occurs zero times and every other as often as before |
| ConnectionManager.RemoveFailedKeepsSurvivors | backend/app/api/websocket/manager.py:53-54 | removing a failed socket keeps every surviving one |
| ConnectionManager.RemoveFailedFromFailures | backend/app/api/websocket/manager.py:53-54 | removing a failed socket removes exactly its first occurrence among the failed ones |
| ConnectionManager.NoFailuresLeft | backend/app/api/websocket/manager.py:52-54 | once no failed socket remains, the registry is exactly its surviving connections |
| ConnectionManager.ConnectionManager.SendToClient | backend/app/api/websocket/manager.py:56-62 | a failed send drops the socket; a successful one changes nothing |
| ConnectionManager.ConnectionManager.GetConnectionCount | backend/app/api/websocket/manager.py:75-77 | the number of registered connections |

## Left out

- Rendering, styling, animation, dragging and minimising the demo panel, the drawer timers and the other presentation components: they hold no state logic.
- Timers and intervals are method calls. `setInterval`, `setTimeout`, the 1.2 s mitigation dwell, the 3 s clear and the reconnect timer id become explicit calls or parameters.
- `Math.random`, `Date.now`, `datetime.now` and uuid generation are parameters. Random draws are reals in [0, 1); clocks and ids are given values.
- Floating-point numbers are Dafny `real`. IEEE rounding of the drift, the 0.98 decay, the multipliers and `int(confidence*20)` is not modelled; Python `int()` on a float is truncation toward zero.
- Python `ipaddress` parsing is an abstract classification (`IpUtils.IpFacts`): not an address, or an address with its loopback and private flags.
- GeoService.GuessCountryFromIp: the lenient Python `int()` in the country heuristic is not modelled, and only ASCII digit strings parse. Python also accepts a sign, surrounding whitespace, underscores between digits and Unicode decimal digits.
- The Gemini and Vertex AI calls and `json.loads` are parameters: the reply text and a decoding function. The prompt builders `_build_analysis_prompt` and the prompt text of `geminiService.ts` are not modelled.
- GeminiService.AnalyzeThreat: the client construction and the mapping of events to their context run before the `try` in `analyzeThreat` (geminiService.ts:8-25); their throwing, which would reject the promise, is not modelled.
- `GeminiThreatAnalyzer.get_metrics` only echoes settings and the request counter, which the model keeps as a field; the settings are not modelled.
- The rate-limit semaphore in `analyze` is not modelled; it does not change results.
- Pydantic validation is reduced to the one failure the pipeline can hit: an event without a source IP is rejected. Other model fields are carried as given.
- ThreatProcessor.ThreatProcessor.ProcessEvent: the Kafka publications and WebSocket broadcasts inside `process_event`, the logging and the measured processing time are left out or given as parameters. The current scenario id is an explicit optional parameter. `process_event` imports `CURRENT_SCENARIO_ID` from `app.main` (backend/app/services/threat_processor.py:65), which does not define it, so as written every call would raise an ImportError inside the try; the handler at lines 179-181 logs and re-raises it. The model instead treats the id as given, which is the evident intent (not executed).
- ThreatProcessor.ThreatProcessor.GetStats: the nested `analyzer_stats` entry is not reported.
- ThreatProcessor.SeverityPoints: the default of 10 for an unknown severity is unreachable because severities are an enum, so it is not modelled.
- MetricsService.RiskContribution: the default weight of 1.0 for an unknown severity is unreachable for the same reason.
- MetricsService: `start_aggregation` is the loop that calls `DecayRiskIndex` every 30 s; only the step is modelled. The trend stays "STABLE" because no code changes it.
- ConnectionManager: `heartbeat_loop` is only a timed call of `Broadcast`; only the broadcast is modelled.
- Each WebSocket is modelled by its identity, and a send's failure is given as the set of failing sockets.
- WebSocketClient: the browser socket is reduced to its ready state. What a handler does is not modelled; the model records each call made to one. `getWebSocketService`'s singleton is not modelled.
- DemoControls.DemoPanel.HealthyFlow: the button is also `disabled` whenever a scenario other than normal runs, so it never acts; the model states the click handler, not the disabled attribute.
- EventStream: `getSeverityStyles` is presentation only. The same holds for LiveKafkaStream's `getSeverityLabel` and its 50 ms animation ticker.
- AppController: push-channel messages and handshakes are not consumed or sent by `App.tsx`, so none are modelled there.
- GeminiAnalyzer.MitreName: the name comes from the table's name column, which `MitreMapping.TechniqueNameOfInfo` proves equal to `get_mitre_info`'s `technique_name`.
- MitreMapping: the table is held as two columns, names and tactic/description, keyed by the same ids in the same order (`MitreMapping.NamesShape`, `MitreMapping.DetailsShape`).
- Strings are `seq<char>`. `lower()` and `strip()` handle ASCII only. `Text.IsSpace` holds the ASCII characters Python counts as whitespace: space, tab, line feed, vertical tab, form feed, carriage return and 0x1C to 0x1F.
- Text.Strip: non-ASCII whitespace that Python's `str.strip()` also removes, such as U+0085, U+00A0 and U+3000, is not stripped by the model.
- BackendTypes.ThreatType: `app/models/threat.py`, which defines the back end's enums, is not part of this model. The thirteen threat types are taken from the analyzer's prompt and its fallback tables (backend/app/core/gemini_analyzer.py:64 and 207-219). If the enum has further members, such as the PHISHING, DDOS and SUSPICIOUS_ACTIVITY that `backendTypes.ts` lists, `ThreatType(...)` accepts such a reply from the model. `BackendTypes.ParseThreatType`, `GeminiAnalyzer.ModelAnswer` and `GeminiAnalyzer.Verdict` send it to the rule-based fallback instead.
- BackendTypes.Threat: the record leaves out `destination_ip`, `destination_port`, `contributing_signals`, `recommended_actions` and `analyzed_at`, which `process_event` sets (backend/app/services/threat_processor.py:102-113). The model does not state what those fields hold.
- TypeMappers.GetCoordinates: `COUNTRY_COORDS[countryCode] || [0, 0]` (typeMappers.ts:102) reads a plain object literal. A code naming an `Object.prototype` member, such as "constructor", "toString" or "__proto__", finds that member in JavaScript. The model gives [0, 0] for every code not in the table.
- TypeMappers.CreateSimulationEvent: `scenarios[scenario] || scenarios.normal` (typeMappers.ts:211) has the same lookup. A scenario named after an `Object.prototype` member does not fall back to the normal template in JavaScript, as the model's contract says it does.
- TopSources.GroupSources: the accumulator `acc[curr.sourceIp]` starts as `{}` (components/TopSources.tsx:12-16). A source IP naming an `Object.prototype` member would find that member rather than start a new group. The model treats every IP as a fresh key.
- Front-end concurrency: `handleExecuteMitigation` awaits 1.2 s between its steps (App.tsx:181-190), so interval ticks and other handlers can run in between. `AppController.Controller.ExecuteMitigation` runs the whole sequence as one call, and does not capture ticks that change the ledger, risk or statistics mid-playbook.
- Concurrency: `app.main` runs the Kafka consumer, `heartbeat_loop` and `start_aggregation` as concurrent asyncio tasks (backend/app/main.py:59, 71 and 72). Each async method is modelled as running to completion without interleaving. The model therefore does not capture two effects:
  - a `DecayRiskIndex` landing between the awaits of `process_event` (backend/app/services/threat_processor.py:84-165), after which the metrics no longer match what `ThreatProcessor.ThreatProcessor.ProcessEvent` ensures;
  - two `Broadcast`s interleaving on `active_connections` (backend/app/api/websocket/manager.py:33-54), where one removes sockets while the other's loop is suspended at `send_json`.
- TopSources.SortByCount: `Array.prototype.sort` is stable, but the model does not state the order among groups with equal counts. `TopSources.TopRows` therefore leaves open which of several tied groups is kept at the sixth row.
- Step methods that split one source function so each proof stays small:
  - `AppController.Controller.PushEvent`, `UpdateMetrics` and `RiskEffect` together make one tick;
  - `ThreatProcessor.ThreatProcessor.AssessEvent`, `RecordThreat`, `RecordInMetrics` and `RaiseAlert` together make `process_event`.
