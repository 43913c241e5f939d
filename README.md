# Archestra Sentinel — a verified model of its core

Archestra Sentinel is an AI-agent governance console. It has two parts:

- A Python backend scans the Docker containers on a host. It classifies each as sanctioned (its name or image mentions "archestra") or as shadow AI. It scores each container's risk, summarises threat level, health and costs, and raises one alert per container.
- A React frontend shows discovery, security, audit-log and executive dashboards. They run over a mock service layer with typed-confirmation dialogs for the kill switch and for server actions.

This project models that core in Dafny and proves what each part promises. It has one module per source file and three shared helper modules:

- `Base`: Option and Result.
- `Seqs` and `Reals`: filtering and counting, and the real-number share arithmetic.
- `Text`: ASCII lower-casing, substring search, decimal rendering and `padStart`.

How the source's constructs are modelled:

- Code that updates state in place becomes classes with `modifies` clauses:
  - the logger singleton;
  - the live-log counter;
  - `localStorage`;
  - the audit log page's `logs`/`newIds` state;
  - the confirmation text of the dialogs;
  - the discovery and security page state hooks.
- Loops become methods whose loop invariants tie them to specification functions: the risk accumulator, the scanner loop, the alert loop and the cost loop.
- Expressions and `filter` chains become functions with lemmas.

External inputs are parameters:

- Docker is the list of containers the client reports, or `None` when the connection failed.
- Clock readings (`datetime.now()`, `new Date()`) are strings.
- Each `Math.random()` draw is a real in [0, 1).
- An interval tick or a timeout firing is a method call.

## Model

| member | source | states |
|---|---|---|
| RiskEngine.FirstSegment | sentinel-backend/core/risk_engine.py:48 | the registry part of an image name is the prefix of the name that ends at the first "/" (and excludes it), the whole name when it has no "/" |
| RiskEngine.RiskScore | sentinel-backend/core/risk_engine.py:14-51 | the score lies in 0..100 and is either the sum of the five factors or the cap 100 |
| RiskEngine.CalculateRiskScore | sentinel-backend/core/risk_engine.py:3-51 | the step-by-step accumulator (privileged, root user, first critical port then break, healthcheck, first image tag, min with 100) returns exactly RiskScore |
| RiskEngine.CapReachable | sentinel-backend/core/risk_engine.py:14-51 | the factors can sum to 115, so the cap of 100 is reached |
| RiskEngine.PrivilegedAddsForty | sentinel-backend/core/risk_engine.py:17-19 | the privileged flag adds 40 before the cap; without it the other factors stay at most 75, so the cap is never hit |
| RiskEngine.RootUserAddsThirty | sentinel-backend/core/risk_engine.py:23-26 | a missing User, "", "0" and "root" add 30; every other user, for example "1000", adds nothing |
| RiskEngine.CriticalPortsAddAtMostTwenty | sentinel-backend/core/risk_engine.py:30-37 | exposed critical ports add 20 exactly when one of 22/tcp, 2375/tcp, 23/tcp is exposed, and never more than 20 |
| RiskEngine.OnlyFirstTagCounts | sentinel-backend/core/risk_engine.py:46-49 | only the first image tag is examined; an empty tag list adds nothing |
| RiskEngine.ScoreMonotone | sentinel-backend/core/risk_engine.py:14-51 | switching factors on never lowers the raw or the capped score |
| EventLogger.LoggedShape | sentinel-backend/core/event_logger.py:26-29 | a log call puts the new entry first, keeps the older entries in order, and drops only the oldest entry, once the list would exceed 50 |
| EventLogger.FullListRepeatsOrdinal | sentinel-backend/core/event_logger.py:16-29 | once 50 entries are kept the length stays 50 and every new id carries ordinal 51 |
| EventLogger.InMemoryLogger.constructor | sentinel-backend/core/event_logger.py:5-6 | the class starts with no instance and an empty shared list |
| EventLogger.InMemoryLogger.Instantiate | sentinel-backend/core/event_logger.py:8-12 | the first construction logs the startup entry; later constructions change nothing |
| EventLogger.InMemoryLogger.Log | sentinel-backend/core/event_logger.py:14-29 | the list becomes the old list with the new entry prepended and trimmed to 50; the new id is `evt_<old length + 1>_<epoch>` |
| EventLogger.InMemoryLogger.GetLogs | sentinel-backend/core/event_logger.py:31-32 | returns the stored list itself, at most 50 entries, each with tool "Docker SDK" and duration 0 |
| EventLogger.ModuleInit | sentinel-backend/core/event_logger.py:34 | importing the module leaves a singleton whose only entry is the startup entry with ordinal 1 |
| Scanner.ImageTags | sentinel-backend/core/scanner.py:36 | the tag list falls back to the image's own text, so it is never empty |
| Scanner.ScanContainers | sentinel-backend/core/scanner.py:21-53 | no client gives an empty list; otherwise one record per container, in order, each the classification of that container |
| Scanner.MarkerInStrRepr | sentinel-backend/core/scanner.py:37-39 | the quotes Python's repr adds to a tag neither create nor hide an "archestra" match |
| Scanner.MarkerInJoin | sentinel-backend/core/scanner.py:37-39 | "archestra" occurs in the lower-cased list text exactly when it occurs in some lower-cased tag |
| Scanner.SanctionedIffMarker | sentinel-backend/core/scanner.py:34-41 | a container is sanctioned iff "archestra" occurs, ignoring case, in its name (None read as "") or in one of its tags |
| Scanner.ClassifyFacts | sentinel-backend/core/scanner.py:29-50 | threat level "Low" iff sanctioned, otherwise "High"; the image is the first tag, and the "unknown" fallback never fires; id and status are copied |
| Observability.MaxOf | sentinel-backend/api/v1/observability.py:15-17 | the maximum of a non-empty list is one of its elements and at least every element |
| Observability.AsWrittenFailsOnAnyContainer | sentinel-backend/api/v1/observability.py:7-51 | as written, the summary of one scanned container fails with AttributeError; only the empty scan succeeds |
| Observability.ThreatLevelThresholds | sentinel-backend/api/v1/observability.py:15-26 | the threat level is "Critical" iff some risk is at least 80, "Low" iff all risks are below 20, and "Low" for an empty scan |
| Observability.ThreatLevelMonotone | sentinel-backend/api/v1/observability.py:19-26 | a larger maximum risk never gives a lower threat level |
| Observability.SummaryCounts | sentinel-backend/api/v1/observability.py:11-34 | the total is the number of containers; the critical count is positive iff some risk is at least 80; the shadow count is positive iff some container is unsanctioned; money saved is 250 per non-running container |
| Observability.HealthRule | sentinel-backend/api/v1/observability.py:37-42 | health is "Critical" iff some container is critical, else "At Risk" iff some is unsanctioned, else "Healthy" |
| Observability.CostShapes | sentinel-backend/api/v1/observability.py:79-94 | each cost row names its container and is 300/0, 350/12 or 400/25; a threat level containing "high" always costs 350 |
| Observability.ScannerLevelsCost | sentinel-backend/api/v1/observability.py:83-88 | for the scanner's two levels, "High" costs 350 with trend 12 and "Low" costs 300 with trend 0; the "critical" branch is unreachable for scanner output |
| Observability.SavingsPercent | sentinel-backend/api/v1/observability.py:102 | the truncated share lies in 0..99 and is 0 exactly when stopped containers are at most 1% of all containers |
| Observability.RunningCostsLength | sentinel-backend/api/v1/observability.py:77-94 | there is one cost row per running container |
| Observability.SortByCostDescCorrect | sentinel-backend/api/v1/observability.py:97 | the sort leaves the rows in non-increasing cost order, as a permutation of its input, with equal-cost rows in their original order (Python's stable sort) |
| Observability.GetCostAnalytics | sentinel-backend/api/v1/observability.py:54-106 | burn rate 300 and projected month 9000 per running container, 250 saved per stopped container, the savings percentage, and the cost rows of the running containers sorted by cost |
| Observability.AgentCostsFacts | sentinel-backend/api/v1/observability.py:76-97 | the returned cost list has one row per running container, ends ordered by non-increasing cost, and keeps equal-cost rows in scan order |
| SecurityApi.AlertIdsDistinct | sentinel-backend/api/v1/security.py:31 | `alert_{i+1}` differs for different positions |
| SecurityApi.GetAlerts | sentinel-backend/api/v1/security.py:19-39 | one alert per container, in order, with id `alert_{i+1}`, severity "medium", the fixed message and timestamp, and the container's name; ids are pairwise distinct |
| MockData.FixturesWellTyped | sentinel-frontend/src/mocks/mockData.ts:3-98 | every fixture value lies in its field's literal union, and the executive totals match the agent and server fixtures |
| MockData.Pick | sentinel-frontend/src/mocks/mockData.ts:110-118 | `xs[Math.floor(r * xs.length)]` always picks an element of `xs` |
| MockData.LiveDuration | sentinel-frontend/src/mocks/mockData.ts:120 | the duration lies in 10..5009 |
| MockData.LiveEntryFacts | sentinel-frontend/src/mocks/mockData.ts:108-122 | a live entry's agent is one of the mock agents, its action, tool and status come from the live lists, its details are fixed and its status is well-typed |
| MockData.LiveLogIdUnpadded | sentinel-frontend/src/mocks/mockData.ts:106-112 | counters from 100 up need no padding |
| MockData.FirstLiveId | sentinel-frontend/src/mocks/mockData.ts:106-112 | the first live id is "log-101" |
| MockData.LiveLogIdsDistinct | sentinel-frontend/src/mocks/mockData.ts:106-112 | different counters from 100 up give different ids |
| MockData.SeedIdsShape | sentinel-frontend/src/mocks/mockData.ts:62-73 | the ten seed ids run from "log-001" to "log-010", are seven characters with a "0" after "log-", and are pairwise distinct |
| MockData.LiveIdNotSeedShaped | sentinel-frontend/src/mocks/mockData.ts:106-112 | from counter 100 on a live id never has the seed shape: its first digit is not "0" |
| MockData.LiveIdNotSeed | sentinel-frontend/src/mocks/mockData.ts:62-112 | no live id equals a seed id |
| MockData.FreshLiveId | sentinel-frontend/src/mocks/mockData.ts:106-112 | the id of a counter value not yet reached differs from every seed id and every live id already issued |
| MockData.LiveLogGenerator.constructor | sentinel-frontend/src/mocks/mockData.ts:106 | the counter starts at 100 |
| MockData.LiveLogGenerator.GenerateLiveLogEntry | sentinel-frontend/src/mocks/mockData.ts:108-122 | increments the counter and returns the entry for the new counter value |
| ServiceApi.ExecuteActionFacts | sentinel-frontend/src/services/serviceApi.ts:116-122 | every action succeeds; the message contains the target id; it starts with "Kill switch" iff the action is "kill", and otherwise quotes the action's name |
| ServiceApi.ActiveAgentsFacts | sentinel-frontend/src/services/serviceApi.ts:106-109 | exactly the agents with status "active" are kept, in their original order |
| ServiceApi.ActiveAgentsMatchExecutiveMetrics | sentinel-frontend/src/services/serviceApi.ts:106-109 | over the fixtures, five agents are active, as the executive metrics report |
| ServiceApi.GetSecurityMetrics | sentinel-frontend/src/services/serviceApi.ts:101-104 | the threat level is the executive metrics' one, a valid level; the six alerts are well-typed |
| ServiceApi.GetLatestLogs | sentinel-frontend/src/services/serviceApi.ts:129-133 | returns one entry when the draw exceeds 0.3, else two, each built by the next generator call from its own clock reading, and advances the counter by the number of entries |
| ServiceApi.LatestBatchIds | sentinel-frontend/src/services/serviceApi.ts:129-133 | a batch holds one or two entries; the first id renders the next counter value and the second the one after |
| ServiceApi.LocalStorage.IsAuthenticated | sentinel-frontend/src/services/serviceApi.ts:146-148 | true iff `auth_token` is present and non-empty |
| ServiceApi.LocalStorage.GetAuthUser | sentinel-frontend/src/services/serviceApi.ts:150-153 | the stored user text iff `auth_user` is present and non-empty, else null |
| ServiceApi.LocalStorage.Logout | sentinel-frontend/src/services/serviceApi.ts:155-158 | both keys are removed and no other key changes; afterwards `getItem` gives null for both, the user is unauthenticated and has no stored user |
| ServiceApi.LocalStorage.SaveSession | sentinel-frontend/src/pages/LoginPage.tsx:17-18 | the two keys are set, so `getItem` returns the token and the user text; the session is authenticated iff the token is non-empty |
| ServiceApi.LocalStorage.LoginThenLogout | sentinel-frontend/src/services/serviceApi.ts:155-158 | a login followed by `logout()` leaves storage as it was before the login minus the two keys: every other key reads as before, and the session ends unauthenticated |
| AuditLogDashboard.IdsOf | sentinel-frontend/src/pages/AuditLogDashboard.tsx:39-49 | the highlighted-id set of a batch is exactly the ids of its entries |
| AuditLogDashboard.AuditLogView.constructor | sentinel-frontend/src/pages/AuditLogDashboard.tsx:22-24 | no data, an empty log, nothing highlighted, no interval, no fetch awaited |
| AuditLogDashboard.AuditLogView.ReceiveSnapshot | sentinel-frontend/src/pages/AuditLogDashboard.tsx:28-57 | a changed snapshot replaces the log, and polling then runs exactly when there is data; the snapshot already held changes nothing, so polled entries survive a refetch of the same data |
| AuditLogDashboard.AuditLogView.IntervalFires | sentinel-frontend/src/pages/AuditLogDashboard.tsx:35-37 | only an installed interval fires, and it starts one `getLatestLogs()` call; nothing else changes |
| AuditLogDashboard.AuditLogView.FetchSettled | sentinel-frontend/src/pages/AuditLogDashboard.tsx:37-53 | a settled call prepends its batch as it is and highlights its ids whether or not the interval is still installed; a rejected call changes nothing but the count of awaited calls |
| AuditLogDashboard.AuditLogView.Tick | sentinel-frontend/src/pages/AuditLogDashboard.tsx:35-55 | with polling on and a successful fetch, the batch is prepended as it is and its ids are added to the highlights; otherwise nothing changes |
| AuditLogDashboard.AuditLogView.Expire | sentinel-frontend/src/pages/AuditLogDashboard.tsx:45-51 | removes exactly that batch's ids from the highlights and changes nothing else |
| AuditLogDashboard.AuditLogView.Teardown | sentinel-frontend/src/pages/AuditLogDashboard.tsx:56 | the interval is cleared; the log, the highlights and the awaited calls are kept |
| AuditLogDashboard.AuditLogView.TickThenExpire | sentinel-frontend/src/pages/AuditLogDashboard.tsx:35-51 | a tick followed by its highlight timeout keeps the batch in the log and restores the earlier highlights when none of the batch's ids was highlighted |
| AuditLogDashboard.AuditLogView.TeardownDuringFetch | sentinel-frontend/src/pages/AuditLogDashboard.tsx:35-56 | a call started before the interval is cleared still prepends and highlights its batch after the clear |
| AuditLogDashboard.SeedLogUnique | sentinel-frontend/src/mocks/mockData.ts:62-73 | the seed log has unique ids, all of them seed ids |
| AuditLogDashboard.BatchIdsDistinct | sentinel-frontend/src/services/serviceApi.ts:129-133 | the two entries of one batch never share an id |
| AuditLogDashboard.BatchIdsFresh | sentinel-frontend/src/pages/AuditLogDashboard.tsx:37-38 | no id of the fetched batch is already in a log whose ids the generator issued |
| AuditLogDashboard.PrependKeepsIdsIssued | sentinel-frontend/src/pages/AuditLogDashboard.tsx:37-38 | after the prepend every id in the log is a seed id or a live id issued by the advanced counter |
| AuditLogDashboard.PrependKeepsIdsUnique | sentinel-frontend/src/pages/AuditLogDashboard.tsx:38 | prepending the generator's next batch keeps every id unique and issued |
| AuditLogDashboard.PollOnce | sentinel-frontend/src/pages/AuditLogDashboard.tsx:35-43 | one poll against the mock service prepends one or two entries and keeps the log's ids unique |
| ConfirmDialogs.StepFacts | sentinel-frontend/src/components/discovery/KillSwitchDialog.tsx:29-68 | a dispatch happens iff the confirm button is enabled, it carries the target's id and clears the text; cancel and close clear the text; typing sets it |
| ConfirmDialogs.RunFacts | sentinel-frontend/src/components/discovery/KillSwitchDialog.tsx:25-68 | over any sequence of events, every dispatched id is the target's; nothing is dispatched while pending or without a target; a non-empty id is dispatched only if the text already equalled it or the user typed it |
| ConfirmDialogs.ResetDisables | sentinel-frontend/src/components/discovery/KillSwitchDialog.tsx:29-67 | after a reset, a target with a non-empty id cannot be confirmed |
| ConfirmDialogs.ConfirmGate.constructor | sentinel-frontend/src/components/discovery/KillSwitchDialog.tsx:25 | the text starts empty |
| ConfirmDialogs.ConfirmGate.Type | sentinel-frontend/src/components/discovery/KillSwitchDialog.tsx:56 | the text becomes what was typed |
| ConfirmDialogs.ConfirmGate.Cancel | sentinel-frontend/src/components/discovery/KillSwitchDialog.tsx:64 | the text is cleared, as the cancel step of the gate |
| ConfirmDialogs.ConfirmGate.OpenChange | sentinel-frontend/src/components/discovery/KillSwitchDialog.tsx:32 | closing clears the text; opening keeps it |
| ConfirmDialogs.ConfirmGate.Confirm | sentinel-frontend/src/components/discovery/KillSwitchDialog.tsx:27-68 | dispatches the target's id and clears the text exactly when the text equals the id and nothing is pending; otherwise nothing changes |
| ConfirmDialogs.LabelFacts | sentinel-frontend/src/components/discovery/ServerActionDialog.tsx:25-44 | the label is the pending text while pending; the server kill reads like the agent kill switch; the two actions are labelled differently |
| DiscoveryDashboard.MatchesFacts | sentinel-frontend/src/pages/DiscoveryDashboard.tsx:96-97 | the empty search matches every item, and an item matches its own id |
| DiscoveryDashboard.FilteredAgentsFacts | sentinel-frontend/src/pages/DiscoveryDashboard.tsx:95-96 | an agent is shown iff its lower-cased name contains the lower-cased search or its id contains the search; order is kept; the empty search shows all; missing data shows none |
| DiscoveryDashboard.FilteredServersFacts | sentinel-frontend/src/pages/DiscoveryDashboard.tsx:95-97 | the same rule for servers |
| DiscoveryDashboard.SearchByIdFindsAgent | sentinel-frontend/src/pages/DiscoveryDashboard.tsx:96 | searching for an agent's id keeps that agent |
| DiscoveryDashboard.ToastAndRequestFacts | sentinel-frontend/src/pages/DiscoveryDashboard.tsx:55-70 | the server toast is error-style iff the action is kill; the agent kill always sends "kill" for that id, which the service reports as a successful kill naming it |
| DiscoveryDashboard.DiscoveryState.constructor | sentinel-frontend/src/pages/DiscoveryDashboard.tsx:47-51 | empty search, no dialog targets, the kill dialog closed and the server dialog's action at its quarantine fallback |
| DiscoveryDashboard.DiscoveryState.SetSearch | sentinel-frontend/src/pages/DiscoveryDashboard.tsx:108 | the search becomes the typed text; the targets are kept |
| DiscoveryDashboard.DiscoveryState.OpenKill | sentinel-frontend/src/pages/DiscoveryDashboard.tsx:153 | the agent becomes the kill target, so the kill dialog (open iff there is a target, line 225) opens |
| DiscoveryDashboard.DiscoveryState.OpenServerAction | sentinel-frontend/src/pages/DiscoveryDashboard.tsx:204-207 | the server and the chosen action become the server target, and the dialog shows that action (line 232) |
| DiscoveryDashboard.DiscoveryState.KillDialogOpenChange | sentinel-frontend/src/pages/DiscoveryDashboard.tsx:227 | closing clears the kill target and so closes the dialog |
| DiscoveryDashboard.DiscoveryState.ServerDialogOpenChange | sentinel-frontend/src/pages/DiscoveryDashboard.tsx:235 | closing clears the server target, so the dialog falls back to quarantine |
| DiscoveryDashboard.DiscoveryState.ConfirmKill | sentinel-frontend/src/components/discovery/KillSwitchDialog.tsx:32-68 | an enabled confirm sends the kill request for the target agent's id, clears the text and closes the dialog, clearing the kill target before the mutation settles; a disabled one changes nothing |
| DiscoveryDashboard.DiscoveryState.CancelKill | sentinel-frontend/src/components/discovery/KillSwitchDialog.tsx:32-64 | cancel clears the text and closes the dialog, clearing the kill target |
| DiscoveryDashboard.DiscoveryState.ConfirmServerAction | sentinel-frontend/src/components/discovery/ServerActionDialog.tsx:56-94 | an enabled confirm sends the selected action for the server's id, clears the text and closes the dialog, clearing the target; a disabled one changes nothing |
| DiscoveryDashboard.DiscoveryState.CancelServerAction | sentinel-frontend/src/components/discovery/ServerActionDialog.tsx:56-90 | cancel clears the text and closes the dialog, clearing the server target |
| DiscoveryDashboard.DiscoveryState.KillSucceeded | sentinel-frontend/src/pages/DiscoveryDashboard.tsx:57-60 | an error toast with the service's message, and the kill target cleared (already cleared when the confirm button closed the dialog) |
| DiscoveryDashboard.DiscoveryState.ServerActionSucceeded | sentinel-frontend/src/pages/DiscoveryDashboard.tsx:65-69 | an error toast for "kill", a warning otherwise, described as "Server <action> executed", and the server target cleared, so the dialog falls back to quarantine |
| SecurityDashboard.FilterAlertsFacts | sentinel-frontend/src/pages/SecurityDashboard.tsx:40-74 | "all" returns the alerts unchanged; any other filter returns exactly the alerts of that severity, in order; a severity's count is its filter's length |
| SecurityDashboard.SeverityCountsSum | sentinel-frontend/src/pages/SecurityDashboard.tsx:73-74 | when every severity is critical, high or medium, the three counts sum to the number of alerts |
| SecurityDashboard.MockSeverityCounts | sentinel-frontend/src/pages/SecurityDashboard.tsx:73-74 | over the fixtures the bar shows two alerts of each severity |
| SecurityDashboard.MockBannerHidden | sentinel-frontend/src/pages/SecurityDashboard.tsx:39-45 | the fixtures' "high" level shows no critical banner, and nor does missing data |
| SecurityDashboard.SecurityView.constructor | sentinel-frontend/src/pages/SecurityDashboard.tsx:26 | the filter starts at "all" |
| SecurityDashboard.SecurityView.Shown | sentinel-frontend/src/pages/SecurityDashboard.tsx:40 | the cards shown are an order-preserving selection: all alerts for "all", else exactly those of the filter's severity |
| SecurityDashboard.SecurityView.ClickFilter | sentinel-frontend/src/pages/SecurityDashboard.tsx:87-92 | the filter becomes the clicked button's value, one of all, critical, high or medium |
| ExecutiveDashboard.Magnitude | sentinel-frontend/src/pages/ExecutiveDashboard.tsx:104 | the shown magnitude is the delta or its negation, never negative |
| ExecutiveDashboard.PolarityFacts | sentinel-frontend/src/pages/ExecutiveDashboard.tsx:91-103 | a card is positive iff its delta is non-zero and the arrow points the way its trend calls good; delta 0 is never positive; the arrow ignores the trend; flipping the trend flips positivity of a non-zero delta |
| ExecutiveDashboard.MagnitudeFacts | sentinel-frontend/src/pages/ExecutiveDashboard.tsx:104 | the magnitude ignores the sign and is 0 only for delta 0 |
| ExecutiveDashboard.IconFacts | sentinel-frontend/src/pages/ExecutiveDashboard.tsx:89-90 | the first four cards get four different icons; later cards fall back to Bot |
| ExecutiveDashboard.MockKpiCards | sentinel-frontend/src/pages/ExecutiveDashboard.tsx:88-104 | over the fixtures every card is positive, the arrows point down, down, up, up, and the two growth cards are the last two |

## Left out

- Docker and HTTP plumbing: the Docker SDK client, FastAPI routing, governance actions, CORS setup and the diagnostic script. Containers are a parameter.
- `DockerScanner.get_instance()`, called by sentinel-backend/api/v1/security.py:9, does not exist in scanner.py. The alert endpoint takes the scanned containers as a parameter.
- Time: `datetime.now()` and `new Date()` are string parameters, and the delays, intervals and timeouts are explicit method calls. Their durations are not modelled.
- Randomness: each `Math.random()` draw is a real parameter in [0, 1). No distribution is modelled.
- Floating point: the cost figures are computed on exact reals, then truncated with `Floor`, which equals Python's `int()` on the non-negative values here. Binary rounding is not modelled.
- Observability.GetCostAnalytics: `totalSpend` is stated as the exact product; Python's float may differ in the last bits.
- Python's `repr` escapes are not modelled. Lower-casing is ASCII-only.
- ServiceApi.LocalStorage.GetAuthUser: returns the stored text rather than the object `JSON.parse` builds from it.
- `getDiscovery`, `getCostAnalytics` and `getAuditLog` return fixture constants. They are not separate operations; the fixtures themselves are modelled.
- `loginWithSSO` is not modelled: its token is built from a clock and a random base-36 string. Only the two `setItem` calls it leads to are modelled (SaveSession).
- The query cache and mutation machinery is a foreign library. Its single-flight and ordering behaviour is not modelled: mutations are modelled by their success handlers.
- Icons, colours, descriptions, animation and layout are not modelled, nor are the inspect dialogs.
- A tick of the audit log page prepends the fetched batch without dropping ids already in the log. Ids stay unique only because the generator never repeats one (AuditLogDashboard.PrependKeepsIdsUnique).
- The audit log page's `getLatestLogs()` calls settle in any order relative to later ticks: FetchSettled may be called whenever a call is awaited, and the model does not record which call a batch came from. React's dropping of state updates after the page unmounts is not modelled.
- RiskEngine: the source raises when `HostConfig`, `Config`, `NetworkSettings` or `Ports` is present but null, because `.get` is then called on None. ContainerAttrs has no such state, so that error path is not modelled.
- The confirmation dialogs follow the code: the typed text is cleared on confirm, cancel and close only. It is not cleared when the dialog is re-targeted while open.

## Findings

| source | as written | input that shows it | evidently intended | confidence | as-written member | corrected member |
|---|---|---|---|---|---|---|
| sentinel-backend/api/v1/observability.py:17 | `max([c.risk_score for c in containers])` and `c.risk_score >= 80` read an attribute that the scanner's `ContainerInfo` (sentinel-backend/core/scanner.py:5-11) does not have, so any non-empty scan raises AttributeError | one running container `ContainerInfo("c0ffee", "shadow-llm", "ollama/ollama", "running", False, "High")` | each container's risk score from the risk engine feeds the threat level and the critical count | not executed | Observability.AsWrittenFailsOnAnyContainer | Observability.SummaryCounts |
