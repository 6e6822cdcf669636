# Honeypot threat engine — a Dafny model

This project models the core of a login-decoy honeypot. A decoy login page and social-login
buttons record every attempt. The server then classifies each attempt into threats:

- pattern detectors for SQL injection, cross-site scripting, directory traversal, admin-account
  targeting and bot user agents;
- one behavioural rule over the recent failed attempts, which reports credential stuffing,
  password spraying or brute force.

The server stores one alert per threat and sends SMS / WhatsApp notifications for the high ones,
rate-limited per source IP. Around that core sit:

- the activity and IP-tracking store (password mask, counters upsert, alert append);
- the request middleware (client IP from proxy headers, the CORS allow-list, the suspicious-request
  flag);
- the demo server's in-memory log, alert list and statistics;
- the browser's bounded activity buffer.

Modules, one per source file (plus shared helpers):

| module | models |
|---|---|
| `Common` | optional JavaScript values (`None` = `undefined`/`null`), truthiness, `s \|\| fallback`, severities, the activity and alert records |
| `Text` | the string built-ins used: `includes`, `trim`, ASCII case mapping, `split`/`join`, `parseInt` |
| `Masking` | the "first three characters, then stars" password mask |
| `Bounded` | the newest-first buffer capped at 100 entries |
| `Patterns` | every regular expression of the analyzer and of the middleware, as an exact recognizer |
| `Database` | `server/config/database.js`: activity rows, alert rows, the `ip_tracking` map (`class Database`) |
| `AlertService` | `server/services/alertService.js`: configuration, rate limit, message, channels, `class AlertService` |
| `ThreatAnalyzer` | `server/services/threatAnalyzer.js`: detectors, behavioural rule, composition, `class Analyzer` |
| `Security` | `server/middleware/security.js` |
| `ServerLog` | the in-memory state of `server/index.js` (`class ServerLog`) |
| `ClientLogger` | `src/utils/logger.ts` (`class Logger`) |

## Modelling choices

**Time and I/O are parameters.**
- Clock readings are explicit arguments: `nowSec` for SQLite's `CURRENT_TIMESTAMP`, `nowMs` for
  `Date.now()`, and `stamp` for a formatted date.
- The Twilio network call is an abstract function `deliver(n, channel, body)`. It gives the outcome
  of the n-th message ever sent, so any sequence of successes and failures can be expressed.
- Messages handed to Twilio are recorded in the dispatcher's `outbox`.
- Reading the activity history either succeeds (`readOk`) or fails. A failure makes the behavioural
  rule report nothing, as its `catch` does.

**The behavioural rule reads the table directly.**
- The window queries are a filter (`Window`) over the activity rows: same key, `success = FALSE`,
  `created_at` strictly after the window start.
- A NULL key matches no row.
- The analysis sees the table as it stands after the attempt was logged, so the attempt counts
  toward its own thresholds (`LoggedAttemptCountsTowardItself`).

**Methods are proved against pure functions.** The imperative parts become methods: the
analyzer's loop over its threats, the dispatcher's `sendAlert`, the store's appends and upsert,
and the two in-memory logs. Each method's postcondition ties the new state to a pure function,
and the lemmas are proved about those functions:
- `AnalyzeActivity` gives `Threats(...)`, `AlertRows(...)` and `Notify(...)`;
- `SendAlert` gives `Dispatch(...)`;
- `UpdateIPTracking` gives `Track(...)`.

**Absent email on the demo server.** `shouldTriggerAlert` in `server/index.js` calls
`activity.email.includes` whenever the type does not contain "Social Login". When a login request
carries no email, this throws after the entry was logged. The model returns `Err` there
(`ServerLog.ShouldTriggerAlert`): the entry stays logged and no alert is added.

**Behaviour worth knowing.** The model follows the code in each case:
- **Admin targeting** is a case-insensitive *substring* test (`/admin/i`, `/root/i`, ...).
  "administration" or "groot@x" match. Only `sa\b` has a word boundary, and only a trailing one,
  so "visa@x" matches too.
- **The behavioural rules are exclusive.** Credential stuffing wins over password spraying, which
  wins over brute force, so brute force is reported only when neither credential stuffing nor
  password spraying fires.
- **Only the first high alert of one analysis is notified.** Every alert of one analysis carries
  the same IP key. In the model the analysis also reads the clock once (`nowMs`), whereas the
  code calls `Date.now()` again for each alert it sends (server/services/alertService.js:163,
  170). With a positive cooldown, the first high alert sets the key's time and every later alert
  of the same analysis is rate-limited (`ThreatAnalyzer.OneDispatchPerKey`). A SQL-injection
  attempt on an admin account therefore produces two alert rows and one notification, provided
  the sends of that analysis finish within one cooldown.
- **Calls are sequential.** The code runs on one event loop with sequential `await`s and no
  locking, so the model treats calls as sequential.

## Model

| member | source | states |
|---|---|---|
| `Masking.Mask` | server/config/database.js:107 | the masked password has the original's length, keeps characters 0..2 and has `*` at every later index (the same expression is at server/index.js:213) |
| `Masking.MaskKeepsShortPasswords` | server/config/database.js:107 | a password of at most 3 characters is stored verbatim |
| `Masking.MaskIdempotent` | server/config/database.js:107 | masking a mask changes nothing |
| `Masking.MaskRetainsOnlyLengthAndPrefix` | server/config/database.js:107 | two passwords mask alike iff they have the same length and the same first three characters: the mask reveals exactly that much |
| `Bounded.Capped` | server/index.js:146-149 | the buffer keeps its first `min(len, 100)` entries, in order (also `slice(0, 100)` at src/utils/logger.ts:21-23) |
| `Bounded.PrependThenCap` | src/utils/logger.ts:15-23 | after `unshift` and the cap, the new entry is the head, the length is `min(old + 1, 100)`, and the earlier entries follow in their earlier order with only the oldest dropped when full |
| `Patterns.MetaCharacterIsSqlInjection` | server/services/threatAnalyzer.js:8 | a lone `'`, `;` or `--` anywhere matches the first SQL-injection expression |
| `Patterns.TightQuoteOrIsRedundant` | server/services/threatAnalyzer.js:9-10 | whatever the third SQL expression matches, the second matches too |
| `Patterns.AdministratorIsRedundant` | server/services/threatAnalyzer.js:24-25 | whatever `/administrator/i` matches, `/admin/i` matches |
| `Patterns.AdminAnywhereMatches` | server/services/threatAnalyzer.js:24 | "admin" in any letter case anywhere in a string matches the admin table |
| `Database.StoredPassword` | server/config/database.js:107 | NULL iff the password is absent or empty; otherwise same length, first three characters kept, stars after |
| `Database.ActivityRowOf` | server/config/database.js:93-109 | the inserted row: `success` defaults to false, `severity` to low, the password is masked; type, email, IP, agent, provider, profile id and payload are copied, and the time is now |
| `Database.AlertRowOf` | server/config/database.js:139-148 | the inserted alert copies title, description, severity, reason code, IP and email; `alert_sent` and `resolved` default to false (lines 54-55) |
| `Database.TrackCountsOneAttempt` | server/config/database.js:177-196 | an existing IP gets attempt_count +1 and exactly one of failed/success +1 (failed when not successful), keeping first_seen; a new IP gets 1 and 1/0 or 0/1; no other IP changes and the key set grows by that IP only |
| `Database.TrackKeepsBalance` | server/config/database.js:180-196 | the upsert preserves attempt_count = failed_attempts + success_attempts for every IP |
| `Database.TrackAsWritten` | server/config/database.js:187-196 | the code as written: an existing IP is updated as intended |
| `Database.AsWrittenNeverTracksNewIp` | server/config/database.js:192 | as written, the insert branch for an unknown IP fails (undeclared `db`), while the intended upsert adds the IP |
| `Database.Database.LogActivity` | server/config/database.js:93-119 | appends exactly one row, `ActivityRowOf(data, now)`, and returns its row id |
| `Database.Database.CreateAlert` | server/config/database.js:139-157 | appends exactly one alert row, `AlertRowOf(a, now)`, and returns its row id |
| `Database.Database.UpdateIPTracking` | server/config/database.js:177-196 | the tracking map becomes `Track(old, ip, success, now)`, and the balance invariant is kept |
| `AlertService.RateLimitMinutes` | server/services/alertService.js:19 | the parsed setting when it parses to a non-zero number, otherwise 5; never 0 |
| `AlertService.RateLimitReadsSetting` | server/services/alertService.js:19 | a setting holding the decimal digits of a positive n yields exactly n minutes |
| `AlertService.ConfigFromEnvironment` | server/services/alertService.js:13-20 | each flag is on iff its variable is exactly "true"; the numbers fall back to their defaults when unset or empty; the cooldown is `RateLimitMinutes` |
| `AlertService.MessageReadsBack` | server/services/alertService.js:122-143 | split at line breaks, the message is 11 lines: the emoji header, title, details, severity upper-cased, IP or "Unknown", email or "N/A", time, footer |
| `AlertService.EnabledChannels` | server/services/alertService.js:58-67 | at most two channels: SMS when enabled and a client exists, then WhatsApp under the same condition |
| `AlertService.RateLimitedDispatchChangesNothing` | server/services/alertService.js:48-51 | a rate-limited alert returns false, attempts no channel and leaves the send times unchanged |
| `AlertService.DispatchAttemptsEveryChannel` | server/services/alertService.js:53-76 | otherwise one result per enabled channel, in order, each the outcome of its own send of the same message (a failed SMS never stops WhatsApp); the IP's time becomes now whatever the outcomes; no other key changes |
| `AlertService.CooldownAfterDispatch` | server/services/alertService.js:159-171 | after a dispatch at `now`, an alert for the same IP at `later` is limited iff `later - now < minutes * 60000`, so exactly at the boundary it goes through |
| `AlertService.AlertService.constructor` | server/services/alertService.js:5-24 | the configuration read from the environment, the client present iff both Twilio credentials are set and creating it succeeded, no send times, nothing sent |
| `AlertService.AlertService.UpdateRateLimit` | server/services/alertService.js:169-171 | sets the key's time to now; every other key keeps its time |
| `AlertService.Send` | server/services/alertService.js:84-120 | without a client: "Twilio not configured" and nothing sent; otherwise exactly one message is handed to Twilio and its outcome is the answer; never throws |
| `AlertService.AlertService.SendOn` | server/services/alertService.js:84-120 | the recorded messages and the answer are `Send` of the earlier messages: one send, nothing else changes |
| `AlertService.AlertService.SendAlert` | server/services/alertService.js:44-82 | the outcome and the new state are exactly `Dispatch` of the old state |
| `ThreatAnalyzer.KindOfCode` | server/services/threatAnalyzer.js:32-42 | the kind whose type code is the string, or none when no kind has that code |
| `ThreatAnalyzer.CodeRoundTrip` | server/services/threatAnalyzer.js:32-42 | reading a kind's own code gives the kind back |
| `ThreatAnalyzer.Score` | server/services/threatAnalyzer.js:32-42 | scores lie in 6..9, and 9 is exactly SQL injection and admin targeting |
| `ThreatAnalyzer.GetThreatTitle` | server/services/threatAnalyzer.js:249-262 | the title of the named kind, and "Suspicious Activity Detected" for any other code |
| `ThreatAnalyzer.TitlesAreDistinct` | server/services/threatAnalyzer.js:250-260 | no two kinds share a title and no kind gets the fallback |
| `ThreatAnalyzer.Inputs` | server/services/threatAnalyzer.js:120 | the inputs inspected are exactly the present, non-empty ones among email, password, payload |
| `ThreatAnalyzer.DetectorReadsPresentFields` | server/services/threatAnalyzer.js:119-138 | a field detector fires iff some present, non-empty field matches some expression of its table |
| `ThreatAnalyzer.NoFieldsNoPatternThreat` | server/services/threatAnalyzer.js:119-143 | with no email, password or payload, no SQL, XSS, traversal or admin finding |
| `ThreatAnalyzer.MetaCharacterInPasswordIsSql` | server/services/threatAnalyzer.js:119-124 | a quote, semicolon or `--` in the password is an SQL-injection finding whatever the other fields hold |
| `ThreatAnalyzer.AdminSubstringInEmail` | server/services/threatAnalyzer.js:140-143 | an email containing "admin" in any case anywhere is admin targeting |
| `ThreatAnalyzer.Window` | server/services/threatAnalyzer.js:264-292 | the rows returned are exactly the table's rows with the same non-NULL key, not successful, created strictly after the window start |
| `ThreatAnalyzer.WindowOfConcat` | server/services/threatAnalyzer.js:264-292 | the window of two stretches of the table is the window of the first followed by that of the second |
| `ThreatAnalyzer.WindowOfOne` | server/services/threatAnalyzer.js:264-292 | a single row is its own window iff it qualifies; with `WindowOfConcat`, the window is the qualifying rows in table order |
| `ThreatAnalyzer.WindowOfAppended` | server/services/threatAnalyzer.js:264-277 | logging one more row adds it to the window iff it qualifies, and leaves the earlier rows in place |
| `ThreatAnalyzer.EmailsOf` | server/services/threatAnalyzer.js:153 | the set of emails (NULL included) of the rows |
| `ThreatAnalyzer.CheckBruteForce` | server/services/threatAnalyzer.js:145-189 | no finding when the history cannot be read; otherwise stuffing iff ≥5 IP failures with ≥3 emails, else spraying iff ≥5 failures on the email, else brute force iff ≥10 IP failures, else nothing |
| `ThreatAnalyzer.ManyEmailsIsStuffingNotBruteForce` | server/services/threatAnalyzer.js:151-162 | ten failures from one IP over three emails report credential stuffing with its reason text, never brute force |
| `ThreatAnalyzer.LoggedAttemptCountsTowardItself` | server/services/threatAnalyzer.js:268-285 | a failed attempt logged now is in both of its own windows |
| `ThreatAnalyzer.FifthFailureOnEmailIsSpraying` | server/services/threatAnalyzer.js:164-172 | the fifth failure on one email within 30 minutes reports password spraying unless stuffing fires first |
| `ThreatAnalyzer.DetectBotBehavior` | server/services/threatAnalyzer.js:191-223 | missing agent, then bot tokens, then the two old agent strings, then a length outside 20..500, each with its reason; not a bot iff none applies |
| `ThreatAnalyzer.OldMozillaIsBot` | server/services/threatAnalyzer.js:202-215 | any agent containing "Mozilla/4.0" is flagged |
| `ThreatAnalyzer.Scored` | server/services/threatAnalyzer.js:51-108 | every pushed threat carries the score of its kind from the table |
| `ThreatAnalyzer.ComposeIsOrdered` | server/services/threatAnalyzer.js:45-110 | at most six threats, each scored from the table with its kind's severity, in the order SQL, XSS, traversal, admin, behavioural, bot, each at most once |
| `ThreatAnalyzer.ComposeReportsEachFinding` | server/services/threatAnalyzer.js:49-109 | a kind is in the list iff its check fired (the behavioural kind iff it is the one reported) |
| `ThreatAnalyzer.AlertFor` | server/services/threatAnalyzer.js:226-236 | the alert has the kind's own title (never the fallback), the reason as description, the kind's code as reason code, and the attempt's IP and email |
| `ThreatAnalyzer.AlertRows` | server/services/threatAnalyzer.js:112-114 | one alert row per threat, in order |
| `ThreatAnalyzer.FirstHigh` | server/services/threatAnalyzer.js:240-243 | a high alert preceded by no high alert, or none when no alert is high |
| `ThreatAnalyzer.OnlyHighAlertsNotify` | server/services/threatAnalyzer.js:240-243 | alerts none of which is high leave the dispatcher untouched |
| `ThreatAnalyzer.LimitedKeyNotifiesNothing` | server/services/threatAnalyzer.js:112-114 | once the IP is rate-limited, the remaining alerts of the analysis change nothing |
| `ThreatAnalyzer.OneDispatchPerKey` | server/services/threatAnalyzer.js:112-114 | with a positive cooldown, notifying one analysis' alerts equals one dispatch of its first high alert (or nothing when none is high) |
| `ThreatAnalyzer.AlertsOf` | server/services/threatAnalyzer.js:225-236 | one alert per threat, all with the attempt's IP as key |
| `ThreatAnalyzer.Analyzer.ProcessThreat` | server/services/threatAnalyzer.js:225-247 | appends the threat's alert row, returns its id, and notifies iff the threat is high |
| `ThreatAnalyzer.Analyzer.ProcessThreats` | server/services/threatAnalyzer.js:112-114 | the loop appends `AlertRows(threats)` and leaves the dispatcher as `Notify` of their alerts in order |
| `ThreatAnalyzer.Analyzer.AnalyzeActivity` | server/services/threatAnalyzer.js:45-117 | returns `Threats` of the attempt over the table as it stands (none from history when reading fails), one alert row per threat, and the notifications of the high ones |
| `ThreatAnalyzer.ExampleEmailIsSql` | server/services/threatAnalyzer.js:8 | an illustration on one input: the email `admin' OR '1'='1` is an SQL-injection finding |
| `ThreatAnalyzer.ExampleEmailTargetsAdmin` | server/services/threatAnalyzer.js:24 | an illustration on one input: that email is also admin targeting |
| `ThreatAnalyzer.QuotedAdminEmailExample` | server/services/threatAnalyzer.js:45-87 | an illustration on one input: for that email the threat list starts with the scored SQL-injection threat and also holds admin targeting |
| `Text.Trim` | server/middleware/security.js:109 | `trim()` returns the piece of the string with only spaces before and after it and no space at either of its own ends; a string with no space at its ends is unchanged |
| `Text.TrimIsUnique` | server/middleware/security.js:109 | any such piece is the result of `Trim`: exactly the leading and trailing spaces are removed |
| `Security.ClientIp` | server/middleware/security.js:103-112 | with X-Forwarded-For present: `Trim` of the first piece of its `Split` at commas (so no comma and no space at either end); else X-Real-IP, else the connection, else the socket address, else "unknown" |
| `Security.SingleHop` | server/middleware/security.js:109 | a header naming one address yields that address with the surrounding spaces removed |
| `Security.FirstHopOfChain` | server/middleware/security.js:109 | for a chain `hop,rest` the client IP is exactly the trimmed first hop |
| `Security.ExtractClientIP` | server/middleware/security.js:103-115 | sets `clientIP` to `ClientIp` of the headers; nothing else in the request changes |
| `Security.CorsOrigin` | server/middleware/security.js:172-191 | allowed iff the origin is absent or empty, or one of the four localhost / 127.0.0.1 origins on ports 5173 and 3000 |
| `Security.CorsRefusesOtherHosts` | server/middleware/security.js:172-191 | any origin that is not plain http on localhost or 127.0.0.1 is refused |
| `Security.CorsRefusesOtherPorts` | server/middleware/security.js:172-191 | on those two hosts, any port other than 5173 and 3000 is refused |
| `Security.DetectSuspiciousActivity` | server/middleware/security.js:134-168 | a request matching any of the seven expressions in URL, agent or referer gets the record with what was inspected; any other request passes unchanged; no other field changes |
| `Security.TraversalUrlIsFlagged` | server/middleware/security.js:137 | a URL containing `../` is flagged |
| `Security.MissingHeadersReadAsEmpty` | server/middleware/security.js:147-148 | missing agent and referer headers are inspected exactly as empty ones |
| `ServerLog.Entry` | server/index.js:138-142 | the entry keeps every activity field (type, email, password, IP, agent, provider, profile id), replaces the timestamp and adds the id |
| `ServerLog.ShouldTriggerAlert` | server/index.js:169-174 | alert iff the type contains "Social Login", or the email contains "admin" or the type "Failed Login"; throws when that email test meets an absent email |
| `ServerLog.AlertOf` | server/index.js:153-159 | level "high", IP defaulting to "unknown", title from the provider or "Login", description naming the type and email |
| `ServerLog.LoginActivity` | server/index.js:205-217 | the logged login masks the password to its first three characters followed by stars; fails iff no password was posted |
| `ServerLog.LoginNeverLogsLongPassword` | server/index.js:213 | a password longer than three characters (fourth not a star) is never logged in clear |
| `ServerLog.CountKind` | server/index.js:241-242 | at most the log length; zero iff no type contains the text, the full length iff every type does |
| `ServerLog.CountKindAppend` | server/index.js:241-242 | the count of two logs together is the sum of their counts, and one entry counts 1 iff its type contains the text: the count is the number of matching entries |
| `ServerLog.IpsOf` | server/index.js:240 | the distinct IP values (absent included), never more than the entries |
| `ServerLog.CountHigh` | server/index.js:243 | the number of alerts iff all are high, zero iff none is |
| `ServerLog.CountHighAppend` | server/index.js:243 | the count is additive over concatenation and one alert counts 1 iff its level is "high": the count is the number of high alerts |
| `ServerLog.StatsOf` | server/index.js:237-246 | total = log length; unique IPs = the size of `IpsOf` (≤ total, ≥1 when the log is non-empty); social and failed = `CountKind` of "Social" and "Failed" (≤ total); high alerts = `CountHigh` (≤ alerts) |
| `ServerLog.ServerLog.constructor` | server/index.js:38-39 | both lists start empty |
| `ServerLog.ServerLog.LogSuspiciousActivity` | server/index.js:137-167 | the log becomes the capped list with the entry in front; the alert is prepended iff the heuristic says so; alerts are never truncated and all stay high |
| `ServerLog.ServerLog.CurrentStats` | server/index.js:237-246 | at most 100 attempts, and every alert counted as high |
| `ClientLogger.RecentAttempts` | src/utils/logger.ts:35-38 | at most the buffer length; zero iff no entry is a recent attempt from the IP |
| `ClientLogger.RecentAttemptsAppend` | src/utils/logger.ts:35-38 | the count is additive over concatenation and one entry counts 1 iff it is a recent attempt from the IP: the count is the number of such entries |
| `ClientLogger.LogAsWritten` | src/utils/logger.ts:15-23 | the code as written: the entry in front carries an unparsable time-of-day timestamp |
| `ClientLogger.AsWrittenNeverCountsRecent` | src/utils/logger.ts:35-42 | as written, the recent count stays 0, so only the email and password tests can alert |
| `ClientLogger.Logger.constructor` | src/utils/logger.ts:11 | the buffer starts empty |
| `ClientLogger.Logger.LogSuspiciousActivity` | src/utils/logger.ts:13-31 | the buffer becomes the capped list with the stamped entry in front, and the alert fires iff the heuristic holds on that new buffer |
| `ClientLogger.Logger.GetActivityLogs` | src/utils/logger.ts:55 | exactly the current buffer, at most 100 entries |
| `ClientLogger.ThirdRecentAttemptAlerts` | src/utils/logger.ts:33-42 | the attempt being logged counts toward the threshold: with two recent attempts from the IP already buffered, the third alerts |

## Left out

- Express, Passport, sessions, the route handlers and the server start-up are left out. They are
  HTTP plumbing around the modelled calls.
- SQLite, Twilio and the console are abstract in the model. Table rows are sequences and a map.
  Row ids are positions. Message sends go through `deliver`. Log lines are not modelled.
- `ORDER BY created_at DESC` in the window queries is not modelled. The rule reads only the count
  and the set of emails, which the order does not change.
- `datetime('now', …)` is not modelled: one clock value `nowSec` serves the whole analysis, and
  one value `nowMs` serves all its notifications.
- Date formatting (`toLocaleString`, `toLocaleTimeString`, `toISOString`) is not modelled. The
  formatted time is the `stamp` parameter.
- The `/g` flag on the XSS and traversal expressions is not modelled. With it, `test` keeps
  `lastIndex` between calls, so a later test can start past a match and miss it. The model
  matches from index 0 every time.
- Lengths are counted in Unicode characters. JavaScript counts UTF-16 code units in
  `length < 20`, `length > 20` and `slice(0, 3)`, so the two differ on characters outside the
  Basic Multilingual Plane.
- `parseInt` is modelled for its decimal and hexadecimal prefixes, with unbounded precision.
  Floating-point rounding of very long numbers is not modelled.
- `getThreatTitle` looks codes up in a plain object, so inherited property names such as
  "constructor" are not modelled. Only the nine kinds' codes and the fallback are.
- The `catch` of `sendAlert` is not modelled. The senders catch their own errors, and with the
  modelled values nothing else in the `try` can throw.
- A rejected `createAlert` or `logActivity` is not modelled: the appends always succeed.
- A NULL IP is not modelled in `Database.Database.UpdateIPTracking`, which takes an IP string.
- `getActivityLogs`, `getAlerts` and `getStats` of the database, and `sendTestAlert` and
  `getAlertStats` of the dispatcher, are left out. They are read-only queries and a test wrapper
  outside the classification and dispatch logic.
- `logAlert` and `triggerMockAlert` are left out: they only print.
- The client's `getActivityLogs` returns the live array, so a caller could change the buffer
  through it. The model returns a value, so that aliasing is not modelled.
- Concurrency is not modelled. The code runs on one event loop with sequential `await`s, and the
  model treats every call as sequential.
- ThreatAnalyzer.QuotedAdminEmailExample: states that admin targeting is somewhere in the list,
  not its exact position (second). The bot finding after it depends on the user agent, which the
  lemma leaves open.
- ClientLogger.Logger.LogSuspiciousActivity: stamps each entry with the time it was logged. The
  source stores a locale time-of-day string, which `new Date` cannot parse (see Findings).
  `ClientLogger.LogAsWritten` models that version.

## Findings

| source | as written | input that shows it | evidently intended | confidence | as-written member | corrected member |
|---|---|---|---|---|---|---|
| server/config/database.js:192 | the insert branch of `updateIPTracking` calls `db.prepare`, and no `db` is declared in that scope; the ReferenceError is thrown in the sqlite3 callback, outside the Promise executor, so it is never caught; the promise never settles, the login route awaiting it (server/routes/auth.js:34) never runs `analyzeActivity`, and with no `uncaughtException` handler Node ends the process | the first attempt from an IP not yet in `ip_tracking` | insert the row with attempt_count 1 and failed/success 1/0 or 0/1, keeping attempt_count = failed + success | high, not executed | `Database.AsWrittenNeverTracksNewIp` | `Database.TrackKeepsBalance` |
| src/utils/logger.ts:17 | the buffer stores `toLocaleTimeString()` (e.g. "10:15:30 AM"); line 37 parses it back with `new Date`, gets NaN, and the 5-minute comparison is always false | three attempts from one IP within a minute, non-admin email, short password: no alert | the third recent attempt from the IP alerts | medium (depends on the engine's date parser), not executed | `ClientLogger.AsWrittenNeverCountsRecent` | `ClientLogger.ThirdRecentAttemptAlerts` |
