# Installation lifecycle and session gate of 3d-commerce, in Dafny

This project models the part of 3d-commerce that has real logic: the installer mode of the small Express app
and its browser page, plus two pure decision rules that live beside them.

- **Config store** (`config_store.dfy`, module `ConfigStore`): the one JSON installation record in
  `data/config.json`. The record is missing, unreadable, or present with a parsed `Config`. `ReadConfig` and
  `IsInstalled` are pure reads of that file state, each told whether `readFileSync` throws on that call.
  The class `Store` overwrites the record in `WriteConfig` (stamping `installed`, `installedAt` and
  `version`) and deletes it in `ResetConfig`.
- **Server** (`server.dfy`, module `Server`): the handlers for `/api/status`, `/api/setup`, `/api/login`,
  `/api/session` and `/api/reset`. Each handler is a pure function from the server state (the file and the
  token→email session map) to the new state and a response with its HTTP status code. The class
  `Server.Server` performs the same handlers in place on a `Store` and a `sessions` map, and each method is
  proved equal to its function.
- **Lifecycle** (`lifecycle.dfy`, module `Lifecycle`): runs of requests. It proves an invariant of every
  state reachable from a fresh install, that issued tokens survive until a reset, that a reset revokes every
  token, what a read that throws does to status and login, the run of app/test-api.js, and a longer
  setup/login/session/reset walk-through.
- **Client** (`client.dfy`, module `Client`): the page's global `state`. Each action (init, updateFormData,
  nextStep, prevStep, completeSetup split into its synchronous start and its finish, login, logout,
  resetSetup) is a pure function on `AppState`. The class `Client.App` changes the same fields in place.
  `Enabled` says which actions the rendered page offers. Over any run of those actions, the step stays in
  1..5, no installer step past 2 shows without a well-formed email, and the in-memory session id equals the
  stored one. Two lemmas connect the page to the server: init against a server state, and the
  complete-setup round trip. The classes of the progress dots are modelled as well.
- **Coupon** (`coupon.dfy`): `validateCoupon`, with amounts as reals and the current time as a parameter.
- **Release confidence** (`release.dfy`): the two additive scores, the threshold chain, and the exit code.

Environment effects are parameters:
- the random session id (a non-empty `SessionToken`);
- the clock (`now`);
- file-system failures (`fails`, `writeFails`, `resetFails`), including each read of the record: `readFails`
  for login, and `firstReadFails`/`secondReadFails` for the two reads status makes;
- network replies (`Option<Server.Body>`, where `None` means `fetch` or `response.json()` threw);
- `confirm` (`confirmed`);
- whether the reset request reached the server (`reached`).

`localStorage`'s `sessionId` entry is the client field `stored`.

Behaviours of the code that a reader may not expect, all modelled as written:
- Setup does not check whether the system is already installed. A valid setup overwrites the record, and
  sessions issued for the earlier email remain valid (`Lifecycle.SecondSetupOverwrites`).
- Session ids are never checked for collisions. A colliding id rebinds the existing entry (the map update
  in `HandleSetup`/`HandleLogin`).
- Login reads the record, not `isInstalled`. A readable record with `installed` false still lets the
  matching email log in.
- The page's reset goes ahead whatever status code `/api/reset` answers. Only a network failure stops it.
- Status reads the file twice. If only the second read throws, it answers installed and DASHBOARD with a
  null adminEmail. If the first throws, it answers INSTALLER on an installed system, and the page then offers
  a setup that overwrites the record. A login whose read throws answers 400 'System not configured'
  (`Lifecycle.ReadFailuresOnInstalled`).

## Model

| member | source | states |
|---|---|---|
| ConfigStore.ReadConfig | app/server/config.js:28-39 | a record is read iff the file is present, parses and the read does not throw, and it is exactly the stored record; otherwise null, not an exception |
| ConfigStore.IsInstalled | app/server/config.js:13-23 | true iff the read succeeds on a present record with installed === true and a non-empty adminEmail; a missing file, a parse error or a read that throws gives false |
| ConfigStore.NoRecordNotInstalled | app/server/config.js:13-38 | with no file, one that does not parse, or a read that throws, readConfig gives null and isInstalled false |
| ConfigStore.WithMeta | app/server/config.js:52-58 | the stored object keeps the caller's adminEmail, usageContext and loginMethod and forces installed = true, installedAt = now, version = '1.0.0' whatever the caller passed |
| ConfigStore.Store.WriteConfig | app/server/config.js:44-66 | returns true iff the write happened; on success the file is fully overwritten with the stamped record, on failure it is unchanged |
| ConfigStore.Store.constructor | app/server/config.js:8 | the store holds the given state of the file behind CONFIG_PATH |
| ConfigStore.WriteThenRead | app/server/config.js:53-61 | after a write, a read that does not throw returns exactly the written record, and the system counts as installed iff the adminEmail written is non-empty |
| ConfigStore.Store.ResetConfig | app/server/config.js:71-81 | succeeds whenever no file exists (idempotent) or the delete works; on success no record exists and isInstalled is false; on failure the file is unchanged |
| Server.SetupRecord | app/server/index.js:54-58 | the record setup writes carries the given email, usageContext defaulting to 'personal' when empty, and loginMethod 'email' |
| Server.LooksLikeEmail | app/server/index.js:47 | an email passes iff it contains an '@' (so it is non-empty) |
| Server.HandleStatus | app/server/index.js:27-37 | always 200; installed and DASHBOARD iff the first read finds an installed record; adminEmail is non-null iff that holds and the second read does not throw, and is then the record's; installedAt likewise through `\|\| null` |
| Server.HandleSetup | app/server/index.js:43-75 | 400 iff the email is empty or lacks '@'; 500 iff it is valid and the write fails; on both errors the record and the sessions are unchanged; on 200 the record is overwritten whatever was installed, the system is installed, and exactly the new token→email entry is added and returned |
| Server.HandleLogin | app/server/index.js:80-95 | never touches the record; 400 'System not configured' with no change when the read gives null, including a read that throws on an installed system; 200 iff the read succeeds and the email equals the record's adminEmail exactly, adding that one session; otherwise 401 with no change |
| Server.CheckSession | app/server/index.js:100-109 | valid iff the header is present, non-empty and a key of the map, and then the stored email is returned; otherwise valid false with no email |
| Server.HandleReset | app/server/index.js:114-123 | every session is cleared even when the delete fails, so no token checks valid; 200 iff the delete succeeded (always when there was no file), 500 otherwise with the record unchanged |
| Server.Server.constructor | app/server/index.js:21 | the session map starts empty over the given store |
| Server.Server.Status | app/server/index.js:27-37 | the in-place status handler answers HandleStatus of the current file and the two read outcomes, and changes nothing |
| Server.Server.Setup | app/server/index.js:43-75 | the in-place setup handler leaves the file, the session map and the response exactly as HandleSetup says |
| Server.Server.Login | app/server/index.js:80-95 | the in-place login handler leaves the file, the session map and the response exactly as HandleLogin says |
| Server.Server.Session | app/server/index.js:100-109 | the in-place session check is read-only and answers 200 with CheckSession of the map |
| Server.Server.Reset | app/server/index.js:114-123 | the in-place reset handler leaves the file, the map and the response exactly as HandleReset says |
| Lifecycle.Step | app/server/index.js:27-123 | each request goes to its handler; the codes are 200, 400, 401 or 500, 401 only for login; the GET routes answer 200 and change nothing; only setup and reset can change the file |
| Lifecycle.StepKeepsHealthy | app/server/index.js:43-123 | each handler keeps the reachable-state invariant: no file or a record as setup writes it, and every session bound to a well-formed email |
| Lifecycle.RunKeepsHealthy | app/server/index.js:43-123 | the invariant holds after any sequence of requests from any healthy state, including a restart over a healthy file with the sessions emptied |
| Lifecycle.ReachableRecordIffInstalled | app/server/config.js:13-23 | in every state reachable from a fresh install (no file, no sessions) the file is never unparseable, a record exists exactly when a read that does not throw counts the system as installed, and no session names a malformed email |
| Lifecycle.StepSessions | app/server/index.js:62-116 | status and session checks change nothing, reset empties the map, and setup or login keep every other token with its email |
| Lifecycle.TokensSurvive | app/server/index.js:63-116 | without a reset request no token ever leaves the session map |
| Lifecycle.IssuedTokenValidUntilReset | app/server/index.js:60-109 | a token returned by a successful setup or login checks valid after any later requests that contain no reset |
| Lifecycle.ResetRevokesEveryToken | app/server/index.js:114-117 | after a reset, successful or not, every header checks invalid |
| Lifecycle.IssuedSessionMatchesRecord | app/server/index.js:54-91 | a session is only minted for the adminEmail the readable record holds right after the request |
| Lifecycle.SetupThenStatus | app/server/index.js:27-69 | a successful setup followed by a status whose reads do not throw reports installed, DASHBOARD, the same adminEmail and the write time |
| Lifecycle.InvalidSetupChangesNothing | app/server/index.js:47-51 | a setup with an invalid email answers 400 and leaves the whole server state unchanged |
| Lifecycle.ResetIdempotent | app/server/config.js:71-76 | after a successful reset a second reset succeeds whatever the file system does, changes nothing, and status reports INSTALLER whatever its reads do |
| Lifecycle.TestApiScript | app/test-api.js:4-40 | status on a fresh install reports INSTALLER with nulls; setup with admin@test.com and small_business answers 200 with its session id; the record holds both values; status then reports installed, DASHBOARD and admin@test.com |
| Lifecycle.ServerWalkthrough | app/server/index.js:43-123 | setup, a wrong login (401, no change), the token's session check, reset, status and the old token, with the exact responses |
| Lifecycle.ReadFailuresOnInstalled | app/server/index.js:27-85 | on an installed system: a throwing second status read gives DASHBOARD with a null adminEmail; a throwing first read gives INSTALLER, after which a setup overwrites the record; a throwing login read gives 400 'System not configured'; none changes the state |
| Lifecycle.SecondSetupOverwrites | app/server/index.js:43-63 | a second setup replaces the record's email while the first token still checks valid for the first email |
| Client.Boot | app/client/src/app.js:9-19 | the page starts loading, at step 1, with the empty form and usage 'personal', and the session id read from storage |
| Client.Initialized | app/client/src/app.js:22-56 | not installed gives the installer; installed with a held session id that checks valid gives the dashboard with the session's email; installed with no held id, or an invalid one, gives login with the status adminEmail; a failed request sets the connection error and keeps the mode; step, form and session id never change |
| Client.FormUpdated | app/client/src/app.js:321-325 | only the named form key changes, the error is cleared, everything else is unchanged |
| Client.SteppedForward | app/client/src/app.js:327-340 | at step 2 with an empty or '@'-less email the error is set and the step stays; otherwise the error is cleared and the step goes up by one |
| Client.SteppedBack | app/client/src/app.js:342-346 | the error is cleared and the step goes down by one, nothing else changes |
| Client.SetupStarted | app/client/src/app.js:348-350 | completing the wizard first shows step 5 and changes nothing else |
| Client.SetupFinished | app/client/src/app.js:352-376 | on success: dashboard, the returned session id in memory and storage, adminEmail from the form; on a rejection or a network failure: step 2 with the error; the form is kept either way |
| Client.LoggedIn | app/client/src/app.js:379-406 | on success: dashboard, the token held and stored, the typed email, error cleared; otherwise only the error changes |
| Client.LoggedOut | app/client/src/app.js:408-413 | the session id goes from memory and storage and the mode becomes login; step and form are untouched |
| Client.SetupReset | app/client/src/app.js:415-431 | a declined confirm or an unreachable server changes nothing; otherwise step 1, the initial form, the installer, and no session id |
| Client.ErrorOr | app/client/src/app.js:368-399 | the server's error when a non-empty one is sent (setup at line 368, login at line 399), the fallback otherwise, so a message shows whenever the fallback is non-empty |
| Client.Enabled | app/client/src/app.js:142-313 | the page's wiring: init only while loading; the installer offers actions only on steps 1..5, complete only on step 4; the login screen offers only login; the dashboard only logout and re-run setup |
| Client.BootOk | app/client/src/app.js:9-19 | the state the page loads with satisfies the wizard invariant |
| Client.ApplyKeepsWizardOk | app/client/src/app.js:321-431 | every action the page offers keeps the wizard invariant (step in 1..5, no step past 2 without a valid email, stored and in-memory session id equal) |
| Client.RunKeepsWizardOk | app/client/src/app.js:321-431 | the wizard invariant holds after any run of offered actions |
| Client.StepWithinBounds | app/client/src/app.js:92-105 | from page load, whatever is clicked and answered, the step indexes one of the five screens |
| Client.BootAgainstServer | app/client/src/app.js:22-48 | booting against a server state gives the installer iff status's first read finds no installed record, and the dashboard iff it does and the held token is a live session, showing that session's email; otherwise login shows the record's email, or none when status's second read threw |
| Client.CompleteSetupRoundTrip | app/client/src/app.js:348-366 | the form the wizard submits always passes the server's validation; with a successful write the page reaches the dashboard holding a token the server checks valid for the entered email |
| Client.DotClass | app/client/src/app.js:109-114 | dot i is done before the step, active at it, plain after |
| Client.ProgressDots | app/client/src/app.js:108-119 | there are exactly five dots and each is plain, done or active |
| Client.DotsClassified | app/client/src/app.js:109-114 | dots before the step are done, the step's own dot is active, the rest are plain |
| Client.DotCounts | app/client/src/app.js:108-119 | on steps 1..5 exactly one dot is active, step - 1 are done and the rest plain |
| Client.App.constructor | app/client/src/app.js:9-19 | the state object starts as Boot of the stored session id |
| Client.App.Init | app/client/src/app.js:22-56 | init updates the fields in place exactly as Initialized says |
| Client.App.UpdateFormData | app/client/src/app.js:321-325 | in place, exactly as FormUpdated |
| Client.App.NextStep | app/client/src/app.js:327-340 | in place, exactly as SteppedForward |
| Client.App.PrevStep | app/client/src/app.js:342-346 | in place, exactly as SteppedBack |
| Client.App.StartCompleteSetup | app/client/src/app.js:348-350 | in place, exactly as SetupStarted |
| Client.App.FinishCompleteSetup | app/client/src/app.js:352-376 | in place, exactly as SetupFinished |
| Client.App.Login | app/client/src/app.js:379-406 | in place, exactly as LoggedIn |
| Client.App.Logout | app/client/src/app.js:408-413 | in place, exactly as LoggedOut |
| Client.App.ResetSetup | app/client/src/app.js:415-431 | in place, exactly as SetupReset |
| Coupon.RawDiscount | tests/unit/coupon.test.ts:41-49 | a fixed coupon gives its value; a percentage gives cartTotal*value/100, capped at maxDiscount only when maxDiscount is truthy |
| Coupon.ValidateCoupon | tests/unit/coupon.test.ts:17-61 | a null coupon is invalid with 'Invalid coupon code'; valid iff present, not expired, under its usage limit (usageCount >= usageLimit counts as reached) and cartTotal >= minPurchase; rejections checked in the order expiry, limit, minimum; every rejection has discount 0; a valid discount is the raw discount clamped to cartTotal |
| Coupon.PercentageCapped | tests/unit/coupon.test.ts:42-46 | a valid percentage discount never exceeds a truthy maxDiscount |
| Coupon.ZeroCapIsNoCap | tests/unit/coupon.test.ts:44 | a maxDiscount of 0 gives the same result as no maxDiscount |
| Coupon.PlainPercentage | tests/unit/coupon.test.ts:42-54 | an uncapped percentage of at most 100 on a non-negative cart is exactly cartTotal*value/100 and within the cart |
| Coupon.DiscountInRange | tests/unit/coupon.test.ts:41-54 | with non-negative amounts a valid discount lies between 0 and cartTotal |
| Coupon.ValidEarlier | tests/unit/coupon.test.ts:25-27 | a coupon valid now gives the same result at any earlier time |
| Coupon.SuiteCases | tests/unit/coupon.test.ts:63-132 | the eight test cases: 10 off 100, 5 fixed, null, expired, limit reached, below minimum, capped at 50, clamped to the cart's 30 |
| ReleaseConfidence.RoundHalfUp | scripts/release-confidence.ts:67 | Math.round gives the integer within half of its argument, halves rounded up |
| ReleaseConfidence.CalculateStabilityScore | scripts/release-confidence.ts:42-68 | the rounded 40/30/20/10 weighted sum of the factors, between 0 and 100 when the rates are in 0..1 |
| ReleaseConfidence.CalculateRegressionRiskScore | scripts/release-confidence.ts:70-93 | the rounded sum of the risk contributions, non-negative when they are |
| ReleaseConfidence.GetRecommendation | scripts/release-confidence.ts:117-127 | READY iff stability >= 90 and risk <= 20; WITH_MONITORING iff not READY, stability >= 70 and risk <= 40; DO_NOT_RELEASE iff stability < 50 whatever the risk; NEEDS_REVIEW otherwise |
| ReleaseConfidence.StabilityMonotone | scripts/release-confidence.ts:117-127 | for fixed risk, raising stability never gives a worse tier |
| ReleaseConfidence.RiskMonotone | scripts/release-confidence.ts:117-127 | for fixed stability, raising risk never gives a better tier |
| ReleaseConfidence.ExitCode | scripts/release-confidence.ts:164-172 | the exit code is 0 or 1, and 1 iff the report could not be written or the recommendation is DO_NOT_RELEASE |
| ReleaseConfidence.RunReleaseConfidence | scripts/release-confidence.ts:129-168 | the report holds the timestamp, the two scores, the coverage and AI-risk summaries of getTestCoverage and getAIRiskSummary, and the recommendation for the two scores; with the report written, the exit code is 1 iff stability is below 50 |
| ReleaseConfidence.BaselineIsReady | scripts/release-confidence.ts:42-93 | the hard-coded factors give stability 100 and risk 5, hence READY_FOR_RELEASE and exit code 0 |

## Left out

- Rendering: the `render*` templates, the DOM, `console`, `alert` and the page's `confirm` dialog text are
  view and I/O. Only the progress-dot classes are modelled.
- Express plumbing: middleware, static files, the catch-all route and the `listen` banner.
- Client routing: app.js has no router and no protected-path table; `state.mode` alone picks the screen.
- The file system and JSON: `existsSync`, `mkdirSync`, `readFileSync`, `writeFileSync`, `unlinkSync`,
  `JSON.parse` and `JSON.stringify` are foreign calls. They become the `FileState` value and failure flags.
  Extra keys in a hand-edited record are not represented. A file whose content does not parse is the
  `Unreadable` state: no request produces it, so it occurs only as a starting state. A read that throws on
  one call only is the per-call `readFails` flag, and it changes no state.
- ConfigStore.Store.WriteConfig: a write counts as all or nothing. A `writeFileSync` that truncates the file
  and then fails would leave a partial or unreadable file, and that case is not modelled.
- Token generation and timestamps: `Math.random`, `Date.now` and `toISOString` become parameters. The
  `createdAt` stored in each session entry is never read, so it is not modelled.
- Concurrency: racing setups and replies that arrive out of order on the page are not modelled. Each
  request or action is one atomic step.
- Request typing: body fields are strings; an absent field is the empty string. A falsy non-string
  `adminEmail` (`0`, `false`, `null`) gets the same 400 as the empty string. A truthy non-string is not
  modelled: an array such as `["@"]` passes the `includes('@')` test with its own `includes`, is written and
  is given a session; a number or an object makes `includes` throw, and Express answers 500.
- Server.HandleLogin: because absent fields are modelled as "", login cannot tell apart `undefined` and "".
  The source's strict equality does tell them apart, when both the body's email and the record's adminEmail
  are missing or empty.
- Client.SetupFinished: a successful reply is an `Issued` body carrying a session id. `/api/setup` and
  `/api/login` never send a `{success: true}` body without a session id, so that body is not modelled.
- Client.FormUpdated: only the two keys the page passes are modelled (`adminEmail`, `usageContext`).
  `updateFormData` with any other key would add a form property.
- Coupon.ValidateCoupon: the returned discount is not rounded to cents (`Math.round(discount * 100) / 100` at
  coupon.test.ts:58), because that step is floating point. Amounts are exact reals; NaN and infinities are
  not modelled.
- Coupon.ValidateCoupon: the below-minimum message text is not modelled, because it needs JavaScript's
  number-to-string conversion. The message is kept as `BelowMinimum(minPurchase)`.
- ReleaseConfidence.CalculateStabilityScore: the simulated factors are parameters; the script's values are
  `BaselineStability` and `BaselineRisk`.
- ReleaseConfidence.RunReleaseConfidence: the report is the value main serialises. The console output and
  the JSON text of the file are left out, the timestamp is the `now` parameter, and a failed directory
  creation or write is only the `reportWritten` flag.
- scripts/check-invariants.ts and scripts/cost-regression-check.ts: directory walks, regex scans and report
  writing.
- The test scaffolds under tests/chaos, tests/security, tests/ai-*, tests/integration and tests/load: each
  asserts only `true`.
- The Playwright specs under tests/e2e, the React views FilterPanel and ProductCard, and the plugin
  templates.
