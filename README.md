# Intern Portal — a Dafny model

The Intern Portal is a small web dashboard. An Express backend (`server.js`)
serves three read-only JSON endpoints from fixed in-memory records: a health
check, the current intern's profile and a five-row leaderboard. Two React
pages consume them. The Dashboard shows the profile, a copy-to-clipboard
button for the referral code and a rewards counter. The Leaderboard shows
summary figures and one ranked row per participant.

This project models that logic and proves what it does:

- `server.dfy` (module `Server`): request dispatch as a pure function from
  (method, path, query) to (status, body), with the fixed profile and
  leaderboard. The lemmas check the leaderboard's data contract: ranks are
  1..5 in order, donations strictly descend, referral codes are distinct,
  and the profile is the rank-1 row.
- `api.dfy` (module `Api`): the wire records and the leaderboard
  predicates, with the lemma that neighbour-wise descent gives a strict
  order on every pair, so rank 1 holds the maximum.
- `fetching.dfy` (module `Fetching`): the loading/error/data state both
  pages keep, the fetch routine (set loading, store data or the error,
  clear loading) and the render priority (loading, then error, then ready).
  Its lemmas follow any series of fetches. The error is never reset, so
  after one failure the page stays on the error screen for good, while its
  data keeps following the latest successful retry.
- `leaderboard.dfy` (module `Leaderboard`): participant count, total
  donations (a left fold from 0) and the average. The average is integer
  round-half-up, proved equal to `Math.round` of the exact quotient, and it
  is `None` on an empty list, where the code divides by zero. Also the rank
  icon, the rank badge, the index-based row highlight, and a
  `LeaderboardPage` class with one method per state update.
- `dashboard.dfy` (module `Dashboard`): the `'0'` and `'N/A'` fallbacks, the
  copy label, the unlocked-rewards filter, and the copy acknowledgement.
  The acknowledgement is modelled as a clock plus a queue of reset
  deadlines, because timers are never cancelled. The `DashboardPage` class
  has one method per event: fetch steps, copy, time passing, a timer firing.
- `common.dfy` (module `Common`): an `Option` type, JavaScript truthiness of
  an optional string, and the decimal rendering of an integer, with its
  round trip.

Three behaviours of the code shape the model, and the model keeps them
as written:

- `error` is set in the `catch` blocks and never reset to null
  (Leaderboard.jsx:21, Dashboard.jsx:22), so after a failure a successful
  "Try Again" stores the new data but the page stays on the error screen
  (`Fetching.ErrorIsSticky`, `Fetching.RetryAfterFailureShowsError`).
- The average divides the total by `leaderboardData.length` unguarded
  (Leaderboard.jsx:130), which on an empty list gives `NaN`;
  `Leaderboard.AveragePerPerson` returns `None` there.
- The acknowledgement's `setTimeout` (Dashboard.jsx:34) is never cancelled,
  so an earlier copy's timer can clear a later copy's acknowledgement early
  (`Dashboard.EarlierTimerCutsAcknowledgementShort`).

Two methods without contracts of their own serve as worked examples of the
classes: `Leaderboard.RetryScenario` mounts the page, fails one request and
retries successfully, and `Dashboard.DoubleCopyScenario` copies twice
1500 ms apart and watches the first timer clear the second acknowledgement.

Environment inputs become parameters: the outcome of each HTTP request
(`Outcome`: a payload or a failure), the clipboard write's success, the
passing of time and the health check's timestamp.

## Model

| member | source | states |
|---|---|---|
| `Server.Handle` | server.js:19-102 | status is 200 exactly for the three GET routes; every other request gets 404 and an error body |
| `Server.HealthCheck` | server.js:20-25 | `GET /api/health` answers 200 with status "OK", the fixed message and the given timestamp |
| `Server.InternEndpoint` | server.js:29-37 | `GET /api/intern` answers 200 with the fixed profile: name "Vishwa Vikas", non-empty code "vishwavy2025", donations 7400 ≥ 0 |
| `Server.LeaderboardEndpoint` | server.js:47-87 | `GET /api/leaderboard` answers 200 with the fixed five entries, which satisfy the whole data contract |
| `Server.NotFound` | server.js:97-102 | any unmatched request gets 404, error "Route not found" and message "Cannot <method> <path+query>" |
| `Server.LeaderboardDataWellFormed` | server.js:49-85 | ranks are 1..5 in list order and unique; donations strictly descend; rank 1 has the maximum; no amount is negative |
| `Server.LeaderboardCodesDistinct` | server.js:49-85 | the five referral codes are pairwise distinct |
| `Server.InternIsTopOfLeaderboard` | server.js:31-54 | the profile equals the rank-1 row on name, referral code and donations |
| `Api.DescendingEverywhere` | server.js:49-85 | descent between neighbours gives strict descent between any two positions |
| `Api.TopRankHoldsMaximum` | server.js:49-85 | with contiguous ranks and descending amounts, ranks are unique, rank 1 is the first entry, and it donated more than any other |
| `Fetching.Fetch` | frontend/src/pages/Leaderboard.jsx:14-26 | a fetch always ends not loading; success replaces the data, failure sets the message, and an earlier error is never cleared |
| `Fetching.ScreenOf` | frontend/src/pages/Leaderboard.jsx:54-74 | spinner exactly while loading; otherwise the error screen exactly when the error is truthy; otherwise the data |
| `Fetching.FetchAll` | frontend/src/pages/Leaderboard.jsx:11-26 | fetches one after another: none leaves the state alone, any ends not loading, and a set error stays set |
| `Fetching.LatestPayload` | frontend/src/pages/Leaderboard.jsx:19 | the data left after a series of fetches is the last successful payload, or the old data if none succeeded |
| `Fetching.FetchAllState` | frontend/src/pages/Dashboard.jsx:15-27 | after a series of fetches: loading only if none ran, data from the last success, error set exactly when some fetch failed or it was already set |
| `Fetching.ScreenAfterFetches` | frontend/src/pages/Leaderboard.jsx:14-74 | from mount: spinner iff no fetch finished, error screen iff any fetch failed, ready with the latest data otherwise |
| `Fetching.ErrorIsSticky` | frontend/src/pages/Dashboard.jsx:15-96 | once the error is set, every later fetch, successful or not, still shows the error screen while data follows the latest success |
| `Fetching.RetryAfterFailureShowsError` | frontend/src/pages/Leaderboard.jsx:62-74 | a failure followed by a successful "Try Again" stores the new data but shows the failure message |
| `Leaderboard.TotalParticipants` | frontend/src/pages/Leaderboard.jsx:103 | one per entry, duplicates included; zero exactly for the empty list |
| `Leaderboard.TotalDonations` | frontend/src/pages/Leaderboard.jsx:116 | with no negative amounts the total is non-negative and at least each entry's amount |
| `Leaderboard.TotalDonationsAppend` | frontend/src/pages/Leaderboard.jsx:116 | the total of two lists in sequence is the sum of their totals |
| `Leaderboard.TotalDonationsWithin` | frontend/src/pages/Leaderboard.jsx:103-116 | when every amount is in [lo, hi] the total lies between count·lo and count·hi |
| `Leaderboard.RoundHalfUp` | frontend/src/pages/Leaderboard.jsx:130 | the result is within half a unit of total/count, ties going up |
| `Leaderboard.RoundHalfUpIsMathRound` | frontend/src/pages/Leaderboard.jsx:130 | the integer formula equals floor(total/count + 1/2), i.e. `Math.round` of the exact quotient |
| `Leaderboard.AveragePerPerson` | frontend/src/pages/Leaderboard.jsx:130 | undefined (None) exactly for the empty list; otherwise the nearest integer to total/length, ties up |
| `Leaderboard.AveragePerPersonIsMathRound` | frontend/src/pages/Leaderboard.jsx:130 | for a non-empty list the average is `Math.round(total / length)` |
| `Leaderboard.AveragePerPersonNonNegative` | frontend/src/pages/Leaderboard.jsx:130 | with no negative amounts the average is not negative |
| `Leaderboard.AverageWithinRange` | frontend/src/pages/Leaderboard.jsx:103-130 | on any list sorted by strictly descending amounts, the average lies between the last and the first entry's amount |
| `Leaderboard.ServerLeaderboardSummary` | frontend/src/pages/Leaderboard.jsx:103-130 | for the server's list: 5 participants, total 31400, average 6280 |
| `Leaderboard.RankIcon` | frontend/src/pages/Leaderboard.jsx:28-39 | crown exactly for rank 1, gray medal exactly for 2, amber medal exactly for 3, otherwise the text "#" followed by the rank in decimal |
| `Leaderboard.RankIconInjective` | frontend/src/pages/Leaderboard.jsx:28-39 | no two ranks get the same icon |
| `Leaderboard.RankBadge` | frontend/src/pages/Leaderboard.jsx:41-52 | the plain gray badge exactly for ranks other than 1, 2 and 3 |
| `Leaderboard.RowHighlight` | frontend/src/pages/Leaderboard.jsx:161-172 | the plain white row exactly for list positions from the fourth on |
| `Leaderboard.RankBadgeSeparatesTiers` | frontend/src/pages/Leaderboard.jsx:41-52 | two ranks share a badge iff they are in the same tier: 1, 2 and 3 each their own, every other rank one shared badge |
| `Leaderboard.RowHighlightSeparatesTiers` | frontend/src/pages/Leaderboard.jsx:161-172 | two rows share a highlight iff their list indices are in the same tier (0, 1, 2, rest) |
| `Leaderboard.RowAgreesWithBadge` | frontend/src/pages/Leaderboard.jsx:161-203 | for rows whose rank is their index plus one, the row highlight and the rank badge group them identically |
| `Leaderboard.RowIgnoresRank` | frontend/src/pages/Leaderboard.jsx:161-203 | on any list, an entry ranked 1, 2 or 3 listed fourth or later keeps its medal badge on a plain white row: the highlight follows position, not rank |
| `Leaderboard.LeaderboardPage.constructor` | frontend/src/pages/Leaderboard.jsx:6-8 | mount state: empty list, loading, no error |
| `Leaderboard.LeaderboardPage.StartFetch` | frontend/src/pages/Leaderboard.jsx:16 | sets loading and nothing else |
| `Leaderboard.LeaderboardPage.ReceiveData` | frontend/src/pages/Leaderboard.jsx:19 | replaces the list and nothing else |
| `Leaderboard.LeaderboardPage.ReceiveFailure` | frontend/src/pages/Leaderboard.jsx:21 | sets the fixed error message and nothing else |
| `Leaderboard.LeaderboardPage.FinishFetch` | frontend/src/pages/Leaderboard.jsx:24 | clears loading and nothing else |
| `Leaderboard.LeaderboardPage.FetchLeaderboardData` | frontend/src/pages/Leaderboard.jsx:14-26 | runs the four steps; the new state is `Fetch` of the old one: not loading, error only ever set |
| `Common.NatDigits` | frontend/src/pages/Leaderboard.jsx:37 | a non-empty string of decimal digits with no leading zero |
| `Common.NatDigitsRoundTrip` | frontend/src/pages/Leaderboard.jsx:37 | reading the digits back gives the number |
| `Common.IntDecimal` | frontend/src/pages/Leaderboard.jsx:37 | non-empty; starts with '-' exactly for negative numbers |
| `Common.IntDecimalRoundTrip` | frontend/src/pages/Leaderboard.jsx:37 | reading the decimal text back gives the integer |
| `Common.IntDecimalInjective` | frontend/src/pages/Leaderboard.jsx:37 | different integers get different decimal texts |
| `Common.Truthy` | frontend/src/pages/Dashboard.jsx:30 | an optional string is falsy exactly when it is missing or empty |
| `Dashboard.DonationsText` | frontend/src/pages/Dashboard.jsx:126 | the literal '0' exactly when the profile or its amount is missing; otherwise the amount itself |
| `Dashboard.ReferralText` | frontend/src/pages/Dashboard.jsx:147 | the code when present and non-empty, otherwise 'N/A' |
| `Dashboard.CopyLabel` | frontend/src/pages/Dashboard.jsx:160 | 'Copied!' exactly when the copied flag is set, otherwise 'Copy code' |
| `Dashboard.HasReferralCode` | frontend/src/pages/Dashboard.jsx:30 | the profile is present and its referral code is present and non-empty |
| `Dashboard.ServerProfileDisplay` | frontend/src/pages/Dashboard.jsx:126-147 | the server's profile shows amount 7400 and code "vishwavy2025", and the copy button has a code |
| `Dashboard.UnlockedRewards` | frontend/src/pages/Dashboard.jsx:189 | the filter keeps every unlocked reward as often as it occurs and nothing else |
| `Dashboard.UnlockedCountBounds` | frontend/src/pages/Dashboard.jsx:189 | the unlocked count is at most the list length, and equal to it iff every reward is unlocked |
| `Dashboard.RewardsSummary` | frontend/src/pages/Dashboard.jsx:41-189 | for the fixed list: exactly the first reward is unlocked, "1 of 4" |
| `Dashboard.FetchStep` | frontend/src/pages/Dashboard.jsx:15-27 | a fetch ends not loading and leaves the copied flag, the clock and the pending timers alone |
| `Dashboard.CopyStep` | frontend/src/pages/Dashboard.jsx:29-39 | no code or a failed write: nothing changes; a successful write sets copied and schedules exactly one reset 2000 ms ahead |
| `Dashboard.ElapseStep` | frontend/src/pages/Dashboard.jsx:34 | the clock moves forward by the given time, not past the next deadline; nothing else changes |
| `Dashboard.TimerStep` | frontend/src/pages/Dashboard.jsx:34 | the oldest reset fires at its deadline: the flag is cleared, that deadline leaves the queue, the others keep their order, the fetch state is untouched |
| `Dashboard.InitialWf` | frontend/src/pages/Dashboard.jsx:6-9 | the mount state (no data, loading, no error, not copied, no timers) shows the spinner and satisfies the timer invariant |
| `Dashboard.FetchStepPreservesWf` | frontend/src/pages/Dashboard.jsx:15-27 | a fetch keeps the timer invariant |
| `Dashboard.CopyStepPreservesWf` | frontend/src/pages/Dashboard.jsx:29-39 | a copy keeps the timers in firing order, within 2000 ms, and copied only while a reset is pending |
| `Dashboard.ElapseStepPreservesWf` | frontend/src/pages/Dashboard.jsx:34 | time passing up to the next deadline keeps the timer invariant |
| `Dashboard.TimerStepPreservesWf` | frontend/src/pages/Dashboard.jsx:34 | a reset firing keeps the timer invariant |
| `Dashboard.FireAllClears` | frontend/src/pages/Dashboard.jsx:34 | letting every pending timer fire clears the flag by the last deadline and leaves the fetch state alone |
| `Dashboard.AcknowledgementLastsDelay` | frontend/src/pages/Dashboard.jsx:32-34 | after a successful copy the label reads 'Copied!' and one more reset is pending; left alone, the flag is cleared by the last pending deadline, which is 2000 ms after the copy |
| `Dashboard.LoneCopyLastsDelay` | frontend/src/pages/Dashboard.jsx:32-34 | with no older reset pending, the flag stays set at every moment up to 2000 ms after the copy, and its timer clears it exactly then |
| `Dashboard.EarlierTimerCutsAcknowledgementShort` | frontend/src/pages/Dashboard.jsx:34 | two copies `gap` ms apart: the first timer clears the flag only 2000 − gap ms after the second copy, and the second timer is still pending |
| `Dashboard.DashboardPage.constructor` | frontend/src/pages/Dashboard.jsx:6-9 | mount state: no data, loading, no error, not copied, no timers |
| `Dashboard.DashboardPage.StartFetch` | frontend/src/pages/Dashboard.jsx:17 | sets loading and nothing else |
| `Dashboard.DashboardPage.ReceiveData` | frontend/src/pages/Dashboard.jsx:20 | replaces the profile and nothing else |
| `Dashboard.DashboardPage.ReceiveFailure` | frontend/src/pages/Dashboard.jsx:22 | sets the fixed error message and nothing else |
| `Dashboard.DashboardPage.FinishFetch` | frontend/src/pages/Dashboard.jsx:25 | clears loading and nothing else |
| `Dashboard.DashboardPage.FetchInternData` | frontend/src/pages/Dashboard.jsx:15-27 | runs the four steps; the new state is `Fetch` of the old one; the copied flag is untouched |
| `Dashboard.DashboardPage.CopyReferralCode` | frontend/src/pages/Dashboard.jsx:29-39 | the new state is `CopyStep` of the old one, and the timer invariant holds |
| `Dashboard.DashboardPage.Elapse` | frontend/src/pages/Dashboard.jsx:34 | advances the clock up to, not past, the next pending deadline |
| `Dashboard.DashboardPage.ResetTimerFires` | frontend/src/pages/Dashboard.jsx:34 | the oldest reset fires at its deadline and clears the flag, whichever copy scheduled it |

## Left out

- Markup, CSS other than the badge and row-highlight classes, icons' styling and layout: presentation only. The badge and row classes are only compared with each other.
- `axios` requests, `import.meta.env`, `process.env`, `app.listen` and logging: I/O and configuration. Each request's result is a parameter (`Outcome`).
- `navigator.clipboard` and real `setTimeout` timing: foreign asynchronous APIs. The write's success is a parameter, and timers fire exactly at their deadline (`Elapse` may not pass a pending deadline). Late timers are not modelled.
- `toLocaleString`, `toLocaleDateString` and `new Date().toISOString()`: locale- and clock-dependent. The health timestamp is a parameter.
- Dashboard.DonationsText: returns the amount itself (`Localized`) rather than its locale-formatted text, because `toLocaleString` depends on the locale.
- `Leaderboard.TotalDonations`: sums exactly over unbounded integers; JavaScript's `+` on Numbers is exact only while the running sum stays below 2^53.
- `Common.IntDecimal`: writes every integer in plain digits; JavaScript writes magnitudes of 10^21 and above in exponent form ("1e+21").
- `Leaderboard.AveragePerPerson`: floating-point division and `NaN` are not modelled. Amounts are integers, the quotient is exact, and the empty list gives `None`.
- Express middleware (`helmet`, `cors`, `express.json`), its path matching (case-insensitive paths, trailing slashes, `HEAD` answered by `GET` routes), the `OPTIONS` preflight that `cors()` (server.js:11-16) answers with 204 before any route, and the generic error handler (server.js:105-111): library behaviour outside this repository. `Server.Handle` therefore answers as the server does only for paths that match a route exactly (same case, no trailing slash), for methods other than `OPTIONS`, for `HEAD` only on unmatched paths, and for requests whose JSON body, if any, parses (`express.json()` at server.js:17 turns a malformed body into the error handler's 500).
- The `catch` branches of the intern and leaderboard handlers (server.js:38-43, 88-93): unreachable, since their `try` blocks only build literals.
- Overlapping fetches, stale responses and a page unmounting before a timer fires: the code does nothing about them, and fetches are modelled one after another.
- The leaderboard payload is taken to be well-typed entries: with a missing `donations` field the JavaScript sum would become `NaN`, which is not modelled.
- The welcome line (`internData?.name`), the fixed "#1" rank card and the reward progress bars: they display values without logic.
- frontend/src/App.jsx: router wiring to components that are not part of this model.
