# Job lifecycle and countdown of a volunteer-dispatch tracker, in Dafny

Citizens report waste-dump sites. Each report becomes a job with a severity tier
(`low`, `medium`, `high`). Field workers accept a pending job, which starts a
countdown whose length depends on the tier. They then complete it for a bonus that
also depends on the tier. This project models the store that holds the jobs and the
workers and performs these transitions, and the countdown the job card displays.

- `types.dfy` (`Types`): the user, earning-record and job records, with every optional
  field as an `Option` and every date as an integer instant in milliseconds.
- `seqs.dfy` (`Seqs`): `find` as `FirstIndex` (the first match) and `filter` as `Filter`.
  Both are specified without reference to their bodies.
- `jobstore.dfy` (`JobStore`): the severity tables. It also has the three transitions as
  pure functions over a `Snapshot` of both collections: `Accept`, `Complete`, and the
  deferred auto-release `Release`. The lemmas relate several transitions. The class
  `Store` holds `jobs` and `users` as fields, and its methods are proved to perform
  exactly those transitions.
- `jobtimer.dfy` (`JobTimer`): elapsed and remaining seconds, the overtime flag and
  magnitude, the render guard, `formatTime` with decimal printing, the colour band and
  the duration caption.
- `lifecycle.dfy` (`JobsPage`, `Lifecycle`): the Jobs page's availability check around
  `acceptJob`, and lemmas connecting the store's transitions to the countdown.

Behaviour of the code worth knowing, which the model keeps:

- The store's `acceptJob` does not look at the worker's availability. Besides finding
  the user and the job, it checks only that the job is pending
  (src/stores/jobStore.ts:54). Only the page handler refuses a busy session user
  (`AcceptIgnoresBusy`, `JobsPage.HandleAcceptJob`).
- `completeJob`, besides finding the user and the job, checks only that the job is
  assigned to the caller, not that it is still accepted (src/stores/jobStore.ts:106).
  Completing the same job twice therefore succeeds twice and pays two bonuses
  (`CompleteTwicePaysTwice`).
- Nothing keeps "busy exactly when holding one accepted job". The auto-release frees a
  worker whose job is still accepted (src/stores/jobStore.ts:87-96, `AcceptThenRelease`).
- A job or user is looked up by the first element with the id, but an update rewrites
  every element with that id. The model does not assume that ids are unique.
- The timer is hidden when `timerStartedAt` or `timerDuration` is 0. This follows
  JavaScript truthiness, not just whether the field is present.

## Model

| member | source | states |
|---|---|---|
| Seqs.FirstIndex | src/stores/jobStore.ts:51-52 | `find`: the index returned holds a match and nothing before it does; `None` exactly when nothing matches |
| Seqs.Filter | src/stores/jobStore.ts:152-162 | `filter`: the result is a subsequence of the input (same order). It holds every matching element exactly as often as the input does, and nothing else |
| Seqs.FilterAppend | src/pages/Profile.tsx:9-11 | filtering `s + [x]` gives the filter of `s`, followed by `x` if `x` passes |
| JobStore.JobIndex | src/stores/jobStore.ts:52 | the job lookup gives the first position with the id, or none when no job has it |
| JobStore.UserIndex | src/stores/jobStore.ts:51 | the user lookup gives the first position with the id, or none when no user has it |
| JobStore.TimerMinutes | src/stores/jobStore.ts:59-60 | the duration table itself: 240 min for `high`, 120 for `medium`, 60 otherwise |
| JobStore.BonusAmount | src/stores/jobStore.ts:123-124 | the bonus table itself: 500 for `high`, 300 for `medium`, 200 otherwise |
| JobStore.TablesAgree | src/stores/jobStore.ts:59-60 | for every tier the duration is 4, 2 or 1 whole hours (`high`, `medium`, `low`); both the duration table and the bonus table strictly increase from `low` to `medium` to `high` |
| JobStore.NewJob | src/stores/jobStore.ts:27-33 | the new job has the given id and timestamp, is `pending` and unpaid, and keeps every supplied field (`DraftOf` recovers the draft) |
| JobStore.NewJobOfDraft | src/stores/jobStore.ts:27-33 | the converse: a pending, unpaid job is rebuilt from its own draft, id and timestamp |
| JobStore.Store.AddJob | src/stores/jobStore.ts:26-39 | exactly one job, `NewJob(draft, id, now)`, is appended at the end and returned; earlier jobs and users are unchanged |
| JobStore.Store.UpdateJob | src/stores/jobStore.ts:41-47 | every job with the id is overwritten field by field by the update; every other job and all users are unchanged |
| JobStore.Apply | src/stores/jobStore.ts:43 | the object spread `{ ...job, ...updates }`: each field the update supplies replaces the job's, every other field is kept; its properties are the two lemmas below |
| JobStore.ApplyNoChangesAndTwice | src/stores/jobStore.ts:42-44 | an empty update is the identity; applying an update twice equals applying it once |
| JobStore.ApplyMerge | src/stores/jobStore.ts:42-44 | two successive updates equal one update by their merge (later fields win) |
| JobStore.Accept | src/stores/jobStore.ts:49-84 | success exactly when the user exists, the job exists and the found job is `pending`; on failure nothing changes. On success: every job with the id becomes `accepted`, assigned to the user, with the user's name, start and acceptance time `now`, and duration from the found job's tier. The job's report facts, `bonusPaid` and `completedAt` stay. Other jobs stay. Users with the id become `busy` with everything else kept; other users stay |
| JobStore.Store.AcceptJob | src/stores/jobStore.ts:49-98 | returns and leaves exactly what `Accept` gives for the old jobs and users |
| JobStore.AcceptIgnoresBusy | src/stores/jobStore.ts:49-56 | a user whose own record is `busy` can still accept a pending job |
| JobStore.SecondAcceptFails | src/stores/jobStore.ts:54-56 | after a successful accept, any later accept of the same job fails, changes nothing, and the job stays assigned to the first worker |
| JobStore.Release | src/stores/jobStore.ts:87-96 | jobs are untouched and only users' `status` can change, only for the id. Afterwards the found user is `free`; when that user was `busy`, every user with the id is `free`. When that user was absent or already free, nothing changes |
| JobStore.Store.ReleaseUser | src/stores/jobStore.ts:88-95 | leaves exactly what `Release` gives for the old state |
| JobStore.ReleaseIdempotent | src/stores/jobStore.ts:87-96 | releasing twice equals releasing once |
| JobStore.AcceptThenRelease | src/stores/jobStore.ts:86-96 | after accept and then release, the worker is `free` but the job is still `accepted` and still assigned to them |
| JobStore.Complete | src/stores/jobStore.ts:101-143 | success exactly when the user exists, the job exists and the found job is assigned to the user; on failure nothing changes. On success: every job with the id becomes `completed` at `now` with `bonusPaid`, keeping its report and assignment. Users with the id become `free`, both counters rise by exactly 1, and the earnings gain exactly one appended bonus record for the job with 500/300/200 by the found job's tier. Account fields and everything else stay |
| JobStore.Store.CompleteJob | src/stores/jobStore.ts:101-150 | returns and leaves exactly what `Complete` gives for the old jobs and users |
| JobStore.SumAmounts | src/pages/Profile.tsx:9-11 | the `reduce` sum of the records' amounts, left to right; non-negative when every amount is |
| JobStore.BonusTotal | src/pages/Profile.tsx:9-11 | the profile's bonus total: the sum over the bonus records only; 0 when there is no bonus record, non-negative when no amount is negative |
| JobStore.BonusTotalAppend | src/pages/Profile.tsx:9-11 | appending a record raises the profile's bonus total by its amount if it is a bonus, and by nothing otherwise |
| JobStore.CompletePaysBonus | src/stores/jobStore.ts:122-140 | a successful completion raises the worker's bonus total by exactly the tier's bonus |
| JobStore.CompleteTwicePaysTwice | src/stores/jobStore.ts:106 | completing a completed job again by the same worker succeeds; the ledger then holds two more records and `completedToday` is 2 higher |
| JobStore.ReleaseAfterComplete | src/stores/jobStore.ts:90 | a release that fires after completion finds the worker free and changes nothing |
| JobStore.Store.JobsByZone | src/stores/jobStore.ts:152-154 | exactly the jobs of the zone, with multiplicity, in store order; nothing is modified |
| JobStore.Store.JobsByStatus | src/stores/jobStore.ts:156-158 | exactly the jobs with the status, with multiplicity, in store order |
| JobStore.Store.UserJobs | src/stores/jobStore.ts:160-162 | exactly the jobs assigned to the user, with multiplicity, in store order |
| JobsPage.HandleAcceptJob | src/pages/Jobs.tsx:34-47 | a busy session user is refused with no change; otherwise the outcome is the store's `Accept` |
| JobTimer.ElapsedSeconds | src/components/JobTimer.tsx:20-21 | whole seconds since the start, rounded down: `e*1000 <= now - start < e*1000 + 1000` |
| JobTimer.RemainingSeconds | src/components/JobTimer.tsx:22 | duration in seconds minus elapsed seconds; at most 0 exactly when the full duration in ms has passed |
| JobTimer.UpdateTimer | src/components/JobTimer.tsx:18-31 | overtime exactly when at least the full duration in ms has passed since the start; the magnitude is whole elapsed seconds past the deadline, or the positive seconds still left |
| JobTimer.ShowsTimer | src/components/JobTimer.tsx:39 | the render guard: `timerStartedAt` and `timerDuration` present and nonzero (truthy) and the status `accepted` |
| JobTimer.Projection | src/components/JobTimer.tsx:39-41 | a countdown is rendered exactly when both timer fields are truthy and the job is `accepted` |
| JobTimer.OvertimeAtDeadline | src/components/JobTimer.tsx:20-26 | at start + D min the display is overtime +0, one second later overtime +1; at the start it shows the full D·60 s |
| JobTimer.TimerColorOf | src/components/JobTimer.tsx:54-58 | `getTimerColor`: red when overtime, orange below 600 s left, green otherwise; `ColorBands` restates the bands in time |
| JobTimer.ColorClasses | src/components/JobTimer.tsx:55-57 | the class string `getTimerColor` returns for each band; `ColorClasses(TimerColorOf(st))` is its result |
| JobTimer.ColorBands | src/components/JobTimer.tsx:54-58 | red exactly from the deadline on; orange exactly in the last 599 whole seconds before it; green exactly before that |
| JobTimer.NatToString | src/components/JobTimer.tsx:49-51 | a number prints as a non-empty string of decimal digits with no leading zero; 0 prints as exactly `0` |
| JobTimer.NatToStringRoundTrip | src/components/JobTimer.tsx:49-51 | reading the printed digits back gives the number |
| JobTimer.ClockOf | src/components/JobTimer.tsx:43-46 | `hours*3600 + minutes*60 + secs` is the input, with minutes and seconds below 60 |
| JobTimer.ClockUnique | src/components/JobTimer.tsx:43-46 | any such split with minutes and seconds below 60 is the one `formatTime` computes |
| JobTimer.FormatTime | src/components/JobTimer.tsx:43-52 | `formatTime`: `<h>h <m>m <s>s` from the `ClockOf` split, without the hours part when it is 0; `FormatShowsHours` states when the hours part appears |
| JobTimer.FormatShowsHours | src/components/JobTimer.tsx:48-51 | the text has an hours part exactly when the value is at least 3600 s (hours > 0) |
| JobTimer.DurationLabel | src/components/JobTimer.tsx:84 | the caption: "1 hour" for 60 min, "2 hours" for 120, "4 hours" for anything else; `LabelMatchesTable` ties it to the duration table |
| Lifecycle.LabelMatchesTable | src/components/JobTimer.tsx:84 | for every tier, the duration caption names the whole number of hours the accept table grants ("1 hour", "2 hours", "4 hours") |
| Lifecycle.AcceptStartsTimer | src/stores/jobStore.ts:70-72 | right after a successful accept at a nonzero `now`, the job shows the full duration, overtime +0 at the deadline and overtime +1 a second later |
| Lifecycle.CompleteStopsTimer | src/components/JobTimer.tsx:14-16 | after a successful completion the job shows no countdown at any time |
| Lifecycle.ReleaseKeepsTimers | src/stores/jobStore.ts:87-96 | the auto-release leaves every job's countdown as it was |

## Left out

- `setTimeout` scheduling (jobStore.ts:87, 96): only the body of the deferred action is modelled, as `Release`/`ReleaseUser`. When it fires, and whether it fires at all, is not modelled.
- `setInterval` polling and React state in `JobTimer`: the model evaluates `updateTimer` at a given `now`. The first render, before the effect has run, shows the initial state (0 s, not overtime). That render is not modelled.
- Clock reads: `Date.now()` and `new Date().toISOString()` become one `now` parameter in milliseconds. The source reads the clock separately for `acceptedAt`/`completedAt`/the earning date and for `timerStartedAt`, so these can differ by a few milliseconds there. ISO strings are represented by the instant they print.
- Persistence: `getUsers`/`saveUsers` and `saveJobs` become reads and writes of the `users` and `jobs` fields. `loadJobs` re-reads `jobs` from storage, which is I/O and is not modelled. The fallback that generates mock users when storage is empty is not modelled either.
- `generateId` and the zone lookup come from src/utils/helpers.ts, which is not part of this model. The id and the zone are inputs.
- The text around the countdown (the "+" prefix, the "OVERTIME" heading, the icons, the tier name after the duration caption) is display markup and is not modelled.
- Image classification, login and session handling, mock data, the dashboards and the other pages depend on floating point, randomness, the canvas or the UI, and are not modelled.
- JavaScript numbers become unbounded integers; counters and amounts never come near 2^53 here. Coordinates are `real` and are only carried.
