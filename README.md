# Starlink usage dashboard core, in Dafny

This project models the two pieces of logic behind a billing dashboard for a
satellite-internet service line:

- **The usage transform** (`app/lib/starlinkUsageTransform.ts`, module
  `UsageTransform` in `usage_transform.dfy`). It turns the first result entry
  of an upstream usage-query response into a `Dashboard`:
  - each daily usage entry becomes a `DailyRow`: missing values count as 0, every field is rounded to hundredths, and the date is cut to its first ten characters;
  - each billing cycle becomes a `CycleSummary` with its total, its average per day, its first peak day and its first overage line;
  - the current cycle is the first one whose `[start, end)` interval contains `now`, and the previous cycle is the one just before it by position;
  - a rolling window holds the last 30 daily rows of all cycles, pooled and sorted by date, with its own summary.

  Module `DateOrder` (`date_order.dfy`) holds the string order that the dates are sorted by.
- **The token cache** (`app/lib/elcomeToken.ts`, module `ElcomeToken` in
  `elcome_token.dfy`). One bearer token is cached per process, with a
  30-second safety margin. One "refresh in flight" marker is shared by every
  caller: callers that arrive during a refresh join it instead of issuing a
  second token request, and the marker is cleared whether the refresh
  succeeds or fails.

Module `Wrappers` (`wrappers.dfy`) holds `Option`, `Result`, `Min` and `Max`.

Modelling decisions:

- Gigabyte quantities are exact `real`s. `round2` is `Floor(x*100 + 1/2)/100`. `Math.round` sends exact halves toward plus infinity, so a negative half such as -0.005 rounds to 0, not away from zero (`Round2HalvesGoUp`).
- A row's total is rounded from the unrounded sum of the three inputs, not from the three rounded fields. `NormalizedTotalDrift` bounds the difference at 0.01, and `NormalizedTotalNotSumOfFields` shows that it occurs.
- A missing or `null` upstream value is `None`. Numeric strings are taken as already converted to numbers.
- Cycle boundary dates are turned into instants by a `parse: string -> Option<int>` parameter. `None` stands for an invalid date, which compares false, so such a cycle never contains `now`. The clock (`now`) is also a parameter.
- `find` followed by `indexOf` is modelled as written. `CurrentIndexIsFirstContaining` proves that the pair yields the lowest index whose cycle contains `now`.
- The comparator sort is a stable insertion sort on a copy, ordered by `DateOrder.LexLe` (character-code order).
- The token cache is a class with the two process-wide slots, `cached` and `inflight`, plus `issued`, the number of token requests sent so far. `issued` numbers the refreshes, so a waiting caller knows which refresh it awaits. `getElcomeToken` is split at its `await`:
  - `Request` runs up to the `await`: it returns the cached token, joins the refresh in flight, or starts a new one;
  - `Settle` runs when the token request completes: on success it stores the token, and in every case it clears the in-flight marker.

  The token endpoint's answer is an input to `Settle`.

## Model

| member | source | states |
|---|---|---|
| `UsageTransform.Round2` | app/lib/starlinkUsageTransform.ts:86-88 | the result is a whole number of hundredths within (x - 0.005, x + 0.005] |
| `UsageTransform.RoundsToUnique` | app/lib/starlinkUsageTransform.ts:86-88 | at most one value satisfies that rounding contract, so it characterises `round2` completely |
| `UsageTransform.Round2Idempotent` | app/lib/starlinkUsageTransform.ts:86-88 | rounding an already rounded value changes nothing |
| `UsageTransform.Round2HalvesGoUp` | app/lib/starlinkUsageTransform.ts:86-88 | exact halves round toward plus infinity: 0.005 to 0.01, -0.005 to 0, -0.015 to -0.01 |
| `UsageTransform.OrZero` | app/lib/starlinkUsageTransform.ts:92-94 | `?? 0`: a missing or null value counts as 0, a present one is kept |
| `UsageTransform.ToIsoDateOnly` | app/lib/starlinkUsageTransform.ts:82-84 | the result is a prefix of the input, of length min(10, length of the input) |
| `UsageTransform.NormalizeDaily` | app/lib/starlinkUsageTransform.ts:91-103 | the date is the ten-character prefix of the upstream date; each field is the rounding of its input, missing counting as 0; the total is the rounding of the unrounded sum |
| `UsageTransform.NormalizedTotalDrift` | app/lib/starlinkUsageTransform.ts:98-101 | a row's total differs from the sum of its three rounded fields by at most 0.01 |
| `UsageTransform.NormalizedTotalNotSumOfFields` | app/lib/starlinkUsageTransform.ts:98-101 | inputs 0.004, 0.004 and missing give fields 0, 0, 0 and total 0.01 |
| `UsageTransform.DayCount` | app/lib/starlinkUsageTransform.ts:107 | the divisor is at least 1 and equals the row count for a non-empty list |
| `UsageTransform.PeakIndex` | app/lib/starlinkUsageTransform.ts:110-118 | the strict-`>` scan from 0 ends on no row exactly when no total is positive, and otherwise on the first row holding the largest total |
| `UsageTransform.FirstPeakUnique` | app/lib/starlinkUsageTransform.ts:110-118 | the first row holding the largest positive total is unique |
| `UsageTransform.Summarize` | app/lib/starlinkUsageTransform.ts:105-121 | the summary is the rounded sum of the totals, the rounded average over max(1, n) days, and the first peak: its rounded total and its date, or 0 and null when no row is positive |
| `UsageTransform.SummaryOfUnique` | app/lib/starlinkUsageTransform.ts:105-121 | those conditions determine the summary uniquely |
| `UsageTransform.SummarizeEmpty` | app/lib/starlinkUsageTransform.ts:105-121 | no rows give total 0, average 0, peak 0 and a null peak date |
| `UsageTransform.SummarizeDaily` | app/lib/starlinkUsageTransform.ts:105-121 | the loop over the rows with a running peak and date returns exactly that summary |
| `UsageTransform.SumTotals` | app/lib/starlinkUsageTransform.ts:106 | the `reduce` sum: 0 for no rows, the row's own total for one row |
| `UsageTransform.SumTotalsNonNegative` | app/lib/starlinkUsageTransform.ts:106 | the sum is never negative when no row's total is negative |
| `UsageTransform.SumTotalsFirst` | app/lib/starlinkUsageTransform.ts:106 | the left-to-right sum equals the first row's total plus the sum of the rest |
| `UsageTransform.SumTotalsAppend` | app/lib/starlinkUsageTransform.ts:106 | the sum of the totals of two concatenated lists is the sum of their sums |
| `UsageTransform.SumTotalsRemove` | app/lib/starlinkUsageTransform.ts:106 | removing one row removes its total from the sum |
| `UsageTransform.SumTotalsPermutation` | app/lib/starlinkUsageTransform.ts:106 | the exact sum of the totals is the same for any reordering of the rows |
| `UsageTransform.PickOverageFromCycle` | app/lib/starlinkUsageTransform.ts:124-134 | absent exactly when the overage lines are missing, empty or start with null; otherwise the four fields of the first line, a missing field giving null |
| `UsageTransform.DailyUsageOf` | app/lib/starlinkUsageTransform.ts:138 | the upstream daily entries, or none when the field is missing |
| `UsageTransform.BuildCycleSummary` | app/lib/starlinkUsageTransform.ts:137-154 | dates copied; one daily row per upstream entry, in order (none when absent); category totals from the upstream totals with 0 for missing; total, average and peak the summary of its own rows; overage from the first line |
| `UsageTransform.Contains` | app/lib/starlinkUsageTransform.ts:160-164 | containment needs both dates to parse and `start <= now < end`; the end instant is never contained, the start instant is whenever it precedes the end |
| `UsageTransform.FindFrom` | app/lib/starlinkUsageTransform.ts:160-164 | finds nothing exactly when no cycle from the start position on contains `now`; what it finds contains `now` |
| `UsageTransform.FindFromIsFirst` | app/lib/starlinkUsageTransform.ts:160-164 | what it finds is the first containing cycle from the start position on |
| `UsageTransform.FindCurrentCycle` | app/lib/starlinkUsageTransform.ts:157-166 | null exactly when no cycle's `[start, end)` contains `now`; otherwise a cycle that contains it |
| `UsageTransform.IndexOf` | app/lib/starlinkUsageTransform.ts:177 | -1 exactly when the element is absent, otherwise the first position holding it |
| `UsageTransform.CurrentIndex` | app/lib/starlinkUsageTransform.ts:176-177 | the current index is -1 or a valid position |
| `UsageTransform.CurrentIndexIsFirstContaining` | app/lib/starlinkUsageTransform.ts:176-177 | `find` then `indexOf` gives -1 exactly when no cycle contains `now`, otherwise the lowest position whose cycle contains it |
| `UsageTransform.AllDaily` | app/lib/starlinkUsageTransform.ts:183 | the `flatMap` pool is empty with no cycles and is the cycle's own rows with one cycle |
| `UsageTransform.AllDailyHoldsEveryRow` | app/lib/starlinkUsageTransform.ts:183 | the pool holds every row of every cycle (with multiplicity) and nothing that is in no cycle |
| `UsageTransform.AllDailyAppend` | app/lib/starlinkUsageTransform.ts:183 | the pool of two lists of cycles is the concatenation of their pools |
| `UsageTransform.AllDailySplit` | app/lib/starlinkUsageTransform.ts:183 | the pool holds each cycle's rows, in order, between those of the cycles before and after it |
| `UsageTransform.InsertByDate` | app/lib/starlinkUsageTransform.ts:184 | insertion adds exactly one row and keeps a date-sorted list sorted |
| `UsageTransform.SortByDate` | app/lib/starlinkUsageTransform.ts:184 | the result is sorted by date and is a permutation of the input |
| `UsageTransform.SortedPairwise` | app/lib/starlinkUsageTransform.ts:184 | in a sorted list every date sorts at or before every later one |
| `UsageTransform.RollingWindow` | app/lib/starlinkUsageTransform.ts:183-187 | the window is the last min(30, n) rows of the date-sorted pool, is sorted, is drawn from the pool, and carries the summary of its own rows |
| `UsageTransform.RollingWindowHoldsLatest` | app/lib/starlinkUsageTransform.ts:184-186 | every row the window leaves out sorts at or before every row it keeps |
| `UsageTransform.RollingWindowCoversSmallPool` | app/lib/starlinkUsageTransform.ts:183-187 | with at most 30 rows in all, the window holds all of them and its total is the rounding of their exact sum |
| `UsageTransform.FirstResult` | app/lib/starlinkUsageTransform.ts:170 | absent exactly when the content, the results list or its first element is missing or null; otherwise that first element |
| `UsageTransform.CyclesOf` | app/lib/starlinkUsageTransform.ts:173 | the upstream billing cycles, or none when the field is missing |
| `UsageTransform.Summaries` | app/lib/starlinkUsageTransform.ts:174 | one cycle summary per upstream cycle, in order |
| `UsageTransform.CycleRanges` | app/lib/starlinkUsageTransform.ts:196 | one start/end pair per upstream cycle, in upstream order |
| `UsageTransform.BuildDashboardFromResponse` | app/lib/starlinkUsageTransform.ts:169-198 | an error exactly when `results[0]` is missing or null; otherwise header fields copied, cycle ranges in order, the rolling window of all cycles' rows, and the current and previous cycle chosen by `CurrentAndPrevious` |
| `UsageTransform.CurrentAndPrevious` | app/lib/starlinkUsageTransform.ts:176-180 | the current cycle is null exactly when no cycle contains `now`, and then the previous one is null too |
| `UsageTransform.CurrentAndPreviousAt` | app/lib/starlinkUsageTransform.ts:176-180 | when k is the lowest index whose cycle contains `now`, current is the summary of cycle k and previous the summary of cycle k - 1 when k > 0, else null |
| `DateOrder.LexLe` | app/lib/starlinkUsageTransform.ts:184 | the comparator's order: a prefix sorts first, otherwise the first differing character decides; a non-empty string never sorts before the empty one |
| `DateOrder.LexLeReflexive` | app/lib/starlinkUsageTransform.ts:184 | every date sorts at or before itself |
| `DateOrder.LexLeTotal` | app/lib/starlinkUsageTransform.ts:184 | any two dates are comparable |
| `DateOrder.LexLeTransitive` | app/lib/starlinkUsageTransform.ts:184 | the date order is transitive |
| `DateOrder.LexLeAntisymmetric` | app/lib/starlinkUsageTransform.ts:184 | the comparison ties only identical strings |
| `ElcomeToken.IsValid` | app/lib/elcomeToken.ts:20-25 | an empty cache is invalid; a cached token is valid exactly when its expiry is more than 30000 ms after `now` |
| `ElcomeToken.ValidityBoundary` | app/lib/elcomeToken.ts:20-25 | an empty cache is never valid; a token expiring exactly at now + 30000 is invalid, one at now + 30001 is valid |
| `ElcomeToken.TokenRequestForm` | app/lib/elcomeToken.ts:33-37 | grant type, client id and client secret always, in that order; `scope` as a fourth field exactly when configured and non-empty |
| `ElcomeToken.TokenFromResponse` | app/lib/elcomeToken.ts:53-59 | access token and scope copied, token type defaulting to "Bearer", expiry `expires_in` seconds after receipt |
| `ElcomeToken.FreshTokenLifetime` | app/lib/elcomeToken.ts:53-59 | a fresh token is valid exactly until 30 seconds before its expiry; one living 30 seconds or less is never valid after it arrives |
| `ElcomeToken.TokenCache.constructor` | app/lib/elcomeToken.ts:15-18 | both slots start empty, with no request issued |
| `ElcomeToken.TokenCache.Request` | app/lib/elcomeToken.ts:62-78 | a valid cached token is returned with nothing changed; otherwise an in-flight refresh is joined with nothing changed; otherwise one new request is issued and marked in flight, with the cache untouched |
| `ElcomeToken.TokenCache.Settle` | app/lib/elcomeToken.ts:74-84 | the refresh settled is the last one issued; on success the new token is cached and returned; on failure the error carries status and body and the cache is unchanged; in both cases the in-flight marker is cleared |
| `ElcomeToken.ConcurrentCallersShareOneRefresh` | app/lib/elcomeToken.ts:62-85 | two callers with nothing cached wait on the same refresh, one request is issued, and a later caller gets the stored token from the cache |
| `ElcomeToken.FailedRefreshAllowsRetry` | app/lib/elcomeToken.ts:80-84 | after a failed refresh the error is reported and the next caller starts a second request |

## Left out

- Binary floating point is not modelled. Quantities are exact reals, so `Math.round(n*100)/100` artefacts on values such as `.xx5` do not arise.
- `Number(...)` coercion of numeric strings is not modelled: upstream values are taken as numbers already.
- `new Date(...).getTime()` and `Date.now()` are not modelled. They become the `parse` and `now` parameters.
- `localeCompare` is modelled as plain character-code order, with no locale collation.
- ToIsoDateOnly: strings are sequences of Unicode scalar values, while JavaScript slices UTF-16 code units; the two differ only for characters outside the Basic Multilingual Plane.
- SortByDate: the model sorts stably, as `Array.prototype.sort` does, but stability is not stated or proved. The contract says sorted and a permutation only.
- IndexOf: JavaScript's `indexOf` compares by reference; the model compares by value. This gives the same index here: any earlier position holding an equal cycle would also contain `now` and would have been found first.
- Error messages: the thrown error text is a plain string for the missing result entry. A failed token request is `TokenRequestFailed(status, body)` rather than a formatted message.
- The `fetch` calls, the `Content-Type` header, form encoding by `URLSearchParams`, JSON decoding and the `process.env` lookups are not modelled. The endpoint's answer is the `outcome` input of `Settle`, and the configuration values are parameters of `TokenRequestForm`.
- TokenFromResponse: `expires_in` is an integer number of seconds. A fractional value is not modelled.
- Concurrency is not modelled. Callers are modelled one step at a time: `Request` for the part before the `await`, `Settle` for the completion. The interleavings of real event-loop scheduling are not. Neither is the short gap between storing the new token and clearing the in-flight marker, which the model treats as one step.
- The proxy route (`app/app/api/starlink/raw-usage/route.ts`) and the UI components (`app/app/page.tsx`, `app/components/*.tsx`) are not part of this model.
