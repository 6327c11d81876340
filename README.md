# dynamic-device-status: the dashboard front end in Dafny

The dashboard of dynamic-device-status is one script, `Frontend/main.js`. It
lists a company's devices as cards and filters them by status and by a search
term. A summary line counts the online devices. The list refreshes on demand.
It also refreshes every ten seconds while auto-refresh is on and polling is not
paused, but only once a timer has been armed. Loading the page arms none
(main.js:196-199); a company change, an auto-refresh toggle or a pause click
arms it. A toast appears for every device that went from offline to online
since the previous refresh.

This project models that script:

- **State.** The script's module-level variables (`currentCompanyId`,
  `devicesCache`, `pollHandle`, `autoRefresh`, `paused`, `statusFilter`,
  `searchTerm`), the browser's live interval timers, and the parts of the page
  the script writes are the fields of one class, `Dashboard.Dashboard`.
- **Operations.** The script's functions that change state are methods of that
  class: `setLoading`, `renderCompanyOptions`, `renderDevices`, `loadCompanies`,
  `refreshDevices` and `startPolling`. So are the event handlers that
  `wireEvents` installs, the polling callback and the `DOMContentLoaded`
  start-up. Each runs to completion, and the result of its HTTP request is a
  parameter.
- **Pure parts.** `applyFilters` is the function `Devices.ApplyFilters`. The
  toast computation of `refreshDevices` is `Transitions.TransitionToasts`, and
  `toast(msg)` is an append to `Page.toasts`. The DOM helpers `qs` and `qsa`
  have no counterpart: the page elements are fields of `Page`.
- **Specifications.** The methods are proved against pure functions in
  `Document` and `Polling`, whose properties are proved as lemmas:
  - `Loading` specifies `setLoading`;
  - `Render` specifies `renderDevices`;
  - `Refresh` specifies a whole `refreshDevices` call, including its `finally`;
  - `Restart` specifies `startPolling`.
- **Object invariant.** `Dashboard.Dashboard.Valid` holds between events and
  every handler keeps it:
  - at most one polling timer is live, and it is the one `pollHandle` names;
  - no timer is live while auto-refresh is off or polling is paused;
  - the loading skeletons are gone;
  - the summary counts describe the cached list;
  - the pause button's label matches `paused`.

Modules, one per file:

| module | file | models |
|---|---|---|
| `Wrappers` | wrappers.dfy | `Option`, and `Fetch`: the outcome of one request (resolved with a value, or rejected) |
| `Text` | text.dfy | the JavaScript string operations the script uses: `trim`, `toLowerCase`, `includes`, and number-to-text coercion |
| `Seqs` | seqs.dfy | `Array.prototype.filter` and subsequences |
| `Devices` | devices.dfy | the device and company records, `applyFilters`, and the summary counts |
| `Transitions` | transitions.dfy | the offline-to-online toasts of a refresh |
| `Polling` | polling.dfy | the interval timers and `startPolling` |
| `Document` | document.dfy | the page as a value, and `setLoading`, `renderDevices` and `refreshDevices` on it |
| `Dashboard` | dashboard.dfy | the script's state, its state-changing functions and its event handlers, as a class |

A failed refresh does not keep the previous list on screen.
`setLoading(true)` empties the grid (main.js:34), and nothing re-renders when
the request fails. So after a failed refresh the grid is empty, while the
cache, the empty-state flag and the summary still describe the previous list
(`Document.RefreshSpec`).

## Model

| member | source | states |
|---|---|---|
| Text.TrimStartSpec | Frontend/main.js:76-77 | the start of `trim` drops exactly the leading JavaScript white space and keeps the rest as a suffix |
| Text.TrimEndSpec | Frontend/main.js:76-77 | the end of `trim` drops exactly the trailing white space and keeps the rest as a prefix |
| Text.TrimIsInnerSlice | Frontend/main.js:76-77 | `trim()` returns a contiguous slice of its input with no white space at either end |
| Text.TrimEmptyIff | Frontend/main.js:76 | `searchTerm.trim()` is falsy exactly when the term is all white space |
| Text.UpperRange | Frontend/main.js:77-78 | a character is in the table of capitals exactly when it lies between 'A' and 'Z' |
| Text.LowerCharTable | Frontend/main.js:77-78 | checked against the alphabet tables: the k-th capital becomes the k-th small letter, and a character that is not a capital is left alone |
| Text.ToLowerIdempotent | Frontend/main.js:77-78 | lower-casing leaves no capital behind, and lower-casing twice is lower-casing once |
| Text.TrimLower | Frontend/main.js:77 | `trim` and `toLowerCase` commute |
| Text.IncludesIff | Frontend/main.js:78 | `includes(s)` holds exactly when `s` occurs at some index of the name |
| Text.IncludesEmpty | Frontend/main.js:78 | every name includes the empty needle |
| Text.Decimal | Frontend/main.js:67 | a number is written as one or more digits, with no leading zero |
| Text.DigitTable | Frontend/main.js:67 | the digit written for a value below ten is that entry of "0123456789", and no other entry equals it |
| Text.DecimalRoundTrip | Frontend/main.js:67 | the option value written for a company id reads back as that id |
| Seqs.Keep | Frontend/main.js:75 | `filter` returns no more elements than its input, each from the input and satisfying the predicate |
| Seqs.KeepIsSubsequence | Frontend/main.js:75 | `filter` only deletes elements and keeps their order |
| Seqs.KeepMultiset | Frontend/main.js:75 | `filter` keeps every copy of a passing element and none of a failing one |
| Seqs.KeepComplete | Frontend/main.js:75 | every passing element of the input is in the result |
| Seqs.KeepAllIff | Frontend/main.js:75 | `filter` returns its input unchanged exactly when every element passes |
| Seqs.KeepAppend | Frontend/main.js:139-143 | filtering a concatenation is concatenating the filtered parts |
| Seqs.KeepFuse | Frontend/main.js:75-78 | two filters in a row are one filter by the conjunction |
| Devices.ApplyFiltersIsKeep | Frontend/main.js:73-81 | the status step and then the search step keep exactly the devices that pass both tests |
| Devices.ApplyFiltersSpec | Frontend/main.js:73-81 | the result is a subsequence of the list, and contains a device exactly when it is in the list and passes both tests, with every copy kept |
| Devices.ApplyFiltersStatusSound | Frontend/main.js:75 | with "online" or "offline" chosen, every device returned has that status |
| Devices.SearchStepIff | Frontend/main.js:76-78 | a device passes the search step exactly when the term is blank or the lower-cased name (`''` when missing) contains the trimmed, lower-cased term |
| Devices.BlankSearchIsIdentity | Frontend/main.js:74-76 | a blank term skips the search step: "all" returns the list itself, otherwise the status filter alone applies |
| Devices.SearchIgnoresCase | Frontend/main.js:77-78 | terms equal up to case select the same devices |
| Devices.ApplyFiltersIdempotent | Frontend/main.js:73-81 | filtering the result again changes nothing |
| Devices.OnlineCountSpec | Frontend/main.js:92-93 | the online count is the length of the online filter, at most the total, the online and offline devices make up the total, and it equals the number of cards the "online" filter shows with a blank search |
| Devices.SummaryOfMixedPair | Frontend/main.js:96 | one online and one offline device are summarised as "1 online / 2 total" |
| Transitions.StatusIndex | Frontend/main.js:138 | the index of previous statuses has exactly the ids of the cached devices as keys |
| Transitions.StatusIndexLastWins | Frontend/main.js:138 | for an id the cache holds more than once, the last device with it decides its status |
| Transitions.Messages | Frontend/main.js:141 | one message per flipped device |
| Transitions.CollectToasts | Frontend/main.js:138-143 | the loop produces exactly the messages of the new-list devices cached as offline and now online, in new-list order |
| Transitions.ToastStep | Frontend/main.js:139-143 | one more device of the new list adds its toast, if it went from offline to online, after the toasts so far |
| Transitions.ToastsAppend | Frontend/main.js:139-143 | the toasts of a concatenated list are the toasts of its parts, in order |
| Transitions.ToastsBounded | Frontend/main.js:139-143 | there are never more toasts than devices in the new list |
| Transitions.ToastForCachedDevice | Frontend/main.js:140-141 | a cached device raises a toast exactly when its cached status was offline and its new status is online |
| Transitions.NoToastForNewDevice | Frontend/main.js:140 | a device whose id is not in the cache raises no toast |
| Transitions.OneToastWhenBackOnline | Frontend/main.js:140-141 | offline then online gives exactly the toast "<name> is now online" |
| Transitions.NullNameToast | Frontend/main.js:141 | a device whose name is null is toasted as "null is now online" |
| Transitions.NoToastWhenStillOnline | Frontend/main.js:140 | online then online gives no toast |
| Polling.Restart | Frontend/main.js:151-155 | restarting never makes the browser reuse a timer id |
| Polling.RestartSpec | Frontend/main.js:151-155 | after `startPolling` exactly one timer is live when auto-refresh is on and polling is not paused, and none otherwise; that timer is new and `pollHandle` names it; at most one timer is live |
| Document.CompanyOptionValues | Frontend/main.js:58-71 | in a selector built from a company list, only the placeholder has the empty value, and each other value reads back as its company's id |
| Document.RenderSpec | Frontend/main.js:83-97 | the cards are a subsequence of the list and hold exactly the devices that pass both filters; the empty state shows exactly when none passes; the counts describe the whole list, with online at most total; nothing else on the page changes |
| Document.RefreshSpec | Frontend/main.js:132-149 | no company means no change; otherwise the loading state is released on every exit and the call rejects exactly when the request fails; a failure leaves the cache and toasts alone and clears the cards; a success caches the new list, renders it in order and appends exactly the transition toasts |
| Dashboard.Dashboard.AtMostOneTimer | Frontend/main.js:151-155 | between events at most one timer is live, and only while auto-refresh is on and polling is not paused |
| Dashboard.Dashboard.constructor | Frontend/main.js:2-8 | the initial values: no company, empty cache, no timer, auto-refresh on, not paused, filter "all", empty search, the empty state hidden |
| Dashboard.Dashboard.SetLoading | Frontend/main.js:30-46 | `setLoading(true)` clears the cards and adds six skeletons one by one; `setLoading(false)` hides and empties the skeleton area |
| Dashboard.Dashboard.RenderCompanyOptions | Frontend/main.js:58-71 | the selector holds the placeholder first, then one option per company in list order, 1 + n options in all; nothing else changes |
| Dashboard.Dashboard.ShowCards | Frontend/main.js:99-118 | the grid is cleared, then holds one card per filtered device, in order |
| Dashboard.Dashboard.RenderDevices | Frontend/main.js:83-97 | caches the list and leaves the page as `Render` says; a page without skeletons ends with a summary that matches the cache |
| Dashboard.Dashboard.ShowFetched | Frontend/main.js:136-144 | appends the transition toasts against the previous cache, then renders the new list |
| Dashboard.Dashboard.RefreshDevices | Frontend/main.js:132-149 | cache, page and rejection are what `Refresh` says; it keeps the summary matching the cache and leaves the pause label alone |
| Dashboard.Dashboard.StartPolling | Frontend/main.js:151-155 | handle and timers are what `Restart` says; only the timer `pollHandle` names can be live, and none is live unless polling is allowed |
| Dashboard.Dashboard.LoadCompanies | Frontend/main.js:122-130 | succeeds exactly when the request does; on success the selector lists the companies, on failure it is unchanged; the loading state is released either way |
| Dashboard.Dashboard.Boot | Frontend/main.js:196-199 | the companies are loaded and the controls are wired exactly when that load succeeded; the selector lists the companies on success and is unchanged on failure; the rest of the page is what `setLoading(true)` then `setLoading(false)` leave, so the cards are cleared and the toasts and empty state kept |
| Dashboard.Dashboard.Tick | Frontend/main.js:154 | the polling callback refreshes exactly when polling is not paused, and changes nothing otherwise; it keeps the invariant |
| Dashboard.Dashboard.OnCompanyChange | Frontend/main.js:159-163 | records the chosen company and refreshes; polling restarts only when the refresh did not reject, otherwise the timers are untouched |
| Dashboard.Dashboard.OnRefreshClick | Frontend/main.js:165 | one refresh, and nothing else changes |
| Dashboard.Dashboard.OnStatusFilterClick | Frontend/main.js:167-172 | records the filter and re-renders the cached list without a request |
| Dashboard.Dashboard.OnSearchInput | Frontend/main.js:174-177 | records the raw term and re-renders the cached list without a request |
| Dashboard.Dashboard.OnAutoRefreshChange | Frontend/main.js:179-182 | records the checkbox and restarts polling |
| Dashboard.Dashboard.OnPauseClick | Frontend/main.js:185-192 | flips `paused` and relabels the button; refreshes once only when resuming; always restarts polling, so no timer is live while paused |

## Left out

- The HTTP requests and JSON decoding (`getJSON`, `getCompanies`, `getDevices`, lines 11-17) are not modelled. A request is a `Fetch` parameter: the decoded list, or a rejection. A status code other than 2xx and a network error are both the rejection.
- Concurrency is not modelled. Each handler runs to completion before the next event. Overlapping refreshes (a tick while a click's request is pending) cannot arise in the model.
- The timers' timing is not modelled: the ten-second period of `setInterval` and the 3.5-second removal of a toast (line 54). Toasts only accumulate in `Page.toasts`.
- The markup of a card is not modelled (lines 100-116), nor the random sparkline heights (`Math.random`, line 104) or `fmtTime`. A card is the device it shows.
- `setLastUpdated` and `nowStr` (lines 23-28) read the clock and are left out.
- The `is-active` highlight of the filter buttons (lines 168-169) is left out. Only `statusFilter` is modelled.
- The summary element may be absent (line 95); the model assumes it is present. The initial page comes from index.html, which is not part of this model. The constructor assumes a pause label of "Pause", a checked auto-refresh box, a company selector with no options (so a failed start-up leaves it empty, not holding the placeholder), no cards, a hidden empty state, and a summary of 0 online out of 0.
- A device whose `device_name` key is absent altogether is not modelled; a template would show it as "undefined". The API always sends the key, so `None` stands for a null name: it searches as `''` and is toasted as "null".
- `toLowerCase` is modelled for ASCII letters only. Unicode case mapping is left out.
- A device status is either "online" or "offline", as the back end produces. Any other status string is not modelled.
- A device id is an integer and a company id a natural number. `o.value = c.id` is modelled as the id's decimal text.
- The back end and its scripts (app.py, scripts/seed_db.py, scripts/simulate_readings.py, tests/test_api.py) are not part of this model.
