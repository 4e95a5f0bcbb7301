# Beneficiary-services portal: the logic under the UI

This project models, in Dafny, the few pieces of logic in the beneficiary-services
portal that are more than markup or remote calls:

- **the login wizard** (`LoginForm`): a single `LoginState` record changed by merging
  partial updates. Handlers move it between `selection`, `national_id`, `otp`,
  `admin_login`, `new_beneficiary` and `success` (`login_form.dfy`, module `LoginFlow`,
  class `LoginForm`). On top of the handlers the model defines which callbacks each
  screen offers. It proves an invariant of every state reached when each callback comes
  from the screen on display. For example, the national-ID step then never holds a
  session handle, and the OTP step always does. A callback that fires after its screen
  was replaced is outside that invariant (`LoginFlow.LateLookupAfterBackLeavesInvariant`).
  `LoginFlow.EmployeeLoginScenario` walks the employee path through the class as a
  worked example.
- **the `admin-stats` server function**: the OPTIONS short-circuit, the admin gate, the
  `|| 0` defaulting of the five counts and the health if-chain, all with JavaScript's
  `null` coercion kept (`admin_stats.dfy`, module `AdminStats`).
- **the client admin service**: every CRUD wrapper turns a thrown error into
  `{success: false, error}`, and `getStats` has a two-level fallback. It appears twice in
  the source, as a method of `dashboard` and as a static method (`admin_service.dfy`,
  module `AdminService`).
- **the beneficiary profile screen**: initialising and resyncing the form from the member
  record, single-field edits, the edit/save flags, and previous/next navigation over the
  five sub-tabs (`beneficiary_profile.dfy`, module `BeneficiaryProfile`, class `Profile`).
- **the two date-helper modules**: `calculateAge`, `isToday`, `isYesterday`,
  `daysDifference` and the branch choice of both `formatRelativeDate`s
  (`date_helpers.dfy`, modules `Dates`, `SharedDateHelpers` for
  `src/shared/utils/dateHelpers.ts`, `DateHelpers` for `src/utils/dateHelpers.ts`, and
  `RelativeDateComparison` where the two are compared).

`js_values.dfy` (module `JsValues`) holds what these share: JSON-shaped values, where
`undefined` is `None`, plus JavaScript truthiness and `?.` property access.

Remote calls, database queries and `req.json()` are inputs to the model. Each one is
either the value it returned or the fact that it threw (`Outcome`, `Call`). A
JavaScript `Date` is given by what the helpers read from it: `getTime()` and the local
year, month and day.

Two behaviours of the code are worth stating outright, because they are not what one
might expect:

- `new_beneficiary` and `success` keep `userType` as `null`. Only `national_id` and
  `otp` carry a non-admin role, and only `admin_login` carries the admin role
  (`LoginFlow.WellFormed`).
- In `admin-stats`, a `null` pending count is reported as 0 pending requests and labelled
  `good` (`AdminStats.NullPendingReportedZeroButGood`). A thrown exception gives a 500
  with no stats. Only the client's `getStats` falls back to zeroed stats labelled
  `warning`.

## Model

| member | source | states |
|---|---|---|
| `LoginFlow.Initial` | src/components/LoginForm.tsx:12-23 | the wizard starts at `selection` with no role, no session, empty inputs, not loading, no error and no user |
| `LoginFlow.InitialWellFormed` | src/components/LoginForm.tsx:12-23 | the initial state satisfies the reachable-state invariant |
| `LoginFlow.LoginForm.constructor` | src/components/LoginForm.tsx:12-23 | a new wizard holds exactly the initial state |
| `LoginFlow.MergeOverwritesPresentKeys` | src/components/LoginForm.tsx:25-27 | `updateState` changes no field outside the update's keys, and each key the update carries ends up with the update's value |
| `LoginFlow.MergeIdentityAndIdempotence` | src/components/LoginForm.tsx:25-27 | an empty update changes nothing; applying the same update twice equals applying it once |
| `LoginFlow.LoginForm.UpdateState` | src/components/LoginForm.tsx:25-27 | the object's new state is the old state merged with the update |
| `LoginFlow.HandlerUpdateKeys` | src/components/LoginForm.tsx:29-62 | the exact key set each handler writes: `new_beneficiary` only `step`; a role `userType` and `step`; back-to-selection seven keys but not `sessionId`, `user` or `isLoading`; national-ID next `step` and `sessionId`; OTP back `step`, `otp` and `sessionId`; registration complete `user` and `step` |
| `LoginFlow.LoginForm.HandleUserTypeSelect` | src/components/LoginForm.tsx:29-37 | `new_beneficiary` sets only `step`; `admin` sets role admin and `admin_login`; beneficiary or employee sets that role and `national_id`; nothing but `step` and `userType` changes |
| `LoginFlow.LoginForm.HandleBackToSelection` | src/components/LoginForm.tsx:39-49 | back to `selection` with role, inputs and error cleared, while `sessionId`, `user` and `isLoading` keep their values |
| `LoginFlow.LoginForm.HandleNewBeneficiaryComplete` | src/components/LoginForm.tsx:51-55 | stores the registered record as `user` and moves to `success`, nothing else |
| `LoginFlow.LoginForm.HandleNationalIdNext` | src/components/LoginForm.tsx:56-58 | moves to `otp` holding the given session handle; national ID and role are kept |
| `LoginFlow.LoginForm.HandleOtpBack` | src/components/LoginForm.tsx:60-62 | back to `national_id` with the OTP emptied and the session handle cleared; national ID and role kept |
| `LoginFlow.LoginForm.HandleFieldChange` | src/components/LoginForm.tsx:96-129 | each inline input callback writes its one field and nothing else |
| `LoginFlow.LoginForm.HandleReload` | src/components/LoginForm.tsx:64-73 | login success and registration completion ask for a page reload |
| `LoginFlow.LoginForm.Dispatch` | src/components/LoginForm.tsx:75-133 | any callback changes the object exactly as the pure transition says, with the matching effect |
| `LoginFlow.RenderStep` | src/components/LoginForm.tsx:75-133 | the selection screen is shown for `selection` and for every unrecognised step, and for no other step |
| `LoginFlow.ApplyPreservesWellFormed` | src/components/LoginForm.tsx:29-62 | a callback the current screen offers keeps the reachable-state invariant |
| `LoginFlow.RunPreservesWellFormed` | src/components/LoginForm.tsx:29-133 | any run in which every callback is offered by the screen on display at that moment keeps a well-formed state well formed |
| `LoginFlow.ReachableStates` | src/components/LoginForm.tsx:29-133 | on every path from the start in which each callback comes from the screen on display: at `national_id` there is no session and the OTP is empty; at `otp` there is a session and a non-admin role; `admin_login` carries role admin; the `default` branch is never reached |
| `LoginFlow.LateLookupAfterBackLeavesInvariant` | src/components/LoginForm.tsx:39-58 | the handlers do not check the current step: a national-ID lookup that resolves after "back" moves the wizard from `selection` to `otp` with no role, a state outside the invariant |
| `LoginFlow.BackToSelectionLeavesNothingStale` | src/components/LoginForm.tsx:39-49 | back-to-selection keeps `sessionId` and `user`, but on reachable states both are already empty there |
| `LoginFlow.RegistrationRoundTrip` | src/components/LoginForm.tsx:51-94 | choosing `new_beneficiary` and completing registration reaches `success` carrying exactly that record; the success screen then offers completion, which reloads |
| `AdminStats.HealthOf` | supabase/functions/admin-stats/index.ts:80-89 | excellent exactly at 0 pending, good for 1 to 5, warning for 6 to 15, critical above 15 |
| `AdminStats.HealthMonotone` | supabase/functions/admin-stats/index.ts:80-89 | more pending requests never give a better health label |
| `AdminStats.ClassifyPending` | supabase/functions/admin-stats/index.ts:80-89 | the if-chain on the raw count agrees with the thresholds for every number, and labels a `null` count `good` (`null === 0` fails, `null <= 5` holds) |
| `AdminStats.OrZero` | supabase/functions/admin-stats/index.ts:91-98 | `count \|\| 0` is the count when there is one and 0 for `null` |
| `AdminStats.StatsFrom` | supabase/functions/admin-stats/index.ts:79-98 | every reported count is the query's count or 0 when it is `null`; for a known pending count the label follows the thresholds |
| `AdminStats.NullPendingReportedZeroButGood` | supabase/functions/admin-stats/index.ts:81-94 | a `null` pending count is reported as 0 pending yet labelled `good`, while 0 pending otherwise earns `excellent` |
| `AdminStats.Handle` | supabase/functions/admin-stats/index.ts:14-127 | OPTIONS gets `'ok'` before anything else; otherwise JSON. 403 exactly when the lookup errs or finds no admin; 500 exactly when something threw before or after the gate. `success` and `stats` are present exactly on 200, where the stats are built from the counts |
| `AdminStats.NonAdminGetsNoStats` | supabase/functions/admin-stats/index.ts:31-49 | a caller the lookup does not confirm gets the same 403 with no stats, whatever the counts are |
| `AdminStats.SuccessfulStatsAreConsistent` | supabase/functions/admin-stats/index.ts:79-112 | a 200 reply labels a known pending count by the thresholds and a `null` one as 0 and `good` |
| `AdminStats.SevenPendingIsWarning` | supabase/functions/admin-stats/index.ts:80-89 | an admin with seven pending requests sees `warning` |
| `AdminService.RoutingIsInjective` | src/features/admin/services/adminService.ts:95-344 | no two wrappers send the same endpoint and `action` |
| `AdminService.Invoke` | src/features/admin/services/adminService.ts:99-343 | a returned response passes through unchanged. A throw gives an object with `success: false`, the error's message or the wrapper's fallback, that wrapper's extra keys, and no other keys |
| `AdminService.ThrownErrorIsNormalised` | src/features/admin/services/adminService.ts:105-110 | a thrown error always reaches the caller as a falsy `success` and a non-empty `error`: the error's own message when it has one, else the fixed fallback |
| `AdminService.FailureExtrasOnThrow` | src/features/admin/services/adminService.ts:187-300 | on a throw `checkHasRequests` reports `hasRequests: false`, `requestCount: 0`; branches and users `getAll` carry an empty list; services `getAll` carries only `success` and `error` |
| `AdminService.DashboardGetStats` | src/features/admin/services/adminService.ts:353-386 | valid stats in a successful reply are returned unchanged. A reply without them gives zeroes labelled `good`. A throw, or a `null` reply whose property read throws, gives zeroes labelled `warning`. The result is never falsy |
| `AdminService.StaticGetStatsAgrees` | src/features/admin/services/adminService.ts:392-425 | the static `getStats` (modelled as `AdminService.StaticGetStats`, a copy of the dashboard body) gives the same result as `dashboard.getStats` for every outcome of the call |
| `AdminService.GetStatsFallbacks` | src/features/admin/services/adminService.ts:360-384 | a `{success: true, data: {stats}}` reply yields exactly `stats`; `success: false` yields the `good` zeroes; a throw yields the `warning` zeroes; the two fallbacks differ only in the label |
| `BeneficiaryProfile.InitialFormMapping` | src/components/beneficiary/BeneficiaryProfile.tsx:32-62 | each initial field is the member's value when that is truthy, else the default: `'male'` for gender, `''` for every other field |
| `BeneficiaryProfile.NamedFields` | src/components/beneficiary/BeneficiaryProfile.tsx:32-62 | the gender and employment-status rows of the field table read `gender` and `employment_status` |
| `BeneficiaryProfile.NoMemberDataGivesDefaults` | src/components/beneficiary/BeneficiaryProfile.tsx:32-62 | with member data `undefined` or `null` every field takes its default, and both give the same form |
| `BeneficiaryProfile.Resync` | src/components/beneficiary/BeneficiaryProfile.tsx:64-98 | truthy member data rebuilds the form by the same mapping; absent member data leaves the form as it is |
| `BeneficiaryProfile.WithField` | src/components/beneficiary/BeneficiaryProfile.tsx:112-114 | an input change sets that field to the value and leaves every other field unchanged |
| `BeneficiaryProfile.JobFieldsFollowEmploymentStatus` | src/components/beneficiary/BeneficiaryProfile.tsx:326-340 | job title and employer are enabled exactly when employment status is `'employed'`, after an edit and in the initial form alike; they start disabled when there is no member data |
| `BeneficiaryProfile.FindIndex` | src/components/beneficiary/BeneficiaryProfile.tsx:895-919 | `findIndex` is -1 exactly for an id not in the list, otherwise the first position holding it |
| `BeneficiaryProfile.TabIdsDistinct` | src/components/beneficiary/BeneficiaryProfile.tsx:130-136 | the five tab ids are pairwise different |
| `BeneficiaryProfile.PreviousTab` | src/components/beneficiary/BeneficiaryProfile.tsx:895-909 | "previous" is offered exactly when the index is above 0 and leads to the tab one position earlier |
| `BeneficiaryProfile.NextTab` | src/components/beneficiary/BeneficiaryProfile.tsx:911-925 | "next" is offered exactly when the index is below the last and leads to the tab one position later, always one of the five |
| `BeneficiaryProfile.PreviousNextRoundTrip` | src/components/beneficiary/BeneficiaryProfile.tsx:895-925 | previous then next, or next then previous, returns to the same tab |
| `BeneficiaryProfile.NavigationEnds` | src/components/beneficiary/BeneficiaryProfile.tsx:130-136 | the first tab has no "previous", the last no "next"; an unknown tab offers only "next", to the first tab |
| `BeneficiaryProfile.RenderActiveTab` | src/components/beneficiary/BeneficiaryProfile.tsx:798-813 | each known sub-tab renders its own section, in tab order; an unknown one renders the personal section |
| `BeneficiaryProfile.Profile.constructor` | src/components/beneficiary/BeneficiaryProfile.tsx:28-62 | the form starts from the member data with edit and save flags off, and the loading effect for the first tab started |
| `BeneficiaryProfile.Profile.LoadingDone` | src/components/beneficiary/BeneficiaryProfile.tsx:101-110 | the end of the loading effect clears only the loading flag |
| `BeneficiaryProfile.Profile.SyncMemberData` | src/components/beneficiary/BeneficiaryProfile.tsx:64-98 | the member-data effect replaces the form by the resync rule and touches no flag |
| `BeneficiaryProfile.Profile.HandleInputChange` | src/components/beneficiary/BeneficiaryProfile.tsx:112-114 | one field changes, the rest of the form and every flag stay |
| `BeneficiaryProfile.Profile.SetEditMode` | src/components/beneficiary/BeneficiaryProfile.tsx:145-150 | the edit button turns edit mode on, the cancel button (same shape, line 267) off |
| `BeneficiaryProfile.Profile.BeginSave` | src/components/beneficiary/BeneficiaryProfile.tsx:116-118 | saving starts with the saving flag on |
| `BeneficiaryProfile.Profile.FinishSave` | src/components/beneficiary/BeneficiaryProfile.tsx:116-128 | the save always ends with the saving flag off, and leaves edit mode only on success |
| `BeneficiaryProfile.Profile.SelectTab` | src/components/beneficiary/BeneficiaryProfile.tsx:868-874 | a tab click switches tab and always leaves edit mode; a different tab restarts loading |
| `BeneficiaryProfile.Profile.GoPrevious` | src/components/beneficiary/BeneficiaryProfile.tsx:895-909 | "previous" moves to the earlier tab, one of the five, leaves edit mode and restarts loading |
| `BeneficiaryProfile.Profile.GoNext` | src/components/beneficiary/BeneficiaryProfile.tsx:911-925 | "next" moves to the later tab, one of the five, leaves edit mode and restarts loading |
| `SharedDateHelpers.CalculateAge` | src/shared/utils/dateHelpers.ts:73-84 | the age is the year difference or one less, and it is the plain difference exactly when this year's birthday (month, then day) has come |
| `SharedDateHelpers.AgeCountsWholeYears` | src/shared/utils/dateHelpers.ts:73-84 | the age-th birthday has come by today and the next one has not |
| `SharedDateHelpers.AgeIsUnique` | src/shared/utils/dateHelpers.ts:73-84 | any count of years with that property is the computed age |
| `SharedDateHelpers.AgeOnBirthdayAndNonNegative` | src/shared/utils/dateHelpers.ts:76-83 | on the birthday the age is the plain year difference; a birth date on or before today gives an age of at least 0 |
| `SharedDateHelpers.DiffDays` | src/shared/utils/dateHelpers.ts:108-109 | the day count is the number of whole days in the absolute time difference (floor) |
| `SharedDateHelpers.FormatRelativeDate` | src/shared/utils/dateHelpers.ts:91-124 | "today" exactly for the same calendar year, month and day (`isToday`); otherwise "yesterday" exactly for 24 to 48 hours away; "N days ago" for anything else under 7 days, with N the whole days of the difference (floor), under 7 and never 1; the full date at 7 days or more; the today, yesterday and full-date labels carry the input date |
| `SharedDateHelpers.LessThanADayAwayIsZeroDaysAgo` | src/shared/utils/dateHelpers.ts:109-121 | a date on another calendar day but under 24 hours away is labelled "0 days ago" |
| `DateHelpers.DaysDifference` | src/utils/dateHelpers.ts:94-99 | the difference is 0 exactly for equal instants; otherwise it is the least whole number of days covering the absolute difference (ceiling) |
| `DateHelpers.DaysDifferenceSymmetric` | src/utils/dateHelpers.ts:94-99 | swapping the two dates does not change the difference |
| `DateHelpers.WholeDaysApart` | src/utils/dateHelpers.ts:98 | instants exactly k days apart have difference k |
| `DateHelpers.PreviousDayIsInverseOfNextDay` | src/utils/dateHelpers.ts:116-118 | stepping back a calendar day from a real day lands on a real day whose next day is the start, across month and year ends |
| `DateHelpers.NotTodayAndYesterday` | src/utils/dateHelpers.ts:104-124 | no date is both today and yesterday |
| `DateHelpers.FormatRelativeDate` | src/utils/dateHelpers.ts:129-145 | "today" exactly for the same calendar day; then "yesterday" exactly for the calendar day before; then "N days ago" exactly when at most 7 days away in either direction, with N the rounded-up difference; the full date otherwise; the today, yesterday and full-date labels carry the input date |
| `DateHelpers.FutureWithinAWeekIsDaysAgo` | src/utils/dateHelpers.ts:138-142 | a future date up to 7 days ahead (not today or yesterday) is labelled "N days ago" with N from 1 to 7 |
| `RelativeDateComparison.SevenDaysAgoDiffers` | src/utils/dateHelpers.ts:138-144 | a date exactly 7 days back gets "7 days ago" from this helper but the full date from the shared one (`< 7` against `<= 7`) |
| `RelativeDateComparison.LateYesterdayDiffers` | src/shared/utils/dateHelpers.ts:105-124 | a date exactly 12 hours back on the previous calendar day is "0 days ago" in the shared helper and "yesterday" in the other |

## Left out

- Markup and styling: the JSX of every component. The status badge and user-type
  selection components are presentation only; the four choices of the selection screen
  are the `Choice` values.
- The reports and analytics component: static mock data and title lookups, no logic.
- The child step components of the login wizard (national-ID form, OTP verification,
  admin login, new-beneficiary registration). They are not part of this model. Only the
  callbacks they make into `LoginForm` are modelled, with the session handle and the user
  record as inputs. Error messages they show live in their own state, not in `LoginState`.
- `window.location.reload` is the `ReloadPage` effect, and `console.log` is dropped.
- `LoginFlow.LoginForm.HandleReload`: does not model the page reload itself; it only
  returns the request for one.
- The admin-stats database queries, `Deno.env`, `createClient`, and the CORS header
  values are left out. The admin lookup, the five counts and the parsed `adminId` are
  inputs; `Threw` stands for any exception before or after the gate.
- A count of `undefined` is left out: the client library reports a failed count as
  `null`, which is modelled. With `undefined`, the health chain would say `critical`.
- `apiClient.callFunction` is the `Call` outcome. How it turns an HTTP reply into
  `{success, data, error}` is not part of this model.
- A thrown value without properties (`throw null`) is left out; reading `.message` on it
  would throw inside the `catch` of a CRUD wrapper.
- `alert` and the `setTimeout` delays of the profile screen are left out. Saving is
  split into `BeginSave` and `FinishSave(succeeded)` around the delay.
- `BeneficiaryProfile.Profile.HandleInputChange`: a field is named by its position in the
  25-entry field table, not by its string key. Every call site passes one of those 25
  names, so a key outside the table, which would add a new key, is not modelled.
- `onChangeSubTab` belongs to the parent component. It is modelled as the parent
  switching to the requested tab.
- The unused `errors` state of the profile screen is left out.
- `BeneficiaryProfile.Profile.GoPrevious`, `GoNext`, `SelectTab`, `SetEditMode`,
  `HandleInputChange` and `BeginSave` do not require loading to be over. While
  `isLoading` holds, the screen renders only the spinner, which hides the tab bar, the
  navigation, edit, cancel and save buttons and every input.
- `LoginFlow.RunPreservesWellFormed` and `LoginFlow.ReachableStates` cover only runs in
  which every callback comes from the screen on display. A callback that fires after
  its screen was replaced is not covered. Examples are a national-ID lookup resolving
  after "back", or a submit overlapping "back". The handlers do not check the step, so
  such a run can leave the invariant (`LoginFlow.LateLookupAfterBackLeavesInvariant`).
- Date formatting through `Intl` (`formatGregorianDate`, `formatShortDate`,
  `formatShortGregorianDate`, `formatTime`, `formatFullGregorianDateTime`, the
  `getCurrent…` helpers) and `toLocalISOString` depend on locale and time zone. They are
  left out. `formatRelativeDate` returns which branch it took (`RelativeLabel`) instead
  of the formatted Arabic text.
- The clock is read once, as `now`. The source calls `new Date()` anew in
  `formatRelativeDate`, `isToday`, `isYesterday` and the `daysDifference` call, so a
  run that crosses midnight between two of those reads is not modelled.
- Conversion from `getTime()` to the local calendar (time zone, daylight saving) is left
  out: a `JsDate` carries both readings as given. Invalid dates (`NaN`) are left out.
- `SharedDateHelpers.DiffDays`, `DateHelpers.DaysDifference`: division is exact
  integer arithmetic, where JavaScript divides in floating point. The two agree for
  every date difference up to about 100 million days.
