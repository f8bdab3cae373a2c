# Task manager front end: verified model of its decision logic

This project models, in Dafny, the decision logic of a Next.js task-manager client. It proves properties of that model. React, rendering and the network are not modelled. What is modelled:

- **Entity operations adapter** (`GenericOperations`). Create, update and delete go through optional mutations and optional validators. The model keeps a toast log and a log of mutation calls. An untyped API error becomes exactly one message: a truthy server message wins, otherwise a status table decides. Delete is split in two: `DeleteEntity` registers a request with the coordinator, and `RunDeleteCallback` runs only when the user confirms. The promise `deleteEntity` returns is a ticket. A ticket is settled at most once, and it is never settled when the modal is cancelled.
- **Delete-confirmation coordinator** (`DeleteContext`). A class with three cells: `isOpen`, `deleteInfo` and `isDeleting`. Registration is last-write-wins, and closing the modal keeps the pending request. `GenericOperations.HandleDelete` runs the coordinator's `handleDelete` with the adapter's callback.
- **Auth slice** (`AuthSlice`). A class with user, access token, refresh token and user name, plus a cookie store. `setUser` and `updateUser` write the cookies only when both tokens are non-empty. `logout` clears everything. Scenarios reload the slice from the cookies a session left behind.
- **Password strength** (`PasswordStrength`). A method with sequential checks, proved against a score function. The score is a count of enabled checks passed: at most 5, at most 4 under the defaults, and it never drops when characters are appended. The requirement list has one line per enabled switch, in a fixed order.
- **Select options** (`FormSelect`). A loop groups options into buckets in order of first appearance, proved against filter and key-order functions. The bucket sizes sum to the option count. `hasGroups` is true iff a named bucket exists. The boolean conversion of the field value round-trips. The content choice is ordered.
- **Table pagination** (`TablePagination`). The 1-based page maps to a 0-based index, with defaults. The page count is `ceil(total / limit)`. The updater writes back to the record, and changing rows per page resets to page 1.
- **File input** (`FileInput`). The count check runs before the size check, and only then does the upload callback fire. A `DropZone` class holds the `dragActive` flag. Whether the field receives one file or the whole list depends on `multiple`.
- **Task schema** (`TaskSchema`). The create and update schemas as issue lists. Each is proved equal to an independent predicate. Create implies update.
- **Upload file name** (`UploadFileName`). `generateFileName` takes the clock fields and the random id as parameters. A parser reads the name back, and the round trip is proved: the name yields the month, date, year, 12-hour clock hour, minutes, seconds, am/pm and random id.

Supporting modules:

- `Wrappers` holds `Option` and the JavaScript `a || b` on strings (`OrElse`).
- `Decimal` holds decimal rendering, parsing and `padStart`.

Two behaviours of the adapter are modelled as written, not corrected:

- In `handleApiError`, the `serverMessage ||` in front of each status text can never take effect. By then the server message is known to be falsy. `HandleApiError` keeps those fallbacks, and its contract shows the toast is the plain status text.
- The delete callback passes the delete mutation's current `isLoading` to `setIsDeleting`, not `true`. `RunDeleteCallback` leaves the coordinator's flag equal to that value. `LoadingFlagStaysOff` shows the flag stays off when the mutation was idle at render time.

## Model

| member | source | states |
|---|---|---|
| Wrappers.OrElse | src/hooks/useGenericOperations.ts:141 | the JavaScript or-default on strings: the first string when it is set and non-empty, else the second |
| Decimal.NatToString | src/utils/imageUploadCloudinary.ts:24 | the decimal rendering of a number is a non-empty digit string, one digit exactly for values below 10, and with no leading zero: it starts with "0" only for 0 itself |
| Decimal.ParseNatToString | src/utils/imageUploadCloudinary.ts:24 | reading the decimal rendering back gives the number |
| Decimal.PadStart | src/utils/imageUploadCloudinary.ts:14 | `padStart`: the result has at least the target width, ends with the original string, and is preceded only by fill characters |
| Decimal.ParsePadded | src/utils/imageUploadCloudinary.ts:14-19 | zero-padding a digit string keeps it all digits and keeps its value |
| GenericOperations.ExtractErrorMessage | src/hooks/useGenericOperations.ts:80-89 | nothing for a falsy error; a non-empty string error is itself the message; for an object, the first truthy of `data.message`, `data.error`, `message`, `error`; then `data` when it is a string, even an empty one; otherwise nothing |
| GenericOperations.ExtractedComesFromError | src/hooks/useGenericOperations.ts:80-89 | an extracted message is always one of the strings the error carries |
| GenericOperations.ApiErrorMessage | src/hooks/useGenericOperations.ts:96-119 | a truthy server message is shown as is; otherwise 409 gives "<E> already exists", 404 "<E> not found", 400, 401, 403 and >= 500 their fixed texts, anything else "Failed to <op> <E>. Please try again" |
| GenericOperations.ApiErrorMessageNonEmpty | src/hooks/useGenericOperations.ts:96-119 | the error handler never shows an empty toast |
| GenericOperations.ServerMessageIgnoresStatus | src/hooks/useGenericOperations.ts:96-100 | when a server message is present, changing the status does not change the toast |
| GenericOperations.CustomMessageBeatsStatus | src/hooks/useGenericOperations.ts:96-113 | `{data: {message: "Custom"}, status: 500}` shows "Custom" |
| GenericOperations.EmptyDataFallsBackToStatus | src/hooks/useGenericOperations.ts:87-105 | an empty string `data` is extracted, but it is falsy, so status 404 decides the text |
| GenericOperations.OutcomeToast | src/hooks/useGenericOperations.ts:139-151 | an awaited mutation ends in a success toast exactly when its envelope says `success`; otherwise the toast is an error toast |
| GenericOperations.EntityOperations.constructor | src/hooks/useGenericOperations.ts:31-55 | a fresh adapter for one entity has the configured mutations and validators, an empty toast log, no calls and no settled promises |
| GenericOperations.EntityOperations.ValidateCreateData | src/hooks/useGenericOperations.ts:58-66 | the create validator's verdict; without a validator every payload passes |
| GenericOperations.EntityOperations.ValidateUpdateData | src/hooks/useGenericOperations.ts:69-77 | the update validator's verdict; without a validator every payload passes |
| GenericOperations.EntityOperations.HandleApiError | src/hooks/useGenericOperations.ts:92-122 | appends exactly one error toast, whose text is `ApiErrorMessage`; the dead fallbacks change nothing |
| GenericOperations.EntityOperations.Settle | src/hooks/useGenericOperations.ts:139-151 | after a mutation: true iff the envelope succeeded, and exactly the outcome's toast is appended |
| GenericOperations.EntityOperations.CreateEntity | src/hooks/useGenericOperations.ts:125-154 | without a create mutation: false and the "not available" toast. A rejected payload: false, no toast, no call. Otherwise: one create call with the payload, the outcome's toast, true iff it succeeded |
| GenericOperations.EntityOperations.UpdateEntity | src/hooks/useGenericOperations.ts:157-194 | checks in order a missing mutation, an empty id ("<E> ID is required") and the validator. Only when all pass is there one call with `{id, updatedData}`, the outcome's toast, and true iff it succeeded |
| GenericOperations.EntityOperations.DeleteEntity | src/hooks/useGenericOperations.ts:200-244 | without a delete mutation or with an empty id: a settled false, one error toast, coordinator untouched. Otherwise the request (id, entity name, callback with a fresh ticket) is registered and the modal opens. No mutation call is made |
| GenericOperations.EntityOperations.Resolve | src/hooks/useGenericOperations.ts:224-236 | a promise settles once; a later resolve of the same ticket changes nothing |
| GenericOperations.EntityOperations.RunDeleteCallback | src/hooks/useGenericOperations.ts:216-239 | calls the delete mutation once with the id and appends the outcome's toast. Settles the ticket with true iff the envelope succeeded, unless it was already settled. Leaves the coordinator's `isDeleting` equal to the mutation's loading flag |
| GenericOperations.HandleDelete | src/lib/provider/DeleteContext.tsx:42-48 | with nothing pending, nothing changes. Otherwise the stored callback runs once with the stored id, and then loading is off and the modal closed. The request stays stored, and no other delete promise is opened or touched |
| GenericOperations.CreateWithoutMutation | src/hooks/useGenericOperations.ts:128-131 | with no create mutation, only the "Create operation not available for <E>" toast results: no call, validator not consulted |
| GenericOperations.RejectedUpdateIsSilent | src/hooks/useGenericOperations.ts:170-172 | a rejecting validator stops an update with no adapter toast and no call |
| GenericOperations.ConfirmedDeleteSettles | src/hooks/useGenericOperations.ts:212-241 | confirming a delete calls the mutation once with the id, closes the modal and settles the promise with the envelope's success |
| GenericOperations.CancelLeavesPromisePending | src/lib/provider/DeleteContext.tsx:50-52 | cancelling the modal closes it and calls no mutation; the promise is never settled |
| GenericOperations.SecondRequestOrphansFirst | src/lib/provider/DeleteContext.tsx:33-40 | a second delete request replaces the first. Confirming deletes only the second id, and the first promise never settles |
| GenericOperations.LoadingFlagStaysOff | src/hooks/useGenericOperations.ts:218-231 | when the delete mutation was idle at render time, running the callback leaves the modal's loading flag off |
| DeleteContext.ItemLabel | src/lib/provider/DeleteContext.tsx:61 | the modal label is the stored item name when non-empty, else "Item" |
| DeleteContext.DeleteProvider.constructor | src/lib/provider/DeleteContext.tsx:26-32 | initially closed, nothing pending, not deleting |
| DeleteContext.DeleteProvider.ConfirmDelete | src/lib/provider/DeleteContext.tsx:33-40 | stores exactly the new request, replacing any earlier one, and opens the modal; `isDeleting` is unchanged |
| DeleteContext.DeleteProvider.SetIsDeleting | src/lib/provider/DeleteContext.tsx:32 | sets the loading flag to the given value |
| DeleteContext.DeleteProvider.HandleClose | src/lib/provider/DeleteContext.tsx:50-52 | closes the modal and changes nothing else |
| DeleteContext.DeleteProvider.HandleDeleteBegin | src/lib/provider/DeleteContext.tsx:42-44 | there is a call to make iff a request is stored; it is the stored callback with the stored id |
| DeleteContext.DeleteProvider.HandleDeleteEnd | src/lib/provider/DeleteContext.tsx:45-46 | loading off and modal closed; the stored request stays |
| DeleteContext.DeleteProvider.Label | src/lib/provider/DeleteContext.tsx:61 | the modal label is the stored item name when one is stored and non-empty, else "Item" |
| DeleteContext.FreshHasNothingPending | src/lib/provider/DeleteContext.tsx:26-32 | a fresh coordinator has nothing to run and labels the item "Item" |
| DeleteContext.LastRegistrationWins | src/lib/provider/DeleteContext.tsx:33-40 | of two registrations, confirming runs the second, and its name is shown |
| DeleteContext.CloseKeepsRequest | src/lib/provider/DeleteContext.tsx:50-52 | after closing, the modal is closed and the request is still there to run |
| AuthSlice.InitialState | src/redux/features/auth/authSlice.ts:15-25 | both tokens come from the cookies, the user is decoded from the access token, and the name is null |
| AuthSlice.CookiesAfterSetUser | src/redux/features/auth/authSlice.ts:36-39 | when both tokens are non-empty, both cookies hold them; otherwise the cookie store is unchanged. Other cookies are always kept |
| AuthSlice.AuthSlice.constructor | src/redux/features/auth/authSlice.ts:15-25 | the slice starts in the initial state over the given cookies |
| AuthSlice.AuthSlice.SetUser | src/redux/features/auth/authSlice.ts:31-40 | user and both tokens from the payload, name unchanged, cookies as `CookiesAfterSetUser` |
| AuthSlice.AuthSlice.UpdateUser | src/redux/features/auth/authSlice.ts:41-50 | exactly the same effect as `SetUser` |
| AuthSlice.AuthSlice.SetUserName | src/redux/features/auth/authSlice.ts:51-53 | only the name changes |
| AuthSlice.AuthSlice.Logout | src/redux/features/auth/authSlice.ts:55-73 | all four fields null and both auth cookies removed; other cookies stay |
| AuthSlice.OtherCookiesSurviveLogout | src/redux/features/auth/authSlice.ts:31-73 | after signing in and out, no auth cookie is left and every other cookie keeps its value |
| AuthSlice.AuthSlice.SelectCurrentToken | src/redux/features/auth/authSlice.ts:81 | the current access token |
| AuthSlice.AuthSlice.SelectCurrentUser | src/redux/features/auth/authSlice.ts:82 | the current user |
| AuthSlice.SignInSurvivesReload | src/redux/features/auth/authSlice.ts:15-40 | after signing in with both tokens, a slice reloaded from the cookies has the same tokens and the user decoded from the access token |
| AuthSlice.PartialSignInReloadsOldSession | src/redux/features/auth/authSlice.ts:15-40 | signing in without a refresh token changes the slice, but a reload brings back the access token from the old cookies |
| AuthSlice.LogoutIsFinal | src/redux/features/auth/authSlice.ts:55-73 | logging out twice equals logging out once, and a reload afterwards finds no tokens |
| AuthSlice.NameSurvivesSetUser | src/redux/features/auth/authSlice.ts:31-53 | a name set before `setUser` is kept |
| PasswordStrength.Score | src/components/form/FormPasswordInput.tsx:115-151 | the count of checks passed is between 0 and 5, is 0 for an empty password, and is at most 4 when special characters are not required |
| PasswordStrength.StrengthOf | src/components/form/FormPasswordInput.tsx:153-166 | the strength map entry for a score carries that score |
| PasswordStrength.CalculatePasswordStrength | src/components/form/FormPasswordInput.tsx:115-167 | the result is the strength-map entry of the score, which lies between 0 and 5 |
| PasswordStrength.GetPasswordRequirements | src/components/form/FormPasswordInput.tsx:169-177 | exactly the lines whose switch is on, in the order length, uppercase, lowercase, number, special |
| PasswordStrength.EmptyIsVeryWeak | src/components/form/FormPasswordInput.tsx:116-118 | an empty password is "Very Weak" under any rules |
| PasswordStrength.DisabledChecksAddNothing | src/components/form/FormPasswordInput.tsx:129-150 | switching off any one of the uppercase, lowercase, number or special-character requirements removes exactly that requirement's point, never more |
| PasswordStrength.DefaultsTopOutAtStrong | src/components/form/FormPasswordInput.tsx:61-158 | under the defaults no password scores above 4, and "Abcdefg1" reaches "Strong" |
| PasswordStrength.ScoreMonotone | src/components/form/FormPasswordInput.tsx:123-151 | appending characters never lowers the score |
| PasswordStrength.LengthLineListed | src/components/form/FormPasswordInput.tsx:171 | the length line is listed iff `minLength` is non-zero |
| PasswordStrength.UppercaseLineListed | src/components/form/FormPasswordInput.tsx:172 | the uppercase line is listed iff uppercase is required |
| PasswordStrength.LowercaseLineListed | src/components/form/FormPasswordInput.tsx:173 | the lowercase line is listed iff lowercase is required |
| PasswordStrength.NumberLineListed | src/components/form/FormPasswordInput.tsx:174 | the number line is listed iff digits are required |
| PasswordStrength.SpecialLineListed | src/components/form/FormPasswordInput.tsx:175 | the special-character line is listed iff special characters are required |
| PasswordStrength.RequirementsCount | src/components/form/FormPasswordInput.tsx:169-177 | the list has one line per switch that is on |
| FormSelect.Bucket | src/components/form/FormSelect.tsx:108-118 | an option's bucket is its group when truthy, else "default" |
| FormSelect.GroupOptions | src/components/form/FormSelect.tsx:106-122 | the buckets are exactly the bucket names in order of first appearance, and each holds its options in their original order |
| FormSelect.BucketSizesSum | src/components/form/FormSelect.tsx:106-122 | the bucket sizes add up to the number of options |
| FormSelect.FilterMembers | src/components/form/FormSelect.tsx:107-119 | an option is in a bucket iff it is one of the options and that is its bucket |
| FormSelect.KeysAreBuckets | src/components/form/FormSelect.tsx:109-116 | a name is a bucket iff some option goes to it |
| FormSelect.KeysDistinct | src/components/form/FormSelect.tsx:109-116 | a bucket is created only once |
| FormSelect.HasGroups | src/components/form/FormSelect.tsx:124-127 | over distinct bucket names, `hasGroups` holds iff some name is not "default" |
| FormSelect.HasGroupsIff | src/components/form/FormSelect.tsx:124-127 | the bucket names are distinct, and `hasGroups` holds iff some option's bucket is not "default"; no options, no groups |
| FormSelect.Display | src/components/form/FormSelect.tsx:159-165 | a boolean is shown as "true" or "false", the one that names it; a string is shown as itself |
| FormSelect.Parse | src/components/form/FormSelect.tsx:166-171 | the strings "true" and "false" become that boolean; every other string is kept as a string |
| FormSelect.DisplayParse | src/components/form/FormSelect.tsx:159-171 | turning a chosen string into the field value and showing it again gives the same string |
| FormSelect.ParseDisplay | src/components/form/FormSelect.tsx:159-171 | a field value survives display and change iff it is not the string "true" or "false"; booleans always do |
| FormSelect.GroupList | src/components/form/FormSelect.tsx:190-211 | the grouped rendering lists each bucket, in key order, with its options |
| FormSelect.ChooseContent | src/components/form/FormSelect.tsx:181-223 | loading wins, then "no options" for an empty list, then the grouped rendering iff a named group exists, listing every bucket in first-appearance order; when every option is in "default", exactly the flat list of all options |
| FormSelect.Trigger | src/components/form/FormSelect.tsx:173-177 | disabled iff disabled or loading; the placeholder is the loading message while loading |
| TablePagination.PageIndex | src/components/shared/table/ReusableTable.tsx:90 | page 0 maps to index 0, any other page to page - 1 |
| TablePagination.PageSize | src/components/shared/table/ReusableTable.tsx:91 | the page size is never 0: the limit, or 10 when the limit is 0 |
| TablePagination.CeilDiv | src/components/shared/table/ReusableTable.tsx:116 | `Math.ceil` of a quotient: the least multiple count that covers the dividend |
| TablePagination.PageCount | src/components/shared/table/ReusableTable.tsx:114-116 | for a positive page size, the page count is the least number of pages that holds every row |
| TablePagination.OnPaginationChange | src/components/shared/table/ReusableTable.tsx:97-111 | nothing without `setPagination`. Otherwise the record is written back with `total` kept: page = index + 1 and limit = size of the new state, whether given outright or computed by an updater from the current state |
| TablePagination.OnRowsPerPageChange | src/components/shared/table/ReusableTable.tsx:272-274 | the chosen limit, page 1, total kept |
| TablePagination.PageZeroIsFirstPage | src/components/shared/table/ReusableTable.tsx:90 | pages 0 and 1 both show the first page |
| TablePagination.IdentityUpdaterKeepsPagination | src/components/shared/table/ReusableTable.tsx:97-111 | an identity updater writes back the same record when page >= 1 and limit >= 1 |
| TablePagination.StateRoundTrip | src/components/shared/table/ReusableTable.tsx:99-110 | any state with index >= 0 and non-zero size that is written back reads back as that state |
| TablePagination.NegativeIndexNotPreserved | src/components/shared/table/ReusableTable.tsx:99-110 | an index of -1 is written as page 0, which reads back as index 0 |
| TablePagination.RowsPerPageResets | src/components/shared/table/ReusableTable.tsx:270-288 | picking one of 10, 20, 50, 100 shows the first page at that size, total kept |
| TablePagination.DefaultHasNoPages | src/components/shared/table/ReusableTable.tsx:63-64 | the default record has no pages and maps to index 0, size 10 |
| TablePagination.PageCountGrows | src/components/shared/table/ReusableTable.tsx:116 | one page more of rows adds exactly one page |
| FileInput.Oversized | src/components/form/FormFileInput.tsx:133 | no file is oversized iff every file is at most `maxSize` |
| FileInput.HandleFiles | src/components/form/FormFileInput.tsx:122-145 | rejected for its count iff `maxFiles` is truthy and exceeded. Otherwise rejected for size iff `maxSize` is truthy and some file is strictly larger. An upload hands over exactly the given files |
| FileInput.ChangeValue | src/components/form/FormFileInput.tsx:308 | the whole list when `multiple`, else the first file, or nothing for an empty selection |
| FileInput.InputChange | src/components/form/FormFileInput.tsx:303-309 | every selection, even an empty one, is checked like a drop and then sets the field value |
| FileInput.DropZone.constructor | src/components/form/FormFileInput.tsx:61 | the highlight starts off |
| FileInput.DropZone.HandleDrag | src/components/form/FormFileInput.tsx:101-109 | enter and over raise the flag, leave lowers it, other events leave it unchanged |
| FileInput.DropZone.HandleDrop | src/components/form/FormFileInput.tsx:111-120 | the flag always drops; a non-empty drop is handled by `HandleFiles`, an empty one not at all |
| FileInput.ExactSizePasses | src/components/form/FormFileInput.tsx:132-138 | a file of exactly `maxSize` is uploaded |
| FileInput.CountCheckFirst | src/components/form/FormFileInput.tsx:125-138 | a batch that is both too long and too large is rejected for its count |
| FileInput.ZeroLimitIsNoLimit | src/components/form/FormFileInput.tsx:125-132 | limits of 0 behave as unset, and every batch is then uploaded |
| FileInput.UploadIffChecksPass | src/components/form/FormFileInput.tsx:122-145 | the files reach the uploader, unchanged and in order, iff both checks pass |
| FileInput.DragThenDrop | src/components/form/FormFileInput.tsx:101-120 | the highlight is on while dragging and off after the drop; the batch is handled iff it is non-empty |
| FileInput.LeaveAndReturn | src/components/form/FormFileInput.tsx:101-109 | leaving lowers the highlight and hovering again raises it |
| TaskSchema.CreateIssues | src/types/schema.ts:20-26 | the create schema reports no issue iff the payload has a title of length >= 1, an optional string description, an optional status of PENDING or COMPLETED, an optional priority of LOW, MEDIUM or HIGH, and an optional valid date |
| TaskSchema.UpdateIssues | src/types/schema.ts:31-37 | the update schema reports no issue iff the same holds with the title optional, but non-empty when present |
| TaskSchema.CreateImpliesUpdate | src/types/schema.ts:20-37 | every payload valid for create is valid for update |
| TaskSchema.UpdateWithTitleIsCreate | src/types/schema.ts:20-37 | with a title present, the two schemas agree |
| TaskSchema.EmptyTitleRejected | src/types/schema.ts:21-32 | an empty title is reported as too short under both schemas |
| TaskSchema.TitleAloneCreates | src/types/schema.ts:20-26 | a payload with only a non-empty title is valid for create |
| TaskSchema.EmptyPayloadUpdatesOnly | src/types/schema.ts:20-37 | the empty payload is valid for update; create reports only the missing title |
| TaskSchema.EnumsAreClosed | src/types/schema.ts:10-15 | a status outside the enumeration is reported by both schemas |
| UploadFileName.DisplayHour | src/utils/imageUploadCloudinary.ts:17-22 | the displayed hour is in 1..12, agrees with the hour modulo 12, and is 12 exactly for midnight and noon |
| UploadFileName.AmPm | src/utils/imageUploadCloudinary.ts:21 | "pm" iff the hour is at least 12, else "am" |
| UploadFileName.TwoDigits | src/utils/imageUploadCloudinary.ts:14-19 | a padded field is all digits and at least two characters long |
| UploadFileName.TwoDigitsWidth | src/utils/imageUploadCloudinary.ts:14-19 | a padded value below 100 is exactly two characters |
| UploadFileName.HourWidth | src/utils/imageUploadCloudinary.ts:22 | the hour is not padded: one character below 10, two otherwise |
| UploadFileName.RandomIdWidth | src/utils/imageUploadCloudinary.ts:24 | the random id is 1 to 6 digits |
| UploadFileName.NameSplits | src/utils/imageUploadCloudinary.ts:26 | splitting the name on "-" gives back its eight fields |
| UploadFileName.FieldsRead | src/utils/imageUploadCloudinary.ts:13-26 | the eight fields read as month + 1, date, year, displayed hour, minutes, seconds, am/pm and random id |
| UploadFileName.GenerateFileName | src/utils/imageUploadCloudinary.ts:10-27 | the generated name parses back to exactly the clock it came from, in 12-hour form with its suffix, and the random id |

## Left out

- Rendering, class names, size and variant tables, icons, and all JSX. The modal component itself is reduced to its `open`, `itemName` and `loading` inputs.
- Network and library plumbing: the mutations, `unwrap()`, the `fetch` upload to Cloudinary, the cookie helper's options, and `decodeToken`. Mutation outcomes are inputs. Decoding is a function parameter. Cookies are a map.
- `console.error` logging in `handleApiError`, `handleFiles` and `logout`. The logged texts, including the file-size message built with `formatFileSize`, are not modelled.
- Toasts raised by caller-supplied validators. Validators are total boolean functions here.
- The hook's pass-through `isCreating`/`isUpdating`/`isError` flags. Only the delete mutation's loading flag is modelled, as a constant fixed at render time.
- React mechanics: `useCallback` memoisation and stale closures, including `handleDrop` keeping the first render's `handleFiles`. Also async interleavings while a delete is awaited, and `useDeleteConfirm` throwing outside its provider.
- `AuthSlice.AuthSlice.Logout`: the `catch` branch is not modelled. Nothing in the model can throw, and the branch repeats the same assignments.
- `FormSelect.GroupOptions`: the source buckets into a plain object, so a group name inherited from `Object.prototype` (such as "constructor" or "toString") finds a function there and the `push` throws a `TypeError`; the model buckets such names like any other.
- `FormSelect.GroupOptions`: JavaScript enumerates integer-like property names first, in numeric order. The model keeps insertion order for every name, which is the source's order for non-numeric group names.
- `FormSelect.ParseDisplay`: field values other than booleans and strings (numbers, `undefined`) are not modelled.
- `PasswordStrength.Score`: the regular-expression classes are ASCII ranges, as in the source. The length counts characters rather than UTF-16 code units. The list of passed checks built inside `calculatePasswordStrength` is computed but never returned by the source, so no property is stated about it.
- `TablePagination.PageCount`: characterised only for a positive page size. Negative, fractional or NaN limits and totals are not modelled. Neither is the `Number(val)` conversion of the selected rows-per-page string.
- The pagination state is passed to the table only when pagination is enabled. The model gives the mapping itself and not the flag.
- `TaskSchema.CreateIssues`: zod's own messages for wrong types and enum values, unknown-key stripping, and the parsed output are not modelled. Issues are named per field.
- `UploadFileName.GenerateFileName`: `new Date()` and `Math.random()` are parameters. The clock fields are assumed within their calendar ranges, and the random id within 0..999999.
