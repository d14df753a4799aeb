# Charity administration front end — a Dafny model

This project models the logic of a React administration front end for a charity. The front end covers members, payments, expenses, vehicles, trips and maintenance records, plus a reports page, a dashboard and a registration form.

The model has four parts:

- **URL builders.** The service layer's request URLs are modelled, and every page's list, save, delete and status URLs are tied to them.
- **One generic list/edit screen.** It covers paging, search, one filter, a modal form seeded for create or edit, submit, delete behind a confirmation, and per-row status transitions. A descriptor says what varies from page to page. Each of the six resource pages is that screen with its own descriptor.
- **Code-to-label tables.** These are the `switch` helpers whose default returns the code itself. Their duplicated copies are proved to agree.
- **The other three pages.** The reports page (tabs, date range, export, chart data), the dashboard (loading, error and retry, chart data, name formatting) and the registration form (password check and the submit gate).

JavaScript values are `Js.Value`: undefined, null, booleans, integers, strings, arrays and insertion-ordered objects. `||`, `?.`, truthiness, spread-update, template literals, `trim` and UTF-16 `length` are written out in `Js` and `Text`.

Requests are not performed. Each page object appends the request it issues to a ghost log, and each server answer is a parameter of the handler that receives it. The same goes for `window.confirm`, the browser's form validity, today's date, the current year and the date-to-ISO conversion.

The model keeps these facts about the code:

- `handlePageChange` sets the page as given, with no clamping.
- Requests are not ordered: a late answer to an earlier request is applied like any other.
- The payments list filters by `date`.
- `handleSubmit` does not validate the form.

## Model

| member | source | states |
|---|---|---|
| ApiServices.Opt | src/services/apiServices.js:9-10 | an optional filter is sent exactly when its value is non-empty |
| ApiServices.BaseIsListUrl | src/services/apiServices.js:8 | the base `path?page=P&limit=L` is the generic list URL with no optional parameters |
| ApiServices.AppendIfListUrl | src/services/apiServices.js:9-10 | one `if (v) url += '&k=v'` step extends the generic list URL by that one parameter, at the end |
| ApiServices.TwoFiltersListUrl | src/services/apiServices.js:8-10 | the base followed by two `if (v) url += '&k=v'` steps is the generic list URL with those two parameters, in source order |
| ApiServices.NonEmptyAppend | src/services/apiServices.js:44-48 | dropping empty parameters commutes with appending one more parameter |
| ApiServices.GetMembersUrl | src/services/apiServices.js:7-10 | `/members?page&limit`, then search, then status, each only when non-empty |
| ApiServices.GetPaymentsUrl | src/services/apiServices.js:44-48 | `/payments?page&limit`, then search, status, member, each only when non-empty |
| ApiServices.GetExpensesUrl | src/services/apiServices.js:82-85 | `/expenses?page&limit`, then search, category, each only when non-empty |
| ApiServices.GetVehiclesUrl | src/services/apiServices.js:131-134 | `/vehicles?page&limit`, then search, status, each only when non-empty |
| ApiServices.GetTripsUrl | src/services/apiServices.js:174-178 | `/trips?page&limit`, then search, status, vehicle, each only when non-empty |
| ApiServices.GetMaintenanceRecordsUrl | src/services/apiServices.js:218-221 | `/maintenance?page&limit`, then search, vehicle, each only when non-empty |
| ApiServices.ParseTwoFilters | src/services/apiServices.js:7-10 | a list URL with two optional filters splits back into page, limit and each non-empty filter, in order |
| ApiServices.ParseThreeFilters | src/services/apiServices.js:44-48 | the same for three optional filters |
| ApiServices.ParseMembersUrl | src/services/apiServices.js:7-10 | the query splits into page, limit, then `search` iff non-empty, then `status` iff non-empty, each value as written |
| ApiServices.MembersUrlDefaults | src/services/apiServices.js:7-8 | with every default the members URL is `/members?page=1&limit=10` |
| ApiServices.ParsePaymentsUrl | src/services/apiServices.js:44-48 | the query splits into page, limit and the optional parts in the order search, status, member, each iff non-empty |
| ApiServices.ParseExpensesUrl | src/services/apiServices.js:82-85 | the query splits into page, limit and the optional parts in the order search, category, each iff non-empty |
| ApiServices.ParseVehiclesUrl | src/services/apiServices.js:131-134 | the query splits into page, limit and the optional parts in the order search, status, each iff non-empty |
| ApiServices.ParseTripsUrl | src/services/apiServices.js:174-178 | the query splits into page, limit and the optional parts in the order search, status, vehicle, each iff non-empty |
| ApiServices.ParseMaintenanceRecordsUrl | src/services/apiServices.js:218-221 | the query splits into page, limit and the optional parts in the order search, vehicle, each iff non-empty |
| ApiServices.NoStatusInExpensesUrl | src/services/apiServices.js:82-85 | with values free of `&`, the expenses URL never carries a `status` parameter |
| ApiServices.NoStatusInMaintenanceRecordsUrl | src/services/apiServices.js:218-221 | with values free of `&`, the maintenance URL never carries a `status` parameter |
| ApiServices.InjectedExpensesUrl | src/services/apiServices.js:84 | a search text `x&k=v` produces the same text as a search `x` followed by a parameter `k=v` |
| ApiServices.SearchInjection | src/services/apiServices.js:84 | values are pasted in unescaped, so a search `x&k=v` splits into search `x` plus an extra parameter `k`=`v` |
| ApiServices.SearchIsNotEscaped | src/services/apiServices.js:84 | a concrete search text makes the expenses list read as filtered by status |
| ApiServices.Name | src/services/apiServices.js:17-36 | every resource name is a non-empty path segment without `/` or `?` |
| ApiServices.NameInjective | src/services/apiServices.js:17-36 | distinct resources have distinct names |
| ApiServices.CollectionPath | src/services/apiServices.js:23-24 | `/{resource}` is exactly the segments "" and the resource name |
| ApiServices.RecordPath | src/services/apiServices.js:17-18 | `/{resource}/{id}` is the collection path plus the id, and exactly three segments when the id has no `/` |
| ApiServices.GetRecord | src/services/apiServices.js:17-18 | a GET of the record path |
| ApiServices.CreateRecord | src/services/apiServices.js:23-24 | a POST of the body to the collection path |
| ApiServices.UpdateRecord | src/services/apiServices.js:29-30 | a PUT of the body to the record path |
| ApiServices.DeleteRecord | src/services/apiServices.js:35-36 | a DELETE of the record path |
| ApiServices.SameRecordPath | src/services/apiServices.js:17-36 | get, update and delete of one record all address `/{resource}/{id}` |
| ApiServices.UpdateStatus | src/services/apiServices.js:165-166 | a PUT of `{ status }` to `/{resource}/{id}/status`, only for vehicles, trips and maintenance |
| ApiServices.Approve | src/services/apiServices.js:116-117 | a PUT of `{}` to `/expenses/{id}/approve` |
| ApiServices.Reject | src/services/apiServices.js:122-123 | a PUT of `{}` to `/expenses/{id}/reject` |
| ApiServices.ApproveSegments | src/services/apiServices.js:116-117 | the approve path is exactly the segments expenses, id, approve |
| ApiServices.RejectSegments | src/services/apiServices.js:122-123 | the reject path is exactly the segments expenses, id, reject |
| ApiServices.StatusSegments | src/services/apiServices.js:252-253 | a status path is exactly the segments resource, id, status |
| ApiServices.RecordActionSegments | src/services/apiServices.js:209-210 | appending `/action` to a record path adds exactly one segment |
| ApiServices.ReportName | src/services/apiServices.js:261-274 | the three report names contain no `?`, `&` or `/` |
| ApiServices.ReportUrl | src/services/apiServices.js:261-274 | the report's path `/reports/{name}`, then the date query starting at the first `?` |
| ApiServices.ParseReportUrl | src/services/apiServices.js:261-274 | a report URL splits into `/reports/{kind}` with exactly startDate then endDate |
| ApiServices.ReportUrlShape | src/services/apiServices.js:262 | the report URL is the report path with the two dates as its query |
| ApiServices.DashboardStatsUrl | src/services/apiServices.js:279-280 | `/reports/dashboard` carries no parameters |
| Screen.EnvBase | src/pages/Payments.js:63 | the configured base when it is set and non-empty, else the localhost base |
| Screen.SeedKeys | src/pages/Members.js:18-43 | the draft's keys, one per field, in order |
| Screen.PageListUrl | src/pages/Members.js:57-66 | a page's list URL is the generic list URL under its base, with search then the page's filter |
| Screen.ParsePageListUrl | src/pages/Members.js:57-66 | the query splits into page, limit 10, search iff non-empty, then the page's filter iff non-empty |
| Screen.ListUrlUnderBase | src/pages/Members.js:57 | a base in front of a relative list URL is the list URL of the longer path |
| Screen.PageListUrlUnderBase | src/pages/Members.js:57-66 | a page's list URL is the service's list URL with the page's base in front |
| Screen.PageListUrlIsService | src/pages/Members.js:57-66 | the same, for a URL known to be the service's list URL |
| Screen.RecordUrl | src/pages/Members.js:208 | `${base}/{resource}/${id}` is the base plus the service's record path |
| Screen.SaveRequest | src/pages/Members.js:180-190 | a PUT to the selected record iff a record is selected, otherwise a POST to the collection, with the draft as the body |
| Screen.SaveMatchesServices | src/pages/Members.js:180-190 | the save URL is the service's update or create URL under the page's base |
| Screen.RecordRequestsMatchServices | src/pages/Vehicles.js:190-208 | the delete and status URLs are the service's under the page's base |
| Screen.ApproveMatchesService | src/pages/Expenses.js:199 | the page's approve URL is the service's approve URL under the base |
| Screen.RejectMatchesService | src/pages/Expenses.js:221 | the page's reject URL is the service's reject URL under the base |
| Screen.DayOf | src/pages/Members.js:101 | the date part of an ISO timestamp has no `T`, and a timestamp without `T` is its own date part |
| Screen.BlankParts | src/pages/Members.js:120-136 | a nested group of the create draft has the group's keys, each with its default |
| Screen.InitialDraft | src/pages/Members.js:18-39 | the `useState` draft has the fields' keys in order, each holding its first-draft value |
| Screen.CreateDraft | src/pages/Members.js:117-140 | the draft for a new record has the fields' keys in order, each holding its create value |
| Screen.Fill | src/pages/Members.js:118-140 | a draft has one entry per field, its key and its value, in order |
| Screen.CreateDraftFromInitial | src/pages/Vehicles.js:118-130 | the create draft has the first draft's keys and its values, except the fields filled with today's date or the current year |
| Screen.CreatedLookup | src/pages/Vehicles.js:118-130 | with distinct keys, the create draft holds each field's create value under its key |
| Screen.EditValue | src/pages/Members.js:93-116 | `record.k \|\| fallback`, `record.k ?? fallback`, `record.k?._id \|\| ''`, an empty date for a falsy date; a TypeError only for a strictly read group or a rejected date |
| Screen.EditParts | src/pages/Members.js:103-113 | each part of a nested group is `record.group?.part \|\| default` |
| Screen.SeedEdit | src/pages/Members.js:95-116 | the edit draft exists iff no field throws, and then holds every field's edit value in order |
| Screen.EmptyRecordSeedsInitial | src/pages/Members.js:93-141 | editing an empty record gives the first draft, when no group is read strictly |
| Screen.CreateDraftIsInitial | src/pages/Members.js:117-140 | when no field is filled with today's date or the current year, the create draft is exactly the first draft |
| Screen.AbsentFieldSeedsInitial | src/pages/Members.js:93-141 | a field the record lacks is seeded with its first-draft value, unless it is read strictly |
| Screen.SeededLookup | src/pages/Members.js:95-116 | with distinct keys, the edit draft holds each field's edit value under its key |
| Screen.SeedEditIsInitial | src/pages/Members.js:93-141 | when every field's edit value is its first-draft value, the edit draft is the first draft |
| Screen.Stored | src/pages/Payments.js:163-177 | a checkbox on the checkbox-aware page stores `checked`; every other input stores `value` |
| Screen.ApplyInput | src/pages/Members.js:149-168 | a plain name sets that key only; a dotted `p.c` sets `formData[p]` to its spread with `c` updated, and no other key changes |
| Screen.UpdateLookups | src/pages/Members.js:163-166 | after `{...form, [k]: v}`, `k` holds `v` and every other key what it held |
| Screen.SplitHasTwo | src/pages/Members.js:153-154 | a name containing `.` splits into at least two parts |
| Screen.DottedInputChangesOneSubField | src/pages/Members.js:153-161 | a dotted name sets `formData[p][c]` and leaves every other sub-field of `p` as it was |
| Screen.Labelled | src/pages/Payments.js:270-283 | the table's label for a known code, the code itself otherwise |
| Screen.BadgeFor | src/pages/Members.js:247-260 | the table's badge for a known code, otherwise the fallback colour showing the code |
| Screen.LabelledInjective | src/pages/Maintenance.js:289-310 | distinct known codes with distinct labels are never shown the same way |
| Screen.ListBody | src/pages/Members.js:315-338 | the spinner while loading, "no data" for an empty list, the rows otherwise; a TypeError for null, undefined or a non-array of non-zero length |
| Screen.StatusItems | src/pages/Vehicles.js:388-419 | one status action per target, in order |
| Screen.RowActions | src/pages/Expenses.js:372-410 | edit first and delete last; approve and reject iff the page has them and the row is pending; status actions only to the page's targets |
| Screen.RenderPagination | src/pages/Members.js:216-245 | no pager iff totalPages <= 1; items 1..totalPages with the current one active; Prev disabled iff on page 1 and Next iff on the last page |
| Screen.Fetched | src/pages/Members.js:48-76 | the list GET is logged and loading ends; on success rows, page count and total are the response's and the error is left as it was; on failure the rows and counts are unchanged and the error is `message \|\| fallback` |
| Screen.OptionsFetched | src/pages/Payments.js:86-102 | the drop-down list's GET is logged; on success the list becomes the response, on failure it is kept; nothing else changes |
| Screen.Refreshed | src/pages/Trips.js:188-190 | after a successful change the list is fetched again; on a page that reloads its drop-down, the drop-down's GET follows and its list is replaced on success; nothing else changes |
| Screen.FailureRaisesAlert | src/pages/Members.js:279-283 | a refused request always shows the alert, with the server's message when it sent one |
| Screen.Screen.constructor | src/pages/Members.js:8-43 | the mounted page: no rows, loading, page 1 of 1, empty search and filter, modal closed, nothing selected, the first draft, an empty log |
| Screen.Screen.Fetch | src/pages/Members.js:48-76 | the page object's new state is `Fetched` of its old state: the request is logged, success replaces rows and counts, failure only sets the error |
| Screen.Screen.FetchOptions | src/pages/Trips.js:85-101 | the state after the drop-down list's request |
| Screen.Screen.RunEffect | src/pages/Members.js:44-46 | the effect fetches (and loads the drop-down list) only when page, search or filter changed since its last run |
| Screen.Screen.PageChange | src/pages/Members.js:78-80 | the page becomes exactly n, unclamped, and nothing else changes |
| Screen.Screen.Search | src/pages/Members.js:82-85 | the new search term and page 1, nothing else |
| Screen.Screen.FilterChange | src/pages/Members.js:87-90 | the new filter and page 1, nothing else |
| Screen.Screen.DismissError | src/pages/Members.js:280 | the error is cleared, nothing else |
| Screen.Screen.ShowModal | src/pages/Members.js:92-143 | a truthy record is selected and seeds the edit draft; otherwise nothing is selected and the create draft is used; a throwing seed leaves only the selection changed |
| Screen.Screen.CloseModal | src/pages/Members.js:145-147 | the modal closes, nothing else |
| Screen.Screen.InputChange | src/pages/Members.js:149-168 | the draft becomes the input applied to it, nothing else |
| Screen.Screen.Submit | src/pages/Members.js:170-197 | the save request is logged; success closes the modal and refreshes; failure only sets the error, leaving modal and draft |
| Screen.Screen.Refresh | src/pages/Trips.js:188-190 | the list again, then the drop-down list where the page reloads it after a change |
| Screen.Screen.DeleteRecord | src/pages/Members.js:199-214 | without confirmation nothing changes and no request is logged; otherwise the DELETE, then a refresh or the error |
| Screen.Screen.Approve | src/pages/Expenses.js:189-209 | PUT `{}` to `…/approve`, then refetch on success or set the error |
| Screen.Screen.Reject | src/pages/Expenses.js:211-229 | PUT `{}` to `…/reject`, then refetch on success or set the error |
| Screen.Screen.UpdateStatus | src/pages/Vehicles.js:198-218 | PUT `{ status }` to `…/status`, then a refresh on success or set the error |
| MembersPage.PageShape | src/pages/Members.js:15-76 | the members screen: the members resource under localhost, the `status` filter, dotted inputs, no row moves, no drop-down list |
| MembersPage.DraftKeys | src/pages/Members.js:18-39 | the draft's keys are the form state's, in order |
| MembersPage.MembershipStatusBadge | src/pages/Members.js:247-260 | an unknown status is shown as itself in the info colour |
| MembersPage.FilterOptionsHaveBadges | src/pages/Members.js:302-306 | every status of the filter has its own badge, never the fallback |
| MembersPage.ListUrlIsService | src/pages/Members.js:57-66 | fetchMembers sends the service's getMembers URL under the localhost base |
| MembersPage.EditWithoutFullNameThrows | src/pages/Members.js:96-97 | editing a member without `fullName` throws: no draft is seeded |
| MembersPage.EditOfBareMember | src/pages/Members.js:93-116 | a member with only an empty name is seeded with the first draft, the country included |
| MembersPage.NewMemberDraft | src/pages/Members.js:117-141 | a new member gets the first draft: empty name and contact, the address with the country, status active |
| MembersPage.TypingFirstName | src/pages/Members.js:149-162 | typing into `fullName.first` changes only that part of the name |
| PaymentsPage.IsPaidKey | src/pages/Payments.js:132 | `isPaid` is the seventh key of both drafts and no earlier key |
| PaymentsPage.AsWrittenEditIsPaid | src/pages/Payments.js:132 | as written, an edited payment is always seeded truthy, and an unpaid one as paid |
| PaymentsPage.EditKeepsIsPaid | src/pages/Payments.js:132 | with `??` the edit draft keeps the stored flag, and is true only when the flag is missing |
| PaymentsPage.CorrectionOnlyTouchesIsPaid | src/pages/Payments.js:118-157 | the corrected draft agrees with the written one on every other field and on a new payment |
| PaymentsPage.Page | src/pages/Payments.js:20-160 | the payments screen: the payments resource under the configured base, the `date` filter, checkbox-aware inputs, no row transitions, the members drop-down from `/members?limit=1000`, and the draft as written |
| PaymentsPage.DraftKeys | src/pages/Payments.js:31-44 | the draft's keys are the form state's, in order |
| PaymentsPage.PageEditMarksUnpaidPaid | src/pages/Payments.js:132 | on the payments screen, editing a payment stored as unpaid seeds `isPaid` as true |
| PaymentsPage.NewPaymentDefaults | src/pages/Payments.js:141-154 | a new payment on the screen: today, cash, membership fee, paid, not in instalments |
| PaymentsPage.PaymentStatusBadge | src/pages/Payments.js:262-268 | "paid" in green iff the flag is truthy, "unpaid" otherwise |
| PaymentsPage.PaymentTypeName | src/pages/Payments.js:270-283 | an unknown payment type is shown as itself |
| PaymentsPage.PaymentMethodName | src/pages/Payments.js:285-298 | an unknown payment method is shown as itself |
| PaymentsPage.DefaultsAreNamed | src/pages/Payments.js:510-529 | the draft's default type and method have names |
| PaymentsPage.MemberCell | src/pages/Payments.js:378-383 | "not specified" for a falsy member; `first last` through `?.` otherwise |
| PaymentsPage.MemberCellOfNamed | src/pages/Payments.js:378-383 | a member with both names shows as `first last` |
| PaymentsPage.ParseListUrl | src/pages/Payments.js:63-71 | the date filter travels as `date`, after the search, each only when non-empty |
| ExpensesPage.Page | src/pages/Expenses.js:27-80 | the expenses screen: the expenses resource under the configured base, the `category` filter, flat inputs, approve and reject, no drop-down list |
| ExpensesPage.DraftKeys | src/pages/Expenses.js:30-39 | the draft's keys are the form state's, in order |
| ExpensesPage.ApprovalStatusBadge | src/pages/Expenses.js:262-273 | an unknown approval status is shown as itself in grey |
| ExpensesPage.PendingRowActions | src/pages/Expenses.js:372-410 | a pending row offers edit, approve, reject and delete, in that order |
| ExpensesPage.SettledRowActions | src/pages/Expenses.js:372-410 | any other row offers only edit and delete |
| ExpensesPage.DraftsArePending | src/pages/Expenses.js:94-123 | a new expense is pending, and so is an edited one whose record has no status |
| ExpensesPage.ListUrlIsService | src/pages/Expenses.js:57-65 | fetchExpenses sends the service's getExpenses URL under the page's base |
| VehiclesPage.PageShape | src/pages/Vehicles.js:28-80 | the vehicles screen: the vehicles resource under localhost, the `status` filter, flat inputs, the four status moves, no drop-down list |
| VehiclesPage.DraftKeys | src/pages/Vehicles.js:31-42 | the draft's keys are the form state's, in order |
| VehiclesPage.StatusBadge | src/pages/Vehicles.js:251-264 | an unknown status is shown as itself in the info colour |
| VehiclesPage.FuelTypeName | src/pages/Vehicles.js:266-279 | an unknown fuel type is shown as itself |
| VehiclesPage.MenuMatchesBadges | src/pages/Vehicles.js:388-419 | each status the drop-down sets is named by the badge in the same words |
| VehiclesPage.RowActionsOfVehicle | src/pages/Vehicles.js:388-419 | a row offers edit, the four statuses in order, then delete |
| VehiclesPage.NewVehicleYear | src/pages/Vehicles.js:121 | a new vehicle is drafted with the current year; the first draft leaves it blank |
| VehiclesPage.NewVehicleDefaults | src/pages/Vehicles.js:116-129 | a new vehicle is available and runs on gasoline |
| VehiclesPage.EditFallbacks | src/pages/Vehicles.js:98-115 | an edited vehicle falls back to available and gasoline |
| VehiclesPage.ListUrlIsService | src/pages/Vehicles.js:60-68 | fetchVehicles sends the service's getVehicles URL under the localhost base |
| TripsPage.PageShape | src/pages/Trips.js:29-102 | the trips screen: the trips resource under localhost, the `status` filter, flat inputs, the four status moves, and the available vehicles reloaded after each change |
| TripsPage.DraftKeys | src/pages/Trips.js:32-43 | the draft's keys are the form state's, in order |
| TripsPage.StatusBadge | src/pages/Trips.js:270-283 | an unknown status is shown as itself in grey |
| TripsPage.MenuMatchesBadges | src/pages/Trips.js:403-431 | each status the drop-down sets is named by the badge in the same words |
| TripsPage.ParseVehicleOptionsUrl | src/pages/Trips.js:93-96 | the vehicle list asks for `status=available` and `limit=1000`, nothing else |
| TripsPage.ChangeRefreshesVehicles | src/pages/Trips.js:188-190 | after a successful change, the trips and then the vehicle list are requested |
| TripsPage.NewTripDefaults | src/pages/Trips.js:137-149 | a new trip is scheduled and starts today |
| TripsPage.EditStatusFallback | src/pages/Trips.js:133 | an edited trip keeps its status, or falls back to scheduled |
| TripsPage.ListUrlIsService | src/pages/Trips.js:62-71 | fetchTrips sends the service's getTrips URL without a vehicle, under the localhost base |
| TripsPage.TripsWithoutVehicle | src/services/apiServices.js:174-178 | getTrips with an empty vehicle is the list URL of search and status only |
| TripsPage.NonEmptyDropsEmpty | src/services/apiServices.js:178 | an empty optional parameter adds nothing |
| MaintenancePage.Page | src/pages/Maintenance.js:29-102 | the maintenance screen: the maintenance resource under the configured base, the `vehicle` filter, flat inputs, the four status moves, and the vehicles drop-down loaded once |
| MaintenancePage.DraftKeys | src/pages/Maintenance.js:32-43 | the draft's keys are the form state's, in order |
| MaintenancePage.StatusBadge | src/pages/Maintenance.js:274-287 | an unknown status is shown as itself in grey |
| MaintenancePage.SameStatusesAsTrips | src/pages/Maintenance.js:274-287 | maintenance records and trips share their statuses and badges |
| MaintenancePage.MaintenanceTypeName | src/pages/Maintenance.js:289-310 | an unknown maintenance type is shown as itself |
| MaintenancePage.MaintenanceTypeNamesDistinct | src/pages/Maintenance.js:289-310 | distinct maintenance types are never named alike |
| MaintenancePage.EditSeedsVehicleId | src/pages/Maintenance.js:118-135 | the edit draft's vehicle is the record vehicle's `_id` or ""; the status is kept or falls back to scheduled |
| MaintenancePage.ChangeLeavesVehicles | src/pages/Maintenance.js:166-241 | a change reloads the records but not the vehicle list |
| MaintenancePage.ListUrlIsService | src/pages/Maintenance.js:62-70 | fetchMaintenanceRecords sends the service's URL under the page's base |
| Register.PasswordCheck | src/pages/Register.js:59-69 | the mismatch message whenever the passwords differ, checked first; the length message iff equal and shorter than 6 UTF-16 units; accepted iff equal and at least 6 |
| Register.LengthBoundary | src/pages/Register.js:64 | six ordinary characters are accepted and five are not |
| Register.AstralCharactersCountTwice | src/pages/Register.js:64 | three characters outside the BMP already have length 6 |
| Register.RegisterForm.constructor | src/pages/Register.js:17-25 | five empty fields, not validated, no error, nothing dispatched |
| Register.RegisterForm.OnChange | src/pages/Register.js:47-57 | only the named field changes; the password error is cleared iff the field is password or confirmPassword |
| Register.RegisterForm.OnSubmit | src/pages/Register.js:71-93 | an invalid form only turns on validation; otherwise a failed check sets its message, and only a passing one dispatches username, full name, email and password |
| Reports.TabReport | src/pages/Reports.js:57-65 | a tab loads a report iff it is members, financial or vehicles, the report of its own name |
| Reports.TabOfReport | src/pages/Reports.js:57-65 | each report is loaded by the tab of its name and no other |
| Reports.ReportRequestUrl | src/pages/Reports.js:76-78 | the page's report URL is the service's report URL under localhost |
| Reports.ExportPath | src/pages/Reports.js:163-171 | the document is the tab's for the three report tabs, `comprehensive` for any other |
| Reports.ExportUrl | src/pages/Reports.js:163-171 | the export URL is `/pdf/{document}` with startDate then endDate |
| Reports.DateQueryShape | src/pages/Reports.js:164 | the date query is the two dates as parameters, start first |
| Reports.ExportMatchesReport | src/pages/Reports.js:163-171 | the PDF of a report tab covers the same dates as the report on screen |
| Reports.ParseDateQuery | src/pages/Reports.js:164 | a path followed by the date query splits back into that path and the two dates |
| Reports.NoQueryInExportPath | src/pages/Reports.js:163-171 | no export document path contains `?` |
| Reports.ParseExportUrl | src/pages/Reports.js:163-171 | an export URL splits into its document's path and exactly the two dates |
| Reports.FileName | src/pages/Reports.js:180 | the download is named after the active tab, `-report.pdf` appended |
| Reports.FileNameInjective | src/pages/Reports.js:180 | distinct tabs download distinct file names |
| Reports.LoadMessage | src/pages/Reports.js:84-132 | each report's fallback error message is non-empty |
| Reports.Loaded | src/pages/Reports.js:67-134 | one report GET is logged; success replaces that report only, failure sets the error; the other reports are unchanged |
| Reports.Effect | src/pages/Reports.js:57-65 | nothing when tab and dates are as at the last run; otherwise a report tab's report is requested and loaded, exactly once, and any other tab requests nothing |
| Reports.RangeChanged | src/pages/Reports.js:136-142 | `{...dateRange, [name]: value}` and nothing else |
| Reports.RangeChangeKeepsOtherEnd | src/pages/Reports.js:136-142 | changing one end sets it and leaves the other end as it was |
| Reports.TabChangeRefetches | src/pages/Reports.js:57-65 | opening another report tab makes the effect request that tab's report for the dates on screen |
| Reports.RangeChangeRefetches | src/pages/Reports.js:57-65 | a range change that changes the range makes the effect request the open tab's report again |
| Reports.Exported | src/pages/Reports.js:152-191 | the export GET is logged; success downloads `${tab}-report.pdf`, failure sets the error; no report changes |
| Reports.ReportsPage.constructor | src/pages/Reports.js:42-53 | not loading, no error, the members tab, the year 2025, no reports, an empty log |
| Reports.ReportsPage.FetchReport | src/pages/Reports.js:67-134 | the state after one report request |
| Reports.ReportsPage.RunEffect | src/pages/Reports.js:57-65 | the state after the effect |
| Reports.ReportsPage.TabChange | src/pages/Reports.js:144-146 | the active tab becomes the key, nothing else |
| Reports.ReportsPage.DateRangeChange | src/pages/Reports.js:136-142 | the state after the range change |
| Reports.ReportsPage.ExportReport | src/pages/Reports.js:152-191 | the state after the export |
| Reports.Counts | src/pages/Reports.js:201-206 | each count is `source?.k \|\| 0`: the value when truthy, 0 otherwise |
| Reports.MemberStatusChart | src/pages/Reports.js:194-223 | never throws; a chart iff the report and its distribution are truthy, labelled with the four statuses |
| Reports.StatusLabelsAreBadgeTexts | src/pages/Reports.js:198 | the pie names each status as the members list's badge does |
| Reports.MemberStatusChartOf | src/pages/Reports.js:194-223 | a distribution's counts land in the pie in status order, missing ones as 0 |
| Reports.MonthKeys | src/pages/Reports.js:229 | `Object.keys`: an object's keys, an array's indices, nothing otherwise |
| Reports.Indices | src/pages/Reports.js:229 | an array's keys are "0", "1", … |
| Reports.Series | src/pages/Reports.js:230-235 | one entry per month, `breakdown[month].key \|\| 0` |
| Reports.FinancialChart | src/pages/Reports.js:226-256 | no chart iff the report or its breakdown is falsy; a TypeError iff some month is nullish; labels, income and expenses of equal length |
| Reports.FinancialChartOfMonths | src/pages/Reports.js:226-256 | months given as objects become the labels, in order, with each month's income and expenses or 0 |
| Reports.VehicleName | src/pages/Reports.js:262-264 | `${v.make} ${v.model}` for a non-nullish vehicle |
| Reports.VehicleUsageChart | src/pages/Reports.js:259-279 | no chart iff the report or its vehicles are falsy; a TypeError unless they are an array of non-nullish items; one bar per vehicle |
| Reports.VehicleNames | src/pages/Reports.js:262-264 | one name per vehicle, in order |
| Reports.TripCounts | src/pages/Reports.js:265 | one `tripCount \|\| 0` per vehicle, in order |
| Reports.VehicleUsageOfOne | src/pages/Reports.js:259-279 | one vehicle shows as one `make model` bar of its trip count |
| Reports.Identity | src/pages/Reports.js:720-731 | cases that return their own code |
| Reports.LookupAppend | src/pages/Reports.js:710-735 | a lookup in two tables finds the first table's entry before the second's |
| Reports.LookupFound | src/pages/Reports.js:710-735 | a found key has an entry in the table |
| Reports.IdentityTail | src/pages/Reports.js:710-735 | appending cases that return their own code changes no label |
| Reports.PaymentTypeName | src/pages/Reports.js:710-735 | any code other than the four English ones is shown as itself |
| Reports.SamePaymentTypeNames | src/pages/Reports.js:710-735 | the report's payment-type names agree with the payments list's on every code |
| Reports.ExpenseCategoryName | src/pages/Reports.js:737-768 | any code other than the eight filter categories is shown as itself |
| Reports.CategoryKeys | src/pages/Reports.js:737-768 | the translated codes are exactly the expenses filter's categories, in order |
| Reports.FilterCategoriesNamed | src/pages/Reports.js:737-768 | every filter category has its own Arabic name, different from the code and from the others' |
| Reports.VehicleStatusName | src/pages/Reports.js:770-785 | any status other than the four and `in-use` is shown as itself |
| Reports.InUseSpellings | src/pages/Reports.js:770-785 | `in-use` and `in_use` get the same name |
| Reports.StatusNamesMatchBadges | src/pages/Reports.js:770-785 | apart from the extra spelling, the report names each status as the vehicles list's badge does |
| Dashboard.ShownOf | src/pages/Dashboard.js:195-219 | the content is shown iff not loading and no error; the alert shows the error |
| Dashboard.AsWrittenFetched | src/pages/Dashboard.js:55-65 | as written, a successful fetch never clears the error of an earlier one |
| Dashboard.AsWrittenRetryKeepsAlert | src/pages/Dashboard.js:206-219 | as written, a failure followed by a successful retry loads the data but still shows the alert |
| Dashboard.Fetched | src/pages/Dashboard.js:55-65 | the corrected fetch: success sets the data and clears the error; failure keeps the data and sets the error |
| Dashboard.FetchedShows | src/pages/Dashboard.js:195-219 | with the correction every attempt ends on the content or on this attempt's alert |
| Dashboard.RetryRecovers | src/pages/Dashboard.js:206-219 | with the correction a successful retry shows the dashboard |
| Dashboard.CorrectionOnlyAfterError | src/pages/Dashboard.js:55-65 | the correction changes nothing while no error is set |
| Dashboard.DashboardPage.constructor | src/pages/Dashboard.js:46-48 | no statistics, loading, no error, an empty log |
| Dashboard.DashboardPage.FetchStats | src/pages/Dashboard.js:51-65 | the page object's new state is `AsWrittenFetched` of its old state: the request is logged, loading ends, success stores the statistics and keeps any earlier error |
| Dashboard.MemberStatusChart | src/pages/Dashboard.js:68-97 | never throws; a chart iff `stats?.members` is truthy, labelled with the four statuses |
| Dashboard.MemberChartAsInReports | src/pages/Dashboard.js:68-97 | the dashboard's pie is the reports page's pie of a report whose distribution is `stats.members` |
| Dashboard.VehicleStatusChart | src/pages/Dashboard.js:131-157 | never throws; a chart iff `stats?.vehicles` is truthy, with three counts |
| Dashboard.VehicleLabelsAreStatusNames | src/pages/Dashboard.js:135 | the three labels are the vehicles list's and the reports page's names |
| Dashboard.RecentCount | src/pages/Dashboard.js:163-165 | `recent[list]?.length \|\| 0`: the array's length, 0 when missing |
| Dashboard.ActivityChart | src/pages/Dashboard.js:159-193 | never throws; a chart iff `stats?.recent` is truthy; each series starts with its list's count, then constants |
| Dashboard.ActivityOfLists | src/pages/Dashboard.js:159-193 | with three recent lists each series starts with that list's length |
| Dashboard.FullName | src/pages/Dashboard.js:647 | "not specified" for a falsy name, else `first middle-or-empty last` trimmed |
| Dashboard.MemberRowName | src/pages/Dashboard.js:647 | a TypeError iff the member is nullish, else the member's full name |
| Dashboard.PaymentRowName | src/pages/Dashboard.js:525 | a TypeError iff the payment is nullish, else its member's full name through `?.` |
| Dashboard.UnnamedRows | src/pages/Dashboard.js:525 | a payment without member or a member without name shows "not specified" |
| Dashboard.NameParts | src/pages/Dashboard.js:647 | a built name object holds the three parts |
| Dashboard.FullNameOfParts | src/pages/Dashboard.js:647 | three parts join with single spaces, so a missing middle name leaves two spaces |
| Dashboard.MissingLastName | src/pages/Dashboard.js:647 | a name without a last part ends in the word `undefined` |
| Dashboard.PaymentTypeName | src/pages/Dashboard.js:736-761 | the dashboard's copy agrees with the payments list on every code, and passes unknown codes through |
| Dashboard.ExpenseCategoryName | src/pages/Dashboard.js:763-794 | the dashboard's copy agrees with the reports page on every code, and passes unknown codes through |

## Left out

- HTTP: axios and the unseen `utils/api` client are not part of this model. Each request is logged and its outcome is a handler parameter. The `api` client's base URL is not part of this model either, so the service URLs are relative.
- The shape of a success response (`response.data.data`, `response.data.pagination`) is abstracted into rows and counts. A malformed success that throws after some setters have run is not modelled.
- Authentication: the token, its headers, the token in the effects' dependency lists, and the Redux store. The registration action itself is not part of this model; only its payload is.
- Concurrency and response ordering are left out, because the code enforces neither.
- Dates are inputs: `new Date()`, `toISOString`, `getFullYear` and `toLocaleDateString`.
- Floating point: the dashboard's financial chart (`income * 1.1` and the like) and the percentage cells of the reports page.
- `window.confirm` and `form.checkValidity` are boolean parameters.
- `window.print` is left out.
- The PDF blob is left out; only the file name of the download is modelled.
- Left out as markup: JSX, Chart.js options and colours, the layout, routing, and the members table's name cell.
- `console.error` on a failed drop-down load has no visible effect and is left out.
- Reports.MonthKeys: a string `monthlyBreakdown` gives no months here, while JavaScript lists its character indices.
- Screen.EditValue: a non-object record (for example a number) is read as one with no fields, as JavaScript does, but array and string index properties are not modelled.
- Screen.Spread: spreading a string parent gives no entries here, while JavaScript gives its index properties. No screen reaches this case, because every dotted input's parent is an object-valued group.
- Reports.Effect: the date range is compared by value. React compares the `dateRange` object by identity, and each `handleDateRangeChange` builds a new object, so a change event that leaves both dates unchanged refetches in the code but not in the model.
- Http.ParseUrl: the query split does no percent-decoding, does not read `+` as a space and keeps a `#` fragment, so for values holding `%`, `+` or `#` the parse lemmas state the split, not what a server's query-string decoder would receive.
- Js.Value: objects with duplicate keys are not represented. Key order is insertion order, without JavaScript's integer-key ordering.

## Findings

| source | as written | input that shows it | evidently intended | confidence | as-written member | corrected member |
|---|---|---|---|---|---|---|
| src/pages/Payments.js:132 | `isPaid: payment.isPaid \|\| true` is always truthy | editing a payment stored with `isPaid: false` seeds the checkbox as paid; saving unchanged marks it paid | keep the stored flag, defaulting to true only when missing (`??`) | not executed | PaymentsPage.AsWrittenEditIsPaid | PaymentsPage.EditKeepsIsPaid |
| src/pages/Dashboard.js:55-65 | a new attempt never clears the error, and the page shows the alert whenever an error is set | a failed load, then a successful press of the retry button: the data arrive but the alert stays | clear the error when an attempt starts, so that a successful retry shows the dashboard | not executed | Dashboard.AsWrittenRetryKeepsAlert | Dashboard.RetryRecovers |

The page objects model the code as written: the payments screen's descriptor uses `PaymentsPage.AsWrittenFields`, and `Dashboard.DashboardPage.FetchStats` follows `Dashboard.AsWrittenFetched`. The corrections (`PaymentsPage.Fields`, `Dashboard.Fetched`) are stated beside them, with their properties proved.
