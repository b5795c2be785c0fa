# Emergent front end: a Dafny model of its handler logic

The emergent front end is a React application for registering working hours on
construction projects (the Dutch *mandagenstaat*, a register of who worked
which day on which project). Employees clock in and out of a project with
their GPS position. Administrators manage invitations, projects and users, and
review the hours. They also export the register as PDF or Excel. Every screen
talks to a REST backend.

This project models the logic inside the screens' handlers. Each piece becomes
Dafny functions and lemmas, or a class whose fields mirror the screen's React
state:

- `EmployeeDashboard` (employee_dashboard.dfy) covers the employee screen:
  - the two-step clock-in and clock-out flow, with its confirmation dialogs;
  - the radius verdict at clock-out and how clock-in errors are reported;
  - the `HH:MM:SS` timer format, the company and project pickers, and the hours total.
- `AdminDashboard` (admin_dashboard.dfy) covers the admin screen:
  - the invitation, project and user lists, updated after every create, edit and delete;
  - the invitation selection and bulk delete;
  - the entry filter, the hours total and the three search boxes;
  - the `dd-mm-yyyy` date display and the password change.
- `MandagenstPage` (mandagenst_page.dfy) covers the register page:
  - which filters allow a report and which query parameters go out;
  - the checks on a downloaded PDF or Excel response;
  - the file name taken from the `Content-Disposition` header (section 4.1 of RFC 6266);
  - the error message that is shown;
  - the date range chosen by a week number.
- `App` (app.dfy) covers the shell:
  - the request interceptor, which adds the Bearer header of section 2.1 of RFC 6750;
  - the session (stored token, user, start-up check, login, logout);
  - what each route renders.
- `GpsDetailModal` (gps_detail_modal.dfy) covers the GPS detail dialog: the mismatch filter, the map centre, the markers and the JA/NEE badge.
- `RegisterPage` and `ResetPasswordPage` (register_page.dfy, reset_password_page.dfy) cover the invitation check, the password checks and the outcome of each form.
- Helper modules hold what those files share: `Common`, `Strings`, `Lists`, `Calendar` and `Passwords`. They cover JavaScript truthiness, decimal and zero-padded numbers, `split`, `includes`, `toLowerCase`, string comparison, `filter` and `[...new Set]`, proleptic Gregorian dates, and the two password checks.

The backend, the browser and the map are replaced by values. Each request is
appended to a `requests` log. Each reply is an `Ok(data)` or a
`Failed(detail)` argument. A toast is a `Notice` appended to `notices`.

## Model

| member | source | states |
|---|---|---|
| Passwords.AcceptedLength | src/pages/RegisterPage.js:44-52 | For matching strings, six or more characters are always accepted. An accepted password has at least three characters, since `length` counts UTF-16 units. |
| Passwords.PasswordProblem | src/pages/RegisterPage.js:44-52 | A form may submit exactly when password and confirmation are equal and the password is at least six UTF-16 units long. A mismatch is reported first. A short matching password gets the length message. |
| Calendar.IsoDateRoundTrip | src/pages/AdminDashboard.js:686-695 | A valid date printed as `YYYY-MM-DD` parses back to the same date. |
| Calendar.IsoDateOrder | src/pages/AdminDashboard.js:690-691 | For dates with four-digit years, comparing their `YYYY-MM-DD` strings is comparing the dates. |
| Lists.Distinct | src/pages/EmployeeDashboard.js:481 | `[...new Set(xs)]` has no duplicates and holds exactly the elements of xs. |
| Lists.DistinctPrefix | src/pages/EmployeeDashboard.js:481 | Later elements never reorder the earlier ones: the distinct values of a prefix come first, in the same order. |
| EmployeeDashboard.TimeFields | src/pages/EmployeeDashboard.js:307-312 | Hours, minutes and seconds recompose to the input; minutes and seconds are below 60; hours fit two digits below 100 hours. |
| EmployeeDashboard.FormatTime | src/pages/EmployeeDashboard.js:307-312 | The timer text parses back to the number of seconds. It is exactly eight characters below 100 hours and never shorter. |
| EmployeeDashboard.FormatFields | src/pages/EmployeeDashboard.js:311 | Any zero-padded `h:m:s` with minutes and seconds below 60 parses back to its number of seconds. |
| EmployeeDashboard.CompanyOptions | src/pages/EmployeeDashboard.js:481 | The company picker lists each company of some project exactly once. |
| EmployeeDashboard.ProjectOptions | src/pages/EmployeeDashboard.js:508-509 | The project picker lists exactly the projects of the chosen company. |
| EmployeeDashboard.OptionsCoverProjects | src/pages/EmployeeDashboard.js:481-509 | Every listed company has at least one project, and every project can be reached through its company. |
| EmployeeDashboard.FindProject | src/pages/EmployeeDashboard.js:177 | `find` by id gives nothing exactly when no project has that id. Otherwise it gives the first project with that id. |
| EmployeeDashboard.EffectiveRadius | src/pages/EmployeeDashboard.js:237 | A missing or zero `location_radius` means 50 metres; any other value is used as is. |
| EmployeeDashboard.ClockOutData | src/pages/EmployeeDashboard.js:228-247 | The confirmation data carries the captured location and the found project. It has a distance exactly when the project has coordinates, and then the verdict agrees with that distance and radius. |
| EmployeeDashboard.ClockOutAsWritten | src/pages/EmployeeDashboard.js:228-250 | As written, a project with coordinates never reaches the dialog, because the call to the undefined `calculateDistance` throws. Without coordinates it stores the location and project with no distance or verdict. |
| EmployeeDashboard.ClockOutAsWrittenFails | src/pages/EmployeeDashboard.js:232-236 | Without coordinates the code as written stores what `ClockOutData` stores. With coordinates it opens nothing, while `ClockOutData` gives a verdict. |
| EmployeeDashboard.ClockOutAsWrittenExample | src/pages/EmployeeDashboard.js:232-236 | A project at 52.09, 5.12 one metre away: as written no dialog, as intended "within the radius". |
| EmployeeDashboard.RadiusBoundary | src/pages/EmployeeDashboard.js:237-238 | The comparison is inclusive: a distance equal to the radius is within it; one metre more is outside. |
| EmployeeDashboard.ZeroRadiusIsDefault | src/pages/EmployeeDashboard.js:237 | A project with radius 0 is judged against 50 metres, like one without a radius. |
| EmployeeDashboard.VerdictMonotone | src/pages/EmployeeDashboard.js:238 | If some distance is within the radius, every smaller distance is too. |
| EmployeeDashboard.ClockInMessage | src/pages/EmployeeDashboard.js:207 | The message shown for a failed clock-in is never empty: the server's detail or the fallback text. |
| EmployeeDashboard.DistanceAlert | src/pages/EmployeeDashboard.js:211 | The blocking alert quotes the server's message in full. |
| EmployeeDashboard.ClockInFailure | src/pages/EmployeeDashboard.js:206-214 | A failure becomes a blocking alert exactly when its message contains `Te ver van project locatie` or `50m`; otherwise it becomes an error toast with that message. |
| EmployeeDashboard.AlertQuotesMessage | src/pages/EmployeeDashboard.js:210-211 | Whenever the failure is an alert, its text contains the server's message. |
| EmployeeDashboard.FallbackIsToast | src/pages/EmployeeDashboard.js:207-213 | A failure without a detail gives the fallback toast, never the alert. |
| EmployeeDashboard.TotalHoursAppend | src/pages/EmployeeDashboard.js:314-318 | One more entry adds its hours to the total when it is clocked out, and nothing otherwise. |
| EmployeeDashboard.TotalHoursNonNegative | src/pages/EmployeeDashboard.js:314-318 | With non-negative hours per entry, the total is non-negative. |
| EmployeeDashboard.Dashboard.constructor | src/pages/EmployeeDashboard.js:38-67 | The screen starts with empty lists, no dialogs, no location, not clocked in and no project chosen. |
| EmployeeDashboard.Dashboard.LoadProjects | src/pages/EmployeeDashboard.js:115-122 | A reply replaces the project list. A failure keeps it and adds the error toast. |
| EmployeeDashboard.Dashboard.LoadStatus | src/pages/EmployeeDashboard.js:124-131 | A reply sets the clocked-in flag and the open entry. A failure leaves both. |
| EmployeeDashboard.Dashboard.LoadEntries | src/pages/EmployeeDashboard.js:133-140 | A reply replaces the entries. A failure keeps them and adds the error toast. |
| EmployeeDashboard.Dashboard.SelectCompany | src/pages/EmployeeDashboard.js:469-472 | Choosing a company clears the chosen project and changes nothing else of the form. |
| EmployeeDashboard.Dashboard.SelectProject | src/pages/EmployeeDashboard.js:497-499 | Choosing a project changes only the project of the form. |
| EmployeeDashboard.Dashboard.HandleClockIn | src/pages/EmployeeDashboard.js:170-184 | Without a project it only shows the error toast and opens nothing. With one, it opens the confirmation holding the project found by id, the time and the note. |
| EmployeeDashboard.Dashboard.CancelClockIn | src/pages/EmployeeDashboard.js:822-823 | Cancelling closes the dialog and drops its data. |
| EmployeeDashboard.Dashboard.ConfirmClockIn | src/pages/EmployeeDashboard.js:186-218 | The dialog closes first. Without a location nothing is sent and the fallback toast shows. With one, the clock-in request carries the form and exactly the location just captured. Success shows the success toast, resets the form and reloads status and entries. Failure keeps the form and shows the alert or toast chosen by `ClockInFailure`. |
| EmployeeDashboard.Dashboard.SubmitClockIn | src/pages/EmployeeDashboard.js:198-213 | Once a location is known, exactly one clock-in request is posted with the current form. Success adds the status and entries reloads, the success toast, an empty form and no confirmation data. Failure changes only the notices, by the message `ClockInFailure` picks. |
| EmployeeDashboard.Dashboard.HandleClockOut | src/pages/EmployeeDashboard.js:220-254 | Without an open entry nothing happens. Otherwise, with a location, the confirmation opens with `ClockOutData` for it. When no location is obtained, only the GPS error toast shows and nothing else changes. |
| EmployeeDashboard.Dashboard.CancelClockOut | src/pages/EmployeeDashboard.js:906-907 | Cancelling closes the clock-out dialog and drops its data. |
| EmployeeDashboard.Dashboard.ConfirmClockOut | src/pages/EmployeeDashboard.js:256-276 | Without confirmation data nothing happens. Otherwise the clock-out request carries the open entry and exactly the location stored in the confirmation. Success closes the dialog and reloads; failure keeps it and shows the server's detail or the fallback. |
| AdminDashboard.FormatDate | src/pages/AdminDashboard.js:49-56 | An empty date shows `-`, and only an empty one does. |
| AdminDashboard.FormatDateRoundTrip | src/pages/AdminDashboard.js:49-56 | For a valid date given as `YYYY-MM-DD`, the `dd-mm-yyyy` text shown parses back to the same date. |
| AdminDashboard.FilteredEntries | src/pages/AdminDashboard.js:686-695 | An entry is kept exactly when it passes every filter that is set: user, project, and start and end date compared as strings. |
| AdminDashboard.NoFilterKeepsAll | src/pages/AdminDashboard.js:686-695 | With no filter set, every entry is kept, in order. |
| AdminDashboard.AllMatchesNothing | src/pages/AdminDashboard.js:688 | The user filter compares ids literally. A filter value that no entry has, such as `all`, hides every entry. |
| AdminDashboard.DateFilterIsCalendarRange | src/pages/AdminDashboard.js:690-691 | For `YYYY-MM-DD` entry dates and bounds, the string comparison keeps exactly the entries between the two dates, bounds included. |
| AdminDashboard.TotalHoursOverKept | src/pages/AdminDashboard.js:697-699 | The total is the sum of the hours of the filtered entries, with missing hours counted as 0. |
| AdminDashboard.TotalHoursAppend | src/pages/AdminDashboard.js:697-699 | One more entry adds its hours exactly when the filter keeps it. |
| AdminDashboard.Search | src/pages/AdminDashboard.js:323-348 | An empty search keeps the list. Otherwise an element is kept exactly when one of its fields, lower-cased, contains the lower-cased query. |
| AdminDashboard.SearchIgnoresQueryCase | src/pages/AdminDashboard.js:325-326 | Searching for a query and for its lower-case form gives the same list. |
| AdminDashboard.SearchNarrows | src/pages/AdminDashboard.js:323-348 | Typing more characters keeps a subsequence of what was shown before. |
| AdminDashboard.FilteredProjects | src/pages/AdminDashboard.js:323-330 | An empty query shows the whole list, in order. Otherwise a project is shown exactly when its name, company or location contains the query, ignoring case. |
| AdminDashboard.FilteredUsers | src/pages/AdminDashboard.js:332-340 | An empty query shows the whole list, in order. Otherwise a user is shown exactly when their email, first name, last name or full name contains the query, ignoring case. |
| AdminDashboard.FilteredInvitations | src/pages/AdminDashboard.js:342-348 | An empty query shows the whole list, in order. Otherwise an invitation is shown exactly when its email or name contains the query, ignoring case. |
| AdminDashboard.InvitationIds | src/pages/AdminDashboard.js:653 | The ids of the shown invitations, in order. |
| AdminDashboard.WithoutId | src/pages/AdminDashboard.js:315 | Removing by id keeps exactly the elements with another id. |
| AdminDashboard.WithoutAbsentId | src/pages/AdminDashboard.js:315 | Removing an id that is not in the list leaves it unchanged. |
| AdminDashboard.WithoutUniqueId | src/pages/AdminDashboard.js:508 | Removing an id held by one element removes just that element, in place. |
| AdminDashboard.ReplaceId | src/pages/AdminDashboard.js:423-425 | Replacing by id keeps the length and swaps in the new value exactly at the positions with that id. |
| AdminDashboard.ReplaceIdTouchesOnlyThatId | src/pages/AdminDashboard.js:489 | An absent id changes nothing. A unique id changes only its own position. |
| AdminDashboard.WithoutIds | src/pages/AdminDashboard.js:629 | The bulk delete keeps exactly the invitations whose id was not deleted. |
| AdminDashboard.Renamed | src/pages/AdminDashboard.js:586-590 | Renaming changes only the name of the invitations with that id; ids and emails stay. |
| AdminDashboard.ToggleFlips | src/pages/AdminDashboard.js:640-646 | Toggling an id flips whether it is selected and leaves every other id as it was. |
| AdminDashboard.ToggleTwice | src/pages/AdminDashboard.js:640-646 | Toggling twice restores the selection, and restores the very list when the id was not selected. |
| AdminDashboard.ToggleNoDuplicates | src/pages/AdminDashboard.js:640-646 | Toggling never introduces a duplicate. |
| AdminDashboard.SelectAllFlipsCheckbox | src/pages/AdminDashboard.js:648-655 | After select-all, the header checkbox is ticked exactly when some invitations are shown and it was not ticked before. |
| AdminDashboard.SelectAll | src/pages/AdminDashboard.js:648-655 | Equal lengths give the empty selection. Otherwise the selection is the id of each shown invitation, position by position. |
| AdminDashboard.SelectAllComparesLengths | src/pages/AdminDashboard.js:649-654 | The check compares only lengths. A selection as long as the shown list clears, even when it holds other ids. Any other length selects the shown ids, in order. The result is empty exactly when the lengths agree or nothing is shown. |
| AdminDashboard.DeleteRequest | src/pages/AdminDashboard.js:616-625 | One item uses the single delete for that id. Any other count, none included, uses the bulk delete with all of them. |
| AdminDashboard.Dashboard.constructor | src/pages/AdminDashboard.js:59-127 | The screen starts with empty lists, closed dialogs, empty forms, no filters and no selection. |
| AdminDashboard.Dashboard.HandleDeleteProject | src/pages/AdminDashboard.js:306-321 | Nothing happens unless confirmed. A confirmed delete removes exactly that project on success and keeps the list on failure. |
| AdminDashboard.Dashboard.HandleInvite | src/pages/AdminDashboard.js:350-370 | The created invitation is put in front and the form resets. A failure keeps list and form and shows the detail or fallback. |
| AdminDashboard.Dashboard.HandleCreateProject | src/pages/AdminDashboard.js:372-392 | The created project is put in front and the form resets. A failure keeps both. |
| AdminDashboard.Dashboard.HandleEditProject | src/pages/AdminDashboard.js:394-402 | Opens the edit dialog on the project, with radius 100 when it has none or 0. |
| AdminDashboard.Dashboard.HandleUpdateProject | src/pages/AdminDashboard.js:404-433 | Without a project being edited only the error shows. Otherwise the reply replaces that project by id and the dialog closes. A failure keeps everything. |
| AdminDashboard.Dashboard.HandleEditUser | src/pages/AdminDashboard.js:435-438 | Opens the edit dialog on the user. |
| AdminDashboard.Dashboard.HandleUpdateUser | src/pages/AdminDashboard.js:474-497 | The reply replaces that user by id and the dialog closes. A failure keeps everything. |
| AdminDashboard.Dashboard.HandleDeleteUser | src/pages/AdminDashboard.js:499-515 | A confirmed delete removes exactly that user on success. |
| AdminDashboard.Dashboard.HandleEditInvitation | src/pages/AdminDashboard.js:570-576 | Opens the edit on the invitation, with an empty name when it has none. |
| AdminDashboard.Dashboard.HandleUpdateInvitation | src/pages/AdminDashboard.js:578-597 | Success renames exactly the edited invitation and closes the edit. Failure keeps the list. |
| AdminDashboard.Dashboard.HandleDeleteInvite | src/pages/AdminDashboard.js:599-602 | Asks to confirm the deletion of exactly that invitation. |
| AdminDashboard.Dashboard.HandleBulkDelete | src/pages/AdminDashboard.js:604-611 | An empty selection only shows the error. Otherwise the selection is put up for confirmation. |
| AdminDashboard.Dashboard.ConfirmDelete | src/pages/AdminDashboard.js:613-638 | Sends the single or bulk request for the items. On success those invitations leave the list and the selection is cleared. |
| AdminDashboard.Dashboard.ToggleInvitationSelection | src/pages/AdminDashboard.js:640-646 | The selection becomes its toggle and keeps having no duplicates. |
| AdminDashboard.Dashboard.ToggleSelectAll | src/pages/AdminDashboard.js:648-655 | The selection becomes all or none of the invitations the search shows. |
| AdminDashboard.Dashboard.HandleChangePassword | src/pages/AdminDashboard.js:657-684 | A mismatch or short password sends nothing and shows its error. Otherwise the change is sent; success closes the dialog and clears the form. |
| MandagenstPage.GenerateParams | src/pages/MandagenstPage.js:60-64 | Start, end and project always; `user_id` exactly when a user is chosen. |
| MandagenstPage.ExportParams | src/pages/MandagenstPage.js:95-99 | The same, except that `user_id` is left out for `all` as well. |
| MandagenstPage.ParamsDifferOnlyForAll | src/pages/MandagenstPage.js:216-220 | The report and export parameters differ exactly when `all` employees are chosen. |
| MandagenstPage.StatusMessage | src/pages/MandagenstPage.js:111-126 | For a non-200 reply: the JSON `detail`, else its `message`, else the fixed export text; without JSON, the status line. Never empty. |
| MandagenstPage.ErrorMessage | src/pages/MandagenstPage.js:172-188 | The first rung that applies picks the message. A usable own message wins. Next comes a truthy HTTP status, as "Server fout (n)". Then `AbortError` gives the cancellation text and `ERR_NETWORK` the network text. Otherwise the generic "Kon … niet downloaden" shows. The result is never empty. |
| MandagenstPage.RaisedMessageShown | src/pages/MandagenstPage.js:172-177 | An error raised by the handler itself shows its message, or the download fallback when the message is not usable. |
| MandagenstPage.NetworkErrorReported | src/pages/MandagenstPage.js:175-188 | An axios network error shows the offline message. |
| MandagenstPage.BlobAccepted | src/pages/MandagenstPage.js:129-134 | A blob of at least 1000 bytes, or one with the right content type, is accepted. A small blob without a content type is refused. |
| MandagenstPage.ExportOutcome | src/pages/MandagenstPage.js:101-167 | The file is saved exactly when the reply arrived with status 200 and the blob passes the check. It is then saved under the `ExportFilename` of the reply's header. Otherwise the message is `ErrorMessage` of what was caught. A thrown request error is used as it is. A status other than 200 raises `StatusMessage`. A rejected blob raises its text, or the invalid-file text when it is empty. Every refusal has a non-empty message. |
| MandagenstPage.ServerDetailShown | src/pages/MandagenstPage.js:111-117 | A JSON error with a detail shows that detail. |
| MandagenstPage.Scan | src/pages/MandagenstPage.js:146 | The regex's character-class run stops at the first stop character, or at the end. |
| MandagenstPage.StripQuotes | src/pages/MandagenstPage.js:148 | The stored name holds no quote characters. |
| MandagenstPage.ExportFilename | src/pages/MandagenstPage.js:143-150 | Without a `Content-Disposition` header the default name is used. Any other name is quote-free. |
| MandagenstPage.SkipToFilename | src/pages/MandagenstPage.js:146 | The leftmost-match search skips positions where no match starts. |
| MandagenstPage.QuotedFilenameRoundTrip | src/pages/MandagenstPage.js:143-150 | `attachment; filename="N"` yields N for any quote-free N without line terminators, whatever parameters follow the closing quote. |
| MandagenstPage.PlainFilenameRoundTrip | src/pages/MandagenstPage.js:259-266 | `attachment; filename=N` yields N for any non-empty N containing no quote, `;` or newline, when the header ends there or goes on with `;` or a newline. |
| MandagenstPage.WeekRange | src/pages/MandagenstPage.js:317-328 | The range runs from a Monday to the Sunday six days later, and contains the day `7·(w-1)` days after 1 January. |
| MandagenstPage.WeeksFollowEachOther | src/pages/MandagenstPage.js:317-328 | Week w+1 starts the day after week w ends. |
| MandagenstPage.WeekDates | src/pages/MandagenstPage.js:330-335 | The two filter dates are the `YYYY-MM-DD` of two valid dates: a Monday and the Sunday six days later. That week holds the day 7(w-1) days after 1 January. |
| MandagenstPage.WeekDatesAsWritten | src/pages/MandagenstPage.js:333-334 | The dates as the code prints them. At UTC or west of it, they are `WeekDates`. East of UTC, each is the date of the day before. |
| MandagenstPage.WeekShiftsEastOfUtc | src/pages/MandagenstPage.js:333-334 | East of UTC, both printed dates are one day early: a Sunday to a Saturday. |
| MandagenstPage.Page.constructor | src/pages/MandagenstPage.js:14-26 | The page starts with empty filters, no report and nothing sent. |
| MandagenstPage.Page.HandleWeekNumberChange | src/pages/MandagenstPage.js:311-336 | Clearing the week clears both dates. A week number sets the dates to that Monday-to-Sunday week of the current year (as a browser at UTC stores them; see Findings). |
| MandagenstPage.Page.SetStartDate | src/pages/MandagenstPage.js:396 | Typing a start date clears the week number. |
| MandagenstPage.Page.SetEndDate | src/pages/MandagenstPage.js:408 | Typing an end date clears the week number. |
| MandagenstPage.Page.SetProject | src/pages/MandagenstPage.js:420 | Changes only the project filter. |
| MandagenstPage.Page.SetUser | src/pages/MandagenstPage.js:437 | Changes only the employee filter. |
| MandagenstPage.Page.HandleGenerate | src/pages/MandagenstPage.js:49-75 | Without period and project nothing is sent and the error shows. Otherwise the report request carries `GenerateParams`, and the reply sets the report. |
| MandagenstPage.Page.HandleExport | src/pages/MandagenstPage.js:77-196 | Without a report nothing is sent. Otherwise the export request carries `ExportParams`. The file is saved under `ExportFilename` exactly when `ExportOutcome` says so; otherwise the refusal's message shows. |
| App.WithAuth | src/App.js:18-27 | A truthy token sets `Authorization: Bearer <token>`. Without one the headers pass unchanged. No other header is touched. |
| App.WithAuthIdempotent | src/App.js:18-27 | Signing a request twice is signing it once. |
| App.BearerCarriesToken | src/App.js:22 | The header is `Bearer ` followed by exactly the token. |
| App.Route | src/App.js:60-128 | Loading shows the loading screen. Public pages redirect home exactly when signed in. Private pages redirect to login exactly when signed out. Only admins get the admin dashboard and the Mandagenstaat page; others get the employee dashboard or a redirect home. |
| App.PrivatePagesNeedUser | src/App.js:105-128 | No route shows a private page without a user, or an admin page to a non-admin. |
| App.RedirectsSettle | src/App.js:73-128 | Following a redirect always lands on a page, never on another redirect. |
| App.Session.constructor | src/App.js:30-31 | The session starts loading, with the token the browser kept and no user. |
| App.Session.CheckAuth | src/App.js:37-48 | With a truthy token, `/auth/me` is asked with the Bearer header. Its answer becomes the user; a rejection forgets the token. Loading ends in every case. |
| App.Session.HandleLogin | src/App.js:50-53 | The token and user are kept; every public page now redirects home and later calls carry the token. |
| App.Session.HandleLogout | src/App.js:55-58 | Token and user are forgotten; later calls go unsigned and the private pages redirect to login. |
| GpsDetailModal.Shown | src/components/GPSDetailModal.js:22-24 | With the toggle off every entry shows. With it on, exactly the mismatching entries show. |
| GpsDetailModal.ShownKeepsMismatches | src/components/GPSDetailModal.js:22-24 | The toggle keeps each mismatching entry as often as it occurs and drops every other one. |
| GpsDetailModal.Coordinate | src/components/GPSDetailModal.js:27-28 | The project's value if truthy, else the first entry's, else the default. |
| GpsDetailModal.Centre | src/components/GPSDetailModal.js:27-28 | Each axis falls back on its own, from project to first entry to Utrecht. The centre is never 0. |
| GpsDetailModal.CentreMixesSources | src/components/GPSDetailModal.js:27-28 | A project with only a latitude is centred on that latitude and on the first entry's longitude. |
| GpsDetailModal.MarkerOf | src/components/GPSDetailModal.js:88-103 | An entry gets a marker exactly when both coordinates are truthy. The marker is green exactly when the project matched. |
| GpsDetailModal.Markers | src/components/GPSDetailModal.js:88-103 | Every marker comes from an entry, and every located entry has its marker. |
| GpsDetailModal.MarkerCount | src/components/GPSDetailModal.js:88-103 | There are as many markers as located entries. |
| GpsDetailModal.BadgeOf | src/components/GPSDetailModal.js:161-174 | A dash exactly for a null match, JA exactly for true, NEE otherwise. |
| GpsDetailModal.RowOf | src/components/GPSDetailModal.js:136-176 | A row is highlighted exactly when its badge is not JA. It shows coordinates exactly when the entry is located. |
| GpsDetailModal.NeeRowMayBeHidden | src/components/GPSDetailModal.js:22-24 | An entry with an unexpected match value reads NEE yet is hidden by the mismatch toggle. |
| GpsDetailModal.ShownMismatchesReadNee | src/components/GPSDetailModal.js:22-24 | Every entry the toggle keeps reads NEE and is highlighted. |
| GpsDetailModal.Render | src/components/GPSDetailModal.js:20-71 | Nothing renders without entries. Otherwise it renders the count, the shown rows and a project marker exactly when the project is located. |
| RegisterPage.ScreenOf | src/pages/RegisterPage.js:75-97 | The form shows exactly when verification is done and the invitation is valid. The refusal shows when it is done and invalid. |
| RegisterPage.Page.constructor | src/pages/RegisterPage.js:13-22 | The page starts verifying, with an empty form. |
| RegisterPage.Page.VerifyToken | src/pages/RegisterPage.js:28-39 | The check ends in every case. The invitation is valid exactly when the backend answers, and the answer's email fills the form. |
| RegisterPage.Page.Edit | src/pages/RegisterPage.js:156-208 | The inputs set the form fields. |
| RegisterPage.Page.HandleSubmit | src/pages/RegisterPage.js:41-73 | A password problem sends nothing and shows its error. Otherwise the registration is sent, and success signs the new user in with the returned token. |
| ResetPasswordPage.ScreenOf | src/pages/ResetPasswordPage.js:55-69 | The confirmation replaces the form exactly after success. |
| ResetPasswordPage.Page.constructor | src/pages/ResetPasswordPage.js:13-18 | The page starts with an empty form, not loading and not done. |
| ResetPasswordPage.Page.Edit | src/pages/ResetPasswordPage.js:93-108 | The inputs set the two password fields. |
| ResetPasswordPage.Page.HandleSubmit | src/pages/ResetPasswordPage.js:20-53 | A password problem sends nothing. Otherwise the reset is sent with the link's token. The page succeeds exactly when it had, or the reset went through; failure shows the detail or fallback. |

## Left out

- The backend and the network: every request is recorded, and every reply is a parameter (`Ok` or `Failed` with an optional detail). Loading the lists on mount, `fetchAllData`, `fetchOverviewData` and the Mandagenst `fetchData` are not modelled beyond that.
- `navigator.geolocation` (EmployeeDashboard.js:142-168) becomes a `Fix` argument: located, unsupported or a platform error. Because the promise always resolves with an object, the toast at EmployeeDashboard.js:192 cannot be reached and is not modelled.
- `calculateDistance` (EmployeeDashboard.js:233) is neither imported nor defined in the file, and the location fields it reads (`lat`, `lon`) are not the ones stored (`latitude`, `longitude`). The model takes the distance in whole metres as an input.
- EmployeeDashboard.ClockOutData: models the distance check as intended, with the distance as an input; the `ReferenceError` of the code as written is the second Findings row.
- Timers are not modelled: the GPS refresh interval, the elapsed-time ticker, the redirect two seconds after a reset (ResetPasswordPage.js:43-45), the download clean-up and the "copied" flash of the invite link.
- Dates from the server are taken to be `YYYY-MM-DD` already. `toISOString`, `toLocaleString` and time zones are not modelled, except in the week-number finding below, where a fixed UTC offset stands for the browser's zone. Daylight-saving changes are not modelled. The code adds whole multiples of 24 hours to the local midnight of 1 January. Where 1 January falls in summer time (southern hemisphere), a winter week therefore starts at 23:00 the day before. When that day is a Monday, the stored week is a whole week early: week 20 of 2024 in Sydney gives 2024-05-06 to 2024-05-12. The Findings row and `MandagenstPage.WeekShiftsEastOfUtc` hold for zones with a fixed offset through the year up to that point, such as northern-hemisphere zones in winter.
- Hours are `real` numbers. Floating-point rounding, `toFixed`, `Math.round` and `NaN` are not modelled.
- AdminDashboard.Search: lower-cases ASCII letters only; `toLowerCase` on other scripts is not modelled.
- The DOM, JSX layout, `Blob`, `URL.createObjectURL`, the clipboard, Leaflet maps and dialogs closed by `onOpenChange` are not modelled, and neither are disabled buttons that stop a handler from running.
- LoginPage, ForgotPasswordPage and LocationPreview are not part of this model.
- The employee screen's own `handleChangePassword` (EmployeeDashboard.js:278-305) runs the same checks and request as the admin screen's one, which is modelled. The employee `handleExportPDF` (EmployeeDashboard.js:320) is not modelled.
- On the admin screen these are not modelled: `handleExport`, `handleResendInvite`, `copyInviteLink`, `confirmResetPassword`/`handleResetUserPassword`, `setQuickDateFilter`, `handleEmployeeClick`, `handleDayClick`, `handleWeekClick`, `handleExportAdminPDF` and the latitude/longitude `parseFloat` of the project form.
- `URLSearchParams` percent-encoding is not modelled: parameters are key/value pairs.
- Route matching by path string is replaced by a `Path` datatype; react-router's matching is not modelled.
- MandagenstPage.Page.HandleWeekNumberChange: requires the week to be empty, `none` or all digits, as the week picker offers; `parseInt` on other text is not modelled.
- JSON error bodies whose `detail` is not a string (such as a validation list) are not modelled.
- The `AbortController` of the exports is not modelled; it only aborts after the request has finished.
- EmployeeDashboard.FormatTime: takes a natural number of seconds; negative input is not modelled.

## Findings

| source | as written | input that shows it | evidently intended | confidence | as-written member | corrected member |
|---|---|---|---|---|---|---|
| src/pages/MandagenstPage.js:333-334 | The week's Monday and Sunday are local midnights, printed with `toISOString().split('T')[0]`, which gives the UTC date | Week 1 of 2025 in Europe/Amsterdam (UTC+1): the filter gets 2024-12-29 to 2025-01-04, a Sunday to a Saturday | The local dates of that Monday and Sunday: 2024-12-30 to 2025-01-05 | not executed | MandagenstPage.WeekShiftsEastOfUtc | MandagenstPage.WeekDates |
| src/pages/EmployeeDashboard.js:232-236 | `handleClockOut` calls `calculateDistance`, which is neither defined nor imported, with `loc.lat` and `loc.lon`, while the location object holds `latitude` and `longitude` | Clocking out of a project with `location_lat` 52.09 and `location_lon` 5.12: the call throws, the catch shows "Kon GPS locatie niet ophalen" and no dialog opens | The distance from the captured location, the radius verdict, and the confirmation dialog | not executed | EmployeeDashboard.ClockOutAsWritten | EmployeeDashboard.ClockOutData |
