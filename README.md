# IoT access-control admin console — verified model

The system is a browser admin console for a token-based door/device access
network: administrators sign in with their e-mail and see a dashboard of
token usage. From there they browse and filter access logs, manage users, the token balances of
users, devices (ESP32 controllers), houses and master keys. There is also a small mobile
controller for adjusting residents' balances per house. Everything is stored
behind a remote API; the console keeps the session in `localStorage`.

This project models the client-side logic of that console in Dafny:

| module (file) | models |
|---|---|
| `JsValues` (`jsvalues.dfy`) | a loosely typed cell (`null`, boolean, number, string), JavaScript truthiness and `String(x)`; `Option` |
| `Seqs`, `Strings` | filter, find-first, stable sort, map, subsequence; join/split, trim, ASCII+Latin-1 `toLowerCase`, `padStart`, code-point order |
| `Config` | the role, status, storage-key and event-type constants of `webapp/js/config.js` |
| `Auth` (`auth.dfy`) | `webapp/js/auth.js`: the stored session, login outcome, logout, and the role–action permission table behind `can` |
| `Shell` (`shell.dfy`) | `webapp/js/app.js`: the navigation gate, page loaders, nav visibility, login/logout screens |
| `Utils` (`utils.dfy`) | `webapp/js/utils.js`: CSV export, e-mail check, online test, relative time, event badges/names |
| `MultiSelect`, `Logs`, `Dashboard` | the multi-select filter widget and the log list / token-usage chart of `views/logs.js` and `views/dashboard.js` |
| `Devices`, `Users`, `Houses`, `Masterkeys` | the device, user/token, house and master-key views |
| `Mobile` (`mobile.dfy`) | `webapp/mobile/js/app.js`: login, house scoping of an ADMIN, residents, the token editor and its save loop |

Objects that the source mutates (`Auth`, `App`, the view objects, the mobile
`App`) are Dafny classes whose methods change their fields; the value logic
they use is defined once as functions, and the methods are proved against
those functions. Network replies, confirmations from dialogs, the clock and
date parsing are parameters.

Where the project's documented behaviour and the code differ, the model
follows the code:

- `isTokenTypeInactive` looks at the first token type with the code (`find`), not at any of them; `Devices.InactiveIffSome` shows the two agree when codes are unique and `Devices.FirstEntryDecides` shows where they differ.
- The mobile login falls back to the typed e-mail, not to the stored e-mail, when the administrator has no name.
- On mobile, a non-MASTER user whose admin-houses reply carries no house list gets no house restriction at all.
- `updateMasterkey` sends a HOUSE or DEVICE key with an empty target, which `createMasterkey` refuses.

The one exception is the defect listed under "## Findings": `formatTime24` is modelled as written by `Devices.FormatTime24AsWritten`, but the device loader (`Devices.NormalizeDevice`, `Devices.NormalizeAll`, `Devices.DevicesView.LoadDevices`, `Devices.StoredWindowsAreClocks`) is built on the corrected `Devices.FormatTime24`. For a stored window such as "TBD" the model therefore stores "08:00" where the code stores "NaN:NaN".

## Model

| member | source | states |
|---|---|---|
| Auth.StoredSession | webapp/js/auth.js:12-22 | a session is restored iff the e-mail and role entries are non-empty, with those values; a non-empty stored name is kept, otherwise the name is the e-mail |
| Auth.LoginOutcome | webapp/js/auth.js:29-62 | login succeeds iff the reply is a success with an ACTIVO admin; the user carries the admin's e-mail and role, name or e-mail; network error and inactive account are told apart |
| Auth.PermittedRoles | webapp/js/auth.js:141-186 | the permission table only grants MASTER/ADMIN/VIEWER, MASTER is in every non-empty entry, VIEWER only where ADMIN is, unknown actions grant nobody |
| Auth.AuthStore.constructor | webapp/js/auth.js:6-7 | the store starts with no current user |
| Auth.AuthStore.Init | webapp/js/auth.js:12-22 | init reports a stored session iff one is readable and installs exactly it; storage is untouched |
| Auth.AuthStore.Login | webapp/js/auth.js:29-62 | the result is the login outcome; on success the session is written and becomes current, on failure nothing changes |
| Auth.AuthStore.Logout | webapp/js/auth.js:67-72 | the three session keys are removed and no user is logged in |
| Auth.AuthStore.HasRole | webapp/js/auth.js:103-105 | `hasRole(role)` holds exactly when the current role is `role` |
| Auth.AuthStore.GetRole | webapp/js/auth.js:94-96 | a role is returned iff someone is logged in, and it is that user's role |
| Auth.LoginThenInit | webapp/js/auth.js:43-45 | a session written at login is read back unchanged by init |
| Auth.LoginOutcomePersists | webapp/js/auth.js:43-52 | the user installed by a successful login survives a reload |
| Auth.LogoutThenInit | webapp/js/auth.js:67-72 | after logout no session is restored |
| Auth.CanNeedsSession | webapp/js/auth.js:137-138 | without a user every permission is refused |
| Auth.CanFailsClosed | webapp/js/auth.js:188 | an action missing from the table is refused to every role |
| Auth.CanIffPermitted | webapp/js/auth.js:136-189 | `can` holds iff a user is logged in and their role is listed for the action |
| Auth.RolesNested | webapp/js/auth.js:141-186 | permissions are nested: ADMIN's are MASTER's, VIEWER's are ADMIN's |
| Auth.TableExamples | webapp/js/auth.js:141-186 | sample rows of the table: device creation MASTER only, user editing MASTER/ADMIN, dashboard everyone, houses MASTER/ADMIN |
| Auth.MasterCanAll | webapp/js/auth.js:141-186 | a MASTER may perform every listed action |
| Auth.MasterIsAdmin | webapp/js/auth.js:119-129 | `isAdmin` holds exactly for MASTER and ADMIN, so every MASTER is an admin |
| Shell.PagePermission | webapp/js/app.js:218-225 | exactly six pages are gated, each by its `<page>.view` permission |
| Shell.LoaderFor | webapp/js/app.js:264-285 | a page has a data loader iff it is one of the gated pages |
| Shell.LoadsFor | webapp/js/app.js:264-285 | at most one loader runs per page, exactly one for a page with a loader |
| Shell.LoadersDistinct | webapp/js/app.js:264-285 | different pages never share a loader |
| Shell.App.constructor | webapp/js/app.js:5-6 | the shell starts on the dashboard, on the login screen, with nothing loaded |
| Shell.App.LoadPageData | webapp/js/app.js:264-285 | loading a page appends exactly that page's loader |
| Shell.App.NavigateTo | webapp/js/app.js:216-258 | a denied page changes neither the page nor the loads; an allowed one becomes current and loads its data |
| Shell.App.Refresh | webapp/js/app.js:290-292 | refresh reloads the current page and stays on it |
| Shell.App.UpdateNavVisibility | webapp/js/app.js:168-189 | the roles and tokens links are hidden iff their view permission is missing |
| Shell.App.ShowLogin | webapp/js/app.js:130-138 | the login screen is shown |
| Shell.App.ShowApp | webapp/js/app.js:143-163 | the app screen is shown, nav visibility follows the permissions, and the dashboard opens iff it is permitted |
| Shell.App.Init | webapp/js/app.js:11-20 | the app screen appears iff a stored session exists; storage is untouched |
| Shell.App.HandleLogin | webapp/js/app.js:73-108 | the API is asked iff the trimmed e-mail is valid; its outcome decides between the app screen with that user and no change at all |
| Shell.App.HandleLogout | webapp/js/app.js:113-125 | a confirmed logout clears the session and shows the login screen; a cancelled one changes nothing |
| Shell.UngatedPages | webapp/js/app.js:218-231 | houses and master keys are never refused by the navigation gate |
| Shell.ViewerNavigation | webapp/js/app.js:218-231 | a VIEWER reaches dashboard, users, devices and logs but not tokens or roles |
| Shell.NoSessionNoPages | webapp/js/app.js:227-231 | without a session exactly the gated pages are refused |
| Utils.CsvCell | webapp/js/utils.js:314-319 | a falsy value is empty, a string with a comma or quote is quoted with its quotes doubled, anything else is its text |
| Utils.CollapseDoubled | webapp/js/utils.js:317 | doubling quotes is undone by collapsing them |
| Utils.CsvCellRoundTrip | webapp/js/utils.js:314-319 | every string cell is recovered from its CSV form |
| Utils.CsvLines | webapp/js/utils.js:309-321 | one header line from the first row's keys, then one line per row in the header order |
| Utils.ExportCsv | webapp/js/utils.js:303-322 | nothing is exported for no data; otherwise the lines joined by line breaks |
| Utils.CsvLineStructure | webapp/js/utils.js:309-322 | without line breaks in keys or values, splitting the export at line breaks gives back exactly the header and row lines |
| Utils.LineBreakSplitsRecord | webapp/js/utils.js:314-319 | a value containing a line break is not quoted and splits its record over two lines |
| Utils.EmailCheckMatchesShape | webapp/js/utils.js:74-77 | the e-mail check accepts exactly `local@domain.tld` with non-empty parts free of spaces and `@` |
| Utils.ShapeIsValidEmail | webapp/js/utils.js:74-77 | any text of that shape is accepted |
| Utils.IsDeviceOnline | webapp/js/utils.js:250-260 | a device never seen is offline; otherwise online exactly when at most five minutes (300000 ms) have elapsed since it was seen |
| Utils.OnlineMonotone | webapp/js/utils.js:250-260 | a device online later was online earlier; seen within five minutes means online, longer ago offline, and a last-seen time in the future counts as online |
| Utils.RelativeBucket | webapp/js/utils.js:37-55 | a missing date is invalid; under a minute, minutes, hours, days and older than a week partition the elapsed time, with floored counts |
| Utils.FormatRelativeTime | webapp/js/utils.js:37-55 | the text for each bucket: "-", "hace un momento", "hace N min", "hace Nh", "hace Nd", else the formatted date |
| Utils.GetEventBadgeClass | webapp/js/utils.js:267-278 | one of four badges; success, danger and warning exactly for granted, denied and error events |
| Utils.GetEventTypeName | webapp/js/utils.js:285-296 | a known event type gets its label, any other is shown as it is |
| MultiSelect.Rendered | webapp/js/views/logs.js:84-87 | an option is drawn checked iff nothing is selected or it is selected |
| MultiSelect.Checked | webapp/js/views/logs.js:110-122 | the checked values are exactly the options whose box is ticked, all of them iff every box is ticked |
| MultiSelect.Normalise | webapp/js/views/logs.js:110-122 | ticking every option stores the empty selection ("all"); otherwise the checked values |
| MultiSelect.ButtonLabel | webapp/js/views/logs.js:89-98 | the default label for none or all, the option's label for one, "N sel." for several |
| MultiSelect.RenderedAfterChange | webapp/js/views/logs.js:84-122 | with distinct options and at least one tick, redrawing the stored selection shows the same ticks |
| MultiSelect.ChangeIsIdempotent | webapp/js/views/logs.js:84-122 | re-applying the change handler to the redrawn widget stores the same selection |
| Logs.Narrow | webapp/js/views/logs.js:179-196 | an inactive filter step keeps the list, an active one filters it |
| Logs.ApplyFiltersIsOneFilter | webapp/js/views/logs.js:169-199 | the four successive filters equal one filter by all four conditions |
| Logs.ApplyFiltersKeepsExactly | webapp/js/views/logs.js:169-199 | a log is shown iff it is loaded and passes every active selection (house "" for no house) |
| Logs.ApplyFiltersKeepsOrder | webapp/js/views/logs.js:169-199 | the shown logs keep the loaded order |
| Logs.NoSelectionKeepsAll | webapp/js/views/logs.js:179-196 | with no selections every loaded log is shown |
| Logs.LogsView.constructor | webapp/js/views/logs.js:6-14 | no logs and empty selections at start |
| Logs.LogsView.OnChange | webapp/js/views/logs.js:110-122 | the changed dimension stores the normalised selection; the other three are kept |
| Logs.LogsView.Apply | webapp/js/views/logs.js:169-199 | the shown list is the filtered loaded list |
| Logs.LogsView.LoadLogs | webapp/js/views/logs.js:153-161 | the reply's logs, or none on a failure or a missing list, and the shown list refiltered |
| Dashboard.BuildChartFilters | webapp/js/views/dashboard.js:176-188 | the dates always, and each selection as a comma list exactly when it is non-empty; no other parameter |
| Dashboard.SelectionParameterRoundTrip | webapp/js/views/dashboard.js:176-188 | a selection of comma-free values is recovered from its parameter |
| Dashboard.BuildDateRange | webapp/js/views/dashboard.js:346-360 | no days for a missing or reversed range, otherwise every day from start to end inclusive |
| Dashboard.Series | webapp/js/views/dashboard.js:228-234 | the series are the distinct token types of the data, in ascending order |
| Dashboard.BuildMatrix | webapp/js/views/dashboard.js:237-243 | the matrix built by the loop equals its specification |
| Dashboard.MatrixLastWins | webapp/js/views/dashboard.js:237-243 | a (day, type) cell exists iff the day is in range and some entry has it, and holds the count of the last such entry |
| Dashboard.MaxVal | webapp/js/views/dashboard.js:246-253 | at least 1, no cell above it, and equal to some cell when any is positive |
| Dashboard.DrawBars | webapp/js/views/dashboard.js:228-253 | the bars over the given days: the sorted distinct series, the last-wins count matrix and a maximum that no cell exceeds, equal to the largest cell when one is positive and 1 otherwise |
| Dashboard.NoSeriesNoData | webapp/js/views/dashboard.js:228-234 | there are no series exactly when there is no data, so the empty state is shown exactly for empty data |
| Dashboard.NiceSteps | webapp/js/views/dashboard.js:362-382 | multiples of the tick from 0 up to the first one reaching the maximum |
| Dashboard.DashboardView.constructor | webapp/js/views/dashboard.js:5-13 | no data, no house or token selection, granted events selected, no dates |
| Dashboard.DashboardView.OnChange | webapp/js/views/dashboard.js:140-148 | the changed dimension stores the normalised selection; the others are kept |
| Dashboard.DashboardView.LoadChartData | webapp/js/views/dashboard.js:174-199 | the dates always, each selection as its comma-joined list exactly when it is non-empty, no other parameter; a successful reply replaces the data, a failed one keeps it |
| Dashboard.DashboardView.RenderChart | webapp/js/views/dashboard.js:207-336 | nothing for an invalid range, the empty state without data, otherwise bars over every day with sorted series, last-wins cells and a maximum that is the largest cell when one is positive and 1 otherwise |
| Devices.NormalizeActiveIdempotent | webapp/js/views/devices.js:105 | normalising the active flag twice changes nothing |
| Devices.FormatTime24 | webapp/js/views/devices.js:123-151 | an empty value gets the fallback, an `H:MM`/`HH:MM` text is zero-padded, a readable date text with `T` gives its UTC hours and minutes, and any other text (an unreadable date included) gets the fallback |
| Devices.FormatTime24AsWritten | webapp/js/views/devices.js:123-151 | as the code runs: an empty value gets the fallback, and an unreadable date text with `T` gives "NaN:NaN" |
| Devices.ClockPadded | webapp/js/views/devices.js:128-129 | padding a clock gives a five-character clock and leaves a padded one alone |
| Devices.FormatTime24IsClock | webapp/js/views/devices.js:123-151 | with a clock fallback the normaliser always yields an `HH:MM` clock |
| Devices.FormatTime24Idempotent | webapp/js/views/devices.js:123-151 | a normalised window is unchanged by normalising again |
| Devices.InvalidDateText | webapp/js/views/devices.js:132-141 | the text "TBD" is shown as "NaN:NaN" as written and as the fallback when corrected |
| Devices.FormatTime24Agrees | webapp/js/views/devices.js:123-151 | the two normalisers differ only on unparsable texts containing "T" |
| Devices.NormalizeDevice | webapp/js/views/devices.js:102-109 | a device keeps its id, house, token type, location and last-seen time, its active flag is normalised and its windows normalised with defaults 08:00 and 23:00 |
| Devices.NormalizeAll | webapp/js/views/devices.js:102-109 | every device of the reply is normalised, in order |
| Devices.StoredWindowsAreClocks | webapp/js/views/devices.js:102-109 | every loaded device has clock windows |
| Devices.ScopeEmail | webapp/js/views/devices.js:100 | the list is scoped by e-mail exactly for an ADMIN who is not MASTER |
| Devices.NoFilterShowsAll | webapp/js/views/devices.js:176-193 | with no filter every device is listed |
| Devices.ShownKeepsOrder | webapp/js/views/devices.js:176-193 | the listed devices keep the loaded order |
| Devices.InactiveIffSome | webapp/js/views/devices.js:765-768 | with unique codes, a token type is inactive iff some entry with its code is INACTIVO |
| Devices.FirstEntryDecides | webapp/js/views/devices.js:765-768 | with a duplicate code the first entry decides |
| Devices.ClockMinutes | webapp/js/views/devices.js:299-301 | a clock's minute count is within what two-digit fields allow |
| Devices.JsRem | webapp/js/views/devices.js:304 | JavaScript remainder by a positive divisor: it differs from the dividend by a multiple of the divisor, is smaller than the divisor in size, and is never of the opposite sign to the dividend |
| Devices.OperatingMinutesCircular | webapp/js/views/devices.js:297-305 | for times of day the operating span is under a day and reaches the end time from the start time |
| Devices.OperatingMinutesUnique | webapp/js/views/devices.js:297-305 | it is the only such span |
| Devices.OperatingTimeSplits | webapp/js/views/devices.js:297-305 | the displayed hours and minutes are the span split into hours under 24 and minutes under 60 |
| Devices.OvernightWindow | webapp/js/views/devices.js:297-305 | 22:00 to 06:00 is an eight-hour window |
| Devices.DevicesView.constructor | webapp/js/views/devices.js:6-9 | no devices, token types or rows at start |
| Devices.DevicesView.LoadDevices | webapp/js/views/devices.js:97-116 | the scope follows the role; the reply's devices normalised, or none on failure; either way the rows are then the devices passing the current filters |
| Devices.DevicesView.RenderDevices | webapp/js/views/devices.js:166-193 | the rows are the devices passing every active filter |
| Devices.DevicesView.ToggleStatus | webapp/js/views/devices.js:705-728 | a request is sent iff confirmed for a listed device, and it flips the active flag of the first device with the id |
| Users.FiltersAreOne | webapp/js/views/users.js:125-149 | without sorting, the search and status filters are one filter by both |
| Users.UnsortedKeepsOrder | webapp/js/views/users.js:125-149 | without a sort order the list keeps the loaded order |
| Users.ListedExactly | webapp/js/views/users.js:125-149 | the list is a permutation of the matching users: a user is listed iff loaded, matching the search and the status |
| Users.SortOrders | webapp/js/views/users.js:142-147 | "asc" sorts by name ascending, "desc" descending |
| Users.GetHousesForUser | webapp/js/views/users.js:154-156 | the houses listed are exactly those assigned to the user |
| Users.ActiveNotionsDiffer | webapp/js/views/users.js:492-509 | this view counts a device active on the number 1 as well as the active forms of the devices view |
| Users.GetRelevantTokenTypes | webapp/js/views/users.js:492-509 | no token type twice and never the empty one |
| Users.RelevantDevicesExactly | webapp/js/views/users.js:492-509 | the relevant devices are one filter: active and, for a HOUSE user, in an assigned house |
| Users.RelevantTypesExactly | webapp/js/views/users.js:492-509 | a token type is offered iff non-empty and carried by some relevant device |
| Users.DialogTypes | webapp/js/views/users.js:514-519 | no dialog for an unknown user, else the types relevant for the first user with the id and their type (GLOBAL by default) |
| Users.AdjustedValue | webapp/js/views/users.js:602-610 | the adjusted value is never negative and is the sum when that is not negative |
| Users.ChangesSound | webapp/js/views/users.js:566-579 | every update is for an offered type whose input differs, with the non-zero difference as delta |
| Users.ChangesComplete | webapp/js/views/users.js:566-579 | every offered type whose input differs is updated |
| Users.ChangesInOrder | webapp/js/views/users.js:570-579 | updates follow the offered order |
| Users.UneditedSubmitsNothing | webapp/js/views/users.js:566-584 | an unedited dialog sends no update |
| Users.NextStatus | webapp/js/views/users.js:635 | the new status is ACTIVO or INACTIVO and differs from a known current status |
| Users.ToggleTwice | webapp/js/views/users.js:635 | toggling twice restores the status |
| Users.ToggleRequest | webapp/js/views/users.js:631-647 | a request is sent iff confirmed for a listed user, and it carries the flipped status of the first user with the id |
| Users.TokenDialog.constructor | webapp/js/views/users.js:514-540 | the dialog opens with one input per offered type holding the current balance |
| Users.TokenDialog.AdjustTokenValue | webapp/js/views/users.js:602-610 | the +/- buttons change only that input, never below zero |
| Users.TokenDialog.Enter | webapp/js/views/users.js:570-573 | typing changes only that input |
| Users.TokenDialog.Submit | webapp/js/views/users.js:566-596 | the updates are the changes, and they are sent iff there are some |
| Users.UsersView.constructor | webapp/js/views/users.js:6-14 | empty search, no status filter, no sort |
| Users.UsersView.Render | webapp/js/views/users.js:125-149 | the list shown is the filtered and sorted list |
| Users.UsersView.HandleSearch | webapp/js/views/users.js:120-123 | the term is stored lower-cased and the list refiltered |
| Users.UsersView.SetStatusFilter | webapp/js/views/users.js:39-46 | the status is stored and the list refiltered |
| Users.UsersView.SetSort | webapp/js/views/users.js:48-55 | the order is stored and the list resorted |
| Users.UsersView.Reset | webapp/js/views/users.js:57-69 | clearing all three shows every loaded user in loaded order |
| Houses.DeviceCount | webapp/js/views/houses.js:45-47 | the count is the number of devices of the house, positive iff the house has one |
| Houses.DeleteHouse | webapp/js/views/houses.js:300-326 | deletion is requested iff permitted, the house has no device and the user confirms |
| Houses.HouseWithDeviceKept | webapp/js/views/houses.js:306-310 | a house with a device has a positive count, and `DeleteHouse` sends no request for it |
| Houses.OnlyMasterDeletesHouses | webapp/js/views/houses.js:301 | only a MASTER may delete houses |
| Houses.AddressParts | webapp/js/views/houses.js:90 | street, number and extra in that order, each present exactly when its cell is truthy, as its text; no part is empty |
| Houses.Address | webapp/js/views/houses.js:90 | the address is empty exactly when no cell is truthy, and starts with the first part present |
| Houses.AddressSplits | webapp/js/views/houses.js:90 | space-free parts are recovered by splitting the address |
| Houses.AddressExample | webapp/js/views/houses.js:90 | a missing part is skipped |
| Houses.DriveFileId | webapp/js/views/houses.js:55-63 | an id is found iff the URL has a `/file/d/` or `?id=`/`&id=` pattern; it is the whole run of id characters after the leftmost `/file/d/`, or, when there is none, after the leftmost `?id=`/`&id=` |
| Houses.GetDriveImageUrl | webapp/js/views/houses.js:53-69 | empty stays empty, a non-Drive URL is kept, a Drive URL becomes the thumbnail of its id |
| Houses.ThumbnailKeepsId | webapp/js/views/houses.js:61-65 | a thumbnail URL yields back the id it was built from |
| Houses.GetDriveImageUrlIdempotent | webapp/js/views/houses.js:53-69 | converting a converted URL changes nothing |
| Masterkeys.LevelLabel | webapp/js/views/masterkeys.js:48-51 | the three levels get their labels, any other level is shown as it is |
| Masterkeys.LevelLabelsDistinct | webapp/js/views/masterkeys.js:48-51 | the three labels tell the levels apart |
| Masterkeys.LevelLabelAmbiguous | webapp/js/views/masterkeys.js:48-51 | an unknown level spelled like a label cannot be told from the known level |
| Masterkeys.CellText | webapp/js/views/masterkeys.js:58 | a street cell is non-empty iff its value is truthy |
| Masterkeys.TargetOrDash | webapp/js/views/masterkeys.js:63 | the dash for an empty target, else the target |
| Masterkeys.TargetLabel | webapp/js/views/masterkeys.js:53-64 | the dash for GLOBAL; the target or the dash for a HOUSE key naming no listed house and for any other level |
| Masterkeys.TargetLabelShape | webapp/js/views/masterkeys.js:53-64 | the target cell is never blank, the dash for GLOBAL, otherwise starting with the target or the dash for none |
| Masterkeys.HouseTargetNamed | webapp/js/views/masterkeys.js:55-59 | a known house target is shown with the first matching house's street |
| Masterkeys.DeviceTargetNamed | webapp/js/views/masterkeys.js:59-61 | a known device target is shown with the first matching device's location |
| Masterkeys.UnknownDeviceTarget | webapp/js/views/masterkeys.js:60-63 | an unknown device target is shown bare |
| Masterkeys.SelectTarget | webapp/js/views/masterkeys.js:186-188 | the house selection for HOUSE, the device selection for DEVICE, none otherwise |
| Masterkeys.CreateMasterkey | webapp/js/views/masterkeys.js:180-211 | refused iff a HOUSE or DEVICE key lacks a selection; any key sent is well targeted, with trimmed id, level and state |
| Masterkeys.UpdateMasterkey | webapp/js/views/masterkeys.js:285-310 | the same target choice, but a missing selection is sent and is not well targeted |
| Masterkeys.NextState | webapp/js/views/masterkeys.js:313 | the new state is ACTIVA or INACTIVA, INACTIVA exactly for an ACTIVA key |
| Masterkeys.NextStateTwice | webapp/js/views/masterkeys.js:313 | two toggles restore ACTIVA/INACTIVA; any other state ends INACTIVA |
| Masterkeys.DeleteMasterkey | webapp/js/views/masterkeys.js:328-348 | deletion is requested iff permitted and confirmed |
| Masterkeys.OnlyMasterDeletesMasterkeys | webapp/js/views/masterkeys.js:329 | only a MASTER may delete master keys |
| Masterkeys.MasterkeysView.constructor | webapp/js/views/masterkeys.js:6-9 | nothing loaded at start |
| Masterkeys.MasterkeysView.Load | webapp/js/views/masterkeys.js:11-46 | without the view permission, or when a request fails, nothing changes; otherwise the three lists are replaced, a missing one by none |
| Masterkeys.MasterkeysView.TargetCell | webapp/js/views/masterkeys.js:53-64 | a row's target cell is never blank |
| Mobile.StoredUser | webapp/mobile/js/app.js:19-29 | a session is restored iff e-mail and role are stored, with those values; the name is the stored name when there is one, otherwise the stored e-mail |
| Mobile.LoginThenInit | webapp/mobile/js/app.js:64-67 | what login stores is read back by init, name falling back to the typed e-mail |
| Mobile.LogoutThenInit | webapp/mobile/js/app.js:76-82 | after logout no session is restored |
| Mobile.QueriedEmailNormalised | webapp/mobile/js/app.js:50 | the queried e-mail has no edge whitespace and no upper-case ASCII letter |
| Mobile.Allowed | webapp/mobile/js/app.js:146-150 | MASTER is never restricted; a restriction is exactly the listed houses |
| Mobile.ScopedHousesExactly | webapp/mobile/js/app.js:152-156 | houses are sorted by id; a house is shown iff loaded and allowed; unrestricted means all of them |
| Mobile.ScopedLogsExactly | webapp/mobile/js/app.js:176-179 | a restricted log list keeps loaded order and exactly the logs of allowed houses |
| Mobile.ResidentsExactly | webapp/mobile/js/app.js:229-231 | residents are sorted by name, a permutation of the users living in the house |
| Mobile.SnapshotExactly | webapp/mobile/js/app.js:283-289 | the snapshot has one balance per active type, the stored balance or 0 |
| Mobile.DeltasSound | webapp/mobile/js/app.js:353-361 | every change is the non-zero difference of an active type's balances |
| Mobile.DeltasComplete | webapp/mobile/js/app.js:353-361 | every active type whose balance changed is sent |
| Mobile.DeltasInOrder | webapp/mobile/js/app.js:354 | changes follow the token-type order |
| Mobile.UneditedSavesNothing | webapp/mobile/js/app.js:353-366 | an unedited editor has no change to save |
| Mobile.Back | webapp/mobile/js/app.js:476-482 | back never lands on the editor, and lands on the list iff leaving the editor |
| Mobile.BackTwiceReachesHouses | webapp/mobile/js/app.js:476-482 | two backs always reach the house list |
| Mobile.EventBadge | webapp/mobile/js/app.js:501-513 | one of four badge classes; green exactly for granted and master-key accesses, amber exactly for an offline master-key access |
| Mobile.NamedIffBadged | webapp/mobile/js/app.js:501-528 | an event type has a name iff it has a coloured badge |
| Mobile.MobileApp.constructor | webapp/mobile/js/app.js:5-16 | no user, nothing loaded, users tab on the house list |
| Mobile.MobileApp.Init | webapp/mobile/js/app.js:19-29 | a stored session is installed and the app opens on the house list; otherwise nothing changes |
| Mobile.MobileApp.ShowApp | webapp/mobile/js/app.js:110-111 | the users tab opens on the house list |
| Mobile.MobileApp.HandleLogin | webapp/mobile/js/app.js:48-74 | the trimmed lower-cased e-mail is queried; an ACTIVO MASTER/ADMIN is stored and installed, anything else changes nothing |
| Mobile.MobileApp.Logout | webapp/mobile/js/app.js:76-82 | the three keys are removed and no user remains |
| Mobile.MobileApp.SwitchTab | webapp/mobile/js/app.js:115-127 | the tab changes, the users tab returns to houses, logs are fetched iff the logs tab opens with none |
| Mobile.MobileApp.LoadData | webapp/mobile/js/app.js:132-163 | admin houses are queried iff not MASTER; a failed request leaves allowed houses, houses, users and token types as they were; otherwise houses are scoped and sorted, users replaced, only ACTIVO token types kept |
| Mobile.MobileApp.LoadLogs | webapp/mobile/js/app.js:165-185 | devices are fetched iff none are held; a failed request keeps logs and devices; otherwise logs are scoped to the allowed houses |
| Mobile.MobileApp.RenderHouses | webapp/mobile/js/app.js:188-189 | the house list is shown |
| Mobile.MobileApp.SelectHouse | webapp/mobile/js/app.js:218-221 | the house is selected and its residents listed |
| Mobile.MobileApp.RenderUserList | webapp/mobile/js/app.js:224-264 | the list shows the residents of the selected house |
| Mobile.MobileApp.SelectUser | webapp/mobile/js/app.js:266-269 | the first user with the id is selected and the editor opens with both snapshots equal to their balances; an unknown id changes nothing |
| Mobile.MobileApp.RenderTokenEditor | webapp/mobile/js/app.js:276-322 | the editor opens with original and current balances equal to the snapshot |
| Mobile.MobileApp.AdjustToken | webapp/mobile/js/app.js:325-340 | a step is applied iff its card is shown and the balance stays non-negative; balances never turn negative |
| Mobile.MobileApp.CancelEditor | webapp/mobile/js/app.js:343-345 | back to the resident list |
| Mobile.MobileApp.SaveTokens | webapp/mobile/js/app.js:348-386 | the changes are the deltas; updates are sent in order up to the first refused one; the list returns iff there were changes and all were confirmed |
| Mobile.MobileApp.GoBack | webapp/mobile/js/app.js:476-482 | the sub-view moves back one step |

## Left out

- The API client, `fetch`, `Promise.all` concurrency and exceptions thrown by the network layer: replies are parameters; a request that throws is a `failed` flag where the source's `catch` keeps the stored state (`Masterkeys.MasterkeysView.Load`, `Mobile.MobileApp.LoadData`, `Mobile.MobileApp.LoadLogs`, `Dashboard.DashboardView.LoadChartData`), and a failed reply elsewhere.
- The DOM, HTML rendering, `escapeHtml`, toasts, modals and the canvas drawing of the chart: the model keeps the data each screen shows, not its markup.
- Floating point and the tick-size choice of `niceSteps`: `Dashboard.NiceSteps` takes the tick as a parameter, and counts are integers.
- Dates and times: `Date` parsing, `toISOString`, locale formatting (`fmtDate`, `toLocaleString`) and the current time are parameters; calendar days are integer day numbers.
- Devices.FormatTime24: the fraction-of-a-day branch for numeric cells is not modelled (numbers other than the clock and date texts fall back).
- Devices.NormalizeDevice: stores the corrected formatter's fallback for an unreadable date text with `T` ("08:00"/"23:00") where the code stores "NaN:NaN"; see "## Findings".
- Devices.OperatingTime: only clock texts are covered; the `NaN` a malformed stored window would show is not.
- `localeCompare` and the default `Array.prototype.sort()` (which compares UTF-16 code units, used by `Dashboard.Series`) are both modelled as code-point order; the two agree on characters of the Basic Multilingual Plane. `toLowerCase` covers ASCII and Latin-1 letters only.
- `parseInt` of typed text: the token dialog's inputs are integers.
- Lookups in plain JavaScript objects by inherited keys such as "toString" are not modelled: `can`, the level labels, `Utils.GetEventTypeName` (`map[type] || type`), `Mobile.EventName` and `Users.Balance` (`tokens[type] || 0`) treat such a key as absent.
- `generateUUID`, `debounce`, the token-type and role views, the remaining configuration, and the date filter of the mobile log list: not part of this model.
- `loadPageData` has no loader for houses or master keys, and the gate does not check them; this is stated by `Shell.UngatedPages` and `Shell.LoaderFor`.
- Utils.ExportCsv: values with line breaks are not quoted by the source; `Utils.LineBreakSplitsRecord` shows the consequence, and the file download itself is left out.
- Dashboard.DashboardView.RenderChart: entries whose token type is missing are not modelled (token types are strings).
- Device toggles from the detail page and the reload after a toggle are left out; only the request is modelled.
- Mobile.MobileApp.SaveTokens: the confirmed balances written back into the shared user object, which are visible through the user list by aliasing, are not modelled; residents are values.
- Mobile.MobileApp.AdjustToken: whether the balance element is on screen is a parameter.
- The contents of the mobile house cards (address, resident count, image) are not modelled.

## Findings

| source | as written | input that shows it | evidently intended | confidence | as-written member | corrected member |
|---|---|---|---|---|---|---|
| webapp/js/views/devices.js:132-141 | a window text containing "T" that is not a valid date becomes "NaN:NaN", since `new Date` does not throw, so the fallback is never reached | a stored window "TBD" (shown as "NaN:NaN" instead of "08:00") | fall through to the default window | not executed | Devices.FormatTime24AsWritten (shown by Devices.InvalidDateText) | Devices.FormatTime24 (Devices.FormatTime24IsClock) |
