# InteliCop — a Dafny model of its decision logic and state updates

InteliCop is a police-station management application. It has a React client and a Spring backend.
Desk officers schedule and complete visitor meetings. Officers keep criminal records. Administrators
manage users and roles and watch the database's health. Users sign in with a username and password,
and each role has its own dashboard. On an empty users table the backend seeds default accounts.

This project models the parts of that system that decide something or change state:

- **Client session and routing.** The authentication context (restore, login, logout, the reload
  handler) and the route gates (`ProtectedRoute`, `RoleRoute`, `DashboardRouter`).
- **Visitor meetings.**
  - Client: the scheduling form's checks; the desk dashboard's date buckets, sort and pages; the
    today/upcoming/completed page; the visitor data page's filters and status labels; the requests the
    visitor service builds.
  - Backend: the meeting service's two stores (scheduled and completed) and its controller.
- **Criminal records.** The client form and list maintenance, and the backend service and controller.
- **Users.**
  - Client: role management, the add-user form's validation, the admin dashboard's counts, the
    investigating dashboard, and the user service's request building.
  - Backend: the login check in both its forms, the user controller's counts and user creation, and
    the start-up seeder.
- **Database health.** The health endpoint and the report data.

Pure code is modelled as functions and lemmas. Components and services that change state step by step
are modelled as classes:

- the class fields are the component's state, or the repository's rows;
- each method's `ensures` ties the new state to a function of the old state;
- the properties are proved as lemmas about those functions.

Foreign code becomes parameters or outcome values:

- BCrypt and `PasswordEncoder`, `btoa`, JSON stringify/parse and `Number(...)` are function-typed
  parameters;
- every network call is an outcome value: a response, or a thrown error;
- the image host's upload is an outcome value;
- `Random` is a sequence of draws;
- the clock and "today" are plain parameters.

Behaviour worth knowing, read from the code where the prose description differs:

- `InvestigatingDashboard.tsx` never sets `selectedSuspect` to a record, so its detail dialog can only
  be closed. The model has `CloseDetail` and no way to open it.
- In `CriminalRecords.tsx` `handlePhotoChange`, the branch for an edit in progress does the same as the
  branch for a new record. Both write the add/edit form.
- The seeder creates 103 officers (numbers 2 to 104), 117 users in all. Its comment says 100 officers
  and its log line says 104.
- An unreachable database fails `SELECT 1` with Spring's unchecked `DataAccessException`, which is not
  a `SQLException`. The health endpoint therefore answers ERROR/500 for it. DOWN/503 is answered only
  when opening the connection or reading its metadata throws a `SQLException`.
- `visitorService.js` has no `checkin` operation, so the desk dashboard's check-in action always ends
  in its error alert.
- Nothing in `AdminDashboard.tsx` calls `fetchDatabaseHealth` (lines 22-30): the mount effect and the
  refresh read the health figure through `fetchData`. `FetchDatabaseHealth` describes code the page
  never reaches.
- Nothing in `CriminalRecords.tsx` calls `handleEdit` (lines 192-201), so `editingCriminal` is never
  set. The PUT branch of `HandleAddOrEdit`, `EditForm` and `EditWithoutNewFileSendsNoPhoto` describe
  code the page never reaches; edits go through the detail modal's `handleUpdateCriminal`.
- The detail modal's update sends a JSON part without a photo field, and without a new file no file
  part either. The backend then stores the row with a null photo, and only the page's own list keeps
  showing the old photo (see Findings).

## Model

| member | source | states |
|---|---|---|
| Routing.LoadingShowsSpinner | Frontend/src/App.tsx:23-32 | while the session is loading, every protected path renders the spinner: neither its page nor any redirect |
| Routing.NoUserGoesToLogin | Frontend/src/App.tsx:34-68 | with no user, `ProtectedRoute`, `RoleRoute` and `DashboardRouter` each redirect to `/login`, and so does every protected path |
| Routing.RoleRouteAllowsIff | Frontend/src/App.tsx:55-59 | `RoleRoute` shows its page exactly when the lower-cased roles are equal; otherwise it redirects to `/dashboard`, never to `/login` |
| Routing.UpperCaseRolePasses | Frontend/src/App.tsx:104-113 | a user stored with role "ADMIN" is shown the admin dashboard at `/admin` |
| Routing.DashboardRouterRoles | Frontend/src/App.tsx:70-83 | the router shows a dashboard exactly for admin/patrol/desk/field/investigating in any case, distinct roles get distinct dashboards, and any other role redirects to `/login` |
| Routing.OfficerTitleHasNoDashboard | Frontend/src/App.tsx:81-82 | a role saved as "Patrol Officer" falls to the default case and is sent to `/login` |
| Routing.AddUserAdminOnly | Frontend/src/App.tsx:154-163 | the add-user form is shown exactly to a user whose role lower-cases to "admin"; every other signed-in user goes to `/dashboard` |
| Routing.RootRedirectsToDashboard | Frontend/src/App.tsx:164 | `/` redirects to `/dashboard` whatever the session |
| Routing.RedirectsEnd | Frontend/src/App.tsx:94-166 | from every path and every session, three redirects at most end on a page or the spinner: there is no redirect cycle |
| Routing.MismatchEndsOnOwnDashboard | Frontend/src/App.tsx:96-103 | a signed-in user with a known role whom a role gate turns away lands, after its one redirect, on their own dashboard |
| Session.Initial | Frontend/src/contexts/AuthContext.tsx:20-21 | a fresh provider has no user and is loading |
| Session.RestoreStep | Frontend/src/contexts/AuthContext.tsx:23-30 | restore leaves storage alone; with no stored value or an empty one it only ends loading; a stored user becomes the user and loading ends; a value `JSON.parse` rejects aborts the effect with loading still on |
| Session.LoginStep | Frontend/src/contexts/AuthContext.tsx:52-75 | login answers true exactly when the reply is ok with `success`; then the user is `{username, role}` and the key holds its JSON; otherwise user and storage are unchanged; loading is off on every path |
| Session.LogoutStep | Frontend/src/contexts/AuthContext.tsx:77-80 | logout clears the user, removes only the session key and keeps every other entry and the loading flag |
| Session.BeforeUnloadStep | Frontend/src/contexts/AuthContext.tsx:34-46 | the reload handler changes nothing without a user and signs out exactly as logout does with one |
| Session.LogoutIdempotent | Frontend/src/contexts/AuthContext.tsx:77-80 | signing out twice equals signing out once |
| Session.BeforeUnloadIdempotent | Frontend/src/contexts/AuthContext.tsx:34-46 | running the reload handler a second time changes nothing |
| Session.LoginThenRestore | Frontend/src/contexts/AuthContext.tsx:63-66 | after a successful login a freshly mounted provider restores the same user and stops loading, given that parse reads back what stringify wrote |
| Session.LogoutThenRestore | Frontend/src/contexts/AuthContext.tsx:77-80 | after logout a freshly mounted provider restores nobody and stops loading |
| Session.AuthProvider.Restore | Frontend/src/contexts/AuthContext.tsx:23-30 | the mount effect changes the provider's state exactly as `RestoreStep` says |
| Session.AuthProvider.Login | Frontend/src/contexts/AuthContext.tsx:52-75 | the new state and the answer are those of `LoginStep` on the old state |
| Session.AuthProvider.Logout | Frontend/src/contexts/AuthContext.tsx:77-80 | the new state is `LogoutStep` of the old |
| Session.AuthProvider.HandleBeforeUnload | Frontend/src/contexts/AuthContext.tsx:34-46 | the new state is `BeforeUnloadStep` of the old |
| VisitorForm.DefaultForm | Frontend/src/pages/VisitorMeetingForm.tsx:32-41 | the form starts with no id, empty contact and date, and status "SCHEDULED" |
| VisitorForm.Payload | Frontend/src/pages/VisitorMeetingForm.tsx:66 | the payload has status "SCHEDULED" whatever the form held, and agrees with the form in every other field |
| VisitorForm.SubmitEffects | Frontend/src/pages/VisitorMeetingForm.tsx:45-81 | an invalid contact only alerts, before the date check; a date below today only toasts; `schedule` is called, first and with the payload, exactly when both checks pass; `onSave(saved)` and `onClose` happen exactly when it also resolves |
| VisitorForm.ContactExamples | Frontend/src/pages/VisitorMeetingForm.tsx:50-51 | "12345" is refused and "1234567890" accepted |
| VisitorForm.EmptyDateRefused | Frontend/src/pages/VisitorMeetingForm.tsx:58-60 | an empty date is below every non-empty today, so it is always refused with the past-date toast and no request |
| VisitorForm.TodayIsAccepted | Frontend/src/pages/VisitorMeetingForm.tsx:58 | a valid contact with the date equal to today passes both checks |
| VisitorForm.MeetingFormState.HandleSubmit | Frontend/src/pages/VisitorMeetingForm.tsx:45-81 | the form is unchanged, the effects grow by `SubmitEffects`, and `loading` is false after every path that set it |
| Visitors.BucketsDisjoint | Frontend/src/pages/DeskDashboard.tsx:94-96 | no record is in two of the buckets scheduled-today, completed-today and upcoming |
| Visitors.EmptySearchMatchesAll | Frontend/src/pages/TodayVisitorsPage.tsx:136-139 | the empty search matches every record |
| Visitors.SearchFindsName | Frontend/src/pages/TodayVisitorsPage.tsx:136-139 | a search equal to the visitor's name up to case finds the record |
| Visitors.SortByTime | Frontend/src/pages/DeskDashboard.tsx:99-100 | the result is ascending by `scheduledTime`, a missing time counting as "", and is a permutation of the input |
| Visitors.SortByTimeSameRecords | Frontend/src/pages/DeskDashboard.tsx:99-104 | sorting a bucket keeps exactly its records and its length |
| VisitorService.AuthHeader | Frontend/src/services/visitorService.js:8-11 | the Bearer header is present exactly when a non-empty token is stored, and it is the only header |
| VisitorService.JsonHeaders | Frontend/src/services/visitorService.js:47 | the write requests' headers hold the JSON content type, the bearer header exactly when a non-empty token is stored, and no other key |
| VisitorService.CompleteAndCancelAreStatusUpdates | Frontend/src/services/visitorService.js:81-89 | `complete(id)` sends the very request of `updateStatus(id, "COMPLETED")`, and `cancel(id)` that of `updateStatus(id, "CANCELLED")` |
| VisitorService.BearerExactlyWithToken | Frontend/src/services/visitorService.js:13-92 | every operation's request carries `Authorization: Bearer <token>` exactly when a token is stored |
| VisitorService.UpdateStatusShape | Frontend/src/services/visitorService.js:71-76 | `updateStatus` is a PUT with the status as query parameter and a null body |
| VisitorService.NoCheckin | Frontend/src/services/visitorService.js:13-92 | no operation of the service is named `checkin` |
| VisitorService.ActionOp | Frontend/src/pages/DeskDashboard.tsx:237-241 | a dashboard action found on the service has that name, and "checkin" finds nothing |
| DeskDashboard.ScheduledTodayOf | Frontend/src/pages/DeskDashboard.tsx:94-102 | today's log is sorted by time and is a permutation of the records dated today that are neither "CANCELLED" nor "COMPLETED" |
| DeskDashboard.CompletedTodayOf | Frontend/src/pages/DeskDashboard.tsx:95-103 | the completed-today bucket is sorted by time and is a permutation of the "COMPLETED" records dated today |
| DeskDashboard.UpcomingOf | Frontend/src/pages/DeskDashboard.tsx:96-104 | the upcoming bucket is sorted by time and is a permutation of the records dated after today and not "CANCELLED" |
| DeskDashboard.LoadedBucketsAreFilters | Frontend/src/pages/DeskDashboard.tsx:94-104 | a record is in a loaded bucket exactly when it is in the full list and satisfies the bucket's predicate |
| DeskDashboard.ScheduledTodayAfterActionOf | Frontend/src/pages/DeskDashboard.tsx:248 | after a quick action, today's log holds exactly the records dated today whose status is neither "Cancelled" nor "Completed" |
| DeskDashboard.CompletedTodayAfterActionOf | Frontend/src/pages/DeskDashboard.tsx:249 | after a quick action, the completed bucket holds exactly the "Completed" records dated today |
| DeskDashboard.UpcomingAfterActionOf | Frontend/src/pages/DeskDashboard.tsx:250 | after a quick action, the upcoming bucket holds exactly the later records not "Cancelled" |
| DeskDashboard.UpperCaseCancelledReappears | Frontend/src/pages/DeskDashboard.tsx:94-248 | a meeting stored as "CANCELLED" for today is out of the log after a load and back in it after a quick action |
| DeskDashboard.SavedList | Frontend/src/pages/DeskDashboard.tsx:178-190 | an edit keeps the list's length; an add appends exactly the saved record after the old list |
| DeskDashboard.SavedEditIsUpdate | Frontend/src/pages/DeskDashboard.tsx:183 | with unique ids an edit replaces just the element whose id is the saved id |
| DeskDashboard.ZeroIdIsAppended | Frontend/src/pages/DeskDashboard.tsx:178 | a record with id 0 counts as new: saving it appends |
| DeskDashboard.ActionRequests | Frontend/src/pages/DeskDashboard.tsx:237-244 | a check-in sends nothing; complete and cancel send their status update first, and the reload follows exactly when that resolves |
| DeskDashboard.Dashboard.TotalVisitorPages | Frontend/src/pages/DeskDashboard.tsx:42 | there is always at least one visitor page |
| DeskDashboard.Dashboard.VisitorPageItems | Frontend/src/pages/DeskDashboard.tsx:392 | a visitor page shows at most three meetings |
| DeskDashboard.Dashboard.TotalPages | Frontend/src/pages/DeskDashboard.tsx:157 | there is always at least one criminal page |
| DeskDashboard.Dashboard.CurrentRecords | Frontend/src/pages/DeskDashboard.tsx:154-156 | a criminal page shows at most four records |
| DeskDashboard.Dashboard.LoadVisitors | Frontend/src/pages/DeskDashboard.tsx:84-110 | the effect sends one `getAll`, ends loading, and on success sets the list and the three sorted buckets from it; on failure everything else stays |
| DeskDashboard.Dashboard.HandleVisitorAction | Frontend/src/pages/DeskDashboard.tsx:237-256 | a check-in sends nothing and ends in the error alert; a resolved complete/cancel with a resolved reload sets the list and the three unsorted title-case buckets; any failure leaves them unchanged |
| DeskDashboard.Dashboard.HandleSaveCriminal | Frontend/src/pages/DeskDashboard.tsx:160-198 | the request is a PUT for a truthy id and a POST otherwise; a decoded reply gives `SavedList` with "Criminal updated successfully!" or "Criminal added successfully!" as the alert; a failure keeps the list with "Error saving criminal"; the form closes on every path |
| DeskDashboard.Dashboard.HandleDelete | Frontend/src/pages/DeskDashboard.tsx:200-210 | a declined confirmation does nothing; a confirmed one sends the DELETE and, unless the fetch throws, removes exactly the records with that id, whatever the HTTP status, with "Criminal deleted successfully!"; a thrown fetch keeps the list with "Error deleting criminal" |
| DeskDashboard.Dashboard.SearchEffect | Frontend/src/pages/DeskDashboard.tsx:114-126 | the filtered list is the search of the suspects and the page goes back to 1 |
| DeskDashboard.Dashboard.VisitorPrev | Frontend/src/pages/DeskDashboard.tsx:427 | Prev keeps the visitor page within [1, totalVisitorPages] |
| DeskDashboard.Dashboard.VisitorNext | Frontend/src/pages/DeskDashboard.tsx:438 | Next keeps the visitor page within [1, totalVisitorPages] |
| DeskDashboard.Dashboard.CriminalPrev | Frontend/src/pages/DeskDashboard.tsx:491 | Prev keeps the criminal page within [1, totalPages] |
| DeskDashboard.Dashboard.CriminalNext | Frontend/src/pages/DeskDashboard.tsx:499 | Next keeps the criminal page within [1, totalPages] |
| TodayVisitors.LoadedList | Frontend/src/pages/TodayVisitorsPage.tsx:34-42 | "today" keeps exactly the scheduled records dated today whose status is not "Cancelled"; "upcoming" those dated later with the same test; "completed" shows the completed list unchanged |
| TodayVisitors.UpperCaseCancelledShownToday | Frontend/src/pages/TodayVisitorsPage.tsx:36 | a meeting stored as "CANCELLED" for today still passes the exact-case "Cancelled" test and is shown |
| TodayVisitors.Shown | Frontend/src/pages/TodayVisitorsPage.tsx:136-139 | the cards are exactly the loaded records whose "name inmate purpose" text contains the search, ignoring case; an empty search shows the list unchanged |
| TodayVisitors.AvailableActions | Frontend/src/pages/TodayVisitorsPage.tsx:156-168 | Complete is offered exactly when the status is not "Completed" and the mode is not "completed"; Cancel and Reschedule exactly when the mode is not "completed" |
| TodayVisitors.LoadRequests | Frontend/src/pages/TodayVisitorsPage.tsx:30-31 | a load asks for the scheduled list first and for the completed list exactly when that arrived |
| TodayVisitors.VisitorsPage.LoadVisitors | Frontend/src/pages/TodayVisitorsPage.tsx:27-48 | loading ends; with both lists the completed list is stored and the shown list is `LoadedList`; if either request throws both lists stay |
| TodayVisitors.VisitorsPage.HandleComplete | Frontend/src/pages/TodayVisitorsPage.tsx:54-71 | with no id nothing is sent or changed; a thrown `complete` leaves the lists; a resolved one removes exactly the records with that id and refetches the completed list |
| TodayVisitors.VisitorsPage.HandleCancel | Frontend/src/pages/TodayVisitorsPage.tsx:73 | Cancel only opens the dialog for that meeting: no request, no status change |
| TodayVisitors.VisitorsPage.ChooseReschedule | Frontend/src/pages/TodayVisitorsPage.tsx:225 | the dialog's meeting moves into the reschedule dialog and the cancel dialog closes |
| TodayVisitors.VisitorsPage.ChooseDelete | Frontend/src/pages/TodayVisitorsPage.tsx:228 | the dialog's meeting moves into the confirm-delete dialog and the cancel dialog closes |
| TodayVisitors.VisitorsPage.CloseCancelDialog | Frontend/src/pages/TodayVisitorsPage.tsx:231 | Close only closes the dialog |
| TodayVisitors.VisitorsPage.HandleConfirmDelete | Frontend/src/pages/TodayVisitorsPage.tsx:75-86 | without a meeting id nothing happens; otherwise the delete is sent; until it resolves nothing else changes; once it resolves the dialog closes, the lists are loaded again and loading ends, and a failed load keeps both old lists |
| TodayVisitors.VisitorsPage.HandleEditSave | Frontend/src/pages/TodayVisitorsPage.tsx:88-99 | without a meeting id nothing happens; otherwise the update with the edited meeting is sent; until it resolves nothing else changes; once it resolves the dialog closes, the lists are loaded again and loading ends, and a failed load keeps both old lists |
| VisitorData.FilteredVisitors | Frontend/src/pages/VisitorDataPage.tsx:69-98 | the "Completed" selector shows the completed list as fetched, search ignored; any other selector keeps exactly the meetings that match the search (case-insensitive, empty search matches all) and the selector's own date and status test, never more than the full list |
| VisitorData.AllUnsearchedIsEveryMeeting | Frontend/src/pages/VisitorDataPage.tsx:74-85 | the "All" selector with no search lists every meeting, in order |
| VisitorData.SearchNarrows | Frontend/src/pages/VisitorDataPage.tsx:74-81 | a meeting shown under a search is also shown under the same selector with the search cleared |
| VisitorData.VisitorStatus | Frontend/src/pages/VisitorDataPage.tsx:131-137 | the label is one of four, each in both directions: "Cancelled" exactly for status "CANCELLED", "Completed" exactly for status "Completed", "Upcoming" exactly for a meeting dated after today that is neither, and "Scheduled" exactly for one dated today or earlier that is neither |
| VisitorData.UpperCaseCompletedIsNotLabelled | Frontend/src/pages/VisitorDataPage.tsx:133-134 | a record stored as "COMPLETED" is never labelled "Completed"; dated today it reads "Scheduled" |
| VisitorData.PastMeetingReadsScheduled | Frontend/src/pages/VisitorDataPage.tsx:134-136 | a past meeting that is neither cancelled nor completed still reads "Scheduled" |
| VisitorData.VisitorDataPage.constructor | Frontend/src/pages/VisitorDataPage.tsx:20-30 | the page starts on "All", no search, page 1, empty lists, loading, no dialog |
| VisitorData.VisitorDataPage.TotalPages | Frontend/src/pages/VisitorDataPage.tsx:100 | the page count is at least one |
| VisitorData.VisitorDataPage.PageItems | Frontend/src/pages/VisitorDataPage.tsx:101 | at most six records, and record `i` of the filtered list is shown exactly on page `i / 6 + 1` |
| VisitorData.VisitorDataPage.Load | Frontend/src/pages/VisitorDataPage.tsx:42-53 | one request for all meetings; the list is replaced only when it resolves; loading ends either way |
| VisitorData.VisitorDataPage.LoadCompleted | Frontend/src/pages/VisitorDataPage.tsx:55-66 | one request for the completed list; replaced only when it resolves; loading ends either way |
| VisitorData.VisitorDataPage.SetFilter | Frontend/src/pages/VisitorDataPage.tsx:36-40 | the selector is set and the page returns to 1; the completed list is fetched exactly when the selector changes to "Completed" |
| VisitorData.VisitorDataPage.SetSearch | Frontend/src/pages/VisitorDataPage.tsx:196-204 | the search is set and the page returns to 1 |
| VisitorData.VisitorDataPage.HandleDelete | Frontend/src/pages/VisitorDataPage.tsx:103-114 | without an id or without the user's confirmation nothing is sent and nothing changes; otherwise the delete is sent; until it resolves the list and loading stay; after it resolves the list is fetched again, replaced only when that fetch resolves, and loading ends |
| VisitorData.VisitorDataPage.Edit | Frontend/src/pages/VisitorDataPage.tsx:245 | the dialog opens on the record |
| VisitorData.VisitorDataPage.HandleEditSave | Frontend/src/pages/VisitorDataPage.tsx:116-127 | without a record id nothing is sent and loading stays; otherwise the update carrying the edited record is sent; until it resolves the list and loading stay; after it resolves the dialog closes, the list is fetched again and replaced only when that fetch resolves, and loading ends |
| VisitorData.VisitorDataPage.Previous | Frontend/src/pages/VisitorDataPage.tsx:259 | the page goes back one, never below 1 |
| VisitorData.VisitorDataPage.Next | Frontend/src/pages/VisitorDataPage.tsx:269 | the page goes forward one, never past the page count |
| CriminalForm.Defaults | Frontend/src/pages/CriminalForm.tsx:32-41 | the empty form: threat "Low", status "Under Investigation", no id, blank age, no photo or preview, every text empty |
| CriminalForm.InitialForm | Frontend/src/pages/CriminalForm.tsx:32-43 | without a record the form is the defaults; with one, each of the ten properties (id, name, age, crime, threat, last seen, status, record, photo, preview) the record carries overrides its default and each absent one keeps it |
| CriminalForm.InitialFormOfRecord | Frontend/src/pages/CriminalForm.tsx:42 | a record carrying every property opens the form as exactly that record |
| CriminalForm.ChangeField | Frontend/src/pages/CriminalForm.tsx:45-48 | "age" becomes blank for empty text and `Number(value)` otherwise; "name", "crime", "threat", "lastSeen", "status" and "record" are each stored as typed with nothing else changed; any other name leaves the form as it was; id, photo and preview never change |
| CriminalForm.BodyOf | Frontend/src/pages/CriminalRecords.tsx:129-137 | the JSON part carries the record's seven own fields unchanged |
| CriminalForm.PhotoPart | Frontend/src/pages/CriminalRecords.tsx:139 | a file part is sent exactly when the photo is a file chosen in the browser, and it is that file |
| CriminalForm.ReplaceById | Frontend/src/pages/CriminalRecords.tsx:153 | same length; each record whose id equals the saved one's is replaced by it, every other record stays |
| CriminalForm.ReplaceByIdIsUpdate | Frontend/src/pages/CriminalRecords.tsx:153 | with unique ids, saving record `k`'s id changes exactly position `k` |
| CriminalForm.ReplaceByUnknownIdKeepsList | Frontend/src/pages/CriminalRecords.tsx:153 | a saved record whose id no record carries leaves the list as it was |
| CriminalForm.RemoveById | Frontend/src/pages/CriminalRecords.tsx:183 | no record with the id remains; every other record keeps its number of occurrences |
| CriminalForm.RemoveUnknownIdKeepsList | Frontend/src/pages/CriminalRecords.tsx:183 | removing an id no record carries keeps the list, in order |
| CriminalForm.SearchCriminals | Frontend/src/pages/CriminalRecords.tsx:71-83 | an empty query keeps the list; otherwise exactly the records whose lower-cased name or crime contains the lower-cased query, never more than the list |
| CriminalForm.CriminalFormState.constructor | Frontend/src/pages/CriminalForm.tsx:32-43 | the component starts on `InitialForm` of its record, nothing saved, no alert |
| CriminalForm.CriminalFormState.HandleChange | Frontend/src/pages/CriminalForm.tsx:45-48 | the form takes `ChangeField`; nothing is saved |
| CriminalForm.CriminalFormState.HandlePhotoChange | Frontend/src/pages/CriminalForm.tsx:50-56 | without a file nothing changes; with one the file becomes the photo and the reader's data URL the preview |
| CriminalForm.CriminalFormState.HandleSubmit | Frontend/src/pages/CriminalForm.tsx:58-62 | an empty name or crime raises an alert and never calls `onSave`; otherwise `onSave` receives the current form unchanged |
| CriminalRecords.SaveError | Frontend/src/pages/CriminalRecords.tsx:149 | a non-OK save throws its response text, or the fallback when that is empty; a thrown error keeps its message |
| CriminalRecords.TruthyAge | Frontend/src/pages/CriminalRecords.tsx:196 | the age is kept unless it is falsy: blank, zero or NaN become blank |
| CriminalRecords.EditForm | Frontend/src/pages/CriminalRecords.tsx:192-199 | the edit form keeps the record's fields, takes the truthy age, drops the photo, and previews the stored photo URL or else the record's own non-empty preview |
| CriminalRecords.EditWithoutNewFileSendsNoPhoto | Frontend/src/pages/CriminalRecords.tsx:139-196 | an edit submitted without a new file sends no photo part, and the body, which has no photo field, still names the record; the backend therefore stores the record without its photo |
| CriminalRecords.RetainPhoto | Frontend/src/pages/CriminalRecords.tsx:238-240 | the server's record is kept, with the modal's photo put back unless a new file was sent |
| CriminalRecords.PageAfterDelete | Frontend/src/pages/CriminalRecords.tsx:185 | at least 1, and the page count of the filtered list one record shorter |
| CriminalRecords.PageAfterDeleteIsLastPage | Frontend/src/pages/CriminalRecords.tsx:185 | the clamp is the last page of the shortened list: the records before it do not fill it and it holds the last record |
| CriminalRecords.RecordsPage.constructor | Frontend/src/pages/CriminalRecords.tsx:30-53 | empty lists, loading, no modal or selection, page 1, the default form, nothing sent |
| CriminalRecords.RecordsPage.TotalPages | Frontend/src/pages/CriminalRecords.tsx:260 | the page count is at least 1 |
| CriminalRecords.RecordsPage.CurrentRecords | Frontend/src/pages/CriminalRecords.tsx:257-259 | a page holds at most four records |
| CriminalRecords.RecordsPage.FetchData | Frontend/src/pages/CriminalRecords.tsx:56-68 | the list is replaced only when the request resolves; loading ends either way |
| CriminalRecords.RecordsPage.SearchEffect | Frontend/src/pages/CriminalRecords.tsx:71-85 | the filtered list is `SearchCriminals` of the list and the query, and the page returns to 1 |
| CriminalRecords.RecordsPage.SetSearchQuery | Frontend/src/pages/CriminalRecords.tsx:37 | the query is set |
| CriminalRecords.RecordsPage.HandleChange | Frontend/src/pages/CriminalRecords.tsx:96-102 | the add/edit form takes `ChangeField` |
| CriminalRecords.RecordsPage.HandlePhotoChange | Frontend/src/pages/CriminalRecords.tsx:104-119 | without a file nothing changes; in the detail modal the selected record takes the file and preview, otherwise the add/edit form does |
| CriminalRecords.RecordsPage.OpenAdd | Frontend/src/pages/CriminalRecords.tsx:277 | the modal opens |
| CriminalRecords.RecordsPage.CancelModal | Frontend/src/pages/CriminalRecords.tsx:384 | the modal closes and forgets the record being edited |
| CriminalRecords.RecordsPage.HandleEdit | Frontend/src/pages/CriminalRecords.tsx:192-201 | the modal opens on the record with `EditForm` of it |
| CriminalRecords.RecordsPage.HandleAddOrEdit | Frontend/src/pages/CriminalRecords.tsx:122-175 | a missing name or crime only alerts, and the form, the modal and the edited record stay; otherwise a PUT to the edited id or a POST; on success the list replaces by id or appends the saved record and the modal closes on the defaults; on failure only the error alert |
| CriminalRecords.RecordsPage.HandleDelete | Frontend/src/pages/CriminalRecords.tsx:178-190 | nothing without confirmation; otherwise the DELETE; on success the record leaves the list, the success message shows and the page is clamped; on failure the list stays and the error message shows |
| CriminalRecords.RecordsPage.Select | Frontend/src/pages/CriminalRecords.tsx:295 | the detail modal opens on the record |
| CriminalRecords.RecordsPage.HandleDetailChange | Frontend/src/pages/CriminalRecords.tsx:204-207 | the selected record takes `ChangeField`; with none selected nothing changes |
| CriminalRecords.RecordsPage.HandleUpdateCriminal | Frontend/src/pages/CriminalRecords.tsx:209-249 | with no selection nothing changes; otherwise a PUT to its id; on success the list replaces by id with `RetainPhoto` and the modal closes; on failure the list, the selection and the add modal stay and the error message shows |
| CriminalRecords.RecordsPage.HandleDetailDelete | Frontend/src/pages/CriminalRecords.tsx:251-254 | the delete with `HandleDelete`'s messages, removal and page clamp (a declined confirmation changes none of them), then the detail modal closes whatever happened |
| CriminalRecords.RecordsPage.Prev | Frontend/src/pages/CriminalRecords.tsx:326 | off the first page, back one page |
| CriminalRecords.RecordsPage.Next | Frontend/src/pages/CriminalRecords.tsx:328 | off the last page, forward one page |
| ManageRole.FilteredUsers | Frontend/src/pages/ManageRole.jsx:205-212 | exactly the users whose lower-cased name, role or department contains the lower-cased term and whose status passes the selector ("All" passes every status), never more than the list |
| ManageRole.UnfilteredListsEveryone | Frontend/src/pages/ManageRole.jsx:197-212 | with no search and "All", every user is listed, in order |
| ManageRole.TotalPages | Frontend/src/pages/ManageRole.jsx:218 | zero pages exactly when nothing matches; otherwise the last page holds the last matching user and the pages before it do not |
| ManageRole.PageWindow | Frontend/src/pages/ManageRole.jsx:471-481 | `min(totalPages, 5)` buttons, button `i` numbered by the window rule |
| ManageRole.PageWindowProperties | Frontend/src/pages/ManageRole.jsx:471-481 | for a current page in range, the buttons are consecutive increasing page numbers between 1 and the page count, and include the current page |
| ManageRole.ShowingMatchesPage | Frontend/src/pages/ManageRole.jsx:215-217 | on a page in range, "Showing a to b" has a <= b and the page shows exactly users a..b, b - a + 1 of them |
| ManageRole.SetRole | Frontend/src/pages/ManageRole.jsx:233 | same length; each user with the id takes the role, every other user stays |
| ManageRole.SetRoleChangesOnlyRole | Frontend/src/pages/ManageRole.jsx:233 | a role edit changes the role field of the users with that id and no other field of any user |
| ManageRole.ManageRolePage.constructor | Frontend/src/pages/ManageRole.jsx:193-198 | the page starts on the given user list, page 1, no editor, no search, status "All" |
| ManageRole.ManageRolePage.CurrentUsers | Frontend/src/pages/ManageRole.jsx:215-217 | a page holds at most ten users |
| ManageRole.ManageRolePage.SetSearchTerm | Frontend/src/pages/ManageRole.jsx:263-266 | the term is set and the page returns to 1 |
| ManageRole.ManageRolePage.SetStatusFilter | Frontend/src/pages/ManageRole.jsx:273-276 | the status is set and the page returns to 1 |
| ManageRole.ManageRolePage.Paginate | Frontend/src/pages/ManageRole.jsx:220 | the page becomes the requested number |
| ManageRole.ManageRolePage.HandleEdit | Frontend/src/pages/ManageRole.jsx:222-225 | the editor opens on the user holding their current role |
| ManageRole.ManageRolePage.SelectRole | Frontend/src/pages/ManageRole.jsx:352 | the edited role is set |
| ManageRole.ManageRolePage.HandleCancel | Frontend/src/pages/ManageRole.jsx:227-230 | the editor closes with nothing saved |
| ManageRole.ManageRolePage.HandleSave | Frontend/src/pages/ManageRole.jsx:232-236 | the users become `SetRole` with the edited role, and the editor closes |
| AddUser.IssueAt | Frontend/src/pages/AddUser.tsx:65-71 | the `k`-th check in the order the source runs them |
| AddUser.ErrorsUpTo | Frontend/src/pages/AddUser.tsx:64-71 | the first `n` checks push only failures among themselves, in the checks' order |
| AddUser.ErrorsUpToMembers | Frontend/src/pages/AddUser.tsx:64-71 | among the first `n` checks, a check's message is pushed exactly when that check fails |
| AddUser.ValidationErrors | Frontend/src/pages/AddUser.tsx:63-74 | each of the five messages is listed exactly when its check fails (no photo, blank trimmed login id, password under 6, password differs from confirmation, no role), in the order the checks run |
| AddUser.Messages | Frontend/src/pages/AddUser.tsx:65-71 | one message per failure, in the same order |
| AddUser.ValidIffAllChecksPass | Frontend/src/pages/AddUser.tsx:73 | the error list is empty exactly when a photo is chosen, the login id is not blank, the password has at least 6 characters and matches its confirmation, and a role is chosen |
| AddUser.BlankLoginIdRefused | Frontend/src/pages/AddUser.tsx:66 | a login id of spaces alone is refused |
| AddUser.ShortAndMismatchedTogether | Frontend/src/pages/AddUser.tsx:67-70 | a short password that differs from its confirmation gives both messages, adjacent, length first |
| AddUser.AddUserPage.constructor | Frontend/src/pages/AddUser.tsx:23-36 | the form starts empty: no photo, no preview, empty texts, no errors, nothing sent |
| AddUser.AddUserPage.HandleChange | Frontend/src/pages/AddUser.tsx:56-58 | the named text field or the role takes the value; other fields stay |
| AddUser.AddUserPage.HandlePhotoChange | Frontend/src/pages/AddUser.tsx:50-55 | a chosen file becomes the photo and its object URL the preview; with none nothing changes |
| AddUser.AddUserPage.SetConfirmPassword | Frontend/src/pages/AddUser.tsx:38-40 | the confirmation is set |
| AddUser.AddUserPage.SetPoliceId | Frontend/src/pages/AddUser.tsx:42-44 | the police id is set |
| AddUser.CollectErrors | Frontend/src/pages/AddUser.tsx:63-70 | the five checks pushed one after another onto a fresh list give exactly `ValidationErrors` of the form |
| AddUser.AddUserPage.ValidateForm | Frontend/src/pages/AddUser.tsx:63-74 | the shown errors are `ValidationErrors` of the form, and the answer is true exactly when there are none |
| AddUser.AddUserPage.HandleSubmit | Frontend/src/pages/AddUser.tsx:76-105 | with any error nothing is posted and no alert shows; a valid form posts photo, login id, password, role and police id, then a success alert and the dashboard, or the error alert |
| AdminDashboard.CountOf | Frontend/src/pages/AdminDashboard.tsx:44-48 | a role present in `roleWiseCount` shows its number; a missing map or role shows 0 |
| AdminDashboard.CountsOf | Frontend/src/pages/AdminDashboard.tsx:43-49 | the five counts are the map's PATROL, DESK, FIELD, INVESTIGATING and ADMIN entries; without a map all five are 0 |
| AdminDashboard.TotalOf | Frontend/src/pages/AdminDashboard.tsx:55-61 | the backend's total when it is a number, otherwise the sum of the five counts |
| AdminDashboard.FallbackIgnoresOtherRoles | Frontend/src/pages/AdminDashboard.tsx:43-61 | a role outside the five (such as "Patrol Officer") does not change the fallback total, whatever its count |
| AdminDashboard.HealthColorOf | Frontend/src/pages/AdminDashboard.tsx:80-82 | green exactly above 75, yellow exactly in (50, 75], destructive exactly at 50 or below |
| AdminDashboard.HealthColorMonotone | Frontend/src/pages/AdminDashboard.tsx:80-82 | a lower figure never gets a better colour |
| AdminDashboard.AdminDashboardState.constructor | Frontend/src/pages/AdminDashboard.tsx:11-19 | total, health and all five counts start at 0 |
| AdminDashboard.AdminDashboardState.FetchData | Frontend/src/pages/AdminDashboard.tsx:33-65 | when both requests resolve the counts are `CountsOf`, the health is the figure and the total is `TotalOf`; if either throws nothing changes |
| AdminDashboard.AdminDashboardState.FetchDatabaseHealth | Frontend/src/pages/AdminDashboard.tsx:22-30 | the health is the figure, or 0 when the request throws |
| InvestigatingDashboard.ActiveCount | Frontend/src/pages/InvestigatingDashboard.tsx:47 | the active count never exceeds the number of suspects |
| InvestigatingDashboard.ActiveCountExtremes | Frontend/src/pages/InvestigatingDashboard.tsx:47 | the count is 0 exactly when no suspect has a threat other than low, and the whole list when every suspect has one |
| InvestigatingDashboard.ActiveExamples | Frontend/src/pages/InvestigatingDashboard.tsx:47 | "Low" in any letter case, a missing threat and an empty one are not active; "High" is |
| InvestigatingDashboard.TotalPages | Frontend/src/pages/InvestigatingDashboard.tsx:60 | one page for no suspects; otherwise the last page holds the last suspect and the pages before it do not |
| InvestigatingDashboard.ActiveBadgeColor | Frontend/src/pages/InvestigatingDashboard.tsx:106-111 | muted exactly for 0, green exactly for 1 and 2, yellow exactly for 3 to 5, destructive exactly above 5 |
| InvestigatingDashboard.InvestigatingPage.constructor | Frontend/src/pages/InvestigatingDashboard.tsx:34-37 | no suspects, count 0, page 1, no detail |
| InvestigatingDashboard.InvestigatingPage.FetchSuspects | Frontend/src/pages/InvestigatingDashboard.tsx:40-55 | on success the list and its active count; when the request throws both stay |
| InvestigatingDashboard.InvestigatingPage.CurrentRecords | Frontend/src/pages/InvestigatingDashboard.tsx:57-59 | a page holds at most three suspects |
| InvestigatingDashboard.InvestigatingPage.Prev | Frontend/src/pages/InvestigatingDashboard.tsx:286 | off the first page, back one page |
| InvestigatingDashboard.InvestigatingPage.Next | Frontend/src/pages/InvestigatingDashboard.tsx:288 | off the last page, forward one page |
| InvestigatingDashboard.InvestigatingPage.CloseDetail | Frontend/src/pages/InvestigatingDashboard.tsx:335-350 | both close buttons clear the detail |
| UserService.BasicHeader | Frontend/src/services/userService.js:10-14 | an Authorization header is present exactly when a non-empty token is stored, and it is "Basic " followed by that token; no other header |
| UserService.BuildConfig | Frontend/src/services/userService.js:16-23 | without caller headers the headers are the Basic header; with caller headers the trailing spread leaves exactly the caller's; verb and body are the caller's and credentials are "include" |
| UserService.ExplicitHeadersDropAuthorization | Frontend/src/services/userService.js:16-23 | a caller passing an empty headers object sends no Authorization header, whatever is stored |
| UserService.DefaultOptionsSendStoredToken | Frontend/src/services/userService.js:6-23 | without options the stored token is sent exactly when there is one, as "Basic " + token |
| UserService.ErrorMessage | Frontend/src/services/userService.js:28-38 | a failed response throws the JSON body's non-empty `message`, else the status text for a body that is not JSON, else "HTTP error! status: " and the status |
| UserService.ApiOutcome | Frontend/src/services/userService.js:25-51 | a throwing fetch rethrows; a failed response throws `ErrorMessage`; a good one is returned parsed when its content type names JSON (throwing if it does not parse) and as text otherwise |
| UserService.OkResponseIsReturned | Frontend/src/services/userService.js:41-47 | a good response that parses, or carries no content type, is returned and never thrown |
| UserService.PresentFields | Frontend/src/services/userService.js:55-63 | exactly the entries whose value is neither undefined nor null are appended, never more than the data holds |
| UserService.AllPresentAppendsAll | Frontend/src/services/userService.js:57-61 | data with every value present is appended whole, in key order |
| UserService.CreateFormData | Frontend/src/services/userService.js:55-63 | the loop appends `PresentFields` of the data |
| UserService.EndpointOf | Frontend/src/services/userService.js:66-120 | the role update is a PUT to `/api/users/{id}/role?role=` with the URI-encoded role and no body; update and add pass an empty headers object and the form as body |
| UserService.MultipartOpsSendNoAuthorization | Frontend/src/services/userService.js:91-119 | updateUser and addUser never send the stored token |
| UserService.OtherOpsSendStoredToken | Frontend/src/services/userService.js:68-107 | every other user operation sends the stored token exactly when one is stored |
| UserService.LoginOptions | Frontend/src/services/userService.js:130-137 | the login request is a POST with a JSON content type, "Basic " + btoa("username:password") as Authorization, and the JSON of the credentials as body |
| UserService.CurrentUser | Frontend/src/services/userService.js:145-147 | the stored username exactly when one is stored |
| UserService.AuthStore.constructor | Frontend/src/services/userService.js:123 | the store starts as the browser's storage |
| UserService.AuthStore.Login | Frontend/src/services/userService.js:124-138 | the encoded credentials and the username are stored before the request, whatever its outcome; the request is `BuildConfig` of `LoginOptions`; the result is `ApiOutcome` |
| UserService.AuthStore.LogoutAsWritten | Frontend/src/services/userService.js:140-143 | both keys are removed and then the call throws |
| UserService.AuthStore.Logout | Frontend/src/services/userService.js:140-143 | both keys are removed, the call returns normally, and the user is then neither authenticated nor current |
| UserService.LoginStoresCredentials | Frontend/src/services/userService.js:126-128 | after a login the user is authenticated exactly when the encoded credentials are non-empty, and the current user is the one who logged in, whether or not the request succeeded |
| VisitorMeetingService.BeforeIrreflexive | backend/src/main/java/com/backend/intellicop/service/VisitorMeetingService.java:36-38 | no date is after itself, so "after today" never includes today |
| VisitorMeetingService.Save | backend/src/main/java/com/backend/intellicop/service/VisitorMeetingService.java:43 | the row is stored under its own id when that row exists and under a new key otherwise, and only a new key advances the counter; the archive is untouched and the tables stay well-keyed |
| VisitorMeetingService.Schedule | backend/src/main/java/com/backend/intellicop/service/VisitorMeetingService.java:41-44 | the meeting is stored with status "SCHEDULED" whatever it came with, every other field as sent, under the key `save` picks, and answered as stored; every other meeting row, the key counter as `save` moves it, and the archive stay as they were |
| VisitorMeetingService.Reschedule | backend/src/main/java/com/backend/intellicop/service/VisitorMeetingService.java:51-57 | the seven copied fields come from the request; id, status and creation time stay those of the stored row |
| VisitorMeetingService.Update | backend/src/main/java/com/backend/intellicop/service/VisitorMeetingService.java:47-60 | an unknown id fails with "Visitor not found" and changes nothing; otherwise only row `id` changes, to `Reschedule` of it |
| VisitorMeetingService.Delete | backend/src/main/java/com/backend/intellicop/service/VisitorMeetingService.java:63-65 | exactly that key leaves the scheduled table; every other row and the archive stay |
| VisitorMeetingService.Archive | backend/src/main/java/com/backend/intellicop/service/VisitorMeetingService.java:77-87 | the archive row carries the meeting's seven fields and creation time, status "Completed", under the new key |
| VisitorMeetingService.StatusChange | backend/src/main/java/com/backend/intellicop/service/VisitorMeetingService.java:69-94 | an unknown id fails with "Visitor not found"; otherwise the tables stay well-keyed |
| VisitorMeetingService.OtherStatusIsStored | backend/src/main/java/com/backend/intellicop/service/VisitorMeetingService.java:72-73 | any status other than "completed" in some letter case is stored upper-cased on that row alone; no transition is refused |
| VisitorMeetingService.CompletionMovesMeeting | backend/src/main/java/com/backend/intellicop/service/VisitorMeetingService.java:76-93 | a completion removes the meeting from the scheduled table and adds exactly one archive row, `Archive` of it under a fresh key |
| VisitorMeetingService.StatusEffectIgnoresCase | backend/src/main/java/com/backend/intellicop/service/VisitorMeetingService.java:72-76 | two statuses with the same upper-case form have the same effect |
| VisitorMeetingService.CompletedSpellingsAgree | backend/src/main/java/com/backend/intellicop/service/VisitorMeetingService.java:76-84 | "Completed" and "COMPLETED" both complete a meeting and have the same upper-case form |
| VisitorMeetingService.AllMeetings | backend/src/main/java/com/backend/intellicop/service/VisitorMeetingService.java:26-28 | every stored meeting is listed, and in well-keyed tables nothing else |
| VisitorMeetingService.AllCompleted | backend/src/main/java/com/backend/intellicop/service/VisitorMeetingService.java:97-99 | every archive row is listed, and in well-keyed tables nothing else |
| VisitorMeetingService.OnDate | backend/src/main/java/com/backend/intellicop/service/VisitorMeetingService.java:31-33 | a stored meeting is listed exactly when it is dated that day, and only stored meetings are listed |
| VisitorMeetingService.After | backend/src/main/java/com/backend/intellicop/service/VisitorMeetingService.java:36-38 | a stored meeting is listed exactly when it is dated strictly after the day, and only stored meetings are listed |
| VisitorMeetingService.DateQueriesDisjoint | backend/src/main/java/com/backend/intellicop/service/VisitorMeetingService.java:31-38 | no row is both on and after a day; an undated row is in neither |
| VisitorMeetingService.ScheduledMeetingIsListed | backend/src/main/java/com/backend/intellicop/service/VisitorMeetingService.java:31-44 | a meeting just scheduled for a day is listed for that day, with status "SCHEDULED" |
| VisitorMeetingService.CompletedMeetingLeavesQueries | backend/src/main/java/com/backend/intellicop/service/VisitorMeetingService.java:26-38 | after a completion, no query of the scheduled table lists that meeting's id |
| VisitorMeetingService.VisitorMeetingStore.constructor | backend/src/main/java/com/backend/intellicop/service/VisitorMeetingService.java:17-23 | two empty tables whose keys start at 1 |
| VisitorMeetingService.VisitorMeetingStore.ScheduleVisitor | backend/src/main/java/com/backend/intellicop/service/VisitorMeetingService.java:41-44 | the new state and the answer are `Schedule` of the old state; the answer has status "SCHEDULED" |
| VisitorMeetingService.VisitorMeetingStore.UpdateVisitor | backend/src/main/java/com/backend/intellicop/service/VisitorMeetingService.java:47-60 | an unknown id throws and changes nothing; otherwise the new state and the answer are `Update` of the old state |
| VisitorMeetingService.VisitorMeetingStore.DeleteVisitor | backend/src/main/java/com/backend/intellicop/service/VisitorMeetingService.java:63-65 | the new state is `Delete` of the old state |
| VisitorMeetingService.VisitorMeetingStore.UpdateStatus | backend/src/main/java/com/backend/intellicop/service/VisitorMeetingService.java:69-94 | an unknown id throws and changes nothing; otherwise the new state is `StatusChange` of the old state |
| VisitorMeetingController.HttpStatus | backend/src/main/java/com/backend/intellicop/controller/VisitorMeetingController.java:64-88 | 500 exactly for an uncaught service exception, 200 for everything else |
| VisitorMeetingController.Handle | backend/src/main/java/com/backend/intellicop/controller/VisitorMeetingController.java:31-93 | the five read endpoints leave the tables as they were, and every endpoint keeps the tables well-keyed |
| VisitorMeetingController.StatusAnswer | backend/src/main/java/com/backend/intellicop/controller/VisitorMeetingController.java:71-75 | an unknown id is a 500 with "Visitor not found" and no change; otherwise 200 with an empty body after `StatusChange` |
| VisitorMeetingController.CompleteIsStatusCompleted | backend/src/main/java/com/backend/intellicop/controller/VisitorMeetingController.java:84-88 | `PUT /{id}/complete` has the same effect and answer as `PUT /{id}/status?status=COMPLETED` |
| VisitorMeetingController.CompleteMovesMeeting | backend/src/main/java/com/backend/intellicop/controller/VisitorMeetingController.java:84-88 | completing a stored meeting removes it from the scheduled table and adds exactly one archive row built from it |
| VisitorMeetingController.CompletedEndpointsAgree | backend/src/main/java/com/backend/intellicop/controller/VisitorMeetingController.java:78-93 | `/completed` and `/visitors/completed` answer the same list, which holds every archive row |
| VisitorMeetingController.TodayAndUpcoming | backend/src/main/java/com/backend/intellicop/controller/VisitorMeetingController.java:38-49 | `/today` lists exactly the meetings dated today, `/upcoming` exactly those dated after today, and no meeting is on both |
| VisitorMeetingController.PostIsScheduled | backend/src/main/java/com/backend/intellicop/controller/VisitorMeetingController.java:52-55 | a POST answers 200 with the stored meeting, whose status is "SCHEDULED" |
| VisitorMeetingController.UnknownIdAnswers | backend/src/main/java/com/backend/intellicop/controller/VisitorMeetingController.java:58-88 | an unknown id on update, status or complete is a 500 that changes nothing; a delete of it is a 200 that changes nothing |
| VisitorMeetingController.ArchiveGrowsOnlyByStatus | backend/src/main/java/com/backend/intellicop/controller/VisitorMeetingController.java:31-93 | only the two status endpoints change the archive |
| CriminalService.PhotoUrl | backend/src/main/java/com/backend/intellicop/service/CriminalService.java:41-46 | a missing or empty file gives null without calling the host; otherwise the host's secure URL, and a failure exactly when the host fails |
| CriminalService.Save | backend/src/main/java/com/backend/intellicop/service/CriminalService.java:31 | the row is stored under its own id when that row exists and under a new key otherwise, and only a new key advances the counter; the table stays well-keyed |
| CriminalService.Add | backend/src/main/java/com/backend/intellicop/service/CriminalService.java:27-32 | without file content the photo is saved as it came; with content the uploaded URL replaces it; a failure exactly when the upload fails, and then nothing is saved; the answer is the stored row |
| CriminalService.Remove | backend/src/main/java/com/backend/intellicop/service/CriminalService.java:34-39 | an unknown id fails with "Criminal not found with ID: " and the id, changing nothing; a known id removes exactly that row |
| CriminalService.AddThenRemoveRestores | backend/src/main/java/com/backend/intellicop/service/CriminalService.java:27-39 | a record added without an id gets the next key, and deleting that key restores the table's rows |
| CriminalService.SaveExistingOverwrites | backend/src/main/java/com/backend/intellicop/service/CriminalService.java:31 | saving under an existing id overwrites that row alone; the keys and the next key stay |
| CriminalService.CriminalStore.constructor | backend/src/main/java/com/backend/intellicop/service/CriminalService.java:18-21 | an empty table whose keys start at 1, nothing uploaded |
| CriminalService.CriminalStore.GetAll | backend/src/main/java/com/backend/intellicop/service/CriminalService.java:23-25 | every row is listed, and in a well-keyed table nothing else |
| CriminalService.CriminalStore.UploadPhoto | backend/src/main/java/com/backend/intellicop/service/CriminalService.java:41-46 | the answer is `PhotoUrl`; the file reaches the host exactly when it has content |
| CriminalService.CriminalStore.AddCriminal | backend/src/main/java/com/backend/intellicop/service/CriminalService.java:27-32 | the answer and the new table are `Add` of the old table; a failed upload changes nothing; the file reaches the host exactly when it has content |
| CriminalService.CriminalStore.DeleteCriminal | backend/src/main/java/com/backend/intellicop/service/CriminalService.java:34-39 | the error and the new table are `Remove` of the old table |
| CriminalController.HttpStatus | backend/src/main/java/com/backend/intellicop/controller/CriminalController.java:31-58 | 204 exactly for no content, 500 exactly for an exception, 200 for a criminal or the list |
| CriminalController.SaveReply | backend/src/main/java/com/backend/intellicop/controller/CriminalController.java:37-52 | a saved criminal is answered 200 with that criminal, and an exception is a 500 |
| CriminalController.UpdateIgnoresBodyId | backend/src/main/java/com/backend/intellicop/controller/CriminalController.java:45-52 | whatever id the body carries, an update stores the same thing |
| CriminalController.UpdateOfExistingId | backend/src/main/java/com/backend/intellicop/controller/CriminalController.java:45-52 | an update of an existing id overwrites that row under that id and keeps every other row |
| CriminalController.UpdateWithoutFileDropsPhoto | backend/src/main/java/com/backend/intellicop/controller/CriminalController.java:45-52 | as written, an update of an existing row with no photo text and no file succeeds and stores the row with no photo |
| CriminalController.PhotoLostOnEdit | backend/src/main/java/com/backend/intellicop/controller/CriminalController.java:45-52 | a row holding a photo URL, edited without a file, is stored with no photo |
| CriminalController.UpdateKeepingPhoto | backend/src/main/java/com/backend/intellicop/service/CriminalService.java:27-31 | the corrected update fails exactly when a file with content fails to upload, and is the update as written whenever a file, photo text or an unknown id is involved |
| CriminalController.UpdateKeepingPhotoKeepsRow | backend/src/main/java/com/backend/intellicop/controller/CriminalController.java:45-52 | with the corrected update, an edit of an existing row stores the body's fields under the path id, keeps the stored photo unless a file was uploaded (then the uploaded URL), and keeps the key set and every other row |
| CriminalController.UpdateAnswersPathId | backend/src/main/java/com/backend/intellicop/controller/CriminalController.java:50 | a successful update answers the path id, unless no row has that id |
| CriminalController.CriminalEndpoints.constructor | backend/src/main/java/com/backend/intellicop/controller/CriminalController.java:27-29 | the controller holds its service |
| CriminalController.CriminalEndpoints.GetAllCriminals | backend/src/main/java/com/backend/intellicop/controller/CriminalController.java:31-34 | 200 with the service's list |
| CriminalController.CriminalEndpoints.AddCriminal | backend/src/main/java/com/backend/intellicop/controller/CriminalController.java:37-42 | the reply and the new table follow the service's `Add` |
| CriminalController.CriminalEndpoints.UpdateCriminal | backend/src/main/java/com/backend/intellicop/controller/CriminalController.java:45-52 | the service's add with the body's id replaced by the path id |
| CriminalController.CriminalEndpoints.DeleteCriminal | backend/src/main/java/com/backend/intellicop/controller/CriminalController.java:54-58 | 204 and the row removed, or 500 with the service's message and no change; nothing is uploaded |
| UserTable.WithName | backend/src/main/java/com/backend/intellicop/Repository/UserRepository.java:12 | exactly the stored rows whose username is the given name |
| UserTable.FindByUsername | backend/src/main/java/com/backend/intellicop/Repository/UserRepository.java:12 | no row exactly when no stored username is the name, and always for a null name; one row only when it is stored under that name |
| UserTable.FindsTheStoredUser | backend/src/main/java/com/backend/intellicop/Repository/UserRepository.java:12 | with distinct usernames, looking up a stored username finds exactly that row |
| UserTable.CountOnlyOne | backend/src/main/java/com/backend/intellicop/Repository/UserRepository.java:12 | with distinct usernames each stored row occurs once |
| UserTable.UserRepository.constructor | backend/src/main/java/com/backend/intellicop/Repository/UserRepository.java:11 | the repository holds the given rows, each under a key below the next one |
| UserTable.UserRepository.Save | backend/src/main/java/com/backend/intellicop/Repository/UserRepository.java:11 | a user built without an id is appended under the next key, which then advances; the earlier rows stay |
| AuthService.RoleIfValid | backend/src/main/java/com/backend/intellicop/service/AuthService.java:25-36 | the stored role only for a user stored under that name whose password equals the given one; null for an unknown name or a different password; the lookup's exception when the name is stored twice |
| AuthService.UnknownUserGetsNull | backend/src/main/java/com/backend/intellicop/service/AuthService.java:26-35 | an unknown username gives null |
| AuthService.RoleExactlyOnEqualPassword | backend/src/main/java/com/backend/intellicop/service/AuthService.java:28-35 | with distinct usernames, the stored role exactly when the passwords are equal as text, else null |
| AuthService.HashIsComparedAsText | backend/src/main/java/com/backend/intellicop/service/AuthService.java:31 | a stored password is matched only by that same text, so a BCrypt-hashed user is refused their plain password |
| AuthController.Refusal | backend/src/main/java/com/backend/intellicop/controller/AuthController.java:41-42 | both refusals carry `success` false and the message "Invalid username or password", nothing else |
| AuthController.Granted | backend/src/main/java/com/backend/intellicop/controller/AuthController.java:67-68 | a success carries `success` true and the stored role, nothing else |
| AuthController.PasswordMatches | backend/src/main/java/com/backend/intellicop/controller/AuthController.java:49-56 | a stored value starting "$2a$" is checked by BCrypt (a null password throws); any other value must equal the password as text |
| AuthController.Login | backend/src/main/java/com/backend/intellicop/controller/AuthController.java:28-70 | an unknown username is a 401 refusal; an answer is either that refusal or a 200, and a 200 only for the one user stored under that name whose password matches, carrying their role |
| AuthController.Credentials | backend/src/main/java/com/backend/intellicop/controller/AuthController.java:30-31 | a login body whose `username` and `password` read back as given |
| AuthController.PlainTextComparison | backend/src/main/java/com/backend/intellicop/controller/AuthController.java:54-55 | for a stored password without the "$2a$" prefix, 200 exactly when the passwords are equal as text |
| AuthController.OtherBCryptVersionsAreText | backend/src/main/java/com/backend/intellicop/controller/AuthController.java:51 | a "$2b$" hash does not carry the prefix, so it is compared as plain text |
| AuthController.HashComparison | backend/src/main/java/com/backend/intellicop/controller/AuthController.java:51-52 | for a "$2a$" hash, 200 exactly when BCrypt accepts the password |
| AuthController.WrongPasswordLooksLikeUnknownUser | backend/src/main/java/com/backend/intellicop/controller/AuthController.java:39-63 | a wrong password gets exactly the answer an unknown username gets |
| AuthController.SuccessExactlyOnMatch | backend/src/main/java/com/backend/intellicop/controller/AuthController.java:46-69 | with distinct usernames, a 200 carrying the stored role exactly when the password check passes |
| DatabaseHealth.HealthPercentage | backend/src/main/java/com/backend/intellicop/controller/DatabaseHealthController.java:125-131 | one of 0, 25, 50, 75, 100; 100 exactly up to 100 ms and 0 exactly above 1000 ms |
| DatabaseHealth.HealthNonIncreasing | backend/src/main/java/com/backend/intellicop/controller/DatabaseHealthController.java:125-131 | a higher latency never yields a higher figure |
| DatabaseHealth.HealthBoundaries | backend/src/main/java/com/backend/intellicop/controller/DatabaseHealthController.java:125-131 | the figure on each threshold (100, 200, 500, 1000 ms) and one millisecond past it |
| DatabaseHealth.CheckDatabaseHealth | backend/src/main/java/com/backend/intellicop/controller/DatabaseHealthController.java:27-53 | a responding database gives 200 with exactly the UP keys, its latency, the figure for that latency, product, version and the start time; a SQLException gives 503 with exactly the DOWN keys; any other exception gives 500 with exactly the ERROR keys and the exception's message |
| DatabaseHealth.HandleDatabaseError | backend/src/main/java/com/backend/intellicop/controller/DatabaseHealthController.java:133-145 | status 503; the map gains the DOWN status, the fixed error text, the SQL error code and state, latency -1, figure 0 and the timestamp, other keys kept |
| DatabaseHealth.HandleGenericError | backend/src/main/java/com/backend/intellicop/controller/DatabaseHealthController.java:147-157 | status 500; the map gains the ERROR status, the exception's message (null when absent), latency -1, figure 0 and the timestamp, other keys kept |
| DatabaseHealth.HealthData | backend/src/main/java/com/backend/intellicop/controller/DatabaseHealthController.java:90-123 | the report data in the same three shapes: UP carries the probe's product name and version, ERROR the error text; the DOWN shape carries the exception's own message and no error code or SQL state; the timestamp is always present |
| UserController.RoleMapKeys | backend/src/main/java/com/backend/intellicop/controller/Usercontroller.java:58-66 | the breakdown map's keys are exactly the roles of the grouped rows |
| UserController.RoleMapValues | backend/src/main/java/com/backend/intellicop/controller/Usercontroller.java:58-66 | with distinct roles each role maps to its own row's count |
| UserController.GroupCountsSumToTotal | backend/src/main/java/com/backend/intellicop/controller/Usercontroller.java:51-69 | when the rows are the grouped per-role counts of the users, they add up to the number of users |
| UserController.CountsAgree | backend/src/main/java/com/backend/intellicop/controller/Usercontroller.java:51-69 | for the grouped rows of the stored users, the counts add up to `totalUsers` and each role in `roleWiseCount` maps to its number of users |
| UserController.UserEndpoints.GetUserCounts | backend/src/main/java/com/backend/intellicop/controller/Usercontroller.java:51-69 | `totalUsers` is the repository's row count and `roleWiseCount` the map built from the grouped rows, a later row winning |
| UserController.AddStatus | backend/src/main/java/com/backend/intellicop/controller/Usercontroller.java:101-110 | 201 exactly for a creation reply and 500 exactly for a photo error |
| UserController.NewUser | backend/src/main/java/com/backend/intellicop/controller/Usercontroller.java:93-97 | a user with no id yet, username = loginId, the encoded password, the role verbatim and the uploaded URL |
| UserController.PlainTextNeverStored | backend/src/main/java/com/backend/intellicop/controller/Usercontroller.java:95 | with an encoder that never returns its input, the stored password differs from the plain one |
| UserController.UserEndpoints.constructor | backend/src/main/java/com/backend/intellicop/controller/Usercontroller.java:37-38 | the controller works on the given repository |
| UserController.UserEndpoints.AddUser | backend/src/main/java/com/backend/intellicop/controller/Usercontroller.java:82-111 | a failed upload saves nothing and answers 500 with "Error processing photo: " and the message; a successful one appends exactly the new user under the next id and answers 201 with that id |
| DataSeeder.Pad2 | backend/src/main/java/com/backend/intellicop/config/DataSeeder.java:84 | a non-empty string of decimal digits |
| DataSeeder.SeedUser | backend/src/main/java/com/backend/intellicop/config/DataSeeder.java:31-89 | the p-th saved user has no id or photo; it is an ADMIN exactly for the first default and the nine extra admins; each officer has the drawn role and the lower-cased role plus "123" as encoded password |
| DataSeeder.Seeded | backend/src/main/java/com/backend/intellicop/config/DataSeeder.java:29-89 | 117 rows, the p-th one being the p-th seeded user under the id `firstId + p` |
| DataSeeder.SeedNamesDistinct | backend/src/main/java/com/backend/intellicop/config/DataSeeder.java:31-89 | every seeded username differs from every other, whatever the draws |
| DataSeeder.TenAdmins | backend/src/main/java/com/backend/intellicop/config/DataSeeder.java:66-74 | whatever the draws, exactly ten ADMIN rows and 107 others |
| DataSeeder.SeededRoles | backend/src/main/java/com/backend/intellicop/config/DataSeeder.java:77-86 | every seeded role is ADMIN or one of PATROL, DESK, FIELD, INVESTIGATING |
| DataSeeder.SeededUserLogsIn | backend/src/main/java/com/backend/intellicop/config/DataSeeder.java:29-89 | with a BCrypt encoder, every seeded user logs in with the password encoded for it and is granted its stored role |
| DataSeeder.OfficerLogsIn | backend/src/main/java/com/backend/intellicop/config/DataSeeder.java:80-89 | with a BCrypt encoder, officer i logs in as the lower-cased drawn role followed by i padded to two digits, with the lower-cased role and "123", and gets the drawn role |
| DataSeeder.DefaultCredentialsLogIn | backend/src/main/java/com/backend/intellicop/config/DataSeeder.java:94-99 | with a BCrypt encoder each default account logs in with its documented password and gets its role |
| DataSeeder.SeededStart | backend/src/main/java/com/backend/intellicop/config/DataSeeder.java:31-64 | the five defaults open the table, in order, under the first five ids |
| DataSeeder.SeededAdmin | backend/src/main/java/com/backend/intellicop/config/DataSeeder.java:67-74 | admin i sits at position i + 3 with the next id |
| DataSeeder.SeededOfficer | backend/src/main/java/com/backend/intellicop/config/DataSeeder.java:80-89 | officer i sits at position i + 12 with the role of draw i - 2 |
| DataSeeder.Seeder.constructor | backend/src/main/java/com/backend/intellicop/config/DataSeeder.java:21-24 | the seeder works on the given repository |
| DataSeeder.Seeder.SeedDatabase | backend/src/main/java/com/backend/intellicop/config/DataSeeder.java:27-106 | an empty table receives exactly the seeded rows under consecutive ids, the next id advancing by 117; a non-empty table is left as it was |
| DataSeeder.Seeder.SaveDefaults | backend/src/main/java/com/backend/intellicop/config/DataSeeder.java:31-64 | an empty table receives the five defaults |
| DataSeeder.Seeder.SaveAdmins | backend/src/main/java/com/backend/intellicop/config/DataSeeder.java:67-74 | the table grows from the five defaults to the first 14 seeded rows |
| DataSeeder.Seeder.SaveOfficers | backend/src/main/java/com/backend/intellicop/config/DataSeeder.java:77-89 | the table grows from 14 rows to all 117 seeded rows |

## Left out

- Rendering, styling, animation, dialogs' markup, toasts and the alert and success timeouts: presentation only.
- The admin dashboard's 10-second refresh interval: a timer; each refresh is one `FetchData` step.
- Async interleaving: each handler is one atomic step, and React effect re-runs are modelled as explicit calls.
- Network, image-host upload, BCrypt, `PasswordEncoder`, `btoa`, FileReader previews and JSON stringify/parse: foreign code, taken as outcomes or function parameters.
- Unicode behaviour of `toLowerCase`, `toUpperCase` and `localeCompare`: case folding and order are ASCII.
- `Number(value)` for the age: an abstract parse into a finite number or NaN; floating point is not modelled.
- Java `long` and JavaScript number ranges: integers are unbounded, and no count here comes near either limit.
- Backend list order: the repositories' `findAll` and derived queries return collections whose order JPA does not fix, so backend queries are modelled as sets of records.
- `save` on an entity whose id is not stored yet: the model writes the record under a new key (the table's next key), as `SaveKey` says; whether the JPA provider instead inserts under a generated id or rejects the detached entity depends on its version, and that difference is not modelled.
- Console and server log lines, including the seeder's summary text: output only.
- The PDF health report's layout, the JDBC metadata calls and `System.currentTimeMillis`: the report's data is modelled, the latency and time are inputs.
- The security configuration's path matching: framework behaviour.
- ManageRole's user list: hard-coded in the page; the model takes it as the constructor's argument.
- Session.RestoreStep: a stored value that `JSON.parse` rejects throws inside the mount effect; the model keeps the effect's outcome (loading stays on, nothing else changes) but not the uncaught error itself.
- Session.RestoreStep: the `parse` parameter answers a user or a rejection, so it cannot express a stored value that parses to something other than a user (`"null"` gives a null user, `"{}"` an object with no fields); only login writes the key, and it writes a user.
- DataSeeder.Seeder.SeedDatabase: the table must be valid (every row has an id below the next one); JPA guarantees this, and the seeder does not check it.

## Findings

| source | as written | input that shows it | evidently intended | confidence | as-written member | corrected member |
|---|---|---|---|---|---|---|
| Frontend/src/services/userService.js:142 | after removing `authToken` and `username`, `logout` evaluates a stray identifier `s`, which throws a ReferenceError | any call of `authService.logout()` | logout removes both keys and returns normally | not executed | UserService.AuthStore.LogoutAsWritten | UserService.AuthStore.Logout |
| backend/src/main/java/com/backend/intellicop/controller/CriminalController.java:45-52 | the update sets the path id on the body and saves it through `addCriminal`, which keeps the body's photo when no file comes; the client's update (Frontend/src/pages/CriminalRecords.tsx:213-228) sends no photo field, so the stored photo URL is overwritten with null | edit an existing record's name in the detail modal without choosing a new photo | an edit without a new photo keeps the stored photo, as the client's list assumes (Frontend/src/pages/CriminalRecords.tsx:238-240) | not executed | CriminalController.PhotoLostOnEdit | CriminalController.UpdateKeepingPhotoKeepsRow |
