# GlowGuide client logic in Dafny

GlowGuide is a skincare platform whose web client (React, TypeScript) has three kinds of signed-in user: people tracking their skin, dermatologists, and administrators. Most of the client is markup and one-line HTTP wrappers. This project models the logic around them:

- the session: token and user in `localStorage`, the axios interceptors, the user serialisation, the app context and the route guard;
- the service modules that build request bodies (skin profile, progress log);
- every page and component that keeps its own state: notifications, chat, the skin-assessment wizard, the progress tracker, routines, the product explorer, the admin product pages, the dashboards, appointments, patients, profile and pending approvals.

Each `useState` group is a `class` whose fields are the state variables. Each event handler is one method with a `modifies` clause: it runs the handler to completion, and the awaited service call becomes a parameter holding its outcome (`Result<T>` or `ok: bool`). The calls a handler makes are recorded in sequence fields (`calls`, `created`, `updates`, ...). A refetch that the handler starts but does not await is counted (`fetches`). Filters, sorts, labels, payload builders and default values are functions, and the properties the pages rely on are lemmas about them, for example:

- searches keep exactly the matching records, in order;
- sorts are stable permutations and ordered;
- the unread counter of the notification centre stays exact or drifts;
- `parseInt(String(n)) == n`, and the serialised user parses back.

Shared pieces:

- `Common`: `filter`, `map`-with-replace, `slice` and the checkbox updates;
- `Text`: case mapping, `includes`, `split`/`join`, `replace`, `String(n)`, `parseInt`;
- `Sorting`: `Array.prototype.sort` as a stable insertion sort;
- `Search`: the case-insensitive list searches;
- `HookForm`: the part of react-hook-form the pages use (`reset(v)` replaces the defaults, `reset()` returns to them);
- `Storage`: `localStorage` and `window.location`, as `Storage.Browser`.

Some behaviours of the code are easy to miss:

- The 401 teardown applies to every request, the login and register calls included: the interceptor never looks at the URL (`ApiClient.AuthRouteNotExempt`). A login, registration or account deletion refused with 401 therefore removes the stored session and goes to /login (`AuthService.RejectedAuthCall`).
- The app context does not fetch the skin profile when it mounts. It only copies the token and user from storage, and only when both are stored.
- `getCurrentUser` treats a stored empty string like a missing user, because `""` is falsy.
- The user chat page looks the new chat up in the list captured before the refetch, so a freshly created chat is never selected (`UserChat.NewChatNeverSelected`).
- The notification centre decrements its counter without checking that the entry was unread, so marking an id with no unread entry (a read entry, again) leaves the counter one below the true count (`NotificationCenter.MarkReadDrift`).
- The routines page keeps an edited routine's values in the form after saving, because `reset(values)` replaced the defaults (`Routines.SavedEditStaysInForm`). The admin product dialog loads an edit without its price.
- On the product management page, closing the dialog keeps the product being edited.
- The user chat page fills its dermatologist list from `getPatients`.

## Model

| member | source | states |
|---|---|---|
| ApiClient.WithAuth | src/api/apiClient.ts:14-18 | with a truthy stored token the headers gain `Authorization: Bearer <token>` and nothing else; without one they are unchanged |
| ApiClient.OnRequest | src/api/apiClient.ts:13-18 | the request interceptor sets the config's headers to `WithAuth` of the stored token, leaving URL and retry flag alone |
| ApiClient.OnResponse | src/api/apiClient.ts:27-29 | a successful response is returned unchanged and storage and location are untouched |
| ApiClient.ErrorStep | src/api/apiClient.ts:34-41 | a 401 with the retry flag unset sets the flag, removes exactly "token" and "userData" and goes to /login; every other error leaves the state as it was |
| ApiClient.OnError | src/api/apiClient.ts:30-44 | the error interceptor performs `ErrorStep` on storage, location and the request's flag, and always rejects the same error |
| ApiClient.AfterReject | src/api/apiClient.ts:34-41 | for a fresh request (retry flag unset) a 401 yields storage without "token" and "userData" and the location /login; any other error yields storage and location unchanged |
| ApiClient.Reject | src/api/apiClient.ts:30-44 | a call refused with error `e` runs the error interceptor on a fresh request: the browser ends in `AfterReject` of its old storage and location, and `e` is rejected unchanged |
| ApiClient.AtMostOneTeardown | src/api/apiClient.ts:34-35 | however many errors one request meets, the teardown runs at most once, and never once the flag is set |
| ApiClient.AuthRouteNotExempt | src/api/apiClient.ts:34 | a 401 from /api/auth/login triggers the same teardown: the URL is never inspected |
| ApiClient.OtherErrorsChangeNothing | src/api/apiClient.ts:34 | an error with a status other than 401, or with no response, changes neither storage nor location |
| AuthService.StoreSession | src/api/services/authService.ts:23-26 | on `success` the token goes under "token" and the serialised user under "userData"; otherwise storage is unchanged |
| AuthService.Login | src/api/services/authService.ts:18-28 | `login` returns the call's outcome unchanged; a resolved call stores the session as `StoreSession` says, whatever its success flag, and keeps the location; a rejected call goes through the error interceptor: a 401 removes "token" and "userData" and goes to /login, any other refusal changes neither storage nor location |
| AuthService.Register | src/api/services/authService.ts:30-40 | `register` has exactly the result and the storage and location effects of `login`, on both outcomes |
| AuthService.RejectedAuthCall | src/api/apiClient.ts:34-41 | after a refused call a 401 leaves no current user, no token and the location /login, and any other status leaves the current user and the location as they were |
| AuthService.Logout | src/api/services/authService.ts:42-45 | `logout` removes exactly "token" and "userData" and leaves every other key alone |
| AuthService.GetCurrentUser | src/api/services/authService.ts:47-50 | null exactly when "userData" is absent or empty; otherwise the parsed user, or a parse error when the text is not a user |
| AuthService.CurrentUserAfterLogin | src/api/services/authService.ts:25-50 | after a successful login `getCurrentUser` returns that login's user (stringify then parse is the identity) |
| AuthService.CurrentUserAfterLogout | src/api/services/authService.ts:42-50 | after `logout` `getCurrentUser` returns null |
| AuthService.LoginRequestUnauthorized | src/api/services/authService.ts:23-26 | after a login the next request carries `Bearer <token>`, and a first 401 on it clears both keys, lands on /login and leaves no current user |
| ProtectedRoute.DashboardOf | src/middleware/ProtectedRoute.tsx:20-26 | a role has a dashboard exactly when it is USER, DERMATOLOGISTS or ADMIN |
| ProtectedRoute.DashboardsDistinct | src/middleware/ProtectedRoute.tsx:20-26 | two roles with the same dashboard are the same role |
| ProtectedRoute.Guard | src/middleware/ProtectedRoute.tsx:12-29 | not authenticated redirects to /login whatever the allow-list; an authenticated user is redirected only when their role is known and not allowed, and then to their role's dashboard |
| ProtectedRoute.AllowedRoleRenders | src/middleware/ProtectedRoute.tsx:18-29 | an authenticated user whose role is allowed gets the element |
| ProtectedRoute.RedirectIgnoresAllowList | src/middleware/ProtectedRoute.tsx:20-26 | for a disallowed role the outcome does not depend on which allow-list refused it |
| ProtectedRoute.UnknownRoleRenders | src/middleware/ProtectedRoute.tsx:18-29 | a role outside the three known values falls through, and the element is rendered |
| ProtectedRoute.CrossRoleRedirects | src/App.tsx:38 | under the routing table's single-role lists each role is sent to its own dashboard by the other two roles' routes (also src/App.tsx:103, src/App.tsx:141) |
| Storage.GetItem | src/api/services/authService.ts:48 | `getItem` is the stored value, or null exactly when the key is absent |
| Storage.Cleared | src/api/services/authService.ts:43-44 | removing the two session keys leaves every other key and its value as it was |
| Storage.ClearedIdempotent | src/api/services/authService.ts:42-45 | clearing twice is clearing once, so `logout` is idempotent |
| AppContext.AuthenticatedNeedsBoth | src/context/AppContext.tsx:34 | `isAuthenticated` implies a non-empty token and a user; setting only one of the two never makes it true |
| AppContext.Authenticated | src/context/AppContext.tsx:34 | `!!token && !!userData` (see `AppContext.AuthenticatedNeedsBoth`) |
| AppContext.Session.IsAuthenticated | src/context/AppContext.tsx:34 | the context's `isAuthenticated`, `Authenticated` of its token and user (see `AppContext.Session.Logout`) (also src/context/AppContext.tsx:64) |
| AppContext.Initial | src/context/AppContext.tsx:25-32 | the first render holds the stored "token", `getCurrentUser()`, `isLoading` false and no skin profile |
| AppContext.MountAfterInitialIsNoop | src/context/AppContext.tsx:44-52 | the mount effect overwrites token and user only from the same storage the first render read, so right after it the state is unchanged; nothing is fetched |
| AppContext.TokenWithoutUserIsLoggedOut | src/context/AppContext.tsx:34-48 | a stored token without a stored user is not a session, before or after the mount effect |
| AppContext.LoadAfterLogin | src/context/AppContext.tsx:26-34 | after a successful login with a non-empty token a fresh load is authenticated as that login's user |
| AppContext.Session.Logout | src/context/AppContext.tsx:36-41 | `logout` clears both storage keys, sets token, user and skin profile to null, and afterwards the session is not authenticated |
| AppContext.Session.MountEffect | src/context/AppContext.tsx:44-52 | the state becomes `Mounted`: token and parsed user replace the state only when both keys hold non-empty text |
| AppContext.Session.SetSkinProfile | src/context/AppContext.tsx:32 | only the skin profile changes |
| AppContext.Session.SetUserData | src/context/AppContext.tsx:29-31 | only the user changes |
| AppContext.Session.SetIsLoading | src/context/AppContext.tsx:25 | only the loading flag changes |
| UserCodec.ReadField | src/api/services/authService.ts:49 | reading a field consumes at least one character of the text |
| UserCodec.ReadEscaped | src/api/services/authService.ts:25-49 | an escaped field followed by its terminator reads back as the field, with the rest of the text untouched |
| UserCodec.DecodeEncode | src/api/services/authService.ts:25-49 | decoding an encoded list of fields gives the list back |
| UserCodec.Encode | src/api/services/authService.ts:25 | the serialisation of a user's field list, one escaped field and a terminator each (see `UserCodec.DecodeEncode`) |
| UserCodec.Decode | src/api/services/authService.ts:49 | reading the field list back, `None` on malformed text (see `UserCodec.DecodeEncode`) |
| UserCodec.Parse | src/api/services/authService.ts:49 | `JSON.parse` as a user: exactly six fields with well-formed optional phone and image, else `None` (see `UserCodec.ParseStringify`) |
| UserCodec.Stringify | src/api/services/authService.ts:25 | the serialised user is never the empty (falsy) string |
| UserCodec.ReadOptField | src/api/services/authService.ts:25-49 | an optional field (phone, image) reads back as the same present or absent value |
| UserCodec.ParseStringify | src/api/services/authService.ts:25-49 | parsing a serialised user gives the same user back |
| Validator.LoginAcceptsAnyStrings | src/lib/validator.ts:6-9 | the login schema accepts any pair of strings |
| Validator.LoginValid | src/lib/validator.ts:6-9 | the login schema: both fields present as strings and nothing more (see `Validator.LoginAcceptsAnyStrings`) |
| Validator.PasswordValid | src/lib/validator.ts:15-31 | the password rule: 3 to 20 characters with a capital, a small letter, a digit and one of `!@#$%^&*` (see `Validator.AcceptedPasswordLength`, `Validator.PasswordExamples`) |
| Validator.RoleValid | src/lib/validator.ts:33-35 | the role is USER or DERMATOLOGISTS (see `Validator.NoAdminRegistration`) |
| Validator.RegisterValid | src/lib/validator.ts:11-37 | the register schema: an e-mail, a valid password, a name and a phone of at least 3 characters, and an offered role (see `Validator.NoAdminRegistration`) |
| Validator.AcceptedPasswordLength | src/lib/validator.ts:15-31 | an accepted register password has between 4 and 20 characters: the four classes are disjoint, and 20 is allowed despite the message |
| Validator.ClassesDisjoint | src/lib/validator.ts:22-29 | no character belongs to two of the four required classes (capital, small letter, digit, special) |
| Validator.NoAdminRegistration | src/lib/validator.ts:33-35 | a registration with role ADMIN is refused |
| Validator.PasswordExamples | src/lib/validator.ts:19-31 | "Ab1!" is accepted and "Abc1", which has no special character, is refused |
| NotificationCenter.CountUnread | src/components/notification/NotificationCenter.tsx:32 | the unread count never exceeds the list's length |
| NotificationCenter.UnreadExists | src/components/notification/NotificationCenter.tsx:102 | the true unread count is positive exactly when some entry is unread |
| NotificationCenter.Center.ShowsBadge | src/components/notification/NotificationCenter.tsx:102-117 | the badge and the "Mark all as read" button are shown iff the counter is positive; while the counter is consistent, iff some entry is unread (see `NotificationCenter.UnreadExists`) |
| NotificationCenter.MarkRead | src/components/notification/NotificationCenter.tsx:42-44 | entries with the id become read; every other entry, the length and the order stay |
| NotificationCenter.MarkAllRead | src/components/notification/NotificationCenter.tsx:55 | every entry becomes read, pointwise, in place |
| NotificationCenter.RemoveId | src/components/notification/NotificationCenter.tsx:66 | exactly the entries with the id are gone; every other entry keeps all its copies, in order |
| NotificationCenter.Find | src/components/notification/NotificationCenter.tsx:67 | `find` yields the first entry with the id, and nothing exactly when no entry has it |
| NotificationCenter.MarkReadCount | src/components/notification/NotificationCenter.tsx:42-44 | marking an id read lowers the true unread count by the number of its unread entries |
| NotificationCenter.RemoveIdCount | src/components/notification/NotificationCenter.tsx:66 | deleting an id lowers the true unread count by the number of its unread entries |
| NotificationCenter.MarkAllReadCount | src/components/notification/NotificationCenter.tsx:55-56 | after mark-all nothing is unread, so the counter's 0 is exact |
| NotificationCenter.MarkReadKeepsCount | src/components/notification/NotificationCenter.tsx:45 | the unconditional decrement keeps the counter exact iff the id had exactly one unread entry |
| NotificationCenter.MarkReadDrift | src/components/notification/NotificationCenter.tsx:45 | marking an id with no unread entry (for example a read entry, again) leaves the true count unchanged, so the decremented counter falls one below it |
| NotificationCenter.DeleteAbsentDecrements | src/components/notification/NotificationCenter.tsx:66-69 | deleting an id that is not listed leaves the list but still decrements the counter |
| NotificationCenter.UniqueUnreadWithId | src/components/notification/NotificationCenter.tsx:67 | with a unique id, its unread entries are the first match when that match is unread |
| NotificationCenter.DeleteKeepsCount | src/components/notification/NotificationCenter.tsx:66-69 | with unique ids the counter stays exact across a delete iff the id was listed |
| NotificationCenter.Center.constructor | src/components/notification/NotificationCenter.tsx:18-20 | empty list, counter 0, sheet closed, and consistent |
| NotificationCenter.Center.Fetch | src/components/notification/NotificationCenter.tsx:28-37 | after a fetch the list is the server's and the counter equals its unread count; a failure changes nothing |
| NotificationCenter.Center.MarkAsRead | src/components/notification/NotificationCenter.tsx:39-50 | on success the list is `MarkRead` and the counter drops by one whatever the list held; on failure nothing changes |
| NotificationCenter.Center.MarkAllAsRead | src/components/notification/NotificationCenter.tsx:52-61 | on success every entry is read and the counter is 0, restoring consistency from any state |
| NotificationCenter.Center.Delete | src/components/notification/NotificationCenter.tsx:63-74 | on success the id's entries are removed and the counter drops unless the first match, found in the list from before, was read |
| NotificationCenter.Center.SetOpen | src/components/notification/NotificationCenter.tsx:93-99 | only the open flag changes |
| ChatWindow.Received | src/components/chat/ChatWindow.tsx:40-45 | a received message is appended at the end iff its chat id is the open chat's; otherwise the list is unchanged; the old list is always a prefix |
| ChatWindow.Optimistic | src/components/chat/ChatWindow.tsx:88-100 | the optimistic entry carries the input as content, the chat's id, the user's id as sender, read = false, and the user as embedded sender |
| ChatWindow.AfterSend | src/components/chat/ChatWindow.tsx:87-103 | a send appends exactly one optimistic entry with a user and nothing without one; the old list is a prefix |
| ChatWindow.EchoDuplicates | src/components/chat/ChatWindow.tsx:40-45 | the optimistic entry is never reconciled: if the socket echoes the sent message back, its text is listed twice more (also src/components/chat/ChatWindow.tsx:102) |
| ChatWindow.Window.constructor | src/components/chat/ChatWindow.tsx:23-25 | the window starts with no messages, an empty input, not loading, nothing emitted |
| ChatWindow.Window.FetchMessages | src/components/chat/ChatWindow.tsx:55-67 | the history replaces the whole list; a failure keeps it; loading ends either way |
| ChatWindow.Window.Receive | src/components/chat/ChatWindow.tsx:40-45 | the list becomes `Received` of the old list and the message; input and socket unchanged |
| ChatWindow.Window.SetInput | src/components/chat/ChatWindow.tsx:24 | only the input changes |
| ChatWindow.Window.Send | src/components/chat/ChatWindow.tsx:73-106 | a blank input emits nothing and changes nothing; otherwise `{chatId, content}` with the untrimmed text is emitted, the list becomes `AfterSend` and the input is cleared |
| SkinAssessment.Defaults | src/pages/user/SkinAssessment.tsx:45-50 | without a profile the form starts empty; with one, skin type is the first stored type (when there is a non-empty one), concerns are the stored names in order, and allergies and goals are the stored texts, with "" for a missing one |
| SkinAssessment.Segments | src/pages/user/SkinAssessment.tsx:162-168 | the progress bar has three segments and segment i (0-based) is filled iff i + 1 <= step |
| SkinAssessment.SegmentsFilled | src/pages/user/SkinAssessment.tsx:162-168 | at step k exactly k segments are filled, and they are the first k |
| SkinAssessment.Wizard.constructor | src/pages/user/SkinAssessment.tsx:39-51 | the wizard starts at step 1 of 3 with the profile's defaults, nothing sent, no navigation |
| SkinAssessment.Wizard.Submit | src/pages/user/SkinAssessment.tsx:54-79 | an update is sent when a profile is held and a create otherwise; success stores the returned profile and goes to /user/dashboard; failure changes neither; loading ends either way |
| SkinAssessment.Wizard.NextStep | src/pages/user/SkinAssessment.tsx:82-100 | failing validation keeps the step; passing it below step 3 advances by exactly one; at step 3 with a valid form exactly one request is sent, an update when a profile is held and a create otherwise, a success stores the returned profile and goes to the dashboard, a failure keeps profile and navigation, and loading ends; the step stays within 1 to 3, and without a submission nothing is sent and navigation is unchanged |
| SkinAssessment.Wizard.SelectSkinType | src/pages/user/SkinAssessment.tsx:198-199 | the chosen radio value becomes the skin type; nothing else changes |
| SkinAssessment.Wizard.CheckConcern | src/pages/user/SkinAssessment.tsx:256-275 | checking appends the concern, unchecking drops every copy of it (`CheckboxUpdate`); step, requests and navigation stay |
| SkinAssessment.Wizard.SetAllergies | src/pages/user/SkinAssessment.tsx:306-314 | the typed text becomes the allergies; nothing else changes |
| SkinAssessment.Wizard.SetGoals | src/pages/user/SkinAssessment.tsx:324-335 | the typed text becomes the goals; nothing else changes |
| SkinAssessment.Wizard.PreviousStep | src/pages/user/SkinAssessment.tsx:103-105 | offered only after step 1, it goes back exactly one step and keeps the step within 1 to 3 (also src/pages/user/SkinAssessment.tsx:350-357) |
| SkinService.BuildPayload | src/api/services/skinService.ts:12-19 | skinType is the one-element list `[{type}]`, concerns map element-wise to `{concern}` keeping length and order, a falsy allergies becomes "", goals pass through |
| SkinService.ConcernsRecoverable | src/api/services/skinService.ts:14-16 | the concern names can be read back from the payload, in order |
| SkinService.CreateUpdateDifferOnlyInVerb | src/api/services/skinService.ts:12-36 | create and update send the same body to the same path and differ only in POST and PUT |
| ProgressService.BuildLogForm | src/api/services/progressService.ts:24-33 | the keys are image (iff an image is given), notes (iff the notes are non-empty), concerns, rating, in that order; rating is its decimal string and the image entry carries the file |
| ProgressService.RatingRoundTrip | src/api/services/progressService.ts:33 | the rating's decimal string parses back to the rating |
| ProgressService.CheckLogResponse | src/api/services/progressService.ts:45-49 | a log is returned iff `success` is set and a log came back; otherwise the error carries the server's message, or the default when it is empty |
| ProgressService.CreateLog | src/api/services/progressService.ts:21-50 | a rejected POST propagates; otherwise the result is `CheckLogResponse` of the body; the body sent is `BuildLogForm`'s: the image (if any), the notes (if truthy), then the concerns and the rating entries, in that order |
| ProgressTracker.EmptyMonth | src/pages/user/ProgressTracker.tsx:166-179 | a month no log falls in has no logs |
| ProgressTracker.Incomplete | src/pages/user/ProgressTracker.tsx:90 | `!values.concerns` or `!values.rating`: an empty concern or a zero rating (see `ProgressTracker.Tracker.Submit`) |
| ProgressTracker.PayloadOf | src/pages/user/ProgressTracker.tsx:96-101 | the payload is the form's image, notes, concerns and rating (see `ProgressTracker.Tracker.Submit`) |
| ProgressTracker.MonthsOfPush | src/pages/user/ProgressTracker.tsx:173-177 | adding a log adds exactly its month to the months present |
| ProgressTracker.InMonthPush | src/pages/user/ProgressTracker.tsx:173-177 | adding a log appends it to its own month's logs and leaves every other month's logs unchanged |
| ProgressTracker.GroupPush | src/pages/user/ProgressTracker.tsx:173-177 | one step of the `reduce` (create the group if missing, then push) keeps the groups exactly the logs seen so far by month, in order |
| ProgressTracker.GroupByMonth | src/pages/user/ProgressTracker.tsx:166-179 | the groups' keys are exactly the logs' months, each group holds that month's logs in list order, and the month list holds each key once |
| ProgressTracker.EachLogInOneGroup | src/pages/user/ProgressTracker.tsx:166-179 | every log is in its own month's group and in no other |
| ProgressTracker.Tracker.constructor | src/pages/user/ProgressTracker.tsx:42-57 | no logs, both dialogs closed, local loading set, the form at rating 3 with empty notes and concern and no image |
| ProgressTracker.Tracker.FetchLogs | src/pages/user/ProgressTracker.tsx:68-81 | the server's logs replace the list; a failure keeps it; local loading ends either way |
| ProgressTracker.Tracker.Submit | src/pages/user/ProgressTracker.tsx:88-120 | an empty concern or a zero rating returns with no call; otherwise the payload is sent, and on success the new log is prepended, the dialog closes and the form resets to rating 3, empty notes and concern, no image; a failure keeps the list, the dialog and the form |
| ProgressTracker.Tracker.DeleteLog | src/pages/user/ProgressTracker.tsx:123-136 | on success every log with the id is removed, the rest keep their order, and the view dialog closes; on failure nothing changes; the viewed log is kept either way |
| ProgressTracker.Tracker.DialogChange | src/pages/user/ProgressTracker.tsx:201 | `onOpenChange` of the create dialog sets its flag to the requested value; the logs, the form and the view dialog are kept (also src/pages/user/ProgressTracker.tsx:326) |
| ProgressTracker.Tracker.ViewDialogChange | src/pages/user/ProgressTracker.tsx:389 | `onOpenChange` of the view dialog sets its flag to the requested value; the viewed log stays recorded |
| ProgressTracker.Tracker.ViewLog | src/pages/user/ProgressTracker.tsx:139-142 | the log is shown in the opened view dialog |
| HookForm.ResetAfterResetTo | src/pages/user/Routines.tsx:79-108 | after `reset(v)` and any typing, a plain `reset()` comes back to `v`, not to the form's first defaults |
| Routines.AfterSave | src/pages/user/Routines.tsx:90-105 | an edit replaces each routine with the edited id by the server's routine, keeping the length and the other positions; a create appends the server's routine at the end |
| Routines.SaveOfUnlistedEdit | src/pages/user/Routines.tsx:96-98 | saving an edit of a routine that is no longer listed leaves the list as it was |
| Routines.Page.constructor | src/pages/user/Routines.tsx:40-54 | no routines, dialog closed, local loading set, no edit, the form at its empty defaults, and no edit outside an open dialog |
| Routines.Page.Fetch | src/pages/user/Routines.tsx:57-70 | the server's list replaces the routines; a failure keeps them; local loading ends either way |
| Routines.Page.Edit | src/pages/user/Routines.tsx:77-84 | the routine becomes the edit, its name and type are loaded into the form with `reset`, and the dialog opens |
| Routines.Page.OpenFromEmptyState | src/pages/user/Routines.tsx:260 | the empty state's button opens the dialog and changes nothing else |
| Routines.Page.Submit | src/pages/user/Routines.tsx:87-117 | the call is an update of the edited id or a create; on success the list becomes `AfterSave`, the dialog closes, the edit is cleared and the form is `reset()`; on failure the list, the edit, the dialog and the form are unchanged |
| Routines.Page.Delete | src/pages/user/Routines.tsx:120-132 | on success every routine with the id is removed and the others keep their order; on failure the list is unchanged |
| Routines.Page.DialogChange | src/pages/user/Routines.tsx:135-144 | closing clears the edit and resets the form to empty values; opening changes neither |
| Routines.SavedEditStaysInForm | src/pages/user/Routines.tsx:79-108 | because `reset(values)` also replaces the defaults, the `reset()` after saving an edit leaves that routine's name and type in the form |
| RoutineCard.RoutineImage | src/components/routines/RoutineCard.tsx:22-32 | the picture is chosen by case-insensitive substring tests: "morning" beats "night", which beats "weekly", and a type with none of them gets the default picture |
| RoutineCard.LowerIdempotent | src/components/routines/RoutineCard.tsx:23 | lowercasing twice is lowercasing once |
| RoutineCard.ImageIgnoresCase | src/components/routines/RoutineCard.tsx:23-28 | the picture depends only on the type's lowercase form |
| RoutineCard.ImagesDistinct | src/components/routines/RoutineCard.tsx:24-30 | the four pictures are different URLs, so the picture tells the classes apart |
| RoutineCard.Click | src/components/routines/RoutineCard.tsx:34-44 | edit reports this card's routine and delete reports its id |
| Labels.MapChars | src/pages/admin/Dashboard.tsx:419 | a character map keeps the length and maps each position |
| Labels.FormatWords | src/pages/admin/Dashboard.tsx:466-470 | formatting the words keeps their number |
| Labels.Scan | src/pages/admin/Dashboard.tsx:464-471 | the one-pass reference formatting keeps the string's length |
| Labels.ScanAt | src/pages/admin/Dashboard.tsx:464-471 | at each position the reference turns "_" into a space, maps a word's first character with `first` and the others with `rest` |
| Text.JoinConsHead | src/pages/admin/Dashboard.tsx:471 | a character in front of the first word comes out in front of the joined text |
| Text.JoinConsEmpty | src/pages/admin/Dashboard.tsx:471 | an empty first word contributes only the separator |
| Labels.FormatIsScan | src/pages/admin/Dashboard.tsx:464-471 | split on "_", format each word and join with " " equals the one-pass reference (also src/pages/user/Dashboard.tsx:82-85) |
| Labels.SkinTypeLabel | src/pages/admin/Dashboard.tsx:418-419 | the skin-type label keeps the first character and lowercases the rest, keeping the length (also src/components/admin/ProductForm.tsx:192) |
| Labels.ConcernLabel | src/pages/admin/Dashboard.tsx:464-471 | the concern label is the reference with first characters kept and the rest lowercased; it has the name's length and a space exactly where the name has "_" (or a space) (also src/components/admin/ProductForm.tsx:232-238) |
| Labels.DisplayConcern | src/pages/user/Dashboard.tsx:80-86 | the dashboard text lowercases the name, then capitalises each "_"-separated word and joins with a space; it has the name's length |
| Labels.ScansAgree | src/pages/admin/Dashboard.tsx:464-471 | on names made of capitals and "_" the two per-character treatments give the same text (also src/pages/user/Dashboard.tsx:80-86) |
| Labels.LabelsAgreeOnEnumNames | src/pages/admin/Dashboard.tsx:464-471 | on enum names the admin label and the user dashboard's text coincide (also src/pages/user/Dashboard.tsx:80-86) |
| Labels.ScanWord | src/pages/admin/Dashboard.tsx:468-469 | past its first character a word without "_" is mapped by `rest` alone |
| Labels.TwoWordScan | src/pages/admin/Dashboard.tsx:464-471 | on two "_"-joined words without "_" the reference maps each first character with `first`, the other characters with `rest`, and the "_" to a space |
| Labels.TwoWordLabel | src/pages/admin/Dashboard.tsx:464-471 | a two-word enum name is labelled as each word's capital followed by its lowercased rest, joined by a space, and the dashboard gives the same text (also src/pages/user/Dashboard.tsx:80-86) |
| Labels.UnevenWord | src/pages/admin/Dashboard.tsx:444 | the word "UNEVEN" becomes "Uneven" |
| Labels.TextureWord | src/pages/admin/Dashboard.tsx:444 | the word "TEXTURE" becomes "Texture" |
| Labels.UnevenTextureLabel | src/pages/admin/Dashboard.tsx:444 | UNEVEN_TEXTURE is shown as "Uneven Texture" by both the admin label and the dashboard (also src/pages/user/Dashboard.tsx:80-86) |
| Labels.ScanSplit | src/pages/admin/Dashboard.tsx:464-471 | the reference over a word without "_" followed by more text maps the word by `rest` and continues on the rest |
| Labels.JoinLabels | src/pages/user/Dashboard.tsx:79-86 | each concern is formatted in place, keeping the number and order |
| Labels.FormatConcerns | src/pages/user/Dashboard.tsx:77-88 | a non-array gives "No concerns listed", an empty array gives "", and one concern gives its formatted text |
| Labels.FormatConcernsInOrder | src/pages/user/Dashboard.tsx:79-87 | several concerns give the first one's text, then ", ", then the rest's text, so the input order is kept |
| Search.SearchOne | src/pages/user/Appointment.tsx:115-119 | a record is kept iff its field contains the term case-insensitively, with every copy of it; the result is an order-preserving subsequence; an empty term keeps everything (also src/pages/user/Chat.tsx:88-90, src/pages/dermatologist/Chat.tsx:50-52) |
| Search.SearchBy | src/pages/dermatologist/Appointments.tsx:61-65 | a record is kept, with every copy of it, iff either field contains the term case-insensitively; order-preserving; an empty term keeps everything (also src/pages/dermatologist/Dashboard.tsx:74-78) |
| Search.ByNameOrBrand | src/components/admin/ProductsTable.tsx:26-30 | a product is kept, with every copy of it, iff its name or brand contains the term case-insensitively; the rows are an order-preserving subsequence; an empty term keeps every product (also src/pages/admin/ManageProducts.tsx:93-97) |
| ProductsTable.RowClick | src/components/admin/ProductsTable.tsx:44-61 | the edit button of a row passes that row's product and the delete button its id; either names a listed product that matches the term |
| ManageProducts.Page.constructor | src/pages/admin/ManageProducts.tsx:23-28 | no products, empty search, dialog closed, no edit |
| ManageProducts.Page.Filtered | src/pages/admin/ManageProducts.tsx:93-97 | the cards shown are the products whose name or brand contains the search term, in order; an empty term shows all |
| ManageProducts.Page.Fetch | src/pages/admin/ManageProducts.tsx:34-45 | the server's products replace the list; a failure keeps it |
| ManageProducts.Page.SetSearch | src/pages/admin/ManageProducts.tsx:143 | only the search term changes |
| ManageProducts.Page.OpenCreate | src/pages/admin/ManageProducts.tsx:110-113 | the "Add Product" trigger clears the edit and opens the dialog |
| ManageProducts.Page.Edit | src/pages/admin/ManageProducts.tsx:157-160 | a card's edit action sets the edit and opens the dialog |
| ManageProducts.Page.DialogChange | src/pages/admin/ManageProducts.tsx:110 | only the dialog flag changes; closing keeps the edit |
| ManageProducts.Page.Submit | src/pages/admin/ManageProducts.tsx:47-76 | the call is an update of the edited id or a create; on success the product with the edited id is replaced by the server's (others unchanged) or the new one is appended, and the dialog closes and the edit clears; a failure leaves the list, the flag and the edit unchanged |
| ManageProducts.Page.Delete | src/pages/admin/ManageProducts.tsx:78-91 | on success every product with the id is removed, the others keep their order; a failure changes nothing |
| ManageProducts.DeletedNeverShown | src/pages/admin/ManageProducts.tsx:83-97 | a deleted product appears under no search term |
| ProductForm.EditingValues | src/components/admin/ProductForm.tsx:34-45 | editing a product starts from its name, brand, description, ingredients, allergens, score and price, with skin types and concerns reduced to their names in the same order |
| ProductForm.Defaults | src/components/admin/ProductForm.tsx:34-55 | with no product being edited the form starts empty, with score 3 and no skin types or concerns; with one it is exactly `EditingValues` of that product, price included; a new product has allergens "" and no price |
| ProductForm.ToggleSkinType | src/components/admin/ProductForm.tsx:183-189 | checking appends the skin type; unchecking removes every copy and keeps the others in order; no other entry and no other field changes |
| ProductForm.ToggleConcern | src/components/admin/ProductForm.tsx:223-229 | the concern checkbox behaves the same way on the concerns |
| ProductForm.SelectScoreOption | src/components/admin/ProductForm.tsx:134-144 | choosing any offered score stores exactly that number, which lies between 1 and 5 |
| ProductForm.SelectScore | src/components/admin/ProductForm.tsx:134 | `parseInt` of the chosen value becomes the score; a value that is not a number leaves the form (see `ProductForm.SelectScoreOption`) |
| ProductForm.ButtonSubmit | src/components/admin/ProductForm.tsx:67 | the submit button passes the values on, without an image, exactly when the schema accepts them (also src/components/admin/ProductForm.tsx:255) |
| ProductForm.ImageChange | src/components/admin/ProductForm.tsx:58-63 | picking a file submits the current values with the first file at once; an empty pick submits nothing (also src/components/admin/ProductForm.tsx:251) |
| ProductForm.ImageChangeSkipsSchema | src/components/admin/ProductForm.tsx:58-63 | values the schema refuses are still submitted through the image picker |
| AdminDashboard.EditValues | src/pages/admin/Dashboard.tsx:164-173 | the edit form gets the product's fields with skin types and concerns mapped in order, as the product form's own editing defaults, except that the price is left out |
| AdminDashboard.Page.constructor | src/pages/admin/Dashboard.tsx:65-87 | no stats, users or products, empty search, dialog closed, no edit or image, the form at the new-product defaults |
| AdminDashboard.Page.Cards | src/pages/admin/Dashboard.tsx:207-232 | each stat card shows the server's number, or 0 when the stats or that field are missing |
| AdminDashboard.Page.ProductRows | src/pages/admin/Dashboard.tsx:531-540 | a product row is shown iff its name or brand contains the search term case-insensitively, in the list's order |
| AdminDashboard.Page.UserRows | src/pages/admin/Dashboard.tsx:600-609 | a user row is shown iff the name or email contains the search term case-insensitively, in the list's order |
| AdminDashboard.Page.SetSearch | src/pages/admin/Dashboard.tsx:68 | either search box sets the one term, and both tables are then filtered by it (also src/pages/admin/Dashboard.tsx:515-516, src/pages/admin/Dashboard.tsx:584-585) |
| AdminDashboard.Page.Fetch | src/pages/admin/Dashboard.tsx:93-111 | the stats, users and products are replaced together when all three calls resolve, and all are kept otherwise |
| AdminDashboard.Page.ImageChange | src/pages/admin/Dashboard.tsx:113-117 | a picked file becomes the selected image; an empty pick keeps the previous image |
| AdminDashboard.Page.OpenCreate | src/pages/admin/Dashboard.tsx:252-257 | "Add Product" forgets the edit and the image, resets the form to its defaults and opens the dialog |
| AdminDashboard.Page.Edit | src/pages/admin/Dashboard.tsx:162-175 | the product becomes the edit, the form is reset to its values and the dialog opens |
| AdminDashboard.Page.DialogChange | src/pages/admin/Dashboard.tsx:247-250 | only the dialog flag changes |
| AdminDashboard.Page.CheckSkinType | src/pages/admin/Dashboard.tsx:408-415 | the form's skin types change as the checkbox update says, and nothing else |
| AdminDashboard.Page.CheckConcern | src/pages/admin/Dashboard.tsx:454-461 | the form's concerns change the same way |
| AdminDashboard.Page.Submit | src/pages/admin/Dashboard.tsx:119-146 | the values go out with the selected image, as an update of the edited id or a create; success closes the dialog, resets the form, forgets the image and the edit, and refetches; failure keeps all of them; the lists change only on a refetch |
| AdminDashboard.Page.RemoveProduct | src/pages/admin/Dashboard.tsx:148-160 | the delete call is made; only success refetches; the table is never edited locally |
| AdminDashboard.Page.RemoveUser | src/pages/admin/Dashboard.tsx:177-189 | the same for a user |
| DermDashboard.RecentPatients | src/pages/dermatologist/Dashboard.tsx:74-78 | the table shows exactly the first five patients, or all of them when fewer, whose name or email contains the term, in list order (also src/pages/dermatologist/Dashboard.tsx:176) |
| DermDashboard.IconOf | src/pages/dermatologist/Dashboard.tsx:80-91 | each of the three known activity types has its own icon, and any other type gets the clock |
| DermDashboard.Page.constructor | src/pages/dermatologist/Dashboard.tsx:41-45 | no stats, patients or activities, empty search, local loading set |
| DermDashboard.Page.Cards | src/pages/dermatologist/Dashboard.tsx:123-135 | each stat card shows the server's number, or 0 when the stats or that field are missing |
| DermDashboard.Page.Feed | src/pages/dermatologist/Dashboard.tsx:230-256 | an empty activity list shows the empty state; otherwise there is one entry per activity, in order, with its type's icon |
| DermDashboard.Page.Fetch | src/pages/dermatologist/Dashboard.tsx:51-72 | the stats, patients and activities are replaced together when all three calls resolve, and kept otherwise; local loading ends either way |
| ProductExplorer.BuildParams | src/pages/user/ProductExplorer.tsx:60-71 | the query carries the skin type exactly when one is selected and the concerns exactly when at least one is selected, each with the selected value |
| ProductExplorer.Filtered | src/pages/user/ProductExplorer.tsx:87-104 | a product is shown iff the term is empty or found in its name, brand or description, and the floor is 0 or at most its score; the catalogue order is kept |
| ProductExplorer.NoFilterShowsAll | src/pages/user/ProductExplorer.tsx:90-100 | with no term and no floor every product is shown, in order |
| ProductExplorer.SortOrderTotal | src/pages/user/ProductExplorer.tsx:107-115 | every comparator the sort menu can pick orders all products consistently, so the sort result is well defined |
| ProductExplorer.SearchStageFilters | src/pages/user/ProductExplorer.tsx:90-97 | skipping the search stage for an empty term gives the same list as filtering with it |
| ProductExplorer.FloorStageFilters | src/pages/user/ProductExplorer.tsx:100-104 | skipping the floor stage for a floor of 0 or less gives the same list as filtering with it |
| ProductExplorer.StagesAreFiltered | src/pages/user/ProductExplorer.tsx:87-104 | the search stage followed by the sustainability stage equals the single reference filter |
| ProductExplorer.FilterStages | src/pages/user/ProductExplorer.tsx:87-104 | the effect's two guarded filter stages compute the reference filter |
| ProductExplorer.FilterAndSort | src/pages/user/ProductExplorer.tsx:86-118 | the result holds exactly the shown products, as a permutation of the filtered list; "price-low", "price-high" and "sustainability" give the stable sort by that key, ordered; any other choice keeps the catalogue order |
| ProductExplorer.ToggleConcern | src/pages/user/ProductExplorer.tsx:121-127 | a concern chip flips that concern's membership and no other; an unselected concern is appended, and toggling it again restores the selection |
| ProductExplorer.Page.constructor | src/pages/user/ProductExplorer.tsx:42-49 | no products, empty search, no skin type, concerns or floor, sort "relevance", no local loading |
| ProductExplorer.Page.Fetch | src/pages/user/ProductExplorer.tsx:55-83 | a query is recorded whose skin type is present exactly when one is selected and then equals it, and whose concerns are present exactly when some are selected and then equal them; on success both lists become the server's products; on failure both are kept; local loading ends either way |
| ProductExplorer.Page.Refilter | src/pages/user/ProductExplorer.tsx:86-118 | the displayed list becomes exactly the products that pass the search and the floor, stable-sorted by the chosen order when there is one and in their fetched order otherwise; nothing else changes |
| ProductExplorer.Page.ToggleConcernSelection | src/pages/user/ProductExplorer.tsx:121-127 | only the selected concerns change, by the chip toggle |
| ProductExplorer.Page.ClearAll | src/pages/user/ProductExplorer.tsx:174-211 | "Clear All" empties the skin type, the concerns and the floor, which hides the active-filter bar |
| Patients.FilteredAndSorted | src/pages/dermatologist/Patients.tsx:66-90 | a patient is listed iff the name or email contains the term and the skin type is "ALL" or in the patient's profile; the list is a permutation of the kept patients and its length is the count in the header (also src/pages/dermatologist/Patients.tsx:116) |
| Patients.SortedByColumn | src/pages/dermatologist/Patients.tsx:76-86 | "name" and "email" order the list by the collation, "date" by creation time, newest first |
| Patients.NewestFirst | src/pages/dermatologist/Patients.tsx:82-85 | under "date", no patient is created later than one listed before it |
| Patients.UnknownSortKeepsOrder | src/pages/dermatologist/Patients.tsx:87-88 | any other sort keeps the kept patients in their fetched order |
| Patients.NoProfileOnlyUnderAll | src/pages/dermatologist/Patients.tsx:71-74 | a patient without a skin profile is listed only when the filter is "ALL" |
| Patients.ConcernsColumn | src/pages/dermatologist/Patients.tsx:224-238 | the concerns cell says "Not assessed" iff the profile or its list is missing; otherwise it shows the first two concerns with their first "_" made a space, and "+n more" exactly when there are more than two |
| Patients.ConcernsColumnCounts | src/pages/dermatologist/Patients.tsx:224-238 | the lines shown plus the number in "+n more" add up to the number of concerns |
| Patients.SkinTypesColumn | src/pages/dermatologist/Patients.tsx:212-219 | the skin-type cell says "Not assessed" iff the profile or its list is missing, and otherwise lists the type names in order |
| Profile.RoleLabel | src/pages/Profile.tsx:111-138 | ADMIN is shown as "Administrator", DERMATOLOGISTS as "Dermatologist", USER as "User", and any other role as it is stored |
| Profile.RoleLabelRenames | src/pages/Profile.tsx:111-122 | a role is shown under its stored name iff it is not one of the three known roles |
| Profile.Defaults | src/pages/Profile.tsx:46-59 | the form starts from the user's name, email and phone, with "" for a missing user or phone |
| Profile.BuildProfileForm | src/pages/Profile.tsx:67-82 | the form data is name, email and phone, then both passwords only when both are filled, then the image when one is picked, in that order and with those values |
| Profile.OnePasswordSendsNeither | src/pages/Profile.tsx:72-75 | filling only one of the two password fields sends neither of them |
| Profile.ChangesPassword | src/pages/Profile.tsx:72-75 | both password fields are non-empty (see `Profile.BuildProfileForm`, `Profile.OnePasswordSendsNeither`) |
| Profile.Page.constructor | src/pages/Profile.tsx:40-51 | the form starts from the session's user; the delete dialog is closed with no password; nothing has been sent |
| Profile.Page.UserDataChanged | src/pages/Profile.tsx:53-61 | a present user reloads the form, values and defaults; a missing one leaves it |
| Profile.Page.Submit | src/pages/Profile.tsx:63-93 | one form is sent: name, email and phone first, then the current and new passwords when both are typed, then the image when one is chosen, each with its value; on success the server's user replaces the session's; on failure the session is unchanged; the page's form and dialog are untouched |
| Profile.Page.DeleteDialogChange | src/pages/Profile.tsx:272 | `onOpenChange` of the delete dialog sets its flag to the requested value; the typed password, the form and what was sent are kept |
| Profile.Page.SetDeletePassword | src/pages/Profile.tsx:289-295 | the typed password is stored, and the confirm button is enabled iff it is non-empty |
| Profile.Page.DeleteAccount | src/pages/Profile.tsx:95-109 | the typed password is sent; success clears the stored session, logs out and goes to /login; a refusal goes through the error interceptor (a 401 removes the stored session and goes to /login, any other status changes neither) and keeps the context's session and the page's navigation; the dialog closes either way (also src/pages/Profile.tsx:295) |
| UserDashboard.SkinTypeText | src/pages/user/Dashboard.tsx:154-161 | no skin types give "No skin type available", and a single type is shown as it is |
| UserDashboard.Page.constructor | src/pages/user/Dashboard.tsx:27-30 | no routines, logs or profile, local loading set, no toast |
| UserDashboard.Page.RoutinesShown | src/pages/user/Dashboard.tsx:215 | the routines card shows the first three routines, or all of them when fewer |
| UserDashboard.ConcernText | src/pages/user/Dashboard.tsx:165-168 | the "Top Concern" line is `formatConcerns` of the profile's concerns (see `Labels.FormatConcerns`, `Labels.FormatConcernsInOrder`) |
| UserDashboard.Page.RoutinesLink | src/pages/user/Dashboard.tsx:245-247 | "View All Routines" exactly when there are routines, "Create Routine" exactly when there are none |
| UserDashboard.Page.LogsLink | src/pages/user/Dashboard.tsx:302-304 | "View Progress" exactly when there are recent logs, "Add First Log" exactly when there are none |
| UserDashboard.Page.Fetch | src/pages/user/Dashboard.tsx:32-74 | each of the three calls is handled on its own: a profile updates the page and the session, silently kept on failure; routines replace the list, with a toast on failure; logs keep their first three, kept on failure; loading ends either way |
| UserAppointment.StatusClass | src/pages/user/Appointment.tsx:250-256 | the status badge is green iff CONFIRMED, red iff CANCELLED, and yellow for any other status |
| UserAppointment.CancelHiddenIffRed | src/pages/user/Appointment.tsx:250-263 | the Cancel action is hidden exactly when the badge is red, that is for a CANCELLED appointment |
| UserAppointment.NotesText | src/pages/user/Appointment.tsx:261 | the notes cell shows the notes when they are non-empty, and "No notes" exactly when they are missing or empty |
| UserAppointment.Page.constructor | src/pages/user/Appointment.tsx:35-43 | no appointments or dermatologists, empty search and dialog fields, dialog closed, nothing sent |
| UserAppointment.Page.Filtered | src/pages/user/Appointment.tsx:115-119 | an appointment is listed iff its dermatologist's name contains the term case-insensitively, in order |
| UserAppointment.Page.CreateAppointment | src/pages/user/Appointment.tsx:73-99 | without a dermatologist or a date nothing is sent and nothing changes; otherwise the request carries the three fields; success closes the dialog, clears the fields and refetches; failure keeps them |
| UserAppointment.Page.DialogChange | src/pages/user/Appointment.tsx:130 | `onOpenChange` sets the dialog's flag to the requested value and keeps every typed selection |
| UserAppointment.Page.CancelAppointment | src/pages/user/Appointment.tsx:101-113 | the delete call is made; only success refetches; the list is never edited locally |
| UserAppointment.Page.FetchAppointments | src/pages/user/Appointment.tsx:50-61 | the server's appointments replace the list; a failure keeps it |
| UserAppointment.Page.FetchDermatologists | src/pages/user/Appointment.tsx:63-71 | the server's dermatologists replace the select's choices; a failure keeps them |
| DermAppointments.Filtered | src/pages/dermatologist/Appointments.tsx:61-65 | an appointment is listed iff the patient's name or email contains the term case-insensitively; order is kept and an empty term lists all |
| DermAppointments.Page.constructor | src/pages/dermatologist/Appointments.tsx:27-28 | no appointments, empty search, nothing sent |
| DermAppointments.Page.StatusChange | src/pages/dermatologist/Appointments.tsx:47-59 | one of the three offered statuses is sent for the appointment; only success refetches, and the list is never edited locally (also src/pages/dermatologist/Appointments.tsx:112-122) |
| DermAppointments.Page.FetchAppointments | src/pages/dermatologist/Appointments.tsx:34-45 | the server's appointments replace the list; a failure keeps it |
| PendingDermatologists.StatusOf | src/components/admin/pendingDermotologist.tsx:45 | approving sends "APPROVED" and rejecting "REJECTED", and the two differ (also src/components/admin/pendingDermotologist.tsx:118, src/components/admin/pendingDermotologist.tsx:130) |
| PendingDermatologists.WaitingTextCount | src/components/admin/pendingDermotologist.tsx:85-86 | the header starts with the count, and has an "s" exactly when the count is not 1 |
| PendingDermatologists.WaitingText | src/components/admin/pendingDermotologist.tsx:85-86 | the count, "dermatologist", an "s" unless the count is one, and "waiting for approval" (see `PendingDermatologists.WaitingTextCount`) |
| PendingDermatologists.SuccessToast | src/components/admin/pendingDermotologist.tsx:55 | the success toast names the decision's status in lower case (see `PendingDermatologists.SuccessToastsDiffer`) |
| PendingDermatologists.Verb | src/components/admin/pendingDermotologist.tsx:152-181 | the dialog says "Approve" iff the chosen action is approval, and "Reject" otherwise, including before any choice |
| PendingDermatologists.ConfirmLabel | src/components/admin/pendingDermotologist.tsx:179-181 | the confirm button reads "Processing..." while the call runs, and the verb otherwise |
| PendingDermatologists.SuccessToastsDiffer | src/components/admin/pendingDermotologist.tsx:54-56 | the success message names the decision, so approval and rejection give different messages |
| PendingDermatologists.Card.constructor | src/components/admin/pendingDermotologist.tsx:42-48 | not loading, nothing selected, no action, dialog closed |
| PendingDermatologists.Card.OpenConfirmDialog | src/components/admin/pendingDermotologist.tsx:67-74 | an enabled Approve or Reject button records the dermatologist and the action, then opens the dialog (also src/components/admin/pendingDermotologist.tsx:117-120) |
| PendingDermatologists.Card.DialogChange | src/components/admin/pendingDermotologist.tsx:148 | only the dialog flag changes |
| PendingDermatologists.Card.Confirm | src/components/admin/pendingDermotologist.tsx:50-53 | with a selection and an action the call is sent with that id and status and loading starts; without either nothing happens (also src/components/admin/pendingDermotologist.tsx:172-177) |
| PendingDermatologists.Card.Settle | src/components/admin/pendingDermotologist.tsx:54-64 | success shows the decision's toast, notifies the parent and closes the dialog; failure shows the failure toast and keeps the dialog; loading ends either way |
| ChatList.FindById | src/pages/user/Chat.tsx:74 | `find` returns the first listed chat with the id, and nothing iff no chat has it |
| ChatList.Preview | src/pages/user/Chat.tsx:188-192 | a preview is shown iff the chat has a non-empty message list, and it is the last message's content (also src/pages/dermatologist/Chat.tsx:90-94) |
| ChatList.PreviewAfterAppend | src/pages/user/Chat.tsx:188-192 | after a message is appended the preview is that message |
| ChatList.ByDermatologist | src/pages/user/Chat.tsx:88-90 | a chat is listed iff its dermatologist's name contains the term case-insensitively, in order; an empty term lists all |
| ChatList.ByPatient | src/pages/dermatologist/Chat.tsx:50-52 | a chat is listed iff its patient's name contains the term case-insensitively, in order; an empty term lists all |
| UserChat.StartedChat | src/pages/user/Chat.tsx:72-77 | the chat selected after starting one is looked up in the list as it was before the refetch: it comes from that list and exists iff that list already had the id |
| UserChat.NewChatNeverSelected | src/pages/user/Chat.tsx:72-77 | a chat whose id was not already listed is never selected, whatever the refetch returns |
| UserChat.Page.constructor | src/pages/user/Chat.tsx:35-39 | no chats, dermatologists or selection; empty search; dialog closed |
| UserChat.Page.Filtered | src/pages/user/Chat.tsx:88-90 | the list shows the chats whose dermatologist's name contains the search term, in order |
| UserChat.Page.FetchChats | src/pages/user/Chat.tsx:46-57 | the server's chats replace the list; a failure keeps it and shows "Failed to load chats" |
| UserChat.Page.FetchDermatologists | src/pages/user/Chat.tsx:59-67 | the fetched list replaces the dermatologists; a failure keeps it and shows "Failed to load dermatologists" |
| UserChat.Page.Select | src/pages/user/Chat.tsx:178 | only the selection changes |
| UserChat.Page.SetSearch | src/pages/user/Chat.tsx:168 | only the search term changes |
| UserChat.Page.DialogChange | src/pages/user/Chat.tsx:103 | only the dialog flag changes |
| UserChat.Page.StartChat | src/pages/user/Chat.tsx:69-86 | the create call is sent; on failure only "Failed to start chat" is shown; on success the chats are refetched, the selection becomes the stale lookup's chat if any, the dialog closes and "Chat started successfully" is shown, and an id unknown before the call leaves the selection as it was |
| DermChat.LayoutShowsOnePane | src/pages/dermatologist/Chat.tsx:58-61 | a pane is always visible; on a narrow screen exactly one, on a wide one both; "Back" is shown exactly when the list is hidden (also src/pages/dermatologist/Chat.tsx:103-106, src/pages/dermatologist/Chat.tsx:110) |
| DermChat.IsMobile | src/pages/dermatologist/Chat.tsx:25 | a window narrower than 768 pixels is the narrow layout (see `DermChat.Page.Resize`) |
| DermChat.ListVisible | src/pages/dermatologist/Chat.tsx:60 | the list is hidden only on a narrow screen with a chat open (see `DermChat.LayoutShowsOnePane`) |
| DermChat.WindowVisible | src/pages/dermatologist/Chat.tsx:105 | the conversation pane is hidden only on a narrow screen with nothing open (see `DermChat.LayoutShowsOnePane`) |
| DermChat.ShowsBack | src/pages/dermatologist/Chat.tsx:108-110 | "Back to chats" shows on a narrow screen with a chat open, that is exactly when the list is hidden (see `DermChat.LayoutShowsOnePane`) |
| DermChat.Page.constructor | src/pages/dermatologist/Chat.tsx:18-21 | no chats or selection, empty search, wide layout |
| DermChat.Page.Filtered | src/pages/dermatologist/Chat.tsx:50-52 | the list shows the chats whose patient's name contains the search term, in order |
| DermChat.Page.Resize | src/pages/dermatologist/Chat.tsx:23-31 | the layout is narrow exactly when the window is under 768 pixels wide |
| DermChat.Page.FetchChats | src/pages/dermatologist/Chat.tsx:37-48 | the server's chats replace the list; a failure keeps it and shows "Failed to load chats" |
| DermChat.Page.SetSearch | src/pages/dermatologist/Chat.tsx:72 | only the search term changes |
| DermChat.Page.Select | src/pages/dermatologist/Chat.tsx:82 | the clicked chat opens, the conversation pane is visible and on a narrow screen the list is hidden |
| DermChat.Page.Back | src/pages/dermatologist/Chat.tsx:110-115 | "Back to chats" closes the chat, showing the list and hiding the conversation pane |
| ApiClient.RequestConfig.constructor | src/api/apiClient.ts:13-34 | a request starts with its own url and headers and not yet retried |
| AppContext.Session.constructor | src/context/AppContext.tsx:25-32 | the provider starts from the stored token and the stored user, not loading and with no skin profile |
| Common.Filter | src/pages/admin/ManageProducts.tsx:93-97 | `Array.prototype.filter` keeps exactly the elements its test accepts, in their original order, and never lengthens the list (also src/pages/user/ProductExplorer.tsx:91-103) |
| Common.FilterCounts | src/pages/admin/ManageProducts.tsx:93-97 | every element the test accepts keeps all its copies and every other element has none (also src/pages/user/ProductExplorer.tsx:91-103) |
| Common.FilterConcat | src/pages/user/ProductExplorer.tsx:91-103 | filtering a concatenation filters each part |
| Common.FilterFilter | src/pages/user/ProductExplorer.tsx:91-104 | two filters in a row keep what both tests accept |
| Common.FilterKeepsAll | src/components/admin/ProductsTable.tsx:26-30 | a filter whose test accepts every element returns the list unchanged |
| Common.CountWhere | src/pages/dermatologist/Patients.tsx:116 | the number shown is the length of the filtered list |
| Common.RemoveAll | src/pages/admin/Dashboard.tsx:413 | `filter(t => t !== x)` drops every copy of `x` and keeps every copy of every other element, in order (also src/components/admin/ProductForm.tsx:187) |
| Common.RemoveAbsent | src/pages/user/ProductExplorer.tsx:124 | removing an element that is not there changes nothing |
| Common.CheckboxUpdate | src/pages/admin/Dashboard.tsx:409-414 | checking appends the item; unchecking removes all its copies and keeps every copy of the rest, in order; other items are in the result iff they were before (also src/pages/admin/Dashboard.tsx:455-460) |
| Common.Toggle | src/pages/user/ProductExplorer.tsx:122-126 | the item is present afterwards iff it was absent before, and no other item changes membership |
| Common.ToggleTwiceRestores | src/pages/user/ProductExplorer.tsx:122-126 | toggling an absent item twice gives the original list back |
| Common.ReplaceById | src/pages/admin/ManageProducts.tsx:53-60 | every record with the id is replaced and every other position keeps its record; the length is kept (also src/pages/user/Routines.tsx:96-98) |
| Common.ReplaceWhereAt | src/pages/admin/ManageProducts.tsx:53-60 | each position holds the replacement iff its record matched |
| Common.WithoutId | src/pages/admin/ManageProducts.tsx:81-83 | every record with the id is removed and every other record keeps all its copies, in order (also src/pages/user/Routines.tsx:124) |
| Common.WithoutAbsentId | src/pages/admin/ManageProducts.tsx:81-83 | deleting an id that no record has leaves the list as it was |
| Common.Take | src/pages/user/Dashboard.tsx:60 | `slice(0, n)` is a prefix of length n, or the whole list when it is shorter (also src/pages/dermatologist/Dashboard.tsx:176) |
| Common.StatOrZero | src/pages/dermatologist/Dashboard.tsx:123 | `stats?.field || 0` shows 0 for missing stats or a missing field, and the value otherwise (also src/pages/admin/Dashboard.tsx:207) |
| Text.Lower | src/components/admin/ProductsTable.tsx:26-30 | `toLowerCase` keeps the length and lowercases each character |
| Text.OccursShift | src/components/admin/ProductsTable.tsx:26-30 | an occurrence in a string's tail is an occurrence one position later in the string |
| Text.ContainsIff | src/components/admin/ProductsTable.tsx:26-30 | `includes` holds iff the needle occurs at some offset |
| Text.IncludesEmpty | src/components/admin/ProductsTable.tsx:26-30 | the empty search term is found in every string |
| Text.Includes | src/components/admin/ProductsTable.tsx:28-29 | `toLowerCase().includes(term.toLowerCase())`, the case-insensitive containment (see `Text.ContainsIff`, `Text.IncludesEmpty`) |
| Text.Split | src/pages/admin/Dashboard.tsx:465 | `split("_")` gives at least one piece and no piece holds the separator |
| Text.JoinSplit | src/pages/admin/Dashboard.tsx:465-471 | joining the pieces of a split with the same separator gives the string back |
| Text.Join | src/pages/admin/Dashboard.tsx:471 | `join(sep)`: the parts with the separator between consecutive ones (see `Text.JoinSplit`, `Text.JoinConsHead`) |
| Text.ReplaceFirst | src/pages/dermatologist/Patients.tsx:230 | `replace("_", " ")` keeps the length and leaves a string without "_" unchanged |
| Text.ReplaceFirstAt | src/pages/dermatologist/Patients.tsx:230 | only the first "_" becomes a space; the rest of the string is kept |
| Text.NatToString | src/components/admin/ProductForm.tsx:144 | `String(n)` is a non-empty string of decimal digits |
| Text.ParseNatToString | src/components/admin/ProductForm.tsx:134-144 | `parseInt(String(n))` is `n` for every natural number |
| Text.ParseInt | src/components/admin/ProductForm.tsx:134 | `parseInt` on a non-empty string of decimal digits is its value, and NaN (`None`) on anything else (see `Text.ParseNatToString`) |
| Text.IntToString | src/components/chat/ChatWindow.tsx:89 | `String(n)`: a "-" and the digits of `-n` for a negative `n`, else the digits of `n` (see `Text.IntToStringInjective`) |
| Text.SignFirst | src/components/chat/ChatWindow.tsx:89 | `String(n)` is non-empty and starts with "-" exactly when `n` is negative |
| Text.IntToStringInjective | src/components/chat/ChatWindow.tsx:89 | different timestamps give different strings, so two messages sent at different instants get different ids |
| Sorting.OnKeyTotal | src/pages/dermatologist/Patients.tsx:78-81 | comparing records by a key under a total order is a total order |
| Sorting.Insert | src/pages/user/ProductExplorer.tsx:108-114 | inserting adds exactly the one element |
| Sorting.SortBy | src/pages/user/ProductExplorer.tsx:108-114 | the stable sort is a permutation of its input (also src/pages/dermatologist/Patients.tsx:76-90) |
| Sorting.InsertSorted | src/pages/user/ProductExplorer.tsx:108-114 | inserting into an ordered list keeps it ordered |
| Sorting.SortBySorted | src/pages/user/ProductExplorer.tsx:108-114 | under a total comparator the sort's output is ordered (also src/pages/dermatologist/Patients.tsx:76-90) |
| Sorting.InsertStable | src/pages/user/ProductExplorer.tsx:108-114 | the inserted element lands ahead of every element the comparator ranks equal to it, so the elements equal to any `e` keep their order |
| Sorting.SortByStable | src/pages/user/ProductExplorer.tsx:108-114 | under a total comparator, the elements ranked equal to any `e` leave the sort in their input order (also src/pages/dermatologist/Patients.tsx:76-90) |
| Sorting.SortByAllEqual | src/pages/dermatologist/Patients.tsx:87-88 | a comparator that always returns 0 leaves the order as it was |
| Types.TypeNames | src/pages/admin/Dashboard.tsx:171 | `suitableSkinTypes.map(st => st.type)` keeps the number and order of the entries (also src/components/admin/ProductForm.tsx:42) |
| Types.ConcernNames | src/pages/admin/Dashboard.tsx:172 | `targetConcerns.map(tc => tc.concern)` keeps the number and order of the entries (also src/components/admin/ProductForm.tsx:43) |

## Left out

- Rendering (JSX, classes, icons, dates through `toLocaleDateString`), routing beyond the guard and the routing table's role lists, and the UI library components are not modelled.
- The global `setIsLoading` of the app context, which every page toggles around its calls, is kept only inside `AppContext.Session`. The pages do not update it.
- Toast messages are recorded only in the chat pages, the user dashboard and the pending-approvals card. Elsewhere they are left out, because they have no effect on state.
- Service calls, HTTP and the concurrency of `Promise.all` are left out. Each awaited call is a parameter giving its outcome, and the three calls of a dashboard fetch are one joint outcome.
- Socket.IO is left out beyond the messages the chat window emits and receives: the connection lifecycle, room joining and listener clean-up.
- The schemas (zod) other than the registration and login rules are abstract: the step and form validity of the wizard and the product form are boolean parameters.
- `JSON.stringify`/`JSON.parse` of the user is modelled by its own escaped field encoding with a proved round trip. A stored value that does not parse is excluded by `AppContext.Session.constructor`'s precondition, because the source would throw during the first render.
- `localeCompare` is the parameter `collate` of the patient sort. Only its being a total preorder is used.
- Prices and scores are integers. Floating point is not modelled.
- `toLowerCase`/`toUpperCase` cover ASCII letters only.
- `parseInt` is modelled on strings of decimal digits; any other string gives NaN (`None`).
- The resize listener, the file input's DOM lookup and `window.innerWidth` become parameters.
- UserDashboard.ConcernText and SkinAssessment.Defaults: a stored skin profile always has its skin types and concerns, as lists that may be empty, so the dashboard's fallback for an absent concerns list and the assessment's `|| []` for an absent list are not modelled. An empty list is kept and handled as the source handles it: the "Top Concern" line is empty, and the assessment starts with no concerns selected.
- Field setters that only copy an input's value into one state variable (the appointment dialog's dermatologist, date and notes; the explorer's skin type, floor, sort and search; the search terms of the dermatologist dashboard, the user appointments and the dermatologist appointments) are not separate methods. The methods take those fields as they stand.
- DermAppointments.Page.StatusChange: requires the status to be one of the three the select offers, because no other value can reach the handler.
- Profile.Page.DeleteAccount: requires a non-empty password, because the confirm button is disabled otherwise.
- PendingDermatologists.Card.OpenConfirmDialog: requires that no call is running, because the Approve and Reject buttons are disabled while loading. The same holds for PendingDermatologists.Card.Confirm and the dialog's confirm button.
- PendingDermatologists.Card.Settle: requires a call to be running, because it is the second half of `handleAction`, split at the awaited call.
- DermChat.Page.Back: requires the back button to be shown, which happens only on a narrow screen with a chat open.
- Validator.PasswordValid: zod's `min(3)` and `max(20)` count UTF-16 code units, while the model counts the string's characters; the two differ only for characters outside the Basic Multilingual Plane.
- ApiClient.Reject: the request's retry flag starts unset, because no page or service ever retries a request.
- UserDashboard.SkinTypeText: states the empty and single-type cases only; with several types the text is the names joined by ", ".
- The month of a log, formatted from its date by the browser locale, is the parameter `monthOf` of the progress tracker's grouping.
