# Productivity app front end: the authenticated gateway and its clients

This project models the browser front end of a task-tracking application in
Dafny, and proves properties of the model.

The main part is the shared HTTP client in `src/api.js`. Its outbound stage
stamps `Authorization: Bearer <token>` onto every request when an access token
is stored. Its inbound stage handles a failed request in one of four ways:

- it lets the failure through;
- it bypasses a login request;
- it marks the request retried, refreshes the access token and re-issues the
  request once;
- it removes both tokens, broadcasts `sessionExpired` and rejects.

The model has two layers:

- The pure functions `Api.Send` and `Api.Inbound` say what one gateway call
  does. They return the new store, the request record, the instance default
  header, the dispatched events, the network calls made and the outcome.
- The class `Api.Gateway` performs the same call step by step on a mutable
  `Browser.Storage` (localStorage), a `Browser.Window` (event log and
  listeners) and an `Api.Request` (the request record with its one-shot
  `_retry` flag). Its `Call` method is proved to agree with `Send`.

The components that consume the gateway are modelled beside it. Each is a
module with its pure decision logic as functions and lemmas, and a class with
the component's state where the source updates it:

- `TaskList`: the token check, reset and append pagination, and the update and
  delete handlers with replace-by-id and remove-by-id.
- `TaskFilters`: the filter updater that returns the same object when nothing
  changes, and the raw search input.
- `FollowedTasks`: the `reduce` that groups tasks by owner, as a loop, and the
  per-owner expand toggles.
- `PrivateRoute`: the route guard. `Jwt` holds the decoded-token type it uses.
- `App`: the authentication test, the route table, the session-expired flag
  with its listener, and logout.
- `UseAuth`: the hook's check-then-refresh decision and its refresh handling.
- `Login` and `Register`: the forms' submit handlers and their error messages.
- `Notifications`: mark-as-read and the route a notification opens.

External parties are oracles passed as parameters:

- the server is a function from the request as sent to a reply;
- the refresh endpoint is a function from the refresh token to a new access
  token or a failure;
- a component call that goes through the gateway receives its settled
  `Api.Outcome`;
- the two notification helpers are passed as their results;
- `jwt-decode` is a function `string -> Jwt.Decoded`;
- `Date.now() / 1000` is a `real` parameter `now`.

JavaScript truthiness is modelled on store reads: an absent key and the empty
string are both falsy (`Browser.Truthy`).

Two behaviours of the code a reader might not expect:

- With no refresh token stored, the code rejects with its own
  "No refresh token available" error, not with the 401 (`src/api.js:44-45`).
- The application's `sessionExpired` listener only sets the flag. Removing the
  tokens and going to the login page happen later, through `handleLogout`
  (`src/App.js:26-28`).

## Model

| member | source | states |
|---|---|---|
| Browser.Truthy | src/api.js:19 | a stored value is truthy exactly when it is present and not the empty string, the test of `if (token)` and `if (!refreshToken)` |
| Browser.Lookup | src/api.js:18 | `getItem` returns a value exactly when the key is stored, and that value is the stored one |
| Browser.WithoutTokens | src/api.js:58-59 | removing the two tokens leaves neither token stored and every other key as it was |
| Browser.Storage.GetItem | src/api.js:18 | `getItem` on the live store returns a value exactly when the key is stored, and then the stored value |
| Browser.Storage.SetItem | src/api.js:53 | `setItem` writes one key and changes nothing else |
| Browser.Storage.RemoveItem | src/api.js:58 | `removeItem` removes one key and changes nothing else |
| Browser.Window.DispatchEvent | src/api.js:60 | dispatching appends exactly one event to the log and leaves the listeners alone |
| Browser.Window.AddEventListener | src/App.js:30 | registering adds the listener and dispatches nothing |
| Browser.Window.RemoveEventListener | src/App.js:33 | de-registering removes the listener and dispatches nothing |
| Text.TrimStartIsSuffix | src/components/TaskList.js:85 | the leading-space trim keeps a suffix that does not start with white space, and drops only white space |
| Text.TrimEndIsPrefix | src/components/TaskList.js:85 | the trailing-space trim keeps a prefix that does not end with white space, and drops only white space |
| Text.TrimIsSlice | src/components/TaskList.js:85 | `trim()` returns a contiguous slice of its input, and everything before and after the slice is white space |
| Text.TrimmedEnds | src/components/TaskList.js:85 | a trimmed string is empty, or neither starts nor ends with white space |
| Text.TrimIdempotent | src/components/TaskList.js:85 | trimming twice gives the same string as trimming once |
| Text.Trim | src/components/TaskList.js:85 | `trim()` never lengthens its input, and leaves unchanged a string that is empty or neither starts nor ends with white space; its contents are stated by `TrimIsSlice`, `TrimmedEnds` and `TrimIdempotent` |
| Text.Join | src/components/Register.js:37 | `join` of no words is empty, and of one word is that word |
| Text.JoinSnoc | src/components/Register.js:37 | `Join`'s own left-fold step as a lemma: adding a word to a non-empty list appends one separator and that word; the induction step of `JoinConcat` |
| Text.JoinConcat | src/components/Register.js:37 | joining two non-empty lists is joining each, with one separator between them |
| Text.JoinLength | src/components/Register.js:37 | the joined string's length is the sum of the word lengths plus one separator between each pair of neighbours |
| Api.IsSuccess | src/api.js:28-30 | a reply reaches the success handler only when it is an answer, and an answer does exactly when its status is 2xx, axios's default status test |
| Api.RequestMade | src/components/Login.js:32 | `error.request` is set exactly for a request or refresh error that went out, answered or not; every error with a response also has a request; the gateway's own error has none |
| Api.ErrorMessage | src/components/Login.js:35 | with no request and no response, `error.message` is "No refresh token available" for the gateway's own error, and otherwise the transport's message for the request that could not be sent |
| Api.BearerToken | src/api.js:20 | a token is read back from `Authorization` only when the header is exactly `Bearer <token>` |
| Api.ErrorResponse | src/components/Login.js:28-31 | `error.response` is present exactly for an error from the request or the refresh call that got an answer |
| Api.Stamp | src/api.js:17-22 | with a non-empty access token stored, `Authorization` is exactly `Bearer <token>`; otherwise the headers are untouched; other headers never change |
| Api.WithDefaults | src/api.js:54 | the instance default `Authorization` is used only when the request has none of its own; every other header is the request's |
| Api.Outgoing | src/api.js:16-22 | only the headers change; a stored access token always wins; without one the request's own `Authorization` goes out, and failing that the instance default, so a default set by an earlier refresh outlives the removal of the stored tokens |
| Api.Send | src/api.js:16-67 | the first network call is the request as the outbound stage stamped it; the rest of its behaviour is stated by `AtMostOneRetry`, `StoreAndSignal`, `RetriedRequestPassesThrough` and the `Api` lemmas below, and `Gateway.Call` is proved equal to it |
| Api.Inbound | src/api.js:30-66 | the handler makes a network call only for a 401 on a request that is neither login nor retried, with a refresh token stored, and its first call posts that token to the refresh endpoint; without a call it either changes nothing or ends the session with "No refresh token available" |
| Api.Expire | src/api.js:57-61 | the catch block removes both tokens, keeps every other key, dispatches exactly one `sessionExpired` and rejects with the error it was given |
| Api.RetriedRequestPassesThrough | src/api.js:39 | a request already marked retried is sent once and its outcome passes through, with no refresh, no store change and no event |
| Api.AtMostOneRetry | src/api.js:39-56 | whatever the oracles answer, one call makes at most two server calls and one refresh call, and dispatches at most one event |
| Api.LoginIsNeverRefreshed | src/api.js:34-36 | a request whose URL ends with `/token/` gets its original outcome, with no store change, no event and no refresh call |
| Api.NoRefreshTokenExpires | src/api.js:43-61 | a 401 with no refresh token stored marks the request retried, removes both tokens, dispatches one `sessionExpired`, rejects with "No refresh token available" and makes no refresh call |
| Api.RefreshSuccessRetries | src/api.js:48-56 | after a successful refresh the stored access token and the default header carry the new token; the request is re-issued once, marked retried and carrying `Bearer <new>`; its outcome is the caller's, and nothing is dispatched |
| Api.RefreshFailureExpires | src/api.js:40-61 | a failed refresh leaves the request marked retried, removes both tokens, keeps `user_id` and `username`, dispatches one event and rejects with the refresh error, not the 401 |
| Api.OtherFailuresPassThrough | src/api.js:63-65 | any other failure, including a 401 on a retried request, passes through with no store change and no event |
| Api.StoreAndSignal | src/api.js:28-67 | a call touches only the two token keys; `sessionExpired` is dispatched at most once, exactly when the call rejects with the refresh protocol's own error, and then both tokens are gone |
| Api.ScenarioTransparentRecovery | src/api.js:39-56 | `/tasks/42/` with the stale token `A1` and refresh token `R1`: the caller receives the 200 body, `A2` is stored and no event is dispatched |
| Api.ScenarioRefreshRejected | src/api.js:48-61 | the same request with the refresh endpoint answering 400: both tokens are removed, one event is dispatched, and the call rejects with the refresh error |
| Api.Gateway.Outbound | src/api.js:16-25 | the outbound stage replaces the request record's headers by their stamped form and changes nothing else |
| Api.Gateway.Prepare | src/api.js:16-25 | axios's merge of the instance default followed by the outbound stage leaves the request record exactly as `Outgoing` describes |
| Api.Gateway.Call | src/api.js:16-67 | one call on the mutable store, window and request record leaves exactly the state that `Send` describes, and returns its outcome |
| Api.Gateway.OnError | src/api.js:30-66 | the inbound error handler, run in place, leaves exactly the state that `Inbound` describes |
| Api.Gateway.Reissue | src/api.js:53-56 | a successful refresh stores the new token, sets it as the default and the request's header, and re-issues the request with exactly the effects `Send` describes |
| Api.Gateway.EndSession | src/api.js:58-60 | the unrecoverable path removes both tokens and dispatches exactly one `sessionExpired` |
| Api.FetchComments | src/api.js:70 | a `GET` of `/comments/?task=<id>`; the task id is recovered by `TaskCommentsRoundTrip` |
| Api.CreateComment | src/api.js:71 | a `POST` to `/comments/` |
| Api.UpdateComment | src/api.js:73-75 | a `PATCH` of `/comments/<id>/`; the id is recovered by `CommentUrlRoundTrip` |
| Api.DeleteComment | src/api.js:78-80 | a `DELETE` of `/comments/<id>/`, the same URL as the update |
| Api.CommentUrlRoundTrip | src/api.js:73-80 | `/comments/<id>/` carries the comment id recoverably, and update and delete use the same URL |
| Api.TaskCommentsRoundTrip | src/api.js:70 | `/comments/?task=<id>` carries the task id recoverably |
| Api.CommentUrlsAreNotLogin | src/api.js:70-80 | comment URLs built from numeric ids never end with `/token/`, so a 401 on them goes through the refresh protocol |
| TaskFilters.FilterUpdate | src/components/TaskFilters.js:7-10 | the updater keeps the previous filter exactly when the named key already holds the value |
| TaskFilters.FilterUpdateContents | src/components/TaskFilters.js:9 | after the update the named key holds the value, and every other key is as it was |
| TaskFilters.FilterUpdateIdempotent | src/components/TaskFilters.js:8 | applying the same change again keeps the filter object as it is |
| TaskFilters.OnFilterChange | src/components/TaskFilters.js:5-10 | a select change sets the named key to the value, keeps every other key and the search, and keeps the controls as they are when the key already held the value |
| TaskFilters.OnSearchInput | src/components/TaskFilters.js:36 | the search state receives the raw input, and the filter is untouched |
| TaskList.QueryFor | src/components/TaskList.js:82-88 | page 1 on a reset and the current page otherwise; the filter as it is; a search no longer than the input and without white space at either end |
| TaskList.SearchTrimmedOnlyInQuery | src/components/TaskList.js:83-87 | the stored search is raw; the query trims it, asks for page 1 on a reset, and carries the filter |
| TaskList.Loaded | src/components/TaskList.js:94-101 | a reset replaces the list by the response, otherwise the response is appended after the old list; the page is the one after the page loaded; `hasMore` exactly when the response was non-empty |
| TaskList.IsUnauthorized | src/components/TaskList.js:108 | a rejection counts as a 401 exactly when it carries an answered response with status 401, from the request or the refresh call; the gateway's "No refresh token available" never does |
| TaskList.AfterFetch | src/components/TaskList.js:93-105 | only a 200 response whose body is an array changes the tasks, the page and `hasMore` |
| TaskList.InfiniteScroll | src/components/TaskList.js:94-101 | after a reset load and any number of appending loads, the list is all pages in order, the page is one past the number of loads, and `hasMore` says whether the last page was non-empty |
| TaskList.ReplaceById | src/components/TaskList.js:197 | replacement keeps the length and replaces exactly the positions whose id matches |
| TaskList.ReplaceByIdKeepsOthers | src/components/TaskList.js:197 | every task in the result with another id was already in the list |
| TaskList.RemoveById | src/components/TaskList.js:227 | a length bound; the contents are stated by `RemoveByIdMembers`, `RemoveByIdKeepsOrder` and `RemoveByIdAbsent` |
| TaskList.RemoveByIdMembers | src/components/TaskList.js:227 | a task survives deletion exactly when it was in the list and has another id |
| TaskList.RemoveByIdKeepsOrder | src/components/TaskList.js:227 | deletion distributes over concatenation, so the remaining tasks keep their order |
| TaskList.RemoveByIdAbsent | src/components/TaskList.js:227 | deleting an id absent from the list leaves it unchanged, so deleting twice is deleting once |
| TaskList.RemoveAfterReplace | src/components/TaskList.js:197 | deleting an id after replacing it gives the same list as deleting it from the original |
| TaskList.TaskListView.constructor | src/components/TaskList.js:11-26 | the initial page state: no tasks, page 1, `hasMore`, the empty filter and search, not loading, no task being edited |
| TaskList.TaskListView.CheckToken | src/components/TaskList.js:69-77 | the check fails exactly when the access token is absent or empty, and then dispatches `sessionExpired` and navigates to `/login` |
| TaskList.TaskListView.FetchTasks | src/components/TaskList.js:79-115 | no token means no request; otherwise the query for the old page, search and filter is sent, the list follows `AfterFetch`, a 401 dispatches and redirects, and loading is off on every path |
| TaskList.TaskListView.HandleFilterChange | src/components/TaskList.js:117-123 | the filter becomes the updater's result, and a reload follows exactly when the value changed |
| TaskList.TaskListView.HandleUpdate | src/components/TaskList.js:190-207 | after the token check the edited task is put; success replaces by id and closes the editor; a 401 dispatches and redirects; failure leaves the list |
| TaskList.TaskListView.HandleDelete | src/components/TaskList.js:219-241 | nothing is requested without a token or a confirmation; a 204 removes every task with that id; a 401 dispatches and redirects; anything else leaves the list |
| FollowedTasks.Grouped | src/components/FollowedTasks.js:19-26 | every group is non-empty and no larger than the response; its keys and entries are stated by `GroupedKeys`, `GroupedEntries` and `GroupedByOwner` |
| FollowedTasks.GroupedKeys | src/components/FollowedTasks.js:19-26 | the dictionary's keys are exactly the owners appearing in the response |
| FollowedTasks.GroupedEntries | src/components/FollowedTasks.js:19-26 | each entry is exactly that owner's tasks, in response order |
| FollowedTasks.GroupsNotEmpty | src/components/FollowedTasks.js:21-24 | every owner of the response has a non-empty group |
| FollowedTasks.GroupedByOwner | src/components/FollowedTasks.js:19-26 | keys equal owners, and every entry is that owner's tasks in order and is non-empty |
| FollowedTasks.GroupByOwner | src/components/FollowedTasks.js:19-26 | the accumulator loop builds the functional grouping, with keys equal to the owners and each entry the owner's tasks, non-empty |
| FollowedTasks.OfOwnerConcat | src/components/FollowedTasks.js:24 | grouping distributes over concatenation, so order within a group is response order |
| FollowedTasks.OfOwnerMembers | src/components/FollowedTasks.js:20-24 | a task is in an owner's group exactly when it is in the response with that owner |
| FollowedTasks.OwnerOfGroup | src/components/FollowedTasks.js:20-23 | a non-empty group belongs to an owner appearing in the response |
| FollowedTasks.DistinctOwnersSpec | src/components/FollowedTasks.js:21-23 | the keys in insertion order are distinct and are exactly the owners |
| FollowedTasks.GroupSizesSum | src/components/FollowedTasks.js:20-24 | the group sizes add up to the length of the response |
| FollowedTasks.Toggle | src/components/FollowedTasks.js:38-41 | the owner becomes a key whose flag is the negation of its old one, with undefined read as false, and the toggle keeps every other owner's flag and presence |
| FollowedTasks.ToggleTwice | src/components/FollowedTasks.js:38-41 | two toggles of the same owner restore every flag as it was read |
| FollowedTasks.FollowedTasksView.FetchFollowedTasks | src/components/FollowedTasks.js:14-33 | an array response becomes the grouping, with keys the owners and entries their tasks; any other answer sets the error message and keeps the groups |
| FollowedTasks.FollowedTasksView.ToggleOwnerTasks | src/components/FollowedTasks.js:37-42 | the expand flags become the toggled map, and nothing else changes |
| Jwt.ExpiredAt | src/components/PrivateRoute.js:22 | an undecodable token or one without `exp` is never expired; otherwise a token is expired exactly when its `exp` is strictly before now |
| Jwt.ExpiryIsStrictAndMonotone | src/components/PrivateRoute.js:22 | a token whose `exp` equals now is not expired, and a token expired now stays expired later |
| PrivateRoute.Guard | src/components/PrivateRoute.js:7-32 | children render exactly when the session-expired flag is set, or a non-empty token decodes and is not expired; every redirect goes to `/login` |
| PrivateRoute.GuardRedirects | src/components/PrivateRoute.js:15-31 | outside the expired state: no token, an undecodable token or an expired one redirects, and a token without `exp` renders |
| PrivateRoute.GuardMonotoneInTime | src/components/PrivateRoute.js:21-25 | a guard that renders now also rendered at any earlier time |
| App.IsAuthenticated | src/App.js:20-23 | `!!getItem('access_token')` holds exactly when the access token is stored and non-empty |
| App.AuthenticatedIffStamped | src/App.js:20-23 | the shell counts a user as authenticated exactly when the gateway would stamp the stored token onto a request |
| App.IsUserTasksPath | src/App.js:110-117 | a path matching `/users/:owner_id/tasks` is `/users/` followed by a non-empty, slash-free id and `/tasks`; `UserTasksRouteMatches` gives the converse |
| App.PrivatePage | src/App.js:86-125 | `/tasks`, `/profile`, `/search` and `/followed_tasks` name their pages, a path names the user-tasks page exactly when it matches `/users/:owner_id/tasks`, no other path is guarded, and no guarded path names the login or register page |
| App.Route | src/App.js:77-132 | every redirect goes to `/tasks`, `/login` or `/`; the login and register pages are shown exactly at their own paths to a user who is not authenticated; the rest of the table is stated by `PublicRoutes`, `PrivateRoutes` and `PrivatePage` |
| App.PublicRoutes | src/App.js:78-131 | `/login` and `/register` send an authenticated user to `/tasks`, and `/` goes to `/tasks` or `/login` by `isAuthenticated` |
| App.PrivateRoutes | src/App.js:86-132 | a guarded page renders exactly when the guard allows it, otherwise the user goes to `/login`; an unknown path goes to `/` |
| App.UserTasksRouteMatches | src/App.js:110-117 | `/users/<id>/tasks` is guarded for every non-empty, single-segment id |
| App.ExpiredSessionLeadsToLogin | src/App.js:86-131 | after a gateway call that dispatched `sessionExpired`, the user is not authenticated and `/` leads to `/login`; while the flag is set `/tasks` renders beneath the modal, and once it is cleared `/tasks` leads to `/login` |
| App.LoggedOutSeesLogin | src/App.js:37-42 | after logout no guarded page renders, `/` leads to `/login`, and `user_id` and `username` are still stored |
| App.AppView.constructor | src/App.js:17 | the session-expired flag starts false |
| App.AppView.Mount | src/App.js:30 | mounting registers the listener |
| App.AppView.Unmount | src/App.js:32-34 | teardown removes the same listener |
| App.AppView.Deliver | src/App.js:26-28 | a delivered `sessionExpired` sets the flag exactly when the listener is registered, and changes nothing else |
| App.AppView.HandleLogout | src/App.js:37-42 | logout removes exactly the two tokens, clears the flag and navigates to `/login` |
| App.AppView.OnModalOk | src/App.js:44-46 | the modal's OK button performs a full logout |
| App.AppView.OnModalHide | src/App.js:137 | dismissing the modal only clears the flag |
| UseAuth.CheckDecision | src/hooks/useAuth.js:8-25 | no token or an undecodable one gives unauthenticated; a refresh happens exactly for a non-empty expired token |
| UseAuth.CheckAgreesWithGuard | src/hooks/useAuth.js:8-25 | given the same decoder, the hook reports authenticated exactly when the route guard renders outside the expired state, and a token the hook would refresh is redirected by the guard |
| UseAuth.Target | src/api.js:7-8 | a path with exactly one leading `/` reaches the base URL followed by that path |
| UseAuth.WrittenRefreshMissesEndpoint | src/hooks/useAuth.js:31 | the path as written reaches `/api/api/token/refresh/`, not the refresh endpoint |
| UseAuth.RefreshPathHitsEndpoint | src/hooks/useAuth.js:31 | the corrected path reaches the gateway's refresh endpoint and is not taken for a login request |
| UseAuth.AuthHook.constructor | src/hooks/useAuth.js:6 | the hook starts unauthenticated |
| UseAuth.AuthHook.RefreshToken | src/hooks/useAuth.js:27-42 | with no refresh token: unauthenticated, and nothing is sent or stored; otherwise the gateway call's effects, then success stores the new access token and authenticates, and failure removes both tokens and unauthenticates |
| UseAuth.AuthHook.CheckAuth | src/hooks/useAuth.js:8-25 | the decision follows `CheckDecision` on the stored token; only the refresh case with a refresh token stored touches the store, the network, the default header or the event log, and then exactly as `RefreshToken` does |
| Login.Rendered | src/components/Login.js:31 | a present value is rendered as it is, and a missing `detail` as `undefined` |
| Login.LoginError | src/components/Login.js:27-37 | the message is the wrong-credentials one exactly for a 401 answer; any other answer shows `Login failed: <detail>`, no answer the no-response message, and an unsent request its own error message |
| Login.WithCredentials | src/components/Login.js:21-24 | success stores the access token, the refresh token, `user_id` and `username` from the body, and keeps every other key |
| Login.LoginRequest | src/components/Login.js:19 | the login request ends with `/token/` and is not marked retried |
| Login.WrongPasswordIsReported | src/components/Login.js:28-29 | a 401 on login reaches the form untouched, with one server call, no refresh and no event, and shows "Incorrect username or password." |
| Login.LoginForm.constructor | src/components/Login.js:9-11 | the form starts with empty fields and no error |
| Login.LoginForm.HandleSubmit | src/components/Login.js:14-38 | the error is cleared and the credentials are posted through the gateway; success writes the four keys and navigates to `/tasks`; failure shows the classified message and writes nothing more |
| Register.RegisterError | src/components/Register.js:30-47 | a non-empty `error` wins, then the password messages joined by spaces, then the duplicate-user message; without a body, the no-response message if a request was made, else the generic failure |
| Register.PasswordMessages | src/components/Register.js:37 | one password message is shown as it is; several are shown in order, and cutting the list anywhere gives the two parts' messages joined by one space |
| Register.ScenarioPasswordRejected | src/components/Register.js:36-37 | the answer listing "Too short." and "Too common." shows "Too short. Too common." |
| Register.UnauthorizedRegistration | src/components/Register.js:41-46 | a 401 on registration with no refresh token ends the session and shows the generic failure, since no request is attached to the error |
| Register.RegisterForm.constructor | src/components/Register.js:9-13 | the form starts with empty fields and messages |
| Register.RegisterForm.HandleSubmit | src/components/Register.js:16-48 | both messages are cleared and the request goes through the gateway; success sets the success message, clears the three fields and schedules `/login`; failure shows the classified message and keeps the fields |
| Notifications.MarkRead | src/components/Notifications.js:30-33 | marking keeps the length, sets `read` on exactly the notifications with that id, and leaves the others as they were |
| Notifications.MarkReadSettles | src/components/Notifications.js:28-34 | afterwards a notification is unread exactly when it was unread and has another id; marking again changes nothing |
| Notifications.RouteFor | src/components/Notifications.js:36 | the route is `/tasks/<task_id>` exactly for a `my_tasks` notification, and `/followed_tasks/<task_id>` otherwise |
| Notifications.NotificationList.constructor | src/components/Notifications.js:8-9 | the list starts empty with no error |
| Notifications.NotificationList.LoadNotifications | src/components/Notifications.js:13-21 | a fetched list replaces the notifications; a failure sets the error message and keeps the list |
| Notifications.NotificationList.HandleNotificationClick | src/components/Notifications.js:26-41 | the mark call is made exactly for an unread notification; success applies `MarkRead` and opens the route with the comment to highlight; a failed mark keeps the list and opens nothing; a read one opens its route unchanged |

## Left out

- Network transport is not modelled: axios itself, `baseURL` joining for paths other than those with exactly one leading `/` (`UseAuth.Target`), `withCredentials` and the `Content-Type` header. The server and the refresh endpoint are oracle functions.
- Request bodies are not part of `Api.Config`. Only the URL, the headers and the retry flag are modelled, because the protocol decides on nothing else.
- Concurrency is not modelled: overlapping 401s, racing refreshes and the last write to `access_token`. One originating request chain is modelled.
- Timers are not modelled: the lodash `debounce` of the search box, the delayed move to `/login` after registration (returned as the route it schedules) and the hook's `setInterval`.
- Rendering, React hook scheduling (`useEffect` timing, `isCancelled`, `isFirstRender`, the stale `tasks` closure in the handlers) and the interim `isLoading` value are not modelled. Router navigation is a returned route string.
- Route matching follows the table's literal paths. Trailing slashes, case and URL decoding are not modelled.
- `jwt-decode` and `Date.now()` are foreign: decoding is the parameter `decode` and the clock is the parameter `now`.
- UseAuth.CheckAgreesWithGuard: assumes the hook and the guard decode with the same function. useAuth.js:2 takes `jwt-decode`'s default export and PrivateRoute.js:5 its named `jwtDecode`, and no single library version provides both; where they differ (the hook's decode throws while the guard's succeeds) a valid unexpired token renders guarded pages while the hook reports unauthenticated.
- useAuth imports `jwt-decode`'s default export while PrivateRoute uses the named `jwtDecode`. Under a library version with no default export the hook's decode call throws, which `UseAuth.CheckDecision` covers as an undecodable token through `decode`.
- `console` logging is not modelled. `window.confirm` is the parameter `confirmed`, and the `alert` after a failed delete is not modelled.
- `fetchNotifications` and `markNotificationAsRead` are imported by Notifications.js but not defined in api.js. They are oracles: the fetched list, or none, and whether the mark succeeds.
- TaskList's task creation (`handleSubmit`), `fetchUsers`, the modal show and hide handlers and the form field handlers are not modelled. They are form plumbing with no decision beyond the shared 401 handling.
- Object keys in the grouping are modelled as a `map`. JavaScript's own key ordering, which puts integer-like keys first, and prototype key names are not modelled. `FollowedTasks.DistinctOwners` gives the first-appearance order.
- `user_id` and the ids in URLs are strings in the model. The numeric-to-string conversion of `localStorage.setItem` and of template literals is not modelled.
- `TaskList.TaskListView.FetchTasks`, `HandleUpdate`, `HandleDelete` and `FollowedTasks.FollowedTasksView.FetchFollowedTasks` take the gateway's settled outcome as a parameter instead of calling `Api.Gateway.Call`. The gateway's own effects on those paths are stated by the `Api` lemmas.
- `UseAuth.AuthHook.RefreshToken` posts to the corrected path `/token/refresh/`. The path as written is covered by the finding below.
- Text.TrimStart: its own contract states only a length bound. Its contents are stated by `Text.TrimStartIsSuffix`.
- Text.TrimEnd: its own contract states only a length bound. Its contents are stated by `Text.TrimEndIsPrefix`.
- TaskList.RemoveById: its own contract states only a length bound. The contents are stated by `TaskList.RemoveByIdMembers`, `TaskList.RemoveByIdKeepsOrder` and `TaskList.RemoveByIdAbsent`.
- Display-only components are not modelled: TaskModal, CommentList, CommentForm, TaskDetail, SearchUsers, UserTasks, Profile, TaskItem and ErrorBoundary.

## Findings

| source | as written | input that shows it | evidently intended | confidence | as-written member | corrected member |
|---|---|---|---|---|---|---|
| src/hooks/useAuth.js:31 | the hook posts the refresh token to `/api/token/refresh/` through the shared client, whose base URL already ends in `/api` | any expired access token with a refresh token stored: the request goes to `<base>/api/api/token/refresh/` | the path `/token/refresh/`, which reaches the refresh endpoint the gateway itself uses | not executed | UseAuth.WrittenRefreshMissesEndpoint | UseAuth.RefreshPathHitsEndpoint |
