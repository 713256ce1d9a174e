# DevHive core in Dafny

DevHive is a developer community platform built with Next.js: coding rooms, short
knowledge "drops", scheduled coding sessions, achievements and a leaderboard. Its UI
runs on an in-memory mock backend. This project models that backend and proves
properties of it:

- **The record store** (`lib/database.ts`): four tables (users, rooms, drops, sessions),
  each a list updated in place by `create`, `update` and `delete`. There are also lookup
  queries, the sorted `findAll` copies of drops and sessions, and `dbUtils.paginate` /
  `dbUtils.search`.
  - Each table is a `Database.Table<T>` class over a `seq`.
  - A `Partial<T>` update is a patch datatype, merged by `Merge*`.
- **The middleware** (`lib/middleware.ts`, `middleware.ts`):
  - the page route guard;
  - the sliding-window rate limiter over its module-level map, as class `RateLimiter`;
  - the API middleware that answers preflight requests before charging the limiter;
  - the root dispatcher.
- **The client message bus** (`lib/websocket.ts`), as class `WebSocketService`:
  - the handler registry and its unsubscribe closure;
  - ordered dispatch that survives throwing handlers;
  - the bounded exponential reconnect counter;
  - the connect, send and disconnect guards.
- **The server room fan-out** (`lib/websocket-server.ts`), as class `MockWebSocketServer`:
  - rooms are JavaScript `Set`s, modelled as duplicate-free sequences, because a `Set`
    keeps insertion order and that order fixes the order of a broadcast;
  - every operation returns the list of deliveries it makes instead of logging them.
- **The session** (`lib/auth.ts`), as class `AuthState`:
  - `currentUser`, login, registration and logout;
  - the profile, XP and reputation updates that write through to the user table.
- **The server actions** (`lib/server-actions.ts`): field checks in source order,
  `parseInt(...) || default` defaults, tag splitting, and what each action stores.
- **The API route handlers** (`app/api/*/route.ts`):
  - filters, case-insensitive search and paging with `hasMore`;
  - host and author summaries;
  - the leaderboard: a stable descending sort of a copy, cut and numbered;
  - the `POST` validations and defaults.

## How the source's outside world appears

Nothing in the model reads a clock, draws a random number or performs I/O. Each of
these is a parameter:

- `Date.now()` and `new Date()` are `now: int`.
- A generated id is `id: string`.
- `new Date(scheduledAt)` is `parseDate: string -> int`.
- A socket constructor that throws is `transportFails: bool`.
- A handler that throws is `throws: Handler -> bool`.

Absent form fields and query parameters are `None`. In the server actions and `POST` bodies a
number is an `Option<int>`, and `None` stands for a missing value or NaN: `parseInt(...) || d`
maps both to the default. The `GET` routes' `page` and `limit` are an `Api.IntQuery`, which
keeps apart a missing parameter (the default is parsed) and one that is not a number (NaN,
which empties the page). JavaScript truthiness of a string is
`Strings.Truthy`, and `x || d` for numbers is `Wrappers.OrDefault`. `Array.prototype.slice`
with its negative and clamped indices is `DbUtils.JsSlice`. `toLowerCase` is modelled on ASCII letters, `trim` uses the ECMAScript white-space set, and a
string's `length` counts UTF-16 code units (`Strings.Utf16Length`).

Some behaviours follow the code as written and are stated as such:

- As written, `connect()` leaves `isConnecting` set when the socket constructor throws.
  The `connect()` that the scheduled reconnect later runs therefore returns at once, so the service
  never reconnects after a failure (`WebSocketClient.FailedConnectBlocksReconnect`). The
  mock transport never throws, so this cannot be observed in the repository as shipped.
- A page of 0 or less, or a negative limit, makes `slice` count from the end of the list.
  `DbUtils.PaginateBounded` states what such a page still guarantees.
- The sessions `status` filter has no "all" escape, unlike type and difficulty. The
  achievements "all" check is case-sensitive while the category comparison is not
  (`ApiAchievements.UpperCaseAllFilters`).

## Model

| member | source | states |
|---|---|---|
| Database.MergeUser | lib/database.ts:247-251 | the updated user carries every supplied field, keeps every field not supplied, and has `updatedAt` set to the update time |
| Database.MergeUserNothing | lib/database.ts:247-251 | an update that supplies nothing changes only `updatedAt` |
| Database.MergeUserIdempotent | lib/database.ts:247-251 | applying the same update twice equals applying it once at the later time |
| Database.MergeRoom | lib/database.ts:287-291 | supplied room fields overwrite, the rest (id included) stay, `updatedAt` is the update time |
| Database.MergeDrop | lib/database.ts:327-331 | supplied drop fields overwrite, the rest stay, `updatedAt` is the update time |
| Database.MergeSession | lib/database.ts:370-374 | supplied session fields overwrite, the rest stay, `updatedAt` is the update time |
| Database.FindById | lib/database.ts:227-229 | the first record with that id, and null exactly when no record has it |
| Database.Table.IndexOf | lib/database.ts:244-245 | `findIndex`: the first index holding the id, and none (the -1) exactly when no record has it |
| Database.Table.Create | lib/database.ts:233-242 | the record is appended at the end and returned; all earlier records are unchanged |
| Database.Table.Update | lib/database.ts:243-253 | an absent id returns null with the table unchanged; otherwise only the first matching record is replaced by its merge, and that record is returned |
| Database.Table.Delete | lib/database.ts:254-260 | returns true exactly when the id is present; then only the first matching record is removed and the others keep their order; otherwise nothing changes |
| Database.Store.constructor | lib/database.ts:222-397 | the store holds the four given tables, each keyed by its entity's id, plus the read-only achievements |
| Database.FindByUsername | lib/database.ts:230-232 | the first user with that username, and null exactly when none has it |
| Database.RoomsByHost | lib/database.ts:270-272 | exactly the stored rooms of that host, in stored order and with repeats kept (a sub-list of the table) |
| Database.DropsByAuthor | lib/database.ts:310-312 | exactly the stored drops of that author, as a sub-list of the table |
| Database.SessionsByHost | lib/database.ts:350-352 | exactly the stored sessions of that host, as a sub-list of the table |
| Database.SessionsByStatus | lib/database.ts:353-355 | exactly the stored sessions with that status, as a sub-list of the table |
| Database.AchievementsByCategory | lib/database.ts:393-395 | exactly the achievements of that category, compared case-sensitively, as a sub-list of the store |
| Database.DropsFindAllSpec | lib/database.ts:304-306 | `drops.findAll` is a permutation of the table, sorted newest `createdAt` first |
| Database.SessionsFindAllSpec | lib/database.ts:344-346 | `sessions.findAll` is a permutation of the table, sorted earliest `scheduledAt` first |
| Database.DropsFindAllMembers | lib/database.ts:304-306 | a drop is in `findAll` exactly when it is stored |
| Database.SessionsFindAllMembers | lib/database.ts:344-346 | a session is in `findAll` exactly when it is stored |
| Sorting.SortByPermutation | lib/database.ts:305 | the stable sort used for every `sort` on a copy returns a permutation of its input |
| Sorting.SortBySorted | lib/database.ts:305 | that sort orders its output by the key |
| Sorting.SortByStable | lib/database.ts:305 | elements with equal keys keep their input order, as the stable `Array.prototype.sort` keeps them |
| Sorting.SortInPlace | app/api/leaderboard/route.ts:13-25 | sorting the copied array in place leaves exactly the stable sort of its old contents |
| DbUtils.SliceIndex | lib/database.ts:415 | how `slice` resolves an index: a negative one counts from the end, and the result is clamped to the list |
| DbUtils.Window | lib/database.ts:413-415 | for page >= 1 and limit >= 0, the window `[(page-1)*limit, (page-1)*limit+limit)` clipped to the list has at most `limit` items |
| DbUtils.PaginateWindow | lib/database.ts:405-422 | for page >= 1 and limit >= 0, `paginate` returns that window, `total` is the input length, and `hasMore` holds exactly when the end index is below the length |
| DbUtils.PaginateBounded | lib/database.ts:413-415 | for any page and limit, the page is a contiguous run of the list, with at most `limit` items when the limit is non-negative |
| DbUtils.AnyFieldContains | lib/database.ts:431-434 | true exactly when some searched field is a string whose lower case contains the query |
| DbUtils.SearchBlank | lib/database.ts:427 | an empty or all-whitespace query returns the input unchanged |
| DbUtils.SearchOrder | lib/database.ts:425-436 | the search result is an order-preserving sub-list of the input |
| DbUtils.SearchMatches | lib/database.ts:429-435 | for a non-blank query, an item is kept exactly when it is in the input and a searched string field, lower-cased, contains the lower-cased query |
| Strings.Utf16Length | lib/auth.ts:45 | `length` counts UTF-16 code units: at least one and at most two per character, and exactly one per character when none is astral |
| Strings.Utf16LengthAppend | lib/server-actions.ts:40 | the code-unit count of a concatenation is the sum of the counts |
| Strings.Utf16LengthOfEmoji | lib/server-actions.ts:40 | "abcd" plus one emoji has 5 characters but a `length` of 6, so it meets the 6-character rule |
| Strings.TrimEmptyIffBlank | lib/server-actions.ts:110 | a string trims to "" exactly when it is all whitespace |
| Strings.TrimInside | lib/server-actions.ts:108 | trimming removes characters only, so a piece without a comma still has none after `trim` |
| Middleware.IsProtected | lib/middleware.ts:4-13 | a path is protected exactly when it starts with one of the seven listed prefixes |
| Middleware.AuthMiddlewareSpec | lib/middleware.ts:9-32 | redirect to /login exactly for a protected path without a token; redirect to /dashboard exactly for /login or /register with a token; pass through otherwise |
| Middleware.LoginPagesOpen | lib/middleware.ts:22-29 | /login and /register are not protected: served without a token, redirected to /dashboard with one |
| Middleware.ProtectedIsPrefixMatch | lib/middleware.ts:13 | any path that begins with a protected route is protected, including ones like "/roomsXYZ" |
| Middleware.InWindow | lib/middleware.ts:39-48 | a timestamp is kept exactly when it is stored and strictly later than `now - windowMs`, and the kept ones stay in stored order |
| Middleware.RateLimiter.constructor | lib/middleware.ts:35 | the limiter starts with no entries |
| Middleware.RateLimiter.RateLimit | lib/middleware.ts:37-59 | allowed exactly when fewer than `limit` stored timestamps are in the window. On allow, the entry becomes the in-window timestamps plus `now` and holds at most `limit`. On deny, the stored list is unchanged. No other identifier's entry changes |
| Middleware.ClientId | lib/middleware.ts:76 | the key is the ip, else the forwarded-for header, else "unknown", and it is never empty |
| Middleware.ApiMiddleware | lib/middleware.ts:62-84 | OPTIONS is answered 200 without touching the limiter; any other request is 429 exactly when `rateLimit(ip, 100, 60000)` refuses it, and passes through otherwise |
| Middleware.Dispatch | middleware.ts:4-12 | paths under /api go to the API middleware: a preflight is answered 200 with the limiter untouched, any other request is 429 exactly when the window is full, and the limiter's map is updated as `rateLimit` does; every other path gets the route guard's decision and leaves the limiter alone |
| WebSocketClient.BackoffSchedule | lib/websocket.ts:165-171 | the reconnect delays are 1000, 2000, 4000, 8000 and 16000 ms, each double the previous |
| WebSocketClient.RemoveFirst | lib/websocket.ts:201-206 | an absent handler leaves the list unchanged; a present one loses exactly its first occurrence, and the handlers before and after it keep their order |
| WebSocketClient.RemoveFirstAfterAppend | lib/websocket.ts:192-208 | unsubscribing a freshly subscribed new handler restores the list; for a handler already present, it is the earlier entry that goes |
| WebSocketClient.WebSocketService.constructor | lib/websocket.ts:65-74 | a new service has connected: it is open, with no handlers and no attempts counted |
| WebSocketClient.WebSocketService.Connect | lib/websocket.ts:76-115 | a no-op while connecting. Otherwise a success opens the socket, clears `isConnecting` and resets the attempt count. A failure runs `handleReconnect` and leaves `isConnecting` set |
| WebSocketClient.WebSocketService.HandleReconnect | lib/websocket.ts:164-178 | at 5 attempts nothing is scheduled and nothing changes; otherwise the count goes up by one and the scheduled delay is `1000 * 2^(attempts-1)`, so the count never passes 5 |
| WebSocketClient.WebSocketService.HandleMessage | lib/websocket.ts:180-189 | exactly the handlers registered for the message's type are called, in registration order, and a throwing handler does not stop the later ones |
| WebSocketClient.WebSocketService.Subscribe | lib/websocket.ts:192-200 | the handler is appended to its type's list (created when absent) and no other type's list changes |
| WebSocketClient.WebSocketService.Unsubscribe | lib/websocket.ts:200-208 | removes the first occurrence of the handler from its type's list only; a no-op when the list or the handler is gone |
| WebSocketClient.WebSocketService.Send | lib/websocket.ts:211-217 | the message is transmitted exactly when the socket is open |
| WebSocketClient.WebSocketService.Disconnect | lib/websocket.ts:270-276 | the socket is dropped and every handler forgotten, after which `isConnected()` is false |
| WebSocketClient.FailedConnectBlocksReconnect | lib/websocket.ts:77-90 | after a failed connect, the retried connect does nothing: `isConnecting` stays set |
| WebSocketClient.SubscribeThenUnsubscribe | lib/websocket.ts:192-208 | subscribing a new handler and calling the returned closure leaves its type's list as it was |
| WebSocketServer.Deliveries | lib/websocket-server.ts:34-49 | a broadcast delivers the message only to room members that have a connection, and to every such member |
| WebSocketServer.DeliveriesDistinct | lib/websocket-server.ts:34-41 | since a room holds no duplicates, each connected member receives a broadcast exactly once |
| WebSocketServer.Add | lib/websocket-server.ts:81 | `Set.add`: the room afterwards is the old members plus the user |
| WebSocketServer.AddIdempotent | lib/websocket-server.ts:81 | adding a user twice is adding once |
| WebSocketServer.Without | lib/websocket-server.ts:96 | `Set.delete`: the room afterwards is the old members minus the user |
| WebSocketServer.WithoutPresent | lib/websocket-server.ts:96 | removing a present member shrinks the room by exactly one |
| WebSocketServer.WithoutAbsent | lib/websocket-server.ts:96 | removing a non-member changes nothing |
| WebSocketServer.Joined | lib/websocket-server.ts:76-81 | after a join the room exists and holds the user, and no other room changes |
| WebSocketServer.JoinIdempotent | lib/websocket-server.ts:76-81 | joining twice leaves the rooms as joining once: a single membership |
| WebSocketServer.MockWebSocketServer.constructor | lib/websocket-server.ts:12-14 | a new server has no connections and no rooms |
| WebSocketServer.MockWebSocketServer.Start | lib/websocket-server.ts:16-61 | adds the three simulated connections and sets rooms room-1 and room-2 to their simulated members; other rooms are kept |
| WebSocketServer.MockWebSocketServer.Stop | lib/websocket-server.ts:28-32 | empties both the connections and the rooms |
| WebSocketServer.MockWebSocketServer.SendToUser | lib/websocket-server.ts:43-49 | delivers exactly when the user has a connection |
| WebSocketServer.MockWebSocketServer.Broadcast | lib/websocket-server.ts:34-41 | delivers to the room's connected members in membership order, each exactly once; an unknown room receives nothing |
| WebSocketServer.MockWebSocketServer.JoinRoom | lib/websocket-server.ts:76-91 | the room is created when missing and the user is added, with no other room changed; `user_joined` goes once to every connected member, the joiner included |
| WebSocketServer.MockWebSocketServer.LeaveRoom | lib/websocket-server.ts:93-107 | an unknown room: nothing changes and nobody is told; a known room: the user is removed from it alone and the remaining connected members, never the leaver, get `user_left` once each |
| WebSocketServer.MockWebSocketServer.SendRoomMessage | lib/websocket-server.ts:109-119 | broadcasts the room message once to each of the room's connected members |
| WebSocketServer.MockWebSocketServer.SendCodeUpdate | lib/websocket-server.ts:121-132 | broadcasts the code update once to each of the room's connected members |
| Auth.Project | lib/auth.ts:49-57 | the session keeps id, username, email, avatar, level, xp and reputation of the stored user |
| Auth.UsernameOfSpec | lib/auth.ts:38 | login looks up the part of the email before its first `@`, or the whole email when there is none |
| Auth.UsernameOfAddress | lib/auth.ts:38 | the address `name@domain` logs in as `name` |
| Auth.Token | lib/auth.ts:62 | the token starts with `mock-jwt-token-` |
| Auth.NewUser | lib/auth.ts:81-88 | a registered user starts at level 1 with no XP and no reputation, and has the welcome bio |
| Auth.LevelFor | lib/auth.ts:154 | the level is the one whose band of 1000 XP holds the XP: `(level-1)*1000 <= xp < level*1000` |
| Auth.LevelMonotone | lib/auth.ts:154 | more XP never gives a lower level |
| Auth.RegisteredIsFound | lib/auth.ts:75-88 | once a free username is registered, looking it up finds the new account |
| Auth.AuthState.constructor | lib/auth.ts:26 | nobody is logged in at first |
| Auth.AuthState.IsAuthenticated | lib/auth.ts:118-120 | true exactly when there is a current user |
| Auth.AuthState.Login | lib/auth.ts:35-69 | null exactly when the looked-up user is missing or the password's `length` (UTF-16 code units) is under 6, with the session unchanged; otherwise the user's projection becomes current and a token is returned |
| Auth.AuthState.Register | lib/auth.ts:72-110 | a taken username gives null and creates nothing; otherwise a level-1 user is appended and becomes current |
| Auth.AuthState.Logout | lib/auth.ts:113-115 | afterwards nobody is authenticated |
| Auth.AuthState.Store | lib/auth.ts:127-141 | writes the patch to the logged-in user's record alone and makes its projection current; null with nothing changed when the record is gone |
| Auth.AuthState.UpdateProfile | lib/auth.ts:123-146 | logged out: null and no change; otherwise the patch is merged into the logged-in user's record only |
| Auth.AuthState.AddXP | lib/auth.ts:149-179 | logged out: null and no change. Otherwise XP becomes the session's XP plus the amount, the level follows `LevelFor`, both are written to the record, the session becomes the record's new projection, and reputation stays as stored |
| Auth.AuthState.AddReputation | lib/auth.ts:182-210 | logged out: null and no change; otherwise reputation grows by the amount, while XP and level stay as stored, and the session becomes the record's new projection |
| ServerActions.ParseTags | lib/server-actions.ts:107-108 | an absent or empty tag string gives no tags; otherwise one trimmed tag per comma-separated piece |
| ServerActions.ParseTagsSpec | lib/server-actions.ts:108 | a present tag string gives one more tag than it has commas (empty pieces kept), and no tag holds a comma or starts or ends with whitespace |
| ServerActions.RoomFromForm | lib/server-actions.ts:74-90 | private exactly when the field is "true"; `maxParticipants` 10 unless it parses to a non-zero number; one participant, hosted by the caller |
| ServerActions.DropFromForm | lib/server-actions.ts:106-121 | trimmed content, the parsed tags, no likes and no comments, by the caller |
| ServerActions.SessionFromForm | lib/server-actions.ts:144-164 | duration defaults to 3600 and `maxParticipants` to 20; no participants yet, status "upcoming" |
| ServerActions.ProfilePatch | lib/server-actions.ts:180-191 | the patch overwrites exactly bio and the three social fields, a missing one with null |
| ServerActions.LoginAction | lib/server-actions.ts:9-29 | an empty field fails before `auth.login` runs; a refused login (unknown user, or a password `length` under 6 UTF-16 code units) is "Invalid credentials"; a successful one redirects to /dashboard with the user logged in |
| ServerActions.RegisterAction | lib/server-actions.ts:31-56 | missing fields, and then a password whose `length` is under 6 UTF-16 code units, fail with nothing created; a taken username fails; otherwise the user is created and logged in |
| ServerActions.LoginActionAsWritten | lib/server-actions.ts:17-28 | as written: the same checks and state changes as `LoginAction`, but a successful login answers "Login failed. Please try again." and never redirects |
| ServerActions.RegisterActionAsWritten | lib/server-actions.ts:44-55 | as written: the same checks and state changes as `RegisterAction`, but a successful registration answers "Registration failed. Please try again." and never redirects |
| ServerActions.LoginRedirectSwallowed | lib/server-actions.ts:17-28 | a stored "alice" signing in as alice@devhive.io with "secret" is logged in yet told the login failed as written, and redirected to /dashboard by the intended action |
| ServerActions.LogoutAction | lib/server-actions.ts:58-62 | ends the session and redirects to / |
| ServerActions.CreateRoomAction | lib/server-actions.ts:65-97 | without a session it fails before any field check, then fails on a missing name, description or language; otherwise the room from the form is appended |
| ServerActions.CreateDropAction | lib/server-actions.ts:100-131 | without a session it fails first, then fails on blank content with nothing changed; otherwise the drop is appended, the author's record gets XP + 50, and the session becomes that record's new projection |
| ServerActions.CreateSessionAction | lib/server-actions.ts:134-171 | without a session it fails first, then fails on any missing field; otherwise the session from the form is appended |
| ServerActions.UpdateProfileAction | lib/server-actions.ts:174-202 | without a session it fails first; a vanished record is "Failed to update profile"; otherwise the four fields are written and the new projection returned |
| Api.Summary | app/api/sessions/route.ts:43-48 | the summary carries the user's id, username, avatar and level |
| Api.SummaryOf | app/api/sessions/route.ts:39-49 | null exactly when no user has the id; otherwise the summary of the first user that has it |
| Api.IntParam | app/api/rooms/route.ts:10-11 | a missing or empty parameter gives the default, a numeric one its value, and a non-numeric one NaN |
| Api.RoutePage | app/api/rooms/route.ts:29-39 | `total` is the list's length; with numeric page and limit the answer is `paginate`'s, and a NaN page or limit gives no items and no `hasMore` |
| Api.FilterWhen | app/api/rooms/route.ts:16-18 | a filter step applies only when its condition holds, and otherwise returns the list unchanged |
| ApiLeaderboard.ScoreOf | app/api/leaderboard/route.ts:7-25 | "reputation" and "level" select those scores exactly; anything else, absent included, selects XP |
| ApiLeaderboard.Descending | app/api/leaderboard/route.ts:14-25 | the ascending key is the negated chosen score, matching the comparator `b - a` |
| ApiLeaderboard.Ranked | app/api/leaderboard/route.ts:28-37 | entry i has rank i + 1 and the fields of the i-th user |
| ApiLeaderboard.Get | app/api/leaderboard/route.ts:4-44 | the handler, which sorts a copied array in place, returns the board the pure specification describes, and the table is not touched |
| ApiLeaderboard.PrefixSlice | app/api/leaderboard/route.ts:28 | `slice(0, limit)` is a prefix of the standings: `limit` clipped to the list when non-negative, the list minus its last `-limit` items when negative, and empty for NaN |
| ApiLeaderboard.BoardSize | app/api/leaderboard/route.ts:8-43 | for a non-negative limit (default 50) the board has min(limit, users) entries, and for a non-numeric limit none; `total` counts every user |
| ApiLeaderboard.BoardEntries | app/api/leaderboard/route.ts:13-37 | ranks run 1, 2, ..., k, and each entry is the user at that place in standings that hold every user as often as the table |
| ApiLeaderboard.BoardNoRepeats | app/api/leaderboard/route.ts:13-28 | the users shown are a sub-multiset of the table: none appears more often than it is stored |
| ApiLeaderboard.BoardOrdered | app/api/leaderboard/route.ts:14-28 | the chosen score never increases from one entry to the next |
| ApiAchievements.Get | app/api/achievements/route.ts:9-14 | an absent or empty category, or exactly "all", returns everything; otherwise exactly the achievements whose category matches case-insensitively |
| ApiAchievements.GetOrder | app/api/achievements/route.ts:9-14 | the result keeps the store's order |
| ApiAchievements.UpperCaseAllFilters | app/api/achievements/route.ts:12-13 | "ALL" is not the escape: it filters, keeping only categories that lower-case to "all" |
| ApiRooms.FilteredSpec | app/api/rooms/route.ts:13-26 | a room survives exactly when stored, of the requested language when one applies, and matching the query in name or description when there is one; the stored order is kept |
| ApiRooms.GetPage | app/api/rooms/route.ts:10-39 | `total` is the filtered count and page and limit are echoed (NaN as null); for page >= 1 and limit >= 0 (defaults 1 and 10) the rooms are the window of the filtered list and `hasMore` means the window ends before it; a non-numeric page or limit gives no rooms and no `hasMore` |
| ApiRooms.NewRoom | app/api/rooms/route.ts:61-69 | private only when `isPrivate` is true; `maxParticipants` 10 when missing or 0; one participant, hosted by the caller |
| ApiRooms.Post | app/api/rooms/route.ts:47-80 | 401 without a session; 400 on a missing name, description or language; otherwise the new room is appended and returned |
| ApiDrops.AnyTagContains | app/api/drops/route.ts:26 | true exactly when some lower-cased tag contains the query |
| ApiDrops.FilteredMembers | app/api/drops/route.ts:13-28 | a drop survives exactly when stored, carrying the exact tag when one applies, and matching the query in content or a tag when there is one |
| ApiDrops.FilteredOrder | app/api/drops/route.ts:13-28 | the filtered list is a sub-list of `findAll`, newest first |
| ApiDrops.WithAuthors | app/api/drops/route.ts:36-51 | each drop is paired with its author's summary, null when no user has the author id |
| ApiDrops.GetPage | app/api/drops/route.ts:10-59 | the drops are the window of the filtered list with authors attached; `total`, the echoed page and limit, `hasMore` and the non-numeric case as for rooms |
| ApiDrops.NewDrop | app/api/drops/route.ts:81-87 | trimmed content, tags defaulting to none, no likes and no comments |
| ApiDrops.Post | app/api/drops/route.ts:67-101 | 401 without a session; 400 on missing or blank content with nothing changed; otherwise the drop is appended, the author's record gets XP + 50, and the session becomes that record's new projection |
| ApiSessions.WithHosts | app/api/sessions/route.ts:37-52 | each session is paired with its host's summary, null when no user has the host id |
| ApiSessions.FilteredMembers | app/api/sessions/route.ts:14-29 | a session survives exactly when stored and matching status whenever given, and type and difficulty unless absent or "all" |
| ApiSessions.FilteredOrder | app/api/sessions/route.ts:14-29 | the filtered list is a sub-list of `findAll`, earliest `scheduledAt` first |
| ApiSessions.GetPage | app/api/sessions/route.ts:11-60 | the sessions are the window of the filtered list with hosts attached; `total`, the echoed page and limit, `hasMore` and the non-numeric case as for rooms |
| ApiSessions.Post | app/api/sessions/route.ts:68-107 | 401 without a session; 400 on any missing field; otherwise the session (duration 3600 and 20 participants by default, status "upcoming") is appended and returned |

## Left out

- The timers: the periodic mock traffic of both WebSocket mocks and the participant update that `start` schedules. These are `setInterval`, `Math.random` and `process.env`.
- The `setTimeout` in `handleReconnect`: the model returns the delay it would schedule instead.
- The React hooks at the end of `lib/websocket.ts`: UI code.
- The `localStorage` session helpers of `lib/auth.ts`: browser I/O.
- `dbUtils.generateId`, the `${prefix}-${Date.now()}` ids and the clock: ids and `now` are parameters, and their uniqueness is not claimed.
- Logging (`console.*`): it has no effect on state. The server's `sendToUser` returns its delivery instead of logging it.
- The client's `joinRoom`, `leaveRoom`, `sendRoomMessage` and `sendCodeUpdate` (lib/websocket.ts:219-268). Each only builds a message and calls `send`, which `WebSocketService.Send` models for any message.
- The `findAll` of users, rooms and achievements: each returns a plain copy, which the model reads as the table's `rows`.
- CORS headers, `NextResponse`, cookies, `revalidatePath` and `request.json()`: framework plumbing. Responses are the `Api.Response` datatype.
- The `catch` branches that answer 500 or "Failed to create ...": every modelled operation is total, so they cannot fire.
- The seeded records of `lib/database.ts` (`mockUsers`, `mockRooms`, `mockDrops`, `mockSessions`, `mockAchievements`, lines 72-219) are not reproduced. `Database.Store.constructor` takes the initial rows as parameters, so every property holds for any starting data, the seeded data included.
- Next.js `redirect()` throws to perform the redirect. `ServerActions.LoginAction` and `ServerActions.RegisterAction` model the intended redirect; the code as written catches it, which "## Findings" records.
- Parsing itself: `Number.parseInt` on text, `new Date(string)` and the JSON body's runtime types. Inputs arrive parsed and typed. NaN is a value of its own only for the GET routes' page and limit; a date is always a valid time (see the next line).
- Database.SessionsFindAllSpec, ApiSessions.FilteredOrder: the earliest-first order is proved only when every stored `scheduledAt` is a valid date. `new Date(text)` on a string that is not a date (app/api/sessions/route.ts:94, lib/server-actions.ts:162) stores an Invalid Date whose time is NaN. The `findAll` comparator (lib/database.ts:345) then returns NaN, which `sort` reads as 0, so the comparator is inconsistent and the resulting order is left to the engine. The model's `parseDate: string -> int` in `ApiSessions.Post` and `ServerActions.CreateSessionAction` always yields a time, so it does not represent that case.
- JavaScript numbers are doubles; the model uses unbounded integers, so no precision loss beyond 2^53 is modelled.
- `await` and `Promise.all`: every operation runs to completion in sequence.
- Handlers are opaque identities: a handler that calls back into the service while `handleMessage` iterates is not modelled.
- `isPublicRoute` (lib/middleware.ts:16) is computed but never used.
- The stray backslashes in `lib/database.ts` around `paginate` and `search` make that text invalid TypeScript; the model follows the evident intent of both helpers.
- The pages, components, canvas animation and AI assistant: UI only.
- The thin `app/api/auth/*` and `app/api/users/profile` routes: they only map `lib/auth.ts` results to status codes and cookies.

## Findings

| source | as written | input that shows it | evidently intended | confidence | as-written member | corrected member |
|---|---|---|---|---|---|---|
| lib/server-actions.ts:17-28 | `redirect("/dashboard")` runs inside the `try`; Next.js redirects by throwing, and the `catch` returns "Login failed. Please try again." | a stored user "alice", email alice@devhive.io, password "secret": the user is logged in, but the action answers that the login failed | a successful login redirects to /dashboard | high, not executed | ServerActions.LoginActionAsWritten | ServerActions.LoginAction |
| lib/server-actions.ts:44-55 | the same `redirect` inside the `try`, caught as "Registration failed. Please try again." | a free username with a 6-character password: the account is created and logged in, but the action answers that registration failed | a successful registration redirects to /dashboard | high, not executed | ServerActions.RegisterActionAsWritten | ServerActions.RegisterAction |
