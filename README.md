# Review-workflow dashboard: a verified model of its store and page logic

This project models the core of a role-based dashboard for producing review
content. Admins, writers and providers work on clients, their locations, and
review **tasks** that move through the workflow New → Writing → Written →
Delivered. The core has two parts:

- **The store** (`src/store/useStore.ts`). It holds one state record: the
  signed-in user, the clients, locations, users and tasks, and a global
  activity feed (newest first). There is one action per mutation. The
  `Store` module has two layers:
  - `StoreState`, `Action` and `Apply` say what each action does to the whole
    record. Lemmas about `Apply` state the properties: one feed entry per
    logging action, frame conditions, no transition guards, name fallbacks
    in log texts.
  - The class `Store.AppStore` keeps the record in mutable sequence fields.
    It has one method per action, and each method is proved to leave the
    fields exactly as `Apply` says.
- **The pure selectors, validators and handlers of the pages.** Each page
  file has its own module: `AdminLocations`, `AdminUsers`, `AdminOverview`,
  `AdminActivity`, `WriterQueue`, `WriterTaskDetail`, `ProviderDelivery`
  and `LoginPage`. Pure logic is modelled as functions with lemmas. The
  counting loops are methods proved against a function. Each page's form
  state (dialog, editor, login form, paging) is a class whose handlers call
  the `AppStore` methods.

Shared modules:

- `Types`: the entities and enums of `src/data/types.ts`.
- `Utils`: `truncate` and `formatRelativeTime`.
- `Lookups`: the two id-to-name lookups. A `Map` built from pairs keeps the
  last duplicate; `find` keeps the first.
- `Text`: the JavaScript string operations the pages use.
- `Seqs`: filters, subsequences, first-occurrence dedupe, tallies and a
  descending sort.

Clock readings and generated ids are parameters. A `Stamp` carries the
entry id (`crypto.randomUUID()`) and the time (`new Date()`). `newId` stands
for `generateId()`. Timestamps are milliseconds since the epoch (`Instant`).
The seed collections are constructor parameters.

The store's actions are unguarded, and the model keeps them so:

- Task actions check neither that the task exists nor its status. An
  action on an unknown id changes no task but still logs an entry, and
  `markWritten`/`markDelivered` succeed from any status.
- `writtenAt`/`deliveredAt` are overwritten on every call.
- `delete*` removes every record with the id, not just the first.
- The store's `login(role)` takes only the role. It signs in the first seed
  user with that role, whatever e-mail address was typed on the login page.

## Model

| member | source | states |
|---|---|---|
| Types.PlatformOfName | src/data/types.ts:7 | a stored name denotes a platform exactly when it is one of the five names, matched exactly |
| Types.PlatformNameRoundTrip | src/data/types.ts:7 | every platform's name reads back as that platform |
| Types.PlatformNameInjective | src/data/types.ts:7 | no two platforms share a name |
| Utils.Truncate | src/lib/utils.ts:40-43 | a string no longer than the limit is returned unchanged; a longer one becomes its first `n` characters followed by "...", of length n+3 |
| Utils.TruncatePrefix | src/lib/utils.ts:40-43 | the result is always a prefix of the input, possibly followed by "...", and never longer than the limit plus three |
| Utils.Relative | src/lib/utils.ts:21-34 | "Just now" exactly when the difference is under a minute, future moments included; otherwise the first bucket of minutes (<60), hours (<24) or days (<7) that applies, with the floor-divided count bounding the difference; the absolute date from 7 days on |
| Utils.FormatRelativeTimeLabels | src/lib/utils.ts:21-34 | a future moment reads "Just now"; a minute-bucket label reads back as the elapsed whole minutes; from 7 days on the label is the formatted date |
| Lookups.ClientMapGet | src/pages/admin/AdminLocations.tsx:78-81 | `new Map(clients.map(...)).get(id)` is absent exactly when no client has the id, and otherwise is the name of the LAST client with it |
| Lookups.LocationMapGet | src/pages/writer/WriterQueue.tsx:61-64 | the location map answers with the name of the last location with the id, or nothing |
| Lookups.ClientFindName | src/pages/provider/ProviderDelivery.tsx:41-42 | `clients.find` answers with the name of the FIRST client with the id, or nothing when none has it |
| Lookups.LocationFindName | src/pages/provider/ProviderDelivery.tsx:44-45 | `locations.find` answers with the first location with the id, or nothing |
| Lookups.UserFindName | src/pages/provider/ProviderDelivery.tsx:47-48 | `users.find` answers with the first user with the id, or nothing |
| Lookups.MapAndFindDisagreeOnDuplicates | src/pages/admin/AdminOverview.tsx:153 | with two clients sharing an id the map names the later one and `find` the earlier one |
| Store.MergeLaws | src/store/useStore.ts:212-219 | a shallow merge of an empty partial changes nothing, and merging the same partial twice is the same as once (clients, locations, users) |
| Store.RemoveClient | src/store/useStore.ts:229 | the filtered clients are an order-preserving subsequence holding no record with the id and every record without it |
| Store.RemoveLocation | src/store/useStore.ts:264 | the same for locations |
| Store.RemoveUser | src/store/useStore.ts:299 | the same for users |
| Store.InitialGlobalActivity | src/store/useStore.ts:69-71 | the initial feed is a permutation of all seed tasks' entries, sorted newest first |
| Store.InitialFeedTiesInSeedOrder | src/store/useStore.ts:69-71 | entries with equal timestamps keep their order in the flattened seed logs, as the stable `sort` leaves them |
| Store.ApplyLogsOneEntry | src/store/useStore.ts:105-302 | every action but login/logout prepends exactly one entry, built from the stamp and the action text, in front of the unchanged feed and keeps the signed-in user; login/logout change only `currentUser` |
| Store.EntryActorIsCurrentUser | src/store/useStore.ts:17-23 | an entry's user id and name are those of the user signed in at call time, and both are absent when nobody is |
| Store.RunFeed | src/store/useStore.ts:105-302 | over any sequence of actions the feed grows by the number of logging actions and keeps every older entry, in order, at its end |
| Store.LoginPicksFirstSeedUser | src/store/useStore.ts:93-99 | `login(role)` signs in the first seed user with that role, or nobody when there is none; `logout` signs out |
| Store.StartWritingEffect | src/store/useStore.ts:105-121 | each task with the id gets status Writing, label "In Progress" and the new entry appended to its log, and no other field changes; every other task and every other collection stays |
| Store.UnknownTaskStillLogged | src/store/useStore.ts:105-197 | a task action naming an id no task has leaves the tasks unchanged and still adds one feed entry |
| Store.MarkAnyStatus | src/store/useStore.ts:140-176 | from any status, `markWritten`/`markDelivered` set Written/Delivered, the matching label, and `writtenAt`/`deliveredAt` to the call's time |
| Store.TaskStep | src/store/useStore.ts:105-197 | a task action rewrites exactly the tasks with its id and adds one entry to the feed |
| Store.MarkWrittenTwiceKeepsLatest | src/store/useStore.ts:140-157 | marking written twice keeps the second time and logs two entries on the task |
| Store.Lifecycle | src/store/useStore.ts:105-176 | start, mark written, mark delivered: the task ends Delivered with both timestamps set and three more entries on its log and on the feed |
| Store.SaveDraftLastWriteWins | src/store/useStore.ts:123-138 | `saveDraft` changes only the draft and the log of the matching task; a second save leaves the second text; other tasks stay |
| Store.ReassignEffect | src/store/useStore.ts:178-197 | reassigning changes only the writer and the log of the matching task; the log text names the first user with the writer id, or the raw id when there is none |
| Store.AddClientEffect | src/store/useStore.ts:203-210 | `addClient` appends the record at the end and touches no other collection |
| Store.UpdateClientEffect | src/store/useStore.ts:212-219 | `updateClient` merges the partial into exactly the records with the id |
| Store.DeleteClientEffect | src/store/useStore.ts:221-232 | `deleteClient` removes every record with the id, keeps the others in order, and leaves locations, users and tasks as they are |
| Store.DeleteClientText | src/store/useStore.ts:223-227 | the delete entry names the first client with the id, or the id itself when none is found |
| Store.AddLocationEffect | src/store/useStore.ts:238-245 | `addLocation` appends the record at the end |
| Store.UpdateLocationEffect | src/store/useStore.ts:247-254 | `updateLocation` merges the partial into exactly the records with the id |
| Store.DeleteLocationEffect | src/store/useStore.ts:256-267 | `deleteLocation` removes every record with the id and touches no other collection |
| Store.DeleteLocationText | src/store/useStore.ts:258-262 | the delete entry names the location or falls back to the id |
| Store.AddUserEffect | src/store/useStore.ts:273-280 | `addUser` appends the record at the end |
| Store.UpdateUserEffect | src/store/useStore.ts:282-289 | `updateUser` merges the partial into exactly the records with the id |
| Store.DeleteUserEffect | src/store/useStore.ts:291-302 | `deleteUser` removes every record with the id and touches no other collection |
| Store.DeleteUserText | src/store/useStore.ts:293-297 | the delete entry names the user or falls back to the id |
| Store.AppStore.constructor | src/store/useStore.ts:82-87 | the store starts with nobody signed in, the seed collections and the initial feed |
| Store.AppStore.Login | src/store/useStore.ts:93-97 | the fields after `login` are `Apply` of the old ones |
| Store.AppStore.Logout | src/store/useStore.ts:99 | `logout` clears only `currentUser` |
| Store.AppStore.StartWriting | src/store/useStore.ts:105-121 | the fields after the call are `Apply` of the old ones |
| Store.AppStore.SaveDraft | src/store/useStore.ts:123-138 | the fields after the call are `Apply` of the old ones |
| Store.AppStore.MarkWritten | src/store/useStore.ts:140-157 | the fields after the call are `Apply` of the old ones |
| Store.AppStore.MarkDelivered | src/store/useStore.ts:159-176 | the fields after the call are `Apply` of the old ones |
| Store.AppStore.ReassignTask | src/store/useStore.ts:178-197 | the fields after the call are `Apply` of the old ones, log text included |
| Store.AppStore.AddClient | src/store/useStore.ts:203-210 | the fields after the call are `Apply` of the old ones |
| Store.AppStore.UpdateClient | src/store/useStore.ts:212-219 | the fields after the call are `Apply` of the old ones |
| Store.AppStore.DeleteClient | src/store/useStore.ts:221-232 | the fields after the call are `Apply` of the old ones, log text included |
| Store.AppStore.AddLocation | src/store/useStore.ts:238-245 | the fields after the call are `Apply` of the old ones |
| Store.AppStore.UpdateLocation | src/store/useStore.ts:247-254 | the fields after the call are `Apply` of the old ones |
| Store.AppStore.DeleteLocation | src/store/useStore.ts:256-267 | the fields after the call are `Apply` of the old ones |
| Store.AppStore.AddUser | src/store/useStore.ts:273-280 | the fields after the call are `Apply` of the old ones |
| Store.AppStore.UpdateUser | src/store/useStore.ts:282-289 | the fields after the call are `Apply` of the old ones |
| Store.AppStore.DeleteUser | src/store/useStore.ts:291-302 | the fields after the call are `Apply` of the old ones |
| AdminActivity.SearchFeed | src/pages/admin/AdminActivity.tsx:56-64 | a blank query returns the feed unchanged; otherwise the result is the order-preserving subsequence of exactly the entries whose action or user name contains the untrimmed query, ignoring case |
| AdminActivity.VisiblePrefix | src/pages/admin/AdminActivity.tsx:66-71 | the visible entries are the first min(visibleCount, \|filtered\|) entries; `hasMore` holds exactly when some are hidden, and then the remaining count is positive and completes the list |
| AdminActivity.LoadMoreExtends | src/pages/admin/AdminActivity.tsx:73-75 | loading more keeps the shown entries at the head and shows at most one page more, and more whenever some were hidden |
| AdminActivity.SearchResetsPaging | src/pages/admin/AdminActivity.tsx:107-110 | after a new query at most one page, from the head of its results, is shown |
| AdminActivity.ActivityView.constructor | src/pages/admin/AdminActivity.tsx:50-53 | the page starts with an empty search and one page |
| AdminActivity.ActivityView.LoadMore | src/pages/admin/AdminActivity.tsx:73-75 | `loadMore` raises the count by 20 and keeps the search |
| AdminActivity.ActivityView.OnSearchChange | src/pages/admin/AdminActivity.tsx:107-110 | a new query is stored and the count goes back to 20 |
| AdminLocations.TrimAll | src/pages/admin/AdminLocations.tsx:150 | each piece is trimmed, none is dropped |
| AdminLocations.KnownPlatformsAppend | src/pages/admin/AdminLocations.tsx:151 | the validity filter works piece by piece over concatenation |
| AdminLocations.ParsePlatformsPiece | src/pages/admin/AdminLocations.tsx:146-152 | a field without commas yields the platform its trimmed text names exactly, or nothing |
| AdminLocations.ParsePlatformsAppend | src/pages/admin/AdminLocations.tsx:148-151 | each comma-separated piece contributes on its own, in order: no reordering, no deduplication |
| AdminLocations.ParsePlatformsEmpty | src/pages/admin/AdminLocations.tsx:148-151 | an empty field yields no platforms |
| AdminLocations.ParsePlatformsCaseSensitive | src/pages/admin/AdminLocations.tsx:149-151 | a lower-case word such as "google" yields no platform |
| AdminLocations.ParseJoinedPlatforms | src/pages/admin/AdminLocations.tsx:139 | the platform text the edit dialog shows parses back to the location's platform list |
| AdminLocations.SlaHours | src/pages/admin/AdminLocations.tsx:173 | `Number(field) \|\| 48` is never 0 |
| AdminLocations.SlaHoursRoundTrip | src/pages/admin/AdminLocations.tsx:185 | an SLA saves back unchanged except that 0 becomes 48, and a blank field saves 48 |
| AdminLocations.PendingByLocation | src/pages/admin/AdminLocations.tsx:83-95 | the counting loop yields the tally of pending tasks by location |
| AdminLocations.PendingAtCounts | src/pages/admin/AdminLocations.tsx:83-95 | the count shown for a location is the number of its tasks in New, Writing or Written |
| AdminLocations.DeliveredNotCounted | src/pages/admin/AdminLocations.tsx:86-92 | a delivered task changes no count |
| AdminLocations.ByClient | src/pages/admin/AdminLocations.tsx:101-103 | the client filter, when set, keeps exactly the locations of that client, in order |
| AdminLocations.ByActive | src/pages/admin/AdminLocations.tsx:105-109 | "active"/"inactive" keep exactly the active/inactive locations; any other value keeps all |
| AdminLocations.BySearch | src/pages/admin/AdminLocations.tsx:111-120 | a non-blank search keeps exactly the locations whose name, city, client name or Airtable id contains it, ignoring case |
| AdminLocations.FilteredLocationsExactly | src/pages/admin/AdminLocations.tsx:98-123 | the shown locations are an order-preserving subsequence of exactly those passing every active filter |
| AdminLocations.EditThenSaveKeepsFields | src/pages/admin/AdminLocations.tsx:132-144 | saving an opened location unchanged keeps its platforms and its SLA (0 becoming 48) |
| AdminLocations.CheckForm | src/pages/admin/AdminLocations.tsx:155-162 | the save stops with "name required" exactly for a blank name, with "client required" exactly for a named form without a client, and saves otherwise |
| AdminLocations.LocationsPage.constructor | src/pages/admin/AdminLocations.tsx:73-75 | the dialog starts closed with the empty form |
| AdminLocations.LocationsPage.OpenAdd | src/pages/admin/AdminLocations.tsx:126-130 | opens the dialog with the empty form and nothing being edited |
| AdminLocations.LocationsPage.OpenEdit | src/pages/admin/AdminLocations.tsx:132-144 | opens the dialog with the form filled from the location |
| AdminLocations.LocationsPage.HandleSave | src/pages/admin/AdminLocations.tsx:154-192 | a failed check makes no store call; otherwise exactly one update or add, with the trimmed fields, parsed platforms and SLA fallback, and the dialog closes |
| AdminLocations.LocationsPage.CloseDialog | src/pages/admin/AdminLocations.tsx:191 | closes the dialog and keeps the form |
| AdminLocations.LocationsPage.HandleDelete | src/pages/admin/AdminLocations.tsx:194-200 | deletes the location only when confirmed |
| AdminLocations.SaveLocation | src/pages/admin/AdminLocations.tsx:164-189 | an edited location is updated and a new one added with the generated id |
| AdminOverview.IsPendingIffNotDelivered | src/pages/admin/AdminOverview.tsx:44-50 | a task is pending exactly when it is not Delivered |
| AdminOverview.TotalPendingComplement | src/pages/admin/AdminOverview.tsx:117 | the pending total plus the delivered count is the number of tasks |
| AdminOverview.SumMrrAppend | src/pages/admin/AdminOverview.tsx:128 | the revenue sum adds up over concatenation |
| AdminOverview.MrrSnoc | src/pages/admin/AdminOverview.tsx:127-132 | one more client adds its MRR when Active and nothing when Paused or Cancelled; the annual figure moves twelve times as much |
| AdminOverview.MrrAppend | src/pages/admin/AdminOverview.tsx:127-130 | MRR adds up over any split of the clients |
| AdminOverview.MrrNoActive | src/pages/admin/AdminOverview.tsx:127-132 | without active clients MRR and annual revenue are 0 |
| AdminOverview.ClientStatusData | src/pages/admin/AdminOverview.tsx:135-143 | the counting loop yields the per-status counts with the zero ones dropped |
| AdminOverview.StatusCountsTotal | src/pages/admin/AdminOverview.tsx:136-139 | the three status counts add up to the number of clients |
| AdminOverview.StatusDataShape | src/pages/admin/AdminOverview.tsx:140-142 | the entries are exactly the positive counters, each once, in key order |
| AdminOverview.ClientStatusDataShape | src/pages/admin/AdminOverview.tsx:135-143 | the chart shows each status with clients exactly once, with its count, and the values sum to the number of clients |
| AdminOverview.AtRiskLocations | src/pages/admin/AdminOverview.tsx:146-164 | the loop, filter, map and sort compute the at-risk rows |
| AdminOverview.AtRiskExactly | src/pages/admin/AdminOverview.tsx:146-164 | the list holds a row for every location with at least 3 pending tasks and for no other, sorted by non-increasing pending count |
| AdminOverview.SortedRowsShape | src/pages/admin/AdminOverview.tsx:154-163 | any sorted permutation of the at-risk rows lists exactly the at-risk locations |
| AdminOverview.RowClientName | src/pages/admin/AdminOverview.tsx:153-160 | a row's client name is that of the LAST client with the id, as the map keeps it, or "Unknown" when there is none |
| AdminOverview.AtRiskTiesKeepLocationOrder | src/pages/admin/AdminOverview.tsx:146-163 | rows with the same pending count are listed in the order of their locations, since the sort is stable |
| AdminUsers.WriterTaskCounts | src/pages/admin/AdminUsers.tsx:87-95 | the counting loop yields the tally of tasks by writer |
| AdminUsers.WriterTaskCountsTotal | src/pages/admin/AdminUsers.tsx:87-95 | each writer's count is the number of their tasks, and the counts sum to the number of tasks with a non-empty writer id |
| AdminUsers.ProviderClientCounts | src/pages/admin/AdminUsers.tsx:97-105 | the loop yields the provider map |
| AdminUsers.ProviderCountsKeys | src/pages/admin/AdminUsers.tsx:97-105 | the map has an entry exactly for providers that have a client list |
| AdminUsers.ProviderCountsLast | src/pages/admin/AdminUsers.tsx:99-102 | each entry is the length of the client list of the last provider with that id |
| AdminUsers.ByRole | src/pages/admin/AdminUsers.tsx:111-113 | the role filter, when set, keeps exactly the users of that role, in order |
| AdminUsers.BySearch | src/pages/admin/AdminUsers.tsx:115-122 | a non-blank search keeps exactly the users whose name or e-mail contains it, ignoring case |
| AdminUsers.FilteredUsersExactly | src/pages/admin/AdminUsers.tsx:108-125 | the shown users are an order-preserving subsequence of exactly those passing both filters |
| AdminUsers.ToggleAbsentAppends | src/pages/admin/AdminUsers.tsx:191-198 | toggling an absent id appends it at the end |
| AdminUsers.TogglePresentRemovesAll | src/pages/admin/AdminUsers.tsx:191-198 | toggling a present id removes every occurrence and keeps the other ids in order |
| AdminUsers.FilterShorter | src/pages/admin/AdminUsers.tsx:195 | filtering out an element that is present shortens the list |
| AdminUsers.ToggleTwice | src/pages/admin/AdminUsers.tsx:191-198 | toggling the same id twice restores whether it, and every other id, is selected |
| AdminUsers.SavedUserFields | src/pages/admin/AdminUsers.tsx:155-170 | on add and on update, client ids are kept only for providers and cleared otherwise; name and e-mail are trimmed; an update keeps the avatar and assigned locations |
| AdminUsers.EditThenSaveKeepsClients | src/pages/admin/AdminUsers.tsx:134-161 | saving an opened provider unchanged keeps its client list (an empty one when it had none) |
| AdminUsers.CheckForm | src/pages/admin/AdminUsers.tsx:145-153 | the save stops exactly when the trimmed name, then the trimmed e-mail, is empty |
| AdminUsers.UsersPage.constructor | src/pages/admin/AdminUsers.tsx:82-84 | the dialog starts closed with the empty form |
| AdminUsers.UsersPage.OpenAdd | src/pages/admin/AdminUsers.tsx:128-132 | opens the dialog with the empty form |
| AdminUsers.UsersPage.OpenEdit | src/pages/admin/AdminUsers.tsx:134-143 | opens the dialog with the form filled from the user |
| AdminUsers.UsersPage.ToggleClient | src/pages/admin/AdminUsers.tsx:191-198 | flips one client id of the form and nothing else |
| AdminUsers.UsersPage.HandleSave | src/pages/admin/AdminUsers.tsx:145-175 | a failed check makes no store call; otherwise exactly one update or add, and the dialog closes |
| AdminUsers.UsersPage.CloseDialog | src/pages/admin/AdminUsers.tsx:174 | closes the dialog and keeps the form |
| AdminUsers.UsersPage.HandleDelete | src/pages/admin/AdminUsers.tsx:177-183 | deletes the user only when confirmed |
| AdminUsers.SaveUser | src/pages/admin/AdminUsers.tsx:155-172 | an edited user is updated and a new one added with the generated id |
| LoginPage.AccountFor | src/pages/login/LoginPage.tsx:9-13 | exactly the three demo addresses have an account, each with the demo password and the role it names |
| LoginPage.RouteOf | src/pages/login/LoginPage.tsx:33-37 | every role has a route |
| LoginPage.RoutesDistinct | src/pages/login/LoginPage.tsx:33-37 | the three roles land on three different routes |
| LoginPage.CheckLogin | src/pages/login/LoginPage.tsx:26-30 | sign-in succeeds exactly when the lower-cased, trimmed address is a demo address and the password matches exactly, and then with that address's role |
| LoginPage.DemoAccountsSignIn | src/pages/login/LoginPage.tsx:26-27 | each demo account signs in with its address and password |
| LoginPage.PaddedEmailSignsIn | src/pages/login/LoginPage.tsx:26 | a demo address typed after a space still signs in |
| LoginPage.PaddedPasswordFails | src/pages/login/LoginPage.tsx:27 | the password is not trimmed: a padded password never signs in |
| LoginPage.DemoAccountFound | src/pages/login/LoginPage.tsx:9-13 | each demo address finds its own account |
| LoginPage.LoginForm.constructor | src/pages/login/LoginPage.tsx:16-18 | the form starts empty with no error |
| LoginPage.LoginForm.HandleLogin | src/pages/login/LoginPage.tsx:22-39 | bad credentials set "Invalid email or password", leave the store alone and do not navigate; good ones clear the error, sign in the first seed user of the account's role, whoever typed the address, and go to that role's route |
| ProviderDelivery.NameLookups | src/pages/provider/ProviderDelivery.tsx:41-48 | client, location and writer names are those of the first record with the id, or "Unknown" |
| ProviderDelivery.WrittenTasks | src/pages/provider/ProviderDelivery.tsx:52-55 | the written list is the order-preserving subsequence of exactly the Written tasks |
| ProviderDelivery.TaskClientIds | src/pages/provider/ProviderDelivery.tsx:58 | the client ids of the tasks, position by position |
| ProviderDelivery.TaskPlatforms | src/pages/provider/ProviderDelivery.tsx:63 | the platforms of the tasks, position by position |
| ProviderDelivery.UniqueChoices | src/pages/provider/ProviderDelivery.tsx:57-65 | each choice list holds every client id / platform of the written tasks exactly once, in first-occurrence order |
| ProviderDelivery.BySearch | src/pages/provider/ProviderDelivery.tsx:72-81 | a non-empty, untrimmed search keeps exactly the tasks whose client, location or writer name, or draft, contains it, ignoring case |
| ProviderDelivery.ByClient | src/pages/provider/ProviderDelivery.tsx:83-85 | the client filter is exact equality |
| ProviderDelivery.ByPlatform | src/pages/provider/ProviderDelivery.tsx:87-89 | the platform filter is exact equality |
| ProviderDelivery.FilteredTasksExactly | src/pages/provider/ProviderDelivery.tsx:69-92 | the listed tasks are an order-preserving subsequence of exactly the written tasks passing every active filter |
| ProviderDelivery.HandleMarkDelivered | src/pages/provider/ProviderDelivery.tsx:96-100 | the handler is the store's `markDelivered` |
| ProviderDelivery.DeliveredTasks | src/pages/provider/ProviderDelivery.tsx:98 | after marking delivered every task with the id is Delivered and the others are unchanged |
| ProviderDelivery.DeliveredLeavesQueue | src/pages/provider/ProviderDelivery.tsx:96-100 | after "Mark Delivered" on an id no task with it is in the written list, and the other written tasks stay |
| ProviderDelivery.WrittenWithoutId | src/pages/provider/ProviderDelivery.tsx:52-55 | a change that delivers exactly the tasks with one id removes them, and only them, from the written list |
| WriterQueue.MyTasks | src/pages/writer/WriterQueue.tsx:67-70 | the writer's tasks are the order-preserving subsequence of exactly the tasks assigned to the signed-in user; none when nobody is signed in |
| WriterQueue.ByStatus | src/pages/writer/WriterQueue.tsx:76-78 | the status filter keeps exactly the tasks of that status |
| WriterQueue.ByPriority | src/pages/writer/WriterQueue.tsx:80-82 | the priority filter keeps exactly the tasks of that priority |
| WriterQueue.ByPlatform | src/pages/writer/WriterQueue.tsx:84-86 | the platform filter keeps exactly the tasks of that platform |
| WriterQueue.BySearch | src/pages/writer/WriterQueue.tsx:88-95 | a non-blank search keeps exactly the tasks whose client or location name contains it, ignoring case |
| WriterQueue.FilteredQueueExactly | src/pages/writer/WriterQueue.tsx:73-98 | the listed tasks are an order-preserving subsequence of exactly the writer's tasks passing every filter |
| WriterQueue.QueueSound | src/pages/writer/WriterQueue.tsx:73-98 | every listed task passes every filter |
| WriterQueue.QueueComplete | src/pages/writer/WriterQueue.tsx:73-98 | every task passing every filter is listed |
| WriterQueue.Counts | src/pages/writer/WriterQueue.tsx:101-109 | All is the number of the writer's tasks, and New, Writing and Written are their status counts; Delivered has no key |
| WriterQueue.StatusCountsTotal | src/pages/writer/WriterQueue.tsx:101-109 | the four status counts add up to the number of tasks |
| WriterQueue.CountsBound | src/pages/writer/WriterQueue.tsx:101-109 | New + Writing + Written is All minus the delivered tasks, so never more than All |
| WriterQueue.RowActionOf | src/pages/writer/WriterQueue.tsx:190-208 | "Start" exactly for New, "Written" exactly for Writing, no transition button for Written and Delivered |
| WriterQueue.HandleRowAction | src/pages/writer/WriterQueue.tsx:112-122 | "Start" runs `startWriting`, "Written" runs `markWritten`, a row without a button changes nothing |
| WriterTaskDetail.WordStartsBlank | src/pages/writer/WriterTaskDetail.tsx:135-139 | blank text holds no word |
| WriterTaskDetail.WordCountCountsWords | src/pages/writer/WriterTaskDetail.tsx:135-139 | the word count is the number of maximal runs of non-space characters, and 0 exactly for blank content |
| WriterTaskDetail.Target | src/pages/writer/WriterTaskDetail.tsx:324-331 | no badge for a missing or zero target; otherwise the target is met exactly when the word count reaches it |
| WriterTaskDetail.TemplateOfKey | src/pages/writer/WriterTaskDetail.tsx:45-56 | exactly the five keys name a template |
| WriterTaskDetail.TemplateChoice | src/pages/writer/WriterTaskDetail.tsx:36-43 | the empty choice names no template; each template's key names that template |
| WriterTaskDetail.KeysDistinct | src/pages/writer/WriterTaskDetail.tsx:36-43 | the keys are non-empty and distinct |
| WriterTaskDetail.Fill | src/pages/writer/WriterTaskDetail.tsx:64 | a text with two holes contains both filled-in values |
| WriterTaskDetail.AiContentNamesBoth | src/pages/writer/WriterTaskDetail.tsx:62-71 | for every platform the generated text names the client and the location |
| WriterTaskDetail.ActivityDotColor | src/pages/writer/WriterTaskDetail.tsx:77-84 | each of the six colours, stated if and only if: the first rule that matches picks it, in the order Started, Written/written, Delivered/delivered, Saved/draft, Reassigned; the default exactly when none of the nine words occurs |
| WriterTaskDetail.StartedEntryIsBlue | src/pages/writer/WriterTaskDetail.tsx:78 | the entry `startWriting` logs is drawn blue |
| WriterTaskDetail.FindTask | src/pages/writer/WriterTaskDetail.tsx:110 | the task found is the FIRST task with the id; none is found exactly when no task has it |
| WriterTaskDetail.MarkWrittenStep | src/pages/writer/WriterTaskDetail.tsx:175 | one `markWritten` sets the status, label, time and log of the task and prepends one entry |
| WriterTaskDetail.MarkWrittenSequence | src/pages/writer/WriterTaskDetail.tsx:172-178 | marking written from the editor leaves draft = editor text, status Written, and two new entries, the save first |
| WriterTaskDetail.AiAssistFallbacks | src/pages/writer/WriterTaskDetail.tsx:155-162 | AI Assist speaks of "this business" / "this location" when the lookups fail, and names the client found otherwise |
| WriterTaskDetail.Editor.constructor | src/pages/writer/WriterTaskDetail.tsx:125-126 | the editor starts empty with no template |
| WriterTaskDetail.Editor.OnTaskLoaded | src/pages/writer/WriterTaskDetail.tsx:128-132 | a found task's draft is loaded into the editor |
| WriterTaskDetail.Editor.HandleTemplateChange | src/pages/writer/WriterTaskDetail.tsx:143-152 | the choice is remembered; a known template replaces the text; the empty choice keeps it |
| WriterTaskDetail.Editor.HandleAiAssist | src/pages/writer/WriterTaskDetail.tsx:155-162 | without a task nothing changes; otherwise the text becomes the generated review |
| WriterTaskDetail.Editor.SetContent | src/pages/writer/WriterTaskDetail.tsx:316 | typing replaces the text |
| WriterTaskDetail.Editor.HandleSaveDraft | src/pages/writer/WriterTaskDetail.tsx:165-169 | saves the editor's text as the task's draft |
| WriterTaskDetail.Editor.HandleMarkWritten | src/pages/writer/WriterTaskDetail.tsx:172-178 | runs `saveDraft` then `markWritten` on the store, then returns the queue route; nothing without a task |
| WriterTaskDetail.Editor.PressStartWriting | src/pages/writer/WriterTaskDetail.tsx:239-248 | "Start Writing" is offered only for a New task, and then runs `startWriting` |
| Seqs.CountBy | src/pages/admin/AdminLocations.tsx:84-94 | the counting loop's map equals the tally function of the tasks |
| Seqs.TallyCounts | src/pages/admin/AdminLocations.tsx:91 | a key is in the tally exactly when some selected element has it, with the number of them |
| Seqs.TallyTotal | src/pages/admin/AdminUsers.tsx:89-93 | a tally's counts sum to the number of selected elements |
| Seqs.DedupeFirstOccurrenceOrder | src/pages/provider/ProviderDelivery.tsx:58 | `[...new Set(xs)]` lists the values in first-occurrence order |
| Seqs.SortDesc | src/pages/admin/AdminOverview.tsx:163 | the sort is a permutation in non-increasing key order |
| Seqs.SortDescStable | src/pages/admin/AdminOverview.tsx:163 | the sort is stable: the elements of one key come out in their original order |
| Text.TrimShape | src/pages/admin/AdminActivity.tsx:57 | `trim` removes exactly the surrounding white space, and leaves nothing exactly for blank text |
| Text.SplitJoin | src/pages/admin/AdminLocations.tsx:139 | splitting joined pieces at the separator gives the pieces back |
| Text.ParseNumberOfInt | src/pages/admin/AdminLocations.tsx:140 | `Number(String(n)) == n` for every integer |

## Left out

- Zustand's `create`/`set` subscription machinery. The store is a plain object whose methods replace its fields.
- Clock and id sources. `crypto.randomUUID()`, `new Date()` and `generateId()` become parameters (`Stamp`, `newId`). `isThisMonth`, the overdue checks and the random chart data depend on the wall clock or on randomness and are not modelled.
- Store.AppStore.MarkWritten: the source reads the clock twice, once for the entry's timestamp and once for `writtenAt`. The model uses one reading for both (and the same holds for `MarkDelivered`).
- ISO timestamp strings are modelled as milliseconds since the epoch. `formatDate`, `formatDateTime` and `formatCurrency` go through `Intl`; `formatDate` is a parameter of `Utils.FormatRelativeTime`.
- The seed collections (`@/data/seed`) are not part of this model. They are constructor parameters.
- The `resetStore` path of `src/layouts/Topbar.tsx` calls a member the store interface does not define. It is left out.
- Toasts, `navigate`, `window.confirm` and the loading timers. Navigation is modelled as the returned route and confirmation as a parameter.
- AdminLocations.SlaHours: models `Number(...)` only for integer literals (optional sign, surrounding white space, empty is 0). Decimal, exponent and hexadecimal forms are treated as NaN, so they fall back to 48.
- MRR is a JavaScript number; the model treats it as an integer, so there is no floating-point rounding.
- `toLowerCase` is modelled for the letters A to Z only. `trim` and `\s` use the full ECMAScript white-space set.
- Utils.Truncate: counts characters, where JavaScript's `length` and `slice` count UTF-16 code units.
- `charCount` is `content.length`, the length of the editor text. It has no member of its own.
- Object-property lookups (`DEMO_ACCOUNTS[key]`, `templates[val]`) are modelled for their own keys only. An inherited key such as `"constructor"` has no `password` field, so login still fails for it. The template select offers only its own keys.
- The hardened behaviour of a not-found id or an invalid transition reported as an error is not modelled. The code has no such checks.
- The other pages (`WriterWritten.tsx`, `AdminClients.tsx`, `AdminTasks.tsx`, `ProviderOverview.tsx`, `ProviderItemDetail.tsx`) and all JSX rendering are not part of this model.
