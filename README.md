# Carshare frontend: mock backend, settings, session and page helpers

This project is a Dafny model of the core of the carshare web frontend, a Next.js and TypeScript app.

- **Mock GraphQL backend** (`lib/mock-graphql-client.ts`, `lib/mock-data.ts`). `executeMockGraphQL` keeps one in-memory store of users, groups, cars, reservations, events and the signed-in user. It picks a handler by case-sensitive substring tests on the query text, and the first match wins. The handler then reads the store's lists or updates them in place.
  - `Classifier` models the dispatch as an ordered rule table.
  - `MockHandlers` models each handler as a pure step function over a `Store` value.
  - `MockDispatch.Run` runs one handler on the store, and `MockDispatch.Execute` runs the one the classifier picks.
  - `MockGraphQL.MockStore` is the mutable store. It is a class with one `seq` field per list. Its methods push, splice and assign in place, and each is proved to match its step function and to keep the store invariant.
  - `MockData` holds the seed fixtures and proves them well formed.
  - `MockProperties` states what each handler promises.
- **Settings** (`lib/settings-context.tsx`, `lib/config.ts`). Two preferences are persisted in the browser's local storage, modelled as a `map<string, string>` field. They have a mount-time load, setters, a reset, and read-side getters with defaults.
- **Auth session** (`lib/auth-context.tsx`). The signed-in user, the loading flag, the error message, the stored token and the GraphQL client's Authorization header. The outcome of each remote call is a parameter.
- **Cars page** (`app/cars/page.tsx`). The request's availability flag, the client-side search filter, and the in-place sort of the result array.
- **Group list** (`components/group-list.tsx`). Member display name, avatar fallback text, the shared invite code and the member count.
- **Profile page** (`app/profile/page.tsx`). The avatar id ↔ icon URL table, with its forward lookup, reverse lookup and round trip.

Conventions:
- Timestamps are integer epoch milliseconds. The seed ISO strings are converted to UTC.
- `Date.now()` and `Math.random()` become a `Fresh` parameter carrying the new id, the raw invite code and the token stamp.
- A string field that the source reads with `||` uses "" for missing.
- A key compared with `===` (an id, a group id, a car id, an invite code) is an `Option<string>`.
- Case mapping is ASCII only.

## Model

| member | source | states |
|---|---|---|
| MockData.SeedUserNames | carsharesystem/lib/mock-data.ts:1-29 | every seeded user's `name` is lastName + " " + firstName, and user ids are distinct |
| MockData.SeedGroupMembers | carsharesystem/lib/mock-data.ts:31-71 | within each seeded group member ids are pairwise distinct, and each member is the entry of a seeded user |
| MockData.SeedInviteCodesDistinct | carsharesystem/lib/mock-data.ts:31-71 | the seeded invite codes are "ABC123" and "DEF456" and are distinct |
| MockData.SeedCars | carsharesystem/lib/mock-data.ts:73-110 | every seeded car has a positive daily price and a seeded owner; car ids are distinct |
| MockData.SeedReservations | carsharesystem/lib/mock-data.ts:112-131 | every seeded reservation names a seeded car and user, is CONFIRMED or PENDING, and starts no later than it ends |
| MockData.SeedEvents | carsharesystem/lib/mock-data.ts:133-173 | every seeded event names an existing group and matches one seeded user's id, name and avatar; it starts before it ends |
| MockHandlers.InitialInv | carsharesystem/lib/mock-graphql-client.ts:4-11 | the initial store satisfies the invariant: the current user is a stored user, every name is consistent, and no group lists a member twice |
| MockHandlers.Inv | carsharesystem/lib/mock-graphql-client.ts:4-11 | the invariant the handlers keep: the current user is stored, every stored name is lastName + " " + firstName, and no group lists a member twice; established by InitialInv and kept by RunKeepsInv |
| Classifier.OrderDistinct | carsharesystem/lib/mock-graphql-client.ts:31-313 | the 19 guards dispatch to 19 different handlers, none of them a fallback |
| Classifier.Classify | carsharesystem/lib/mock-graphql-client.ts:31-384 | the if-chain of guards with the two list fallbacks; its meaning is stated by ClassifyFirstMatch and OnlyEmptyFallback |
| Classifier.ClassifyFirstMatch | carsharesystem/lib/mock-graphql-client.ts:31-313 | a query goes to rule k if and only if rule k matches and no earlier rule does |
| Classifier.DashboardQueryNeverReachesDashboardHandler | carsharesystem/lib/mock-graphql-client.ts:277-300 | a query containing "myReservations" is never answered by the GetDashboardData handler |
| Classifier.DashboardQueryAnsweredByReservations | carsharesystem/lib/mock-graphql-client.ts:277-300 | the dashboard query, which contains "myReservations" and matches none of the 15 earlier guards, goes to the reservations handler |
| Classifier.FallbacksUnreachable | carsharesystem/lib/mock-graphql-client.ts:379-384 | the empty `myGroups` and `groupEvents` fallbacks are never chosen, because the same fragments are tested by earlier handlers |
| Classifier.OnlyEmptyFallback | carsharesystem/lib/mock-graphql-client.ts:77-384 | when no handler's guard matches, the answer is always the empty one |
| Classifier.GetCarNeedsId | carsharesystem/lib/mock-graphql-client.ts:229 | without a truthy `id` variable the GetCar handler is never chosen |
| MockHandlers.SignupAsWrittenNameConsistency | carsharesystem/lib/mock-graphql-client.ts:55-63 | the signup record as written has name = lastName + " " + firstName exactly when both names are given |
| MockHandlers.SignupAsWrittenCounterexample | carsharesystem/lib/mock-graphql-client.ts:55-63 | with no names, the record as written is named "新規 ユーザー" while its fields read "ユーザー 新規" |
| MockHandlers.SignupAsWrittenKeepsInvIffNamed | carsharesystem/lib/mock-graphql-client.ts:54-75 | as written, the signup step keeps the store invariant exactly when both names are given |
| MockHandlers.SignupUser | carsharesystem/lib/mock-graphql-client.ts:54-75 | the new user has the fresh id, avatar 1, the given or default names, and a consistent display name |
| MockHandlers.SignupUserAgreesWhenNamed | carsharesystem/lib/mock-graphql-client.ts:55-63 | when both names are given, the corrected record equals the record as written |
| MockHandlers.NewGroup | carsharesystem/lib/mock-graphql-client.ts:99-118 | a new group has the fresh id, the creator as its only member, the name or "新しいグループ", and the uppercased fresh code |
| MockHandlers.NewEvent | carsharesystem/lib/mock-graphql-client.ts:185-199 | a new event has the fresh id, belongs to the requested group and is stamped with the current user's id, display name and avatar id (or 1); it carries the input's title, start and end times, flags and note |
| MockHandlers.NewCar | carsharesystem/lib/mock-graphql-client.ts:236-252 | a new car is available, owned by the current user, and priced at the input price or 5000 |
| MockHandlers.DayCount | carsharesystem/lib/mock-graphql-client.ts:259 | the day count is the ceiling of the span in days: (d-1) days < span ≤ d days |
| MockHandlers.CarById | carsharesystem/lib/mock-graphql-client.ts:256 | the result is the first stored car with the requested id, and it is missing exactly when no car has that id |
| MockHandlers.NewReservation | carsharesystem/lib/mock-graphql-client.ts:255-275 | a new reservation is CONFIRMED, belongs to the current user, and costs price per day × days for a known car and 0 otherwise |
| MockHandlers.UpdatedUser | carsharesystem/lib/mock-graphql-client.ts:325-336 | each of firstName, lastName and icon keeps its old value when the input is empty; the name is recomputed consistently; the id, email and avatar are kept |
| MockHandlers.MyGroups | carsharesystem/lib/mock-graphql-client.ts:77-97 | the summaries are exactly those of the groups that include the user; their order is fixed by MyGroupsAppend and MyGroupsSingle |
| MockHandlers.MyGroupsAppend | carsharesystem/lib/mock-graphql-client.ts:79-87 | the listing distributes over concatenation of the group list, so the user's groups come in store order |
| MockHandlers.MyGroupsSingle | carsharesystem/lib/mock-graphql-client.ts:79-87 | one group is listed as its id and name exactly when the user is among its members |
| MockHandlers.GroupEvents | carsharesystem/lib/mock-graphql-client.ts:150-166 | the events listed are exactly those of the requested group, with no date filter; their order is fixed by GroupEventsAppend and GroupEventsSingle |
| MockHandlers.GroupEventsAppend | carsharesystem/lib/mock-graphql-client.ts:157 | the listing distributes over concatenation of the event list, so a group's events come in store order |
| MockHandlers.GroupEventsSingle | carsharesystem/lib/mock-graphql-client.ts:157 | one event is listed exactly when its groupId equals the requested one |
| MockHandlers.GroupByInviteCode | carsharesystem/lib/mock-graphql-client.ts:143-148 | the result is the first stored group with that invite code (the one the join handler finds), and it is missing exactly when no group has the code |
| MockHandlers.AvailableCarsAsWrittenInverted | carsharesystem/lib/mock-graphql-client.ts:223 | as written, `available: true` or no filter lists every car, and only `available: false` restricts to available cars |
| MockHandlers.AvailableCarsAsWrittenCounterexample | carsharesystem/lib/mock-graphql-client.ts:223 | as written, a request for available cars over the seed list includes car-3, which is unavailable |
| MockHandlers.AvailableCars | carsharesystem/lib/mock-graphql-client.ts:222-226 | corrected: `available: true` lists exactly the available cars; their order is fixed by AvailableCarsAppend and AvailableCarsSingle |
| MockHandlers.AvailableCarsAppend | carsharesystem/lib/mock-graphql-client.ts:224 | the filtered list distributes over concatenation of the car list, so cars keep store order |
| MockHandlers.AvailableCarsSingle | carsharesystem/lib/mock-graphql-client.ts:224 | corrected: with `available: true`, one car is listed exactly when it is available |
| MockHandlers.AvailableCarsUnfiltered | carsharesystem/lib/mock-graphql-client.ts:222-226 | corrected: any other filter lists every car in order |
| MockHandlers.ReservationLists | carsharesystem/lib/mock-graphql-client.ts:277-288 | the handler fails with a TypeError exactly when there are cars and some reservation has no car; otherwise myReservations is the user's own reservations in store order, and carReservations exactly those on cars the user owns |
| MockHandlers.ReservationListsAppend | carsharesystem/lib/mock-graphql-client.ts:277-288 | an appended reservation comes last in each list it belongs to, and the lists start failing exactly when it has no car while cars exist |
| MockHandlers.DashboardData | carsharesystem/lib/mock-graphql-client.ts:300-311 | the dashboard has the fixed stats; myCars is the first min(3, n) of the user's own cars in store order, and myReservations the first min(3, m) of the user's own reservations |
| MockHandlers.OwnCars | carsharesystem/lib/mock-graphql-client.ts:301 | exactly the stored cars the current user owns |
| MockHandlers.OwnReservations | carsharesystem/lib/mock-graphql-client.ts:302 | exactly the stored reservations of the current user |
| MockHandlers.OwnCarsAppend | carsharesystem/lib/mock-graphql-client.ts:301 | a car appended to the store comes last among the own cars when the user owns it, and changes nothing otherwise |
| MockHandlers.OwnReservationsAppend | carsharesystem/lib/mock-graphql-client.ts:302 | a reservation appended to the store comes last among the own reservations when it is the user's, and changes nothing otherwise |
| MockHandlers.DashboardListsOwnItems | carsharesystem/lib/mock-graphql-client.ts:300-311 | every dashboard car is a stored car of the user, and every dashboard reservation a stored reservation of the user |
| MockHandlers.SignupStep | carsharesystem/lib/mock-graphql-client.ts:54-75 | the handler as a step on the store value; its contract is stated by MockGraphQL.MockStore.Signup |
| MockHandlers.CreateGroupStep | carsharesystem/lib/mock-graphql-client.ts:99-118 | the handler as a step on the store value; its contract is stated by MockProperties.CreateGroupOutcome |
| MockHandlers.JoinGroupStep | carsharesystem/lib/mock-graphql-client.ts:120-141 | the handler as a step on the store value; its contract is stated by MockProperties.JoinGroupOutcome |
| MockHandlers.CreateEventStep | carsharesystem/lib/mock-graphql-client.ts:168-209 | the handler as a step on the store value; its contract is stated by MockProperties.CreateEventValidation |
| MockHandlers.DeleteEventStep | carsharesystem/lib/mock-graphql-client.ts:211-219 | the handler as a step on the store value; its contract is stated by MockProperties.DeleteEventOutcome |
| MockHandlers.CreateCarStep | carsharesystem/lib/mock-graphql-client.ts:236-252 | the handler as a step on the store value: it appends the car that MockHandlers.NewCar builds; the dashboard effect is stated by MockHandlers.OwnCarsAppend |
| MockHandlers.CreateReservationStep | carsharesystem/lib/mock-graphql-client.ts:255-275 | the handler as a step on the store value; its contract is stated by MockProperties.CreateReservationOutcome |
| MockHandlers.CancelReservationStep | carsharesystem/lib/mock-graphql-client.ts:290-298 | the handler as a step on the store value; its contract is stated by MockProperties.CancelReservationOutcome |
| MockHandlers.UpdateProfileStep | carsharesystem/lib/mock-graphql-client.ts:313-349 | the handler as a step on the store value; its contract is stated by MockProperties.UpdateProfileOutcome |
| MockProperties.JoinGroupOutcome | carsharesystem/lib/mock-graphql-client.ts:120-141 | an unknown code fails with "無効な招待コードです" and changes nothing; a member gets the group back unchanged; otherwise exactly the current user is appended to that one group |
| MockProperties.JoinGroupKeepsInv | carsharesystem/lib/mock-graphql-client.ts:120-141 | joining keeps member ids distinct in every group |
| MockProperties.JoinGroupIdempotent | carsharesystem/lib/mock-graphql-client.ts:120-141 | joining twice with the same code leaves the same store and answer as joining once |
| MockProperties.CreateGroupOutcome | carsharesystem/lib/mock-graphql-client.ts:99-118 | exactly one group is appended, with the creator as its only member and the name defaulting to "新しいグループ"; existing groups are untouched |
| MockProperties.CreateGroupInviteCodes | carsharesystem/lib/mock-graphql-client.ts:111-113 | invite codes stay distinct if and only if the uppercased fresh code is not already in use; nothing checks this |
| MockProperties.CreateGroupCanDuplicateCode | carsharesystem/lib/mock-graphql-client.ts:111-113 | the fresh code "abc123" creates a second group with code "ABC123" |
| MockProperties.CreateGroupKeepsInv | carsharesystem/lib/mock-graphql-client.ts:99-118 | creating a group keeps the store invariant |
| MockProperties.CreateEventValidation | carsharesystem/lib/mock-graphql-client.ts:168-209 | groupId is checked before title and a missing one fails without change; otherwise exactly one event of the current user is appended, with flags false and note "" when not given |
| MockProperties.CreatedEventListed | carsharesystem/lib/mock-graphql-client.ts:150-209 | a created event appears last among its group's events |
| MockProperties.CreatedEventNotListedElsewhere | carsharesystem/lib/mock-graphql-client.ts:150-209 | a created event does not change another group's event list |
| MockProperties.DeleteEventOutcome | carsharesystem/lib/mock-graphql-client.ts:211-219 | the answer is always true; only the first event with the id is removed, and an unknown id changes nothing |
| MockProperties.DeleteAfterCreate | carsharesystem/lib/mock-graphql-client.ts:168-219 | deleting the event just created, under a fresh id, restores the store |
| MockProperties.CancelReservationOutcome | carsharesystem/lib/mock-graphql-client.ts:290-298 | an unknown id answers undefined and changes nothing; otherwise only the matching reservation's status becomes CANCELLED |
| MockProperties.CancelReservationIdempotent | carsharesystem/lib/mock-graphql-client.ts:290-298 | cancelling twice leaves the same store and answer as cancelling once |
| MockProperties.CreateReservationOutcome | carsharesystem/lib/mock-graphql-client.ts:255-275 | exactly one CONFIRMED reservation of the current user is appended, priced per day × days, or 0 for an unknown car |
| MockProperties.DayCountWholeDays | carsharesystem/lib/mock-graphql-client.ts:259 | a span of whole days counts exactly those days; one millisecond more counts one more day |
| MockProperties.TwoDayBookingPrice | carsharesystem/lib/mock-graphql-client.ts:255-275 | booking car-1 from 2024-01-20 to 2024-01-22 costs 10000 |
| MockProperties.UnknownCarBreaksReservationLists | carsharesystem/lib/mock-graphql-client.ts:255-288 | after booking an unknown car, listing reservations fails with a TypeError while any car exists |
| MockProperties.UpdateProfileOutcome | carsharesystem/lib/mock-graphql-client.ts:313-349 | no input fails without change; otherwise currentUser and the users entry with the same id become the same merged record, and other users are unchanged |
| MockProperties.UpdateProfileKeepsInv | carsharesystem/lib/mock-graphql-client.ts:313-349 | updating the profile keeps the current user among the users and all names consistent |
| MockProperties.RunKeepsInv | carsharesystem/lib/mock-graphql-client.ts:31-391 | with the corrected signup and car filter, every handler and fallback keeps the store invariant |
| MockProperties.RunRejections | carsharesystem/lib/mock-graphql-client.ts:31-391 | only the JoinGroup, CreateEvent, GetReservations and UpdateProfile handlers can fail, and a failing handler changes nothing |
| MockProperties.RunReadOnly | carsharesystem/lib/mock-graphql-client.ts:31-391 | the read handlers and the fallbacks never change the store |
| MockProperties.DashboardAnswerOnlyFromItsHandler | carsharesystem/lib/mock-graphql-client.ts:300-311 | a dashboard answer comes from the GetDashboardData handler and no other |
| MockProperties.ExecuteKeepsInv | carsharesystem/lib/mock-graphql-client.ts:19-391 | with the corrected signup and car filter, every request, whatever its text and variables, keeps the store invariant |
| MockProperties.ExecuteRejections | carsharesystem/lib/mock-graphql-client.ts:19-391 | only JoinGroup, CreateEvent, GetReservations and UpdateProfile can fail, and a failing request changes nothing |
| MockProperties.ExecuteReadOnly | carsharesystem/lib/mock-graphql-client.ts:19-391 | the read handlers and the fallbacks never change the store |
| MockProperties.DashboardQueryGetsNoDashboard | carsharesystem/lib/mock-graphql-client.ts:277-311 | a query containing "myReservations" never receives a dashboard answer |
| MockDispatch.Run | carsharesystem/lib/mock-graphql-client.ts:31-391 | runs one handler on the store, with the corrected signup and car filter; stated by RunKeepsInv, RunRejections, RunReadOnly and DashboardAnswerOnlyFromItsHandler |
| MockDispatch.Execute | carsharesystem/lib/mock-graphql-client.ts:19-391 | runs the handler the classifier picks; stated by ExecuteKeepsInv, ExecuteRejections, ExecuteReadOnly and DashboardQueryGetsNoDashboard |
| MockGraphQL.MockStore.constructor | carsharesystem/lib/mock-graphql-client.ts:4-11 | the store starts as the seed lists with the first user signed in, and satisfies the invariant |
| MockGraphQL.MockStore.Signup | carsharesystem/lib/mock-graphql-client.ts:54-75 | pushes the new user, with the corrected display name, makes it current and returns the mock token; the state is the signup step's |
| MockGraphQL.MockStore.CreateGroup | carsharesystem/lib/mock-graphql-client.ts:99-118 | pushes the new group; the state and answer are the create-group step's, and the invariant holds |
| MockGraphQL.MockStore.JoinGroup | carsharesystem/lib/mock-graphql-client.ts:120-141 | pushes the current user into the found group's members in place; the state and answer are the join step's |
| MockGraphQL.MockStore.CreateEvent | carsharesystem/lib/mock-graphql-client.ts:168-209 | validates, then pushes the event; the state and answer are the create-event step's |
| MockGraphQL.MockStore.DeleteEvent | carsharesystem/lib/mock-graphql-client.ts:211-219 | splices out the first matching event; the state and answer are the delete step's |
| MockGraphQL.MockStore.CreateCar | carsharesystem/lib/mock-graphql-client.ts:236-252 | pushes the new car; the state and answer are the create-car step's |
| MockGraphQL.MockStore.CreateReservation | carsharesystem/lib/mock-graphql-client.ts:255-275 | pushes the priced reservation; the state and answer are the reservation step's |
| MockGraphQL.MockStore.CancelReservation | carsharesystem/lib/mock-graphql-client.ts:290-298 | sets the found reservation's status in place; the state and answer are the cancel step's |
| MockGraphQL.MockStore.UpdateProfile | carsharesystem/lib/mock-graphql-client.ts:313-349 | replaces currentUser and the users entry in place; the state and answer are the update step's, and the invariant holds |
| MockGraphQL.MockStore.Run | carsharesystem/lib/mock-graphql-client.ts:31-391 | running one handler on the mutable store leaves the state and gives the answer that the pure handler defines, with the corrected signup and car filter, and keeps the invariant |
| MockGraphQL.MockStore.Execute | carsharesystem/lib/mock-graphql-client.ts:19-391 | one request on the mutable store leaves the state and gives the answer that the pure dispatcher defines, with the corrected signup and car filter, and keeps the invariant |
| Config.GetUseMockData | carsharesystem/lib/config.ts:8-12 | true without a window or a stored flag; otherwise true exactly when the stored text is "true" |
| Config.GetApiEndpoint | carsharesystem/lib/config.ts:14-18 | never empty; the first endpoint without a window; otherwise the non-empty stored value, then the non-empty environment value, then the first endpoint |
| Config.LoadSnapshot | carsharesystem/lib/config.ts:21-22 | the module-level values are the two getters evaluated once, and the endpoint is non-empty |
| Config.EndpointList | carsharesystem/lib/config.ts:1-5 | the exported list is the three-entry endpoint list, whose entries are distinct |
| Config.SnapshotGoesStale | carsharesystem/lib/config.ts:21-22 | writing the mock flag after load changes the getter but not the snapshot |
| Settings.BoolText | carsharesystem/lib/settings-context.tsx:43 | the stored text is "true" exactly for true |
| Settings.Loaded | carsharesystem/lib/settings-context.tsx:26-38 | without a window nothing changes; a present flag decides mock mode by equality with "true"; the endpoint changes only to a non-empty stored value |
| Settings.SettingsStore.constructor | carsharesystem/lib/settings-context.tsx:21-38 | mounting starts from (true, first endpoint) and then loads from storage |
| Settings.SettingsStore.Load | carsharesystem/lib/settings-context.tsx:26-38 | the state becomes the load of storage over the previous state; storage is not written |
| Settings.SettingsStore.SetUseMockData | carsharesystem/lib/settings-context.tsx:40-46 | sets the flag and writes "true" or "false" under its own key only, when there is a window |
| Settings.SettingsStore.SetApiEndpoint | carsharesystem/lib/settings-context.tsx:48-54 | sets the endpoint and writes it under its own key only, when there is a window |
| Settings.SettingsStore.ResetToDefaults | carsharesystem/lib/settings-context.tsx:56-64 | leaves (true, first endpoint) and removes both keys from storage |
| Settings.LoadAfterSetUseMockData | carsharesystem/lib/settings-context.tsx:31-46 | a written flag is read back by the next load, and the endpoint's load is unaffected |
| Settings.LoadAfterSetApiEndpoint | carsharesystem/lib/settings-context.tsx:34-54 | a written non-empty endpoint is read back; an empty one loads as if absent |
| Settings.LoadAfterReset | carsharesystem/lib/settings-context.tsx:56-64 | after a reset, a load leaves any state unchanged |
| Settings.DefaultsMatchConfig | carsharesystem/lib/settings-context.tsx:15-23 | the provider's endpoint list and defaults equal the config's server-side values |
| Settings.LoadAgreesWithConfig | carsharesystem/lib/settings-context.tsx:26-38 | the provider's load from defaults equals the config getters on the same storage with no environment endpoint |
| Auth.AuthSession.constructor | carsharesystem/lib/auth-context.tsx:34-48 | without a stored token the user stays null and loading ends; with one, the header is installed and the fetch outcome decides user, error and storage |
| Auth.AuthSession.FetchUser | carsharesystem/lib/auth-context.tsx:50-76 | success with `me` sets the user; failure removes the token, clears the header and sets the error with its default; loading ends |
| Auth.AuthSession.Login | carsharesystem/lib/auth-context.tsx:78-120 | a truthy token is stored and installed and the user set; failure sets the error and is not rethrown; loading ends |
| Auth.AuthSession.SendVerificationCode | carsharesystem/lib/auth-context.tsx:122-145 | user, token and header never change; failure sets the error and is rethrown; loading ends |
| Auth.AuthSession.Signup | carsharesystem/lib/auth-context.tsx:147-201 | a truthy token is stored and installed and the user set; failure sets the error and is rethrown; loading ends |
| Auth.AuthSession.Logout | carsharesystem/lib/auth-context.tsx:203-207 | removes the token, clears the header and the user, with no remote call |
| CarsPage.SearchFilter | carsharesystem/app/cars/page.tsx:64-75 | an empty term keeps the list; otherwise exactly the cars whose lowercased name, model or location contains the lowercased term are kept |
| CarsPage.SearchFilterKeepsOrder | carsharesystem/app/cars/page.tsx:68-75 | filtering distributes over concatenation, so kept cars keep their order |
| CarsPage.CompareIsRankDifference | carsharesystem/app/cars/page.tsx:78-91 | each comparator is a difference of one numeric key, so it orders consistently |
| CarsPage.SortedMeaning | carsharesystem/app/cars/page.tsx:78-91 | sorted means non-decreasing price for "priceAsc", non-increasing for "priceDesc", non-increasing year for "newest" and non-decreasing for "oldest" |
| CarsPage.SortCars | carsharesystem/app/cars/page.tsx:78-91 | the array ends up a sorted permutation of itself, and an unknown key leaves it unchanged |
| CarsPage.Insert | carsharesystem/app/cars/page.tsx:78 | one insertion step extends the sorted prefix by one place and permutes the array |
| CarsPage.FetchCars | carsharesystem/app/cars/page.tsx:63-93 | the shown list is a permutation of the searched list `data.cars \|\| []`, sorted by the selected key, and the searched list itself for an unknown key |
| CarsPage.CarsRequest | carsharesystem/app/cars/page.tsx:57-61 | the request carries `filter.available` equal to the page's flag, and no input, id or invite code |
| CarsPage.RequestHonoursSelect | carsharesystem/app/cars/page.tsx:57-61 | with the corrected mock filter, "yes" lists exactly the available cars and "no" lists every car |
| GroupList.DisplayName | carsharesystem/components/group-list.tsx:65-69 | a null member gives "不明なユーザー", a non-empty name is returned, and otherwise the result is "ユーザー " followed by the first min(8, \|id\|) characters of the id |
| GroupList.AvatarFallback | carsharesystem/components/group-list.tsx:71-77 | one or two characters: "?" for null; the first two of a name of length ≥ 2; else the uppercased first ≤ 2 of a non-empty id; else "?" |
| GroupList.ShortNameIgnored | carsharesystem/components/group-list.tsx:73-76 | a name shorter than two characters does not affect the fallback |
| GroupList.ShareCode | carsharesystem/components/group-list.tsx:56 | the shared code is the invite code when non-empty, else the group id |
| GroupList.MemberCount | carsharesystem/components/group-list.tsx:128 | the count is the members length, or 0 when members is missing |
| GroupList.SharedCodeFindsGroup | carsharesystem/components/group-list.tsx:163-169 | with distinct invite codes, the shared code of a group that has a code looks up that very group |
| GroupList.MockListingSharesId | carsharesystem/components/group-list.tsx:56 | a group listed from the mock `myGroups` answer shows 0 members and shares its id, which finds no group unless it equals some invite code |
| Profile.AvatarUrl | carsharesystem/app/profile/page.tsx:73 | ids 1..6 map to their table URL and any other id to the avatar-1 URL |
| Profile.AvatarIdOf | carsharesystem/app/profile/page.tsx:48-49 | the result is in 1..6; a URL in the table maps to a key with that URL, and any other icon gives 1 |
| Profile.UrlsDistinct | carsharesystem/app/profile/page.tsx:19-26 | the six URLs are pairwise distinct |
| Profile.IdRoundTrip | carsharesystem/app/profile/page.tsx:48-73 | the reverse lookup of the forward lookup of k is k for every k in 1..6 |
| Profile.UnknownIconFallsBack | carsharesystem/app/profile/page.tsx:48-73 | an icon outside the table comes back as the avatar-1 URL |
| Profile.UnknownIdFallsBack | carsharesystem/app/profile/page.tsx:73 | an id outside 1..6 is sent as the avatar-1 URL, which maps back to 1 |
| Profile.InitialForm | carsharesystem/app/profile/page.tsx:44-49 | the form starts with the user's names and the avatar id looked up from the icon, which gives the icon back when it is one of the six URLs |
| Profile.SubmitInput | carsharesystem/app/profile/page.tsx:73-81 | the form's names pass through, and the icon is the URL of the chosen avatar id, always one of the six |
| Profile.UntouchedFormKeepsProfile | carsharesystem/app/profile/page.tsx:44-81 | saving the untouched form sends the user's names, and their icon if it is in the table, else the avatar-1 URL |

## Left out

- Network latency (`delay`), `console.*` logging and the `try`/`catch` that rethrows: they have no effect on state or answers.
- Fresh ids, invite codes and token stamps come from `Date.now()` and `Math.random()`. They are a `Fresh` parameter, so the model does not capture their format or uniqueness.
- `new Date(...)` parsing of reservation dates is not modelled. Dates are integer milliseconds, and `toISOString` stamps are left out.
- Only the answer's data is modelled. Field selection in the query text and GraphQL serialization are not.
- MockGraphQL.MockStore: the store's lists are shallow copies of the seed arrays, so a join or cancel in the source also mutates the seed objects. The model keeps the store's values separate from the `MockData` constants.
- MockHandlers.AvailableCars and MockHandlers.SignupUser: the store and dispatcher use the corrected behaviour (see Findings). The as-written versions are kept beside them with their lemmas.
- MockDispatch.Run and MockDispatch.Execute: they run the corrected signup and car filter, not the source's.
- MockProperties.RunKeepsInv and MockProperties.ExecuteKeepsInv: the invariant is proved for the corrected dispatcher. The source's signup breaks it when a name is missing (MockHandlers.SignupAsWrittenKeepsInvIffNamed).
- MockGraphQL.MockStore.Signup, MockGraphQL.MockStore.Run and MockGraphQL.MockStore.Execute: the mutable store follows the corrected dispatcher, so a signup stores the corrected display name.
- `lib/graphql-client.ts` is not part of this model. It is a network client over a library that is not visible. Only its header effect (`setAuthToken` / `removeAuthToken`) is kept, as the session's `authHeader` field.
- Auth.AuthSession: remote outcomes are parameters. A malformed payload (for example, `data.login` null) is covered by the `Failed` outcome with its message. React state batching and the async interleaving of the handlers are not modelled: each operation is one atomic step.
- Auth.AuthSession.FetchUser requires a stored token and no signed-in user. This is the only situation in which the provider calls it, at mount.
- CarsPage.SortCars proves a sorted permutation. For an unknown key it also proves that the array is unchanged. It does not state that ties keep their order for the other keys, which `Array.prototype.sort` guarantees.
- CarsPage.FetchCars: it sorts with CarsPage.SortCars, so it does not state that ties keep their searched order either.
- Case mapping (`toLowerCase`, `toUpperCase`) is ASCII only. Non-ASCII letters are left unchanged.
- GroupList.DisplayName and GroupList.AvatarFallback: JavaScript's `length` and `substring` count UTF-16 code units, while the model counts characters, so names and ids with characters outside the Basic Multilingual Plane (emoji) are cut differently.
- `AVATAR_URLS` in `lib/config.ts`: six identical placeholder URLs that no modelled code reads.
- Also left out: all rendering, navigation, dialogs, toasts and timers; the calendar's date arithmetic; the register wizard, whose avatar table is the same as the profile page's; and the form plumbing in the join and create dialogs.

## Findings

| source | as written | input that shows it | evidently intended | confidence | as-written member | corrected member |
|---|---|---|---|---|---|---|
| carsharesystem/lib/mock-graphql-client.ts:55-63 | the signup defaults are firstName "新規" and lastName "ユーザー", but `name` is built as (lastName or "新規") + " " + (firstName or "ユーザー") | signup with empty first and last names: the fields read "ユーザー 新規", the name reads "新規 ユーザー" | name = lastName + " " + firstName with the same defaults, as for every seeded user and in UpdateProfile; equally, "新規 ユーザー" may be the intended name and the two field defaults the swapped part (either fix keeps the invariant; the model takes the first) | medium, not executed | MockHandlers.SignupAsWrittenCounterexample | MockHandlers.SignupUser |
| carsharesystem/lib/mock-graphql-client.ts:223 | a car is kept unless `filter.available === false`; with `false` only available cars are kept | any request with `filter.available: true` that reaches the mock, over the seeds, lists car-3, which is unavailable | `available: true` lists only available cars, as the page's "利用可能な車のみ表示" select (app/cars/page.tsx:36, 57-61) expects | medium, not executed | MockHandlers.AvailableCarsAsWrittenCounterexample | MockHandlers.AvailableCars |
