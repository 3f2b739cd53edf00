# Online auction: a Dafny model of its bidding core

This project models the core of an online auction system. A React client talks to a FastAPI backend over REST and WebSockets:

- Auctioneers run live auctions from a control page. They relay floor bids, call "Going once / Going twice / Fair warning" and end the auction.
- Bidders follow an auction room, register for auctions and place online bids.
- The backend stores users, auctions, registrations, bids and chat messages. It guards every bid and fans bid and presence updates out to each auction's room of WebSocket connections.

The model has one Dafny module per source file. The client side:

- `Socket`: the per-room WebSocket wrapper. It holds the connection, the room, the reconnect timer and the handler registry.
- `LiveControlCenter`: the auctioneer's page.
- `AuctionRoom`: the bidder's page.
- `BidPanel` and `LiveAuctionControl`: the bid-entry widgets.
- `Countdown`: the countdown badge.
- `RegistrationService`: the in-browser registration book.
- `BiddersManagement` and `AuctionList`: the admin bidder list and the public catalogue.
- `AuthContext` and `ProtectedRoute`: the signed-in user and the route guard.

The server side:

- `Models`: the five tables, their defaults, and their unique, foreign-key and cascade constraints as one validity predicate.
- One module per router: `Auctions`, `Bids`, `Registrations`, `AuthRouter` and `Chat`.
- `WebsocketManager`: the room-to-connections table.

Three helper modules (`Js`, `Lists` and `Integration`) complete the model:

- `Js` holds JSON values, JavaScript numbers with NaN, truthiness and `||`, and the string helpers the views call.
- `Lists` holds filter, map, the `ORDER BY` sort and `OFFSET`/`LIMIT`.
- `Integration` follows server payloads through the client code that reads them.

Code that mutates state is modelled imperatively:

- component state, the socket wrapper, the registration book and the connection manager are classes;
- each router works on a `Db` object whose tables it replaces.

Each method's `ensures` ties its new state and result to specification functions, and lemmas prove what those functions promise. Guards, filters, the countdown arithmetic and the route decision are pure functions.

Modelling choices:

- Amounts are whole numbers.
- Ids, clock readings and ISO timestamps are parameters.
- The outcome of each REST call is a parameter: the reply, or `None` for a call that threw.
- Password hashing and checking are function parameters.
- Which WebSocket sends fail is a parameter.
- A bid's effect on the auction's current price comes from a database trigger that is not part of the source. `Bids.Accepted` states it as a labelled assumption: after a bid is stored, the auction's current price is that bid's amount, and nothing else changes.

Facts about the code that the model keeps:

- Neither page deduplicates pushed bids by id: a bid whose id is already in the feed is prepended again.
- Loading the history replaces the bid feed; it does not merge it.
- The closing step is set to the clicked step and announced on every click. It is not incremented or clamped, and repeats are not suppressed.
- The control page replaces its roster with `data.participants`. The server sends only `{type, count}`, so the roster is emptied on every join and leave.
- No history is re-fetched after a reconnect.
- The registrations router accepts a registration in any phase of the auction, not only for scheduled auctions.

## Model

| member | source | states |
|---|---|---|
| Socket.Without | src/services/socket.js:53 | the filtered list never holds the removed handler, is no longer, and holds only handlers of the original list |
| Socket.WithoutConcat | src/services/socket.js:53 | filtering distributes over concatenation, so the kept handlers stay in their relative order |
| Socket.WithoutCounts | src/services/socket.js:51-56 | `off` drops every occurrence of the handler and keeps every other handler exactly as many times as it was registered |
| Socket.WithoutAbsent | src/services/socket.js:51-56 | removing a handler that is not registered leaves the list unchanged |
| Socket.Deliveries | src/services/socket.js:131-136 | one call per registered handler, in registration order, each with the same data |
| Socket.Route | src/services/socket.js:89-98 | unparseable or null frames are dropped; otherwise dispatch on `message.type` with `message.data` when truthy, else the whole message |
| Socket.Frame | src/services/socket.js:61 | the sent object holds `event` plus every key of `data`, and a `data` key named `event` wins |
| Socket.SocketService.constructor | src/services/socket.js:9-14 | no socket, no room, no listeners, no reconnect timer |
| Socket.SocketService.OpenSocket | src/services/socket.js:71-79 | does nothing while a socket exists; otherwise constructs exactly one connection for the room; nothing else changes |
| Socket.SocketService.CloseSocket | src/services/socket.js:119-129 | cancels the remembered reconnect timer and drops the connection without scheduling a reconnect; the room stays current |
| Socket.SocketService.Disconnect | src/services/socket.js:20-22 | the same effect as `_closeSocket` |
| Socket.SocketService.JoinAuction | src/services/socket.js:25-32 | switching from another current room closes its socket and cancels its timer before opening the new one; re-joining keeps the existing connection; the room becomes current |
| Socket.SocketService.LeaveAuction | src/services/socket.js:35-40 | only for the current room: closes the socket, cancels the timer and forgets the room; any other id changes nothing |
| Socket.SocketService.On | src/services/socket.js:43-48 | appends the handler at the end of that event's list, creating the list if needed; nothing else changes |
| Socket.SocketService.Off | src/services/socket.js:51-56 | a known event's list loses every occurrence of the handler; an unknown event leaves the registry unchanged |
| Socket.SocketService.Emit | src/services/socket.js:59-65 | sends one frame exactly when the socket is open; otherwise nothing is sent or queued and no state changes |
| Socket.SocketService.OnOpen | src/services/socket.js:81-87 | the connection is open and a remembered reconnect timer is cleared |
| Socket.SocketService.Trigger | src/services/socket.js:131-136 | the event's handlers are called in registration order with the data; an event without handlers calls nothing |
| Socket.SocketService.OnMessage | src/services/socket.js:89-98 | a routed frame is delivered to the handlers of its type; a dropped frame delivers nothing |
| Socket.SocketService.OnClose | src/services/socket.js:100-109 | the socket is cleared, and exactly when a room is still current one new reconnect timer is scheduled and remembered |
| Socket.SocketService.FireTimer | src/services/socket.js:105-107 | the timer is consumed and `_openSocket` runs for the room current at firing time |
| LiveControlCenter.Prepended | src/pages/LiveControlCenter.jsx:111 | the new row comes first, followed by the old rows in order, cut to the newest 100 |
| LiveControlCenter.PrependedKeepsRepeats | src/pages/LiveControlCenter.jsx:111 | a row equal to one already in the feed is added again, never merged by id |
| LiveControlCenter.RecentMembers | src/pages/LiveControlCenter.jsx:99 | the window keeps exactly the arrival times less than 60000 ms before now |
| LiveControlCenter.RecentAppend | src/pages/LiveControlCenter.jsx:99 | filtering the times with the new arrival appended filters the old times and then keeps or drops the new one |
| LiveControlCenter.RecentAgain | src/pages/LiveControlCenter.jsx:99 | filtering at a later time after filtering at an earlier one equals filtering once at the later time |
| LiveControlCenter.WindowIsRecentArrivals | src/pages/LiveControlCenter.jsx:98-100 | with a clock that never runs backwards, the window after the last arrival is exactly the arrivals less than 60000 ms older than it, the last one included |
| LiveControlCenter.WithPrice | src/pages/LiveControlCenter.jsx:112 | a loaded auction takes the bid's amount as its price whether it is higher or lower, and keeps its other fields; an unloaded one stays unloaded |
| LiveControlCenter.SuggestionPassesFloorGuard | src/pages/LiveControlCenter.jsx:140 | the suggested next amount passes the floor guard, and so does one above the current price, which can be below the suggestion (also lines 163, 218) |
| LiveControlCenter.Bumped | src/pages/LiveControlCenter.jsx:425 | the new text reads back as the old number plus the increment |
| LiveControlCenter.BumpedTwice | src/pages/LiveControlCenter.jsx:422-425 | quick-add presses accumulate, and a text that is not a number stays NaN |
| LiveControlCenter.Roster | src/pages/LiveControlCenter.jsx:117 | the roster is `data.participants` when present and truthy, otherwise an empty list |
| LiveControlCenter.ControlCenter.constructor | src/pages/LiveControlCenter.jsx:73-84 | the initial component state |
| LiveControlCenter.ControlCenter.HandleBidUpdate | src/pages/LiveControlCenter.jsx:97-114 | the window takes the arrival, the closing step resets to 0, one row is prepended, a loaded auction takes the amount, and the suggestion is amount + 1000 |
| LiveControlCenter.ControlCenter.HandleParticipantUpdate | src/pages/LiveControlCenter.jsx:116-118 | the roster is replaced by `data.participants`, or by an empty list |
| LiveControlCenter.ControlCenter.LoadData | src/pages/LiveControlCenter.jsx:132-147 | on success the auction and the history replace what was held and the input holds the suggested amount; on failure only the error is set; loading ends either way |
| LiveControlCenter.ControlCenter.HandleFloorBid | src/pages/LiveControlCenter.jsx:161-180 | an amount that is 0, NaN or not above the current price (0 when unknown) only sets the guard error; otherwise exactly one floor bid is posted as the auctioneer and its outcome sets the banner |
| LiveControlCenter.ControlCenter.HandleFairWarning | src/pages/LiveControlCenter.jsx:182-194 | the step becomes exactly the clicked step and its announcement is posted on every press, repeats included |
| LiveControlCenter.ControlCenter.HandleEndAuction | src/pages/LiveControlCenter.jsx:196-206 | nothing happens without confirmation; success navigates to the dashboard; failure shows the error and clears the ending flag |
| LiveControlCenter.ControlCenter.AddIncrement | src/pages/LiveControlCenter.jsx:422-425 | the amount grows by the increment on top of its current value |
| LiveControlCenter.ControlCenter.ResetToMin | src/pages/LiveControlCenter.jsx:218 | the input becomes the minimum next bid (also line 432) |
| LiveControlCenter.ControlCenter.EditAmount | src/pages/LiveControlCenter.jsx:406 | typing replaces the input text |
| AuctionRoom.LoadedPrice | src/pages/AuctionRoom.jsx:32-56 | the price is `current_price` when truthy, else `starting_price` when truthy, else 0 |
| AuctionRoom.HistoryRows | src/pages/AuctionRoom.jsx:43 | a history reply replaces the feed row for row, and a reply without data gives an empty feed |
| AuctionRoom.Status | src/pages/AuctionRoom.jsx:123 | a missing or empty status reads as 'scheduled', and only then; any other status is kept |
| AuctionRoom.RightPanel | src/pages/AuctionRoom.jsx:123-124 | the bid panel exactly when the status is 'live', the not-started panel exactly when it is 'scheduled' (a missing status included), the completed panel otherwise (also line 304-309) |
| AuctionRoom.RegistrationAndBiddingExclusive | src/pages/AuctionRoom.jsx:300-304 | registration and the bid panel are never offered together; registration is offered exactly with the not-started panel |
| AuctionRoom.Room.constructor | src/pages/AuctionRoom.jsx:13-21 | the initial page state |
| AuctionRoom.Room.LoadAuction | src/pages/AuctionRoom.jsx:28-38 | a loaded auction sets the price by the fallback chain; a failure changes nothing; loading ends either way |
| AuctionRoom.Room.Poll | src/pages/AuctionRoom.jsx:50-60 | a poll runs only once an auction is loaded; a successful one refreshes the auction and the price; a failed one changes nothing |
| AuctionRoom.Room.LoadBids | src/pages/AuctionRoom.jsx:40-47 | a successful load replaces the feed; a failed one keeps it |
| AuctionRoom.Room.HandleBidUpdate | src/pages/AuctionRoom.jsx:67-78 | exactly one row goes in front of the feed, with no cap and no merge by id, and the price becomes `data.amount` as it is, with no comparison |
| AuctionRoom.Room.HandlePlaceBid | src/pages/AuctionRoom.jsx:91-108 | unauthenticated: only the login alert and nothing sent; otherwise one request, then a re-fetched feed on success, or the server's detail or 'Failed to place bid' on failure |
| BidPanel.MinBid | src/components/BidPanel.jsx:10 | the minimum is the current price plus one, NaN when the price is NaN |
| BidPanel.ProceedsMeansAbovePrice | src/components/BidPanel.jsx:12-15 | between numbers exactly the amounts above the current price open the confirmation; NaN on either side lets the amount through |
| BidPanel.Panel.constructor | src/components/BidPanel.jsx:6-8 | the amount starts at the price plus 100, computed once at mount |
| BidPanel.Panel.ReceivePrice | src/components/BidPanel.jsx:5-10 | a new price moves the minimum and leaves the amount alone |
| BidPanel.Panel.Edit | src/components/BidPanel.jsx:41 | typing sets the amount to the text read as a number |
| BidPanel.Panel.Increment | src/components/BidPanel.jsx:48-51 | an increment button sets the amount to the current price plus the increment, not cumulatively |
| BidPanel.Panel.HandlePlaceBid | src/components/BidPanel.jsx:12-15 | the confirmation opens only when the guard lets the amount through |
| BidPanel.Panel.Confirm | src/components/BidPanel.jsx:17-22 | the amount is handed over once, without re-checking the minimum, and the confirmation closes with the success banner shown |
| BidPanel.Panel.Cancel | src/components/BidPanel.jsx:88 | the confirmation closes and nothing is placed |
| BidPanel.Panel.SuccessTimerFires | src/components/BidPanel.jsx:21 | the success banner is hidden |
| BidPanel.StaleConfirmation | src/components/BidPanel.jsx:12-22 | for any starting price and any later price at least 100 above it, the initial amount is let through at the first price and still handed over after the later one arrives, although it no longer exceeds it |
| LiveAuctionControl.AsNumber | src/components/LiveAuctionControl.jsx:11 | a stored number is itself; typed text is read with `Number` (also lines 14, 52) |
| LiveAuctionControl.BroadcastData | src/components/LiveAuctionControl.jsx:9-12 | the event data holds exactly the auction id and the amount as a number, NaN going out as null |
| LiveAuctionControl.FloorControl.constructor | src/components/LiveAuctionControl.jsx:6 | the amount starts at `currentPrice + 1000`, NaN when the auction has no `currentPrice` |
| LiveAuctionControl.FloorControl.Edit | src/components/LiveAuctionControl.jsx:42 | typing stores the text as it is |
| LiveAuctionControl.FloorControl.Increment | src/components/LiveAuctionControl.jsx:49-52 | an increment button adds to the current amount, so presses accumulate |
| LiveAuctionControl.FloorControl.HandleBroadcast | src/components/LiveAuctionControl.jsx:8-15 | one 'broadcastFloorBid' frame goes out exactly when the socket is open, with no price comparison, and the amount then rises by 1000 |
| Countdown.CalculateTimeLeft | src/components/CountdownTimer.jsx:7-23 | expired exactly when the end time is absent or the difference is not positive; otherwise hours, minutes and seconds are in range |
| Countdown.SecondsSplit | src/components/CountdownTimer.jsx:13-16 | a number of seconds is recovered from its days, hours, minutes and seconds |
| Countdown.TimeLeftAddsUp | src/components/CountdownTimer.jsx:11-17 | for a positive difference, days is the difference over a day, and days, hours, minutes and seconds add up to the whole seconds left |
| Countdown.Clock | src/components/CountdownTimer.jsx:47-49 | the clock text holds only digits and colons |
| Countdown.Display | src/components/CountdownTimer.jsx:33-52 | 'Auction Ended' when expired; otherwise the day count, "d " and the two-digit clock when days > 0, and the bare clock when there are none |
| Countdown.ClockPartsPadded | src/components/CountdownTimer.jsx:47-49 | the clock has 8 characters, with each part padded to two digits between the colons |
| RegistrationService.KeyNumber | src/services/registrationService.js:28-37 | `Number` of a numeric id is that number, and of a string id is that string read as a number (NaN unless it is decimal digits) |
| RegistrationService.FindPair | src/services/registrationService.js:27-55 | the first record whose auction id is strictly equal to `Number(auctionId)` and whose user id is the user's; none when no record matches |
| RegistrationService.FindId | src/services/registrationService.js:93-104 | the first record with that id; none when no record has it |
| RegistrationService.NewRecord | src/services/registrationService.js:35-43 | `userData` keys override the defaults; status 'registered' and the given type unless overridden; with the ids left alone the record matches exactly its own pair |
| RegistrationService.RemoveAt | src/services/registrationService.js:61 | exactly the record at the index is removed and the others keep their order |
| RegistrationService.ForAuction | src/services/registrationService.js:82-84 | exactly the records of that auction id, as a sub-list |
| RegistrationService.ForUser | src/services/registrationService.js:87-89 | exactly the records of that user |
| RegistrationService.CountsDisjoint | src/services/registrationService.js:118-121 | no record is counted under two different values of one field |
| RegistrationService.CountsOf | src/services/registrationService.js:114-123 | total is the number of the auction's records; online, onfield, approved and pending each count the auction's records with that type or status; online plus onfield, and approved plus pending, never exceed the total |
| RegistrationService.RegisterThenUnregister | src/services/registrationService.js:26-65 | for a numeric auction id, registering a new pair and unregistering it restores the list |
| RegistrationService.RegisterKeepsUnique | src/services/registrationService.js:26-48 | registering keeps at most one record per (auction, user) lookup |
| RegistrationService.UnregisterKeepsUnique | src/services/registrationService.js:52-65 | unregistering keeps at most one record per lookup |
| RegistrationService.IsRegisteredIffFound | src/services/registrationService.js:68-79 | `isRegistered` is true exactly when `getRegistration` finds a record |
| RegistrationService.UuidAuctionNeverFound | src/services/registrationService.js:28 | with a UUID auction id (hex groups joined by hyphens), `Number` gives NaN, so no lookup finds a record and the auction's list is empty; the lemma holds for any id with a hyphen after its first character under the model's `Number` (see Js.ToNumber under Left out) (also lines 70, 77, 83) |
| RegistrationService.NothingMatchesNaN | src/services/registrationService.js:83 | no record's auction id is strictly equal to NaN |
| RegistrationService.UuidRegistrationLost | src/services/registrationService.js:26-45 | registering a UUID auction always appends, a second time included, and the new record is never found; stated for every id with a hyphen after its first character under the model's `Number`, which covers every UUID |
| Js.InnerHyphenIsNaN | src/services/registrationService.js:28 | the model's `Number` (see Js.ToNumber under Left out) gives NaN for a text with a hyphen after its first character, so for every UUID, as JavaScript's `Number` does for UUIDs |
| RegistrationService.FindKeyed | src/services/registrationService.js:27-29 | the corrected lookup: the first record whose stored auction id equals the id as given |
| RegistrationService.KeyedRecord | src/services/registrationService.js:35-43 | the corrected record stores the auction id as given; with the ids left alone it matches exactly its own pair |
| RegistrationService.RegisterThenFound | src/services/registrationService.js:26-48 | with the id kept as given, a registered pair is found afterwards and a second registration changes nothing, for UUID ids too (also line 75-79) |
| RegistrationService.Book.constructor | src/services/registrationService.js:5-7 | an empty book |
| RegistrationService.Book.Register | src/services/registrationService.js:26-49 | a pair already present gives the failure result and no change; otherwise exactly one new record is appended and returned |
| RegistrationService.Book.Unregister | src/services/registrationService.js:52-65 | removes the first matching record and nothing else, or fails without a change |
| RegistrationService.Book.IsRegistered | src/services/registrationService.js:68-72 | true exactly when `getRegistration` finds a record |
| RegistrationService.Book.GetRegistration | src/services/registrationService.js:75-79 | the first record matching the pair when there is one, and nothing exactly when no record matches |
| RegistrationService.Book.GetAuctionRegistrations | src/services/registrationService.js:82-84 | exactly the book's records of that auction |
| RegistrationService.Book.GetUserRegistrations | src/services/registrationService.js:87-89 | exactly the book's records of that user |
| RegistrationService.Book.GetRegistrationCounts | src/services/registrationService.js:114-123 | total is the size of the auction's list; each type and status counter is the number of records in that list with that value; the counters stay within the total |
| RegistrationService.RegisterCountsOnce | src/services/registrationService.js:26-46 | a successful register of a new pair raises the total and pending counts and the count of its type by one, and leaves approved unchanged |
| RegistrationService.Book.SetStatus | src/services/registrationService.js:92-111 | only the status of the first record with that id changes, and every other record is kept; an unknown id fails without a change |
| RegistrationService.Book.ApproveRegistration | src/services/registrationService.js:92-100 | the first record with that id gets status 'approved'; an unknown id fails without a change |
| RegistrationService.Book.RejectRegistration | src/services/registrationService.js:103-111 | the first record with that id gets status 'rejected'; an unknown id fails without a change |
| BiddersManagement.Filtered | src/pages/BiddersManagement.jsx:77-82 | a row is shown exactly when its lower-cased name or bidder number contains the lower-cased search and the filter is 'all' or its status; the result is an order-preserving sub-list |
| BiddersManagement.EmptySearchShowsAll | src/pages/BiddersManagement.jsx:77-82 | an empty search with the 'all' filter shows every row, in order |
| BiddersManagement.BareRowsMatchOnlyEmptySearch | src/pages/BiddersManagement.jsx:78-79 | a row with neither a name nor a bidder number matches only the empty search |
| BiddersManagement.CountStatus | src/pages/BiddersManagement.jsx:128-132 | a status counter never exceeds the number of rows |
| BiddersManagement.CountersWithinTotal | src/pages/BiddersManagement.jsx:124-132 | the approved and pending counters together never exceed the total |
| BiddersManagement.SomeActionOffered | src/pages/BiddersManagement.jsx:254-263 | every row offers approval or rejection, or both |
| BiddersManagement.WithStatus | src/pages/BiddersManagement.jsx:51-60 | the rows with that id take the status and every other row is unchanged |
| BiddersManagement.WithNumber | src/pages/BiddersManagement.jsx:69 | the rows with that id take the bidder number and every other row is unchanged |
| BiddersManagement.ApprovingRaisesCounter | src/pages/BiddersManagement.jsx:51 | approving never lowers the approved counter, and an approved row no longer offers approval (also lines 128, 254) |
| BiddersManagement.CountMonotoneUnder | src/pages/BiddersManagement.jsx:128-132 | a pointwise change that keeps every row of a status never lowers that status's counter |
| BiddersManagement.Page.constructor | src/pages/BiddersManagement.jsx:21-27 | the initial page state |
| BiddersManagement.Page.LoadData | src/pages/BiddersManagement.jsx:33-46 | when both calls succeed the list and the auction are replaced; when either fails neither is; loading ends either way |
| BiddersManagement.Page.HandleApprove | src/pages/BiddersManagement.jsx:48-55 | the rows with that id become approved only after the server call succeeds; on failure nothing changes |
| BiddersManagement.Page.HandleReject | src/pages/BiddersManagement.jsx:57-64 | the rows with that id become rejected only after the server call succeeds; on failure nothing changes |
| BiddersManagement.Page.CancelEditing | src/pages/BiddersManagement.jsx:233 | the cancel button closes editing and changes nothing else |
| BiddersManagement.Page.StartEditing | src/pages/BiddersManagement.jsx:243-244 | editing starts on that row with its number, or with an empty field |
| BiddersManagement.Page.EditNumber | src/pages/BiddersManagement.jsx:222 | typing replaces the number being edited |
| BiddersManagement.Page.HandleAssignNumber | src/pages/BiddersManagement.jsx:66-75 | after success the rows with that id take the typed number and editing closes; on failure nothing changes |
| BiddersManagement.Page.SetSearch | src/pages/BiddersManagement.jsx:145 | typing replaces the search term |
| BiddersManagement.Page.SetFilter | src/pages/BiddersManagement.jsx:154 | a status button sets the filter |
| BiddersManagement.Page.Shown | src/pages/BiddersManagement.jsx:77-82 | the table shows exactly the rows that pass the filter, in their order (also line 185) |
| AuctionList.FilteredAuctions | src/pages/AuctionList.jsx:13-17 | an auction is listed exactly when its lower-cased title contains the lower-cased search and the category is 'All' or equal; the catalogue's order is kept |
| AuctionList.EverythingByDefault | src/pages/AuctionList.jsx:8-17 | 'All' with an empty search lists the whole catalogue |
| AuctionList.CategoryIsCaseSensitive | src/pages/AuctionList.jsx:14-15 | any category other than 'All' lists only listings of exactly that category, so the comparison is case-sensitive, while the title search ignores case |
| AuctionList.CategoryNarrows | src/pages/AuctionList.jsx:15 | narrowing to one category never lists more than 'All' with the same search |
| AuthContext.MockAccount | src/contexts/AuthContext.jsx:34-49 | exactly the two built-in emails have an account, carrying that email, and only the admin email has the admin role |
| AuthContext.RolesExclusive | src/contexts/AuthContext.jsx:86-88 | no user is both admin and participant, and either role implies a signed-in user |
| AuthContext.Auth.constructor | src/contexts/AuthContext.jsx:14-15 | no user, loading |
| AuthContext.Auth.Mount | src/contexts/AuthContext.jsx:18-29 | a stored user that parses becomes the user; otherwise the user is unchanged; loading ends either way |
| AuthContext.Auth.Login | src/contexts/AuthContext.jsx:31-62 | succeeds exactly for a built-in email with a password of at least six characters, and the user becomes that account; a failure returns the error and leaves the user unchanged |
| AuthContext.Auth.Register | src/contexts/AuthContext.jsx:64-79 | always succeeds, and the new user is a participant with the form's fields |
| AuthContext.Auth.Logout | src/contexts/AuthContext.jsx:81-84 | no user afterwards, so nobody is authenticated |
| AuthContext.Auth.IsAdmin | src/contexts/AuthContext.jsx:86 | true exactly for a user with role 'admin' |
| AuthContext.Auth.IsParticipant | src/contexts/AuthContext.jsx:87 | true exactly for a user with role 'participant' or 'onfield' |
| AuthContext.Auth.IsAuthenticated | src/contexts/AuthContext.jsx:88 | true exactly when there is a user, and implied by either role |
| ProtectedRoute.Decide | src/components/ProtectedRoute.jsx:4-28 | the spinner while loading whatever the auth state; then /login when signed out; then / for a non-admin on an admin page; the children exactly otherwise |
| ProtectedRoute.Guard | src/components/ProtectedRoute.jsx:5-28 | the children are shown only to a signed-in user once loading is over, and on an admin page only to an admin |
| ProtectedRoute.AdminPagesAreNarrower | src/components/ProtectedRoute.jsx:4-28 | without `requireAdmin` every signed-in user passes; with it exactly the admins pass; asking for admin never lets more through |
| Models.NewUser | backend/database/models.py:13-24 | a new user is active and, without a given role, a participant |
| Models.NewRegistration | backend/database/models.py:54-63 | a new registration has status 'registered' unless given, and no bidder number |
| Models.NewBid | backend/database/models.py:71-82 | a new bid is not winning and keeps its auction, user and amount |
| Models.DeleteAuction | backend/database/models.py:50-52 | deleting an auction removes exactly it and its registrations, bids and chat messages; users stay (also lines 58, 75, 92) |
| Models.DeleteAuctionValid | backend/database/models.py:50-52 | deleting an auction with its dependent rows keeps every key and reference constraint |
| Models.DeleteUser | backend/database/models.py:44 | deleting a user removes exactly them and their registrations, and nulls the user on their bids and messages and the creator on their auctions; every auction keeps its place and its other fields (also lines 59, 76, 93) |
| Models.DeleteUserValid | backend/database/models.py:59-93 | deleting a user keeps every key and reference constraint |
| Models.DetachedCreatorsValid | backend/database/models.py:44 | after a user is deleted every remaining creator names an existing user |
| Models.DetachedBidsValid | backend/database/models.py:75-76 | after a user is deleted every bid still names an existing auction and, if any, an existing user |
| Models.DetachedMessagesValid | backend/database/models.py:92-93 | after a user is deleted every chat message still names an existing auction and, if any, an existing user |
| Models.Db.constructor | backend/database/models.py:13-100 | an empty database satisfies every constraint |
| WebsocketManager.Envelope | backend/api/websocket_manager.py:54-78 | the message holds exactly `type` and `data` |
| WebsocketManager.Sends | backend/api/websocket_manager.py:60-62 | one send per connection, in the room's order, each with the same message |
| WebsocketManager.FirstIndex | backend/api/websocket_manager.py:33 | the place of the first occurrence of the socket: it holds the socket and nothing before it does |
| WebsocketManager.RemoveFirst | backend/api/websocket_manager.py:33 | `list.remove` takes away exactly the first occurrence and keeps the others in order |
| WebsocketManager.Remaining | backend/api/websocket_manager.py:32-33 | a member socket leaves one place; a socket not in the room leaves the list unchanged |
| WebsocketManager.ConnectionManager.constructor | backend/api/websocket_manager.py:10-12 | no rooms and nothing sent |
| WebsocketManager.ConnectionManager.Broadcast | backend/api/websocket_manager.py:59-85 | every connection of the room whose send does not raise gets the message, in order; the failing ones are collected; a room with no entry gets nothing |
| WebsocketManager.ConnectionManager.BroadcastBidUpdate | backend/api/websocket_manager.py:49-68 | a 'bidUpdated' envelope to the room's working connections; the table is unchanged because the unawaited `disconnect` never runs; no entry means no sends |
| WebsocketManager.ConnectionManager.BroadcastParticipantUpdate | backend/api/websocket_manager.py:70-88 | a 'participantUpdate' envelope to the room's working connections, the same way |
| WebsocketManager.ConnectionManager.BroadcastAuctionStatus | backend/api/websocket_manager.py:90-100 | only the status data is sent, through the bid broadcast, so it arrives as 'bidUpdated' |
| WebsocketManager.ConnectionManager.SendPersonalMessage | backend/api/websocket_manager.py:45-47 | exactly one message to that socket |
| WebsocketManager.ConnectionManager.Connect | backend/api/websocket_manager.py:14-27 | the socket joins the end of its room, which is created if absent, and the room, newcomer included, is told 'participant_joined' with its size; no room is ever empty |
| WebsocketManager.ConnectionManager.Disconnect | backend/api/websocket_manager.py:29-43 | one occurrence leaves the room; an emptied room is deleted without a broadcast; otherwise the rest are told 'participant_left' with the new size; an unknown room changes nothing |
| WebsocketManager.JoinThenLeave | backend/api/websocket_manager.py:14-43 | a socket that joins and then leaves an otherwise empty table leaves no room behind |
| Auctions.ListAuctions | backend/api/routers/auctions.py:18-32 | exactly the page `skip`..`skip + limit` of the auctions of the requested status (all when none is given), sorted latest auction date first; its length is `limit` clipped to what remains |
| Auctions.FirstPageHoldsLatest | backend/api/routers/auctions.py:26-31 | an auction of the requested status left off the first page is no later than any auction on it |
| Auctions.FirstPageHoldsAll | backend/api/routers/auctions.py:26-31 | a first page at least as large as the table holds every auction of that status |
| Auctions.GetAuction | backend/api/routers/auctions.py:34-45 | the row with that id exactly when one exists, otherwise 404 'Auction not found' |
| Auctions.Next | backend/api/routers/auctions.py:119-152 | start succeeds exactly from 'scheduled' to 'live', end exactly from 'live' to 'completed'; everything else is a 400 |
| Auctions.CompletedIsTerminal | backend/api/routers/auctions.py:119-146 | no series of start and end calls moves an auction out of 'completed' |
| Auctions.PhasesOnlyAdvance | backend/api/routers/auctions.py:104-156 | a series of moves keeps the status among the three phases and never lowers its rank |
| Auctions.Applied | backend/api/routers/auctions.py:95-97 | every field set in the request (title, description, starting price, date, image, category, location) is written and every other field kept; id, status, current price and creator are never touched; an empty update changes nothing |
| Auctions.ApplyIdempotent | backend/api/routers/auctions.py:95-97 | applying the same update twice is applying it once |
| Auctions.ReplaceAuctionValid | backend/api/routers/auctions.py:95-126 | rewriting an auction in place under the same id and creator keeps every constraint |
| Auctions.AddAuctionValid | backend/api/routers/auctions.py:66-68 | adding an auction with a new id and an existing or no creator keeps every constraint |
| Auctions.Created | backend/api/routers/auctions.py:54-65 | the new auction is 'scheduled', its current price is its starting price, and the caller is its creator |
| Auctions.CreateAuction | backend/api/routers/auctions.py:47-71 | exactly one new scheduled auction is appended, and the constraints hold |
| Auctions.UpdateAuction | backend/api/routers/auctions.py:73-102 | 404 for an unknown id and 400 unless scheduled, both without a change; otherwise only that row is rewritten by the update |
| Auctions.MoveAuction | backend/api/routers/auctions.py:104-156 | 404 for an unknown id; the move's 400 without a change; otherwise only that row's status changes, to the move's result |
| Auctions.StartAuction | backend/api/routers/auctions.py:104-129 | 404 for an unknown id; 400 'Auction is already <status>' unless scheduled; otherwise the auction becomes 'live' |
| Auctions.EndAuction | backend/api/routers/auctions.py:131-156 | 404 for an unknown id; 400 unless live; otherwise the auction becomes 'completed' |
| Auctions.DeleteAuctionById | backend/api/routers/auctions.py:158-182 | 404 for an unknown id and 400 unless scheduled, both without a change; otherwise the auction and its dependent rows are deleted |
| Bids.Check | backend/api/routers/bids.py:27-46 | 404 exactly when the auction is missing; 400 'Auction is not live' exactly when it is not live; 400 too low exactly when a live auction's price is not beaten; success only for a live auction whose price the amount beats |
| Bids.CheckAcceptsAboveCurrent | backend/api/routers/bids.py:35-46 | a live auction accepts exactly the amounts above its current price |
| Bids.OnlineBid | backend/api/routers/bids.py:49-55 | the stored online bid belongs to the caller under the caller's name, with the requested auction and amount |
| Bids.FloorBid | backend/api/routers/bids.py:106-113 | the stored floor bid has no user and carries the given name and number |
| Bids.Accepted | backend/api/routers/bids.py:57-62 | the bid is appended and, by the trigger, only that auction's current price becomes the amount; users, registrations and messages are kept |
| Bids.AcceptedValid | backend/api/routers/bids.py:57-58 | storing a bid on an existing auction by an existing user or none keeps every constraint |
| Bids.AcceptedKeepsPriceOnTop | backend/api/routers/bids.py:42-62 | an accepted bid keeps every auction's price at or above all its bids, and is strictly above every earlier bid on that auction |
| Bids.BidPayload | backend/api/routers/bids.py:65-72 | the broadcast carries exactly id, auctionId, newPrice, bidderName, type and timestamp, with the amount under newPrice and never under amount |
| Bids.BroadcastRoom | backend/api/routers/bids.py:65 | the room key broadcast to is the parsed UUID, never a text key (also line 123) |
| Bids.IntendedRoom | backend/api/routers/bids.py:151-161 | the room the websocket endpoint opens is keyed by the id's text |
| Bids.Delivered | backend/api/websocket_manager.py:49-68 | a broadcast to a room nobody opened sends nothing; otherwise one message per connection whose send succeeds |
| Bids.BroadcastRoomReachesNoOne | backend/api/routers/bids.py:65 | while rooms are keyed by text, a bid broadcast as written reaches no connection, and one to the text key reaches every connection whose send succeeds (also line 123) |
| Bids.Store | backend/api/routers/bids.py:27-62 | a rejected bid leaves the tables as they were with the guard's error; an accepted one is stored as Accepted, and the constraints hold |
| Bids.PlaceBid | backend/api/routers/bids.py:19-74 | a rejected bid stores and sends nothing; an accepted one is the caller's online bid, stored, and broadcast to the UUID room key; the connections are kept |
| Bids.PlaceFloorBid | backend/api/routers/bids.py:76-132 | the same guards and broadcast for a floor bid without a user |
| Bids.PlaceBidToRoom | backend/api/routers/bids.py:19-74 | as PlaceBid, with the broadcast sent to the auction's text room key |
| Bids.AuctionBids | backend/api/routers/bids.py:142-143 | exactly the table's bids whose auction is the given one |
| Bids.GetAuctionBids | backend/api/routers/bids.py:134-149 | exactly the page `skip`..`skip + limit` of that auction's bids sorted newest first; its length is `limit` clipped to what remains |
| Bids.FirstPageHoldsNewestBids | backend/api/routers/bids.py:142-147 | a bid of the auction left off the first page is no newer than any bid on it |
| Bids.FirstPageHoldsAllBids | backend/api/routers/bids.py:142-147 | a first page at least as large as the table holds every bid on the auction |
| Registrations.CheckRegister | backend/api/routers/registrations.py:26-43 | success exactly for an existing auction the caller is not registered for; 404 for a missing auction, else 400 |
| Registrations.FindRegistration | backend/api/routers/registrations.py:100-108 | a position exactly when a registration has that id, and the row there has it |
| Registrations.AddRegistrationValid | backend/api/routers/registrations.py:45-56 | a new registration for an existing auction and user with a new pair keeps every constraint |
| Registrations.ReplaceRegistrationValid | backend/api/routers/registrations.py:137-182 | rewriting a registration in place under the same id, auction and user keeps every constraint |
| Registrations.SecondRegistrationRefused | backend/api/routers/registrations.py:34-43 | once a registration exists, registering again for that auction is answered 400 |
| Registrations.Register | backend/api/routers/registrations.py:18-58 | the guard's error without a change, else one new 'registered' row at the end; the status of the auction is not consulted |
| Registrations.GetAuctionRegistrations | backend/api/routers/registrations.py:60-71 | exactly that auction's registrations, in table order |
| Registrations.GetUserRegistrations | backend/api/routers/registrations.py:73-91 | 403 exactly when the caller is neither that user nor an admin; otherwise exactly that user's registrations |
| Registrations.OwnRegistrationsReadable | backend/api/routers/registrations.py:81 | a user may always read their own registrations |
| Registrations.DeleteRegistrationValid | backend/api/routers/registrations.py:117-118 | deleting a registration keeps every constraint |
| Registrations.RegisterThenDelete | backend/api/routers/registrations.py:45-56 | deleting the registration just added gives back the table as it was (also line 117-118) |
| Registrations.Unregister | backend/api/routers/registrations.py:93-120 | 404 for an unknown id and 403 unless owner or admin, both without a change; otherwise the registration is removed |
| Registrations.Rewrite | backend/api/routers/registrations.py:122-184 | 404 for an unknown id without a change; otherwise only that row's status or number is rewritten |
| Registrations.Approve | backend/api/routers/registrations.py:122-141 | the status becomes 'approved' whatever it was, and nothing else changes |
| Registrations.Reject | backend/api/routers/registrations.py:143-162 | the status becomes 'rejected' whatever it was, and nothing else changes |
| Registrations.UpdateBidderNumber | backend/api/routers/registrations.py:164-184 | the number is overwritten without consulting other registrations, and nothing else changes |
| Registrations.BidderNumberUnconstrained | backend/database/models.py:62 | setting any registration's bidder number to any value, one another registration holds included, keeps every constraint |
| Registrations.SharedBidderNumberAllowed | backend/api/routers/registrations.py:180-182 | two registrations of one auction may share a bidder number while every constraint holds |
| AuthRouter.CheckSignUp | backend/api/routers/auth.py:26-42 | 400 for a taken email first; then, only for a truthy username, 400 for a taken username; success exactly when neither applies |
| AuthRouter.SignedUp | backend/api/routers/auth.py:45-51 | the new user is an active participant storing the hash and the given email, name and username |
| AuthRouter.AddUserValid | backend/api/routers/auth.py:53-55 | a user with a new id, email and username keeps every constraint |
| AuthRouter.Register | backend/api/routers/auth.py:20-57 | the check's error without a change; a second empty username fails the commit with nothing stored; otherwise the new participant is appended |
| AuthRouter.Login | backend/api/routers/auth.py:59-91 | a token only for an active user with that email whose hash matches, carrying id, email and role; 401 for an unknown email; only 401 or 403 as errors (the converse, that the right password logs a stored user in, is AuthRouter.RightPasswordLogsIn) |
| AuthRouter.RightPasswordLogsIn | backend/api/routers/auth.py:66-85 | the right password for a stored user gives a token with that user's id, email and role when the user is active, and 403 otherwise |
| AuthRouter.WrongPasswordBeforeInactive | backend/api/routers/auth.py:66-78 | a wrong password is answered 401 whether or not the account is active |
| AuthRouter.SignUpThenLogin | backend/api/routers/auth.py:20-91 | after signing up, logging in with the same password yields the new participant's token |
| Chat.HistoryRows | backend/api/routers/chat.py:21-30 | exactly the first `limit` messages of that auction sorted oldest first, or all of them when there are fewer |
| Chat.HistoryHoldsOldest | backend/api/routers/chat.py:21-30 | a message of the auction left out of the history is no older than any message in it |
| Chat.SenderNameMeaning | backend/api/routers/chat.py:33-38 | 'System' for a message without a sender, 'Unknown User' for a sender no user has, else that user's name |
| Chat.NameEach | backend/api/routers/chat.py:33-38 | each row, in order, paired with its sender's name |
| Chat.GetChatHistory | backend/api/routers/chat.py:19-40 | the query's rows in order, each with its sender's name |
| Chat.SendersAlwaysKnown | backend/api/routers/chat.py:33-38 | while the constraints hold, a message with a sender is named after an existing user |
| Chat.DeletedSenderShowsSystem | backend/api/routers/chat.py:33-35 | once its sender is deleted, a message is shown as sent by 'System' |
| Chat.Posted | backend/api/routers/chat.py:58-63 | the stored message is an admin message exactly when the sender is an admin, and carries the caller, auction and text |
| Chat.ChatPayload | backend/api/routers/chat.py:70-78 | the prepared broadcast holds exactly the row's fields plus the sender's name |
| Chat.AddMessageValid | backend/api/routers/chat.py:65-67 | a message on an existing auction by an existing user keeps every constraint |
| Chat.Store | backend/api/routers/chat.py:48-67 | stored exactly when the auction exists; otherwise nothing changes |
| Chat.SendChatMessage | backend/api/routers/chat.py:42-86 | 404 for a missing auction without a change; otherwise the message is committed and the reply is a 500 |
| Chat.SendChatMessageAnswered | backend/api/routers/chat.py:42-86 | 404 for a missing auction; otherwise the stored message is answered with its sender's name |
| Chat.SentMessageInHistory | backend/api/routers/chat.py:19-67 | a sent message appears in its auction's history once the limit allows |
| Integration.BidFrameRouted | src/services/socket.js:89-98 | the frame of a bid broadcast reaches the bidUpdated handlers with the bid payload as argument |
| Integration.BidPayloadReadByPages | src/pages/AuctionRoom.jsx:77 | the room reads `amount`, which the payload lacks, so its bid has no amount; the control center reads `newPrice` and gets the amount unless it is 0 |
| Integration.DeliverBid | src/pages/LiveControlCenter.jsx:107 | after one pushed bid the room's price is undefined and the control center's auction has the bid's amount |
| Integration.CountFrameEmptiesRoster | src/pages/LiveControlCenter.jsx:117 | a join or leave frame carries no participants, so the control center's roster becomes empty |
| Integration.UuidBidRequestCarriesNull | src/pages/AuctionRoom.jsx:99 | for a UUID route id the bid request's auction id is NaN, sent as null; stated for every id with a hyphen after its first character under the model's `Number` |
| Integration.RoomCountdownEnded | src/pages/AuctionRoom.jsx:150 | the room passes `auctionDate` while the countdown reads `endTime`, so the room always shows the ended text (also line 317) |

## Left out

- Transport and timers. WebSocket framing, `JSON.parse`, `setTimeout` and `setInterval` are not modelled. Socket events and timer expiry are methods the environment calls. The 10-second poll of the auction room is a method with no timing, and so is the bid panel's success timer.
- The simulated delays in `AuthContext.jsx` are not modelled: the awaited promises always resolve.
- localStorage is not modelled. `RegistrationService` starts from an empty list. `AuthContext.Auth.Mount` takes the stored user as a parameter, already parsed or not.
- AuthContext.MockAccount: models the two built-in accounts only. Inherited property names of the mock-user object (`mockUsers['toString']`, for instance) are not modelled.
- The REST wrappers in `api.js` and `auctionService.js` are not modelled; their replies are parameters. The 401 redirect interceptor is not part of this model.
- Password hashing and JWT signing are not modelled. The hash and the check are function parameters, and `AuthRouter.Login` returns the claims the token would carry.
- The `get_current_user` and `get_current_admin` dependencies are not modelled. The caller is an input, and the admin check of admin-only endpoints is not modelled.
- The websocket endpoint's receive loop (`bids.py`, 151-161) is not modelled. Only the room key it opens (`Bids.IntendedRoom`) and the manager's connect and disconnect are.
- Async scheduling is not modelled. The sends of one broadcast happen in order. Concurrent requests and clients are not interleaved.
- WebsocketManager.ConnectionManager.Broadcast: the failed sends are collected but the un-awaited `disconnect` never runs. This is modelled as "the connections stay"; the coroutine that is never awaited is not.
- Floating point is left out. The gain percentage with `toFixed`, `float(amount)` in the bid payload and the DECIMAL columns all use whole numbers. Bids.Check: the too-low message prints the price as an integer, not as a Python `Decimal`.
- Locale formatting (`toLocaleString`, `toLocaleTimeString`) is not modelled. A timestamp that a page formats is a parameter.
- Auctions.ListAuctions: `skip` and `limit` are natural numbers, so a negative offset or limit, which the database would reject, is not modelled. The same holds for Bids.GetAuctionBids and Chat.HistoryRows.
- Auctions.ListAuctions: rows with equal sort keys keep table order. The database guarantees no order among ties; the model fixes one. The same holds for Bids.GetAuctionBids and Chat.HistoryRows.
- Auctions.Applied: the request's `exclude_unset` dictionary is modelled as optional fields. An explicit `null` for a non-nullable column is refused by the database at commit; the model has no such request.
- Js.ToNumber: models `Number` for decimal digit strings with an optional leading "-" only. `Number` reads " 1500", "+5", "1500.5", "1e3", "1e-5", " -5" and "0x10" as numbers; the model reads them as NaN. This affects the floor-bid guard, `BidPanel` and `LiveAuctionControl` when such text is typed.
- Js.Lower: ASCII-only case folding. `toLowerCase` also folds non-ASCII letters; the searches in `BiddersManagement` and `AuctionList` are affected only for such letters.
- AuctionRoom.LoadedPrice: prices are numbers in the model. The backend's `Decimal` columns may arrive as JSON strings, and then `current_price || starting_price || 0` plus an increment concatenates text (src/pages/LiveControlCenter.jsx lines 140 and 218, src/components/BidPanel.jsx line 6). The model adds numbers. The same holds for LiveControlCenter.ControlCenter.LoadData, LiveControlCenter.ControlCenter.ResetToMin and BidPanel.Panel.constructor.
- Auctions.GetAuction: path ids are text compared with `UUID` columns. A malformed id makes the query fail with 500 in the source; the model answers 404 for every id not in the table. The same holds for the other routers' lookups by path id.
- Fresh UUIDs are preconditions: a new id is not among the existing ids.
- Models.DeleteUser: `created_by` has no `ON DELETE` rule. The model nulls it as the ORM does for loaded auctions, not as the database would (it would refuse the delete).
- AuthRouter.CheckSignUp: `EmailStr` normalisation of the email is not modelled; emails are compared as given.
- Registrations.Unregister: the ownership check compares `str(user_id)`. With ids held as text, this is plain equality.
- A request body with a missing or null `auction_id` is refused by FastAPI with 422 before the handler runs. That validation is not part of this model.
- The chat broadcast's wire format is not modelled, because the method it calls does not exist. `Chat.ChatPayload` states what was prepared.
- The pydantic schemas, app wiring, scripts, mock data and presentational components are not part of this model. These include CreateAuction, Welcome, Landing, Navbar, ChatBox and AuctionRegistration.

## Findings

| source | as written | input that shows it | evidently intended | confidence | as-written member | corrected member |
|---|---|---|---|---|---|---|
| backend/api/routers/bids.py:65-72 | both bid endpoints (here and at line 123) broadcast under `bid.auction_id`, a `UUID`, while `connect` keys every room by the id's text (backend/api/websocket_manager.py:14-21), so the lookup misses | any accepted bid while a client is connected to that auction's room | broadcast to `str(bid.auction_id)`, reaching every connection of the room | high (not executed) | Bids.BroadcastRoomReachesNoOne | Bids.PlaceBidToRoom |
| backend/api/routers/chat.py:81 | `manager.broadcast_chat_message` does not exist on `ConnectionManager`, so every accepted message is committed and then answered 500 | any message to an existing auction | the stored message is answered, with its sender's name | high (not executed) | Chat.SendChatMessage | Chat.SendChatMessageAnswered |
| src/services/registrationService.js:28-37 | the auction id is stored and compared as `Number(auctionId)`; for a UUID that is NaN, which equals nothing, so a registration is never found and a second `register` of the same pair succeeds | `register('3f2b…', 'u1')` twice, or with any other UUID auction id | compare auction ids as given, so the pair stays unique | high (not executed) | RegistrationService.UuidRegistrationLost | RegistrationService.RegisterThenFound |
