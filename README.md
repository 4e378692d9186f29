# EcoCycle Hub — a verified model of its decision rules

EcoCycle Hub is a marketplace for recyclable waste in Malawi. Sellers list
materials such as plastic, metal and e-waste. Buyers browse and search the
listings, chat with sellers, and plan a collection route through the sellers
they picked. This project models the parts of the Express back end
(`back-end/server.js`) and the React pages that make decisions, and it proves
what those decisions guarantee.

- **Back end.** `Server.Database` is a class whose fields are the database
  tables (users, locations, products, product images, chat threads,
  messages), each a sequence of records plus the next auto-increment id. Each
  handler is a method. Its contract states the HTTP status and body it
  replies with and the exact new state of every table it touches.
  `Reports` holds the pure mapping of `GET /api/sellers` (item list and
  volume tier) and the leaderboard points of `GET /api/score`.
- **Collection route.** `Routes.CalculateOptimalRoute` is the greedy
  nearest-neighbour loop of `routes.jsx`. It is proved against the function
  `Routes.Tour`, and lemmas show the tour is a permutation of the selection,
  greedy at every step and tie-broken towards the first minimum. The
  great-circle distance is the parameter `dist`.
- **Pages.** Each page's React state is a class:
  - `NewListing.NewListingPage`, `SignUp.SignUpPage` and `SignIn.SignInPage`;
  - `Marketplace.MarketplacePage` and `Home.HomePage`;
  - `Chat.ChatPage`, `MyListing.MyListingPage` and `UserLocation.LocationInput`.

  Each handler is a method with a `modifies` clause. The validators
  (`validateForm` and the two `validate` functions) are methods. Each fills a
  local errors record step by step, in the source's order, and is proved
  equal to a specification function whose `ensures` give every error key
  with an if-and-only-if.
- **Outside the model.** Responses from the network (axios replies,
  `window.confirm`, the password hash, the clock) become method parameters.

Conventions:
- JavaScript `null`/`undefined` and an empty numeric input are `None`
  (`Optional.Option`).
- JavaScript strings are `seq<char>`.
- `trim`, `toLowerCase`, `includes` and `split` are written out in `Strings`
  (ASCII case only).
- A session's `user_id` is `Option<nat>`. It is truthy when present and not 0.

## Model

| member | source | states |
|---|---|---|
| Reports.VolumeTier | back-end/server.js:1132-1134 | High iff the total exceeds 1000, Medium iff it lies in (300, 1000], Low otherwise, NULL included |
| Reports.VolumeTierMonotone | back-end/server.js:1132-1134 | a larger total never gets a lower tier |
| Reports.Items | back-end/server.js:1131 | NULL or "" gives no items; otherwise the comma-free parts, which joined with commas give back the column |
| Reports.ItemsOfConcat | back-end/server.js:1131 | splitting a comma-joined list of comma-free names gives back exactly those names |
| Reports.MapSeller | back-end/server.js:1128-1136 | every column of the row is kept, the location is [latitude, longitude], the volume is the tier of the total (one of the three labels, "High" iff the total exceeds 1000), the items are the split list |
| Reports.Points | back-end/server.js:234-237 | points are at least 2 and at least the listing count |
| Reports.PointsStrictlyIncreasing | back-end/server.js:234-237 | more listings always mean strictly more points, across the jump at 5 too |
| Server.FindUserByPhone | back-end/server.js:89-98 | a found user is in the table with that phone number; none is found iff no row has that number |
| Server.ThreadBetween | back-end/server.js:342-351 | a found id belongs to a row joining the two users in either orientation; none iff no row joins them |
| Server.ThreadBetweenSymmetric | back-end/server.js:344-348 | the lookup does not depend on which user asks |
| Server.ThreadBetweenAppend | back-end/server.js:359-367 | after appending a thread of the pair, the lookup finds the earlier thread if any, else the new one |
| Server.WithLastMessage | back-end/server.js:500-506 | rows of that thread get the text as last message and the time as last updated, and keep their participants; every other row is unchanged; the row count is unchanged |
| Server.WithLastMessageKeepsPairs | back-end/server.js:500-506 | updating last_message changes no thread lookup |
| Server.ThreadMessages | back-end/server.js:551-565 | exactly the thread's messages, each labelled "user" iff the requester sent it, otherwise "bot" |
| Server.ThreadMessagesAppend | back-end/server.js:551-565 | the listing of two tables one after the other is the first's listing followed by the second's, so the listing keeps table order and every occurrence |
| Server.ThreadMessagesAfterPost | back-end/server.js:551-565 | a message appended to the table comes last in its own thread's listing and changes no other thread's |
| Server.WithLastMessageKeepsParticipants | back-end/server.js:500-506 | posting keeps every participant of every thread |
| Server.MarkOpened | back-end/server.js:567-575 | only messages of that thread sent by someone else become opened; every other field and row is unchanged |
| Server.MarkOpenedIdempotent | back-end/server.js:567-575 | marking twice is marking once |
| Server.MarkOpenedKeepsViews | back-end/server.js:551-575 | marking as read changes no listing of any thread for any user |
| Server.UpdateOwned | back-end/server.js:793 | the row with that product id and the user's id takes the seven new columns (name, price, quantity, unit, description, status, category) and keeps its ids and location; all other rows are unchanged |
| Server.DeleteOwned | back-end/server.js:996 | the remaining rows are exactly the rows other than the user's row with that id |
| Server.DeleteOwnedProperties | back-end/server.js:996 | the result keeps the table's order and every other user's rows; deleting twice is deleting once |
| Server.ListingCountAppend | back-end/server.js:231-239 | a new product adds one to its owner's count and nothing to anyone else's |
| Server.ScoreAfterListing | back-end/server.js:231-239 | a new listing strictly raises its owner's points and leaves other users' points alone |
| Server.FindLocation | back-end/server.js:618-627 | a found id is a row with the same city, country, latitude and longitude; none iff no row matches |
| Server.FindLocationIgnoresDistrict | back-end/server.js:620 | the district takes no part in the lookup |
| Server.FindLocationAppend | back-end/server.js:632-642 | after appending a matching row, the lookup returns the earlier match if any, else the new row |
| Server.Database.Signup | back-end/server.js:71-125 | a missing field is 400; a registered phone number is 409 and inserts nothing; otherwise exactly one user row is appended and 201 carries its fresh id |
| Server.Database.Signin | back-end/server.js:141-179 | an unknown phone is 404, a failed password check 401, otherwise 200 "Logged in successfully" with the user's id |
| Server.Database.CreateThread | back-end/server.js:326-367 | no session is 401; a missing recipient or oneself is 400 with the table unchanged; an existing thread of the pair in either orientation is returned with 200 and nothing inserted; otherwise exactly one row (user, recipient) is appended and 201 carries its id |
| Server.CreateThreadTwice | back-end/server.js:342-367 | asking twice, from either side, yields the same thread id and at most one new row |
| Server.PostThenFetch | back-end/server.js:475-577 | a participant who posts and then fetches the thread gets its earlier messages in table order followed by the new one, labelled "user" |
| Server.Database.PostMessage | back-end/server.js:475-516 | no session is 401; missing or blank text is 400 with nothing changed; otherwise exactly one message is appended and only that thread's last_message becomes the text |
| Server.Database.GetMessages | back-end/server.js:527-577 | no session is 401; a non-participant gets 403 with nothing changed; otherwise the labelled listing of the thread, and the others' messages in it marked opened |
| Server.Database.NewListing | back-end/server.js:588-677 | no session is 401 with no table changed; otherwise the location is reused by its key or appended once, exactly one product row is appended, an image row only for a non-empty URL, and 201 carries both ids |
| Server.Database.FindOrCreateLocation | back-end/server.js:617-643 | the id of the first row with the same key, with no insert; otherwise one new row; afterwards the lookup finds that id |
| Server.Database.InsertProduct | back-end/server.js:645-672 | exactly one product row with the fresh id, plus one image row iff an image URL was given |
| Server.Database.UpdateListing | back-end/server.js:776-807 | no session is 401 with nothing changed; otherwise the table becomes the owner-scoped update |
| Server.Database.DeleteListing | back-end/server.js:980-1010 | no session is 401 with nothing changed; otherwise the table becomes the owner-scoped delete |
| Routes.Nearest | ecowealth/src/pages/routes.jsx:124-133 | the index of the first seller at the least distance: strictly nearer than every earlier one, no farther than every later one |
| Routes.FirstNearestUnique | ecowealth/src/pages/routes.jsx:129 | the strict comparison makes that index unique: ties go to the first minimum |
| Routes.Remove | ecowealth/src/pages/routes.jsx:139 | `splice(k, 1)` removes exactly the k-th element |
| Routes.Tour | ecowealth/src/pages/routes.jsx:122-140 | the visiting order has one stop per selected seller |
| Routes.TourIsPermutation | ecowealth/src/pages/routes.jsx:122-140 | the tour visits every selected seller exactly once |
| Routes.TourIsGreedy | ecowealth/src/pages/routes.jsx:124-138 | every stop is at least as near to the previous point as every stop still to come |
| Routes.PathLengthNonNegative | ecowealth/src/pages/routes.jsx:137-143 | with a non-negative distance the total is never negative |
| Routes.FindNearest | ecowealth/src/pages/routes.jsx:124-133 | the inner loop returns the first nearest index and its distance |
| Routes.VisitAll | ecowealth/src/pages/routes.jsx:117-140 | the outer loop builds the origin followed by the tour's locations, and the distance is that path's length |
| Routes.CalculateOptimalRoute | ecowealth/src/pages/routes.jsx:108-149 | no origin or no seller gives an empty route and zero distance and cost; otherwise the route has length n + 2, starts and ends at the origin, its interior is the tour (a permutation of the selection), the distance is the sum of its legs, and the cost is 150 per unit of distance |
| Routes.RouteShape | ecowealth/src/pages/routes.jsx:117-144 | a route is the origin, the tour's locations, and the origin again |
| Routes.StopLabelsAsWritten | ecowealth/src/pages/routes.jsx:324-327 | one label per interior point of the route, taken from the selection by index |
| Routes.StopLabels | ecowealth/src/pages/routes.jsx:324-327 | one label per stop, in tour order: the i-th names the i-th seller of the tour |
| Routes.StopLabelNamesStop | ecowealth/src/pages/routes.jsx:324-327 | the i-th label names a selected seller whose location is the route's point i + 1 |
| Routes.StopLabelsAsWrittenMislabel | ecowealth/src/pages/routes.jsx:324-327 | two sellers where the rendered list names, for the first stop, a seller who is not there |
| Routes.FilteredSellers | ecowealth/src/pages/routes.jsx:97-105 | an order-preserving sublist; a seller is kept iff the material is "all" or one of its items matches ignoring case, and the volume is "all" or matches ignoring case |
| Routes.FilteredSellersAll | ecowealth/src/pages/routes.jsx:97-105 | with both selectors at "all" every seller is kept |
| Routes.Toggle | ecowealth/src/pages/routes.jsx:166-172 | the seller's id is selected afterwards iff it was not before; a present id loses every entry with it while the rest keep their order and every occurrence; an absent one is appended |
| Routes.ToggleTwice | ecowealth/src/pages/routes.jsx:166-172 | toggling an unselected seller twice restores the selection |
| NewListing.FormErrors | ecowealth/src/pages/newlisting.jsx:41-65 | each key is set iff its check fails: blank name, no category, price missing or below 50, quantity missing or not positive, blank location, a missing or zero coordinate, no image; never a submit key |
| NewListing.ValidateForm | ecowealth/src/pages/newlisting.jsx:41-65 | the sequential writes produce exactly those errors |
| NewListing.InitialFormFailsEverything | ecowealth/src/pages/newlisting.jsx:22-65 | the empty form fails every check |
| NewListing.ParseLocation | ecowealth/src/pages/newlisting.jsx:111-114 | a string without commas gives city == country == the trimmed string and no district; no part holds a comma |
| NewListing.ParseLocationOfJoin | ecowealth/src/pages/newlisting.jsx:111-114 | for comma-joined parts, the city is the first trimmed part, the district the second or "", the country the last |
| NewListing.Payload | ecowealth/src/pages/newlisting.jsx:117-133 | the body of a valid form carries the form's name, price, quantity, unit, description, category, image and coordinates, status "draft" and the parsed place; so its coordinates are non-zero, its price at least 50 and its quantity positive |
| NewListing.InputAffectsOwnCheck | ecowealth/src/pages/newlisting.jsx:169-175 | editing one input changes the verdict of its own check only |
| NewListing.NewListingPage.HandleNewProductChange | ecowealth/src/pages/newlisting.jsx:169-175 | only the named input changes |
| NewListing.NewListingPage.HandleLocationChange | ecowealth/src/pages/newlisting.jsx:177-183 | only the location text and the coordinates change |
| NewListing.NewListingPage.HandleAddProduct | ecowealth/src/pages/newlisting.jsx:94-167 | an invalid form stores its errors and sends nothing; a valid one is sent once the upload and category lookup succeed; after a successful insert the listing is appended as a draft, the form resets to its initial values and the errors clear; any failure shows only the submit error |
| NewListing.NewListingPage.Submit | ecowealth/src/pages/newlisting.jsx:101-166 | the request outcomes of a valid form, as above |
| SignUp.SignupErrors | ecowealth/src/pages/signup.jsx:27-33 | each key is set iff its check fails; a password under 6 characters, the empty one included, ends with the "at least 6 characters" message |
| SignUp.CollectErrors | ecowealth/src/pages/signup.jsx:28-33 | the sequential writes, with line 32 overwriting line 31, produce exactly those errors |
| SignUp.ValidFormHasAllFields | ecowealth/src/pages/signup.jsx:47-52 | a form that passes validation sends all four fields that `POST /signup` requires (server.js line 74) |
| SignUp.InitialValuesErrors | ecowealth/src/pages/signup.jsx:6-33 | the initial form gets the name, phone and short-password errors |
| SignUp.ServerError | ecowealth/src/pages/signup.jsx:55-60 | the server's message when it sends one, otherwise the 409 text or the general text |
| SignUp.SignUpPage.HandleChange | ecowealth/src/pages/signup.jsx:20-25 | only the named field changes, and only its error is cleared |
| SignUp.SignUpPage.Validate | ecowealth/src/pages/signup.jsx:27-36 | the stored errors are the specification's, and the answer is true iff there are none |
| SignUp.SignUpPage.PostData | ecowealth/src/pages/signup.jsx:38-64 | a request is sent iff validation passes, and it carries the form's fields; success or the server error follows the reply |
| SignIn.SigninErrors | ecowealth/src/pages/signin.jsx:30-33 | a phone error iff the phone is blank, a password error iff it is empty; none iff both are present |
| SignIn.CollectErrors | ecowealth/src/pages/signin.jsx:31-33 | the sequential writes produce exactly those errors |
| SignIn.Outcome | ecowealth/src/pages/signin.jsx:49-57 | success iff the reply's message is exactly "Logged in successfully"; otherwise the error text or its fallbacks |
| SignIn.OutcomeOfServerReply | ecowealth/src/pages/signin.jsx:49-54 | against `Server.Database.Signin`'s replies, the page succeeds iff the server accepted the login, and shows the server's error otherwise |
| SignIn.SignInPage.HandleChange | ecowealth/src/pages/signin.jsx:23-28 | only the named field changes, and only its error is cleared |
| SignIn.SignInPage.Validate | ecowealth/src/pages/signin.jsx:30-36 | the stored errors are the specification's, and the answer is true iff there are none |
| SignIn.SignInPage.PostData | ecowealth/src/pages/signin.jsx:38-61 | the form is sent iff validation passes; success follows the exact message |
| Catalog.Slice | ecowealth/src/pages/marketplace.jsx:44 | JavaScript `slice`: a contiguous run of the list, clipped to its end |
| Catalog.SliceBounds | ecowealth/src/pages/marketplace.jsx:44 | a slice holds at most end - start items, and none iff it starts at or past the end |
| Marketplace.PageItems | ecowealth/src/pages/marketplace.jsx:17-44 | at most 24 consecutive products starting at (page - 1) * 24; empty iff the page starts past the end |
| Marketplace.Shown | ecowealth/src/pages/marketplace.jsx:46-97 | an order-preserving sublist of the current page: a product is shown iff it is on the page, matches the category filter and its name contains the search ignoring case |
| Marketplace.ShownAllCategories | ecowealth/src/pages/marketplace.jsx:46-48 | under the initial "all" filter, the only one the rendered page has, the search alone narrows the page |
| Marketplace.ShownUnfiltered | ecowealth/src/pages/marketplace.jsx:46-97 | "all" with an empty search shows the whole page |
| Marketplace.NextEnabledBeforeLastPage | ecowealth/src/pages/marketplace.jsx:51-104 | the Next guard holds iff the page is before the last of the displayed page count |
| Marketplace.NextPageNotEmpty | ecowealth/src/pages/marketplace.jsx:52 | when Next is allowed, the next page holds products |
| Marketplace.MarketplacePage.LoadProducts | ecowealth/src/pages/marketplace.jsx:27-41 | the products become the reply, or none on failure |
| Marketplace.MarketplacePage.HandleData | ecowealth/src/pages/marketplace.jsx:20-22 | the handler sets the filter; no element of the page calls it |
| Marketplace.MarketplacePage.HandleSearch | ecowealth/src/pages/marketplace.jsx:86 | the search box sets the search |
| Marketplace.MarketplacePage.HandleNext | ecowealth/src/pages/marketplace.jsx:51-56 | the page advances iff more products remain, and a page it advances to is never empty |
| Marketplace.MarketplacePage.HandlePrev | ecowealth/src/pages/marketplace.jsx:58-62 | the page goes back only from above 1, so it stays at least 1 |
| Home.Filtered | ecowealth/src/Home.jsx:37-38 | an order-preserving sublist: a product is kept iff the filter is "all" or its lowercased category equals it |
| Home.Shown | ecowealth/src/Home.jsx:14-39 | at most 25 consecutive filtered products of the current page, empty iff the page starts past them |
| Home.FilteredAll | ecowealth/src/Home.jsx:38 | "all" keeps every product |
| Home.NextEnabledShowsProducts | ecowealth/src/Home.jsx:41-46 | with the corrected guard, the next page always shows products |
| Home.NextEnabledWithinAsWritten | ecowealth/src/Home.jsx:41-46 | the corrected guard is stricter than the guard as written |
| Home.NextAsWrittenReachesEmptyPage | ecowealth/src/Home.jsx:41-90 | a product list where the guard as written advances to an empty page and the corrected guard does not |
| Home.HomePage.LoadProducts | ecowealth/src/Home.jsx:22-34 | the products become the reply, or none on failure |
| Home.HomePage.HandleData | ecowealth/src/Home.jsx:17 | the category button sets the filter |
| Home.HomePage.HandleNextAsWritten | ecowealth/src/Home.jsx:41-46 | the page advances iff unfiltered products remain past it |
| Home.HomePage.HandleNext | ecowealth/src/Home.jsx:41-46 | the page advances iff filtered products remain, and a page it advances to is never empty |
| Home.HomePage.HandlePrev | ecowealth/src/Home.jsx:48-52 | the page goes back only from above 1, so it stays at least 1 |
| Chat.TimeAgo | ecowealth/src/pages/chat.jsx:28-38 | no date gives no caption; under 60 s (negative included) "just now"; then floor(d/60) minutes, floor(d/3600) hours, floor(d/86400) days, each bucket exactly its range and its count within bounds; from a week on the locale date |
| Chat.TimeAgoAdvances | ecowealth/src/pages/chat.jsx:32-38 | as time passes the caption never moves to a finer bucket, and within a bucket its count never drops |
| Chat.Caption | ecowealth/src/pages/chat.jsx:29-38 | "" for no date, "just now", and the minute, hour and day captions read as the count in decimal, the letter "m", "h" or "d", and " ago" |
| Chat.MarkThreadOpened | ecowealth/src/pages/chat.jsx:141-147 | threads with that textId get opened "yes"; every other thread is unchanged |
| Chat.MarkThreadOpenedIdempotent | ecowealth/src/pages/chat.jsx:141-147 | selecting the same thread again changes nothing |
| Chat.SelectOpensOnlyThatThread | ecowealth/src/pages/chat.jsx:141-147 | a thread is opened afterwards iff it has that textId or was already opened, and no other field changes |
| Chat.VisibleThreads | ecowealth/src/pages/chat.jsx:198-199 | an order-preserving sublist: a thread is listed iff its name contains the search ignoring case |
| Chat.MarkOpenedKeepsSearch | ecowealth/src/pages/chat.jsx:141-199 | marking a thread opened and searching commute |
| Chat.FirstValue | ecowealth/src/pages/chat.jsx:152-153 | a value is found iff some parameter starts with the key, and it is the rest of the first such parameter |
| Chat.NumberOf | ecowealth/src/pages/chat.jsx:154 | `Number(thread)` of a decimal string is that number; other text is a non-number, never "no chat" |
| Chat.ChatPage.LoadThreads | ecowealth/src/pages/chat.jsx:50-62 | the thread list becomes the reply, or none on failure |
| Chat.ChatPage.LoadMessages | ecowealth/src/pages/chat.jsx:65-80 | with no active chat the messages are empty; otherwise the reply, or none on failure |
| Chat.ChatPage.ReceiveMessage | ecowealth/src/pages/chat.jsx:89-93 | the message is appended iff its thread is the active chat; otherwise the list is unchanged |
| Chat.ChatPage.SendMessage | ecowealth/src/pages/chat.jsx:108-135 | nothing happens unless the input is not blank and a chat is active; then exactly one message with sender "user" and the active thread is appended, the input clears, the emoji picker closes and the text is posted |
| Chat.ChatPage.SelectChat | ecowealth/src/pages/chat.jsx:137-149 | the thread becomes active; once the fetch succeeds it alone is marked opened |
| Chat.ChatPage.ThreadFromQuery | ecowealth/src/pages/chat.jsx:151-155 | a non-empty `thread` parameter makes its number the active chat; otherwise nothing changes |
| Chat.ChatPage.HandleSearch | ecowealth/src/pages/chat.jsx:198-199 | the search box sets the search |
| MyListing.FilteredListings | ecowealth/src/pages/mylisting.jsx:92-95 | an order-preserving sublist: a listing is kept iff the filter is "all" or its status equals it |
| MyListing.FilteredListingsAll | ecowealth/src/pages/mylisting.jsx:93 | "all" keeps every listing |
| MyListing.WithoutProduct | ecowealth/src/pages/mylisting.jsx:47 | an order-preserving sublist without that product id, keeping every other listing as often as it occurred |
| MyListing.FirstCategoryId | ecowealth/src/pages/mylisting.jsx:56-58 | none iff no category has the name; otherwise the id of the first that has it |
| MyListing.EditForm | ecowealth/src/pages/mylisting.jsx:60-67 | exactly the seven keys; name, price, quantity, unit, description and status are the listing's, and category_id the first match's id or "" |
| MyListing.EditFormCategory | ecowealth/src/pages/mylisting.jsx:56-67 | category_id is an id iff some category has the listing's category name, and then that category is in the list |
| MyListing.MyListingPage.LoadListings | ecowealth/src/pages/mylisting.jsx:26-39 | the reply replaces the list; a failure keeps it and sets the error text |
| MyListing.MyListingPage.SetFilter | ecowealth/src/pages/mylisting.jsx:92-95 | a status button sets the filter |
| MyListing.MyListingPage.HandleDelete | ecowealth/src/pages/mylisting.jsx:41-52 | after confirmation and a successful delete the list loses exactly that id; otherwise it is unchanged |
| MyListing.MyListingPage.HandleEdit | ecowealth/src/pages/mylisting.jsx:54-69 | the listing becomes the one being edited, with its form |
| MyListing.MyListingPage.HandleEditChange | ecowealth/src/pages/mylisting.jsx:71-73 | the named field takes the typed value |
| MyListing.EditChangeOnlyThatField | ecowealth/src/pages/mylisting.jsx:71-73 | no other field appears, disappears or changes |
| UserLocation.Suggestions | ecowealth/src/components/userlocation.jsx:5-42 | none for one character or fewer; otherwise an order-preserving sublist of the table, an entry kept iff its name or district contains the input ignoring case |
| UserLocation.OwnNameSuggested | ecowealth/src/components/userlocation.jsx:32-35 | typing an entry's whole name, in any case, offers that entry |
| UserLocation.ClickText | ecowealth/src/components/userlocation.jsx:50 | the text a click writes always holds a comma |
| UserLocation.TableHasNoCommas | ecowealth/src/components/userlocation.jsx:5-22 | no name or district in the table has a comma |
| UserLocation.NothingMatchesClickText | ecowealth/src/components/userlocation.jsx:30-50 | the filter finds nothing for the text a click writes |
| UserLocation.LocationInput.Effect | ecowealth/src/components/userlocation.jsx:30-42 | the suggestions become the filter's answer, shown iff the input has more than one character |
| UserLocation.LocationInput.InputChange | ecowealth/src/components/userlocation.jsx:44-47 | the input takes the typed text and the selection clears |
| UserLocation.LocationInput.SuggestionClick | ecowealth/src/components/userlocation.jsx:49-56 | the input shows "name, district", the place is selected and reported, and the list hides |
| UserLocation.LocationInput.Focus | ecowealth/src/components/userlocation.jsx:115 | focus shows the list iff the input has more than one character, and otherwise leaves it as it was |
| UserLocation.LocationInput.Blur | ecowealth/src/components/userlocation.jsx:116 | leaving the box hides the list |
| UserLocation.LocationInput.Visible | ecowealth/src/components/userlocation.jsx:128 | the suggestions are drawn iff the list is shown and not empty, and nothing is drawn otherwise |
| UserLocation.ClickThenEffect | ecowealth/src/components/userlocation.jsx:30-56 | after a click and the effect it sets off, the list is marked shown yet nothing is drawn |
| RecentCustomers.Preview | ecowealth/src/components/recentcustomers.jsx:17-18 | nothing for a missing or empty last message; a message of 32 characters or fewer unchanged; a longer one cut to 32 plus "..."; never over 35 characters |
| RecentCustomers.PreviewIsPrefix | ecowealth/src/components/recentcustomers.jsx:18 | the preview begins with the message, as far as it shows it |
| RecentCustomers.PreviewIdempotent | ecowealth/src/components/recentcustomers.jsx:18 | cutting a preview again changes nothing |
| RecentCustomers.ChatLink | ecowealth/src/components/recentcustomers.jsx:6 | the link is `/chat` followed by `?thread=` and the textId |
| RecentCustomers.ChatQueryNamesThread | ecowealth/src/components/recentcustomers.jsx:6 | the chat page's query effect (chat.jsx lines 151-155) reads back, from the link's query, the card's textId as a number |
| RecentCustomers.FollowLink | ecowealth/src/components/recentcustomers.jsx:5-7 | following a card's link makes its thread the active chat |
| Strings.TrimIsPadded | ecowealth/src/pages/newlisting.jsx:43 | `trim` keeps one contiguous piece of the string, with only white space before and after it |
| Strings.TrimEmptyIffBlank | ecowealth/src/pages/newlisting.jsx:43 | `!s.trim()` holds exactly for strings of white space |
| Strings.Contains | ecowealth/src/pages/marketplace.jsx:97 | `includes`: true iff the pattern occurs at some position |
| Strings.SplitJoin | back-end/server.js:1131 | `split` on the separator undoes a join of separator-free parts |
| Strings.ParseDecimalString | ecowealth/src/pages/chat.jsx:154 | a number's decimal text reads back as that number |

## Left out

- The great-circle distance (`routes.jsx:152-164`) is the parameter `dist`. Its trigonometry is floating point. Lemmas that need a distance to be non-negative assume it (`Routes.IsDistance`); the route method itself does not.
- JavaScript numbers are Dafny `real`, so coordinates, prices and distances have no floating-point rounding. `Date.now()` and `new Date()` are integer millisecond parameters.
- Every SQL statement is a function over the table sequences, and responses are records. What is not modelled:
  - connections and transactions;
  - the 500 replies for database failures;
  - SQL collation (text comparisons are exact);
  - `ORDER BY sent_at` (messages stay in insertion order, which is the same order when the clock does not go back);
  - `LIMIT 1` picking anything other than the first matching row.
- Password hashing and checking (bcrypt) are parameters of `Signup` and `Signin`.
- Sessions (`express-session`) are the `session` parameter. Signin's writing of the session is shown only as the user id it returns.
- Signup: does not model the session write after a successful insert (`server.js:120`). The new id is shown only as the id the 201 reply carries.
- `PUT`/`DELETE /mylistings/:id` do not delete image rows or check whether a row was affected; the model does neither.
- The percent buckets of `/percents` (`server.js:257-302`) are left out: they are decimal display arithmetic.
- Other endpoints, uploads, static files and shutdown are left out: they are plumbing.
- socket.io connection and `emit` (`chat.jsx:42-47`, `122`) are left out: they are transport. A received message is the input of `ReceiveMessage`.
- Chat.Caption: does not fix the text past a week. `toLocaleDateString` is a parameter.
- Chat.NumberOf: reads only plain decimal digits as a number. Any other string is `NotANumber`, which stands for JavaScript `NaN`, so no thread matches it. JavaScript's wider `Number()` syntax (signs, spaces, exponents) and URL percent-decoding are not modelled.
- Chat.ThreadParam: one `thread=` parameter, split on `&`, with no URL decoding and no `+` handling.
- The emoji picker (`chat.jsx:157-159`) and the scroll effects are left out: they are presentation.
- Loading flags, alerts and navigation after success are left out: they change nothing the model states.
- `handleEditSubmit` in `mylisting.jsx` is left out: it is a PUT followed by a reload. `Server.Database.UpdateListing` covers the server's side.
- The 200 ms timer of `onBlur` (`userlocation.jsx:116`) is not modelled: `Blur` hides the list at once.
- Geolocation and Nominatim look-ups in `userlocation.jsx` are left out: they are network calls.
- File drags and the image preview in `newlisting.jsx` are left out. The image is an optional string.
- Numeric form inputs hold `None` for an empty input. A number the browser could not parse is the same `None`; `NaN` is not modelled separately.
- `toLowerCase` is modelled for ASCII letters only.
- JavaScript `length` and `slice` count UTF-16 code units, but a Dafny string's length counts characters. A character outside the Basic Multilingual Plane counts once in the model and twice in the browser. This affects the password length check (`signup.jsx:32`, SignUp.SignupErrors), the two-character threshold of the location input (`userlocation.jsx:31`, `115`, UserLocation.LocationInput.Effect and Focus), and the 32-unit preview cut (`recentcustomers.jsx:18`, RecentCustomers.Preview).
- Marketplace.MarketplacePage.HandleData: `marketplace.jsx` imports `FilterBtns` (line 5) but never renders it, so nothing calls `handleData` on that page (lines 20-22) and the filter keeps its initial "all". The handler and the category filter of `Marketplace.Shown` model the code as written; `Marketplace.ShownAllCategories` states what the rendered page shows. Only `Home.jsx:82` renders the buttons.

## Findings

| source | as written | input that shows it | evidently intended | confidence | as-written member | corrected member |
|---|---|---|---|---|---|---|
| ecowealth/src/pages/routes.jsx:324-327 | the stops of the route list are labelled `selectedSellers[index]`, the selection order | sellers A at distance 5 and B at distance 1, selected in that order: the route visits B first, and the list says "A" | each stop names the seller visited there, in tour order | not executed | Routes.StopLabelsAsWritten, Routes.StopLabelsAsWrittenMislabel | Routes.StopLabels |
| ecowealth/src/Home.jsx:41-46 | Next is allowed while `endIndex < products.length`, counting every product, not the filtered ones | one plastic product followed by 25 metal ones, with the "plastic" button: page 1 shows one product, and Next leads to page 2, which is empty | Next is allowed only while filtered products remain past the page | not executed | Home.HomePage.HandleNextAsWritten, Home.NextAsWrittenReachesEmptyPage | Home.HomePage.HandleNext, Home.NextEnabledShowsProducts |
