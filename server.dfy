/**
 * The back end's table-changing request handlers. The relational tables are
 * sequences of rows held by one `Database` object; each auto-increment key is a
 * counter that hands out the `insertId` of the next inserted row. The session
 * user is the handler's `session` argument (`None` when nobody is signed in).
 */
module Server {
  import opened Optional
  import Strings
  import Seqs
  import Reports

  datatype User = User(id: nat, userName: string, phoneNumber: string, password: string, userType: string)

  datatype Location = Location(
    locationId: nat, city: string, district: string, country: string, latitude: real, longitude: real)

  datatype Product = Product(
    productId: nat, userId: nat, categoryId: int, locationId: nat, name: string,
    price: real, quantity: real, unit: string, description: string, status: string)

  datatype ProductImage = ProductImage(productId: nat, imageUrl: string)

  datatype ChatThread = ChatThread(threadId: nat, user1: nat, user2: nat, lastMessage: Option<string>, lastUpdated: int)

  /** A stored message; `opened` is NULL (`None`) until the other participant fetches the thread. */
  datatype Message = Message(messageId: nat, threadId: int, senderId: nat, text: string, sentAt: int, openState: Option<string>)

  /** A message as `GET /api/messages/:threadId` returns it, labelled "user" for the requester's own. */
  datatype MessageView = MessageView(id: nat, senderId: nat, text: string, sentAt: int, sender: string)

  /** The JSON body of `POST /newlisting` (the location object and the product columns). */
  datatype LocationBody = LocationBody(city: string, district: string, country: string, latitude: real, longitude: real)
  datatype ListingBody = ListingBody(
    categoryId: int, location: LocationBody, name: string, price: real, quantity: real,
    unit: string, description: string, status: string, imageUrl: Option<string>)

  /** The columns `PUT /mylistings/:id` overwrites. */
  datatype ProductFields = ProductFields(
    name: string, price: real, quantity: real, unit: string, description: string, status: string, categoryId: int)

  /** An HTTP reply: a status code with a value, or with the text of the JSON body's `error` (`message` for the 409 of sign-up). */
  datatype Response<T> = Ok(status: int, value: T) | Err(status: int, error: string)

  /** The texts of the JSON bodies the handlers answer with. */
  const FieldsRequired := "All fields are required"
  const PhoneTaken := "User already exists"
  const NoSuchAccount := "No such account"
  const BadCredentials := "Invalid credentials"
  const LoggedIn := "Logged in successfully"
  const LoginRequired := "Unauthorized. Please log in."
  const Unauthorized := "Unauthorized"
  const InvalidRecipient := "Invalid recipient"
  const TextRequired := "Message text required"
  const Forbidden := "Forbidden"
  const ProductUpdated := "Product updated successfully"
  const ProductDeleted := "Product deleted successfully"

  /** JavaScript truthiness of an id: present and not 0. */
  predicate Truthy(id: Option<nat>) {
    id.Some? && id.value != 0
  }

  /** The first user registered with `phone` (`SELECT ... WHERE phone_number = ? LIMIT 1`). */
  function FindUserByPhone(users: seq<User>, phone: string): (r: Option<User>)
    ensures r.Some? ==> r.value in users && r.value.phoneNumber == phone
    ensures r.None? <==> forall u :: u in users ==> u.phoneNumber != phone
  {
    if users == [] then None
    else if users[0].phoneNumber == phone then Some(users[0])
    else FindUserByPhone(users[1..], phone)
  }

  /** True iff `t` joins users `a` and `b`, in either column order. */
  predicate Joins(t: ChatThread, a: nat, b: nat) {
    (t.user1 == a && t.user2 == b) || (t.user1 == b && t.user2 == a)
  }

  /** The id of the first thread between `a` and `b`, in either orientation (the lookup of `POST /api/chat-threads`). */
  function ThreadBetween(threads: seq<ChatThread>, a: nat, b: nat): (r: Option<nat>)
    ensures r.Some? ==> exists i :: 0 <= i < |threads| && Joins(threads[i], a, b) && threads[i].threadId == r.value
    ensures r.None? <==> forall i :: 0 <= i < |threads| ==> !Joins(threads[i], a, b)
  {
    if threads == [] then None
    else if Joins(threads[0], a, b) then Some(threads[0].threadId)
    else
      var r := ThreadBetween(threads[1..], a, b);
      assert forall i :: 1 <= i < |threads| ==> threads[i] == threads[1..][i - 1];
      r
  }

  /** The lookup does not depend on which user asks. */
  lemma {:induction false} ThreadBetweenSymmetric(threads: seq<ChatThread>, a: nat, b: nat)
    ensures ThreadBetween(threads, a, b) == ThreadBetween(threads, b, a)
  {
    if threads != [] {
      ThreadBetweenSymmetric(threads[1..], a, b);
    }
  }

  /** Appending a row never changes an existing answer, and makes a missing one the new row's id. */
  lemma {:induction false} ThreadBetweenAppend(threads: seq<ChatThread>, t: ChatThread, a: nat, b: nat)
    requires Joins(t, a, b)
    ensures ThreadBetween(threads + [t], a, b) ==
      if ThreadBetween(threads, a, b).Some? then ThreadBetween(threads, a, b) else Some(t.threadId)
  {
    if threads == [] {
      assert [t][1..] == [];
    } else {
      assert (threads + [t])[1..] == threads[1..] + [t];
      ThreadBetweenAppend(threads[1..], t, a, b);
    }
  }

  /** True iff `user` takes part in a thread with id `threadId` (the participant check of `GET /api/messages`). */
  predicate IsParticipant(threads: seq<ChatThread>, threadId: int, user: nat) {
    exists i :: 0 <= i < |threads| && threads[i].threadId == threadId && (threads[i].user1 == user || threads[i].user2 == user)
  }

  /** The threads after a post: every row with that id gets the text as `last_message` and the time as `last_updated`. */
  function WithLastMessage(threads: seq<ChatThread>, threadId: int, text: string, now: int): (r: seq<ChatThread>)
    ensures |r| == |threads|
    ensures forall i :: 0 <= i < |threads| ==>
      r[i].threadId == threads[i].threadId && r[i].user1 == threads[i].user1 && r[i].user2 == threads[i].user2
    ensures forall i :: 0 <= i < |threads| && threads[i].threadId == threadId ==>
      r[i].lastMessage == Some(text) && r[i].lastUpdated == now
    ensures forall i :: 0 <= i < |threads| && threads[i].threadId != threadId ==> r[i] == threads[i]
  {
    seq(|threads|, i requires 0 <= i < |threads| =>
      if threads[i].threadId == threadId then threads[i].(lastMessage := Some(text), lastUpdated := now) else threads[i])
  }

  /** Posting changes no participant, so no thread lookup changes. */
  lemma WithLastMessageKeepsPairs(threads: seq<ChatThread>, threadId: int, text: string, now: int, a: nat, b: nat)
    ensures ThreadBetween(WithLastMessage(threads, threadId, text, now), a, b) == ThreadBetween(threads, a, b)
  {
    var r := WithLastMessage(threads, threadId, text, now);
    assert forall i :: 0 <= i < |threads| ==> (Joins(r[i], a, b) <==> Joins(threads[i], a, b));
    ThreadBetweenSameShape(threads, r, a, b);
  }

  lemma {:induction false} ThreadBetweenSameShape(t: seq<ChatThread>, u: seq<ChatThread>, a: nat, b: nat)
    requires |t| == |u|
    requires forall i :: 0 <= i < |t| ==> u[i].threadId == t[i].threadId && (Joins(u[i], a, b) <==> Joins(t[i], a, b))
    ensures ThreadBetween(u, a, b) == ThreadBetween(t, a, b)
  {
    if t != [] {
      ThreadBetweenSameShape(t[1..], u[1..], a, b);
    }
  }

  /** The messages of thread `threadId` in table order, labelled "user" when `user` sent them and "bot" otherwise. */
  function ThreadMessages(messages: seq<Message>, threadId: int, user: nat): (r: seq<MessageView>)
    ensures |r| <= |messages|
    ensures forall k :: 0 <= k < |r| ==> (r[k].sender == "user" <==> r[k].senderId == user)
    ensures forall k :: 0 <= k < |r| ==> r[k].sender == "user" || r[k].sender == "bot"
    ensures forall m :: m in messages && m.threadId == threadId ==> View(m, user) in r
    ensures forall v :: v in r ==> exists m :: m in messages && m.threadId == threadId && v == View(m, user)
  {
    if messages == [] then []
    else
      var rest := ThreadMessages(messages[1..], threadId, user);
      assert forall m :: m in messages ==> m == messages[0] || m in messages[1..];
      if messages[0].threadId == threadId then [View(messages[0], user)] + rest else rest
  }

  function View(m: Message, user: nat): MessageView {
    MessageView(m.messageId, m.senderId, m.text, m.sentAt, if m.senderId == user then "user" else "bot")
  }

  /** `UPDATE messages SET opened = "yes" WHERE thread_id = ? AND sender_id != ?`. */
  function MarkOpened(messages: seq<Message>, threadId: int, reader: nat): (r: seq<Message>)
    ensures |r| == |messages|
    ensures forall i :: 0 <= i < |messages| ==>
      r[i] == (if messages[i].threadId == threadId && messages[i].senderId != reader
               then messages[i].(openState := Some("yes")) else messages[i])
  {
    seq(|messages|, i requires 0 <= i < |messages| =>
      if messages[i].threadId == threadId && messages[i].senderId != reader
      then messages[i].(openState := Some("yes")) else messages[i])
  }

  /** Reading a thread twice marks nothing more than reading it once. */
  lemma MarkOpenedIdempotent(messages: seq<Message>, threadId: int, reader: nat)
    ensures MarkOpened(MarkOpened(messages, threadId, reader), threadId, reader) == MarkOpened(messages, threadId, reader)
  {
  }

  /** Marking leaves every message's id, thread, sender and text, so what a later fetch lists is the same. */
  lemma MarkOpenedKeepsViews(messages: seq<Message>, threadId: int, reader: nat, t: int, u: nat)
    ensures ThreadMessages(MarkOpened(messages, threadId, reader), t, u) == ThreadMessages(messages, t, u)
  {
    var r := MarkOpened(messages, threadId, reader);
    assert forall i :: 0 <= i < |messages| ==> View(r[i], u) == View(messages[i], u) && r[i].threadId == messages[i].threadId;
    ThreadMessagesSameViews(messages, r, t, u);
  }

  lemma {:induction false} ThreadMessagesSameViews(m1: seq<Message>, m2: seq<Message>, t: int, u: nat)
    requires |m1| == |m2|
    requires forall i :: 0 <= i < |m1| ==> View(m2[i], u) == View(m1[i], u) && m2[i].threadId == m1[i].threadId
    ensures ThreadMessages(m2, t, u) == ThreadMessages(m1, t, u)
  {
    if m1 != [] {
      ThreadMessagesSameViews(m1[1..], m2[1..], t, u);
    }
  }

  /** Listing a table split in two lists the first part's messages, then the second's, each in table order. */
  lemma {:induction false} ThreadMessagesAppend(a: seq<Message>, b: seq<Message>, t: int, u: nat)
    ensures ThreadMessages(a + b, t, u) == ThreadMessages(a, t, u) + ThreadMessages(b, t, u)
  {
    if a == [] {
      assert a + b == b;
    } else {
      assert (a + b)[1..] == a[1..] + b;
      ThreadMessagesAppend(a[1..], b, t, u);
    }
  }

  /** A message appended to the table comes last in its thread's listing and appears in no other. */
  lemma ThreadMessagesAfterPost(messages: seq<Message>, m: Message, t: int, u: nat)
    ensures ThreadMessages(messages + [m], t, u) ==
      ThreadMessages(messages, t, u) + (if m.threadId == t then [View(m, u)] else [])
  {
    ThreadMessagesAppend(messages, [m], t, u);
    assert [m][1..] == [];
  }

  /** Posting keeps every participant of every thread. */
  lemma WithLastMessageKeepsParticipants(threads: seq<ChatThread>, threadId: int, text: string, now: int, t: int, user: nat)
    ensures IsParticipant(WithLastMessage(threads, threadId, text, now), t, user) == IsParticipant(threads, t, user)
  {
    var r := WithLastMessage(threads, threadId, text, now);
    if IsParticipant(threads, t, user) {
      var i :| 0 <= i < |threads| && threads[i].threadId == t && (threads[i].user1 == user || threads[i].user2 == user);
      assert r[i].threadId == t && (r[i].user1 == user || r[i].user2 == user);
    }
    if IsParticipant(r, t, user) {
      var i :| 0 <= i < |r| && r[i].threadId == t && (r[i].user1 == user || r[i].user2 == user);
      assert threads[i].threadId == t && (threads[i].user1 == user || threads[i].user2 == user);
    }
  }

  /** True iff row `p` is the product `productId` owned by `user` (the `WHERE product_id=? AND user_id=?` of update and delete). */
  predicate OwnedRow(p: Product, productId: int, user: nat) {
    p.productId == productId && p.userId == user
  }

  /** The products after `PUT /mylistings/:id`: the owned row with that id takes the new columns. */
  function UpdateOwned(products: seq<Product>, productId: int, user: nat, f: ProductFields): (r: seq<Product>)
    ensures |r| == |products|
    ensures forall i :: 0 <= i < |products| && !OwnedRow(products[i], productId, user) ==> r[i] == products[i]
    ensures forall i :: 0 <= i < |products| ==>
      r[i].productId == products[i].productId && r[i].userId == products[i].userId && r[i].locationId == products[i].locationId
    ensures forall i :: 0 <= i < |products| && OwnedRow(products[i], productId, user) ==>
      r[i].name == f.name && r[i].price == f.price && r[i].quantity == f.quantity && r[i].unit == f.unit &&
      r[i].description == f.description && r[i].status == f.status && r[i].categoryId == f.categoryId
  {
    seq(|products|, i requires 0 <= i < |products| =>
      if OwnedRow(products[i], productId, user)
      then products[i].(name := f.name, price := f.price, quantity := f.quantity, unit := f.unit,
                        description := f.description, status := f.status, categoryId := f.categoryId)
      else products[i])
  }

  /** The products after `DELETE /mylistings/:id`: every other row, in order. */
  function DeleteOwned(products: seq<Product>, productId: int, user: nat): (r: seq<Product>)
    ensures forall p :: p in r ==> p in products && !OwnedRow(p, productId, user)
    ensures forall p :: p in products && !OwnedRow(p, productId, user) ==> p in r
  {
    Seqs.Filter(products, p => !OwnedRow(p, productId, user))
  }

  /** Deleting keeps the other rows in order and every row of other users, and deleting twice is deleting once. */
  lemma DeleteOwnedProperties(products: seq<Product>, productId: int, user: nat)
    ensures Seqs.IsSubseq(DeleteOwned(products, productId, user), products)
    ensures forall p :: p in products && p.userId != user ==> p in DeleteOwned(products, productId, user)
    ensures DeleteOwned(DeleteOwned(products, productId, user), productId, user) == DeleteOwned(products, productId, user)
  {
    Seqs.FilterIsSubseq(products, p => !OwnedRow(p, productId, user));
    Seqs.FilterIdempotent(products, p => !OwnedRow(p, productId, user));
  }

  /** The number of `products` rows owned by `user` (the `COUNT(l.product_id)` of the leaderboard). */
  function ListingCount(products: seq<Product>, user: nat): (n: nat)
    ensures n <= |products|
  {
    if products == [] then 0
    else (if products[0].userId == user then 1 else 0) + ListingCount(products[1..], user)
  }

  lemma {:induction false} ListingCountAppend(products: seq<Product>, p: Product, user: nat)
    ensures ListingCount(products + [p], user) == ListingCount(products, user) + (if p.userId == user then 1 else 0)
  {
    if products == [] {
      assert [p][1..] == [];
    } else {
      assert (products + [p])[1..] == products[1..] + [p];
      ListingCountAppend(products[1..], p, user);
    }
  }

  /** A user's leaderboard points (`GET /api/score`). */
  function Score(products: seq<Product>, user: nat): nat {
    Reports.Points(ListingCount(products, user))
  }

  /** Adding a listing raises its owner's points and leaves everyone else's. */
  lemma ScoreAfterListing(products: seq<Product>, p: Product, user: nat)
    ensures p.userId == user ==> Score(products + [p], user) > Score(products, user)
    ensures p.userId != user ==> Score(products + [p], user) == Score(products, user)
  {
    ListingCountAppend(products, p, user);
    if p.userId == user {
      Reports.PointsStrictlyIncreasing(ListingCount(products, user), ListingCount(products + [p], user));
    }
  }

  /** The first location row with this (city, country, latitude, longitude); the district takes no part. */
  function FindLocation(locations: seq<Location>, l: LocationBody): (r: Option<nat>)
    ensures r.Some? ==> exists i :: 0 <= i < |locations| && SameKey(locations[i], l) && locations[i].locationId == r.value
    ensures r.None? <==> forall i :: 0 <= i < |locations| ==> !SameKey(locations[i], l)
  {
    if locations == [] then None
    else if SameKey(locations[0], l) then Some(locations[0].locationId)
    else
      var r := FindLocation(locations[1..], l);
      assert forall i :: 1 <= i < |locations| ==> locations[i] == locations[1..][i - 1];
      r
  }

  predicate SameKey(row: Location, l: LocationBody) {
    row.city == l.city && row.country == l.country && row.latitude == l.latitude && row.longitude == l.longitude
  }

  /** The district is not part of the key: two bodies differing only there find the same row. */
  lemma FindLocationIgnoresDistrict(locations: seq<Location>, l: LocationBody, district: string)
    ensures FindLocation(locations, l.(district := district)) == FindLocation(locations, l)
  {
    assert forall row :: SameKey(row, l.(district := district)) == SameKey(row, l);
    FindLocationSameKey(locations, l, l.(district := district));
  }

  lemma {:induction false} FindLocationSameKey(locations: seq<Location>, l: LocationBody, m: LocationBody)
    requires forall row :: SameKey(row, l) == SameKey(row, m)
    ensures FindLocation(locations, l) == FindLocation(locations, m)
  {
    if locations != [] {
      FindLocationSameKey(locations[1..], l, m);
    }
  }

  /** All ids of a table lie in `1 .. next-1`, so the auto-increment key `next` is fresh. */
  ghost predicate UserIdsBelow(t: seq<User>, next: nat) { forall r :: r in t ==> 0 < r.id < next }
  ghost predicate LocationIdsBelow(t: seq<Location>, next: nat) { forall r :: r in t ==> 0 < r.locationId < next }
  ghost predicate ProductIdsBelow(t: seq<Product>, next: nat) { forall r :: r in t ==> 0 < r.productId < next }
  ghost predicate ThreadIdsBelow(t: seq<ChatThread>, next: nat) { forall r :: r in t ==> 0 < r.threadId < next }
  ghost predicate MessageIdsBelow(t: seq<Message>, next: nat) { forall r :: r in t ==> 0 < r.messageId < next }

  lemma ProductIdsAppend(t: seq<Product>, row: Product, next: nat)
    requires ProductIdsBelow(t, next) && row.productId == next && next > 0
    ensures ProductIdsBelow(t + [row], next + 1)
  {
  }

  lemma MessageIdsAppend(t: seq<Message>, row: Message, next: nat)
    requires MessageIdsBelow(t, next) && row.messageId == next && next > 0
    ensures MessageIdsBelow(t + [row], next + 1)
  {
  }

  lemma WithLastMessageKeepsIds(threads: seq<ChatThread>, threadId: int, text: string, now: int, next: nat)
    requires ThreadIdsBelow(threads, next)
    ensures ThreadIdsBelow(WithLastMessage(threads, threadId, text, now), next)
  {
    var r := WithLastMessage(threads, threadId, text, now);
    forall x | x in r ensures 0 < x.threadId < next {
      var i :| 0 <= i < |r| && r[i] == x;
      assert threads[i] in threads;
    }
  }

  class Database {
    var users: seq<User>
    var locations: seq<Location>
    var products: seq<Product>
    var images: seq<ProductImage>
    var threads: seq<ChatThread>
    var messages: seq<Message>
    var nextUserId: nat
    var nextLocationId: nat
    var nextProductId: nat
    var nextThreadId: nat
    var nextMessageId: nat

    ghost predicate Valid()
      reads this
    {
      && UserIdsBelow(users, nextUserId)
      && LocationIdsBelow(locations, nextLocationId)
      && ProductIdsBelow(products, nextProductId)
      && ThreadIdsBelow(threads, nextThreadId)
      && MessageIdsBelow(messages, nextMessageId)
      && nextUserId > 0 && nextLocationId > 0 && nextProductId > 0 && nextThreadId > 0 && nextMessageId > 0
    }

    constructor ()
      ensures Valid()
      ensures users == [] && locations == [] && products == [] && images == [] && threads == [] && messages == []
    {
      users, locations, products, images, threads, messages := [], [], [], [], [], [];
      nextUserId, nextLocationId, nextProductId, nextThreadId, nextMessageId := 1, 1, 1, 1, 1;
    }

    /**
     * `POST /signup`. `hashed` is what the password hash of the body's password came out as.
     * A missing field is 400; an already registered phone number is 409 and inserts nothing;
     * otherwise one user row is inserted and 201 carries its fresh id.
     */
    method Signup(userName: string, phoneNumber: string, password: string, userType: string, hashed: string)
      returns (resp: Response<nat>)
      requires Valid()
      modifies this`users, this`nextUserId
      ensures Valid()
      ensures userName == "" || phoneNumber == "" || password == "" || userType == "" ==>
        resp == Err(400, FieldsRequired) && users == old(users)
      ensures (userName != "" && phoneNumber != "" && password != "" && userType != "" &&
               FindUserByPhone(old(users), phoneNumber).Some?) ==>
        resp == Err(409, PhoneTaken) && users == old(users)
      ensures (userName != "" && phoneNumber != "" && password != "" && userType != "" &&
               FindUserByPhone(old(users), phoneNumber).None?) ==>
        resp == Ok(201, old(nextUserId)) && users == old(users) + [User(old(nextUserId), userName, phoneNumber, hashed, userType)]
      ensures resp.Ok? ==> forall u :: u in old(users) ==> u.id != resp.value
    {
      if userName == "" || phoneNumber == "" || password == "" || userType == "" {
        return Err(400, FieldsRequired);
      }
      if FindUserByPhone(users, phoneNumber).Some? {
        return Err(409, PhoneTaken);
      }
      var id := nextUserId;
      users := users + [User(id, userName, phoneNumber, hashed, userType)];
      nextUserId := nextUserId + 1;
      resp := Ok(201, id);
    }

    /**
     * `POST /signin`. `matches(password, hash)` is the password check.
     * An unknown phone number is 404, a wrong password 401, otherwise 200 with
     * LoggedIn and the user id that the session then holds.
     */
    method Signin(phoneNumber: string, password: string, matches: (string, string) -> bool)
      returns (resp: Response<(nat, string)>)
      ensures FindUserByPhone(users, phoneNumber).None? ==> resp == Err(404, NoSuchAccount)
      ensures FindUserByPhone(users, phoneNumber).Some? ==>
        var u := FindUserByPhone(users, phoneNumber).value;
        resp == if matches(password, u.password) then Ok(200, (u.id, LoggedIn))
                else Err(401, BadCredentials)
    {
      var found := FindUserByPhone(users, phoneNumber);
      if found.None? {
        return Err(404, NoSuchAccount);
      }
      if !matches(password, found.value.password) {
        return Err(401, BadCredentials);
      }
      resp := Ok(200, (found.value.id, LoggedIn));
    }

    /**
     * `POST /api/chat-threads`: the thread between the session user and `recipient`.
     * No session is 401; a missing recipient or the user themself is 400. An existing
     * thread in either orientation is returned unchanged; otherwise one row
     * (user, recipient) is inserted and 201 carries its fresh id.
     */
    method CreateThread(session: Option<nat>, recipient: Option<nat>, now: int) returns (resp: Response<nat>)
      requires Valid()
      modifies this`threads, this`nextThreadId
      ensures Valid()
      ensures !Truthy(session) ==> resp == Err(401, Unauthorized) && threads == old(threads)
      ensures Truthy(session) && (!Truthy(recipient) || recipient.value == session.value) ==>
        resp == Err(400, InvalidRecipient) && threads == old(threads)
      ensures Truthy(session) && Truthy(recipient) && recipient.value != session.value ==>
        var found := ThreadBetween(old(threads), session.value, recipient.value);
        if found.Some? then resp == Ok(200, found.value) && threads == old(threads)
        else resp == Ok(201, old(nextThreadId)) &&
             threads == old(threads) + [ChatThread(old(nextThreadId), session.value, recipient.value, None, now)]
      ensures resp.Ok? ==> ThreadBetween(threads, session.value, recipient.value) == Some(resp.value)
    {
      if !Truthy(session) {
        return Err(401, Unauthorized);
      }
      if !Truthy(recipient) || recipient.value == session.value {
        return Err(400, InvalidRecipient);
      }
      var user, other := session.value, recipient.value;
      var found := ThreadBetween(threads, user, other);
      if found.Some? {
        return Ok(200, found.value);
      }
      var row := ChatThread(nextThreadId, user, other, None, now);
      ThreadBetweenAppend(threads, row, user, other);
      threads := threads + [row];
      resp := Ok(201, nextThreadId);
      nextThreadId := nextThreadId + 1;
    }

    /**
     * `POST /api/messages/:threadId`. No session is 401; a missing or blank text is 400.
     * Otherwise one message is appended and the thread's `last_message` becomes the text.
     * The handler does not check that the poster takes part in the thread.
     */
    method PostMessage(session: Option<nat>, threadId: int, text: Option<string>, now: int)
      returns (resp: Response<MessageView>)
      requires Valid()
      modifies this`messages, this`threads, this`nextMessageId
      ensures Valid()
      ensures !Truthy(session) ==> resp == Err(401, Unauthorized) && messages == old(messages) && threads == old(threads)
      ensures Truthy(session) && (text.None? || Strings.IsBlank(text.value)) ==>
        resp == Err(400, TextRequired) && messages == old(messages) && threads == old(threads)
      ensures Truthy(session) && text.Some? && !Strings.IsBlank(text.value) ==>
        && messages == old(messages) + [Message(old(nextMessageId), threadId, session.value, text.value, now, None)]
        && threads == WithLastMessage(old(threads), threadId, text.value, now)
        && resp == Ok(201, MessageView(old(nextMessageId), session.value, text.value, now, "user"))
    {
      if !Truthy(session) {
        return Err(401, Unauthorized);
      }
      if text.None? || Strings.Trim(text.value) == "" {
        Strings.TrimEmptyIffBlank(text.GetOr(""));
        return Err(400, TextRequired);
      }
      Strings.TrimEmptyIffBlank(text.value);
      var id := nextMessageId;
      var row := Message(id, threadId, session.value, text.value, now, None);
      MessageIdsAppend(messages, row, nextMessageId);
      WithLastMessageKeepsIds(threads, threadId, text.value, now, nextThreadId);
      messages := messages + [row];
      nextMessageId := nextMessageId + 1;
      threads := WithLastMessage(threads, threadId, text.value, now);
      resp := Ok(201, MessageView(id, session.value, text.value, now, "user"));
    }

    /**
     * `GET /api/messages/:threadId`. No session is 401; a user who takes no part in the
     * thread is 403 and nothing changes. Otherwise the thread's messages are listed
     * (labelled before marking) and then the other participant's messages are marked opened.
     */
    method GetMessages(session: Option<nat>, threadId: int) returns (resp: Response<seq<MessageView>>)
      requires Valid()
      modifies this`messages
      ensures Valid()
      ensures !Truthy(session) ==> resp == Err(401, Unauthorized) && messages == old(messages)
      ensures Truthy(session) && !IsParticipant(threads, threadId, session.value) ==>
        resp == Err(403, Forbidden) && messages == old(messages)
      ensures Truthy(session) && IsParticipant(threads, threadId, session.value) ==>
        resp == Ok(200, ThreadMessages(old(messages), threadId, session.value)) &&
        messages == MarkOpened(old(messages), threadId, session.value)
    {
      if !Truthy(session) {
        return Err(401, Unauthorized);
      }
      var user := session.value;
      var member := exists i :: 0 <= i < |threads| && threads[i].threadId == threadId && (threads[i].user1 == user || threads[i].user2 == user);
      if !member {
        return Err(403, Forbidden);
      }
      var listed := ThreadMessages(messages, threadId, user);
      messages := MarkOpened(messages, threadId, user);
      resp := Ok(200, listed);
    }

    /**
     * `POST /newlisting`. No session is 401. Otherwise the location is looked up by
     * (city, country, latitude, longitude) and inserted only when missing, one product
     * row is inserted, and an image row too when an image URL was given; 201 carries
     * the product id and the location id.
     */
    method NewListing(session: Option<nat>, body: ListingBody) returns (resp: Response<(nat, nat)>)
      requires Valid()
      modifies this`locations, this`products, this`images, this`nextLocationId, this`nextProductId
      ensures Valid()
      ensures !Truthy(session) ==>
        resp == Err(401, LoginRequired) &&
        locations == old(locations) && products == old(products) && images == old(images)
      ensures Truthy(session) ==>
        var found := FindLocation(old(locations), body.location);
        var locId := if found.Some? then found.value else old(nextLocationId);
        var l := body.location;
        && locations == (if found.Some? then old(locations)
                         else old(locations) + [Location(old(nextLocationId), l.city, l.district, l.country, l.latitude, l.longitude)])
        && products == old(products) + [Product(old(nextProductId), session.value, body.categoryId, locId, body.name,
                                                body.price, body.quantity, body.unit, body.description, body.status)]
        && images == (if body.imageUrl.Some? && body.imageUrl.value != ""
                      then old(images) + [ProductImage(old(nextProductId), body.imageUrl.value)] else old(images))
        && resp == Ok(201, (old(nextProductId), locId))
      ensures resp.Ok? ==> FindLocation(locations, body.location) == Some(resp.value.1)
    {
      if !Truthy(session) {
        return Err(401, LoginRequired);
      }
      var locId := FindOrCreateLocation(body.location);
      var productId := InsertProduct(session.value, body, locId);
      resp := Ok(201, (productId, locId));
    }

    /**
     * The location step of `POST /newlisting`: the id of the row with the same
     * (city, country, latitude, longitude), or of one new row inserted for it.
     */
    method FindOrCreateLocation(l: LocationBody) returns (locId: nat)
      requires Valid()
      modifies this`locations, this`nextLocationId
      ensures Valid()
      ensures var found := FindLocation(old(locations), l);
        && locId == (if found.Some? then found.value else old(nextLocationId))
        && locations == (if found.Some? then old(locations)
                         else old(locations) + [Location(old(nextLocationId), l.city, l.district, l.country, l.latitude, l.longitude)])
      ensures FindLocation(locations, l) == Some(locId)
    {
      var found := FindLocation(locations, l);
      if found.Some? {
        locId := found.value;
      } else {
        locId := nextLocationId;
        FindLocationAppend(locations, Location(locId, l.city, l.district, l.country, l.latitude, l.longitude), l);
        locations := locations + [Location(locId, l.city, l.district, l.country, l.latitude, l.longitude)];
        nextLocationId := nextLocationId + 1;
      }
    }

    /** The product step of `POST /newlisting`: one product row, and its image row when an image URL was given. */
    method InsertProduct(user: nat, body: ListingBody, locId: nat) returns (productId: nat)
      requires Valid()
      modifies this`products, this`images, this`nextProductId
      ensures Valid()
      ensures productId == old(nextProductId)
      ensures products == old(products) + [Product(productId, user, body.categoryId, locId, body.name,
                                                   body.price, body.quantity, body.unit, body.description, body.status)]
      ensures images == if body.imageUrl.Some? && body.imageUrl.value != ""
                        then old(images) + [ProductImage(productId, body.imageUrl.value)] else old(images)
    {
      productId := nextProductId;
      var row := Product(productId, user, body.categoryId, locId, body.name,
                         body.price, body.quantity, body.unit, body.description, body.status);
      ProductIdsAppend(products, row, nextProductId);
      products := products + [row];
      nextProductId := nextProductId + 1;
      if body.imageUrl.Some? && body.imageUrl.value != "" {
        images := images + [ProductImage(productId, body.imageUrl.value)];
      }
    }

    /** `PUT /mylistings/:id`: no session is 401; otherwise only the user's own row with that id is overwritten. */
    method UpdateListing(session: Option<nat>, productId: int, f: ProductFields) returns (resp: Response<string>)
      requires Valid()
      modifies this`products
      ensures Valid()
      ensures !Truthy(session) ==> resp == Err(401, Unauthorized) && products == old(products)
      ensures Truthy(session) ==>
        resp == Ok(200, ProductUpdated) && products == UpdateOwned(old(products), productId, session.value, f)
    {
      if !Truthy(session) {
        return Err(401, Unauthorized);
      }
      products := UpdateOwned(products, productId, session.value, f);
      resp := Ok(200, ProductUpdated);
    }

    /** `DELETE /mylistings/:id`: no session is 401; otherwise only the user's own row with that id is removed. */
    method DeleteListing(session: Option<nat>, productId: int) returns (resp: Response<string>)
      requires Valid()
      modifies this`products
      ensures Valid()
      ensures !Truthy(session) ==> resp == Err(401, Unauthorized) && products == old(products)
      ensures Truthy(session) ==>
        resp == Ok(200, ProductDeleted) && products == DeleteOwned(old(products), productId, session.value)
    {
      if !Truthy(session) {
        return Err(401, Unauthorized);
      }
      products := DeleteOwned(products, productId, session.value);
      resp := Ok(200, ProductDeleted);
    }
  }

  /**
   * Asking for a chat with someone twice, from either side, gives one thread:
   * the second request finds the thread of the first and inserts nothing.
   */
  method CreateThreadTwice(db: Database, user: nat, other: nat, now1: int, now2: int)
    returns (first: Response<nat>, second: Response<nat>)
    requires db.Valid() && user != 0 && other != 0 && user != other
    modifies db
    ensures first.Ok? && second == Ok(200, first.value)
    ensures |db.threads| <= |old(db.threads)| + 1
  {
    first := db.CreateThread(Some(user), Some(other), now1);
    ThreadBetweenSymmetric(db.threads, user, other);
    second := db.CreateThread(Some(other), Some(user), now2);
  }

  /**
   * A participant who posts a message and then fetches the thread gets the
   * thread's earlier messages in table order followed by the new one, labelled "user".
   */
  method PostThenFetch(db: Database, user: nat, threadId: int, text: string, now: int)
    returns (posted: Response<MessageView>, fetched: Response<seq<MessageView>>)
    requires db.Valid() && user != 0 && !Strings.IsBlank(text)
    requires IsParticipant(db.threads, threadId, user)
    modifies db
    ensures posted.Ok? && posted.value.sender == "user" && posted.value.text == text
    ensures fetched == Ok(200, ThreadMessages(old(db.messages), threadId, user) + [posted.value])
  {
    ghost var before := db.messages;
    WithLastMessageKeepsParticipants(db.threads, threadId, text, now, threadId, user);
    posted := db.PostMessage(Some(user), threadId, Some(text), now);
    ThreadMessagesAfterPost(before, db.messages[|before|], threadId, user);
    assert db.messages == before + [db.messages[|before|]];
    fetched := db.GetMessages(Some(user), threadId);
  }

  /** Appending a missing location makes the lookup find it; an existing answer stays. */
  lemma {:induction false} FindLocationAppend(locations: seq<Location>, row: Location, l: LocationBody)
    requires SameKey(row, l)
    ensures FindLocation(locations + [row], l) ==
      if FindLocation(locations, l).Some? then FindLocation(locations, l) else Some(row.locationId)
  {
    if locations == [] {
      assert [row][1..] == [];
    } else {
      assert (locations + [row])[1..] == locations[1..] + [row];
      FindLocationAppend(locations[1..], row, l);
    }
  }
}
