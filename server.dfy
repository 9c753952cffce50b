/**
 * The Express request handlers of the backend, over an in-memory store
 * that stands in for the MySQL tables `users`, `tools` and `rental`.
 * Each table is an ordered sequence of rows; AUTO_INCREMENT keys come from
 * a counter per table. Clocks, bcrypt salts and the JWT secret are
 * parameters.
 */
module Server {
  import opened Wrappers
  import opened Js
  import opened Seqs
  import Password
  import Jwt

  datatype User = User(userId: nat, name: string, email: string, password: Password.Digest)

  /** The user object the handlers send back: never the password hash. */
  datatype PublicUser = PublicUser(userId: nat, name: string, email: string)

  datatype Tool = Tool(toolId: nat, name: string, price: int, quantity: int,
                       image: Option<string>, description: Option<string>)

  datatype Rental = Rental(rentalId: nat, name: string, price: int, quantity: int, duration: int)

  /** A row of `SELECT name, SUM(quantity) AS rentedQuantity FROM rental GROUP BY name`. */
  datatype RentedGroup = RentedGroup(name: string, rentedQuantity: int)

  /** An entry of the rental summary. */
  datatype SummaryRow = SummaryRow(name: string, totalQuantity: int, rentedQuantity: int, availableQuantity: int)

  /** Request bodies; an absent, null, "" or 0 field reads as missing. */
  datatype OrderRequest = OrderRequest(name: Option<string>, price: Option<int>,
                                       quantity: Option<int>, duration: Option<int>)
  datatype ToolRequest = ToolRequest(name: Option<string>, price: Option<int>, quantity: Option<int>,
                                     image: Option<string>, description: Option<string>)

  datatype Body =
    | Message(text: string)
    | LoggedIn(token: string, user: PublicUser)
    | ProfileOf(user: PublicUser)
    | OrderPlaced(text: string, bookingId: nat)
    | FieldsMissing(text: string, fields: seq<string>)
    | Summary(rows: seq<SummaryRow>)

  datatype Response = Response(status: nat, body: Body)

  const EmailTaken := "Email already exists."
  const Registered := "User registered successfully."
  const BadCredentials := "Invalid email or password."
  const NoToken := "Access Denied. No Token Provided."
  const InvalidToken := "Invalid Token"
  const UserNotFound := "User not found."
  const OrderFieldsRequired := "All fields are required."
  const OrderPlacedText := "Order placed successfully."
  const ToolFieldsMissing := "All required fields are missing."
  const RequiredToolFields: seq<string> := ["name", "price", "quantity"]
  const ToolAdded := "Tool added successfully."
  const ToolRemoved := "Tool removed successfully."

  function Public(u: User): PublicUser {
    PublicUser(u.userId, u.name, u.email)
  }

  /** `SELECT * FROM users WHERE email = ?`, taking `user[0]`. */
  function FindByEmail(users: seq<User>, email: string): Option<nat> {
    FindFirst(users, (u: User) => u.email == email)
  }

  /** `SELECT * FROM users WHERE user_id = ?`, taking `user[0]`. */
  function FindById(users: seq<User>, userId: nat): Option<nat> {
    FindFirst(users, (u: User) => u.userId == userId)
  }

  /** The validation of /order: every field truthy, so "" and 0 count as missing. */
  predicate OrderComplete(req: OrderRequest) {
    TruthyString(req.name) && TruthyNumber(req.price) && TruthyNumber(req.quantity) && TruthyNumber(req.duration)
  }

  /** The validation of /admin/add-tool: name, price and quantity truthy. */
  predicate ToolComplete(req: ToolRequest) {
    TruthyString(req.name) && TruthyNumber(req.price) && TruthyNumber(req.quantity)
  }

  /** `SUM(quantity)` over the rentals named `name`; 0 when there are none. */
  function RentedSum(rentals: seq<Rental>, name: string): int {
    if rentals == [] then 0
    else
      var last := rentals[|rentals| - 1];
      RentedSum(rentals[..|rentals| - 1], name) + (if last.name == name then last.quantity else 0)
  }

  /** Fold one rental row into the grouped sums: add to its name's group, or open a new group. */
  function AddToGroup(groups: seq<RentedGroup>, r: Rental): seq<RentedGroup> {
    if groups == [] then [RentedGroup(r.name, r.quantity)]
    else if groups[0].name == r.name then
      [RentedGroup(r.name, groups[0].rentedQuantity + r.quantity)] + groups[1..]
    else [groups[0]] + AddToGroup(groups[1..], r)
  }

  /** `SELECT name, SUM(quantity) ... GROUP BY name`, groups in order of first appearance. */
  function GroupByName(rentals: seq<Rental>): seq<RentedGroup> {
    if rentals == [] then []
    else AddToGroup(GroupByName(rentals[..|rentals| - 1]), rentals[|rentals| - 1])
  }

  /** `rentals.find((r) => r.name === name)`, then `rented ? rented.rentedQuantity : 0`. */
  function RentedQuantity(groups: seq<RentedGroup>, name: string): int {
    if groups == [] then 0
    else if groups[0].name == name then groups[0].rentedQuantity
    else RentedQuantity(groups[1..], name)
  }

  /** `tools.map(...)` of the rental summary: one entry per tool, in tool order, never clamped. */
  function Combine(tools: seq<Tool>, groups: seq<RentedGroup>): (summary: seq<SummaryRow>)
    ensures |summary| == |tools|
    ensures forall i :: 0 <= i < |tools| ==>
              && summary[i].name == tools[i].name
              && summary[i].totalQuantity == tools[i].quantity
              && summary[i].rentedQuantity == RentedQuantity(groups, tools[i].name)
              && summary[i].availableQuantity == summary[i].totalQuantity - summary[i].rentedQuantity
  {
    seq(|tools|, i requires 0 <= i < |tools| =>
      var rented := RentedQuantity(groups, tools[i].name);
      SummaryRow(tools[i].name, tools[i].quantity, rented, tools[i].quantity - rented))
  }

  lemma {:induction false} AddToGroupRented(groups: seq<RentedGroup>, r: Rental, name: string)
    ensures RentedQuantity(AddToGroup(groups, r), name)
              == RentedQuantity(groups, name) + (if r.name == name then r.quantity else 0)
  {
    if groups != [] && groups[0].name != r.name && groups[0].name != name {
      AddToGroupRented(groups[1..], r, name);
    }
  }

  /** Looking a name up in the grouped sums gives the rental total for that name, 0 if none. */
  lemma {:induction false} GroupedRented(rentals: seq<Rental>, name: string)
    ensures RentedQuantity(GroupByName(rentals), name) == RentedSum(rentals, name)
  {
    if rentals != [] {
      GroupedRented(rentals[..|rentals| - 1], name);
      AddToGroupRented(GroupByName(rentals[..|rentals| - 1]), rentals[|rentals| - 1], name);
    }
  }

  /** The rental summary, field by field, in terms of the two tables. */
  lemma SummaryOfTables(tools: seq<Tool>, rentals: seq<Rental>)
    ensures var summary := Combine(tools, GroupByName(rentals));
            && |summary| == |tools|
            && forall i :: 0 <= i < |tools| ==>
                 summary[i] == SummaryRow(tools[i].name, tools[i].quantity, RentedSum(rentals, tools[i].name),
                                          tools[i].quantity - RentedSum(rentals, tools[i].name))
  {
    forall i | 0 <= i < |tools| ensures RentedQuantity(GroupByName(rentals), tools[i].name) == RentedSum(rentals, tools[i].name) {
      GroupedRented(rentals, tools[i].name);
    }
  }

  class Database {
    var users: seq<User>
    var tools: seq<Tool>
    var rentals: seq<Rental>
    var nextUserId: nat
    var nextToolId: nat
    var nextRentalId: nat

    /** Emails are unique; AUTO_INCREMENT keys are increasing and below their counters. */
    ghost predicate Valid()
      reads this
    {
      && (forall i, j :: 0 <= i < j < |users| ==> users[i].email != users[j].email)
      && (forall i, j :: 0 <= i < j < |users| ==> users[i].userId < users[j].userId)
      && (forall i :: 0 <= i < |users| ==> users[i].userId < nextUserId)
      && (forall i :: 0 <= i < |tools| ==> tools[i].toolId < nextToolId)
      && (forall i :: 0 <= i < |rentals| ==> rentals[i].rentalId < nextRentalId)
    }

    constructor ()
      ensures Valid()
      ensures users == [] && tools == [] && rentals == []
    {
      users, tools, rentals := [], [], [];
      nextUserId, nextToolId, nextRentalId := 1, 1, 1;
    }

    /** POST /signup. */
    method Signup(name: string, email: string, password: string, salt: string) returns (resp: Response)
      requires Valid()
      modifies this
      ensures Valid()
      ensures tools == old(tools) && rentals == old(rentals)
      ensures nextToolId == old(nextToolId) && nextRentalId == old(nextRentalId)
      ensures FindByEmail(old(users), email).Some? ==>
                && resp == Response(400, Message(EmailTaken))
                && users == old(users) && nextUserId == old(nextUserId)
      ensures FindByEmail(old(users), email).None? ==>
                && resp == Response(201, Message(Registered))
                && users == old(users) + [User(old(nextUserId), name, email, Password.Hash(password, salt))]
                && nextUserId == old(nextUserId) + 1
    {
      if FindByEmail(users, email).Some? {
        return Response(400, Message(EmailTaken));
      }
      var hashed := Password.Hash(password, salt);
      users := users + [User(nextUserId, name, email, hashed)];
      nextUserId := nextUserId + 1;
      resp := Response(201, Message(Registered));
    }

    /** POST /login at `now` seconds. */
    method Login(email: string, password: string, secret: string, now: nat) returns (resp: Response)
      requires Valid()
      ensures FindByEmail(users, email).None? ==> resp == Response(400, Message(BadCredentials))
      ensures FindByEmail(users, email).Some? ==>
                var u := users[FindByEmail(users, email).value];
                if Password.Matches(password, u.password)
                then resp == Response(200, LoggedIn(Jwt.Sign(secret, u.userId, now), Public(u)))
                else resp == Response(400, Message(BadCredentials))
      ensures resp.status == 200 ==>
                && resp.body.LoggedIn?
                && Jwt.Verify(secret, resp.body.token, now) == Some(resp.body.user.userId)
                && exists i :: 0 <= i < |users| && users[i].email == email
                                && Password.Matches(password, users[i].password)
                                && resp.body.user == Public(users[i])
      ensures resp.status != 200 ==> resp == Response(400, Message(BadCredentials))
    {
      var found := FindByEmail(users, email);
      if found.None? {
        return Response(400, Message(BadCredentials));
      }
      var u := users[found.value];
      if !Password.Matches(password, u.password) {
        return Response(400, Message(BadCredentials));
      }
      var token := Jwt.Sign(secret, u.userId, now);
      Jwt.VerifySign(secret, u.userId, now, now);
      resp := Response(200, LoggedIn(token, Public(u)));
    }

    /** GET /profile with the raw `authorization` header, at `now` seconds. */
    method Profile(authorization: Option<string>, secret: string, now: nat) returns (resp: Response)
      requires Valid()
      ensures !TruthyString(authorization) ==> resp == Response(401, Message(NoToken))
      ensures TruthyString(authorization) && Jwt.Verify(secret, authorization.value, now).None? ==>
                resp == Response(401, Message(InvalidToken))
      ensures TruthyString(authorization) && Jwt.Verify(secret, authorization.value, now).Some? ==>
                var userId := Jwt.Verify(secret, authorization.value, now).value;
                match FindById(users, userId)
                case None => resp == Response(404, Message(UserNotFound))
                case Some(i) => resp == Response(200, ProfileOf(Public(users[i])))
      ensures resp.status == 200 ==>
                resp.body.ProfileOf? && exists i :: 0 <= i < |users| && resp.body.user == Public(users[i])
    {
      if !TruthyString(authorization) {
        return Response(401, Message(NoToken));
      }
      var verified := Jwt.Verify(secret, authorization.value, now);
      if verified.None? {
        return Response(401, Message(InvalidToken));
      }
      var found := FindById(users, verified.value);
      if found.None? {
        return Response(404, Message(UserNotFound));
      }
      resp := Response(200, ProfileOf(Public(users[found.value])));
    }

    /** POST /order. */
    method Order(req: OrderRequest) returns (resp: Response)
      requires Valid()
      modifies this
      ensures Valid()
      ensures users == old(users) && tools == old(tools)
      ensures nextUserId == old(nextUserId) && nextToolId == old(nextToolId)
      ensures !OrderComplete(req) ==>
                && resp == Response(400, Message(OrderFieldsRequired))
                && rentals == old(rentals) && nextRentalId == old(nextRentalId)
      ensures OrderComplete(req) ==>
                && resp == Response(201, OrderPlaced(OrderPlacedText, old(nextRentalId)))
                && rentals == old(rentals) + [Rental(old(nextRentalId), req.name.value, req.price.value,
                                                     req.quantity.value, req.duration.value)]
                && nextRentalId == old(nextRentalId) + 1
    {
      if !OrderComplete(req) {
        return Response(400, Message(OrderFieldsRequired));
      }
      var bookingId := nextRentalId;
      rentals := rentals + [Rental(bookingId, req.name.value, req.price.value, req.quantity.value, req.duration.value)];
      nextRentalId := nextRentalId + 1;
      resp := Response(201, OrderPlaced(OrderPlacedText, bookingId));
    }

    /** POST /admin/add-tool. */
    method AddTool(req: ToolRequest) returns (resp: Response)
      requires Valid()
      modifies this
      ensures Valid()
      ensures users == old(users) && rentals == old(rentals)
      ensures nextUserId == old(nextUserId) && nextRentalId == old(nextRentalId)
      ensures !ToolComplete(req) ==>
                && resp == Response(400, FieldsMissing(ToolFieldsMissing, RequiredToolFields))
                && tools == old(tools) && nextToolId == old(nextToolId)
      ensures ToolComplete(req) ==>
                && resp == Response(201, Message(ToolAdded))
                && tools == old(tools) + [Tool(old(nextToolId), req.name.value, req.price.value, req.quantity.value,
                                               StringOrNull(req.image), StringOrNull(req.description))]
                && nextToolId == old(nextToolId) + 1
    {
      if !ToolComplete(req) {
        return Response(400, FieldsMissing(ToolFieldsMissing, RequiredToolFields));
      }
      tools := tools + [Tool(nextToolId, req.name.value, req.price.value, req.quantity.value,
                             StringOrNull(req.image), StringOrNull(req.description))];
      nextToolId := nextToolId + 1;
      resp := Response(201, Message(ToolAdded));
    }

    /** DELETE /admin/remove-tool/:id: success whether or not a row matched. */
    method RemoveTool(id: int) returns (resp: Response)
      requires Valid()
      modifies this
      ensures Valid()
      ensures users == old(users) && rentals == old(rentals)
      ensures nextUserId == old(nextUserId) && nextToolId == old(nextToolId) && nextRentalId == old(nextRentalId)
      ensures tools == Filter(old(tools), (t: Tool) => t.toolId != id)
      ensures resp == Response(200, Message(ToolRemoved))
    {
      tools := Filter(tools, (t: Tool) => t.toolId != id);
      resp := Response(200, Message(ToolRemoved));
    }

    /** GET /admin/rental-summary. */
    method RentalSummary() returns (resp: Response)
      ensures resp.status == 200 && resp.body.Summary?
      ensures |resp.body.rows| == |tools|
      ensures forall i :: 0 <= i < |tools| ==>
                resp.body.rows[i] == SummaryRow(tools[i].name, tools[i].quantity, RentedSum(rentals, tools[i].name),
                                                tools[i].quantity - RentedSum(rentals, tools[i].name))
    {
      var groups := GroupByName(rentals);
      SummaryOfTables(tools, rentals);
      resp := Response(200, Summary(Combine(tools, groups)));
    }
  }

  /** Removing a tool removes exactly the rows with that id and keeps the others in order. */
  lemma RemoveToolRows(tools: seq<Tool>, id: int)
    ensures var kept := Filter(tools, (t: Tool) => t.toolId != id);
            && (forall i :: 0 <= i < |kept| ==> kept[i] in tools && kept[i].toolId != id)
            && (forall i :: 0 <= i < |tools| && tools[i].toolId != id ==> tools[i] in kept)
            && ((forall i :: 0 <= i < |tools| ==> tools[i].toolId != id) ==> kept == tools)
  {
    if forall i :: 0 <= i < |tools| ==> tools[i].toolId != id {
      FilterKeepsAll(tools, (t: Tool) => t.toolId != id);
    }
  }

  /**
   * Signing up with a fresh email, then logging in with the same password,
   * then asking for the profile with the token returned, succeeds all the
   * way through and hands back the new user.
   */
  method RegisterThenAuthenticate(db: Database, name: string, email: string, password: string,
                                  salt: string, secret: string, now: nat)
    returns (signup: Response, login: Response, profile: Response)
    requires db.Valid()
    requires FindByEmail(db.users, email).None?
    modifies db
    ensures signup.status == 201 && login.status == 200 && profile.status == 200
    ensures login.body.LoggedIn? && login.body.user == PublicUser(old(db.nextUserId), name, email)
    ensures profile.body.ProfileOf? && profile.body.user == login.body.user
  {
    signup := db.Signup(name, email, password, salt);
    var n := |db.users| - 1;
    assert db.users[n] == User(old(db.nextUserId), name, email, Password.Hash(password, salt));
    assert FindByEmail(db.users, email) == Some(n);
    login := db.Login(email, password, secret, now);
    assert FindById(db.users, old(db.nextUserId)) == Some(n);
    profile := db.Profile(Some(login.body.token), secret, now);
  }

  /**
   * Logging in to a registered account with any password other than the one it
   * was registered with is refused with the same 400 as an unknown email.
   */
  method OtherPasswordRefused(db: Database, email: string, registered: string, salt: string,
                              attempt: string, secret: string, now: nat)
    returns (login: Response)
    requires db.Valid()
    requires FindByEmail(db.users, email).Some?
    requires db.users[FindByEmail(db.users, email).value].password == Password.Hash(registered, salt)
    requires attempt != registered
    ensures login == Response(400, Message(BadCredentials))
  {
    Password.MatchesExactly(registered, attempt, salt);
    login := db.Login(email, attempt, secret, now);
  }
}
