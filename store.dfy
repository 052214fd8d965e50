/** The database tables the routes write, as one in-memory store, and the
    handlers that write them: order creation with its coin credit
    (src/app/api/orders/route.ts), admin user creation
    (src/app/api/admin/users/route.ts) and the profile update
    (src/app/api/user/profile/route.ts). */
module Store {
  import opened Common
  import opened Sequences
  import opened Orders
  import opened Users
  import opened Profile

  ghost predicate UniqueOrderIds(orders: seq<Order>) {
    forall i, j :: 0 <= i < j < |orders| ==> orders[i].orderId != orders[j].orderId
  }

  ghost predicate HasOrderId(orders: seq<Order>, orderId: string) {
    exists k :: 0 <= k < |orders| && orders[k].orderId == orderId
  }

  /** What PATCH returns: the written details row and the new name. */
  datatype ProfileUpdate = ProfileUpdate(userDetails: UserDetails, userName: Option<string>)

  class Store {
    /** The Order table, its lines inside each row. */
    var orders: seq<Order>
    /** The User table, each user's details row inside it. */
    var users: seq<UserRecord>
    /** The Account table. */
    var accounts: seq<Account>

    /** The unique constraints: order ids, user ids and user emails. */
    ghost predicate Valid()
      reads this
    {
      UniqueOrderIds(orders) && UniqueUsers(users)
    }

    constructor ()
      ensures Valid() && orders == [] && users == [] && accounts == []
    {
      orders, users, accounts := [], [], [];
    }

    /** POST /api/orders. `now` is the clock's reading and `createdAt` the
        timestamp the database gives the new row. A product the line table
        refuses makes the nested create fail, storing nothing. */
    method CreateOrder(session: Option<Session>, req: OrderRequest, now: int, createdAt: int)
      returns (r: Result<Order>)
      requires Valid()
      modifies this
      ensures Valid() && accounts == old(accounts)
      ensures session.None? ==> r == Failure(Unauthorized)
      ensures session.Some? && !IsStaff(session.value.role) ==> r == Failure(Forbidden)
      ensures session.Some? && IsStaff(session.value.role) && MissingFields(req) ==>
        r == Failure(MissingRequiredFields)
      ensures (session.Some? && IsStaff(session.value.role) && !MissingFields(req) &&
               HasOrderId(old(orders), req.orderId.value)) ==> r == Failure(OrderIdExists)
      ensures (session.Some? && IsStaff(session.value.role) && !MissingFields(req) &&
               !HasOrderId(old(orders), req.orderId.value) &&
               !AllLinesStorable(req.products.value)) ==> r == Failure(CreateOrderFailed)
      ensures r.Success? <==>
        session.Some? && IsStaff(session.value.role) && !MissingFields(req) &&
        !HasOrderId(old(orders), req.orderId.value) && AllLinesStorable(req.products.value)
      ensures r.Failure? ==> orders == old(orders) && users == old(users)
      ensures r.Success? ==>
        r.value == BuildOrder(req, now, createdAt) &&
        orders == old(orders) + [r.value] &&
        users == CreditCoins(old(users), r.value.customerEmail, r.value.daikinCoins)
    {
      if session.None? {
        return Failure(Unauthorized);
      }
      if !IsStaff(session.value.role) {
        return Failure(Forbidden);
      }
      if MissingFields(req) {
        return Failure(MissingRequiredFields);
      }
      var orderId := req.orderId.value;
      var existing := FirstIndex(orders, (o: Order) => o.orderId == orderId);
      if existing.Some? {
        return Failure(OrderIdExists);
      }
      if !AllLinesStorable(req.products.value) {
        return Failure(CreateOrderFailed);
      }
      var order := BuildOrder(req, now, createdAt);
      orders := orders + [order];
      // the coin credit is a separate write after the order is stored
      users := CreditCoins(users, order.customerEmail, order.daikinCoins);
      r := Success(order);
    }

    /** POST /api/admin/users. `newId` and `createdAt` are what the database
        assigns the new row, `passwordHash` the hash of the default password. */
    method CreateUser(session: Option<Session>, req: NewUserRequest, newId: string, createdAt: int, passwordHash: string)
      returns (r: Result<UserRecord>)
      requires Valid() && !HasId(users, newId)
      modifies this
      ensures Valid() && orders == old(orders)
      ensures session.None? ==> r == Failure(Unauthorized)
      ensures session.Some? && !IsAdmin(session.value.role) ==> r == Failure(Forbidden)
      ensures session.Some? && IsAdmin(session.value.role) && req.email.None? ==> r == Failure(CreateUserFailed)
      ensures (session.Some? && IsAdmin(session.value.role) && req.email.Some? &&
               HasEmail(old(users), req.email.value)) ==> r == Failure(EmailTaken)
      ensures (session.Some? && IsAdmin(session.value.role) && req.email.Some? &&
               !HasEmail(old(users), req.email.value) && RequestedRole(req.role).None?) ==>
        r == Failure(CreateUserFailed)
      ensures r.Success? <==>
        session.Some? && IsAdmin(session.value.role) && req.email.Some? &&
        !HasEmail(old(users), req.email.value) && RequestedRole(req.role).Some?
      ensures r.Failure? ==> users == old(users) && accounts == old(accounts)
      ensures r.Success? ==>
        r.value == NewUser(newId, req.name, req.email.value, RequestedRole(req.role).value, createdAt) &&
        users == old(users) + [r.value] &&
        accounts == old(accounts) + [CredentialAccount(newId, req.email.value, passwordHash)]
    {
      if session.None? {
        return Failure(Unauthorized);
      }
      if !IsAdmin(session.value.role) {
        return Failure(Forbidden);
      }
      if req.email.None? {
        // the unique lookup without an email is refused by the database
        return Failure(CreateUserFailed);
      }
      var email := req.email.value;
      var existing := FirstIndex(users, (u: UserRecord) => u.email == email);
      if existing.Some? {
        return Failure(EmailTaken);
      }
      var role := RequestedRole(req.role);
      if role.None? {
        // a role outside the enum is refused by the database
        return Failure(CreateUserFailed);
      }
      var user := NewUser(newId, req.name, email, role.value, createdAt);
      users := users + [user];
      accounts := accounts + [CredentialAccount(newId, email, passwordHash)];
      r := Success(user);
    }

    /** PATCH /api/user/profile. */
    method UpdateProfile(session: Option<Session>, req: ProfileRequest) returns (r: Result<ProfileUpdate>)
      requires Valid()
      modifies this
      ensures Valid() && orders == old(orders) && accounts == old(accounts)
      ensures session.None? ==> r == Failure(Unauthorized)
      ensures session.Some? && PostalCodeRejected(req) ==> r == Failure(InvalidPostalCode)
      ensures session.Some? && !PostalCodeRejected(req) && !HasId(old(users), session.value.userId) ==>
        r == Failure(InternalServerError)
      ensures r.Success? <==>
        session.Some? && !PostalCodeRejected(req) && HasId(old(users), session.value.userId)
      ensures r.Failure? ==> users == old(users)
      ensures r.Success? ==>
        exists i :: (0 <= i < |old(users)| && old(users)[i].id == session.value.userId &&
          r.value.userDetails == Upsert(old(users)[i].details, req) &&
          r.value.userName == OrNull(req.name) &&
          users == old(users)[i := old(users)[i].(name := OrNull(req.name), details := Some(r.value.userDetails))])
      ensures |users| == |old(users)|
      ensures forall k :: 0 <= k < |users| && users[k].details.Some? && old(users)[k].details.Some? ==>
        users[k].details.value.daikinCoins == old(users)[k].details.value.daikinCoins
      ensures forall k :: 0 <= k < |users| ==> Balance(users[k]) == Balance(old(users)[k])
    {
      if session.None? {
        return Failure(Unauthorized);
      }
      var userId := session.value.userId;
      if Truthy(req.postalCode) && !IsPostalCode(req.postalCode.value) {
        return Failure(InvalidPostalCode);
      }
      var found := FirstIndex(users, (u: UserRecord) => u.id == userId);
      if found.None? {
        // the upsert's create branch has no user row to refer to
        return Failure(InternalServerError);
      }
      var i := found.value;
      var u := users[i];
      var details := Upsert(u.details, req);
      var name := OrNull(req.name);
      users := users[i := u.(name := name, details := Some(details))];
      r := Success(ProfileUpdate(details, name));
    }
  }
}
