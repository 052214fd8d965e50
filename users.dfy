/** Users, their details rows and their credential accounts, with what the
    routes compute from them: the coin credit of an order POST
    (src/app/api/orders/route.ts), and the new user and the listing of the
    admin routes (src/app/api/admin/users/route.ts). */
module Users {
  import opened Common
  import opened Sequences

  /** The optional details row of a user: address, birth date and coin balance. */
  datatype UserDetails = UserDetails(
    dateOfBirth: Option<int>,
    street: Option<string>,
    apartmentNumber: Option<string>,
    city: Option<string>,
    postalCode: Option<string>,
    daikinCoins: int)

  /** A stored user; `id` and `createdAt` are assigned by the database. */
  datatype UserRecord = UserRecord(
    id: string,
    name: Option<string>,
    email: string,
    role: Role,
    createdAt: int,
    details: Option<UserDetails>)

  /** A sign-in account. The password is the stored hash, opaque here. */
  datatype Account = Account(userId: string, accountId: string, providerId: string, password: string)

  /** The database's unique constraints on users. */
  ghost predicate UniqueUsers(users: seq<UserRecord>) {
    forall i, j :: 0 <= i < j < |users| ==> users[i].id != users[j].id && users[i].email != users[j].email
  }

  ghost predicate HasEmail(users: seq<UserRecord>, email: string) {
    exists k :: 0 <= k < |users| && users[k].email == email
  }

  ghost predicate HasId(users: seq<UserRecord>, id: string) {
    exists k :: 0 <= k < |users| && users[k].id == id
  }

  /** A user's coin balance; a user without a details row holds none. */
  function Balance(u: UserRecord): int {
    if u.details.Some? then u.details.value.daikinCoins else 0
  }

  /** A details row holding only a coin balance. */
  function CoinsOnlyDetails(coins: int): UserDetails {
    UserDetails(None, None, None, None, None, coins)
  }

  /** The coin credit after an order is stored: when the order earns coins and
      a user has the customer's email, that user's details row grows by the
      coins, or is created holding them; every other user is left alone. */
  function CreditCoins(users: seq<UserRecord>, email: string, coins: int): (r: seq<UserRecord>)
    requires UniqueUsers(users)
    ensures |r| == |users| && UniqueUsers(r)
    ensures coins <= 0 || !HasEmail(users, email) ==> r == users
    ensures forall k :: 0 <= k < |users| && users[k].email != email ==> r[k] == users[k]
    ensures forall k :: 0 <= k < |users| && users[k].email == email && coins > 0 ==>
      r[k].details.Some? && r[k] == users[k].(details := r[k].details) &&
      (users[k].details.Some? ==> r[k].details.value == users[k].details.value.(daikinCoins := users[k].details.value.daikinCoins + coins)) &&
      (users[k].details.None? ==> r[k].details.value == CoinsOnlyDetails(coins))
  {
    if coins <= 0 then users
    else match FirstIndex(users, (u: UserRecord) => u.email == email)
      case None => users
      case Some(i) =>
        var u := users[i];
        var d := if u.details.Some? then u.details.value.(daikinCoins := u.details.value.daikinCoins + coins)
                 else CoinsOnlyDetails(coins);
        users[i := u.(details := Some(d))]
  }

  /** The credited user's balance grows by exactly the order's coins. */
  lemma CreditAddsExactly(users: seq<UserRecord>, email: string, coins: int, k: nat)
    requires UniqueUsers(users) && k < |users| && users[k].email == email && coins > 0
    ensures Balance(CreditCoins(users, email, coins)[k]) == Balance(users[k]) + coins
  {
  }

  /** Coins are neither lost nor invented: the balances of all users together
      grow by the order's coins when someone is credited, and not otherwise. */
  lemma CreditConservesCoins(users: seq<UserRecord>, email: string, coins: int)
    requires UniqueUsers(users)
    ensures SumBy(CreditCoins(users, email, coins), Balance) ==
      SumBy(users, Balance) + (if coins > 0 && HasEmail(users, email) then coins else 0)
  {
    var r := CreditCoins(users, email, coins);
    if coins > 0 && HasEmail(users, email) {
      var i := FirstIndex(users, (u: UserRecord) => u.email == email).value;
      assert r == users[i := r[i]];
      SumByUpdate(users, i, r[i], Balance);
    }
  }

  const EmailTaken := HttpError(400, "User with this email already exists")
  const CreateUserFailed := HttpError(500, "Failed to create user")

  /** The POST body of admin user creation. */
  datatype NewUserRequest = NewUserRequest(name: Option<string>, email: Option<string>, role: Option<string>)

  /** `role || Role.USER`: the requested role, USER when none is given, and
      nothing when the text names no role (the database then refuses the row). */
  function RequestedRole(role: Option<string>): (r: Option<Role>)
    ensures !Truthy(role) ==> r == Some(User)
    ensures Truthy(role) ==> r == ParseRole(role.value)
    ensures r.Some? && Truthy(role) ==> RoleName(r.value) == role.value
  {
    if Truthy(role) then ParseRole(role.value) else Some(User)
  }

  /** The user row admin creation inserts: its details row starts at 0 coins. */
  function NewUser(id: string, name: Option<string>, email: string, role: Role, createdAt: int): (u: UserRecord)
    ensures u.id == id && u.name == name && u.email == email && u.role == role && u.createdAt == createdAt
    ensures u.details == Some(CoinsOnlyDetails(0)) && Balance(u) == 0
  {
    UserRecord(id, name, email, role, createdAt, Some(CoinsOnlyDetails(0)))
  }

  /** The credential account created with a user: its account id is the email. */
  function CredentialAccount(userId: string, email: string, passwordHash: string): (a: Account)
    ensures a.userId == userId && a.accountId == email && a.providerId == "credential"
  {
    Account(userId, email, "credential", passwordHash)
  }

  function NewestUserFirst(u: UserRecord): int {
    -u.createdAt
  }

  /** GET /api/admin/users over the stored rows: every user, newest first. */
  function ListUsers(session: Option<Session>, rows: seq<UserRecord>): (r: Result<seq<UserRecord>>)
    ensures session.None? ==> r == Failure(Unauthorized)
    ensures session.Some? && !IsAdmin(session.value.role) ==> r == Failure(Forbidden)
    ensures r.Success? <==> session.Some? && IsAdmin(session.value.role)
    ensures r.Success? ==> multiset(r.value) == multiset(rows)
    ensures r.Success? ==> forall i, j :: 0 <= i < j < |r.value| ==> r.value[i].createdAt >= r.value[j].createdAt
  {
    if session.None? then Failure(Unauthorized)
    else if !IsAdmin(session.value.role) then Failure(Forbidden)
    else Success(SortBy(rows, NewestUserFirst))
  }
}
