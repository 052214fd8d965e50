/** The signed-in user's own profile (src/app/api/user/profile/route.ts): the
    postal-code check, the fields written to the details row by either branch
    of the upsert, the new display name, and the GET lookup. */
module Profile {
  import opened Common
  import opened Text
  import opened Sequences
  import opened Users

  const InvalidPostalCode := HttpError(400, "Invalid postal code format. Use XX-XXX")
  const UserNotFound := HttpError(404, "User not found")
  const InternalServerError := HttpError(500, "Internal server error")

  /** The coin balance the database gives a details row created without one. */
  const DefaultCoins := 0

  predicate IsDigit(c: char) {
    '0' <= c <= '9'
  }

  /** `/^\d{2}-\d{3}$/`: two digits, a hyphen, three digits, nothing else. */
  predicate IsPostalCode(s: string) {
    |s| == 6 && IsDigit(s[0]) && IsDigit(s[1]) && s[2] == '-' &&
    IsDigit(s[3]) && IsDigit(s[4]) && IsDigit(s[5])
  }

  /** The pattern accepts exactly a two-digit block, a hyphen and a
      three-digit block. */
  lemma PostalCodeShape(s: string)
    ensures IsPostalCode(s) <==>
      exists a, b :: |a| == 2 && |b| == 3 && AllDigits(a) && AllDigits(b) && s == a + "-" + b
  {
    if IsPostalCode(s) {
      var a, b := s[..2], s[3..];
      assert s == a + "-" + b;
    }
    if exists a, b :: |a| == 2 && |b| == 3 && AllDigits(a) && AllDigits(b) && s == a + "-" + b {
      var a, b :| |a| == 2 && |b| == 3 && AllDigits(a) && AllDigits(b) && s == a + "-" + b;
      BlocksMakePostalCode(a, b);
    }
  }

  lemma BlocksMakePostalCode(a: string, b: string)
    requires |a| == 2 && |b| == 3 && AllDigits(a) && AllDigits(b)
    ensures IsPostalCode(a + "-" + b)
  {
    var s := a + "-" + b;
    assert s[0] == a[0] && s[1] == a[1] && s[2] == '-';
    assert s[3] == b[0] && s[4] == b[1] && s[5] == b[2];
  }

  /** The PATCH body. The date of birth arrives already read as a timestamp. */
  datatype ProfileRequest = ProfileRequest(
    name: Option<string>,
    dateOfBirth: Option<int>,
    street: Option<string>,
    apartmentNumber: Option<string>,
    city: Option<string>,
    postalCode: Option<string>)

  /** The postal code blocks the PATCH only when it is given and malformed. */
  predicate PostalCodeRejected(req: ProfileRequest) {
    Truthy(req.postalCode) && !IsPostalCode(req.postalCode.value)
  }

  /** The `create` branch of the upsert: every address field as given when
      truthy and null otherwise, and the default coin balance. */
  function CreateDetails(req: ProfileRequest): (d: UserDetails)
    ensures d.street == OrNull(req.street) && d.apartmentNumber == OrNull(req.apartmentNumber)
    ensures d.city == OrNull(req.city) && d.postalCode == OrNull(req.postalCode)
    ensures d.dateOfBirth == req.dateOfBirth && d.daikinCoins == DefaultCoins
  {
    UserDetails(
      req.dateOfBirth,
      OrNull(req.street),
      OrNull(req.apartmentNumber),
      OrNull(req.city),
      OrNull(req.postalCode),
      DefaultCoins)
  }

  /** The `update` branch of the upsert: the same field values over the
      existing row, whose coin balance is not touched. */
  function UpdateDetails(existing: UserDetails, req: ProfileRequest): (d: UserDetails)
    ensures d.daikinCoins == existing.daikinCoins
  {
    existing.(
      dateOfBirth := req.dateOfBirth,
      street := OrNull(req.street),
      apartmentNumber := OrNull(req.apartmentNumber),
      city := OrNull(req.city),
      postalCode := OrNull(req.postalCode))
  }

  /** Both branches write the same values: the stored row is the same whether
      or not one existed before, apart from the coin balance it keeps. */
  lemma UpsertBranchesAgree(existing: UserDetails, req: ProfileRequest)
    ensures UpdateDetails(existing, req) == CreateDetails(req).(daikinCoins := existing.daikinCoins)
  {
  }

  /** The upsert as a whole on a user's optional details row. */
  function Upsert(details: Option<UserDetails>, req: ProfileRequest): (d: UserDetails)
    ensures details.Some? ==> d.daikinCoins == details.value.daikinCoins
    ensures details.None? ==> d.daikinCoins == DefaultCoins
    ensures d.(daikinCoins := 0) == CreateDetails(req).(daikinCoins := 0)
  {
    if details.Some? then UpdateDetails(details.value, req) else CreateDetails(req)
  }

  /** A stored postal code is either absent or well formed: the check runs on
      exactly the values the upsert would store. */
  lemma StoredPostalCodeWellFormed(details: Option<UserDetails>, req: ProfileRequest)
    requires !PostalCodeRejected(req)
    ensures var d := Upsert(details, req); d.postalCode.None? || IsPostalCode(d.postalCode.value)
  {
  }

  /** GET /api/user/profile over the stored user rows. */
  function GetProfile(session: Option<Session>, users: seq<UserRecord>): (r: Result<UserRecord>)
    ensures session.None? ==> r == Failure(Unauthorized)
    ensures session.Some? && !HasId(users, session.value.userId) ==> r == Failure(UserNotFound)
    ensures r.Success? ==> r.value in users && r.value.id == session.value.userId
    ensures session.Some? && HasId(users, session.value.userId) ==> r.Success?
  {
    if session.None? then Failure(Unauthorized)
    else match FirstIndex(users, (u: UserRecord) => u.id == session.value.userId)
      case None => Failure(UserNotFound)
      case Some(i) => Success(users[i])
  }
}
