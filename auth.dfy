/** The account routes: registration, with its accumulated checks, the duplicate
    look-ups and the account it builds, and login. Password hashing and comparison are
    not modelled: the comparison is a parameter. */
module AuthRoutes {
  import opened Common
  import opened UserSchema

  // ---------------------------------------------------------------------------
  // Registration
  // ---------------------------------------------------------------------------

  /** The `vendorInfo` object of a registration. Empty strings are absent values;
      `isOpen` is compared with `undefined`. */
  datatype ShopRequest = ShopRequest(
    shopName: string,
    description: string,
    isOpen: Option<bool>,
    openTime: string,
    closeTime: string)

  /** The body of `POST /api/auth/register`; empty strings are absent values. */
  datatype RegisterRequest = RegisterRequest(
    name: string,
    email: string,
    password: string,
    role: string,
    phone: string,
    studentId: string,
    vendorInfo: Option<ShopRequest>)

  const MinShopNameLength: int := 2

  /** The handler's checks, every failure reported: the common ones, then the student's
      (CUET address, student id of at least 4 after trim) or the vendor's (a shop name of
      at least 2 after trim). */
  function RegisterErrors(req: RegisterRequest): (errs: seq<Message>)
    ensures |errs| == 0 <==> (&& |Trim(req.name)| >= MinNameLength
                              && ValidateEmail(req.email)
                              && ValidatePassword(req.password)
                              && ParseRole(req.role).Some?
                              && ValidatePhone(req.phone)
                              && (req.role == "student" ==> ValidateCUETEmail(req.email)
                                                            && |Trim(req.studentId)| >= MinStudentIdLength)
                              && (req.role == "vendor" ==> req.vendorInfo.Some?
                                                           && |Trim(req.vendorInfo.value.shopName)| >= MinShopNameLength))
  {
    Check(|Trim(req.name)| < MinNameLength, NameMin2)
    + Check(!ValidateEmail(req.email), InvalidEmail)
    + Check(!ValidatePassword(req.password), PasswordMin6)
    + Check(ParseRole(req.role).None?, InvalidRole)
    + Check(!ValidatePhone(req.phone), InvalidPhone)
    + Check(req.role == "student" && !ValidateCUETEmail(req.email), CuetEmailRequired)
    + Check(req.role == "student" && |Trim(req.studentId)| < MinStudentIdLength, StudentIdMin4)
    + Check(req.role == "vendor" && (req.vendorInfo.None? || |Trim(req.vendorInfo.value.shopName)| < MinShopNameLength),
            ShopNameRequired)
  }

  /** The address a registration or login looks up and stores: lower-cased, then trimmed. */
  function NormalEmail(email: string): (e: string)
    ensures IsLower(e) && IsTrimmed(e)
  {
    Trim(Lower(email))
  }

  predicate EmailTaken(users: map<UserId, Account>, email: string) {
    exists id :: id in users && users[id].email == email
  }

  predicate StudentIdTaken(users: map<UserId, Account>, studentId: string) {
    exists id :: id in users && users[id].studentId == Some(studentId)
  }

  /** The shop of a new vendor: trimmed name and description, open unless told otherwise,
      and the 09:00 to 22:00 schedule for absent times. */
  function NewShop(s: ShopRequest): (v: VendorInfo)
    ensures v.isOpen == s.isOpen.GetOr(true)
    ensures v.schedule.openTime == (if |s.openTime| > 0 then s.openTime else DefaultOpenTime)
    ensures v.schedule.closeTime == (if |s.closeTime| > 0 then s.closeTime else DefaultCloseTime)
  {
    VendorInfo(Trim(s.shopName), Trim(s.description), s.isOpen.GetOr(true),
               Schedule(if |s.openTime| > 0 then s.openTime else DefaultOpenTime,
                        if |s.closeTime| > 0 then s.closeTime else DefaultCloseTime))
  }

  /** The account the handler builds: trimmed name and phone, the normalised e-mail, a
      student id for students only and a shop for vendors only; accounts start active. */
  function NewAccount(req: RegisterRequest, role: Role): (a: Account)
    ensures a.role == role && a.isActive && a.email == NormalEmail(req.email) && a.password == req.password
    ensures a.studentId.Some? <==> role == Student
    ensures a.vendorInfo.Some? <==> role == Vendor && req.vendorInfo.Some?
  {
    Account(Trim(req.name), NormalEmail(req.email), req.password, role, Trim(req.phone),
            if role == Student then Some(Trim(req.studentId)) else None,
            if role == Vendor && req.vendorInfo.Some? then Some(NewShop(req.vendorInfo.value)) else None,
            true)
  }

  /** The user schema's messages, path by path in declaration order, at most one per path
      (`required` first); `trim` and `lowercase` are setters, not validators. */
  function AccountSchemaErrors(a: Account): (errs: seq<Message>)
    ensures IsTrimmed(a.name) && IsLower(a.email) && IsTrimmed(a.email)
            && (a.vendorInfo.Some? ==> IsTrimmed(a.vendorInfo.value.shopName) && IsTrimmed(a.vendorInfo.value.description))
            ==> (|errs| == 0 <==> SchemaValid(a))
  {
    var shop := a.vendorInfo;
    var name := if |a.name| == 0 then [NameRequired]
                else if |a.name| < MinNameLength then [NameSchemaMin2]
                else Check(|a.name| > MaxNameLength, NameTooLong);
    var email := if |a.email| == 0 then [EmailRequired] else Check(!ValidEmailForRole(a.email, a.role), EmailFormat);
    var password := if |a.password| == 0 then [PasswordSchemaRequired]
                    else Check(|a.password| < MinPasswordLength, PasswordSchemaMin6);
    var phone := if |a.phone| == 0 then [PhoneRequired] else Check(!ValidatePhone(a.phone), PhoneFormat);
    var studentId := if a.role != Student then []
                     else if a.studentId.None? || |a.studentId.value| == 0 then [StudentIdRequired]
                     else Check(|a.studentId.value| < MinStudentIdLength, StudentIdSchemaMin4);
    var vendor := if a.role != Vendor then []
                  else if shop.None? || |shop.value.shopName| == 0 then [ShopNameSchemaRequired]
                  else
                    Check(|shop.value.shopName| > MaxShopNameLength, ShopNameTooLong)
                    + Check(|shop.value.description| > MaxShopDescriptionLength, ShopDescriptionSchemaTooLong)
                    + Check(!ValidTime(shop.value.schedule.openTime), TimeFormat)
                    + Check(!ValidTime(shop.value.schedule.closeTime), TimeFormat);
    name + email + password + phone + studentId + vendor
  }

  /** `POST /api/auth/register`: 422 with the check messages, 400 for an e-mail or a
      student id already in use, 422 with the schema's messages when the save refuses the
      account; else the new account. */
  function RegisterOutcome(users: map<UserId, Account>, req: RegisterRequest): (r: Response<Account>)
    ensures |RegisterErrors(req)| > 0 ==> r == Err(Unprocessable, RegisterErrors(req))
    ensures r.Ok? ==> && |RegisterErrors(req)| == 0 && SchemaValid(r.value)
                      && !EmailTaken(users, r.value.email)
                      && (r.value.studentId.Some? ==> !StudentIdTaken(users, r.value.studentId.value))
    ensures r.Ok? ==> r.value == NewAccount(req, ParseRole(req.role).value)
    ensures r.Err? ==> r.status == BadRequest || r.status == Unprocessable
    ensures |RegisterErrors(req)| == 0 && EmailTaken(users, NormalEmail(req.email)) ==> r == Fail(BadRequest, EmailInUse)
    ensures |RegisterErrors(req)| == 0 && !EmailTaken(users, NormalEmail(req.email)) && req.role == "student"
              && |req.studentId| > 0 && StudentIdTaken(users, Trim(req.studentId))
            ==> r == Fail(BadRequest, StudentIdInUse)
    ensures r.Err? && r.status == BadRequest ==> r == Fail(BadRequest, EmailInUse) || r == Fail(BadRequest, StudentIdInUse)
  {
    var errs := RegisterErrors(req);
    if |errs| > 0 then Err(Unprocessable, errs)
    else if EmailTaken(users, NormalEmail(req.email)) then Fail(BadRequest, EmailInUse)
    else if req.role == "student" && |req.studentId| > 0 && StudentIdTaken(users, Trim(req.studentId)) then
      Fail(BadRequest, StudentIdInUse)
    else
      var a := NewAccount(req, ParseRole(req.role).value);
      if !SchemaValid(a) then Err(Unprocessable, AccountSchemaErrors(a)) else Ok(a)
  }

  /** The built account of a request that passes the handler's checks satisfies the
      schema except, possibly, for the maximum lengths and, for a vendor, the schedule
      times: the address and phone survive lower-casing and trimming. */
  lemma NewAccountSchema(req: RegisterRequest)
    requires |RegisterErrors(req)| == 0
    ensures var a := NewAccount(req, ParseRole(req.role).value);
      SchemaValid(a) <==> |a.name| <= MaxNameLength && (a.role == Vendor ==> VendorInfoValid(a.vendorInfo.value))
  {
    var role := ParseRole(req.role).value;
    var a := NewAccount(req, role);
    assert a.email == Lower(req.email) by {
      EmailNoSpace(req.email);
      LowerNoSpace(req.email);
      TrimNoSpace(Lower(req.email));
    }
    assert ValidEmailForRole(a.email, role) by {
      if role == Student {
        LowerKeepsCuetEmail(req.email);
      } else {
        LowerKeepsEmail(req.email);
      }
    }
    assert ValidatePhone(a.phone) by {
      PhoneNoSpace(req.phone);
      TrimNoSpace(req.phone);
    }
    assert IsTrimmed(a.name) && MinNameLength <= |a.name|;
    assert ValidatePassword(a.password);
    assert role == Student ==> a.studentId.Some? && |a.studentId.value| >= MinStudentIdLength;
  }

  /** A registration that passes the handler's checks and finds no duplicate fails at the
      save only for a trimmed name over 50 characters or, for a vendor, a shop name over
      100, a description over 500 or a malformed schedule time. */
  lemma RegisterSchemaGaps(users: map<UserId, Account>, req: RegisterRequest)
    requires |RegisterErrors(req)| == 0
    requires !EmailTaken(users, NormalEmail(req.email))
    requires !(req.role == "student" && StudentIdTaken(users, Trim(req.studentId)))
    ensures RegisterOutcome(users, req).Err? <==>
      || |Trim(req.name)| > MaxNameLength
      || (req.role == "vendor" && !VendorInfoValid(NewShop(req.vendorInfo.value)))
  {
    NewAccountSchema(req);
  }

  /** What registering does to the user collection: the new account is stored under a
      fresh id and nothing else changes, or the collection is unchanged. */
  method Register(dir: Directory, req: RegisterRequest, id: UserId) returns (r: Response<Account>)
    requires dir.Valid() && id !in dir.users
    modifies dir
    ensures dir.Valid()
    ensures r == RegisterOutcome(old(dir.users), req)
    ensures r.Ok? ==> dir.users == old(dir.users)[id := r.value]
    ensures r.Err? ==> dir.users == old(dir.users)
  {
    r := RegisterOutcome(dir.users, req);
    if r.Ok? {
      var a := r.value;
      StoreKeepsAccountsValid(dir.users, id, a);
      InsertKeepsIndexes(dir.users, id, a);
      dir.users := dir.users[id := a];
    }
  }

  // ---------------------------------------------------------------------------
  // Login
  // ---------------------------------------------------------------------------

  /** The account stored under this address, if any (at most one, by the index). */
  ghost function AccountWithEmail(users: map<UserId, Account>, email: string): (r: Option<Account>)
    ensures r.Some? <==> EmailTaken(users, email)
    ensures r.Some? ==> r.value.email == email && exists id :: id in users && users[id] == r.value
  {
    if EmailTaken(users, email) then
      var id :| id in users && users[id].email == email; Some(users[id])
    else None
  }

  /** `User.findOne({ email })`: scans the collection for the address. */
  method FindByEmail(dir: Directory, wanted: string) returns (found: Option<Account>)
    requires EmailsUnique(dir.users)
    ensures found == AccountWithEmail(dir.users, wanted)
  {
    var keys := dir.users.Keys;
    found := None;
    while keys != {} && found.None?
      invariant keys <= dir.users.Keys
      invariant found.None? ==> forall id :: id in dir.users && id !in keys ==> dir.users[id].email != wanted
      invariant found.Some? ==> exists id :: id in dir.users && dir.users[id] == found.value && found.value.email == wanted
      decreases |keys|
    {
      var id :| id in keys;
      if dir.users[id].email == wanted {
        found := Some(dir.users[id]);
      }
      keys := keys - {id};
    }
    assert found.Some? ==> found == AccountWithEmail(dir.users, wanted) by {
      if found.Some? {
        var j :| j in dir.users && dir.users[j] == found.value && found.value.email == wanted;
        var other := AccountWithEmail(dir.users, wanted).value;
        var k :| k in dir.users && dir.users[k] == other;
        assert j == k;
      }
    }
  }

  /** `POST /api/auth/login`, where `matches(candidate, stored)` is the password
      comparison: 400 for a malformed address or an empty password, 401 for an unknown
      address, a deactivated account or a wrong password; else the account. */
  ghost function LoginOutcome(users: map<UserId, Account>, email: string, password: string,
                              matches: (string, string) -> bool): (r: Response<Account>)
    ensures r.Ok? ==> && ValidateEmail(email) && |password| > 0 && r.value.email == NormalEmail(email)
                      && r.value.isActive && matches(password, r.value.password)
                      && exists id :: id in users && users[id] == r.value
    ensures !ValidateEmail(email) ==> r == Fail(BadRequest, InvalidEmail)
    ensures ValidateEmail(email) && !EmailTaken(users, NormalEmail(email)) && |password| > 0
            ==> r == Fail(Unauthorized, InvalidCredentials)
    ensures ValidateEmail(email) && |password| == 0 ==> r == Fail(BadRequest, PasswordRequired)
    ensures ValidateEmail(email) && |password| > 0 && AccountWithEmail(users, NormalEmail(email)).Some? ==>
              var a := AccountWithEmail(users, NormalEmail(email)).value;
              && (!a.isActive ==> r == Fail(Unauthorized, AccountDeactivated))
              && (a.isActive && !matches(password, a.password) ==> r == Fail(Unauthorized, InvalidCredentials))
              && (a.isActive && matches(password, a.password) ==> r == Ok(a))
  {
    if !ValidateEmail(email) then Fail(BadRequest, InvalidEmail)
    else if |password| == 0 then Fail(BadRequest, PasswordRequired)
    else
      var found := AccountWithEmail(users, NormalEmail(email));
      if found.None? then Fail(Unauthorized, InvalidCredentials)
      else if !found.value.isActive then Fail(Unauthorized, AccountDeactivated)
      else if !matches(password, found.value.password) then Fail(Unauthorized, InvalidCredentials)
      else Ok(found.value)
  }

  /** The login handler over the user collection: scans for the normalised address, then
      applies the account checks. */
  method Login(dir: Directory, email: string, password: string, matches: (string, string) -> bool)
    returns (r: Response<Account>)
    requires dir.Valid()
    ensures r == LoginOutcome(dir.users, email, password, matches)
  {
    if !ValidateEmail(email) {
      return Fail(BadRequest, InvalidEmail);
    }
    if |password| == 0 {
      return Fail(BadRequest, PasswordRequired);
    }
    var found := FindByEmail(dir, NormalEmail(email));
    if found.None? {
      r := Fail(Unauthorized, InvalidCredentials);
    } else if !found.value.isActive {
      r := Fail(Unauthorized, AccountDeactivated);
    } else if !matches(password, found.value.password) {
      r := Fail(Unauthorized, InvalidCredentials);
    } else {
      r := Ok(found.value);
    }
  }

  /** A freshly stored active account is what logging in with its address and a
      matching password finds, when no other account had that address. */
  lemma LoginFindsStored(users: map<UserId, Account>, id: UserId, a: Account, email: string, password: string,
                         matches: (string, string) -> bool)
    requires id !in users && !EmailTaken(users, a.email)
    requires ValidateEmail(email) && |password| > 0 && a.email == NormalEmail(email)
    requires a.isActive && matches(password, a.password)
    ensures LoginOutcome(users[id := a], email, password, matches) == Ok(a)
  {
    var next := users[id := a];
    assert next[id].email == a.email;
    var found := AccountWithEmail(next, a.email).value;
    var k :| k in next && next[k] == found;
    assert k == id;
  }

  /** Whoever registers can log in with the same address and password, as long as the
      comparison accepts a password against itself (what hashing then comparing does). */
  lemma LoginAfterRegister(users: map<UserId, Account>, req: RegisterRequest, id: UserId,
                           matches: (string, string) -> bool)
    requires id !in users
    requires RegisterOutcome(users, req).Ok?
    requires matches(req.password, req.password)
    ensures LoginOutcome(users[id := RegisterOutcome(users, req).value], req.email, req.password, matches)
         == Ok(RegisterOutcome(users, req).value)
  {
    var a := RegisterOutcome(users, req).value;
    LoginFindsStored(users, id, a, req.email, req.password, matches);
  }
}
