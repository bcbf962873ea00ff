/** The user document: account fields and their validators (e-mail by role, phone,
    student id, shop name, schedule times), the embedded shopping cart with its
    `calculateCartTotals` method, and the in-memory user collection. */
module UserSchema {
  import opened Common

  datatype Role = Student | Vendor

  function RoleName(r: Role): string {
    match r
    case Student => "student"
    case Vendor => "vendor"
  }

  /** The role enum: only "student" and "vendor" are roles. */
  function ParseRole(s: string): (r: Option<Role>)
    ensures r.Some? <==> (s == "student" || s == "vendor")
    ensures r.Some? ==> RoleName(r.value) == s
  {
    if s == "student" then Some(Student) else if s == "vendor" then Some(Vendor) else None
  }

  // ---------------------------------------------------------------------------
  // String validators (the regular expressions of the schema and of the routes)
  // ---------------------------------------------------------------------------

  /** Neither white space nor '@': the class `[^\s@]`. */
  predicate PlainChar(c: char) {
    !IsSpace(c) && c != '@'
  }

  /** Every character of s[lo..hi] is plain. */
  predicate PlainBetween(s: string, lo: int, hi: int)
    requires 0 <= lo <= hi <= |s|
  {
    forall i :: lo <= i < hi ==> PlainChar(s[i])
  }

  /** The language of /^[^\s@]+@[^\s@]+\.[^\s@]+$/: a non-empty plain run, '@', a
      non-empty plain run, '.', and a non-empty plain run. */
  ghost predicate EmailLanguage(s: string) {
    exists at, dot ::
      && 0 < at && at + 1 < dot && dot + 1 < |s|
      && s[at] == '@' && s[dot] == '.'
      && PlainBetween(s, 0, at) && PlainBetween(s, at + 1, dot) && PlainBetween(s, dot + 1, |s|)
  }

  /** Index of the first '@' in s, or |s| when there is none. */
  function IndexOfAt(s: string): (k: nat)
    ensures k <= |s|
    ensures k < |s| ==> s[k] == '@'
    ensures forall i :: 0 <= i < k ==> s[i] != '@'
  {
    if s == [] then 0
    else if s[0] == '@' then 0
    else 1 + IndexOfAt(s[1..])
  }

  /** `validateEmail` (and the schema's e-mail check for non-students): the part
      before the first '@' is plain and non-empty, and the rest is plain with a '.'
      that is neither its first nor its last character. */
  function ValidateEmail(s: string): (ok: bool)
    ensures ok <==> EmailLanguage(s)
  {
    var k := IndexOfAt(s);
    var ok := 0 < k < |s| && PlainBetween(s, 0, k) && PlainBetween(s, k + 1, |s|)
              && exists p :: k + 1 < p < |s| - 1 && s[p] == '.';
    assert ok ==> EmailLanguage(s) by {
      if ok {
        var p :| k + 1 < p < |s| - 1 && s[p] == '.';
        assert PlainBetween(s, k + 1, p) && PlainBetween(s, p + 1, |s|);
      }
    }
    assert EmailLanguage(s) ==> ok by {
      if EmailLanguage(s) {
        var at, dot :|
          && 0 < at && at + 1 < dot && dot + 1 < |s|
          && s[at] == '@' && s[dot] == '.'
          && PlainBetween(s, 0, at) && PlainBetween(s, at + 1, dot) && PlainBetween(s, dot + 1, |s|);
        assert k == at;
        assert PlainChar(s[dot]);
        assert PlainBetween(s, k + 1, |s|);
      }
    }
    ok
  }

  predicate CuetLocalChar(c: char) {
    ('a' <= c <= 'z') || ('A' <= c <= 'Z') || IsDigit(c)
    || c == '.' || c == '_' || c == '%' || c == '+' || c == '-'
  }

  const CuetDomain: string := "@cuet.ac.bd"

  /** `validateCUETEmail` and the schema's student e-mail check,
      /^[a-zA-Z0-9._%+-]+@cuet\.ac\.bd$/: a non-empty local part of allowed characters
      followed by exactly "@cuet.ac.bd" (case-sensitive). */
  predicate ValidateCUETEmail(s: string) {
    && |s| > |CuetDomain|
    && s[|s| - |CuetDomain|..] == CuetDomain
    && forall i :: 0 <= i < |s| - |CuetDomain| ==> CuetLocalChar(s[i])
  }

  /** Every institutional address is also a valid address in the general sense. */
  lemma CuetEmailIsEmail(s: string)
    requires ValidateCUETEmail(s)
    ensures ValidateEmail(s)
  {
    var at := |s| - |CuetDomain|;
    var dot := at + 5;
    assert s[at..] == CuetDomain;
    assert s[at] == '@' && s[dot] == '.';
    assert PlainBetween(s, 0, at) by {
      forall i | 0 <= i < at ensures PlainChar(s[i]) {
        assert CuetLocalChar(s[i]);
      }
    }
    forall i | at < i < |s| ensures PlainChar(s[i]) {
      assert s[i] == CuetDomain[i - at];
    }
    assert PlainBetween(s, at + 1, dot) && PlainBetween(s, dot + 1, |s|);
    assert EmailLanguage(s);
  }

  /** The domain match is case-sensitive: an upper-case domain is refused. */
  lemma CuetEmailCaseSensitive()
    ensures ValidateCUETEmail("ab12@cuet.ac.bd")
    ensures !ValidateCUETEmail("ab12@CUET.AC.BD")
  {
    assert "ab12@CUET.AC.BD"[4..] != CuetDomain by {
      assert "ab12@CUET.AC.BD"[5] == 'C';
    }
  }

  /** Lower-casing (the schema's `lowercase` setter) keeps an institutional address valid. */
  lemma LowerKeepsCuetEmail(s: string)
    requires ValidateCUETEmail(s)
    ensures ValidateCUETEmail(Lower(s))
  {
    var n := |s| - |CuetDomain|;
    var t := Lower(s);
    assert t[n..] == CuetDomain by {
      forall i | 0 <= i < |CuetDomain| ensures t[n..][i] == CuetDomain[i] {
        assert s[n..][i] == CuetDomain[i];
        assert t[n + i] == LowerChar(s[n + i]);
      }
    }
    forall i | 0 <= i < n ensures CuetLocalChar(t[i]) {
      assert t[i] == LowerChar(s[i]);
    }
  }

  /** Lower-casing keeps an address in the e-mail language. */
  lemma LowerKeepsEmail(s: string)
    requires ValidateEmail(s)
    ensures ValidateEmail(Lower(s))
  {
    var at, dot :|
      && 0 < at && at + 1 < dot && dot + 1 < |s|
      && s[at] == '@' && s[dot] == '.'
      && PlainBetween(s, 0, at) && PlainBetween(s, at + 1, dot) && PlainBetween(s, dot + 1, |s|);
    var t := Lower(s);
    assert t[at] == '@' && t[dot] == '.';
    forall i | 0 <= i < |s| && PlainChar(s[i]) ensures PlainChar(t[i]) {
      assert t[i] == LowerChar(s[i]);
    }
    assert PlainBetween(t, 0, at) && PlainBetween(t, at + 1, dot) && PlainBetween(t, dot + 1, |t|);
    assert EmailLanguage(t);
  }

  /** A valid address has no white space, so trimming leaves it as it is. */
  lemma EmailNoSpace(s: string)
    requires ValidateEmail(s)
    ensures NoSpace(s)
  {
    var at, dot :|
      && 0 < at && at + 1 < dot && dot + 1 < |s|
      && s[at] == '@' && s[dot] == '.'
      && PlainBetween(s, 0, at) && PlainBetween(s, at + 1, dot) && PlainBetween(s, dot + 1, |s|);
    forall i | 0 <= i < |s| ensures !IsSpace(s[i]) {
      if i != at && i != dot {
        assert PlainChar(s[i]);
      }
    }
  }

  /** The schema's role-dependent e-mail rule. */
  predicate ValidEmailForRole(email: string, role: Role) {
    if role == Student then ValidateCUETEmail(email) else ValidateEmail(email)
  }

  /** `validatePhone` and the schema's phone check, /^(\+8801|01)[3-9]\d{8}$/. */
  predicate ValidatePhone(s: string) {
    || (|s| == 11 && s[..2] == "01" && '3' <= s[2] <= '9' && AllDigits(s[3..]))
    || (|s| == 14 && s[..5] == "+8801" && '3' <= s[5] <= '9' && AllDigits(s[6..]))
  }

  /** A valid phone number has no white space, so trimming leaves it as it is. */
  lemma PhoneNoSpace(s: string)
    requires ValidatePhone(s)
    ensures NoSpace(s)
  {
    forall i | 0 <= i < |s| ensures !IsSpace(s[i]) {
      if |s| == 11 {
        if i >= 3 {
          assert s[i] == s[3..][i - 3];
        } else if i < 2 {
          assert s[i] == s[..2][i];
        }
      } else {
        if i >= 6 {
          assert s[i] == s[6..][i - 6];
        } else if i < 5 {
          assert s[i] == s[..5][i];
        }
      }
    }
  }

  /** The two accepted forms name the same numbers: "+88" before a valid local number
      gives a valid international one, and every valid number with that prefix arises so. */
  lemma PhoneCountryCode(s: string)
    ensures ValidatePhone("+88" + s) <==> (|s| == 11 && ValidatePhone(s))
  {
    var t := "+88" + s;
    if |s| == 11 {
      assert t[..5] == "+88" + s[..2];
      assert t[5] == s[2];
      assert t[6..] == s[3..];
      if s[..2] == "01" {
        assert t[..5] == "+8801";
      }
      if t[..5] == "+8801" {
        assert s[..2] == t[..5][3..];
      }
    } else if |t| == 11 {
      assert t[..2] == "+8";
      assert t[..2][0] != "01"[0];
    }
  }

  const MinPasswordLength: int := 6

  /** `validatePassword`: a non-empty password of at least six characters. */
  predicate ValidatePassword(p: string) {
    |p| >= MinPasswordLength
  }

  /** The schedule time check, /^([01]?[0-9]|2[0-3]):[0-5][0-9]$/. */
  predicate ValidTime(s: string) {
    || (|s| == 4 && IsDigit(s[0]) && s[1] == ':' && '0' <= s[2] <= '5' && IsDigit(s[3]))
    || (&& |s| == 5
        && (((s[0] == '0' || s[0] == '1') && IsDigit(s[1])) || (s[0] == '2' && '0' <= s[1] <= '3'))
        && s[2] == ':' && '0' <= s[3] <= '5' && IsDigit(s[4]))
  }

  function DigitChar(n: nat): char
    requires n < 10
  {
    ('0' as int + n) as char
  }

  function DigitValue(c: char): nat
    requires IsDigit(c)
  {
    c as int - '0' as int
  }

  /** "hh:mm" with a two-digit hour. */
  function PaddedClock(h: nat, m: nat): string
    requires h < 100 && m < 60
  {
    [DigitChar(h / 10), DigitChar(h % 10), ':', DigitChar(m / 10), DigitChar(m % 10)]
  }

  /** "h:mm" with a one-digit hour. */
  function ShortClock(h: nat, m: nat): string
    requires h < 10 && m < 60
  {
    [DigitChar(h), ':', DigitChar(m / 10), DigitChar(m % 10)]
  }

  /** The time pattern accepts exactly the clock readings 0:00 to 23:59, written with a
      two-digit hour or, below ten, a one-digit hour. */
  lemma TimeLanguage(s: string)
    ensures ValidTime(s) <==>
      exists h: nat, m: nat :: h < 24 && m < 60 &&
        (s == PaddedClock(h, m) || (h < 10 && s == ShortClock(h, m)))
  {
    if ValidTime(s) {
      var n := |s|;
      var m := 10 * DigitValue(s[n - 2]) + DigitValue(s[n - 1]);
      assert DigitChar(m / 10) == s[n - 2] && DigitChar(m % 10) == s[n - 1];
      if n == 4 {
        var h := DigitValue(s[0]);
        assert s == ShortClock(h, m);
      } else {
        var h := 10 * DigitValue(s[0]) + DigitValue(s[1]);
        assert DigitChar(h / 10) == s[0] && DigitChar(h % 10) == s[1];
        assert s == PaddedClock(h, m);
      }
    }
  }

  /** Midnight and noon forms are accepted, "24:00" and a three-digit hour are not. */
  lemma TimeExamples()
    ensures ValidTime("09:00") && ValidTime("22:00") && ValidTime("9:05") && ValidTime("23:59")
    ensures !ValidTime("24:00") && !ValidTime("12:60") && !ValidTime("123:00")
  {
  }

  // ---------------------------------------------------------------------------
  // Account
  // ---------------------------------------------------------------------------

  const MinNameLength: int := 2
  const MaxNameLength: int := 50
  const MinStudentIdLength: int := 4
  const MaxShopNameLength: int := 100
  const MaxShopDescriptionLength: int := 500
  const DefaultOpenTime: string := "09:00"
  const DefaultCloseTime: string := "22:00"

  datatype Schedule = Schedule(openTime: string, closeTime: string)

  datatype VendorInfo = VendorInfo(shopName: string, description: string, isOpen: bool, schedule: Schedule)

  /** A user document. The password is kept as submitted: hashing is not modelled. */
  datatype Account = Account(
    name: string,
    email: string,
    password: string,
    role: Role,
    phone: string,
    studentId: Option<string>,
    vendorInfo: Option<VendorInfo>,
    isActive: bool)

  /** The vendor-info sub-document's constraints. */
  predicate VendorInfoValid(v: VendorInfo) {
    && v.shopName != [] && IsTrimmed(v.shopName) && |v.shopName| <= MaxShopNameLength
    && IsTrimmed(v.description) && |v.description| <= MaxShopDescriptionLength
    && ValidTime(v.schedule.openTime) && ValidTime(v.schedule.closeTime)
  }

  /** The user schema: trimmed name of 2..50, trimmed lower-case e-mail valid for the
      role, password of at least 6, valid phone, a student id of at least 4 characters
      for students, and a shop for vendors. */
  predicate SchemaValid(a: Account) {
    && IsTrimmed(a.name) && MinNameLength <= |a.name| <= MaxNameLength
    && IsLower(a.email) && IsTrimmed(a.email)
    && ValidEmailForRole(a.email, a.role)
    && ValidatePassword(a.password)
    && ValidatePhone(a.phone)
    && (a.role == Student ==> a.studentId.Some? && |a.studentId.value| >= MinStudentIdLength)
    && (a.role == Vendor ==> a.vendorInfo.Some? && VendorInfoValid(a.vendorInfo.value))
  }

  /** A valid vendor account stays valid with another shop exactly when that shop is
      valid. */
  lemma ShopChange(a: Account, info: VendorInfo)
    requires SchemaValid(a) && a.role == Vendor
    ensures SchemaValid(a.(vendorInfo := Some(info))) <==> VendorInfoValid(info)
  {
  }

  /** A vendor is open when its shop sign says so; accounts without a shop are closed. */
  predicate IsOpen(a: Account) {
    a.vendorInfo.Some? && a.vendorInfo.value.isOpen
  }

  /** The vendor referenced by id exists and is open. */
  predicate VendorOpen(users: map<UserId, Account>, id: UserId) {
    id in users && IsOpen(users[id])
  }

  predicate EmailsUnique(users: map<UserId, Account>) {
    forall a, b :: a in users && b in users && a != b ==> users[a].email != users[b].email
  }

  predicate StudentIdsUnique(users: map<UserId, Account>) {
    forall a, b :: a in users && b in users && a != b && users[a].studentId.Some? ==>
      users[a].studentId != users[b].studentId
  }

  ghost predicate AccountsValid(users: map<UserId, Account>) {
    forall id :: id in users ==> SchemaValid(users[id])
  }

  /** Every stored account satisfies the schema, and the unique indexes on e-mail and
      student id hold. */
  ghost predicate UsersValid(users: map<UserId, Account>) {
    AccountsValid(users) && EmailsUnique(users) && StudentIdsUnique(users)
  }

  /** Storing a valid account keeps every stored account valid. */
  lemma StoreKeepsAccountsValid(users: map<UserId, Account>, id: UserId, a: Account)
    requires AccountsValid(users) && SchemaValid(a)
    ensures AccountsValid(users[id := a])
  {
  }

  /** Replacing an account by one with the same e-mail and student id keeps the unique
      indexes. */
  lemma ReplaceKeepsIndexes(users: map<UserId, Account>, id: UserId, a: Account)
    requires EmailsUnique(users) && StudentIdsUnique(users) && id in users
    requires a.email == users[id].email && a.studentId == users[id].studentId
    ensures EmailsUnique(users[id := a]) && StudentIdsUnique(users[id := a])
  {
    var next := users[id := a];
    forall i, j | i in next && j in next && i != j
      ensures next[i].email != next[j].email
      ensures next[i].studentId.Some? ==> next[i].studentId != next[j].studentId
    {
      assert next[i].email == users[i].email && next[i].studentId == users[i].studentId;
      assert next[j].email == users[j].email && next[j].studentId == users[j].studentId;
    }
  }

  /** Adding an account under a fresh id keeps the unique indexes when no stored account
      has its e-mail or (for an account that has one) its student id. */
  lemma InsertKeepsIndexes(users: map<UserId, Account>, id: UserId, a: Account)
    requires EmailsUnique(users) && StudentIdsUnique(users) && id !in users
    requires forall j :: j in users ==> users[j].email != a.email
    requires a.studentId.Some? ==> forall j :: j in users ==> users[j].studentId != a.studentId
    ensures EmailsUnique(users[id := a]) && StudentIdsUnique(users[id := a])
  {
    var next := users[id := a];
    forall i, j | i in next && j in next && i != j
      ensures next[i].email != next[j].email
      ensures next[i].studentId.Some? ==> next[i].studentId != next[j].studentId
    {
      if i == id {
        assert next[j] == users[j];
      } else if j == id {
        assert next[i] == users[i];
      } else {
        assert next[i] == users[i] && next[j] == users[j];
      }
    }
  }

  /** The user collection: documents keyed by id, each satisfying the schema, with the
      unique indexes on e-mail and student id. */
  class Directory {
    var users: map<UserId, Account>

    ghost predicate Valid()
      reads this
    {
      UsersValid(users)
    }

    constructor ()
      ensures Valid() && users == map[]
    {
      users := map[];
    }
  }

  // ---------------------------------------------------------------------------
  // Cart
  // ---------------------------------------------------------------------------

  const MinQuantity: int := 1
  const MaxQuantity: int := 50
  const MaxInstructionsLength: int := 200

  /** A cart line: the menu item and its vendor, the name and price taken when the line
      was added, the quantity and the student's instructions. */
  datatype CartLine = CartLine(
    lineId: LineId,
    menuItemId: ItemId,
    vendorId: UserId,
    name: string,
    price: int,
    quantity: int,
    specialInstructions: string,
    addedAt: Time)

  /** The cart line schema: quantity in 1..50 and instructions of at most 200 characters. */
  predicate LineValid(l: CartLine) {
    MinQuantity <= l.quantity <= MaxQuantity && |l.specialInstructions| <= MaxInstructionsLength
  }

  predicate LinesValid(items: seq<CartLine>) {
    forall i :: 0 <= i < |items| ==> LineValid(items[i])
  }

  /** All lines come from one vendor. */
  predicate SingleVendor(items: seq<CartLine>) {
    forall i :: 0 <= i < |items| ==> items[i].vendorId == items[0].vendorId
  }

  /** No menu item has two lines. */
  predicate DistinctItems(items: seq<CartLine>) {
    forall i, j :: 0 <= i < j < |items| ==> items[i].menuItemId != items[j].menuItemId
  }

  predicate DistinctLineIds(items: seq<CartLine>) {
    forall i, j :: 0 <= i < j < |items| ==> items[i].lineId != items[j].lineId
  }

  /** What every stored cart satisfies. */
  predicate CartInvariant(items: seq<CartLine>) {
    LinesValid(items) && SingleVendor(items) && DistinctItems(items) && DistinctLineIds(items)
  }

  /** Σ quantity over the lines. */
  function TotalQuantity(items: seq<CartLine>): int {
    if items == [] then 0 else items[0].quantity + TotalQuantity(items[1..])
  }

  /** Σ price × quantity over the lines, each at its stored price. */
  function TotalAmount(items: seq<CartLine>): int {
    if items == [] then 0 else items[0].price * items[0].quantity + TotalAmount(items[1..])
  }

  /** The sums distribute over concatenation. */
  lemma {:induction false} TotalsAppend(a: seq<CartLine>, b: seq<CartLine>)
    ensures TotalQuantity(a + b) == TotalQuantity(a) + TotalQuantity(b)
    ensures TotalAmount(a + b) == TotalAmount(a) + TotalAmount(b)
  {
    if a != [] {
      assert (a + b)[0] == a[0];
      assert (a + b)[1..] == a[1..] + b;
      TotalsAppend(a[1..], b);
    } else {
      assert a + b == b;
    }
  }

  /** Replacing one line changes the sums by the difference of that line's terms. */
  lemma TotalsReplace(items: seq<CartLine>, k: int, line: CartLine)
    requires 0 <= k < |items|
    ensures TotalQuantity(items[k := line]) == TotalQuantity(items) - items[k].quantity + line.quantity
    ensures TotalAmount(items[k := line])
         == TotalAmount(items) - items[k].price * items[k].quantity + line.price * line.quantity
  {
    assert items == items[..k] + [items[k]] + items[k + 1..];
    assert items[k := line] == items[..k] + [line] + items[k + 1..];
    TotalsAppend(items[..k] + [items[k]], items[k + 1..]);
    TotalsAppend(items[..k], [items[k]]);
    TotalsAppend(items[..k] + [line], items[k + 1..]);
    TotalsAppend(items[..k], [line]);
  }

  /** Dropping one line takes its terms out of the sums. */
  lemma TotalsRemove(items: seq<CartLine>, k: int)
    requires 0 <= k < |items|
    ensures TotalQuantity(items[..k] + items[k + 1..]) == TotalQuantity(items) - items[k].quantity
    ensures TotalAmount(items[..k] + items[k + 1..])
         == TotalAmount(items) - items[k].price * items[k].quantity
  {
    var a, x, b := items[..k], items[k], items[k + 1..];
    assert items == a + [x] + b;
    TotalsAppend(a + [x], b);
    TotalsAppend(a, [x]);
    TotalsAppend(a, b);
    assert [x][1..] == [];
  }

  /** Lines with quantities in 1..50 have a positive total between |items| and 50·|items|. */
  lemma {:induction false} TotalQuantityBounds(items: seq<CartLine>)
    requires LinesValid(items)
    ensures |items| <= TotalQuantity(items) <= MaxQuantity * |items|
  {
    if items != [] {
      assert LinesValid(items[1..]) by {
        forall i | 0 <= i < |items| - 1 ensures LineValid(items[1..][i]) {
          assert items[1..][i] == items[i + 1];
        }
      }
      TotalQuantityBounds(items[1..]);
    }
  }

  /** The embedded cart of a student account. */
  class Cart {
    var items: seq<CartLine>
    var totalItems: int
    var totalAmount: int
    var lastUpdated: Time

    /** The stored cart keeps its invariant and its totals equal their defining sums. */
    ghost predicate Valid()
      reads this
    {
      CartInvariant(items) && totalItems == TotalQuantity(items) && totalAmount == TotalAmount(items)
    }

    /** A new account's cart: no lines, zero totals. */
    constructor (now: Time)
      ensures Valid() && items == [] && totalItems == 0 && totalAmount == 0 && lastUpdated == now
    {
      items := [];
      totalItems := 0;
      totalAmount := 0;
      lastUpdated := now;
    }

    /** `calculateCartTotals`: recompute both totals from the lines and stamp the time. */
    method CalculateTotals(now: Time)
      modifies this
      ensures items == old(items) && lastUpdated == now
      ensures totalItems == TotalQuantity(items) && totalAmount == TotalAmount(items)
    {
      totalItems := TotalQuantity(items);
      totalAmount := TotalAmount(items);
      lastUpdated := now;
    }
  }
}
