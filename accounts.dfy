/** The phone-code account flow of `UserController`: sending and checking one-time
    codes, and the endpoints built on them (auth, verify, register, forgot and reset
    password). */
module Accounts {
  import opened Store
  import opened Text

  const WaitError := "قبل از ارسال مجدد کد باید ۳دقیقه صبر کنید"
  const NoCode := "خطایی پیش آمده دوباره تلاش کنید"
  const ExpiredCode := "کد منقضی شده است دوباره کد دریافت کنید"
  const WrongCode := "کد اشتباه است"
  /** Three minutes between two codes for one phone, in milliseconds. */
  const Cooldown := 3 * 60 * 1000
  /** A code is good for fifteen minutes, in milliseconds. */
  const Lifetime := 15 * 60 * 1000
  const StartingWallet := 500000

  /** The id of the newest code row for `phone` below `hi`: ids follow creation
      order, so this is `orderBy('created_at', 'desc').first()`. */
  function Latest(rows: map<nat, Verify>, phone: string, hi: nat): (r: Option<nat>)
    decreases hi
    ensures r.Some? ==> r.value < hi && r.value in rows && rows[r.value].phone == phone
    ensures r.Some? ==> forall id :: r.value < id < hi && id in rows ==> rows[id].phone != phone
    ensures r.None? ==> forall id :: 0 <= id < hi && id in rows ==> rows[id].phone != phone
  {
    if hi == 0 then None
    else if hi - 1 in rows && rows[hi - 1].phone == phone then Some(hi - 1)
    else Latest(rows, phone, hi - 1)
  }

  /** Rows below `hi` alone decide the newest one below `hi`. */
  lemma {:induction false} LatestBelow(rows: map<nat, Verify>, rows': map<nat, Verify>, phone: string, hi: nat)
    requires forall id :: id < hi ==> (id in rows <==> id in rows')
    requires forall id :: id < hi && id in rows ==> rows[id] == rows'[id]
    ensures Latest(rows, phone, hi) == Latest(rows', phone, hi)
  {
    if hi > 0 {
      LatestBelow(rows, rows', phone, hi - 1);
    }
  }

  /** A new code for one phone leaves every other phone's newest code where it was. */
  lemma OtherPhoneUnaffected(rows: map<nat, Verify>, next: nat, v: Verify, phone: string)
    requires Allocated(rows, next)
    requires v.phone != phone
    ensures Latest(rows[next := v], phone, next + 1) == Latest(rows, phone, next)
  {
    LatestBelow(rows[next := v], rows, phone, next);
  }

  /** The last code for the phone was sent less than three minutes ago. */
  predicate CoolingDown(rows: map<nat, Verify>, next: nat, phone: string, now: int) {
    var last := Latest(rows, phone, next);
    last.Some? && now - rows[last.value].createdAt < Cooldown
  }

  /** `Math.floor(1000 + Math.random() * 9000)`, read over the reals. */
  function NewCode(random: real): (code: nat)
    requires 0.0 <= random < 1.0
    ensures 1000 <= code <= 9999
  {
    (1000.0 + random * 9000.0).Floor
  }

  /** The stored code is always four digits. */
  lemma NewCodeFourDigits(random: real)
    requires 0.0 <= random < 1.0
    ensures |Decimal(NewCode(random))| == 4 && DigitsValue(Decimal(NewCode(random))) == NewCode(random)
  {
    FourDigits(NewCode(random));
    DecimalRoundTrip(NewCode(random));
  }

  /** `UserController.sendCode`: refuses while the last code is younger than three
      minutes, else stores a fresh code (the SMS request is fire-and-forget and is not
      modelled). Answers the error, or None. */
  method SendCode(db: Db, phone: string, now: int, random: real) returns (error: Option<string>)
    requires db.Valid()
    requires 0.0 <= random < 1.0
    modifies db.verifies
    ensures db.Valid()
    ensures error.Some? <==> CoolingDown(old(db.verifies.rows), old(db.verifies.next), phone, now)
    ensures error.Some? ==> error.value == WaitError && unchanged(db.verifies)
    ensures error.None? ==>
      && db.verifies.rows == old(db.verifies.rows)[old(db.verifies.next) := Verify(phone, Decimal(NewCode(random)), now)]
      && db.verifies.next == old(db.verifies.next) + 1
  {
    var last := Latest(db.verifies.rows, phone, db.verifies.next);
    if last.Some? && now - db.verifies.rows[last.value].createdAt < Cooldown {
      return Some(WaitError);
    }
    var _ := db.verifies.Create(Verify(phone, Decimal(NewCode(random)), now));
    error := None;
  }

  /** A code just sent blocks another one for exactly three minutes. */
  lemma CooldownAfterSend(rows: map<nat, Verify>, next: nat, phone: string, code: string, sent: int, now: int)
    requires Allocated(rows, next)
    ensures CoolingDown(rows[next := Verify(phone, code, sent)], next + 1, phone, now) <==> now - sent < Cooldown
  {
  }

  /** `UserController.verifyCode`: the newest code for the phone must exist, be at
      most fifteen minutes old and equal the given one. Answers the error, or None. */
  function CheckCode(rows: map<nat, Verify>, next: nat, phone: string, code: string, now: int): (error: Option<string>)
    ensures error.None? <==>
      var last := Latest(rows, phone, next);
      last.Some? && now - rows[last.value].createdAt <= Lifetime && rows[last.value].code == code
    ensures Latest(rows, phone, next).None? ==> error == Some(NoCode)
    ensures var last := Latest(rows, phone, next);
      last.Some? && now - rows[last.value].createdAt > Lifetime ==> error == Some(ExpiredCode)
    ensures var last := Latest(rows, phone, next);
      last.Some? && now - rows[last.value].createdAt <= Lifetime && rows[last.value].code != code ==> error == Some(WrongCode)
  {
    var last := Latest(rows, phone, next);
    if last.None? then Some(NoCode)
    else
      var v := rows[last.value];
      if now - v.createdAt > Lifetime then Some(ExpiredCode)
      else if v.code != code then Some(WrongCode)
      else None
  }

  /** Only the newest code counts: after a new code is sent, exactly that code is
      accepted within fifteen minutes, and any earlier code is refused as wrong. */
  lemma OnlyNewestCodeAccepted(rows: map<nat, Verify>, next: nat, phone: string, sent: string, sentAt: int,
                               given: string, now: int)
    requires Allocated(rows, next)
    ensures var rows' := rows[next := Verify(phone, sent, sentAt)];
      && (CheckCode(rows', next + 1, phone, given, now).None? <==> given == sent && now - sentAt <= Lifetime)
      && (now - sentAt <= Lifetime && given != sent ==> CheckCode(rows', next + 1, phone, given, now) == Some(WrongCode))
      && (now - sentAt > Lifetime ==> CheckCode(rows', next + 1, phone, given, now) == Some(ExpiredCode))
  {
  }

  /** The code rows `Verify.query().where('phone', phone).delete()` removes. */
  function PhoneRows(rows: map<nat, Verify>, phone: string): (ids: set<nat>)
    ensures forall id :: id in ids <==> id in rows && rows[id].phone == phone
  {
    set id | id in rows && rows[id].phone == phone
  }

  /** Once the codes for a phone are deleted, no code for it is accepted any more, and
      other phones' codes are untouched. */
  lemma {:induction false} DeletedCodesRefused(rows: map<nat, Verify>, next: nat, phone: string, other: string,
                                               given: string, now: int)
    requires other != phone
    ensures var rows' := rows - PhoneRows(rows, phone);
      && CheckCode(rows', next, phone, given, now) == Some(NoCode)
      && CheckCode(rows', next, other, given, now) == CheckCode(rows, next, other, given, now)
  {
    var rows' := rows - PhoneRows(rows, phone);
    assert Latest(rows', phone, next).None?;
    LatestOtherPhone(rows, rows', other, next);
  }

  lemma {:induction false} LatestOtherPhone(rows: map<nat, Verify>, rows': map<nat, Verify>, phone: string, hi: nat)
    requires rows'.Keys <= rows.Keys
    requires forall id :: id in rows' ==> rows'[id] == rows[id]
    requires forall id :: id in rows && rows[id].phone == phone ==> id in rows'
    ensures Latest(rows', phone, hi) == Latest(rows, phone, hi)
  {
    if hi > 0 {
      LatestOtherPhone(rows, rows', phone, hi - 1);
    }
  }

  /** `User.findBy('phone', phone)`: the first user row with that phone below `hi`. */
  function FindByPhone(users: map<nat, User>, phone: string, lo: nat, hi: nat): (r: Option<nat>)
    decreases hi - lo
    ensures r.Some? ==> lo <= r.value < hi && r.value in users && users[r.value].phone == phone
    ensures r.Some? ==> forall id :: lo <= id < r.value && id in users ==> users[id].phone != phone
    ensures r.None? ==> forall id :: lo <= id < hi && id in users ==> users[id].phone != phone
  {
    if lo >= hi then None
    else if lo in users && users[lo].phone == phone then Some(lo)
    else FindByPhone(users, phone, lo + 1, hi)
  }

  datatype AuthAction = GoLogin | GoRegister

  /** `UserController.auth`: a known phone is sent to login; an unknown one gets a
      code and is sent to register. */
  method Auth(db: Db, phone: string, now: int, random: real) returns (r: Reply<AuthAction>)
    requires db.Valid()
    requires 0.0 <= random < 1.0
    modifies db.verifies
    ensures db.Valid()
    ensures phone == "" ==> r == Fail(UnprocessableEntity, "")
    ensures phone != "" && FindByPhone(db.users.rows, phone, 1, db.users.next).Some? ==> r == Ok(GoLogin)
    ensures r.Ok? && r.value == GoLogin ==> unchanged(db.verifies)
    ensures (phone != "" && FindByPhone(db.users.rows, phone, 1, db.users.next).None?
             && CoolingDown(old(db.verifies.rows), old(db.verifies.next), phone, now)) ==> r == Fail(BadRequest, WaitError)
    ensures r.Fail? ==> unchanged(db.verifies)
    ensures r == Ok(GoRegister) <==> (phone != "" && FindByPhone(db.users.rows, phone, 1, db.users.next).None?
                                   && !CoolingDown(old(db.verifies.rows), old(db.verifies.next), phone, now))
    ensures r == Ok(GoRegister) ==>
      && db.verifies.rows == old(db.verifies.rows)[old(db.verifies.next) := Verify(phone, Decimal(NewCode(random)), now)]
      && db.verifies.next == old(db.verifies.next) + 1
  {
    if phone == "" {
      return Fail(UnprocessableEntity, "");
    }
    if FindByPhone(db.users.rows, phone, 1, db.users.next).Some? {
      return Ok(GoLogin);
    }
    var error := SendCode(db, phone, now, random);
    if error.Some? {
      return Fail(BadRequest, error.value);
    }
    r := Ok(GoRegister);
  }

  /** `UserController.verify`: checks a code without using it up. */
  function VerifyEndpoint(rows: map<nat, Verify>, next: nat, phone: string, code: string, now: int): (r: Reply<bool>)
    ensures phone == "" || code == "" ==> r == Fail(UnprocessableEntity, "")
    ensures r.Ok? <==> phone != "" && code != "" && CheckCode(rows, next, phone, code, now).None?
    ensures r.Fail? && r.status == BadRequest ==> Some(r.error) == CheckCode(rows, next, phone, code, now)
  {
    if phone == "" || code == "" then Fail(UnprocessableEntity, "")
    else
      var error := CheckCode(rows, next, phone, code, now);
      if error.Some? then Fail(BadRequest, error.value) else Ok(true)
  }

  /** `UserController.register`: a good code is used up (every code of the phone is
      deleted) and a user with the starting wallet is created. Answers the user's id
      (the access token is not modelled). */
  method Register(db: Db, phone: string, code: string, name: string, password: string, now: int)
    returns (r: Reply<nat>)
    requires db.Valid()
    modifies db.verifies, db.users
    ensures db.Valid()
    ensures phone == "" || code == "" || name == "" || password == "" ==> r == Fail(UnprocessableEntity, "")
    ensures (phone != "" && code != "" && name != "" && password != ""
             && CheckCode(old(db.verifies.rows), old(db.verifies.next), phone, code, now).Some?)
      ==> r == Fail(BadRequest, CheckCode(old(db.verifies.rows), old(db.verifies.next), phone, code, now).value)
    ensures r.Fail? ==> unchanged(db.verifies, db.users)
    ensures r.Ok? <==> (phone != "" && code != "" && name != "" && password != ""
                        && CheckCode(old(db.verifies.rows), old(db.verifies.next), phone, code, now).None?)
    ensures r.Ok? ==>
      && r.value == old(db.users.next)
      && db.users.rows == old(db.users.rows)[r.value := User(name, phone, password, StartingWallet)]
      && db.users.next == old(db.users.next) + 1
      && db.verifies.rows == old(db.verifies.rows) - PhoneRows(old(db.verifies.rows), phone)
      && db.verifies.next == old(db.verifies.next)
  {
    if phone == "" || code == "" || name == "" || password == "" {
      return Fail(UnprocessableEntity, "");
    }
    var error := CheckCode(db.verifies.rows, db.verifies.next, phone, code, now);
    if error.Some? {
      return Fail(BadRequest, error.value);
    }
    db.verifies.DeleteWhere(PhoneRows(db.verifies.rows, phone));
    var id := db.users.Create(User(name, phone, password, StartingWallet));
    r := Ok(id);
  }

  /** `UserController.forgotPassword`: sends a code to any phone, known or not. */
  method ForgotPassword(db: Db, phone: string, now: int, random: real) returns (r: Reply<bool>)
    requires db.Valid()
    requires 0.0 <= random < 1.0
    modifies db.verifies
    ensures db.Valid()
    ensures phone == "" ==> r == Fail(UnprocessableEntity, "")
    ensures phone != "" && CoolingDown(old(db.verifies.rows), old(db.verifies.next), phone, now) ==> r == Fail(BadRequest, WaitError)
    ensures r.Fail? ==> unchanged(db.verifies)
    ensures r.Ok? <==> phone != "" && !CoolingDown(old(db.verifies.rows), old(db.verifies.next), phone, now)
    ensures r.Ok? ==>
      && db.verifies.rows == old(db.verifies.rows)[old(db.verifies.next) := Verify(phone, Decimal(NewCode(random)), now)]
      && db.verifies.next == old(db.verifies.next) + 1
  {
    if phone == "" {
      return Fail(UnprocessableEntity, "");
    }
    var error := SendCode(db, phone, now, random);
    if error.Some? {
      return Fail(BadRequest, error.value);
    }
    r := Ok(true);
  }

  /** `UserController.resetPassword`: a good code is used up before the user is
      looked up, so a code for an unknown phone is spent and answers 422. Answers the
      user's id (the access token is not modelled). */
  method ResetPassword(db: Db, phone: string, code: string, password: string, now: int)
    returns (r: Reply<nat>)
    requires db.Valid()
    modifies db.verifies, db.users
    ensures db.Valid()
    ensures db.verifies.next == old(db.verifies.next) && db.users.next == old(db.users.next)
    ensures phone == "" || code == "" || password == "" ==> r == Fail(UnprocessableEntity, "") && unchanged(db.verifies)
    ensures (phone != "" && code != "" && password != ""
             && CheckCode(old(db.verifies.rows), old(db.verifies.next), phone, code, now).Some?)
      ==> r == Fail(BadRequest, CheckCode(old(db.verifies.rows), old(db.verifies.next), phone, code, now).value) && unchanged(db.verifies)
    ensures (phone != "" && code != "" && password != ""
             && CheckCode(old(db.verifies.rows), old(db.verifies.next), phone, code, now).None?)
      ==> db.verifies.rows == old(db.verifies.rows) - PhoneRows(old(db.verifies.rows), phone)
    ensures (phone != "" && code != "" && password != ""
             && CheckCode(old(db.verifies.rows), old(db.verifies.next), phone, code, now).None?
             && FindByPhone(old(db.users.rows), phone, 1, old(db.users.next)).None?) ==> r == Fail(UnprocessableEntity, "")
    ensures r.Ok? <==> (phone != "" && code != "" && password != ""
                        && CheckCode(old(db.verifies.rows), old(db.verifies.next), phone, code, now).None?
                        && FindByPhone(old(db.users.rows), phone, 1, old(db.users.next)).Some?)
    ensures r.Ok? ==>
      && r.value == FindByPhone(old(db.users.rows), phone, 1, old(db.users.next)).value
      && db.users.rows == old(db.users.rows)[r.value := old(db.users.rows[r.value]).(password := password)]
    ensures r.Fail? ==> unchanged(db.users)
  {
    if phone == "" || code == "" || password == "" {
      return Fail(UnprocessableEntity, "");
    }
    var error := CheckCode(db.verifies.rows, db.verifies.next, phone, code, now);
    if error.Some? {
      return Fail(BadRequest, error.value);
    }
    db.verifies.DeleteWhere(PhoneRows(db.verifies.rows, phone));
    var found := FindByPhone(db.users.rows, phone, 1, db.users.next);
    if found.None? {
      return Fail(UnprocessableEntity, "");
    }
    var user := db.users.rows[found.value];
    db.users.Save(found.value, user.(password := password));
    r := Ok(found.value);
  }
}
