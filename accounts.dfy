/**
 * The account logic each controller carries its own copy of:
 * `generateAccessAndRefreshToken`, the login decision, the laboratory and
 * medical OTP confirmation, the two kinds of logout, and the choice of the
 * field named in a duplicate-registration message. Each member is
 * parameterised by the store it works on and by the messages its controller
 * sends.
 */
module Accounts {
  import opened Wrappers
  import opened Store
  import opened Tokens
  import opened Validation

  /**
   * A handler's reply: the status and message of the JSON body, and the data
   * a success carries. A thrown `apiError` is `Failed` with its status and
   * message.
   */
  datatype Reply<T> = Done(status: int, message: string, value: T) | Failed(status: int, message: string)

  /** The messages one controller's login sends, in the order of its checks. */
  datatype LoginMessages = LoginMessages(missing: string, notFound: string, unverified: string, success: string)

  const TokenError := "Error generating tokens"
  const BadCredentials := "Invalid credentials"
  const NoSession := "No active session found"

  /** The record of `m` whose e-mail is `email`: at most one, with e-mails distinct. */
  ghost function WithEmail(m: map<Id, Account>, email: string): (found: Option<Id>)
    requires EmailsDistinct(m)
    ensures found.None? <==> !EmailTaken(m, email)
    ensures found.Some? ==> found.value in m && m[found.value].email == email
    ensures forall id :: id in m && m[id].email == email ==> found == Some(id)
  {
    if EmailTaken(m, email) then
      var id :| id in m && m[id].email == email; Some(id)
    else None
  }

  /** `Model.findOne({email})`. */
  method FindOneByEmail(m: map<Id, Account>, email: string) returns (found: Option<Id>)
    ensures found.None? <==> !EmailTaken(m, email)
    ensures found.Some? ==> found.value in m && m[found.value].email == email
  {
    if EmailTaken(m, email) {
      var id :| id in m && m[id].email == email;
      found := Some(id);
    } else {
      found := None;
    }
  }

  /** Store `m` with record `id` holding refresh token `token`. */
  function WithToken(m: map<Id, Account>, id: Id, token: string): (m': map<Id, Account>)
    requires id in m
    ensures m'.Keys == m.Keys && m'[id].refreshToken == Some(token)
  {
    m[id := m[id].(refreshToken := Some(token))]
  }

  /**
   * `generateAccessAndRefreshToken`: look record `id` up, sign both tokens for
   * it and store the refresh token on it. A missing record makes the token
   * calls throw, which surfaces as a 500 "Error generating tokens" (`None`).
   */
  method GenerateAccessAndRefreshToken(db: Database, k: Kind, id: Id, issuer: Issuer) returns (tokens: Option<TokenPair>)
    modifies db`patients, db`doctors, db`laboratories, db`medicals
    ensures id !in old(db.Accounts().Of(k)) ==> tokens.None? && db.Accounts() == old(db.Accounts())
    ensures id in old(db.Accounts().Of(k)) ==>
      && tokens == Some(TokenPair(issuer.signAccess(k, id), issuer.signRefresh(k, id)))
      && db.Accounts() == old(db.Accounts()).With(k, WithToken(old(db.Accounts().Of(k)), id, issuer.signRefresh(k, id)))
  {
    if id !in db.Accounts().Of(k) {
      return None;
    }
    var accessToken := issuer.signAccess(k, id);
    var refreshToken := issuer.signRefresh(k, id);
    var record := db.Accounts().Of(k)[id];
    db.Put(k, id, record.(refreshToken := Some(refreshToken)));
    tokens := Some(TokenPair(accessToken, refreshToken));
  }

  /**
   * A login of kind `k`: both fields present, then the record with that
   * e-mail, then verified, then the password (checked by `checkPassword`
   * against the stored hash), and only then a token pair issued and its
   * refresh token stored.
   */
  method Login(db: Database, k: Kind, msgs: LoginMessages, email: string, password: string,
               checkPassword: (string, string) -> bool, issuer: Issuer) returns (r: Reply<TokenPair>)
    requires db.Valid()
    modifies db`patients, db`doctors, db`laboratories, db`medicals
    ensures db.Valid()
    ensures r.Failed? ==> db.Accounts() == old(db.Accounts())
    ensures !Given(email) || !Given(password) ==> r == Failed(400, msgs.missing)
    ensures Given(email) && Given(password) ==>
      var m := old(db.Accounts()).Of(k);
      var found := WithEmail(m, email);
      && (found.None? ==> r == Failed(404, msgs.notFound))
      && (found.Some? && !m[found.value].isVerified ==> r == Failed(401, msgs.unverified))
      && (found.Some? && m[found.value].isVerified && !checkPassword(password, m[found.value].password) ==>
            r == Failed(401, BadCredentials))
      && (found.Some? && m[found.value].isVerified && checkPassword(password, m[found.value].password) ==>
            && r == Done(200, msgs.success, TokenPair(issuer.signAccess(k, found.value), issuer.signRefresh(k, found.value)))
            && db.Accounts() == old(db.Accounts()).With(k, WithToken(m, found.value, issuer.signRefresh(k, found.value))))
    ensures r.Done? ==> TokenHolder(db.Accounts().Of(k), email, r.value.refreshToken)
  {
    if !Given(email) || !Given(password) {
      return Failed(400, msgs.missing);
    }
    var found := FindOneByEmail(db.Accounts().Of(k), email);
    if found.None? {
      return Failed(404, msgs.notFound);
    }
    var id := found.value;
    var record := db.Accounts().Of(k)[id];
    if !record.isVerified {
      return Failed(401, msgs.unverified);
    }
    if !checkPassword(password, record.password) {
      return Failed(401, BadCredentials);
    }
    UpdateKeepsStoresOk(db.Accounts(), db.nextId, k, id, record.(refreshToken := Some(issuer.signRefresh(k, id))));
    var tokens := GenerateAccessAndRefreshToken(db, k, id, issuer);
    r := Done(200, msgs.success, tokens.value);
  }

  /** The verified-or-not record with e-mail `email` holds refresh token `token`. */
  predicate TokenHolder(m: map<Id, Account>, email: string, token: string) {
    exists id :: id in m && m[id].email == email && m[id].refreshToken == Some(token)
  }

  /** Some unverified record has e-mail `email` and pending OTP `otp`. */
  predicate OtpPending(m: map<Id, Account>, email: string, otp: string) {
    exists id :: id in m && m[id].email == email && m[id].otp == Some(otp) && !m[id].isVerified
  }

  /** Record `id` marked verified with its OTP removed (`isVerified: true, $unset: {otp: 1}`). */
  function Confirmed(m: map<Id, Account>, id: Id): (m': map<Id, Account>)
    requires id in m
    ensures m'.Keys == m.Keys && m'[id].isVerified && m'[id].otp.None?
  {
    m[id := m[id].(isVerified := true, otp := None)]
  }

  /**
   * The laboratory and medical `updateVerifyStatus`: both fields required,
   * then one atomic update of the unverified record matching e-mail and OTP,
   * which marks it verified and removes the OTP. A code therefore confirms
   * at most once.
   */
  method ConfirmOtp(db: Database, k: Kind, email: string, otp: string, success: string) returns (r: Reply<Id>)
    requires db.Valid()
    modifies db`patients, db`doctors, db`laboratories, db`medicals
    ensures db.Valid()
    ensures !Given(email) || !Given(otp) ==> r == Failed(400, "Email and OTP are required")
    ensures Given(email) && Given(otp) && !OtpPending(old(db.Accounts()).Of(k), email, otp) ==>
      r == Failed(400, "Invalid OTP or email")
    ensures r.Failed? ==> db.Accounts() == old(db.Accounts())
    ensures r.Done? ==>
      && Given(email) && Given(otp)
      && r == Done(200, success, r.value)
      && var m := old(db.Accounts()).Of(k);
      && r.value in m && m[r.value].email == email && m[r.value].otp == Some(otp) && !m[r.value].isVerified
      && db.Accounts() == old(db.Accounts()).With(k, Confirmed(m, r.value))
    ensures Given(email) && Given(otp) ==> !OtpPending(db.Accounts().Of(k), email, otp)
  {
    if !Given(email) || !Given(otp) {
      return Failed(400, "Email and OTP are required");
    }
    var m := db.Accounts().Of(k);
    if !OtpPending(m, email, otp) {
      return Failed(400, "Invalid OTP or email");
    }
    var id :| id in m && m[id].email == email && m[id].otp == Some(otp) && !m[id].isVerified;
    UpdateKeepsStoresOk(db.Accounts(), db.nextId, k, id, m[id].(isVerified := true, otp := None));
    db.Put(k, id, m[id].(isVerified := true, otp := None));
    assert db.Accounts().Of(k) == Confirmed(m, id);
    r := Done(200, success, id);
  }

  /**
   * The doctor and medical logout: 404 when the principal's record is gone;
   * otherwise its refresh token is nulled only if one was set, both cookies
   * are cleared, and the message says whether a session existed.
   */
  method ConditionalLogout(db: Database, k: Kind, id: Id, notFound: string, success: string) returns (r: Reply<set<string>>)
    requires db.Valid()
    modifies db`patients, db`doctors, db`laboratories, db`medicals
    ensures db.Valid()
    ensures id !in old(db.Accounts().Of(k)) ==> r == Failed(404, notFound) && db.Accounts() == old(db.Accounts())
    ensures id in old(db.Accounts().Of(k)) && Truthy(old(db.Accounts().Of(k))[id].refreshToken) ==>
      && r == Done(200, success, SessionCookies)
      && db.Accounts() == old(db.Accounts()).With(k, WithoutToken(old(db.Accounts().Of(k)), id))
    ensures id in old(db.Accounts().Of(k)) && !Truthy(old(db.Accounts().Of(k))[id].refreshToken) ==>
      r == Done(200, NoSession, SessionCookies) && db.Accounts() == old(db.Accounts())
    ensures r.Done? ==> db.Accounts().Of(k)[id].refreshToken.None? || db.Accounts().Of(k)[id].refreshToken == Some("")
  {
    var m := db.Accounts().Of(k);
    if id !in m {
      return Failed(404, notFound);
    }
    var active := Truthy(m[id].refreshToken);
    if active {
      ClearTokenKeepsStoreOk(k, m, db.nextId, id);
      UpdateKeepsStoresOk(db.Accounts(), db.nextId, k, id, m[id].(refreshToken := None));
      db.Put(k, id, m[id].(refreshToken := None));
    }
    r := Done(200, if active then success else NoSession, SessionCookies);
  }

  /**
   * The laboratory logout: `$unset` of the refresh token on record `id`
   * (nothing when the record is gone), then 200 with both cookies cleared.
   */
  method UnconditionalLogout(db: Database, k: Kind, id: Id, success: string) returns (r: Reply<set<string>>)
    requires db.Valid()
    modifies db`patients, db`doctors, db`laboratories, db`medicals
    ensures db.Valid()
    ensures r == Done(200, success, SessionCookies)
    ensures id in old(db.Accounts().Of(k)) ==>
      db.Accounts() == old(db.Accounts()).With(k, WithoutToken(old(db.Accounts().Of(k)), id))
    ensures id !in old(db.Accounts().Of(k)) ==> db.Accounts() == old(db.Accounts())
    ensures id in db.Accounts().Of(k) ==> db.Accounts().Of(k)[id].refreshToken.None?
  {
    var m := db.Accounts().Of(k);
    if id in m {
      UpdateKeepsStoresOk(db.Accounts(), db.nextId, k, id, m[id].(refreshToken := None));
      db.Put(k, id, m[id].(refreshToken := None));
    }
    r := Done(200, success, SessionCookies);
  }

  /**
   * The field a laboratory or medical duplicate-registration message names,
   * found by reassigning `field`: "email" unless the second identifier
   * (`secondLabel`) matches, and "contact number" over both when the contact
   * matches.
   */
  method DuplicateField(secondLabel: string, secondMatches: bool, contactMatches: bool) returns (field: string)
    ensures contactMatches ==> field == "contact number"
    ensures !contactMatches && secondMatches ==> field == secondLabel
    ensures !contactMatches && !secondMatches ==> field == "email"
  {
    field := "email";
    if secondMatches {
      field := secondLabel;
    }
    if contactMatches {
      field := "contact number";
    }
  }
}
