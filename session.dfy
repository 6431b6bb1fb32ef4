/**
 * The request-time session middleware (`checkAuth`, `handleAccessTokenExpired`,
 * `handleLogout`): extract the two tokens, try the access token, fall back to
 * the refresh token, and either attach the resolved principal, mint a new
 * access cookie, or end the session.
 */
module Session {
  import opened Wrappers
  import opened Store
  import opened Tokens
  import opened Validation

  /** The parts of a request the middleware reads: two cookies and the `Authorization` header. */
  datatype Request = Request(accessCookie: Option<string>, refreshCookie: Option<string>, authorization: Option<string>)

  /**
   * The middleware's verdict. `Proceed` calls `next()` with `req.patient`,
   * `req.doctor`, `req.laboratory` and `req.medical` set as `attached` says,
   * and sets the `accessToken` cookie when `newAccessCookie` holds one.
   * `SessionExpired419` is sent with the named cookies cleared.
   */
  datatype Outcome =
    | Unauthorized401
    | NotFound404
    | SessionExpired419(clearedCookies: set<string>)
    | Proceed(attached: map<Kind, Account>, newAccessCookie: Option<string>)

  /** `pat` occurs in `s` starting at index `i`. */
  predicate OccursAt(s: string, pat: string, i: int) {
    0 <= i && i + |pat| <= |s| && s[i..i + |pat|] == pat
  }

  /** JavaScript's `s.replace(pat, "")` for a string pattern: only the first occurrence goes. */
  function RemoveFirst(s: string, pat: string): string
    decreases |s|
  {
    if |pat| <= |s| && s[..|pat|] == pat then s[|pat|..]
    else if s == [] then []
    else [s[0]] + RemoveFirst(s[1..], pat)
  }

  /** `RemoveFirst` cuts out exactly the leftmost occurrence. */
  lemma {:induction false} RemoveFirstCutsLeftmost(s: string, pat: string, i: int)
    requires OccursAt(s, pat, i)
    requires forall j :: 0 <= j < i ==> !OccursAt(s, pat, j)
    ensures RemoveFirst(s, pat) == s[..i] + s[i + |pat|..]
    decreases i
  {
    if i == 0 {
      assert s[..|pat|] == pat;
    } else {
      assert !OccursAt(s, pat, 0);
      assert s[..|pat|] != pat;
      var t := s[1..];
      assert OccursAt(t, pat, i - 1) by {
        assert t[i - 1..i - 1 + |pat|] == s[i..i + |pat|];
      }
      forall j | 0 <= j < i - 1 ensures !OccursAt(t, pat, j) {
        assert !OccursAt(s, pat, j + 1);
        assert t[j..j + |pat|] == s[j + 1..j + 1 + |pat|];
      }
      RemoveFirstCutsLeftmost(t, pat, i - 1);
      assert [s[0]] + (t[..i - 1] + t[i - 1 + |pat|..]) == s[..i] + s[i + |pat|..];
    }
  }

  /** Without an occurrence, `RemoveFirst` leaves the string alone. */
  lemma {:induction false} RemoveFirstWithoutOccurrence(s: string, pat: string)
    requires forall j :: 0 <= j <= |s| ==> !OccursAt(s, pat, j)
    ensures RemoveFirst(s, pat) == s
    decreases |s|
  {
    assert !OccursAt(s, pat, 0);
    if s != [] {
      var t := s[1..];
      forall j | 0 <= j <= |t| ensures !OccursAt(t, pat, j) {
        assert !OccursAt(s, pat, j + 1);
        if j + |pat| <= |t| {
          assert t[j..j + |pat|] == s[j + 1..j + 1 + |pat|];
        }
      }
      RemoveFirstWithoutOccurrence(t, pat);
      assert [s[0]] + t == s;
    }
  }

  /**
   * `req.cookies?.accessToken || req.header("Authorization")?.replace("Bearer ", "")`,
   * with `None` for a falsy result.
   */
  function AccessTokenOf(req: Request): (token: Option<string>)
    ensures token.Some? ==> token.value != ""
  {
    if Truthy(req.accessCookie) then req.accessCookie
    else if req.authorization.Some? && RemoveFirst(req.authorization.value, "Bearer ") != "" then
      Some(RemoveFirst(req.authorization.value, "Bearer "))
    else None
  }

  /** `req.cookies?.refreshToken`, with `None` for a falsy result; never read from a header. */
  function RefreshTokenOf(req: Request): (token: Option<string>)
    ensures token.Some? ==> token.value != ""
  {
    if Truthy(req.refreshCookie) then req.refreshCookie else None
  }

  /** A non-empty access cookie takes precedence over any header. */
  lemma CookieTakesPrecedence(req: Request)
    requires Truthy(req.accessCookie)
    ensures AccessTokenOf(req) == req.accessCookie
  {
  }

  /** Without a usable cookie, `Bearer <t>` in the header yields `t`. */
  lemma BearerHeaderIsStripped(req: Request, t: string)
    requires !Truthy(req.accessCookie) && req.authorization == Some("Bearer " + t) && t != ""
    ensures AccessTokenOf(req) == Some(t)
  {
    var h := "Bearer " + t;
    assert h[..|"Bearer "|] == "Bearer ";
    assert h[|"Bearer "|..] == t;
  }

  /** The refresh token comes from its cookie alone, whatever the header holds. */
  lemma RefreshTokenIgnoresHeader(req: Request, header: Option<string>)
    ensures RefreshTokenOf(req.(authorization := header)) == RefreshTokenOf(req)
  {
  }

  /** Position of a kind in the probe order Patient, Doctor, Laboratory, Medical. */
  function Rank(k: Kind): nat {
    match k
    case Patient => 0
    case Doctor => 1
    case Laboratory => 2
    case Medical => 3
  }

  /** Every store that holds `id`, with its record: what the valid-access path attaches. */
  function AttachAll(s: Stores, id: Id): (attached: map<Kind, Account>)
    ensures forall k :: k in attached <==> id in s.Of(k)
    ensures forall k :: k in attached ==> attached[k] == s.Of(k)[id]
  {
    map k | k in {Patient, Doctor, Laboratory, Medical} && id in s.Of(k) :: s.Of(k)[id]
  }

  /**
   * The kind the refresh path attaches: the first store in probe order that
   * holds `id`, or `None` when no store does.
   */
  function FirstOwner(s: Stores, id: Id): (owner: Option<Kind>)
    ensures owner.None? <==> id !in s.patients && id !in s.doctors && id !in s.laboratories && id !in s.medicals
    ensures owner.Some? ==> id in s.Of(owner.value) && forall k :: Rank(k) < Rank(owner.value) ==> id !in s.Of(k)
  {
    if id in s.patients then Some(Patient)
    else if id in s.doctors then Some(Doctor)
    else if id in s.laboratories then Some(Laboratory)
    else if id in s.medicals then Some(Medical)
    else None
  }

  /** With ids never shared across kinds, both paths attach the same single principal. */
  lemma PathsAgreeWhenDisjoint(s: Stores, id: Id)
    requires Disjoint(s) && FirstOwner(s, id).Some?
    ensures AttachAll(s, id) == map[FirstOwner(s, id).value := s.Of(FirstOwner(s, id).value)[id]]
  {
    var k := FirstOwner(s, id).value;
    var one := map[k := s.Of(k)[id]];
    forall k' | k' != k ensures id !in s.Of(k') {
    }
    assert AttachAll(s, id).Keys == one.Keys;
  }

  /** Without that invariant they differ: an id held as patient and doctor attaches two kinds on one path, one on the other. */
  lemma PathsDifferWhenShared(a: Account, b: Account)
    ensures var s := Stores(map[0 := a], map[0 := b], map[], map[]);
      && AttachAll(s, 0).Keys == {Patient, Doctor}
      && FirstOwner(s, 0) == Some(Patient)
  {
    var s := Stores(map[0 := a], map[0 := b], map[], map[]);
    assert Patient in AttachAll(s, 0) && Doctor in AttachAll(s, 0);
  }

  /** Some record of `m` holds refresh token `token`. */
  predicate HoldsToken(m: map<Id, Account>, token: string) {
    exists id :: id in m && m[id].refreshToken == Some(token)
  }

  /** Store `after` is `before` once `findOne({refreshToken})` and, if found, `{refreshToken: null}` ran on it. */
  ghost predicate RevokedIn(before: map<Id, Account>, after: map<Id, Account>, token: string) {
    if HoldsToken(before, token) then
      exists id :: id in before && before[id].refreshToken == Some(token) && after == WithoutToken(before, id)
    else
      after == before
  }

  /** The four stores after the compromise path cleared the presented token in each. */
  ghost predicate Revoked(before: Stores, after: Stores, token: string) {
    && RevokedIn(before.patients, after.patients, token)
    && RevokedIn(before.doctors, after.doctors, token)
    && RevokedIn(before.laboratories, after.laboratories, token)
    && RevokedIn(before.medicals, after.medicals, token)
  }

  /** At most one record of the store holds `token`. */
  predicate TokenHeldOnce(m: map<Id, Account>, token: string) {
    forall i, j :: i in m && j in m && m[i].refreshToken == Some(token) && m[j].refreshToken == Some(token) ==> i == j
  }

  /**
   * Revocation touches only refresh tokens, and when at most one record of
   * the store held the token, no record holds it afterwards.
   */
  lemma RevocationClearsToken(before: map<Id, Account>, after: map<Id, Account>, token: string)
    requires RevokedIn(before, after, token)
    ensures after.Keys == before.Keys
    ensures forall id :: id in after ==> after[id] == before[id].(refreshToken := after[id].refreshToken)
    ensures TokenHeldOnce(before, token) ==> forall id :: id in after ==> after[id].refreshToken != Some(token)
  {
    if HoldsToken(before, token) {
      var id :| id in before && before[id].refreshToken == Some(token) && after == WithoutToken(before, id);
      assert after.Keys == before.Keys;
    }
  }

  /** `findOne({refreshToken: token})` on one store. */
  method FindOneByRefreshToken(m: map<Id, Account>, token: string) returns (found: Option<Id>)
    ensures found.Some? ==> found.value in m && m[found.value].refreshToken == Some(token)
    ensures found.None? ==> forall id :: id in m ==> m[id].refreshToken != Some(token)
  {
    if exists id :: id in m && m[id].refreshToken == Some(token) {
      var id :| id in m && m[id].refreshToken == Some(token);
      found := Some(id);
    } else {
      found := None;
    }
  }

  /** `handleLogout`: status 419 with both session cookies cleared. */
  method HandleLogout() returns (outcome: Outcome)
    ensures outcome.SessionExpired419? && outcome.clearedCookies == {"accessToken", "refreshToken"}
  {
    outcome := SessionExpired419(SessionCookies);
  }

  /**
   * One store's share of the compromise path: `findOne({refreshToken})`, then
   * `findByIdAndUpdate(_id, {refreshToken: null})` on the match. Whether a
   * match was found is returned as well.
   */
  method RevokeIn(db: Database, k: Kind, token: string) returns (found: bool)
    requires db.Valid()
    modifies db`patients, db`doctors, db`laboratories, db`medicals
    ensures db.Valid()
    ensures RevokedIn(old(db.Accounts()).Of(k), db.Accounts().Of(k), token)
    ensures db.Accounts() == old(db.Accounts()).With(k, db.Accounts().Of(k))
    ensures found <==> HoldsToken(old(db.Accounts()).Of(k), token)
  {
    var id := FindOneByRefreshToken(db.Accounts().Of(k), token);
    if id.Some? {
      var m := db.Accounts().Of(k);
      UpdateKeepsStoresOk(db.Accounts(), db.nextId, k, id.value, m[id.value].(refreshToken := None));
      db.Put(k, id.value, m[id.value].(refreshToken := None));
      assert db.Accounts().Of(k) == WithoutToken(m, id.value);
    }
    found := id.Some?;
  }

  /**
   * The compromise path of `handleAccessTokenExpired`: look the presented
   * refresh token up in each store and set `refreshToken: null` on the match.
   */
  method RevokeEverywhere(db: Database, token: string)
    requires db.Valid()
    modifies db`patients, db`doctors, db`laboratories, db`medicals
    ensures db.Valid()
    ensures Revoked(old(db.Accounts()), db.Accounts(), token)
  {
    var _ := RevokeIn(db, Patient, token);
    var _ := RevokeIn(db, Doctor, token);
    var _ := RevokeIn(db, Laboratory, token);
    var _ := RevokeIn(db, Medical, token);
  }

  /**
   * The renewal path of `handleAccessTokenExpired` for a verified `_id`:
   * 404 when no store holds it, otherwise the first owner in probe order is
   * attached and a fresh access token for it is set as the cookie.
   */
  method ReissueAccess(db: Database, id: Id, issuer: Issuer) returns (outcome: Outcome)
    ensures FirstOwner(db.Accounts(), id).None? ==> outcome == NotFound404
    ensures FirstOwner(db.Accounts(), id).Some? ==>
      var k := FirstOwner(db.Accounts(), id).value;
      outcome == Proceed(map[k := db.Accounts().Of(k)[id]], Some(issuer.signAccess(k, id)))
  {
    if id !in db.patients && id !in db.doctors && id !in db.laboratories && id !in db.medicals {
      return NotFound404;
    }
    var accessToken;
    var attached: map<Kind, Account>;
    if id in db.patients {
      accessToken := issuer.signAccess(Patient, id);
      attached := map[Patient := db.patients[id]];
    } else if id in db.doctors {
      accessToken := issuer.signAccess(Doctor, id);
      attached := map[Doctor := db.doctors[id]];
    } else if id in db.laboratories {
      accessToken := issuer.signAccess(Laboratory, id);
      attached := map[Laboratory := db.laboratories[id]];
    } else {
      accessToken := issuer.signAccess(Medical, id);
      attached := map[Medical := db.medicals[id]];
    }
    outcome := Proceed(attached, Some(accessToken));
  }

  /**
   * `handleAccessTokenExpired`. An invalid or expired refresh token revokes
   * every stored copy found (one per store) and ends the session with 419; a
   * valid one resolves its `_id` in probe order and re-issues only the
   * access token, leaving the stores untouched.
   */
  method HandleAccessTokenExpired(db: Database, refreshToken: string, issuer: Issuer) returns (outcome: Outcome)
    requires db.Valid()
    modifies db`patients, db`doctors, db`laboratories, db`medicals
    ensures db.Valid()
    ensures !issuer.verifyRefresh(refreshToken).Verified? ==>
      && outcome == SessionExpired419(SessionCookies)
      && Revoked(old(db.Accounts()), db.Accounts(), refreshToken)
    ensures issuer.verifyRefresh(refreshToken).Verified? ==>
      && db.Accounts() == old(db.Accounts())
      && var id := issuer.verifyRefresh(refreshToken).id;
        && (FirstOwner(db.Accounts(), id).None? ==> outcome == NotFound404)
        && (FirstOwner(db.Accounts(), id).Some? ==>
              var k := FirstOwner(db.Accounts(), id).value;
              outcome == Proceed(map[k := db.Accounts().Of(k)[id]], Some(issuer.signAccess(k, id))))
    ensures outcome == IntendedRenewal(old(db.Accounts()), refreshToken, issuer)
  {
    var verdict := issuer.verifyRefresh(refreshToken);
    if !verdict.Verified? {
      RevokeEverywhere(db, refreshToken);
      outcome := HandleLogout();
      return;
    }
    outcome := ReissueAccess(db, verdict.id, issuer);
  }

  /**
   * The valid-access path of `checkAuth`: look the id up in all four stores,
   * answer 404 when none holds it, and otherwise attach every record found.
   * Nothing is written.
   */
  method AttachVerified(db: Database, id: Id) returns (outcome: Outcome)
    ensures FirstOwner(db.Accounts(), id).None? ==> outcome == NotFound404
    ensures FirstOwner(db.Accounts(), id).Some? ==> outcome == Proceed(AttachAll(db.Accounts(), id), None)
  {
    if id !in db.patients && id !in db.doctors && id !in db.laboratories && id !in db.medicals {
      return NotFound404;
    }
    var attached: map<Kind, Account> := map[];
    if id in db.patients {
      attached := attached[Patient := db.patients[id]];
    }
    if id in db.doctors {
      attached := attached[Doctor := db.doctors[id]];
    }
    if id in db.laboratories {
      attached := attached[Laboratory := db.laboratories[id]];
    }
    if id in db.medicals {
      attached := attached[Medical := db.medicals[id]];
    }
    assert attached == AttachAll(db.Accounts(), id);
    return Proceed(attached, None);
  }

  /**
   * `checkAuth`. Any failure of the access token, expired or tampered alike,
   * falls through to the refresh path; a valid one attaches every store's
   * record for its `_id` and writes nothing.
   */
  method CheckAuth(db: Database, req: Request, issuer: Issuer) returns (outcome: Outcome)
    requires db.Valid()
    modifies db`patients, db`doctors, db`laboratories, db`medicals
    ensures db.Valid()
    ensures AccessTokenOf(req).None? || RefreshTokenOf(req).None? ==>
      outcome == Unauthorized401 && db.Accounts() == old(db.Accounts())
    ensures AccessTokenOf(req).Some? && RefreshTokenOf(req).Some? ==>
      var v := issuer.verifyAccess(AccessTokenOf(req).value);
      v.Verified? ==>
        && db.Accounts() == old(db.Accounts())
        && (FirstOwner(old(db.Accounts()), v.id).None? ==> outcome == NotFound404)
        && (FirstOwner(old(db.Accounts()), v.id).Some? ==> outcome == Proceed(AttachAll(old(db.Accounts()), v.id), None))
    ensures AccessTokenOf(req).Some? && RefreshTokenOf(req).Some? ==>
      var rt := RefreshTokenOf(req).value;
      var w := issuer.verifyRefresh(rt);
      var s := old(db.Accounts());
      !issuer.verifyAccess(AccessTokenOf(req).value).Verified? ==>
        && (!w.Verified? ==> outcome == SessionExpired419(SessionCookies) && Revoked(s, db.Accounts(), rt))
        && (w.Verified? ==> db.Accounts() == s)
        && (w.Verified? && FirstOwner(s, w.id).None? ==> outcome == NotFound404)
        && (w.Verified? && FirstOwner(s, w.id).Some? ==>
              var k := FirstOwner(s, w.id).value;
              outcome == Proceed(map[k := s.Of(k)[w.id]], Some(issuer.signAccess(k, w.id))))
    ensures outcome.Proceed? && outcome.newAccessCookie.Some? && AccessRoundTrips(issuer) ==>
      issuer.verifyAccess(outcome.newAccessCookie.value) == issuer.verifyRefresh(RefreshTokenOf(req).value)
    ensures outcome == IntendedOutcome(old(db.Accounts()), req, issuer)
  {
    var accessToken := AccessTokenOf(req);
    var refreshToken := RefreshTokenOf(req);
    if accessToken.None? || refreshToken.None? {
      return Unauthorized401;
    }
    var decoded := issuer.verifyAccess(accessToken.value);
    if decoded.Verified? {
      outcome := AttachVerified(db, decoded.id);
      assert IntendedOutcome(db.Accounts(), req, issuer) == outcome;
      return;
    }
    assert IntendedOutcome(db.Accounts(), req, issuer) == IntendedRenewal(db.Accounts(), refreshToken.value, issuer);
    outcome := HandleAccessTokenExpired(db, refreshToken.value, issuer);
  }

  /**
   * The response the middleware is meant to give, computed from the stores
   * as they are when the request arrives; `CheckAuth` is proved to give it.
   */
  function IntendedOutcome(s: Stores, req: Request, issuer: Issuer): (o: Outcome) {
    if AccessTokenOf(req).None? || RefreshTokenOf(req).None? then Unauthorized401
    else
      var v := issuer.verifyAccess(AccessTokenOf(req).value);
      if v.Verified? then
        if FirstOwner(s, v.id).None? then NotFound404 else Proceed(AttachAll(s, v.id), None)
      else IntendedRenewal(s, RefreshTokenOf(req).value, issuer)
  }

  /** The response `handleAccessTokenExpired` is meant to give for `refreshToken`. */
  function IntendedRenewal(s: Stores, refreshToken: string, issuer: Issuer): (o: Outcome) {
    var w := issuer.verifyRefresh(refreshToken);
    if !w.Verified? then SessionExpired419(SessionCookies)
    else if FirstOwner(s, w.id).None? then NotFound404
    else
      var k := FirstOwner(s, w.id).value;
      Proceed(map[k := s.Of(k)[w.id]], Some(issuer.signAccess(k, w.id)))
  }

  /**
   * How a request ends under the middleware as the file is written: with a
   * response, or with a rejected promise that nothing handles, so that no
   * response is ever sent.
   */
  datatype Completion = Responded(outcome: Outcome) | NoResponse

  /** Every kind of account. */
  const AllKinds: set<Kind> := {Patient, Doctor, Laboratory, Medical}

  /** The model names the file binds: the `Laboratory` and `Medical` imports are commented out. */
  const ImportedAsWritten: set<Kind> := {Patient, Doctor}

  /** The order in which every branch of the middleware consults the four models. */
  const ProbeOrder: seq<Kind> := [Patient, Doctor, Laboratory, Medical]

  /** The filter of one lookup: `findById(id)` or `findOne({ refreshToken })`. */
  datatype Query = ById(id: Id) | ByToken(token: string)

  /** Store `k` has a record that `q` selects. */
  predicate Matches(s: Stores, k: Kind, q: Query) {
    match q
    case ById(id) => id in s.Of(k)
    case ByToken(token) => HoldsToken(s.Of(k), token)
  }

  /** How a run of awaited lookups ends: a ReferenceError, or the kinds whose lookup found a record. */
  datatype Lookups = Threw | Completed(hits: set<Kind>)

  /**
   * Awaiting one lookup per kind of `kinds`, in order. Naming a model the
   * file does not bind throws a ReferenceError, and the lookups after it
   * never run.
   */
  function LookupEach(imported: set<Kind>, s: Stores, q: Query, kinds: seq<Kind>): (r: Lookups)
    ensures r.Threw? <==> exists i :: 0 <= i < |kinds| && kinds[i] !in imported
    ensures r.Completed? ==> forall k :: k in r.hits <==> k in kinds && Matches(s, k, q)
    decreases |kinds|
  {
    if kinds == [] then Completed({})
    else if kinds[0] !in imported then Threw
    else
      var rest := LookupEach(imported, s, q, kinds[1..]);
      assert forall i :: 0 < i < |kinds| ==> kinds[i] == kinds[1..][i - 1];
      if rest.Threw? then Threw
      else if Matches(s, kinds[0], q) then Completed({kinds[0]} + rest.hits)
      else rest
  }

  /** The four lookups in probe order fail exactly when some model is not bound. */
  lemma ProbeOrderThrows(imported: set<Kind>, s: Stores, q: Query)
    ensures LookupEach(imported, s, q, ProbeOrder).Threw? <==> !(AllKinds <= imported)
    ensures LookupEach(imported, s, q, ProbeOrder).Completed? ==>
      forall k :: k in LookupEach(imported, s, q, ProbeOrder).hits <==> Matches(s, k, q)
  {
    assert forall k :: k in ProbeOrder <==> k in AllKinds;
    assert !(AllKinds <= imported) ==> exists i :: 0 <= i < |ProbeOrder| && ProbeOrder[i] !in imported;
  }

  /** No lookup found a record: the test `!patient && !doctor && !laboratory && !medical`. */
  predicate NoneFound(hits: set<Kind>) {
    Patient !in hits && Doctor !in hits && Laboratory !in hits && Medical !in hits
  }

  /** The kind the renewal branch picks among those found: the first in probe order. */
  function FirstHit(hits: set<Kind>): (k: Kind)
    requires !NoneFound(hits)
    ensures k in hits && forall k' :: k' in hits ==> Rank(k) <= Rank(k')
  {
    if Patient in hits then Patient
    else if Doctor in hits then Doctor
    else if Laboratory in hits then Laboratory
    else Medical
  }

  /**
   * `handleAccessTokenExpired` as written, for its response. Both branches
   * of the `jwt.verify` callback await the four lookups before any store
   * write: by refresh token when the token fails, by `_id` when it
   * verifies. An unbound model name throws there and rejects the async
   * callback's promise, which nothing awaits, so no response is sent.
   */
  function RefreshAsWritten(imported: set<Kind>, s: Stores, refreshToken: string, issuer: Issuer): (c: Completion)
    ensures c.NoResponse? <==> !(AllKinds <= imported)
  {
    ProbeOrderThrows(imported, s, ByToken(refreshToken));
    var w := issuer.verifyRefresh(refreshToken);
    if !w.Verified? then
      match LookupEach(imported, s, ByToken(refreshToken), ProbeOrder)
      case Threw => NoResponse
      case Completed(_) => Responded(SessionExpired419(SessionCookies))
    else
      ProbeOrderThrows(imported, s, ById(w.id));
      match LookupEach(imported, s, ById(w.id), ProbeOrder)
      case Threw => NoResponse
      case Completed(hits) =>
        if NoneFound(hits) then Responded(NotFound404)
        else
          var k := FirstHit(hits);
          Responded(Proceed(map[k := s.Of(k)[w.id]], Some(issuer.signAccess(k, w.id))))
  }

  /**
   * `checkAuth` as written, for its response, with `imported` the models the
   * file binds. A failing `jwt.verify` and a ReferenceError in the lookups
   * both throw inside the `try`, and the `catch` passes either to
   * `handleAccessTokenExpired`.
   */
  function CheckAuthAsWritten(imported: set<Kind>, s: Stores, req: Request, issuer: Issuer): (c: Completion)
    ensures c.NoResponse? <==> AccessTokenOf(req).Some? && RefreshTokenOf(req).Some? && !(AllKinds <= imported)
  {
    if AccessTokenOf(req).None? || RefreshTokenOf(req).None? then Responded(Unauthorized401)
    else
      var refreshToken := RefreshTokenOf(req).value;
      var v := issuer.verifyAccess(AccessTokenOf(req).value);
      if !v.Verified? then RefreshAsWritten(imported, s, refreshToken, issuer)
      else
        ProbeOrderThrows(imported, s, ById(v.id));
        match LookupEach(imported, s, ById(v.id), ProbeOrder)
        case Threw => RefreshAsWritten(imported, s, refreshToken, issuer)
        case Completed(hits) =>
          if NoneFound(hits) then Responded(NotFound404)
          else Responded(Proceed(map k | k in hits :: s.Of(k)[v.id], None))
  }

  /**
   * As the file is written, no request that carries both tokens is answered,
   * whatever the tokens verify to and whatever the stores hold.
   */
  lemma AsWrittenAnswersNoSession(s: Stores, req: Request, issuer: Issuer)
    requires AccessTokenOf(req).Some? && RefreshTokenOf(req).Some?
    ensures CheckAuthAsWritten(ImportedAsWritten, s, req, issuer) == NoResponse
  {
    assert Laboratory in AllKinds && Laboratory !in ImportedAsWritten;
  }

  /** With all four models imported, `handleAccessTokenExpired` answers as intended. */
  lemma AllImportsRenewAsIntended(s: Stores, refreshToken: string, issuer: Issuer)
    ensures RefreshAsWritten(AllKinds, s, refreshToken, issuer) == Responded(IntendedRenewal(s, refreshToken, issuer))
  {
    var w := issuer.verifyRefresh(refreshToken);
    if w.Verified? {
      ProbeOrderThrows(AllKinds, s, ById(w.id));
      var hits := LookupEach(AllKinds, s, ById(w.id), ProbeOrder).hits;
      assert NoneFound(hits) <==> FirstOwner(s, w.id).None?;
      assert !NoneFound(hits) ==> FirstHit(hits) == FirstOwner(s, w.id).value;
    } else {
      ProbeOrderThrows(AllKinds, s, ByToken(refreshToken));
    }
  }

  /** With all four models imported, the file answers every request as intended. */
  lemma AllImportsAnswerAsIntended(s: Stores, req: Request, issuer: Issuer)
    ensures CheckAuthAsWritten(AllKinds, s, req, issuer) == Responded(IntendedOutcome(s, req, issuer))
  {
    if AccessTokenOf(req).Some? && RefreshTokenOf(req).Some? {
      var v := issuer.verifyAccess(AccessTokenOf(req).value);
      if v.Verified? {
        ProbeOrderThrows(AllKinds, s, ById(v.id));
        var hits := LookupEach(AllKinds, s, ById(v.id), ProbeOrder).hits;
        assert NoneFound(hits) <==> FirstOwner(s, v.id).None?;
        assert (map k | k in hits :: s.Of(k)[v.id]) == AttachAll(s, v.id);
      } else {
        AllImportsRenewAsIntended(s, RefreshTokenOf(req).value, issuer);
      }
    }
  }

  /**
   * A patient with a valid access token: the intended middleware attaches
   * the patient's record and calls `next()`, while the file as written
   * never answers.
   */
  lemma LoggedInPatientGetsNoResponse(a: Account, issuer: Issuer)
    requires issuer.verifyAccess("access") == Verified(0)
    ensures var s := Stores(map[0 := a], map[], map[], map[]);
      var req := Request(Some("access"), Some("refresh"), None);
      && IntendedOutcome(s, req, issuer) == Proceed(map[Patient := a], None)
      && CheckAuthAsWritten(ImportedAsWritten, s, req, issuer) == NoResponse
  {
    var s := Stores(map[0 := a], map[], map[], map[]);
    var req := Request(Some("access"), Some("refresh"), None);
    assert AccessTokenOf(req) == Some("access") && RefreshTokenOf(req) == Some("refresh");
    assert AttachAll(s, 0).Keys == {Patient};
    AsWrittenAnswersNoSession(s, req, issuer);
  }
}
