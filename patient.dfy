/**
 * The patient controller: registration (form checks, e-mail duplicate
 * check, the retry loop that draws a `uniqueId` no patient holds, creation
 * and immediate token issue) and verification by `uniqueId`.
 */
module PatientController {
  import opened Wrappers
  import opened Store
  import opened Tokens
  import opened Validation
  import opened Codes
  import opened Accounts

  /** The body of a registration request; an absent text field is "", an absent number `None`. */
  datatype PatientForm = PatientForm(
    name: string, age: Option<int>, gender: string, dateOfBirth: string, email: string,
    password: string, phoneNumber: string, address: string)

  predicate AllGiven(f: PatientForm) {
    && Given(f.name) && GivenNumber(f.age) && Given(f.gender) && Given(f.dateOfBirth)
    && Given(f.email) && Given(f.password) && Given(f.phoneNumber) && Given(f.address)
  }

  /** The first check of `registerPatient` that rejects the form, as its 400 message. */
  function PatientFormError(f: PatientForm): (error: Option<string>)
    ensures error.None? <==> AllGiven(f) && IsValidEmail(f.email) && f.age.value > 0 && IsValidGender(f.gender)
    ensures !AllGiven(f) ==> error == Some("All fields are required")
  {
    if !AllGiven(f) then Some("All fields are required")
    else if !IsValidEmail(f.email) then Some("Invalid email format")
    else if f.age.value <= 0 then Some("Age must be a positive number")
    else if !IsValidGender(f.gender) then Some("Gender must be Male, Female, or Other")
    else None
  }

  /** Each attempt is six draws, as `generateUniqueId` consumes. */
  predicate AreAttempts(attempts: seq<seq<real>>) {
    forall i :: 0 <= i < |attempts| ==> |attempts[i]| == 6 && AreDraws(attempts[i])
  }

  /** Attempt `i` yields a `uniqueId` some patient already holds. */
  predicate Collides(patients: map<Id, Account>, attempts: seq<seq<real>>, i: nat)
    requires AreAttempts(attempts) && i < |attempts|
  {
    UniqueIdTaken(patients, UniqueIdFromDraws(attempts[i]))
  }

  /**
   * The `while (!isUnique)` loop: draw a code, look it up, and stop at the
   * first one no patient holds. `attempts` are the successive draws; the
   * loop ends only if one of them does not collide, which is required.
   */
  method PickUniqueId(patients: map<Id, Account>, attempts: seq<seq<real>>) returns (uniqueId: string)
    requires AreAttempts(attempts)
    requires exists i :: 0 <= i < |attempts| && !Collides(patients, attempts, i)
    ensures IsPatientCode(uniqueId) && !UniqueIdTaken(patients, uniqueId)
    ensures exists i :: 0 <= i < |attempts| && uniqueId == UniqueIdFromDraws(attempts[i]) &&
              forall j :: 0 <= j < i ==> Collides(patients, attempts, j)
  {
    var isUnique := false;
    var n := 0;
    uniqueId := "";
    while !isUnique
      invariant 0 <= n <= |attempts|
      invariant forall j :: 0 <= j < n - (if isUnique then 1 else 0) ==> Collides(patients, attempts, j)
      invariant !isUnique ==> exists i :: n <= i < |attempts| && !Collides(patients, attempts, i)
      invariant isUnique ==> 0 < n && uniqueId == UniqueIdFromDraws(attempts[n - 1]) && !Collides(patients, attempts, n - 1)
      decreases |attempts| - n, if isUnique then 0 else 1
    {
      uniqueId := UniqueIdFromDraws(attempts[n]);
      var existing := UniqueIdTaken(patients, uniqueId);
      if !existing {
        isUnique := true;
      }
      n := n + 1;
    }
  }

  /** The record `registerPatient` creates: unverified, no OTP, no reports yet. */
  function NewPatient(f: PatientForm, uniqueId: string): (a: Account)
    requires f.age.Some?
    ensures RecordOk(Patient, a) && !a.isVerified && a.refreshToken.None? && a.email == f.email
    ensures UniqueIdOf(a) == uniqueId
  {
    Account(f.email, f.password, false, None, None,
      PatientData(f.name, f.age.value, f.gender, f.dateOfBirth, f.phoneNumber, f.address, uniqueId, []))
  }

  /** What the 201 reply carries: the token pair and the `uniqueId`. */
  datatype Registration = Registration(id: Id, uniqueId: string, tokens: TokenPair)

  const Registered := "Patient registered successfully and verification email sent"

  /**
   * `registerPatient`. The new patient is stored unverified, yet its refresh
   * token is stored and both tokens are returned at once: a patient holds a
   * session before verifying. The reply is the intended 201: as written, the
   * verification mail names an unimported `nodeMailer` and throws after these
   * writes, which this model does not follow.
   */
  method RegisterPatient(db: Database, f: PatientForm, attempts: seq<seq<real>>, issuer: Issuer) returns (r: Reply<Registration>)
    requires db.Valid()
    requires AreAttempts(attempts)
    requires exists i :: 0 <= i < |attempts| && !Collides(db.patients, attempts, i)
    modifies db`patients, db`doctors, db`laboratories, db`medicals, db`nextId
    ensures db.Valid()
    ensures r.Failed? ==> db.Accounts() == old(db.Accounts()) && db.nextId == old(db.nextId)
    ensures PatientFormError(f).Some? ==> r == Failed(400, PatientFormError(f).value)
    ensures PatientFormError(f).None? && EmailTaken(old(db.patients), f.email) ==>
      r == Failed(400, "Patient already registered with this email")
    ensures PatientFormError(f).None? && !EmailTaken(old(db.patients), f.email) ==> r.Done?
    ensures r.Done? ==>
      var id := old(db.nextId);
      var u := r.value.uniqueId;
      && r.status == 201 && r.message == Registered && r.value.id == id
      && IsPatientCode(u) && !UniqueIdTaken(old(db.patients), u)
      && r.value.tokens == TokenPair(issuer.signAccess(Patient, id), issuer.signRefresh(Patient, id))
      && db.Accounts() == old(db.Accounts()).With(Patient,
           old(db.patients)[id := NewPatient(f, u).(refreshToken := Some(r.value.tokens.refreshToken))])
    ensures r.Done? ==>
      !db.patients[r.value.id].isVerified && db.patients[r.value.id].refreshToken == Some(r.value.tokens.refreshToken)
  {
    var error := PatientFormError(f);
    if error.Some? {
      return Failed(400, error.value);
    }
    var existing := FindOneByEmail(db.patients, f.email);
    if existing.Some? {
      return Failed(400, "Patient already registered with this email");
    }
    var uniqueId := PickUniqueId(db.patients, attempts);
    var record := NewPatient(f, uniqueId);
    InsertKeepsStoresOk(db.Accounts(), db.nextId, Patient, record);
    var id := db.Insert(Patient, record);
    UpdateKeepsStoresOk(db.Accounts(), db.nextId, Patient, id, record.(refreshToken := Some(issuer.signRefresh(Patient, id))));
    var tokens := GenerateAccessAndRefreshToken(db, Patient, id, issuer);
    r := Done(201, Registered, Registration(id, uniqueId, tokens.value));
  }

  /**
   * `updateVerifyStatus`: one atomic update of the patient holding
   * `uniqueId`, setting it verified. Nothing else is checked, so calling it
   * again succeeds and changes nothing more.
   */
  method VerifyPatient(db: Database, uniqueId: string) returns (r: Reply<Id>)
    requires db.Valid()
    modifies db`patients, db`doctors, db`laboratories, db`medicals
    ensures db.Valid()
    ensures r.Done? <==> UniqueIdTaken(old(db.patients), uniqueId)
    ensures r.Failed? ==> r == Failed(404, "Patient not found") && db.Accounts() == old(db.Accounts())
    ensures r.Done? ==>
      && r == Done(200, "Patient verified successfully", WithUniqueId(old(db.patients), uniqueId).value)
      && db.Accounts() == old(db.Accounts()).With(Patient, old(db.patients)[r.value := old(db.patients)[r.value].(isVerified := true)])
    ensures r.Done? ==> r.value in db.patients && db.patients[r.value].isVerified
    ensures r.Done? && old(db.patients)[r.value].isVerified ==> db.Accounts() == old(db.Accounts())
    ensures UniqueIdTaken(db.patients, uniqueId) == UniqueIdTaken(old(db.patients), uniqueId)
  {
    if !UniqueIdTaken(db.patients, uniqueId) {
      return Failed(404, "Patient not found");
    }
    var id :| id in db.patients && UniqueIdOf(db.patients[id]) == uniqueId;
    var record := db.patients[id];
    UpdateKeepsStoresOk(db.Accounts(), db.nextId, Patient, id, record.(isVerified := true));
    db.Put(Patient, id, record.(isVerified := true));
    assert UniqueIdOf(db.patients[id]) == uniqueId;
    r := Done(200, "Patient verified successfully", id);
  }

  /** Verifying a patient twice: the second call gives the same reply and changes nothing. */
  method VerifyPatientTwice(db: Database, uniqueId: string) returns (first: Reply<Id>, second: Reply<Id>)
    requires db.Valid()
    modifies db`patients, db`doctors, db`laboratories, db`medicals
    ensures db.Valid()
    ensures second == first
    ensures first.Done? ==> first.value in db.patients && db.patients[first.value].isVerified
  {
    first := VerifyPatient(db, uniqueId);
    ghost var afterFirst := db.Accounts();
    second := VerifyPatient(db, uniqueId);
    assert db.Accounts() == afterFirst;
  }
}
