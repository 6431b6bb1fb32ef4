/**
 * The medical-center controller: registration with its duplicate-field
 * message, OTP confirmation, login and logout.
 */
module MedicalController {
  import opened Wrappers
  import opened Store
  import opened Tokens
  import opened Validation
  import opened Codes
  import opened Accounts

  /** The body of a registration request; an absent field is "". */
  datatype MedicalForm = MedicalForm(
    name: string, email: string, password: string, businessNo: string, address: string, contactNumber: string)

  /** The record `registerMedical` creates: unverified, holding the generated OTP. */
  function NewMedical(f: MedicalForm, otp: string): (a: Account)
    ensures RecordOk(Medical, a) && !a.isVerified && a.otp == Some(otp) && a.refreshToken.None? && a.email == f.email
  {
    Account(f.email, f.password, false, Some(otp), None,
      MedicalData(f.name, f.businessNo, f.contactNumber, SiteAddress(f.address)))
  }

  /** Record `a` matches one of the three identifiers of the `$or` duplicate query. */
  predicate Clashes(a: Account, f: MedicalForm) {
    || a.email == f.email
    || (a.payload.MedicalData? && a.payload.businessNo == f.businessNo)
    || (a.payload.MedicalData? && a.payload.contactNumber == f.contactNumber)
  }

  predicate AnyClash(m: map<Id, Account>, f: MedicalForm) {
    exists id :: id in m && Clashes(m[id], f)
  }

  const DuplicatePrefix := "Medical center already registered with this "

  /**
   * `message` is the duplicate message for clashing record `a`: it names a
   * field `a` really shares with the form, preferring the contact number,
   * then the business number, then the e-mail.
   */
  predicate NamesSharedField(a: Account, f: MedicalForm, message: string)
    requires a.payload.MedicalData?
  {
    var contact := a.payload.contactNumber == f.contactNumber;
    var business := a.payload.businessNo == f.businessNo;
    && (contact ==> message == DuplicatePrefix + "contact number")
    && (!contact && business ==> message == DuplicatePrefix + "business number")
    && (!contact && !business ==> message == DuplicatePrefix + "email" && a.email == f.email)
  }

  /** Some medical center clashing with the form is the one `message` describes. */
  predicate ExplainedBy(m: map<Id, Account>, f: MedicalForm, message: string) {
    exists id :: id in m && m[id].payload.MedicalData? && Clashes(m[id], f) && NamesSharedField(m[id], f, message)
  }

  /** The fields the 400 check demands, the address being optional. */
  predicate RequiredGiven(f: MedicalForm) {
    Given(f.name) && Given(f.email) && Given(f.password) && Given(f.businessNo) && Given(f.contactNumber)
  }

  const Registered := "Medical center registered successfully. Please verify your account using the OTP sent to your email."

  /** `registerMedical`: the same steps as the laboratory registration, on the medical store. */
  method RegisterMedical(db: Database, f: MedicalForm, draws: seq<real>) returns (r: Reply<Id>)
    requires db.Valid()
    requires |draws| == OtpLength && AreDraws(draws)
    modifies db`patients, db`doctors, db`laboratories, db`medicals, db`nextId
    ensures db.Valid()
    ensures r.Failed? ==> db.Accounts() == old(db.Accounts()) && db.nextId == old(db.nextId)
    ensures !RequiredGiven(f) ==> r == Failed(400, "All fields are required")
    ensures RequiredGiven(f) && !IsValidEmail(f.email) ==> r == Failed(400, "Invalid email format")
    ensures RequiredGiven(f) && IsValidEmail(f.email) && AnyClash(old(db.medicals), f) ==>
      r.Failed? && r.status == 400 && ExplainedBy(old(db.medicals), f, r.message)
    ensures RequiredGiven(f) && IsValidEmail(f.email) && !AnyClash(old(db.medicals), f) ==>
      && r == Done(201, Registered, old(db.nextId))
      && db.Accounts() == old(db.Accounts()).With(Medical, old(db.medicals)[old(db.nextId) := NewMedical(f, OtpFromDraws(draws))])
  {
    if !RequiredGiven(f) {
      return Failed(400, "All fields are required");
    }
    if !IsValidEmail(f.email) {
      return Failed(400, "Invalid email format");
    }
    if AnyClash(db.medicals, f) {
      var id :| id in db.medicals && Clashes(db.medicals[id], f);
      var existing := db.medicals[id];
      assert RecordOk(Medical, existing);
      var field := DuplicateField("business number", existing.payload.businessNo == f.businessNo,
                                  existing.payload.contactNumber == f.contactNumber);
      assert NamesSharedField(existing, f, DuplicatePrefix + field);
      return Failed(400, DuplicatePrefix + field);
    }
    var otp := GenerateOtp(draws);
    assert !EmailTaken(db.medicals, f.email);
    InsertKeepsStoresOk(db.Accounts(), db.nextId, Medical, NewMedical(f, otp));
    var id := db.Insert(Medical, NewMedical(f, otp));
    r := Done(201, Registered, id);
  }

  /** `updateVerifyStatus`: the shared one-time OTP confirmation on the medical store. */
  method VerifyMedical(db: Database, email: string, otp: string) returns (r: Reply<Id>)
    requires db.Valid()
    modifies db`patients, db`doctors, db`laboratories, db`medicals
    ensures db.Valid()
    ensures r.Done? <==> Given(email) && Given(otp) && OtpPending(old(db.medicals), email, otp)
    ensures r.Failed? ==> r.status == 400 && db.Accounts() == old(db.Accounts())
    ensures r.Done? ==>
      && r == Done(200, "Medical center verified successfully", r.value)
      && r.value in old(db.medicals)
      && db.Accounts() == old(db.Accounts()).With(Medical, Confirmed(old(db.medicals), r.value))
    ensures !OtpPending(db.medicals, email, otp) || !Given(email) || !Given(otp)
  {
    r := ConfirmOtp(db, Medical, email, otp, "Medical center verified successfully");
  }

  /** Presenting a medical center's code a second time fails with 400, whatever the first call did. */
  method VerifyMedicalTwice(db: Database, email: string, otp: string) returns (first: Reply<Id>, second: Reply<Id>)
    requires db.Valid()
    modifies db`patients, db`doctors, db`laboratories, db`medicals
    ensures db.Valid()
    ensures second.Failed? && second.status == 400
  {
    first := VerifyMedical(db, email, otp);
    second := VerifyMedical(db, email, otp);
  }

  const MedicalLogin := LoginMessages("Email and password are required", "Medical center not found",
    "Please verify your center first", "Medical center logged in successfully")

  /** `loginMedical`: the shared login decision with the medical-center messages. */
  method LoginMedical(db: Database, email: string, password: string, checkPassword: (string, string) -> bool, issuer: Issuer)
    returns (r: Reply<TokenPair>)
    requires db.Valid()
    modifies db`patients, db`doctors, db`laboratories, db`medicals
    ensures db.Valid()
    ensures r.Failed? ==> db.Accounts() == old(db.Accounts())
    ensures !Given(email) || !Given(password) ==> r == Failed(400, "Email and password are required")
    ensures Given(email) && Given(password) && !EmailTaken(old(db.medicals), email) ==>
      r == Failed(404, "Medical center not found")
    ensures r.Done? ==>
      && r.status == 200
      && var id := WithEmail(old(db.medicals), email).value;
      && old(db.medicals)[id].isVerified && checkPassword(password, old(db.medicals)[id].password)
      && r.value == TokenPair(issuer.signAccess(Medical, id), issuer.signRefresh(Medical, id))
      && db.medicals == WithToken(old(db.medicals), id, r.value.refreshToken)
  {
    r := Login(db, Medical, MedicalLogin, email, password, checkPassword, issuer);
  }

  /** `logoutMedical` for the medical center the session attached. */
  method LogoutMedical(db: Database, medicalId: Id) returns (r: Reply<set<string>>)
    requires db.Valid()
    modifies db`patients, db`doctors, db`laboratories, db`medicals
    ensures db.Valid()
    ensures medicalId !in old(db.medicals) ==> r == Failed(404, "Medical center not found") && db.Accounts() == old(db.Accounts())
    ensures medicalId in old(db.medicals) && Truthy(old(db.medicals)[medicalId].refreshToken) ==>
      r == Done(200, "Medical center logged out successfully", SessionCookies)
      && db.Accounts() == old(db.Accounts()).With(Medical, WithoutToken(old(db.medicals), medicalId))
    ensures medicalId in old(db.medicals) && !Truthy(old(db.medicals)[medicalId].refreshToken) ==>
      r == Done(200, NoSession, SessionCookies) && db.Accounts() == old(db.Accounts())
  {
    r := ConditionalLogout(db, Medical, medicalId, "Medical center not found", "Medical center logged out successfully");
  }
}
