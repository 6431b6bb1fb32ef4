/**
 * The laboratory controller: registration with its duplicate-field message,
 * OTP confirmation, login and logout, adding a report to a patient, and
 * reading a patient's latest prescription.
 */
module LaboratoryController {
  import opened Wrappers
  import opened Store
  import opened Tokens
  import opened Validation
  import opened Codes
  import opened Accounts

  /** The body of a registration request; an absent field is "". */
  datatype LaboratoryForm = LaboratoryForm(
    name: string, email: string, password: string, licenseNumber: string, address: string, contactNumber: string)

  /** The record `registerLaboratory` creates: unverified, holding the generated OTP. */
  function NewLaboratory(f: LaboratoryForm, otp: string): (a: Account)
    ensures RecordOk(Laboratory, a) && !a.isVerified && a.otp == Some(otp) && a.refreshToken.None? && a.email == f.email
  {
    Account(f.email, f.password, false, Some(otp), None,
      LaboratoryData(f.name, f.licenseNumber, f.contactNumber, SiteAddress(f.address)))
  }

  /** Record `a` matches one of the three identifiers of the `$or` duplicate query. */
  predicate Clashes(a: Account, f: LaboratoryForm) {
    || a.email == f.email
    || (a.payload.LaboratoryData? && a.payload.licenseNumber == f.licenseNumber)
    || (a.payload.LaboratoryData? && a.payload.contactNumber == f.contactNumber)
  }

  predicate AnyClash(m: map<Id, Account>, f: LaboratoryForm) {
    exists id :: id in m && Clashes(m[id], f)
  }

  const DuplicatePrefix := "Laboratory already registered with this "

  /**
   * `message` is the duplicate message for clashing record `a`: it names a
   * field `a` really shares with the form, preferring the contact number,
   * then the license number, then the e-mail.
   */
  predicate NamesSharedField(a: Account, f: LaboratoryForm, message: string)
    requires a.payload.LaboratoryData?
  {
    var contact := a.payload.contactNumber == f.contactNumber;
    var license := a.payload.licenseNumber == f.licenseNumber;
    && (contact ==> message == DuplicatePrefix + "contact number")
    && (!contact && license ==> message == DuplicatePrefix + "license number")
    && (!contact && !license ==> message == DuplicatePrefix + "email" && a.email == f.email)
  }

  /** Some laboratory clashing with the form is the one `message` describes. */
  predicate ExplainedBy(m: map<Id, Account>, f: LaboratoryForm, message: string) {
    exists id :: id in m && m[id].payload.LaboratoryData? && Clashes(m[id], f) && NamesSharedField(m[id], f, message)
  }

  /** The fields the 400 check demands, the address being optional. */
  predicate RequiredGiven(f: LaboratoryForm) {
    Given(f.name) && Given(f.email) && Given(f.password) && Given(f.licenseNumber) && Given(f.contactNumber)
  }

  const Registered := "Laboratory registered successfully. Please verify your account using the OTP sent to your email."

  /**
   * `registerLaboratory`. The duplicate message names the contact number if
   * the record found shares it, else the license number if it shares that,
   * else the e-mail. The duplicate query here compares the raw form values,
   * the same values the message is chosen from, so whichever field it names,
   * the record found shares it.
   */
  method RegisterLaboratory(db: Database, f: LaboratoryForm, draws: seq<real>) returns (r: Reply<Id>)
    requires db.Valid()
    requires |draws| == OtpLength && AreDraws(draws)
    modifies db`patients, db`doctors, db`laboratories, db`medicals, db`nextId
    ensures db.Valid()
    ensures r.Failed? ==> db.Accounts() == old(db.Accounts()) && db.nextId == old(db.nextId)
    ensures !RequiredGiven(f) ==> r == Failed(400, "All fields are required")
    ensures RequiredGiven(f) && !IsValidEmail(f.email) ==> r == Failed(400, "Invalid email format")
    ensures RequiredGiven(f) && IsValidEmail(f.email) && AnyClash(old(db.laboratories), f) ==>
      r.Failed? && r.status == 400 && ExplainedBy(old(db.laboratories), f, r.message)
    ensures RequiredGiven(f) && IsValidEmail(f.email) && !AnyClash(old(db.laboratories), f) ==>
      && r == Done(201, Registered, old(db.nextId))
      && db.Accounts() == old(db.Accounts()).With(Laboratory,
           old(db.laboratories)[old(db.nextId) := NewLaboratory(f, OtpFromDraws(draws))])
  {
    if !RequiredGiven(f) {
      return Failed(400, "All fields are required");
    }
    if !IsValidEmail(f.email) {
      return Failed(400, "Invalid email format");
    }
    if AnyClash(db.laboratories, f) {
      var id :| id in db.laboratories && Clashes(db.laboratories[id], f);
      var existing := db.laboratories[id];
      assert RecordOk(Laboratory, existing);
      var field := DuplicateField("license number", existing.payload.licenseNumber == f.licenseNumber,
                                  existing.payload.contactNumber == f.contactNumber);
      assert NamesSharedField(existing, f, DuplicatePrefix + field);
      return Failed(400, DuplicatePrefix + field);
    }
    var otp := GenerateOtp(draws);
    assert !EmailTaken(db.laboratories, f.email);
    InsertKeepsStoresOk(db.Accounts(), db.nextId, Laboratory, NewLaboratory(f, otp));
    var id := db.Insert(Laboratory, NewLaboratory(f, otp));
    r := Done(201, Registered, id);
  }

  /** `updateVerifyStatus`: the shared one-time OTP confirmation on the laboratory store. */
  method VerifyLaboratory(db: Database, email: string, otp: string) returns (r: Reply<Id>)
    requires db.Valid()
    modifies db`patients, db`doctors, db`laboratories, db`medicals
    ensures db.Valid()
    ensures r.Done? <==> Given(email) && Given(otp) && OtpPending(old(db.laboratories), email, otp)
    ensures r.Failed? ==> r.status == 400 && db.Accounts() == old(db.Accounts())
    ensures r.Done? ==>
      && r == Done(200, "Laboratory verified successfully", r.value)
      && r.value in old(db.laboratories)
      && db.Accounts() == old(db.Accounts()).With(Laboratory, Confirmed(old(db.laboratories), r.value))
    ensures !OtpPending(db.laboratories, email, otp) || !Given(email) || !Given(otp)
  {
    r := ConfirmOtp(db, Laboratory, email, otp, "Laboratory verified successfully");
  }

  /** Presenting a laboratory's code a second time fails with 400, whatever the first call did. */
  method VerifyLaboratoryTwice(db: Database, email: string, otp: string) returns (first: Reply<Id>, second: Reply<Id>)
    requires db.Valid()
    modifies db`patients, db`doctors, db`laboratories, db`medicals
    ensures db.Valid()
    ensures second.Failed? && second.status == 400
  {
    first := VerifyLaboratory(db, email, otp);
    second := VerifyLaboratory(db, email, otp);
  }

  const LaboratoryLogin := LoginMessages("Email and password are required", "Laboratory not found",
    "Please verify your laboratory first", "Laboratory logged in successfully")

  /** `loginLaboratory`: the shared login decision with the laboratory messages. */
  method LoginLaboratory(db: Database, email: string, password: string, checkPassword: (string, string) -> bool, issuer: Issuer)
    returns (r: Reply<TokenPair>)
    requires db.Valid()
    modifies db`patients, db`doctors, db`laboratories, db`medicals
    ensures db.Valid()
    ensures r.Failed? ==> db.Accounts() == old(db.Accounts())
    ensures !Given(email) || !Given(password) ==> r == Failed(400, "Email and password are required")
    ensures Given(email) && Given(password) && !EmailTaken(old(db.laboratories), email) ==>
      r == Failed(404, "Laboratory not found")
    ensures r.Done? ==>
      && r.status == 200
      && var id := WithEmail(old(db.laboratories), email).value;
      && old(db.laboratories)[id].isVerified && checkPassword(password, old(db.laboratories)[id].password)
      && r.value == TokenPair(issuer.signAccess(Laboratory, id), issuer.signRefresh(Laboratory, id))
      && db.laboratories == WithToken(old(db.laboratories), id, r.value.refreshToken)
  {
    r := Login(db, Laboratory, LaboratoryLogin, email, password, checkPassword, issuer);
  }

  /** `logoutLaboratory` for the laboratory the session attached: always 200. */
  method LogoutLaboratory(db: Database, laboratoryId: Id) returns (r: Reply<set<string>>)
    requires db.Valid()
    modifies db`patients, db`doctors, db`laboratories, db`medicals
    ensures db.Valid()
    ensures r == Done(200, "Laboratory logged out successfully", SessionCookies)
    ensures laboratoryId in old(db.laboratories) ==>
      db.Accounts() == old(db.Accounts()).With(Laboratory, WithoutToken(old(db.laboratories), laboratoryId))
    ensures laboratoryId !in old(db.laboratories) ==> db.Accounts() == old(db.Accounts())
  {
    r := UnconditionalLogout(db, Laboratory, laboratoryId, "Laboratory logged out successfully");
  }

  /** Patient record `a` with report `reportId` appended to its `reports` list (`$push`). */
  function WithReport(a: Account, reportId: Id): (a': Account)
    requires a.payload.PatientData?
    ensures a'.payload.PatientData? && a'.payload.reports == a.payload.reports + [reportId]
    ensures a' == a.(payload := a'.payload) && a'.payload == a.payload.(reports := a'.payload.reports)
  {
    a.(payload := a.payload.(reports := a.payload.reports + [reportId]))
  }

  /**
   * `addReport` by laboratory `laboratoryId`. `images` are the uploaded
   * report images and `now` the creation time. A new report is stored under
   * a fresh id, which is appended to the end of the patient's list.
   */
  method AddReport(db: Database, laboratoryId: Id, uniqueId: string, images: seq<Image>, now: int) returns (r: Reply<Id>)
    requires db.Valid()
    modifies db`patients, db`doctors, db`laboratories, db`medicals, db`reports, db`nextId
    ensures db.Valid()
    ensures r.Failed? ==> db.Accounts() == old(db.Accounts()) && db.reports == old(db.reports) && db.nextId == old(db.nextId)
    ensures !Given(uniqueId) ==> r == Failed(400, "Patient unique ID is required")
    ensures Given(uniqueId) && images == [] ==> r == Failed(400, "Report images are required")
    ensures Given(uniqueId) && images != [] && !UniqueIdTaken(old(db.patients), uniqueId) ==> r == Failed(404, "Patient not found")
    ensures r.Done? ==>
      && r == Done(201, "Report added successfully", old(db.nextId))
      && UniqueIdTaken(old(db.patients), uniqueId)
      && var pid := WithUniqueId(old(db.patients), uniqueId).value;
      && db.reports == old(db.reports)[r.value := Report(laboratoryId, pid, images, now)]
      && db.Accounts() == old(db.Accounts()).With(Patient, old(db.patients)[pid := WithReport(old(db.patients)[pid], r.value)])
    ensures Given(uniqueId) && images != [] && UniqueIdTaken(old(db.patients), uniqueId) ==> r.Done?
  {
    if !Given(uniqueId) {
      return Failed(400, "Patient unique ID is required");
    }
    if images == [] {
      return Failed(400, "Report images are required");
    }
    if !UniqueIdTaken(db.patients, uniqueId) {
      return Failed(404, "Patient not found");
    }
    var pid :| pid in db.patients && UniqueIdOf(db.patients[pid]) == uniqueId;
    var reportId := db.InsertReport(Report(laboratoryId, pid, images, now));
    var patient := db.patients[pid];
    StoresOkWeaken(db.Accounts(), reportId, db.nextId);
    UpdateKeepsStoresOk(db.Accounts(), db.nextId, Patient, pid, WithReport(patient, reportId));
    db.Put(Patient, pid, WithReport(patient, reportId));
    r := Done(201, "Report added successfully", reportId);
  }

  /**
   * The index of patient `pid`'s latest prescription in `ps` (greatest
   * `createdAt`; the earliest stored on a tie), or `None` when the patient
   * has none.
   */
  function Latest(ps: seq<Prescription>, pid: Id): (i: Option<nat>)
    ensures i.None? <==> forall j :: 0 <= j < |ps| ==> ps[j].patientId != pid
    ensures i.Some? ==> i.value < |ps| && ps[i.value].patientId == pid
    ensures i.Some? ==> forall j :: 0 <= j < |ps| && ps[j].patientId == pid ==> ps[j].createdAt <= ps[i.value].createdAt
    ensures i.Some? ==> forall j :: 0 <= j < i.value && ps[j].patientId == pid ==> ps[j].createdAt < ps[i.value].createdAt
    decreases |ps|
  {
    if ps == [] then None
    else
      var rest := Latest(ps[..|ps| - 1], pid);
      var last := ps[|ps| - 1];
      if last.patientId != pid then rest
      else if rest.Some? && last.createdAt <= ps[rest.value].createdAt then rest
      else Some(|ps| - 1)
  }

  /**
   * `getPrescriptionsByUniqueId`: the patient's prescription with the
   * greatest `createdAt`, or 404 when the patient has none.
   */
  method GetPrescriptionsByUniqueId(db: Database, uniqueId: string) returns (r: Reply<Prescription>)
    requires db.Valid()
    ensures !Given(uniqueId) ==> r == Failed(400, "Patient unique ID is required")
    ensures Given(uniqueId) && !UniqueIdTaken(db.patients, uniqueId) ==> r == Failed(404, "Patient not found")
    ensures Given(uniqueId) && UniqueIdTaken(db.patients, uniqueId) ==>
      var pid := WithUniqueId(db.patients, uniqueId).value;
      && (Latest(db.prescriptions, pid).None? ==> r == Failed(404, "No prescriptions found for this patient"))
      && (Latest(db.prescriptions, pid).Some? ==>
            r == Done(200, "Latest prescription retrieved successfully", db.prescriptions[Latest(db.prescriptions, pid).value]))
  {
    if !Given(uniqueId) {
      return Failed(400, "Patient unique ID is required");
    }
    if !UniqueIdTaken(db.patients, uniqueId) {
      return Failed(404, "Patient not found");
    }
    var pid :| pid in db.patients && UniqueIdOf(db.patients[pid]) == uniqueId;
    var i := Latest(db.prescriptions, pid);
    if i.None? {
      return Failed(404, "No prescriptions found for this patient");
    }
    r := Done(200, "Latest prescription retrieved successfully", db.prescriptions[i.value]);
  }
}
