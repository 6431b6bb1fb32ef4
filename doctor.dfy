/**
 * The doctor controller: registration checks and creation, OTP
 * verification, login and logout, the appointment status update, and the
 * rule that lets a doctor read a patient's record.
 */
module DoctorController {
  import opened Wrappers
  import opened Store
  import opened Tokens
  import opened Validation
  import opened Codes
  import opened Accounts

  /** The body of a registration request; an absent text field is "", an absent number `None`. */
  datatype DoctorForm = DoctorForm(
    name: string, age: Option<int>, gender: string, email: string, password: string,
    phoneNumber: string, address: string, specialization: string, qualification: string,
    experience: Option<int>, licenseNumber: string)

  /** Every field of the form is truthy in the JavaScript sense. */
  predicate AllGiven(f: DoctorForm) {
    && Given(f.name) && GivenNumber(f.age) && Given(f.gender) && Given(f.email) && Given(f.password)
    && Given(f.phoneNumber) && Given(f.address) && Given(f.specialization) && Given(f.qualification)
    && GivenNumber(f.experience) && Given(f.licenseNumber)
  }

  /** The first check of `registerDoctor` that rejects the form, as its 400 message. */
  function DoctorFormError(f: DoctorForm): (error: Option<string>)
    ensures error.None? <==>
      AllGiven(f) && IsValidEmail(f.email) && f.age.value > 0 && IsValidGender(f.gender) && f.experience.value > 0
    ensures !AllGiven(f) ==> error == Some("All fields are required")
  {
    if !AllGiven(f) then Some("All fields are required")
    else if !IsValidEmail(f.email) then Some("Invalid email format")
    else if f.age.value <= 0 then Some("Age must be a positive number")
    else if !IsValidGender(f.gender) then Some("Gender must be Male, Female, or Other")
    else if f.experience.value < 0 then Some("Experience cannot be negative")
    else None
  }

  /**
   * Because `!experience` already rejects 0, a doctor with no experience is
   * told a field is missing, and only negative values reach the
   * "cannot be negative" check.
   */
  lemma ZeroExperienceIsMissing(f: DoctorForm)
    requires f.experience == Some(0)
    ensures DoctorFormError(f) == Some("All fields are required")
  {
  }

  /** The same holds for age 0, which never reaches the "positive number" check. */
  lemma ZeroAgeIsMissing(f: DoctorForm)
    requires f.age == Some(0)
    ensures DoctorFormError(f) == Some("All fields are required")
  {
  }

  /** What the 201 reply carries besides the record: the OTP itself. */
  datatype Registration = Registration(id: Id, otp: string)

  /** The record `registerDoctor` creates for an accepted form and a generated code. */
  function NewDoctor(f: DoctorForm, otp: string): (a: Account)
    requires f.age.Some? && f.experience.Some?
    ensures RecordOk(Doctor, a) && !a.isVerified && a.otp == Some(otp) && a.refreshToken.None? && a.email == f.email
  {
    Account(f.email, f.password, false, Some(otp), None,
      DoctorData(f.name, f.age.value, f.gender, f.phoneNumber, f.address, f.specialization,
                 f.qualification, f.experience.value, f.licenseNumber))
  }

  const Registered := "Doctor registered successfully. Please verify your account using the OTP sent to your email."

  /**
   * `registerDoctor`: the form checks, then the e-mail duplicate check, then
   * a new unverified doctor holding the generated OTP. The reply carries the
   * OTP as well.
   */
  method RegisterDoctor(db: Database, f: DoctorForm, draws: seq<real>) returns (r: Reply<Registration>)
    requires db.Valid()
    requires |draws| == OtpLength && AreDraws(draws)
    modifies db`patients, db`doctors, db`laboratories, db`medicals, db`nextId
    ensures db.Valid()
    ensures r.Failed? ==> db.Accounts() == old(db.Accounts()) && db.nextId == old(db.nextId)
    ensures DoctorFormError(f).Some? ==> r == Failed(400, DoctorFormError(f).value)
    ensures DoctorFormError(f).None? && EmailTaken(old(db.doctors), f.email) ==>
      r == Failed(400, "Doctor already registered with this email")
    ensures DoctorFormError(f).None? && !EmailTaken(old(db.doctors), f.email) ==>
      && r == Done(201, Registered, Registration(old(db.nextId), OtpFromDraws(draws)))
      && db.Accounts() == old(db.Accounts()).With(Doctor, old(db.doctors)[old(db.nextId) := NewDoctor(f, OtpFromDraws(draws))])
    ensures r.Done? ==> IsOtp(r.value.otp) && r.value.id !in old(db.doctors) && db.doctors[r.value.id].otp == Some(r.value.otp)
  {
    var error := DoctorFormError(f);
    if error.Some? {
      return Failed(400, error.value);
    }
    var existing := FindOneByEmail(db.doctors, f.email);
    if existing.Some? {
      return Failed(400, "Doctor already registered with this email");
    }
    var otp := GenerateOtp(draws);
    InsertKeepsStoresOk(db.Accounts(), db.nextId, Doctor, NewDoctor(f, otp));
    var id := db.Insert(Doctor, NewDoctor(f, otp));
    r := Done(201, Registered, Registration(id, otp));
  }

  /** Some doctor's stored OTP is `otp`. */
  predicate HoldsOtp(m: map<Id, Account>, otp: string) {
    exists id :: id in m && m[id].otp == Some(otp)
  }

  /**
   * `updateVerifyStatus`: one atomic update of some doctor whose OTP is the
   * given code, setting it verified. The OTP is left in place, so the same
   * code keeps succeeding; when two doctors drew the same code, either may
   * be the one marked.
   */
  method VerifyDoctor(db: Database, otp: string) returns (r: Reply<Id>)
    requires db.Valid()
    modifies db`patients, db`doctors, db`laboratories, db`medicals
    ensures db.Valid()
    ensures r.Done? <==> HoldsOtp(old(db.doctors), otp)
    ensures r.Failed? ==> r == Failed(404, "Doctor not found") && db.Accounts() == old(db.Accounts())
    ensures r.Done? ==>
      && r == Done(200, "Doctor verified successfully", r.value)
      && r.value in old(db.doctors) && old(db.doctors)[r.value].otp == Some(otp)
      && db.Accounts() == old(db.Accounts()).With(Doctor, old(db.doctors)[r.value := old(db.doctors)[r.value].(isVerified := true)])
    ensures HoldsOtp(db.doctors, otp) == HoldsOtp(old(db.doctors), otp)
  {
    if !HoldsOtp(db.doctors, otp) {
      return Failed(404, "Doctor not found");
    }
    var id :| id in db.doctors && db.doctors[id].otp == Some(otp);
    var record := db.doctors[id];
    UpdateKeepsStoresOk(db.Accounts(), db.nextId, Doctor, id, record.(isVerified := true));
    db.Put(Doctor, id, record.(isVerified := true));
    assert db.doctors[id].otp == Some(otp);
    r := Done(200, "Doctor verified successfully", id);
  }

  /** Presenting a doctor's code a second time succeeds again. */
  method VerifyDoctorTwice(db: Database, otp: string) returns (first: Reply<Id>, second: Reply<Id>)
    requires db.Valid()
    modifies db`patients, db`doctors, db`laboratories, db`medicals
    ensures db.Valid()
    ensures first.Done? <==> second.Done?
  {
    first := VerifyDoctor(db, otp);
    second := VerifyDoctor(db, otp);
  }

  const DoctorLogin := LoginMessages("All fields are required", "Doctor not found",
    "Please verify your account first", "Doctor logged in successfully")

  /** `loginDoctor`: the shared login decision on the doctor store with the doctor messages. */
  method LoginDoctor(db: Database, email: string, password: string, checkPassword: (string, string) -> bool, issuer: Issuer)
    returns (r: Reply<TokenPair>)
    requires db.Valid()
    modifies db`patients, db`doctors, db`laboratories, db`medicals
    ensures db.Valid()
    ensures r.Failed? ==> db.Accounts() == old(db.Accounts())
    ensures !Given(email) || !Given(password) ==> r == Failed(400, "All fields are required")
    ensures Given(email) && Given(password) && !EmailTaken(old(db.doctors), email) ==> r == Failed(404, "Doctor not found")
    ensures r.Done? ==>
      && r.status == 200
      && var id := WithEmail(old(db.doctors), email).value;
      && old(db.doctors)[id].isVerified && checkPassword(password, old(db.doctors)[id].password)
      && r.value == TokenPair(issuer.signAccess(Doctor, id), issuer.signRefresh(Doctor, id))
      && db.doctors == WithToken(old(db.doctors), id, r.value.refreshToken)
  {
    r := Login(db, Doctor, DoctorLogin, email, password, checkPassword, issuer);
  }

  /** `logoutDoctor` for the doctor the session attached. */
  method LogoutDoctor(db: Database, doctorId: Id) returns (r: Reply<set<string>>)
    requires db.Valid()
    modifies db`patients, db`doctors, db`laboratories, db`medicals
    ensures db.Valid()
    ensures doctorId !in old(db.doctors) ==> r == Failed(404, "Doctor not found") && db.Accounts() == old(db.Accounts())
    ensures doctorId in old(db.doctors) && Truthy(old(db.doctors)[doctorId].refreshToken) ==>
      r == Done(200, "Doctor logged out successfully", SessionCookies)
      && db.Accounts() == old(db.Accounts()).With(Doctor, WithoutToken(old(db.doctors), doctorId))
    ensures doctorId in old(db.doctors) && !Truthy(old(db.doctors)[doctorId].refreshToken) ==>
      r == Done(200, NoSession, SessionCookies) && db.Accounts() == old(db.Accounts())
  {
    r := ConditionalLogout(db, Doctor, doctorId, "Doctor not found", "Doctor logged out successfully");
  }

  /** The appointment after the doctor's decision: accepted exactly when the status is "accepted". */
  function Decided(a: Appointment, status: string, time: string): (a': Appointment)
    ensures a'.isaccepted <==> status == "accepted"
    ensures a'.time == Some(time) && a'.patientId == a.patientId && a'.doctorId == a.doctorId && a'.date == a.date
  {
    a.(isaccepted := status == "accepted", time := Some(time))
  }

  /**
   * `updateAppointmentStatus` by doctor `doctorId`. `mailDelivered` is whether
   * the confirmation e-mail sent for an acceptance went out; the update is
   * stored before that e-mail is attempted.
   */
  method UpdateAppointmentStatus(db: Database, doctorId: Id, appointmentId: Option<Id>, status: string, time: string,
                                 mailDelivered: bool) returns (r: Reply<Appointment>)
    modifies db`appointments
    ensures appointmentId.None? || !Given(time) || !Given(status) ==>
      r == Failed(400, "Appointment ID, status and time are required") && db.appointments == old(db.appointments)
    ensures appointmentId.Some? && Given(time) && Given(status) ==>
      var id := appointmentId.value;
      && (id !in old(db.appointments) ==> r == Failed(404, "Appointment not found") && db.appointments == old(db.appointments))
      && (id in old(db.appointments) && old(db.appointments)[id].doctorId != doctorId ==>
            r == Failed(403, "Unauthorized to update this appointment") && db.appointments == old(db.appointments))
      && (id in old(db.appointments) && old(db.appointments)[id].doctorId == doctorId ==>
            && db.appointments == old(db.appointments)[id := Decided(old(db.appointments)[id], status, time)]
            && (status == "accepted" && !mailDelivered ==>
                  r == Failed(500, "Appointment updated but failed to send confirmation email"))
            && (status != "accepted" || mailDelivered ==>
                  r == Done(200, "Appointment status updated successfully", db.appointments[id])))
    ensures db.appointments != old(db.appointments) ==>
      appointmentId.Some? && appointmentId.value in old(db.appointments) && old(db.appointments)[appointmentId.value].doctorId == doctorId
  {
    if appointmentId.None? || !Given(time) || !Given(status) {
      return Failed(400, "Appointment ID, status and time are required");
    }
    var id := appointmentId.value;
    if id !in db.appointments {
      return Failed(404, "Appointment not found");
    }
    var appointment := db.appointments[id];
    if appointment.doctorId != doctorId {
      return Failed(403, "Unauthorized to update this appointment");
    }
    var updated := Decided(appointment, status, time);
    db.PutAppointment(id, updated);
    if status == "accepted" && !mailDelivered {
      return Failed(500, "Appointment updated but failed to send confirmation email");
    }
    r := Done(200, "Appointment status updated successfully", updated);
  }

  /** Some accepted appointment links doctor `doctorId` and patient `patientId`. */
  predicate MayView(appointments: map<Id, Appointment>, doctorId: Id, patientId: Id) {
    exists a :: a in appointments && appointments[a].doctorId == doctorId
      && appointments[a].patientId == patientId && appointments[a].isaccepted
  }

  /**
   * `getPatientByUniqueId` for doctor `doctorId`: a doctor sees a patient's
   * record exactly when an accepted appointment links the two.
   */
  method GetPatientByUniqueId(db: Database, doctorId: Id, uniqueId: string) returns (r: Reply<Account>)
    requires db.Valid()
    ensures !Given(uniqueId) ==> r == Failed(400, "Patient unique ID is required")
    ensures Given(uniqueId) && !UniqueIdTaken(db.patients, uniqueId) ==> r == Failed(404, "Patient not found")
    ensures Given(uniqueId) && UniqueIdTaken(db.patients, uniqueId) ==>
      var pid := WithUniqueId(db.patients, uniqueId).value;
      && (!MayView(db.appointments, doctorId, pid) ==> r == Failed(403, "No accepted appointment exists with this patient"))
      && (MayView(db.appointments, doctorId, pid) ==> r == Done(200, "Patient details retrieved successfully", db.patients[pid]))
  {
    if !Given(uniqueId) {
      return Failed(400, "Patient unique ID is required");
    }
    if !UniqueIdTaken(db.patients, uniqueId) {
      return Failed(404, "Patient not found");
    }
    var pid :| pid in db.patients && UniqueIdOf(db.patients[pid]) == uniqueId;
    if !MayView(db.appointments, doctorId, pid) {
      return Failed(403, "No accepted appointment exists with this patient");
    }
    r := Done(200, "Patient details retrieved successfully", db.patients[pid]);
  }
}
