/**
 * The credential stores and the other collections the core touches, held by
 * one `Database` object whose fields the handlers update in place. Each
 * principal store maps an id to an `Account`: the fields the session logic
 * reads (`email`, `isVerified`, `otp`, `refreshToken`) plus a kind-specific
 * payload it does not interpret.
 */
module Store {
  import opened Wrappers

  /** An object id. The database hands out fresh ones from `Database.nextId`. */
  type Id = nat

  /** The four principal kinds, in the order the middleware probes their stores. */
  datatype Kind = Patient | Doctor | Laboratory | Medical

  /** The laboratory and medical address: `{}` when the request gave none. */
  datatype Address = EmptyAddress | GivenAddress(text: string)

  /** `address || {}`: an absent (or empty) address is stored as the empty object. */
  function SiteAddress(address: string): (a: Address)
    ensures a.EmptyAddress? <==> address == ""
    ensures a.GivenAddress? ==> a.text == address
  {
    if address != "" then GivenAddress(address) else EmptyAddress
  }

  datatype Image = Image(url: string, fileId: string)

  datatype Payload =
    | PatientData(name: string, age: int, gender: string, dateOfBirth: string, phoneNumber: string,
                  address: string, uniqueId: string, reports: seq<Id>)
    | DoctorData(name: string, age: int, gender: string, phoneNumber: string, address: string,
                 specialization: string, qualification: string, experience: int, licenseNumber: string)
    | LaboratoryData(name: string, licenseNumber: string, contactNumber: string, siteAddress: Address)
    | MedicalData(name: string, businessNo: string, contactNumber: string, siteAddress: Address)

  function KindOf(p: Payload): Kind {
    match p
    case PatientData(_, _, _, _, _, _, _, _) => Patient
    case DoctorData(_, _, _, _, _, _, _, _, _) => Doctor
    case LaboratoryData(_, _, _, _) => Laboratory
    case MedicalData(_, _, _, _) => Medical
  }

  /**
   * A principal record. `password` stands for the stored bcrypt hash, which
   * is only ever compared through an oracle. `otp` and `refreshToken` are
   * `None` when the field is null or unset.
   */
  datatype Account = Account(
    email: string,
    password: string,
    isVerified: bool,
    otp: Option<string>,
    refreshToken: Option<string>,
    payload: Payload)

  datatype Appointment = Appointment(patientId: Id, doctorId: Id, date: string, time: Option<string>, isaccepted: bool)

  datatype Prescription = Prescription(patientId: Id, doctorId: Id, prescriptionImage: seq<Image>, createdAt: int)

  datatype Report = Report(laboratoryId: Id, patientId: Id, reportImage: seq<Image>, createdAt: int)

  /** The four principal stores as one value, for stating what an operation did to them. */
  datatype Stores = Stores(
    patients: map<Id, Account>,
    doctors: map<Id, Account>,
    laboratories: map<Id, Account>,
    medicals: map<Id, Account>)
  {
    function Of(k: Kind): map<Id, Account> {
      match k
      case Patient => patients
      case Doctor => doctors
      case Laboratory => laboratories
      case Medical => medicals
    }

    /** These stores with store `k` replaced by `m`. */
    function With(k: Kind, m: map<Id, Account>): (s: Stores)
      ensures s.Of(k) == m && forall k' :: k' != k ==> s.Of(k') == Of(k')
    {
      match k
      case Patient => this.(patients := m)
      case Doctor => this.(doctors := m)
      case Laboratory => this.(laboratories := m)
      case Medical => this.(medicals := m)
    }
  }

  /** The patient's `uniqueId`; "" for a record of another kind. */
  function UniqueIdOf(a: Account): string {
    if a.payload.PatientData? then a.payload.uniqueId else ""
  }

  /** Some record of `m` holds `email`. */
  predicate EmailTaken(m: map<Id, Account>, email: string) {
    exists id :: id in m && m[id].email == email
  }

  /** Some patient holds `uniqueId`. */
  predicate UniqueIdTaken(patients: map<Id, Account>, uniqueId: string) {
    exists id :: id in patients && UniqueIdOf(patients[id]) == uniqueId
  }

  /** The patient holding `uniqueId`: at most one, with unique ids distinct. */
  ghost function WithUniqueId(patients: map<Id, Account>, uniqueId: string): (found: Option<Id>)
    requires UniqueIdsDistinct(patients)
    ensures found.None? <==> !UniqueIdTaken(patients, uniqueId)
    ensures found.Some? ==> found.value in patients && UniqueIdOf(patients[found.value]) == uniqueId
    ensures forall id :: id in patients && UniqueIdOf(patients[id]) == uniqueId ==> found == Some(id)
  {
    if UniqueIdTaken(patients, uniqueId) then
      var id :| id in patients && UniqueIdOf(patients[id]) == uniqueId; Some(id)
    else None
  }

  /**
   * What every record of store `k` satisfies: its payload is of kind `k`;
   * patients carry no OTP; a doctor, laboratory or medical center holds a
   * refresh token only once verified; a laboratory or medical center is
   * verified exactly when its OTP has been consumed.
   */
  predicate RecordOk(k: Kind, a: Account) {
    && KindOf(a.payload) == k
    && (k == Patient ==> a.otp.None?)
    && (k != Patient && a.refreshToken.Some? ==> a.isVerified)
    && ((k == Laboratory || k == Medical) ==> (a.isVerified <==> a.otp.None?))
  }

  predicate EmailsDistinct(m: map<Id, Account>) {
    forall i, j :: i in m && j in m && m[i].email == m[j].email ==> i == j
  }

  predicate UniqueIdsDistinct(m: map<Id, Account>) {
    forall i, j :: i in m && j in m && UniqueIdOf(m[i]) == UniqueIdOf(m[j]) ==> i == j
  }

  /** Store `k` is well formed and all its ids were issued below `bound`. */
  predicate StoreOk(k: Kind, m: map<Id, Account>, bound: Id) {
    && (forall id :: id in m ==> id < bound && RecordOk(k, m[id]))
    && EmailsDistinct(m)
  }

  /** No id belongs to two stores. */
  predicate Disjoint(s: Stores) {
    && s.patients.Keys !! s.doctors.Keys
    && s.patients.Keys !! s.laboratories.Keys
    && s.patients.Keys !! s.medicals.Keys
    && s.doctors.Keys !! s.laboratories.Keys
    && s.doctors.Keys !! s.medicals.Keys
    && s.laboratories.Keys !! s.medicals.Keys
  }

  lemma StoreOkWeaken(k: Kind, m: map<Id, Account>, bound: Id, bound': Id)
    requires StoreOk(k, m, bound) && bound <= bound'
    ensures StoreOk(k, m, bound')
  {
  }

  /** Replacing one record by a well-formed one with the same e-mail keeps the store well formed. */
  lemma UpdateKeepsStoreOk(k: Kind, m: map<Id, Account>, bound: Id, id: Id, a: Account)
    requires StoreOk(k, m, bound) && id in m && RecordOk(k, a) && a.email == m[id].email
    ensures StoreOk(k, m[id := a], bound)
  {
    var m' := m[id := a];
    forall i, j | i in m' && j in m' && m'[i].email == m'[j].email ensures i == j {
      assert m'[i].email == m[i].email && m'[j].email == m[j].email;
    }
  }

  /** Adding a well-formed record with a fresh id and an unused e-mail keeps the store well formed. */
  lemma InsertKeepsStoreOk(k: Kind, m: map<Id, Account>, bound: Id, a: Account)
    requires StoreOk(k, m, bound) && RecordOk(k, a) && !EmailTaken(m, a.email)
    ensures StoreOk(k, m[bound := a], bound + 1)
  {
    var m' := m[bound := a];
    forall i, j | i in m' && j in m' && m'[i].email == m'[j].email ensures i == j {
      if i != bound && j != bound {
        assert m'[i] == m[i] && m'[j] == m[j];
      }
    }
  }

  lemma UpdateKeepsUniqueIds(m: map<Id, Account>, id: Id, a: Account)
    requires UniqueIdsDistinct(m) && id in m && UniqueIdOf(a) == UniqueIdOf(m[id])
    ensures UniqueIdsDistinct(m[id := a])
  {
    var m' := m[id := a];
    forall i, j | i in m' && j in m' && UniqueIdOf(m'[i]) == UniqueIdOf(m'[j]) ensures i == j {
      assert UniqueIdOf(m'[i]) == UniqueIdOf(m[i]) && UniqueIdOf(m'[j]) == UniqueIdOf(m[j]);
    }
  }

  /** `m` with record `id`'s refresh token removed. */
  function WithoutToken(m: map<Id, Account>, id: Id): (m': map<Id, Account>)
    requires id in m
    ensures m'.Keys == m.Keys
    ensures m'[id].refreshToken.None? && m'[id] == m[id].(refreshToken := m'[id].refreshToken)
    ensures forall i :: i in m && i != id ==> m'[i] == m[i]
  {
    m[id := m[id].(refreshToken := None)]
  }

  lemma ClearTokenKeepsStoreOk(k: Kind, m: map<Id, Account>, bound: Id, id: Id)
    requires StoreOk(k, m, bound) && id in m
    ensures StoreOk(k, WithoutToken(m, id), bound)
  {
    UpdateKeepsStoreOk(k, m, bound, id, m[id].(refreshToken := None));
  }

  lemma ClearTokenKeepsUniqueIds(m: map<Id, Account>, id: Id)
    requires UniqueIdsDistinct(m) && id in m
    ensures UniqueIdsDistinct(WithoutToken(m, id))
  {
    UpdateKeepsUniqueIds(m, id, m[id].(refreshToken := None));
  }

  /**
   * The four stores well formed: every record fits its kind, ids come from
   * below `bound` and are never shared across kinds, emails are distinct
   * within a kind and patient `uniqueId`s are distinct.
   */
  predicate StoresOk(s: Stores, bound: Id) {
    && StoreOk(Patient, s.patients, bound)
    && StoreOk(Doctor, s.doctors, bound)
    && StoreOk(Laboratory, s.laboratories, bound)
    && StoreOk(Medical, s.medicals, bound)
    && Disjoint(s)
    && UniqueIdsDistinct(s.patients)
  }

  /**
   * Rewriting one record in place with a well-formed record that keeps its
   * e-mail and `uniqueId` keeps the stores well formed.
   */
  lemma UpdateKeepsStoresOk(s: Stores, bound: Id, k: Kind, id: Id, a: Account)
    requires StoresOk(s, bound) && id in s.Of(k) && RecordOk(k, a)
    requires a.email == s.Of(k)[id].email && UniqueIdOf(a) == UniqueIdOf(s.Of(k)[id])
    ensures StoresOk(s.With(k, s.Of(k)[id := a]), bound)
  {
    var s' := s.With(k, s.Of(k)[id := a]);
    UpdateKeepsStoreOk(k, s.Of(k), bound, id, a);
    if k == Patient {
      UpdateKeepsUniqueIds(s.patients, id, a);
    }
    assert s'.Of(k).Keys == s.Of(k).Keys;
    match k
    case Patient => assert s'.patients == s.patients[id := a];
    case Doctor => assert s'.doctors == s.doctors[id := a];
    case Laboratory => assert s'.laboratories == s.laboratories[id := a];
    case Medical => assert s'.medicals == s.medicals[id := a];
  }

  lemma InsertKeepsUniqueIds(m: map<Id, Account>, id: Id, a: Account)
    requires UniqueIdsDistinct(m) && id !in m && !UniqueIdTaken(m, UniqueIdOf(a))
    ensures UniqueIdsDistinct(m[id := a])
  {
    var m' := m[id := a];
    forall i, j | i in m' && j in m' && UniqueIdOf(m'[i]) == UniqueIdOf(m'[j]) ensures i == j {
      if i != id && j != id {
        assert m'[i] == m[i] && m'[j] == m[j];
      }
    }
  }

  /**
   * Creating a well-formed record under the next fresh id keeps the stores
   * well formed, provided its e-mail is unused in its store and, for a
   * patient, its `uniqueId` is unused.
   */
  lemma InsertKeepsStoresOk(s: Stores, bound: Id, k: Kind, a: Account)
    requires StoresOk(s, bound) && RecordOk(k, a) && !EmailTaken(s.Of(k), a.email)
    requires k == Patient ==> !UniqueIdTaken(s.patients, UniqueIdOf(a))
    ensures StoresOk(s.With(k, s.Of(k)[bound := a]), bound + 1)
  {
    var s' := s.With(k, s.Of(k)[bound := a]);
    InsertKeepsStoreOk(k, s.Of(k), bound, a);
    StoreOkWeaken(Patient, s.patients, bound, bound + 1);
    StoreOkWeaken(Doctor, s.doctors, bound, bound + 1);
    StoreOkWeaken(Laboratory, s.laboratories, bound, bound + 1);
    StoreOkWeaken(Medical, s.medicals, bound, bound + 1);
    assert bound !in s.patients && bound !in s.doctors && bound !in s.laboratories && bound !in s.medicals;
    match k
    case Patient =>
      InsertKeepsUniqueIds(s.patients, bound, a);
      assert s'.patients == s.patients[bound := a];
    case Doctor => assert s'.doctors == s.doctors[bound := a];
    case Laboratory => assert s'.laboratories == s.laboratories[bound := a];
    case Medical => assert s'.medicals == s.medicals[bound := a];
  }

  lemma StoresOkWeaken(s: Stores, bound: Id, bound': Id)
    requires StoresOk(s, bound) && bound <= bound'
    ensures StoresOk(s, bound')
  {
    StoreOkWeaken(Patient, s.patients, bound, bound');
    StoreOkWeaken(Doctor, s.doctors, bound, bound');
    StoreOkWeaken(Laboratory, s.laboratories, bound, bound');
    StoreOkWeaken(Medical, s.medicals, bound, bound');
  }

  class Database {
    var patients: map<Id, Account>
    var doctors: map<Id, Account>
    var laboratories: map<Id, Account>
    var medicals: map<Id, Account>
    var appointments: map<Id, Appointment>
    var prescriptions: seq<Prescription>
    var reports: map<Id, Report>
    /** The next object id the database will assign. */
    var nextId: Id

    function Accounts(): Stores
      reads this
    {
      Stores(patients, doctors, laboratories, medicals)
    }

    /**
     * The invariant the handlers keep: every store well formed, ids issued
     * from `nextId` and never shared across kinds, patient `uniqueId`s distinct.
     */
    ghost predicate Valid()
      reads this
    {
      && StoresOk(Accounts(), nextId)
      && (forall id :: id in reports ==> id < nextId)
    }

    /** An empty database. */
    constructor ()
      ensures Valid()
      ensures patients == doctors == laboratories == medicals == map[]
      ensures appointments == map[] && prescriptions == [] && reports == map[] && nextId == 0
    {
      patients, doctors, laboratories, medicals := map[], map[], map[], map[];
      appointments, prescriptions, reports := map[], [], map[];
      nextId := 0;
    }

    /** `findByIdAndUpdate` on store `k`: record `id` becomes `a`, nothing else changes. */
    method Put(k: Kind, id: Id, a: Account)
      modifies this`patients, this`doctors, this`laboratories, this`medicals
      ensures Accounts() == old(Accounts()).With(k, old(Accounts().Of(k))[id := a])
    {
      match k
      case Patient => patients := patients[id := a];
      case Doctor => doctors := doctors[id := a];
      case Laboratory => laboratories := laboratories[id := a];
      case Medical => medicals := medicals[id := a];
    }

    /** `Model.create` on store `k`: `a` is stored under a fresh id. */
    method Insert(k: Kind, a: Account) returns (id: Id)
      modifies this`patients, this`doctors, this`laboratories, this`medicals, this`nextId
      ensures id == old(nextId) && nextId == old(nextId) + 1
      ensures Accounts() == old(Accounts()).With(k, old(Accounts().Of(k))[id := a])
    {
      id := nextId;
      nextId := nextId + 1;
      Put(k, id, a);
    }

    /** `Report.create`: `r` is stored under a fresh id. */
    method InsertReport(r: Report) returns (id: Id)
      modifies this`reports, this`nextId
      ensures id == old(nextId) && nextId == old(nextId) + 1
      ensures reports == old(reports)[id := r]
    {
      id := nextId;
      nextId := nextId + 1;
      reports := reports[id := r];
    }

    /** `Appointment.findByIdAndUpdate`: appointment `id` becomes `a`. */
    method PutAppointment(id: Id, a: Appointment)
      modifies this`appointments
      ensures appointments == old(appointments)[id := a]
    {
      appointments := appointments[id := a];
    }
  }
}
