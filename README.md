# Sessions and account lifecycle of the clinic back end

This project is a Dafny model of the identity and session core of an Express/Mongoose back end. The back end serves four kinds of account: patients, doctors, laboratories and medical centres. The model covers:

- **Session resolution** (`src/middlewares/auth.middleware.js`):
  - `checkAuth` reads an access token from the `accessToken` cookie or a `Bearer` header, and a refresh token from its cookie.
  - A valid access token attaches every record with that id, from all four stores.
  - Any failure of the access token falls through to the refresh path.
  - On the refresh path, a bad refresh token is revoked in every store and the reply is 419 with both cookies cleared.
  - A good refresh token attaches the first owner in the order Patient, Doctor, Laboratory, Medical and sets a fresh access cookie.
- **The account lifecycle of each controller** (`src/controllers/*.controller.js`):
  - registration: field checks, the email regex, duplicate detection, and the generated OTP or patient code;
  - verification: a different match rule for each kind;
  - login: the order of the failure checks, then storing the issued refresh token;
  - logout: clearing the refresh token.
- **The doctor's appointment decision and patient-access rule**, and **the laboratory's report append and latest-prescription lookup**.
- **The pure rules**:
  - the email regex, stated as the shape it accepts;
  - 6-digit OTPs and 2-letter + 4-digit patient codes, built from supplied random draws;
  - the precedence that picks which field a duplicate message names.

The structure of the model:

- `Store.Database` is a class holding the four account maps, the appointments, the prescriptions, the reports and an id counter. Its `Valid()` invariant says:
  - every id is below the counter;
  - each store's records have their kind's shape;
  - emails are distinct within a store, and no id lies in two stores;
  - patient codes are distinct.
- Every controller operation is a method that
  - keeps `Valid()`;
  - states its reply for every branch of the source;
  - states the new store contents through `Stores.With`, which also says that nothing else changed.
- JWTs and bcrypt are oracles:
  - `Tokens.Issuer` holds verify and sign functions;
  - password checking is a `checkPassword` parameter.

Where the code and the design description disagree, the model follows the code:

- A tampered access token takes the refresh path, just as an expired one does.
- A patient receives and stores tokens at registration, before verification. The model then gives the intended 201 reply. As written, `patient.controller.js` never imports `nodeMailer`, so line 99 throws after the patient and its refresh token are stored, and the reply is 500.
- The refresh path attaches only the first owning kind, where the access path attaches all of them.
- The doctor registration reply includes the OTP.
- Doctor verification matches on the OTP alone and never clears it, so any two doctors that share an OTP cannot be told apart: a verified doctor keeps the code, and it can collide with the code generated for a newer doctor. The model verifies some holder of that code.

## Model

| member | source | states |
|---|---|---|
| Validation.EmailMeaning | src/controllers/doctor.controller.js:59-63 | the regex `^[^\s@]+@[^\s@]+\.[^\s@]+$` accepts exactly the strings with no whitespace and exactly one `@`, with a non-empty local part, and with a `.` after the `@` that has at least one character on each side |
| Validation.EmailRegexHasShape | src/controllers/laboratory.controller.js:104-107 | every string the regex accepts has that shape |
| Validation.EmailShapeMatchesRegex | src/controllers/medical.controller.js:50-53 | every string of that shape is accepted by the regex |
| Validation.EmailExamples | src/controllers/patient.controller.js:49-52 | concrete cases: `a@b.c` and `a@.b.c` are accepted; a missing dot, an empty local part, two `@` and a space are rejected |
| Validation.AtCountAppend | src/controllers/doctor.controller.js:60 | the count of `@` characters is additive over concatenation, which the one-`@` half of the regex proof rests on |
| Validation.AtCountZero | src/controllers/doctor.controller.js:60 | a string has no `@` exactly when none of its characters is `@` |
| Validation.AtCountAround | src/controllers/doctor.controller.js:60 | the `@` count splits around any position |
| Validation.MatchHasNoWhitespace | src/controllers/doctor.controller.js:60 | three whitespace-free, `@`-free runs joined by `@` and `.` contain no whitespace |
| Validation.MatchHasOneAt | src/controllers/doctor.controller.js:60 | such a match contains exactly one `@` |
| Codes.Scale | src/controllers/doctor.controller.js:32-33 | `Math.floor(Math.random() * n)` lies in `0..n-1` and is the floor of the scaled draw |
| Codes.DigitChar | src/controllers/doctor.controller.js:29-33 | indexing `'0123456789'` by `d` yields the decimal digit with value `d` |
| Codes.GenerateOtp | src/controllers/doctor.controller.js:28-36 | the loop builds a string of exactly 6 decimal digits, one for each draw (as in laboratory.controller.js:57-65 and medical.controller.js:24-32) |
| Codes.DrawFor | src/controllers/doctor.controller.js:32-33 | for each index below `n` there is a draw in `[0, 1)` that scales to it |
| Codes.EveryOtpIsReachable | src/controllers/doctor.controller.js:28-36 | every 6-digit string is produced by some sequence of draws, so the generator covers the full code space |
| Codes.LetterChar | src/controllers/patient.controller.js:9-15 | indexing `A..Z` by `k` yields the upper-case letter at distance `k` from `A` |
| Codes.UniqueIdFromDraws | src/controllers/patient.controller.js:8-23 | the patient code is 2 upper-case letters followed by 4 digits, 6 characters in all |
| Codes.EveryPatientCodeIsReachable | src/controllers/patient.controller.js:8-23 | every 2-letter + 4-digit code is produced by some draws |
| Store.SiteAddress | src/controllers/laboratory.controller.js:134 | an absent address becomes the empty object; a given one is kept as is |
| Store.Stores.With | src/middlewares/auth.middleware.js:63-74 | replacing one store leaves the other three unchanged; this is the frame that every store write in the model states |
| Store.WithUniqueId | src/models/patient.model.js:52-56 | under the unique index on `uniqueId`, a lookup by code finds nothing exactly when no patient holds it, and otherwise finds the only holder |
| Store.WithoutToken | src/middlewares/auth.middleware.js:63-74 | clearing one record's refresh token keeps the store's ids, leaves that record with no token and every other field as it was, and leaves every other record unchanged |
| Store.UpdateKeepsStoresOk | src/controllers/doctor.controller.js:173-177 | an in-place update of a record that keeps its kind, email and code preserves the store invariant |
| Store.InsertKeepsStoresOk | src/controllers/doctor.controller.js:92-106 | creating a record under a fresh id with an unused email (and, for a patient, an unused code) preserves the store invariant |
| Store.StoresOkWeaken | src/controllers/laboratory.controller.js:381-386 | raising the id bound, as creating a report does, preserves the store invariant |
| Store.StoreOkWeaken | src/controllers/laboratory.controller.js:381-386 | the same for one store |
| Store.UpdateKeepsStoreOk | src/controllers/laboratory.controller.js:203-218 | an update that keeps kind and email preserves one store's invariant |
| Store.InsertKeepsStoreOk | src/controllers/laboratory.controller.js:126-138 | an insert under a fresh id with an unused email preserves one store's invariant |
| Store.UpdateKeepsUniqueIds | src/controllers/patient.controller.js:173-177 | an update that keeps the patient code keeps patient codes distinct |
| Store.InsertKeepsUniqueIds | src/controllers/patient.controller.js:72-94 | inserting a patient whose code is unused keeps codes distinct |
| Store.ClearTokenKeepsStoreOk | src/middlewares/auth.middleware.js:63-74 | clearing a refresh token preserves a store's invariant |
| Store.ClearTokenKeepsUniqueIds | src/middlewares/auth.middleware.js:63-74 | clearing a refresh token keeps patient codes distinct |
| Store.Database.constructor | src/models/patient.model.js:52-56 | the empty database satisfies the invariant |
| Store.Database.Put | src/controllers/doctor.controller.js:173-177 | a `findOneAndUpdate` replaces one record of one store and changes nothing else |
| Store.Database.Insert | src/controllers/doctor.controller.js:92-106 | a `create` stores the record under a fresh id and advances the id counter |
| Store.Database.InsertReport | src/controllers/laboratory.controller.js:381-386 | `Reports.create` stores the report under a fresh id |
| Store.Database.PutAppointment | src/controllers/doctor.controller.js:321-328 | an appointment update replaces that appointment only |
| Session.RemoveFirstCutsLeftmost | src/middlewares/auth.middleware.js:11 | `String.replace("Bearer ", "")` removes the leftmost occurrence of the prefix and keeps the rest |
| Session.RemoveFirstWithoutOccurrence | src/middlewares/auth.middleware.js:11 | a header without the prefix is left unchanged |
| Session.AccessTokenOf | src/middlewares/auth.middleware.js:11 | a present access token is a non-empty string, as the truthiness test requires |
| Session.RefreshTokenOf | src/middlewares/auth.middleware.js:12 | a present refresh token is a non-empty string |
| Session.CookieTakesPrecedence | src/middlewares/auth.middleware.js:11 | a non-empty `accessToken` cookie is used, whatever the header says |
| Session.BearerHeaderIsStripped | src/middlewares/auth.middleware.js:11 | without the cookie, `Bearer t` yields `t` |
| Session.RefreshTokenIgnoresHeader | src/middlewares/auth.middleware.js:12 | the refresh token comes from its cookie only; the header cannot change it |
| Session.AttachAll | src/middlewares/auth.middleware.js:31-42 | the access path attaches a record for a kind exactly when that store holds the id, and attaches that store's record |
| Session.FirstOwner | src/middlewares/auth.middleware.js:88-101 | the refresh path selects nothing exactly when no store holds the id, and otherwise the holding store that comes first in Patient > Doctor > Laboratory > Medical |
| Session.PathsAgreeWhenDisjoint | src/middlewares/auth.middleware.js:31-42 | when ids are never shared across stores, the access path's attachments are exactly the refresh path's single record |
| Session.PathsDifferWhenShared | src/middlewares/auth.middleware.js:88-101 | when an id lies in both the patient and doctor stores, the access path attaches both and the refresh path only the patient |
| Session.RevocationClearsToken | src/middlewares/auth.middleware.js:53-74 | revocation changes only refresh-token fields, and when one record held the token, none holds it afterwards |
| Session.FindOneByRefreshToken | src/middlewares/auth.middleware.js:53-56 | `findOne({ refreshToken })` returns a holder of the token, or nothing exactly when no record holds it |
| Session.HandleLogout | src/middlewares/auth.middleware.js:109-121 | the reply is 419 and clears both the `accessToken` and `refreshToken` cookies |
| Session.RevokeIn | src/middlewares/auth.middleware.js:63-74 | in one store, the holder of the token, if any, has its refresh token nulled; other stores are untouched; the result says whether a holder existed |
| Session.RevokeEverywhere | src/middlewares/auth.middleware.js:52-76 | every store has its holder of the presented token revoked, and the invariant is kept |
| Session.ReissueAccess | src/middlewares/auth.middleware.js:79-104 | with no owner the reply is 404 and nothing is written; otherwise exactly the first owner is attached and a fresh access token for it is set as a cookie |
| Session.HandleAccessTokenExpired | src/middlewares/auth.middleware.js:50-106 | a failing refresh token always gives 419 with both cookies cleared, after revoking that token in all four stores; a verified one writes nothing, and gives 404 or attaches the first owner; the reply is the intended renewal reply |
| Session.AttachVerified | src/middlewares/auth.middleware.js:22-43 | for a verified access token, 404 exactly when no store holds the id, and otherwise every holding store's record attached with no new cookie; nothing is written |
| Session.CheckAuth | src/middlewares/auth.middleware.js:10-47 | a missing token gives 401 and no writes; a verified access token gives 404 or proceeds with every holding store attached and no writes; every other access verdict, tampered or expired, takes the refresh path; a reissued access cookie verifies to the refresh token's id; the reply is always the intended one computed from the stores on arrival |
| Session.LookupEach | src/middlewares/auth.middleware.js:22-25 | awaiting the lookups in order throws exactly when one of the looked-up models is not imported; when none throws, the kinds found are exactly the stores the filter matches (the same sequence is at lines 53-56 and 79-82) |
| Session.ProbeOrderThrows | src/middlewares/auth.middleware.js:79-82 | the four lookups in Patient, Doctor, Laboratory, Medical order throw exactly when some model is not imported, and otherwise find every matching store |
| Session.FirstHit | src/middlewares/auth.middleware.js:88-101 | among the kinds found, the renewal branch takes the first in probe order |
| Session.RefreshAsWritten | src/middlewares/auth.middleware.js:50-106 | `handleAccessTokenExpired` as written sends no response exactly when some model is not imported, on the failing branch (throw at line 55) and on the renewal branch (throw at line 81) alike |
| Session.CheckAuthAsWritten | src/middlewares/auth.middleware.js:4-46 | `checkAuth` as written, with the set of imported models as a parameter, leaves a request unanswered exactly when it carries both tokens and some model is not imported; a failed verification and the ReferenceError at line 24 both reach the refresh path through the catch at lines 44-46 |
| Session.AsWrittenAnswersNoSession | src/middlewares/auth.middleware.js:4-5 | with only `Patient` and `Doctor` imported, no request carrying both tokens is answered, whatever the tokens verify to and whatever the stores hold |
| Session.AllImportsRenewAsIntended | src/middlewares/auth.middleware.js:50-106 | with all four models imported, `handleAccessTokenExpired` gives the intended renewal reply |
| Session.AllImportsAnswerAsIntended | src/middlewares/auth.middleware.js:10-47 | with all four models imported, the code's own steps (sequenced lookups, catch, first-match renewal) give the same reply as the intended middleware for every request |
| Session.LoggedInPatientGetsNoResponse | src/middlewares/auth.middleware.js:22-25 | a patient with a valid access token, whom the intended middleware passes on with the patient attached, gets no response from the code as written |
| Accounts.WithEmail | src/controllers/doctor.controller.js:197 | under distinct emails, a lookup by email finds nothing exactly when the email is unused, and otherwise the only holder |
| Accounts.FindOneByEmail | src/controllers/doctor.controller.js:82 | `findOne({ email })` finds a record with that email, or nothing exactly when there is none |
| Accounts.WithToken | src/controllers/doctor.controller.js:19-20 | saving the refresh token sets it on that record and keeps the store's ids |
| Accounts.GenerateAccessAndRefreshToken | src/controllers/doctor.controller.js:13-26 | for an existing record, the issued refresh token is stored on it and nothing else changes; for a missing one, no tokens and no change (as in laboratory.controller.js:43-56, medical.controller.js:9-22, patient.controller.js:25-38) |
| Accounts.Login | src/controllers/doctor.controller.js:188-237 | checks in order: missing field 400, unknown email 404, unverified 401, wrong password 401; every failure writes nothing; success stores the returned refresh token on the account with that email |
| Accounts.Confirmed | src/controllers/laboratory.controller.js:205-210 | confirming sets `isVerified` and removes the OTP, keeping the store's ids |
| Accounts.ConfirmOtp | src/controllers/laboratory.controller.js:196-223 | missing email or OTP gives 400; no unverified record with both gives 400 and no change; otherwise that record is verified and its OTP removed; afterwards the pair no longer matches |
| Accounts.ConditionalLogout | src/controllers/doctor.controller.js:251-280 | unknown id gives 404 and no change; a set refresh token is nulled with "logged out successfully"; an unset one leaves the store as it is and replies "No active session found"; both cookies are cleared |
| Accounts.UnconditionalLogout | src/controllers/laboratory.controller.js:282-301 | always 200 with both cookies cleared; the record, if any, loses its refresh token |
| Accounts.DuplicateField | src/controllers/laboratory.controller.js:118-123 | the duplicate message names "contact number" if the contact matches, else the second field if it matches, else "email" (as in medical.controller.js:64-69) |
| DoctorController.DoctorFormError | src/controllers/doctor.controller.js:54-79 | a form passes exactly when every field is truthy, the email matches, the age is positive, the gender is Male, Female or Other, and the experience is positive; a missing field is reported first |
| DoctorController.ZeroExperienceIsMissing | src/controllers/doctor.controller.js:54-55 | an experience of 0 is rejected as a missing field, so the "cannot be negative" check never sees 0 |
| DoctorController.ZeroAgeIsMissing | src/controllers/doctor.controller.js:54-55 | an age of 0 is rejected as a missing field, before the "must be positive" check |
| DoctorController.NewDoctor | src/controllers/doctor.controller.js:92-106 | a new doctor is unverified, holds the generated OTP and no refresh token |
| DoctorController.RegisterDoctor | src/controllers/doctor.controller.js:38-168 | a failing form gives 400 with its message; a registered email gives 400 "Doctor already registered with this email"; both write nothing; otherwise a fresh record holds a 6-digit OTP, which the reply returns |
| DoctorController.VerifyDoctor | src/controllers/doctor.controller.js:170-186 | success exactly when some doctor holds the OTP; that doctor becomes verified and keeps the OTP; otherwise 404 "Doctor not found" and no change |
| DoctorController.VerifyDoctorTwice | src/controllers/doctor.controller.js:173-177 | because the OTP is kept, a second verification with the same code succeeds exactly when the first did |
| DoctorController.LoginDoctor | src/controllers/doctor.controller.js:188-237 | missing field 400 "All fields are required"; unknown email 404 "Doctor not found"; success stores the returned refresh token |
| DoctorController.LogoutDoctor | src/controllers/doctor.controller.js:251-280 | unknown doctor 404; an active session is cleared with "Doctor logged out successfully"; otherwise "No active session found" and no change |
| DoctorController.Decided | src/controllers/doctor.controller.js:321-328 | the appointment is accepted exactly when the status is "accepted", takes the given time, and keeps its patient, doctor and date |
| DoctorController.UpdateAppointmentStatus | src/controllers/doctor.controller.js:304-364 | missing id, status or time gives 400; unknown appointment 404; another doctor's appointment 403; all three with no change; otherwise the decision is stored, then a failed mail gives 500 while the stored decision stays |
| DoctorController.GetPatientByUniqueId | src/controllers/doctor.controller.js:384-414 | missing code 400; unknown patient 404; a doctor without an accepted appointment with that patient 403; otherwise the patient record; nothing is written |
| LaboratoryController.NewLaboratory | src/controllers/laboratory.controller.js:126-138 | a new laboratory is unverified, holds the OTP and no refresh token |
| LaboratoryController.RegisterLaboratory | src/controllers/laboratory.controller.js:87-194 | missing required field 400; bad email 400; a clash on email, license or contact gives 400 with a message naming a field some existing laboratory shares, chosen by the contact > license > email order; all write nothing; otherwise a fresh unverified record with the OTP |
| LaboratoryController.VerifyLaboratory | src/controllers/laboratory.controller.js:196-223 | success exactly when both fields are given and an unverified laboratory has that email and OTP; it becomes verified with its OTP removed; failures are 400 with no change |
| LaboratoryController.VerifyLaboratoryTwice | src/controllers/laboratory.controller.js:203-218 | repeating a verification with the same email and OTP always fails with 400 |
| LaboratoryController.LoginLaboratory | src/controllers/laboratory.controller.js:225-268 | missing field 400 "Email and password are required"; unknown email 404; success stores the returned refresh token |
| LaboratoryController.LogoutLaboratory | src/controllers/laboratory.controller.js:282-301 | always 200 with both cookies cleared; the laboratory's refresh token is removed |
| LaboratoryController.WithReport | src/controllers/laboratory.controller.js:389-394 | `$push` appends the report id at the end of the patient's list and changes nothing else in the record |
| LaboratoryController.AddReport | src/controllers/laboratory.controller.js:340-399 | missing code 400; no images 400; unknown patient 404; all with no change; otherwise a report is created and its id appended to exactly that patient's list |
| LaboratoryController.Latest | src/controllers/laboratory.controller.js:414-423 | picks nothing exactly when the patient has no prescription; otherwise one of theirs with the greatest `createdAt`, the earliest such on a tie |
| LaboratoryController.GetPrescriptionsByUniqueId | src/controllers/laboratory.controller.js:401-436 | missing code 400; unknown patient 404; a patient with no prescriptions 404; otherwise their latest prescription |
| MedicalController.NewMedical | src/controllers/medical.controller.js:72-84 | a new medical centre is unverified, holds the OTP and no refresh token |
| MedicalController.RegisterMedical | src/controllers/medical.controller.js:34-144 | as for laboratories, with the business number in place of the license: 400 for a missing field, a bad email, or a clash that names a shared field; otherwise a fresh unverified record |
| MedicalController.VerifyMedical | src/controllers/medical.controller.js:146-173 | success exactly when an unverified centre has that email and OTP; it becomes verified with its OTP removed; failures 400 with no change |
| MedicalController.VerifyMedicalTwice | src/controllers/medical.controller.js:149-168 | a repeated verification always fails with 400 |
| MedicalController.LoginMedical | src/controllers/medical.controller.js:175-217 | missing field 400; unknown email 404 "Medical center not found"; success stores the returned refresh token |
| MedicalController.LogoutMedical | src/controllers/medical.controller.js:231-260 | unknown centre 404; an active session is cleared; otherwise "No active session found" and no change |
| PatientController.PatientFormError | src/controllers/patient.controller.js:44-63 | a form passes exactly when every field is truthy, the email matches, the age is positive and the gender is Male, Female or Other; a missing field is reported first |
| PatientController.PickUniqueId | src/controllers/patient.controller.js:72-80 | the retry loop returns the code of the first attempt that no existing patient holds, a valid 2-letter + 4-digit code |
| PatientController.NewPatient | src/controllers/patient.controller.js:83-94 | a new patient is unverified, has no OTP, and holds the chosen code |
| PatientController.RegisterPatient | src/controllers/patient.controller.js:40-167 | a failing form 400; a registered email 400; both write nothing; otherwise a fresh unverified patient with an unused code, whose stored refresh token is the one returned, and the intended 201 reply (as written, the unimported `nodeMailer` at line 99 turns it into 500 after the writes) |
| PatientController.VerifyPatient | src/controllers/patient.controller.js:170-186 | success exactly when some patient holds the code; that patient is then verified; an already verified one is left as is; unknown code 404 "Patient not found" |
| PatientController.VerifyPatientTwice | src/controllers/patient.controller.js:173-177 | verification is idempotent: repeating it gives the same reply, and the patient stays verified |

## Left out

- Signing and verifying JWTs, and bcrypt hashing and comparing, are oracles: `Tokens.Issuer` and a `checkPassword` parameter. Signing is a function of kind and id, so the timestamps inside real tokens are not modelled.
- Email delivery through nodemailer is not modelled in registration. The appointment update models the mail result only as its `mailDelivered` parameter.
- Image upload to ImageKit and the `fs` reads and unlinks are not modelled: the images are a parameter of `AddReport`. The Google Maps lookups are network I/O and are not modelled either.
- `Math.random` becomes a sequence of draws, each a real in `[0, 1)`, supplied by the caller.
- Each Mongoose call is one atomic step. Concurrent requests are not modelled.
- The schemas' lower-casing and trimming of emails is not modelled.
- Unique indexes other than email and patient code, and the 500 replies their violations cause, are not modelled.
- Mongoose's treatment of `undefined` in a filter is not modelled. An absent OTP in a doctor verification is the empty string.
- OTPs are compared as strings. The schemas store them as `Number`, which drops leading zeros; that coercion is not modelled.
- `select` and `populate` projections of replies are not modelled, nor the errors they can raise.
- Numbers sent as strings, and NaN, are not modelled. Numeric form fields are optional integers.
- The error-to-status mapping of `app.js` is not modelled. Every thrown `apiError` becomes a `Failed` reply with its status.
- The unexported `getPrescriptionsByUniqueId` of `medical.controller.js` is not modelled. Other handlers are not modelled either: the `getCurrent*` handlers, the appointment listings, the routes and the Mongoose schemas beyond record shape.
- PatientController.RegisterPatient replies 201 as intended. As written, `nodeMailer` is not imported in `patient.controller.js`, so the mail step at line 99 throws a ReferenceError after the patient is created (lines 83-94) and its refresh token saved (line 96). Every registration that passes the checks therefore stores the patient and its token, then replies 500. The model does not capture that 500 reply.
- A `login` export is missing for `patient.route.js`. It concerns routing, outside the modelled path.
- PatientController.PickUniqueId requires that some attempt in the supplied sequence is unused. The source's loop runs until it draws one and may not terminate; the model does not capture the non-terminating case.
- PatientController.RegisterPatient has the same requirement on its attempts.
- LaboratoryController.Latest breaks ties towards the earliest prescription. The source's `sort` leaves the order of equal `createdAt` values to the database.
- Session.RevokeIn interleaves the lookup and the update for each store. The source runs all four lookups first and then the updates. The stores are disjoint, so the result is the same.
- Session.CheckAuth models the intended four-store lookup. The code as written is `Session.CheckAuthAsWritten`; see Findings.
- Session.CheckAuthAsWritten models the response only, not store writes. As written, no write can happen past the 401 check, because every path throws at a lookup before the first update.
- RegisterLaboratory: the duplicate query compares the raw form values. In the source, Mongoose applies the schema's `trim` on `licenseNumber` (laboratory.model.js:25-26) and the e-mail's lowercase and trim to the `$or` filter, but lines 120-121 compare the raw request values with `===`. So a license sent as " L1" finds the laboratory whose license is "L1", and the message still names "email", which that record need not share. A contact number sent as a JSON number behaves the same way. The model's promise that the named field is really shared holds only for untrimmed, string-typed input.
- RegisterMedical: the same gap for the business number, trimmed by the schema (medical.model.js:25-26) but compared raw at lines 66-67.
- DoctorController.LoginDoctor states only the missing-field, unknown-email and success cases. The unverified and wrong-password replies are stated in `Accounts.Login`, which it calls.
- LaboratoryController.LoginLaboratory states only the missing-field, unknown-email and success cases; the rest is in `Accounts.Login`.
- MedicalController.LoginMedical states only the missing-field, unknown-email and success cases; the rest is in `Accounts.Login`.

## Findings

| source | as written | input that shows it | evidently intended | confidence | as-written member | corrected member |
|---|---|---|---|---|---|---|
| src/middlewares/auth.middleware.js:4-5 | The `Laboratory` and `Medical` imports are commented out, yet lines 24, 55 and 81 use `Laboratory` (and 25, 56, 82 `Medical`). In the access path, line 24 throws a ReferenceError, which the `catch` turns into a refresh attempt. In the refresh path, line 55 (failing token) or line 81 (verified token) throws inside the `jwt.verify` callback, an async function nothing awaits, so no response is sent. | Any request with both an access and a refresh token, for instance a patient with a valid session | Look the id up in all four stores, and answer every request | not executed | Session.CheckAuthAsWritten (with Session.AsWrittenAnswersNoSession and Session.LoggedInPatientGetsNoResponse) | Session.CheckAuth (with Session.AllImportsAnswerAsIntended) |
