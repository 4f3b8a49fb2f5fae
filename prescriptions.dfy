/** Prescriptions (server/src/models/Prescription.js and
    server/src/routes/prescriptions.routes.js): a user's scanned prescription,
    whose items are the catalogue medicines the OCR text names, and a
    doctor's prescription issued for one of their appointments. */
module Prescriptions {
  import opened Common
  import opened Seqs
  import opened Text
  import opened UserModel
  import opened MedicineModel
  import opened ExtractMedicines
  import opened Appointments
  import AuthMiddleware

  const ValidationFailed: Error := Error(400, "Validation failed")

  datatype Source = Ocr | DoctorIssued

  /** One prescribed medicine; `medicine` refers to the catalogue when set. */
  datatype PrescriptionItem = PrescriptionItem(
    medicine: Option<MedId>,
    name: string,
    dosage: string,
    frequency: string,
    durationDays: int,
    notes: string)

  datatype Prescription = Prescription(
    id: nat,
    user: UserId,
    doctorUser: Option<UserId>,
    appointment: Option<AppointmentId>,
    rawText: string,
    imageUrl: string,
    items: seq<PrescriptionItem>,
    source: Source)

  function PrescriptionKey(p: Prescription): int
  {
    p.id
  }

  /** The collection in creation order: ids below `nextId` and increasing. */
  predicate PrescriptionsValid(ps: seq<Prescription>, nextId: nat)
  {
    (forall i :: 0 <= i < |ps| ==> ps[i].id < nextId) && IncreasingBy(ps, PrescriptionKey)
  }

  class PrescriptionStore {
    var prescriptions: seq<Prescription>
    var nextId: nat

    ghost predicate Valid()
      reads this
    {
      PrescriptionsValid(prescriptions, nextId)
    }

    constructor ()
      ensures Valid() && prescriptions == [] && nextId == 0
    {
      prescriptions := [];
      nextId := 0;
    }
  }

  /** Appending a prescription with the next id keeps the collection valid. */
  lemma AppendKeepsValid(ps: seq<Prescription>, nextId: nat, p: Prescription)
    requires PrescriptionsValid(ps, nextId) && p.id == nextId
    ensures PrescriptionsValid(ps + [p], nextId + 1)
  {
    var r := ps + [p];
    forall i, j | 0 <= i < j < |r| ensures PrescriptionKey(r[i]) < PrescriptionKey(r[j]) {
      if j < |ps| {
        assert r[i] == ps[i] && r[j] == ps[j];
      } else {
        assert r[i] == ps[i];
      }
    }
  }

  // ---------------------------------------------------------------------------
  // GET `/mine`

  /** A doctor sees the prescriptions they issued, anyone else their own;
      newest first. */
  function Mine(ps: seq<Prescription>, me: User): (r: seq<Prescription>)
    ensures me.role == DoctorRole ==> forall p :: p in r <==> p in ps && p.doctorUser == Some(me.id)
    ensures me.role != DoctorRole ==> forall p :: p in r <==> p in ps && p.user == me.id
  {
    if me.role == DoctorRole then Reverse(Filter(ps, (p: Prescription) => p.doctorUser == Some(me.id)))
    else Reverse(Filter(ps, (p: Prescription) => p.user == me.id))
  }

  /** In a valid collection `/mine` is newest first. */
  lemma MineNewestFirst(ps: seq<Prescription>, nextId: nat, me: User)
    requires PrescriptionsValid(ps, nextId)
    ensures var r := Mine(ps, me); forall i, j :: 0 <= i < j < |r| ==> r[i].id > r[j].id
  {
    if me.role == DoctorRole {
      var p := (p: Prescription) => p.doctorUser == Some(me.id);
      FilterIncreasing(ps, p, PrescriptionKey);
      ReverseDecreasing(Filter(ps, p), PrescriptionKey);
    } else {
      var p := (p: Prescription) => p.user == me.id;
      FilterIncreasing(ps, p, PrescriptionKey);
      ReverseDecreasing(Filter(ps, p), PrescriptionKey);
    }
  }

  // ---------------------------------------------------------------------------
  // The upload

  /** The uploaded file as the multipart parser reports it. */
  datatype Upload = Upload(originalName: string, mimeType: string, size: nat)

  const MaxUploadBytes: nat := 8 * 1024 * 1024

  predicate AllowedMime(m: string)
  {
    m == "image/png" || m == "image/jpeg" || m == "image/jpg" || m == "application/pdf"
  }

  const UnsupportedType: Error := Error(400, "Only PNG/JPG/PDF supported")
  /** The parser's size error carries no status, so the error handler
      answers 500. */
  const FileTooLarge: Error := Error(500, "File too large")
  const FileRequired: Error := Error(400, "File is required")

  /** The file filter runs first, then the size limit. */
  function CheckUpload(file: Upload): (r: Result<()>)
    ensures r.Ok? <==> AllowedMime(file.mimeType) && file.size <= MaxUploadBytes
    ensures !AllowedMime(file.mimeType) ==> r == Err(UnsupportedType)
    ensures AllowedMime(file.mimeType) && file.size > MaxUploadBytes ==> r == Err(FileTooLarge)
  {
    if !AllowedMime(file.mimeType) then Err(UnsupportedType)
    else if file.size > MaxUploadBytes then Err(FileTooLarge)
    else Ok(())
  }

  predicate SafeFileChar(c: char)
  {
    'a' <= c <= 'z' || 'A' <= c <= 'Z' || '0' <= c <= '9' || c == '_' || c == '.' || c == '-'
  }

  /** `originalname.replace(/[^a-zA-Z0-9_.-]/g, "_")`. */
  function SafeName(name: string): (r: string)
    ensures |r| == |name|
    ensures forall i :: 0 <= i < |r| ==> SafeFileChar(r[i])
    ensures forall i :: 0 <= i < |r| ==> r[i] == (if SafeFileChar(name[i]) then name[i] else '_')
  {
    seq(|name|, i requires 0 <= i < |name| => if SafeFileChar(name[i]) then name[i] else '_')
  }

  /** Sanitising a sanitised name changes nothing, and the result holds no
      path separator. */
  lemma SafeNameLaws(name: string)
    ensures SafeName(SafeName(name)) == SafeName(name)
    ensures '/' !in SafeName(name) && '\\' !in SafeName(name)
  {
  }

  /** The stored file name `${Date.now()}_${safe}`; it is also the base name
      of the stored path. */
  function StoredName(now: nat, file: Upload): (r: string)
    ensures r == NatToString(now) + "_" + SafeName(file.originalName)
    ensures '/' !in r
  {
    SafeNameLaws(file.originalName);
    var r := NatToString(now) + "_" + SafeName(file.originalName);
    assert forall c :: c in r ==> c in NatToString(now) || c == '_' || c in SafeName(file.originalName);
    r
  }

  // ---------------------------------------------------------------------------
  // POST `/scan`

  /** The items of a scanned prescription: one per matched medicine, with
      empty dosage, frequency and notes and zero days. */
  function ScanItems(matched: seq<Medicine>): (r: seq<PrescriptionItem>)
    ensures |r| == |matched|
    ensures forall i :: 0 <= i < |r| ==>
      r[i] == PrescriptionItem(Some(matched[i].id), matched[i].name, "", "", 0, "")
  {
    seq(|matched|, i requires 0 <= i < |matched| => PrescriptionItem(Some(matched[i].id), matched[i].name, "", "", 0, ""))
  }

  /** The answer's `extracted` part. */
  datatype Extracted = Extracted(rawText: string, candidates: seq<string>, matched: seq<Medicine>)

  /** What `/scan` stores; `ocrText` is what the OCR step read from the
      file, `now` the clock. */
  function Scan(ps: seq<Prescription>, nextId: nat, known: seq<Medicine>, me: User, file: Option<Upload>, ocrText: string, now: nat)
    : (r: (seq<Prescription>, nat, Result<Prescription>))
    ensures me.role != UserRole ==> r == (ps, nextId, Err(AuthMiddleware.Forbidden))
    ensures me.role == UserRole && file.None? ==> r == (ps, nextId, Err(FileRequired))
    ensures me.role == UserRole && file.Some? && CheckUpload(file.value).Err? ==>
      r == (ps, nextId, Err(CheckUpload(file.value).error))
    ensures r.2.Ok? <==> me.role == UserRole && file.Some? && CheckUpload(file.value).Ok?
    ensures r.2.Ok? ==> r.0 == ps + [r.2.value] && r.1 == nextId + 1
  {
    if me.role != UserRole then (ps, nextId, Err(AuthMiddleware.Forbidden))
    else if file.None? then (ps, nextId, Err(FileRequired))
    else if CheckUpload(file.value).Err? then (ps, nextId, Err(CheckUpload(file.value).error))
    else
      var matched := UniqueBy(Matches(SearchText(Some(ocrText)), known), MedKey);
      var p := Prescription(nextId, me.id, None, None, ocrText, "/uploads/" + StoredName(now, file.value),
        ScanItems(matched), Ocr);
      (ps + [p], nextId + 1, Ok(p))
  }

  /** A successful scan stores, for the caller, a prescription of source
      OCR with the OCR text, the stored image's URL, and one item per
      matched medicine. */
  lemma ScanStores(ps: seq<Prescription>, nextId: nat, known: seq<Medicine>, me: User,
                   file: Option<Upload>, ocrText: string, now: nat)
    requires Scan(ps, nextId, known, me, file, ocrText, now).2.Ok?
    ensures var p := Scan(ps, nextId, known, me, file, ocrText, now).2.value;
      p.id == nextId && p.user == me.id && p.doctorUser.None? && p.appointment.None? && p.source == Ocr &&
      p.rawText == ocrText && p.imageUrl == "/uploads/" + StoredName(now, file.value) &&
      p.items == ScanItems(UniqueBy(Matches(SearchText(Some(ocrText)), known), MedKey))
  {
  }

  /** Every scanned item is a catalogue medicine the text names, each at
      most once. */
  lemma ScanItemsFromCatalogue(ps: seq<Prescription>, nextId: nat, known: seq<Medicine>, me: User,
                               file: Option<Upload>, ocrText: string, now: nat)
    requires Scan(ps, nextId, known, me, file, ocrText, now).2.Ok?
    ensures var p := Scan(ps, nextId, known, me, file, ocrText, now).2.value;
      (forall i :: 0 <= i < |p.items| ==>
        exists m :: (m in known && p.items[i].medicine == Some(m.id) && p.items[i].name == m.name &&
          NameMatches(SearchText(Some(ocrText)), m.name))) &&
      (forall i, j :: 0 <= i < j < |p.items| ==> p.items[i].medicine != p.items[j].medicine)
  {
    var text := SearchText(Some(ocrText));
    var matched := UniqueBy(Matches(text, known), MedKey);
    MatchedSpec(text, known);
    var p := Scan(ps, nextId, known, me, file, ocrText, now).2.value;
    forall i | 0 <= i < |p.items|
      ensures exists m :: (m in known && p.items[i].medicine == Some(m.id) && p.items[i].name == m.name &&
        NameMatches(text, m.name))
    {
      assert matched[i] in matched;
    }
    forall i, j | 0 <= i < j < |p.items| ensures p.items[i].medicine != p.items[j].medicine {
      assert MedKey(matched[i]) != MedKey(matched[j]);
    }
  }

  /** The insert of a successful `/scan`, given the medicines matched in
      the OCR text. */
  method StoreScan(store: PrescriptionStore, known: seq<Medicine>, me: User, file: Upload, ocrText: string, now: nat,
                   matched: seq<Medicine>)
    returns (p: Prescription)
    requires store.Valid()
    requires me.role == UserRole && CheckUpload(file).Ok?
    requires matched == UniqueBy(Matches(SearchText(Some(ocrText)), known), MedKey)
    modifies store
    ensures store.Valid()
    ensures (store.prescriptions, store.nextId, Ok(p)) ==
      Scan(old(store.prescriptions), old(store.nextId), known, me, Some(file), ocrText, now)
  {
    p := Prescription(store.nextId, me.id, None, None, ocrText, "/uploads/" + StoredName(now, file),
      ScanItems(matched), Ocr);
    assert Scan(store.prescriptions, store.nextId, known, me, Some(file), ocrText, now) ==
      (store.prescriptions + [p], store.nextId + 1, Ok(p));
    AppendKeepsValid(store.prescriptions, store.nextId, p);
    store.prescriptions := store.prescriptions + [p];
    store.nextId := store.nextId + 1;
  }

  /** POST `/scan`: stores what `Scan` describes and answers, beside the
      prescription, the OCR text, the candidate lines and the matches. */
  method ScanHandler(store: PrescriptionStore, known: seq<Medicine>, me: User, file: Option<Upload>, ocrText: string, now: nat)
    returns (res: Result<(Prescription, Extracted)>)
    requires store.Valid()
    modifies store
    ensures store.Valid()
    ensures res.Err? ==>
      (store.prescriptions, store.nextId, Err(res.error)) ==
        Scan(old(store.prescriptions), old(store.nextId), known, me, file, ocrText, now)
    ensures res.Ok? ==>
      (store.prescriptions, store.nextId, Ok(res.value.0)) ==
        Scan(old(store.prescriptions), old(store.nextId), known, me, file, ocrText, now)
    ensures res.Ok? ==>
      res.value.1 == Extracted(ocrText, Candidates(SearchText(Some(ocrText))),
        UniqueBy(Matches(SearchText(Some(ocrText)), known), MedKey))
  {
    var gate := AuthMiddleware.RequireRole(Some(me.role), [UserRole]);
    if gate.Err? {
      return Err(gate.error);
    }
    if file.None? {
      return Err(FileRequired);
    }
    var upload := CheckUpload(file.value);
    if upload.Err? {
      return Err(upload.error);
    }
    var matched, candidates := MatchMedicinesFromText(Some(ocrText), known);
    var p := StoreScan(store, known, me, file.value, ocrText, now, matched);
    res := Ok((p, Extracted(ocrText, candidates, matched)));
  }

  // ---------------------------------------------------------------------------
  // POST `/issue`

  /** One requested item; absent optional fields are `None`. */
  datatype IssueItem = IssueItem(
    medicineId: Option<MedId>,
    name: string,
    dosage: Option<string>,
    frequency: Option<string>,
    durationDays: Option<int>,
    notes: Option<string>)

  datatype IssueBody = IssueBody(appointmentId: Option<AppointmentId>, items: seq<IssueItem>, rawText: Option<string>)

  /** `issueSchema`: an appointment, 1 to 50 items, each named with two
      characters or more and a duration that is not negative. */
  predicate IssueBodyValid(b: IssueBody)
  {
    b.appointmentId.Some? && 1 <= |b.items| <= 50 &&
    forall i :: 0 <= i < |b.items| ==>
      |b.items[i].name| >= 2 && (b.items[i].durationDays.Some? ==> b.items[i].durationDays.value >= 0)
  }

  /** A stored item: the catalogue reference and name when the id resolves,
      the typed name otherwise. */
  function ResolveItem(meds: map<MedId, Medicine>, it: IssueItem): (r: PrescriptionItem)
    ensures r.medicine.Some? <==> it.medicineId.Some? && it.medicineId.value in meds
    ensures r.medicine.Some? ==> r.medicine == it.medicineId && r.name == meds[it.medicineId.value].name
    ensures r.medicine.None? ==> r.name == it.name
    ensures r.durationDays == (if it.durationDays.Some? then it.durationDays.value else 0)
  {
    var resolved := it.medicineId.Some? && it.medicineId.value in meds;
    PrescriptionItem(
      if resolved then it.medicineId else None,
      if resolved then meds[it.medicineId.value].name else it.name,
      OrElse(it.dosage, ""), OrElse(it.frequency, ""), OrElse(it.durationDays, 0), OrElse(it.notes, ""))
  }

  function OrElse<T>(o: Option<T>, d: T): T
  {
    if o.Some? then o.value else d
  }

  function ResolveItems(meds: map<MedId, Medicine>, items: seq<IssueItem>): (r: seq<PrescriptionItem>)
    ensures |r| == |items| && forall i :: 0 <= i < |items| ==> r[i] == ResolveItem(meds, items[i])
  {
    seq(|items|, i requires 0 <= i < |items| => ResolveItem(meds, items[i]))
  }

  /** POST `/issue`: doctors only; 400 for an invalid body, 404 for an
      unknown appointment, 403 for another doctor's appointment. The new
      prescription belongs to the appointment's patient. */
  function Issue(ps: seq<Prescription>, nextId: nat, meds: map<MedId, Medicine>,
                 appts: map<AppointmentId, Appointment>, me: User, b: IssueBody)
    : (r: (seq<Prescription>, nat, Result<Prescription>))
    ensures me.role != DoctorRole ==> r == (ps, nextId, Err(AuthMiddleware.Forbidden))
    ensures me.role == DoctorRole && !IssueBodyValid(b) ==> r == (ps, nextId, Err(ValidationFailed))
    ensures me.role == DoctorRole && IssueBodyValid(b) && b.appointmentId.value !in appts ==>
      r == (ps, nextId, Err(ApptNotFound))
    ensures (me.role == DoctorRole && IssueBodyValid(b) && b.appointmentId.value in appts &&
      appts[b.appointmentId.value].doctorUser != me.id) ==> r == (ps, nextId, Err(AuthMiddleware.Forbidden))
    ensures r.2.Ok? ==>
      var a := appts[b.appointmentId.value];
      var p := r.2.value;
      a.doctorUser == me.id && p.user == a.user && p.doctorUser == Some(me.id) &&
      p.appointment == b.appointmentId && p.source == DoctorIssued && p.id == nextId &&
      p.items == ResolveItems(meds, b.items) && p.rawText == OrElse(b.rawText, "") &&
      r.0 == ps + [p] && r.1 == nextId + 1
  {
    if me.role != DoctorRole then (ps, nextId, Err(AuthMiddleware.Forbidden))
    else if !IssueBodyValid(b) then (ps, nextId, Err(ValidationFailed))
    else if b.appointmentId.value !in appts then (ps, nextId, Err(ApptNotFound))
    else
      var a := appts[b.appointmentId.value];
      if a.doctorUser != me.id then (ps, nextId, Err(AuthMiddleware.Forbidden))
      else
        var p := Prescription(nextId, a.user, Some(me.id), b.appointmentId, OrElse(b.rawText, ""), "",
          ResolveItems(meds, b.items), DoctorIssued);
        (ps + [p], nextId + 1, Ok(p))
  }

  /** An issued prescription appears in its patient's `/mine` and in the
      issuing doctor's. */
  lemma IssuedVisibleToBoth(ps: seq<Prescription>, nextId: nat, meds: map<MedId, Medicine>,
                            appts: map<AppointmentId, Appointment>, me: User, patient: User, b: IssueBody)
    requires Issue(ps, nextId, meds, appts, me, b).2.Ok?
    requires patient.id == Issue(ps, nextId, meds, appts, me, b).2.value.user && patient.role != DoctorRole
    ensures var (ps', _, r) := Issue(ps, nextId, meds, appts, me, b);
      r.value in Mine(ps', me) && r.value in Mine(ps', patient)
  {
  }

  /** The appointment's status is not consulted: a doctor may issue for a
      cancelled appointment. */
  lemma IssueIgnoresStatus(ps: seq<Prescription>, nextId: nat, meds: map<MedId, Medicine>,
                           appts: map<AppointmentId, Appointment>, me: User, b: IssueBody)
    requires me.role == DoctorRole && IssueBodyValid(b)
    requires b.appointmentId.value in appts && appts[b.appointmentId.value].doctorUser == me.id
    requires appts[b.appointmentId.value].status == ApptCancelled
    ensures Issue(ps, nextId, meds, appts, me, b).2.Ok?
  {
  }

  method IssueHandler(store: PrescriptionStore, catalog: Catalog, appts: AppointmentStore, me: User, b: IssueBody)
    returns (res: Result<Prescription>)
    requires store.Valid()
    modifies store
    ensures store.Valid()
    ensures (store.prescriptions, store.nextId, res) ==
      Issue(old(store.prescriptions), old(store.nextId), catalog.meds, appts.appts, me, b)
  {
    var gate := AuthMiddleware.RequireRole(Some(me.role), [DoctorRole]);
    if gate.Err? {
      return Err(gate.error);
    }
    if !IssueBodyValid(b) {
      return Err(ValidationFailed);
    }
    var id := b.appointmentId.value;
    if id !in appts.appts {
      return Err(ApptNotFound);
    }
    var a := appts.appts[id];
    if a.doctorUser != me.id {
      return Err(AuthMiddleware.Forbidden);
    }
    var p := Prescription(store.nextId, a.user, Some(me.id), b.appointmentId, OrElse(b.rawText, ""), "",
      ResolveItems(catalog.meds, b.items), DoctorIssued);
    AppendKeepsValid(store.prescriptions, store.nextId, p);
    store.prescriptions := store.prescriptions + [p];
    store.nextId := store.nextId + 1;
    res := Ok(p);
  }
}
