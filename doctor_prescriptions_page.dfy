/** The doctor's prescription form (client/src/pages/doctor/DoctorPrescriptionsPage.jsx):
    the editable rows, when issuing is enabled, the items the request
    carries, and the reset after a successful issue. The server's answer is
    a function parameter. */
module DoctorPrescriptionsPage {
  import opened Common
  import opened Seqs
  import opened Text
  import opened MedicineModel
  import Prescriptions

  /** One editable row; `medicineId` is None while "— select —" is chosen.
      The days field holds what `Number` made of the input. */
  datatype Row = Row(
    medicineId: Option<MedId>,
    name: string,
    dosage: string,
    frequency: string,
    durationDays: int,
    notes: string)

  const EmptyRow: Row := Row(None, "", "", "", 0, "")

  /** The form: the pasted appointment id and the rows. */
  datatype Form = Form(appointmentId: string, rows: seq<Row>)

  const InitialForm: Form := Form("", [EmptyRow])

  /** `canIssue`: a non-blank appointment id and some row with a name or a
      medicine. */
  predicate CanIssue(f: Form)
  {
    Trim(f.appointmentId) != "" &&
    exists i :: 0 <= i < |f.rows| && (f.rows[i].name != "" || f.rows[i].medicineId.Some?)
  }

  /** The fields a `setRow` patch carries; absent fields are None. */
  datatype RowPatch = RowPatch(
    medicineId: Option<Option<MedId>>,
    name: Option<string>,
    dosage: Option<string>,
    frequency: Option<string>,
    durationDays: Option<int>,
    notes: Option<string>)

  /** `{ ...r, ...patch }`. */
  function Merge(r: Row, p: RowPatch): (m: Row)
    ensures m.medicineId == (if p.medicineId.Some? then p.medicineId.value else r.medicineId)
    ensures m.name == (if p.name.Some? then p.name.value else r.name)
    ensures m.dosage == (if p.dosage.Some? then p.dosage.value else r.dosage)
    ensures m.frequency == (if p.frequency.Some? then p.frequency.value else r.frequency)
    ensures m.durationDays == (if p.durationDays.Some? then p.durationDays.value else r.durationDays)
    ensures m.notes == (if p.notes.Some? then p.notes.value else r.notes)
  {
    Row(
      if p.medicineId.Some? then p.medicineId.value else r.medicineId,
      if p.name.Some? then p.name.value else r.name,
      if p.dosage.Some? then p.dosage.value else r.dosage,
      if p.frequency.Some? then p.frequency.value else r.frequency,
      if p.durationDays.Some? then p.durationDays.value else r.durationDays,
      if p.notes.Some? then p.notes.value else r.notes)
  }

  /** `setRow(i, patch)`: row `i` merged with the patch, every other row as
      it was. */
  function SetRow(rows: seq<Row>, i: int, p: RowPatch): (r: seq<Row>)
    ensures |r| == |rows|
    ensures 0 <= i < |rows| ==> r[i] == Merge(rows[i], p)
    ensures forall j :: 0 <= j < |rows| && j != i ==> r[j] == rows[j]
  {
    seq(|rows|, j requires 0 <= j < |rows| => if j == i then Merge(rows[j], p) else rows[j])
  }

  /** `addRow`: one empty row at the end. */
  function AddRow(rows: seq<Row>): (r: seq<Row>)
    ensures |r| == |rows| + 1 && r[..|rows|] == rows && r[|rows|] == EmptyRow
  {
    rows + [EmptyRow]
  }

  /** The catalogue name of a medicine id, if the page's list has it. */
  function CatalogueName(meds: seq<Medicine>, id: Option<MedId>): (r: Option<string>)
    ensures r.Some? ==> id.Some? && exists i :: 0 <= i < |meds| && meds[i].id == id.value && meds[i].name == r.value
    ensures r.None? ==> id.None? || forall i :: 0 <= i < |meds| ==> meds[i].id != id.value
  {
    if id.None? then None
    else match FindIndex(meds, (m: Medicine) => m.id == id.value)
      case Some(i) => Some(meds[i].name)
      case None => None
  }

  /** Choosing a medicine in a row's select: its id, and its name unless the
      list does not have it or its name is empty. */
  function SelectPatch(meds: seq<Medicine>, r: Row, id: Option<MedId>): (p: RowPatch)
    ensures p.medicineId == Some(id) && p.dosage.None? && p.frequency.None? && p.durationDays.None? && p.notes.None?
    ensures var n := CatalogueName(meds, id); p.name == Some(if n.Some? && n.value != "" then n.value else r.name)
  {
    var n := CatalogueName(meds, id);
    RowPatch(Some(id), Some(if n.Some? && n.value != "" then n.value else r.name), None, None, None, None)
  }

  /** The rows that are sent: those with a medicine, or with a name of at
      least two characters once trimmed. */
  function Sendable(): Row -> bool
  {
    (r: Row) => r.medicineId.Some? || (r.name != "" && |Trim(r.name)| >= 2)
  }

  /** `?.name || "Medicine"`. */
  function FallbackName(n: Option<string>): string
  {
    if n.Some? && n.value != "" then n.value else "Medicine"
  }

  /** One sent item: the row's name, else the catalogue's, else "Medicine";
      the other fields as typed. */
  function ItemOf(meds: seq<Medicine>, r: Row): (it: Prescriptions.IssueItem)
    ensures it.medicineId == r.medicineId
    ensures r.name != "" ==> it.name == r.name
    ensures r.name == "" ==> it.name == FallbackName(CatalogueName(meds, r.medicineId))
    ensures it.dosage == Some(r.dosage) && it.frequency == Some(r.frequency) && it.notes == Some(r.notes)
    ensures it.durationDays == Some(r.durationDays)
  {
    var n := CatalogueName(meds, r.medicineId);
    var name := if r.name != "" then r.name else FallbackName(n);
    Prescriptions.IssueItem(r.medicineId, name, Some(r.dosage), Some(r.frequency), Some(r.durationDays), Some(r.notes))
  }

  /** The request `issue` sends: the appointment id as typed and one item
      per sendable row, in row order. */
  datatype IssueRequest = IssueRequest(appointmentId: string, items: seq<Prescriptions.IssueItem>)

  function Request(f: Form, meds: seq<Medicine>): (req: IssueRequest)
    ensures req.appointmentId == f.appointmentId
    ensures |req.items| == |Filter(f.rows, Sendable())|
    ensures forall k :: 0 <= k < |req.items| ==> req.items[k] == ItemOf(meds, Filter(f.rows, Sendable())[k])
  {
    var sent := Filter(f.rows, Sendable());
    IssueRequest(f.appointmentId, seq(|sent|, k requires 0 <= k < |sent| => ItemOf(meds, sent[k])))
  }

  /** Every sent item comes from a sendable row, and every sendable row is
      sent. */
  lemma RequestCoversRows(f: Form, meds: seq<Medicine>)
    ensures forall r :: r in f.rows && Sendable()(r) ==> ItemOf(meds, r) in Request(f, meds).items
    ensures forall it :: it in Request(f, meds).items ==>
      exists r :: r in f.rows && Sendable()(r) && it == ItemOf(meds, r)
  {
    var sent := Filter(f.rows, Sendable());
    var req := Request(f, meds);
    forall r | r in f.rows && Sendable()(r) ensures ItemOf(meds, r) in req.items {
      var k :| 0 <= k < |sent| && sent[k] == r;
      assert req.items[k] == ItemOf(meds, r);
    }
    forall it | it in req.items ensures exists r :: r in f.rows && Sendable()(r) && it == ItemOf(meds, r) {
      var k :| 0 <= k < |req.items| && req.items[k] == it;
      assert sent[k] in sent;
    }
  }

  /** A row sent for its typed name alone has a name the server's
      two-character minimum accepts. */
  lemma TypedNamesPassSchema(meds: seq<Medicine>, r: Row)
    requires Sendable()(r) && r.medicineId.None?
    ensures |ItemOf(meds, r).name| >= 2
  {
    TrimShorter(r.name);
  }

  /** Trimming never lengthens a string. */
  lemma TrimShorter(s: string)
    ensures |Trim(s)| <= |s|
  {
  }

  /** A row with a chosen medicine is sent whatever its name, so a
      one-character name next to a chosen medicine makes the whole request
      fail the server's schema. */
  lemma ShortNameWithMedicineIsRejected(m: Medicine, appt: AppointmentId)
    ensures var f := Form("a1", [Row(Some(m.id), "X", "", "", 0, "")]);
      var req := Request(f, [m]);
      |req.items| == 1 && !Prescriptions.IssueBodyValid(Prescriptions.IssueBody(Some(appt), req.items, None))
  {
    var f := Form("a1", [Row(Some(m.id), "X", "", "", 0, "")]);
    assert Filter(f.rows, Sendable()) == f.rows;
  }

  /** The page after pressing Issue: the form, the list of the doctor's
      prescriptions, and the toast. */
  datatype IssueStep = IssueStep(form: Form, mine: seq<Prescriptions.Prescription>, toast: string)

  /** `issue()`: on success the form resets to an empty appointment id and
      one empty row and the new prescription goes first in the list; on
      failure nothing changes but the toast. */
  function Issue(f: Form, meds: seq<Medicine>, mine: seq<Prescriptions.Prescription>,
                 respond: IssueRequest -> Result<Prescriptions.Prescription>): (r: IssueStep)
    ensures respond(Request(f, meds)).Ok? ==>
      r == IssueStep(InitialForm, [respond(Request(f, meds)).value] + mine, "Prescription issued")
    ensures respond(Request(f, meds)).Err? ==> r.form == f && r.mine == mine
  {
    match respond(Request(f, meds))
    case Ok(p) => IssueStep(InitialForm, [p] + mine, "Prescription issued")
    case Err(e) => IssueStep(f, mine, if e.message != "" then e.message else "Failed")
  }

  /** The form right after a reset cannot issue until an appointment id is
      entered and a row is filled. */
  lemma ResetCannotIssue()
    ensures !CanIssue(InitialForm)
  {
  }
}
