/** The admin's catalogue editor (client/src/pages/admin/AdminMedicines.jsx):
    the low-stock alert, the editor's form, the body `save` sends and the
    choice between updating and creating. The numeric inputs are taken as
    the numbers `Number` makes of them. */
module AdminMedicinesPage {
  import opened Common
  import opened Seqs
  import opened Text
  import opened MedicineModel
  import opened UserModel
  import Medicines

  // ---------------------------------------------------------------------------
  // The low-stock alert

  /** A medicine with at most five in stock. The schema gives every
      medicine a stock (0 by default), which is what `|| 0` supplies. */
  function IsLow(): Medicine -> bool
  {
    (m: Medicine) => m.stock <= 5
  }

  /** `lowStock`. */
  function LowStock(items: seq<Medicine>): (r: seq<Medicine>)
    ensures forall m :: m in r <==> m in items && m.stock <= 5
    ensures IsSubsequence(r, items)
  {
    FilterIsSubsequence(items, IsLow());
    Filter(items, IsLow())
  }

  /** The alert: the names shown and whether "…" follows them. */
  datatype Alert = Alert(names: seq<string>, more: bool)

  function AlertOf(low: seq<Medicine>): Alert
  {
    var shown := Take(low, 6);
    Alert(seq(|shown|, i requires 0 <= i < |shown| => shown[i].name), |low| > 6)
  }

  /** The alert's text: the names joined by ", ", then "…" when some are
      left out. */
  function AlertText(a: Alert): string
  {
    Join(a.names, ", ") + (if a.more then "…" else "")
  }

  /** The alert names the first six low-stock medicines in order, at most
      six, and ends with "…" exactly when more than six are low; with six
      or fewer every one is named. */
  lemma AlertSpec(low: seq<Medicine>)
    ensures |AlertOf(low).names| <= 6
    ensures |AlertOf(low).names| == if |low| < 6 then |low| else 6
    ensures forall i :: 0 <= i < |AlertOf(low).names| ==> AlertOf(low).names[i] == low[i].name
    ensures AlertOf(low).more <==> |low| > 6
    ensures |low| <= 6 ==> forall m :: m in low ==> m.name in AlertOf(low).names
  {
    var a := AlertOf(low);
    if |low| <= 6 {
      forall m | m in low ensures m.name in a.names {
        var i :| 0 <= i < |low| && low[i] == m;
        assert a.names[i] == m.name;
      }
    }
  }

  // ---------------------------------------------------------------------------
  // The editor

  /** The editor's form; `id` is None for a new medicine. */
  datatype MedForm = MedForm(
    id: Option<MedId>,
    name: string,
    category: string,
    description: string,
    price: real,
    stock: int,
    rating: real,
    prescriptionRequired: bool,
    icon: string)

  /** `emptyForm`, the form "Add Medicine" opens. */
  const EmptyForm: MedForm := MedForm(None, "", "", "", 0.0, 0, 4.5, false, "\U{1F48A}")

  /** `openEdit(m)`: the stored fields, with "" for a missing description
      and the pill icon for a missing one. */
  function OpenEdit(m: Medicine): (f: MedForm)
    ensures f.id == Some(m.id) && f.name == m.name && f.category == m.category
    ensures f.price == m.price && f.stock == m.stock && f.rating == m.rating
    ensures f.prescriptionRequired == m.prescriptionRequired && f.description == m.description
    ensures f.icon == (if m.icon != "" then m.icon else Medicines.DefaultIcon)
  {
    MedForm(Some(m.id), m.name, m.category, m.description, m.price, m.stock, m.rating, m.prescriptionRequired,
      if m.icon != "" then m.icon else Medicines.DefaultIcon)
  }

  /** The save payload: every field of the form but the id. */
  function Payload(f: MedForm): (b: Medicines.MedFields)
    ensures b == Medicines.MedFields(Some(f.name), Some(f.category), Some(f.description), Some(f.price),
      Some(f.stock), Some(f.prescriptionRequired), Some(f.rating), Some(f.icon))
  {
    Medicines.MedFields(Some(f.name), Some(f.category), Some(f.description), Some(f.price),
      Some(f.stock), Some(f.prescriptionRequired), Some(f.rating), Some(f.icon))
  }

  /** The request `save` makes. */
  datatype SaveRequest = UpdateRequest(id: MedId, body: Medicines.MedFields) | CreateRequest(body: Medicines.MedFields)

  /** `save`: an update when the form has an id (`isEdit`), else a create;
      the body is the same either way. */
  function Save(f: MedForm): (r: SaveRequest)
    ensures r.UpdateRequest? <==> f.id.Some?
    ensures r.UpdateRequest? ==> r.id == f.id.value
    ensures r.body == Payload(f)
  {
    if f.id.Some? then UpdateRequest(f.id.value, Payload(f)) else CreateRequest(Payload(f))
  }

  /** Saving an editor opened on a stored medicine without changes leaves it
      as stored (when it has an icon), and a save of a new form stores what
      the form shows under a fresh id. */
  lemma SaveRoundTrip(m: Medicine, f: MedForm, nextId: MedId)
    requires f.id.None?
    ensures m.icon != "" ==> Save(OpenEdit(m)).UpdateRequest? && Medicines.ApplyFields(m, Save(OpenEdit(m)).body) == m
    ensures Medicines.CreateBodyValid(Payload(f)) ==>
      Medicines.NewMedicine(nextId, Save(f).body) ==
        Medicine(nextId, f.name, f.category, f.description, f.price, f.stock, f.prescriptionRequired, f.rating, f.icon)
  {
  }

  /** The server accepts a save of the form exactly when the name and
      category have two characters or more, the price is at least 1, the
      stock is not negative and the rating is within 0..5; so saving the
      empty form unchanged is refused. */
  lemma SaveAccepted(f: MedForm)
    ensures Medicines.CreateBodyValid(Payload(f)) <==>
      |f.name| >= 2 && |f.category| >= 2 && f.price >= 1.0 && f.stock >= 0 && 0.0 <= f.rating <= 5.0
    ensures !Medicines.CreateBodyValid(Payload(EmptyForm))
  {
  }
}
