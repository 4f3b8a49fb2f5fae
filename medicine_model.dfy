/** The medicine catalogue (server/src/models/Medicine.js): medicine documents
    and the collection that checkout decrements. */
module MedicineModel {
  import opened Common

  /** A medicine document. `stock` defaults to 0, `prescriptionRequired` to
      false, `rating` to 4.5, `description` to "". */
  datatype Medicine = Medicine(
    id: MedId,
    name: string,
    category: string,
    description: string,
    price: real,
    stock: int,
    prescriptionRequired: bool,
    rating: real,
    icon: string)

  /** Every stored medicine is filed under its own id and has a non-negative
      stock (the create schema admits only integers >= 0, and the only other
      writer is the guarded decrement of checkout). */
  predicate CatalogValid(meds: map<MedId, Medicine>)
  {
    forall id :: id in meds ==> meds[id].id == id && meds[id].stock >= 0
  }

  /** The medicines collection; `nextId` is the id the next insert gets. */
  class Catalog {
    var meds: map<MedId, Medicine>
    var nextId: MedId

    ghost predicate Valid()
      reads this
    {
      CatalogValid(meds) && forall id :: id in meds ==> id < nextId
    }

    constructor (initial: map<MedId, Medicine>, next: MedId)
      requires CatalogValid(initial) && forall id :: id in initial ==> id < next
      ensures Valid() && meds == initial && nextId == next
    {
      meds := initial;
      nextId := next;
    }
  }
}
