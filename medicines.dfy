/** The medicine catalogue routes (server/src/routes/medicines.routes.js):
    the paged, filtered listing with its category list, and the admin-only
    create, patch and delete. */
module Medicines {
  import opened Common
  import opened Seqs
  import opened Text
  import opened UserModel
  import opened MedicineModel
  import AuthMiddleware

  const ValidationFailed: Error := Error(400, "Validation failed")

  // ---------------------------------------------------------------------------
  // GET `/`: the listing

  /** The query after number coercion; absent fields are `None`. */
  datatype ListQuery = ListQuery(q: Option<string>, category: Option<string>, page: Option<int>, limit: Option<int>)

  /** `page` defaults to 1 and must be at least 1; `limit` defaults to 12 and
      must lie in 1..50. */
  function PageOf(query: ListQuery): int
  {
    if query.page.Some? then query.page.value else 1
  }

  function LimitOf(query: ListQuery): int
  {
    if query.limit.Some? then query.limit.value else 12
  }

  predicate ListQueryValid(query: ListQuery)
  {
    PageOf(query) >= 1 && 1 <= LimitOf(query) <= 50
  }

  /** `category && category !== "All"`: the category filter applies. */
  predicate FiltersCategory(category: Option<string>)
  {
    category.Some? && category.value != "" && category.value != "All"
  }

  /** The filter document: the exact category, and the escaped `q` matched
      case-insensitively against name, description or category. The escaping
      makes the pattern a literal substring test. */
  predicate ListMatches(m: Medicine, query: ListQuery)
  {
    (FiltersCategory(query.category) ==> m.category == query.category.value) &&
    (query.q.Some? && query.q.value != "" ==>
      ContainsIgnoreCase(m.name, query.q.value) ||
      ContainsIgnoreCase(m.description, query.q.value) ||
      ContainsIgnoreCase(m.category, query.q.value))
  }

  /** The matching documents, in the order of `docs`. */
  function Matching(docs: seq<Medicine>, query: ListQuery): (r: seq<Medicine>)
    ensures |r| <= |docs|
    ensures forall m :: m in r <==> m in docs && ListMatches(m, query)
    ensures IsSubsequence(r, docs)
    decreases |docs|
  {
    if docs == [] then []
    else
      var init := docs[..|docs| - 1];
      var m := docs[|docs| - 1];
      assert docs == init + [m];
      var r := Matching(init, query);
      if ListMatches(m, query) then
        SubsequenceAppend(r, init, m);
        r + [m]
      else
        SubsequenceExtend(r, init, m);
        r
  }

  /** `.skip(k).limit(n)`. */
  function SkipLimit<T>(s: seq<T>, k: nat, n: nat): (r: seq<T>)
    ensures |r| <= n
    ensures k <= |s| ==> r == s[k..if k + n <= |s| then k + n else |s|]
    ensures k > |s| ==> r == []
  {
    if k > |s| then [] else Take(s[k..], n)
  }

  /** The category list: "All" and then the distinct categories of the
      catalogue in sort order. */
  function CategoryList(docs: seq<Medicine>): seq<string>
  {
    ["All"] + SortStrings(Distinct(CategoriesOf(docs)))
  }

  function CategoriesOf(docs: seq<Medicine>): (r: seq<string>)
    ensures |r| == |docs| && forall i :: 0 <= i < |docs| ==> r[i] == docs[i].category
  {
    seq(|docs|, i requires 0 <= i < |docs| => docs[i].category)
  }

  datatype ListPage = ListPage(items: seq<Medicine>, total: nat, page: nat, limit: nat, categories: seq<string>)

  /** `.skip((page-1)*limit).limit(limit)` over the matches. */
  function PageItems(matches: seq<Medicine>, page: nat, limit: nat): seq<Medicine>
    requires page >= 1
  {
    SkipLimit(matches, (page - 1) * limit, limit)
  }

  /** The answer of GET `/`; `docs` is the collection in the order of
      `sort({ updatedAt: -1 })`. */
  function List(docs: seq<Medicine>, query: ListQuery): (r: Result<ListPage>)
    ensures r.Err? <==> !ListQueryValid(query)
    ensures r.Err? ==> r.error == ValidationFailed
    ensures r.Ok? ==> r.value.items == PageItems(Matching(docs, query), PageOf(query), LimitOf(query))
    ensures r.Ok? ==> r.value.total == |Matching(docs, query)| && r.value.categories == CategoryList(docs)
  {
    if !ListQueryValid(query) then Err(ValidationFailed)
    else
      var page, limit := PageOf(query), LimitOf(query);
      var matches := Matching(docs, query);
      Ok(ListPage(PageItems(matches, page, limit), |matches|, page, limit, CategoryList(docs)))
  }

  /** A page holds the matches from position `(page-1)*limit` on, at most
      `limit` of them, in collection order. */
  lemma PageItemsSpec(matches: seq<Medicine>, page: nat, limit: nat)
    requires page >= 1
    ensures var items := PageItems(matches, page, limit);
      var first := (page - 1) * limit;
      |items| <= limit &&
      (first <= |matches| ==> items <= matches[first..]) &&
      (first >= |matches| ==> items == []) &&
      (forall m :: m in items ==> m in matches)
  {
    var first := (page - 1) * limit;
    var items := PageItems(matches, page, limit);
    if first <= |matches| {
      forall m | m in items ensures m in matches {
        var k :| 0 <= k < |items| && items[k] == m;
        assert items[k] == matches[first + k];
      }
    }
  }

  /** The listing's items match the query and come from the catalogue, at
      most `limit` of them; `total` counts every match. */
  lemma ListSpec(docs: seq<Medicine>, query: ListQuery)
    requires ListQueryValid(query)
    ensures var r := List(docs, query).value;
      r.total == |Matching(docs, query)| && |r.items| <= LimitOf(query) &&
      (forall m :: m in r.items ==> m in docs && ListMatches(m, query))
  {
    PageItemsSpec(Matching(docs, query), PageOf(query), LimitOf(query));
  }

  /** Paging covers every match: match `k` is item `k % limit` of page
      `k / limit + 1`. */
  lemma PagesCover(matches: seq<Medicine>, limit: nat, k: nat)
    requires limit >= 1 && k < |matches|
    ensures var items := PageItems(matches, k / limit + 1, limit);
      k % limit < |items| && items[k % limit] == matches[k]
  {
    var first := (k / limit) * limit;
    assert first + k % limit == k;
    assert first <= k;
  }

  /** Without a search term and with no category or "All", the listing
      counts the whole catalogue. */
  lemma UnfilteredTotal(docs: seq<Medicine>, query: ListQuery)
    requires ListQueryValid(query)
    requires query.q.None? || query.q == Some("")
    requires !FiltersCategory(query.category)
    ensures List(docs, query).value.total == |docs|
  {
    assert forall m :: m in docs ==> ListMatches(m, query);
    MatchingAll(docs, query);
  }

  lemma {:induction false} MatchingAll(docs: seq<Medicine>, query: ListQuery)
    requires forall m :: m in docs ==> ListMatches(m, query)
    ensures Matching(docs, query) == docs
    decreases |docs|
  {
    if docs != [] {
      var init := docs[..|docs| - 1];
      assert forall m :: m in init ==> m in docs;
      MatchingAll(init, query);
      assert docs == init + [docs[|docs| - 1]];
    }
  }

  /** The category list starts with "All", then holds each catalogue
      category once, in sort order. */
  lemma CategoryListSpec(docs: seq<Medicine>)
    ensures var r := CategoryList(docs);
      |r| >= 1 && r[0] == "All" && SortedStrings(r[1..]) &&
      multiset(r[1..]) == multiset(Distinct(CategoriesOf(docs))) &&
      (forall c :: c in r[1..] <==> exists m :: m in docs && m.category == c)
  {
    var cats := CategoriesOf(docs);
    var r := CategoryList(docs);
    assert r[1..] == SortStrings(Distinct(cats));
    forall c ensures c in r[1..] <==> exists m :: m in docs && m.category == c {
      calc {
        c in r[1..];
        c in multiset(r[1..]);
        c in multiset(Distinct(cats));
        c in cats;
      }
      if c in cats {
        var i :| 0 <= i < |cats| && cats[i] == c;
        assert docs[i] in docs;
      }
      if exists m :: m in docs && m.category == c {
        var m :| m in docs && m.category == c;
        var i :| 0 <= i < |docs| && docs[i] == m;
        assert cats[i] == c;
      }
    }
  }

  // ---------------------------------------------------------------------------
  // POST, PATCH and DELETE (admins only)

  /** The fields of `medSchema`; `None` is an absent field. */
  datatype MedFields = MedFields(
    name: Option<string>,
    category: Option<string>,
    description: Option<string>,
    price: Option<real>,
    stock: Option<int>,
    prescriptionRequired: Option<bool>,
    rating: Option<real>,
    icon: Option<string>)

  /** The bounds of `medSchema` on the fields that are present. */
  predicate FieldsValid(b: MedFields)
  {
    (b.name.Some? ==> |b.name.value| >= 2) &&
    (b.category.Some? ==> |b.category.value| >= 2) &&
    (b.price.Some? ==> b.price.value >= 1.0) &&
    (b.stock.Some? ==> b.stock.value >= 0) &&
    (b.rating.Some? ==> 0.0 <= b.rating.value <= 5.0)
  }

  /** `medSchema`: name, category and price are required. */
  predicate CreateBodyValid(b: MedFields)
  {
    FieldsValid(b) && b.name.Some? && b.category.Some? && b.price.Some?
  }

  function OrElse<T>(o: Option<T>, d: T): T
  {
    if o.Some? then o.value else d
  }

  const DefaultIcon: string := "\U{1F48A}"

  /** The document `Medicine.create` stores: the schema defaults fill the
      absent optional fields. */
  function NewMedicine(id: MedId, b: MedFields): (m: Medicine)
    requires CreateBodyValid(b)
    ensures m.id == id && m.name == b.name.value && m.category == b.category.value && m.price == b.price.value
    ensures m.description == (if b.description.Some? then b.description.value else "")
    ensures m.stock == (if b.stock.Some? then b.stock.value else 0) && m.stock >= 0
    ensures m.prescriptionRequired == (b.prescriptionRequired == Some(true))
    ensures m.rating == (if b.rating.Some? then b.rating.value else 4.5) && 0.0 <= m.rating <= 5.0
    ensures m.icon == (if b.icon.Some? then b.icon.value else DefaultIcon)
  {
    Medicine(id, b.name.value, b.category.value, OrElse(b.description, ""), b.price.value,
      OrElse(b.stock, 0), OrElse(b.prescriptionRequired, false), OrElse(b.rating, 4.5), OrElse(b.icon, DefaultIcon))
  }

  /** `findByIdAndUpdate(id, body)` with `medSchema.partial()`: the present
      fields replace the stored ones, no default applies. */
  function ApplyFields(m: Medicine, b: MedFields): (r: Medicine)
    ensures r.id == m.id
    ensures b.name.Some? ==> r.name == b.name.value
    ensures b.name.None? ==> r.name == m.name
    ensures b.category.Some? ==> r.category == b.category.value
    ensures b.category.None? ==> r.category == m.category
    ensures b.description.Some? ==> r.description == b.description.value
    ensures b.description.None? ==> r.description == m.description
    ensures b.price.Some? ==> r.price == b.price.value
    ensures b.price.None? ==> r.price == m.price
    ensures b.stock.Some? ==> r.stock == b.stock.value
    ensures b.stock.None? ==> r.stock == m.stock
    ensures b.prescriptionRequired.Some? ==> r.prescriptionRequired == b.prescriptionRequired.value
    ensures b.prescriptionRequired.None? ==> r.prescriptionRequired == m.prescriptionRequired
    ensures b.rating.Some? ==> r.rating == b.rating.value
    ensures b.rating.None? ==> r.rating == m.rating
    ensures b.icon.Some? ==> r.icon == b.icon.value
    ensures b.icon.None? ==> r.icon == m.icon
  {
    Medicine(m.id, OrElse(b.name, m.name), OrElse(b.category, m.category), OrElse(b.description, m.description),
      OrElse(b.price, m.price), OrElse(b.stock, m.stock), OrElse(b.prescriptionRequired, m.prescriptionRequired),
      OrElse(b.rating, m.rating), OrElse(b.icon, m.icon))
  }

  /** An empty patch changes nothing, and patching twice with the same body
      is the same as patching once. */
  lemma ApplyFieldsLaws(m: Medicine, b: MedFields)
    ensures ApplyFields(m, MedFields(None, None, None, None, None, None, None, None)) == m
    ensures ApplyFields(ApplyFields(m, b), b) == ApplyFields(m, b)
  {
  }

  datatype CatalogOutcome<T> = CatalogOutcome(meds: map<MedId, Medicine>, nextId: MedId, result: Result<T>)

  /** POST `/`: 403 for a non-admin, 400 for an invalid body, otherwise the
      new medicine under a fresh id, answered with status 201. */
  function Create(meds: map<MedId, Medicine>, nextId: MedId, me: User, b: MedFields): (r: CatalogOutcome<Medicine>)
    ensures me.role != AdminRole ==> r == CatalogOutcome(meds, nextId, Err(AuthMiddleware.Forbidden))
    ensures me.role == AdminRole && !CreateBodyValid(b) ==> r == CatalogOutcome(meds, nextId, Err(ValidationFailed))
    ensures r.result.Ok? <==> me.role == AdminRole && CreateBodyValid(b)
    ensures r.result.Ok? ==>
      r.result.value.id == nextId && r.meds == meds[nextId := r.result.value] && r.nextId == nextId + 1
  {
    if me.role != AdminRole then CatalogOutcome(meds, nextId, Err(AuthMiddleware.Forbidden))
    else if !CreateBodyValid(b) then CatalogOutcome(meds, nextId, Err(ValidationFailed))
    else
      var m := NewMedicine(nextId, b);
      CatalogOutcome(meds[nextId := m], nextId + 1, Ok(m))
  }

  /** PATCH `/:id`: an unknown id is not an error: the answer's item is
      `null` and nothing changes. */
  function Patch(meds: map<MedId, Medicine>, me: User, id: MedId, b: MedFields): (r: (map<MedId, Medicine>, Result<Option<Medicine>>))
    ensures me.role != AdminRole ==> r == (meds, Err(AuthMiddleware.Forbidden))
    ensures me.role == AdminRole && !FieldsValid(b) ==> r == (meds, Err(ValidationFailed))
    ensures me.role == AdminRole && FieldsValid(b) && id !in meds ==> r == (meds, Ok(None))
    ensures me.role == AdminRole && FieldsValid(b) && id in meds ==>
      r.1 == Ok(Some(ApplyFields(meds[id], b))) && r.0 == meds[id := ApplyFields(meds[id], b)]
  {
    if me.role != AdminRole then (meds, Err(AuthMiddleware.Forbidden))
    else if !FieldsValid(b) then (meds, Err(ValidationFailed))
    else if id !in meds then (meds, Ok(None))
    else
      var m := ApplyFields(meds[id], b);
      (meds[id := m], Ok(Some(m)))
  }

  /** DELETE `/:id`: succeeds for admins whether or not the id exists. */
  function Delete(meds: map<MedId, Medicine>, me: User, id: MedId): (r: (map<MedId, Medicine>, Result<()>))
    ensures me.role != AdminRole ==> r == (meds, Err(AuthMiddleware.Forbidden))
    ensures me.role == AdminRole ==> r.1 == Ok(()) && id !in r.0 && r.0 == meds - {id}
  {
    if me.role != AdminRole then (meds, Err(AuthMiddleware.Forbidden)) else (meds - {id}, Ok(()))
  }

  /** Every catalogue write keeps the stored ids matching and the stocks
      non-negative. */
  lemma WritesKeepCatalogValid(meds: map<MedId, Medicine>, nextId: MedId, me: User, id: MedId, b: MedFields)
    requires CatalogValid(meds) && forall k :: k in meds ==> k < nextId
    ensures var o := Create(meds, nextId, me, b);
      CatalogValid(o.meds) && forall k :: k in o.meds ==> k < o.nextId
    ensures CatalogValid(Patch(meds, me, id, b).0)
    ensures CatalogValid(Delete(meds, me, id).0)
  {
  }

  /** Deleting twice is the same as deleting once. */
  lemma DeleteIdempotent(meds: map<MedId, Medicine>, me: User, id: MedId)
    ensures Delete(Delete(meds, me, id).0, me, id) == Delete(meds, me, id)
  {
    assert (meds - {id}) - {id} == meds - {id};
  }

  method CreateHandler(catalog: Catalog, me: User, b: MedFields) returns (res: Result<Medicine>)
    requires catalog.Valid()
    modifies catalog
    ensures catalog.Valid()
    ensures CatalogOutcome(catalog.meds, catalog.nextId, res) == Create(old(catalog.meds), old(catalog.nextId), me, b)
  {
    var gate := AuthMiddleware.RequireRole(Some(me.role), [AdminRole]);
    if gate.Err? {
      return Err(gate.error);
    }
    if !CreateBodyValid(b) {
      return Err(ValidationFailed);
    }
    var m := NewMedicine(catalog.nextId, b);
    catalog.meds := catalog.meds[catalog.nextId := m];
    catalog.nextId := catalog.nextId + 1;
    res := Ok(m);
  }

  method PatchHandler(catalog: Catalog, me: User, id: MedId, b: MedFields) returns (res: Result<Option<Medicine>>)
    requires catalog.Valid()
    modifies catalog
    ensures catalog.Valid() && catalog.nextId == old(catalog.nextId)
    ensures (catalog.meds, res) == Patch(old(catalog.meds), me, id, b)
  {
    var gate := AuthMiddleware.RequireRole(Some(me.role), [AdminRole]);
    if gate.Err? {
      return Err(gate.error);
    }
    if !FieldsValid(b) {
      return Err(ValidationFailed);
    }
    if id !in catalog.meds {
      return Ok(None);
    }
    var m := ApplyFields(catalog.meds[id], b);
    catalog.meds := catalog.meds[id := m];
    res := Ok(Some(m));
  }

  method DeleteHandler(catalog: Catalog, me: User, id: MedId) returns (res: Result<()>)
    requires catalog.Valid()
    modifies catalog
    ensures catalog.Valid() && catalog.nextId == old(catalog.nextId)
    ensures (catalog.meds, res) == Delete(old(catalog.meds), me, id)
  {
    var gate := AuthMiddleware.RequireRole(Some(me.role), [AdminRole]);
    if gate.Err? {
      return Err(gate.error);
    }
    catalog.meds := catalog.meds - {id};
    res := Ok(());
  }
}
