/** The top bar's site search and location chip
    (client/src/components/layout/TopbarSearch.jsx): the pages the dropdown
    offers for a query, when the dropdown opens, and the location label.
    The 180 ms debounce and local storage reads are not part of this model:
    the stored values are parameters. */
module TopbarSearch {
  import opened Common
  import opened Seqs
  import opened Text
  import opened UserModel

  /** An entry of the site-page table. */
  datatype SitePage = SitePage(key: string, title: string, subtitle: string, route: string)

  const SitePages: seq<SitePage> := [
    SitePage("home", "Home", "Overview & quick actions", "/"),
    SitePage("pharmacy", "Pharmacy", "Browse medicines", "/pharmacy"),
    SitePage("doctors", "Doctors", "Find and book doctors", "/doctors"),
    SitePage("appointments", "Appointments", "Your upcoming bookings", "/appointments"),
    SitePage("organizer", "Organizer", "Daily medicine planner", "/organizer"),
    SitePage("prescriptions", "Prescriptions", "Uploaded prescriptions & OCR", "/prescriptions"),
    SitePage("cart", "Cart", "View your cart", "/cart"),
    SitePage("orders", "Your Orders", "Order history & details", "/orders"),
    SitePage("settings", "Settings", "Account settings", "/settings")
  ]

  /** A page matches when its lowercased title or subtitle contains the
      lowercased trimmed query. */
  function PageMatches(q: string): SitePage -> bool
  {
    (p: SitePage) => ContainsIgnoreCase(p.title, Trim(q)) || ContainsIgnoreCase(p.subtitle, Trim(q))
  }

  /** `items`: the first six pages for a blank query, else the first eight
      matching pages. */
  function Items(q: string): seq<SitePage>
  {
    if Lower(Trim(q)) == "" then Take(SitePages, 6) else Take(Filter(SitePages, PageMatches(q)), 8)
  }

  /** The dropdown: the first six pages for a blank query; otherwise pages of
      the table in table order, each matching, at most eight, and every
      matching page when no more than eight match. */
  lemma ItemsSpec(q: string)
    ensures Trim(q) == "" ==> Items(q) == SitePages[..6]
    ensures IsSubsequence(Items(q), SitePages)
    ensures Trim(q) != "" ==>
      |Items(q)| <= 8 &&
      (forall p :: p in Items(q) ==> PageMatches(q)(p)) &&
      (|Filter(SitePages, PageMatches(q))| <= 8 ==>
        forall p :: p in SitePages && PageMatches(q)(p) ==> p in Items(q))
  {
    var f := Filter(SitePages, PageMatches(q));
    FilterIsSubsequence(SitePages, PageMatches(q));
    if Trim(q) == "" {
      PrefixIsSubsequence(SitePages[..6], SitePages);
    } else {
      assert |Lower(Trim(q))| == |Trim(q)|;
      PrefixIsSubsequence(Take(f, 8), f);
      SubsequenceTrans(Take(f, 8), f, SitePages);
      forall p | p in Items(q) ensures PageMatches(q)(p) {
        assert p in f;
      }
    }
  }

  /** The dropdown opens, once typing pauses, exactly when the trimmed query
      is not empty. */
  function OpenAfterTyping(q: string): (open: bool)
    ensures open <==> Trim(q) != ""
  {
    Trim(q) != ""
  }

  /** The stored address when the user has it, else the first. */
  function ChosenAddress(storedId: string, addresses: seq<Address>): (a: Address)
    requires |addresses| > 0
    ensures a in addresses
    ensures a.id == storedId || (a == addresses[0] && forall i :: 0 <= i < |addresses| ==> addresses[i].id != storedId)
    ensures a.id == storedId ==>
      exists i :: 0 <= i < |addresses| && a == addresses[i] && forall j :: 0 <= j < i ==> addresses[j].id != storedId
  {
    match FindIndex(addresses, (x: Address) => x.id == storedId)
    case Some(i) => addresses[i]
    case None => addresses[0]
  }

  /** The location chip: the stored label when both a stored address id and
      a stored label exist; otherwise, when the user has addresses, the city
      (else label) of the stored address or of the first; else
      "Bengaluru". `""` stands for an item missing from storage. */
  function LocationLabel(storedId: string, storedLabel: string, addresses: seq<Address>): (r: string)
    ensures storedId != "" && storedLabel != "" ==> r == storedLabel
    ensures (storedId == "" || storedLabel == "") && |addresses| == 0 ==>
      r == (if storedLabel != "" then storedLabel else "Bengaluru")
    ensures r != ""
  {
    var text :=
      if (storedLabel == "" || storedId == "") && |addresses| > 0 then
        var a := ChosenAddress(storedId, addresses);
        if a.city != "" then a.city else a.addressLabel
      else storedLabel;
    if text != "" then text else "Bengaluru"
  }

  /** `i` is the first position of an address with this id. */
  predicate FirstWithId(addresses: seq<Address>, id: string, i: int)
  {
    0 <= i < |addresses| && addresses[i].id == id && forall j :: 0 <= j < i ==> addresses[j].id != id
  }

  /** With no stored label, the chip names the stored address's city when
      the user has that address and its city is set, and the first
      address's city when the stored id matches none. */
  lemma LocationLabelPicksAddress(storedId: string, addresses: seq<Address>)
    requires |addresses| > 0
    ensures forall i :: FirstWithId(addresses, storedId, i) && addresses[i].city != "" ==>
      LocationLabel(storedId, "", addresses) == addresses[i].city
    ensures (forall i :: 0 <= i < |addresses| ==> addresses[i].id != storedId) && addresses[0].city != "" ==>
      LocationLabel(storedId, "", addresses) == addresses[0].city
  {
    var a := ChosenAddress(storedId, addresses);
    forall i | FirstWithId(addresses, storedId, i) && addresses[i].city != ""
      ensures LocationLabel(storedId, "", addresses) == addresses[i].city
    {
      assert a.id == storedId;
      var k :| 0 <= k < |addresses| && a == addresses[k] && forall j :: 0 <= j < k ==> addresses[j].id != storedId;
      assert k == i;
    }
  }
}
