/** The patient's doctor directory (client/src/pages/user/DoctorsPage.jsx):
    the specialization chips derived from the loaded doctors, the list the
    chips and the search box leave, and the default booking date. The clock
    reading behind the date is an input. */
module DoctorsPage {
  import opened Common
  import opened Seqs
  import opened Text

  /** One entry of GET `/api/doctors`: a doctor's user id, name (absent when
      the profile's user is gone) and specialization. */
  datatype DoctorCard = DoctorCard(id: UserId, name: Option<string>, specialization: Option<string>)

  /** A field JavaScript treats as truthy: present and not "". */
  predicate Truthy(s: Option<string>)
  {
    s.Some? && s.value != ""
  }

  /** `items.map(d => d.specialization).filter(Boolean)`. */
  function SpecsOf(items: seq<DoctorCard>): (r: seq<string>)
    ensures forall s :: s in r <==> exists i :: 0 <= i < |items| && Truthy(items[i].specialization) && items[i].specialization.value == s
    ensures |r| <= |items|
    decreases |items|
  {
    if items == [] then []
    else
      var rest := SpecsOf(items[1..]);
      assert forall i :: 0 < i < |items| ==> items[i] == items[1..][i - 1];
      assert forall i :: 0 <= i < |items| - 1 ==> items[1..][i] == items[i + 1];
      (if Truthy(items[0].specialization) then [items[0].specialization.value] else []) + rest
  }

  /** The chips: "All", then each specialization once, in the order the
      doctors first show it. */
  function Specializations(items: seq<DoctorCard>): seq<string>
  {
    ["All"] + Distinct(SpecsOf(items))
  }

  /** The chips start with "All"; after it every specialization some doctor
      has appears, once, nothing else appears, and the order is that of
      first appearance. */
  lemma SpecializationsSpec(items: seq<DoctorCard>)
    ensures var c := Specializations(items);
      |c| >= 1 && c[0] == "All" &&
      (forall s :: s in c[1..] <==>
        exists i :: 0 <= i < |items| && Truthy(items[i].specialization) && items[i].specialization.value == s) &&
      (forall i, j :: 1 <= i < j < |c| ==> c[i] != c[j]) &&
      IsSubsequence(c[1..], SpecsOf(items))
  {
    var c := Specializations(items);
    var d := Distinct(SpecsOf(items));
    assert c[1..] == d;
    DistinctProperties(SpecsOf(items));
    forall i, j | 1 <= i < j < |c| ensures c[i] != c[j] {
      assert c[i] == d[i - 1] && c[j] == d[j - 1];
    }
  }

  /** The chip filter: a doctor of exactly that specialization. */
  function HasSpecialization(spec: string): DoctorCard -> bool
  {
    (d: DoctorCard) => d.specialization == Some(spec)
  }

  /** The search test with the lowercased trimmed term: the lowercased name
      or specialization contains it. */
  function MatchesTerm(term: string): DoctorCard -> bool
  {
    (d: DoctorCard) =>
      (d.name.Some? && Contains(Lower(d.name.value), term)) ||
      (d.specialization.Some? && Contains(Lower(d.specialization.value), term))
  }

  /** The list after the chip: narrowed only when a chip other than "All" is
      selected. */
  function BySpecialization(items: seq<DoctorCard>, selected: Option<string>): seq<DoctorCard>
  {
    if Truthy(selected) && selected.value != "All" then Filter(items, HasSpecialization(selected.value)) else items
  }

  /** `filtered`. */
  function Filtered(items: seq<DoctorCard>, selected: Option<string>, q: string): seq<DoctorCard>
  {
    var term := Lower(Trim(q));
    var list := BySpecialization(items, selected);
    if term == "" then list else Filter(list, MatchesTerm(term))
  }

  /** With a blank search the list is what the chip leaves; otherwise a
      doctor is shown exactly when it passes the chip and its name or
      specialization contains the term; the list keeps the loaded order. */
  lemma FilteredSpec(items: seq<DoctorCard>, selected: Option<string>, q: string)
    ensures Trim(q) == "" ==> Filtered(items, selected, q) == BySpecialization(items, selected)
    ensures Trim(q) != "" ==> forall d :: d in Filtered(items, selected, q) <==>
      d in BySpecialization(items, selected) && MatchesTerm(Lower(Trim(q)))(d)
    ensures forall d :: d in BySpecialization(items, selected) <==>
      d in items && (Truthy(selected) && selected.value != "All" ==> d.specialization == selected)
    ensures IsSubsequence(Filtered(items, selected, q), items)
  {
    var term := Lower(Trim(q));
    assert |term| == |Trim(q)|;
    var list := BySpecialization(items, selected);
    if Truthy(selected) && selected.value != "All" {
      FilterIsSubsequence(items, HasSpecialization(selected.value));
    } else {
      SubsequenceRefl(items);
    }
    if term != "" {
      FilterIsSubsequence(list, MatchesTerm(term));
      SubsequenceTrans(Filtered(items, selected, q), list, items);
    }
  }

  /** The "All" chip, or none, shows every doctor to a blank search. */
  lemma AllChipShowsEveryone(items: seq<DoctorCard>, q: string)
    requires Trim(q) == ""
    ensures Filtered(items, Some("All"), q) == items
    ensures Filtered(items, None, q) == items
  {
  }

  /** `todayStr()`: the local date as `${yyyy}-${mm}-${dd}`, the month
      taken 0-based from the clock and written 1-based, month and day
      padded to two digits. */
  function TodayStr(year: nat, month0: nat, date: nat): string
  {
    NatToString(year) + "-" + PadStart2(NatToString(month0 + 1)) + "-" + PadStart2(NatToString(date))
  }

  /** A year from 1000 to 9999 has four digits. */
  lemma FourDigits(n: nat)
    requires 1000 <= n < 10000
    ensures |NatToString(n)| == 4
  {
    assert NatToString(n / 1000) == [DigitChar(n / 1000)];
    assert |NatToString(n / 100)| == 2 by {
      assert NatToString(n / 100) == NatToString(n / 100 / 10) + [DigitChar(n / 100 % 10)];
      assert n / 100 / 10 == n / 1000;
    }
    assert |NatToString(n / 10)| == 3 by {
      assert NatToString(n / 10) == NatToString(n / 10 / 10) + [DigitChar(n / 10 % 10)];
      assert n / 10 / 10 == n / 100;
    }
  }

  /** For a four-digit year, a 0-based month and a day of the month the
      text is YYYY-MM-DD: ten characters, dashes at 4 and 7, digits
      elsewhere, reading back as the year, the 1-based month and the day. */
  lemma TodayStrShape(year: nat, month0: nat, date: nat)
    requires 1000 <= year < 10000 && month0 < 12 && 1 <= date <= 31
    ensures var s := TodayStr(year, month0, date);
      |s| == 10 && s[4] == '-' && s[7] == '-' &&
      (forall i :: 0 <= i < 10 && i != 4 && i != 7 ==> IsDigit(s[i])) &&
      DigitsValue(s[..4]) == year && DigitsValue(s[5..7]) == month0 + 1 && DigitsValue(s[8..]) == date
  {
    var y := NatToString(year);
    var mm := PadStart2(NatToString(month0 + 1));
    var dd := PadStart2(NatToString(date));
    FourDigits(year);
    NatToStringValue(year);
    Pad2Digits(month0 + 1);
    Pad2Digits(date);
    var s := TodayStr(year, month0, date);
    assert s == y + "-" + mm + "-" + dd;
    assert s[..4] == y;
    assert s[5..7] == mm;
    assert s[8..] == dd;
    forall i | 0 <= i < 10 && i != 4 && i != 7 ensures IsDigit(s[i]) {
      if i < 4 {
        assert s[i] == y[i];
      } else if i < 7 {
        assert s[i] == mm[i - 5];
      } else {
        assert s[i] == dd[i - 8];
      }
    }
  }
}
