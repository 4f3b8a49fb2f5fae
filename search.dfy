/** The global search (server/src/routes/search.routes.js): up to eight
    medicines and up to ten approved doctors whose fields contain the
    trimmed query, ignoring case. */
module Search {
  import opened Common
  import opened Seqs
  import opened Text
  import opened UserModel
  import opened MedicineModel

  const ValidationFailed: Error := Error(400, "Validation failed")

  /** The query schema: `q` of 1 to 64 characters, checked before trimming. */
  predicate QueryValid(q: string)
  {
    1 <= |q| <= 64
  }

  /** The medicine filter: name, category or description contains the term. */
  predicate MedicineHit(m: Medicine, term: string)
  {
    ContainsIgnoreCase(m.name, term) || ContainsIgnoreCase(m.category, term) ||
    ContainsIgnoreCase(m.description, term)
  }

  /** The first profile query: approved, and specialization or qualification
      contains the term. */
  predicate ProfileHit(p: DoctorProfile, term: string)
  {
    p.approved && (ContainsIgnoreCase(p.specialization, term) || ContainsIgnoreCase(p.qualification, term))
  }

  /** The user query: doctors whose name contains the term. */
  predicate DoctorNameHit(u: User, term: string)
  {
    u.role == DoctorRole && ContainsIgnoreCase(u.name, term)
  }

  function UserIds(us: seq<User>): (r: seq<UserId>)
    ensures |r| == |us| && forall i :: 0 <= i < |us| ==> r[i] == us[i].id
  {
    seq(|us|, i requires 0 <= i < |us| => us[i].id)
  }

  /** One doctor in the answer; `id` and `name` come from populating the
      profile's user and are absent when that user no longer exists. */
  datatype DoctorHit = DoctorHit(
    id: Option<UserId>,
    name: Option<string>,
    specialization: string,
    experienceYears: real,
    consultationFee: real,
    rating: real)

  /** `populate("user", "name")` followed by the projection of lines 35-42. */
  function ToHit(users: seq<User>, p: DoctorProfile): (h: DoctorHit)
    ensures h.specialization == p.specialization && h.consultationFee == p.consultationFee
    ensures h.id.Some? ==> h.id == Some(p.user)
    ensures h.id.Some? <==> exists i :: 0 <= i < |users| && users[i].id == p.user
  {
    match FindIndex(users, (u: User) => u.id == p.user)
    case None => DoctorHit(None, None, p.specialization, p.experienceYears, p.consultationFee, p.rating)
    case Some(i) =>
      DoctorHit(Some(users[i].id), Some(users[i].name), p.specialization, p.experienceYears, p.consultationFee, p.rating)
  }

  function ToHits(users: seq<User>, ps: seq<DoctorProfile>): (r: seq<DoctorHit>)
    ensures |r| == |ps| && forall i :: 0 <= i < |ps| ==> r[i] == ToHit(users, ps[i])
  {
    seq(|ps|, i requires 0 <= i < |ps| => ToHit(users, ps[i]))
  }

  /** The medicine query, before its limit. */
  function MedicineHits(meds: seq<Medicine>, term: string): (r: seq<Medicine>)
    ensures forall m :: m in r <==> m in meds && MedicineHit(m, term)
  {
    Filter(meds, (m: Medicine) => MedicineHit(m, term))
  }

  /** The first profile query, before its limit. */
  function FieldHits(profiles: seq<DoctorProfile>, term: string): (r: seq<DoctorProfile>)
    ensures forall p :: p in r <==> p in profiles && ProfileHit(p, term)
  {
    Filter(profiles, (p: DoctorProfile) => ProfileHit(p, term))
  }

  /** The user query, before its limit. */
  function NameHits(users: seq<User>, term: string): (r: seq<User>)
    ensures forall u :: u in r <==> u in users && DoctorNameHit(u, term)
  {
    Filter(users, (u: User) => DoctorNameHit(u, term))
  }

  /** The approved profiles of the given doctor users (skipped when there
      are none). */
  function ByName(profiles: seq<DoctorProfile>, ids: seq<UserId>): (r: seq<DoctorProfile>)
    ensures forall p :: p in r <==> p in profiles && p.approved && p.user in ids
  {
    if ids == [] then [] else Filter(profiles, (p: DoctorProfile) => p.approved && p.user in ids)
  }

  /** The profiles behind the doctor list, before the projection. */
  function DoctorProfiles(profiles: seq<DoctorProfile>, users: seq<User>, term: string): seq<DoctorProfile>
  {
    Take(Take(FieldHits(profiles, term), 8) + ByName(profiles, UserIds(Take(NameHits(users, term), 8))), 10)
  }

  datatype SearchResult = SearchResult(medicines: seq<Medicine>, doctors: seq<DoctorHit>)

  /** GET `/?q=`: the three collections are given in their natural order. */
  function SearchAll(meds: seq<Medicine>, profiles: seq<DoctorProfile>, users: seq<User>, q: string): (r: Result<SearchResult>)
    ensures r.Err? <==> !QueryValid(q)
    ensures r.Err? ==> r.error == ValidationFailed
  {
    if !QueryValid(q) then Err(ValidationFailed)
    else
      var term := Trim(q);
      Ok(SearchResult(Take(MedicineHits(meds, term), 8),
        ToHits(users, DoctorProfiles(profiles, users, term))))
  }

  /** The medicines listed: at most eight, matching, in catalogue order; a
      matching medicine is left out only when eight are listed. */
  lemma MedicineListSpec(meds: seq<Medicine>, term: string)
    ensures var r := Take(MedicineHits(meds, term), 8);
      |r| <= 8 && (forall m :: m in r ==> m in meds && MedicineHit(m, term)) && IsSubsequence(r, meds) &&
      forall m :: m in meds && MedicineHit(m, term) && m !in r ==> |r| == 8
  {
    var ms := MedicineHits(meds, term);
    var r := Take(ms, 8);
    assert forall m :: m in r ==> m in ms;
    FilterIsSubsequence(meds, (m: Medicine) => MedicineHit(m, term));
    PrefixIsSubsequence(r, ms);
    SubsequenceTrans(r, ms, meds);
  }

  /** Every profile behind the doctor list is approved and matches by field
      or through its doctor's name. */
  lemma DoctorProfilesSound(profiles: seq<DoctorProfile>, users: seq<User>, term: string)
    ensures forall p :: p in DoctorProfiles(profiles, users, term) ==>
      p in profiles && p.approved &&
      (ProfileHit(p, term) || exists u :: u in users && u.id == p.user && DoctorNameHit(u, term))
  {
    var byField := Take(FieldHits(profiles, term), 8);
    var named := Take(NameHits(users, term), 8);
    var ids := UserIds(named);
    var all := byField + ByName(profiles, ids);
    forall p | p in DoctorProfiles(profiles, users, term)
      ensures p in profiles && p.approved &&
        (ProfileHit(p, term) || exists u :: u in users && u.id == p.user && DoctorNameHit(u, term))
    {
      assert p in all;
      if p in byField {
        assert p in FieldHits(profiles, term);
      } else {
        var i :| 0 <= i < |ids| && ids[i] == p.user;
        assert named[i] in NameHits(users, term);
      }
    }
  }

  /** A profile matching by field is left out only when the first eight
      listed all match by field. */
  lemma FieldMatchesListed(profiles: seq<DoctorProfile>, users: seq<User>, term: string)
    ensures var d := DoctorProfiles(profiles, users, term);
      forall p :: p in profiles && ProfileHit(p, term) && p !in d ==>
        |d| >= 8 && forall i :: 0 <= i < 8 ==> ProfileHit(d[i], term)
  {
    var byField := Take(FieldHits(profiles, term), 8);
    var d := DoctorProfiles(profiles, users, term);
    assert d[..|byField|] == byField;
    forall p | p in profiles && ProfileHit(p, term) && p !in d
      ensures |d| >= 8 && forall i :: 0 <= i < 8 ==> ProfileHit(d[i], term)
    {
      assert p in FieldHits(profiles, term);
      assert p !in byField;
      forall i | 0 <= i < 8 ensures ProfileHit(d[i], term) {
        assert d[i] == byField[i];
        assert byField[i] in FieldHits(profiles, term);
      }
    }
  }

  /** An approved profile of a doctor matching by name is left out only when
      ten doctors are listed or more than eight doctors match by name. */
  lemma NameMatchesListed(profiles: seq<DoctorProfile>, users: seq<User>, term: string)
    ensures var d := DoctorProfiles(profiles, users, term);
      forall p, u :: p in profiles && p.approved && u in users && u.id == p.user && DoctorNameHit(u, term) && p !in d
        ==> |d| == 10 || |NameHits(users, term)| > 8
  {
    var byField := Take(FieldHits(profiles, term), 8);
    var named := Take(NameHits(users, term), 8);
    var ids := UserIds(named);
    var all := byField + ByName(profiles, ids);
    var d := DoctorProfiles(profiles, users, term);
    forall p, u | p in profiles && p.approved && u in users && u.id == p.user && DoctorNameHit(u, term) && p !in d
      ensures |d| == 10 || |NameHits(users, term)| > 8
    {
      if |NameHits(users, term)| <= 8 {
        assert named == NameHits(users, term);
        var i :| 0 <= i < |named| && named[i] == u;
        assert ids[i] == p.user;
        assert p in all;
      }
    }
  }

  /** At most eight medicines, each a catalogue entry containing the trimmed
      query, in catalogue order, and a matching medicine is left out only
      when eight are listed. At most ten doctors, each from an approved
      profile that matches by specialization or qualification, or whose user
      is a doctor whose name contains the trimmed query. A profile matching
      by field is left out only when the first eight listed all match by
      field; an approved profile of a doctor matching by name is left out
      only when ten are listed or more than eight doctors match by name. */
  lemma SearchSpec(meds: seq<Medicine>, profiles: seq<DoctorProfile>, users: seq<User>, q: string)
    requires QueryValid(q)
    ensures var r := SearchAll(meds, profiles, users, q).value;
      |r.medicines| <= 8 && |r.doctors| <= 10 &&
      (forall m :: m in r.medicines ==> m in meds && MedicineHit(m, Trim(q))) &&
      IsSubsequence(r.medicines, meds)
    ensures var r := SearchAll(meds, profiles, users, q).value;
      forall m :: m in meds && MedicineHit(m, Trim(q)) && m !in r.medicines ==> |r.medicines| == 8
    ensures forall p :: p in DoctorProfiles(profiles, users, Trim(q)) ==>
      p in profiles && p.approved &&
      (ProfileHit(p, Trim(q)) || exists u :: u in users && u.id == p.user && DoctorNameHit(u, Trim(q)))
    ensures var d := DoctorProfiles(profiles, users, Trim(q));
      forall p :: p in profiles && ProfileHit(p, Trim(q)) && p !in d ==>
        |d| >= 8 && forall i :: 0 <= i < 8 ==> ProfileHit(d[i], Trim(q))
    ensures var d := DoctorProfiles(profiles, users, Trim(q));
      forall p, u :: p in profiles && p.approved && u in users && u.id == p.user && DoctorNameHit(u, Trim(q)) &&
                    p !in d
        ==> |d| == 10 || |NameHits(users, Trim(q))| > 8
  {
    var term := Trim(q);
    MedicineListSpec(meds, term);
    DoctorProfilesSound(profiles, users, term);
    FieldMatchesListed(profiles, users, term);
    NameMatchesListed(profiles, users, term);
  }

  /** A query of spaces passes the length check and trims to "", which every
      field contains: the first eight medicines come back unfiltered. */
  lemma BlankQueryMatchesEverything(meds: seq<Medicine>, profiles: seq<DoctorProfile>, users: seq<User>)
    ensures SearchAll(meds, profiles, users, " ").Ok?
    ensures SearchAll(meds, profiles, users, " ").value.medicines == Take(meds, 8)
  {
    assert Trim(" ") == "" by {
      assert TrimStart(" ") == TrimStart(" "[1..]);
    }
    forall m | m in meds ensures MedicineHit(m, "") {
      ContainsEmpty(Lower(m.name));
      assert Lower("") == "";
    }
    FilterAll(meds, (m: Medicine) => MedicineHit(m, ""));
    assert MedicineHits(meds, "") == meds;
  }

  /** A profile found both by specialization and through its doctor's name
      is listed twice: the two lists are concatenated without removing
      repeats. */
  lemma SameDoctorTwice(p: DoctorProfile, u: User)
    requires p.approved && p.specialization == "cardio" && p.user == u.id
    requires u.role == DoctorRole && u.name == "cardio"
    ensures var d := DoctorProfiles([p], [u], "cardio");
      |d| == 2 && d[0] == p && d[1] == p
  {
    assert ContainsIgnoreCase("cardio", "cardio") by {
      ContainsSelf(Lower("cardio"));
    }
    assert Filter([p], (q: DoctorProfile) => ProfileHit(q, "cardio")) == [p];
    assert Filter([u], (v: User) => DoctorNameHit(v, "cardio")) == [u];
    assert UserIds([u]) == [u.id];
    assert Filter([p], (q: DoctorProfile) => q.approved && q.user in [u.id]) == [p];
  }
}
