/** The admin's doctor table (client/src/pages/admin/AdminDoctors.jsx): the
    search filter and the approval toggle. */
module AdminDoctorsPage {
  import opened Common
  import opened Seqs
  import opened Text
  import opened UserModel

  /** One listed profile with its populated user (absent when the user is
      gone). */
  datatype ProfileRow = ProfileRow(profile: DoctorProfile, userName: Option<string>, userEmail: Option<string>)

  /** `(x || "")`. */
  function OrEmpty(s: Option<string>): string
  {
    if s.Some? then s.value else ""
  }

  /** The search test with the lowercased trimmed query `s`. */
  function MatchesQuery(s: string): ProfileRow -> bool
  {
    (p: ProfileRow) => Contains(Lower(OrEmpty(p.userName)), s) || Contains(Lower(OrEmpty(p.userEmail)), s) ||
      Contains(Lower(p.profile.specialization), s)
  }

  /** `filtered`. */
  function Filtered(items: seq<ProfileRow>, q: string): seq<ProfileRow>
  {
    var s := Lower(Trim(q));
    if s == "" then items else Filter(items, MatchesQuery(s))
  }

  /** A blank query lists every profile; otherwise a profile is listed
      exactly when its doctor's name or email or its specialization
      contains the query ignoring case; the list keeps the loaded order. */
  lemma FilteredSpec(items: seq<ProfileRow>, q: string)
    ensures Trim(q) == "" ==> Filtered(items, q) == items
    ensures Trim(q) != "" ==> forall p :: p in Filtered(items, q) <==>
      p in items && (ContainsIgnoreCase(OrEmpty(p.userName), Trim(q)) || ContainsIgnoreCase(OrEmpty(p.userEmail), Trim(q)) ||
        ContainsIgnoreCase(p.profile.specialization, Trim(q)))
    ensures IsSubsequence(Filtered(items, q), items)
  {
    var s := Lower(Trim(q));
    assert |s| == |Trim(q)|;
    if s == "" {
      SubsequenceRefl(items);
    } else {
      FilterIsSubsequence(items, MatchesQuery(s));
    }
  }

  /** What `toggle` sends and the toast it shows after the server accepts:
      the opposite of the current flag. */
  datatype Toggled = Toggled(approved: bool, toast: string)

  function Toggle(p: DoctorProfile): (t: Toggled)
    ensures t.approved == !p.approved
    ensures t.toast == (if t.approved then "Approved" else "Marked pending")
  {
    Toggled(!p.approved, if !p.approved then "Approved" else "Marked pending")
  }

  /** The approve route's `$set: { approved }`. */
  function SetApproved(p: DoctorProfile, approved: bool): (r: DoctorProfile)
    ensures r.approved == approved && r.(approved := p.approved) == p
  {
    p.(approved := approved)
  }

  /** A toggle flips exactly the approval flag, and toggling again after the
      reload restores the profile. */
  lemma ToggleTwiceRestores(p: DoctorProfile)
    ensures SetApproved(p, Toggle(p).approved).approved != p.approved
    ensures var q := SetApproved(p, Toggle(p).approved); SetApproved(q, Toggle(q).approved) == p
  {
  }
}
