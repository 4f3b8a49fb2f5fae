/** The admin's user table (client/src/pages/admin/AdminUsers.jsx): the
    search filter and the body the edit dialog saves. */
module AdminUsersPage {
  import opened Common
  import opened Seqs
  import opened Text
  import opened UserModel
  import Admin

  /** The search test with the lowercased trimmed query `s`: the lowercased
      name, email or role name contains it. */
  function MatchesQuery(s: string): User -> bool
  {
    (u: User) => Contains(Lower(u.name), s) || Contains(Lower(u.email), s) || Contains(Lower(RoleName(u.role)), s)
  }

  /** `filtered`: every user for a blank query, else the matching ones. */
  function Filtered(items: seq<User>, q: string): seq<User>
  {
    var s := Lower(Trim(q));
    if s == "" then items else Filter(items, MatchesQuery(s))
  }

  /** A blank query lists every user; otherwise a user is listed exactly
      when its name, email or role contains the query ignoring case; the
      list keeps the loaded order. */
  lemma FilteredSpec(items: seq<User>, q: string)
    ensures Trim(q) == "" ==> Filtered(items, q) == items
    ensures Trim(q) != "" ==> forall u :: u in Filtered(items, q) <==>
      u in items && (ContainsIgnoreCase(u.name, Trim(q)) || ContainsIgnoreCase(u.email, Trim(q)) ||
        ContainsIgnoreCase(RoleName(u.role), Trim(q)))
    ensures IsSubsequence(Filtered(items, q), items)
  {
    var s := Lower(Trim(q));
    assert |s| == |Trim(q)|;
    if s == "" {
      SubsequenceRefl(items);
    } else {
      FilterIsSubsequence(items, MatchesQuery(s));
    }
  }

  /** The edit dialog's copy of a user (`{ ...u }`); a field the user did
      not have stays absent. */
  datatype EditForm = EditForm(name: Option<string>, phone: Option<string>, role: Option<Role>,
                               defaultPaymentMethod: Option<PaymentMethod>)

  /** Opening the dialog on a stored user. */
  function EditFormOf(u: User): (f: EditForm)
    ensures f.name == Some(u.name) && f.phone == Some(u.phone)
    ensures f.role == Some(u.role) && f.defaultPaymentMethod == Some(u.defaultPaymentMethod)
  {
    EditForm(Some(u.name), Some(u.phone), Some(u.role), Some(u.defaultPaymentMethod))
  }

  /** `saveEdit`'s body: name, phone, role and default payment method, and
      nothing else. */
  function SavePayload(f: EditForm): (p: Admin.UserPatch)
    ensures p.name == f.name && p.phone == f.phone && p.role == f.role
    ensures p.defaultPaymentMethod == f.defaultPaymentMethod
  {
    Admin.UserPatch(f.role, f.name, f.phone, f.defaultPaymentMethod)
  }

  /** Saving an edit changes at most the four edited fields; saving the
      dialog unchanged leaves the user as stored but for trimming the name,
      which changes nothing for a name stored through the schema. */
  lemma SaveTouchesOnlyEditedFields(u: User, f: EditForm)
    ensures var r := Admin.ApplyUserPatch(u, SavePayload(f));
      r.id == u.id && r.email == u.email && r.username == u.username && r.passwordHash == u.passwordHash &&
      r.addresses == u.addresses && r.dob == u.dob && r.theme == u.theme
    ensures Admin.ApplyUserPatch(u, SavePayload(EditFormOf(u))) == u.(name := Trim(u.name))
    ensures Trim(u.name) == u.name ==> Admin.ApplyUserPatch(u, SavePayload(EditFormOf(u))) == u
  {
  }

  /** The server takes the save exactly when the name is absent or has at
      least two characters. */
  lemma SaveAccepted(f: EditForm)
    ensures Admin.UserPatchValid(SavePayload(f)) <==> f.name.None? || |f.name.value| >= 2
  {
  }
}
