/** The admin's subscription table (client/src/pages/admin/AdminSubscriptions.jsx):
    the search filter, the edit form's end date, and the body `save` sends.
    The ISO rendering of a stored end date is an input. */
module AdminSubscriptionsPage {
  import opened Common
  import opened Seqs
  import opened Text
  import opened Subscriptions
  import Admin

  /** One listed subscription with its populated user's name and email
      (absent when the user is gone). */
  datatype SubRow = SubRow(sub: Subscription, userName: Option<string>, userEmail: Option<string>)

  /** `STATUSES`: the status select's choices. */
  const Statuses: seq<string> := ["active", "cancelled", "expired"]

  /** `(x || "")`. */
  function OrEmpty(s: Option<string>): string
  {
    if s.Some? then s.value else ""
  }

  /** The search test with the lowercased trimmed query `s`. */
  function MatchesQuery(s: string): SubRow -> bool
  {
    (x: SubRow) => Contains(Lower(OrEmpty(x.userName)), s) || Contains(Lower(OrEmpty(x.userEmail)), s) ||
      Contains(Lower(PlanName), s) || Contains(Lower(SubStatusName(x.sub.status)), s)
  }

  /** `filtered`. */
  function Filtered(items: seq<SubRow>, q: string): seq<SubRow>
  {
    var s := Lower(Trim(q));
    if s == "" then items else Filter(items, MatchesQuery(s))
  }

  /** A blank query lists everything; otherwise an entry is listed exactly
      when its user's name or email, its plan or its status contains the
      query ignoring case; the list keeps the loaded order. */
  lemma FilteredSpec(items: seq<SubRow>, q: string)
    ensures Trim(q) == "" ==> Filtered(items, q) == items
    ensures Trim(q) != "" ==> forall x :: x in Filtered(items, q) <==>
      x in items && (ContainsIgnoreCase(OrEmpty(x.userName), Trim(q)) || ContainsIgnoreCase(OrEmpty(x.userEmail), Trim(q)) ||
        ContainsIgnoreCase(PlanName, Trim(q)) || ContainsIgnoreCase(SubStatusName(x.sub.status), Trim(q)))
    ensures IsSubsequence(Filtered(items, q), items)
  {
    var s := Lower(Trim(q));
    assert |s| == |Trim(q)|;
    if s == "" {
      SubsequenceRefl(items);
    } else {
      FilterIsSubsequence(items, MatchesQuery(s));
    }
  }

  /** The edit form: the status name and the end date as the date input
      holds it. */
  datatype EditForm = EditForm(status: SubStatus, endAt: string)

  /** Opening the editor: the status, and the first ten characters of the
      end date's ISO text (its `YYYY-MM-DD`), or "" without an end date. */
  function EditFormOf(status: SubStatus, endAtIso: Option<string>): (f: EditForm)
    ensures f.status == status
    ensures endAtIso.None? ==> f.endAt == ""
    ensures endAtIso.Some? ==> f.endAt <= endAtIso.value && |f.endAt| == if |endAtIso.value| < 10 then |endAtIso.value| else 10
  {
    EditForm(status, if endAtIso.Some? then Take(endAtIso.value, 10) else "")
  }

  /** `save`'s body: the status and the end date, nothing else. */
  function SavePayload(f: EditForm): (p: Admin.SubPatch)
    ensures p == Admin.SubPatch(Some(f.status), Some(f.endAt))
  {
    Admin.SubPatch(Some(f.status), Some(f.endAt))
  }

  /** Saving sets the chosen status; it keeps the stored end date when the
      form's date is empty, and otherwise sets the date the form shows. */
  lemma SaveEffect(s: Subscription, f: EditForm, parseDate: string -> Millis)
    ensures Admin.ApplySubPatch(s, SavePayload(f), parseDate).status == f.status
    ensures f.endAt == "" ==> Admin.ApplySubPatch(s, SavePayload(f), parseDate).endAt == s.endAt
    ensures Trim(f.endAt) != "" ==> Admin.ApplySubPatch(s, SavePayload(f), parseDate).endAt == parseDate(f.endAt)
  {
  }

  /** Every choice of the status select is a stored status's name. */
  lemma StatusesAreTheEnum()
    ensures forall x :: x in Statuses <==> exists st: SubStatus :: SubStatusName(st) == x
  {
    assert SubStatusName(SubActive) == Statuses[0];
    assert SubStatusName(SubCancelled) == Statuses[1];
    assert SubStatusName(SubExpired) == Statuses[2];
  }
}
