/** The administrator's page: every user and request, and a form that
    creates users directly in browser storage. */
module AdminView {
  import opened Common
  import opened Records
  import opened Browser

  /** The text colour a final status is shown in. */
  datatype Tone = Green | Red | Yellow

  /** `getStatusColor`: any status mentioning approval is green, otherwise
      any mentioning rejection red, everything else yellow. */
  function StatusColor(status: string): (t: Tone)
    ensures t == Green <==> Contains(status, Approved)
    ensures t == Red <==> !Contains(status, Approved) && Contains(status, Rejected)
    ensures t == Yellow <==> !Contains(status, Approved) && !Contains(status, Rejected)
  {
    if Contains(status, Approved) then Green
    else if Contains(status, Rejected) then Red
    else Yellow
  }

  lemma OccursFirst(s: string, sub: string)
    requires |sub| <= |s| && s[..|sub|] == sub
    ensures Contains(s, sub)
  {
    assert OccursAt(s, sub, 0);
  }

  /** The approvals the server and the SBU Head write are shown green. */
  lemma ApprovalTones()
    ensures StatusColor(Approved) == Green && StatusColor(ApprovedFinal) == Green
  {
    OccursFirst(Approved, Approved);
    OccursFirst(ApprovedFinal, Approved);
  }

  /** The rejections the server and the two dashboards write are shown red. */
  lemma RejectionTones()
    ensures StatusColor(Rejected) == Red
    ensures StatusColor(RejectedBySiteIncharge) == Red && StatusColor(RejectedBySbuHead) == Red
  {
    RedTone(Rejected);
    RedTone(RejectedBySiteIncharge);
    RedTone(RejectedBySbuHead);
  }

  /** A status opening with the rejection word and lacking the approval
      word's capital is shown red. */
  lemma RedTone(s: string)
    requires |Rejected| <= |s| && s[..|Rejected|] == Rejected && 'A' !in s
    ensures StatusColor(s) == Red
  {
    OccursFirst(s, Rejected);
    Lacks(s, Approved, 0);
  }

  /** The statuses of requests still under review are shown yellow. */
  lemma PendingTones()
    ensures StatusColor(Pending) == Yellow
    ensures StatusColor(PendingAtSiteIncharge) == Yellow && StatusColor(PendingAtHr) == Yellow
  {
    Lacks(Pending, Approved, 0);
    Lacks(Pending, Rejected, 2);
    Lacks(PendingAtSiteIncharge, Approved, 0);
    Lacks(PendingAtSiteIncharge, Rejected, 2);
    Lacks(PendingAtHr, Approved, 0);
    Lacks(PendingAtHr, Rejected, 2);
  }

  /** A status lacking one of a word's letters does not mention the word. */
  lemma Lacks(s: string, word: string, k: int)
    requires 0 <= k < |word| && word[k] !in s
    ensures !Contains(s, word)
  {
    forall i | 0 <= i <= |s| - |word| ensures !OccursAt(s, word, i) {
      assert s[i + k] in s && s[i..i + |word|][k] == s[i + k];
    }
  }

  class AdminDashboard {
    const user: User
    const store: Storage
    var allRequests: seq<LeaveRequest>
    var allUsers: seq<User>
    var formData: UserForm

    /** The mount effect loads both lists. */
    constructor (user: User, store: Storage)
      ensures this.user == user && this.store == store
      ensures allRequests == store.Requests() && allUsers == store.users && formData == DefaultForm
    {
      this.user := user;
      this.store := store;
      allRequests := store.Requests();
      allUsers := store.users;
      formData := DefaultForm;
    }

    /** `handleChange` */
    method HandleChange(field: string, value: string)
      modifies this
      ensures formData == WithField(old(formData), field, value)
      ensures allRequests == old(allRequests) && allUsers == old(allUsers)
    {
      formData := WithField(formData, field, value);
    }

    /** `handleSubmit`: a refused form changes nothing; an accepted one is
        stored, the list reloaded and the form reset. */
    method HandleSubmit()
      modifies this, store
      ensures store.leaveRequests == old(store.leaveRequests) && store.currentUser == old(store.currentUser)
      ensures allRequests == old(allRequests)
      ensures match SubmitForm(old(store.users), old(formData))
              case Added(users) => store.users == users && allUsers == users && formData == DefaultForm
              case _ => store.users == old(store.users) && allUsers == old(allUsers) && formData == old(formData)
    {
      if formData.password != formData.confirmPassword {
        return;
      }
      var users := store.users;
      var existing := FindIndex(users, EmpIdIs(formData.empId));
      if existing != -1 {
        return;
      }
      users := users + [FormUser(formData)];
      store.users := users;
      allUsers := store.users;
      formData := DefaultForm;
    }
  }
}
