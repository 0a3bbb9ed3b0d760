/** The Site Incharge's dashboard: the queue of requests awaiting the first
    stage and the approve/reject action on one of them. */
module SiteInchargeView {
  import opened Common
  import opened Records
  import Browser

  /** `r => r.siteIncharge === 'Pending'` */
  function AwaitsSiteIncharge(): LeaveRequest -> bool {
    (r: LeaveRequest) => r.siteIncharge == Pending
  }

  /** `loadRequests`: the stored requests still undecided at this stage, in
      stored order. */
  function PendingQueue(rs: seq<LeaveRequest>): (q: seq<LeaveRequest>)
    ensures |q| <= |rs|
    ensures forall i :: 0 <= i < |q| ==> q[i] in rs && q[i].siteIncharge == Pending
    ensures forall i :: 0 <= i < |rs| && rs[i].siteIncharge == Pending ==> rs[i] in q
  {
    FilterMembers(rs, AwaitsSiteIncharge());
    Filter(rs, AwaitsSiteIncharge())
  }

  /** The first-stage decision: the stage takes the action and the final
      status moves on to HR or records the rejection; nothing else changes. */
  function SiteDecide(r: LeaveRequest, action: string): (d: LeaveRequest)
    ensures d.siteIncharge == action
    ensures d.finalStatus == (if action == Approved then PendingAtHr else RejectedBySiteIncharge)
    ensures d.(siteIncharge := r.siteIncharge, finalStatus := r.finalStatus) == r
  {
    r.(siteIncharge := action, finalStatus := if action == Approved then PendingAtHr else RejectedBySiteIncharge)
  }

  function SiteDecision(action: string): LeaveRequest -> LeaveRequest {
    (r: LeaveRequest) => SiteDecide(r, action)
  }

  /** Acting on a request with anything but `Pending` takes it, and only it,
      out of the queue. */
  lemma ActingLeavesQueue(rs: seq<LeaveRequest>, leaveId: string, action: string)
    requires FirstIndex(rs, LeaveIdIs(leaveId)) >= 0 && action != Pending
    ensures var k := FirstIndex(rs, LeaveIdIs(leaveId));
            && PendingQueue(rs) == PendingQueue(rs[..k]) + Filter([rs[k]], AwaitsSiteIncharge()) + PendingQueue(rs[k + 1..])
            && PendingQueue(UpdateFirst(rs, leaveId, SiteDecision(action))) == PendingQueue(rs[..k]) + PendingQueue(rs[k + 1..])
  {
    var k := FirstIndex(rs, LeaveIdIs(leaveId));
    assert !AwaitsSiteIncharge()(SiteDecision(action)(rs[k]));
    QueueAfterUpdate(rs, leaveId, SiteDecision(action), AwaitsSiteIncharge());
  }

  class SiteInchargeDashboard {
    const store: Browser.Storage
    var pendingRequests: seq<LeaveRequest>

    /** Mounting loads the queue. */
    constructor (store: Browser.Storage)
      ensures this.store == store && pendingRequests == PendingQueue(store.Requests())
    {
      this.store := store;
      pendingRequests := PendingQueue(store.Requests());
    }

    method LoadRequests()
      modifies this
      ensures pendingRequests == PendingQueue(store.Requests())
    {
      pendingRequests := PendingQueue(store.Requests());
    }

    /** `handleApproval`: an unknown id changes nothing (the store is not even
        written); otherwise the request takes the decision and the queue is
        reloaded. */
    method HandleApproval(leaveId: string, action: string)
      modifies this, store
      ensures store.users == old(store.users) && store.currentUser == old(store.currentUser)
      ensures FirstIndex(old(store.Requests()), LeaveIdIs(leaveId)) < 0 ==>
                store.leaveRequests == old(store.leaveRequests) && pendingRequests == old(pendingRequests)
      ensures FirstIndex(old(store.Requests()), LeaveIdIs(leaveId)) >= 0 ==>
                && store.leaveRequests == Some(UpdateFirst(old(store.Requests()), leaveId, SiteDecision(action)))
                && pendingRequests == PendingQueue(store.Requests())
    {
      var requests := store.Requests();
      var requestIndex := FindIndex(requests, LeaveIdIs(leaveId));
      if requestIndex != -1 {
        var request := requests[requestIndex];
        request := request.(siteIncharge := action);
        if action == Approved {
          request := request.(finalStatus := PendingAtHr);
        } else {
          request := request.(finalStatus := RejectedBySiteIncharge);
        }
        requests := requests[requestIndex := request];
        store.leaveRequests := Some(requests);
        LoadRequests();
      }
    }
  }
}
