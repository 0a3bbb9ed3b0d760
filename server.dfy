/** The Express server's leave and user handlers over the server-side
    key-value store (`leaveRequests` and `users`, an absent key reading as the
    empty list), together with the ledger they keep in step.

    The submit and approve handlers call the ledger with two arguments
    (`addLeaveRecord(name, request)` and `updateLeaveStatus(request.name,
    request)`) while both ledger methods take three, so the request object
    arrives as the employee's name and the sheet-name sanitiser fails on it
    (`replace` is not a method of an object). Both handlers therefore write the
    store, leave the ledger untouched and answer with a server error. */
module LeaveServer {
  import opened Common
  import opened Records
  import Ledger

  /** What a handler answers. */
  datatype Response =
    | Created(user: User)
    | NotFound
    | IdExists
    | ServerError

  // ------------------------------------------------------- approval decisions

  predicate AllApproved(r: LeaveRequest) {
    r.siteIncharge == Approved && r.hr == Approved && r.sbuHead == Approved
  }

  predicate AnyRejected(r: LeaveRequest) {
    r.siteIncharge == Rejected || r.hr == Rejected || r.sbuHead == Rejected
  }

  const SiteInchargeRole := "siteincharge"
  const HrRole := "hr"
  const SbuHeadRole := "sbuhead"

  /** The decision an approver records on one request: the stage named by
      `approverRole` takes `status`, the final status follows the three
      stages, and the remarks are overwritten. */
  function Decide(r: LeaveRequest, approverRole: string, status: string, remarks: Option<string>): (d: LeaveRequest)
    ensures d.siteIncharge == (if approverRole == SiteInchargeRole then status else r.siteIncharge)
    ensures d.hr == (if approverRole == HrRole then status else r.hr)
    ensures d.sbuHead == (if approverRole == SbuHeadRole then status else r.sbuHead)
    ensures d.finalStatus == ApprovedFinal <==>
              AllApproved(d) || (!AnyRejected(d) && r.finalStatus == ApprovedFinal)
    ensures AnyRejected(d) ==> d.finalStatus == Rejected
    ensures !AllApproved(d) && !AnyRejected(d) ==> d.finalStatus == r.finalStatus
    ensures d.remarks == (if remarks.Some? then remarks.value else "")
    ensures d.(siteIncharge := r.siteIncharge, hr := r.hr, sbuHead := r.sbuHead,
               finalStatus := r.finalStatus, remarks := r.remarks) == r
  {
    var staged :=
      if approverRole == SiteInchargeRole then r.(siteIncharge := status)
      else if approverRole == HrRole then r.(hr := status)
      else if approverRole == SbuHeadRole then r.(sbuHead := status)
      else r;
    var finalStatus :=
      if AllApproved(staged) then ApprovedFinal
      else if AnyRejected(staged) then Rejected
      else staged.finalStatus;
    staged.(finalStatus := finalStatus, remarks := remarks.GetOr(""))
  }

  /** Repeating a decision changes nothing. */
  lemma DecideIdempotent(r: LeaveRequest, approverRole: string, status: string, remarks: Option<string>)
    ensures var d := Decide(r, approverRole, status, remarks);
            Decide(d, approverRole, status, remarks) == d
  {
  }

  /** An unrecognised role records no decision: only the remarks change, and
      a stale final status is recomputed from the unchanged stages. */
  lemma UnknownRoleDecidesNothing(r: LeaveRequest, approverRole: string, status: string, remarks: Option<string>)
    requires approverRole != SiteInchargeRole && approverRole != HrRole && approverRole != SbuHeadRole
    ensures var d := Decide(r, approverRole, status, remarks);
            d.siteIncharge == r.siteIncharge && d.hr == r.hr && d.sbuHead == r.sbuHead
  {
  }

  predicate IsApproverRole(role: string) {
    role == SiteInchargeRole || role == HrRole || role == SbuHeadRole
  }

  /** The decision field an approver role names. */
  function StageOf(r: LeaveRequest, role: string): string
    requires IsApproverRole(role)
  {
    if role == SiteInchargeRole then r.siteIncharge else if role == HrRole then r.hr else r.sbuHead
  }

  /** The three approvals, given in any order, make any request final. */
  lemma ThreeApprovalsInAnyOrder(r: LeaveRequest, first: string, second: string, third: string,
                                 m1: Option<string>, m2: Option<string>, m3: Option<string>)
    requires IsApproverRole(first) && IsApproverRole(second) && IsApproverRole(third)
    requires first != second && second != third && first != third
    ensures var d := Decide(Decide(Decide(r, first, Approved, m1), second, Approved, m2), third, Approved, m3);
            d.finalStatus == ApprovedFinal
  {
    var d1 := Decide(r, first, Approved, m1);
    var d2 := Decide(d1, second, Approved, m2);
    var d3 := Decide(d2, third, Approved, m3);
    assert StageOf(d1, first) == Approved;
    assert StageOf(d2, first) == Approved && StageOf(d2, second) == Approved;
    assert StageOf(d3, first) == Approved && StageOf(d3, second) == Approved && StageOf(d3, third) == Approved;
  }

  /** No state is terminal: a rejected request whose rejecting stage is
      overwritten with an approval, the other two being approved, becomes
      final. */
  lemma RejectionCanBeOverturned(r: LeaveRequest, approverRole: string, remarks: Option<string>)
    requires r.finalStatus == Rejected && IsApproverRole(approverRole)
    requires forall other :: IsApproverRole(other) && other != approverRole ==> StageOf(r, other) == Approved
    ensures Decide(r, approverRole, Approved, remarks).finalStatus == ApprovedFinal
  {
    assert StageOf(r, SiteInchargeRole) == r.siteIncharge;
    assert StageOf(r, HrRole) == r.hr;
    assert StageOf(r, SbuHeadRole) == r.sbuHead;
  }

  /** The change `/api/leave/approve` makes to the request it finds. */
  function Decision(approverRole: string, status: string, remarks: Option<string>): LeaveRequest -> LeaveRequest {
    (r: LeaveRequest) => Decide(r, approverRole, status, remarks)
  }

  // ------------------------------------------------------------------ users

  /** The body of `/api/user/create`. A left-out optional field or name is
      None, and a left-out balance is Undefined. */
  datatype UserBody = UserBody(
    empId: string,
    name: Option<string>,
    designation: string,
    role: string,
    password: Option<string>,
    clBalance: Value,
    coBalance: Value,
    securityQuestion: Option<string>,
    securityAnswer: Option<string>,
    department: Option<string>,
    dateOfJoining: Option<string>,
    contactInfo: Option<string>)

  /** `s || ''` for an optional string field. */
  function TextOrBlank(s: Option<string>): (r: Option<string>)
    ensures r.Some? && (s.Some? && s.value != "" ==> r == s) && (s.None? ==> r == Some(""))
  {
    Some(s.GetOr(""))
  }

  /** The stored user: balances default to 12 and 0 when falsy, the profile
      fields to the empty string. A missing name is kept as the empty name. */
  function ServerUser(b: UserBody): (u: User)
    ensures u.empId == b.empId && u.role == b.role && u.password == b.password
    ensures b.name.Some? ==> u.name == b.name.value
    ensures b.name.None? ==> u.name == ""
    ensures Falsy(b.clBalance) ==> u.clBalance == Num(12.0)
    ensures !Falsy(b.clBalance) ==> u.clBalance == b.clBalance
    ensures Falsy(b.coBalance) ==> u.coBalance == Num(0.0)
    ensures !Falsy(b.coBalance) ==> u.coBalance == b.coBalance
    ensures u.department.Some? && u.dateOfJoining.Some? && u.contactInfo.Some?
  {
    User(b.empId, b.name.GetOr(""), b.designation, b.role, b.password,
         OrElse(b.clBalance, Num(12.0)), OrElse(b.coBalance, Num(0.0)),
         b.securityQuestion, b.securityAnswer,
         TextOrBlank(b.department), TextOrBlank(b.dateOfJoining), TextOrBlank(b.contactInfo))
  }

  /** One step of `insertDefaultUsers`: push the default unless its id is taken. */
  function SeedOne(users: seq<User>, u: User): (r: seq<User>)
    ensures Registered(r, u.empId)
    ensures r == users || r == users + [u]
    ensures Registered(users, u.empId) <==> r == users
  {
    if Registered(users, u.empId) then users
    else
      assert (users + [u])[|users|] == u;
      users + [u]
  }

  /** `insertDefaultUsers` over a list of defaults, in list order: the users
      before stay a prefix, and only defaults are added, at most one each. */
  function Seed(users: seq<User>, defaults: seq<User>): (r: seq<User>)
    ensures |users| <= |r| <= |users| + |defaults| && r[..|users|] == users
    ensures forall i :: |users| <= i < |r| ==> r[i] in defaults
    decreases |defaults|
  {
    if defaults == [] then users
    else
      var next := SeedOne(users, defaults[0]);
      var r := Seed(next, defaults[1..]);
      assert r[..|users|] == r[..|next|][..|users|];
      assert forall x :: x in defaults[1..] ==> x in defaults;
      r
  }

  /** Seeding only appends, so whatever was registered stays registered. */
  lemma {:induction false} SeedKeeps(users: seq<User>, defaults: seq<User>, empId: string)
    requires Registered(users, empId)
    ensures Registered(Seed(users, defaults), empId)
    decreases |defaults|
  {
    if defaults != [] {
      var next := SeedOne(users, defaults[0]);
      assert Registered(next, empId) by {
        var i :| 0 <= i < |users| && users[i].empId == empId;
        assert next[i] == users[i];
      }
      SeedKeeps(next, defaults[1..], empId);
    }
  }

  /** After seeding, every default's id is registered. */
  lemma {:induction false} SeedRegistersAll(users: seq<User>, defaults: seq<User>)
    ensures forall i :: 0 <= i < |defaults| ==> Registered(Seed(users, defaults), defaults[i].empId)
    decreases |defaults|
  {
    if defaults != [] {
      var next := SeedOne(users, defaults[0]);
      SeedKeeps(next, defaults[1..], defaults[0].empId);
      SeedRegistersAll(next, defaults[1..]);
      forall i | 1 <= i < |defaults|
        ensures Registered(Seed(users, defaults), defaults[i].empId)
      {
        assert defaults[i] == defaults[1..][i - 1];
      }
    }
  }

  /** Seeding when every default is already registered changes nothing. */
  lemma {:induction false} SeedRegisteredIsIdentity(users: seq<User>, defaults: seq<User>)
    requires forall i :: 0 <= i < |defaults| ==> Registered(users, defaults[i].empId)
    ensures Seed(users, defaults) == users
    decreases |defaults|
  {
    if defaults != [] {
      assert Registered(users, defaults[0].empId);
      assert forall i :: 0 <= i < |defaults[1..]| ==> defaults[1..][i] == defaults[i + 1];
      SeedRegisteredIsIdentity(users, defaults[1..]);
    }
  }

  /** Seeding twice equals seeding once. */
  lemma SeedIdempotent(users: seq<User>, defaults: seq<User>)
    ensures Seed(Seed(users, defaults), defaults) == Seed(users, defaults)
  {
    SeedRegistersAll(users, defaults);
    SeedRegisteredIsIdentity(Seed(users, defaults), defaults);
  }

  /** Seeding keeps employee ids unique. */
  lemma {:induction false} SeedKeepsUniqueIds(users: seq<User>, defaults: seq<User>)
    requires UniqueIds(users)
    ensures UniqueIds(Seed(users, defaults))
    decreases |defaults|
  {
    if defaults != [] {
      if !Registered(users, defaults[0].empId) {
        AppendKeepsUniqueIds(users, defaults[0]);
      }
      SeedKeepsUniqueIds(SeedOne(users, defaults[0]), defaults[1..]);
    }
  }

  const MaidenName := "What is your mother's maiden name?"

  /** The SBU Head, HR and Site Incharge accounts the server seeds. */
  const DefaultUsers: seq<User> := [
    User("SBU001", "John Doe", "SBU Head", "SBU Head", Some("sbu@123"), Num(12.0), Num(0.0),
         Some(MaidenName), Some("Smith"), Some("Management"), Some("2023-01-01"), Some("john@example.com")),
    User("HR001", "Jane Smith", "HR Manager", "HR", Some("hr@123"), Num(12.0), Num(0.0),
         Some(MaidenName), Some("Smith"), Some("HR"), Some("2023-01-01"), Some("jane@example.com")),
    User("SITE001", "Bob Johnson", "Site Incharge", "Site Incharge", Some("site@123"), Num(12.0), Num(0.0),
         Some(MaidenName), Some("Smith"), Some("Operations"), Some("2023-01-01"), Some("bob@example.com"))
  ]

  /** The server process: its key-value store and its ledger. */
  class Server {
    var users: seq<User>
    var leaveRequests: seq<LeaveRequest>
    const excel: Ledger.ExcelManager

    ghost predicate Valid()
      reads this, excel
    {
      Ledger.Valid(excel.workbook)
    }

    constructor (users: seq<User>, leaveRequests: seq<LeaveRequest>, excel: Ledger.ExcelManager)
      requires Ledger.Valid(excel.workbook)
      ensures Valid()
      ensures this.users == users && this.leaveRequests == leaveRequests && this.excel == excel
    {
      this.users := users;
      this.leaveRequests := leaveRequests;
      this.excel := excel;
    }

    /** `/api/leave/submit`, with the generated id and the clock as inputs. */
    method Submit(leaveId: string, empId: string, name: string, designation: string, leaveType: string,
                  from: DateField, to: DateField, days: int, now: int) returns (res: Response)
      modifies this
      ensures leaveRequests ==
                old(leaveRequests) + [NewRequest(leaveId, empId, name, designation, leaveType, from, to, days, now)]
      ensures users == old(users) && unchanged(excel)
      ensures res == ServerError
    {
      var leaveRequest := NewRequest(leaveId, empId, name, designation, leaveType, from, to, days, now);
      var allRequests := leaveRequests;
      allRequests := allRequests + [leaveRequest];
      leaveRequests := allRequests;
      // addLeaveRecord(name, leaveRequest) fails before touching the workbook
      res := ServerError;
    }

    /** `/api/leave/approve` */
    method Approve(leaveId: string, approverRole: string, status: string, remarks: Option<string>)
      returns (res: Response)
      modifies this
      ensures leaveRequests == UpdateFirst(old(leaveRequests), leaveId, Decision(approverRole, status, remarks))
      ensures res == (if FirstIndex(old(leaveRequests), LeaveIdIs(leaveId)) < 0 then NotFound else ServerError)
      ensures users == old(users) && unchanged(excel)
    {
      var allRequests := leaveRequests;
      var requestIndex := FindIndex(allRequests, LeaveIdIs(leaveId));
      if requestIndex == -1 {
        return NotFound;
      }
      var request := allRequests[requestIndex];
      if approverRole == SiteInchargeRole {
        request := request.(siteIncharge := status);
      } else if approverRole == HrRole {
        request := request.(hr := status);
      } else if approverRole == SbuHeadRole {
        request := request.(sbuHead := status);
      }
      if AllApproved(request) {
        request := request.(finalStatus := ApprovedFinal);
      } else if AnyRejected(request) {
        request := request.(finalStatus := Rejected);
      }
      request := request.(remarks := remarks.GetOr(""));
      allRequests := allRequests[requestIndex := request];
      leaveRequests := allRequests;
      // updateLeaveStatus(request.name, request) fails before touching the workbook
      res := ServerError;
    }

    /** `/api/user/create` */
    method CreateUser(body: UserBody) returns (res: Response)
      requires Valid() && body.name != Some("")
      modifies this, excel
      ensures Valid() && leaveRequests == old(leaveRequests)
      ensures Registered(old(users), body.empId) ==>
                res == IdExists && users == old(users) && excel.workbook == old(excel.workbook)
      ensures !Registered(old(users), body.empId) ==> users == old(users) + [ServerUser(body)]
      ensures !Registered(old(users), body.empId) && body.name.None? ==>
                res == ServerError && excel.workbook == old(excel.workbook)
      ensures !Registered(old(users), body.empId) && body.name.Some? ==>
                && res == Created(ServerUser(body))
                && excel.workbook == Ledger.CreateSheet(old(excel.workbook), body.empId, body.name.value)
    {
      var existing := FindIndex(users, EmpIdIs(body.empId));
      if existing != -1 {
        return IdExists;
      }
      var newUser := ServerUser(body);
      users := users + [newUser];
      if body.name.None? {
        // sanitising the missing name throws: the user stays stored
        return ServerError;
      }
      excel.CreateEmployeeSheet(body.empId, body.name.value);
      res := Created(newUser);
    }

    /** `insertDefaultUsers` */
    method InsertDefaultUsers()
      modifies this
      ensures users == Seed(old(users), DefaultUsers)
      ensures leaveRequests == old(leaveRequests) && unchanged(excel)
    {
      InsertUsers(DefaultUsers);
    }

    /** The `forEach` of `insertDefaultUsers` over any list of defaults. */
    method InsertUsers(defaults: seq<User>)
      modifies this
      ensures users == Seed(old(users), defaults)
      ensures leaveRequests == old(leaveRequests) && unchanged(excel)
    {
      for i := 0 to |defaults|
        invariant Seed(users, defaults[i..]) == Seed(old(users), defaults)
        invariant leaveRequests == old(leaveRequests)
      {
        var u := defaults[i];
        assert defaults[i..][0] == u && defaults[i..][1..] == defaults[i + 1..];
        var next := SeedOne(users, u);
        assert Seed(users, defaults[i..]) == Seed(next, defaults[i + 1..]);
        var found := FindIndex(users, EmpIdIs(u.empId));
        if found == -1 {
          assert !Registered(users, u.empId);
          users := users + [u];
        } else {
          assert EmpIdIs(u.empId)(users[found]);
        }
        assert users == next;
      }
    }
  }
}
