/** The two record kinds the application keeps in storage, users and leave
    requests, with the status strings the handlers write into them. */
module Records {
  import opened Common

  /** A stored user. Which optional fields are present depends on the code
      that created the record (server defaults, the admin form, the sign-up
      form, the built-in employee table). */
  datatype User = User(
    empId: string,
    name: string,
    designation: string,
    role: string,
    password: Option<string>,
    clBalance: Value,
    coBalance: Value,
    securityQuestion: Option<string>,
    securityAnswer: Option<string>,
    department: Option<string>,
    dateOfJoining: Option<string>,
    contactInfo: Option<string>)

  /** A leave request. The three stage fields and `finalStatus` hold free
      strings: each handler writes its own vocabulary into them. */
  datatype LeaveRequest = LeaveRequest(
    leaveId: string,
    empId: string,
    name: string,
    designation: string,
    leaveType: string,
    from: DateField,
    to: DateField,
    days: int,
    siteIncharge: string,
    hr: string,
    sbuHead: string,
    finalStatus: string,
    remarks: string,
    submittedDate: int)

  const Pending := "Pending"
  const Approved := "Approved"
  const Rejected := "Rejected"
  const PendingAtSiteIncharge := "Pending at Site Incharge"
  const PendingAtHr := "Pending at HR"
  const ApprovedFinal := "Approved (Final)"
  const RejectedBySiteIncharge := "Rejected by Site Incharge"
  const RejectedBySbuHead := "Rejected by SBU Head"

  /** The state every submission path gives a new request. */
  predicate Unreviewed(r: LeaveRequest) {
    && r.siteIncharge == Pending && r.hr == Pending && r.sbuHead == Pending
    && r.finalStatus == PendingAtSiteIncharge && r.remarks == ""
  }

  /** The request object both submission paths build. */
  function NewRequest(leaveId: string, empId: string, name: string, designation: string,
                      leaveType: string, from: DateField, to: DateField, days: int,
                      submittedDate: int): (r: LeaveRequest)
    ensures Unreviewed(r)
    ensures r.leaveId == leaveId && r.empId == empId && r.days == days
  {
    LeaveRequest(leaveId, empId, name, designation, leaveType, from, to, days,
                 Pending, Pending, Pending, PendingAtSiteIncharge, "", submittedDate)
  }

  /** `r => r.leaveId === leaveId` */
  function LeaveIdIs(leaveId: string): LeaveRequest -> bool {
    (r: LeaveRequest) => r.leaveId == leaveId
  }

  /** `r => r.empId === empId` */
  function FiledBy(empId: string): LeaveRequest -> bool {
    (r: LeaveRequest) => r.empId == empId
  }

  /** `u => u.empId === empId` */
  function EmpIdIs(empId: string): User -> bool {
    (u: User) => u.empId == empId
  }

  /** `findIndex(r => r.leaveId === leaveId)` followed by an in-place change of
      that one request; an unknown id changes nothing. */
  function UpdateFirst(rs: seq<LeaveRequest>, leaveId: string, change: LeaveRequest -> LeaveRequest)
    : (r: seq<LeaveRequest>)
    ensures |r| == |rs|
    ensures FirstIndex(rs, LeaveIdIs(leaveId)) < 0 ==> r == rs
    ensures forall i :: 0 <= i < |rs| && i != FirstIndex(rs, LeaveIdIs(leaveId)) ==> r[i] == rs[i]
    ensures var k := FirstIndex(rs, LeaveIdIs(leaveId));
            k >= 0 ==> r[k] == change(rs[k])
  {
    var k := FirstIndex(rs, LeaveIdIs(leaveId));
    if k < 0 then rs else rs[k := change(rs[k])]
  }

  /** A queue is a filter of the stored requests. When the change takes the
      request out of the queue, the queue afterwards is the queue before
      without that request (if it was in it), the others keeping their order. */
  lemma {:induction false} QueueAfterUpdate(rs: seq<LeaveRequest>, leaveId: string,
                                            change: LeaveRequest -> LeaveRequest, awaits: LeaveRequest -> bool)
    requires FirstIndex(rs, LeaveIdIs(leaveId)) >= 0
    requires !awaits(change(rs[FirstIndex(rs, LeaveIdIs(leaveId))]))
    ensures var k := FirstIndex(rs, LeaveIdIs(leaveId));
            && Filter(rs, awaits) == Filter(rs[..k], awaits) + Filter([rs[k]], awaits) + Filter(rs[k + 1..], awaits)
            && Filter(UpdateFirst(rs, leaveId, change), awaits) == Filter(rs[..k], awaits) + Filter(rs[k + 1..], awaits)
  {
    var k := FirstIndex(rs, LeaveIdIs(leaveId));
    var x := change(rs[k]);
    var r := rs[k := x];
    assert UpdateFirst(rs, leaveId, change) == r;
    FilterAround(rs, k, awaits);
    FilterAround(r, k, awaits);
    assert r[..k] == rs[..k] && r[k + 1..] == rs[k + 1..] && r[k] == x;
    assert Filter([x], awaits) == [];
  }

  predicate Registered(users: seq<User>, empId: string) {
    exists i :: 0 <= i < |users| && users[i].empId == empId
  }

  /** No two stored users share an employee id. */
  predicate UniqueIds(users: seq<User>) {
    forall i, j :: 0 <= i < j < |users| ==> users[i].empId != users[j].empId
  }

  /** What every create-user path relies on: appending a user whose id is
      not yet registered keeps the ids unique and registers it. */
  lemma AppendKeepsUniqueIds(users: seq<User>, u: User)
    requires UniqueIds(users) && !Registered(users, u.empId)
    ensures UniqueIds(users + [u]) && Registered(users + [u], u.empId)
  {
    var all := users + [u];
    forall i, j | 0 <= i < j < |all| ensures all[i].empId != all[j].empId {
      if j == |users| {
        assert all[i] == users[i];
      }
    }
    assert all[|users|] == u;
  }

  /** The form behind the admin's and the sign-up page's user creation. */
  datatype UserForm = UserForm(
    empId: string,
    name: string,
    designation: string,
    role: string,
    password: string,
    confirmPassword: string,
    clBalance: Value,
    coBalance: Value,
    securityQuestion: string,
    securityAnswer: string)

  const DefaultForm := UserForm("", "", "", "Employee", "", "", Num(12.0), Num(0.0), "", "")

  /** The nine-field user both forms store: every form field except the
      confirmation, and none of the server-only profile fields. */
  function FormUser(f: UserForm): (u: User)
    ensures u.empId == f.empId && u.password == Some(f.password) && u.role == f.role
    ensures u.department == None && u.dateOfJoining == None && u.contactInfo == None
  {
    User(f.empId, f.name, f.designation, f.role, Some(f.password), f.clBalance, f.coBalance,
         Some(f.securityQuestion), Some(f.securityAnswer), None, None, None)
  }

  /** `setFormData({ ...formData, [name]: value })`: an input event stores
      its text under the input's name (balances become text once edited). */
  function WithField(f: UserForm, field: string, value: string): UserForm {
    match field
    case "empId" => f.(empId := value)
    case "name" => f.(name := value)
    case "designation" => f.(designation := value)
    case "role" => f.(role := value)
    case "password" => f.(password := value)
    case "confirmPassword" => f.(confirmPassword := value)
    case "clBalance" => f.(clBalance := Text(value))
    case "coBalance" => f.(coBalance := Text(value))
    case "securityQuestion" => f.(securityQuestion := value)
    case "securityAnswer" => f.(securityAnswer := value)
    case _ => f
  }

  /** Typing into a field twice keeps only the second text. */
  lemma WithFieldLastWins(f: UserForm, field: string, first: string, second: string)
    ensures WithField(WithField(f, field, first), field, second) == WithField(f, field, second)
  {
  }

  /** The text an input of the form shows: balances as stored, the other
      fields as text; a name that is no field reads Undefined. */
  function FieldValue(f: UserForm, field: string): Value {
    match field
    case "empId" => Text(f.empId)
    case "name" => Text(f.name)
    case "designation" => Text(f.designation)
    case "role" => Text(f.role)
    case "password" => Text(f.password)
    case "confirmPassword" => Text(f.confirmPassword)
    case "clBalance" => f.clBalance
    case "coBalance" => f.coBalance
    case "securityQuestion" => Text(f.securityQuestion)
    case "securityAnswer" => Text(f.securityAnswer)
    case _ => Undefined
  }

  /** The input names of the form. */
  const FormFields := ["empId", "name", "designation", "role", "password", "confirmPassword",
                       "clBalance", "coBalance", "securityQuestion", "securityAnswer"]

  /** An input event changes the named field to the typed text and no other
      field; a name that is no field changes nothing. */
  lemma WithFieldOnlyNamed(f: UserForm, field: string, value: string, other: string)
    ensures field in FormFields ==> FieldValue(WithField(f, field, value), field) == Text(value)
    ensures field !in FormFields ==> WithField(f, field, value) == f
    ensures other != field ==> FieldValue(WithField(f, field, value), other) == FieldValue(f, other)
  {
  }

  /** How a create-user form submission ends. */
  datatype FormResult = Mismatch | IdTaken | Added(users: seq<User>)

  /** The checks both forms run before storing a user: the two passwords
      must agree, then the id must be new. */
  function SubmitForm(users: seq<User>, f: UserForm): (r: FormResult)
    ensures r == Mismatch <==> f.password != f.confirmPassword
    ensures r == IdTaken <==> f.password == f.confirmPassword && Registered(users, f.empId)
    ensures r.Added? ==> r.users == users + [FormUser(f)]
  {
    if f.password != f.confirmPassword then Mismatch
    else if FirstIndex(users, EmpIdIs(f.empId)) >= 0 then IdTaken
    else Added(users + [FormUser(f)])
  }

  /** A successful submission registers the id and keeps ids unique, so the
      same form submitted again is refused. */
  lemma SubmitFormKeepsIdsUnique(users: seq<User>, f: UserForm)
    requires UniqueIds(users) && SubmitForm(users, f).Added?
    ensures UniqueIds(SubmitForm(users, f).users)
    ensures SubmitForm(SubmitForm(users, f).users, f) == IdTaken
  {
    AppendKeepsUniqueIds(users, FormUser(f));
  }
}

/** The browser's `localStorage`, holding the JSON the front-end pages share. */
module Browser {
  import opened Common
  import opened Records

  /** What a page handler does next: nothing visible, a call of
      `onNavigate(view)`, or an uncaught exception that ends the handler. */
  datatype Outcome = Stay | Navigate(view: string) | Threw

  class Storage {
    /** key `users` (never removed; an absent key reads as `[]`) */
    var users: seq<User>
    /** key `leaveRequests`, removed on logout */
    var leaveRequests: Option<seq<LeaveRequest>>
    /** key `currentUser`, removed on logout */
    var currentUser: Option<User>

    constructor (users: seq<User>, leaveRequests: Option<seq<LeaveRequest>>)
      ensures this.users == users && this.leaveRequests == leaveRequests && currentUser == None
    {
      this.users := users;
      this.leaveRequests := leaveRequests;
      currentUser := None;
    }

    /** `JSON.parse(localStorage.getItem('leaveRequests') || '[]')` */
    function Requests(): seq<LeaveRequest>
      reads this
    {
      leaveRequests.GetOr([])
    }
  }
}
