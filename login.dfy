/** The login page: employees sign in by employee number alone against a
    built-in table; every other role signs in with a stored account. */
module LoginView {
  import opened Common
  import opened Records
  import opened Browser
  import PasswordReset

  /** An entry of the built-in employee table. */
  datatype Employee = Employee(empNo: string, name: string, designation: string, clBalance: real, coBalance: real)

  const TechnicalAssistant := "Technical Assistant"

  const Employees: seq<Employee> := [
    Employee("103741", "Anup Kumar Gupta", TechnicalAssistant, 0.0, 0.0),
    Employee("103768", "Dwarapudi Lahari", TechnicalAssistant, 0.0, 2.0),
    Employee("103782", "Rongali Sai Bhargav", TechnicalAssistant, 0.5, 0.0),
    Employee("103742", "Ch. Jagadeesh", TechnicalAssistant, 1.5, 0.0),
    Employee("103739", "Nisha Choudhary", TechnicalAssistant, 1.0, 0.0),
    Employee("103731", "Abhinay Banjare", TechnicalAssistant, 1.5, 0.0),
    Employee("103755", "Rajat Das", TechnicalAssistant, 1.5, 0.0),
    Employee("103779", "Praveen Kolakaluri", TechnicalAssistant, 1.5, 0.0),
    Employee("103764", "Hari Haran Rachabattuni", TechnicalAssistant, 1.5, 0.0),
    Employee("104341", "Ravi Pothumudi", TechnicalAssistant, 1.5, 0.0),
    Employee("103749", "Koushik Barik", TechnicalAssistant, 1.5, 0.0),
    Employee("103772", "Yograj", TechnicalAssistant, 1.5, 0.0),
    Employee("104322", "Ayush Kumar", TechnicalAssistant, 1.5, 0.0),
    Employee("103774", "Akhilesh Mahto", TechnicalAssistant, 1.5, 0.0),
    Employee("103744", "Rup Kamal", TechnicalAssistant, 1.5, 0.0),
    Employee("103747", "Raj Kumar Singh", TechnicalAssistant, 1.5, 0.0),
    Employee("103748", "Lakesh Kumar", TechnicalAssistant, 1.5, 0.0),
    Employee("103769", "Ashwini Joshi", TechnicalAssistant, 1.5, 0.0),
    Employee("103762", "Sumit", TechnicalAssistant, 1.5, 0.0),
    Employee("103763", "Himanshu Sahu", TechnicalAssistant, 1.5, 0.0),
    Employee("103788", "Jagdish Badhai", TechnicalAssistant, 1.5, 0.0),
    Employee("103729", "Kuleshwar Yadav", TechnicalAssistant, 1.5, 0.0),
    Employee("103726", "Numendra Kumar Baidh", TechnicalAssistant, 1.5, 0.0),
    Employee("103785", "Nitesh Kumar", TechnicalAssistant, 1.5, 0.0),
    Employee("104325", "Chaitanya Ram Sahu", TechnicalAssistant, 1.5, 0.0),
    Employee("103759", "Vikas Kumar Prasad", TechnicalAssistant, 1.5, 0.0)
  ]

  /** The roles the page offers, `Employee` selected first. */
  const Roles := ["Employee", "Site Incharge", "HR", "SBU Head", "Admin"]

  const EmployeeRole := "Employee"

  /** `e => e.empNo === empId` */
  function EmpNoIs(empNo: string): Employee -> bool {
    (e: Employee) => e.empNo == empNo
  }

  /** The user object built for a listed employee: no password and none of
      the optional fields. */
  function EmployeeUser(e: Employee): (u: User)
    ensures u.empId == e.empNo && u.role == EmployeeRole && u.password == None
    ensures u.clBalance == Num(e.clBalance) && u.coBalance == Num(e.coBalance)
  {
    User(e.empNo, e.name, e.designation, EmployeeRole, None, Num(e.clBalance), Num(e.coBalance),
         None, None, None, None, None)
  }

  /** `u => u.empId == empId && u.password === password && u.role === selectedRole`;
      an account without a password never matches. */
  function Credentials(empId: string, password: string, role: string): User -> bool {
    (u: User) => u.empId == empId && u.password == Some(password) && u.role == role
  }

  /** `handleSubmit`: the user passed to `onLogin`, or `None` when the
      attempt fails and `onLogin` is not called. */
  function SignIn(users: seq<User>, role: string, empId: string, password: string): (r: Option<User>)
    ensures role == EmployeeRole ==>
              && (r.Some? <==> exists i :: 0 <= i < |Employees| && Employees[i].empNo == empId)
              && (r.Some? ==> exists i :: 0 <= i < |Employees| && Employees[i].empNo == empId
                                          && r.value == EmployeeUser(Employees[i]))
    ensures role != EmployeeRole ==>
              && (r.Some? <==> exists i :: 0 <= i < |users| && Credentials(empId, password, role)(users[i]))
              && (r.Some? ==> r.value in users && r.value.empId == empId
                              && r.value.password == Some(password) && r.value.role == role)
              && (r.Some? ==> exists k :: 0 <= k < |users| && r.value == users[k]
                                          && Credentials(empId, password, role)(users[k])
                                          && forall j :: 0 <= j < k ==> !Credentials(empId, password, role)(users[j]))
  {
    if role == EmployeeRole then
      var k := FirstIndex(Employees, EmpNoIs(empId));
      if k < 0 then None else Some(EmployeeUser(Employees[k]))
    else
      var k := FirstIndex(users, Credentials(empId, password, role));
      if k < 0 then None else Some(users[k])
  }

  /** Employees sign in by number alone: neither the password typed nor the
      stored accounts play any part. */
  lemma EmployeeSignInIgnoresAccounts(users: seq<User>, others: seq<User>, empId: string, password: string, another: string)
    ensures SignIn(users, EmployeeRole, empId, password) == SignIn(others, EmployeeRole, empId, another)
  {
  }

  /** Where each number stands in the table, read off the table itself. */
  function TablePosition(empNo: string): int {
    match empNo
    case "103741" => 0
    case "103768" => 1
    case "103782" => 2
    case "103742" => 3
    case "103739" => 4
    case "103731" => 5
    case "103755" => 6
    case "103779" => 7
    case "103764" => 8
    case "104341" => 9
    case "103749" => 10
    case "103772" => 11
    case "104322" => 12
    case "103774" => 13
    case "103744" => 14
    case "103747" => 15
    case "103748" => 16
    case "103769" => 17
    case "103762" => 18
    case "103763" => 19
    case "103788" => 20
    case "103729" => 21
    case "103726" => 22
    case "103785" => 23
    case "104325" => 24
    case "103759" => 25
    case _ => -1
  }

  lemma TablePositionOf(i: int)
    requires 0 <= i < |Employees|
    ensures TablePosition(Employees[i].empNo) == i
  {
    if i < 9 {
      TablePositionBelow9(i);
    } else if i < 18 {
      TablePositionBelow18(i);
    } else {
      TablePositionFrom18(i);
    }
  }

  // The table is checked a third at a time, each entry by evaluation.

  lemma TablePositionBelow9(i: int)
    requires 0 <= i < 9
    ensures TablePosition(Employees[i].empNo) == i
  {
    match i
    case 0 =>
    case 1 =>
    case 2 =>
    case 3 =>
    case 4 =>
    case 5 =>
    case 6 =>
    case 7 =>
    case 8 =>
  }

  lemma TablePositionBelow18(i: int)
    requires 9 <= i < 18
    ensures TablePosition(Employees[i].empNo) == i
  {
    match i
    case 9 =>
    case 10 =>
    case 11 =>
    case 12 =>
    case 13 =>
    case 14 =>
    case 15 =>
    case 16 =>
    case 17 =>
  }

  lemma TablePositionFrom18(i: int)
    requires 18 <= i < |Employees|
    ensures TablePosition(Employees[i].empNo) == i
  {
    match i
    case 18 =>
    case 19 =>
    case 20 =>
    case 21 =>
    case 22 =>
    case 23 =>
    case 24 =>
    case 25 =>
  }

  /** No two table entries share an employee number, so a number names one
      employee. */
  lemma EmployeeTableNumbersDistinct()
    ensures forall i, j :: 0 <= i < j < |Employees| ==> Employees[i].empNo != Employees[j].empNo
  {
    forall i, j | 0 <= i < j < |Employees| ensures Employees[i].empNo != Employees[j].empNo {
      TablePositionOf(i);
      TablePositionOf(j);
    }
  }

  /** Every listed employee signs in as the user built from their own
      entry, with that entry's balances. */
  lemma ListedEmployeeSignsIn(users: seq<User>, i: int, password: string)
    requires 0 <= i < |Employees|
    ensures SignIn(users, EmployeeRole, Employees[i].empNo, password) == Some(EmployeeUser(Employees[i]))
  {
    EmployeeTableNumbersDistinct();
    assert EmpNoIs(Employees[i].empNo)(Employees[i]);
  }

  /** An account created through a form with a role other than `Employee`
      can sign in with the id, password and role it was created with. A form
      account with the `Employee` role cannot: that role only consults the
      built-in table. */
  lemma SignUpThenSignIn(users: seq<User>, f: UserForm)
    requires SubmitForm(users, f).Added? && f.role != EmployeeRole
    ensures SignIn(SubmitForm(users, f).users, f.role, f.empId, f.password) == Some(FormUser(f))
  {
    var all := users + [FormUser(f)];
    var p := Credentials(f.empId, f.password, f.role);
    FirstIndexAppend(users, p, FormUser(f));
    assert all[|users|] == FormUser(f);
  }

  /** After a password reset the account signs in with the new password
      under its own role, unless that role is `Employee`. */
  lemma ResetThenSignIn(users: seq<User>, empId: string, newPassword: string)
    requires Registered(users, empId)
    requires users[FirstIndex(users, EmpIdIs(empId))].role != EmployeeRole
    ensures var k := FirstIndex(users, EmpIdIs(empId));
            var reset := PasswordReset.ResetPassword(users, empId, newPassword).value;
            SignIn(reset, users[k].role, empId, newPassword) == Some(reset[k])
  {
    var k := FirstIndex(users, EmpIdIs(empId));
    var reset := PasswordReset.ResetPassword(users, empId, newPassword).value;
    PasswordReset.ResetKeepsAccount(users, empId, newPassword);
    var p := Credentials(empId, newPassword, users[k].role);
    assert p(reset[k]);
    forall j | 0 <= j < k ensures !p(reset[j]) {
      assert reset[j].empId != empId;
    }
  }
}
