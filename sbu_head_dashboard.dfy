/** The SBU Head's dashboard: the queue of requests HR has approved and the
    SBU Head has not yet decided, the final approve/reject action, and the
    CSV export of users and requests. */
module SbuHeadView {
  import opened Common
  import opened Records
  import Browser

  /** `r => r.sbuHead === 'Pending' && r.hr === 'Approved'` */
  function AwaitsSbuHead(): LeaveRequest -> bool {
    (r: LeaveRequest) => r.sbuHead == Pending && r.hr == Approved
  }

  /** `loadRequests` */
  function PendingQueue(rs: seq<LeaveRequest>): (q: seq<LeaveRequest>)
    ensures |q| <= |rs|
    ensures forall i :: 0 <= i < |q| ==> q[i] in rs && q[i].sbuHead == Pending && q[i].hr == Approved
    ensures forall i :: 0 <= i < |rs| && rs[i].sbuHead == Pending && rs[i].hr == Approved ==> rs[i] in q
  {
    FilterMembers(rs, AwaitsSbuHead());
    Filter(rs, AwaitsSbuHead())
  }

  /** The last-stage decision, final whatever the first stage said. */
  function SbuDecide(r: LeaveRequest, action: string): (d: LeaveRequest)
    ensures d.sbuHead == action
    ensures d.finalStatus == (if action == Approved then ApprovedFinal else RejectedBySbuHead)
    ensures d.(sbuHead := r.sbuHead, finalStatus := r.finalStatus) == r
  {
    r.(sbuHead := action, finalStatus := if action == Approved then ApprovedFinal else RejectedBySbuHead)
  }

  function SbuDecision(action: string): LeaveRequest -> LeaveRequest {
    (r: LeaveRequest) => SbuDecide(r, action)
  }

  /** Acting with anything but `Pending` takes the request, and only it, out
      of the queue. */
  lemma ActingLeavesQueue(rs: seq<LeaveRequest>, leaveId: string, action: string)
    requires FirstIndex(rs, LeaveIdIs(leaveId)) >= 0 && action != Pending
    ensures var k := FirstIndex(rs, LeaveIdIs(leaveId));
            && PendingQueue(rs) == PendingQueue(rs[..k]) + Filter([rs[k]], AwaitsSbuHead()) + PendingQueue(rs[k + 1..])
            && PendingQueue(UpdateFirst(rs, leaveId, SbuDecision(action))) == PendingQueue(rs[..k]) + PendingQueue(rs[k + 1..])
  {
    var k := FirstIndex(rs, LeaveIdIs(leaveId));
    assert !AwaitsSbuHead()(SbuDecision(action)(rs[k]));
    QueueAfterUpdate(rs, leaveId, SbuDecision(action), AwaitsSbuHead());
  }

  // ------------------------------------------------------------- CSV export

  /** Fields joined by `sep`, with no quoting. */
  function Join(fields: seq<string>, sep: char): string {
    if fields == [] then ""
    else if |fields| == 1 then fields[0]
    else fields[0] + [sep] + Join(fields[1..], sep)
  }

  /** Reading a line back: the pieces between occurrences of `sep`. */
  function Split(s: string, sep: char): (pieces: seq<string>)
    ensures |pieces| >= 1
  {
    if s == [] then [""]
    else
      var rest := Split(s[1..], sep);
      if s[0] == sep then [""] + rest else [[s[0]] + rest[0]] + rest[1..]
  }

  lemma {:induction false} SplitPrefix(w: string, rest: string, sep: char)
    requires sep !in w
    ensures Split(w + rest, sep) == [w + Split(rest, sep)[0]] + Split(rest, sep)[1..]
  {
    var r := Split(rest, sep);
    if w == [] {
      assert w + rest == rest;
      assert w + r[0] == r[0];
      assert r == [r[0]] + r[1..];
    } else {
      assert (w + rest)[1..] == w[1..] + rest;
      assert w[0] in w && forall x :: x in w[1..] ==> x in w;
      SplitPrefix(w[1..], rest, sep);
      assert [w[0]] + (w[1..] + Split(rest, sep)[0]) == w + Split(rest, sep)[0];
    }
  }

  /** Without quoting, a joined line reads back as the same fields when no
      field contains the separator. */
  lemma {:induction false} SplitJoin(fields: seq<string>, sep: char)
    requires |fields| >= 1 && Clean(fields, sep)
    ensures Split(Join(fields, sep), sep) == fields
    decreases |fields|
  {
    if |fields| == 1 {
      SplitPrefix(fields[0], "", sep);
      assert fields[0] + "" == fields[0];
    } else {
      var rest := fields[1..];
      assert forall j :: 0 <= j < |rest| ==> rest[j] == fields[j + 1];
      SplitJoin(rest, sep);
      SplitAtSeparator(Join(rest, sep), sep);
      assert Join(fields, sep) == fields[0] + ([sep] + Join(rest, sep));
      SplitPrefix(fields[0], [sep] + Join(rest, sep), sep);
      assert fields[0] + "" == fields[0];
    }
  }

  /** A leading separator closes an empty first piece. */
  lemma SplitAtSeparator(s: string, sep: char)
    ensures Split([sep] + s, sep) == [""] + Split(s, sep)
  {
    assert ([sep] + s)[1..] == s;
  }

  /** One CSV line. */
  function Line(fields: seq<string>): string {
    Join(fields, ',') + "\n"
  }

  /** One line per element, in order. */
  function Lines<T>(xs: seq<T>, fields: T -> seq<string>): string {
    if xs == [] then "" else Lines(xs[..|xs| - 1], fields) + Line(fields(xs[|xs| - 1]))
  }

  /** `${v}` for a balance; numbers are rendered by the host. */
  function ShowValue(v: Value, showNumber: real -> string): string {
    match v
    case Num(x) => showNumber(x)
    case Text(s) => s
    case Undefined => "undefined"
  }

  function UserFields(u: User, showNumber: real -> string): (fs: seq<string>)
    ensures |fs| == 6
  {
    [u.empId, u.name, u.designation, u.role, ShowValue(u.clBalance, showNumber), ShowValue(u.coBalance, showNumber)]
  }

  function UserRow(showNumber: real -> string): User -> seq<string> {
    (u: User) => UserFields(u, showNumber)
  }

  /** `${r.remarks || ''}` is the remarks text, empty when there are none. */
  function RequestFields(r: LeaveRequest, showNumber: real -> string, showDate: DateField -> string): (fs: seq<string>)
    ensures |fs| == 12
  {
    [r.leaveId, r.empId, r.name, r.leaveType, showDate(r.from), showDate(r.to), showNumber(r.days as real),
     r.siteIncharge, r.hr, r.sbuHead, r.finalStatus, r.remarks]
  }

  function RequestRow(showNumber: real -> string, showDate: DateField -> string): LeaveRequest -> seq<string> {
    (r: LeaveRequest) => RequestFields(r, showNumber, showDate)
  }

  const UsersTitle := "USERS DATA"
  const UserColumns := ["Emp ID", "Name", "Designation", "Role", "CL Balance", "CO Balance"]
  const RequestsTitle := "LEAVE REQUESTS DATA"
  const RequestColumns := ["Leave ID", "Emp ID", "Name", "Leave Type", "From", "To", "Days",
                           "Site Incharge", "HR", "SBU Head", "Final Status", "Remarks"]

  /** A title line followed by the column header line. */
  function Heading(title: string, columns: seq<string>): string {
    title + "\n" + Line(columns)
  }

  const UsersHeading := Heading(UsersTitle, UserColumns)
  const RequestsHeading := Heading(RequestsTitle, RequestColumns)

  /** A users section under `usersHead`, which ends in a newline, then the
      separator `\n\n` (two blank lines) and a requests section under
      `requestsHead`. */
  function Csv(usersHead: string, requestsHead: string, users: seq<User>, requests: seq<LeaveRequest>,
               showNumber: real -> string, showDate: DateField -> string): string
  {
    usersHead + Lines(users, UserRow(showNumber))
    + ("\n\n" + requestsHead + Lines(requests, RequestRow(showNumber, showDate)))
  }

  /** The text `exportToExcel` puts in the downloaded file. */
  function ExportCsv(users: seq<User>, requests: seq<LeaveRequest>,
                     showNumber: real -> string, showDate: DateField -> string): string
  {
    Csv(UsersHeading, RequestsHeading, users, requests, showNumber, showDate)
  }

  /** No field contains `c`. */
  predicate Clean(fields: seq<string>, c: char) {
    forall j :: 0 <= j < |fields| ==> c !in fields[j]
  }

  /** How many times a line of `width` clean fields contains `c`. */
  function PerLine(c: char, width: int): int {
    if c == ',' then width - 1 else if c == '\n' then 1 else 0
  }

  lemma {:induction false} JoinCount(fields: seq<string>, sep: char, c: char)
    requires |fields| >= 1 && Clean(fields, c)
    ensures CountChar(Join(fields, sep), c) == if c == sep then |fields| - 1 else 0
    decreases |fields|
  {
    CountCharAbsent(fields[0], c);
    if |fields| > 1 {
      var rest := fields[1..];
      assert forall j :: 0 <= j < |rest| ==> rest[j] == fields[j + 1];
      JoinCount(rest, sep, c);
      CountCharConcat(fields[0] + [sep], Join(rest, sep), c);
      CountCharConcat(fields[0], [sep], c);
    }
  }

  lemma LineCount(fields: seq<string>, c: char)
    requires |fields| >= 1 && Clean(fields, c) && (c == ',' || c == '\n')
    ensures CountChar(Line(fields), c) == PerLine(c, |fields|)
  {
    JoinCount(fields, ',', c);
    CountCharConcat(Join(fields, ','), "\n", c);
  }

  lemma {:induction false} LinesCount<T>(xs: seq<T>, fields: T -> seq<string>, width: nat, c: char)
    requires width >= 1 && (c == ',' || c == '\n')
    requires forall i :: 0 <= i < |xs| ==> |fields(xs[i])| == width && Clean(fields(xs[i]), c)
    ensures CountChar(Lines(xs, fields), c) == |xs| * PerLine(c, width)
    decreases |xs|
  {
    if xs != [] {
      var init, last := xs[..|xs| - 1], fields(xs[|xs| - 1]);
      assert forall i :: 0 <= i < |init| ==> init[i] == xs[i];
      LinesCount(init, fields, width, c);
      LineCount(last, c);
      CountCharConcat(Lines(init, fields), Line(last), c);
      MulSucc(|init|, PerLine(c, width));
    }
  }

  lemma MulSucc(a: int, n: int)
    ensures (a + 1) * n == a * n + n
  {
  }

  lemma UserColumnsClean(c: char)
    requires c == ',' || c == '\n'
    ensures Clean(UserColumns, c)
  {
    assert c !in "Emp ID" && c !in "Name" && c !in "Designation";
    assert c !in "Role" && c !in "CL Balance" && c !in "CO Balance";
  }

  lemma RequestColumnsClean(c: char)
    requires c == ',' || c == '\n'
    ensures Clean(RequestColumns, c)
  {
    assert c !in "Leave ID" && c !in "Emp ID" && c !in "Name" && c !in "Leave Type";
    assert c !in "From" && c !in "To" && c !in "Days" && c !in "Site Incharge";
    assert c !in "HR" && c !in "SBU Head" && c !in "Final Status" && c !in "Remarks";
  }

  lemma HeadingCount(title: string, columns: seq<string>, c: char)
    requires c !in title && |columns| >= 1 && Clean(columns, c) && (c == ',' || c == '\n')
    ensures CountChar(Heading(title, columns), c) == PerLine(c, |columns|) + (if c == '\n' then 1 else 0)
  {
    CountCharAbsent(title, c);
    LineCount(columns, c);
    CountCharConcat(title, "\n", c);
    CountCharConcat(title + "\n", Line(columns), c);
  }

  lemma HeadingsCount(c: char)
    requires c == ',' || c == '\n'
    ensures CountChar(UsersHeading, c) == (if c == '\n' then 2 else 5)
    ensures CountChar(RequestsHeading, c) == (if c == '\n' then 2 else 11)
  {
    UsersHeadingCount(c);
    RequestsHeadingCount(c);
  }

  lemma UsersHeadingCount(c: char)
    requires c == ',' || c == '\n'
    ensures CountChar(UsersHeading, c) == (if c == '\n' then 2 else 5)
  {
    UserColumnsClean(c);
    assert c !in UsersTitle;
    HeadingCount(UsersTitle, UserColumns, c);
  }

  lemma RequestsHeadingCount(c: char)
    requires c == ',' || c == '\n'
    ensures CountChar(RequestsHeading, c) == (if c == '\n' then 2 else 11)
  {
    RequestColumnsClean(c);
    assert c !in RequestsTitle;
    HeadingCount(RequestsTitle, RequestColumns, c);
  }

  lemma CsvCount(usersHead: string, requestsHead: string, users: seq<User>, requests: seq<LeaveRequest>,
                 showNumber: real -> string, showDate: DateField -> string, c: char)
    requires c == ',' || c == '\n'
    requires forall i :: 0 <= i < |users| ==> Clean(UserFields(users[i], showNumber), c)
    requires forall i :: 0 <= i < |requests| ==> Clean(RequestFields(requests[i], showNumber, showDate), c)
    ensures CountChar(Csv(usersHead, requestsHead, users, requests, showNumber, showDate), c) ==
              CountChar(usersHead, c) + CountChar(requestsHead, c) + (if c == '\n' then 2 else 0)
              + |users| * PerLine(c, 6) + |requests| * PerLine(c, 12)
  {
    var usersPart := Lines(users, UserRow(showNumber));
    var requestsPart := Lines(requests, RequestRow(showNumber, showDate));
    LinesCount(users, UserRow(showNumber), 6, c);
    LinesCount(requests, RequestRow(showNumber, showDate), 12, c);
    assert CountChar("\n\n", c) == (if c == '\n' then 2 else 0);
    CountCharConcat(usersHead, usersPart, c);
    CountCharConcat("\n\n", requestsHead, c);
    CountCharConcat("\n\n" + requestsHead, requestsPart, c);
    CountCharConcat(usersHead + usersPart, "\n\n" + requestsHead + requestsPart, c);
  }

  /** The downloaded file holds 5 + 11 commas in its two headings, 5 per user
      line and 11 per request line, when no field of a row contains a comma. */
  lemma ExportCommas(users: seq<User>, requests: seq<LeaveRequest>,
                     showNumber: real -> string, showDate: DateField -> string)
    requires forall i :: 0 <= i < |users| ==> Clean(UserFields(users[i], showNumber), ',')
    requires forall i :: 0 <= i < |requests| ==> Clean(RequestFields(requests[i], showNumber, showDate), ',')
    ensures CountChar(ExportCsv(users, requests, showNumber, showDate), ',') == 16 + 5 * |users| + 11 * |requests|
  {
    HeadingsCount(',');
    CsvCount(UsersHeading, RequestsHeading, users, requests, showNumber, showDate, ',');
  }

  /** The downloaded file holds 2 + 2 newlines in its headings, 2 between its
      two tables and one ending each row, when no field of a row contains a
      newline. */
  lemma ExportNewlines(users: seq<User>, requests: seq<LeaveRequest>,
                       showNumber: real -> string, showDate: DateField -> string)
    requires forall i :: 0 <= i < |users| ==> Clean(UserFields(users[i], showNumber), '\n')
    requires forall i :: 0 <= i < |requests| ==> Clean(RequestFields(requests[i], showNumber, showDate), '\n')
    ensures CountChar(ExportCsv(users, requests, showNumber, showDate), '\n') == 6 + |users| + |requests|
  {
    HeadingsCount('\n');
    CsvCount(UsersHeading, RequestsHeading, users, requests, showNumber, showDate, '\n');
    assert PerLine('\n', 6) == 1 && PerLine('\n', 12) == 1;
  }

  /** One of the export's two `forEach` loops, appending a line per element. */
  method WriteLines<T>(xs: seq<T>, fields: T -> seq<string>) returns (text: string)
    ensures text == Lines(xs, fields)
  {
    text := "";
    for i := 0 to |xs|
      invariant text == Lines(xs[..i], fields)
    {
      assert xs[..i + 1][..i] == xs[..i] && xs[..i + 1][i] == xs[i];
      text := text + Line(fields(xs[i]));
    }
    assert xs[..|xs|] == xs;
  }

  class SbuHeadDashboard {
    const store: Browser.Storage
    var pendingRequests: seq<LeaveRequest>

    constructor (store: Browser.Storage)
      ensures this.store == store && pendingRequests == PendingQueue(store.Requests())
    {
      this.store := store;
      pendingRequests := PendingQueue(store.Requests());
    }

    method LoadRequests()
      modifies this
      ensures pendingRequests == PendingQueue(store.Requests())
    {
      pendingRequests := PendingQueue(store.Requests());
    }

    /** `handleApproval` */
    method HandleApproval(leaveId: string, action: string)
      modifies this, store
      ensures store.users == old(store.users) && store.currentUser == old(store.currentUser)
      ensures FirstIndex(old(store.Requests()), LeaveIdIs(leaveId)) < 0 ==>
                store.leaveRequests == old(store.leaveRequests) && pendingRequests == old(pendingRequests)
      ensures FirstIndex(old(store.Requests()), LeaveIdIs(leaveId)) >= 0 ==>
                && store.leaveRequests == Some(UpdateFirst(old(store.Requests()), leaveId, SbuDecision(action)))
                && pendingRequests == PendingQueue(store.Requests())
    {
      var requests := store.Requests();
      var requestIndex := FindIndex(requests, LeaveIdIs(leaveId));
      if requestIndex != -1 {
        var request := requests[requestIndex];
        request := request.(sbuHead := action);
        if action == Approved {
          request := request.(finalStatus := ApprovedFinal);
        } else {
          request := request.(finalStatus := RejectedBySbuHead);
        }
        requests := requests[requestIndex := request];
        store.leaveRequests := Some(requests);
        LoadRequests();
      }
    }

    /** `exportToExcel`, up to the download; number and date rendering are
        the host's. */
    method ExportToExcel(showNumber: real -> string, showDate: DateField -> string) returns (csvContent: string)
      ensures csvContent == ExportCsv(store.users, store.Requests(), showNumber, showDate)
    {
      var userLines := WriteLines(store.users, UserRow(showNumber));
      var requestLines := WriteLines(store.Requests(), RequestRow(showNumber, showDate));
      csvContent := UsersHeading + userLines;
      csvContent := csvContent + ("\n\n" + RequestsHeading + requestLines);
    }
  }
}
