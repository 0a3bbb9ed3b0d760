/** The spreadsheet ledger kept by `ExcelManager`: a workbook with one
    `Summary` sheet (one row per employee: total, taken and remaining leave)
    and one sheet per employee listing that employee's leave records.

    Every sheet's first row is a fixed header; the model stores only the rows
    below it, so position 0 here is row 1 of the sheet. A sheet holds rows of
    either shape, because an employee whose sanitised name is `Summary` has
    the summary sheet itself as "their" sheet. */
module Ledger {
  import opened Common
  import opened Records

  const SummarySheet := "Summary"
  /** The spreadsheet format's limit on sheet-name length. */
  const SheetNameLimit := 31
  const DefaultTotalLeaves := 20

  datatype Row =
    | SummaryRow(employeeId: string, employeeName: string, totalLeaves: int,
                 leavesTaken: int, leavesRemaining: int)
    | LeaveRow(date: DateField, leaveType: string, from: DateField, to: DateField,
               days: int, status: string, remarks: string)

  /** `workbook.SheetNames` (in order) and `workbook.Sheets`. */
  datatype Workbook = Workbook(sheetNames: seq<string>, sheets: map<string, seq<Row>>)

  predicate Distinct(names: seq<string>) {
    forall i, j :: 0 <= i < j < |names| ==> names[i] != names[j]
  }

  /** Every listed sheet exists, only listed sheets exist, no name is listed
      twice, and the summary sheet is among them. */
  predicate Valid(wb: Workbook) {
    && SummarySheet in wb.sheetNames
    && (forall n :: n in wb.sheetNames ==> n in wb.sheets)
    && (forall n :: n in wb.sheets ==> n in wb.sheetNames)
    && Distinct(wb.sheetNames)
  }

  /** The workbook `ensureFileExists` creates when there is no file yet. */
  const EmptyWorkbook := Workbook([SummarySheet], map[SummarySheet := []])

  function Summary(wb: Workbook): seq<Row>
    requires Valid(wb)
  {
    wb.sheets[SummarySheet]
  }

  /** The workbook with its summary rows replaced. */
  function WithSummary(wb: Workbook, rows: seq<Row>): (r: Workbook)
    requires Valid(wb)
    ensures Valid(r) && r.sheetNames == wb.sheetNames && Summary(r) == rows
    ensures forall n :: n in r.sheets && n != SummarySheet ==> n in wb.sheets && r.sheets[n] == wb.sheets[n]
  {
    wb.(sheets := wb.sheets[SummarySheet := rows])
  }

  /** The workbook with the rows of one listed sheet replaced. */
  function WithSheet(wb: Workbook, name: string, rows: seq<Row>): (r: Workbook)
    requires Valid(wb) && name in wb.sheetNames
    ensures Valid(r) && r.sheetNames == wb.sheetNames && r.sheets[name] == rows
    ensures forall n :: n in r.sheets && n != name ==> n in wb.sheets && r.sheets[n] == wb.sheets[n]
  {
    wb.(sheets := wb.sheets[name := rows])
  }

  // ------------------------------------------------------------ sheet names

  predicate IsAlnum(c: char) {
    'a' <= c <= 'z' || 'A' <= c <= 'Z' || '0' <= c <= '9'
  }

  predicate SheetChar(c: char) {
    IsAlnum(c) || c == '_'
  }

  /** `name.replace(/[^a-zA-Z0-9]/g, '_')` */
  function ReplaceOthers(name: string): (r: string)
    ensures |r| == |name|
    ensures forall i :: 0 <= i < |r| ==> r[i] == if IsAlnum(name[i]) then name[i] else '_'
  {
    if name == [] then [] else [if IsAlnum(name[0]) then name[0] else '_'] + ReplaceOthers(name[1..])
  }

  /** `name.replace(/[^a-zA-Z0-9]/g, '_').substring(0, 31)` */
  function Sanitize(name: string): (r: string)
    ensures |r| == Min(|name|, SheetNameLimit)
    ensures forall i :: 0 <= i < |r| ==> SheetChar(r[i])
    ensures forall i :: 0 <= i < |r| && IsAlnum(name[i]) ==> r[i] == name[i]
  {
    var replaced := ReplaceOthers(name);
    if |replaced| <= SheetNameLimit then replaced else replaced[..SheetNameLimit]
  }

  /** A name that is already a sheet name is left alone. */
  lemma SanitizeFixesSheetNames(name: string)
    requires |name| <= SheetNameLimit && forall i :: 0 <= i < |name| ==> SheetChar(name[i])
    ensures Sanitize(name) == name
  {
    var r := Sanitize(name);
    assert r == ReplaceOthers(name);
    forall i | 0 <= i < |name| ensures r[i] == name[i] {
      if !IsAlnum(name[i]) {
        assert name[i] == '_';
      }
    }
  }

  lemma SanitizeIdempotent(name: string)
    ensures Sanitize(Sanitize(name)) == Sanitize(name)
  {
    SanitizeFixesSheetNames(Sanitize(name));
  }

  // ------------------------------------------------------- row searches

  predicate IsSummaryOf(row: Row, employeeId: string) {
    row.SummaryRow? && row.employeeId == employeeId
  }

  /** `summaryData[i][0] === employeeId` */
  function SummaryOf(employeeId: string): Row -> bool {
    (row: Row) => IsSummaryOf(row, employeeId)
  }

  predicate IsRecordOf(row: Row, leaveType: string, from: DateField, to: DateField) {
    row.LeaveRow? && row.leaveType == leaveType && row.from == from && row.to == to
  }

  /** `row[1] === leaveType && row[2] === from && row[3] === to` */
  function RecordOf(leaveType: string, from: DateField, to: DateField): Row -> bool {
    (row: Row) => IsRecordOf(row, leaveType, from, to)
  }

  // ------------------------------------------------------- summary arithmetic

  predicate RowBalanced(row: Row) {
    row.SummaryRow? ==> row.leavesRemaining == row.totalLeaves - row.leavesTaken
  }

  /** remaining == total - taken on every summary row */
  predicate Balanced(rows: seq<Row>) {
    forall i :: 0 <= i < |rows| ==> RowBalanced(rows[i])
  }

  /** taken += delta; remaining := total - taken */
  function Recharged(row: Row, delta: int): (r: Row)
    requires row.SummaryRow?
    ensures r.SummaryRow? && RowBalanced(r)
    ensures r.leavesTaken == row.leavesTaken + delta
    ensures r.employeeId == row.employeeId && r.employeeName == row.employeeName
    ensures r.totalLeaves == row.totalLeaves
  {
    row.(leavesTaken := row.leavesTaken + delta,
         leavesRemaining := row.totalLeaves - (row.leavesTaken + delta))
  }

  /** The summary loop: only the first row of `employeeId` is recharged. */
  function Charge(rows: seq<Row>, employeeId: string, delta: int): (r: seq<Row>)
    ensures |r| == |rows|
    ensures Balanced(rows) ==> Balanced(r)
    ensures FirstIndex(rows, SummaryOf(employeeId)) < 0 ==> r == rows
    ensures var k := FirstIndex(rows, SummaryOf(employeeId));
            k >= 0 ==> r[k] == Recharged(rows[k], delta) && forall j :: 0 <= j < |rows| && j != k ==> r[j] == rows[j]
  {
    var k := FirstIndex(rows, SummaryOf(employeeId));
    if k < 0 then rows else rows[k := Recharged(rows[k], delta)]
  }

  /** Two charges add up; a charge of zero re-balances; so a charge followed by
      its opposite restores a balanced summary. */
  lemma {:induction false} ChargeThenRefund(rows: seq<Row>, employeeId: string, delta: int)
    requires Balanced(rows)
    ensures Charge(Charge(rows, employeeId, delta), employeeId, -delta) == rows
  {
    var p := SummaryOf(employeeId);
    var k := FirstIndex(rows, p);
    if k >= 0 {
      var once := rows[k := Recharged(rows[k], delta)];
      assert p(once[k]);
      forall j | 0 <= j < k ensures !p(once[j]) {
        assert once[j] == rows[j];
      }
      assert FirstIndex(once, p) == k;
      assert RowBalanced(rows[k]);
      assert Recharged(once[k], -delta) == rows[k];
      assert once[k := Recharged(once[k], -delta)] == rows;
    }
  }

  /** A charge of 0 on a balanced summary changes nothing. */
  lemma ChargeNothing(rows: seq<Row>, employeeId: string)
    requires Balanced(rows)
    ensures Charge(rows, employeeId, 0) == rows
  {
    var k := FirstIndex(rows, SummaryOf(employeeId));
    if k >= 0 {
      assert RowBalanced(rows[k]);
    }
  }

  // ------------------------------------------------------- operations

  function NewSummaryRow(employeeId: string, employeeName: string): Row {
    SummaryRow(employeeId, employeeName, DefaultTotalLeaves, 0, DefaultTotalLeaves)
  }

  /** `createEmployeeSheet` */
  function CreateSheet(wb: Workbook, employeeId: string, employeeName: string): (r: Workbook)
    requires Valid(wb) && employeeName != ""
    ensures Valid(r)
    ensures Sanitize(employeeName) in r.sheetNames
    ensures Sanitize(employeeName) in wb.sheetNames ==> r == wb
    ensures Sanitize(employeeName) !in wb.sheetNames ==>
              && r.sheetNames == wb.sheetNames + [Sanitize(employeeName)]
              && r.sheets[Sanitize(employeeName)] == []
              && Summary(r) == Summary(wb) + [NewSummaryRow(employeeId, employeeName)]
              && forall n :: n in wb.sheets && n != SummarySheet ==> r.sheets[n] == wb.sheets[n]
    ensures Balanced(Summary(wb)) ==> Balanced(Summary(r))
  {
    var s := Sanitize(employeeName);
    if s in wb.sheetNames then wb
    else
      Workbook(wb.sheetNames + [s],
               wb.sheets[s := []][SummarySheet := Summary(wb) + [NewSummaryRow(employeeId, employeeName)]])
  }

  /** The row `addLeaveRecord` appends for a request, dated `today`. */
  function RecordRow(leave: LeaveRequest, today: int): Row {
    LeaveRow(On(today), leave.leaveType, leave.from, leave.to, leave.days, leave.finalStatus, leave.remarks)
  }

  /** `addLeaveRecord` */
  function AddRecord(wb: Workbook, employeeId: string, employeeName: string,
                     leave: LeaveRequest, today: int): (r: Workbook)
    requires Valid(wb) && employeeName != ""
    ensures Valid(r)
    ensures Balanced(Summary(wb)) ==> Balanced(Summary(r))
  {
    var s := Sanitize(employeeName);
    var created := if s in wb.sheetNames then wb else CreateSheet(wb, employeeId, employeeName);
    assert s in created.sheets;
    var appended := WithSheet(created, s, created.sheets[s] + [RecordRow(leave, today)]);
    assert Balanced(Summary(created)) ==> Balanced(Summary(appended));
    if leave.finalStatus == Approved then WithSummary(appended, Charge(Summary(appended), employeeId, leave.days))
    else appended
  }

  /** The change of `taken` when a record moves from `oldStatus` to `newStatus`. */
  function TakenDelta(oldStatus: string, newStatus: string, days: int): (d: int)
    ensures d != 0 ==> (oldStatus == Approved) != (newStatus == Approved)
    ensures oldStatus == Approved && newStatus != Approved ==> d == -days
    ensures oldStatus != Approved && newStatus == Approved ==> d == days
  {
    if oldStatus == Approved && newStatus != Approved then -days
    else if oldStatus != Approved && newStatus == Approved then days
    else 0
  }

  /** The record loop of `updateLeaveStatus`: the first row of the request
      (same leave type and dates) takes the new status and remarks. */
  function MarkRecord(rows: seq<Row>, leave: LeaveRequest): (r: seq<Row>)
    ensures |r| == |rows|
    ensures Balanced(rows) ==> Balanced(r)
    ensures FirstIndex(rows, RecordOf(leave.leaveType, leave.from, leave.to)) < 0 ==> r == rows
    ensures var k := FirstIndex(rows, RecordOf(leave.leaveType, leave.from, leave.to));
            k >= 0 ==> && r[k] == rows[k].(status := leave.finalStatus, remarks := leave.remarks)
                       && forall j :: 0 <= j < |rows| && j != k ==> r[j] == rows[j]
  {
    var k := FirstIndex(rows, RecordOf(leave.leaveType, leave.from, leave.to));
    if k < 0 then rows else rows[k := rows[k].(status := leave.finalStatus, remarks := leave.remarks)]
  }

  /** `updateLeaveStatus` */
  function UpdateStatus(wb: Workbook, employeeId: string, employeeName: string,
                        leave: LeaveRequest): (r: Workbook)
    requires Valid(wb)
    ensures Valid(r) && r.sheetNames == wb.sheetNames
    ensures Sanitize(employeeName) !in wb.sheetNames ==> r == wb
    ensures Balanced(Summary(wb)) ==> Balanced(Summary(r))
  {
    var s := Sanitize(employeeName);
    if s !in wb.sheetNames then wb
    else
      var rows := wb.sheets[s];
      var k := FirstIndex(rows, RecordOf(leave.leaveType, leave.from, leave.to));
      var oldStatus := if k < 0 then "" else rows[k].status;
      var days := if k < 0 then 0 else rows[k].days;
      var updated := WithSheet(wb, s, MarkRecord(rows, leave));
      assert Balanced(Summary(wb)) ==> Balanced(Summary(updated));
      if oldStatus == leave.finalStatus then updated
      else WithSummary(updated, Charge(Summary(updated), employeeId, TakenDelta(oldStatus, leave.finalStatus, days)))
  }

  /** When the request's record exists and changes status, `updateLeaveStatus`
      marks it and charges the summary with the change of `taken`. */
  lemma UpdateStatusCharges(wb: Workbook, employeeId: string, employeeName: string, leave: LeaveRequest, k: int)
    requires Valid(wb) && Sanitize(employeeName) in wb.sheetNames && Sanitize(employeeName) != SummarySheet
    requires k == FirstIndex(wb.sheets[Sanitize(employeeName)], RecordOf(leave.leaveType, leave.from, leave.to))
    requires k >= 0 && wb.sheets[Sanitize(employeeName)][k].status != leave.finalStatus
    ensures var row := wb.sheets[Sanitize(employeeName)][k];
            var r := UpdateStatus(wb, employeeId, employeeName, leave);
            && r.sheets[Sanitize(employeeName)] == MarkRecord(wb.sheets[Sanitize(employeeName)], leave)
            && Summary(r) == Charge(Summary(wb), employeeId, TakenDelta(row.status, leave.finalStatus, row.days))
  {
  }

  /** `updateLeaveStatus` rewrites only the employee's sheet and the summary. */
  lemma UpdateStatusFrame(wb: Workbook, employeeId: string, employeeName: string, leave: LeaveRequest)
    requires Valid(wb)
    ensures var r := UpdateStatus(wb, employeeId, employeeName, leave);
            forall n :: n in r.sheets && n != Sanitize(employeeName) && n != SummarySheet ==>
              n in wb.sheets && r.sheets[n] == wb.sheets[n]
  {
  }

  /** A request without a record leaves the sheet as it was and only
      re-balances the employee's summary row (a charge of 0), unless its
      status is the blank one the search starts from; a record whose status
      does not change gets the new remarks and no charge. */
  lemma UpdateStatusWithoutCharge(wb: Workbook, employeeId: string, employeeName: string, leave: LeaveRequest)
    requires Valid(wb) && Sanitize(employeeName) in wb.sheetNames && Sanitize(employeeName) != SummarySheet
    ensures var rows := wb.sheets[Sanitize(employeeName)];
            var k := FirstIndex(rows, RecordOf(leave.leaveType, leave.from, leave.to));
            var r := UpdateStatus(wb, employeeId, employeeName, leave);
            && (k < 0 ==> r.sheets[Sanitize(employeeName)] == rows
                          && Summary(r) == if leave.finalStatus == "" then Summary(wb) else Charge(Summary(wb), employeeId, 0))
            && (k >= 0 && rows[k].status == leave.finalStatus ==>
                  && r.sheets[Sanitize(employeeName)][k] == rows[k].(remarks := leave.remarks)
                  && Summary(r) == Summary(wb))
  {
  }

  /** On a balanced summary a charge of 0 changes nothing, so a request
      without a record leaves the whole workbook as it was. */
  lemma UpdateStatusNoRecord(wb: Workbook, employeeId: string, employeeName: string, leave: LeaveRequest)
    requires Valid(wb) && Balanced(Summary(wb))
    requires Sanitize(employeeName) in wb.sheetNames && Sanitize(employeeName) != SummarySheet
    requires FirstIndex(wb.sheets[Sanitize(employeeName)], RecordOf(leave.leaveType, leave.from, leave.to)) < 0
    ensures UpdateStatus(wb, employeeId, employeeName, leave) == wb
  {
    var r := UpdateStatus(wb, employeeId, employeeName, leave);
    UpdateStatusWithoutCharge(wb, employeeId, employeeName, leave);
    UpdateStatusFrame(wb, employeeId, employeeName, leave);
    ChargeNothing(Summary(wb), employeeId);
    assert r.sheets == wb.sheets;
  }

  /** Approving a recorded request that was not approved charges its days to
      the employee; the record then reads `Approved` with the same days. */
  lemma ApproveStep(wb: Workbook, employeeId: string, employeeName: string, leave: LeaveRequest, k: int)
    requires Valid(wb) && Sanitize(employeeName) in wb.sheetNames && Sanitize(employeeName) != SummarySheet
    requires k == FirstIndex(wb.sheets[Sanitize(employeeName)], RecordOf(leave.leaveType, leave.from, leave.to))
    requires k >= 0 && wb.sheets[Sanitize(employeeName)][k].status != Approved && leave.finalStatus == Approved
    ensures var rows := wb.sheets[Sanitize(employeeName)];
            var r := UpdateStatus(wb, employeeId, employeeName, leave);
            && Valid(r) && r.sheetNames == wb.sheetNames
            && Summary(r) == Charge(Summary(wb), employeeId, rows[k].days)
            && k == FirstIndex(r.sheets[Sanitize(employeeName)], RecordOf(leave.leaveType, leave.from, leave.to))
            && r.sheets[Sanitize(employeeName)][k].status == Approved
            && r.sheets[Sanitize(employeeName)][k].days == rows[k].days
  {
    var rows := wb.sheets[Sanitize(employeeName)];
    var p := RecordOf(leave.leaveType, leave.from, leave.to);
    UpdateStatusCharges(wb, employeeId, employeeName, leave, k);
    FirstIndexAfterUpdate(rows, p, rows[k].(status := Approved, remarks := leave.remarks));
  }

  /** Moving an approved record to another status refunds its days: when
      the summary was charged those days since `before`, it is back to the
      summary of `before`. */
  lemma RevokeStep(before: Workbook, wb: Workbook, employeeId: string, employeeName: string, leave: LeaveRequest, k: int)
    requires Valid(wb) && Sanitize(employeeName) in wb.sheetNames && Sanitize(employeeName) != SummarySheet
    requires k == FirstIndex(wb.sheets[Sanitize(employeeName)], RecordOf(leave.leaveType, leave.from, leave.to))
    requires k >= 0 && wb.sheets[Sanitize(employeeName)][k].status == Approved && leave.finalStatus != Approved
    requires Valid(before) && Balanced(Summary(before))
    requires Summary(wb) == Charge(Summary(before), employeeId, wb.sheets[Sanitize(employeeName)][k].days)
    ensures Summary(UpdateStatus(wb, employeeId, employeeName, leave)) == Summary(before)
  {
    UpdateStatusCharges(wb, employeeId, employeeName, leave, k);
    ChargeThenRefund(Summary(before), employeeId, wb.sheets[Sanitize(employeeName)][k].days);
  }

  /** Approving a recorded request and then moving it to any other status
      gives back the summary the employee had before the approval. */
  lemma ApproveThenRevokeRestoresSummary(
    wb: Workbook, employeeId: string, employeeName: string, leave: LeaveRequest, revoked: string)
    requires Valid(wb) && Balanced(Summary(wb))
    requires Sanitize(employeeName) in wb.sheetNames && Sanitize(employeeName) != SummarySheet
    requires var rows := wb.sheets[Sanitize(employeeName)];
             var k := FirstIndex(rows, RecordOf(leave.leaveType, leave.from, leave.to));
             k >= 0 && rows[k].status != Approved
    requires revoked != Approved
    ensures var once := UpdateStatus(wb, employeeId, employeeName, leave.(finalStatus := Approved));
            Summary(UpdateStatus(once, employeeId, employeeName, leave.(finalStatus := revoked))) == Summary(wb)
  {
    var k := FirstIndex(wb.sheets[Sanitize(employeeName)], RecordOf(leave.leaveType, leave.from, leave.to));
    var approve := leave.(finalStatus := Approved);
    ApproveStep(wb, employeeId, employeeName, approve, k);
    var once := UpdateStatus(wb, employeeId, employeeName, approve);
    RevokeStep(wb, once, employeeId, employeeName, leave.(finalStatus := revoked), k);
  }

  /** Only renames that keep the workbook well formed: the summary sheet is
      not renamed away and no second sheet gets the new name. */
  predicate RenameKeepsSheets(wb: Workbook, oldName: string, newName: string) {
    var oldSheet := Sanitize(oldName);
    var newSheet := Sanitize(newName);
    oldSheet != SummarySheet
    && (oldSheet != newSheet && oldSheet in wb.sheetNames ==> newSheet !in wb.sheetNames)
  }

  /** `n => n === name` */
  function NameIs(name: string): string -> bool {
    (n: string) => n == name
  }

  /** Replacing the only occurrence of a name by a fresh one keeps the list
      free of repeats and changes its membership by exactly that name. */
  lemma RenameInList(names: seq<string>, i: int, name: string)
    requires Distinct(names) && 0 <= i < |names| && name !in names
    ensures Distinct(names[i := name])
    ensures forall n :: n in names[i := name] <==> (n in names && n != names[i]) || n == name
  {
    var renamed := names[i := name];
    assert renamed[i] == name;
    forall n | n in names && n != names[i] ensures n in renamed {
      var j :| 0 <= j < |names| && names[j] == n;
      assert renamed[j] == n;
    }
    forall n | n in renamed && n != name ensures n in names && n != names[i] {
      var j :| 0 <= j < |renamed| && renamed[j] == n;
      assert j != i && names[j] == n;
    }
  }

  /** The summary loop of `updateEmployeeProfile`: the first row of the
      employee takes the new name. */
  function RenameSummary(rows: seq<Row>, employeeId: string, newName: string): (r: seq<Row>)
    ensures |r| == |rows|
    ensures Balanced(rows) ==> Balanced(r)
    ensures FirstIndex(rows, SummaryOf(employeeId)) < 0 ==> r == rows
    ensures var k := FirstIndex(rows, SummaryOf(employeeId));
            k >= 0 ==> r[k] == rows[k].(employeeName := newName) && forall j :: 0 <= j < |rows| && j != k ==> r[j] == rows[j]
  {
    var k := FirstIndex(rows, SummaryOf(employeeId));
    if k < 0 then rows else rows[k := rows[k].(employeeName := newName)]
  }

  /** Whether `updateEmployeeProfile` moves the employee's sheet. */
  predicate Moves(wb: Workbook, oldName: string, newName: string) {
    Sanitize(oldName) != Sanitize(newName) && Sanitize(oldName) in wb.sheetNames
  }

  /** Renaming one sheet to a fresh name where it stands in the sheet order,
      keeping its rows. */
  function RenameSheet(wb: Workbook, oldSheet: string, newSheet: string): (r: Workbook)
    requires Valid(wb) && oldSheet != SummarySheet && oldSheet in wb.sheetNames && newSheet !in wb.sheetNames
    ensures Valid(r) && |r.sheetNames| == |wb.sheetNames|
    ensures forall j :: 0 <= j < |wb.sheetNames| ==>
              r.sheetNames[j] == if wb.sheetNames[j] == oldSheet then newSheet else wb.sheetNames[j]
    ensures r.sheets[newSheet] == wb.sheets[oldSheet] && Summary(r) == Summary(wb)
    ensures forall n :: n in r.sheets && n != newSheet ==> n in wb.sheets && r.sheets[n] == wb.sheets[n]
  {
    var i := FirstIndex(wb.sheetNames, NameIs(oldSheet));
    RenameInList(wb.sheetNames, i, newSheet);
    Workbook(wb.sheetNames[i := newSheet], (wb.sheets - {oldSheet})[newSheet := wb.sheets[oldSheet]])
  }

  /** `updateEmployeeProfile`: the summary row takes the new name and the
      employee's sheet, if any, is renamed where it stands in the sheet order. */
  function UpdateProfile(wb: Workbook, employeeId: string, oldName: string, newName: string): (r: Workbook)
    requires Valid(wb) && RenameKeepsSheets(wb, oldName, newName)
    ensures Valid(r) && |r.sheetNames| == |wb.sheetNames|
    ensures Summary(r) == RenameSummary(Summary(wb), employeeId, newName)
    ensures forall j :: 0 <= j < |wb.sheetNames| ==>
              r.sheetNames[j] == if Moves(wb, oldName, newName) && wb.sheetNames[j] == Sanitize(oldName)
                                 then Sanitize(newName) else wb.sheetNames[j]
    ensures Moves(wb, oldName, newName) ==> r.sheets[Sanitize(newName)] == wb.sheets[Sanitize(oldName)]
    ensures forall n :: n in r.sheets && n != SummarySheet && n != Sanitize(newName) ==>
              n in wb.sheets && r.sheets[n] == wb.sheets[n]
  {
    var updated := WithSummary(wb, RenameSummary(Summary(wb), employeeId, newName));
    if Moves(wb, oldName, newName) then RenameSheet(updated, Sanitize(oldName), Sanitize(newName))
    else updated
  }

  /** `getLeaveSummary`: the first summary row of the employee, if any. */
  function LeaveSummary(wb: Workbook, employeeId: string): (r: Option<Row>)
    requires Valid(wb)
    ensures r.None? ==> forall i :: 0 <= i < |Summary(wb)| ==> !IsSummaryOf(Summary(wb)[i], employeeId)
    ensures r.Some? ==> r.value.SummaryRow? && r.value.employeeId == employeeId && r.value in Summary(wb)
    ensures r.Some? ==> exists k :: 0 <= k < |Summary(wb)| && r.value == Summary(wb)[k]
                                  && forall j :: 0 <= j < k ==> !IsSummaryOf(Summary(wb)[j], employeeId)
  {
    var k := FirstIndex(Summary(wb), SummaryOf(employeeId));
    if k < 0 then None else Some(Summary(wb)[k])
  }

  /** After a profile update the employee's summary reports the new name and
      nothing else about it changes. */
  lemma ProfileUpdateRenamesSummary(wb: Workbook, employeeId: string, oldName: string, newName: string)
    requires Valid(wb) && RenameKeepsSheets(wb, oldName, newName)
    ensures var before := LeaveSummary(wb, employeeId);
            LeaveSummary(UpdateProfile(wb, employeeId, oldName, newName), employeeId) ==
              if before.Some? then Some(before.value.(employeeName := newName)) else None
  {
    var rows := Summary(wb);
    var k := FirstIndex(rows, SummaryOf(employeeId));
    if k >= 0 {
      FirstIndexAfterUpdate(rows, SummaryOf(employeeId), rows[k].(employeeName := newName));
    }
  }

  /** What `addLeaveRecord` does for an employee sheet other than the
      summary: the sheet is created if missing, the record appended, and an
      approved request charged. */
  lemma AddRecordEffect(wb: Workbook, employeeId: string, employeeName: string, leave: LeaveRequest, today: int)
    requires Valid(wb) && employeeName != "" && Sanitize(employeeName) != SummarySheet
    ensures var s := Sanitize(employeeName);
            var created := if s in wb.sheetNames then wb else CreateSheet(wb, employeeId, employeeName);
            var r := AddRecord(wb, employeeId, employeeName, leave, today);
            && r.sheets[s] == created.sheets[s] + [RecordRow(leave, today)]
            && Summary(r) == if leave.finalStatus == Approved then Charge(Summary(created), employeeId, leave.days)
                             else Summary(created)
  {
  }

  /** Recording a request of an employee who already has a summary row adds
      its days to their taken count exactly when it is recorded as
      `Approved`; total and balance stay consistent. */
  lemma AddRecordCharges(wb: Workbook, employeeId: string, employeeName: string,
                         leave: LeaveRequest, today: int)
    requires Valid(wb) && employeeName != "" && Sanitize(employeeName) != SummarySheet
    requires LeaveSummary(wb, employeeId).Some?
    ensures var before := LeaveSummary(wb, employeeId).value;
            var after := LeaveSummary(AddRecord(wb, employeeId, employeeName, leave, today), employeeId);
            && after.Some? && after.value.totalLeaves == before.totalLeaves
            && after.value.leavesTaken ==
                 before.leavesTaken + (if leave.finalStatus == Approved then leave.days else 0)
            && (leave.finalStatus == Approved ==> RowBalanced(after.value))
  {
    var p := SummaryOf(employeeId);
    var s := Sanitize(employeeName);
    var created := if s in wb.sheetNames then wb else CreateSheet(wb, employeeId, employeeName);
    var k := FirstIndex(Summary(wb), p);
    if s !in wb.sheetNames {
      FirstIndexAppend(Summary(wb), p, NewSummaryRow(employeeId, employeeName));
    }
    assert FirstIndex(Summary(created), p) == k && Summary(created)[k] == Summary(wb)[k];
    if leave.finalStatus == Approved {
      FirstIndexAfterUpdate(Summary(created), p, Recharged(Summary(created)[k], leave.days));
    }
  }

  /** The first leave of an employee with neither a sheet nor a summary row
      opens their account with the default allowance of 20 days. */
  lemma FirstRecordOpensAccount(wb: Workbook, employeeId: string, employeeName: string,
                                leave: LeaveRequest, today: int)
    requires Valid(wb) && employeeName != "" && Sanitize(employeeName) != SummarySheet
    requires LeaveSummary(wb, employeeId).None? && Sanitize(employeeName) !in wb.sheetNames
    ensures var taken := if leave.finalStatus == Approved then leave.days else 0;
            var r := AddRecord(wb, employeeId, employeeName, leave, today);
            && r.sheets[Sanitize(employeeName)] == [RecordRow(leave, today)]
            && LeaveSummary(r, employeeId) ==
                 Some(SummaryRow(employeeId, employeeName, DefaultTotalLeaves, taken, DefaultTotalLeaves - taken))
  {
    var approved := leave.finalStatus == Approved;
    var taken := if approved then leave.days else 0;
    var r := AddRecord(wb, employeeId, employeeName, leave, today);
    FirstRecordEffect(wb, employeeId, employeeName, leave, today);
    OpenedSummary(r, Summary(wb), employeeId, employeeName, approved, taken);
  }

  /** `addLeaveRecord` for an employee without a sheet: the new sheet holds
      the record alone and the summary gains the employee's row, charged when
      the request is approved. */
  lemma FirstRecordEffect(wb: Workbook, employeeId: string, employeeName: string,
                          leave: LeaveRequest, today: int)
    requires Valid(wb) && employeeName != "" && Sanitize(employeeName) != SummarySheet
    requires Sanitize(employeeName) !in wb.sheetNames
    ensures var initial := Summary(wb) + [NewSummaryRow(employeeId, employeeName)];
            var r := AddRecord(wb, employeeId, employeeName, leave, today);
            && r.sheets[Sanitize(employeeName)] == [RecordRow(leave, today)]
            && Summary(r) == if leave.finalStatus == Approved then Charge(initial, employeeId, leave.days) else initial
  {
    AddRecordEffect(wb, employeeId, employeeName, leave, today);
  }

  /** `getLeaveSummary` on a workbook whose summary is `rows` with a new
      employee's row appended, charged `taken` days when approved. */
  lemma OpenedSummary(r: Workbook, rows: seq<Row>, employeeId: string, employeeName: string,
                      approved: bool, taken: int)
    requires Valid(r) && FirstIndex(rows, SummaryOf(employeeId)) < 0 && (!approved ==> taken == 0)
    requires var initial := rows + [NewSummaryRow(employeeId, employeeName)];
             Summary(r) == if approved then Charge(initial, employeeId, taken) else initial
    ensures LeaveSummary(r, employeeId) ==
              Some(SummaryRow(employeeId, employeeName, DefaultTotalLeaves, taken, DefaultTotalLeaves - taken))
  {
    OpenedAccount(rows, employeeId, employeeName, taken);
  }

  /** The summary half of `FirstRecordOpensAccount`: a new employee's row
      appended to rows without one is their first row, and charging it
      charges that row. */
  lemma OpenedAccount(rows: seq<Row>, employeeId: string, employeeName: string, taken: int)
    requires FirstIndex(rows, SummaryOf(employeeId)) < 0
    ensures var initial := rows + [NewSummaryRow(employeeId, employeeName)];
            && FirstIndex(initial, SummaryOf(employeeId)) == |rows|
            && initial[|rows|] == SummaryRow(employeeId, employeeName, DefaultTotalLeaves, 0, DefaultTotalLeaves)
            && var after := Charge(initial, employeeId, taken);
               && FirstIndex(after, SummaryOf(employeeId)) == |rows|
               && after[|rows|] == SummaryRow(employeeId, employeeName, DefaultTotalLeaves, taken, DefaultTotalLeaves - taken)
  {
    var p := SummaryOf(employeeId);
    var row := NewSummaryRow(employeeId, employeeName);
    FirstIndexAppend(rows, p, row);
    FirstIndexAfterUpdate(rows + [row], p, Recharged(row, taken));
  }

  /** The workbook of `LEAVE MANAGEMENT .xlsx`, held in memory and rewritten
      to the file after every change. */
  class ExcelManager {
    var workbook: Workbook

    /** `ensureFileExists` when no file exists yet. */
    constructor ()
      ensures workbook == EmptyWorkbook && Valid(workbook)
    {
      workbook := EmptyWorkbook;
    }

    method CreateEmployeeSheet(employeeId: string, employeeName: string)
      requires Valid(workbook) && employeeName != ""
      modifies this
      ensures workbook == CreateSheet(old(workbook), employeeId, employeeName)
    {
      var sheetName := Sanitize(employeeName);
      if sheetName in workbook.sheetNames {
        return;
      }
      workbook := workbook.(sheetNames := workbook.sheetNames + [sheetName],
                            sheets := workbook.sheets[sheetName := []]);
      var summaryData := workbook.sheets[SummarySheet];
      summaryData := summaryData + [NewSummaryRow(employeeId, employeeName)];
      workbook := workbook.(sheets := workbook.sheets[SummarySheet := summaryData]);
    }

    method AddLeaveRecord(employeeId: string, employeeName: string, leaveData: LeaveRequest, today: int)
      requires Valid(workbook) && employeeName != ""
      modifies this
      ensures workbook == AddRecord(old(workbook), employeeId, employeeName, leaveData, today)
    {
      var sheetName := Sanitize(employeeName);
      if sheetName !in workbook.sheetNames {
        CreateEmployeeSheet(employeeId, employeeName);
      }
      var jsonData := workbook.sheets[sheetName];
      jsonData := jsonData + [RecordRow(leaveData, today)];
      workbook := workbook.(sheets := workbook.sheets[sheetName := jsonData]);
      if leaveData.finalStatus == Approved {
        var summaryData := ChargeFirst(workbook.sheets[SummarySheet], employeeId, leaveData.days);
        workbook := workbook.(sheets := workbook.sheets[SummarySheet := summaryData]);
      }
    }

    method UpdateLeaveStatus(employeeId: string, employeeName: string, leaveData: LeaveRequest)
      requires Valid(workbook)
      modifies this
      ensures workbook == UpdateStatus(old(workbook), employeeId, employeeName, leaveData)
    {
      var sheetName := Sanitize(employeeName);
      if sheetName !in workbook.sheetNames {
        return;
      }
      var jsonData, oldStatus, updatedDays := MarkFirst(workbook.sheets[sheetName], leaveData);
      workbook := workbook.(sheets := workbook.sheets[sheetName := jsonData]);
      if oldStatus != leaveData.finalStatus {
        var summaryData := ChargeFirst(workbook.sheets[SummarySheet], employeeId,
                                       TakenDelta(oldStatus, leaveData.finalStatus, updatedDays));
        workbook := workbook.(sheets := workbook.sheets[SummarySheet := summaryData]);
      }
    }

    method UpdateEmployeeProfile(employeeId: string, oldName: string, newName: string)
      requires Valid(workbook) && RenameKeepsSheets(workbook, oldName, newName)
      modifies this
      ensures workbook == UpdateProfile(old(workbook), employeeId, oldName, newName)
    {
      var oldSheetName := Sanitize(oldName);
      var newSheetName := Sanitize(newName);
      var summaryData := workbook.sheets[SummarySheet];
      ghost var rows := summaryData;
      var i := 0;
      while i < |summaryData|
        invariant 0 <= i <= |summaryData| && summaryData == rows
        invariant forall j :: 0 <= j < i ==> !IsSummaryOf(rows[j], employeeId)
      {
        if IsSummaryOf(summaryData[i], employeeId) {
          summaryData := summaryData[i := summaryData[i].(employeeName := newName)];
          break;
        }
        i := i + 1;
      }
      assert summaryData == RenameSummary(rows, employeeId, newName);
      workbook := workbook.(sheets := workbook.sheets[SummarySheet := summaryData]);
      if oldSheetName != newSheetName && oldSheetName in workbook.sheetNames {
        var worksheet := workbook.sheets[oldSheetName];
        var sheets := workbook.sheets - {oldSheetName};
        sheets := sheets[newSheetName := worksheet];
        var sheetIndex := FindIndex(workbook.sheetNames, NameIs(oldSheetName));
        workbook := Workbook(workbook.sheetNames[sheetIndex := newSheetName], sheets);
      }
    }

    method GetLeaveSummary(employeeId: string) returns (summary: Option<Row>)
      requires Valid(workbook)
      ensures summary == LeaveSummary(workbook, employeeId)
    {
      var summaryData := workbook.sheets[SummarySheet];
      var i := 0;
      while i < |summaryData|
        invariant 0 <= i <= |summaryData|
        invariant forall j :: 0 <= j < i ==> !IsSummaryOf(summaryData[j], employeeId)
      {
        if IsSummaryOf(summaryData[i], employeeId) {
          return Some(summaryData[i]);
        }
        i := i + 1;
      }
      return None;
    }

    /** `getAllEmployeesLeaveStatus`: every row below the summary header, in order. */
    function GetAllEmployeesLeaveStatus(): (rows: seq<Row>)
      reads this
      requires Valid(workbook)
      ensures |rows| == |Summary(workbook)|
      ensures forall i :: 0 <= i < |rows| ==> rows[i] == Summary(workbook)[i]
    {
      Summary(workbook)
    }
  }

  /** The list `getAllEmployeesLeaveStatus` returns answers every
      `getLeaveSummary` query: an employee has a summary exactly when some
      listed row is theirs, and it is the first such row of the list. */
  lemma AllStatusesAnswerSummaries(m: ExcelManager, employeeId: string)
    requires Valid(m.workbook)
    ensures var rows := m.GetAllEmployeesLeaveStatus();
            var s := LeaveSummary(m.workbook, employeeId);
            && (s.None? <==> forall i :: 0 <= i < |rows| ==> !IsSummaryOf(rows[i], employeeId))
            && (s.Some? ==> exists k :: 0 <= k < |rows| && rows[k] == s.value && IsSummaryOf(rows[k], employeeId)
                                     && forall j :: 0 <= j < k ==> !IsSummaryOf(rows[j], employeeId))
  {
    var rows := m.GetAllEmployeesLeaveStatus();
    assert rows == Summary(m.workbook);
  }

  /** The record loop of `updateLeaveStatus`, also reporting the status and
      days the matched row had ("" and 0 when no row matches). */
  method MarkFirst(jsonData: seq<Row>, leaveData: LeaveRequest)
    returns (marked: seq<Row>, oldStatus: string, updatedDays: int)
    ensures marked == MarkRecord(jsonData, leaveData)
    ensures var k := FirstIndex(jsonData, RecordOf(leaveData.leaveType, leaveData.from, leaveData.to));
            && oldStatus == (if k < 0 then "" else jsonData[k].status)
            && updatedDays == (if k < 0 then 0 else jsonData[k].days)
  {
    marked, oldStatus, updatedDays := jsonData, "", 0;
    for i := 0 to |jsonData|
      invariant marked == jsonData && oldStatus == "" && updatedDays == 0
      invariant forall j :: 0 <= j < i ==> !IsRecordOf(jsonData[j], leaveData.leaveType, leaveData.from, leaveData.to)
    {
      var row := jsonData[i];
      if IsRecordOf(row, leaveData.leaveType, leaveData.from, leaveData.to) {
        oldStatus := row.status;
        updatedDays := row.days;
        marked := jsonData[i := row.(status := leaveData.finalStatus, remarks := leaveData.remarks)];
        return;
      }
    }
  }

  /** The summary loop shared by `addLeaveRecord` and `updateLeaveStatus`. */
  method ChargeFirst(summaryData: seq<Row>, employeeId: string, delta: int) returns (updated: seq<Row>)
    ensures updated == Charge(summaryData, employeeId, delta)
  {
    updated := summaryData;
    for i := 0 to |updated|
      invariant updated == summaryData
      invariant forall j :: 0 <= j < i ==> !IsSummaryOf(summaryData[j], employeeId)
    {
      if IsSummaryOf(updated[i], employeeId) {
        var row := updated[i];
        updated := updated[i := row.(leavesTaken := row.leavesTaken + delta,
                                     leavesRemaining := row.totalLeaves - (row.leavesTaken + delta))];
        return;
      }
    }
  }
}
