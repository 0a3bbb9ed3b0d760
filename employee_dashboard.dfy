/** The employee's dashboard: a form holding one or more leave entries, the
    day count each entry derives from its dates, submission of the whole form
    into the browser store, and the employee's own request history. */
module EmployeeView {
  import opened Common
  import opened Records
  import Browser

  /** One row of the leave form. */
  datatype LeaveEntry = LeaveEntry(leaveType: string, from: DateField, to: DateField, days: int)

  /** `{ type: 'Casual Leave', from: '', to: '', days: 0 }` */
  const DefaultEntry := LeaveEntry("Casual Leave", Blank, Blank, 0)

  /** `calculateDays`: the inclusive number of days between two dates, in
      either order, or 0 while a date is missing. */
  function CalculateDays(from: DateField, to: DateField): (d: nat)
    ensures d == 0 <==> from.Blank? || to.Blank?
    ensures from.On? && to.On? ==> d == Abs(to.day - from.day) + 1
  {
    if from.Blank? || to.Blank? then 0 else Abs(to.day - from.day) + 1
  }

  predicate InRange(lo: int, hi: int, k: int) {
    lo <= k <= hi
  }

  /** The calendar days a range covers, whichever end comes first. */
  function CoveredDays(a: int, b: int): set<int> {
    set k | Min(a, b) <= k <= Max(a, b) && InRange(Min(a, b), Max(a, b), k)
  }

  lemma {:induction false} RangeSize(lo: int, hi: int)
    requires lo <= hi
    ensures |set k | lo <= k <= hi && InRange(lo, hi, k)| == hi - lo + 1
    decreases hi - lo
  {
    if lo < hi {
      var below := hi - 1;
      RangeSize(lo, below);
      assert (set k | lo <= k <= hi && InRange(lo, hi, k)) == (set k | lo <= k <= below && InRange(lo, below, k)) + {hi};
    } else {
      assert (set k | lo <= k <= hi && InRange(lo, hi, k)) == {lo};
    }
  }

  /** The count is the number of days the range covers: symmetric in its
      ends, 1 for a single day, never 0 once both dates are set. */
  lemma CalculateDaysCountsCoveredDays(a: int, b: int)
    ensures CalculateDays(On(a), On(b)) == |CoveredDays(a, b)|
    ensures CalculateDays(On(a), On(b)) == CalculateDays(On(b), On(a)) >= 1
    ensures CalculateDays(On(a), On(a)) == 1
  {
    RangeSize(Min(a, b), Max(a, b));
  }

  /** The entry's day count is the one its dates give. */
  predicate Consistent(e: LeaveEntry) {
    e.days == CalculateDays(e.from, e.to)
  }

  /** A form input change: the field name and the new value. */
  datatype Field = TypeField(t: string) | FromField(from: DateField) | ToField(to: DateField)

  /** `handleDateChange` on one entry: the field is set and the day count is
      recomputed only when a date changed. */
  function ChangeEntry(e: LeaveEntry, f: Field): (r: LeaveEntry)
    ensures f.TypeField? ==> r == e.(leaveType := f.t)
    ensures f.FromField? ==> r.from == f.from && r.to == e.to && r.leaveType == e.leaveType
    ensures f.ToField? ==> r.to == f.to && r.from == e.from && r.leaveType == e.leaveType
    ensures !f.TypeField? ==> Consistent(r)
  {
    match f
    case TypeField(t) => e.(leaveType := t)
    case FromField(d) => e.(from := d, days := CalculateDays(d, e.to))
    case ToField(d) => e.(to := d, days := CalculateDays(e.from, d))
  }

  /** `leaveTypes.filter((_, i) => i !== index)`: the entry at `index` is
      dropped and the others keep their order; any other index keeps all. */
  function DropIndex<T>(s: seq<T>, index: int): (r: seq<T>)
    ensures 0 <= index < |s| ==>
              && |r| == |s| - 1
              && (forall i :: 0 <= i < index ==> r[i] == s[i])
              && (forall i :: index <= i < |r| ==> r[i] == s[i + 1])
    ensures !(0 <= index < |s|) ==> r == s
  {
    if s == [] then []
    else (if index == 0 then [] else [s[0]]) + DropIndex(s[1..], index - 1)
  }

  /** Removing an entry just added gives back the form before the addition. */
  lemma DropLastAdded<T>(s: seq<T>, x: T)
    ensures DropIndex(s + [x], |s|) == s
  {
  }

  /** The request one form entry becomes on submission. */
  function Submission(user: User, e: LeaveEntry, leaveId: string, now: int): (r: LeaveRequest)
    ensures Unreviewed(r) && r.empId == user.empId && r.leaveId == leaveId
    ensures r.leaveType == e.leaveType && r.from == e.from && r.to == e.to && r.days == e.days
  {
    NewRequest(leaveId, user.empId, user.name, user.designation, e.leaveType, e.from, e.to, e.days, now)
  }

  /** One request per entry, in form order. */
  function Submissions(user: User, entries: seq<LeaveEntry>, leaveIds: seq<string>, now: int): (r: seq<LeaveRequest>)
    requires |leaveIds| == |entries|
    ensures |r| == |entries|
    ensures forall i :: 0 <= i < |r| ==> r[i] == Submission(user, entries[i], leaveIds[i], now)
  {
    seq(|entries|, i requires 0 <= i < |entries| => Submission(user, entries[i], leaveIds[i], now))
  }

  /** The history after a submission is the history before it followed by
      the new requests. */
  lemma SubmitExtendsHistory(stored: seq<LeaveRequest>, user: User, entries: seq<LeaveEntry>,
                             leaveIds: seq<string>, now: int)
    requires |leaveIds| == |entries|
    ensures var added := Submissions(user, entries, leaveIds, now);
            Filter(stored + added, FiledBy(user.empId)) == Filter(stored, FiledBy(user.empId)) + added
  {
    var added := Submissions(user, entries, leaveIds, now);
    FilterConcat(stored, added, FiledBy(user.empId));
    FilterAll(added, FiledBy(user.empId));
  }

  class EmployeeDashboard {
    const user: User
    const store: Browser.Storage
    /** the form */
    var leaveTypes: seq<LeaveEntry>
    /** the history: the stored requests of this employee */
    var leaveRequests: seq<LeaveRequest>

    /** Every form entry's day count matches its dates. */
    predicate Valid()
      reads this
    {
      forall i :: 0 <= i < |leaveTypes| ==> Consistent(leaveTypes[i])
    }

    /** Mounting: one default entry, and the history loaded from the store. */
    constructor (user: User, store: Browser.Storage)
      ensures Valid() && this.user == user && this.store == store
      ensures leaveTypes == [DefaultEntry]
      ensures leaveRequests == Filter(store.Requests(), FiledBy(user.empId))
    {
      this.user := user;
      this.store := store;
      leaveTypes := [DefaultEntry];
      leaveRequests := Filter(store.Requests(), FiledBy(user.empId));
    }

    /** `handleDateChange` */
    method HandleDateChange(index: int, f: Field)
      requires Valid() && 0 <= index < |leaveTypes|
      modifies this
      ensures Valid()
      ensures leaveTypes == old(leaveTypes)[index := ChangeEntry(old(leaveTypes)[index], f)]
      ensures leaveRequests == old(leaveRequests)
    {
      var updated := leaveTypes;
      var entry := updated[index];
      match f {
        case TypeField(t) =>
          entry := entry.(leaveType := t);
        case FromField(d) =>
          entry := entry.(from := d);
          entry := entry.(days := CalculateDays(entry.from, entry.to));
        case ToField(d) =>
          entry := entry.(to := d);
          entry := entry.(days := CalculateDays(entry.from, entry.to));
      }
      updated := updated[index := entry];
      leaveTypes := updated;
    }

    /** `addLeaveType` */
    method AddLeaveType()
      requires Valid()
      modifies this
      ensures Valid()
      ensures leaveTypes == old(leaveTypes) + [DefaultEntry] && leaveRequests == old(leaveRequests)
    {
      leaveTypes := leaveTypes + [DefaultEntry];
    }

    /** `removeLeaveType` */
    method RemoveLeaveType(index: int)
      requires Valid()
      modifies this
      ensures Valid()
      ensures leaveTypes == DropIndex(old(leaveTypes), index) && leaveRequests == old(leaveRequests)
    {
      leaveTypes := DropIndex(leaveTypes, index);
    }

    /** `handleSubmit`, with the generated ids and the clock as inputs. */
    method HandleSubmit(leaveIds: seq<string>, now: int)
      requires |leaveIds| == |leaveTypes|
      modifies this, store
      ensures Valid()
      ensures store.leaveRequests == Some(old(store.Requests()) + Submissions(user, old(leaveTypes), leaveIds, now))
      ensures store.users == old(store.users) && store.currentUser == old(store.currentUser)
      ensures leaveTypes == [DefaultEntry]
      ensures leaveRequests == Filter(old(store.Requests()), FiledBy(user.empId))
                               + Submissions(user, old(leaveTypes), leaveIds, now)
    {
      var entries := leaveTypes;
      var allRequests := store.Requests();
      ghost var stored := allRequests;
      for i := 0 to |entries|
        invariant allRequests == stored + Submissions(user, entries[..i], leaveIds[..i], now)
      {
        var leave := entries[i];
        var newRequest := NewRequest(leaveIds[i], user.empId, user.name, user.designation,
                                     leave.leaveType, leave.from, leave.to, leave.days, now);
        assert entries[..i + 1] == entries[..i] + [leave];
        assert leaveIds[..i + 1] == leaveIds[..i] + [leaveIds[i]];
        allRequests := allRequests + [newRequest];
      }
      assert entries[..|entries|] == entries && leaveIds[..|entries|] == leaveIds;
      store.leaveRequests := Some(allRequests);
      leaveTypes := [DefaultEntry];
      SubmitExtendsHistory(stored, user, entries, leaveIds, now);
      leaveRequests := Filter(allRequests, FiledBy(user.empId));
    }
  }
}
