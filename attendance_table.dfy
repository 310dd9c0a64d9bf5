/**
 * The attendance roster (src/components/attendance/AttendanceTable.tsx): one
 * record per known employee for the selected date, and the per-employee
 * status and time edits that are stored and reported to the page.
 */
module AttendanceTable {
  import opened Wrappers
  import opened Types
  import opened SeqOps

  /** `initialRecords.find(r => r.employeeId === emp.id && r.date === dateStr)` */
  function FindRecord(records: seq<AttendanceRecord>, employeeId: string, date: string): (r: Option<AttendanceRecord>)
    ensures r.None? <==> forall i :: 0 <= i < |records| ==>
                           !(records[i].employeeId == employeeId && records[i].date == date)
    ensures r.Some? ==> exists k :: 0 <= k < |records| && records[k] == r.value
                                   && r.value.employeeId == employeeId && r.value.date == date
                                   && forall j :: 0 <= j < k ==>
                                        !(records[j].employeeId == employeeId && records[j].date == date)
  {
    FirstWhere(records, (x: AttendanceRecord) => x.employeeId == employeeId && x.date == date)
  }

  /** The record synthesised for an employee with no record on that date. */
  function DefaultRecord(emp: Employee, date: string): (r: AttendanceRecord)
    ensures r.employeeId == emp.id && r.employeeName == emp.name && r.date == date
    ensures r.status == Absent && r.timeIn == Some("") && r.timeOut == Some("")
    ensures r.id == emp.id + "-" + date
  {
    AttendanceRecord(emp.id + "-" + date, emp.id, emp.name, date, Absent, Some(""), Some(""))
  }

  /** The record one employee gets in the roster: the first match, else the default. */
  function RosterEntry(emp: Employee, date: string, initialRecords: seq<AttendanceRecord>): (r: AttendanceRecord)
    ensures r.employeeId == emp.id && r.date == date
    ensures r in initialRecords || r == DefaultRecord(emp, date)
    ensures (forall i :: 0 <= i < |initialRecords| ==>
               !(initialRecords[i].employeeId == emp.id && initialRecords[i].date == date))
            ==> r == DefaultRecord(emp, date)
    ensures forall k :: 0 <= k < |initialRecords|
                        && initialRecords[k].employeeId == emp.id && initialRecords[k].date == date
                        && (forall j :: 0 <= j < k ==>
                              !(initialRecords[j].employeeId == emp.id && initialRecords[j].date == date))
                        ==> r == initialRecords[k]
  {
    match FindRecord(initialRecords, emp.id, date)
    case Some(existing) => existing
    case None => DefaultRecord(emp, date)
  }

  /** `employees.map(emp => existingRecord || default)` for one date. */
  function Roster(employees: seq<Employee>, date: string, initialRecords: seq<AttendanceRecord>)
    : (r: seq<AttendanceRecord>)
    ensures |r| == |employees|
    ensures forall i :: 0 <= i < |employees| ==> r[i] == RosterEntry(employees[i], date, initialRecords)
  {
    seq(|employees|, i requires 0 <= i < |employees| => RosterEntry(employees[i], date, initialRecords))
  }

  /** The roster has one record per employee, in employee order, all for `date`. */
  predicate RosterShaped(records: seq<AttendanceRecord>, employees: seq<Employee>, date: string) {
    && |records| == |employees|
    && forall i :: 0 <= i < |records| ==> records[i].employeeId == employees[i].id && records[i].date == date
  }

  /**
   * Whatever `initialRecords` holds, the roster has exactly one record per
   * employee, in order; a record is reused verbatim when one matches the
   * employee and date, and otherwise the record is the Absent default.
   */
  lemma RosterIsOnePerEmployee(employees: seq<Employee>, date: string, initialRecords: seq<AttendanceRecord>)
    ensures RosterShaped(Roster(employees, date, initialRecords), employees, date)
    ensures forall i :: 0 <= i < |employees| ==>
              var rec := Roster(employees, date, initialRecords)[i];
              (rec in initialRecords || rec == DefaultRecord(employees[i], date))
    ensures forall i :: 0 <= i < |employees| && FindRecord(initialRecords, employees[i].id, date).None? ==>
              Roster(employees, date, initialRecords)[i].status == Absent
    ensures forall i, k :: 0 <= i < |employees| && 0 <= k < |initialRecords|
                           && initialRecords[k].employeeId == employees[i].id && initialRecords[k].date == date
                           && (forall j :: 0 <= j < k ==>
                                 !(initialRecords[j].employeeId == employees[i].id && initialRecords[j].date == date))
                           ==> Roster(employees, date, initialRecords)[i] == initialRecords[k]
  {
  }

  /** `records.map(r => r.employeeId === id ? { ...r, status } : r)` */
  function SetStatus(records: seq<AttendanceRecord>, employeeId: string, checked: bool): (r: seq<AttendanceRecord>)
    ensures |r| == |records|
    ensures forall i :: 0 <= i < |records| ==>
              r[i] == if records[i].employeeId == employeeId
                      then records[i].(status := if checked then Present else Absent)
                      else records[i]
  {
    MapWhere(records, (x: AttendanceRecord) => x.employeeId == employeeId,
             (x: AttendanceRecord) => x.(status := if checked then Present else Absent))
  }

  datatype TimeField = TimeIn | TimeOut

  /** `records.map(r => r.employeeId === id ? { ...r, [field]: value } : r)` */
  function SetTime(records: seq<AttendanceRecord>, employeeId: string, field: TimeField, value: string)
    : (r: seq<AttendanceRecord>)
    ensures |r| == |records|
    ensures forall i :: 0 <= i < |records| ==>
              r[i] == if records[i].employeeId != employeeId then records[i]
                      else if field == TimeIn then records[i].(timeIn := Some(value))
                      else records[i].(timeOut := Some(value))
  {
    MapWhere(records, (x: AttendanceRecord) => x.employeeId == employeeId,
             (x: AttendanceRecord) => if field == TimeIn then x.(timeIn := Some(value)) else x.(timeOut := Some(value)))
  }

  /** No record belongs to `employeeId`. */
  predicate UnknownEmployee(records: seq<AttendanceRecord>, employeeId: string) {
    forall i :: 0 <= i < |records| ==> records[i].employeeId != employeeId
  }

  /**
   * Status edits: an unknown employee changes nothing; the employee's records
   * are Present exactly when `checked`, keep their times (switching to Absent
   * does not clear them); the roster's shape survives.
   */
  lemma StatusChangeFacts(records: seq<AttendanceRecord>, employees: seq<Employee>, date: string,
                          employeeId: string, checked: bool)
    ensures UnknownEmployee(records, employeeId) ==> SetStatus(records, employeeId, checked) == records
    ensures forall i :: 0 <= i < |records| && records[i].employeeId == employeeId ==>
              var r := SetStatus(records, employeeId, checked)[i];
              (r.status == Present <==> checked) && r.timeIn == records[i].timeIn && r.timeOut == records[i].timeOut
    ensures RosterShaped(records, employees, date) ==>
              RosterShaped(SetStatus(records, employeeId, checked), employees, date)
  {
  }

  /** Time edits: an unknown employee changes nothing and the roster's shape survives. */
  lemma TimeChangeFacts(records: seq<AttendanceRecord>, employees: seq<Employee>, date: string,
                        employeeId: string, field: TimeField, value: string)
    ensures UnknownEmployee(records, employeeId) ==> SetTime(records, employeeId, field, value) == records
    ensures RosterShaped(records, employees, date) ==>
              RosterShaped(SetTime(records, employeeId, field, value), employees, date)
  {
  }

  class Table {
    /** The date the table was mounted with, as "yyyy-MM-dd". */
    const dateStr: string
    var attendanceRecords: seq<AttendanceRecord>

    ghost predicate Valid()
      reads this
    {
      RosterShaped(attendanceRecords, MockEmployees(), dateStr)
    }

    /** The lazy state initialiser, run once per mount. */
    constructor (dateStr: string, initialRecords: seq<AttendanceRecord>)
      ensures Valid()
      ensures this.dateStr == dateStr
      ensures attendanceRecords == Roster(MockEmployees(), dateStr, initialRecords)
    {
      this.dateStr := dateStr;
      attendanceRecords := Roster(MockEmployees(), dateStr, initialRecords);
      new;
      RosterIsOnePerEmployee(MockEmployees(), dateStr, initialRecords);
    }

    /** `handleStatusChange`; the result is what `onAttendanceChange` receives. */
    method HandleStatusChange(employeeId: string, checked: bool) returns (reported: seq<AttendanceRecord>)
      requires Valid()
      modifies this`attendanceRecords
      ensures Valid()
      ensures attendanceRecords == SetStatus(old(attendanceRecords), employeeId, checked)
      ensures reported == attendanceRecords
    {
      StatusChangeFacts(attendanceRecords, MockEmployees(), dateStr, employeeId, checked);
      var updated := SetStatus(attendanceRecords, employeeId, checked);
      attendanceRecords := updated;
      reported := updated;
    }

    /** `handleTimeChange`; the result is what `onAttendanceChange` receives. */
    method HandleTimeChange(employeeId: string, field: TimeField, value: string) returns (reported: seq<AttendanceRecord>)
      requires Valid()
      modifies this`attendanceRecords
      ensures Valid()
      ensures attendanceRecords == SetTime(old(attendanceRecords), employeeId, field, value)
      ensures reported == attendanceRecords
    {
      TimeChangeFacts(attendanceRecords, MockEmployees(), dateStr, employeeId, field, value);
      var updated := SetTime(attendanceRecords, employeeId, field, value);
      attendanceRecords := updated;
      reported := updated;
    }
  }
}
