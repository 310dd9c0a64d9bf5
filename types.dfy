/**
 * The record shapes shared by every page of the console (src/types/index.ts),
 * the mock employee list and the stubbed role lookup.
 */
module Types {
  import opened Wrappers

  /** The three roles a user can have. */
  datatype UserRole = Admin | Manager | Worker

  /**
   * A JavaScript number as the console can produce it: `parseFloat` yields NaN
   * for text that does not start with a number. Infinities are not modelled.
   */
  datatype JsNumber = NaN | Finite(value: real)

  /** `!isNaN(x) && x > 0` */
  predicate IsPositive(n: JsNumber) {
    n.Finite? && n.value > 0.0
  }

  /**
   * One work-log record. The optional TypeScript fields become `Option`s;
   * dimensions are `JsNumber` because the form stores NaN for a non-empty
   * field that does not parse. `date` is the "yyyy-MM-dd" text, kept opaque.
   */
  datatype WorkLogEntry = WorkLogEntry(
    id: string,
    date: string,
    typeOfWork: string,
    length: Option<JsNumber>,
    width: Option<JsNumber>,
    thickness: Option<JsNumber>,
    quantity: real,
    unit: string,
    notes: Option<string>,
    photoUrl: Option<string>,
    photoFileName: Option<string>)

  datatype Employee = Employee(id: string, name: string, role: UserRole)

  datatype AttendanceStatus = Present | Absent

  datatype AttendanceRecord = AttendanceRecord(
    id: string,
    employeeId: string,
    employeeName: string,
    date: string,
    status: AttendanceStatus,
    timeIn: Option<string>,
    timeOut: Option<string>)

  /** The fixed employee list every page starts from (names as stored in the source). */
  function MockEmployees(): (r: seq<Employee>)
    ensures |r| == 5
    ensures forall i, j :: 0 <= i < j < |r| ==> r[i].id != r[j].id
    ensures forall i :: 0 <= i < |r| ==> (r[i].role == Admin <==> i == 4)
  {
    [ Employee("emp-001", "John\U{e4}\U{bc} Doe\U{e6}\U{17e}\U{2014}", Worker),
      Employee("emp-002", "Jane\U{f0}\U{178}\U{152}\U{b3} Smith", Worker),
      Employee("emp-003", "Mike\U{f0}\U{178}\U{aa}\U{b5} Johnson", Worker),
      Employee("emp-004", "Sarah\U{f0}\U{178}\U{152}\U{b2} Williams", Worker),
      Employee("emp-005", "David Brown\U{e2}\U{161}\U{2122}\U{ef}\U{b8}", Admin) ]
  }

  /** The e-mail address the stub pretends is logged in. */
  const SimulatedUserEmail: string := "admin@example.com"

  /**
   * The stubbed role lookup. `windowDefined` stands for
   * `typeof window !== "undefined"` (running in a browser rather than on the server).
   */
  function GetCurrentUserRole(windowDefined: bool): (r: UserRole)
    ensures windowDefined ==> r == Admin
    ensures !windowDefined ==> r == Worker
    ensures r != Manager
  {
    if windowDefined && SimulatedUserEmail == "admin@example.com" then Admin else Worker
  }
}
