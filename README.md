# TimberOps admin console: a Dafny model of its state rules

TimberOps is a mock admin console for a sawmill. Its pages keep all data in
component state. This project models the parts of it that carry rules:

- the work-log entry form: the board-feet rule that rewrites the unit, the submit guard and how an entry is built;
- the work-log page: an ordered entry list (prepend on add, replace by id on edit, filter by id on delete) and the form's visibility and edit target;
- the attendance roster: one record per employee for a date, and the status and time edits;
- the settings page: the guarded user add, user removal and the notification switches;
- the sidebar: which items a role sees and which item is highlighted;
- the reports page's chart tick label;
- the shared record types, the mock employee list and the role stub.

Modules follow the source files. The form, the work-log page, the attendance
table and the settings page are each a `class` whose fields are the
component's `useState` cells; each handler is a method whose `ensures` gives
the whole new state as a function of the old one. The sidebar's only state,
the current role, is set once by a mount effect; it is modelled as the
constant `InitialRole` (before the effect) and the stub's answer (after it),
related by the lemma `SidebarNav.RoleBeforeAndAfterMount`. The list
updates are pure functions (`SeqOps.Filter`, `SeqOps.MapWhere`,
`SeqOps.FirstWhere`: JavaScript's `filter`, a selective `map` and `find`).
Lemmas state the properties that relate several calls.

What the model does not compute itself:

- JavaScript's `parseFloat`, `Number.prototype.toFixed(2)` and `Number.prototype.toString` are passed in as functions.
- A JavaScript number is `JsNumber`: `NaN` or a finite `real`.
- `new Date().toISOString()` and `Date.now()` are string parameters (`nowIso`, `stamp`).
- `typeof window !== "undefined"` is a boolean parameter.
- The form holds the injected `parseFloat` under the invariant `Form.Valid()`: empty text parses to NaN, as in JavaScript.
- Dates are opaque `yyyy-MM-dd` strings; an unset date picker is `None`.

Behaviours of the code that a reader might not expect, all modelled as written:

- A dimension whose text is non-empty but does not parse is stored as `NaN` on submit (WorkLogForm.tsx:61-63). It is not omitted, so an entry can carry a NaN dimension.
- The saved unit need not be the board-feet text when all four dimensions are positive. A unit typed by hand after the last dimension change is kept (WorkLogForm.tsx:35-46, 183), because the effect runs only when a dimension changes.
- The board-feet effect also runs once when the form opens. So editing an entry with four positive dimensions replaces its stored unit at once (`WorkLogForm.EditOpensWithDerivedUnit`).
- In edit mode the page replaces every entry whose id equals the submitted entry's id (work-log/page.tsx:63). It does not replace "the entry being edited" as such.

## Model

| member | source | states |
|---|---|---|
| Types.MockEmployees | src/types/index.ts:41-47 | five employees with pairwise distinct ids; exactly the fifth (David Brown) is an Admin |
| Types.GetCurrentUserRole | src/types/index.ts:50-61 | Admin whenever `window` is defined, Worker otherwise, never Manager |
| SeqOps.Filter | src/app/admin/work-log/page.tsx:79 | `filter`: an element is kept iff it was there and passes; nothing is added; nothing is dropped when all pass |
| SeqOps.FilterAppend | src/app/admin/work-log/page.tsx:79 | filtering distributes over concatenation, so the survivors keep their relative order |
| SeqOps.MapWhere | src/app/admin/work-log/page.tsx:63 | selective `map`: same length; each position is rewritten iff it is selected, others untouched |
| SeqOps.FirstWhere | src/components/attendance/AttendanceTable.tsx:22 | `find`: None iff nothing matches; otherwise an element that matches with no match before it |
| WorkLogForm.BoardFeet | src/components/work-log/WorkLogForm.tsx:42 | (L·W·T·Q)/144 is positive when all four dimensions are positive |
| WorkLogForm.DerivationApplies | src/components/work-log/WorkLogForm.tsx:41 | true iff all four dimensions are numbers (not NaN) above 0; then the board-feet value is positive |
| WorkLogForm.RecomputedUnit | src/components/work-log/WorkLogForm.tsx:35-46 | the effect's result: the two-decimal board-feet text plus " BF" when the derivation applies, otherwise the unit unchanged, in particular whenever a dimension is NaN |
| WorkLogForm.RecomputeOverridesOrKeeps | src/components/work-log/WorkLogForm.tsx:35-46 | with four positive dimensions the unit is the board-feet text ending in " BF" whatever it was before; otherwise the unit is left exactly as it was; a second run changes nothing |
| WorkLogForm.OptionalNumberText | src/components/work-log/WorkLogForm.tsx:26-28 | an absent dimension of the edited entry pre-fills as empty text, NaN as "NaN" |
| WorkLogForm.OptionalNumber | src/components/work-log/WorkLogForm.tsx:61-63 | a dimension is undefined exactly when its text is empty, and otherwise its parse, NaN included |
| WorkLogForm.Form.constructor | src/components/work-log/WorkLogForm.tsx:23-46 | given a `parseFloat` that maps empty text to NaN (kept as `Valid()`): without initial data, today's date, all text empty and the unit "" (the effect leaves it), so the form cannot yet be submitted; with initial data every field pre-filled, numbers through toString, then the effect's first run sets the unit |
| WorkLogForm.Form.SetDate | src/components/work-log/WorkLogForm.tsx:107 | changes the date only (the unit cannot change) |
| WorkLogForm.Form.SetTypeOfWork | src/components/work-log/WorkLogForm.tsx:118 | changes the type of work only (the unit cannot change) |
| WorkLogForm.Form.SetNotes | src/components/work-log/WorkLogForm.tsx:198 | changes the notes only (the unit cannot change) |
| WorkLogForm.Form.SetUnit | src/components/work-log/WorkLogForm.tsx:183 | a manually typed unit replaces the unit and nothing else |
| WorkLogForm.Form.SetLengthStr | src/components/work-log/WorkLogForm.tsx:35-46 | new length text; the board-feet effect runs iff the text changed |
| WorkLogForm.Form.SetWidthStr | src/components/work-log/WorkLogForm.tsx:35-46 | new width text; the board-feet effect runs iff the text changed |
| WorkLogForm.Form.SetThicknessStr | src/components/work-log/WorkLogForm.tsx:35-46 | new thickness text; the board-feet effect runs iff the text changed |
| WorkLogForm.Form.SetQuantityStr | src/components/work-log/WorkLogForm.tsx:35-46 | new piece-count text; the board-feet effect runs iff the text changed |
| WorkLogForm.Form.Submit | src/components/work-log/WorkLogForm.tsx:48-81 | refused iff `CanSubmit()` fails: the date is unset, type of work empty, quantity NaN or ≤ 0, or unit empty; in particular an empty quantity text is refused; otherwise emits one entry: initial id if non-empty else a fresh one; quantity the parsed positive value; dimensions as typed; unit and notes as held; no photo fields; no form field changes either way |
| WorkLogForm.EditOpensWithDerivedUnit | src/components/work-log/WorkLogForm.tsx:26-46 | opening the form on an entry with four positive dimensions, each of which prints and parses back to itself, shows the board-feet unit, overriding the stored unit |
| WorkLogPage.ReplaceById | src/app/admin/work-log/page.tsx:63 | same length and positions; exactly the entries with the submitted id become the submitted entry |
| WorkLogPage.ReplaceFacts | src/app/admin/work-log/page.tsx:63 | replacing an id that is not listed changes nothing; replacing twice equals replacing once |
| WorkLogPage.DeleteById | src/app/admin/work-log/page.tsx:79 | an entry survives iff its id differs; a no-op when nothing matches |
| WorkLogPage.DeleteKeepsOrder | src/app/admin/work-log/page.tsx:79 | delete distributes over any split of the list, so the rest keep their order |
| WorkLogPage.AddThenDeleteRestores | src/app/admin/work-log/page.tsx:61-80 | prepending an entry whose id is new and deleting that id restores the original list |
| WorkLogPage.InitialRecentEntries | src/app/admin/work-log/page.tsx:15-54 | four mock entries with distinct, non-empty ids |
| WorkLogPage.MockUnitsMatchBoardFeet | src/app/admin/work-log/page.tsx:15-54 | mock entries 1 and 4 carry the units the board-feet rule derives: 144·12·1·10/144 = 120 and 96·8·1.5·50/144 = 400 |
| WorkLogPage.Page.Mode | src/app/admin/work-log/page.tsx:100-108 | the form is Hidden iff not visible, and Editing iff visible with an edit target |
| WorkLogPage.Page.constructor | src/app/admin/work-log/page.tsx:57-59 | starts with the mock entries, hidden form and no edit target |
| WorkLogPage.Page.HandleFormSubmit | src/app/admin/work-log/page.tsx:61-71 | edit mode: replace by id; add mode: prepend the entry (an empty id becomes "new-"+stamp); then hidden with no edit target; ids stay non-empty |
| WorkLogPage.Page.HandleEdit | src/app/admin/work-log/page.tsx:73-76 | sets the edit target and shows the form; the list is not touched |
| WorkLogPage.Page.HandleDelete | src/app/admin/work-log/page.tsx:78-80 | the list becomes DeleteById of the old list |
| WorkLogPage.Page.ToggleFormVisibility | src/app/admin/work-log/page.tsx:82-91 | flips visibility; closing clears the edit target; Hidden goes to AddingNew, any open mode to Hidden; the list is not touched |
| AttendanceTable.FindRecord | src/components/attendance/AttendanceTable.tsx:22 | the first record with that employee id and date, or None iff there is none |
| AttendanceTable.DefaultRecord | src/components/attendance/AttendanceTable.tsx:23-31 | id "<empId>-<date>", the employee's id and name, status Absent, empty time in and out |
| AttendanceTable.RosterEntry | src/components/attendance/AttendanceTable.tsx:22-31 | one employee's record carries that employee's id and the date; it is the first input record matching the employee and date, reused as it is, or the default when none matches |
| AttendanceTable.Roster | src/components/attendance/AttendanceTable.tsx:19-33 | `mockEmployees.map(...)`: one record per employee, position by position |
| AttendanceTable.RosterIsOnePerEmployee | src/components/attendance/AttendanceTable.tsx:19-33 | one record per employee, in employee order, all for the date; each is the first matching input record when one exists, otherwise the Absent default |
| AttendanceTable.SetStatus | src/components/attendance/AttendanceTable.tsx:36-38 | same length; exactly that employee's records get the new status, nothing else changes |
| AttendanceTable.SetTime | src/components/attendance/AttendanceTable.tsx:44-46 | same length; exactly that employee's records get the named time field, nothing else changes |
| AttendanceTable.StatusChangeFacts | src/components/attendance/AttendanceTable.tsx:35-41 | unknown employee: no change; the employee's records are Present iff checked and keep their times; the roster shape survives |
| AttendanceTable.TimeChangeFacts | src/components/attendance/AttendanceTable.tsx:43-49 | unknown employee: no change; the roster shape survives |
| AttendanceTable.Table.constructor | src/components/attendance/AttendanceTable.tsx:19-33 | the roster for the mock employees, the mount date and the initial records |
| AttendanceTable.Table.HandleStatusChange | src/components/attendance/AttendanceTable.tsx:35-41 | stores SetStatus of the old records and reports that same list |
| AttendanceTable.Table.HandleTimeChange | src/components/attendance/AttendanceTable.tsx:43-49 | stores SetTime of the old records and reports that same list |
| SettingsPage.Toggle | src/app/admin/settings/page.tsx:58-59 | the named flag flips and the other two are unchanged |
| SettingsPage.ToggleTwiceRestores | src/app/admin/settings/page.tsx:58-59 | flipping the same switch twice restores the preferences |
| SettingsPage.RemoveUser | src/app/admin/settings/page.tsx:135 | a user survives iff its id differs; a no-op when nothing matches |
| SettingsPage.RemoveKeepsOrder | src/app/admin/settings/page.tsx:135 | removal distributes over any split, so the rest keep their order |
| SettingsPage.InitialNotifications | src/app/admin/settings/page.tsx:37-41 | dailySummary on, incompleteLogs off, lowStock on |
| SettingsPage.Settings.constructor | src/app/admin/settings/page.tsx:33-41 | mock users, empty name, role Worker; flags dailySummary on, incompleteLogs off, lowStock on |
| SettingsPage.Settings.SetNewUserName | src/app/admin/settings/page.tsx:97 | sets the typed name |
| SettingsPage.Settings.SetNewUserRole | src/app/admin/settings/page.tsx:101-109 | sets the selected role, which is Worker or Admin by its type |
| SettingsPage.Settings.HandleAddUser | src/app/admin/settings/page.tsx:43-56 | empty name: refused, nothing changes; otherwise one user "emp-"+stamp with the name and role is appended, never a Manager, and the name is cleared |
| SettingsPage.Settings.HandleRemoveUser | src/app/admin/settings/page.tsx:134-137 | the users become RemoveUser of the old list |
| SettingsPage.Settings.HandleNotificationChange | src/app/admin/settings/page.tsx:58-61 | the flags become Toggle of the old flags |
| SidebarNav.AllNavItems | src/components/layout/SidebarNav.tsx:28-33 | four main items with distinct hrefs, Dashboard first; Admin and Manager may see all of them, Worker exactly the first two |
| SidebarNav.SettingsItem | src/components/layout/SidebarNav.tsx:35 | the Settings item is for Admin only, and its href differs from every main item's |
| SidebarNav.IsActive | src/components/layout/SidebarNav.tsx:64 | an active item's href is a prefix of the path, and an exact match is always active |
| SidebarNav.IsSettingsActive | src/components/layout/SidebarNav.tsx:91 | Settings is active iff the path starts with "/admin/settings" |
| SidebarNav.VisibleNavItems | src/components/layout/SidebarNav.tsx:45 | an item is shown iff it is a main item whose roles include the current role |
| SidebarNav.CanViewSettings | src/components/layout/SidebarNav.tsx:35-46 | Settings is shown iff the role is Admin |
| SidebarNav.WorkersSeeTwo | src/components/layout/SidebarNav.tsx:28-45 | a Worker sees exactly Dashboard and Work Log |
| SidebarNav.ManagersAndAdminsSeeAll | src/components/layout/SidebarNav.tsx:28-45 | Managers and Admins see all four main items in order |
| SidebarNav.ActiveRule | src/components/layout/SidebarNav.tsx:64 | Dashboard is active iff the path equals its href; every other item iff the path starts with its href; Settings is active below "/admin/settings" but not on the dashboard |
| SidebarNav.RoleBeforeAndAfterMount | src/components/layout/SidebarNav.tsx:39-46 | before the mount effect the Worker view without Settings; in the browser afterwards Admin sees everything and Settings |
| Reports.SplitHead | src/app/admin/reports/page.tsx:73 | `split(sep)[0]`: a prefix with no occurrence of sep starting inside it, followed by sep unless it is the whole text |
| Reports.SplitHeadAt | src/app/admin/reports/page.tsx:73 | with the first occurrence at k, the head is exactly the first k characters |
| Reports.SplitHeadAbsent | src/app/admin/reports/page.tsx:73 | with no occurrence the head is the whole text |
| Reports.TickLabel | src/app/admin/reports/page.tsx:73 | the label is a prefix of the period with no space; it is the whole period or is cut at a space or at ", ", and no ", " starts inside it; a period without spaces is its own label |
| Reports.NoSpaceMeansNoSeparators | src/app/admin/reports/page.tsx:73 | a text without spaces contains neither ", " nor " " |
| Reports.TickLabelIdempotent | src/app/admin/reports/page.tsx:73 | labelling a label changes nothing |
| Reports.DayTickLabel | src/app/admin/reports/page.tsx:14 | '2024-07-20' is its own label |
| Reports.WeekTickLabel | src/app/admin/reports/page.tsx:20 | 'Week 28, 2024' is labelled 'Week' |
| Reports.MonthTickLabel | src/app/admin/reports/page.tsx:28 | 'July 2024' is labelled 'July' |

## Left out

- `parseFloat`, `toFixed(2)` rounding and `Number.prototype.toString` are passed in as functions. IEEE floating point is not modelled: arithmetic is on `real`, and Infinity is not represented.
- Date handling: `new Date(...)` and date-fns `format` are left out, and dates are opaque strings. A possible day shift from parsing "yyyy-MM-dd" as UTC and formatting in local time is therefore not captured.
- Timestamp ids (`new Date().toISOString()`, `Date.now()`) are parameters. Their uniqueness is not modelled.
- React lifecycle: effect scheduling, re-renders and stale closures are not modelled. The board-feet effect runs synchronously inside the dimension setters and once in the form's constructor. The attendance roster is built once, when the table is created.
- The `onSubmit` and `onAttendanceChange` callbacks are modelled as the values the handlers return. The page's own `handleFormSubmit` is a separate method and is not wired to the form.
- Toasts, dialogs, the calendar popover, tables and the recharts charts are presentation only. The nav items' icons are left out too.
- The dashboard, profile and attendance pages, the header and the admin layout are not part of this model. They hold no stateable logic beyond what is modelled here.
- Backup, restore and logout are left out. They only show a toast or navigate.
- The photo fields exist in `WorkLogEntry`, but the form never sets them.
- `WorkLogEntry.quantity` is a `real`, not a `JsNumber`. Every entry the console creates has a positive parsed quantity, so a NaN quantity is not representable.
