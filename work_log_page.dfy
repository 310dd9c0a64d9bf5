/**
 * The work-log page (src/app/admin/work-log/page.tsx): the list of recent
 * entries, newest first, and the form's visibility / edit-target pair.
 */
module WorkLogPage {
  import opened Wrappers
  import opened Types
  import opened SeqOps
  import WorkLogForm

  /** `entries.map(e => e.id === entry.id ? entry : e)`: update in place by id. */
  function ReplaceById(entries: seq<WorkLogEntry>, entry: WorkLogEntry): (r: seq<WorkLogEntry>)
    ensures |r| == |entries|
    ensures forall i :: 0 <= i < |entries| ==> r[i] == (if entries[i].id == entry.id then entry else entries[i])
  {
    MapWhere(entries, (e: WorkLogEntry) => e.id == entry.id, (_: WorkLogEntry) => entry)
  }

  /** `entries.filter(e => e.id !== id)` */
  function DeleteById(entries: seq<WorkLogEntry>, id: string): (r: seq<WorkLogEntry>)
    ensures |r| <= |entries|
    ensures forall x :: x in r <==> x in entries && x.id != id
    ensures (forall i :: 0 <= i < |entries| ==> entries[i].id != id) ==> r == entries
  {
    Filter(entries, (e: WorkLogEntry) => e.id != id)
  }

  /** No entry of `entries` carries `id`. */
  predicate IdAbsent(entries: seq<WorkLogEntry>, id: string) {
    forall i :: 0 <= i < |entries| ==> entries[i].id != id
  }

  /** Every entry has a non-empty id. */
  predicate IdsNonEmpty(entries: seq<WorkLogEntry>) {
    forall i :: 0 <= i < |entries| ==> entries[i].id != ""
  }

  /** Adding an entry whose id is new and then deleting that id gives back the old list. */
  lemma AddThenDeleteRestores(entries: seq<WorkLogEntry>, entry: WorkLogEntry)
    requires IdAbsent(entries, entry.id)
    ensures DeleteById([entry] + entries, entry.id) == entries
  {
  }

  /** Deleting keeps the survivors in their relative order: it distributes over any split of the list. */
  lemma DeleteKeepsOrder(front: seq<WorkLogEntry>, back: seq<WorkLogEntry>, id: string)
    ensures DeleteById(front + back, id) == DeleteById(front, id) + DeleteById(back, id)
  {
    FilterAppend(front, back, (e: WorkLogEntry) => e.id != id);
  }

  /** Replacing by the id of an entry that is not there changes nothing; replacing twice is replacing once. */
  lemma ReplaceFacts(entries: seq<WorkLogEntry>, entry: WorkLogEntry)
    ensures IdAbsent(entries, entry.id) ==> ReplaceById(entries, entry) == entries
    ensures ReplaceById(ReplaceById(entries, entry), entry) == ReplaceById(entries, entry)
  {
  }

  /** The page's mock data. */
  function InitialRecentEntries(): (r: seq<WorkLogEntry>)
    ensures |r| == 4 && IdsNonEmpty(r)
    ensures forall i, j :: 0 <= i < j < |r| ==> r[i].id != r[j].id
  {
    [ WorkLogEntry("1", "2024-07-21", "Pine Cutting", Some(Finite(144.0)), Some(Finite(12.0)),
                   Some(Finite(1.0)), 10.0, "120.00 BF", Some("Morning shift, premium grade"), None, None),
      WorkLogEntry("2", "2024-07-21", "Oak Loading", None, None, None, 2.0, "loads",
                   Some("Afternoon delivery to Smith Co."), None, None),
      WorkLogEntry("3", "2024-07-20", "Equipment Maintenance", None, None, None, 3.0, "tasks",
                   Some("Saws A1, A2, B1 serviced"), None, None),
      WorkLogEntry("4", "2024-07-22", "Cedar Planking", Some(Finite(96.0)), Some(Finite(8.0)),
                   Some(Finite(1.5)), 50.0, "400.00 BF", Some("For custom order #C123"), None, None) ]
  }

  /**
   * Mock entries 1 and 4 carry the unit the board-feet rule derives from their
   * dimensions, for any two-decimal rendering that prints 120 and 400 as the source does.
   */
  lemma MockUnitsMatchBoardFeet(toFixed2: real -> string)
    requires toFixed2(120.0) == "120.00" && toFixed2(400.0) == "400.00"
    ensures var e := InitialRecentEntries()[0];
            e.unit == WorkLogForm.RecomputedUnit(toFixed2, e.length.value, e.width.value,
                                                  e.thickness.value, Finite(e.quantity), "")
    ensures var e := InitialRecentEntries()[3];
            e.unit == WorkLogForm.RecomputedUnit(toFixed2, e.length.value, e.width.value,
                                                  e.thickness.value, Finite(e.quantity), "")
  {
  }

  /** Where the form stands: hidden, adding a new entry, or editing one. */
  datatype FormMode = Hidden | AddingNew | Editing(target: WorkLogEntry)

  class Page {
    var recentEntries: seq<WorkLogEntry>
    var editingEntry: Option<WorkLogEntry>
    var isFormVisible: bool

    /** Every listed entry has an id, and a hidden form has no edit target. */
    ghost predicate Valid()
      reads this
    {
      IdsNonEmpty(recentEntries) && (!isFormVisible ==> editingEntry.None?)
    }

    function Mode(): (m: FormMode)
      reads this
      ensures m.Hidden? <==> !isFormVisible
      ensures m.Editing? <==> isFormVisible && editingEntry.Some?
    {
      if !isFormVisible then Hidden
      else if editingEntry.Some? then Editing(editingEntry.value)
      else AddingNew
    }

    constructor ()
      ensures Valid()
      ensures recentEntries == InitialRecentEntries() && Mode() == Hidden && editingEntry.None?
    {
      recentEntries := InitialRecentEntries();
      editingEntry := None;
      isFormVisible := false;
    }

    /**
     * `handleFormSubmit`: in edit mode every entry with the submitted id is
     * replaced; otherwise the entry is prepended, an empty id being replaced by
     * `"new-" + stamp` (`stamp` stands for `Date.now()`). The form is hidden
     * and the edit target cleared afterwards.
     */
    method HandleFormSubmit(entry: WorkLogEntry, stamp: string)
      requires Valid()
      modifies this
      ensures Valid()
      ensures old(editingEntry).Some? ==> recentEntries == ReplaceById(old(recentEntries), entry)
      ensures old(editingEntry).None? ==>
                recentEntries == [entry.(id := if entry.id != "" then entry.id else "new-" + stamp)]
                                 + old(recentEntries)
      ensures editingEntry.None? && !isFormVisible && Mode() == Hidden
    {
      if editingEntry.Some? {
        recentEntries := ReplaceById(recentEntries, entry);
        editingEntry := None;
      } else {
        var withId := entry.(id := if entry.id != "" then entry.id else "new-" + stamp);
        recentEntries := [withId] + recentEntries;
      }
      isFormVisible := false;
    }

    /** `handleEdit`: the entry becomes the edit target and the form opens; the list is untouched. */
    method HandleEdit(entry: WorkLogEntry)
      requires Valid()
      modifies this`editingEntry, this`isFormVisible
      ensures Valid()
      ensures editingEntry == Some(entry) && isFormVisible && Mode() == Editing(entry)
    {
      editingEntry := Some(entry);
      isFormVisible := true;
    }

    /** `handleDelete`: every entry with the id goes, the rest keep their order. */
    method HandleDelete(id: string)
      requires Valid()
      modifies this`recentEntries
      ensures Valid()
      ensures recentEntries == DeleteById(old(recentEntries), id)
    {
      recentEntries := DeleteById(recentEntries, id);
    }

    /** `toggleFormVisibility`: flips visibility; closing during an edit clears the target. */
    method ToggleFormVisibility()
      requires Valid()
      modifies this`isFormVisible, this`editingEntry
      ensures Valid()
      ensures isFormVisible == !old(isFormVisible)
      ensures editingEntry == if old(isFormVisible) then None else old(editingEntry)
      ensures old(Mode()) == Hidden ==> Mode() == AddingNew
      ensures old(Mode()) != Hidden ==> Mode() == Hidden
    {
      var wasVisible := isFormVisible;
      isFormVisible := !isFormVisible;
      if wasVisible && editingEntry.Some? {
        editingEntry := None;
      }
    }
  }
}
