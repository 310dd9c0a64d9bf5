/**
 * The work-log entry form (src/components/work-log/WorkLogForm.tsx): its
 * state cells, the board-feet effect that rewrites the unit whenever a
 * dimension changes, and the submit handler that validates the fields and
 * builds a `WorkLogEntry`.
 *
 * `parseFloat`, `Number.prototype.toFixed(2)` and `Number.prototype.toString`
 * are not modelled; the form receives them as functions.
 */
module WorkLogForm {
  import opened Wrappers
  import opened Types

  /** Board feet of `q` pieces of `l` x `w` x `t` inches: (L*W*T*Q)/144. */
  function BoardFeet(l: real, w: real, t: real, q: real): (bf: real)
    ensures l > 0.0 && w > 0.0 && t > 0.0 && q > 0.0 ==> bf > 0.0
  {
    (l * w * t * q) / 144.0
  }

  /** The effect recomputes only when all four dimensions parse to positive numbers. */
  predicate DerivationApplies(l: JsNumber, w: JsNumber, t: JsNumber, q: JsNumber): (b: bool)
    ensures b <==> l.Finite? && w.Finite? && t.Finite? && q.Finite?
                   && l.value > 0.0 && w.value > 0.0 && t.value > 0.0 && q.value > 0.0
    ensures b ==> BoardFeet(l.value, w.value, t.value, q.value) > 0.0
  {
    IsPositive(l) && IsPositive(w) && IsPositive(t) && IsPositive(q)
  }

  /** The unit the board-feet effect leaves behind, starting from `unit`. */
  function RecomputedUnit(toFixed2: real -> string, l: JsNumber, w: JsNumber, t: JsNumber, q: JsNumber,
                          unit: string): (r: string)
    ensures DerivationApplies(l, w, t, q) ==>
              r == toFixed2(BoardFeet(l.value, w.value, t.value, q.value)) + " BF"
    ensures !DerivationApplies(l, w, t, q) ==> r == unit
    ensures NaN in [l, w, t, q] ==> r == unit
  {
    if DerivationApplies(l, w, t, q) then
      toFixed2(BoardFeet(l.value, w.value, t.value, q.value)) + " BF"
    else
      unit
  }

  /**
   * With four positive dimensions the unit is the board-feet text whatever was
   * there before (a manual value is overridden); otherwise it is exactly what
   * was there before (a manual value survives). Either way a second run of the
   * effect changes nothing.
   */
  lemma RecomputeOverridesOrKeeps(toFixed2: real -> string, l: JsNumber, w: JsNumber, t: JsNumber,
                                  q: JsNumber, unit: string, other: string)
    ensures DerivationApplies(l, w, t, q) ==>
              RecomputedUnit(toFixed2, l, w, t, q, unit) == RecomputedUnit(toFixed2, l, w, t, q, other)
    ensures DerivationApplies(l, w, t, q) ==>
              var r := RecomputedUnit(toFixed2, l, w, t, q, unit);
              |r| >= 3 && r[|r| - 3..] == " BF"
    ensures !DerivationApplies(l, w, t, q) ==> RecomputedUnit(toFixed2, l, w, t, q, unit) == unit
    ensures var r := RecomputedUnit(toFixed2, l, w, t, q, unit);
            RecomputedUnit(toFixed2, l, w, t, q, r) == r
  {
  }

  /** `x?.toString() || ''` for an optional dimension of an entry being edited. */
  function OptionalNumberText(n: Option<JsNumber>, numberToString: real -> string): (s: string)
    ensures n.None? ==> s == ""
    ensures n == Some(NaN) ==> s == "NaN"
  {
    match n
    case None => ""
    case Some(NaN) => "NaN"
    case Some(Finite(v)) => numberToString(v)
  }

  /** `text ? parseFloat(text) : undefined`: empty text gives no value, other text its parse (NaN included). */
  function OptionalNumber(text: string, parseFloat: string -> JsNumber): (n: Option<JsNumber>)
    ensures n.None? <==> text == ""
    ensures n.Some? ==> n.value == parseFloat(text)
  {
    if text == "" then None else Some(parseFloat(text))
  }

  class Form {
    const parseFloat: string -> JsNumber
    const toFixed2: real -> string
    /** `initialData?.id`, or "" when the form was opened for a new entry. */
    const initialId: string

    var date: Option<string>
    var typeOfWork: string
    var lengthStr: string
    var widthStr: string
    var thicknessStr: string
    var quantityStr: string
    var unit: string
    var notes: string

    /** What the board-feet effect makes of `u` for the current dimension text. */
    function Recomputed(u: string): string
      reads this`lengthStr, this`widthStr, this`thicknessStr, this`quantityStr
    {
      RecomputedUnit(toFixed2, parseFloat(lengthStr), parseFloat(widthStr), parseFloat(thicknessStr),
                     parseFloat(quantityStr), u)
    }

    /** `parseFloat` behaves as JavaScript's does on empty text: it yields NaN. */
    ghost predicate Valid() {
      parseFloat("") == NaN
    }

    /** The submit guard: date set, type of work and unit non-empty, quantity a positive number. */
    predicate CanSubmit()
      reads this
    {
      date.Some? && typeOfWork != "" && IsPositive(parseFloat(quantityStr)) && unit != ""
    }

    /**
     * Mounting the form: every field is pre-filled from `initialData` (numbers
     * through `numberToString`), or empty with `today` as the date; then the
     * effect runs once on the initial dimension text.
     */
    constructor (initialData: Option<WorkLogEntry>, today: string, parseFloat: string -> JsNumber,
                 toFixed2: real -> string, numberToString: real -> string)
      requires parseFloat("") == NaN
      ensures Valid()
      ensures this.parseFloat == parseFloat && this.toFixed2 == toFixed2
      ensures initialData.None? ==> unit == "" && !CanSubmit()
      ensures initialData.None? ==>
                && initialId == "" && date == Some(today) && typeOfWork == ""
                && lengthStr == "" && widthStr == "" && thicknessStr == "" && quantityStr == ""
                && notes == "" && unit == Recomputed("")
      ensures initialData.Some? ==>
                var d := initialData.value;
                && initialId == d.id
                && date == Some(if d.date != "" then d.date else today)
                && typeOfWork == d.typeOfWork
                && lengthStr == OptionalNumberText(d.length, numberToString)
                && widthStr == OptionalNumberText(d.width, numberToString)
                && thicknessStr == OptionalNumberText(d.thickness, numberToString)
                && quantityStr == numberToString(d.quantity)
                && notes == d.notes.GetOr("")
                && unit == Recomputed(d.unit)
    {
      this.parseFloat := parseFloat;
      this.toFixed2 := toFixed2;
      var startUnit := "";
      match initialData {
        case None =>
          initialId := "";
          date := Some(today);
          typeOfWork := "";
          lengthStr, widthStr, thicknessStr, quantityStr := "", "", "", "";
          notes := "";
        case Some(d) =>
          initialId := d.id;
          date := Some(if d.date != "" then d.date else today);
          typeOfWork := d.typeOfWork;
          lengthStr := OptionalNumberText(d.length, numberToString);
          widthStr := OptionalNumberText(d.width, numberToString);
          thicknessStr := OptionalNumberText(d.thickness, numberToString);
          quantityStr := numberToString(d.quantity);
          notes := d.notes.GetOr("");
          startUnit := d.unit;
      }
      new;
      unit := Recomputed(startUnit);
    }

    method SetDate(d: Option<string>)
      modifies this`date
      ensures date == d
    {
      date := d;
    }

    method SetTypeOfWork(s: string)
      modifies this`typeOfWork
      ensures typeOfWork == s
    {
      typeOfWork := s;
    }

    method SetNotes(s: string)
      modifies this`notes
      ensures notes == s
    {
      notes := s;
    }

    /** Typing in the unit box: the manual value stands until a dimension changes. */
    method SetUnit(s: string)
      modifies this`unit
      ensures unit == s
    {
      unit := s;
    }

    /** A new length text; the effect runs only if the text actually changed. */
    method SetLengthStr(s: string)
      modifies this`lengthStr, this`unit
      ensures lengthStr == s
      ensures unit == if s == old(lengthStr) then old(unit) else Recomputed(old(unit))
    {
      if s != lengthStr {
        lengthStr := s;
        unit := Recomputed(unit);
      }
    }

    method SetWidthStr(s: string)
      modifies this`widthStr, this`unit
      ensures widthStr == s
      ensures unit == if s == old(widthStr) then old(unit) else Recomputed(old(unit))
    {
      if s != widthStr {
        widthStr := s;
        unit := Recomputed(unit);
      }
    }

    method SetThicknessStr(s: string)
      modifies this`thicknessStr, this`unit
      ensures thicknessStr == s
      ensures unit == if s == old(thicknessStr) then old(unit) else Recomputed(old(unit))
    {
      if s != thicknessStr {
        thicknessStr := s;
        unit := Recomputed(unit);
      }
    }

    method SetQuantityStr(s: string)
      modifies this`quantityStr, this`unit
      ensures quantityStr == s
      ensures unit == if s == old(quantityStr) then old(unit) else Recomputed(old(unit))
    {
      if s != quantityStr {
        quantityStr := s;
        unit := Recomputed(unit);
      }
    }

    /**
     * The submit handler. `None` is the "Missing Information" toast: nothing is
     * emitted. Otherwise the emitted entry is what `onSubmit` receives. No field
     * of the form changes in either case. `nowIso` stands for
     * `new Date().toISOString()`.
     */
    method Submit(nowIso: string) returns (emitted: Option<WorkLogEntry>)
      requires Valid()
      ensures emitted.None? <==> !CanSubmit()
      ensures emitted.None? <==>
                date.None? || typeOfWork == "" || !IsPositive(parseFloat(quantityStr)) || unit == ""
      ensures quantityStr == "" || unit == "" || typeOfWork == "" ==> emitted.None?
      ensures emitted.Some? ==>
                var e := emitted.value;
                && e.id == (if initialId != "" then initialId else nowIso)
                && e.date == date.value
                && e.typeOfWork == typeOfWork && e.typeOfWork != ""
                && e.length == OptionalNumber(lengthStr, parseFloat)
                && e.width == OptionalNumber(widthStr, parseFloat)
                && e.thickness == OptionalNumber(thicknessStr, parseFloat)
                && Finite(e.quantity) == parseFloat(quantityStr) && e.quantity > 0.0
                && e.unit == unit && e.unit != ""
                && e.notes == Some(notes)
                && e.photoUrl.None? && e.photoFileName.None?
    {
      var numQuantity := parseFloat(quantityStr);
      if date.None? || typeOfWork == "" || numQuantity.NaN? || numQuantity.value <= 0.0 || unit == "" {
        return None;
      }
      var numLength := if lengthStr != "" then Some(parseFloat(lengthStr)) else None;
      var numWidth := if widthStr != "" then Some(parseFloat(widthStr)) else None;
      var numThickness := if thicknessStr != "" then Some(parseFloat(thicknessStr)) else None;
      var id := if initialId != "" then initialId else nowIso;
      emitted := Some(WorkLogEntry(id, date.value, typeOfWork, numLength, numWidth, numThickness,
                                   numQuantity.value, unit, Some(notes), None, None));
    }
  }

  /**
   * Opening the form on an entry whose four dimensions are positive numbers,
   * each of which prints and parses back to itself, replaces its unit by
   * the board-feet text at once, even if the stored unit was typed by hand.
   */
  lemma EditOpensWithDerivedUnit(d: WorkLogEntry, parseFloat: string -> JsNumber,
                                 toFixed2: real -> string, numberToString: real -> string)
    requires d.length.Some? && d.width.Some? && d.thickness.Some?
    requires IsPositive(d.length.value) && IsPositive(d.width.value) && IsPositive(d.thickness.value)
    requires d.quantity > 0.0
    requires parseFloat(numberToString(d.length.value.value)) == d.length.value
    requires parseFloat(numberToString(d.width.value.value)) == d.width.value
    requires parseFloat(numberToString(d.thickness.value.value)) == d.thickness.value
    requires parseFloat(numberToString(d.quantity)) == Finite(d.quantity)
    ensures RecomputedUnit(toFixed2,
                           parseFloat(OptionalNumberText(d.length, numberToString)),
                           parseFloat(OptionalNumberText(d.width, numberToString)),
                           parseFloat(OptionalNumberText(d.thickness, numberToString)),
                           parseFloat(numberToString(d.quantity)), d.unit)
            == toFixed2(BoardFeet(d.length.value.value, d.width.value.value, d.thickness.value.value,
                                  d.quantity)) + " BF"
  {
  }
}
