/**
  The review editor: the report under review is component state that the
  user edits field by field; an effect re-derives the totals, the
  difference and the status whenever a breakdown, the expenses or the
  warnings change.
*/
module Editor {
  import opened Wrappers
  import opened Types
  import Extraction

  /** Which of the two breakdowns an edit targets. */
  datatype Side = System | Real {
    function Flip(): Side { if this == System then Real else System }
  }

  function BreakdownOf(d: DailyReport, side: Side): MoneyBreakdown
  {
    if side == System then d.systemBreakdown else d.realBreakdown
  }

  function WithBreakdown(d: DailyReport, side: Side, b: MoneyBreakdown): DailyReport
  {
    if side == System then d.(systemBreakdown := b) else d.(realBreakdown := b)
  }

  /** The report after the totals effect has run: the system total is all
      five system buckets, the real total is the four real channels plus
      expenses plus the real `other` bucket, the difference is real minus
      system, the status follows the shared rule with the current warnings,
      and nothing else changes. */
  function Rederived(d: DailyReport): (r: DailyReport)
    ensures r.systemTotal == BucketSum(d.systemBreakdown)
    ensures r.realTotal == ChannelSum(d.realBreakdown) + d.expenses + d.realBreakdown.other
    ensures r.difference == r.realTotal - r.systemTotal
    ensures r.status == StatusFor(|d.warnings| > 0, Some(r.difference))
    ensures r.(systemTotal := d.systemTotal, realTotal := d.realTotal,
               difference := d.difference, status := d.status) == d
  {
    var sysTotal := BucketSum(d.systemBreakdown);
    var realTotal := ChannelSum(d.realBreakdown) + d.expenses + d.realBreakdown.other;
    var diff := realTotal - sysTotal;
    d.(systemTotal := sysTotal, realTotal := realTotal, difference := diff,
       status := StatusFor(|d.warnings| > 0, Some(diff)))
  }

  /** Running the effect again on its own output changes nothing: the
      effect's inputs are not among the fields it writes. */
  lemma RederiveIdempotent(d: DailyReport)
    ensures Rederived(Rederived(d)) == Rederived(d)
  {
  }

  /** `[...ws].splice(index, 1)`: a negative index counts from the end (and
      is clamped at 0); an index past the end removes nothing. */
  function SpliceOne(ws: seq<string>, index: int): (r: seq<string>)
    // a valid index removes exactly that element and keeps the rest in order
    ensures 0 <= index < |ws| ==> |r| == |ws| - 1
    ensures 0 <= index < |ws| ==> forall j :: 0 <= j < index ==> r[j] == ws[j]
    ensures 0 <= index < |ws| ==> forall j :: index <= j < |r| ==> r[j] == ws[j + 1]
    ensures 0 <= index < |ws| ==> multiset(r) + multiset{ws[index]} == multiset(ws)
    ensures index >= |ws| ==> r == ws
    ensures |ws| > 0 && index == -1 ==> r == ws[..|ws| - 1]
  {
    var start := if index >= 0 then index else if |ws| + index < 0 then 0 else |ws| + index;
    if start >= |ws| then ws
    else
      assert ws == ws[..start] + [ws[start]] + ws[start + 1..];
      ws[..start] + ws[start + 1..]
  }

  /** Once no warning is left, the re-derived status depends only on the
      re-derived difference. */
  lemma StatusWithoutWarnings(d: DailyReport)
    requires d.warnings == []
    ensures Rederived(d).status == Shortage <==> Rederived(d).difference < -SmallChange
    ensures Rederived(d).status == Surplus <==> Rederived(d).difference > SmallChange
    ensures Rederived(d).status == Balanced <==> -SmallChange <= Rederived(d).difference <= SmallChange
  {
  }

  /** After re-derivation the validator's system-side rule never fires, and
      its real-side rule fires exactly when the real `other` bucket is off by
      more than the tolerance: the effect counts `other`, the validator does
      not. With `other` at 0 the two agree. */
  lemma RederivedAgainstValidator(d: DailyReport)
    ensures !Extraction.SystemRuleFires(Extraction.AsRaw(Rederived(d)))
    ensures Extraction.RealRuleFires(Extraction.AsRaw(Rederived(d)))
            <==> Extraction.Abs(d.realBreakdown.other) > Extraction.Tolerance
    ensures d.realBreakdown.other == 0 ==>
      Extraction.RawRealSum(Extraction.AsRaw(Rederived(d))) == Rederived(d).realTotal
  {
  }

  /** The report under review (the `data` state of the component). The
      totals effect runs after the first render and again after every change
      of a breakdown, the expenses or the warnings; a date or shift edit does
      not trigger it. */
  class ReportEditor {
    var data: DailyReport

    /** The totals agree with the breakdowns: running the effect would change
        nothing. */
    predicate Consistent()
      reads this
    {
      Rederived(data) == data
    }

    /** `useState(report)`, then the effect after mounting. */
    constructor (report: DailyReport)
      ensures data == Rederived(report)
      ensures Consistent()
    {
      data := report;
      new;
      RecalculateTotals();
    }

    /** The totals effect. */
    method RecalculateTotals()
      modifies this
      ensures data == Rederived(old(data))
      ensures data.systemTotal == BucketSum(data.systemBreakdown)
      ensures data.realTotal == ChannelSum(data.realBreakdown) + data.expenses + data.realBreakdown.other
      ensures data.difference == data.realTotal - data.systemTotal
      ensures data.status == ReviewRequired <==> |data.warnings| > 0
      ensures Consistent()
    {
      var sysTotal := data.systemBreakdown.cash + data.systemBreakdown.electronic
        + data.systemBreakdown.deliveryApps + data.systemBreakdown.currentAccount
        + data.systemBreakdown.other;
      var realTotal := data.realBreakdown.cash + data.realBreakdown.electronic
        + data.realBreakdown.deliveryApps + data.realBreakdown.currentAccount
        + data.expenses + data.realBreakdown.other;
      var diff := realTotal - sysTotal;

      var status := Balanced;
      if |data.warnings| > 0 {
        status := ReviewRequired;
      } else if diff < -SmallChange {
        status := Shortage;
      } else if diff > SmallChange {
        status := Surplus;
      }

      data := data.(systemTotal := sysTotal, realTotal := realTotal, difference := diff, status := status);
    }

    /** `updateBreakdown(type, field, value)`: one bucket of one breakdown,
        then the effect, since the breakdown is a new object. */
    method UpdateBreakdown(side: Side, field: Field, value: int)
      modifies this
      ensures data == Rederived(WithBreakdown(old(data), side, Set(BreakdownOf(old(data), side), field, value)))
      ensures Get(BreakdownOf(data, side), field) == value
      ensures forall g :: g != field ==> Get(BreakdownOf(data, side), g) == Get(BreakdownOf(old(data), side), g)
      ensures BreakdownOf(data, side.Flip()) == BreakdownOf(old(data), side.Flip())
      ensures Consistent()
    {
      data := WithBreakdown(data, side, Set(BreakdownOf(data, side), field, value));
      RecalculateTotals();
    }

    /** `handleDismissWarning(index)`, then the effect, since the warnings
        are a new array. */
    method DismissWarning(index: int)
      modifies this
      ensures data == Rederived(old(data).(warnings := SpliceOne(old(data).warnings, index)))
      ensures Consistent()
    {
      var newWarnings := SpliceOne(data.warnings, index);
      data := data.(warnings := newWarnings);
      RecalculateTotals();
    }

    /** The date input; the effect does not run. */
    method SetDate(date: string)
      modifies this
      ensures data == old(data).(date := date)
      ensures old(Consistent()) ==> Consistent()
    {
      data := data.(date := date);
    }

    /** The shift input; the effect does not run. */
    method SetShiftNumber(shiftNumber: string)
      modifies this
      ensures data == old(data).(shiftNumber := shiftNumber)
      ensures old(Consistent()) ==> Consistent()
    {
      data := data.(shiftNumber := shiftNumber);
    }

    /** The expenses input; the effect runs when the amount differs from
        the current one. */
    method SetExpenses(expenses: int)
      modifies this
      ensures expenses == old(data).expenses ==> data == old(data)
      ensures expenses != old(data).expenses ==> data == Rederived(old(data).(expenses := expenses))
      ensures old(Consistent()) ==> Consistent()
    {
      if expenses != data.expenses {
        data := data.(expenses := expenses);
        RecalculateTotals();
      }
    }
  }

  /** A closing that is 500 short, flagged with one warning: the editor opens
      it with REVIEW_REQUIRED, and dismissing the warning gives SHORTAGE. */
  method DismissThenShortage() returns (status: Status)
    ensures status == Shortage
  {
    var report := DailyReport(
      "2", "2023-10-26", "002",
      0, MoneyBreakdown(40000, 15000, 7000, 0, 0),
      0, MoneyBreakdown(39500, 15000, 7000, 0, 0),
      0, 0, ReviewRequired, ["Alerta"], None);
    var editor := new ReportEditor(report);
    assert editor.data.status == ReviewRequired;
    editor.DismissWarning(0);
    status := editor.data.status;
  }
}
