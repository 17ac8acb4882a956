/**
  The application shell: the list of saved reports, the report open in the
  editor and the active tab. Saving a reviewed report upserts it by id.
*/
module AppState {
  import opened Wrappers
  import opened Types
  import Editor
  import Extraction
  import Strings

  datatype Tab = DashboardTab | HistoryTab | UploadTab

  /** `prev.find(r => r.id === id)` finds something. */
  predicate HasId(reports: seq<DailyReport>, id: string)
  {
    exists i :: 0 <= i < |reports| && reports[i].id == id
  }

  /** `prev.map(r => r.id === updated.id ? updated : r)` */
  function ReplaceById(reports: seq<DailyReport>, updated: DailyReport): (r: seq<DailyReport>)
    ensures |r| == |reports|
    ensures forall i :: 0 <= i < |r| ==> r[i] == if reports[i].id == updated.id then updated else reports[i]
  {
    if |reports| == 0 then []
    else [if reports[0].id == updated.id then updated else reports[0]] + ReplaceById(reports[1..], updated)
  }

  /** The list update of `handleSaveReport`. */
  function Upsert(reports: seq<DailyReport>, updated: DailyReport): (r: seq<DailyReport>)
    // an existing id: same length, every entry with that id replaced, the rest kept in place
    ensures HasId(reports, updated.id) ==> |r| == |reports|
    ensures HasId(reports, updated.id) ==>
      forall i :: 0 <= i < |r| ==> r[i] == if reports[i].id == updated.id then updated else reports[i]
    // a new id: appended at the end
    ensures !HasId(reports, updated.id) ==> r == reports + [updated]
    ensures updated in r
  {
    if HasId(reports, updated.id) then
      var i :| 0 <= i < |reports| && reports[i].id == updated.id;
      assert ReplaceById(reports, updated)[i] == updated;
      ReplaceById(reports, updated)
    else reports + [updated]
  }

  /** The entries whose id differs from `id`, in order. */
  function Others(reports: seq<DailyReport>, id: string): (r: seq<DailyReport>)
    ensures forall x :: x in r ==> x in reports && x.id != id
  {
    if |reports| == 0 then []
    else (if reports[0].id == id then [] else [reports[0]]) + Others(reports[1..], id)
  }

  lemma {:induction false} OthersAppend(a: seq<DailyReport>, b: seq<DailyReport>, id: string)
    ensures Others(a + b, id) == Others(a, id) + Others(b, id)
  {
    if |a| == 0 {
      assert a + b == b;
    } else {
      assert (a + b)[1..] == a[1..] + b;
      OthersAppend(a[1..], b, id);
    }
  }

  lemma {:induction false} OthersOfReplace(reports: seq<DailyReport>, updated: DailyReport)
    ensures Others(ReplaceById(reports, updated), updated.id) == Others(reports, updated.id)
  {
    if |reports| > 0 {
      OthersOfReplace(reports[1..], updated);
      assert ReplaceById(reports, updated)[1..] == ReplaceById(reports[1..], updated);
    }
  }

  /** Entries with other ids are untouched and keep their relative order. */
  lemma UpsertKeepsOthers(reports: seq<DailyReport>, updated: DailyReport)
    ensures Others(Upsert(reports, updated), updated.id) == Others(reports, updated.id)
  {
    if HasId(reports, updated.id) {
      OthersOfReplace(reports, updated);
    } else {
      OthersAppend(reports, [updated], updated.id);
      assert Others([updated], updated.id) == [];
    }
  }

  /** Saving the same report twice is the same as saving it once. */
  lemma UpsertIdempotent(reports: seq<DailyReport>, updated: DailyReport)
    ensures Upsert(Upsert(reports, updated), updated) == Upsert(reports, updated)
  {
    var once := Upsert(reports, updated);
    assert HasId(once, updated.id) by {
      var i :| 0 <= i < |once| && once[i] == updated;
    }
  }

  /** Every amount of a report agrees with its breakdowns: the system
      buckets add up to the system total, the real channels plus expenses
      to the real total, the difference is real minus system, and the
      status is what the status rule gives for the stored warnings. */
  predicate Settled(d: DailyReport)
  {
    && BucketSum(d.systemBreakdown) == d.systemTotal
    && ChannelSum(d.realBreakdown) + d.expenses == d.realTotal
    && d.difference == d.realTotal - d.systemTotal
    && d.status == StatusFor(|d.warnings| > 0, Some(d.difference))
  }

  /** The three demonstration closings of `loadDemoData`: distinct ids and
      one closing per day. */
  function DemoReports(): (r: seq<DailyReport>)
    ensures |r| == 3
    ensures forall i, j :: 0 <= i < j < |r| ==> r[i].id != r[j].id && r[i].date != r[j].date
  {
    [ DailyReport("1", "2023-10-25", "001",
        50000, MoneyBreakdown(30000, 15000, 5000, 0, 0),
        50000, MoneyBreakdown(29500, 15000, 5000, 0, 0),
        500, 0, Balanced, [], None),
      DailyReport("2", "2023-10-26", "002",
        62000, MoneyBreakdown(40000, 15000, 7000, 0, 0),
        61500, MoneyBreakdown(39500, 15000, 7000, 0, 0),
        0, -500, Shortage, [], None),
      DailyReport("3", "2023-10-27", "003",
        55000, MoneyBreakdown(25000, 20000, 10000, 0, 0),
        55200, MoneyBreakdown(25200, 20000, 10000, 0, 0),
        0, 200, Surplus, [], None) ]
  }

  /** The demonstration closings are settled, carry no warning and no
      real `other` amount, and are balanced, short and over in turn. */
  lemma DemoReportsSettled()
    ensures |DemoReports()| == 3
    ensures forall i :: 0 <= i < |DemoReports()| ==>
      Settled(DemoReports()[i]) && DemoReports()[i].warnings == [] && DemoReports()[i].realBreakdown.other == 0
    ensures DemoReports()[0].status == Balanced && DemoReports()[1].status == Shortage
            && DemoReports()[2].status == Surplus
  {
  }

  /** A settled report whose real `other` bucket is 0 is a fixed point of
      the editor's totals effect. */
  lemma SettledIsFixedPoint(d: DailyReport)
    requires Settled(d) && d.realBreakdown.other == 0
    ensures Editor.Rederived(d) == d
  {
  }

  /** A settled report with a valid, non-future date passes the validator
      without a warning when its difference is within 1000 and it has cash. */
  lemma SettledPassesValidation(d: DailyReport, today: string, isValidDate: string -> bool)
    requires Settled(d)
    requires d.date != "" && isValidDate(d.date) && !Strings.LexLess(today, d.date)
    requires d.realBreakdown.cash != 0 && Extraction.Abs(d.difference) <= Extraction.LargeDifference
    ensures Extraction.Checks(Extraction.AsRaw(d), today, isValidDate) == []
  {
  }

  /** The demonstration closings are fixed points of the editor, and on a
      day not before their dates the validator has nothing to say about them,
      so their stored status is the one the classifier computes. */
  lemma DemoReportsAreConsistent(today: string, isValidDate: string -> bool)
    requires forall i :: 0 <= i < |DemoReports()| ==>
      isValidDate(DemoReports()[i].date) && !Strings.LexLess(today, DemoReports()[i].date)
    ensures forall i :: 0 <= i < |DemoReports()| ==> Editor.Rederived(DemoReports()[i]) == DemoReports()[i]
    ensures forall i :: 0 <= i < |DemoReports()| ==>
      Extraction.Checks(Extraction.AsRaw(DemoReports()[i]), today, isValidDate) == []
      && DemoReports()[i].status == StatusFor(false, Some(DemoReports()[i].difference))
  {
    DemoReportsSettled();
    var demo := DemoReports();
    forall i | 0 <= i < |demo|
      ensures Editor.Rederived(demo[i]) == demo[i]
      ensures Extraction.Checks(Extraction.AsRaw(demo[i]), today, isValidDate) == []
    {
      SettledIsFixedPoint(demo[i]);
      SettledPassesValidation(demo[i], today, isValidDate);
    }
  }

  /** The state of the application component. */
  class App {
    var reports: seq<DailyReport>
    var editingReport: Option<DailyReport>
    var activeTab: Tab

    constructor ()
      ensures reports == [] && editingReport == None && activeTab == DashboardTab
    {
      reports := [];
      editingReport := None;
      activeTab := DashboardTab;
    }

    /** `handleSaveReport(updatedReport)` */
    method HandleSaveReport(updated: DailyReport)
      modifies this
      ensures reports == Upsert(old(reports), updated)
      ensures updated in reports
      ensures editingReport == None && activeTab == DashboardTab
    {
      reports := Upsert(reports, updated);
      editingReport := None;
      activeTab := DashboardTab;
    }

    /** `loadDemoData()` */
    method LoadDemoData()
      modifies this
      ensures reports == DemoReports() && activeTab == DashboardTab
      ensures editingReport == old(editingReport)
    {
      reports := DemoReports();
      activeTab := DashboardTab;
    }
  }
}
