/**
  The dashboard of the Next.js application: three running totals, the
  per-channel totals of what was counted, and the timeline of reports sorted
  by date on a copy of the list.
*/
module Dashboard {
  import opened Types

  /** A per-report number the dashboard adds up. */
  datatype Measure = Sales | Difference | Expenses | RealChannel(channel: Field)

  function Value(r: DailyReport, m: Measure): int
  {
    match m
    case Sales => r.systemTotal
    case Difference => r.difference
    case Expenses => r.expenses
    case RealChannel(f) => Get(r.realBreakdown, f)
  }

  /** Reference sum of a measure over a list, first element first. */
  function Total(rs: seq<DailyReport>, m: Measure): int
  {
    if |rs| == 0 then 0 else Value(rs[0], m) + Total(rs[1..], m)
  }

  /** `rs.reduce((acc, curr) => acc + value(curr), acc)`: a left fold. From
      `acc` it adds the reference sum to `acc`. */
  function Reduce(acc: int, rs: seq<DailyReport>, m: Measure): (r: int)
    ensures r == acc + Total(rs, m)
    decreases |rs|
  {
    if |rs| == 0 then acc else Reduce(acc + Value(rs[0], m), rs[1..], m)
  }

  /** Sums split over concatenation. */
  lemma {:induction false} TotalAppend(a: seq<DailyReport>, b: seq<DailyReport>, m: Measure)
    ensures Total(a + b, m) == Total(a, m) + Total(b, m)
  {
    if |a| > 0 {
      assert (a + b)[0] == a[0] && (a + b)[1..] == a[1..] + b;
      TotalAppend(a[1..], b, m);
    } else {
      assert a + b == b;
    }
  }

  /** Replacing one report by another with the same value keeps the sum. */
  lemma {:induction false} TotalUpdate(rs: seq<DailyReport>, i: nat, r: DailyReport, m: Measure)
    requires i < |rs| && Value(r, m) == Value(rs[i], m)
    ensures Total(rs[i := r], m) == Total(rs, m)
  {
    if i > 0 {
      assert rs[i := r][1..] == rs[1..][i - 1 := r];
      TotalUpdate(rs[1..], i - 1, r, m);
    }
  }

  /** The three headline figures. */
  datatype Aggregates = Aggregates(totalSales: int, totalDifference: int, totalExpenses: int)

  /** `totalSales`, `totalDifference` and `totalExpenses`. */
  function Summarise(rs: seq<DailyReport>): (a: Aggregates)
    ensures a.totalSales == Total(rs, Sales)
    ensures a.totalDifference == Total(rs, Difference)
    ensures a.totalExpenses == Total(rs, Expenses)
    ensures |rs| == 0 ==> a == Aggregates(0, 0, 0)
  {
    Aggregates(Reduce(0, rs, Sales), Reduce(0, rs, Difference), Reduce(0, rs, Expenses))
  }

  /** Saving one more report adds its own figures to the headline figures. */
  lemma SummariseAppend(rs: seq<DailyReport>, r: DailyReport)
    ensures Summarise(rs + [r]).totalSales == Summarise(rs).totalSales + r.systemTotal
    ensures Summarise(rs + [r]).totalDifference == Summarise(rs).totalDifference + r.difference
    ensures Summarise(rs + [r]).totalExpenses == Summarise(rs).totalExpenses + r.expenses
  {
    TotalAppend(rs, [r], Sales);
    TotalAppend(rs, [r], Difference);
    TotalAppend(rs, [r], Expenses);
  }

  /** One slice of the payment-method chart. */
  datatype ChannelTotal = ChannelTotal(name: string, value: int)

  /** The four counted channels, in chart order; `other` is not among them. */
  const Channels: seq<Field> := [Cash, Electronic, DeliveryApps, CurrentAccount]

  /** The chart label of a counted channel; `other` is never charted. */
  function ChannelName(f: Field): string
    requires f != Other
  {
    match f
    case Cash => "Efectivo"
    case Electronic => "Electr\U{F3}nico"
    case DeliveryApps => "Delivery Apps"
    case CurrentAccount => "Cta Cte"
  }

  /** A channel's slice before filtering. */
  function Slice(rs: seq<DailyReport>, f: Field): (c: ChannelTotal)
    requires f != Other
    ensures c.name == ChannelName(f) && c.value == Total(rs, RealChannel(f))
  {
    ChannelTotal(ChannelName(f), Reduce(0, rs, RealChannel(f)))
  }

  /** A slice alone, if it is kept. */
  function Kept(c: ChannelTotal): seq<ChannelTotal>
  {
    if c.value > 0 then [c] else []
  }

  /** `.filter(d => d.value > 0)` */
  function KeepPositive(cs: seq<ChannelTotal>): (r: seq<ChannelTotal>)
    ensures |r| <= |cs|
  {
    if |cs| == 0 then []
    else Kept(cs[0]) + KeepPositive(cs[1..])
  }

  /** Exactly the positive slices survive the filter. */
  lemma {:induction false} KeepPositiveMembers(cs: seq<ChannelTotal>, c: ChannelTotal)
    ensures c in KeepPositive(cs) <==> c in cs && c.value > 0
  {
    if |cs| > 0 {
      KeepPositiveMembers(cs[1..], c);
      assert cs == [cs[0]] + cs[1..];
    }
  }

  /** Filtering distributes over concatenation, so the kept slices keep
      their relative order. */
  lemma {:induction false} KeepPositiveAppend(a: seq<ChannelTotal>, b: seq<ChannelTotal>)
    ensures KeepPositive(a + b) == KeepPositive(a) + KeepPositive(b)
  {
    if |a| > 0 {
      assert (a + b)[0] == a[0] && (a + b)[1..] == a[1..] + b;
      KeepPositiveAppend(a[1..], b);
    } else {
      assert a + b == b;
    }
  }

  /** `paymentMethodData`: in the fixed channel order, each channel's sum of
      counted money, and only the channels whose sum is positive. */
  function PaymentMethodData(rs: seq<DailyReport>): (r: seq<ChannelTotal>)
    ensures r ==
      Kept(ChannelTotal(ChannelName(Cash), Total(rs, RealChannel(Cash))))
      + Kept(ChannelTotal(ChannelName(Electronic), Total(rs, RealChannel(Electronic))))
      + Kept(ChannelTotal(ChannelName(DeliveryApps), Total(rs, RealChannel(DeliveryApps))))
      + Kept(ChannelTotal(ChannelName(CurrentAccount), Total(rs, RealChannel(CurrentAccount))))
  {
    KeepPositiveOfFour(Slice(rs, Cash), Slice(rs, Electronic), Slice(rs, DeliveryApps), Slice(rs, CurrentAccount));
    KeepPositive([Slice(rs, Cash), Slice(rs, Electronic), Slice(rs, DeliveryApps), Slice(rs, CurrentAccount)])
  }

  lemma KeepPositiveOfFour(a: ChannelTotal, b: ChannelTotal, c: ChannelTotal, d: ChannelTotal)
    ensures KeepPositive([a, b, c, d]) == Kept(a) + Kept(b) + Kept(c) + Kept(d)
  {
    assert [a, b, c, d][1..] == [b, c, d] && [b, c, d][1..] == [c, d] && [c, d][1..] == [d] && [d][1..] == [];
    assert KeepPositive([d]) == Kept(d) + KeepPositive([]) == Kept(d);
    assert KeepPositive([c, d]) == Kept(c) + Kept(d);
    assert KeepPositive([b, c, d]) == Kept(b) + (Kept(c) + Kept(d));
  }

  /** The `other` bucket of counted money never reaches the chart. */
  lemma PaymentMethodDataIgnoresOther(rs: seq<DailyReport>, i: nat, v: int)
    requires i < |rs|
    ensures PaymentMethodData(rs[i := rs[i].(realBreakdown := Set(rs[i].realBreakdown, Other, v))])
      == PaymentMethodData(rs)
  {
    var r := rs[i].(realBreakdown := Set(rs[i].realBreakdown, Other, v));
    forall f | f in Channels
      ensures Total(rs[i := r], RealChannel(f)) == Total(rs, RealChannel(f))
    {
      TotalUpdate(rs, i, r, RealChannel(f));
    }
  }

  // The timeline. `timeOf` stands for `new Date(date).getTime()`.

  predicate SortedByDate(s: seq<DailyReport>, timeOf: string -> int)
  {
    forall i, j :: 0 <= i < j < |s| ==> timeOf(s[i].date) <= timeOf(s[j].date)
  }

  /** A report no later than the head of a sorted list can go in front. */
  lemma SortedCons(h: DailyReport, t: seq<DailyReport>, timeOf: string -> int)
    requires SortedByDate(t, timeOf)
    requires |t| > 0 ==> timeOf(h.date) <= timeOf(t[0].date)
    ensures SortedByDate([h] + t, timeOf)
  {
    var r := [h] + t;
    forall i, j | 0 <= i < j < |r|
      ensures timeOf(r[i].date) <= timeOf(r[j].date)
    {
      if i == 0 {
        assert r[j] == t[j - 1];
      } else {
        assert r[i] == t[i - 1] && r[j] == t[j - 1];
      }
    }
  }

  /** Places `x` before the first report that is not earlier than it. */
  function Insert(x: DailyReport, s: seq<DailyReport>, timeOf: string -> int): (r: seq<DailyReport>)
    ensures |r| == |s| + 1 && multiset(r) == multiset(s) + multiset{x}
    ensures |s| > 0 ==> r[0] == x || r[0] == s[0]
  {
    if |s| == 0 then [x]
    else if timeOf(x.date) <= timeOf(s[0].date) then [x] + s
    else
      assert s == [s[0]] + s[1..];
      [s[0]] + Insert(x, s[1..], timeOf)
  }

  /** Inserting into a sorted list keeps it sorted. */
  lemma {:induction false} InsertSorted(x: DailyReport, s: seq<DailyReport>, timeOf: string -> int)
    requires SortedByDate(s, timeOf)
    ensures SortedByDate(Insert(x, s, timeOf), timeOf)
  {
    if |s| > 0 && timeOf(x.date) > timeOf(s[0].date) {
      var rest := Insert(x, s[1..], timeOf);
      assert SortedByDate(s[1..], timeOf) by {
        forall i, j | 0 <= i < j < |s| - 1
          ensures timeOf(s[1..][i].date) <= timeOf(s[1..][j].date)
        {
          assert s[1..][i] == s[i + 1] && s[1..][j] == s[j + 1];
        }
      }
      InsertSorted(x, s[1..], timeOf);
      assert |s| > 1 ==> timeOf(s[0].date) <= timeOf(s[1].date);
      SortedCons(s[0], rest, timeOf);
    } else {
      SortedCons(x, s, timeOf);
    }
  }

  /** `[...reports].sort((a, b) => time(a) - time(b))`: a stable sort on a
      copy; the argument is a value and is not reordered. */
  function SortByDate(rs: seq<DailyReport>, timeOf: string -> int): (s: seq<DailyReport>)
    ensures SortedByDate(s, timeOf)
    ensures |s| == |rs| && multiset(s) == multiset(rs)
  {
    if |rs| == 0 then []
    else
      assert rs == [rs[0]] + rs[1..];
      InsertSorted(rs[0], SortByDate(rs[1..], timeOf), timeOf);
      Insert(rs[0], SortByDate(rs[1..], timeOf), timeOf)
  }

  /** A report alone, if its date falls on the instant `t`. */
  function On(r: DailyReport, t: int, timeOf: string -> int): seq<DailyReport>
  {
    if timeOf(r.date) == t then [r] else []
  }

  /** The reports whose date falls on the instant `t`, in list order. */
  function At(s: seq<DailyReport>, t: int, timeOf: string -> int): seq<DailyReport>
  {
    if |s| == 0 then [] else On(s[0], t, timeOf) + At(s[1..], t, timeOf)
  }

  lemma {:induction false} InsertAt(x: DailyReport, s: seq<DailyReport>, t: int, timeOf: string -> int)
    ensures At(Insert(x, s, timeOf), t, timeOf) == On(x, t, timeOf) + At(s, t, timeOf)
  {
    var r := Insert(x, s, timeOf);
    if |s| > 0 && timeOf(x.date) > timeOf(s[0].date) {
      assert r[0] == s[0] && r[1..] == Insert(x, s[1..], timeOf);
      InsertAt(x, s[1..], t, timeOf);
      assert On(x, t, timeOf) == [] || On(s[0], t, timeOf) == [];
    } else if |s| > 0 {
      assert r[0] == x && r[1..] == s;
    }
  }

  /** The sort is stable: reports on the same instant keep their order. */
  lemma {:induction false} SortByDateIsStable(rs: seq<DailyReport>, t: int, timeOf: string -> int)
    ensures At(SortByDate(rs, timeOf), t, timeOf) == At(rs, t, timeOf)
  {
    if |rs| > 0 {
      SortByDateIsStable(rs[1..], t, timeOf);
      InsertAt(rs[0], SortByDate(rs[1..], timeOf), t, timeOf);
    }
  }

  lemma {:induction false} TotalInsert(x: DailyReport, s: seq<DailyReport>, timeOf: string -> int, m: Measure)
    ensures Total(Insert(x, s, timeOf), m) == Value(x, m) + Total(s, m)
  {
    if |s| > 0 && timeOf(x.date) > timeOf(s[0].date) {
      var r := Insert(x, s, timeOf);
      assert r[1..] == Insert(x, s[1..], timeOf);
      TotalInsert(x, s[1..], timeOf, m);
    } else if |s| > 0 {
      assert ([x] + s)[1..] == s;
    }
  }

  /** Sorting does not change any sum. */
  lemma {:induction false} SortByDateKeepsTotals(rs: seq<DailyReport>, timeOf: string -> int, m: Measure)
    ensures Total(SortByDate(rs, timeOf), m) == Total(rs, m)
  {
    if |rs| > 0 {
      SortByDateKeepsTotals(rs[1..], timeOf, m);
      TotalInsert(rs[0], SortByDate(rs[1..], timeOf), timeOf, m);
    }
  }

  /** One point of the timeline chart: the date, `Ventas`, `Real` and `Gastos`. */
  datatype Point = Point(date: string, sales: int, counted: int, expenses: int)

  /** `sortedReports.map(r => ({ date, Ventas, Real, Gastos }))` */
  function DataOverTime(sorted: seq<DailyReport>): (ps: seq<Point>)
    ensures |ps| == |sorted|
    ensures forall i :: 0 <= i < |sorted| ==>
      ps[i] == Point(sorted[i].date, sorted[i].systemTotal, sorted[i].realTotal, sorted[i].expenses)
  {
    if |sorted| == 0 then []
    else
      [Point(sorted[0].date, sorted[0].systemTotal, sorted[0].realTotal, sorted[0].expenses)]
      + DataOverTime(sorted[1..])
  }

  /** What the dashboard shows. */
  datatype View =
    | EmptyState
    | Charts(summary: Aggregates, payments: seq<ChannelTotal>, timeline: seq<Point>)

  /** The dashboard: the empty state when there is nothing to show, otherwise
      the figures and charts of the list. */
  function Render(rs: seq<DailyReport>, timeOf: string -> int): (v: View)
    ensures v.EmptyState? <==> |rs| == 0
    ensures v.Charts? ==>
      && v.summary == Summarise(rs)
      && v.payments == PaymentMethodData(rs)
      && v.timeline == DataOverTime(SortByDate(rs, timeOf))
      && |v.timeline| == |rs|
      && forall i, j :: 0 <= i < j < |rs| ==> timeOf(v.timeline[i].date) <= timeOf(v.timeline[j].date)
  {
    if |rs| == 0 then EmptyState
    else
      var sorted := SortByDate(rs, timeOf);
      Charts(Summarise(rs), PaymentMethodData(rs), DataOverTime(sorted))
  }

  /** The timeline carries every report once: its sales, counted and expense
      points add up to the headline figures of the unsorted list. */
  lemma TimelineMatchesSummary(rs: seq<DailyReport>, timeOf: string -> int)
    ensures Total(SortByDate(rs, timeOf), Sales) == Summarise(rs).totalSales
    ensures Total(SortByDate(rs, timeOf), Expenses) == Summarise(rs).totalExpenses
    ensures multiset(SortByDate(rs, timeOf)) == multiset(rs)
  {
    SortByDateKeepsTotals(rs, timeOf, Sales);
    SortByDateKeepsTotals(rs, timeOf, Expenses);
  }
}
