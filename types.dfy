/** The records every screen shares: a money breakdown and a daily closing report. */
module Types {
  import opened Wrappers

  /** How a total splits across payment channels. */
  datatype MoneyBreakdown = MoneyBreakdown(
    cash: int,
    electronic: int,
    deliveryApps: int,
    currentAccount: int,
    other: int)

  /** The name of one bucket of a breakdown. */
  datatype Field = Cash | Electronic | DeliveryApps | CurrentAccount | Other

  datatype Status = Balanced | Shortage | Surplus | ReviewRequired

  /** One cash-register closing. Amounts are whole currency units; an absent
      `notes` is `None`. */
  datatype DailyReport = DailyReport(
    id: string,
    date: string,
    shiftNumber: string,
    systemTotal: int,
    systemBreakdown: MoneyBreakdown,
    realTotal: int,
    realBreakdown: MoneyBreakdown,
    expenses: int,
    difference: int,
    status: Status,
    warnings: seq<string>,
    notes: Option<string>)

  function Get(b: MoneyBreakdown, f: Field): int
  {
    match f
    case Cash => b.cash
    case Electronic => b.electronic
    case DeliveryApps => b.deliveryApps
    case CurrentAccount => b.currentAccount
    case Other => b.other
  }

  /** `{ ...b, [f]: v }` */
  function Set(b: MoneyBreakdown, f: Field, v: int): (r: MoneyBreakdown)
    ensures Get(r, f) == v
    ensures forall g :: g != f ==> Get(r, g) == Get(b, g)
  {
    match f
    case Cash => b.(cash := v)
    case Electronic => b.(electronic := v)
    case DeliveryApps => b.(deliveryApps := v)
    case CurrentAccount => b.(currentAccount := v)
    case Other => b.(other := v)
  }

  /** All five buckets. */
  function BucketSum(b: MoneyBreakdown): int
  {
    b.cash + b.electronic + b.deliveryApps + b.currentAccount + b.other
  }

  /** The four payment channels, without `other`. */
  function ChannelSum(b: MoneyBreakdown): int
  {
    b.cash + b.electronic + b.deliveryApps + b.currentAccount
  }

  /** Half-width of the band of differences that still count as balanced. */
  const SmallChange := 50

  /** The status rule shared by the extraction service and the review editor:
      any warning forces a review; otherwise the difference (real minus
      system) is compared with the +-50 band. An absent difference compares
      false with both bounds, so it is balanced. */
  function StatusFor(hasWarnings: bool, difference: Option<int>): (s: Status)
    ensures s == ReviewRequired <==> hasWarnings
    ensures s == Shortage <==> !hasWarnings && difference.Some? && difference.value < -SmallChange
    ensures s == Surplus <==> !hasWarnings && difference.Some? && difference.value > SmallChange
    ensures s == Balanced <==>
      !hasWarnings && (difference.None? || -SmallChange <= difference.value <= SmallChange)
  {
    if hasWarnings then ReviewRequired
    else if difference.Some? && difference.value < -SmallChange then Shortage
    else if difference.Some? && difference.value > SmallChange then Surplus
    else Balanced
  }
}
