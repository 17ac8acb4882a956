/**
  The extraction service of the root application: the validator that
  cross-checks an extracted record, the status classifier, the normaliser
  that turns the raw record into a report, and the base64 clean-up of the
  uploaded file.
*/
module Extraction {
  import opened Wrappers
  import opened Strings
  import opened Types

  /** A breakdown as the language model returned it: any bucket may be absent. */
  datatype RawBreakdown = RawBreakdown(
    cash: Option<int>,
    electronic: Option<int>,
    deliveryApps: Option<int>,
    currentAccount: Option<int>,
    other: Option<int>)

  /** The parsed model output before validation: any field may be absent,
      and so may a whole breakdown object. */
  datatype RawReport = RawReport(
    date: Option<string>,
    shiftNumber: Option<string>,
    systemTotal: Option<int>,
    systemBreakdown: Option<RawBreakdown>,
    realTotal: Option<int>,
    realBreakdown: Option<RawBreakdown>,
    expenses: Option<int>,
    difference: Option<int>,
    notes: Option<string>)

  /** Largest sum/total gap put down to floating-point slack. */
  const Tolerance := 5
  /** Differences beyond this size always ask for a review. */
  const LargeDifference := 1000

  function Abs(x: int): nat { if x < 0 then -x else x }

  /** `x || 0` on a number that may be absent. */
  function OrZero(x: Option<int>): int { x.GetOr(0) }

  /** `b?.field || 0` */
  function Bucket(b: Option<RawBreakdown>, f: Field): int
  {
    match b
    case None => 0
    case Some(rb) =>
      match f
      case Cash => OrZero(rb.cash)
      case Electronic => OrZero(rb.electronic)
      case DeliveryApps => OrZero(rb.deliveryApps)
      case CurrentAccount => OrZero(rb.currentAccount)
      case Other => OrZero(rb.other)
  }

  /** The validator's system-side sum: all five system buckets. */
  function RawSystemSum(raw: RawReport): int
  {
    Bucket(raw.systemBreakdown, Cash) + Bucket(raw.systemBreakdown, Electronic)
    + Bucket(raw.systemBreakdown, DeliveryApps) + Bucket(raw.systemBreakdown, CurrentAccount)
    + Bucket(raw.systemBreakdown, Other)
  }

  /** The validator's real-side sum: four real channels plus expenses, no `other`. */
  function RawRealSum(raw: RawReport): int
  {
    Bucket(raw.realBreakdown, Cash) + Bucket(raw.realBreakdown, Electronic)
    + Bucket(raw.realBreakdown, DeliveryApps) + Bucket(raw.realBreakdown, CurrentAccount)
    + OrZero(raw.expenses)
  }

  // The five rules. An absent total or difference makes the JavaScript
  // comparison NaN-valued, which is false, so those rules do not fire.

  predicate DateIsInvalid(raw: RawReport, isValidDate: string -> bool)
  {
    raw.date.None? || raw.date.value == "" || !isValidDate(raw.date.value)
  }

  predicate DateIsFuture(raw: RawReport, today: string, isValidDate: string -> bool)
  {
    !DateIsInvalid(raw, isValidDate) && LexLess(today, raw.date.value)
  }

  predicate SystemRuleFires(raw: RawReport)
  {
    raw.systemTotal.Some? && Abs(RawSystemSum(raw) - raw.systemTotal.value) > Tolerance
  }

  predicate RealRuleFires(raw: RawReport)
  {
    raw.realTotal.Some? && Abs(RawRealSum(raw) - raw.realTotal.value) > Tolerance
  }

  predicate CashRuleFires(raw: RawReport)
  {
    Bucket(raw.realBreakdown, Cash) == 0 && raw.realTotal.Some? && raw.realTotal.value > 0
  }

  predicate DifferenceRuleFires(raw: RawReport)
  {
    raw.difference.Some? && Abs(raw.difference.value) > LargeDifference
  }

  /** One finding of the validator, with the numbers its message shows. */
  datatype Check =
    | InvalidDate
    | FutureDate
    | SystemSumMismatch(computed: int, stated: int)
    | RealSumMismatch(computed: int, stated: int)
    | MissingCash
    | LargeDiscrepancy

  /** Position of the rule that produces a check. */
  function Rule(c: Check): nat
  {
    match c
    case InvalidDate => 1
    case FutureDate => 1
    case SystemSumMismatch(_, _) => 2
    case RealSumMismatch(_, _) => 3
    case MissingCash => 4
    case LargeDiscrepancy => 5
  }

  // The findings of each rule: at most one apiece.

  function DateCheck(raw: RawReport, today: string, isValidDate: string -> bool): seq<Check>
  {
    if DateIsInvalid(raw, isValidDate) then [InvalidDate]
    else if LexLess(today, raw.date.value) then [FutureDate]
    else []
  }

  function SystemCheck(raw: RawReport): seq<Check>
  {
    if SystemRuleFires(raw) then [SystemSumMismatch(RawSystemSum(raw), raw.systemTotal.value)] else []
  }

  function RealCheck(raw: RawReport): seq<Check>
  {
    if RealRuleFires(raw) then [RealSumMismatch(RawRealSum(raw), raw.realTotal.value)] else []
  }

  function CashCheck(raw: RawReport): seq<Check>
  {
    if CashRuleFires(raw) then [MissingCash] else []
  }

  function DifferenceCheck(raw: RawReport): seq<Check>
  {
    if DifferenceRuleFires(raw) then [LargeDiscrepancy] else []
  }

  /** What the validator finds, in the order it finds it. */
  function Checks(raw: RawReport, today: string, isValidDate: string -> bool): (cs: seq<Check>)
    ensures |cs| <= 5
  {
    DateCheck(raw, today, isValidDate) + SystemCheck(raw) + RealCheck(raw) + CashCheck(raw)
    + DifferenceCheck(raw)
  }

  /** Strictly increasing rule positions. */
  predicate InRuleOrder(cs: seq<Check>)
  {
    forall i, j :: 0 <= i < j < |cs| ==> Rule(cs[i]) < Rule(cs[j])
  }

  /** Appending at most one check of rule `n` after checks of earlier rules
      keeps the order. */
  lemma InRuleOrderAppend(a: seq<Check>, b: seq<Check>, n: nat)
    requires InRuleOrder(a) && forall c :: c in a ==> Rule(c) < n
    requires |b| <= 1 && forall c :: c in b ==> Rule(c) == n
    ensures InRuleOrder(a + b) && forall c :: c in a + b ==> Rule(c) <= n
  {
    forall i, j | 0 <= i < j < |a + b|
      ensures Rule((a + b)[i]) < Rule((a + b)[j])
    {
      if j < |a| {
        assert (a + b)[i] == a[i] && (a + b)[j] == a[j];
      } else {
        assert (a + b)[i] == a[i] && a[i] in a;
        assert (a + b)[j] == b[j - |a|] && b[j - |a|] in b;
      }
    }
  }

  /** Warnings come in rule order, at most one per rule. */
  lemma ChecksInRuleOrder(raw: RawReport, today: string, isValidDate: string -> bool)
    ensures InRuleOrder(Checks(raw, today, isValidDate))
  {
    var d := DateCheck(raw, today, isValidDate);
    var s, r, c, f := SystemCheck(raw), RealCheck(raw), CashCheck(raw), DifferenceCheck(raw);
    InRuleOrderAppend(d, s, 2);
    InRuleOrderAppend(d + s, r, 3);
    InRuleOrderAppend(d + s + r, c, 4);
    InRuleOrderAppend(d + s + r + c, f, 5);
  }

  /** The rules after the first never report on the date. */
  lemma LaterChecksIgnoreDate(raw: RawReport)
    ensures var rest := SystemCheck(raw) + RealCheck(raw) + CashCheck(raw) + DifferenceCheck(raw);
      InvalidDate !in rest && FutureDate !in rest
  {
  }

  /** An invalid or missing date is flagged as such and never as future; a
      valid date is flagged exactly when it sorts after today. */
  lemma ChecksDateRule(raw: RawReport, today: string, isValidDate: string -> bool)
    ensures InvalidDate in Checks(raw, today, isValidDate) <==> DateIsInvalid(raw, isValidDate)
    ensures FutureDate in Checks(raw, today, isValidDate) <==> DateIsFuture(raw, today, isValidDate)
    ensures FutureDate in Checks(raw, today, isValidDate) ==> InvalidDate !in Checks(raw, today, isValidDate)
  {
    LaterChecksIgnoreDate(raw);
    var d := DateCheck(raw, today, isValidDate);
    var rest := SystemCheck(raw) + RealCheck(raw) + CashCheck(raw) + DifferenceCheck(raw);
    assert Checks(raw, today, isValidDate) == d + rest;
    assert InvalidDate in d <==> DateIsInvalid(raw, isValidDate);
    assert FutureDate in d <==> DateIsFuture(raw, today, isValidDate);
  }

  /** The system-side warning fires exactly when the five system buckets miss
      the stated total by more than the tolerance, and shows both numbers. */
  lemma ChecksSystemRule(raw: RawReport, today: string, isValidDate: string -> bool)
    ensures SystemRuleFires(raw) ==>
      SystemSumMismatch(RawSystemSum(raw), raw.systemTotal.value) in Checks(raw, today, isValidDate)
    ensures (exists c :: c in Checks(raw, today, isValidDate) && c.SystemSumMismatch?) <==> SystemRuleFires(raw)
  {
  }

  /** The real-side warning: four real channels plus expenses against the
      stated real total. */
  lemma ChecksRealRule(raw: RawReport, today: string, isValidDate: string -> bool)
    ensures RealRuleFires(raw) ==>
      RealSumMismatch(RawRealSum(raw), raw.realTotal.value) in Checks(raw, today, isValidDate)
    ensures (exists c :: c in Checks(raw, today, isValidDate) && c.RealSumMismatch?) <==> RealRuleFires(raw)
  {
  }

  /** The two sentinels. */
  lemma ChecksSentinels(raw: RawReport, today: string, isValidDate: string -> bool)
    ensures MissingCash in Checks(raw, today, isValidDate) <==> CashRuleFires(raw)
    ensures LargeDiscrepancy in Checks(raw, today, isValidDate) <==> DifferenceRuleFires(raw)
  {
  }

  /** The messages for a list of checks, in the same order. */
  function Render(cs: seq<Check>, show: int -> string): (ws: seq<string>)
    ensures |ws| == |cs|
  {
    if |cs| == 0 then [] else Render(cs[..|cs| - 1], show) + [Message(cs[|cs| - 1], show)]
  }

  /** The text shown for a check; `show` is JavaScript's number-to-string. */
  function Message(c: Check, show: int -> string): string
  {
    match c
    case InvalidDate => "La fecha extra\U{ED}da no es v\U{E1}lida."
    case FutureDate => "La fecha del reporte es futura."
    case SystemSumMismatch(computed, stated) =>
      "Inconsistencia en Sistema: La suma de partes (" + show(computed)
      + ") no coincide con el Total Sistema (" + show(stated) + ")."
    case RealSumMismatch(computed, stated) =>
      "Revisar Arqueo: La suma de efectivo, tarjetas, gastos, etc. (" + show(computed)
      + ") difiere del Total Real ingresado (" + show(stated) + ")."
    case MissingCash => "Alerta: El efectivo en Arqueo Real es 0. \U{BF}Es correcto?"
    case LargeDiscrepancy =>
      "Alerta: Existe una diferencia muy grande entre Sistema y Real (> $1000)."
  }

  /** Findings of different kinds never read the same, whatever the numbers
      they carry: a warning tells which check raised it. */
  lemma MessagesTellChecksApart(c1: Check, c2: Check, show: int -> string)
    requires Rule(c1) != Rule(c2) || c1.InvalidDate? != c2.InvalidDate?
    ensures Message(c1, show) != Message(c2, show)
  {
    MessageShape(c1, show);
    MessageShape(c2, show);
  }

  /** Enough of each message's shape to tell the kinds apart: the length of
      a fixed text, and the opening letter of a text that carries numbers. */
  lemma MessageShape(c: Check, show: int -> string)
    ensures c.InvalidDate? ==> |Message(c, show)| == 31 && Message(c, show)[28] == 'd'
    ensures c.FutureDate? ==> |Message(c, show)| == 31 && Message(c, show)[28] == 'r'
    ensures c.MissingCash? ==> |Message(c, show)| == 54
    ensures c.LargeDiscrepancy? ==> |Message(c, show)| == 72
    ensures c.SystemSumMismatch? ==> |Message(c, show)| >= 84 && Message(c, show)[0] == 'I'
    ensures c.RealSumMismatch? ==> |Message(c, show)| >= 84 && Message(c, show)[0] == 'R'
  {
    match c
    case SystemSumMismatch(computed, stated) => SystemMessageOpening(computed, stated, show);
    case RealSumMismatch(computed, stated) => RealMessageOpening(computed, stated, show);
    case _ =>
  }

  // The two lemmas below pass each message's lead to `OpeningOfNumbered`
  // cut in two pieces; the pieces concatenate to the lead written in
  // `Message`, and the cut only keeps the solver's literal reasoning short.
  lemma SystemMessageOpening(computed: int, stated: int, show: int -> string)
    ensures |Message(SystemSumMismatch(computed, stated), show)| >= 84
    ensures Message(SystemSumMismatch(computed, stated), show)[0] == 'I'
  {
    OpeningOfNumbered("Inconsiste", "ncia en Sistema: La suma de partes (",
      ") no coincide con el Total Sistema (", ").", show(computed), show(stated));
  }

  lemma RealMessageOpening(computed: int, stated: int, show: int -> string)
    ensures |Message(RealSumMismatch(computed, stated), show)| >= 84
    ensures Message(RealSumMismatch(computed, stated), show)[0] == 'R'
  {
    OpeningOfNumbered("Revisar Arqueo: La suma de ", "efectivo, tarjetas, gastos, etc. (",
      ") difiere del Total Real ingresado (", ").", show(computed), show(stated));
  }

  /** A message made of an opening, the rest of its lead, a number, a middle
      text, a number and a tail starts as its opening does and is at least as
      long as its fixed parts. */
  lemma OpeningOfNumbered(opening: string, rest: string, middle: string, tail: string, a: string, b: string)
    requires |opening| > 0
    ensures |opening + rest + a + middle + b + tail| >= |opening| + |rest| + |middle| + |tail|
    ensures (opening + rest + a + middle + b + tail)[0] == opening[0]
  {
    var m := opening + rest + a + middle + b + tail;
    assert m == opening + (rest + a + middle + b + tail);
  }

  /** Messages of two lists of checks are the messages of each, in order. */
  lemma {:induction false} RenderAppend(a: seq<Check>, b: seq<Check>, show: int -> string)
    ensures Render(a + b, show) == Render(a, show) + Render(b, show)
    decreases |b|
  {
    if |b| == 0 {
      assert a + b == a;
    } else {
      assert (a + b)[..|a + b| - 1] == a + b[..|b| - 1];
      RenderAppend(a, b[..|b| - 1], show);
    }
  }

  /** `validateReportData`: runs the five rules in order, each pushing at
      most one message. `today` is the current UTC date as YYYY-MM-DD and
      `isValidDate` says whether `Date.parse` succeeds. */
  method ValidateReportData(data: RawReport, today: string, isValidDate: string -> bool,
                            show: int -> string)
    returns (warnings: seq<string>)
    ensures warnings == Render(Checks(data, today, isValidDate), show)
  {
    warnings := [];
    warnings := DateRule(warnings, data, today, isValidDate, show);
    warnings := SystemRule(warnings, data, show);
    warnings := RealRule(warnings, data, show);
    warnings := CashRule(warnings, data, show);
    warnings := DifferenceRule(warnings, data, show);
    RenderChecks(data, today, isValidDate, show);
  }

  /** The messages of all checks are the messages of each rule, in rule order. */
  lemma RenderChecks(data: RawReport, today: string, isValidDate: string -> bool, show: int -> string)
    ensures Render(Checks(data, today, isValidDate), show) ==
      [] + Render(DateCheck(data, today, isValidDate), show) + Render(SystemCheck(data), show)
      + Render(RealCheck(data), show) + Render(CashCheck(data), show) + Render(DifferenceCheck(data), show)
  {
    var d := DateCheck(data, today, isValidDate);
    var s, r, c, f := SystemCheck(data), RealCheck(data), CashCheck(data), DifferenceCheck(data);
    RenderAppend(d, s, show);
    RenderAppend(d + s, r, show);
    RenderAppend(d + s + r, c, show);
    RenderAppend(d + s + r + c, f, show);
    assert [] + Render(d, show) == Render(d, show);
  }

  /** Rule 1: the date must be present and parse, and must not be after today. */
  method DateRule(warnings: seq<string>, data: RawReport, today: string,
                  isValidDate: string -> bool, show: int -> string)
    returns (warnings': seq<string>)
    ensures warnings' == warnings + Render(DateCheck(data, today, isValidDate), show)
  {
    if data.date.None? || data.date.value == "" || !isValidDate(data.date.value) {
      warnings' := warnings + [Message(InvalidDate, show)];
    } else if LexLess(today, data.date.value) {
      warnings' := warnings + [Message(FutureDate, show)];
    } else {
      warnings' := warnings;
    }
  }

  /** Rule 2: the five system buckets against the system total. */
  method SystemRule(warnings: seq<string>, data: RawReport, show: int -> string)
    returns (warnings': seq<string>)
    ensures warnings' == warnings + Render(SystemCheck(data), show)
  {
    var sysCalc := Bucket(data.systemBreakdown, Cash) + Bucket(data.systemBreakdown, Electronic)
      + Bucket(data.systemBreakdown, DeliveryApps) + Bucket(data.systemBreakdown, CurrentAccount)
      + Bucket(data.systemBreakdown, Other);
    if data.systemTotal.Some? && Abs(sysCalc - data.systemTotal.value) > Tolerance {
      warnings' := warnings + [Message(SystemSumMismatch(sysCalc, data.systemTotal.value), show)];
    } else {
      warnings' := warnings;
    }
  }

  /** Rule 3: four real channels plus expenses against the real total. */
  method RealRule(warnings: seq<string>, data: RawReport, show: int -> string)
    returns (warnings': seq<string>)
    ensures warnings' == warnings + Render(RealCheck(data), show)
  {
    var realCalc := Bucket(data.realBreakdown, Cash) + Bucket(data.realBreakdown, Electronic)
      + Bucket(data.realBreakdown, DeliveryApps) + Bucket(data.realBreakdown, CurrentAccount)
      + OrZero(data.expenses);
    if data.realTotal.Some? && Abs(realCalc - data.realTotal.value) > Tolerance {
      warnings' := warnings + [Message(RealSumMismatch(realCalc, data.realTotal.value), show)];
    } else {
      warnings' := warnings;
    }
  }

  /** Rule 4: no physical cash although something was counted. */
  method CashRule(warnings: seq<string>, data: RawReport, show: int -> string)
    returns (warnings': seq<string>)
    ensures warnings' == warnings + Render(CashCheck(data), show)
  {
    if Bucket(data.realBreakdown, Cash) == 0 && data.realTotal.Some? && data.realTotal.value > 0 {
      warnings' := warnings + [Message(MissingCash, show)];
    } else {
      warnings' := warnings;
    }
  }

  /** Rule 5: a difference beyond 1000 in either direction. */
  method DifferenceRule(warnings: seq<string>, data: RawReport, show: int -> string)
    returns (warnings': seq<string>)
    ensures warnings' == warnings + Render(DifferenceCheck(data), show)
  {
    if data.difference.Some? && Abs(data.difference.value) > LargeDifference {
      warnings' := warnings + [Message(LargeDiscrepancy, show)];
    } else {
      warnings' := warnings;
    }
  }

  /** The status chosen right after validation. */
  method ClassifyStatus(warnings: seq<string>, difference: Option<int>) returns (status: Status)
    ensures status == StatusFor(|warnings| > 0, difference)
    ensures status == ReviewRequired <==> |warnings| > 0
  {
    status := Balanced;
    if |warnings| > 0 {
      status := ReviewRequired;
    } else {
      if difference.Some? && difference.value < -SmallChange {
        status := Shortage;
      } else if difference.Some? && difference.value > SmallChange {
        status := Surplus;
      }
    }
  }

  /** The breakdown with every absent bucket replaced by 0. */
  function NormaliseBreakdown(b: Option<RawBreakdown>): (r: MoneyBreakdown)
    ensures forall f :: Get(r, f) == Bucket(b, f)
  {
    MoneyBreakdown(Bucket(b, Cash), Bucket(b, Electronic), Bucket(b, DeliveryApps),
                   Bucket(b, CurrentAccount), Bucket(b, Other))
  }

  /** The report built from a validated raw record. An absent date is
      carried as the empty string. */
  function Normalise(data: RawReport, id: string, status: Status, warnings: seq<string>): (r: DailyReport)
    ensures r.id == id && r.status == status && r.warnings == warnings
    ensures r.date == data.date.GetOr("")
    ensures r.shiftNumber == "N/A" <==> data.shiftNumber.None? || data.shiftNumber.value in {"", "N/A"}
    ensures data.shiftNumber.Some? && data.shiftNumber.value != "" ==> r.shiftNumber == data.shiftNumber.value
    ensures r.notes.Some? && (data.notes.None? ==> r.notes.value == "")
    ensures data.notes.Some? ==> r.notes == data.notes
    // absent numbers become 0, present ones are kept
    ensures data.systemTotal.None? ==> r.systemTotal == 0
    ensures data.systemTotal.Some? ==> r.systemTotal == data.systemTotal.value
    ensures data.realTotal.None? ==> r.realTotal == 0
    ensures data.realTotal.Some? ==> r.realTotal == data.realTotal.value
    ensures data.expenses.None? ==> r.expenses == 0
    ensures data.expenses.Some? ==> r.expenses == data.expenses.value
    ensures data.difference.None? ==> r.difference == 0
    ensures data.difference.Some? ==> r.difference == data.difference.value
    // each breakdown is normalised bucket by bucket
    ensures r.systemBreakdown == NormaliseBreakdown(data.systemBreakdown)
    ensures r.realBreakdown == NormaliseBreakdown(data.realBreakdown)
    // the sums the validator checked are the sums of the normalised record
    ensures BucketSum(r.systemBreakdown) == RawSystemSum(data)
    ensures ChannelSum(r.realBreakdown) + r.expenses == RawRealSum(data)
  {
    DailyReport(
      id,
      data.date.GetOr(""),
      if data.shiftNumber.None? || data.shiftNumber.value == "" then "N/A" else data.shiftNumber.value,
      OrZero(data.systemTotal),
      NormaliseBreakdown(data.systemBreakdown),
      OrZero(data.realTotal),
      NormaliseBreakdown(data.realBreakdown),
      OrZero(data.expenses),
      OrZero(data.difference),
      status,
      warnings,
      Some(data.notes.GetOr("")))
  }

  function AsRawBreakdown(b: MoneyBreakdown): RawBreakdown
  {
    RawBreakdown(Some(b.cash), Some(b.electronic), Some(b.deliveryApps),
                 Some(b.currentAccount), Some(b.other))
  }

  /** A report seen as a raw record with every field present. */
  function AsRaw(d: DailyReport): RawReport
  {
    RawReport(Some(d.date), Some(d.shiftNumber), Some(d.systemTotal), Some(AsRawBreakdown(d.systemBreakdown)),
              Some(d.realTotal), Some(AsRawBreakdown(d.realBreakdown)), Some(d.expenses),
              Some(d.difference), d.notes)
  }

  /** Normalising a complete record gives the report back. */
  lemma NormaliseAsRaw(d: DailyReport)
    requires d.shiftNumber != "" && d.notes.Some?
    ensures Normalise(AsRaw(d), d.id, d.status, d.warnings) == d
  {
  }

  /** When both sides add up exactly, neither arithmetic rule fires, whatever
      the amounts. */
  lemma ExactSumsNoArithmeticWarning(raw: RawReport, today: string, isValidDate: string -> bool)
    requires raw.systemTotal == Some(RawSystemSum(raw))
    requires raw.realTotal == Some(RawRealSum(raw))
    ensures forall c :: c in Checks(raw, today, isValidDate) ==>
      !c.SystemSumMismatch? && !c.RealSumMismatch?
  {
  }

  /** Zero cash against a positive real total is always flagged. */
  lemma ZeroCashIsFlagged(raw: RawReport, today: string, isValidDate: string -> bool)
    requires Bucket(raw.realBreakdown, Cash) == 0 && raw.realTotal == Some(500)
    ensures MissingCash in Checks(raw, today, isValidDate)
  {
  }

  /** A difference of -1500 is flagged and, without dismissal, needs review. */
  lemma LargeShortageNeedsReview(raw: RawReport, today: string, isValidDate: string -> bool)
    requires raw.difference == Some(-1500)
    ensures LargeDiscrepancy in Checks(raw, today, isValidDate)
    ensures StatusFor(|Checks(raw, today, isValidDate)| > 0, raw.difference) == ReviewRequired
  {
    assert LargeDiscrepancy in Checks(raw, today, isValidDate);
  }

  /** A report dated today is never in the future. */
  lemma TodayIsNotFuture(raw: RawReport, today: string, isValidDate: string -> bool)
    requires raw.date == Some(today) && today != "" && isValidDate(today)
    ensures FutureDate !in Checks(raw, today, isValidDate)
    ensures InvalidDate !in Checks(raw, today, isValidDate)
  {
    LexLessIrreflexive(today);
  }

  /** The date rule compares text, not days: a past date written without
      zero padding sorts after a padded today (at the month, '9' > '1') and
      is reported as future. */
  lemma UnpaddedPastDateIsFuture(raw: RawReport, isValidDate: string -> bool)
    requires raw.date == Some("2023-9-1") && isValidDate("2023-9-1")
    ensures FutureDate in Checks(raw, "2023-10-01", isValidDate)
  {
    assert "2023-10-01"[..5] == "2023-9-1"[..5];
    LexLessFirstDifference("2023-10-01", "2023-9-1", 5);
    ChecksDateRule(raw, "2023-10-01", isValidDate);
  }

  datatype AnalyzeError = MissingApiKey | NoResponse | CouldNotParse

  /** `analyzeCashCloseImage` after the model call: `responseText` is the
      model's answer and `parsed` what `JSON.parse` made of it (`None` when
      it threw). `id` stands for the freshly generated UUID. */
  method AnalyzeCashCloseImage(apiKey: string, responseText: string, parsed: Option<RawReport>,
                               id: string, today: string, isValidDate: string -> bool,
                               show: int -> string)
    returns (r: Result<DailyReport, AnalyzeError>)
    ensures apiKey == "" ==> r == Failure(MissingApiKey)
    ensures apiKey != "" && responseText == "" ==> r == Failure(NoResponse)
    ensures apiKey != "" && responseText != "" && parsed.None? ==> r == Failure(CouldNotParse)
    ensures apiKey != "" && responseText != "" && parsed.Some? ==>
      && r.Success?
      && r.value.warnings == Render(Checks(parsed.value, today, isValidDate), show)
      && r.value.status == StatusFor(|Checks(parsed.value, today, isValidDate)| > 0, parsed.value.difference)
      && r.value == Normalise(parsed.value, id, r.value.status, r.value.warnings)
  {
    if apiKey == "" {
      return Failure(MissingApiKey);
    }
    if responseText == "" {
      return Failure(NoResponse);
    }
    if parsed.None? {
      return Failure(CouldNotParse);
    }
    var data := parsed.value;
    var warnings := ValidateReportData(data, today, isValidDate, show);
    var status := ClassifyStatus(warnings, data.difference);
    r := Success(Normalise(data, id, status, warnings));
  }

  predicate IsLineTerminator(c: char)
  {
    c == '\n' || c == '\r' || c == '\U{2028}' || c == '\U{2029}'
  }

  /** Length of the longest prefix of `s` without a line terminator. */
  function LineLength(s: string): (n: nat)
    ensures n <= |s|
    ensures forall i :: 0 <= i < n ==> !IsLineTerminator(s[i])
    ensures n < |s| ==> IsLineTerminator(s[n])
  {
    if |s| == 0 || IsLineTerminator(s[0]) then 0 else 1 + LineLength(s[1..])
  }

  /** `s.replace(/^data:(.*,)?/, "")`: drop `data:` and, greedily, everything
      up to the last comma before the first line break. */
  function StripDataUrlPrefix(s: string): (r: string)
    ensures |r| <= |s| && r == s[|s| - |r|..]
    ensures !(|s| >= 5 && s[..5] == "data:") ==> r == s
  {
    if |s| >= 5 && s[..5] == "data:" then
      var rest := s[5..];
      var line := rest[..LineLength(rest)];
      match LastIndexOf(line, ',')
      case None => rest
      case Some(k) => rest[k + 1..]
    else s
  }

  /** A data URL whose header has no line break and whose payload has no
      comma loses exactly its header. */
  lemma StripDataUrlKeepsPayload(header: string, payload: string)
    requires forall i :: 0 <= i < |header| ==> !IsLineTerminator(header[i])
    requires ',' !in payload
    ensures StripDataUrlPrefix("data:" + header + "," + payload) == payload
  {
    var s := "data:" + header + "," + payload;
    var rest := s[5..];
    assert rest == header + "," + payload;
    var n := LineLength(rest);
    assert n > |header| by {
      assert rest[|header|] == ',';
    }
    var line := rest[..n];
    var k := |header|;
    assert line[k] == ',';
    assert line[k + 1..] == payload[..n - k - 1];
    assert ',' !in line[k + 1..];
    var last := LastIndexOf(line, ',');
    assert last == Some(k);
    assert rest[k + 1..] == payload;
  }

  /** `fileToBase64` (the root application's version): strip the data-URL
      prefix, then pad with `=` up to a multiple of four characters. */
  method FileToBase64(dataUrl: string) returns (encoded: string)
    ensures |encoded| % 4 == 0
    ensures |encoded| >= |StripDataUrlPrefix(dataUrl)|
    ensures encoded[..|StripDataUrlPrefix(dataUrl)|] == StripDataUrlPrefix(dataUrl)
    ensures |encoded| - |StripDataUrlPrefix(dataUrl)| < 4
    ensures forall i :: |StripDataUrlPrefix(dataUrl)| <= i < |encoded| ==> encoded[i] == '='
    ensures |StripDataUrlPrefix(dataUrl)| % 4 == 0 ==> encoded == StripDataUrlPrefix(dataUrl)
  {
    encoded := StripDataUrlPrefix(dataUrl);
    if encoded != "" && |encoded| % 4 > 0 {
      encoded := encoded + Repeat('=', 4 - |encoded| % 4);
    }
  }
}
