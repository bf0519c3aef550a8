/**
 * The analytics page's projection: from the retention reports, renewal
 * predictions, policies and reminders the backend returns, the figures and
 * series `AnalyticsVm` carries. Today's date, the current month and the
 * month a report date falls in come from the clock and the date parser, so
 * they are parameters here.
 */
module Analytics {
  import opened Wrappers
  import Seqs
  import MockData

  /** A retention report; a rate or the date may be missing (`null`). */
  datatype Report = Report(renewalRate: Option<real>, churnRate: Option<real>,
                           campaignEffectiveness: Option<real>, generatedDate: Option<string>)

  /** A renewal prediction; only the risk score and the run date matter here. */
  datatype Prediction = Prediction(customerId: int, policyId: int, riskScore: Option<int>, predictionDate: string)

  /** A policy as the analytics endpoint returns it; type and status are free strings. */
  datatype Policy = Policy(policyId: int, customerId: int, policyType: string, status: string)

  datatype Reminder = Reminder(reminderId: int, customerId: int, status: string)

  datatype AnalyticsVm = AnalyticsVm(
    renewalRatePct: int, churnRatePct: int, highRiskCustomers: nat, predictionsRunToday: nat,
    predictionsTotal: nat, engagementResponseRatePct: nat, campaignRoiPct: int, averageRiskScore: int,
    months: seq<string>, renewalRateSeries: seq<int>,
    churnByPolicyTypeLabels: seq<string>, churnByPolicyTypeSeries: seq<real>,
    riskBands: seq<string>, riskCounts: seq<nat>)

  /** `Math.round`: the nearest integer, halves rounded up. */
  function Round(x: real): (r: int)
    ensures x - 0.5 < r as real <= x + 0.5
  {
    (x + 0.5).Floor
  }

  // ---------------------------------------------------------------- latest report

  /** Code-point order on strings, the order `localeCompare` gives on ISO dates. */
  predicate LexLe(a: string, b: string)
    decreases |a|
  {
    |a| == 0 || (|b| > 0 && (a[0] < b[0] || (a[0] == b[0] && LexLe(a[1..], b[1..]))))
  }

  lemma {:induction false} LexLeTotal(a: string, b: string)
    ensures LexLe(a, b) || LexLe(b, a)
    decreases |a|
  {
    if |a| > 0 && |b| > 0 && a[0] == b[0] {
      LexLeTotal(a[1..], b[1..]);
    }
  }

  lemma {:induction false} LexLeTrans(a: string, b: string, c: string)
    requires LexLe(a, b) && LexLe(b, c)
    ensures LexLe(a, c)
    decreases |a|
  {
    if |a| > 0 && a[0] == b[0] && b[0] == c[0] {
      LexLeTrans(a[1..], b[1..], c[1..]);
    }
  }

  /** The sort key `generatedDate || ''`. */
  function DateKey(r: Report): string {
    r.generatedDate.GetOr("")
  }

  /**
   * `latestReport`: the head of the reports sorted by date, newest first.
   * The sort is stable, so among reports sharing the greatest date the first
   * one wins; without reports there is none.
   */
  function LatestReport(reports: seq<Report>): (r: Option<Report>)
    ensures r.None? <==> |reports| == 0
    ensures r.Some? ==> r.value in reports
    decreases |reports|
  {
    if |reports| == 0 then None
    else
      var rest := LatestReport(reports[1..]);
      if rest.None? || LexLe(DateKey(rest.value), DateKey(reports[0])) then Some(reports[0]) else rest
  }

  /**
   * The latest report carries the greatest date, and every report before it
   * carries a strictly earlier one: it is the first report with the greatest date.
   */
  lemma {:induction false} LatestIsFirstGreatest(reports: seq<Report>)
    requires |reports| > 0
    ensures var l := LatestReport(reports).value;
      && (forall i :: 0 <= i < |reports| ==> LexLe(DateKey(reports[i]), DateKey(l)))
      && exists k :: 0 <= k < |reports| && reports[k] == l &&
           forall i :: 0 <= i < k ==> !LexLe(DateKey(l), DateKey(reports[i]))
    decreases |reports|
  {
    var l := LatestReport(reports).value;
    if |reports| == 1 {
      assert reports[0] == l;
      assert LexLe(DateKey(l), DateKey(l)) by { LexLeTotal(DateKey(l), DateKey(l)); }
    } else {
      var tail := reports[1..];
      LatestIsFirstGreatest(tail);
      var m := LatestReport(tail).value;
      var k' :| 0 <= k' < |tail| && tail[k'] == m &&
                forall i :: 0 <= i < k' ==> !LexLe(DateKey(m), DateKey(tail[i]));
      if LexLe(DateKey(m), DateKey(reports[0])) {
        assert l == reports[0];
        forall i | 0 <= i < |reports|
          ensures LexLe(DateKey(reports[i]), DateKey(l))
        {
          if i == 0 {
            LexLeTotal(DateKey(l), DateKey(l));
          } else {
            assert reports[i] == tail[i - 1];
            LexLeTrans(DateKey(reports[i]), DateKey(m), DateKey(l));
          }
        }
        assert reports[0] == l;
      } else {
        assert l == m;
        LexLeTotal(DateKey(m), DateKey(reports[0]));
        forall i | 0 <= i < |reports|
          ensures LexLe(DateKey(reports[i]), DateKey(l))
        {
          if i > 0 {
            assert reports[i] == tail[i - 1];
          }
        }
        forall i | 0 <= i < k' + 1
          ensures !LexLe(DateKey(l), DateKey(reports[i]))
        {
          if i > 0 {
            assert reports[i] == tail[i - 1];
          }
        }
        assert reports[k' + 1] == l;
      }
    }
  }

  /** The renewal and churn percentages: those of the latest report, 0 without one. */
  function HeadlineRates(reports: seq<Report>): (r: (int, int))
    ensures |reports| == 0 ==> r == (0, 0)
    ensures |reports| > 0 ==> var l := LatestReport(reports).value;
      r == (Round(l.renewalRate.GetOr(0.0)), Round(l.churnRate.GetOr(0.0)))
  {
    var l := LatestReport(reports);
    if l.None? then (0, 0)
    else (Round(l.value.renewalRate.GetOr(0.0)), Round(l.value.churnRate.GetOr(0.0)))
  }

  // ---------------------------------------------------------------- predictions

  /** A missing risk score counts as 0. */
  function Score(p: Prediction): int {
    p.riskScore.GetOr(0)
  }

  predicate IsLow(p: Prediction) { Score(p) < 40 }
  predicate IsMedium(p: Prediction) { 40 <= Score(p) < 70 }
  predicate IsHigh(p: Prediction) { Score(p) >= 70 }

  function RanOn(day: string): Prediction -> bool {
    (p: Prediction) => p.predictionDate == day
  }

  /** `predictionsRunToday`: the number of predictions dated today. */
  function RunToday(predictions: seq<Prediction>, today: string): (r: nat)
    ensures r == Seqs.Count(RanOn(today), predictions)
    ensures r <= |predictions|
    ensures r == |predictions| <==> forall i :: 0 <= i < |predictions| ==> predictions[i].predictionDate == today
  {
    Seqs.FilterKeepsAllIff(RanOn(today), predictions);
    Seqs.FilterCount(RanOn(today), predictions);
    |Seqs.Filter(RanOn(today), predictions)|
  }

  /**
   * Predictions run today over two batches add up, and a prediction dated
   * another day adds nothing.
   */
  lemma RunTodayAdds(a: seq<Prediction>, b: seq<Prediction>, today: string)
    ensures RunToday(a + b, today) == RunToday(a, today) + RunToday(b, today)
    ensures forall p: Prediction :: p.predictionDate != today ==> RunToday(a + [p], today) == RunToday(a, today)
  {
    Seqs.CountAppend(RanOn(today), a, b);
    forall p: Prediction | p.predictionDate != today
      ensures RunToday(a + [p], today) == RunToday(a, today)
    {
      Seqs.CountAppend(RanOn(today), a, [p]);
    }
  }

  /** The sum of the risk scores, missing ones as 0. */
  function ScoreSum(predictions: seq<Prediction>): int {
    if |predictions| == 0 then 0 else Score(predictions[0]) + ScoreSum(predictions[1..])
  }

  lemma {:induction false} ScoreSumBounds(predictions: seq<Prediction>, lo: int, hi: int)
    requires forall i :: 0 <= i < |predictions| ==> lo <= Score(predictions[i]) <= hi
    ensures lo * |predictions| <= ScoreSum(predictions) <= hi * |predictions|
    decreases |predictions|
  {
    if |predictions| > 0 {
      ScoreSumBounds(predictions[1..], lo, hi);
    }
  }

  /** `averageRiskScore`: the rounded mean score, 0 without predictions. */
  function AverageRiskScore(predictions: seq<Prediction>): (r: int)
    ensures |predictions| == 0 ==> r == 0
    ensures |predictions| > 0 ==>
      (2 * r - 1) * |predictions| <= 2 * ScoreSum(predictions) < (2 * r + 1) * |predictions|
  {
    var n := |predictions|;
    if n == 0 then 0
    else
      var r := (2 * ScoreSum(predictions) + n) / (2 * n);
      assert 2 * n * r <= 2 * ScoreSum(predictions) + n < 2 * n * (r + 1);
      r
  }

  /** With every score in 0..100 the average lies in 0..100 too. */
  lemma AverageWithinScale(predictions: seq<Prediction>)
    requires forall i :: 0 <= i < |predictions| ==> 0 <= Score(predictions[i]) <= 100
    ensures 0 <= AverageRiskScore(predictions) <= 100
  {
    ScoreSumBounds(predictions, 0, 100);
    var n, r := |predictions|, AverageRiskScore(predictions);
  }

  /** `[low, med, high]`: the predictions in each risk band. */
  function RiskCounts(predictions: seq<Prediction>): (r: seq<nat>)
    ensures r == [Seqs.Count(IsLow, predictions), Seqs.Count(IsMedium, predictions), Seqs.Count(IsHigh, predictions)]
    ensures r[0] + r[1] + r[2] == |predictions|
  {
    var low := Seqs.Filter(IsLow, predictions);
    var med := Seqs.Filter(IsMedium, predictions);
    var high := Seqs.Filter(IsHigh, predictions);
    Seqs.FilterPartition3(IsLow, IsMedium, IsHigh, predictions);
    Seqs.FilterCount(IsLow, predictions);
    Seqs.FilterCount(IsMedium, predictions);
    Seqs.FilterCount(IsHigh, predictions);
    [|low|, |med|, |high|]
  }

  /** `highRiskCustomers`: the predictions scoring 70 or more. */
  function HighRiskCount(predictions: seq<Prediction>): (r: nat)
    ensures r == Seqs.Count(IsHigh, predictions)
    ensures r == RiskCounts(predictions)[2]
  {
    Seqs.FilterCount(IsHigh, predictions);
    |Seqs.Filter(IsHigh, predictions)|
  }

  /** A prediction without a score lands in the Low band. */
  lemma MissingScoreIsLow(p: Prediction)
    requires p.riskScore.None?
    ensures IsLow(p) && !IsMedium(p) && !IsHigh(p)
  {
  }

  // ---------------------------------------------------------------- policies and reminders

  function OfType(policyType: string): Policy -> bool {
    (p: Policy) => p.policyType == policyType
  }

  predicate IsExpired(p: Policy) {
    p.status == "EXPIRED"
  }

  function ExpiredOfType(policyType: string): Policy -> bool {
    (p: Policy) => p.policyType == policyType && IsExpired(p)
  }

  /** A share of a positive whole, as a percentage, lies in 0..100. */
  lemma ShareWithinScale(part: nat, whole: nat)
    requires 0 < part <= whole || (part == 0 && 0 < whole)
    ensures 0.0 <= (part as real / whole as real) * 100.0 <= 100.0
  {
    var q := part as real / whole as real;
    assert q * whole as real == part as real;
    assert q <= 1.0;
  }

  /** The two filters `churnPct` applies keep the policies of the type, and the expired ones among them. */
  lemma ChurnCounts(policies: seq<Policy>, policyType: string)
    ensures var all := Seqs.Filter(OfType(policyType), policies);
      && |all| == Seqs.Count(OfType(policyType), policies)
      && |Seqs.Filter(IsExpired, all)| == Seqs.Count(ExpiredOfType(policyType), policies)
      && |Seqs.Filter(IsExpired, all)| <= |all|
  {
    Seqs.FilterCount(OfType(policyType), policies);
    Seqs.FilterFilter(OfType(policyType), IsExpired, ExpiredOfType(policyType), policies);
    Seqs.FilterCount(ExpiredOfType(policyType), policies);
  }

  /** The whole of a positive amount is 100 percent of it. */
  lemma WholeShare(whole: nat)
    requires whole > 0
    ensures (whole as real / whole as real) * 100.0 == 100.0
  {
  }

  /**
   * `churnPct(type)`: the share of the policies of that type that are
   * `EXPIRED`, as a percentage; 0 when no policy has the type.
   */
  function ChurnPct(policies: seq<Policy>, policyType: string): (r: real)
    ensures (forall i :: 0 <= i < |policies| ==> policies[i].policyType != policyType) ==> r == 0.0
    ensures 0.0 <= r <= 100.0
    ensures var ofType := Seqs.Count(OfType(policyType), policies);
      ofType > 0 ==> r == (Seqs.Count(ExpiredOfType(policyType), policies) as real / ofType as real) * 100.0
  {
    var all := Seqs.Filter(OfType(policyType), policies);
    var expired := Seqs.Filter(IsExpired, all);
    ChurnCounts(policies, policyType);
    if |all| == 0 then 0.0
    else
      ShareWithinScale(|expired|, |all|);
      (|expired| as real / |all| as real) * 100.0
  }

  /** Churn is complete when every policy of the type has expired. */
  lemma ChurnFullWhenAllExpired(policies: seq<Policy>, policyType: string)
    requires exists i :: 0 <= i < |policies| && policies[i].policyType == policyType
    requires forall i :: 0 <= i < |policies| && policies[i].policyType == policyType ==> IsExpired(policies[i])
    ensures ChurnPct(policies, policyType) == 100.0
  {
    var all := Seqs.Filter(OfType(policyType), policies);
    var i :| 0 <= i < |policies| && policies[i].policyType == policyType;
    assert policies[i] in all;
    forall k | 0 <= k < |all|
      ensures IsExpired(all[k])
    {
      assert all[k] in policies;
    }
    Seqs.FilterKeepsAll(IsExpired, all);
    WholeShare(|all|);
  }

  predicate IsResponded(m: Reminder) {
    m.status == "RESPONDED"
  }

  /** `engagementResponseRatePct`: the share of reminders answered, rounded, 0 without reminders. */
  function ResponseRatePct(reminders: seq<Reminder>): (r: nat)
    ensures r == MockData.Percent(Seqs.Count(IsResponded, reminders), |reminders|)
    ensures |reminders| == 0 ==> r == 0
    ensures r <= 100
  {
    var responded := Seqs.Filter(IsResponded, reminders);
    Seqs.FilterCount(IsResponded, reminders);
    MockData.Percent(|responded|, |reminders|)
  }

  /** Every reminder answered is 100 percent. */
  lemma ResponseRateAllAnswered(reminders: seq<Reminder>)
    requires |reminders| > 0
    requires forall i :: 0 <= i < |reminders| ==> IsResponded(reminders[i])
    ensures ResponseRatePct(reminders) == 100
  {
    Seqs.FilterKeepsAll(IsResponded, reminders);
    Seqs.FilterCount(IsResponded, reminders);
    MockData.PercentEnds(|reminders|);
  }

  /** No reminder answered is 0 percent. */
  lemma ResponseRateNoneAnswered(reminders: seq<Reminder>)
    requires forall i :: 0 <= i < |reminders| ==> !IsResponded(reminders[i])
    ensures ResponseRatePct(reminders) == 0
  {
    var responded := Seqs.Filter(IsResponded, reminders);
    Seqs.FilterCount(IsResponded, reminders);
    if |reminders| > 0 {
      MockData.PercentEnds(|reminders|);
    }
  }

  // ---------------------------------------------------------------- monthly series

  const MonthNames: seq<string> := ["Jan", "Feb", "Mar", "Apr", "May", "Jun", "Jul", "Aug", "Sep", "Oct", "Nov", "Dec"]

  /**
   * The report writes month `m` of the series: it has a non-empty date that
   * parses to that month. `monthOf` is `new Date(d).getMonth()`, `None` for an
   * invalid date, whose `NaN` index writes no entry of the series.
   */
  predicate SetsMonth(r: Report, monthOf: string -> Option<int>, m: int) {
    r.generatedDate.Some? && r.generatedDate.value != "" && monthOf(r.generatedDate.value) == Some(m)
  }

  /** The loop over the reports: each dated report writes its rounded renewal rate into its month. */
  function SeriesOf(reports: seq<Report>, monthOf: string -> Option<int>): (r: seq<int>)
    ensures |r| == 12
    decreases |reports|
  {
    if |reports| == 0 then seq(12, _ => 0)
    else
      var acc := SeriesOf(reports[..|reports| - 1], monthOf);
      var last := reports[|reports| - 1];
      if last.generatedDate.Some? && last.generatedDate.value != "" then
        var m := monthOf(last.generatedDate.value);
        if m.Some? && 0 <= m.value < 12 then acc[m.value := Round(last.renewalRate.GetOr(0.0))] else acc
      else acc
  }

  /**
   * Each month holds the rounded renewal rate of the last report written to
   * it, and 0 when no report is.
   */
  lemma {:induction false} SeriesLastWins(reports: seq<Report>, monthOf: string -> Option<int>, m: int)
    requires 0 <= m < 12
    ensures (forall i :: 0 <= i < |reports| ==> !SetsMonth(reports[i], monthOf, m)) ==> SeriesOf(reports, monthOf)[m] == 0
    ensures forall i :: (0 <= i < |reports| && SetsMonth(reports[i], monthOf, m) &&
      (forall j :: i < j < |reports| ==> !SetsMonth(reports[j], monthOf, m))) ==>
      SeriesOf(reports, monthOf)[m] == Round(reports[i].renewalRate.GetOr(0.0))
    decreases |reports|
  {
    if |reports| > 0 {
      var init := reports[..|reports| - 1];
      SeriesLastWins(init, monthOf, m);
      forall i | 0 <= i < |init|
        ensures init[i] == reports[i]
      {
      }
    }
  }

  predicate AllZero(s: seq<int>) {
    forall i :: 0 <= i < |s| ==> s[i] == 0
  }

  /**
   * `renewalRateSeries`: the loop's series, except that when it is all zeros
   * and a latest report exists, the current month shows that report's rate.
   */
  function RenewalRateSeries(reports: seq<Report>, monthOf: string -> Option<int>, curMonth: int): (r: seq<int>)
    requires 0 <= curMonth < 12
    ensures |r| == 12
    ensures !AllZero(SeriesOf(reports, monthOf)) || |reports| == 0 ==> r == SeriesOf(reports, monthOf)
    ensures AllZero(SeriesOf(reports, monthOf)) && |reports| > 0 ==>
      r[curMonth] == Round(LatestReport(reports).value.renewalRate.GetOr(0.0)) &&
      forall i :: 0 <= i < 12 && i != curMonth ==> r[i] == 0
  {
    var s := SeriesOf(reports, monthOf);
    var latest := LatestReport(reports);
    if AllZero(s) && latest.Some? then s[curMonth := Round(latest.value.renewalRate.GetOr(0.0))] else s
  }

  // ---------------------------------------------------------------- the projection

  /**
   * The `map` of `load()`. The campaigns the page also fetches are not used
   * by it, and the upcoming-expiry count is left out (it needs the clock).
   */
  function Project(reports: seq<Report>, predictions: seq<Prediction>, policies: seq<Policy>,
                   reminders: seq<Reminder>, today: string, monthOf: string -> Option<int>, curMonth: int): (vm: AnalyticsVm)
    requires 0 <= curMonth < 12
    ensures |reports| == 0 ==> vm.renewalRatePct == 0 && vm.churnRatePct == 0 && vm.campaignRoiPct == 0
    ensures vm.predictionsTotal == |predictions| && vm.predictionsRunToday <= vm.predictionsTotal
    ensures |vm.riskCounts| == 3 && vm.riskCounts[0] + vm.riskCounts[1] + vm.riskCounts[2] == vm.predictionsTotal
    ensures vm.highRiskCustomers == vm.riskCounts[2]
    ensures vm.predictionsTotal == 0 ==> vm.averageRiskScore == 0
    ensures vm.engagementResponseRatePct <= 100 && (|reminders| == 0 ==> vm.engagementResponseRatePct == 0)
    ensures |vm.months| == 12 && |vm.renewalRateSeries| == 12
    ensures |vm.churnByPolicyTypeLabels| == 2 && |vm.churnByPolicyTypeSeries| == 2
    ensures forall i :: 0 <= i < 2 ==> 0.0 <= vm.churnByPolicyTypeSeries[i] <= 100.0
    ensures |vm.riskBands| == 3
  {
    var (renewal, churn) := HeadlineRates(reports);
    var latest := LatestReport(reports);
    AnalyticsVm(
      renewal, churn, HighRiskCount(predictions), RunToday(predictions, today), |predictions|,
      ResponseRatePct(reminders),
      if latest.Some? then Round(latest.value.campaignEffectiveness.GetOr(0.0)) else 0,
      AverageRiskScore(predictions),
      MonthNames, RenewalRateSeries(reports, monthOf, curMonth),
      ["Health", "Motor"], [ChurnPct(policies, "HEALTH"), ChurnPct(policies, "MOTOR")],
      ["Low", "Medium", "High"], RiskCounts(predictions))
  }

  /** The headline rates come from the report with the greatest date. */
  lemma HeadlineFromNewest(reports: seq<Report>, predictions: seq<Prediction>, policies: seq<Policy>,
                           reminders: seq<Reminder>, today: string, monthOf: string -> Option<int>, curMonth: int)
    requires 0 <= curMonth < 12
    requires |reports| > 0
    ensures var vm := Project(reports, predictions, policies, reminders, today, monthOf, curMonth);
      exists k :: 0 <= k < |reports|
        && (forall i :: 0 <= i < |reports| ==> LexLe(DateKey(reports[i]), DateKey(reports[k])))
        && vm.renewalRatePct == Round(reports[k].renewalRate.GetOr(0.0))
        && vm.churnRatePct == Round(reports[k].churnRate.GetOr(0.0))
        && vm.campaignRoiPct == Round(reports[k].campaignEffectiveness.GetOr(0.0))
  {
    LatestIsFirstGreatest(reports);
  }
}
