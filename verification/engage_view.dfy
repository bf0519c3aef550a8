/**
 * The engagement page: customers merged with the risk feed, a reminder
 * listing filtered by a typed customer id, and the checks that decide whether
 * a single or a bulk reminder request goes out. The rows carry the optional
 * risk score and category the page reads from them.
 */
module EngageView {
  import opened Wrappers
  import Seqs
  import Text
  import opened MockData

  /** A customer as the page holds it, with the fields it reads beyond the table's. */
  datatype Row = Row(customer: Customer, riskScore: Option<int>, category: Option<Category>)

  /** The bulk form's category: `ANY`, or one category. */
  datatype BulkCategory = AnyCategory | OnlyCategory(category: Category)

  datatype BulkForm = BulkForm(riskThreshold: int, category: BulkCategory, dateSent: string,
                               mode: Mode, trigger: string)

  /**
   * The `Map` that `risks.forEach(r => riskMap.set(r.cust_id, r.risk_score))`
   * builds, one `set` per row in order.
   */
  function RiskMap(risks: seq<RiskItemEnriched>): map<int, int> {
    if |risks| == 0 then map[]
    else
      var last := risks[|risks| - 1];
      RiskMap(risks[..|risks| - 1])[last.item.custId := last.item.riskScore]
  }

  /** Some row of `risks` belongs to customer `id`. */
  predicate Occurs(risks: seq<RiskItemEnriched>, id: int) {
    exists i :: 0 <= i < |risks| && risks[i].item.custId == id
  }

  /** The map binds exactly the customer ids that occur. */
  lemma {:induction false} RiskMapDomain(risks: seq<RiskItemEnriched>)
    ensures forall id :: id in RiskMap(risks) <==> Occurs(risks, id)
  {
    if |risks| > 0 {
      var front, last := risks[..|risks| - 1], risks[|risks| - 1];
      RiskMapDomain(front);
      forall id
        ensures id in RiskMap(risks) <==> Occurs(risks, id)
      {
        if Occurs(front, id) {
          var i :| 0 <= i < |front| && front[i].item.custId == id;
          assert risks[i] == front[i];
        }
        if Occurs(risks, id) && id != last.item.custId {
          var i :| 0 <= i < |risks| && risks[i].item.custId == id;
          assert i < |front| && front[i] == risks[i];
        }
      }
    }
  }

  /** The map binds each customer id to the score of its last row. */
  lemma {:induction false} RiskMapLastWins(risks: seq<RiskItemEnriched>)
    ensures forall i :: 0 <= i < |risks| && IsLastFor(risks, i) ==>
      risks[i].item.custId in RiskMap(risks) && RiskMap(risks)[risks[i].item.custId] == risks[i].item.riskScore
  {
    if |risks| > 0 {
      var front, last := risks[..|risks| - 1], risks[|risks| - 1];
      RiskMapLastWins(front);
      forall i | 0 <= i < |risks| && IsLastFor(risks, i)
        ensures risks[i].item.custId in RiskMap(risks) && RiskMap(risks)[risks[i].item.custId] == risks[i].item.riskScore
      {
        if i < |front| {
          assert front[i] == risks[i];
          assert risks[i].item.custId != last.item.custId;
          forall j | i < j < |front|
            ensures front[j].item.custId != front[i].item.custId
          {
            assert front[j] == risks[j];
          }
          assert IsLastFor(front, i);
        }
      }
    }
  }

  /** Row `i` is the last row of its customer. */
  predicate IsLastFor(risks: seq<RiskItemEnriched>, i: int)
    requires 0 <= i < |risks|
  {
    forall j :: i < j < |risks| ==> risks[j].item.custId != risks[i].item.custId
  }

  /** The merge of `ngOnInit`: a customer with risk rows takes the score of the last one, others keep theirs. */
  function MergeRisk(m: map<int, int>): Row -> Row {
    (c: Row) => c.(riskScore := if c.customer.custId in m then Some(m[c.customer.custId]) else c.riskScore)
  }

  /**
   * `customers.map(c => ({ ...c, risk_score: riskMap.get(c.cust_id) ?? c.risk_score }))`:
   * only the risk score changes, to the last matching row's score where there is one.
   */
  function Merge(customers: seq<Row>, risks: seq<RiskItemEnriched>): (r: seq<Row>)
    ensures |r| == |customers|
    ensures forall i :: 0 <= i < |r| ==> r[i].customer == customers[i].customer && r[i].category == customers[i].category
    ensures forall i :: 0 <= i < |r| && (forall k :: 0 <= k < |risks| ==> risks[k].item.custId != customers[i].customer.custId) ==>
      r[i].riskScore == customers[i].riskScore
    ensures forall i, k :: 0 <= i < |r| && 0 <= k < |risks| && risks[k].item.custId == customers[i].customer.custId && IsLastFor(risks, k) ==>
      r[i].riskScore == Some(risks[k].item.riskScore)
  {
    RiskMapDomain(risks);
    RiskMapLastWins(risks);
    Seqs.Map(MergeRisk(RiskMap(risks)), customers)
  }

  /**
   * The risk feed arrives from `listRiskDashboard`, highest score first, so
   * the last row of a customer holds that customer's lowest score: the merge
   * keeps the lowest score.
   */
  lemma MergeKeepsLowestScore(customers: seq<Row>, risks: seq<RiskItemEnriched>, i: nat, k: nat)
    requires forall a, b :: 0 <= a < b < |risks| ==> risks[a].item.riskScore >= risks[b].item.riskScore
    requires i < |customers| && k < |risks| && risks[k].item.custId == customers[i].customer.custId
    ensures Merge(customers, risks)[i].riskScore.Some?
    ensures Merge(customers, risks)[i].riskScore.value <= risks[k].item.riskScore
  {
    var id := customers[i].customer.custId;
    var last := LastIndexFrom(risks, id, k);
    assert IsLastFor(risks, last);
  }

  /** The last row at or after `k` with customer `id`. */
  function LastIndexFrom(risks: seq<RiskItemEnriched>, id: int, k: nat): (r: nat)
    requires k < |risks| && risks[k].item.custId == id
    ensures k <= r < |risks| && risks[r].item.custId == id
    ensures forall j :: r < j < |risks| ==> risks[j].item.custId != id
    decreases |risks| - k
  {
    match Seqs.FindIndex((x: RiskItemEnriched) => x.item.custId == id, risks[k + 1..])
    case None => k
    case Some(d) =>
      assert risks[k + 1 + d] == risks[k + 1..][d];
      LastIndexFrom(risks, id, k + 1 + d)
  }

  /**
   * `filterByCustomer`: `Number(custIdFilter)` selects the reminders whose
   * customer id equals it when it is a non-zero number (none do when it has
   * a fraction); 0 and `NaN` list every reminder.
   */
  function FilterByCustomer(db: Db, custIdFilter: string): (r: seq<Reminder>)
    ensures Text.ParseNumber(custIdFilter) in {None, Some(0.0)} ==> r == db.reminders
    ensures forall v :: Text.ParseNumber(custIdFilter) == Some(v) && v != 0.0 ==>
      forall m :: m in r <==> m in db.reminders && m.custId as real == v
  {
    match Text.ParseNumber(custIdFilter)
    case Some(v) =>
      if v == 0.0 then db.reminders
      else if v == v.Floor as real then ListRemindersByCustomer(db, v.Floor)
      else []
    case None => db.reminders
  }

  /** A blank filter lists every reminder. */
  lemma BlankFilterListsAll(db: Db, custIdFilter: string)
    requires Text.Trim(custIdFilter) == ""
    ensures FilterByCustomer(db, custIdFilter) == db.reminders
  {
  }

  /** `createForCustomer`'s check: the request goes out only with non-zero ids and a non-empty date and trigger. */
  predicate CanCreateSingle(form: Reminder) {
    form.custId != 0 && form.policyId != 0 && form.dateSent != "" && form.trigger != ""
  }

  /** The single form as `resetSingleForm` leaves it. */
  const BlankSingleForm: Reminder := Reminder(0, 0, Health, "", Email, "", Scheduled)

  /** A reset form sends nothing: it has to be filled in again. */
  lemma BlankFormCannotSend()
    ensures !CanCreateSingle(BlankSingleForm)
  {
  }

  /** The risk criterion: met by a row without a score, else by a score at or above the threshold. */
  predicate MeetsRisk(c: Row, threshold: int) {
    c.riskScore.None? || c.riskScore.value >= threshold
  }

  /** The category criterion: `ANY` accepts every row, else the row's category must be the chosen one. */
  predicate MeetsCategory(c: Row, category: BulkCategory) {
    category.AnyCategory? || c.category == Some(category.category)
  }

  /** `filteredCustomers`: the rows meeting both criteria, in order. */
  function FilteredCustomers(customers: seq<Row>, form: BulkForm): (r: seq<Row>)
    ensures forall c :: c in r <==> c in customers && MeetsRisk(c, form.riskThreshold) && MeetsCategory(c, form.category)
    ensures forall c :: multiset(r)[c] == if MeetsRisk(c, form.riskThreshold) && MeetsCategory(c, form.category) then multiset(customers)[c] else 0
    ensures Seqs.IsSubseq(r, customers)
  {
    Seqs.FilterMultiplicity(MeetsBoth(form), customers);
    Seqs.Filter(MeetsBoth(form), customers)
  }

  function MeetsBoth(form: BulkForm): Row -> bool {
    (c: Row) => MeetsRisk(c, form.riskThreshold) && MeetsCategory(c, form.category)
  }

  /** With category `ANY`, only the risk criterion filters; a row without a score always passes it. */
  lemma AnyCategoryFiltersByRiskOnly(customers: seq<Row>, form: BulkForm)
    requires form.category == AnyCategory
    ensures FilteredCustomers(customers, form) == Seqs.Filter((c: Row) => MeetsRisk(c, form.riskThreshold), customers)
    ensures forall c :: c in customers && c.riskScore.None? ==> c in FilteredCustomers(customers, form)
  {
    var both := (c: Row) => MeetsRisk(c, form.riskThreshold) && MeetsCategory(c, form.category);
    var risk := (c: Row) => MeetsRisk(c, form.riskThreshold);
    FilterSame(both, risk, customers);
  }

  lemma {:induction false} FilterSame<T(!new)>(p: T -> bool, q: T -> bool, s: seq<T>)
    requires forall x :: p(x) == q(x)
    ensures Seqs.Filter(p, s) == Seqs.Filter(q, s)
    decreases |s|
  {
    if |s| > 0 {
      FilterSame(p, q, s[1..]);
    }
  }

  /**
   * `bulkCreateByRiskScore`'s checks: the customers a request goes out for,
   * or `None` when the date or trigger is empty or nobody passes the filter.
   */
  function BulkTargets(customers: seq<Row>, form: BulkForm): (r: Option<seq<Row>>)
    ensures r.Some? <==> form.dateSent != "" && form.trigger != "" && |FilteredCustomers(customers, form)| > 0
    ensures r.Some? ==> r.value == FilteredCustomers(customers, form)
    ensures r.Some? ==> |r.value| > 0 && forall c :: c in r.value ==> c in customers
  {
    if form.dateSent == "" || form.trigger == "" then None
    else
      var targets := FilteredCustomers(customers, form);
      if |targets| == 0 then None else Some(targets)
  }

  /** `i` is the first row of customer `custId`. */
  predicate IsFirstCustomer(customers: seq<Row>, custId: int, i: int) {
    0 <= i < |customers| && customers[i].customer.custId == custId
    && forall j :: 0 <= j < i ==> customers[j].customer.custId != custId
  }

  /** `getRiskForCust`: the risk score of the first row with that customer id, if any. */
  function GetRiskForCust(customers: seq<Row>, custId: int): (r: Option<int>)
    ensures (forall c :: c in customers ==> c.customer.custId != custId) ==> r.None?
    ensures forall i :: IsFirstCustomer(customers, custId, i) ==> r == customers[i].riskScore
  {
    match Seqs.FindIndex((c: Row) => c.customer.custId == custId, customers)
    case None => None
    case Some(i) => customers[i].riskScore
  }

  /** After the merge, a customer with risk rows reads back the score of its last row. */
  lemma MergedRiskReadsBack(customers: seq<Row>, risks: seq<RiskItemEnriched>, custId: int, k: nat)
    requires exists c :: c in customers && c.customer.custId == custId
    requires k < |risks| && risks[k].item.custId == custId && IsLastFor(risks, k)
    ensures GetRiskForCust(Merge(customers, risks), custId) == Some(risks[k].item.riskScore)
  {
    var merged := Merge(customers, risks);
    var c :| c in customers && c.customer.custId == custId;
    var i :| 0 <= i < |customers| && customers[i] == c;
    assert merged[i].customer.custId == custId;
    var first := Seqs.FindIndex((x: Row) => x.customer.custId == custId, merged);
    assert first.Some?;
    assert IsFirstCustomer(merged, custId, first.value);
    assert merged[first.value].customer == customers[first.value].customer;
  }
}
