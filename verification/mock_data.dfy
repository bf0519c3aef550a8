/**
 * `MockDataService`: interlinked in-memory tables of customers, policies,
 * risk items, reminders and campaigns, the lookups and joins over them, and
 * the integer figures of the analytics summary. Every operation is modelled
 * on the value its observable carries; an observable that errors (a join that
 * dereferences a missing row) is `Errored`.
 */
module MockData {
  import opened Wrappers
  import Seqs

  datatype Category = Health | Motor | Life | Travel
  datatype PolicyStatus = Active | Expired | Renewed | Cancelled
  datatype Mode = Email | Sms | WhatsApp | Call
  datatype ReminderStatus = Sent | Responded | Failed | Scheduled
  datatype CampaignTarget = AllCustomers | HighRisk | ExpiringSoon | Loyal
  datatype CampaignStatus = Planned | Running | Completed | Withdrawn

  datatype Customer = Customer(custId: int, policyId: Option<int>, name: string, email: string,
                               phone: string, password: string, createdAt: string, modifiedAt: string)

  datatype Policy = Policy(policyId: int, custId: int, category: Category, policyName: string, amount: int,
                           startDate: string, endDate: string, renewalDate: string, status: PolicyStatus,
                           createdAt: string, modifiedAt: string)

  datatype RiskItem = RiskItem(custId: int, policyId: int, category: Category, custName: string, riskScore: int,
                               renewalDate: string, renewalProb: int, status: PolicyStatus)

  datatype Reminder = Reminder(custId: int, policyId: int, category: Category, dateSent: string, mode: Mode,
                               trigger: string, status: ReminderStatus)

  /** One entry of a campaign's optional `targets` list. */
  datatype Target = Target(custId: int, policyId: Option<int>)

  datatype Campaign = Campaign(campaignId: int, campaignName: string, target: CampaignTarget, discount: int,
                               startDate: string, endDate: string, status: CampaignStatus,
                               createdAt: string, modifiedAt: string, targets: Option<seq<Target>>)

  /** The service's five tables. */
  datatype Db = Db(customers: seq<Customer>, policies: seq<Policy>, risks: seq<RiskItem>,
                   reminders: seq<Reminder>, campaigns: seq<Campaign>)

  /** The customer fields a joined policy carries. */
  datatype CustomerContact = CustomerContact(custId: int, name: string, email: string, phone: string)

  datatype PolicyWithCustomer = PolicyWithCustomer(policy: Policy, customer: CustomerContact)

  datatype RiskItemEnriched = RiskItemEnriched(item: RiskItem, customerEmail: string, customerPhone: string,
                                               policyName: string, amount: int)

  /** What an observable delivers: a value, or an error raised inside its `map`. */
  datatype Outcome<T> = Delivered(value: T) | Errored

  lemma MulCancel(a: int, b: int, c: int)
    requires c > 0 && a * c < b * c
    ensures a < b
  {
  }

  /** `r`, the quotient `percent` computes, is within half of `100 * part / total`. */
  lemma RoundedShare(part: nat, total: nat, r: nat)
    requires total > 0 && r == (200 * part + total) / (2 * total)
    ensures (2 * r - 1) * total <= 200 * part < (2 * r + 1) * total
    ensures part <= total ==> r <= 100
  {
    var n, d := 200 * part + total, 2 * total;
    assert r * d <= n < r * d + d;
    assert r * d == 2 * (r * total);
    assert (2 * r - 1) * total == 2 * (r * total) - total;
    assert (2 * r + 1) * total == 2 * (r * total) + total;
    if part <= total {
      assert r * d < 101 * d;
      MulCancel(r, 101, d);
    }
  }

  /**
   * `percent`: 0 for a zero total, else `Math.round((part / total) * 100)`:
   * the whole number `r` with `r - 1/2 <= 100 * part / total < r + 1/2`
   * (halves round up), stated multiplied through by `2 * total`.
   */
  function Percent(part: nat, total: nat): (r: nat)
    ensures total == 0 ==> r == 0
    ensures total > 0 ==> (2 * r - 1) * total <= 200 * part < (2 * r + 1) * total
    ensures part <= total ==> r <= 100
  {
    if total == 0 then 0
    else
      var r := (200 * part + total) / (2 * total);
      RoundedShare(part, total, r);
      r
  }

  /** A part at most half of the total is at most 50 percent. */
  lemma PercentAtMostHalf(part: nat, total: nat)
    requires 2 * part <= total
    ensures Percent(part, total) <= 50
  {
    if total > 0 {
      var r := Percent(part, total);
      assert (2 * r - 1) * total < 101 * total;
      MulCancel(2 * r - 1, 101, total);
    }
  }

  /** The whole of a positive total is 100 percent, nothing of it 0 percent. */
  lemma PercentEnds(total: nat)
    requires total > 0
    ensures Percent(total, total) == 100
    ensures Percent(0, total) == 0
  {
    var all: int := Percent(total, total);
    MulCancel(2 * all - 1, 201, total);
    MulCancel(200, 2 * all + 1, total);
    var none: int := Percent(0, total);
    MulCancel(2 * none - 1, 1, total);
  }

  /** `getCustomer`: the first customer with that id. */
  function GetCustomer(db: Db, custId: int): (r: Option<Customer>)
    ensures r.Some? ==> r.value in db.customers && r.value.custId == custId
    ensures r.None? <==> forall c :: c in db.customers ==> c.custId != custId
    ensures forall i :: FirstWithId(db.customers, custId, i) ==> r == Some(db.customers[i])
  {
    Seqs.Find(CustomerWithId(custId), db.customers)
  }

  /** `i` is the first position of a customer with that id. */
  predicate FirstWithId(customers: seq<Customer>, custId: int, i: int) {
    && 0 <= i < |customers| && customers[i].custId == custId
    && forall j :: 0 <= j < i ==> customers[j].custId != custId
  }

  function CustomerWithId(custId: int): Customer -> bool {
    (c: Customer) => c.custId == custId
  }

  function FindPolicy(db: Db, policyId: int): (r: Option<Policy>)
    ensures r.Some? ==> r.value in db.policies && r.value.policyId == policyId
    ensures r.None? <==> forall p :: p in db.policies ==> p.policyId != policyId
  {
    Seqs.Find((p: Policy) => p.policyId == policyId, db.policies)
  }

  /** `listPoliciesByCustomer`: the policies of one customer, in table order. */
  function ListPoliciesByCustomer(db: Db, custId: int): (r: seq<Policy>)
    ensures forall p :: p in r <==> p in db.policies && p.custId == custId
    ensures forall p :: multiset(r)[p] == if p.custId == custId then multiset(db.policies)[p] else 0
    ensures Seqs.IsSubseq(r, db.policies)
  {
    Seqs.FilterMultiplicity(PolicyOf(custId), db.policies);
    Seqs.Filter(PolicyOf(custId), db.policies)
  }

  function PolicyOf(custId: int): Policy -> bool {
    (p: Policy) => p.custId == custId
  }

  /** `listRemindersByCustomer`: the reminders of one customer, in table order. */
  function ListRemindersByCustomer(db: Db, custId: int): (r: seq<Reminder>)
    ensures forall m :: m in r <==> m in db.reminders && m.custId == custId
    ensures forall m :: multiset(r)[m] == if m.custId == custId then multiset(db.reminders)[m] else 0
    ensures Seqs.IsSubseq(r, db.reminders)
  {
    Seqs.FilterMultiplicity(ReminderOf(custId), db.reminders);
    Seqs.Filter(ReminderOf(custId), db.reminders)
  }

  function ReminderOf(custId: int): Reminder -> bool {
    (m: Reminder) => m.custId == custId
  }

  /** `(c.targets ?? []).some(t => t.cust_id === custId)`. */
  predicate TargetsCustomer(c: Campaign, custId: int) {
    Seqs.FindIndex((t: Target) => t.custId == custId, c.targets.GetOr([])).Some?
  }

  /** `listCampaignsForCustomer`: the campaigns one of whose targets is that customer. */
  function ListCampaignsForCustomer(db: Db, custId: int): (r: seq<Campaign>)
    ensures forall c :: c in r <==>
      (c in db.campaigns && c.targets.Some? && exists t :: t in c.targets.value && t.custId == custId)
    ensures forall c :: multiset(r)[c] == if TargetsCustomer(c, custId) then multiset(db.campaigns)[c] else 0
    ensures Seqs.IsSubseq(r, db.campaigns)
  {
    var r := Seqs.Filter(Targeting(custId), db.campaigns);
    Seqs.FilterMultiplicity(Targeting(custId), db.campaigns);
    assert forall c :: TargetsCustomer(c, custId) <==> (c.targets.Some? && exists t :: t in c.targets.value && t.custId == custId) by {
      forall c
        ensures TargetsCustomer(c, custId) <==> (c.targets.Some? && exists t :: t in c.targets.value && t.custId == custId)
      {
        var ts := c.targets.GetOr([]);
        if t :| t in c.targets.GetOr([]) && t.custId == custId {
          var k :| 0 <= k < |ts| && ts[k] == t;
          assert ts[k].custId == custId;
        }
      }
    }
    r
  }

  function Targeting(custId: int): Campaign -> bool {
    (c: Campaign) => TargetsCustomer(c, custId)
  }

  /** The contact fields of a customer. */
  function Contact(c: Customer): CustomerContact {
    CustomerContact(c.custId, c.name, c.email, c.phone)
  }

  /**
   * `getPolicyWithCustomer`: `undefined` (written `None`) when no policy has
   * that id; the policy joined with its customer when that customer exists;
   * an error when it does not, since `c.cust_id` is read from `undefined`.
   */
  function GetPolicyWithCustomer(db: Db, policyId: int): (r: Outcome<Option<PolicyWithCustomer>>)
    ensures r == Delivered(None) <==> forall p :: p in db.policies ==> p.policyId != policyId
    ensures r.Errored? <==> FindPolicy(db, policyId).Some? && GetCustomer(db, FindPolicy(db, policyId).value.custId).None?
    ensures r.Delivered? && r.value.Some? ==>
      && r.value.value.policy in db.policies && r.value.value.policy.policyId == policyId
      && r.value.value.customer.custId == r.value.value.policy.custId
    ensures r.Delivered? && r.value.Some? ==>
      && GetCustomer(db, r.value.value.policy.custId).Some?
      && var c := GetCustomer(db, r.value.value.policy.custId).value;
         r.value.value.customer == CustomerContact(c.custId, c.name, c.email, c.phone)
  {
    match FindPolicy(db, policyId)
    case None => Delivered(None)
    case Some(p) =>
      match GetCustomer(db, p.custId)
      case None => Errored
      case Some(c) => Delivered(Some(PolicyWithCustomer(p, Contact(c))))
  }

  /** One risk row joined with its customer and policy, or `None` when either is missing. */
  function Enrich(db: Db, r: RiskItem): (e: Option<RiskItemEnriched>)
    ensures e.Some? <==> GetCustomer(db, r.custId).Some? && FindPolicy(db, r.policyId).Some?
    ensures e.Some? ==> e.value.item == r
  {
    match (GetCustomer(db, r.custId), FindPolicy(db, r.policyId))
    case (Some(c), Some(p)) => Some(RiskItemEnriched(r, c.email, c.phone, p.policyName, p.amount))
    case _ => None
  }

  /** `items.map(...)` with the joins: fails as soon as one row cannot be joined. */
  function EnrichAll(db: Db, items: seq<RiskItem>): (r: Option<seq<RiskItemEnriched>>)
    ensures r.Some? <==> forall i :: 0 <= i < |items| ==> Enrich(db, items[i]).Some?
    ensures r.Some? ==> |r.value| == |items|
    ensures r.Some? ==> forall i :: 0 <= i < |items| ==> Enrich(db, items[i]) == Some(r.value[i])
  {
    if |items| == 0 then Some([])
    else
      match (Enrich(db, items[0]), EnrichAll(db, items[1..]))
      case (Some(e), Some(rest)) =>
        assert forall i :: 1 <= i < |items| ==> items[i] == items[1..][i - 1];
        Some([e] + rest)
      case (None, _) => None
      case (_, None) =>
        assert forall i :: 0 <= i < |items[1..]| ==> items[1..][i] == items[i + 1];
        None
  }

  /** The comparator `(a, b) => b.risk_score - a.risk_score`, as "a may precede b". */
  function ByScoreDescending(): (RiskItemEnriched, RiskItemEnriched) -> bool {
    (a: RiskItemEnriched, b: RiskItemEnriched) => b.item.riskScore - a.item.riskScore <= 0
  }

  lemma ByScoreDescendingIsPreorder()
    ensures Seqs.TotalPreorder(ByScoreDescending())
  {
  }

  /**
   * `listRiskDashboard`: every risk row joined with its customer and policy,
   * highest risk score first; an error when some row's customer or policy is missing.
   */
  function ListRiskDashboard(db: Db): (r: Outcome<seq<RiskItemEnriched>>)
    ensures r.Delivered? <==> forall i :: 0 <= i < |db.risks| ==> Enrich(db, db.risks[i]).Some?
    ensures r.Delivered? ==> |r.value| == |db.risks|
    ensures r.Delivered? ==> forall i, j :: 0 <= i < j < |r.value| ==> r.value[i].item.riskScore >= r.value[j].item.riskScore
    ensures r.Delivered? ==> multiset(r.value) == multiset(EnrichAll(db, db.risks).value)
  {
    match EnrichAll(db, db.risks)
    case None => Errored
    case Some(rows) =>
      ByScoreDescendingIsPreorder();
      Delivered(Seqs.Sort(ByScoreDescending(), rows))
  }

  /** Every sorted row is the join of one risk item, and every risk item yields a sorted row. */
  lemma ListRiskDashboardRows(db: Db)
    requires ListRiskDashboard(db).Delivered?
    ensures forall e :: e in ListRiskDashboard(db).value <==> exists i :: 0 <= i < |db.risks| && Enrich(db, db.risks[i]) == Some(e)
  {
    var rows := EnrichAll(db, db.risks).value;
    var sorted := ListRiskDashboard(db).value;
    assert forall e :: e in sorted <==> e in rows by {
      forall e
        ensures e in sorted <==> e in rows
      {
        assert e in sorted <==> e in multiset(sorted);
        assert e in rows <==> e in multiset(rows);
      }
    }
  }

  /** Every reference in the tables resolves: the joins never fail. */
  ghost predicate Linked(db: Db) {
    && (forall p :: p in db.policies ==> exists c :: c in db.customers && c.custId == p.custId)
    && (forall r :: r in db.risks ==>
          (exists c :: c in db.customers && c.custId == r.custId)
          && (exists p :: p in db.policies && p.policyId == r.policyId))
  }

  /** Over linked tables the joins deliver: one dashboard row per risk item, and no policy lookup errors. */
  lemma LinkedJoinsDeliver(db: Db, policyId: int)
    requires Linked(db)
    ensures ListRiskDashboard(db).Delivered? && |ListRiskDashboard(db).value| == |db.risks|
    ensures GetPolicyWithCustomer(db, policyId).Delivered?
  {
    forall i | 0 <= i < |db.risks|
      ensures Enrich(db, db.risks[i]).Some?
    {
      assert db.risks[i] in db.risks;
    }
  }

  /** The integer figures of `getAnalyticsSummary`. */
  datatype SummaryFigures = SummaryFigures(renewalRate: nat, churnRate: nat, highRiskCust: nat,
                                           predictions: nat, engagementResponse: nat, campaignRoi: nat)

  /**
   * `new Set(ids).size`: each id counts once, when it is first added.
   */
  function DistinctCount(ids: seq<int>): (r: nat)
    ensures r == |set x | x in ids|
  {
    if |ids| == 0 then 0
    else
      var front, last := ids[..|ids| - 1], ids[|ids| - 1];
      assert ids == front + [last];
      var seen := set x | x in front;
      assert (set x | x in ids) == seen + {last};
      assert last in front ==> seen + {last} == seen;
      assert last !in front ==> |seen + {last}| == |seen| + 1;
      DistinctCount(front) + (if last in front then 0 else 1)
  }

  /** The customer ids of the risk rows scoring at least 60, in table order. */
  function HighRiskIds(risks: seq<RiskItem>): (r: seq<int>)
    ensures forall x :: x in r <==> exists k :: k in risks && k.riskScore >= 60 && k.custId == x
  {
    var high := Seqs.Filter((k: RiskItem) => k.riskScore >= 60, risks);
    var r := Seqs.Map((k: RiskItem) => k.custId, high);
    assert forall x :: x in r <==> exists j :: 0 <= j < |high| && high[j].custId == x;
    r
  }

  function AtStatus(s: PolicyStatus): Policy -> bool {
    (p: Policy) => p.status == s
  }

  predicate IsResponded(m: Reminder) {
    m.status == Responded
  }

  function ActiveOrExpired(): Policy -> bool {
    (p: Policy) => p.status == Active || p.status == Expired
  }

  /** `new Set(highRiskIds).size`: the distinct customers with a risk row scoring at least 60. */
  function HighRiskCustomerCount(risks: seq<RiskItem>): (r: nat)
    ensures r == |set k | k in risks && k.riskScore >= 60 :: k.custId|
  {
    var ids := HighRiskIds(risks);
    assert (set x | x in ids) == (set k | k in risks && k.riskScore >= 60 :: k.custId);
    DistinctCount(ids)
  }

  /** The active-or-expired policies include the expired ones. */
  lemma ExpiredAmongLive(policies: seq<Policy>)
    ensures Seqs.Count(AtStatus(Expired), policies) <= Seqs.Count(ActiveOrExpired(), policies)
  {
    Seqs.FilterMonotone(AtStatus(Expired), ActiveOrExpired(), policies);
    Seqs.FilterCount(AtStatus(Expired), policies);
    Seqs.FilterCount(ActiveOrExpired(), policies);
  }

  /** `percent(renewed, renewed + activeOrExpired)`. */
  function RenewalRate(policies: seq<Policy>): (r: nat)
    ensures var renewed := Seqs.Count(AtStatus(Renewed), policies);
      r == Percent(renewed, renewed + Seqs.Count(ActiveOrExpired(), policies))
    ensures r <= 100
  {
    var renewed := |Seqs.Filter(AtStatus(Renewed), policies)|;
    var live := |Seqs.Filter(ActiveOrExpired(), policies)|;
    Seqs.FilterCount(AtStatus(Renewed), policies);
    Seqs.FilterCount(ActiveOrExpired(), policies);
    Percent(renewed, renewed + live)
  }

  /** `percent(expired, expired + activeOrExpired)`: never above one half. */
  function ChurnRate(policies: seq<Policy>): (r: nat)
    ensures var expired := Seqs.Count(AtStatus(Expired), policies);
      r == Percent(expired, expired + Seqs.Count(ActiveOrExpired(), policies))
    ensures r <= 50
  {
    var expired := |Seqs.Filter(AtStatus(Expired), policies)|;
    var live := |Seqs.Filter(ActiveOrExpired(), policies)|;
    Seqs.FilterCount(AtStatus(Expired), policies);
    Seqs.FilterCount(ActiveOrExpired(), policies);
    ExpiredAmongLive(policies);
    PercentAtMostHalf(expired, expired + live);
    Percent(expired, expired + live)
  }

  /** `percent(responded, reminders.length)`. */
  function EngagementRate(reminders: seq<Reminder>): (r: nat)
    ensures r == Percent(Seqs.Count(IsResponded, reminders), |reminders|)
    ensures r <= 100
  {
    Seqs.FilterCount(IsResponded, reminders);
    Percent(|Seqs.Filter(IsResponded, reminders)|, |reminders|)
  }

  /**
   * The integer figures of `getAnalyticsSummary`: renewal and churn rates over
   * the policy statuses, distinct high-risk customers, the number of risk
   * items, the share of responded reminders and the fixed campaign ROI.
   */
  function GetSummaryFigures(db: Db): (r: SummaryFigures)
    ensures var renewed, expired := Seqs.Count(AtStatus(Renewed), db.policies), Seqs.Count(AtStatus(Expired), db.policies);
      var live := Seqs.Count(ActiveOrExpired(), db.policies);
      && r.renewalRate == Percent(renewed, renewed + live)
      && r.churnRate == Percent(expired, expired + live)
    ensures r.engagementResponse == Percent(Seqs.Count(IsResponded, db.reminders), |db.reminders|)
    ensures r.renewalRate <= 100
    ensures r.churnRate <= 50
    ensures r.highRiskCust == |set k | k in db.risks && k.riskScore >= 60 :: k.custId|
    ensures r.predictions == |db.risks|
    ensures r.engagementResponse <= 100
    ensures |db.reminders| == 0 ==> r.engagementResponse == 0
    ensures r.campaignRoi == 48
  {
    SummaryFigures(
      RenewalRate(db.policies),
      ChurnRate(db.policies),
      HighRiskCustomerCount(db.risks),
      |db.risks|,
      EngagementRate(db.reminders),
      48)
  }
}
