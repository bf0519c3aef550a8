/**
 * The admin dashboard: `AdminService`'s high-risk customer list (the ten
 * lowest renewal probabilities) and the dashboard's filters over it (policy
 * type, risk level and a free-text search, then the first eight rows).
 */
module Dashboard {
  import opened Wrappers
  import opened Kinds
  import Seqs
  import Text

  datatype HighRiskCustomer = HighRiskCustomer(
    customerId: string, customerName: string, policyId: string, policyType: PolicyType,
    renewalProbability: int, riskLevel: RiskLevel, expiryDate: string)

  // ---------- AdminService ----------

  /** The service comparator `a.renewalProbability - b.renewalProbability`, as "may stay in front". */
  function ByProbability(): (HighRiskCustomer, HighRiskCustomer) -> bool {
    (a: HighRiskCustomer, b: HighRiskCustomer) => a.renewalProbability - b.renewalProbability <= 0
  }

  lemma ByProbabilityIsPreorder()
    ensures Seqs.TotalPreorder(ByProbability())
  {
  }

  /**
   * `getHighRiskCustomers`: a sorted copy, cut to ten rows. The rows are in
   * ascending probability, come from the store, and every stored row left
   * out has a probability at least that of every row returned.
   */
  function GetHighRiskCustomers(store: seq<HighRiskCustomer>): (r: seq<HighRiskCustomer>)
    ensures |r| == if |store| < 10 then |store| else 10
    ensures forall i, j :: 0 <= i < j < |r| ==> r[i].renewalProbability <= r[j].renewalProbability
    ensures multiset(r) <= multiset(store)
    ensures forall x, y :: y in r && x in multiset(store) - multiset(r) ==> y.renewalProbability <= x.renewalProbability
  {
    ByProbabilityIsPreorder();
    var sorted := Seqs.Sort(ByProbability(), store);
    Seqs.SortedTakeKeepsSmallest(ByProbability(), store, sorted, 10);
    Seqs.TakeSorted(ByProbability(), sorted, 10);
    Seqs.TakeSubmultiset(sorted, 10);
    Seqs.Take(sorted, 10)
  }

  // ---------- The dashboard's filters ----------

  /** `customerId`, `policyId` or `customerName`, lower-cased, contains the query. */
  predicate MatchesQuery(x: HighRiskCustomer, query: string) {
    || Text.Includes(Text.ToLower(x.customerId), query)
    || Text.Includes(Text.ToLower(x.policyId), query)
    || Text.Includes(Text.ToLower(x.customerName), query)
  }

  /** The search text as the filter uses it: trimmed, then lower-cased. */
  function NormalizedQuery(searchQuery: string): string {
    Text.ToLower(Text.Trim(searchQuery))
  }

  /** Every criterion at once: the reference for what the sequence of filters keeps. */
  predicate Passes(x: HighRiskCustomer, typeFilter: Option<PolicyType>, riskLevelFilter: string, query: string) {
    && (typeFilter.None? || x.policyType == typeFilter.value)
    && (riskLevelFilter != "High" || x.riskLevel == High)
    && (query == "" || MatchesQuery(x, query))
  }

  function ByType(typeFilter: Option<PolicyType>): HighRiskCustomer -> bool {
    (x: HighRiskCustomer) => typeFilter.None? || x.policyType == typeFilter.value
  }

  function ByLevel(riskLevelFilter: string): HighRiskCustomer -> bool {
    (x: HighRiskCustomer) => riskLevelFilter != "High" || x.riskLevel == High
  }

  function ByQuery(query: string): HighRiskCustomer -> bool {
    (x: HighRiskCustomer) => query == "" || MatchesQuery(x, query)
  }

  /** The three filters in the order the dashboard applies them, each skipped when it does not apply. */
  function FilterRows(rows: seq<HighRiskCustomer>, typeFilter: Option<PolicyType>, riskLevelFilter: string, query: string): (r: seq<HighRiskCustomer>)
    ensures forall x :: x in r <==> x in rows && Passes(x, typeFilter, riskLevelFilter, query)
    ensures forall x :: multiset(r)[x] == if Passes(x, typeFilter, riskLevelFilter, query) then multiset(rows)[x] else 0
  {
    var a := if typeFilter.Some? then Seqs.Filter(ByType(typeFilter), rows) else rows;
    var b := if riskLevelFilter == "High" then Seqs.Filter(ByLevel(riskLevelFilter), a) else a;
    Seqs.FilterMultiplicity(ByType(typeFilter), rows);
    Seqs.FilterMultiplicity(ByLevel(riskLevelFilter), a);
    Seqs.FilterMultiplicity(ByQuery(query), b);
    if query != "" then Seqs.Filter(ByQuery(query), b) else b
  }

  /** `applyFilters`: the first eight rows that pass every filter. */
  function ApplyFilters(original: seq<HighRiskCustomer>, typeFilter: Option<PolicyType>, riskLevelFilter: string, searchQuery: string): (r: seq<HighRiskCustomer>)
    ensures |r| <= 8
    ensures forall x :: x in r ==> x in original && Passes(x, typeFilter, riskLevelFilter, NormalizedQuery(searchQuery))
  {
    var rows := FilterRows(original, typeFilter, riskLevelFilter, NormalizedQuery(searchQuery));
    Seqs.Take(rows, 8)
  }

  /** The chained filters keep exactly what one filter on all the criteria keeps, so the result is its first eight rows. */
  lemma ApplyFiltersIsFirstEightPassing(original: seq<HighRiskCustomer>, typeFilter: Option<PolicyType>, riskLevelFilter: string, searchQuery: string)
    ensures var q := NormalizedQuery(searchQuery);
      ApplyFilters(original, typeFilter, riskLevelFilter, searchQuery)
        == Seqs.Take(Seqs.Filter((x: HighRiskCustomer) => Passes(x, typeFilter, riskLevelFilter, q), original), 8)
  {
    var q := NormalizedQuery(searchQuery);
    var all := (x: HighRiskCustomer) => Passes(x, typeFilter, riskLevelFilter, q);
    var tl := (x: HighRiskCustomer) => ByType(typeFilter)(x) && ByLevel(riskLevelFilter)(x);
    Seqs.FilterFilter(ByType(typeFilter), ByLevel(riskLevelFilter), tl, original);
    Seqs.FilterFilter(tl, ByQuery(q), all, original);
    var a := Seqs.Filter(ByType(typeFilter), original);
    if typeFilter.None? {
      Seqs.FilterKeepsAll(ByType(typeFilter), original);
    }
    var b := Seqs.Filter(ByLevel(riskLevelFilter), a);
    if riskLevelFilter != "High" {
      Seqs.FilterKeepsAll(ByLevel(riskLevelFilter), a);
    }
    if q == "" {
      Seqs.FilterKeepsAll(ByQuery(q), b);
    }
  }

  /** A search of white space only filters nothing. */
  lemma BlankQueryFiltersNothing(original: seq<HighRiskCustomer>, typeFilter: Option<PolicyType>, riskLevelFilter: string, searchQuery: string)
    requires forall i :: 0 <= i < |searchQuery| ==> Text.IsSpace(searchQuery[i])
    ensures ApplyFilters(original, typeFilter, riskLevelFilter, searchQuery) == ApplyFilters(original, typeFilter, riskLevelFilter, "")
  {
    Text.TrimAllSpace(searchQuery);
    Text.TrimAllSpace("");
  }
}
