/**
 * The risk page: summary counts per risk level, a level filter and a
 * policy-type filter (each `All` or one value), and the table order, High
 * before Medium before Low and higher scores first within a level.
 */
module RiskView {
  import opened Wrappers
  import opened Kinds
  import opened RiskStore
  import Seqs
  import Text

  datatype Summary = Summary(totalHigh: nat, totalMedium: nat, totalLow: nat)

  /** The page state; a filter of `None` is `All`. */
  datatype View = View(
    allRisks: seq<RiskRecord>, filteredRisks: seq<RiskRecord>, summary: Summary,
    levelFilter: Option<RiskLevel>, typeFilter: Option<PolicyType>)

  /** `computeSummary`: how many records sit at each level. */
  function ComputeSummary(all: seq<RiskRecord>): (r: Summary)
    ensures r == Summary(Seqs.Count(AtLevel(High), all), Seqs.Count(AtLevel(Medium), all), Seqs.Count(AtLevel(Low), all))
    ensures r.totalHigh + r.totalMedium + r.totalLow == |all|
  {
    LevelsPartitionStore(all);
    Seqs.FilterCount(AtLevel(High), all);
    Seqs.FilterCount(AtLevel(Medium), all);
    Seqs.FilterCount(AtLevel(Low), all);
    Summary(|FilterByRiskLevel(all, High)|, |FilterByRiskLevel(all, Medium)|, |FilterByRiskLevel(all, Low)|)
  }

  function Rank(level: RiskLevel): int {
    match level
    case High => 3
    case Medium => 2
    case Low => 1
  }

  /** The page's comparator: the rank difference, else the score difference, both taken `b` minus `a`. */
  function Compare(a: RiskRecord, b: RiskRecord): int {
    var levelDiff := Rank(b.riskLevel) - Rank(a.riskLevel);
    if levelDiff != 0 then levelDiff else b.riskScore - a.riskScore
  }

  /** `a` may stay in front of `b`: the comparator does not ask to swap them. */
  function TableOrder(): (RiskRecord, RiskRecord) -> bool {
    (a: RiskRecord, b: RiskRecord) => Compare(a, b) <= 0
  }

  /** The comparator is consistent: total and transitive. */
  lemma TableOrderIsPreorder()
    ensures Seqs.TotalPreorder(TableOrder())
  {
    var le := TableOrder();
    forall a, b, c | le(a, b) && le(b, c)
      ensures le(a, c)
    {
    }
  }

  /** A row passes a filter that is `All` or equals its value. */
  predicate Passes(x: RiskRecord, levelFilter: Option<RiskLevel>, typeFilter: Option<PolicyType>) {
    && (levelFilter.None? || x.riskLevel == levelFilter.value)
    && (typeFilter.None? || x.policyType == typeFilter.value)
  }

  /** The rows that pass the level filter and then the type filter, in store order. */
  function Filtered(all: seq<RiskRecord>, levelFilter: Option<RiskLevel>, typeFilter: Option<PolicyType>): (r: seq<RiskRecord>)
    ensures forall x :: x in r <==> x in all && Passes(x, levelFilter, typeFilter)
    ensures forall x :: multiset(r)[x] == if Passes(x, levelFilter, typeFilter) then multiset(all)[x] else 0
    ensures levelFilter.None? && typeFilter.None? ==> r == all
  {
    var byLevel := if levelFilter.Some? then FilterByRiskLevel(all, levelFilter.value) else all;
    if typeFilter.Some? then
      Seqs.FilterMultiplicity(OfPolicyType(typeFilter.value), byLevel);
      Seqs.Filter(OfPolicyType(typeFilter.value), byLevel)
    else byLevel
  }

  function OfPolicyType(t: PolicyType): RiskRecord -> bool {
    (x: RiskRecord) => x.policyType == t
  }

  /** The table order: higher rank first, then higher score. */
  ghost predicate InTableOrder(rows: seq<RiskRecord>) {
    forall i, j :: 0 <= i < j < |rows| ==>
      Rank(rows[i].riskLevel) > Rank(rows[j].riskLevel)
      || (rows[i].riskLevel == rows[j].riskLevel && rows[i].riskScore >= rows[j].riskScore)
  }

  lemma SortedIsTableOrder(rows: seq<RiskRecord>)
    requires Seqs.SortedBy(TableOrder(), rows)
    ensures InTableOrder(rows)
  {
    forall i, j | 0 <= i < j < |rows|
      ensures Rank(rows[i].riskLevel) > Rank(rows[j].riskLevel)
        || (rows[i].riskLevel == rows[j].riskLevel && rows[i].riskScore >= rows[j].riskScore)
    {
      assert TableOrder()(rows[i], rows[j]);
    }
  }

  /**
   * `applyFilters`: the filtered rows, High before Medium before Low and by
   * descending score within a level; rows that tie keep their store order.
   */
  function ApplyFilters(all: seq<RiskRecord>, levelFilter: Option<RiskLevel>, typeFilter: Option<PolicyType>): (r: seq<RiskRecord>)
    ensures multiset(r) == multiset(Filtered(all, levelFilter, typeFilter))
    ensures InTableOrder(r)
  {
    TableOrderIsPreorder();
    var rows := Seqs.Sort(TableOrder(), Filtered(all, levelFilter, typeFilter));
    SortedIsTableOrder(rows);
    rows
  }

  /**
   * Every row shown passes both filters, every record that passes both is
   * shown, and with both filters `All` the table is a reordering of the store.
   */
  lemma ApplyFiltersRows(all: seq<RiskRecord>, levelFilter: Option<RiskLevel>, typeFilter: Option<PolicyType>)
    ensures forall x :: x in ApplyFilters(all, levelFilter, typeFilter) <==> (
      && x in all
      && (levelFilter.None? || x.riskLevel == levelFilter.value)
      && (typeFilter.None? || x.policyType == typeFilter.value))
    ensures levelFilter.None? && typeFilter.None? ==> multiset(ApplyFilters(all, levelFilter, typeFilter)) == multiset(all)
  {
    var r := ApplyFilters(all, levelFilter, typeFilter);
    var f := Filtered(all, levelFilter, typeFilter);
    assert forall x :: x in r <==> x in multiset(r);
    assert forall x :: x in f <==> x in multiset(f);
  }

  /** `riskBadgeClass`: `badge-` and the level name in lower case. */
  function RiskBadgeClass(level: RiskLevel): (r: string)
    ensures r == "badge-" + Text.ToLower(LevelName(level))
  {
    match level
    case High => "badge-high"
    case Medium => "badge-medium"
    case Low => "badge-low"
  }

  function LevelName(level: RiskLevel): string {
    match level
    case High => "High"
    case Medium => "Medium"
    case Low => "Low"
  }

  /** `loadData`: read the store, count, filter and sort. */
  function LoadData(store: seq<RiskRecord>, v: View): (r: View)
    ensures r.allRisks == store && r.summary == ComputeSummary(store)
    ensures r.filteredRisks == ApplyFilters(store, v.levelFilter, v.typeFilter)
    ensures r.levelFilter == v.levelFilter && r.typeFilter == v.typeFilter
  {
    var all := GetAllRisks(store);
    assert all == store;
    v.(allRisks := all, summary := ComputeSummary(all), filteredRisks := ApplyFilters(all, v.levelFilter, v.typeFilter))
  }

  /** `onRiskLevelChange`. */
  function OnRiskLevelChange(v: View, level: Option<RiskLevel>): (r: View)
    ensures r.levelFilter == level && r.allRisks == v.allRisks && r.summary == v.summary
    ensures r.filteredRisks == ApplyFilters(v.allRisks, level, v.typeFilter)
  {
    v.(levelFilter := level, filteredRisks := ApplyFilters(v.allRisks, level, v.typeFilter))
  }

  /** `onPolicyTypeChange`. */
  function OnPolicyTypeChange(v: View, policyType: Option<PolicyType>): (r: View)
    ensures r.typeFilter == policyType && r.allRisks == v.allRisks && r.summary == v.summary
    ensures r.filteredRisks == ApplyFilters(v.allRisks, v.levelFilter, policyType)
  {
    v.(typeFilter := policyType, filteredRisks := ApplyFilters(v.allRisks, v.levelFilter, policyType))
  }

  /** `toggleFlag` from the page: toggles in the store, then reloads. */
  function ToggleFlagFromView(store: seq<RiskRecord>, v: View, record: RiskRecord): (r: (seq<RiskRecord>, View))
    ensures r.0 == ToggleFlag(store, record.customerId)
    ensures r.1 == LoadData(r.0, v)
  {
    var after := ToggleFlag(store, record.customerId);
    (after, LoadData(after, v))
  }

  /** Toggling a flag leaves the summary counts as they were, since they read only the levels. */
  lemma ToggleKeepsSummary(store: seq<RiskRecord>, v: View, record: RiskRecord)
    ensures ToggleFlagFromView(store, v, record).1.summary == ComputeSummary(store)
  {
    var after := ToggleFlag(store, record.customerId);
    forall level: RiskLevel
      ensures |FilterByRiskLevel(after, level)| == |FilterByRiskLevel(store, level)|
    {
      Seqs.FilterLengthCongruent(AtLevel(level), after, store);
    }
  }
}
