/**
 * The policy list page: which catalogue view it shows (an input, else the
 * route's data), its heading, a case-insensitive name search and the newest
 * products first. Creation dates reach the model through `timeOf`, the
 * millisecond value `new Date(...).getTime()` gives them.
 */
module PolicyList {
  import opened Wrappers
  import Kinds
  import opened PolicyStore
  import Seqs
  import Text

  /** `PolicyRouteType`. */
  datatype RouteType = All | Motor | Health

  /** The page state; `policyType` is the `@Input`, absent when not bound. */
  datatype Page = Page(policyType: Option<RouteType>, heading: string, searchTerm: string,
                       allPolicies: seq<Policy>, displayedPolicies: seq<Policy>)

  /** The view in force: a bound input wins over the route's data. */
  function ResolveType(input: Option<RouteType>, fromRoute: Option<RouteType>): (r: Option<RouteType>)
    ensures input.Some? ==> r == input
    ensures input.None? ==> r == fromRoute
  {
    if input.None? && fromRoute.Some? then fromRoute else input
  }

  /** `loadPolicies`: the heading and the catalogue view for the type, `All` when none is set. */
  function LoadPolicies(store: seq<Policy>, policyType: Option<RouteType>): (r: (string, seq<Policy>))
    ensures policyType == Some(Motor) ==> r == ("Motor Policies", GetMotorPolicies(store))
    ensures policyType == Some(Health) ==> r == ("Health Policies", GetHealthPolicies(store))
    ensures policyType.None? || policyType == Some(All) ==> r.0 == "All Policies" && r.1 == store
  {
    match policyType.GetOr(All)
    case Motor => ("Motor Policies", GetMotorPolicies(store))
    case Health => ("Health Policies", GetHealthPolicies(store))
    case All => ("All Policies", GetAllPolicies(store))
  }

  /** The search term as compared: trimmed and lower-cased. */
  function NormalizedTerm(searchTerm: string): string {
    Text.ToLower(Text.Trim(searchTerm))
  }

  /** The product passes the search: a blank term passes everything, else its lower-cased name contains the term. */
  predicate PassesSearch(p: Policy, searchTerm: string) {
    var term := NormalizedTerm(searchTerm);
    |term| == 0 || Text.Includes(Text.ToLower(p.policyName), term)
  }

  /** The comparator `(a, b) => time(b) - time(a)`, as "a may precede b": newest first. */
  function NewestFirst(timeOf: string -> int): (Policy, Policy) -> bool {
    (a: Policy, b: Policy) => timeOf(b.createdDate) - timeOf(a.createdDate) <= 0
  }

  lemma NewestFirstIsPreorder(timeOf: string -> int)
    ensures Seqs.TotalPreorder(NewestFirst(timeOf))
  {
  }

  /** The loaded products that pass the search, in loaded order. */
  function Searched(all: seq<Policy>, searchTerm: string): (r: seq<Policy>)
    ensures forall p :: p in r <==> p in all && PassesSearch(p, searchTerm)
    ensures forall p :: multiset(r)[p] == if PassesSearch(p, searchTerm) then multiset(all)[p] else 0
    ensures |NormalizedTerm(searchTerm)| == 0 ==> r == all
  {
    var term := NormalizedTerm(searchTerm);
    if |term| > 0 then
      Seqs.FilterMultiplicity(NameIncludes(term), all);
      Seqs.Filter(NameIncludes(term), all)
    else all
  }

  function NameIncludes(term: string): Policy -> bool {
    (p: Policy) => Text.Includes(Text.ToLower(p.policyName), term)
  }

  /**
   * `applyFilters`: the searched products, newest first. The sort works on a
   * copy, so the loaded list itself is not reordered.
   */
  function ApplyFilters(all: seq<Policy>, searchTerm: string, timeOf: string -> int): (r: seq<Policy>)
    ensures multiset(r) == multiset(Searched(all, searchTerm))
    ensures forall i, j :: 0 <= i < j < |r| ==> timeOf(r[i].createdDate) >= timeOf(r[j].createdDate)
  {
    NewestFirstIsPreorder(timeOf);
    Seqs.Sort(NewestFirst(timeOf), Searched(all, searchTerm))
  }

  /** What the page shows: exactly the loaded products passing the search, and all of them for a blank term. */
  lemma DisplayedRows(all: seq<Policy>, searchTerm: string, timeOf: string -> int)
    ensures forall p :: p in ApplyFilters(all, searchTerm, timeOf) <==> p in all && PassesSearch(p, searchTerm)
    ensures |NormalizedTerm(searchTerm)| == 0 ==> multiset(ApplyFilters(all, searchTerm, timeOf)) == multiset(all)
  {
    var r := ApplyFilters(all, searchTerm, timeOf);
    forall p
      ensures p in r <==> p in Searched(all, searchTerm)
    {
      assert p in r <==> p in multiset(r);
      assert p in Searched(all, searchTerm) <==> p in multiset(Searched(all, searchTerm));
    }
  }

  /**
   * The route-data subscription of `ngOnInit`: settles the type, then loads
   * and filters. The search term and an already bound input survive.
   */
  function OnRouteData(page: Page, store: seq<Policy>, fromRoute: Option<RouteType>, timeOf: string -> int): (r: Page)
    ensures r.policyType == ResolveType(page.policyType, fromRoute)
    ensures page.policyType.Some? ==> r.policyType == page.policyType
    ensures (r.heading, r.allPolicies) == LoadPolicies(store, r.policyType)
    ensures r.searchTerm == page.searchTerm
    ensures multiset(r.displayedPolicies) == multiset(Searched(r.allPolicies, r.searchTerm))
    ensures forall i, j :: 0 <= i < j < |r.displayedPolicies| ==>
      timeOf(r.displayedPolicies[i].createdDate) >= timeOf(r.displayedPolicies[j].createdDate)
    ensures r.displayedPolicies == ApplyFilters(r.allPolicies, r.searchTerm, timeOf)
  {
    var t := ResolveType(page.policyType, fromRoute);
    var (heading, all) := LoadPolicies(store, t);
    Page(t, heading, page.searchTerm, all, ApplyFilters(all, page.searchTerm, timeOf))
  }

  /** `currentRoutePath`: the route of the view in force, `All` when none is set. */
  function CurrentRoutePath(policyType: Option<RouteType>): (r: string)
    ensures policyType == Some(Motor) ==> r == "/admin/policies/motor"
    ensures policyType == Some(Health) ==> r == "/admin/policies/health"
    ensures policyType.None? || policyType == Some(All) ==> r == "/admin/policies/all"
  {
    var t := policyType.GetOr(All);
    if t == Motor then "/admin/policies/motor"
    else if t == Health then "/admin/policies/health"
    else "/admin/policies/all"
  }

  /** The route path and the heading always name the same view. */
  lemma RouteMatchesHeading(store: seq<Policy>, policyType: Option<RouteType>)
    ensures LoadPolicies(store, policyType).0 == "Motor Policies" <==> CurrentRoutePath(policyType) == "/admin/policies/motor"
    ensures LoadPolicies(store, policyType).0 == "Health Policies" <==> CurrentRoutePath(policyType) == "/admin/policies/health"
    ensures LoadPolicies(store, policyType).0 == "All Policies" <==> CurrentRoutePath(policyType) == "/admin/policies/all"
  {
  }
}
