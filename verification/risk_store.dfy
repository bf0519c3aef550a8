/**
 * `AdminRiskData`: the store of per-policy risk records behind the risk
 * page, with a follow-up flag that can be toggled and a filter by risk level.
 */
module RiskStore {
  import opened Wrappers
  import opened Kinds
  import Seqs

  datatype RenewalStatus = Pending | Renewed | Expired

  datatype RiskRecord = RiskRecord(
    customerId: string, customerName: string, policyId: string, policyType: PolicyType,
    riskScore: int, riskLevel: RiskLevel, renewalProbability: int, renewalDate: string,
    renewalStatus: RenewalStatus, flagged: bool)

  /** The records the store starts with; `CUST-2003` occurs twice, at indices 2 and 12. */
  const Seed: seq<RiskRecord> := [
    RiskRecord("CUST-2001", "Anita Sharma", "POL-70011", Motor, 82, High, 38, "2026-01-09", Pending, true),
    RiskRecord("CUST-2002", "Rahul Verma", "POL-70012", Health, 66, Medium, 58, "2026-01-12", Pending, false),
    RiskRecord("CUST-2003", "Neha Gupta", "POL-70013", Motor, 91, High, 24, "2026-01-06", Pending, false),
    RiskRecord("CUST-2004", "Suresh Patil", "POL-70014", Health, 47, Low, 72, "2026-02-01", Renewed, false),
    RiskRecord("CUST-2005", "Priya Iyer", "POL-70015", Motor, 70, Medium, 55, "2026-01-20", Pending, true),
    RiskRecord("CUST-2006", "Arjun Mehta", "POL-70016", Health, 35, Low, 80, "2026-03-03", Renewed, false),
    RiskRecord("CUST-2007", "Meera Nair", "POL-70017", Motor, 88, High, 32, "2026-01-07", Pending, false),
    RiskRecord("CUST-2008", "Vikram Singh", "POL-70018", Health, 62, Medium, 60, "2026-02-15", Pending, false),
    RiskRecord("CUST-2009", "Kavita Rao", "POL-70019", Motor, 29, Low, 85, "2026-04-10", Renewed, false),
    RiskRecord("CUST-2010", "Rohan Kulkarni", "POL-70020", Health, 76, Medium, 50, "2026-01-25", Pending, false),
    RiskRecord("CUST-2011", "Divya Menon", "POL-70021", Motor, 95, High, 20, "2026-01-05", Expired, true),
    RiskRecord("CUST-2012", "Sanjay Kumar", "POL-70022", Health, 40, Low, 78, "2026-02-22", Pending, false),
    RiskRecord("CUST-2003", "Logesh", "POL-70013", Motor, 52, Low, 36, "2026-04-09", Pending, true)
  ]

  /** `getAllRisks`: a copy of the records, equal to them. */
  function GetAllRisks(store: seq<RiskRecord>): (r: seq<RiskRecord>)
    ensures |r| == |store| && forall i :: 0 <= i < |r| ==> r[i] == store[i]
  {
    store[..]
  }

  function HasCustomer(id: string): RiskRecord -> bool {
    (r: RiskRecord) => r.customerId == id
  }

  /** `i` is the first index holding a record of that customer. */
  predicate IsFirstOf(store: seq<RiskRecord>, customerId: string, i: int) {
    0 <= i < |store| && store[i].customerId == customerId
    && forall j :: 0 <= j < i ==> store[j].customerId != customerId
  }

  /**
   * `toggleFlag`: flips `flagged` on the first record of that customer only;
   * an unknown id changes nothing.
   */
  function ToggleFlag(store: seq<RiskRecord>, customerId: string): (r: seq<RiskRecord>)
    ensures |r| == |store|
    ensures forall i :: 0 <= i < |store| ==> r[i] == store[i] || (r[i] == store[i].(flagged := !store[i].flagged) && store[i].customerId == customerId)
    ensures (forall i :: 0 <= i < |store| ==> store[i].customerId != customerId) ==> r == store
    ensures forall i :: IsFirstOf(store, customerId, i) ==> r == store[i := store[i].(flagged := !store[i].flagged)]
  {
    match Seqs.FindIndex(HasCustomer(customerId), store)
    case None => store
    case Some(idx) => store[idx := store[idx].(flagged := !store[idx].flagged)]
  }

  /** Toggling the same customer twice restores the store. */
  lemma ToggleFlagTwice(store: seq<RiskRecord>, customerId: string)
    ensures ToggleFlag(ToggleFlag(store, customerId), customerId) == store
  {
    var once := ToggleFlag(store, customerId);
    match Seqs.FindIndex(HasCustomer(customerId), store)
    case None =>
    case Some(idx) =>
      assert forall j :: 0 <= j < |store| ==> once[j].customerId == store[j].customerId;
      assert Seqs.FindIndex(HasCustomer(customerId), once) == Some(idx);
  }

  /** On the seed, toggling `CUST-2003` flips the record at index 2 and leaves the later duplicate alone. */
  lemma SeedToggleFirstDuplicateOnly()
    ensures ToggleFlag(Seed, "CUST-2003")[2].flagged == !Seed[2].flagged
    ensures ToggleFlag(Seed, "CUST-2003")[12] == Seed[12]
  {
    assert Seed[2].customerId == "CUST-2003";
  }

  function AtLevel(level: RiskLevel): RiskRecord -> bool {
    (r: RiskRecord) => r.riskLevel == level
  }

  /** `filterByRiskLevel`: exactly the records at that level, in store order. */
  function FilterByRiskLevel(store: seq<RiskRecord>, level: RiskLevel): (r: seq<RiskRecord>)
    ensures forall x :: x in r <==> x in store && x.riskLevel == level
    ensures forall x :: multiset(r)[x] == if x.riskLevel == level then multiset(store)[x] else 0
    ensures Seqs.IsSubseq(r, store)
  {
    Seqs.FilterMultiplicity(AtLevel(level), store);
    Seqs.Filter(AtLevel(level), store)
  }

  /** The three level filters split the store. */
  lemma LevelsPartitionStore(store: seq<RiskRecord>)
    ensures |FilterByRiskLevel(store, High)| + |FilterByRiskLevel(store, Medium)| + |FilterByRiskLevel(store, Low)| == |store|
  {
    Seqs.FilterPartition3(AtLevel(High), AtLevel(Medium), AtLevel(Low), store);
  }
}
