/**
 * `AdminPolicyData`: the catalogue of insurance products behind the policy
 * list, each of type Motor or Health, with the whole list and the two
 * per-type views.
 */
module PolicyStore {
  import opened Kinds
  import Seqs

  datatype PolicyStatus = Active | Inactive

  datatype Policy = Policy(
    policyId: string, policyName: string, policyType: PolicyType, policyCategory: string,
    coverageAmount: int, premiumAmount: int, durationYears: int, description: string,
    status: PolicyStatus, createdDate: string)

  /** `getAllPolicies`: a copy of the catalogue, equal to it. */
  function GetAllPolicies(store: seq<Policy>): (r: seq<Policy>)
    ensures |r| == |store| && forall i :: 0 <= i < |r| ==> r[i] == store[i]
  {
    store[..]
  }

  function OfType(t: PolicyType): Policy -> bool {
    (p: Policy) => p.policyType == t
  }

  /** `getMotorPolicies`: exactly the Motor products, in catalogue order. */
  function GetMotorPolicies(store: seq<Policy>): (r: seq<Policy>)
    ensures forall p :: p in r <==> p in store && p.policyType == Motor
    ensures Seqs.IsSubseq(r, store)
  {
    Seqs.Filter(OfType(Motor), store)
  }

  /** `getHealthPolicies`: exactly the Health products, in catalogue order. */
  function GetHealthPolicies(store: seq<Policy>): (r: seq<Policy>)
    ensures forall p :: p in r <==> p in store && p.policyType == Health
    ensures Seqs.IsSubseq(r, store)
  {
    Seqs.Filter(OfType(Health), store)
  }

  /** Every product is Motor or Health, so the two views together are as long as the catalogue. */
  lemma TypesPartitionCatalogue(store: seq<Policy>)
    ensures |GetMotorPolicies(store)| + |GetHealthPolicies(store)| == |GetAllPolicies(store)|
  {
    Seqs.FilterPartition2(OfType(Motor), OfType(Health), store);
  }
}
