/**
 * The `Campaigns` store: an in-memory list of retention campaigns, newest
 * first, with draft and launch (insert at the head), update and delete by id,
 * and `C-NNN` id generation. Each operation is a function from the old list
 * to the new one; the clock's ISO text `now` and the date conversion `toIso`
 * are parameters.
 */
module Campaigns {
  import opened Wrappers
  import Text
  import Seqs

  datatype Status = Active | Scheduled | Completed

  /**
   * A campaign. Of the optional extras only `segmentSize` is kept; the
   * conversion and ROI figures feed floating-point averages only.
   */
  datatype Campaign = Campaign(
    id: string, name: string, target: string, discount: string,
    startDate: Option<string>, endDate: Option<string>, status: Status,
    createdAt: string, modifiedAt: string, segmentSize: Option<int>)

  /** The form value `createFromForm` reads; `None` is a nullish field. */
  datatype FormValue = FormValue(
    name: string, targetSegment: string, offerDetails: Option<string>,
    discount: Option<string>, startDate: string, endDate: string)

  /**
   * A `Partial<Campaign>` of the fields the editor sends. `None` is a key the
   * object does not have; a present date key may hold `undefined`, written
   * `Some(None)`, which the spread copies over the old value.
   */
  datatype Changes = Changes(
    name: Option<string>, target: Option<string>, discount: Option<string>,
    startDate: Option<Option<string>>, endDate: Option<Option<string>>, status: Option<Status>)

  const DefaultDiscount: string := "10% Discount on Renewal"

  /** The segment catalog, in the order the editor offers it. */
  const Segments: seq<string> := [
    "High Risk, High Value", "High Risk, Mixed Value", "Medium Risk, High Value",
    "Medium Risk, Medium Value", "Low Risk, High Value"
  ]

  /** The five campaigns the store starts with. */
  const Seed: seq<Campaign> := [
    Campaign("C-001", "Win-back 2025 Initiative", "High Risk, High Value", DefaultDiscount, None, None, Active,
             "2025-06-05T00:00:00.000Z", "2025-06-05T00:00:00.000Z", Some(1250)),
    Campaign("C-002", "October Retention Push", "Medium Risk, Medium Value", DefaultDiscount, None, None, Active,
             "2025-10-01T00:00:00.000Z", "2025-10-01T00:00:00.000Z", Some(840)),
    Campaign("C-003", "Loyalty Rewards Alpha", "Low Risk, High Value", DefaultDiscount, None, None, Scheduled,
             "2025-11-15T00:00:00.000Z", "2025-11-15T00:00:00.000Z", None),
    Campaign("C-004", "Summer Saver Promo", "High Risk, Mixed Value", DefaultDiscount, None, None, Completed,
             "2025-07-10T00:00:00.000Z", "2025-08-31T00:00:00.000Z", Some(5400)),
    Campaign("C-005", "Q3 Early Renewal", "Medium Risk, High Value", DefaultDiscount, None, None, Completed,
             "2025-09-01T00:00:00.000Z", "2025-09-20T00:00:00.000Z", Some(1100))
  ]

  // ---------- Id generation ----------

  /** How many non-digits `id` starts with. */
  function NonDigitPrefix(id: string): (n: nat)
    ensures n <= |id|
    ensures forall k :: 0 <= k < n ==> !Text.IsDigit(id[k])
    ensures n < |id| ==> Text.IsDigit(id[n])
  {
    if |id| > 0 && !Text.IsDigit(id[0]) then 1 + NonDigitPrefix(id[1..]) else 0
  }

  /** `id.replace(/^\D+/, '')`: the id without the run of non-digits it starts with. */
  function StripNonDigitPrefix(id: string): (r: string)
    ensures r == id[NonDigitPrefix(id)..]
    ensures |r| > 0 ==> Text.IsDigit(r[0])
  {
    id[NonDigitPrefix(id)..]
  }

  /** A prefix of non-digits in front of a string that starts with a digit is exactly what is stripped. */
  lemma {:induction false} StripPrefixOf(p: string, d: string)
    requires forall k :: 0 <= k < |p| ==> !Text.IsDigit(p[k])
    requires |d| > 0 && Text.IsDigit(d[0])
    ensures NonDigitPrefix(p + d) == |p|
    ensures StripNonDigitPrefix(p + d) == d
    decreases |p|
  {
    if |p| > 0 {
      assert (p + d)[1..] == p[1..] + d;
      StripPrefixOf(p[1..], d);
    } else {
      assert p + d == d;
    }
  }

  /** A real with no fractional part. */
  predicate IsWhole(v: real) {
    v == v.Floor as real
  }

  /**
   * The number an id contributes to `nextId`: `Number` of its digits part
   * when that is a whole number, `None` when it is `NaN`. The part is empty or
   * starts with a digit, so the number is never negative.
   */
  function IdNumber(id: string): (r: Option<nat>)
    ensures r.Some? <==> Text.ParseNumber(StripNonDigitPrefix(id)).Some? && IsWhole(Text.ParseNumber(StripNonDigitPrefix(id)).value)
    ensures r.Some? ==> Text.ParseNumber(StripNonDigitPrefix(id)) == Some(r.value as real)
  {
    var d := StripNonDigitPrefix(id);
    match Text.ParseNumber(d)
    case None => None
    case Some(v) =>
      assert |d| > 0 ==> !Text.IsSpace(d[0]);
      if IsWhole(v) then Some(v.Floor) else None
  }

  lemma PaddedStartsWithDigit(n: nat)
    ensures var digits := Text.PadZeros(Text.Decimal(n), 3); |digits| > 0 && Text.IsDigit(digits[0])
  {
    Text.PadZerosValue(Text.Decimal(n), 3);
  }

  lemma StripCPrefix(digits: string)
    requires |digits| > 0 && Text.IsDigit(digits[0])
    ensures StripNonDigitPrefix("C-" + digits) == digits
  {
    assert !Text.IsDigit('C') && !Text.IsDigit('-');
    StripPrefixOf("C-", digits);
  }

  /** `C-` followed by the zero-padded decimal digits of `n` reads back as `n`. */
  lemma IdNumberOfPadded(n: nat)
    ensures IdNumber("C-" + Text.PadZeros(Text.Decimal(n), 3)) == Some(n)
  {
    var digits := Text.PadZeros(Text.Decimal(n), 3);
    PaddedStartsWithDigit(n);
    StripCPrefix(digits);
    Text.ParsePaddedDecimal(n, 3);
  }

  /** The finite numbers of the ids, in list order. */
  function IdNumbers(cs: seq<Campaign>): (r: seq<nat>)
    ensures forall i :: 0 <= i < |cs| && IdNumber(cs[i].id).Some? ==> IdNumber(cs[i].id).value in r
  {
    if |cs| == 0 then []
    else
      var rest := IdNumbers(cs[1..]);
      assert forall i :: 1 <= i < |cs| ==> cs[i] == cs[1..][i - 1];
      match IdNumber(cs[0].id)
      case None => rest
      case Some(n) => [n] + rest
  }

  /** Every number in the list is the number of some campaign's id. */
  lemma {:induction false} IdNumbersFromIds(cs: seq<Campaign>)
    ensures forall x :: x in IdNumbers(cs) ==> exists i :: 0 <= i < |cs| && IdNumber(cs[i].id) == Some(x)
    decreases |cs|
  {
    if |cs| > 0 {
      IdNumbersFromIds(cs[1..]);
      forall x | x in IdNumbers(cs)
        ensures exists i :: 0 <= i < |cs| && IdNumber(cs[i].id) == Some(x)
      {
        if IdNumber(cs[0].id) != Some(x) {
          assert x in IdNumbers(cs[1..]);
          var i :| 0 <= i < |cs[1..]| && IdNumber(cs[1..][i].id) == Some(x);
          assert cs[i + 1] == cs[1..][i];
        }
      }
    }
  }

  /** `Math.max(...nums)` of a non-empty list. */
  function Max(s: seq<nat>): (m: nat)
    requires |s| > 0
    ensures m in s
    ensures forall x :: x in s ==> x <= m
  {
    if |s| == 1 then s[0]
    else
      var rest := Max(s[1..]);
      assert forall x :: x in s ==> x == s[0] || x in s[1..];
      if s[0] >= rest then s[0] else rest
  }

  /**
   * The number of the next id: one more than the largest parsed number, or 1
   * when no id parses.
   */
  function NextNumber(cs: seq<Campaign>): (n: nat)
    ensures n >= 1
    ensures forall x :: x in IdNumbers(cs) ==> x < n
    ensures |IdNumbers(cs)| == 0 ==> n == 1
    ensures |IdNumbers(cs)| > 0 ==> n - 1 in IdNumbers(cs)
  {
    var nums := IdNumbers(cs);
    if |nums| > 0 then
      Max(nums) + 1
    else 1
  }

  /** The next number is above the number of every campaign's id. */
  lemma NextNumberAboveIds(cs: seq<Campaign>)
    ensures forall i :: 0 <= i < |cs| && IdNumber(cs[i].id).Some? ==> IdNumber(cs[i].id).value < NextNumber(cs)
  {
  }

  /** `nextId`: `C-` and the next number padded to three digits; no campaign has it yet. */
  function NextId(cs: seq<Campaign>): (r: string)
    ensures |r| >= 5 && r[..2] == "C-" && forall k :: 2 <= k < |r| ==> Text.IsDigit(r[k])
    ensures IdNumber(r) == Some(NextNumber(cs))
    ensures forall i :: 0 <= i < |cs| ==> cs[i].id != r
  {
    IdNumberOfPadded(NextNumber(cs));
    NextNumberAboveIds(cs);
    Text.PadZerosValue(Text.Decimal(NextNumber(cs)), 3);
    "C-" + Text.PadZeros(Text.Decimal(NextNumber(cs)), 3)
  }

  // ---------- Store operations ----------

  /** `createFromForm`: a fresh id, the form's fields, the discount fallbacks and equal timestamps. */
  function CreateFromForm(cs: seq<Campaign>, f: FormValue, status: Status, now: string, toIso: string -> string): (r: Campaign)
    ensures forall i :: 0 <= i < |cs| ==> cs[i].id != r.id
    ensures r.status == status && r.createdAt == r.modifiedAt == now
    ensures r.discount == (if f.offerDetails.Some? then f.offerDetails.value
                           else if f.discount.Some? then f.discount.value else DefaultDiscount)
    ensures r.id == NextId(cs) && r.name == f.name && r.target == f.targetSegment && r.segmentSize == Some(0)
    ensures r.startDate == if f.startDate != "" then Some(toIso(f.startDate)) else None
    ensures r.endDate == if f.endDate != "" then Some(toIso(f.endDate)) else None
  {
    Campaign(
      NextId(cs), f.name, f.targetSegment,
      f.offerDetails.GetOr(f.discount.GetOr(DefaultDiscount)),
      if f.startDate != "" then Some(toIso(f.startDate)) else None,
      if f.endDate != "" then Some(toIso(f.endDate)) else None,
      status, now, now, Some(0))
  }

  /** `insertTop`. */
  function InsertTop(cs: seq<Campaign>, c: Campaign): (r: seq<Campaign>)
    ensures |r| == |cs| + 1 && r[0] == c && r[1..] == cs
  {
    [c] + cs
  }

  /** `createDraft`: one new SCHEDULED campaign at the head. */
  function CreateDraft(cs: seq<Campaign>, f: FormValue, now: string, toIso: string -> string): (r: seq<Campaign>)
    ensures |r| == |cs| + 1 && r[1..] == cs
    ensures r[0].status == Scheduled && r[0].id == NextId(cs)
  {
    InsertTop(cs, CreateFromForm(cs, f, Scheduled, now, toIso))
  }

  /** `launch`: one new ACTIVE campaign at the head. */
  function Launch(cs: seq<Campaign>, f: FormValue, now: string, toIso: string -> string): (r: seq<Campaign>)
    ensures |r| == |cs| + 1 && r[1..] == cs
    ensures r[0].status == Active && r[0].id == NextId(cs)
  {
    InsertTop(cs, CreateFromForm(cs, f, Active, now, toIso))
  }

  /** `{ ...c, ...changes, modified_at: now }`. */
  function Overlay(c: Campaign, ch: Changes, now: string): (r: Campaign)
    ensures r.id == c.id && r.createdAt == c.createdAt && r.segmentSize == c.segmentSize
    ensures r.modifiedAt == now
    ensures ch.name.None? ==> r.name == c.name
    ensures ch.status.None? ==> r.status == c.status
    ensures ch.name.Some? ==> r.name == ch.name.value
    ensures ch.target.Some? ==> r.target == ch.target.value
    ensures ch.discount.Some? ==> r.discount == ch.discount.value
    ensures ch.startDate.Some? ==> r.startDate == ch.startDate.value
    ensures ch.endDate.Some? ==> r.endDate == ch.endDate.value
    ensures ch.status.Some? ==> r.status == ch.status.value
  {
    c.(name := ch.name.GetOr(c.name),
       target := ch.target.GetOr(c.target),
       discount := ch.discount.GetOr(c.discount),
       startDate := ch.startDate.GetOr(c.startDate),
       endDate := ch.endDate.GetOr(c.endDate),
       status := ch.status.GetOr(c.status),
       modifiedAt := now)
  }

  /** `update`: the campaigns with that id take the changes; every other one is untouched. */
  function Update(cs: seq<Campaign>, id: string, ch: Changes, now: string): (r: seq<Campaign>)
    ensures |r| == |cs|
    ensures forall i :: 0 <= i < |cs| ==> r[i].id == cs[i].id
    ensures forall i :: 0 <= i < |cs| && cs[i].id != id ==> r[i] == cs[i]
    ensures forall i :: 0 <= i < |cs| && cs[i].id == id ==> r[i] == Overlay(cs[i], ch, now)
  {
    Seqs.Map((c: Campaign) => if c.id == id then Overlay(c, ch, now) else c, cs)
  }

  /** An id that no campaign has changes nothing. */
  lemma UpdateUnknownId(cs: seq<Campaign>, id: string, ch: Changes, now: string)
    requires forall c :: c in cs ==> c.id != id
    ensures Update(cs, id, ch, now) == cs
  {
  }

  /** Repeating an update with the same changes and clock changes nothing more. */
  lemma UpdateIdempotent(cs: seq<Campaign>, id: string, ch: Changes, now: string)
    ensures Update(Update(cs, id, ch, now), id, ch, now) == Update(cs, id, ch, now)
  {
  }

  function HasId(id: string): Campaign -> bool {
    (c: Campaign) => c.id == id
  }

  function LacksId(id: string): Campaign -> bool {
    (c: Campaign) => c.id != id
  }

  /** `delete`: exactly the campaigns with that id go; the rest keep their order. */
  function Delete(cs: seq<Campaign>, id: string): (r: seq<Campaign>)
    ensures forall c :: c in r <==> c in cs && c.id != id
    ensures Seqs.IsSubseq(r, cs)
    ensures |r| + |Seqs.Filter(HasId(id), cs)| == |cs|
  {
    Seqs.FilterPartition2(LacksId(id), HasId(id), cs);
    Seqs.Filter(LacksId(id), cs)
  }

  /** Deleting the campaign a draft just created gives back the list before it, since its id was fresh. */
  lemma DeleteUndoesCreate(cs: seq<Campaign>, f: FormValue, now: string, toIso: string -> string)
    ensures Delete(CreateDraft(cs, f, now, toIso), NextId(cs)) == cs
    ensures Delete(Launch(cs, f, now, toIso), NextId(cs)) == cs
  {
    var id := NextId(cs);
    Seqs.FilterKeepsAll(LacksId(id), cs);
    assert CreateDraft(cs, f, now, toIso) == [CreateDraft(cs, f, now, toIso)[0]] + cs;
    assert Launch(cs, f, now, toIso) == [Launch(cs, f, now, toIso)[0]] + cs;
  }

  predicate IsActive(c: Campaign) {
    c.status == Active
  }

  /** The number of ACTIVE campaigns. */
  function ActiveCount(cs: seq<Campaign>): (n: nat)
    ensures n == Seqs.Count(IsActive, cs)
    ensures n == 0 <==> forall c :: c in cs ==> !IsActive(c)
  {
    var active := Seqs.Filter(IsActive, cs);
    Seqs.FilterCount(IsActive, cs);
    assert |active| > 0 ==> active[0] in active;
    |active|
  }

  /** A launch adds one active campaign and a draft none. */
  lemma ActiveCountAfterCreate(cs: seq<Campaign>, f: FormValue, now: string, toIso: string -> string)
    ensures ActiveCount(Launch(cs, f, now, toIso)) == ActiveCount(cs) + 1
    ensures ActiveCount(CreateDraft(cs, f, now, toIso)) == ActiveCount(cs)
  {
    var l := Launch(cs, f, now, toIso);
    var d := CreateDraft(cs, f, now, toIso);
    assert l == [l[0]] + cs;
    assert d == [d[0]] + cs;
    Seqs.FilterAppend(IsActive, [l[0]], cs);
    Seqs.FilterAppend(IsActive, [d[0]], cs);
  }
}
