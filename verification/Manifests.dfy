/**
 Exact totals and the frozen manifest (internal/funding/amount.go, internal/funding/manifest.go).
 */
module Manifests {
  import opened Wrappers
  import opened Funding

  datatype Totals = Totals(raw: int, payout: int) | NegativeAmount(id: nat)

  ghost function Sum(rs: seq<Record>): int {
    if rs == [] then 0 else Sum(rs[..|rs| - 1]) + rs[|rs| - 1].amount
  }

  ghost predicate NonNegative(rs: seq<Record>) {
    forall r :: r in rs ==> 0 <= r.amount
  }

  /** The least integer not below x / m. */
  function CeilDiv(x: int, m: int): int
    requires 0 < m
  {
    -((-x) / m)
  }

  /** Shift(6).Ceil().Shift(-6) at the fixed scale. */
  function RoundUp(raw: int): int {
    CeilDiv(raw, MICRO_USDC) * MICRO_USDC
  }

  /** Rounding up never pays less than the records, and overpays by less than one micro-dollar. */
  lemma RoundUpIsLeastMultiple(raw: int)
    ensures RoundUp(raw) % 1_000_000_000_000 == 0
    ensures raw <= RoundUp(raw) < raw + 1_000_000_000_000
    ensures forall k: int :: raw <= k * 1_000_000_000_000 ==> RoundUp(raw) <= k * 1_000_000_000_000
  {
    var q := CeilDiv(raw, MICRO_USDC);
    assert -raw == (-q) * MICRO_USDC + (-raw) % MICRO_USDC;
    forall k: int | raw <= k * MICRO_USDC
      ensures RoundUp(raw) <= k * MICRO_USDC
    {
      assert (q - 1) * MICRO_USDC < raw;
    }
  }

  /** CalculateTotals: the loop fails on the first negative amount and is exact otherwise. */
  method CalculateTotals(records: seq<Record>) returns (t: Totals)
    ensures t.Totals? <==> NonNegative(records)
    ensures t.Totals? ==> t.raw == Sum(records) && t.payout == RoundUp(t.raw)
    ensures t.NegativeAmount? ==>
              exists k :: 0 <= k < |records| && records[k].amount < 0 && records[k].id == t.id
                          && NonNegative(records[..k])
  {
    var total := 0;
    for i := 0 to |records|
      invariant total == Sum(records[..i])
      invariant NonNegative(records[..i])
    {
      if records[i].amount < 0 {
        assert records[i] in records;
        return NegativeAmount(records[i].id);
      }
      assert records[..i + 1][..i] == records[..i];
      total := total + records[i].amount;
    }
    assert records[..|records|] == records;
    return Totals(total, RoundUp(total));
  }

  lemma {:induction false} SumNonNegative(rs: seq<Record>)
    requires NonNegative(rs)
    ensures 0 <= Sum(rs)
    ensures Sum(rs) == 0 <==> forall r :: r in rs ==> r.amount == 0
  {
    if rs != [] {
      var last := rs[|rs| - 1];
      assert last in rs;
      SumNonNegative(rs[..|rs| - 1]);
      assert rs == rs[..|rs| - 1] + [last];
    }
  }

  /** No payment is skipped and none is invented: the payout is zero only for all-zero records. */
  lemma PayoutIsZeroIffAllZero(rs: seq<Record>)
    requires NonNegative(rs)
    ensures 0 <= RoundUp(Sum(rs))
    ensures RoundUp(Sum(rs)) == 0 <==> forall r :: r in rs ==> r.amount == 0
  {
    SumNonNegative(rs);
    RoundUpIsLeastMultiple(Sum(rs));
  }

  lemma {:induction false} SumOfConcat(a: seq<Record>, b: seq<Record>)
    ensures Sum(a + b) == Sum(a) + Sum(b)
  {
    if b == [] {
      assert a + b == a;
    } else {
      assert (a + b)[..|a + b| - 1] == a + b[..|b| - 1];
      SumOfConcat(a, b[..|b| - 1]);
    }
  }

  /** The total depends on which records are frozen and not on their order. */
  lemma {:induction false} SumIgnoresOrder(a: seq<Record>, b: seq<Record>)
    requires multiset(a) == multiset(b)
    ensures Sum(a) == Sum(b)
  {
    if a == [] {
      assert |multiset(b)| == 0;
    } else {
      var last := a[|a| - 1];
      assert a == a[..|a| - 1] + [last];
      assert last in multiset(b);
      var k :| 0 <= k < |b| && b[k] == last;
      assert b == b[..k] + [last] + b[k + 1..];
      assert multiset(b[..k] + b[k + 1..]) == multiset(b) - multiset{last};
      assert multiset(a[..|a| - 1]) == multiset(a) - multiset{last};
      SumIgnoresOrder(a[..|a| - 1], b[..k] + b[k + 1..]);
      SumOfConcat(b[..k], b[k + 1..]);
      SumOfConcat(b[..k], [last]);
      SumOfConcat(b[..k] + [last], b[k + 1..]);
    }
  }

  /** The manifest's order: by period, then by identifier. */
  predicate Before(a: Record, b: Record) {
    if a.period != b.period then a.period < b.period else a.id < b.id
  }

  ghost predicate Ordered(rs: seq<Record>) {
    forall i, j :: 0 <= i < j < |rs| ==>
      rs[i].period < rs[j].period || (rs[i].period == rs[j].period && rs[i].id <= rs[j].id)
  }

  /** Places one record into an ordered prefix. */
  method InsertRecord(sorted: seq<Record>, r: Record) returns (result: seq<Record>)
    requires Ordered(sorted)
    ensures Ordered(result)
    ensures multiset(result) == multiset(sorted) + multiset{r}
    ensures DistinctIds(sorted) && (forall x :: x in sorted ==> x.id != r.id) ==> DistinctIds(result)
  {
    var k := |sorted|;
    while k > 0 && Before(r, sorted[k - 1])
      invariant 0 <= k <= |sorted|
      invariant forall j :: k <= j < |sorted| ==> Before(r, sorted[j])
    {
      k := k - 1;
    }
    InsertionKeepsOrder(sorted, k, r);
    InsertionKeepsDistinct(sorted, k, r);
    hide Ordered, DistinctIds;
    result := sorted[..k] + [r] + sorted[k..];
    assert sorted == sorted[..k] + sorted[k..];
  }

  lemma InsertionKeepsDistinct(sorted: seq<Record>, k: nat, r: Record)
    requires k <= |sorted|
    ensures DistinctIds(sorted) && (forall x :: x in sorted ==> x.id != r.id) ==>
              DistinctIds(sorted[..k] + [r] + sorted[k..])
  {
    var result := sorted[..k] + [r] + sorted[k..];
    if DistinctIds(sorted) && (forall x :: x in sorted ==> x.id != r.id) {
      forall i, j | 0 <= i < j < |result|
        ensures result[i].id != result[j].id
      {
        var i', j' := if i < k then i else i - 1, if j < k then j else j - 1;
        assert i != k ==> result[i] == sorted[i'];
        assert j != k ==> result[j] == sorted[j'];
      }
    }
  }

  lemma InsertionKeepsOrder(sorted: seq<Record>, k: nat, r: Record)
    requires Ordered(sorted) && k <= |sorted|
    requires k > 0 ==> !Before(r, sorted[k - 1])
    requires forall j :: k <= j < |sorted| ==> Before(r, sorted[j])
    ensures Ordered(sorted[..k] + [r] + sorted[k..])
  {
    var result := sorted[..k] + [r] + sorted[k..];
    forall i, j | 0 <= i < j < |result|
      ensures !Before(result[j], result[i])
    {
      if j == k {
        assert i < k - 1 ==> !Before(sorted[k - 1], sorted[i]);
      } else if i != k {
        var i', j' := if i < k then i else i - 1, if j < k then j else j - 1;
        assert result[i] == sorted[i'] && result[j] == sorted[j'];
      }
    }
  }

  /** sort.Slice on the copied records. */
  method SortRecords(records: seq<Record>) returns (sorted: seq<Record>)
    ensures Ordered(sorted)
    ensures multiset(sorted) == multiset(records)
    ensures DistinctIds(records) ==> DistinctIds(sorted)
  {
    sorted := [];
    for i := 0 to |records|
      invariant Ordered(sorted)
      invariant multiset(sorted) == multiset(records[..i])
      invariant DistinctIds(records) ==> DistinctIds(sorted)
    {
      assert records[..i + 1] == records[..i] + [records[i]];
      forall x | x in sorted
        ensures x in records[..i]
      {
        assert x in multiset(sorted);
      }
      sorted := InsertRecord(sorted, records[i]);
    }
    assert records[..|records|] == records;
  }

  /** Identifiers are the primary key of the table, so no list of rows repeats one. */
  ghost predicate DistinctIds(rs: seq<Record>) {
    forall i, j :: 0 <= i < j < |rs| ==> rs[i].id != rs[j].id
  }

  ghost predicate Keyed(rs: seq<Record>) {
    forall x, y :: x in rs && y in rs && x.id == y.id ==> x == y
  }

  lemma DropLast(rs: seq<Record>)
    requires rs != []
    ensures multiset(rs[..|rs| - 1]) == multiset(rs) - multiset{rs[|rs| - 1]}
    ensures Ordered(rs) ==> Ordered(rs[..|rs| - 1])
    ensures Keyed(rs) ==> Keyed(rs[..|rs| - 1])
  {
    assert rs == rs[..|rs| - 1] + [rs[|rs| - 1]];
  }

  /** Two orderings of the same keyed records end in the same record. */
  lemma LastRecordIsForced(a: seq<Record>, b: seq<Record>)
    requires Ordered(a) && Ordered(b) && multiset(a) == multiset(b) && a != [] && b != []
    requires Keyed(a)
    ensures a[|a| - 1] == b[|b| - 1]
  {
    var m, n := a[|a| - 1], b[|b| - 1];
    assert m in multiset(b) && n in multiset(a);
    var i :| 0 <= i < |b| && b[i] == m;
    var j :| 0 <= j < |a| && a[j] == n;
    assert i < |b| - 1 ==> !Before(n, m);
    assert j < |a| - 1 ==> !Before(m, n);
  }

  /** Identifiers are a primary key, so an unstable sort still has exactly one possible output. */
  lemma {:induction false} OrderIsUnique(a: seq<Record>, b: seq<Record>)
    requires Ordered(a) && Ordered(b) && multiset(a) == multiset(b)
    requires Keyed(a)
    ensures a == b
  {
    assert |a| == |b| by {
      assert |a| == |multiset(a)| && |b| == |multiset(b)|;
    }
    if a != [] {
      var a', b' := a[..|a| - 1], b[..|b| - 1];
      assert a[|a| - 1] == b[|b| - 1] by {
        LastRecordIsForced(a, b);
      }
      assert a' == b' by {
        DropLast(a);
        DropLast(b);
        OrderIsUnique(a', b');
      }
      assert a == a' + [a[|a| - 1]] && b == b' + [b[|b| - 1]];
    }
  }

  /** What a manifest built by the service always says about its records. */
  ghost predicate GoodManifest(m: Manifest) {
    && NonNegative(m.records)
    && DistinctIds(m.records)
    && Ordered(m.records)
    && m.rawTotal == Sum(m.records)
    && m.payoutTotal == RoundUp(m.rawTotal)
    && (0 < m.payoutTotal ==> m.token.Some?)
  }

  /**
   buildManifest: records are copied, sorted and totalled. The token is attached by the caller, and
   only for a positive payout, which is why it is a parameter here.
   */
  method BuildManifest(records: seq<Record>, token: string, settlement: string, recipient: string)
    returns (m: Option<Manifest>)
    ensures m.Some? <==> NonNegative(records)
    ensures m.Some? && DistinctIds(records) ==> GoodManifest(m.value)
    ensures m.Some? ==> Ordered(m.value.records) && m.value.payoutTotal == RoundUp(m.value.rawTotal)
    ensures m.Some? ==> multiset(m.value.records) == multiset(records)
    ensures m.Some? ==> m.value.rawTotal == Sum(records)
    ensures m.Some? ==> m.value.settlement == settlement && m.value.recipient == recipient
    ensures m.Some? ==> m.value.token == if 0 < m.value.payoutTotal then Some(token) else None
  {
    var sorted := SortRecords(records);
    assert forall r :: r in sorted <==> r in multiset(sorted);
    assert forall r :: r in records <==> r in multiset(records);
    var totals := CalculateTotals(sorted);
    if totals.NegativeAmount? {
      return None;
    }
    SumIgnoresOrder(sorted, records);
    return Some(Manifest(sorted, totals.raw, totals.payout,
                         if 0 < totals.payout then Some(token) else None, settlement, recipient));
  }
}
