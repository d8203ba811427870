/**
 The settlement balance a run report ends with (internal/funding/report_observation.go,
 observeSettlementFinalBalance).

 After a successful payout the loop waits for an exact post-payout total. It stops after five successful
 queries, but raises that limit by one whenever the limit is hit by a query that shows the expected
 total for the first time. The specification below has no moving limit.
 */
module FinalBalance {
  import opened Wrappers
  import opened Funding
  import opened Observation

  const FINAL_OBSERVATIONS: nat := 5

  /** The successful payout of the report that the balance must reflect. */
  datatype Payment = Payment(before: int, amount: int)

  datatype Final = Observed(total: int, available: int) | NotQueried | Unconfirmed | InvalidBoundary

  /** The reply shows one of the exact post-payout totals. */
  ghost predicate Expected(r: Reply, p: Payment) {
    At(r, p.before - p.amount) || At(r, p.before - p.amount - 1_000_000_000_000_000_000)
  }

  /** matchesAnyBalanceBoundary over the payout boundaries; the one without the fee is not negative here. */
  predicate Matches(total: int, p: Payment)
    requires p.amount <= p.before
  {
    var withoutFee := p.before - p.amount;
    var withFee := withoutFee - ONE_USDC;
    total == withoutFee || (0 <= withFee && total == withFee)
  }

  /** The latest successful reply shows an expected total. */
  ghost predicate LastShows(replies: seq<Reply>, p: Payment) {
    if replies == [] then false
    else
      var last := replies[|replies| - 1];
      if last.Balance? then Expected(last, p) else LastShows(replies[..|replies| - 1], p)
  }

  /** There is room for another query: five successes are not used up, or a sighting awaits its repetition. */
  ghost predicate InWindow(replies: seq<Reply>, p: Payment) {
    Successes(replies) < 5 || LastShows(replies, p)
  }

  /** Queries k-1 and k returned the same tuple at an expected total. */
  ghost predicate Repeated(replies: seq<Reply>, k: int, p: Payment) {
    0 < k < |replies| && Expected(replies[k], p) && replies[k - 1] == replies[k]
  }

  ghost predicate Made(replies: seq<Reply>, k: int, p: Payment) {
    && 0 <= k < |replies|
    && (forall i :: 0 <= i <= k ==> InWindow(replies[..i], p))
    && (forall i :: 0 <= i < k ==> !replies[i].Interrupted? && !Repeated(replies, i, p))
  }

  lemma LastShowsStep(replies: seq<Reply>, k: int, p: Payment)
    requires 0 <= k < |replies|
    ensures LastShows(replies[..k + 1], p) <==>
            if replies[k].Balance? then Expected(replies[k], p) else LastShows(replies[..k], p)
  {
    assert replies[..k + 1][..k] == replies[..k];
  }

  /** The loop: the moving limit admits exactly the queries of the declarative window. */
  method AwaitRepeatedTotal(replies: seq<Reply>, p: Payment) returns (f: Final)
    requires |replies| == QUERY_ATTEMPTS && p.amount <= p.before
    ensures f.Observed? <==> exists k :: Made(replies, k, p) && Repeated(replies, k, p)
    ensures f.Observed? ==>
              exists k :: Made(replies, k, p) && Repeated(replies, k, p) && replies[k] == Balance(f.total, f.available)
    ensures f.NotQueried? <==>
            || (exists k :: Made(replies, k, p) && replies[k].Interrupted?)
            || (forall i :: 0 <= i < |replies| ==> replies[i].QueryFailed?)
    ensures !f.InvalidBoundary?
  {
    hide Successes, LastShows;
    var successes, limit, consecutive, candidate := 0, FINAL_OBSERVATIONS, 0, QueryFailed;
    var used := 0;
    EmptyWindow(replies, p);
    while used < QUERY_ATTEMPTS && successes < limit
      invariant 0 <= successes <= used <= QUERY_ATTEMPTS
      invariant FINAL_OBSERVATIONS <= limit <= QUERY_ATTEMPTS && successes <= limit
      invariant limit == FINAL_OBSERVATIONS || limit <= successes + 1
      invariant successes == Successes(replies[..used])
      invariant used < QUERY_ATTEMPTS ==> (successes < limit <==> InWindow(replies[..used], p))
      invariant forall i :: 0 <= i < used ==> InWindow(replies[..i], p)
      invariant forall i :: 0 <= i < used ==> !replies[i].Interrupted? && !Repeated(replies, i, p)
      invariant consecutive < 2
      invariant consecutive > 0 <==> used > 0 && Expected(replies[used - 1], p)
      invariant consecutive > 0 ==> candidate == replies[used - 1]
      invariant successes == 0 ==> forall i :: 0 <= i < used ==> replies[i].QueryFailed?
      invariant successes > 0 ==> exists i :: 0 <= i < used && replies[i].Balance?
    {
      var reply := replies[used];
      assert Made(replies, used, p);
      SuccessesStep(replies, used);
      LastShowsStep(replies, used, p);
      ExpectedIsBalance(reply, p);
      if reply.Interrupted? {
        return NotQueried;
      }
      used := used + 1;
      if reply.QueryFailed? {
        consecutive := 0;
        continue;
      }
      assert replies[used - 1].Balance?;
      successes := successes + 1;
      assert Matches(reply.total, p) <==> Expected(reply, p);
      if Matches(reply.total, p) {
        if consecutive > 0 && reply == candidate {
          consecutive := consecutive + 1;
        } else {
          candidate, consecutive := reply, 1;
        }
        if consecutive < 2 && successes >= limit && limit < QUERY_ATTEMPTS {
          limit := limit + 1;
        }
      } else {
        consecutive := 0;
      }
      if consecutive >= 2 {
        return Observed(reply.total, reply.available);
      }
    }
    f := if successes == 0 then NotQueried else Unconfirmed;
  }

  lemma EmptyWindow(replies: seq<Reply>, p: Payment)
    ensures InWindow(replies[..0], p) && Successes(replies[..0]) == 0
  {
  }

  lemma ExpectedIsBalance(r: Reply, p: Payment)
    ensures Expected(r, p) ==> r.Balance?
  {
  }

  /** A successful payout of a positive amount has to show in the balance. */
  predicate Demands(payment: Option<Payment>) {
    payment.Some? && 0 < payment.value.amount
  }

  /** observeSettlementFinalBalance once the token is known. A payment of nothing demands no boundary. */
  method ObserveFinalBalance(replies: seq<Reply>, payment: Option<Payment>) returns (f: Final)
    requires |replies| == QUERY_ATTEMPTS
    ensures payment.Some? && 0 < payment.value.amount && f.Observed? ==>
              var left := payment.value.before - payment.value.amount;
              0 <= f.total && (f.total == left || f.total == left - ONE_USDC)
    ensures f.InvalidBoundary? <==>
              payment.Some? && 0 < payment.value.amount && payment.value.before < payment.value.amount
    ensures payment.Some? && 0 < payment.value.amount <= payment.value.before ==>
              (f.Observed? <==>
                 exists k :: Made(replies, k, payment.value) && Repeated(replies, k, payment.value))
    ensures payment.None? || payment.value.amount <= 0 ==>
              f == if replies[0].Balance? then Observed(replies[0].total, replies[0].available) else NotQueried
  {
    if !Demands(payment) {
      return if replies[0].Balance? then Observed(replies[0].total, replies[0].available) else NotQueried;
    }
    if payment.value.before < payment.value.amount {
      return InvalidBoundary;
    }
    f := AwaitRepeatedTotal(replies, payment.value);
  }
}
