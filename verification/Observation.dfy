/**
 The bounded observers of the settlement account: the stable baseline before a payout
 (internal/funding/orchestrator.go, runPositive) and the post-submit observer
 (internal/funding/payout.go, observeUncertainPayout).

 A query is answered by one reply. The replies an observer would receive are its input, so that what
 it concludes can be stated about the whole trace and not about its counters.
 */
module Observation {
  import opened Funding

  /** Interrupted is a cancelled wait or a query that failed because the task was cancelled. */
  datatype Reply = QueryFailed | Balance(total: int, available: int) | Interrupted

  const OBSERVATION_ATTEMPTS: nat := 10
  const QUERY_ATTEMPTS: nat := 20
  const BASELINE_ATTEMPTS: nat := 5

  /** payoutSettlementEvidence over payoutSettlementBoundaries. */
  function SettlementEvidence(total: int, before: int, amount: int): Evidence {
    var withoutFee := before - amount;
    var withFee := withoutFee - ONE_USDC;
    if 0 <= withoutFee && total == withoutFee then BalanceDecreased
    else if 0 <= withFee && total == withFee then BalanceDecreasedWithFee
    else NoEvidence
  }

  function EvidenceOf(r: Reply, before: int, amount: int): Evidence {
    if r.Balance? then SettlementEvidence(r.total, before, amount) else NoEvidence
  }

  ghost function Successes(replies: seq<Reply>): nat {
    if replies == [] then 0
    else Successes(replies[..|replies| - 1]) + if replies[|replies| - 1].Balance? then 1 else 0
  }

  /** The reply shows exactly this total, which an account can have. */
  ghost predicate At(r: Reply, total: int) {
    r.Balance? && r.total == total && 0 <= total
  }

  /** The payout left, and nothing else; or one more USDC left, the fee of a new address. */
  ghost predicate Confirmation(replies: seq<Reply>, k: int, before: int, amount: int) {
    && 0 < k < |replies|
    && (|| (At(replies[k - 1], before - amount) && At(replies[k], before - amount))
        || (&& At(replies[k - 1], before - amount - 1_000_000_000_000_000_000)
            && At(replies[k], before - amount - 1_000_000_000_000_000_000)))
  }

  /** What a confirmation at query k proves. */
  ghost predicate Proves(replies: seq<Reply>, k: int, before: int, amount: int, e: Evidence) {
    && Confirmation(replies, k, before, amount)
    && e == if replies[k].total == before - amount then BalanceDecreased else BalanceDecreasedWithFee
  }

  /** Query k belongs to the observation window and nothing before it ended the observation. */
  ghost predicate Reached(replies: seq<Reply>, k: int, before: int, amount: int) {
    && 0 <= k < |replies|
    && Successes(replies[..k]) < 10
    && (forall i :: 0 <= i < k ==> !replies[i].Interrupted?)
    && (forall i :: 0 <= i < k ==> !Confirmation(replies, i, before, amount))
  }

  ghost predicate AllAt(replies: seq<Reply>, total: int) {
    forall i :: 0 <= i < |replies| && replies[i].Balance? ==> replies[i].total == total
  }

  /** A complete window of ten successful queries, every one of them still at the pre-submit total. */
  ghost predicate UnmovedWindow(replies: seq<Reply>, k: int, before: int) {
    && 0 <= k <= |replies|
    && Successes(replies[..k]) == 10
    && AllAt(replies[..k], before)
    && (forall i :: 0 <= i < k ==> !replies[i].Interrupted?)
  }

  datatype Verdict =
    | Confirmed(evidence: Evidence)
    | Inconclusive(successes: nat, allAtBefore: bool)
    | Stopped

  lemma SuccessesStep(replies: seq<Reply>, k: int)
    requires 0 <= k < |replies|
    ensures Successes(replies[..k + 1]) == Successes(replies[..k]) + if replies[k].Balance? then 1 else 0
  {
    assert replies[..k + 1][..k] == replies[..k];
  }

  lemma {:induction false} SuccessesGrow(replies: seq<Reply>, i: int, j: int)
    requires 0 <= i <= j <= |replies|
    ensures Successes(replies[..i]) <= Successes(replies[..j])
    decreases j
  {
    if i < j {
      SuccessesStep(replies, j - 1);
      SuccessesGrow(replies, i, j - 1);
    }
  }

  /** A window that never moved off the pre-submit total cannot contain a confirmation. */
  lemma UnmovedMeansUnconfirmed(replies: seq<Reply>, k: int, before: int, amount: int)
    requires 0 < amount
    requires 0 <= k <= |replies| && AllAt(replies[..k], before)
    ensures forall i :: 0 <= i < k ==> !Confirmation(replies, i, before, amount)
  {
    forall i | 0 <= i < k
      ensures !Confirmation(replies, i, before, amount)
    {
      assert replies[..k][i] == replies[i];
    }
  }

  ghost predicate Quiet(replies: seq<Reply>, k: int, before: int, amount: int) {
    && 0 <= k <= |replies|
    && (forall i :: 0 <= i < k ==> !replies[i].Interrupted?)
    && (forall i :: 0 <= i < k ==> !Confirmation(replies, i, before, amount))
  }

  /** Where the loop stood when it left, for each way of leaving it. */
  ghost predicate LeftWith(replies: seq<Reply>, before: int, amount: int, v: Verdict, used: nat) {
    match v
    case Confirmed(evidence) =>
      Reached(replies, used - 1, before, amount) && Proves(replies, used - 1, before, amount, evidence)
    case Stopped => Reached(replies, used - 1, before, amount) && replies[used - 1].Interrupted?
    case Inconclusive(successes, allAtBefore) =>
      && Quiet(replies, used, before, amount)
      && successes == Successes(replies[..used]) <= OBSERVATION_ATTEMPTS
      && (used == QUERY_ATTEMPTS || successes == OBSERVATION_ATTEMPTS)
      && (used > 0 ==> Successes(replies[..used - 1]) < OBSERVATION_ATTEMPTS)
      && (allAtBefore <==> AllAt(replies[..used], before))
  }

  lemma QuietStep(replies: seq<Reply>, k: int, before: int, amount: int)
    requires Quiet(replies, k, before, amount) && k < |replies|
    ensures Successes(replies[..k]) < OBSERVATION_ATTEMPTS ==> Reached(replies, k, before, amount)
    ensures !replies[k].Interrupted? && !Confirmation(replies, k, before, amount) ==>
              Quiet(replies, k + 1, before, amount)
    ensures AllAt(replies[..k + 1], before) <==>
            AllAt(replies[..k], before) && (replies[k].Balance? ==> replies[k].total == before)
  {
    assert replies[..k + 1] == replies[..k] + [replies[k]];
  }

  /** The observation loop of observeUncertainPayout. `used` is the number of queries it made. */
  method QuerySettlement(replies: seq<Reply>, before: int, amount: int) returns (v: Verdict, used: nat)
    requires |replies| == QUERY_ATTEMPTS
    ensures used <= QUERY_ATTEMPTS && LeftWith(replies, before, amount, v, used)
  {
    var successes, consecutive, allAtBefore, last := 0, 0, true, NoEvidence;
    used := 0;
    while used < QUERY_ATTEMPTS && successes < OBSERVATION_ATTEMPTS
      invariant 0 <= used <= QUERY_ATTEMPTS
      invariant successes == Successes(replies[..used]) <= OBSERVATION_ATTEMPTS
      invariant used > 0 ==> Successes(replies[..used - 1]) < OBSERVATION_ATTEMPTS
      invariant allAtBefore <==> AllAt(replies[..used], before)
      invariant Quiet(replies, used, before, amount)
      invariant last == if used == 0 then NoEvidence else EvidenceOf(replies[used - 1], before, amount)
      invariant consecutive == if last == NoEvidence then 0 else 1
    {
      hide Successes, Quiet, AllAt, Reached;
      var reply := replies[used];
      SuccessesStep(replies, used);
      QuietStep(replies, used, before, amount);
      used := used + 1;
      if reply.Interrupted? {
        return Stopped, used;
      }
      if reply.QueryFailed? {
        consecutive, last := 0, NoEvidence;
        continue;
      }
      successes := successes + 1;
      if reply.total != before {
        allAtBefore := false;
      }
      var evidence := SettlementEvidence(reply.total, before, amount);
      if evidence != NoEvidence && evidence == last {
        consecutive := consecutive + 1;
      } else if evidence != NoEvidence {
        last, consecutive := evidence, 1;
      } else {
        last, consecutive := NoEvidence, 0;
      }
      if consecutive >= 2 {
        return Confirmed(evidence), used;
      }
    }
    v := Inconclusive(successes, allAtBefore);
  }

  /** observeUncertainPayout up to its decision: the verdict is a property of the whole trace. */
  method ObservePayout(replies: seq<Reply>, before: int, amount: int) returns (v: Verdict, used: nat)
    requires |replies| == QUERY_ATTEMPTS
    requires 0 < amount <= before
    ensures used <= QUERY_ATTEMPTS
    ensures v.Confirmed? <==>
            exists k :: Reached(replies, k, before, amount) && Confirmation(replies, k, before, amount)
    ensures v.Confirmed? ==>
              Reached(replies, used - 1, before, amount) && Proves(replies, used - 1, before, amount, v.evidence)
    ensures v.Stopped? <==>
            exists k :: Reached(replies, k, before, amount) && replies[k].Interrupted?
    ensures v.Inconclusive? ==> v.successes == Successes(replies[..used]) <= OBSERVATION_ATTEMPTS
    ensures v.Inconclusive? ==> (used == QUERY_ATTEMPTS || v.successes == OBSERVATION_ATTEMPTS)
    ensures v.Inconclusive? ==> (v.allAtBefore <==> AllAt(replies[..used], before))
    ensures v.Inconclusive? && v.successes == OBSERVATION_ATTEMPTS && v.allAtBefore <==>
            exists k :: UnmovedWindow(replies, k, before)
  {
    hide Successes, AllAt;
    v, used := QuerySettlement(replies, before, amount);
    match v {
      case Confirmed(_) =>
        NoWindowPastConfirmation(replies, used - 1, before, amount);
      case Stopped =>
        NoWindowPastStop(replies, used - 1, before, amount);
        NoConfirmationPastStop(replies, used - 1, before, amount);
      case Inconclusive(successes, allAtBefore) =>
        NothingReachedPast(replies, used, before, amount);
        if successes == OBSERVATION_ATTEMPTS && allAtBefore {
          assert UnmovedWindow(replies, used, before);
        }
        forall k | UnmovedWindow(replies, k, before)
          ensures successes == OBSERVATION_ATTEMPTS && allAtBefore
        {
          WindowEndsHere(replies, k, used, before);
        }
    }
  }

  /** An interrupted query ends every window. */
  lemma NoWindowPastStop(replies: seq<Reply>, k: int, before: int, amount: int)
    requires Reached(replies, k, before, amount) && replies[k].Interrupted?
    ensures forall m :: !UnmovedWindow(replies, m, before)
  {
    forall m | UnmovedWindow(replies, m, before)
      ensures false
    {
      if m <= k {
        SuccessesGrow(replies, m, k);
      }
    }
  }

  lemma NoConfirmationPastStop(replies: seq<Reply>, k: int, before: int, amount: int)
    requires Reached(replies, k, before, amount) && replies[k].Interrupted?
    ensures forall m :: Reached(replies, m, before, amount) ==> !Confirmation(replies, m, before, amount)
  {
    forall m | Reached(replies, m, before, amount) && Confirmation(replies, m, before, amount)
      ensures false
    {
    }
  }

  lemma NoWindowPastConfirmation(replies: seq<Reply>, k: int, before: int, amount: int)
    requires 0 < amount
    requires Reached(replies, k, before, amount) && Confirmation(replies, k, before, amount)
    ensures forall m :: !UnmovedWindow(replies, m, before)
  {
    forall m | UnmovedWindow(replies, m, before)
      ensures false
    {
      if m <= k {
        SuccessesGrow(replies, m, k);
      } else {
        UnmovedMeansUnconfirmed(replies, m, before, amount);
      }
    }
  }

  /** Once the loop guard fails no further query is ever reached. */
  lemma NothingReachedPast(replies: seq<Reply>, used: int, before: int, amount: int)
    requires |replies| == QUERY_ATTEMPTS && 0 <= used <= QUERY_ATTEMPTS
    requires used == QUERY_ATTEMPTS || Successes(replies[..used]) == OBSERVATION_ATTEMPTS
    ensures forall k :: used <= k ==> !Reached(replies, k, before, amount)
  {
    forall k | used <= k && Reached(replies, k, before, amount)
      ensures false
    {
      SuccessesGrow(replies, used, k);
    }
  }

  lemma WindowEndsHere(replies: seq<Reply>, k: int, used: int, before: int)
    requires |replies| == QUERY_ATTEMPTS && 0 <= used <= QUERY_ATTEMPTS
    requires used == QUERY_ATTEMPTS || Successes(replies[..used]) == OBSERVATION_ATTEMPTS
    requires used > 0 ==> Successes(replies[..used - 1]) < OBSERVATION_ATTEMPTS
    requires Successes(replies[..used]) <= OBSERVATION_ATTEMPTS
    requires UnmovedWindow(replies, k, before)
    ensures Successes(replies[..used]) == OBSERVATION_ATTEMPTS && AllAt(replies[..used], before)
  {
    if k < used {
      SuccessesGrow(replies, k, used - 1);
    } else {
      SuccessesGrow(replies, used, k);
      forall i | 0 <= i < used && replies[..used][i].Balance?
        ensures replies[..used][i].total == before
      {
        assert replies[..k][i] == replies[i];
      }
    }
  }

  datatype Decision = Confirm(evidence: Evidence) | ExactReplay | Block | Halt

  /** What observeUncertainPayout does with the verdict. */
  function Resolve(phase: Phase, attempts: int, v: Verdict): Decision {
    match v
    case Confirmed(evidence) => Confirm(evidence)
    case Stopped => Halt
    case Inconclusive(successes, allAtBefore) =>
      if (phase.PhasePayoutSubmitting? || phase.PhasePayoutPrepared?) && attempts == 1
         && successes == OBSERVATION_ATTEMPTS && allAtBefore
      then ExactReplay
      else Block
  }

  /** Only one delivery was authorized so far. */
  ghost predicate ReplayLeft(phase: Phase, attempts: int) {
    attempts == 1 && phase in {PhasePayoutPrepared, PhasePayoutSubmitting}
  }

  /** The decision in terms of the replies alone; the four cases exclude each other. */
  ghost predicate Decided(replies: seq<Reply>, phase: Phase, attempts: int, before: int, amount: int, d: Decision) {
    && (d.Confirm? <==>
          exists k :: Reached(replies, k, before, amount) && Confirmation(replies, k, before, amount))
    && (d.Confirm? ==>
          exists k :: Reached(replies, k, before, amount) && Confirmation(replies, k, before, amount)
                      && Proves(replies, k, before, amount, d.evidence))
    && (d.Halt? <==> exists k :: Reached(replies, k, before, amount) && replies[k].Interrupted?)
    && (d.ExactReplay? <==> ReplayLeft(phase, attempts) && exists k :: UnmovedWindow(replies, k, before))
  }

  /** The observation and its decision. */
  method Decide(replies: seq<Reply>, phase: Phase, attempts: int, before: int, amount: int)
    returns (d: Decision, used: nat)
    requires |replies| == QUERY_ATTEMPTS && 0 < amount <= before
    ensures used <= QUERY_ATTEMPTS
    ensures Decided(replies, phase, attempts, before, amount, d)
    ensures d.Confirm? ==> 0 < used && Proves(replies, used - 1, before, amount, d.evidence)
  {
    hide UnmovedWindow, Successes;
    var v;
    v, used := ObservePayout(replies, before, amount);
    d := Resolve(phase, attempts, v);
  }

  datatype Baseline = Stable(total: int, at: nat) | NotObserved | Unstable | Underfunded | BaselineStopped

  /** Queries k-1 and k returned the same tuple, and it covers the payout. */
  ghost predicate StablePair(replies: seq<Reply>, k: int, payout: int) {
    && 0 < k < |replies|
    && replies[k].Balance? && replies[k - 1] == replies[k]
    && payout <= replies[k].available
  }

  ghost predicate BaselineReached(replies: seq<Reply>, k: int, payout: int) {
    && 0 <= k < |replies|
    && (forall i :: 0 <= i < k ==> !replies[i].Interrupted? && !StablePair(replies, i, payout))
  }

  /** The last successful reply, if there is one, covered the payout. */
  ghost predicate LastCovers(replies: seq<Reply>, payout: int) {
    exists i :: 0 <= i < |replies| && replies[i].Balance? && payout <= replies[i].available
                && forall j :: i < j < |replies| ==> !replies[j].Balance?
  }

  /** The pre-payout loop of runPositive: two adjacent equal tuples that cover the payout, or a failure. */
  method AwaitStableBalance(replies: seq<Reply>, payout: int) returns (b: Baseline)
    requires |replies| == BASELINE_ATTEMPTS
    ensures b.Stable? <==>
            exists k :: BaselineReached(replies, k, payout) && StablePair(replies, k, payout)
    ensures b.Stable? ==>
              && StablePair(replies, b.at, payout) && BaselineReached(replies, b.at, payout)
              && b.total == replies[b.at].total
    ensures b.BaselineStopped? <==>
            exists k :: BaselineReached(replies, k, payout) && replies[k].Interrupted?
    ensures b.NotObserved? <==> forall i :: 0 <= i < |replies| ==> replies[i].QueryFailed?
    ensures b.Unstable? ==> LastCovers(replies, payout)
    ensures b.Underfunded? ==>
              !LastCovers(replies, payout) && exists i :: 0 <= i < |replies| && replies[i].Balance?
  {
    var observed, lastSufficient, consecutive := false, false, 0;
    var candidate := QueryFailed;
    for i := 0 to BASELINE_ATTEMPTS
      invariant forall j :: 0 <= j < i ==> !replies[j].Interrupted? && !StablePair(replies, j, payout)
      invariant observed <==> exists j :: 0 <= j < i && replies[j].Balance?
      invariant lastSufficient <==> LastCovers(replies[..i], payout)
      invariant lastSufficient ==> observed
      invariant consecutive > 0 <==> i > 0 && replies[i - 1].Balance?
      invariant consecutive > 0 ==> candidate == replies[i - 1]
      invariant consecutive > 1 ==> candidate.Balance? && candidate.available < payout
    {
      var reply := replies[i];
      assert BaselineReached(replies, i, payout);
      if reply.Interrupted? {
        return BaselineStopped;
      }
      assert replies[..i + 1] == replies[..i] + [reply];
      if reply.Balance? {
        observed := true;
        lastSufficient := payout <= reply.available;
        assert replies[..i + 1][i] == reply;
        if consecutive > 0 && reply == candidate {
          consecutive := consecutive + 1;
        } else {
          candidate, consecutive := reply, 1;
        }
        if payout <= reply.available && consecutive >= 2 {
          return Stable(reply.total, i);
        }
      } else {
        consecutive := 0;
        LastCoversSkipsFailure(replies[..i], payout);
      }
    }
    assert replies[..BASELINE_ATTEMPTS] == replies;
    b := if !observed then NotObserved else if lastSufficient then Unstable else Underfunded;
  }

  lemma LastCoversSkipsFailure(replies: seq<Reply>, payout: int)
    ensures LastCovers(replies + [QueryFailed], payout) <==> LastCovers(replies, payout)
  {
    var longer := replies + [QueryFailed];
    if i :| 0 <= i < |replies| && replies[i].Balance? && payout <= replies[i].available
            && forall j :: i < j < |replies| ==> !replies[j].Balance? {
      assert longer[i] == replies[i];
      assert forall j :: i < j < |longer| ==> !longer[j].Balance?;
    }
    if i :| 0 <= i < |longer| && longer[i].Balance? && payout <= longer[i].available
            && forall j :: i < j < |longer| ==> !longer[j].Balance? {
      assert replies[i] == longer[i];
      assert forall j :: i < j < |replies| ==> !replies[j].Balance? by {
        forall j | i < j < |replies| ensures !replies[j].Balance? { assert longer[j] == replies[j]; }
      }
    }
  }
}
