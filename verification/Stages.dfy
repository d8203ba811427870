/**
 One builder through the UTC 00:00 task: claimable, baseline, claim, observation and sweep
 (internal/funding/orchestrator.go). What each stage leaves in the report is stated against what the
 exchange has on its log about that builder on that date.
 */
module Stages {
  import opened Wrappers
  import opened Funding
  import opened Nonces
  import opened Exchanges
  import opened Reports
  import opened Observation
  import opened Sweep
  import opened Claims

  // ---------------------------------------------------------------- capturing claimables

  /** An answer the service accepts: a claimable that is not negative. */
  predicate Usable(a: Option<int>) {
    a.Some? && 0 <= a.value
  }

  /** Answer k is the first that is there and not negative. */
  ghost predicate FirstNonNegative(answers: seq<Option<int>>, k: nat) {
    && k < |answers| && answers[k].Some? && answers[k].value >= 0
    && (forall j :: 0 <= j < k ==> answers[j].None? || answers[j].value < 0)
  }

  /** The reconciliation values of the report are those of the first answer that is not negative, of five. */
  ghost predicate Captures(r: BuilderReport, answers: seq<Option<int>>) {
    && |answers| == 5
    && (forall k: nat :: FirstNonNegative(answers, k) ==>
          r.claimable == answers[k] && r.claimableObserved && r.queryAttempts == k + 1)
    && ((forall k: nat :: !FirstNonNegative(answers, k)) ==>
          r.claimable.None? && !r.claimableObserved && r.queryAttempts == 5)
  }

  lemma FirstIsUnique(answers: seq<Option<int>>, j: nat, k: nat)
    requires FirstNonNegative(answers, j) && FirstNonNegative(answers, k)
    ensures j == k
  {
  }

  /** captureBuilderClaimables for one builder: the first accepted of five answers, and never a later one. */
  method CaptureClaimable(r: BuilderReport, answers: seq<Option<int>>) returns (r': BuilderReport)
    requires |answers| == CLAIMABLE_ATTEMPTS
    ensures Captures(r', answers)
    ensures r' == r.(claimable := r'.claimable, claimableObserved := r'.claimableObserved,
                     queryAttempts := r'.queryAttempts, claimStatus := r'.claimStatus)
    ensures r'.claimStatus == if r'.claimableObserved then r.claimStatus else Warning
  {
    for i := 0 to CLAIMABLE_ATTEMPTS
      invariant forall j :: 0 <= j < i ==> answers[j].None? || answers[j].value < 0
    {
      if Usable(answers[i]) {
        assert FirstNonNegative(answers, i);
        assert forall k: nat :: FirstNonNegative(answers, k) ==> k == i;
        return r.(claimable := answers[i], claimableObserved := true, queryAttempts := i + 1);
      }
    }
    return r.(claimable := None, claimableObserved := false, queryAttempts := CLAIMABLE_ATTEMPTS,
              claimStatus := Warning);
  }

  /** The values are those of the latest answers the exchange gave. */
  ghost predicate CaptureTrue(r: BuilderReport, told: Told) {
    told.answers != [] && Captures(r, told.answers[|told.answers| - 1])
  }

  ghost predicate IsReconcilable(r: BuilderReport) {
    && 0 < r.queryAttempts
    && (r.claimableObserved <==> r.claimable.Some?)
    && (r.claimable.Some? ==> 0 <= r.claimable.value)
  }

  lemma CapturedIsReconcilable(r: BuilderReport, told: Told)
    requires CaptureTrue(r, told)
    ensures IsReconcilable(r)
  {
    var answers := told.answers[|told.answers| - 1];
    if k: nat :| FirstNonNegative(answers, k) {
      assert r.claimable == answers[k];
    }
  }

  /** Later stages never touch the reconciliation values. */
  ghost predicate SameCapture(a: BuilderReport, b: BuilderReport) {
    && a.address == b.address && a.claimable == b.claimable
    && a.claimableObserved == b.claimableObserved && a.queryAttempts == b.queryAttempts
  }

  // ---------------------------------------------------------------- what the logs say about a claim

  /** claimEligible: a missing observation falls back to one claim attempt. */
  predicate Eligible(r: BuilderReport) {
    r.claimableObserved && r.claimable.Some? ==> ONE_USDC <= r.claimable.value
  }

  /** The claim is worth making, or nothing is known against it. */
  ghost predicate Due(r: BuilderReport) {
    r.claimable.None? || r.claimable.value >= 1_000_000_000_000_000_000
  }

  /** The answers call for a claim: the first that is not negative is at least one USDC, or there is none. */
  ghost predicate CallsForClaim(answers: seq<Option<int>>) {
    forall k: nat :: FirstNonNegative(answers, k) ==> answers[k].value >= 1_000_000_000_000_000_000
  }

  lemma DueMeans(r: BuilderReport, told: Told)
    requires CaptureTrue(r, told)
    ensures Due(r) <==> CallsForClaim(told.answers[|told.answers| - 1])
    ensures Due(r) <==> Eligible(r)
  {
    var answers := told.answers[|told.answers| - 1];
    if k: nat :| FirstNonNegative(answers, k) {
      forall j: nat | FirstNonNegative(answers, j)
        ensures j == k
      {
        FirstIsUnique(answers, j, k);
      }
    }
  }

  /** The windows that are read before anything is swept. */
  ghost function Base(r: BuilderReport): nat {
    if Due(r) then 1 else 0
  }

  /** The tuple a window settles on, if it does. */
  ghost function SteadyTuple(window: seq<Reply>): Option<Balances> {
    if exists k :: Asked(window, k, None) && SteadyAt(window, k, None) then
      var k :| Asked(window, k, None) && SteadyAt(window, k, None);
      Some(Balances(window[k].total, window[k].available))
    else None
  }

  lemma SteadyTupleIs(window: seq<Reply>, k: int)
    requires Asked(window, k, None) && SteadyAt(window, k, None)
    ensures SteadyTuple(window) == Some(Balances(window[k].total, window[k].available))
  {
  }

  /** What is watched after a claim: the baseline, the captured claimable and the least increase that counts. */
  function TargetFrom(r: BuilderReport, before: Balances, unit: int, unknown: bool): (t: Target)
    requires 0 < unit
    ensures t.before == before && t.submitUnknown == unknown && !t.preStateSeen
    ensures t.claimableKnown == r.claimable.Some?
    ensures r.claimable.Some? ==>
              && t.claimableBefore == r.claimable.value
              && t.minimumIncrease <= r.claimable.value < t.minimumIncrease + unit
              && t.minimumIncrease == r.claimable.value / unit * unit
    ensures r.claimable.None? ==> t.minimumIncrease == ONE_USDC
  {
    var known := r.claimable.Some?;
    var claimable := if known then r.claimable.value else 0;
    Target(before, claimable, known, if known then claimable - claimable % unit else ONE_USDC, unknown, false)
  }

  predicate Observable(reply: ClaimReply) {
    reply.ClaimAccepted? || reply.ClaimUnknown?
  }

  /** The target that the logged baseline and the logged reply call for. */
  ghost function TargetOf(r: BuilderReport, told: Told, unit: int): Option<Target>
    requires 0 < unit
  {
    if told.replies != [] && Observable(told.replies[0]) && told.windows != [] && SteadyTuple(told.windows[0]).Some?
    then Some(TargetFrom(r, SteadyTuple(told.windows[0]).value, unit, told.replies[0].ClaimUnknown?))
    else None
  }

  /**
   At most one claim was made, for a builder that is due and has a baseline, and exactly one if the client
   could sign it; the report says what came of it.
   */
  ghost predicate RepliesFit(r: BuilderReport, told: Told, unit: int)
    requires 0 < unit
  {
    var settled := told.windows != [] && SteadyTuple(told.windows[0]).Some?;
    && |told.replies| <= 1 && |told.prepared| <= 1
    && (Due(r) ==> told.windows != [])
    && (told.prepared != [] <==> Due(r) && settled)
    && (told.replies != [] <==> told.prepared == [true])
    && r.claimAttempts == |told.prepared|
    && (!Due(r) ==> r.claimStatus.Skipped?)
    && (Due(r) && !settled ==> r.claimStatus.Warning?)
    && (told.prepared == [false] ==> r.claimStatus.Warning?)
    && (told.replies == [ClaimRejected] ==> r.claimStatus.Warning?)
    && (told.replies == [BelowThreshold] ==> r.claimStatus == if r.claimable.None? then Skipped else Warning)
  }

  /** What the log shows about the decision to claim, in terms of the answers alone. */
  ghost predicate DecidedByAnswers(status: StepStatus, told: Told) {
    && told.answers != []
    && var answers := told.answers[|told.answers| - 1];
    && (told.replies != [] ==> CallsForClaim(answers))
    && (CallsForClaim(answers) ==> told.windows != [])
    && (CallsForClaim(answers) && SteadyTuple(told.windows[0]).Some? ==>
          |told.prepared| == 1 && |told.replies| == if told.prepared[0] then 1 else 0)
    && (status.Skipped? && told.replies == [] <==> !CallsForClaim(answers))
  }

  lemma ClaimIsDecided(r: BuilderReport, told: Told, unit: int)
    requires 0 < unit && CaptureTrue(r, told) && ClaimTrue(r, told, unit)
    ensures DecidedByAnswers(r.claimStatus, told)
  {
    DueMeans(r, told);
  }

  /** The report of a claim says what its trace shows. */
  ghost predicate Follows(r: BuilderReport, t: Target, samples: seq<Sample>) {
    && (r.claimStatus.Success? <==> !Observe(t, samples).pending)
    && (r.uncertain <==> t.submitUnknown && Observe(t, samples).pending)
  }

  /** Without a claim to observe there is neither a success nor uncertainty; with one the logged trace decides. */
  ghost predicate ClaimTrue(r: BuilderReport, told: Told, unit: int)
    requires 0 < unit
  {
    && RepliesFit(r, told, unit)
    && match TargetOf(r, told, unit)
       case None => !r.claimStatus.Success? && !r.uncertain
       case Some(t) => Follows(r, t, told.samples)
  }

  /** The balance that a sweep must not fall behind: the one the claim converged at. */
  ghost function FloorOf(r: BuilderReport, told: Told, unit: int): Option<int>
    requires 0 < unit
  {
    match TargetOf(r, told, unit)
    case None => None
    case Some(t) =>
      var w := Observe(t, told.samples);
      if !w.pending && w.last.Some? then Some(w.last.value.total) else None
  }

  ghost predicate Unconverged(r: BuilderReport, told: Told, unit: int)
    requires 0 < unit
  {
    TargetOf(r, told, unit).Some? && Observe(TargetOf(r, told, unit).value, told.samples).pending
  }

  /** The report of a sweep says what was read and sent. */
  ghost predicate SweepTrue(r: BuilderReport, v: View, settlement: string, unit: int)
    requires 0 < unit
  {
    var floor := FloorOf(r, v.told, unit);
    && SafeLog(v.sent, settlement, Base(r)) && RightAmounts(v.sent, v.told.windows, floor)
    && r.sweepAmount == Swept(v.sent)
    && StatusFits(r.sweepStatus, v.sent, v.told.windows, Base(r), floor, Unconverged(r, v.told, unit))
    && StopsRightly(v.sent, v.told.windows, v.told.signed, Base(r), floor)
  }

  // ---------------------------------------------------------------- what each stage leaves

  /** Nothing but claimables has been asked. */
  ghost predicate Quiet(v: View) {
    && v.told.replies == [] && v.told.windows == [] && v.told.samples == [] && v.sent == []
    && v.told.prepared == [] && v.told.signed == []
  }

  ghost predicate Fresh(r: BuilderReport) {
    r.claimAttempts == 0 && !r.uncertain && r.sweepAmount.None? && r.sweepStatus.Pending?
  }

  ghost predicate Captured(r: BuilderReport, v: View) {
    && CaptureTrue(r, v.told) && Quiet(v) && Fresh(r)
    && r.claimStatus == (if r.claimableObserved then Pending else Warning)
  }

  /** Only eligible builders were queried, and the baseline is what the window settled on. */
  ghost predicate Baselined(r: BuilderReport, baseline: Option<Balances>, v: View) {
    && CaptureTrue(r, v.told) && v.told.replies == [] && v.told.samples == [] && v.sent == []
    && v.told.prepared == [] && Fresh(r) && |v.told.windows| == Base(r)
    && baseline == (if Due(r) then SteadyTuple(v.told.windows[0]) else None)
    && (Due(r) && baseline.None? ==> r.claimStatus.Warning?)
  }

  /** Every claim is settled, or its target is still to be observed. */
  ghost predicate Claimed(r: BuilderReport, t: Option<Target>, v: View, unit: int)
    requires 0 < unit
  {
    && CaptureTrue(r, v.told) && v.sent == [] && |v.told.windows| == Base(r)
    && RepliesFit(r, v.told, unit) && t == TargetOf(r, v.told, unit)
    && 0 <= r.claimAttempts && r.sweepAmount.None? && r.sweepStatus.Pending?
    && (t.None? ==> !r.claimStatus.Pending? && !r.claimStatus.Success? && !r.uncertain && v.told.samples == [])
    && (t.Some? && !t.value.submitUnknown ==> r.claimStatus.Success? && !r.uncertain)
    && (t.Some? && t.value.submitUnknown ==> r.uncertain)
  }

  /** No claim is open, an uncertain one is a warning, and the report says what the trace shows. */
  ghost predicate Observed(r: BuilderReport, v: View, unit: int)
    requires 0 < unit
  {
    && CaptureTrue(r, v.told) && ClaimTrue(r, v.told, unit) && v.sent == [] && |v.told.windows| == Base(r)
    && 0 <= r.claimAttempts && !r.claimStatus.Pending? && (r.uncertain ==> r.claimStatus.Warning?)
    && r.sweepAmount.None?
  }

  /** No step is pending, and every step of the report is what the exchange's log shows. */
  ghost predicate Finished(r: BuilderReport, v: View, settlement: string, unit: int)
    requires 0 < unit
  {
    && CaptureTrue(r, v.told) && ClaimTrue(r, v.told, unit) && SweepTrue(r, v, settlement, unit)
    && 0 <= r.claimAttempts && !r.claimStatus.Pending? && (r.uncertain ==> r.claimStatus.Warning?)
  }

  /** A finished report passes the validator. */
  lemma FinishedIsValid(r: BuilderReport, v: View, settlement: string, unit: int)
    requires 0 < unit && r.address != ""
    requires Finished(r, v, settlement, unit)
    ensures ValidEntry(r, false)
  {
    CapturedIsReconcilable(r, v.told);
  }

  lemma CapturedIsValid(r: BuilderReport, v: View)
    requires r.address != "" && Captured(r, v)
    ensures ValidEntry(r, true)
  {
    CapturedIsReconcilable(r, v.told);
  }

  // ---------------------------------------------------------------- the stages

  function Blank(address: string): BuilderReport {
    BuilderReport(address, None, false, 0, 0, false, Pending, None, Pending)
  }

  /** captureBuilderClaimables for one builder. */
  method CaptureBuilder(exchange: Exchange, key: Key, address: string) returns (r: BuilderReport)
    requires Quiet(exchange.logs.At(key))
    modifies exchange`logs
    ensures Captured(r, exchange.logs.At(key)) && r.address == address
    ensures Only(old(exchange.logs), exchange.logs, key) && exchange.logs.sent == old(exchange.logs).sent
  {
    hide Only, Logs.At;
    var answers := exchange.QueryClaimable(key);
    r := CaptureClaimable(Blank(address), answers);
  }

  /** captureClaimBalanceBaselines for one builder. */
  method BaselineBuilder(exchange: Exchange, key: Key, r: BuilderReport)
    returns (done: bool, r': BuilderReport, baseline: Option<Balances>)
    requires Captured(r, exchange.logs.At(key))
    modifies exchange`logs, exchange`refusals
    ensures r'.address == r.address && exchange.logs.At(key).told.answers == old(exchange.logs).At(key).told.answers
    ensures exchange.logs.At(key).told.replies == []
    ensures old(exchange.refusals) <= exchange.refusals && (!done ==> old(exchange.refusals) < exchange.refusals)
    ensures done ==> Baselined(r', baseline, exchange.logs.At(key))
    ensures Only(old(exchange.logs), exchange.logs, key) && exchange.logs.sent == old(exchange.logs).sent
  {
    hide Only, Logs.At, FirstNonNegative, Asked, SteadyAt;
    r', baseline := r, None;
    OnlyItself(exchange.logs, key);
    DueMeans(r, exchange.logs.At(key).told);
    if Eligible(r) {
      var replies := exchange.ReadWindow(key);
      var b := LoadSweepBalance(replies, None);
      WindowShows(replies, None, b);
      if b.SweepStopped? {
        return false, r, None;
      }
      BaselineIs(replies, b);
      if b.Steady? {
        baseline := Some(Balances(b.total, b.available));
      } else {
        r' := r.(claimStatus := Warning);
      }
    }
    done := true;
  }

  lemma BaselineIs(window: seq<Reply>, b: SweepBalance)
    requires b.Steady? <==> exists k :: Asked(window, k, None) && SteadyAt(window, k, None)
    requires b.Steady? ==>
               exists k :: Asked(window, k, None) && SteadyAt(window, k, None)
                           && window[k] == Balance(b.total, b.available)
    ensures SteadyTuple(window) == if b.Steady? then Some(Balances(b.total, b.available)) else None
  {
    if b.Steady? {
      var k :| Asked(window, k, None) && SteadyAt(window, k, None) && window[k] == Balance(b.total, b.available);
      SteadyTupleIs(window, k);
    }
  }

  /** claimBuilderRewards for one builder: one claim at most, if it is eligible and has a baseline. */
  method ClaimBuilder(exchange: Exchange, key: Key, r: BuilderReport, baseline: Option<Balances>, unit: int)
    returns (r': BuilderReport, target: Option<Target>)
    requires Baselined(r, baseline, exchange.logs.At(key)) && 0 < unit
    modifies exchange`logs
    ensures r'.address == r.address && exchange.logs.At(key).told.answers == old(exchange.logs).At(key).told.answers
    ensures Claimed(r', target, exchange.logs.At(key), unit) && exchange.logs.At(key).told.samples == []
    ensures Only(old(exchange.logs), exchange.logs, key) && exchange.logs.sent == old(exchange.logs).sent
  {
    hide Only, Logs.At, FirstNonNegative, SteadyTuple;
    r', target := r, None;
    OnlyItself(exchange.logs, key);
    DueMeans(r, exchange.logs.At(key).told);
    if !Eligible(r) {
      r' := r.(claimStatus := Skipped);
      return;
    }
    if baseline.None? {
      return;
    }
    r' := r.(claimAttempts := 1);
    var signed := exchange.PrepareClaim(key);
    assert exchange.logs.At(key).told.prepared == [signed];
    if !signed {
      r' := r'.(claimStatus := Warning);  // the client could not prepare the request
      return;
    }
    ghost var before := exchange.logs;
    var reply := exchange.SubmitClaim(key);
    OnlyThrough(old(exchange.logs), before, exchange.logs, key);
    ghost var told := exchange.logs.At(key).told;
    assert told.replies == [reply];
    match reply {
      case ClaimAccepted =>
        r', target := r'.(claimStatus := Success), Some(TargetFrom(r, baseline.value, unit, false));
      case BelowThreshold =>
        r' := r'.(claimStatus := if r.claimable.Some? then Warning else Skipped);
      case ClaimRejected =>
        r' := r'.(claimStatus := Warning);
      case ClaimUnknown =>
        r', target := r'.(uncertain := true), Some(TargetFrom(r, baseline.value, unit, true));
    }
    assert target == TargetOf(r', told, unit);
    assert RepliesFit(r', told, unit);
  }

  /** The answers the observation of a claim will get, if there is a claim to observe. */
  method DrawTrace(exchange: Exchange, key: Key, r: BuilderReport, target: Option<Target>, unit: int)
    returns (samples: seq<Sample>)
    requires 0 < unit && Claimed(r, target, exchange.logs.At(key), unit) && exchange.logs.At(key).told.samples == []
    modifies exchange`logs
    ensures Claimed(r, target, exchange.logs.At(key), unit)
    ensures samples == exchange.logs.At(key).told.samples
    ensures target.Some? ==> |samples| == Claims.OBSERVATION_ATTEMPTS
    ensures exchange.logs.At(key).told.answers == old(exchange.logs).At(key).told.answers
    ensures Only(old(exchange.logs), exchange.logs, key) && exchange.logs.sent == old(exchange.logs).sent
  {
    hide Only, Logs.At, FirstNonNegative, SteadyTuple;
    samples := [];
    OnlyItself(exchange.logs, key);
    if target.Some? {
      samples := exchange.DrawSamples(key);
    }
  }

  /** resolveUncertainClaim, claimBalanceObservationExhausted or neither. */
  method SettleObservation(r: BuilderReport, target: Option<Target>, open: bool, ghost v: View, unit: int)
    returns (r': BuilderReport)
    requires 0 < unit && Claimed(r, target, v, unit)
    requires target.Some? ==> (open <==> Observe(target.value, v.told.samples).pending)
    ensures Observed(r', v, unit) && SameCapture(r, r')
    ensures r'.sweepStatus == if Unconverged(r', v.told, unit) then Warning else Pending
  {
    hide Observe, SteadyTuple, FirstNonNegative;
    r' := r;
    if target.Some? {
      if open {
        r' := r.(sweepStatus := Warning, claimStatus := Warning, uncertain := target.value.submitUnknown);
      } else if target.value.submitUnknown {
        r' := r.(uncertain := false, claimStatus := Success);
      }
    }
    assert TargetOf(r', v.told, unit) == TargetOf(r, v.told, unit);
  }

  /** sweepBuilderBalances for one builder and its effect on the report. */
  method SweepOne(
    exchange: Exchange, nonces: NonceGenerator, key: Key, r: BuilderReport, settlement: string, unit: int,
    floor: Option<int>, unconverged: bool)
    returns (done: bool, r': BuilderReport)
    requires exchange.Valid() && AllPositive(exchange.logs.sent) && 0 < unit
    requires Observed(r, exchange.logs.At(key), unit)
    requires floor == FloorOf(r, exchange.logs.At(key).told, unit)
    requires unconverged == Unconverged(r, exchange.logs.At(key).told, unit)
    modifies exchange, nonces
    ensures exchange.Valid() && AllPositive(exchange.logs.sent) && Only(old(exchange.logs), exchange.logs, key)
    ensures OnlyWindows(old(exchange.logs).At(key).told, exchange.logs.At(key).told)
    ensures SafeLog(exchange.logs.At(key).sent, settlement, 0)
    ensures r'.address == r.address
    ensures done ==> Finished(r', exchange.logs.At(key), settlement, unit)
    ensures old(exchange.refusals) <= exchange.refusals && (!done ==> old(exchange.refusals) < exchange.refusals)
  {
    hide Only, Logs.At, FirstNonNegative, SteadyTuple, Observe, RightAmounts, StatusFits, Sound, AllPositive, SafeLog;
    ghost var told := exchange.logs.At(key).told;
    var status, swept;
    done, status, swept := SweepBuilder(exchange, nonces, key, settlement, floor, unconverged);
    r' := r.(sweepStatus := status, sweepAmount := swept);
    FromAnyBase(exchange.logs.At(key).sent, settlement, Base(r));
    ClaimStays(r, r', told, exchange.logs.At(key).told, unit);
  }

  /** More windows change nothing that the first one decided. */
  lemma ClaimStays(r: BuilderReport, r': BuilderReport, told: Told, told': Told, unit: int)
    requires 0 < unit && OnlyWindows(told, told') && |told.windows| == Base(r)
    requires SameCapture(r, r') && r'.claimAttempts == r.claimAttempts
    requires r'.claimStatus == r.claimStatus && r'.uncertain == r.uncertain
    requires CaptureTrue(r, told) && ClaimTrue(r, told, unit)
    ensures CaptureTrue(r', told') && ClaimTrue(r', told', unit)
    ensures TargetOf(r', told', unit) == TargetOf(r, told, unit)
    ensures FloorOf(r', told', unit) == FloorOf(r, told, unit)
    ensures Unconverged(r', told', unit) <==> Unconverged(r, told, unit)
  {
    hide FirstNonNegative, SteadyTuple, Observe;
    assert TargetOf(r', told', unit) == TargetOf(r, told, unit);
  }

  lemma FromAnyBase(log: seq<Submission>, settlement: string, base: nat)
    requires SafeLog(log, settlement, base)
    ensures SafeLog(log, settlement, 0)
  {
  }
}
