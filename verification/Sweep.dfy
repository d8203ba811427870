/**
 Sweeping a builder's available balance into settlement, with retries after ambiguous submissions
 (internal/funding/orchestrator.go, loadSweepBalance and sweepBuilderBalances).
 */
module Sweep {
  import opened Wrappers
  import opened Funding
  import opened Nonces
  import opened Exchanges
  import opened Observation
  import opened Reports

  const SWEEP_ATTEMPTS: nat := 3

  datatype SweepBalance = Steady(total: int, available: int) | Unsteady | SweepStopped

  /** Not below the confirmed claim floor, if there is one. */
  ghost predicate AboveFloor(r: Reply, floor: Option<int>) {
    r.Balance? && (floor.Some? ==> floor.value <= r.total)
  }

  ghost predicate SteadyAt(replies: seq<Reply>, k: int, floor: Option<int>) {
    0 < k < |replies| && AboveFloor(replies[k], floor) && replies[k - 1] == replies[k]
  }

  ghost predicate Asked(replies: seq<Reply>, k: int, floor: Option<int>) {
    && 0 <= k < |replies|
    && (forall i :: 0 <= i < k ==> !replies[i].Interrupted? && !SteadyAt(replies, i, floor))
  }

  /** loadSweepBalance: two adjacent equal tuples at or above the floor within five queries. */
  method LoadSweepBalance(replies: seq<Reply>, floor: Option<int>) returns (b: SweepBalance)
    requires |replies| == 5
    ensures b.Steady? <==> exists k :: Asked(replies, k, floor) && SteadyAt(replies, k, floor)
    ensures b.Steady? ==>
              exists k :: Asked(replies, k, floor) && SteadyAt(replies, k, floor)
                          && replies[k] == Balance(b.total, b.available)
    ensures b.SweepStopped? <==> exists k :: Asked(replies, k, floor) && replies[k].Interrupted?
  {
    var candidate, consecutive := QueryFailed, 0;
    for i := 0 to SWEEP_QUERIES
      invariant forall j :: 0 <= j < i ==> !replies[j].Interrupted? && !SteadyAt(replies, j, floor)
      invariant consecutive > 0 <==> i > 0 && AboveFloor(replies[i - 1], floor)
      invariant consecutive > 0 ==> candidate == replies[i - 1]
      invariant consecutive < 2
    {
      var reply := replies[i];
      assert Asked(replies, i, floor);
      if reply.Interrupted? {
        return SweepStopped;
      }
      if reply.QueryFailed? || (floor.Some? && reply.total < floor.value) {
        consecutive := 0;
        continue;
      }
      if consecutive > 0 && reply == candidate {
        consecutive := consecutive + 1;
      } else {
        candidate, consecutive := reply, 1;
      }
      if consecutive >= 2 {
        return Steady(reply.total, reply.available);
      }
    }
    b := Unsteady;
  }

  /** The amount of the latest ambiguous submission, or nothing. */
  ghost function LastUnknown(log: seq<Submission>): int {
    if log == [] then 0
    else if log[|log| - 1].outcome.Unknown? then log[|log| - 1].amount
    else LastUnknown(log[..|log| - 1])
  }

  /** The window ends in a steady tuple with this available balance. */
  ghost predicate Showed(window: seq<Reply>, floor: Option<int>, available: int) {
    exists k :: Asked(window, k, floor) && SteadyAt(window, k, floor) && window[k].available == available
  }

  ghost predicate NotSteady(window: seq<Reply>, floor: Option<int>) {
    forall k :: Asked(window, k, floor) ==> !SteadyAt(window, k, floor)
  }

  ghost predicate ShowedNothing(window: seq<Reply>, floor: Option<int>) {
    exists k :: Asked(window, k, floor) && SteadyAt(window, k, floor) && window[k].available <= 0
  }

  ghost predicate Ambiguous(log: seq<Submission>) {
    exists i :: 0 <= i < |log| && log[i].outcome.Unknown?
  }

  /** The amount to ask for: the steady balance, unless an ambiguous submission asked for more. */
  ghost predicate AmountFrom(available: int, earlier: seq<Submission>, amount: int) {
    amount == if available < LastUnknown(earlier) then LastUnknown(earlier) else available
  }

  /** The claim floor applies until a submission is ambiguous. */
  ghost function FloorAfter(earlier: seq<Submission>, floor: Option<int>): Option<int> {
    if Ambiguous(earlier) then None else floor
  }

  /** The amount is right for the steady balance of the window that was read just before. */
  ghost predicate RightAmount(s: Submission, earlier: seq<Submission>, windows: seq<seq<Reply>>, floor: Option<int>) {
    && 0 <= s.window < |windows|
    && exists available :: Showed(windows[s.window], FloorAfter(earlier, floor), available)
                           && AmountFrom(available, earlier, s.amount)
  }

  ghost predicate RightAmounts(log: seq<Submission>, windows: seq<seq<Reply>>, floor: Option<int>) {
    forall i :: 0 <= i < |log| ==> RightAmount(log[i], log[..i], windows, floor)
  }

  /** What the submissions of one builder always look like; each follows a window of its own, from `base` on. */
  ghost predicate SafeLog(log: seq<Submission>, settlement: string, base: nat) {
    && |log| <= SWEEP_ATTEMPTS
    && (forall i :: 0 <= i < |log| ==>
          log[i].destination == settlement && 0 < log[i].amount && base <= log[i].window)
    && (forall i, j :: 0 <= i < j < |log| ==> log[i].nonce < log[j].nonce && log[i].window < log[j].window)
    && (forall i :: 0 <= i < |log| - 1 ==> !log[i].outcome.Accepted?)
    && (forall i, j :: 0 <= i < j < |log| && log[i].outcome.Unknown? ==> log[i].amount <= log[j].amount)
    && (forall i :: 0 < i < |log| ==> Ambiguous(log[..i]))
  }

  /** The accepted amount of the last submission, if it was accepted. */
  ghost function Swept(log: seq<Submission>): Option<int> {
    if log != [] && log[|log| - 1].outcome.Accepted? then Some(log[|log| - 1].amount) else None
  }

  /** The sweep read a window, found nothing to sweep in it, and sent nothing. */
  ghost predicate FoundNothing(log: seq<Submission>, windows: seq<seq<Reply>>, base: nat, floor: Option<int>) {
    && log == [] && base < |windows|
    && ShowedNothing(windows[|windows| - 1], floor)
  }

  /** How the status of a finished sweep reads on what was sent and read. */
  ghost predicate StatusFits(
    status: StepStatus, log: seq<Submission>, windows: seq<seq<Reply>>, base: nat, floor: Option<int>,
    unconverged: bool)
  {
    && !status.Pending?
    && (Ambiguous(log) || unconverged ==> status.Warning?)
    && (status.Success? <==> |log| == 1 && Swept(log).Some? && !unconverged)
    && (status.Skipped? <==> FoundNothing(log, windows, base, floor) && !unconverged)
  }

  /**
   Why the sweep read no window after its last one. If it sent something after that window, the answer
   settled it or it was the third attempt; if not, the window was not steady, or showed nothing to sweep, or
   the client could not sign and no ambiguity was left to settle.
   */
  ghost predicate StopsRightly(
    log: seq<Submission>, windows: seq<seq<Reply>>, signed: seq<Signing>, base: nat, floor: Option<int>)
  {
    && base < |windows| <= base + 3
    && if log != [] && log[|log| - 1].window == |windows| - 1 then
         || log[|log| - 1].outcome.Accepted?
         || (log[|log| - 1].outcome.Rejected? && |log| == 1)
         || |windows| == base + 3
       else
         || NotSteady(windows[|windows| - 1], FloorAfter(log, floor))
         || FoundNothing(log, windows, base, floor)
         || (&& signed != [] && signed[|signed| - 1] == Signing(|windows| - 1, false)
             && (log == [] || |windows| == base + 3))
  }

  /** An ambiguous transfer below the third attempt is followed by another window. */
  lemma AmbiguityIsPursued(
    log: seq<Submission>, windows: seq<seq<Reply>>, signed: seq<Signing>, settlement: string, base: nat,
    floor: Option<int>, i: nat)
    requires SafeLog(log, settlement, base) && StopsRightly(log, windows, signed, base, floor)
    requires forall j :: 0 <= j < |log| ==> log[j].window < |windows|
    requires i < |log| && log[i].outcome.Unknown? && log[i].window < base + 2
    ensures log[i].window + 1 < |windows|
  {
    if i < |log| - 1 {
      assert log[i].window < log[|log| - 1].window;
    }
  }

  ghost predicate AllPositive(sent: seq<Submission>) {
    forall i :: 0 <= i < |sent| ==> 0 < sent[i].amount
  }

  /** Only windows, and whether transfers could be signed, are added to what is on the log about the builder. */
  ghost predicate OnlyWindows(before: Told, after: Told) {
    after == before.(windows := after.windows, signed := after.signed) && before.windows <= after.windows
  }

  /**
   sweepBuilderBalances for one builder. `done` is false when the task was cancelled. `swept` is the
   report's sweep amount, which starts empty. What was read and sent is what the exchange has on its log.
   */
  method SweepBuilder(
    exchange: Exchange, nonces: NonceGenerator, key: Key, settlement: string,
    claimFloor: Option<int>, unconverged: bool)
    returns (done: bool, status: StepStatus, swept: Option<int>)
    requires exchange.Valid() && AllPositive(exchange.logs.sent) && exchange.logs.At(key).sent == []
    modifies exchange, nonces
    ensures exchange.Valid() && AllPositive(exchange.logs.sent)
    ensures Only(old(exchange.logs), exchange.logs, key)
    ensures OnlyWindows(old(exchange.logs).At(key).told, exchange.logs.At(key).told)
    ensures var log, windows := exchange.logs.At(key).sent, exchange.logs.At(key).told.windows;
            var base := |old(exchange.logs).At(key).told.windows|;
            && SafeLog(log, settlement, base) && RightAmounts(log, windows, claimFloor)
            && swept == Swept(log)
            && (forall i :: 0 <= i < |log| ==> log[i].window < |windows|)
            && (done ==> StatusFits(status, log, windows, base, claimFloor, unconverged))
            && (done ==> StopsRightly(log, windows, exchange.logs.At(key).told.signed, base, claimFloor))
    ensures old(exchange.refusals) <= exchange.refusals && (!done ==> old(exchange.refusals) < exchange.refusals)
    ensures swept.Some? ==>
              var log := exchange.logs.At(key).sent;
              var moved := Moved(log, Since(exchange.initial, exchange.books));
              swept.value <= moved && (|log| == 1 ==> moved == swept.value)
  {
    hide SafeLog, Ambiguous, RightAmounts, Open, StatusFits, StopsRightly, Sound, Only, OnlyWindows, AllPositive;
    hide Logs.At, Moved;
    status, swept := Pending, None;
    ghost var base := |exchange.logs.At(key).told.windows|;
    EmptyLogIsOpen(settlement, base, exchange.logs.At(key).told.windows, claimFloor);
    OnlyItself(exchange.logs, key);
    SameWindows(exchange.logs.At(key).told);
    var hadUnknown, retryAmount := false, 0;
    var attempt := 0;
    while attempt < SWEEP_ATTEMPTS
      invariant attempt < SWEEP_ATTEMPTS && |exchange.logs.At(key).sent| <= attempt
      invariant exchange.Valid() && AllPositive(exchange.logs.sent)
      invariant Only(old(exchange.logs), exchange.logs, key)
      invariant OnlyWindows(old(exchange.logs).At(key).told, exchange.logs.At(key).told)
      invariant |exchange.logs.At(key).told.windows| == base + attempt
      invariant old(exchange.refusals) <= exchange.refusals
      invariant Open(exchange.logs.At(key).sent, settlement, base, exchange.logs.At(key).told.windows, claimFloor,
                     hadUnknown, retryAmount)
      decreases SWEEP_ATTEMPTS - attempt
    {
      attempt := attempt + 1;
      ghost var before := exchange.logs;
      var result;
      result, swept := SweepAttempt(
        exchange, nonces, key, settlement, claimFloor, unconverged, attempt, hadUnknown, retryAmount, base);
      OnlyThrough(old(exchange.logs), before, exchange.logs, key);
      WindowsThrough(old(exchange.logs).At(key).told, before.At(key).told, exchange.logs.At(key).told);
      match result {
        case Abandoned =>
          return false, Pending, None;
        case Ends(final) =>
          return true, final, swept;
        case Again(unknown, amount) =>
          hadUnknown, retryAmount := unknown, amount;
      }
    }
  }

  /** How one attempt ends: the task is cancelled, the sweep is decided, or it is tried again. */
  datatype AttemptResult = Abandoned | Ends(status: StepStatus) | Again(hadUnknown: bool, retryAmount: int)

  /** One pass of the loop of sweepBuilderBalances. */
  method SweepAttempt(
    exchange: Exchange, nonces: NonceGenerator, key: Key, settlement: string, claimFloor: Option<int>,
    unconverged: bool, attempt: nat, hadUnknown: bool, retryAmount: int, ghost base: nat)
    returns (result: AttemptResult, swept: Option<int>)
    requires 1 <= attempt <= SWEEP_ATTEMPTS && |exchange.logs.At(key).sent| < attempt
    requires exchange.Valid() && AllPositive(exchange.logs.sent)
    requires |exchange.logs.At(key).told.windows| + 1 == base + attempt
    requires Open(exchange.logs.At(key).sent, settlement, base, exchange.logs.At(key).told.windows, claimFloor,
                  hadUnknown, retryAmount)
    modifies exchange, nonces
    ensures exchange.Valid() && AllPositive(exchange.logs.sent) && Only(old(exchange.logs), exchange.logs, key)
    ensures OnlyWindows(old(exchange.logs).At(key).told, exchange.logs.At(key).told)
    ensures old(exchange.refusals) <= exchange.refusals
    ensures var log, windows := exchange.logs.At(key).sent, exchange.logs.At(key).told.windows;
            && SafeLog(log, settlement, base) && RightAmounts(log, windows, claimFloor)
            && (forall i :: 0 <= i < |log| ==> log[i].window < |windows|)
            && match result
               case Abandoned => old(exchange.refusals) < exchange.refusals && Swept(log).None?
               case Ends(status) =>
                 && swept == Swept(log)
                 && StatusFits(status, log, windows, base, claimFloor, unconverged)
                 && StopsRightly(log, windows, exchange.logs.At(key).told.signed, base, claimFloor)
               case Again(unknown, amount) =>
                 && attempt < SWEEP_ATTEMPTS && |log| <= attempt && |windows| == base + attempt
                 && Open(log, settlement, base, windows, claimFloor, unknown, amount)
    ensures result.Ends? && swept.Some? ==>
              var log := exchange.logs.At(key).sent;
              var moved := Moved(log, Since(exchange.initial, exchange.books));
              swept.value <= moved && (|log| == 1 ==> moved == swept.value)
  {
    hide SafeLog, Ambiguous, RightAmounts, LastUnknown, Open, Asked, SteadyAt, AboveFloor, StatusFits, Showed;
    hide ShowedNothing, NotSteady, StopsRightly, FloorAfter, Sound, Only, OnlyWindows, AllPositive, Logs.At, Moved;
    swept := None;
    OpenMeans(exchange.logs.At(key).sent, settlement, base, exchange.logs.At(key).told.windows, claimFloor,
              hadUnknown, retryAmount);
    ghost var log, told := exchange.logs.At(key).sent, exchange.logs.At(key).told;
    OnlyItself(exchange.logs, key);
    SameWindows(told);
    var cancelled := exchange.Refuses();
    if cancelled {
      return Abandoned, None;
    }
    PositiveAmounts(exchange.logs.sent);
    exchange.Move();
    var replies := exchange.ReadWindow(key);
    ghost var windows := told.windows + [replies];
    MoreWindows(told, told, exchange.logs.At(key).told, replies);
    OpenLater(log, settlement, base, told.windows, replies, claimFloor, hadUnknown, retryAmount);
    OpenMeans(log, settlement, base, windows, claimFloor, hadUnknown, retryAmount);
    var balance := LoadSweepBalance(replies, if hadUnknown then None else claimFloor);
    WindowShows(replies, if hadUnknown then None else claimFloor, balance);
    if balance.SweepStopped? {
      return Abandoned, None;
    }
    if balance.Unsteady? {
      WarningFits(log, windows, base, claimFloor, unconverged);
      StopsUnsteady(log, windows, exchange.logs.At(key).told.signed, base, claimFloor);
      return Ends(Warning), None;
    }
    var amount := balance.available;
    if hadUnknown && retryAmount > amount {
      amount := retryAmount;
    }
    if amount <= 0 {
      NothingFits(log, windows, base, claimFloor, unconverged);
      StopsAtNothing(log, windows, exchange.logs.At(key).told.signed, base, claimFloor);
      return Ends(if unconverged then Warning else Skipped), None;
    }
    ghost var read := exchange.logs;
    result, swept := SendAmount(exchange, nonces, key, settlement, claimFloor, unconverged, attempt, hadUnknown,
                                retryAmount, amount, base, balance.available);
    OnlyThrough(old(exchange.logs), read, exchange.logs, key);
    WindowsThrough(told, read.At(key).told, exchange.logs.At(key).told);
  }

  /** The second half of an attempt: sign, submit, and act on the answer. */
  method SendAmount(
    exchange: Exchange, nonces: NonceGenerator, key: Key, settlement: string, claimFloor: Option<int>,
    unconverged: bool, attempt: nat, hadUnknown: bool, retryAmount: int, amount: int,
    ghost base: nat, ghost available: int)
    returns (result: AttemptResult, swept: Option<int>)
    requires 1 <= attempt <= SWEEP_ATTEMPTS && |exchange.logs.At(key).sent| < attempt
    requires exchange.Valid() && AllPositive(exchange.logs.sent)
    requires |exchange.logs.At(key).told.windows| == base + attempt
    requires Open(exchange.logs.At(key).sent, settlement, base, exchange.logs.At(key).told.windows, claimFloor,
                  hadUnknown, retryAmount)
    requires var log, windows := exchange.logs.At(key).sent, exchange.logs.At(key).told.windows;
             && (forall i :: 0 <= i < |log| ==> log[i].window < |windows| - 1)
             && Showed(windows[|windows| - 1], if hadUnknown then None else claimFloor, available)
             && (hadUnknown || !ShowedNothing(windows[|windows| - 1], claimFloor))
    requires 0 < amount && amount == if available < retryAmount then retryAmount else available
    modifies exchange, nonces
    ensures exchange.Valid() && AllPositive(exchange.logs.sent) && Only(old(exchange.logs), exchange.logs, key)
    ensures OnlyWindows(old(exchange.logs).At(key).told, exchange.logs.At(key).told)
    ensures exchange.logs.At(key).told.windows == old(exchange.logs).At(key).told.windows
    ensures exchange.refusals == old(exchange.refusals) && !result.Abandoned?
    ensures var log, windows := exchange.logs.At(key).sent, exchange.logs.At(key).told.windows;
            && SafeLog(log, settlement, base) && RightAmounts(log, windows, claimFloor)
            && (forall i :: 0 <= i < |log| ==> log[i].window < |windows|)
            && match result
               case Abandoned => true
               case Ends(status) =>
                 && swept == Swept(log)
                 && StatusFits(status, log, windows, base, claimFloor, unconverged)
                 && StopsRightly(log, windows, exchange.logs.At(key).told.signed, base, claimFloor)
               case Again(unknown, more) =>
                 && attempt < SWEEP_ATTEMPTS && |log| <= attempt
                 && Open(log, settlement, base, windows, claimFloor, unknown, more)
    ensures result.Ends? && swept.Some? ==>
              var log := exchange.logs.At(key).sent;
              var moved := Moved(log, Since(exchange.initial, exchange.books));
              swept.value <= moved && (|log| == 1 ==> moved == swept.value)
  {
    hide SafeLog, Ambiguous, RightAmounts, LastUnknown, Open, StatusFits, Showed;
    hide ShowedNothing, NotSteady, StopsRightly, FloorAfter, Sound, Only, OnlyWindows, AllPositive, Logs.At, Moved;
    ghost var log, told := exchange.logs.At(key).sent, exchange.logs.At(key).told;
    ghost var windows := told.windows;
    SameWindows(told);
    OpenMeans(log, settlement, base, windows, claimFloor, hadUnknown, retryAmount);
    var nonce := exchange.DrawNonce(nonces);
    var signed := exchange.PrepareTransfer(key);
    MoreSigned(told, told, exchange.logs.At(key).told);
    if !signed {  // the client could not prepare the request
      if hadUnknown && attempt < SWEEP_ATTEMPTS {
        return Again(hadUnknown, retryAmount), None;
      }
      WarningFits(log, windows, base, claimFloor, unconverged);
      StopsUnsigned(log, windows, exchange.logs.At(key).told.signed, base, claimFloor);
      return Ends(Warning), None;
    }
    NonceIsLater(exchange.logs, key, nonce);
    ghost var before := exchange.logs;
    var outcome := exchange.Submit(key, nonce, settlement, amount);
    ghost var s := Submission(key, nonce, settlement, amount, |windows| - 1, outcome);
    OnlyThrough(old(exchange.logs), before, exchange.logs, key);
    StaysPositive(before.sent, s);
    SubmissionKeepsOpen(log, s, settlement, base, windows, claimFloor, hadUnknown, retryAmount, available);
    log := log + [s];
    if outcome.Accepted? {
      AcceptedFits(log, windows, base, claimFloor, unconverged, hadUnknown);
      StopsAnswered(log, windows, exchange.logs.At(key).told.signed, base, claimFloor);
      AcceptedIsMoved(exchange.initial, exchange.books, exchange.logs, key, settlement, base);
      return Ends(if hadUnknown || unconverged then Warning else Success), Some(amount);
    }
    if (outcome.Rejected? && !hadUnknown) || attempt == SWEEP_ATTEMPTS {
      WarningFits(log, windows, base, claimFloor, unconverged);
      StopsAnswered(log, windows, exchange.logs.At(key).told.signed, base, claimFloor);
      return Ends(Warning), None;
    }
    if outcome.Rejected? {
      return Again(hadUnknown, retryAmount), None;
    }
    return Again(true, amount), None;
  }

  // ---------------------------------------------------------------- why a sweep may stop

  lemma StopsUnsteady(
    log: seq<Submission>, windows: seq<seq<Reply>>, signed: seq<Signing>, base: nat, floor: Option<int>)
    requires base < |windows| <= base + 3 && (log != [] ==> log[|log| - 1].window < |windows| - 1)
    requires NotSteady(windows[|windows| - 1], FloorAfter(log, floor))
    ensures StopsRightly(log, windows, signed, base, floor)
  {
  }

  lemma StopsAtNothing(
    log: seq<Submission>, windows: seq<seq<Reply>>, signed: seq<Signing>, base: nat, floor: Option<int>)
    requires base < |windows| <= base + 3 && log == [] && ShowedNothing(windows[|windows| - 1], floor)
    ensures StopsRightly(log, windows, signed, base, floor)
  {
  }

  lemma StopsUnsigned(
    log: seq<Submission>, windows: seq<seq<Reply>>, signed: seq<Signing>, base: nat, floor: Option<int>)
    requires base < |windows| <= base + 3 && (log != [] ==> log[|log| - 1].window < |windows| - 1)
    requires signed != [] && signed[|signed| - 1] == Signing(|windows| - 1, false)
    requires log == [] || |windows| == base + 3
    ensures StopsRightly(log, windows, signed, base, floor)
  {
  }

  lemma StopsAnswered(
    log: seq<Submission>, windows: seq<seq<Reply>>, signed: seq<Signing>, base: nat, floor: Option<int>)
    requires base < |windows| <= base + 3 && log != [] && log[|log| - 1].window == |windows| - 1
    requires || log[|log| - 1].outcome.Accepted? || (log[|log| - 1].outcome.Rejected? && |log| == 1)
             || |windows| == base + 3
    ensures StopsRightly(log, windows, signed, base, floor)
  {
  }

  // ---------------------------------------------------------------- how the status follows

  lemma WarningFits(log: seq<Submission>, windows: seq<seq<Reply>>, base: nat, floor: Option<int>, unconverged: bool)
    requires Swept(log).None?
    requires !FoundNothing(log, windows, base, floor)
    ensures StatusFits(Warning, log, windows, base, floor, unconverged)
  {
  }

  lemma NothingFits(
    log: seq<Submission>, windows: seq<seq<Reply>>, base: nat, floor: Option<int>, unconverged: bool)
    requires log == [] && base < |windows| && ShowedNothing(windows[|windows| - 1], floor)
    ensures StatusFits(if unconverged then Warning else Skipped, log, windows, base, floor, unconverged)
  {
  }

  lemma AcceptedFits(
    log: seq<Submission>, windows: seq<seq<Reply>>, base: nat, floor: Option<int>, unconverged: bool, hadUnknown: bool)
    requires Swept(log).Some? && (Ambiguous(log) <==> hadUnknown) && (hadUnknown <==> |log| > 1)
    ensures StatusFits(if hadUnknown || unconverged then Warning else Success, log, windows, base, floor, unconverged)
  {
  }

  /** What was accepted is applied, so it is part of what the builder's submissions moved. */
  lemma AcceptedIsMoved(
    before: Books, now: Books, logs: Logs, key: Key, settlement: string, base: nat)
    requires Sound(before, now, logs.sent) && SafeLog(logs.At(key).sent, settlement, base)
    ensures Swept(logs.At(key).sent).Some? ==>
              var log := logs.At(key).sent;
              var moved := Moved(log, Since(before, now));
              Swept(log).value <= moved && (|log| == 1 ==> moved == Swept(log).value)
  {
    var log, sent := logs.At(key).sent, logs.sent;
    if Swept(log).Some? {
      var s := log[|log| - 1];
      OfIsPart(sent, key);
      assert s in log && s in sent;
      MovedCovers(log, Since(before, now), |log| - 1);
      if |log| == 1 {
        assert log[..0] == [];
      }
    }
  }

  /** A window has at most one steady position, and that is what the loop found. */
  lemma WindowShows(window: seq<Reply>, floor: Option<int>, b: SweepBalance)
    requires b.Steady? <==> exists k :: Asked(window, k, floor) && SteadyAt(window, k, floor)
    requires b.Steady? ==>
               exists k :: Asked(window, k, floor) && SteadyAt(window, k, floor)
                           && window[k] == Balance(b.total, b.available)
    requires b.SweepStopped? ==> exists k :: Asked(window, k, floor) && window[k].Interrupted?
    ensures b.Steady? ==> Showed(window, floor, b.available)
    ensures ShowedNothing(window, floor) <==> b.Steady? && b.available <= 0
    ensures !b.Steady? ==> NotSteady(window, floor)
    ensures b.SweepStopped? ==> Interrupted in window
  {
  }

  // ---------------------------------------------------------------- frames

  lemma WindowsThrough(a: Told, b: Told, c: Told)
    requires OnlyWindows(a, b) && OnlyWindows(b, c)
    ensures OnlyWindows(a, c)
  {
  }

  lemma MoreSigned(a: Told, b: Told, c: Told)
    requires OnlyWindows(a, b) && c == b.(signed := c.signed)
    ensures OnlyWindows(a, c)
  {
  }

  lemma SameWindows(t: Told)
    ensures OnlyWindows(t, t)
  {
  }

  lemma MoreWindows(a: Told, b: Told, c: Told, replies: seq<Reply>)
    requires OnlyWindows(a, b) && c == b.(windows := b.windows + [replies], signed := c.signed)
    ensures OnlyWindows(a, c)
  {
  }

  lemma PositiveAmounts(sent: seq<Submission>)
    requires AllPositive(sent)
    ensures forall i :: 0 <= i < |sent| ==> 0 < sent[i].amount
  {
  }

  lemma StaysPositive(sent: seq<Submission>, s: Submission)
    requires AllPositive(sent) && 0 < s.amount
    ensures AllPositive(sent + [s])
  {
  }

  lemma NonceIsLater(logs: Logs, key: Key, nonce: nat)
    requires forall i :: 0 <= i < |logs.sent| ==> logs.sent[i].nonce < nonce
    ensures forall i :: 0 <= i < |logs.At(key).sent| ==> logs.At(key).sent[i].nonce < nonce
  {
    OfIsPart(logs.sent, key);
    forall i | 0 <= i < |logs.At(key).sent|
      ensures logs.At(key).sent[i].nonce < nonce
    {
      assert logs.At(key).sent[i] in logs.sent;
    }
  }

  // ---------------------------------------------------------------- the open sweep

  /** The state of the loop while the sweep is still open: every submission so far was ambiguous or a rejected retry. */
  ghost predicate Open(
    log: seq<Submission>, settlement: string, base: nat, windows: seq<seq<Reply>>, floor: Option<int>,
    hadUnknown: bool, retryAmount: int)
  {
    && SafeLog(log, settlement, base) && RightAmounts(log, windows, floor)
    && (hadUnknown <==> Ambiguous(log)) && (hadUnknown <==> log != [])
    && (forall i :: 0 <= i < |log| ==> log[i].window < |windows| && !log[i].outcome.Accepted?)
    && (forall i :: 0 <= i < |log| && log[i].outcome.Unknown? ==> log[i].amount <= retryAmount)
    && retryAmount == LastUnknown(log) && (if hadUnknown then 0 < retryAmount else retryAmount == 0)
  }

  lemma OpenMeans(
    log: seq<Submission>, settlement: string, base: nat, windows: seq<seq<Reply>>, floor: Option<int>,
    hadUnknown: bool, retryAmount: int)
    requires Open(log, settlement, base, windows, floor, hadUnknown, retryAmount)
    ensures SafeLog(log, settlement, base) && RightAmounts(log, windows, floor)
    ensures (hadUnknown <==> Ambiguous(log)) && (hadUnknown <==> log != [])
    ensures if hadUnknown then 0 < retryAmount else retryAmount == 0
    ensures Swept(log).None?
    ensures FloorAfter(log, floor) == if hadUnknown then None else floor
    ensures forall i :: 0 <= i < |log| ==> log[i].window < |windows|
  {
  }

  lemma OpenLater(
    log: seq<Submission>, settlement: string, base: nat, windows: seq<seq<Reply>>, replies: seq<Reply>,
    floor: Option<int>, hadUnknown: bool, retryAmount: int)
    requires Open(log, settlement, base, windows, floor, hadUnknown, retryAmount)
    ensures Open(log, settlement, base, windows + [replies], floor, hadUnknown, retryAmount)
    ensures forall i :: 0 <= i < |log| ==> log[i].window < |windows|
  {
    hide Showed, AmountFrom;
    var more := windows + [replies];
    forall i | 0 <= i < |log|
      ensures RightAmount(log[i], log[..i], more, floor)
    {
      assert RightAmount(log[i], log[..i], windows, floor);
      assert more[log[i].window] == windows[log[i].window];
    }
  }

  /** A submission of the right amount keeps every promise, and the sweep stays open unless it was answered. */
  lemma SubmissionKeepsOpen(
    log: seq<Submission>, s: Submission, settlement: string, base: nat, windows: seq<seq<Reply>>,
    floor: Option<int>, hadUnknown: bool, retryAmount: int, available: int)
    requires Open(log, settlement, base, windows, floor, hadUnknown, retryAmount) && |log| < SWEEP_ATTEMPTS
    requires s.destination == settlement && 0 < s.amount && base <= s.window == |windows| - 1
    requires forall i :: 0 <= i < |log| ==> log[i].nonce < s.nonce && log[i].window < s.window
    requires Showed(windows[s.window], if hadUnknown then None else floor, available)
    requires s.amount == if available < retryAmount then retryAmount else available
    ensures SafeLog(log + [s], settlement, base) && RightAmounts(log + [s], windows, floor)
    ensures Ambiguous(log + [s]) <==> hadUnknown || s.outcome.Unknown?
    ensures s.outcome.Unknown? ==> Open(log + [s], settlement, base, windows, floor, true, s.amount)
    ensures s.outcome.Rejected? && hadUnknown ==> Open(log + [s], settlement, base, windows, floor, true, retryAmount)
  {
    hide SafeLog, RightAmounts, Ambiguous, LastUnknown, Showed;
    assert RightAmount(s, log, windows, floor) by {
      assert AmountFrom(available, log, s.amount);
    }
    AppendKeepsAmounts(log, s, windows, floor);
    AppendKeepsSafe(log, s, settlement, base);
  }

  lemma EmptyLogIsOpen(settlement: string, base: nat, windows: seq<seq<Reply>>, floor: Option<int>)
    ensures Open([], settlement, base, windows, floor, false, 0)
  {
  }

  lemma AppendKeepsSafe(log: seq<Submission>, s: Submission, settlement: string, base: nat)
    requires SafeLog(log, settlement, base) && |log| < SWEEP_ATTEMPTS
    requires s.destination == settlement && 0 < s.amount && base <= s.window
    requires forall i :: 0 <= i < |log| ==> log[i].nonce < s.nonce && log[i].window < s.window
    requires forall i :: 0 <= i < |log| ==> !log[i].outcome.Accepted?
    requires forall i :: 0 <= i < |log| && log[i].outcome.Unknown? ==> log[i].amount <= s.amount
    requires log == [] || Ambiguous(log)
    ensures SafeLog(log + [s], settlement, base)
    ensures Ambiguous(log + [s]) <==> Ambiguous(log) || s.outcome.Unknown?
  {
    var longer := log + [s];
    forall i | 0 < i < |longer|
      ensures Ambiguous(longer[..i])
    {
      assert longer[..i] == log[..i];
      if i == |log| {
        assert log[..i] == log;
      }
    }
    if s.outcome.Unknown? {
      assert longer[|log|].outcome.Unknown?;
    }
    if Ambiguous(log) {
      var i :| 0 <= i < |log| && log[i].outcome.Unknown?;
      assert longer[i].outcome.Unknown?;
    }
  }

  lemma AppendKeepsAmounts(log: seq<Submission>, s: Submission, windows: seq<seq<Reply>>, floor: Option<int>)
    requires RightAmounts(log, windows, floor) && RightAmount(s, log, windows, floor)
    ensures RightAmounts(log + [s], windows, floor)
    ensures LastUnknown(log + [s]) == if s.outcome.Unknown? then s.amount else LastUnknown(log)
  {
    hide RightAmount;
    var longer := log + [s];
    assert longer[..|log|] == log;
    forall i | 0 <= i < |longer|
      ensures RightAmount(longer[i], longer[..i], windows, floor)
    {
      if i < |log| {
        assert RightAmount(log[i], log[..i], windows, floor) && longer[..i] == log[..i];
      }
    }
  }
}
