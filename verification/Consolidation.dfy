/**
 The UTC 00:00 consolidation: capture, persist, baseline, claim, observe, sweep, and persist again
 (internal/funding/consolidation.go, daily_consolidation.go and the builder half of orchestrator.go).

 The service asks all builders concurrently and joins every round, and nothing it does for one builder
 depends on another; the loops below take the builders one after the other. `false` is a cancelled or
 crashed task: the process may stop after every effect.
 */
module Consolidation {
  import opened Wrappers
  import opened Funding
  import opened Nonces
  import opened Exchanges
  import opened Reports
  import opened Sweep
  import opened Claims
  import opened Stages

  /** What the service is configured with; `unit` is the least amount of the token. */
  datatype Setup = Setup(builders: seq<string>, settlement: string, unit: int)

  ghost predicate ValidSetup(c: Setup) {
    && c.builders != [] && (forall i :: 0 <= i < |c.builders| ==> c.builders[i] != "")
    && Distinct(c.builders) && c.settlement !in c.builders && 0 < c.unit
  }

  // ---------------------------------------------------------------- the durable invariant

  /** The records by UTC date, and the claimables of each date as they were first made durable. */
  datatype Days = Days(records: map<nat, DailyRecord>, frozen: map<nat, seq<Option<int>>>)

  /** An entry carries the claimables the exchange answered; a completed one says what the exchange saw. */
  ghost predicate EntryTrue(c: Setup, r: DailyRecord, i: nat, logs: Logs)
    requires 0 < c.unit && i < |c.builders| && i < |r.builders|
  {
    var v := logs.At(Key(r.date, c.builders[i]));
    && r.builders[i].address == c.builders[i]
    && CaptureTrue(r.builders[i], v.told)
    && (r.status.RecordCompleted? ==> Finished(r.builders[i], v, c.settlement, c.unit))
  }

  ghost predicate RecordTrue(c: Setup, r: DailyRecord, logs: Logs)
    requires 0 < c.unit
  {
    |r.builders| == |c.builders| && forall i :: 0 <= i < |c.builders| ==> EntryTrue(c, r, i, logs)
  }

  ghost predicate DayOk(c: Setup, d: Days, n: nat, logs: Logs)
    requires 0 < c.unit && n in d.records
  {
    && Valid(d.records[n]) && d.records[n].date == n
    && n in d.frozen && Claimables(d.records[n]) == d.frozen[n]
    && RecordTrue(c, d.records[n], logs)
  }

  /** Claims are in order, and nothing but claimables was asked before the date had its record. */
  ghost predicate KeyOk(d: Days, k: Key, logs: Logs) {
    && ClaimOk(logs.At(k).told)
    && (k.date !in d.records ==> Quiet(logs.At(k)))
  }

  /** A claim reached the exchange at most once, and only if the answers called for it. */
  ghost predicate ClaimOk(told: Told) {
    && |told.replies| <= 1
    && (told.replies != [] ==> told.answers != [] && CallsForClaim(told.answers[|told.answers| - 1]))
  }

  ghost predicate DailyInv(c: Setup, d: Days, logs: Logs) {
    && ValidSetup(c)
    && (forall n :: n in d.records ==> DayOk(c, d, n, logs))
    && (forall n :: n in d.frozen ==> n in d.records)
    && (forall k: Key :: KeyOk(d, k, logs))
    && AllToSettlement(logs.sent, c.builders, c.settlement)
  }

  /** What was claimed: once for a builder and a date, and with the claimables of that date on record. */
  ghost predicate ClaimedOnce(d: Days, logs: Logs) {
    forall k: Key ::
      && ClaimOk(logs.At(k).told)
      && (logs.At(k).told.replies != [] ==>
            && k.date in d.records && Valid(d.records[k.date])
            && k.date in d.frozen && Claimables(d.records[k.date]) == d.frozen[k.date])
  }

  /** Every record is valid, and says of every builder what the exchange has on its log. */
  ghost predicate RecordsAreTrue(c: Setup, d: Days, logs: Logs)
    requires 0 < c.unit
  {
    forall n :: n in d.records ==> d.records[n].date == n && Valid(d.records[n]) && RecordTrue(c, d.records[n], logs)
  }

  /** In every completed record, whether a builder was claimed for is what the answers call for. */
  ghost predicate ClaimsFollowAnswers(c: Setup, d: Days, logs: Logs) {
    forall n :: n in d.records && d.records[n].status.RecordCompleted? ==>
      && |d.records[n].builders| == |c.builders|
      && forall i :: 0 <= i < |c.builders| ==>
           DecidedByAnswers(d.records[n].builders[i].claimStatus, logs.At(Key(n, c.builders[i])).told)
  }

  lemma RecordsFollowAnswers(c: Setup, d: Days, logs: Logs)
    requires 0 < c.unit && RecordsAreTrue(c, d, logs)
    ensures ClaimsFollowAnswers(c, d, logs)
  {
    hide DecidedByAnswers, ClaimTrue, SweepTrue, CaptureTrue, Logs.At, Valid;
    forall n | n in d.records && d.records[n].status.RecordCompleted?
      ensures |d.records[n].builders| == |c.builders|
      ensures forall i :: 0 <= i < |c.builders| ==>
                DecidedByAnswers(d.records[n].builders[i].claimStatus, logs.At(Key(n, c.builders[i])).told)
    {
      var r := d.records[n];
      forall i | 0 <= i < |c.builders|
        ensures DecidedByAnswers(r.builders[i].claimStatus, logs.At(Key(n, c.builders[i])).told)
      {
        assert EntryTrue(c, r, i, logs);
        ClaimIsDecided(r.builders[i], logs.At(Key(n, c.builders[i])).told, c.unit);
      }
    }
  }

  lemma InvMeans(c: Setup, d: Days, logs: Logs)
    requires DailyInv(c, d, logs)
    ensures ClaimedOnce(d, logs) && RecordsAreTrue(c, d, logs)
  {
    hide RecordTrue, Valid, Claimables, Logs.At, AllToSettlement;
    forall k: Key
      ensures ClaimOk(logs.At(k).told)
      ensures logs.At(k).told.replies != [] ==> k.date in d.records && DayOk(c, d, k.date, logs)
    {
      assert KeyOk(d, k, logs);
    }
  }

  lemma QuietBefore(c: Setup, d: Days, logs: Logs, k: Key)
    requires DailyInv(c, d, logs) && k.date !in d.records
    ensures Quiet(logs.At(k))
  {
    hide DayOk;
    assert KeyOk(d, k, logs);
  }

  /** A step for one builder of a date whose record is durable and not yet completed. */
  lemma StepKeepsInv(c: Setup, d: Days, logs: Logs, logs': Logs, key: Key)
    requires DailyInv(c, d, logs) && Only(logs, logs', key)
    requires key.date in d.records && !d.records[key.date].status.RecordCompleted?
    requires logs'.At(key).told.answers == logs.At(key).told.answers && ClaimOk(logs'.At(key).told)
    requires AllToSettlement(logs'.sent, c.builders, c.settlement)
    ensures DailyInv(c, d, logs')
  {
    hide Valid, Claimables, Logs.At, AllToSettlement, Quiet, Finished, FirstNonNegative;
    forall n | n in d.records
      ensures DayOk(c, d, n, logs')
    {
      assert DayOk(c, d, n, logs);
      forall i | 0 <= i < |c.builders|
        ensures EntryTrue(c, d.records[n], i, logs')
      {
        assert EntryTrue(c, d.records[n], i, logs);
        assert Key(n, c.builders[i]) == key || logs'.At(Key(n, c.builders[i])) == logs.At(Key(n, c.builders[i]));
      }
    }
    forall k: Key
      ensures KeyOk(d, k, logs')
    {
      assert KeyOk(d, k, logs);
    }
  }

  /** Asking for claimables on a date that has no record yet. */
  lemma AskingKeepsInv(c: Setup, d: Days, logs: Logs, logs': Logs, key: Key)
    requires DailyInv(c, d, logs) && Only(logs, logs', key)
    requires key.date !in d.records && Quiet(logs'.At(key)) && logs'.sent == logs.sent
    ensures DailyInv(c, d, logs')
  {
    hide Valid, Claimables, Logs.At, AllToSettlement, Finished, CaptureTrue;
    forall n | n in d.records
      ensures DayOk(c, d, n, logs')
    {
      assert DayOk(c, d, n, logs);
      forall i | 0 <= i < |c.builders|
        ensures EntryTrue(c, d.records[n], i, logs')
      {
        assert EntryTrue(c, d.records[n], i, logs);
        assert logs'.At(Key(n, c.builders[i])) == logs.At(Key(n, c.builders[i]));
      }
    }
    forall k: Key
      ensures KeyOk(d, k, logs')
    {
      assert KeyOk(d, k, logs);
    }
  }

  ghost function Written(d: Days, r: DailyRecord): Days {
    Days(d.records[r.date := r], if r.date in d.frozen then d.frozen else d.frozen[r.date := Claimables(r)])
  }

  /** Writing the record of one date leaves every other date as it was. */
  lemma WritingKeepsInv(c: Setup, d: Days, logs: Logs, r: DailyRecord)
    requires DailyInv(c, d, logs) && Valid(r) && RecordTrue(c, r, logs)
    requires r.date in d.records ==> Claimables(r) == d.frozen[r.date]
    ensures DailyInv(c, Written(d, r), logs)
  {
    hide RecordTrue, Valid, Claimables, Logs.At, AllToSettlement, Quiet;
    var d' := Written(d, r);
    forall n | n in d'.records
      ensures DayOk(c, d', n, logs)
    {
      assert n != r.date ==> DayOk(c, d, n, logs);
    }
    forall k: Key
      ensures KeyOk(d', k, logs)
    {
      assert KeyOk(d, k, logs);
    }
  }

  /** The new submissions of one builder's safe log go where all the others went. */
  lemma SweepGoesToSettlement(c: Setup, logs: Logs, logs': Logs, key: Key)
    requires AllToSettlement(logs.sent, c.builders, c.settlement) && Only(logs, logs', key)
    requires SafeLog(logs'.At(key).sent, c.settlement, 0) && key.builder in c.builders
    ensures AllToSettlement(logs'.sent, c.builders, c.settlement)
  {
    OfIsPart(logs'.sent, key);
    forall i | |logs.sent| <= i < |logs'.sent|
      ensures logs'.sent[i].destination == c.settlement && 0 < logs'.sent[i].amount
    {
      assert logs'.sent[i].key == key && logs'.sent[i] in logs'.sent;
      assert logs'.sent[i] in logs'.At(key).sent;
    }
  }

  lemma SettlementIsPositive(c: Setup, sent: seq<Submission>)
    requires AllToSettlement(sent, c.builders, c.settlement)
    ensures AllPositive(sent)
  {
  }

  /** What the exchange knows about every other builder stays as it was. */
  lemma OthersStay(c: Setup, logs: Logs, logs': Logs, date: nat, i: nat)
    requires ValidSetup(c) && i < |c.builders| && Only(logs, logs', Key(date, c.builders[i]))
    ensures forall j :: 0 <= j < |c.builders| && j != i ==>
              logs'.At(Key(date, c.builders[j])) == logs.At(Key(date, c.builders[j]))
    ensures forall k: Key :: k.date != date ==> logs'.At(k) == logs.At(k)
  {
    hide Logs.At;
    forall j | 0 <= j < |c.builders| && j != i
      ensures Key(date, c.builders[j]) != Key(date, c.builders[i])
    {
    }
  }

  /** Nothing is told or sent about any other date. */
  ghost predicate OnlyDate(logs: Logs, logs': Logs, date: nat) {
    forall k: Key :: k.date != date ==> logs'.At(k) == logs.At(k)
  }

  // ---------------------------------------------------------------- the task

  class DailyTask {
    const setup: Setup
    const nonces: NonceGenerator
    const exchange: Exchange
    var reports: seq<BuilderReport>
    var records: map<nat, DailyRecord>
    ghost var frozen: map<nat, seq<Option<int>>>

    ghost predicate Configured()
      reads this
    {
      && ValidSetup(setup) && |reports| == |setup.builders|
      && (forall i :: 0 <= i < |reports| ==> reports[i].address == setup.builders[i])
    }

    ghost function State(): Days
      reads this
    {
      Days(records, frozen)
    }

    ghost predicate Durable()
      reads this, exchange
    {
      exchange.Valid() && DailyInv(setup, State(), exchange.logs)
    }

    /** The date has its claimables on record and is not completed. */
    ghost predicate Begun(date: nat)
      reads this
    {
      date in records && !records[date].status.RecordCompleted?
    }

    /** What the exchange has on its log about builder i. */
    ghost function Seen(date: nat, i: nat): View
      reads this, exchange
      requires i < |setup.builders|
    {
      exchange.logs.At(Key(date, setup.builders[i]))
    }

    constructor (setup: Setup, books: Books)
      requires ValidSetup(setup)
      ensures Configured() && Durable() && fresh(nonces) && fresh(exchange)
      ensures State() == Days(map[], map[]) && exchange.initial == books
    {
      this.setup := setup;
      nonces := new NonceGenerator();
      exchange := new Exchange(books);
      reports := seq(|setup.builders|, i requires 0 <= i < |setup.builders| => Blank(setup.builders[i]));
      records, frozen := map[], map[];
    }

    /** newRunReport and captureBuilderClaimables. */
    method Capture(date: nat) returns (ok: bool)
      requires Configured() && Durable() && date !in records
      modifies this`reports, exchange`logs, exchange`refusals
      ensures Configured() && Durable() && OnlyDate(old(exchange.logs), exchange.logs, date)
      ensures ok ==> forall i :: 0 <= i < |reports| ==> Captured(reports[i], Seen(date, i))
      ensures old(exchange.refusals) <= exchange.refusals && (!ok ==> old(exchange.refusals) < exchange.refusals)
    {
      hide DailyInv, Captured, Only, Logs.At, Sound, ValidSetup;
      for i := 0 to |setup.builders|
        invariant old(exchange.refusals) <= exchange.refusals
        invariant Configured() && Durable() && OnlyDate(old(exchange.logs), exchange.logs, date)
        invariant forall j :: 0 <= j < i ==> Captured(reports[j], Seen(date, j))
      {
        var cancelled := exchange.Refuses();
        if cancelled {
          return false;
        }
        var key := Key(date, setup.builders[i]);
        ghost var before := exchange.logs;
        QuietBefore(setup, State(), before, key);
        var r := CaptureBuilder(exchange, key, setup.builders[i]);
        CapturedIsQuiet(r, exchange.logs.At(key));
        AskingKeepsInv(setup, State(), before, exchange.logs, key);
        OthersStay(setup, before, exchange.logs, date, i);
        reports := reports[i := r];
      }
      ok := true;
    }

    /** captureClaimBalanceBaselines: two adjacent equal tuples within five queries, or no claim. */
    method TakeBaselines(date: nat) returns (ok: bool, baselines: seq<Option<Balances>>)
      requires Configured() && Durable() && Begun(date)
      requires forall i :: 0 <= i < |reports| ==> Captured(reports[i], Seen(date, i))
      modifies this`reports, exchange`logs, exchange`refusals
      ensures Configured() && Durable() && OnlyDate(old(exchange.logs), exchange.logs, date)
      ensures ok ==> |baselines| == |reports|
      ensures ok ==> forall i :: 0 <= i < |reports| ==> Baselined(reports[i], baselines[i], Seen(date, i))
      ensures old(exchange.refusals) <= exchange.refusals && (!ok ==> old(exchange.refusals) < exchange.refusals)
    {
      hide DailyInv, Captured, Baselined, Only, Logs.At, Sound, ValidSetup, AllToSettlement;
      baselines := [];
      for i := 0 to |setup.builders|
        invariant old(exchange.refusals) <= exchange.refusals
        invariant Configured() && Durable() && OnlyDate(old(exchange.logs), exchange.logs, date)
        invariant |baselines| == i
        invariant forall j :: 0 <= j < i ==> Baselined(reports[j], baselines[j], Seen(date, j))
        invariant forall j :: i <= j < |reports| ==> Captured(reports[j], Seen(date, j))
      {
        var key := Key(date, setup.builders[i]);
        ghost var before := exchange.logs;
        var done, r, baseline := BaselineBuilder(exchange, key, reports[i]);
        SettlementStays(setup, State(), before, exchange.logs);
        UnclaimedIsOk(exchange.logs.At(key).told);
        StepKeepsInv(setup, State(), before, exchange.logs, key);
        OthersStay(setup, before, exchange.logs, date, i);
        if !done {
          return false, baselines;
        }
        reports, baselines := reports[i := r], baselines + [baseline];
      }
      ok := true;
    }

    /** claimBuilderRewards: at most one claim for each builder, and only once its record is durable. */
    method ClaimRewards(date: nat, baselines: seq<Option<Balances>>) returns (ok: bool, targets: seq<Option<Target>>)
      requires Configured() && Durable() && Begun(date) && |baselines| == |reports|
      requires forall i :: 0 <= i < |reports| ==> Baselined(reports[i], baselines[i], Seen(date, i))
      modifies this`reports, exchange`logs, exchange`refusals
      ensures Configured() && Durable() && OnlyDate(old(exchange.logs), exchange.logs, date)
      ensures ok ==> |targets| == |reports|
      ensures ok ==> forall i :: 0 <= i < |reports| ==>
                Claimed(reports[i], targets[i], Seen(date, i), setup.unit) && Seen(date, i).told.samples == []
      ensures old(exchange.refusals) <= exchange.refusals && (!ok ==> old(exchange.refusals) < exchange.refusals)
    {
      hide DailyInv, Claimed, Baselined, Only, Logs.At, Sound, ValidSetup, AllToSettlement;
      SetupIsValid(setup);
      targets := [];
      for i := 0 to |setup.builders|
        invariant old(exchange.refusals) <= exchange.refusals
        invariant Configured() && Durable() && OnlyDate(old(exchange.logs), exchange.logs, date)
        invariant |targets| == i
        invariant forall j :: 0 <= j < i ==>
                    Claimed(reports[j], targets[j], Seen(date, j), setup.unit) && Seen(date, j).told.samples == []
        invariant forall j :: i <= j < |reports| ==> Baselined(reports[j], baselines[j], Seen(date, j))
      {
        var cancelled := exchange.Refuses();
        if cancelled {
          return false, targets;
        }
        var key := Key(date, setup.builders[i]);
        ghost var before := exchange.logs;
        var r, target := ClaimBuilder(exchange, key, reports[i], baselines[i], setup.unit);
        SettlementStays(setup, State(), before, exchange.logs);
        ClaimedIsOnce(r, target, exchange.logs.At(key), setup.unit);
        StepKeepsInv(setup, State(), before, exchange.logs, key);
        OthersStay(setup, before, exchange.logs, date, i);
        reports, targets := reports[i := r], targets + [target];
      }
      ok := true;
    }

    /** The answers that the observation of the claims will get. */
    method DrawTraces(date: nat, targets: seq<Option<Target>>) returns (traces: seq<seq<Sample>>)
      requires Configured() && Durable() && Begun(date) && |targets| == |reports|
      requires forall i :: 0 <= i < |reports| ==>
                 Claimed(reports[i], targets[i], Seen(date, i), setup.unit) && Seen(date, i).told.samples == []
      modifies exchange`logs
      ensures Durable() && OnlyDate(old(exchange.logs), exchange.logs, date) && |traces| == |reports|
      ensures forall i :: 0 <= i < |reports| ==>
                && Claimed(reports[i], targets[i], Seen(date, i), setup.unit)
                && traces[i] == Seen(date, i).told.samples
                && (targets[i].Some? ==> |traces[i]| == Claims.OBSERVATION_ATTEMPTS)
    {
      hide DailyInv, Claimed, Only, Logs.At, Sound, ValidSetup, AllToSettlement;
      SetupIsValid(setup);
      traces := [];
      for i := 0 to |setup.builders|
        invariant Durable() && OnlyDate(old(exchange.logs), exchange.logs, date) && |traces| == i
        invariant forall j :: 0 <= j < i ==>
                    && Claimed(reports[j], targets[j], Seen(date, j), setup.unit)
                    && traces[j] == Seen(date, j).told.samples
                    && (targets[j].Some? ==> |traces[j]| == Claims.OBSERVATION_ATTEMPTS)
        invariant forall j :: i <= j < |reports| ==>
                    Claimed(reports[j], targets[j], Seen(date, j), setup.unit) && Seen(date, j).told.samples == []
      {
        var key := Key(date, setup.builders[i]);
        ghost var before := exchange.logs;
        var trace := DrawTrace(exchange, key, reports[i], targets[i], setup.unit);
        SettlementStays(setup, State(), before, exchange.logs);
        ClaimedIsOnce(reports[i], targets[i], exchange.logs.At(key), setup.unit);
        StepKeepsInv(setup, State(), before, exchange.logs, key);
        OthersStay(setup, before, exchange.logs, date, i);
        traces := traces + [trace];
      }
    }

    /**
     observeClaimBalances and its effect on the report: a claim becomes a success exactly when the logged
     trace witnesses it, and a warning otherwise.
     */
    method ObserveRewards(date: nat, targets: seq<Option<Target>>)
      returns (ok: bool, floors: seq<Option<int>>, unconverged: seq<bool>)
      requires Configured() && Durable() && Begun(date) && |targets| == |reports|
      requires forall i :: 0 <= i < |reports| ==>
                 Claimed(reports[i], targets[i], Seen(date, i), setup.unit) && Seen(date, i).told.samples == []
      modifies this`reports, exchange`logs, exchange`refusals
      ensures Configured() && Durable() && OnlyDate(old(exchange.logs), exchange.logs, date)
      ensures ok ==> |floors| == |unconverged| == |reports|
      ensures ok ==> forall i :: 0 <= i < |reports| ==>
                && Observed(reports[i], Seen(date, i), setup.unit)
                && floors[i] == FloorOf(reports[i], Seen(date, i).told, setup.unit)
                && unconverged[i] == Unconverged(reports[i], Seen(date, i).told, setup.unit)
      ensures old(exchange.refusals) <= exchange.refusals && (!ok ==> old(exchange.refusals) < exchange.refusals)
    {
      hide DailyInv, Claimed, Observed, Only, Logs.At, Sound, Observe, FloorOf, Unconverged, TargetOf, Watched;
      floors, unconverged := [], [];
      var cancelled := exchange.Refuses();
      if cancelled {
        return false, floors, unconverged;
      }
      var traces := DrawTraces(date, targets);
      ClaimedTargetsAreFresh(setup, reports, targets, date, exchange.logs);
      var board := WatchTargets(setup.builders, targets, traces);
      floors, unconverged := SettleAll(date, targets, board);
      ok := true;
    }

    /** What the observation leaves in every report, and what it hands to the sweep. */
    method SettleAll(date: nat, targets: seq<Option<Target>>, board: Board)
      returns (floors: seq<Option<int>>, unconverged: seq<bool>)
      requires Configured() && |targets| == |reports|
      requires forall i :: 0 <= i < |reports| ==>
                 && Claimed(reports[i], targets[i], Seen(date, i), setup.unit)
                 && Watched(board, setup.builders[i], targets[i], Seen(date, i).told.samples)
      modifies this`reports
      ensures Configured() && |floors| == |unconverged| == |reports|
      ensures forall i :: 0 <= i < |reports| ==>
                && Observed(reports[i], Seen(date, i), setup.unit)
                && floors[i] == FloorOf(reports[i], Seen(date, i).told, setup.unit)
                && unconverged[i] == Unconverged(reports[i], Seen(date, i).told, setup.unit)
    {
      hide Claimed, Observed, Logs.At, Observe, FloorOf, Unconverged, TargetOf, ValidSetup, SameCapture;
      SetupIsValid(setup);
      floors, unconverged := [], [];
      for i := 0 to |setup.builders|
        invariant Configured() && |floors| == |unconverged| == i
        invariant forall j :: 0 <= j < i ==>
                    && Observed(reports[j], Seen(date, j), setup.unit)
                    && floors[j] == FloorOf(reports[j], Seen(date, j).told, setup.unit)
                    && unconverged[j] == Unconverged(reports[j], Seen(date, j).told, setup.unit)
        invariant forall j :: i <= j < |reports| ==> reports[j] == old(reports)[j]
      {
        var b, open := setup.builders[i], setup.builders[i] in board.pending;
        var floor := if b in board.balances && !open then Some(board.balances[b].total) else None;
        WatchedMeans(board, b, targets[i], Seen(date, i).told.samples);
        var r := SettleObservation(reports[i], targets[i], open, Seen(date, i), setup.unit);
        FloorIs(reports[i], r, targets[i], Seen(date, i), setup.unit, board, b, floor);
        SameAddress(reports[i], r);
        reports, floors := reports[i := r], floors + [floor];
        unconverged := unconverged + [targets[i].Some? && open];
      }
    }

    /** sweepBuilderBalances over all builders. */
    method SweepAll(date: nat, floors: seq<Option<int>>, unconverged: seq<bool>) returns (ok: bool)
      requires Configured() && Durable() && Begun(date) && |floors| == |unconverged| == |reports|
      requires forall i :: 0 <= i < |reports| ==>
                 && Observed(reports[i], Seen(date, i), setup.unit)
                 && floors[i] == FloorOf(reports[i], Seen(date, i).told, setup.unit)
                 && unconverged[i] == Unconverged(reports[i], Seen(date, i).told, setup.unit)
      modifies this`reports, exchange, nonces
      ensures Configured() && Durable() && OnlyDate(old(exchange.logs), exchange.logs, date)
      ensures ok ==> forall i :: 0 <= i < |reports| ==>
                Finished(reports[i], Seen(date, i), setup.settlement, setup.unit)
      ensures old(exchange.refusals) <= exchange.refusals && (!ok ==> old(exchange.refusals) < exchange.refusals)
    {
      hide DailyInv, Finished, Observed, Only, Logs.At, Sound, ValidSetup, AllToSettlement, AllPositive;
      hide FloorOf, Unconverged, SafeLog, OnlyWindows;
      SetupIsValid(setup);
      for i := 0 to |setup.builders|
        invariant old(exchange.refusals) <= exchange.refusals
        invariant Configured() && Durable() && OnlyDate(old(exchange.logs), exchange.logs, date)
        invariant forall j :: 0 <= j < i ==> Finished(reports[j], Seen(date, j), setup.settlement, setup.unit)
        invariant forall j :: i <= j < |reports| ==>
                    && Observed(reports[j], Seen(date, j), setup.unit)
                    && floors[j] == FloorOf(reports[j], Seen(date, j).told, setup.unit)
                    && unconverged[j] == Unconverged(reports[j], Seen(date, j).told, setup.unit)
      {
        var key := Key(date, setup.builders[i]);
        ghost var before := exchange.logs;
        InvIsPositive(setup, State(), before);
        var done, r := SweepOne(
          exchange, nonces, key, reports[i], setup.settlement, setup.unit, floors[i], unconverged[i]);
        SweepKeepsInv(setup, State(), before, exchange.logs, key);
        OthersStay(setup, before, exchange.logs, date, i);
        if !done {
          return false;
        }
        reports := reports[i := r];
      }
      ok := true;
    }

    /** SaveDailyConsolidation of a valid record: one rename makes it durable. */
    method SaveRecord(r: DailyRecord) returns (ok: bool)
      requires Configured() && Durable() && Valid(r) && RecordTrue(setup, r, exchange.logs)
      requires r.date in records ==> r.date in frozen && Claimables(r) == frozen[r.date]
      modifies this`records, this`frozen, exchange`refusals
      ensures Durable()
      ensures State() == old(State()) || State() == Written(old(State()), r)
      ensures ok ==> State() == Written(old(State()), r)
      ensures old(exchange.refusals) <= exchange.refusals && (!ok ==> old(exchange.refusals) < exchange.refusals)
    {
      hide Valid, RecordTrue, Claimables, Sound, DailyInv;
      var failed := exchange.Refuses();
      if failed {
        return false;
      }
      var valid := Validate(r);
      assert valid;
      ghost var before := State();
      WritingKeepsInv(setup, before, exchange.logs, r);
      records := records[r.date := r];
      if r.date !in frozen {
        frozen := frozen[r.date := Claimables(r)];
      }
      assert State() == Written(before, r);
      failed := exchange.Refuses();
      ok := !failed;
    }

    /** dailyConsolidationFromReport. */
    method RecordOf(date: nat, status: RecordStatus, startedAt: nat, capturedAt: nat, completedAt: nat)
      returns (r: DailyRecord)
      requires Configured() && startedAt != 0 && capturedAt != 0
      requires status.ClaimablesCaptured? <==> completedAt == 0
      requires forall i :: 0 <= i < |reports| ==>
                 if status.ClaimablesCaptured? then Captured(reports[i], Seen(date, i))
                 else Finished(reports[i], Seen(date, i), setup.settlement, setup.unit)
      ensures Valid(r) && r.date == date && r.builders == reports && r.status == status
      ensures r.startedAt == startedAt && r.capturedAt == capturedAt && r.completedAt == completedAt
      ensures RecordTrue(setup, r, exchange.logs)
    {
      hide Captured, Finished, Logs.At;
      r := DailyRecord(date, status, startedAt, capturedAt, completedAt, reports);
      forall i | 0 <= i < |reports|
        ensures ValidEntry(reports[i], status.ClaimablesCaptured?) && EntryTrue(setup, r, i, exchange.logs)
      {
        EntryIsTrue(reports[i], Seen(date, i), status.ClaimablesCaptured?, setup.settlement, setup.unit);
      }
    }

    /** The first half of the task: the claimables of a new date are captured and made durable. */
    method FreezeClaimables(date: nat, startedAt: nat, capturedAt: nat) returns (ok: bool, record: DailyRecord)
      requires Configured() && Durable() && date !in records && startedAt != 0 && capturedAt != 0
      modifies this, exchange`logs, exchange`refusals
      ensures Configured() && Durable() && OnlyDate(old(exchange.logs), exchange.logs, date)
      ensures record.date == date && record.status.ClaimablesCaptured?
      ensures State() == old(State()) || State() == Written(old(State()), record)
      ensures ok ==> State() == Written(old(State()), record) && record.builders == reports
      ensures ok ==> forall i :: 0 <= i < |reports| ==> Captured(reports[i], Seen(date, i))
      ensures old(exchange.refusals) <= exchange.refusals && (!ok ==> old(exchange.refusals) < exchange.refusals)
    {
      hide Captured, Valid, Claimables, DailyInv, Sound, RecordTrue, Logs.At, Finished;
      record := DailyRecord(date, ClaimablesCaptured, startedAt, capturedAt, 0, []);
      ok := Capture(date);
      if !ok {
        return;
      }
      record := RecordOf(date, ClaimablesCaptured, startedAt, capturedAt, 0);
      ok := SaveRecord(record);
    }

    /**
     runConsolidation once its claimables are captured and durable. Without an error no step is pending,
     and every report is what the exchange has on its log.
     */
    method ClaimAndSweep(date: nat) returns (ok: bool)
      requires Configured() && Durable() && Begun(date)
      requires forall i :: 0 <= i < |reports| ==> Captured(reports[i], Seen(date, i))
      modifies this`reports, exchange, nonces
      ensures Configured() && Durable() && OnlyDate(old(exchange.logs), exchange.logs, date)
      ensures ok ==> forall i :: 0 <= i < |reports| ==>
                Finished(reports[i], Seen(date, i), setup.settlement, setup.unit)
      ensures old(exchange.refusals) <= exchange.refusals && (!ok ==> old(exchange.refusals) < exchange.refusals)
    {
      hide Captured, Baselined, Claimed, Observed, Finished, DailyInv, Sound, Logs.At, FloorOf, Unconverged;
      hide ValidSetup;
      SetupIsValid(setup);
      var baselines, targets, floors, unconverged;
      ok, baselines := TakeBaselines(date);
      if !ok {
        return false;
      }
      ok, targets := ClaimRewards(date, baselines);
      if !ok {
        return false;
      }
      ok, floors, unconverged := ObserveRewards(date, targets);
      if !ok {
        return false;
      }
      ok := SweepAll(date, floors, unconverged);
    }

    /**
     RunDailyConsolidation on one UTC date. If it returns without error its record is completed, valid and
     what the exchange has on its log; whether or not it does, what it claimed was claimed once and after
     the claimables were durable.
     */
    method RunDaily(date: nat, startedAt: nat, capturedAt: nat, completedAt: nat) returns (ok: bool)
      requires Configured() && Durable()
      requires startedAt != 0 && capturedAt != 0 && completedAt != 0
      modifies this, exchange, nonces
      ensures Configured() && Durable() && OnlyDate(old(exchange.logs), exchange.logs, date)
      ensures forall d :: d in old(frozen) ==> d in frozen && frozen[d] == old(frozen)[d]
      ensures date in old(records) ==> State() == old(State()) && exchange.logs == old(exchange.logs)
      ensures forall d :: d != date && d in old(records) ==> d in records && records[d] == old(records)[d]
      ensures ok && date !in old(records) ==>
                && date in records && records[date].status.RecordCompleted?
                && records[date].startedAt == startedAt && records[date].capturedAt == capturedAt
                && records[date].completedAt == completedAt
                && RecordTrue(setup, records[date], exchange.logs)
      ensures old(exchange.refusals) <= exchange.refusals && (!ok ==> old(exchange.refusals) < exchange.refusals)
    {
      hide Captured, Finished, Valid, DailyInv, Claimables, Sound, Logs.At, RecordTrue, ValidSetup;
      SetupIsValid(setup);
      var unreadable := exchange.Refuses();
      if unreadable {  // the record could not be loaded
        return false;
      }
      if date in records {
        return true;
      }
      NothingFrozen(setup, State(), exchange.logs, date);
      var record;
      ok, record := FreezeClaimables(date, startedAt, capturedAt);
      if !ok {
        return false;
      }
      ok := ClaimAndSweep(date);
      if !ok {
        return false;
      }
      record := RecordOf(date, RecordCompleted, startedAt, capturedAt, completedAt);
      SameClaimables(setup, State(), exchange.logs, record);
      ok := SaveRecord(record);
    }

    /**
     Any number of daily runs on any dates, each of which may be cut anywhere. A builder is claimed for at
     most once on a date and never before that date's claimables are durable; those never change; every
     record is what the exchange has on its log; and settlement gained exactly what all builders lost.
     */
    method Lifetime(days: seq<nat>)
      requires Configured() && Durable()
      modifies this, exchange, nonces
      ensures Configured() && Durable()
      ensures forall d :: d in old(frozen) ==> d in frozen && frozen[d] == old(frozen)[d]
      ensures ClaimedOnce(State(), exchange.logs)
      ensures RecordsAreTrue(setup, State(), exchange.logs)
      ensures ClaimsFollowAnswers(setup, State(), exchange.logs)
      ensures Conserved(exchange.initial, exchange.books, exchange.logs.sent, setup.builders, setup.settlement)
    {
      hide DailyInv, Sound, ValidSetup, Conserved;
      SetupIsValid(setup);
      for i := 0 to |days|
        invariant Configured() && Durable()
        invariant forall d :: d in old(frozen) ==> d in frozen && frozen[d] == old(frozen)[d]
      {
        if * {
          nonces.Renew();  // a new process
        }
        InvIsPositive(setup, State(), exchange.logs);
        exchange.Move();
        var startedAt: nat, capturedAt: nat, completedAt: nat := *, *, *;
        var ok := RunDaily(days[i], startedAt + 1, capturedAt + 1, completedAt + 1);
      }
      InvMeans(setup, State(), exchange.logs);
      RecordsFollowAnswers(setup, State(), exchange.logs);
      InvConserves(setup, State(), exchange.logs, exchange.initial, exchange.books);
    }
  }

  // ---------------------------------------------------------------- small steps

  lemma SetupIsValid(c: Setup)
    ensures ValidSetup(c) ==> 0 < c.unit
  {
  }

  lemma CapturedIsQuiet(r: BuilderReport, v: View)
    requires Captured(r, v)
    ensures Quiet(v)
  {
  }

  lemma ClaimedIsOnce(r: BuilderReport, t: Option<Target>, v: View, unit: int)
    requires 0 < unit && Claimed(r, t, v, unit)
    ensures ClaimOk(v.told)
  {
    DueMeans(r, v.told);
  }

  lemma UnclaimedIsOk(told: Told)
    requires told.replies == []
    ensures ClaimOk(told)
  {
  }

  lemma SettlementStays(c: Setup, d: Days, logs: Logs, logs': Logs)
    requires DailyInv(c, d, logs) && logs'.sent == logs.sent
    ensures AllToSettlement(logs'.sent, c.builders, c.settlement)
  {
  }

  lemma InvIsPositive(c: Setup, d: Days, logs: Logs)
    requires DailyInv(c, d, logs)
    ensures AllPositive(logs.sent) && forall i :: 0 <= i < |logs.sent| ==> 0 < logs.sent[i].amount
  {
    SettlementIsPositive(c, logs.sent);
  }

  lemma SweepKeepsInv(c: Setup, d: Days, logs: Logs, logs': Logs, key: Key)
    requires DailyInv(c, d, logs) && Only(logs, logs', key) && key.builder in c.builders
    requires key.date in d.records && !d.records[key.date].status.RecordCompleted?
    requires OnlyWindows(logs.At(key).told, logs'.At(key).told)
    requires SafeLog(logs'.At(key).sent, c.settlement, 0)
    ensures DailyInv(c, d, logs')
  {
    hide DayOk, Only, SafeLog, Logs.At;
    assert KeyOk(d, key, logs);
    SweepGoesToSettlement(c, logs, logs', key);
    StepKeepsInv(c, d, logs, logs', key);
  }

  lemma InvConserves(c: Setup, d: Days, logs: Logs, before: Books, now: Books)
    requires DailyInv(c, d, logs) && Sound(before, now, logs.sent)
    ensures Conserved(before, now, logs.sent, c.builders, c.settlement)
  {
    BalanceIsConserved(before, now, logs.sent, c.builders, c.settlement);
  }

  lemma NothingFrozen(c: Setup, d: Days, logs: Logs, date: nat)
    requires DailyInv(c, d, logs)
    ensures date in d.frozen ==> date in d.records
  {
  }

  lemma EntryIsTrue(r: BuilderReport, v: View, captured: bool, settlement: string, unit: int)
    requires 0 < unit && r.address != ""
    requires if captured then Captured(r, v) else Finished(r, v, settlement, unit)
    ensures ValidEntry(r, captured) && CaptureTrue(r, v.told)
  {
    if captured {
      CapturedIsValid(r, v);
    } else {
      FinishedIsValid(r, v, settlement, unit);
    }
  }

  /** Two records that are true to the same answers carry the same claimables. */
  lemma SameClaimables(c: Setup, d: Days, logs: Logs, r: DailyRecord)
    requires DailyInv(c, d, logs) && r.date in d.records && RecordTrue(c, r, logs)
    ensures r.date in d.frozen && Claimables(r) == d.frozen[r.date]
  {
    hide Logs.At, Finished, Valid, FirstNonNegative;
    assert DayOk(c, d, r.date, logs);
    var s := d.records[r.date];
    forall i | 0 <= i < |c.builders|
      ensures r.builders[i].claimable == s.builders[i].claimable
    {
      assert EntryTrue(c, r, i, logs) && EntryTrue(c, s, i, logs);
    }
    assert Claimables(r) == Claimables(s);
  }

  lemma ClaimedTargetsAreFresh(
    c: Setup, reports: seq<BuilderReport>, targets: seq<Option<Target>>, date: nat, logs: Logs)
    requires 0 < c.unit && |targets| == |reports| == |c.builders|
    requires forall i :: 0 <= i < |reports| ==>
               Claimed(reports[i], targets[i], logs.At(Key(date, c.builders[i])), c.unit)
    ensures forall i :: 0 <= i < |targets| && targets[i].Some? ==> !targets[i].value.preStateSeen
  {
    hide Logs.At, CaptureTrue, SteadyTuple;
    forall i | 0 <= i < |targets| && targets[i].Some?
      ensures !targets[i].value.preStateSeen
    {
      assert Claimed(reports[i], targets[i], logs.At(Key(date, c.builders[i])), c.unit);
    }
  }

  /** What the board holds for a builder is what its own trace says. */
  ghost predicate Watched(board: Board, b: string, target: Option<Target>, trace: seq<Sample>) {
    match target
    case None => b !in board.pending && b !in board.balances
    case Some(t) =>
      && (b in board.pending <==> Observe(t, trace).pending)
      && Observe(t, trace).last == if b in board.balances then Some(board.balances[b]) else None
  }

  lemma WatchedMeans(board: Board, b: string, target: Option<Target>, trace: seq<Sample>)
    requires Watched(board, b, target, trace)
    ensures target.Some? ==> (b in board.pending <==> Observe(target.value, trace).pending)
  {
  }

  lemma SameAddress(a: BuilderReport, b: BuilderReport)
    requires SameCapture(a, b)
    ensures a.address == b.address
  {
  }

  /** The floor and the convergence that the loop hands to the sweep are those of the logged trace. */
  lemma FloorIs(
    r: BuilderReport, r': BuilderReport, target: Option<Target>, v: View, unit: int, board: Board, b: string,
    floor: Option<int>)
    requires 0 < unit && Claimed(r, target, v, unit) && SameCapture(r, r')
    requires Watched(board, b, target, v.told.samples)
    requires floor == if b in board.balances && b !in board.pending then Some(board.balances[b].total) else None
    ensures floor == FloorOf(r', v.told, unit)
    ensures Unconverged(r', v.told, unit) <==> target.Some? && b in board.pending
  {
    hide Observe, SteadyTuple, CaptureTrue;
    assert TargetOf(r', v.told, unit) == target;
  }

  /** The observation loop on targets and answers listed by builder. */
  method WatchTargets(builders: seq<string>, targets: seq<Option<Target>>, traces: seq<seq<Sample>>)
    returns (board: Board)
    requires |builders| == |targets| == |traces| && Distinct(builders)
    requires forall i :: 0 <= i < |targets| && targets[i].Some? ==>
               !targets[i].value.preStateSeen && |traces[i]| == Claims.OBSERVATION_ATTEMPTS
    ensures forall i :: 0 <= i < |builders| ==> Watched(board, builders[i], targets[i], traces[i])
  {
    hide Observe, Look;
    var waiting, samples := WaitingMaps(builders, targets, traces);
    board := ObserveClaims(builders, waiting, samples);
    forall i | 0 <= i < |builders|
      ensures Watched(board, builders[i], targets[i], traces[i])
    {
      var b := builders[i];
      if targets[i].Some? {
        assert b in waiting && board.Tracks(b, waiting[b], Observe(waiting[b], samples[b]));
      } else {
        assert b !in waiting;
      }
    }
  }

  /** The targets and their answers keyed by builder. */
  method WaitingMaps(builders: seq<string>, targets: seq<Option<Target>>, traces: seq<seq<Sample>>)
    returns (waiting: map<string, Target>, samples: map<string, seq<Sample>>)
    requires |builders| == |targets| == |traces| && Distinct(builders)
    ensures forall b :: b in waiting ==> b in builders
    ensures forall i :: 0 <= i < |builders| ==> (builders[i] in waiting <==> targets[i].Some?)
    ensures forall i :: 0 <= i < |builders| && targets[i].Some? ==>
              && waiting[builders[i]] == targets[i].value
              && builders[i] in samples && samples[builders[i]] == traces[i]
  {
    waiting, samples := map[], map[];
    for i := 0 to |builders|
      invariant forall b :: b in waiting ==> b in builders[..i]
      invariant forall j :: 0 <= j < i ==> (builders[j] in waiting <==> targets[j].Some?)
      invariant forall j :: 0 <= j < i && targets[j].Some? ==>
                  && waiting[builders[j]] == targets[j].value
                  && builders[j] in samples && samples[builders[j]] == traces[j]
    {
      assert builders[..i + 1] == builders[..i] + [builders[i]];
      if targets[i].Some? {
        waiting := waiting[builders[i] := targets[i].value];
        samples := samples[builders[i] := traces[i]];
      }
    }
  }
}
