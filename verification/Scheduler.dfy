/**
 The daily schedule, and the lockstep between the scheduler's retry counter, the application's attempt
 counter and the status of the report (internal/scheduler/scheduler.go, internal/app/app.go,
 internal/funding/report.go).
 */
module Scheduler {
  const HOUR: nat := 3_600_000_000_000
  const DAY: nat := 24 * HOUR
  const MAX_NONFATAL_RETRIES: nat := 5

  datatype Task = Consolidation | Funding

  datatype Slot = Slot(task: Task, at: nat)

  /** Instants are nanoseconds since the start of some UTC day. */
  ghost predicate Scheduled(s: Slot) {
    match s.task
    case Consolidation => s.at % 86_400_000_000_000 == 0
    case Funding => s.at % 86_400_000_000_000 == 3_600_000_000_000
  }

  /** NextScheduledTaskUTC. */
  function NextScheduledTask(now: nat): Slot {
    var midnight := now / DAY * DAY;
    if now <= midnight then Slot(Consolidation, midnight)
    else if now <= midnight + HOUR then Slot(Funding, midnight + HOUR)
    else Slot(Consolidation, midnight + DAY)
  }

  /** The next slot is on the schedule, not in the past, and no scheduled slot is skipped before it. */
  lemma NextTaskIsEarliest(now: nat, other: Slot)
    ensures Scheduled(NextScheduledTask(now)) && now <= NextScheduledTask(now).at
    ensures Scheduled(other) && now <= other.at ==> NextScheduledTask(now).at <= other.at
    ensures Scheduled(other) && other.at == NextScheduledTask(now).at ==> other == NextScheduledTask(now)
  {
    var day := now / DAY;
    assert now == day * DAY + now % DAY;
    OffsetOf(day, 0);
    OffsetOf(day, HOUR);
    OffsetOf(day + 1, 0);
    var day' := other.at / DAY;
    assert other.at == day' * DAY + other.at % DAY;
    if Scheduled(other) && now <= other.at {
      assert day <= day';
      if day < day' {
        assert (day + 1) * DAY <= day' * DAY;
      }
    }
  }

  lemma OffsetOf(day: nat, offset: nat)
    requires offset < DAY
    ensures (day * DAY + offset) % DAY == offset
  {
    assert (day * DAY + offset) / DAY == day;
  }

  datatype Result = Ok | Nonfatal | FatalError

  datatype ReportStatus = Success | Retrying | Critical

  datatype Report = Report(status: ReportStatus, exhausted: bool)

  /** finalize, as far as the run error decides it; a cancelled run sends no report. */
  function Finalize(result: Result, attempt: nat, maxAttempts: nat): Report {
    if result.Ok? then Report(Success, false)
    else if !result.FatalError? && attempt > 0 && maxAttempts > 0 && attempt < maxAttempts
    then Report(Retrying, false)
    else Report(Critical, !result.FatalError? && attempt > 0 && attempt == maxAttempts)
  }

  /** One funding call: the scheduler's retries and the application's attempt when it was made. */
  datatype Call = Call(retries: nat, attempt: nat, result: Result, report: Report)

  /** One turn of the scheduler's loop. */
  datatype Turn = Consolidated | Called(call: Call)

  datatype Stop = ContextDone | FatalStop | RetryExhausted(retries: nat)

  /** App.Run's closure over its attempt counter. */
  class App {
    var attempt: nat

    constructor ()
      ensures attempt == 1 && InRange()
    {
      attempt := 1;
    }

    /** The attempt number is always that of a permitted attempt. */
    ghost predicate InRange()
      reads this
    {
      1 <= attempt <= 6
    }

    method RunFunding(result: Result) returns (report: Report)
      requires InRange()
      modifies this
      ensures InRange()
      ensures report == Finalize(result, old(attempt), MAX_NONFATAL_RETRIES + 1)
      ensures report.status.Success? <==> result.Ok?
      ensures report.status.Retrying? <==> attempt == old(attempt) + 1
      ensures report.exhausted <==> result.Nonfatal? && old(attempt) == 6
      ensures !report.status.Retrying? ==> attempt == if result.Ok? then 1 else old(attempt)
    {
      var maxAttempts := MAX_NONFATAL_RETRIES + 1;
      report := Finalize(result, attempt, maxAttempts);
      match result
      case Ok => attempt := 1;
      case Nonfatal =>
        if attempt < maxAttempts {
          attempt := attempt + 1;
        }
      case FatalError =>
    }
  }

  /** The task of a turn: after a nonfatal failure only the funding retry, one minute later. */
  function ChooseTask(now: nat, retries: nat): Task {
    if retries > 0 then Funding else NextScheduledTask(now).task
  }

  /** What a turn leaves for the next one. */
  ghost function Owed(t: Turn): nat {
    if t.Called? && t.call.report.status.Retrying? then t.call.retries + 1 else 0
  }

  ghost predicate Ends(t: Turn) {
    t.Called? && t.call.report.status.Critical?
  }

  /** The counters agree at the call, and its report is the one those counters produce. */
  ghost predicate Lockstep(c: Call) {
    && c.attempt == c.retries + 1 <= MAX_NONFATAL_RETRIES + 1
    && c.report == Finalize(c.result, c.attempt, MAX_NONFATAL_RETRIES + 1)
  }

  /**
   A history of turns. A retry that was announced is the very next turn; nothing else raises the retry
   count; only the last turn may be one that ends the service.
   */
  ghost predicate History(turns: seq<Turn>) {
    turns != [] ==>
      var before, t := turns[..|turns| - 1], turns[|turns| - 1];
      var owed := if before == [] then 0 else Owed(before[|before| - 1]);
      && History(before)
      && (before != [] ==> !Ends(before[|before| - 1]))
      && (owed > 0 ==> t.Called?)
      && (t.Called? ==> t.call.retries == owed && Lockstep(t.call))
  }

  datatype Tick = Tick(now: nat, result: Result)

  /** A turn consolidates exactly when no retry is owed and the calendar says so. */
  ghost predicate OnSchedule(turns: seq<Turn>, ticks: seq<Tick>) {
    && |turns| <= |ticks|
    && forall i :: 0 <= i < |turns| ==>
         && (turns[i].Consolidated? <==>
               (i == 0 || Owed(turns[i - 1]) == 0) && NextScheduledTask(ticks[i].now).task.Consolidation?)
         && (turns[i].Called? ==> turns[i].call.result == ticks[i].result)
  }

  lemma CallIsInLockstep(c: Call)
    requires c.attempt == c.retries + 1 <= MAX_NONFATAL_RETRIES + 1
    requires c.report == Finalize(c.result, c.attempt, MAX_NONFATAL_RETRIES + 1)
    ensures Lockstep(c)
  {
  }

  lemma NothingScheduled(ticks: seq<Tick>)
    ensures OnSchedule([], ticks) && History([])
  {
  }

  lemma HistoryStep(turns: seq<Turn>, t: Turn)
    requires History(turns) && (turns != [] ==> !Ends(turns[|turns| - 1]))
    requires t.Called? ==> Lockstep(t.call) && t.call.retries == if turns == [] then 0 else Owed(turns[|turns| - 1])
    requires t.Consolidated? ==> turns == [] || Owed(turns[|turns| - 1]) == 0
    ensures History(turns + [t])
  {
    assert (turns + [t])[..|turns|] == turns;
  }

  lemma ScheduleStep(turns: seq<Turn>, t: Turn, ticks: seq<Tick>)
    requires OnSchedule(turns, ticks) && |turns| < |ticks|
    requires t.Consolidated? <==>
             (turns == [] || Owed(turns[|turns| - 1]) == 0) && NextScheduledTask(ticks[|turns|].now).task.Consolidation?
    requires t.Called? ==> t.call.result == ticks[|turns|].result
    ensures OnSchedule(turns + [t], ticks)
  {
  }

  /**
   Scheduler.Run with App.Run's callback. A tick is the time at the start of a turn and the outcome of
   the funding call, if the turn makes one; the context ends after the last tick.
   */
  method Run(ticks: seq<Tick>) returns (stop: Stop, turns: seq<Turn>)
    ensures History(turns) && OnSchedule(turns, ticks)
    ensures stop.ContextDone? <==> turns == [] || !Ends(turns[|turns| - 1])
    ensures stop.ContextDone? ==> |turns| == |ticks|
    ensures stop.RetryExhausted? <==>
            turns != [] && turns[|turns| - 1].Called? && turns[|turns| - 1].call.report.exhausted
    ensures stop.RetryExhausted? ==> stop.retries == MAX_NONFATAL_RETRIES
  {
    hide OnSchedule, NextScheduledTask, History, Lockstep;
    var app := new App();
    var retries := 0;
    turns := [];
    NothingScheduled(ticks);
    for i := 0 to |ticks|
      invariant |turns| == i && History(turns) && OnSchedule(turns, ticks)
      invariant app.attempt == retries + 1 <= MAX_NONFATAL_RETRIES + 1
      invariant retries == if turns == [] then 0 else Owed(turns[i - 1])
      invariant turns != [] ==> !Ends(turns[i - 1])
      invariant turns != [] && turns[i - 1].Called? ==> !turns[i - 1].call.report.exhausted
    {
      var task := ChooseTask(ticks[i].now, retries);
      if task.Consolidation? {
        HistoryStep(turns, Consolidated);
        ScheduleStep(turns, Consolidated, ticks);
        turns := turns + [Consolidated];
        continue;
      }
      var attempt := app.attempt;
      var report := app.RunFunding(ticks[i].result);
      var turn := Called(Call(retries, attempt, ticks[i].result, report));
      CallIsInLockstep(turn.call);
      HistoryStep(turns, turn);
      ScheduleStep(turns, turn, ticks);
      turns := turns + [turn];
      match ticks[i].result
      case Ok =>
        retries := 0;
      case FatalError =>
        return FatalStop, turns;
      case Nonfatal =>
        if retries >= MAX_NONFATAL_RETRIES {
          return RetryExhausted(retries), turns;
        }
        retries := retries + 1;
    }
    stop := ContextDone;
  }

  /** In every history all calls are in lockstep, so no run is ever attempted more than six times. */
  lemma {:induction false} EveryCallIsInLockstep(turns: seq<Turn>, k: nat)
    requires History(turns) && k < |turns|
    ensures turns[k].Called? ==> Lockstep(turns[k].call)
    ensures k + 1 < |turns| ==> !Ends(turns[k])
    ensures k + 1 < |turns| && turns[k].Called? && turns[k].call.report.status.Retrying? ==>
              turns[k + 1].Called? && turns[k + 1].call.attempt == turns[k].call.attempt + 1
    ensures k + 1 < |turns| && turns[k + 1].Called? && turns[k + 1].call.attempt > 1 ==>
              turns[k].Called? && turns[k].call.report.status.Retrying?
  {
    if k + 1 < |turns| {
      EveryCallIsInLockstep(turns[..|turns| - 1], k);
    }
  }
}
