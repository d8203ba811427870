/**
 The payout orchestration: a new run, the payout itself, its recovery and its completion
 (internal/funding/payout.go, recovery.go and the payout half of orchestrator.go).

 A process that stops between two effects leaves the world exactly as it is after the first of them.
 Every effect below is followed by one that may fail without doing anything, so a crash at any point
 is among the paths of these methods; it shows as `Failed`. What holds at every return therefore
 holds at every crash.

 Checks that the service repeats on states it has already validated appear as `assert`: they cannot
 fail on anything this service has written.
 */
module Payout {
  import opened Wrappers
  import opened Funding
  import opened Nonces
  import opened Manifests
  import opened Store
  import opened MySql
  import opened World
  import opened Observation

  datatype Outcome = Finished | NoData | Failed | Fatal

  /** Submissions the journal still authorizes, counting a missing journal as the whole budget. */
  function Budget(s: RunState): nat
    ensures s.journal.Some? && 1 <= s.journal.value.attempts ==> Budget(s) < 3
  {
    if s.journal.None? || s.journal.value.attempts < 1 then 3
    else if s.journal.value.attempts == 1 then 2
    else 1
  }

  /** A whole activation: the baseline and two observation windows. */
  const ALL_QUERIES: nat := BASELINE_ATTEMPTS + 2 * QUERY_ATTEMPTS

  /** The baseline if it is still to be read, and a window for each submission the journal still authorizes. */
  ghost function QueryBudget(s: RunState): nat {
    if s.journal.None? then ALL_QUERIES
    else if Budget(s) == 3 then 2 * QUERY_ATTEMPTS
    else Budget(s) * QUERY_ATTEMPTS
  }

  ghost function Progress(s: RunState): nat {
    if s.phase.PhaseCompleted? then 0 else 1
  }

  /** Both generations say blocked; the primary may even be unreadable. */
  ghost predicate BothBlocked(d: Disk<RunState>) {
    && d.backup.Valid? && d.backup.state.phase.PhaseBlocked?
    && (d.current.Valid? ==> d.current.state.phase.PhaseBlocked?)
  }

  /** A readable exact boundary can only have been produced by this run's own payment. */
  lemma BalanceProvesPayment(w: World, s: RunState, i: nat)
    requires Inv(w) && Holding(w, s) && s.journal.Some?
    requires w.chain.floor <= i < |w.chain.totals|
    requires var left := s.journal.value.totalBefore - s.manifest.payoutTotal;
             w.chain.totals[i] == left || w.chain.totals[i] == left - ONE_USDC
    ensures s.journal.value.prepared.nonce in w.chain.applied
  {
    assert SnapshotOk(w, s);
    if w.chain.outflow <= w.chain.floor {
      assert w.chain.totals[w.chain.floor] <= w.chain.totals[i];
    }
  }

  /**
   The converse: if the open run's request is applied, with or without the fee of a new address, and nothing
   else has moved since the baseline, then two adjacent queries that show the new total confirm it.
   */
  lemma PaymentConfirms(
    w: World, s: RunState, newAddress: bool, replies: seq<Reply>, k: nat, d: Decision)
    requires Inv(w) && Holding(w, s) && s.journal.Some?
    requires s.journal.value.prepared.nonce !in w.chain.applied && w.chain.floor == |w.chain.totals| - 1
    requires var total := Last(Apply(w.chain, s.journal.value.prepared, newAddress));
             && 0 <= total && k < |replies| && 0 < k
             && replies[k].Balance? && replies[k].total == total
             && replies[k - 1].Balance? && replies[k - 1].total == total
    requires Reached(replies, k, s.journal.value.totalBefore, s.manifest.payoutTotal)
    requires Decided(replies, s.phase, s.journal.value.attempts, s.journal.value.totalBefore,
                     s.manifest.payoutTotal, d)
    ensures d == Confirm(if newAddress then BalanceDecreasedWithFee else BalanceDecreased)
  {
    assert SnapshotOk(w, s);
    var j, m := s.journal.value, s.manifest;
    assert j.prepared.body.amount == m.payoutTotal && Last(w.chain) == j.totalBefore;
    assert Confirmation(replies, k, j.totalBefore, m.payoutTotal);
    ConfirmedOnce(replies, j.totalBefore, m.payoutTotal, k);
  }

  lemma ConfirmedOnce(replies: seq<Reply>, before: int, amount: int, k: nat)
    requires Reached(replies, k, before, amount) && Confirmation(replies, k, before, amount)
    ensures forall i :: Reached(replies, i, before, amount) && Confirmation(replies, i, before, amount) ==> i == k
  {
  }

  /** What the invariant says about the state the process works with. */
  lemma HeldState(w: World, s: RunState)
    requires Inv(w) && Holding(w, s)
    ensures SnapshotOk(w, s) && RunOk(w, s.run)
    ensures s.run == |w.runs| - 1 && s.manifest == w.runs[s.run].manifest
    ensures w.disk.current == Valid(s) || (!w.disk.current.Valid? && w.disk.backup == Valid(s))
    ensures s.phase.PhaseCompleted? ==> w.disk.current == Valid(s)
    ensures s.phase.PhasePrepared? ==> s.journal.None?
    ensures s.journal.None? ==> s.phase.PhasePrepared? || s.phase.PhaseCompleted?
    ensures GoodManifest(s.manifest)
    ensures w.disk.current == Valid(s) && s.phase.PhasePayoutPrepared? ==> Sends(w) == []
  {
  }

  /** The phases a journal moves through: each of them may replace what is on disk. */
  lemma AdvanceIsSafe(w: World, s: RunState, next: RunState)
    requires Inv(w) && Holding(w, s) && !s.phase.PhaseCompleted? && s.journal.Some? && ValidProgress(s)
    requires next == s.(phase := next.phase, journal := next.journal,
                        blockedReason := next.blockedReason, evidence := next.evidence)
    requires next.journal.Some? && next.journal.value == s.journal.value.(attempts := next.journal.value.attempts)
    requires s.journal.value.attempts <= next.journal.value.attempts <= 2
    requires match next.phase
             case PhasePayoutSubmitting => next.journal.value.attempts == 1
             case PhasePayoutReplaying => next.journal.value.attempts == 2
             case PhasePayoutConfirmed => next.journal.value.prepared.nonce in w.chain.applied
             case PhaseCompleted =>
               && next.journal.value.prepared.nonce in w.chain.applied
               && AllDone(w.status, IdSet(s.manifest))
             case PhaseBlocked => true
             case _ => false
    ensures MaySave(w, next)
  {
    HeldState(w, s);
  }

  /** A run that owes nothing goes straight from prepared to completed. */
  lemma ZeroRunMayComplete(w: World, s: RunState)
    requires Inv(w) && Holding(w, s) && s.phase.PhasePrepared? && s.manifest.payoutTotal == 0
    requires AllDone(w.status, IdSet(s.manifest))
    ensures MaySave(w, s.(phase := PhaseCompleted))
  {
    HeldState(w, s);
  }

  /** Before its first delivery a request is neither in flight nor applied. */
  lemma UnsentIsUnapplied(w: World, q: Prepared)
    requires Inv(w) && MaySend(w, q) && Sends(w) == []
    ensures q !in w.chain.inflight && q.nonce !in w.chain.applied
  {
    assert q in w.chain.inflight ==> InflightOk(w, q);
    assert q.nonce in w.chain.applied ==> AppliedOk(w, q.nonce);
  }

  /** Both durable boundaries name the request before it leaves. */
  lemma BoundaryAllowsSend(w: World, s: RunState, older: RunState)
    requires Inv(w) && w.disk == Disk(Valid(s), Valid(older)) && s.journal.Some? && older.journal.Some?
    requires !s.phase.PhasePayoutPrepared?
    requires |w.runs| > 0 && |Sends(w)| < older.journal.value.attempts
    requires |Sends(w)| < s.journal.value.attempts
    ensures MaySend(w, s.journal.value.prepared)
  {
    HeldState(w, s);
    assert SnapshotOk(w, older);
  }

  lemma MayReplaceHeld(w: World, next: RunState)
    requires Inv(w) && MaySave(w, next)
    ensures MayReplace(w.disk)
  {
  }

  lemma DiskStepExtends(a: World, b: World)
    requires b == a.(disk := b.disk)
    ensures Extends(a, b)
  {
  }

  lemma DriftExtends(a: World, b: World)
    requires Drift(a, b)
    ensures Extends(a, b)
  {
  }

  lemma ExtendsThrough(a: World, b: World, c: World)
    requires Extends(a, b) && Extends(b, c)
    ensures Extends(a, c)
  {
  }

  /** The transfer a manifest asks for, as an honest client signs it. */
  ghost function HonestRequest(m: Manifest, nonce: nat): Prepared
    requires m.token.Some?
  {
    Prepared("spotSend", m.settlement, m.recipient, m.token.value, m.payoutTotal, nonce,
             Body("spotSend", m.recipient, m.token.value, m.payoutTotal, nonce, nonce))
  }

  /** Validation accepts the honest request and nothing else. */
  lemma OnlyHonestRequestsAreValid(m: Manifest, q: Prepared)
    ensures ValidPrepared(m, q) <==> m.token.Some? && q == HonestRequest(m, q.nonce)
  {
  }

  lemma BlockedIsLoaded(d: Disk<RunState>)
    ensures BothBlocked(d) ==> Load(d).Loaded? && Load(d).state.phase.PhaseBlocked?
  {
  }

  lemma HeldManifest(w: World)
    requires Inv(w)
    ensures Load(w.disk).Loaded? ==>
              |w.runs| > 0 && Load(w.disk).state.manifest == w.runs[|w.runs| - 1].manifest
  {
    if Load(w.disk).Loaded? {
      assert SnapshotOk(w, Load(w.disk).state);
    }
  }

  lemma HeldJournal(w: World, s: RunState)
    requires Inv(w) && Holding(w, s) && ValidProgress(s)
    ensures s.journal.None? ==> s.phase in {PhasePrepared, PhaseCompleted}
    ensures s.phase.PhasePrepared? ==> s.journal.None?
    ensures s.journal.Some? ==> BaselineCovers(s)
    ensures s.phase.PhasePayoutPrepared? ==> s.journal.value.attempts == 1
  {
    assert SnapshotOk(w, s);
  }

  lemma NoJournalIsValid(s: RunState)
    requires s.journal.None?
    ensures ValidProgress(s)
  {
  }

  lemma JournalIsHeld(w: World, s: RunState)
    requires Inv(w) && Holding(w, s)
    ensures s.journal.None? ==> s.phase in {PhasePrepared, PhaseCompleted}
    ensures s.phase.PhasePrepared? ==> s.journal.None?
  {
    assert SnapshotOk(w, s);
  }

  /** A payout that its baseline covers passes every check that recovery makes. */
  lemma CoveredIsValid(w: World, s: RunState)
    requires Inv(w) && Holding(w, s) && s.journal.Some?
    ensures ValidProgress(s) <==> s.manifest.payoutTotal <= s.journal.value.totalBefore
    ensures s.phase in {PhasePayoutSubmitting, PhasePayoutReplaying, PhasePayoutConfirmed, PhaseBlocked} ==>
              ValidProgress(s)
  {
    assert SnapshotOk(w, s);
  }

  // ---------------------------------------------------------------- the states a journal moves through

  ghost function Journaled(s: RunState, q: Prepared, before: int): RunState {
    s.(phase := PhasePayoutPrepared, journal := Some(Journal(q, before, 1)))
  }

  ghost function Replaying(s: RunState): RunState
    requires s.journal.Some?
  {
    s.(phase := PhasePayoutReplaying, blockedReason := NotBlocked,
       journal := Some(s.journal.value.(attempts := 2)))
  }

  ghost function Paid(s: RunState, evidence: Evidence): RunState {
    s.(phase := PhasePayoutConfirmed, blockedReason := NotBlocked, evidence := evidence)
  }

  ghost function Blocked(s: RunState, reason: BlockedReason): RunState {
    s.(phase := PhaseBlocked, blockedReason := reason)
  }

  /** What is on disk when the first delivery leaves: submitting over the journaled intent. */
  ghost function FirstBoundary(s: RunState, q: Prepared, before: int): Disk<RunState> {
    var intent := Journaled(s, q, before);
    Disk(Valid(intent.(phase := PhasePayoutSubmitting)), Valid(intent))
  }

  /** Query k completed the first stable pair of the baseline that covers the payout. */
  ghost predicate Covered(replies: seq<Reply>, k: int, payout: int) {
    BaselineReached(replies, k, payout) && StablePair(replies, k, payout)
  }

  /**
   What a payout does on its window of baseline answers: it sends nothing unless a stable covering pair was
   read, and then sends an honest request over the intent journaled with that pair's total; and with no
   trouble it does send it, if the pair's total covers the payout too. Nothing but such a total, or what comes
   after a delivery, is fatal.
   */
  ghost predicate ActsOnBaseline(
    before: seq<RunLog>, after: seq<RunLog>, s: RunState, window: seq<Reply>, calm: bool, outcome: Outcome)
  {
    var payout := s.manifest.payoutTotal;
    && |window| == 5
    && ((forall k :: !Covered(window, k, payout)) ==> outcome.Failed? && after == before)
    && (after == before ||
        exists k, q: Prepared ::
          && Covered(window, k, payout) && s.manifest.token.Some? && q == HonestRequest(s.manifest, q.nonce)
          && Delivered(before, after, s.run, q, FirstBoundary(s, q, window[k].total)))
    && (calm && (exists k :: Covered(window, k, payout) && payout <= window[k].total) ==> after != before)
    && (outcome.Fatal? && after == before ==> exists k :: Covered(window, k, payout) && window[k].total < payout)
  }

  lemma BaselineIsCovered(window: seq<Reply>, payout: int, b: Baseline)
    requires |window| == BASELINE_ATTEMPTS
    requires b.Stable? <==> exists k :: BaselineReached(window, k, payout) && StablePair(window, k, payout)
    requires b.Stable? ==> StablePair(window, b.at, payout) && BaselineReached(window, b.at, payout)
    ensures b.Stable? ==> Covered(window, b.at, payout) && forall k :: Covered(window, k, payout) ==> k == b.at
    ensures !b.Stable? ==> forall k :: !Covered(window, k, payout)
  {
    forall k | Covered(window, k, payout) && b.Stable?
      ensures k == b.at
    {
      CoveredOnce(window, k, b.at, payout);
    }
  }

  lemma ActsWithoutPair(runs: seq<RunLog>, s: RunState, window: seq<Reply>, calm: bool)
    requires |window| == BASELINE_ATTEMPTS && forall k :: !Covered(window, k, s.manifest.payoutTotal)
    ensures ActsOnBaseline(runs, runs, s, window, calm, Failed)
  {
  }

  lemma ActsOnPair(
    before: seq<RunLog>, after: seq<RunLog>, s: RunState, window: seq<Reply>, k: nat, calm: bool, outcome: Outcome)
    requires |window| == BASELINE_ATTEMPTS && k < |window| && Covered(window, k, s.manifest.payoutTotal)
    requires forall j :: Covered(window, j, s.manifest.payoutTotal) ==> j == k
    requires after == before ||
             exists q :: ValidPrepared(s.manifest, q)
                         && Delivered(before, after, s.run, q, FirstBoundary(s, q, window[k].total))
    requires calm && s.manifest.payoutTotal <= window[k].total ==> after != before
    requires outcome.Fatal? && after == before ==> window[k].total < s.manifest.payoutTotal
    ensures ActsOnBaseline(before, after, s, window, calm, outcome)
  {
    hide Delivered, ValidPrepared, HonestRequest, FirstBoundary;
    if after != before {
      var q :| ValidPrepared(s.manifest, q)
               && Delivered(before, after, s.run, q, FirstBoundary(s, q, window[k].total));
      OnlyHonestRequestsAreValid(s.manifest, q);
      assert Covered(window, k, s.manifest.payoutTotal);
    }
  }

  lemma CoveredOnce(window: seq<Reply>, j: int, k: int, payout: int)
    requires Covered(window, j, payout) && Covered(window, k, payout)
    ensures j == k
  {
  }

  /** The phases in which a request may have left and nothing may be sent before the balance has been watched. */
  ghost predicate Observes(s: RunState, fromBackup: bool) {
    || s.phase in {PhasePayoutSubmitting, PhasePayoutReplaying}
    || (s.phase.PhasePayoutPrepared? && fromBackup && BaselineCovers(s))
  }

  ghost predicate BaselineCovers(s: RunState) {
    s.journal.Some? && s.manifest.payoutTotal <= s.journal.value.totalBefore
  }

  const EMPTY := Manifest([], 0, 0, None, "", "")

  /** The world before a call, what had been archived, how much had gone wrong, and whether the rows were fit. */
  datatype Before = Before(w: World, history: seq<RunState>, trouble: nat, fit: bool)

  /** The next delivery of run r was q, and it left while the disk was d. */
  ghost predicate Delivered(before: seq<RunLog>, after: seq<RunLog>, r: nat, q: Prepared, d: Disk<RunState>) {
    && r < |before| && r < |after|
    && |before[r].sends| < |after[r].sends| && after[r].sends[|before[r].sends|] == q
    && |before[r].sends| < |after[r].boundaries| && after[r].boundaries[|before[r].sends|] == d
  }

  lemma DeliveryIsLogged(before: seq<RunLog>, after: seq<RunLog>, q: Prepared, d: Disk<RunState>, reply: SubmitReply)
    requires before != []
    requires after == before[|before| - 1 := Delivery(before[|before| - 1], q, d, reply)]
    requires |before[|before| - 1].boundaries| == |before[|before| - 1].answers| == |before[|before| - 1].sends|
    ensures Delivered(before, after, |before| - 1, q, d)
    ensures LastAccepted(before, after, |before| - 1) ==> reply.Accepted?
    ensures Answered(before, after, |before| - 1, reply)
  {
  }

  /** The next answer run r got after `before`. */
  ghost predicate Answered(before: seq<RunLog>, after: seq<RunLog>, r: nat, reply: SubmitReply) {
    && r < |before| && r < |after|
    && |before[r].answers| < |after[r].answers| && after[r].answers[|before[r].answers|] == reply
  }

  lemma DeliveryShows(before: seq<RunLog>, after: seq<RunLog>, r: nat, q: Prepared, d: Disk<RunState>)
    requires Delivered(before, after, r, q, d)
    ensures before != after
  {
  }

  lemma AnswerStays(w0: World, w1: World, w2: World, r: nat, reply: SubmitReply)
    requires Answered(w0.runs, w1.runs, r, reply) && Extends(w1, w2)
    ensures forall a :: Answered(w0.runs, w2.runs, r, a) <==> a == reply
  {
  }

  lemma BoundariesMatch(w: World)
    requires Inv(w)
    ensures forall r :: 0 <= r < |w.runs| ==> |w.runs[r].boundaries| == |w.runs[r].answers| == |w.runs[r].sends|
  {
    forall r | 0 <= r < |w.runs|
      ensures |w.runs[r].boundaries| == |w.runs[r].answers| == |w.runs[r].sends|
    {
      assert RunOk(w, r);
    }
  }

  /** Run r was sent for, and the last answer it got is an acceptance. */
  ghost predicate LastAccepted(before: seq<RunLog>, after: seq<RunLog>, r: nat) {
    && r < |after|
    && (r < |before| ==> |before[r].answers| < |after[r].answers|)
    && after[r].answers != [] && after[r].answers[|after[r].answers| - 1].Accepted?
  }

  lemma UnsentIsUnanswered(runs: seq<RunLog>, r: nat)
    requires r < |runs|
    ensures !LastAccepted(runs, runs, r)
  {
  }

  lemma UnansweredAll(runs: seq<RunLog>)
    ensures forall r: nat :: r < |runs| ==> !LastAccepted(runs, runs, r)
  {
  }

  lemma FirstAnswer(before: seq<RunLog>, frozen: seq<RunLog>, after: seq<RunLog>)
    requires |frozen| == |before| + 1 && frozen[|before|].answers == []
    ensures LastAccepted(before, after, |before|) ==> LastAccepted(frozen, after, |before|)
  {
  }

  lemma DriftThrough(a: World, b: World, c: World)
    requires Drift(a, b) && Drift(b, c)
    ensures Drift(a, c)
  {
  }

  lemma DriftKeeps(a: World, b: World)
    requires Drift(a, b)
    ensures b.disk == a.disk && b.runs == a.runs && b.issued == a.issued && b.chain.floor == a.chain.floor
    ensures DoneStays(a.status, b.status)
  {
  }

  lemma DriftGrows(a: World, b: World)
    requires Drift(a, b)
    ensures a.chain.totals <= b.chain.totals
  {
  }

  lemma NoDrift(w: World)
    ensures Drift(w, w)
  {
  }

  lemma AcceptedLater(w0: World, w1: World, w2: World, r: nat)
    requires Extends(w0, w1) && Extends(w1, w2) && r < |w1.runs|
    ensures LastAccepted(w0.runs, w2.runs, r) ==>
              LastAccepted(w1.runs, w2.runs, r) || LastAccepted(w0.runs, w1.runs, r)
  {
  }

  lemma ToldStays(a: World, b: World)
    requires Extends(a, b)
    ensures Tells(a.told, b.told)
  {
  }

  /** What was delivered stays on record. */
  lemma DeliveryStays(w0: World, w1: World, w2: World, r: nat, q: Prepared, d: Disk<RunState>)
    requires Delivered(w0.runs, w1.runs, r, q, d) && Extends(w1, w2)
    ensures Delivered(w0.runs, w2.runs, r, q, d)
  {
  }

  class Orchestrator {
    const store: SnapshotStore<RunState>
    const repo: Repository
    const nonces: NonceGenerator
    const settlement: string
    const recipient: string
    var chain: Chain
    /** Every run so far, newest last; its position stands for the run identifier. */
    var runs: seq<RunLog>
    /** Nonces drawn so far and the run each was drawn for. */
    var issued: map<nat, nat>
    /** The rows as the service first found them. */
    ghost const initial: map<nat, int>
    /** What the service has been told so far, and how many balance queries that took. */
    ghost var told: Told
    ghost var queries: nat
    /** Every state that was archived, newest last. */
    ghost var history: seq<RunState>
    ghost var archiveFailures: nat
    /** How often the client, a query or the task's context has refused. */
    ghost var refusals: nat

    ghost function W(): World
      reads this, store, repo
    {
      World(store.Image(), chain, repo.status, initial, repo.touched, repo.foreign, runs, issued, told)
    }

    constructor (rows: map<nat, int>, total: int, settlement: string, recipient: string)
      ensures Inv(W()) && fresh(store) && fresh(repo) && fresh(nonces)
      ensures W().runs == [] && W().initial == W().status == rows && W().chain.applied == map[]
      ensures W().told == Told([], []) && Trouble() == 0
      ensures this.settlement == settlement && this.recipient == recipient && Configured()
    {
      store := new SnapshotStore<RunState>();
      repo := new Repository(rows);
      nonces := new NonceGenerator();
      this.settlement, this.recipient := settlement, recipient;
      chain := Chain(map[], {}, [total], 0, 0);
      runs, issued, queries, history := [], map[], 0, [];
      initial, told, archiveFailures, refusals := rows, Told([], []), 0, 0;
    }

    /** Everything that has gone wrong outside, or was changed by others under the service's feet. */
    ghost function Trouble(): nat
      reads this, store, repo
    {
      store.failures + archiveFailures + refusals + Unrest(repo.Now())
    }

    /** Every row of the manifest is pending or completed. */
    ghost predicate Fit(manifest: Manifest)
      reads this, repo
    {
      Clean(repo.status, IdSet(manifest))
    }

    /** The rows of the latest run are fit. */
    ghost predicate LastFit()
      reads this, repo
    {
      runs != [] ==> Fit(runs[|runs| - 1].manifest)
    }

    /** Every manifest pays from the configured settlement account to the configured recipient. */
    ghost predicate Configured()
      reads this
    {
      forall r :: 0 <= r < |runs| ==>
        runs[r].manifest.settlement == settlement && runs[r].manifest.recipient == recipient
    }

    ghost function Here(manifest: Manifest): Before
      reads this, store, repo
    {
      Before(W(), history, Trouble(), Fit(manifest))
    }

    /** What follows from the decision on one window of the settlement balance. */
    ghost predicate ActsOnWindow(s: RunState, decision: Decision, outcome: Outcome, b: Before)
      reads this, store, repo
      requires s.journal.Some?
    {
      var calm := Trouble() == b.trouble;
      match decision
      case Halt => outcome.Failed? && runs == b.w.runs && W().disk == b.w.disk
      case Block =>
        && outcome.Fatal? && runs == b.w.runs
        && (calm ==> BothBlocked(W().disk) && history == b.history + [Blocked(s, UncertainResult)])
      case Confirm(evidence) =>
        && runs == b.w.runs && (outcome.Finished? || outcome.Failed?)
        && (calm && b.fit ==> outcome.Finished?)
        && (outcome.Finished? ==> history == b.history + [Paid(s, evidence).(phase := PhaseCompleted)])
      case ExactReplay =>
        && (calm ==> runs != b.w.runs) && (runs == b.w.runs ==> outcome.Fatal?)
        && (runs == b.w.runs || Delivered(b.w.runs, runs, s.run, s.journal.value.prepared,
                                          Disk(Valid(Replaying(s)), Valid(Replaying(s)))))
    }

    /** One window was read first, and what it shows determined the outcome. */
    ghost predicate Watched(s: RunState, outcome: Outcome, replies: seq<Reply>, decision: Decision, b: Before)
      reads this, store, repo
    {
      && s.journal.Some? && |replies| == 20 && b.w.told.heard + [replies] <= told.heard
      && Decided(replies, s.phase, s.journal.value.attempts, s.journal.value.totalBefore,
                 s.manifest.payoutTotal, decision)
      && ActsOnWindow(s, decision, outcome, b)
    }

    /** What recovery does in each phase. */
    ghost predicate Recovers(
      s: RunState, fromBackup: bool, outcome: Outcome, replies: seq<Reply>, decision: Decision, b: Before)
      reads this, store, repo
    {
      var calm := Trouble() == b.trouble;
      && (Observes(s, fromBackup) ==> Watched(s, outcome, replies, decision, b))
      && (s.phase.PhasePayoutPrepared? && !fromBackup && BaselineCovers(s) && calm ==>
            Delivered(b.w.runs, runs, s.run, s.journal.value.prepared,
                      Disk(Valid(s.(phase := PhasePayoutSubmitting)), Valid(s))))
      && (s.phase.PhasePayoutPrepared? ==> s.journal.Some?)
      && (s.phase.PhasePayoutPrepared? && !BaselineCovers(s) ==> outcome.Fatal? && W() == b.w)
      && (s.phase.PhasePayoutPrepared? && !fromBackup && BaselineCovers(s) && runs == b.w.runs ==> outcome.Failed?)
      && (s.phase in {PhasePayoutConfirmed, PhaseCompleted} ==> outcome.Finished? || outcome.Failed?)
      && (s.phase.PhasePrepared? && s.manifest.payoutTotal == 0 ==> outcome.Finished? || outcome.Failed?)
      && (s.phase.PhasePayoutConfirmed? && calm && b.fit ==> outcome.Finished?)
      && (s.phase.PhaseCompleted? && calm ==> outcome.Finished?)
      && (s.phase.PhaseBlocked? ==> outcome.Fatal? && W() == b.w)
      && (s.phase.PhasePrepared? && s.manifest.payoutTotal == 0 && calm && b.fit ==> outcome.Finished?)
      && (s.phase.PhasePrepared? && s.manifest.payoutTotal != 0 ==>
            && |b.w.told.heard| < |told.heard|
            && ActsOnBaseline(b.w.runs, runs, s, told.heard[|b.w.told.heard|], calm, outcome))
    }

    lemma SameActs(manifest: Manifest, outcome: Outcome, b: Before, b': Before)
      requires b.w.runs == b'.w.runs && b.w.told.heard == b'.w.told.heard
      requires Trouble() == b'.trouble ==> Trouble() == b.trouble
      ensures Acts(manifest, outcome, b) ==> Acts(manifest, outcome, b')
    {
    }

    /** What runNew does with the list of pending rows. */
    ghost predicate Starts(listed: seq<Record>, outcome: Outcome, b: Before)
      reads this, store, repo
    {
      && (outcome.Fatal? ==>
            && b.w.told.listed + [listed] <= told.listed
            && if NonNegative(listed) then |runs| == |b.w.runs| + 1 && Acts(runs[|b.w.runs|].manifest, outcome, b)
               else runs == b.w.runs)
      && (Trouble() == b.trouble ==>
            && b.w.told.listed + [listed] <= told.listed
            && (listed == [] ==> outcome.NoData? && runs == b.w.runs)
            && (!NonNegative(listed) ==> outcome.Fatal? && runs == b.w.runs)
            && (listed != [] && NonNegative(listed) ==>
                  && |runs| == |b.w.runs| + 1 && Froze(runs[|b.w.runs|].manifest, listed)
                  && (if RoundUp(Sum(listed)) == 0 then outcome.Finished?
                      else Acts(runs[|b.w.runs|].manifest, outcome, b))))
    }

    /** The new run acts on the first window that is read for it. */
    ghost predicate Acts(manifest: Manifest, outcome: Outcome, b: Before)
      reads this, store, repo
    {
      && |b.w.told.heard| < |told.heard|
      && ActsOnBaseline(b.w.runs + [RunLog(manifest, [], [], [])], runs,
                        RunState(|b.w.runs|, PhasePrepared, manifest, None, NotBlocked, NoEvidence),
                        told.heard[|b.w.told.heard|], Trouble() == b.trouble, outcome)
    }

    /** Every applied transfer left the configured settlement account for the configured recipient. */
    ghost predicate PaysAsConfigured()
      reads this
    {
      forall n :: n in chain.applied ==>
        chain.applied[n].signer == settlement && chain.applied[n].body.destination == recipient
    }

    lemma ConfiguredPays()
      requires Inv(W()) && Configured()
      ensures PaysAsConfigured()
    {
      hide Inv, Configured;
      PaidRecordsAreDisjoint(W());
      forall n | n in chain.applied
        ensures chain.applied[n].signer == settlement && chain.applied[n].body.destination == recipient
      {
        assert PaysExactly(chain.applied[n], PaidManifest(W(), n));
        ManifestIsConfigured(issued[n]);
      }
    }

    lemma ManifestIsConfigured(r: nat)
      requires Configured() && r < |runs|
      ensures runs[r].manifest.settlement == settlement && runs[r].manifest.recipient == recipient
    {
    }

    // ------------------------------------------------------------ the outside world

    /** A query that fails for good, a client that cannot sign, a cancelled task. */
    method Refuses() returns (refused: bool)
      modifies this`refusals
      ensures refusals == old(refusals) + if refused then 1 else 0
    {
      refused := *;
      if refused {
        refusals := refusals + 1;
      }
    }

    /** PrepareSpotSend: anything at all, with the nonce it was given. What is not the honest request is a refusal. */
    method Sign(manifest: Manifest, nonce: nat) returns (q: Option<Prepared>)
      requires manifest.token.Some?
      modifies this`refusals
      ensures q.Some? ==> q.value.nonce == nonce
      ensures refusals >= old(refusals)
      ensures refusals == old(refusals) ==> q == Some(HonestRequest(manifest, nonce))
    {
      q := *;
      if q.Some? {
        q := Some(q.value.(nonce := nonce));
      }
      if q != Some(HonestRequest(manifest, nonce)) {
        refusals := refusals + 1;
      }
    }

    /** Any number of moves of the exchange and of other database writers. */
    method Environment()
      requires Inv(W())
      modifies this`chain, repo
      ensures Inv(W()) && Drift(old(W()), W()) && told == old(told)
      ensures Step(old(repo.Now()), repo.Now(), {})
      ensures Trouble() >= old(Trouble()) && (Trouble() == old(Trouble()) ==> repo.status == old(repo.status))
    {
      hide Inv, OnlyCompletes, SnapshotOk, RunOk, Extends, ValidPrepared, GoodManifest, Drift, Step, Unrest;
      NoDrift(W());
      NoStep(repo.Now(), {});
      ChainHasHistory(W());
      var steps: nat := *;
      while steps > 0
        invariant Inv(W()) && Drift(old(W()), W()) && |chain.totals| > 0 && told == old(told)
        invariant Step(old(repo.Now()), repo.Now(), {})
        invariant old(repo.interference) <= repo.interference
        invariant repo.interference == old(repo.interference) ==> repo.status == old(repo.status)
        decreases steps
      {
        steps := steps - 1;
        ghost var before, rows := W(), repo.Now();
        OneMove();
        ChainHasHistory(W());
        DriftThrough(old(W()), before, W());
        StepThrough(old(repo.Now()), rows, repo.Now(), {}, {}, {});
      }
      UnrestGrows(old(repo.Now()), repo.Now(), {});
    }

    /** Money comes in, a request in flight is applied, or another writer changes the table. */
    method OneMove()
      requires Inv(W())
      modifies this`chain, repo
      ensures Inv(W()) && Drift(old(W()), W()) && told == old(told)
      ensures Step(old(repo.Now()), repo.Now(), {}) && old(repo.interference) <= repo.interference
      ensures repo.interference == old(repo.interference) ==> repo.status == old(repo.status)
    {
      hide Inv, OnlyCompletes, SnapshotOk, RunOk, Extends, ValidPrepared, GoodManifest, Drift, Step, Unrest;
      ghost var before, rows := W(), repo.Now();
      NoDrift(before);
      NoStep(rows, {});
      ChainHasHistory(before);
      if {
        case true =>
          var amount: nat := *;
          ReceiveKeepsInv(before, amount);
          chain := Receive(chain, amount);
          assert W() == before.(chain := Receive(before.chain, amount));
        case chain.inflight != {} =>
          var q :| q in chain.inflight;
          var newAddress: bool := *;
          if q.nonce !in chain.applied {
            ApplyKeepsInv(before, q, newAddress);
            chain := Apply(chain, q, newAddress);
            assert W() == before.(chain := Apply(before.chain, q, newAddress));
          }
        case true =>
          repo.OtherWriters();
          StepMeans(rows, repo.Now(), {});
          RowsKeepInv(before, repo.status, repo.touched, repo.foreign);
          assert W() == before.(status := repo.status, touched := repo.touched, foreign := repo.foreign);
      }
    }

    /** Answers to `count` balance queries, kept on record, none of them older than position `lo` of the history. */
    method Readings(lo: nat, count: nat) returns (replies: seq<Reply>, at: seq<nat>)
      requires Inv(W()) && lo < |chain.totals|
      modifies this`chain, this`told, this`queries, repo
      ensures Inv(W()) && Drift(old(W()), W())
      ensures |replies| == |at| == count
      ensures told == old(told).(heard := old(told.heard) + [replies]) && queries == old(queries) + count
      ensures forall i :: 0 <= i < count && replies[i].Balance? ==>
                lo <= at[i] < |chain.totals| && replies[i].total == chain.totals[at[i]]
      ensures Trouble() >= old(Trouble()) && (Trouble() == old(Trouble()) ==> repo.status == old(repo.status))
    {
      hide Inv, SnapshotOk, RunOk, Extends, ValidPrepared, GoodManifest, Unrest, Drift;
      NoDrift(W());
      replies, at := [], [];
      for k := 0 to count
        invariant Inv(W()) && Drift(old(W()), W()) && told == old(told) && queries == old(queries) + k
        invariant |replies| == |at| == k
        invariant Trouble() >= old(Trouble()) && (Trouble() == old(Trouble()) ==> repo.status == old(repo.status))
        invariant forall i :: 0 <= i < k && replies[i].Balance? ==>
                    lo <= at[i] < |chain.totals| && replies[i].total == chain.totals[at[i]]
      {
        ghost var before := W();
        Environment();
        DriftThrough(old(W()), before, W());
        DriftGrows(before, W());
        queries := queries + 1;
        if {
          case true => replies, at := replies + [QueryFailed], at + [0];
          case true => replies, at := replies + [Interrupted], at + [0];
          case true =>
            var i: nat :| lo <= i < |chain.totals|;
            var available: int := *;
            replies, at := replies + [Balance(chain.totals[i], available)], at + [i];
        }
      }
      ghost var w := W();
      HearingKeepsInv(w, told.(heard := told.heard + [replies]));
      told := told.(heard := told.heard + [replies]);
      assert W() == w.(told := told);
      DriftThrough(old(W()), w, W());
    }

    /** The exchange call. Accepted means applied; a first delivery that is rejected was never applied. */
    method Submit(q: Prepared) returns (reply: SubmitReply)
      requires Inv(W()) && MaySend(W(), q)
      modifies this`chain, this`runs
      ensures Inv(W()) && Extends(old(W()), W())
      ensures W().disk == old(W()).disk && |runs| == |old(runs)| && Sends(W()) == old(Sends(W())) + [q]
      ensures runs == old(runs)[|runs| - 1 := Delivery(old(runs)[|runs| - 1], q, old(W()).disk, reply)]
      ensures |old(runs)[|runs| - 1].answers| == |old(runs)[|runs| - 1].sends|
      ensures reply.Accepted? ==> q.nonce in chain.applied
      ensures reply.Rejected? && old(Sends(W())) == [] ==> q !in chain.inflight && q.nonce !in chain.applied
    {
      hide Inv, SnapshotOk, RunOk, Extends, ValidPrepared, GoodManifest, Drift;
      ghost var w := W();
      var arrives: bool := *;
      reply := Ambiguous;
      if {
        case true => reply, arrives := Rejected, false;
        case true => reply, arrives := Accepted, true;
        case true =>
      }
      if Sends(w) == [] {
        UnsentIsUnapplied(w, q);
      }
      HandOver(q, arrives, reply);
      if reply.Accepted? && q.nonce !in chain.applied {
        ghost var sent := W();
        ApplyNow(q);
        ExtendsThrough(w, sent, W());
      }
    }

    /** The request leaves the process, and may or may not arrive. */
    method HandOver(q: Prepared, arrives: bool, reply: SubmitReply)
      requires Inv(W()) && MaySend(W(), q)
      modifies this`chain, this`runs
      ensures Inv(W()) && Extends(old(W()), W())
      ensures 0 < |runs| == |old(runs)|
      ensures runs == old(runs)[|runs| - 1 := Delivery(old(runs)[|runs| - 1], q, old(W()).disk, reply)]
      ensures chain == if arrives then old(chain).(inflight := old(chain).inflight + {q}) else old(chain)
      ensures |old(runs)[|runs| - 1].answers| == |old(runs)[|runs| - 1].sends|
    {
      hide Inv, SnapshotOk, RunOk, Extends, ValidPrepared, GoodManifest, DurableAt;
      ghost var w := W();
      SendKeepsInv(w, q, arrives, reply);
      BoundariesMatch(w);
      runs := runs[|runs| - 1 := Delivery(runs[|runs| - 1], q, store.Image(), reply)];
      if arrives {
        chain := chain.(inflight := chain.inflight + {q});
      }
      assert W() == Send(w, q, arrives, reply);
    }

    /** The exchange applies a request before it answers. */
    method ApplyNow(q: Prepared)
      requires Inv(W()) && q in chain.inflight && q.nonce !in chain.applied
      modifies this`chain
      ensures Inv(W()) && Extends(old(W()), W())
      ensures q.nonce in chain.applied
    {
      hide Inv, Extends;
      var newAddress: bool := *;
      ghost var w := W();
      ChainHasHistory(w);
      ApplyKeepsInv(w, q, newAddress);
      chain := Apply(chain, q, newAddress);
      assert W() == w.(chain := Apply(w.chain, q, newAddress));
      DriftExtends(w, W());
    }

    /** The archive is written beside the snapshots; an error may come before or after the file is there. */
    method Archive(s: RunState) returns (ok: bool)
      modifies this`history, this`archiveFailures
      ensures history == old(history) || history == old(history) + [s]
      ensures ok ==> history == old(history) + [s]
      ensures archiveFailures >= old(archiveFailures) && (!ok ==> archiveFailures > old(archiveFailures))
    {
      var early: bool, late: bool := *, *;
      if !early {
        history := history + [s];
      }
      ok := !early && !late;
      if !ok {
        archiveFailures := archiveFailures + 1;
      }
    }

    /** saveActivePhase and saveState, after the caller has updated the target. */
    method Persist(next: RunState) returns (ok: bool)
      requires Inv(W()) && MaySave(W(), next)
      modifies store
      ensures Inv(W()) && W() == old(W()).(disk := W().disk)
      ensures ok ==> W().disk == Saved(old(W()).disk, next)
      ensures Open(old(W()).disk) ==> Open(W().disk)
      ensures Trouble() >= old(Trouble()) && (!ok ==> Trouble() > old(Trouble()))
    {
      ghost var w := W();
      MayReplaceHeld(w, next);
      ok := store.Save(next);
      SaveKeepsInv(w, next, store.Image());
      assert W() == w.(disk := store.Image());
    }

    /** Two equal snapshots, so that the next loss of the primary changes nothing. */
    method PersistTwice(next: RunState) returns (ok: bool)
      requires Inv(W()) && MaySave(W(), next) && next.journal.Some? && ValidProgress(next)
      requires next.phase.PhasePayoutReplaying? || next.phase.PhaseBlocked?
      modifies store
      ensures Inv(W()) && W() == old(W()).(disk := W().disk)
      ensures ok ==> W().disk == Disk(Valid(next), Valid(next))
      ensures Open(old(W()).disk) ==> Open(W().disk)
      ensures Trouble() >= old(Trouble()) && (!ok ==> Trouble() > old(Trouble()))
    {
      hide Inv, SnapshotOk, RunOk, Extends, ValidPrepared, GoodManifest;
      ok := Persist(next);
      if !ok {
        return false;
      }
      AdvanceIsSafe(W(), next, next);
      ok := Persist(next);
    }

    // ------------------------------------------------------------ completion

    /** completeDatabase. */
    method CompleteDatabase(s: RunState) returns (outcome: Outcome)
      requires Inv(W()) && Holding(W(), s) && !s.phase.PhaseCompleted? && ValidProgress(s)
      requires s.journal.Some? ==> s.journal.value.prepared.nonce in chain.applied
      requires s.journal.None? ==> s.manifest.payoutTotal == 0
      requires s.run < |runs| && Settled(W(), s.run)
      modifies this, store, repo, nonces
      ensures Inv(W()) && Extends(old(W()), W())
      ensures queries == old(queries)
      ensures runs == old(runs) && issued == old(issued)
      ensures !Open(W().disk) ==> Closed(s.run, s.manifest)
      ensures outcome.Finished? ==> !Open(W().disk) && history == old(history) + [s.(phase := PhaseCompleted)]
      ensures Trouble() >= old(Trouble()) && (Trouble() == old(Trouble()) && old(Fit(s.manifest)) ==> outcome.Finished?)
      ensures outcome.Finished? || outcome.Failed?
      decreases Budget(s), Progress(s), 2
    {
      hide Inv, SnapshotOk, RunOk, Extends, ValidPrepared, GoodManifest, Closed, Clean, AllDone, Settled, Unrest;
      ghost var w0 := W();
      HeldState(w0, s);
      var ok := CompleteRows(s);
      ghost var w1 := W();
      if !ok {
        return Failed;
      }
      outcome := MarkCompleted(s);
      ExtendsThrough(w0, w1, W());
    }

    /** The end of completeDatabase: the phase is saved, and the run finished. */
    method MarkCompleted(s: RunState) returns (outcome: Outcome)
      requires Inv(W()) && Holding(W(), s) && !s.phase.PhaseCompleted? && ValidProgress(s)
      requires s.journal.Some? ==> s.journal.value.prepared.nonce in chain.applied
      requires s.journal.None? ==> s.manifest.payoutTotal == 0
      requires AllDone(repo.status, IdSet(s.manifest))
      modifies this, store, repo, nonces
      ensures Inv(W()) && Extends(old(W()), W())
      ensures queries == old(queries) && runs == old(runs) && issued == old(issued)
      ensures !Open(W().disk) ==> Closed(s.run, s.manifest)
      ensures outcome.Finished? ==> !Open(W().disk) && history == old(history) + [s.(phase := PhaseCompleted)]
      ensures Trouble() >= old(Trouble()) && (Trouble() == old(Trouble()) ==> outcome.Finished?)
      ensures outcome.Finished? || outcome.Failed?
      decreases Budget(s), Progress(s), 1
    {
      hide Inv, SnapshotOk, RunOk, Extends, ValidPrepared, GoodManifest, Closed, Clean, AllDone, Settled, Unrest;
      ghost var w1 := W();
      HeldState(w1, s);
      var next := s.(phase := PhaseCompleted);
      if s.journal.Some? {
        AdvanceIsSafe(w1, s, next);
      } else {
        ZeroRunMayComplete(w1, s);
      }
      var ok := Persist(next);
      ghost var w2 := W();
      DiskStepExtends(w1, w2);
      if !ok {
        return Failed;
      }
      outcome := RunActiveTarget(next);
      ExtendsThrough(w1, w2, W());
    }

    /** The rows of a settled run are completed. */
    method CompleteRows(s: RunState) returns (ok: bool)
      requires Inv(W()) && Holding(W(), s) && s.run < |runs| && Settled(W(), s.run)
      modifies repo, this`refusals
      ensures Inv(W()) && Extends(old(W()), W())
      ensures W() == old(W()).(status := repo.status, touched := repo.touched, foreign := repo.foreign)
      ensures Step(old(repo.Now()), repo.Now(), IdSet(s.manifest))
      ensures ok ==> AllDone(repo.status, IdSet(s.manifest))
      ensures Trouble() >= old(Trouble())
      ensures Trouble() == old(Trouble()) && old(Fit(s.manifest)) ==> ok
    {
      hide Inv, OnlyCompletes, Step, Unrest, Clean, SnapshotOk, RunOk, Extends, ValidPrepared, GoodManifest;
      ghost var w := W();
      HeldState(w, s);
      var ids := seq(|s.manifest.records|, i requires 0 <= i < |s.manifest.records| => s.manifest.records[i].id);
      IdsAreElements(s.manifest, ids);
      var cancelled := Refuses();
      var attempts: int := *;
      var patience: nat := if cancelled then 0 else if attempts < 1 then 1 else attempts;
      ghost var rows := repo.Now();
      var completion := repo.Complete(ids, patience);
      StepMeans(rows, repo.Now(), IdSet(s.manifest));
      UnrestGrows(rows, repo.Now(), IdSet(s.manifest));
      CompleteKeepsInv(w, repo.status, repo.touched, repo.foreign, s.run);
      assert W() == w.(status := repo.status, touched := repo.touched, foreign := repo.foreign);
      ok := completion.Completed?;
    }

    /** The run is gone from disk, its rows are completed and it was paid in full or owed nothing. */
    ghost predicate Closed(run: nat, manifest: Manifest)
      reads this, store, repo
    {
      && !Open(W().disk)
      && AllDone(repo.status, IdSet(manifest))
      && run < |runs| && Settled(W(), run)
    }

    /** finishRun. */
    method FinishRun(s: RunState) returns (outcome: Outcome)
      requires Inv(W()) && s.phase.PhaseCompleted? && W().disk.current == Valid(s)
      modifies store, this`history, this`archiveFailures
      ensures Inv(W()) && W() == old(W()).(disk := W().disk)
      ensures outcome.Finished? || outcome.Failed?
      ensures !Open(W().disk) ==> Closed(s.run, s.manifest)
      ensures outcome.Finished? ==> !Open(W().disk) && history == old(history) + [s]
      ensures Trouble() >= old(Trouble()) && (Trouble() == old(Trouble()) ==> outcome.Finished?)
    {
      hide Inv, SnapshotOk, RunOk, Extends, ValidPrepared, GoodManifest;
      ghost var w := W();
      HeldState(w, s);
      CompletedIsSettled(w, s);
      var ok := Archive(s);
      if !ok {
        return Failed;
      }
      ok := store.Clear();
      ClearKeepsInv(w, store.Image());
      assert W() == w.(disk := store.Image());
      outcome := if ok then Finished else Failed;
    }

    /** runActiveTarget: finish, complete without paying, or pay. */
    method RunActiveTarget(s: RunState) returns (outcome: Outcome)
      requires Inv(W()) && Holding(W(), s)
      requires s.phase.PhasePrepared? || s.phase.PhaseCompleted?
      requires s.phase.PhaseCompleted? ==> W().disk.current == Valid(s)
      modifies this, store, repo, nonces
      ensures Inv(W()) && Extends(old(W()), W())
      ensures queries <= old(queries) + QueryBudget(s)
      ensures s.phase.PhaseCompleted? ==> queries == old(queries) && runs == old(runs) && issued == old(issued)
      ensures s.phase.PhaseCompleted? && !Open(W().disk) ==> Closed(s.run, s.manifest)
      ensures s.phase.PhaseCompleted? && outcome.Finished? ==> history == old(history) + [s]
      ensures outcome.Finished? ==> !Open(W().disk) && Closed(s.run, s.manifest)
      ensures s.phase.PhaseCompleted? && Trouble() == old(Trouble()) ==> outcome.Finished?
      ensures Trouble() >= old(Trouble())
      ensures LastAccepted(old(runs), runs, s.run) && Trouble() == old(Trouble()) && old(Fit(s.manifest)) ==>
                outcome.Finished?
      ensures |runs| == |old(runs)|
      ensures s.phase.PhasePrepared? && s.manifest.payoutTotal == 0
              && Trouble() == old(Trouble()) && old(Fit(s.manifest)) ==>
                outcome.Finished?
      ensures s.phase.PhasePrepared? && s.manifest.payoutTotal != 0 ==>
                && |old(told.heard)| < |told.heard|
                && ActsOnBaseline(old(runs), runs, s, told.heard[|old(told.heard)|],
                                  Trouble() == old(Trouble()), outcome)
      ensures s.phase.PhaseCompleted? || s.manifest.payoutTotal == 0 ==> outcome.Finished? || outcome.Failed?
      decreases Budget(s), Progress(s), 7
    {
      hide Inv, SnapshotOk, RunOk, Extends, ValidPrepared, GoodManifest, LastAccepted, Closed, ActsOnBaseline;
      UnansweredAll(runs);
      HeldState(W(), s);
      if s.phase.PhaseCompleted? {
        ghost var w := W();
        outcome := FinishRun(s);
        DiskStepExtends(w, W());
        return;
      }
      if |s.manifest.records| == 0 {
        PayoutIsZeroIffAllZero(s.manifest.records);
        outcome := CompleteDatabase(s);
        return;
      }
      if s.manifest.payoutTotal == 0 {
        outcome := CompleteDatabase(s);
        return;
      }
      ghost var replies;
      outcome, replies := RunPositive(s);
    }

    // ------------------------------------------------------------ the payout

    /** runPositive: a stable baseline that covers the payout, read after every earlier outflow. */
    method RunPositive(s: RunState) returns (outcome: Outcome, ghost replies: seq<Reply>)
      requires Inv(W()) && Holding(W(), s) && s.phase.PhasePrepared? && s.manifest.payoutTotal != 0
      modifies this, store, repo, nonces
      ensures Inv(W()) && Extends(old(W()), W())
      ensures queries <= old(queries) + QueryBudget(s)
      ensures outcome.Finished? ==> !Open(W().disk) && Closed(s.run, s.manifest)
      ensures (forall k :: !Covered(replies, k, s.manifest.payoutTotal)) ==>
                outcome.Failed? && runs == old(runs) && issued == old(issued) && W().disk == old(W()).disk
      ensures runs == old(runs) ||
              exists k, q ::
                && Covered(replies, k, s.manifest.payoutTotal) && ValidPrepared(s.manifest, q)
                && Delivered(old(runs), runs, s.run, q, FirstBoundary(s, q, replies[k].total))
      ensures Trouble() >= old(Trouble())
      ensures LastAccepted(old(runs), runs, s.run) && Trouble() == old(Trouble()) && old(Fit(s.manifest)) ==>
                outcome.Finished?
      ensures old(told.heard) + [replies] <= told.heard
      ensures |runs| == |old(runs)|
      ensures ActsOnBaseline(old(runs), runs, s, replies, Trouble() == old(Trouble()), outcome)
      decreases Budget(s), Progress(s), 6
    {
      hide Inv, SnapshotOk, RunOk, Extends, ValidPrepared, GoodManifest, LastAccepted, Delivered, Closed;
      HeldState(W(), s);
      UnsentIsUnanswered(runs, s.run);
      hide ActsOnBaseline, Covered, Unrest, Clean, Tells;
      ghost var w0 := W();
      PreparedMeansUnsent(w0, s);
      ChainHasHistory(w0);
      var answers, at := Readings(chain.outflow, BASELINE_ATTEMPTS);
      replies := answers;
      ghost var w1 := W();
      DriftExtends(w0, w1);
      var baseline := AwaitStableBalance(answers, s.manifest.payoutTotal);
      BaselineIsCovered(answers, s.manifest.payoutTotal, baseline);
      if !baseline.Stable? {
        ActsWithoutPair(w0.runs, s, replies, Trouble() == old(Trouble()));
        return Failed, replies;
      }
      outcome := ExecutePayout(s, baseline.total, at[baseline.at]);
      ActsOnPair(w0.runs, runs, s, replies, baseline.at, Trouble() == old(Trouble()), outcome);
      ToldStays(w1, W());
      ExtendsThrough(w0, w1, W());
    }

    /** The clock is ahead of every nonce that an earlier process drew, and the generator of those it drew itself. */
    method DrawNonce() returns (nonce: nat)
      modifies nonces
      ensures nonce !in issued && nonce == nonces.last
    {
      SomeClockIsAhead(issued, nonces.last);
      var now: nat :| ClockAhead(issued, nonces.last, now);
      nonce := nonces.Next(now);
    }

    /** The nonce belongs to this run, and its baseline becomes the floor of later reads. */
    method Issue(s: RunState, at: nat) returns (nonce: nat)
      requires Inv(W()) && Holding(W(), s) && s.phase.PhasePrepared?
      requires chain.outflow <= at < |chain.totals|
      modifies this`issued, this`chain, nonces
      ensures Inv(W()) && Extends(old(W()), W()) && NothingOutstanding(chain)
      ensures nonce !in old(issued) && issued == old(issued)[nonce := s.run] && chain == old(chain).(floor := at)
    {
      hide Inv, SnapshotOk, RunOk, Extends, ValidPrepared, GoodManifest;
      ghost var w := W();
      HeldState(w, s);
      PreparedMeansUnsent(w, s);
      nonce := DrawNonce();
      PrepareKeepsInv(w, nonce, at);
      issued, chain := issued[nonce := s.run], chain.(floor := at);
      assert W() == w.(issued := w.issued[nonce := |w.runs| - 1], chain := w.chain.(floor := at));
    }

    /**
     The nonce and PrepareSpotSend. The client signs the nonce it was given; every other field of what
     it returns is open, so that only validation stands between it and the journal.
     */
    method Prepare(s: RunState, at: nat) returns (action: Option<Prepared>)
      requires Inv(W()) && Holding(W(), s) && s.phase.PhasePrepared?
      requires chain.outflow <= at < |chain.totals| && s.manifest.token.Some?
      modifies this`issued, this`chain, this`refusals, repo, nonces
      ensures Inv(W()) && Extends(old(W()), W()) && W().disk == old(W()).disk
      ensures action.Some? ==> action.value.nonce in issued && issued[action.value.nonce] == s.run
      ensures Trouble() == old(Trouble()) ==>
                action.Some? && action.value == HonestRequest(s.manifest, action.value.nonce)
      ensures chain.floor == at < |chain.totals| && chain.totals[at] == old(chain.totals[at])
      ensures chain.outflow <= at
      ensures Trouble() >= old(Trouble()) && (Trouble() == old(Trouble()) ==> repo.status == old(repo.status))
    {
      hide Inv, SnapshotOk, RunOk, Extends, ValidPrepared, GoodManifest, HonestRequest;
      hide Unrest;
      ghost var w := W();
      HeldState(w, s);
      var nonce := Issue(s, at);
      ghost var w1 := W();
      action := Sign(s.manifest, nonce);
      Environment();
      DriftExtends(w1, W());
      ExtendsThrough(w, w1, W());
    }

    /** executePayout. */
    method ExecutePayout(s: RunState, before: int, at: nat) returns (outcome: Outcome)
      requires Inv(W()) && Holding(W(), s) && s.phase.PhasePrepared? && s.manifest.payoutTotal != 0
      requires chain.outflow <= at < |chain.totals| && chain.totals[at] == before
      modifies this, store, repo, nonces
      ensures Inv(W()) && Extends(old(W()), W())
      ensures queries <= old(queries) + 2 * QUERY_ATTEMPTS
      ensures outcome.Finished? ==> !Open(W().disk) && Closed(s.run, s.manifest)
      ensures runs == old(runs) ||
              exists q :: ValidPrepared(s.manifest, q)
                          && Delivered(old(runs), runs, s.run, q, FirstBoundary(s, q, before))
      ensures Trouble() >= old(Trouble())
      ensures LastAccepted(old(runs), runs, s.run) && Trouble() == old(Trouble()) && old(Fit(s.manifest)) ==>
                outcome.Finished?
      ensures |runs| == |old(runs)|
      ensures Trouble() == old(Trouble()) && s.manifest.payoutTotal <= before ==> runs != old(runs)
      ensures outcome.Fatal? && runs == old(runs) ==> before < s.manifest.payoutTotal
      decreases Budget(s), Progress(s), 5
    {
      hide Inv, SnapshotOk, RunOk, Extends, ValidPrepared, GoodManifest, LastAccepted, Delivered, Closed, JournalOk;
      ghost var w0 := W();
      HeldState(w0, s);
      TokenIsKnown(s.manifest);
      UnsentIsUnanswered(runs, s.run);
      var action := Prepare(s, at);
      ghost var w1 := W();
      if action.None? {
        return Failed;  // the client could not prepare the request
      }
      OnlyHonestRequestsAreValid(s.manifest, action.value);
      if !ValidPrepared(s.manifest, action.value) {
        return Failed;
      }
      var next := s.(phase := PhasePayoutPrepared, journal := Some(Journal(action.value, before, 1)));
      JournalIsFresh(w1, s, next);
      var ok := Persist(next);
      ghost var w2 := W();
      DiskStepExtends(w1, w2);
      ExtendsThrough(w0, w1, w2);
      if !ok {
        return Failed;
      }
      outcome := SubmitPreparedPayout(next);
      assert next == Journaled(s, action.value, before);
      ExtendsThrough(w0, w2, W());
    }

    /** submitPreparedPayout: the second durable boundary, then the first submission. */
    method SubmitPreparedPayout(s: RunState) returns (outcome: Outcome)
      requires Inv(W()) && s.phase.PhasePayoutPrepared? && W().disk.current == Valid(s)
      modifies this, store, repo, nonces
      ensures Inv(W()) && Extends(old(W()), W())
      ensures queries <= old(queries) + 2 * QUERY_ATTEMPTS
      ensures outcome.Finished? ==> !Open(W().disk) && Closed(s.run, s.manifest)
      ensures runs == old(runs) ||
              (s.journal.Some? && Delivered(old(runs), runs, s.run, s.journal.value.prepared,
                                            Disk(Valid(s.(phase := PhasePayoutSubmitting)), Valid(s))))
      ensures Trouble() >= old(Trouble())
      ensures LastAccepted(old(runs), runs, s.run) && Trouble() == old(Trouble()) && old(Fit(s.manifest)) ==>
                outcome.Finished?
      ensures |runs| == |old(runs)|
      ensures Trouble() == old(Trouble()) && BaselineCovers(s) ==> runs != old(runs)
      ensures runs == old(runs) ==> if BaselineCovers(s) then outcome.Failed? else outcome.Fatal?
      decreases Budget(s), Progress(s), 6
    {
      hide Inv, SnapshotOk, RunOk, Extends, ValidPrepared, GoodManifest, LastAccepted, Delivered, Closed, JournalOk;
      hide Unrest, Clean, MaySend, Answered;
      ghost var w0 := W();
      HeldState(w0, s);
      JournalIsHeld(w0, s);
      CoveredIsValid(w0, s);
      UnsentIsUnanswered(runs, s.run);
      DiskStepExtends(w0, w0);
      if !ValidProgress(s) {
        return Fatal;
      }
      assert ValidJournal(s.manifest, s.journal.value);
      var next := s.(phase := PhasePayoutSubmitting);
      AdvanceIsSafe(w0, s, next);
      var ok := Persist(next);
      DiskStepExtends(w0, W());
      if !ok {
        return Failed;
      }
      ghost var w1 := W();
      BoundaryAllowsSend(w1, next, s);
      outcome := SubmitPayoutAttempt(next, false);
      DeliveryShows(w0.runs, runs, s.run, s.journal.value.prepared, w1.disk);
      ExtendsThrough(w0, w1, W());
    }

    /** replayPreparedPayout: both generations spend the replay before the request may leave. */
    method ReplayPreparedPayout(s: RunState) returns (outcome: Outcome)
      requires Inv(W()) && Holding(W(), s) && s.journal.Some? && ValidProgress(s)
      requires s.phase.PhasePayoutPrepared? || s.phase.PhasePayoutSubmitting?
      modifies this, store, repo, nonces
      ensures Inv(W()) && Extends(old(W()), W())
      ensures queries <= old(queries) + QUERY_ATTEMPTS
      ensures outcome.Finished? ==> !Open(W().disk)
      ensures !Open(W().disk) ==> Closed(s.run, s.manifest)
      ensures runs == old(runs) ||
              Delivered(old(runs), runs, s.run, s.journal.value.prepared,
                        Disk(Valid(Replaying(s)), Valid(Replaying(s))))
      ensures Trouble() >= old(Trouble())
      ensures LastAccepted(old(runs), runs, s.run) && Trouble() == old(Trouble()) && old(Fit(s.manifest)) ==>
                outcome.Finished?
      ensures |runs| == |old(runs)|
      ensures Trouble() == old(Trouble()) ==> runs != old(runs)
      ensures runs == old(runs) ==> outcome.Fatal?
      decreases Budget(s), Progress(s), 3, 0
    {
      hide Inv, SnapshotOk, RunOk, Extends, ValidPrepared, GoodManifest, LastAccepted, Delivered, Closed, JournalOk;
      hide Unrest, Clean, MaySend, Answered;
      ghost var w0 := W();
      HeldState(w0, s);
      UnsentIsUnanswered(runs, s.run);
      assert ValidJournal(s.manifest, s.journal.value) && s.journal.value.attempts == 1;
      var next := s.(phase := PhasePayoutReplaying, blockedReason := NotBlocked,
                     journal := Some(s.journal.value.(attempts := 2)));
      AdvanceIsSafe(w0, s, next);
      var ok := PersistTwice(next);
      DiskStepExtends(w0, W());
      if !ok {
        return Fatal;
      }
      ghost var w1 := W();
      BoundaryAllowsSend(w1, next, next);
      outcome := SubmitPayoutAttempt(next, true);
      DeliveryShows(w0.runs, runs, s.run, s.journal.value.prepared, w1.disk);
      ExtendsThrough(w0, w1, W());
    }

    /** submitPayoutAttempt. */
    method SubmitPayoutAttempt(s: RunState, exactReplay: bool) returns (outcome: Outcome)
      requires Inv(W()) && s.journal.Some? && ValidProgress(s) && W().disk.current == Valid(s)
      requires if exactReplay then s.phase.PhasePayoutReplaying? else s.phase.PhasePayoutSubmitting?
      requires MaySend(W(), s.journal.value.prepared)
      requires !exactReplay ==> Sends(W()) == []
      modifies this, store, repo, nonces
      ensures Inv(W()) && Extends(old(W()), W())
      ensures queries <= old(queries) + QueryBudget(s)
      ensures outcome.Finished? ==> !Open(W().disk) && Closed(s.run, s.manifest)
      ensures Delivered(old(runs), runs, s.run, s.journal.value.prepared, old(W()).disk)
      ensures !Open(W().disk) && !Closed(s.run, s.manifest) ==>
                && !exactReplay && outcome.Fatal?
                && s.journal.value.prepared !in chain.inflight && s.journal.value.prepared.nonce !in chain.applied
      ensures Trouble() >= old(Trouble())
      ensures LastAccepted(old(runs), runs, s.run) && Trouble() == old(Trouble()) && old(Fit(s.manifest)) ==>
                outcome.Finished?
      ensures |runs| == |old(runs)|
      ensures Answered(old(runs), runs, s.run, Rejected) && !exactReplay && Trouble() == old(Trouble()) ==>
                !Open(W().disk) && history == old(history) + [Blocked(s, ExplicitlyRejected)]
      ensures Answered(old(runs), runs, s.run, Ambiguous)
              || (Answered(old(runs), runs, s.run, Rejected) && exactReplay) ==>
                |old(told.heard)| < |told.heard|
      ensures Answered(old(runs), runs, s.run, Accepted) ==>
                && (outcome.Finished? || outcome.Failed?)
                && (outcome.Finished? ==>
                      history == old(history) + [Paid(s, ExchangeResponse).(phase := PhaseCompleted)])
      decreases Budget(s), Progress(s), 5
    {
      hide Inv, SnapshotOk, RunOk, Extends, ValidPrepared, GoodManifest, LastAccepted, Closed, Delivered, Answered;
      hide Unrest, Clean, DurableAt, ValidProgress;
      ghost var w0 := W();
      HeldState(w0, s);
      BoundariesMatch(w0);
      var reply := Submit(s.journal.value.prepared);
      ghost var w1 := W();
      DeliveryIsLogged(w0.runs, w1.runs, s.journal.value.prepared, w0.disk, reply);
      outcome := ActOnReply(s, exactReplay, reply);
      ExtendsThrough(w0, w1, W());
      DeliveryStays(w0, w1, W(), s.run, s.journal.value.prepared, w0.disk);
      AcceptedLater(w0, w1, W(), s.run);
      AnswerStays(w0, w1, W(), s.run, reply);
    }

    /** The switch of submitPayoutAttempt over the answer. */
    method ActOnReply(s: RunState, exactReplay: bool, reply: SubmitReply) returns (outcome: Outcome)
      requires Inv(W()) && s.journal.Some? && ValidProgress(s) && W().disk.current == Valid(s)
      requires if exactReplay then s.phase.PhasePayoutReplaying? else s.phase.PhasePayoutSubmitting?
      requires reply.Accepted? ==> s.journal.value.prepared.nonce in chain.applied
      requires reply.Rejected? && !exactReplay ==>
                 && |runs| > 0 && Sends(W()) == [s.journal.value.prepared]
                 && s.journal.value.prepared !in chain.inflight && s.journal.value.prepared.nonce !in chain.applied
      modifies this, store, repo, nonces
      ensures Inv(W()) && Extends(old(W()), W())
      ensures queries <= old(queries) + QueryBudget(s)
      ensures outcome.Finished? ==> !Open(W().disk) && Closed(s.run, s.manifest)
      ensures !Open(W().disk) && !Closed(s.run, s.manifest) ==>
                && !exactReplay && outcome.Fatal?
                && s.journal.value.prepared !in chain.inflight && s.journal.value.prepared.nonce !in chain.applied
      ensures Trouble() >= old(Trouble())
      ensures reply.Accepted? && Trouble() == old(Trouble()) && old(Fit(s.manifest)) ==> outcome.Finished?
      ensures reply.Rejected? && !exactReplay && Trouble() == old(Trouble()) ==>
                !Open(W().disk) && history == old(history) + [Blocked(s, ExplicitlyRejected)]
      ensures reply.Ambiguous? || (reply.Rejected? && exactReplay) ==> |old(told.heard)| < |told.heard|
      ensures LastAccepted(old(runs), runs, s.run) && Trouble() == old(Trouble()) && old(Fit(s.manifest)) ==>
                outcome.Finished?
      ensures |runs| == |old(runs)|
      ensures reply.Accepted? ==> outcome.Finished? || outcome.Failed?
      ensures reply.Accepted? && outcome.Finished? ==>
                history == old(history) + [Paid(s, ExchangeResponse).(phase := PhaseCompleted)]
      decreases Budget(s), Progress(s), 4, 1
    {
      hide Inv, SnapshotOk, RunOk, Extends, ValidPrepared, GoodManifest, LastAccepted, Closed, Delivered, Decided;
      ghost var w := W();
      HeldState(w, s);
      UnsentIsUnanswered(runs, s.run);
      ghost var replies, decision;
      match reply
      case Accepted =>
        outcome := ConfirmPayout(s, ExchangeResponse);
      case Rejected =>
        if !exactReplay {
          var cleared;
          outcome, cleared := RejectPayout(s);
          DiskStepExtends(w, W());
        } else {
          outcome, replies, decision := ObserveUncertainPayout(s);
        }
      case Ambiguous =>
        outcome, replies, decision := ObserveUncertainPayout(s);
    }

    /** observeUncertainPayout: confirm, replay once, or block. */
    method ObserveUncertainPayout(s: RunState)
      returns (outcome: Outcome, ghost replies: seq<Reply>, ghost decision: Decision)
      requires Inv(W()) && Holding(W(), s) && s.journal.Some? && ValidProgress(s)
      requires s.phase.PhasePayoutPrepared? || s.phase.PhasePayoutSubmitting? || s.phase.PhasePayoutReplaying?
      modifies this, store, repo, nonces
      ensures Inv(W()) && Extends(old(W()), W())
      ensures queries <= old(queries) + QueryBudget(s)
      ensures outcome.Finished? ==> !Open(W().disk)
      ensures !Open(W().disk) ==> Closed(s.run, s.manifest)
      ensures |replies| == QUERY_ATTEMPTS
      ensures Decided(replies, s.phase, s.journal.value.attempts, s.journal.value.totalBefore,
                      s.manifest.payoutTotal, decision)
      ensures !decision.ExactReplay? ==> runs == old(runs)
      ensures decision.Halt? ==> outcome.Failed? && W().disk == old(W()).disk
      ensures decision.Block? ==> outcome.Fatal?
      ensures decision.Confirm? && outcome.Finished? ==>
                history == old(history) + [Paid(s, decision.evidence).(phase := PhaseCompleted)]
      ensures decision.ExactReplay? ==>
                runs == old(runs) || Delivered(old(runs), runs, s.run, s.journal.value.prepared,
                                               Disk(Valid(Replaying(s)), Valid(Replaying(s))))
      ensures Trouble() >= old(Trouble())
      ensures LastAccepted(old(runs), runs, s.run) && Trouble() == old(Trouble()) && old(Fit(s.manifest)) ==>
                outcome.Finished?
      ensures old(told.heard) + [replies] <= told.heard
      ensures |runs| == |old(runs)|
      ensures decision.Block? && Trouble() == old(Trouble()) ==>
                BothBlocked(W().disk) && history == old(history) + [Blocked(s, UncertainResult)]
      ensures decision.Confirm? && Trouble() == old(Trouble()) && old(Fit(s.manifest)) ==> outcome.Finished?
      ensures decision.ExactReplay? && Trouble() == old(Trouble()) ==> runs != old(runs)
      ensures decision.Confirm? ==> outcome.Finished? || outcome.Failed?
      ensures decision.ExactReplay? && runs == old(runs) ==> outcome.Fatal?
      decreases Budget(s), Progress(s), 4, 0
    {
      hide Inv, SnapshotOk, RunOk, Extends, ValidPrepared, GoodManifest, LastAccepted, Closed, Delivered, Decided;
      hide BothBlocked, ValidProgress, Holding, Drift;
      HeldState(W(), s);
      ghost var w0 := W();
      UnsentIsUnanswered(runs, s.run);
      var d;
      d, replies := Watch(s);
      ghost var w1 := W();
      decision := d;
      outcome := ActOnDecision(s, d);
      ToldStays(w1, W());
      ExtendsThrough(w0, w1, W());
    }

    /** Confirm, replay, block or stop. */
    method ActOnDecision(s: RunState, decision: Decision) returns (outcome: Outcome)
      requires Inv(W()) && Holding(W(), s) && s.journal.Some? && ValidProgress(s)
      requires s.phase.PhasePayoutPrepared? || s.phase.PhasePayoutSubmitting? || s.phase.PhasePayoutReplaying?
      requires decision.Confirm? ==> s.journal.value.prepared.nonce in chain.applied
      requires decision.ExactReplay? ==> ReplayLeft(s.phase, s.journal.value.attempts)
      modifies this, store, repo, nonces
      ensures Inv(W()) && Extends(old(W()), W())
      ensures queries <= old(queries) + if decision.ExactReplay? then QUERY_ATTEMPTS else 0
      ensures outcome.Finished? ==> !Open(W().disk)
      ensures !Open(W().disk) ==> Closed(s.run, s.manifest)
      ensures !decision.ExactReplay? ==> runs == old(runs)
      ensures decision.Halt? ==> outcome.Failed? && W().disk == old(W()).disk
      ensures decision.Block? ==> outcome.Fatal?
      ensures decision.Confirm? && outcome.Finished? ==>
                history == old(history) + [Paid(s, decision.evidence).(phase := PhaseCompleted)]
      ensures decision.ExactReplay? ==>
                runs == old(runs) || Delivered(old(runs), runs, s.run, s.journal.value.prepared,
                                               Disk(Valid(Replaying(s)), Valid(Replaying(s))))
      ensures Trouble() >= old(Trouble())
      ensures LastAccepted(old(runs), runs, s.run) && Trouble() == old(Trouble()) && old(Fit(s.manifest)) ==>
                outcome.Finished?
      ensures |runs| == |old(runs)|
      ensures decision.Block? && Trouble() == old(Trouble()) ==>
                BothBlocked(W().disk) && history == old(history) + [Blocked(s, UncertainResult)]
      ensures decision.Confirm? && Trouble() == old(Trouble()) && old(Fit(s.manifest)) ==> outcome.Finished?
      ensures decision.ExactReplay? && Trouble() == old(Trouble()) ==> runs != old(runs)
      ensures decision.Confirm? ==> outcome.Finished? || outcome.Failed?
      ensures decision.ExactReplay? && runs == old(runs) ==> outcome.Fatal?
      decreases Budget(s), Progress(s), 3, 1
    {
      hide Inv, SnapshotOk, RunOk, Extends, ValidPrepared, GoodManifest, BothBlocked, LastAccepted, Closed, Delivered;
      HeldState(W(), s);
      UnsentIsUnanswered(runs, s.run);
      DiskStepExtends(W(), W());
      ghost var w := W();
      match decision
      case Halt =>
        outcome := Failed;
      case Confirm(evidence) =>
        outcome := ConfirmPayout(s, evidence);
      case ExactReplay =>
        outcome := ReplayPreparedPayout(s);
      case Block =>
        var durable;
        outcome, durable := BlockUncertainPayout(s);
        DiskStepExtends(w, W());
    }

    /** The observation loop on the settlement account, and what it shows. */
    method Watch(s: RunState) returns (decision: Decision, ghost replies: seq<Reply>)
      requires Inv(W()) && Holding(W(), s) && s.journal.Some? && ValidProgress(s) && !s.phase.PhaseCompleted?
      modifies this`chain, this`told, this`queries, repo
      ensures Inv(W()) && Extends(old(W()), W()) && Holding(W(), s) && W().disk == old(W()).disk
      ensures |replies| == QUERY_ATTEMPTS && told == old(told).(heard := old(told.heard) + [replies])
      ensures queries == old(queries) + QUERY_ATTEMPTS
      ensures Decided(replies, s.phase, s.journal.value.attempts, s.journal.value.totalBefore,
                      s.manifest.payoutTotal, decision)
      ensures decision.Confirm? ==> s.journal.value.prepared.nonce in chain.applied
      ensures decision.ExactReplay? ==> ReplayLeft(s.phase, s.journal.value.attempts)
      ensures Trouble() >= old(Trouble()) && (Trouble() == old(Trouble()) ==> repo.status == old(repo.status))
    {
      hide Inv, SnapshotOk, RunOk, Extends, ValidPrepared, GoodManifest;
      ghost var w0 := W();
      ChainHasHistory(w0);
      var j := s.journal.value;
      var answers, at := Readings(chain.floor, QUERY_ATTEMPTS);
      replies := answers;
      DriftExtends(w0, W());
      var used;
      decision, used := Decide(answers, s.phase, j.attempts, j.totalBefore, s.manifest.payoutTotal);
      if decision.Confirm? {
        BalanceProvesPayment(W(), s, at[used - 1]);
      }
    }

    /** confirmPayout. */
    method ConfirmPayout(s: RunState, evidence: Evidence) returns (outcome: Outcome)
      requires Inv(W()) && Holding(W(), s) && s.journal.Some? && ValidProgress(s) && !s.phase.PhaseCompleted?
      requires s.journal.value.prepared.nonce in chain.applied
      modifies this, store, repo, nonces
      ensures Inv(W()) && Extends(old(W()), W())
      ensures queries == old(queries)
      ensures runs == old(runs)
      ensures !Open(W().disk) ==> Closed(s.run, s.manifest)
      ensures outcome.Finished? ==>
                && !Open(W().disk)
                && history == old(history) + [Paid(s, evidence).(phase := PhaseCompleted)]
      ensures Trouble() >= old(Trouble()) && (Trouble() == old(Trouble()) && old(Fit(s.manifest)) ==> outcome.Finished?)
      ensures outcome.Finished? || outcome.Failed?
      decreases Budget(s), Progress(s), 3, 0
    {
      hide Inv, SnapshotOk, RunOk, Extends, ValidPrepared, GoodManifest, Unrest, Clean, Closed, Settled;
      ghost var w0 := W();
      var next := s.(phase := PhasePayoutConfirmed, blockedReason := NotBlocked, evidence := evidence);
      AdvanceIsSafe(w0, s, next);
      var ok := Persist(next);
      DiskStepExtends(w0, W());
      if !ok {
        return Failed;
      }
      ghost var w1 := W();
      AppliedMeansSettled(w1, next);
      outcome := CompleteDatabase(next);
      ExtendsThrough(w0, w1, W());
    }

    /**
     rejectPayout: the request was refused on its only delivery, so the run can be forgotten. `cleared`
     says that no write failed.
     */
    method RejectPayout(s: RunState) returns (outcome: Outcome, cleared: bool)
      requires Inv(W()) && s.journal.Some? && ValidProgress(s) && W().disk.current == Valid(s)
      requires s.phase.PhasePayoutSubmitting?
      requires |runs| > 0 && Sends(W()) == [s.journal.value.prepared]
      requires s.journal.value.prepared !in chain.inflight && s.journal.value.prepared.nonce !in chain.applied
      modifies store, this`history, this`archiveFailures
      ensures Inv(W()) && W() == old(W()).(disk := W().disk)
      ensures outcome.Fatal?
      ensures cleared ==> !Open(W().disk) && history == old(history) + [Blocked(s, ExplicitlyRejected)]
      ensures Trouble() >= old(Trouble()) && (!cleared ==> Trouble() > old(Trouble()))
    {
      hide Inv, SnapshotOk, RunOk, Extends, ValidPrepared, GoodManifest;
      ghost var w0 := W();
      var next := s.(phase := PhaseBlocked, blockedReason := ExplicitlyRejected);
      AdvanceIsSafe(w0, s, next);
      var ok := PersistTwice(next);
      if !ok {
        return Fatal, false;
      }
      ok := Archive(next);
      if !ok {
        return Fatal, false;
      }
      ghost var w1 := W();
      ok := store.Clear();
      ClearKeepsInv(w1, store.Image());
      assert W() == w1.(disk := store.Image());
      return Fatal, ok;
    }

    /**
     blockUncertainPayout: terminal, and terminal in both generations before it is reported. `durable`
     says that no write failed.
     */
    method BlockUncertainPayout(s: RunState) returns (outcome: Outcome, durable: bool)
      requires Inv(W()) && Holding(W(), s) && s.journal.Some? && ValidProgress(s) && !s.phase.PhaseCompleted?
      modifies store, this`history, this`archiveFailures
      ensures Inv(W()) && W() == old(W()).(disk := W().disk)
      ensures outcome.Fatal? && Open(W().disk)
      ensures durable ==> BothBlocked(W().disk) && history == old(history) + [Blocked(s, UncertainResult)]
      ensures Trouble() >= old(Trouble()) && (!durable ==> Trouble() > old(Trouble()))
    {
      hide Inv, SnapshotOk, RunOk, Extends, ValidPrepared, GoodManifest;
      ghost var w0 := W();
      var next := s.(phase := PhaseBlocked, blockedReason := UncertainResult);
      AdvanceIsSafe(w0, s, next);
      var ok := PersistTwice(next);
      if !ok {
        return Fatal, false;
      }
      ok := Archive(next);
      return Fatal, ok;
    }

    // ------------------------------------------------------------ activations

    /** recoverState: dispatch on the persisted phase and on where it was read. */
    method RecoverState(s: RunState, fromBackup: bool)
      returns (outcome: Outcome, ghost replies: seq<Reply>, ghost decision: Decision)
      requires Inv(W()) && Load(W().disk) == Loaded(s, fromBackup)
      modifies this, store, repo, nonces
      ensures Inv(W()) && Extends(old(W()), W())
      ensures queries <= old(queries) + QueryBudget(s)
      ensures outcome.Finished? ==> !Open(W().disk) && Closed(s.run, s.manifest)
      ensures s.phase.PhaseBlocked? ==> outcome.Fatal? && W() == old(W()) && repo.Now() == old(repo.Now())
      ensures Trouble() >= old(Trouble())
      ensures LastAccepted(old(runs), runs, s.run) && Trouble() == old(Trouble()) && old(Fit(s.manifest)) ==>
                outcome.Finished?
      ensures |runs| == |old(runs)| == s.run + 1
      ensures Recovers(s, fromBackup, outcome, replies, decision, old(Here(s.manifest)))
    {
      hide Inv, SnapshotOk, RunOk, Extends, ValidPrepared, GoodManifest, LastAccepted, Closed, ActsOnBaseline;
      hide Delivered, Watched, Recovers, Unrest, Clean, ValidProgress, Fit;
      UnansweredAll(runs);
      ghost var w, b := W(), Here(s.manifest);
      replies, decision := [], Halt;
      JournalIsHeld(w, s);
      HeldState(w, s);
      if s.phase.PhaseCompleted? {
        outcome := FinishRun(s);
        DiskStepExtends(w, W());
        RecoversByCompleting(s, fromBackup, outcome, replies, decision, b);
        return;
      }
      DiskStepExtends(w, w);
      if s.journal.Some? {
        CoveredIsValid(w, s);
      } else {
        NoJournalIsValid(s);
      }
      if !ValidProgress(s) {
        RecoversNothing(s, fromBackup, Fatal, replies, decision, b);
        return Fatal, replies, decision;
      }
      outcome, replies, decision := Resume(s, fromBackup);
    }

    /** The switch of recoverState over the phases that are not completed. */
    method Resume(s: RunState, fromBackup: bool)
      returns (outcome: Outcome, ghost replies: seq<Reply>, ghost decision: Decision)
      requires Inv(W()) && Load(W().disk) == Loaded(s, fromBackup) && ValidProgress(s) && !s.phase.PhaseCompleted?
      modifies this, store, repo, nonces
      ensures Inv(W()) && Extends(old(W()), W())
      ensures queries <= old(queries) + QueryBudget(s)
      ensures outcome.Finished? ==> !Open(W().disk) && Closed(s.run, s.manifest)
      ensures s.phase.PhaseBlocked? ==> outcome.Fatal? && W() == old(W()) && repo.Now() == old(repo.Now())
      ensures Trouble() >= old(Trouble())
      ensures LastAccepted(old(runs), runs, s.run) && Trouble() == old(Trouble()) && old(Fit(s.manifest)) ==>
                outcome.Finished?
      ensures |runs| == |old(runs)|
      ensures Recovers(s, fromBackup, outcome, replies, decision, old(Here(s.manifest)))
    {
      hide Inv, SnapshotOk, RunOk, Extends, ValidPrepared, GoodManifest, LastAccepted, Closed, ActsOnBaseline;
      hide Delivered, Watched, Recovers, Unrest, Clean, ValidProgress, Fit, BaselineCovers;
      UnansweredAll(runs);
      ghost var w, b := W(), Here(s.manifest);
      replies, decision := [], Halt;
      HeldJournal(w, s);
      HeldState(w, s);
      DiskStepExtends(w, w);
      match s.phase
      case PhasePrepared =>
        outcome := RunActiveTarget(s);
        RecoversFromPrepared(s, fromBackup, outcome, replies, decision, b);
      case PhasePayoutPrepared =>
        if fromBackup {
          outcome, replies, decision := WatchFirst(s);
          RecoversByWatching(s, fromBackup, outcome, replies, decision, b);
        } else {
          outcome := SubmitPreparedPayout(s);
          RecoversBySending(s, outcome, replies, decision, b);
        }
      case PhasePayoutSubmitting =>
        outcome, replies, decision := WatchFirst(s);
        RecoversByWatching(s, fromBackup, outcome, replies, decision, b);
      case PhasePayoutReplaying =>
        outcome, replies, decision := WatchFirst(s);
        RecoversByWatching(s, fromBackup, outcome, replies, decision, b);
      case PhasePayoutConfirmed =>
        AppliedMeansSettled(w, s);
        outcome := CompleteDatabase(s);
        RecoversByCompleting(s, fromBackup, outcome, replies, decision, b);
      case PhaseBlocked =>
        outcome := Fatal;
        RecoversNothing(s, fromBackup, outcome, replies, decision, b);
    }

    lemma RecoversByCompleting(
      s: RunState, fromBackup: bool, outcome: Outcome, replies: seq<Reply>, decision: Decision, b: Before)
      requires s.phase in {PhasePayoutConfirmed, PhaseCompleted}
      requires Trouble() == b.trouble && (s.phase.PhaseCompleted? || b.fit) ==> outcome.Finished?
      requires outcome.Finished? || outcome.Failed?
      ensures Recovers(s, fromBackup, outcome, replies, decision, b)
    {
    }

    lemma RecoversNothing(
      s: RunState, fromBackup: bool, outcome: Outcome, replies: seq<Reply>, decision: Decision, b: Before)
      requires s.phase.PhaseBlocked? || (s.phase.PhasePayoutPrepared? && s.journal.Some? && !BaselineCovers(s))
      requires outcome.Fatal? && W() == b.w
      ensures Recovers(s, fromBackup, outcome, replies, decision, b)
    {
    }

    lemma RecoversFromPrepared(
      s: RunState, fromBackup: bool, outcome: Outcome, replies: seq<Reply>, decision: Decision, b: Before)
      requires s.phase.PhasePrepared?
      requires s.manifest.payoutTotal == 0 && Trouble() == b.trouble && b.fit ==> outcome.Finished?
      requires s.manifest.payoutTotal == 0 ==> outcome.Finished? || outcome.Failed?
      requires s.manifest.payoutTotal != 0 ==>
                 && |b.w.told.heard| < |told.heard|
                 && ActsOnBaseline(b.w.runs, runs, s, told.heard[|b.w.told.heard|], Trouble() == b.trouble, outcome)
      ensures Recovers(s, fromBackup, outcome, replies, decision, b)
    {
    }

    lemma RecoversBySending(
      s: RunState, outcome: Outcome, replies: seq<Reply>, decision: Decision, b: Before)
      requires s.phase.PhasePayoutPrepared? && BaselineCovers(s)
      requires Trouble() == b.trouble ==>
                 Delivered(b.w.runs, runs, s.run, s.journal.value.prepared,
                           Disk(Valid(s.(phase := PhasePayoutSubmitting)), Valid(s)))
      requires runs == b.w.runs ==> outcome.Failed?
      ensures Recovers(s, false, outcome, replies, decision, b)
    {
    }

    lemma RecoversByWatching(
      s: RunState, fromBackup: bool, outcome: Outcome, replies: seq<Reply>, decision: Decision, b: Before)
      requires s.phase in {PhasePayoutPrepared, PhasePayoutSubmitting, PhasePayoutReplaying} && BaselineCovers(s)
      requires s.phase.PhasePayoutPrepared? ==> fromBackup
      requires Watched(s, outcome, replies, decision, b)
      ensures Recovers(s, fromBackup, outcome, replies, decision, b)
    {
    }

    /** Recovery of a request that may have left. */
    method WatchFirst(s: RunState)
      returns (outcome: Outcome, ghost replies: seq<Reply>, ghost decision: Decision)
      requires Inv(W()) && Holding(W(), s) && s.journal.Some? && ValidProgress(s)
      requires s.phase.PhasePayoutPrepared? || s.phase.PhasePayoutSubmitting? || s.phase.PhasePayoutReplaying?
      modifies this, store, repo, nonces
      ensures Inv(W()) && Extends(old(W()), W())
      ensures queries <= old(queries) + QueryBudget(s)
      ensures outcome.Finished? ==> !Open(W().disk)
      ensures !Open(W().disk) ==> Closed(s.run, s.manifest)
      ensures Trouble() >= old(Trouble())
      ensures LastAccepted(old(runs), runs, s.run) && Trouble() == old(Trouble()) && old(Fit(s.manifest)) ==>
                outcome.Finished?
      ensures |runs| == |old(runs)|
      ensures Watched(s, outcome, replies, decision, old(Here(s.manifest)))
    {
      hide Inv, SnapshotOk, RunOk, Extends, ValidPrepared, GoodManifest, LastAccepted, Closed, Delivered, Decided;
      hide BothBlocked, ValidProgress, Holding;
      outcome, replies, decision := ObserveUncertainPayout(s);
    }

    /** Some of the pending rows, as ListPending returned them. The identifier is the primary key. */
    method ListPending() returns (records: seq<Record>)
      requires Inv(W())
      modifies this`told
      ensures forall r :: r in records ==> r.id in repo.status && repo.status[r.id] == 0
      ensures DistinctIds(records)
      ensures Inv(W()) && Drift(old(W()), W())
      ensures told == old(told).(listed := old(told.listed) + [records])
    {
      records := *;
      if (exists r :: r in records && !(r.id in repo.status && repo.status[r.id] == 0))
         || (exists i, j :: 0 <= i < j < |records| && records[i].id == records[j].id) {
        records := [];
      }
      ghost var w := W();
      HearingKeepsInv(w, told.(listed := told.listed + [records]));
      told := told.(listed := told.listed + [records]);
      assert W() == w.(told := told);
    }

    /** runNew: freeze what is pending, persist it, and only then act on it. */
    method RunNew() returns (outcome: Outcome, ghost listed: seq<Record>)
      requires Inv(W()) && Load(W().disk) == Empty
      modifies this, store, repo, nonces
      ensures Inv(W()) && Extends(old(W()), W())
      ensures queries <= old(queries) + ALL_QUERIES
      ensures |runs| > |old(runs)| ==>
                Froze(runs[|old(runs)|].manifest, listed) && old(told.listed) + [listed] <= told.listed
      ensures Trouble() >= old(Trouble())
      ensures |runs| > |old(runs)| && LastAccepted(old(runs), runs, |old(runs)|) && Trouble() == old(Trouble()) ==>
                outcome.Finished?
      ensures outcome.Finished? ==> |runs| > |old(runs)|
      ensures |old(runs)| <= |runs| <= |old(runs)| + 1
      ensures |runs| == |old(runs)| ==> runs == old(runs)
      ensures Starts(listed, outcome, old(Here(EMPTY)))
      ensures |runs| > |old(runs)| ==>
                runs[|old(runs)|].manifest.settlement == settlement && runs[|old(runs)|].manifest.recipient == recipient
    {
      hide Inv, SnapshotOk, RunOk, Extends, ValidPrepared, GoodManifest, LastAccepted, Drift, Closed, Froze, Acts;
      hide Unrest, Clean;
      UnansweredAll(runs);
      ghost var w0, b0 := W(), Here(EMPTY);
      var manifest;
      outcome, listed, manifest := Snapshot();
      if manifest.None? {
        return;
      }
      ghost var w1, b1 := W(), Here(manifest.value);
      outcome := RunFrozen(manifest.value);
      FrozeMeans(manifest.value, listed);
      SameActs(manifest.value, outcome, b1, b0);
      ToldStays(w1, W());
      ExtendsThrough(w0, w1, W());
    }

    /** The first half of runNew: the pending rows become a manifest, or there is nothing to run. */
    method Snapshot() returns (outcome: Outcome, listed: seq<Record>, manifest: Option<Manifest>)
      requires Inv(W())
      modifies this`chain, this`told, this`refusals, repo
      ensures Inv(W()) && Extends(old(W()), W()) && W().disk == old(W()).disk && runs == old(runs)
      ensures told.heard == old(told.heard)
      ensures Trouble() >= old(Trouble())
      ensures manifest.Some? ==>
                && old(told.listed) + [listed] <= told.listed
                && Froze(manifest.value, listed) && GoodManifest(manifest.value) && NonNegative(listed)
                && manifest.value.settlement == settlement && manifest.value.recipient == recipient
                && (forall id :: id in IdSet(manifest.value) ==> !Done(repo.status, id)) && Fit(manifest.value)
      ensures manifest.None? && Trouble() == old(Trouble()) ==>
                && old(told.listed) + [listed] <= told.listed
                && (if listed == [] then outcome.NoData? else !NonNegative(listed) && outcome.Fatal?)
      ensures manifest.None? ==> !outcome.Finished?
      ensures outcome.Fatal? ==> old(told.listed) + [listed] <= told.listed && !NonNegative(listed)
    {
      hide Inv, SnapshotOk, RunOk, Extends, ValidPrepared, GoodManifest, Drift, Clean, Unrest, DoneStays, IdSet, Step;
      outcome, listed, manifest := Failed, [], None;
      ghost var w0 := W();
      Environment();
      ghost var w1 := W();
      DriftExtends(w0, w1);
      DriftKeeps(w0, w1);
      var refused := Refuses();
      if refused {
        return;  // the pending query failed for good
      }
      listed := ListPending();
      ghost var w2 := W();
      DriftExtends(w1, w2);
      DriftKeeps(w1, w2);
      ExtendsThrough(w0, w1, w2);
      if |listed| == 0 {
        return NoData, listed, None;
      }
      var token: string := *;
      manifest := BuildManifest(listed, token, settlement, recipient);
      if manifest.None? {
        return Fatal, listed, None;  // whether or not the run could be archived
      }
      PendingIdsAreFree(w2, listed, manifest.value);
      if 0 < manifest.value.payoutTotal {
        refused := Refuses();
        if refused {
          return Failed, listed, None;  // the token query failed
        }
      }
    }

    /** The second half of runNew: the manifest becomes a run, and the run is acted on. */
    method RunFrozen(manifest: Manifest) returns (outcome: Outcome)
      requires Inv(W()) && Load(W().disk) == Empty && GoodManifest(manifest)
      requires manifest.settlement == settlement && manifest.recipient == recipient
      requires forall id :: id in IdSet(manifest) ==> !Done(W().status, id)
      modifies this, store, repo, nonces
      ensures Inv(W()) && Extends(old(W()), W())
      ensures queries <= old(queries) + ALL_QUERIES
      ensures |runs| == |old(runs)| + 1 && runs[|old(runs)|].manifest == manifest
      ensures Trouble() >= old(Trouble())
      ensures LastAccepted(old(runs), runs, |old(runs)|) && Trouble() == old(Trouble()) && old(Fit(manifest)) ==>
                outcome.Finished?
      ensures Trouble() == old(Trouble()) && old(Fit(manifest)) && manifest.payoutTotal == 0 ==> outcome.Finished?
      ensures Trouble() == old(Trouble()) && manifest.payoutTotal != 0 ==> Acts(manifest, outcome, old(Here(manifest)))
      ensures outcome.Fatal? ==> Acts(manifest, outcome, old(Here(manifest)))
    {
      hide Inv, SnapshotOk, RunOk, Extends, ValidPrepared, GoodManifest, LastAccepted, Closed;
      ghost var w0 := W();
      var ok, s := FreezeManifest(manifest);
      ghost var w1 := W();
      FirstAnswer(w0.runs, w1.runs, w1.runs);
      UnsentIsUnanswered(w1.runs, |w0.runs|);
      if !ok {
        return Failed;
      }
      outcome := RunActiveTarget(s);
      FirstAnswer(w0.runs, w1.runs, runs);
      ManifestsStay(w1, W());
      ExtendsThrough(w0, w1, W());
    }

    /** The end of runNew: the run begins, and its first snapshot is persisted. */
    method FreezeManifest(manifest: Manifest) returns (ok: bool, s: RunState)
      requires Inv(W()) && Load(W().disk) == Empty && GoodManifest(manifest)
      requires manifest.settlement == settlement && manifest.recipient == recipient
      requires forall id :: id in IdSet(manifest) ==> !Done(W().status, id)
      modifies this, store, repo, nonces
      ensures Inv(W()) && Extends(old(W()), W()) && queries == old(queries)
      ensures ok ==> Holding(W(), s) && s.phase.PhasePrepared? && s.manifest == manifest && s.run == |old(runs)|
      ensures runs == old(runs) + [RunLog(manifest, [], [], [])] && told == old(told)
      ensures s == RunState(|old(runs)|, PhasePrepared, manifest, None, NotBlocked, NoEvidence)
      ensures !ok ==> Trouble() > old(Trouble())
      ensures Trouble() >= old(Trouble()) && (Trouble() == old(Trouble()) ==> repo.status == old(repo.status))
    {
      hide Inv, SnapshotOk, RunOk, Extends, ValidPrepared, GoodManifest;
      ghost var w1 := W();
      FreezeKeepsInv(w1, manifest);
      runs := runs + [RunLog(manifest, [], [], [])];
      ghost var w2 := W();
      assert w2 == Freeze(w1, manifest);
      Environment();
      ghost var w3 := W();
      DriftExtends(w2, w3);
      ExtendsThrough(w1, w2, w3);
      s := RunState(|runs| - 1, PhasePrepared, manifest, None, NotBlocked, NoEvidence);
      NewRunMaySave(w3, s);
      ok := Persist(s);
      DiskStepExtends(w3, W());
      ExtendsThrough(w1, w3, W());
    }

    /**
     One activation of the service: Recover at startup, or Run, which starts a new run when there is
     nothing to recover. The invariant survives it, and a doubly blocked run is never touched again.
     */
    method Activate(startup: bool)
      returns (outcome: Outcome, ghost replies: seq<Reply>, ghost decision: Decision, ghost listed: seq<Record>)
      requires Inv(W())
      modifies this, store, repo, nonces
      ensures Inv(W()) && Extends(old(W()), W())
      ensures queries <= old(queries) + 45
      ensures old(BothBlocked(W().disk)) ==> (outcome.Fatal? || outcome.Failed?) && W() == old(W())
      ensures old(BothBlocked(W().disk)) ==> repo.Now() == old(repo.Now())
      ensures old(Load(W().disk)).LoadError? ==> outcome.Failed? && W() == old(W())
      ensures Trouble() >= old(Trouble())
      ensures runs != [] && LastAccepted(old(runs), runs, |runs| - 1)
              && Trouble() == old(Trouble()) && old(LastFit()) ==>
                outcome.Finished?
      ensures Trouble() == old(Trouble()) ==>
                var l := old(Load(W().disk));
                && (l.Loaded? ==>
                      Recovers(l.state, l.fromBackup, outcome, replies, decision,
                               old(Here(Load(W().disk).state.manifest))))
                && (l.Empty? && startup ==> outcome.NoData? && W() == old(W()))
                && (l.Empty? && !startup ==> Starts(listed, outcome, old(Here(EMPTY))))
      ensures old(Configured()) ==> Configured()
    {
      hide Inv, SnapshotOk, RunOk, Extends, ValidPrepared, GoodManifest, LastAccepted, Recovers, Starts;
      hide BothBlocked, Closed, Clean, Unrest;
      ghost var w := W();
      BlockedIsLoaded(w.disk);
      if runs != [] {
        UnsentIsUnanswered(runs, |runs| - 1);
      }
      DiskStepExtends(W(), W());
      replies, decision, listed := [], Halt, [];
      var cancelled := Refuses();
      if cancelled {
        return Failed, replies, decision, listed;  // cancelled before loading
      }
      var loaded := store.LoadWithMetadata();
      outcome, replies, decision, listed := Dispatch(startup, loaded);
    }

    /** Recover or run, once the snapshot is loaded. */
    method Dispatch(startup: bool, loaded: LoadResult<RunState>)
      returns (outcome: Outcome, ghost replies: seq<Reply>, ghost decision: Decision, ghost listed: seq<Record>)
      requires Inv(W()) && loaded == Load(W().disk)
      modifies this, store, repo, nonces
      ensures Inv(W()) && Extends(old(W()), W())
      ensures queries <= old(queries) + ALL_QUERIES
      ensures loaded.LoadError? ==> outcome.Failed?
      ensures loaded.LoadError? || (loaded.Loaded? && loaded.state.phase.PhaseBlocked?) ==>
                (outcome.Fatal? || outcome.Failed?) && W() == old(W()) && repo.Now() == old(repo.Now())
      ensures Trouble() >= old(Trouble())
      ensures runs != [] && LastAccepted(old(runs), runs, |runs| - 1)
              && Trouble() == old(Trouble()) && old(LastFit()) ==>
                outcome.Finished?
      ensures loaded.Loaded? ==>
                Recovers(loaded.state, loaded.fromBackup, outcome, replies, decision, old(Here(loaded.state.manifest)))
      ensures loaded.Empty? && startup ==> outcome.NoData? && W() == old(W())
      ensures loaded.Empty? && !startup ==> Starts(listed, outcome, old(Here(EMPTY)))
      ensures old(Configured()) ==> Configured()
    {
      hide Inv, SnapshotOk, RunOk, Extends, ValidPrepared, GoodManifest, LastAccepted, Recovers, Starts;
      hide Closed, Clean, Unrest;
      ghost var w := W();
      UnansweredAll(runs);
      DiskStepExtends(w, w);
      HeldManifest(w);
      replies, decision, listed := [], Halt, [];
      match loaded
      case LoadError =>
        outcome := Failed;
      case Loaded(s, fromBackup) =>
        outcome, replies, decision := RecoverState(s, fromBackup);
        ManifestsStay(w, W());
      case Empty =>
        if startup {
          outcome := NoData;
        } else {
          outcome, listed := RunNew();
          ManifestsStay(w, W());
        }
    }

    /**
     Every life of the service: any number of activations, with the environment at work in between and
     the primary snapshot lost any number of times, each time while no activation is running.
     */
    method Lifetime(activations: nat)
      requires Inv(W())
      modifies this, store, repo, nonces
      ensures Inv(W()) && Extends(old(W()), W())
      ensures NoRecordPaidTwice(W())
      ensures AtMostTwoIdenticalSends(W())
      ensures CompletedOnlyIfPaid(W())
      ensures EverySendWasDurable(W())
      ensures NoPaymentStranded(W())
      ensures old(Configured()) ==> Configured() && PaysAsConfigured()
    {
      hide Inv, SnapshotOk, RunOk, Extends, ValidPrepared, GoodManifest, Recovers, Starts, Unrest, Clean, LastAccepted;
      ghost var w0 := W();
      DiskStepExtends(w0, w0);
      for i := 0 to activations
        invariant Inv(W()) && Extends(w0, W()) && (old(Configured()) ==> Configured())
      {
        ghost var w1 := W();
        Round();
        ExtendsThrough(w0, w1, W());
      }
      PaidRecordsAreDisjoint(W());
      SendsAreBounded(W());
      CompletionIsSound(W());
      SendsWereDurable(W());
      LossNeverStrandsAPayment(W());
      if Configured() {
        ConfiguredPays();
      }
    }

    /** The environment moves, the primary may be lost, the process may be a new one, and it is activated. */
    method Round()
      requires Inv(W())
      modifies this, store, repo, nonces
      ensures Inv(W()) && Extends(old(W()), W()) && (old(Configured()) ==> Configured())
    {
      hide Inv, SnapshotOk, RunOk, Extends, ValidPrepared, GoodManifest, Recovers, Starts, Unrest, Clean, LastAccepted;
      ghost var w1 := W();
      Environment();
      ghost var w2 := W();
      DriftExtends(w1, w2);
      if * {
        LossKeepsInv(w2);
        store.Corrupt();
        assert W() == w2.(disk := LosePrimary(w2.disk));
      }
      ghost var w3 := W();
      DiskStepExtends(w2, w3);
      ExtendsThrough(w1, w2, w3);
      if * {
        nonces.Renew();  // a new process
      }
      var startup: bool := *;
      var outcome;
      ghost var replies, decision, listed;
      outcome, replies, decision, listed := Activate(startup);
      ExtendsThrough(w1, w3, W());
    }

    /** Blocked is terminal: no later activation submits, completes or freezes anything, whatever is lost. */
    method BlockedForever(activations: nat)
      requires Inv(W()) && BothBlocked(W().disk)
      modifies this, store, repo, nonces
      ensures Inv(W()) && BothBlocked(W().disk)
      ensures runs == old(runs) && issued == old(issued)
      ensures Step(old(repo.Now()), repo.Now(), {})
      ensures store.backup == old(store.backup)
    {
      hide Recovers, Starts, Unrest, Clean, LastAccepted, Drift;
      hide Inv, OnlyCompletes, Step, SnapshotOk, RunOk, Extends, ValidPrepared, GoodManifest;
      NoStep(repo.Now(), {});
      for i := 0 to activations
        invariant Inv(W()) && BothBlocked(W().disk)
        invariant runs == old(runs) && issued == old(issued)
        invariant Step(old(repo.Now()), repo.Now(), {})
        invariant store.backup == old(store.backup)
      {
        ghost var rows := repo.Now();
        ghost var before := W();
        Environment();
        DriftKeeps(before, W());
        StepThrough(old(repo.Now()), rows, repo.Now(), {}, {}, {});
        if * {
          LossKeepsInv(W());
          ghost var w := W();
          store.Corrupt();
          assert W() == w.(disk := LosePrimary(w.disk));
        }
        if * {
          nonces.Renew();  // a new process
        }
        var startup: bool := *;
        rows := repo.Now();
        var outcome;
        ghost var replies, decision, listed;
        outcome, replies, decision, listed := Activate(startup);
        assert outcome.Fatal? || outcome.Failed?;
      }
    }
  }

  /** The manifest holds exactly the listed records, with their exact total and its rounding. */
  ghost predicate Froze(m: Manifest, listed: seq<Record>) {
    && listed != []
    && multiset(m.records) == multiset(listed)
    && m.rawTotal == Sum(listed)
    && m.payoutTotal == RoundUp(Sum(listed))
  }

  lemma FrozeMeans(m: Manifest, listed: seq<Record>)
    requires Froze(m, listed)
    ensures listed != [] && m.payoutTotal == RoundUp(Sum(listed))
  {
  }

  lemma ManifestsStay(a: World, b: World)
    requires Extends(a, b)
    ensures |a.runs| <= |b.runs| && forall r :: 0 <= r < |a.runs| ==> b.runs[r].manifest == a.runs[r].manifest
  {
  }

  lemma ChainHasHistory(w: World)
    requires Inv(w)
    ensures w.chain.floor < |w.chain.totals| && w.chain.outflow < |w.chain.totals|
  {
  }

  /** The clock has passed every nonce that the present generator does not know of. */
  predicate ClockAhead(issued: map<nat, nat>, last: nat, now: nat) {
    forall n :: n in issued ==> n <= last || n < now
  }

  lemma SomeClockIsAhead(issued: map<nat, nat>, last: nat)
    ensures exists now: nat :: ClockAhead(issued, last, now)
  {
    var now := MaxPlusOne(issued.Keys);
    assert ClockAhead(issued, last, now);
  }

  ghost function MaxPlusOne(used: set<nat>): (n: nat)
    ensures forall m :: m in used ==> m < n
  {
    if used == {} then 0
    else
      var m :| m in used;
      var rest := MaxPlusOne(used - {m});
      assert forall k :: k in used ==> k == m || k in used - {m};
      if m < rest then rest else m + 1
  }

  /** At `prepared` nothing has left the process and nothing of any run can still move money. */
  lemma PreparedMeansUnsent(w: World, s: RunState)
    requires Inv(w) && Holding(w, s) && s.phase.PhasePrepared?
    ensures |w.runs| > 0 && Sends(w) == [] && NoJournal(w) && NothingOutstanding(w.chain)
  {
    assert SnapshotOk(w, s);
    forall q | q in w.chain.inflight
      ensures q.nonce in w.chain.applied
    {
      assert InflightOk(w, q);
    }
  }

  /** The first journal of a run: its baseline is the floor, and nothing can flow out past it. */
  lemma JournalIsFresh(w: World, s: RunState, next: RunState)
    requires Inv(w) && Holding(w, s) && s.phase.PhasePrepared? && s.manifest.payoutTotal != 0
    requires next == s.(phase := PhasePayoutPrepared, journal := next.journal) && next.journal.Some?
    requires var j := next.journal.value;
             && ValidPrepared(s.manifest, j.prepared) && j.attempts == 1
             && j.prepared.nonce in w.issued && w.issued[j.prepared.nonce] == s.run
             && w.chain.outflow <= w.chain.floor && w.chain.totals[w.chain.floor] == j.totalBefore
    ensures MaySave(w, next)
  {
    assert SnapshotOk(w, s);
    PreparedMeansUnsent(w, s);
    PayoutIsZeroIffAllZero(s.manifest.records);
  }

  lemma TokenIsKnown(m: Manifest)
    requires GoodManifest(m)
    ensures m.payoutTotal != 0 ==> m.token.Some? && 0 < m.payoutTotal
  {
    PayoutIsZeroIffAllZero(m.records);
  }

  lemma CompletedIsSettled(w: World, s: RunState)
    requires Inv(w) && Holding(w, s) && s.phase.PhaseCompleted?
    ensures s.run < |w.runs| && Settled(w, s.run)
  {
    HeldState(w, s);
    if s.journal.Some? {
      AppliedMeansSettled(w, s);
    }
  }

  lemma NewRunMaySave(w: World, s: RunState)
    requires Inv(w) && Load(w.disk) == Empty && |w.runs| > 0
    requires w.runs[|w.runs| - 1] == RunLog(s.manifest, [], [], [])
    requires s.run == |w.runs| - 1 && s.phase.PhasePrepared? && s.journal.None?
    ensures MaySave(w, s)
  {
    assert RunOk(w, s.run);
  }

  lemma AppliedMeansSettled(w: World, s: RunState)
    requires Inv(w) && Holding(w, s) && s.journal.Some?
    requires s.journal.value.prepared.nonce in w.chain.applied
    ensures s.run < |w.runs| && Settled(w, s.run)
  {
    assert SnapshotOk(w, s);
    assert AppliedOk(w, s.journal.value.prepared.nonce);
  }

  lemma IdsAreElements(m: Manifest, ids: seq<nat>)
    requires |ids| == |m.records| && forall i :: 0 <= i < |ids| ==> ids[i] == m.records[i].id
    ensures Elements(ids) == IdSet(m)
  {
    forall r | r in m.records
      ensures r.id in ids
    {
      var i :| 0 <= i < |m.records| && m.records[i] == r;
      assert ids[i] == r.id;
    }
  }

  lemma PendingIdsAreFree(w: World, records: seq<Record>, m: Manifest)
    requires multiset(m.records) == multiset(records)
    requires forall r :: r in records ==> r.id in w.status && w.status[r.id] == 0
    ensures forall id :: id in IdSet(m) ==> !Done(w.status, id)
    ensures Clean(w.status, IdSet(m))
  {
    forall id | id in IdSet(m)
      ensures !Done(w.status, id) && !Bad(w.status, id)
    {
      var r :| r in m.records && r.id == id;
      assert r in multiset(records);
    }
  }
}
