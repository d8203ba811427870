/**
 The whole world of the payout protocol as one value: the snapshots on disk, the exchange, the
 database, and a log of what has happened so far. The invariant below is what every step of the
 service, every crash and every move of the environment keeps.

 The environment: the exchange applies a nonce of the settlement account at most once; a request that
 left the process may be applied at once, at any later moment, or never; money leaves settlement only
 through these requests, while it may come in at any time; a balance query may lag, but not behind
 the baseline that was read before the payout was prepared.
 */
module World {
  import opened Wrappers
  import opened Funding
  import opened Manifests
  import opened Store
  import opened MySql
  import opened Observation

  /**
   `totals` is the history of the settlement total, newest last. `outflow` is the position right after
   the last applied payout, `floor` the position of the last baseline.
   */
  datatype Chain = Chain(
    applied: map<nat, Prepared>, inflight: set<Prepared>,
    totals: seq<int>, outflow: nat, floor: nat)

  datatype SubmitReply = Accepted | Rejected | Ambiguous

  /**
   One run: the manifest it froze, every request it handed to Submit, the disk as it was at each of them,
   and what the exchange answered.
   */
  datatype RunLog = RunLog(
    manifest: Manifest, sends: seq<Prepared>, boundaries: seq<Disk<RunState>>, answers: seq<SubmitReply>)

  /** What the outside told the service: windows of balance queries, and lists of pending rows. */
  datatype Told = Told(heard: seq<seq<Reply>>, listed: seq<seq<Record>>)

  ghost predicate Tells(before: Told, after: Told) {
    before.heard <= after.heard && before.listed <= after.listed
  }

  /**
   `status` is the table, `initial` what it was when the service was first started, `touched` the rows that
   other writers changed and `foreign` those they completed. `issued` maps a nonce to the run it was drawn for.
   */
  datatype World = World(
    disk: Disk<RunState>, chain: Chain,
    status: map<nat, int>, initial: map<nat, int>, touched: set<nat>, foreign: set<nat>,
    runs: seq<RunLog>, issued: map<nat, nat>, told: Told)

  ghost predicate Open(d: Disk<RunState>) {
    d != Disk(Missing, Missing)
  }

  // ---------------------------------------------------------------- the invariant

  ghost predicate WellFormed(s: RunState) {
    && GoodManifest(s.manifest)
    && (s.phase.PhasePrepared? ==> s.journal.None?)
    && (s.journal.Some? ==>
          && ValidPrepared(s.manifest, s.journal.value.prepared)
          && 0 < s.manifest.payoutTotal
          && (!s.phase.PhasePayoutPrepared? ==> ValidJournal(s.manifest, s.journal.value)))
    && (s.journal.None? ==>
          s.phase.PhasePrepared? || (s.phase.PhaseCompleted? && s.manifest.payoutTotal == 0))
    && (s.phase.PhasePayoutPrepared? || s.phase.PhasePayoutSubmitting? ==> s.journal.value.attempts == 1)
    && (s.phase.PhasePayoutReplaying? ==> s.journal.value.attempts == 2)
  }

  /** What any readable snapshot says about the rest of the world. */
  ghost predicate SnapshotOk(w: World, s: RunState) {
    && WellFormed(s)
    && |w.runs| > 0 && s.run == |w.runs| - 1
    && s.manifest == w.runs[s.run].manifest
    && (|w.runs[s.run].sends| > 0 ==> s.journal.Some? && s.journal.value.prepared == w.runs[s.run].sends[0])
    && (|w.runs[s.run].sends| == 2 ==> s.journal.Some? && s.journal.value.attempts == 2)
    && (s.journal.Some? ==> JournalOk(w, s.run, s.journal.value))
    && (s.phase.PhasePayoutConfirmed? ==> s.journal.value.prepared.nonce in w.chain.applied)
    && (s.phase.PhaseCompleted? ==> AllDone(w.status, IdSet(s.manifest)))
    && (s.phase.PhaseCompleted? && s.journal.Some? ==> s.journal.value.prepared.nonce in w.chain.applied)
  }

  /** Until its request is applied, a journal's baseline is a total that nothing has flowed out of since. */
  ghost predicate JournalOk(w: World, run: nat, j: Journal) {
    && j.prepared.nonce in w.issued && w.issued[j.prepared.nonce] == run
    && w.chain.floor < |w.chain.totals|
    && (j.prepared.nonce !in w.chain.applied ==>
          w.chain.outflow <= w.chain.floor && w.chain.totals[w.chain.floor] == j.totalBefore)
  }

  ghost predicate SameJournal(s: RunState, t: RunState) {
    s.journal.Some? && t.journal.Some? ==>
      && s.journal.value.prepared == t.journal.value.prepared
      && s.journal.value.totalBefore == t.journal.value.totalBefore
  }

  ghost predicate DiskOk(w: World) {
    var d := w.disk;
    && !d.backup.Invalid?
    && (Open(d) ==> |w.runs| > 0)
    && (d.current.Valid? ==>
          && SnapshotOk(w, d.current.state)
          && (d.current.state.phase.PhasePayoutPrepared? ==> w.runs[|w.runs| - 1].sends == [])
          && (d.current.state.phase.PhasePrepared? ==> d.backup.Missing?))
    && (d.backup.Valid? ==>
          && SnapshotOk(w, d.backup.state)
          && !d.backup.state.phase.PhaseCompleted?)
    && (d.current.Valid? && d.backup.Valid? ==> SameJournal(d.backup.state, d.current.state))
  }

  ghost predicate RunOk(w: World, r: nat)
    requires r < |w.runs|
  {
    var log := w.runs[r];
    && GoodManifest(log.manifest)
    && |log.sends| <= 2
    && (|log.sends| == 2 ==> log.sends[1] == log.sends[0])
    && (|log.sends| > 0 ==>
          && ValidPrepared(log.manifest, log.sends[0])
          && log.sends[0].nonce in w.issued && w.issued[log.sends[0].nonce] == r)
    && DurablySent(log)
  }

  /** Every delivery left with the full intent in both generations, and with an attempt for it on record. */
  ghost predicate DurablySent(log: RunLog) {
    && |log.boundaries| == |log.answers| == |log.sends|
    && (forall k :: 0 <= k < |log.sends| ==> DurableAt(log.boundaries[k], log.sends[k], k))
  }

  /** The snapshot names the request and authorizes at least `sends` deliveries of it. */
  ghost predicate RecordsRequest(s: RunState, q: Prepared, sends: nat) {
    s.journal.Some? && s.journal.value.prepared == q && sends <= s.journal.value.attempts <= 2
  }

  /** Both generations hold the full intent of delivery k, counting from zero. */
  ghost predicate DurableAt(d: Disk<RunState>, q: Prepared, k: nat) {
    && d.current.Valid? && RecordsRequest(d.current.state, q, k + 1)
    && d.backup.Valid? && RecordsRequest(d.backup.state, q, k + 1)
  }

  ghost predicate TotalsOk(c: Chain) {
    && c.floor < |c.totals| && c.outflow < |c.totals|
    && (forall i, j :: c.outflow <= i <= j < |c.totals| ==> c.totals[i] <= c.totals[j])
  }

  /** The request belongs to its run, and only the run that is still open may be unaccounted for. */
  ghost predicate FromRun(w: World, q: Prepared) {
    && q.nonce in w.issued && w.issued[q.nonce] < |w.runs|
    && |w.runs[w.issued[q.nonce]].sends| > 0
    && q == w.runs[w.issued[q.nonce]].sends[0]
  }

  ghost predicate OpenRun(w: World, r: nat) {
    Open(w.disk) && r + 1 == |w.runs|
  }

  ghost predicate AppliedOk(w: World, n: nat)
    requires n in w.chain.applied
  {
    && w.chain.applied[n].nonce == n
    && FromRun(w, w.chain.applied[n])
    && (OpenRun(w, w.issued[n]) || AllDone(w.status, IdSet(w.runs[w.issued[n]].manifest)))
    && (forall r :: w.issued[n] < r < |w.runs| ==>
          IdSet(w.runs[w.issued[n]].manifest) !! IdSet(w.runs[r].manifest))
  }

  ghost predicate InflightOk(w: World, q: Prepared) {
    && FromRun(w, q)
    && (q.nonce in w.chain.applied || OpenRun(w, w.issued[q.nonce]))
  }

  /** The run needs no payment, or its payment has been applied. */
  ghost predicate Settled(w: World, r: nat)
    requires r < |w.runs|
  {
    || w.runs[r].manifest.payoutTotal == 0
    || (|w.runs[r].sends| > 0 && w.runs[r].sends[0].nonce in w.chain.applied)
  }

  ghost predicate Justified(w: World, id: nat) {
    exists r: nat :: r < |w.runs| && id in IdSet(w.runs[r].manifest) && Settled(w, r)
  }

  /**
   A completed row was so from the start, was completed by somebody else, or is justified; and a row that
   nobody else changed is as it was or went from pending to completed.
   */
  ghost predicate RowOk(w: World, id: nat) {
    && (Done(w.status, id) ==> Done(w.initial, id) || id in w.foreign || Justified(w, id))
    && (id !in w.touched ==> SameRow(w.initial, w.status, id) || Flipped(w.initial, w.status, id))
  }

  /** Without a readable backup, a run that has sent something is completed or has nothing that can move money. */
  ghost predicate Protected(w: World) {
    Open(w.disk) && |w.runs| > 0 && Sends(w) != [] && !w.disk.backup.Valid? ==>
      || AllDone(w.status, IdSet(w.runs[|w.runs| - 1].manifest))
      || NothingSent(w)
  }

  ghost predicate NothingSent(w: World)
    requires |w.runs| > 0
  {
    forall q :: q in Sends(w) ==> q !in w.chain.inflight && q.nonce !in w.chain.applied
  }

  /** The open run's submissions. */
  ghost function Sends(w: World): seq<Prepared>
    requires |w.runs| > 0
  {
    w.runs[|w.runs| - 1].sends
  }

  ghost predicate Inv(w: World) {
    && DiskOk(w)
    && Protected(w)
    && TotalsOk(w.chain)
    && (forall r: nat :: r < |w.runs| ==> RunOk(w, r))
    && (forall n: nat :: n in w.chain.applied ==> AppliedOk(w, n))
    && (forall q: Prepared :: q in w.chain.inflight ==> InflightOk(w, q))
    && (forall id: nat :: RowOk(w, id))
  }

  // ---------------------------------------------------------------- what the invariant promises

  /** The exact transfer the manifest asked for: settlement pays the recipient the payout total. */
  ghost predicate PaysExactly(q: Prepared, m: Manifest) {
    && q.signer == m.settlement
    && q.body.destination == m.recipient
    && Some(q.body.token) == m.token
    && q.body.amount == m.payoutTotal == RoundUp(Sum(m.records))
  }

  ghost function PaidManifest(w: World, n: nat): Manifest
    requires n in w.issued && w.issued[n] < |w.runs|
  {
    w.runs[w.issued[n]].manifest
  }

  /** Over all applied payouts an identifier occurs once: in one manifest, and at one place of it. */
  ghost predicate NoRecordPaidTwice(w: World) {
    && (forall n :: n in w.chain.applied ==> n in w.issued && w.issued[n] < |w.runs|)
    && (forall m, n :: m in w.chain.applied && n in w.chain.applied && m != n ==>
          IdSet(PaidManifest(w, m)) !! IdSet(PaidManifest(w, n)))
    && (forall m, n, i, j ::
          && m in w.chain.applied && 0 <= i < |PaidManifest(w, m).records|
          && n in w.chain.applied && 0 <= j < |PaidManifest(w, n).records|
          && PaidManifest(w, m).records[i].id == PaidManifest(w, n).records[j].id ==>
            m == n && i == j)
    && (forall n :: n in w.chain.applied ==> PaysExactly(w.chain.applied[n], PaidManifest(w, n)))
  }

  ghost predicate EverySendWasDurable(w: World) {
    forall r :: 0 <= r < |w.runs| ==> DurablySent(w.runs[r])
  }

  /** The run's request may still move money, or has moved it, and its rows are not completed. */
  ghost predicate Unsettled(w: World, r: nat)
    requires r < |w.runs|
  {
    && (exists q :: q in w.runs[r].sends && (q in w.chain.inflight || q.nonce in w.chain.applied))
    && !AllDone(w.status, IdSet(w.runs[r].manifest))
  }

  /** Run r is the open one, and without the primary the backup still names its request. */
  ghost predicate Recoverable(w: World, r: nat)
    requires r < |w.runs|
  {
    var l := Load(LosePrimary(w.disk));
    && r == |w.runs| - 1
    && l.Loaded? && l.fromBackup
    && l.state.run == r && l.state.journal.Some?
    && w.runs[r].sends != [] && l.state.journal.value.prepared == w.runs[r].sends[0]
  }

  ghost predicate NoPaymentStranded(w: World) {
    forall r: nat :: r < |w.runs| && Unsettled(w, r) ==> Recoverable(w, r)
  }

  ghost predicate AtMostTwoIdenticalSends(w: World) {
    forall r :: 0 <= r < |w.runs| ==>
      && |w.runs[r].sends| <= 2
      && (forall i, j :: 0 <= i < j < |w.runs[r].sends| ==> w.runs[r].sends[i] == w.runs[r].sends[j])
  }

  /** The row belongs to a run that was paid in full or owed nothing. */
  ghost predicate PaidFor(w: World, id: nat) {
    exists r ::
      && 0 <= r < |w.runs|
      && id in IdSet(w.runs[r].manifest)
      && (w.runs[r].manifest.payoutTotal == 0 ||
          exists n :: n in w.chain.applied && PaysExactly(w.chain.applied[n], w.runs[r].manifest)
                      && n in w.issued && w.issued[n] == r)
  }

  /**
   Every row at status 1 was so at the start, was completed by another writer, or was paid for; and no row
   was changed in any other way by the service.
   */
  ghost predicate CompletedOnlyIfPaid(w: World) {
    && (forall id: nat :: Done(w.status, id) ==> Done(w.initial, id) || id in w.foreign || PaidFor(w, id))
    && (forall id: nat :: id !in w.touched ==>
          SameRow(w.initial, w.status, id) || Flipped(w.initial, w.status, id))
  }

  lemma PaidRecordsAreDisjoint(w: World)
    requires Inv(w)
    ensures NoRecordPaidTwice(w)
  {
    hide DiskOk, Protected, TotalsOk, Justified, InflightOk, DurablySent;
    forall m, n | m in w.chain.applied && n in w.chain.applied && m != n
      ensures n in w.issued && w.issued[n] < |w.runs|
      ensures m in w.issued && w.issued[m] < |w.runs|
      ensures IdSet(PaidManifest(w, m)) !! IdSet(PaidManifest(w, n))
    {
      assert AppliedOk(w, m) && AppliedOk(w, n);
      if w.issued[m] < w.issued[n] {
        assert IdSet(w.runs[w.issued[m]].manifest) !! IdSet(w.runs[w.issued[n]].manifest);
      } else if w.issued[n] < w.issued[m] {
        assert IdSet(w.runs[w.issued[n]].manifest) !! IdSet(w.runs[w.issued[m]].manifest);
      }
    }
    forall n | n in w.chain.applied
      ensures n in w.issued && w.issued[n] < |w.runs|
      ensures PaysExactly(w.chain.applied[n], PaidManifest(w, n))
    {
      assert AppliedOk(w, n) && RunOk(w, w.issued[n]);
    }
    forall m, n, i, j |
      && m in w.chain.applied && 0 <= i < |PaidManifest(w, m).records|
      && n in w.chain.applied && 0 <= j < |PaidManifest(w, n).records|
      && PaidManifest(w, m).records[i].id == PaidManifest(w, n).records[j].id
      ensures m == n && i == j
    {
      var id := PaidManifest(w, m).records[i].id;
      assert id in IdSet(PaidManifest(w, m)) && id in IdSet(PaidManifest(w, n));
      assert RunOk(w, w.issued[n]);
    }
  }

  lemma SendsAreBounded(w: World)
    requires Inv(w)
    ensures AtMostTwoIdenticalSends(w)
  {
    forall r | 0 <= r < |w.runs|
      ensures |w.runs[r].sends| <= 2
      ensures forall i, j :: 0 <= i < j < |w.runs[r].sends| ==> w.runs[r].sends[i] == w.runs[r].sends[j]
    {
      assert RunOk(w, r);
    }
  }

  lemma SendsWereDurable(w: World)
    requires Inv(w)
    ensures EverySendWasDurable(w)
  {
    hide DurableAt, DiskOk, Protected, AppliedOk, InflightOk, Justified, GoodManifest, ValidPrepared;
    forall r | 0 <= r < |w.runs|
      ensures DurablySent(w.runs[r])
    {
      assert RunOk(w, r);
    }
  }

  /**
   No payment is ever stranded: while one is unsettled its run is the open one, and losing the primary
   brings back a snapshot of that run that names the request, instead of failing closed or starting anew.
   */
  lemma LossNeverStrandsAPayment(w: World)
    requires Inv(w)
    ensures NoPaymentStranded(w)
  {
    forall r: nat | r < |w.runs| && Unsettled(w, r)
      ensures Recoverable(w, r)
    {
      UnsettledIsRecoverable(w, r);
    }
  }

  lemma UnsettledIsRecoverable(w: World, r: nat)
    requires Inv(w) && r < |w.runs| && Unsettled(w, r)
    ensures Recoverable(w, r)
  {
    hide WellFormed, IdSet, JournalOk, TotalsOk, Justified, SameJournal, RunOk, AppliedOk, InflightOk, Unsettled;
    UnsettledIsOpen(w, r);
    assert SnapshotOk(w, w.disk.backup.state);
  }

  lemma UnsettledIsOpen(w: World, r: nat)
    requires Inv(w) && r < |w.runs| && Unsettled(w, r)
    ensures OpenRun(w, r) && w.runs[r].sends != [] && !NothingSent(w)
    ensures !AllDone(w.status, IdSet(w.runs[r].manifest))
  {
    hide DiskOk, Protected, IdSet, TotalsOk, Justified, DurableAt, GoodManifest, ValidPrepared;
    var q :| q in w.runs[r].sends && (q in w.chain.inflight || q.nonce in w.chain.applied);
    assert RunOk(w, r);
    assert q == w.runs[r].sends[0];
    if q.nonce in w.chain.applied {
      assert AppliedOk(w, q.nonce);
    } else {
      assert InflightOk(w, q);
    }
  }

  lemma CompletionIsSound(w: World)
    requires Inv(w)
    ensures CompletedOnlyIfPaid(w)
  {
    hide DiskOk, Protected, TotalsOk, InflightOk, Justified;
    forall id: nat
      ensures Done(w.status, id) ==> Done(w.initial, id) || id in w.foreign || PaidFor(w, id)
      ensures id !in w.touched ==> SameRow(w.initial, w.status, id) || Flipped(w.initial, w.status, id)
    {
      assert RowOk(w, id);
      if Justified(w, id) {
        JustifiedIsPaidFor(w, id);
      }
    }
  }

  lemma JustifiedIsPaidFor(w: World, id: nat)
    requires Inv(w) && Justified(w, id)
    ensures PaidFor(w, id)
  {
    hide DiskOk, Protected, TotalsOk, InflightOk, RowOk;
    var r: nat :| r < |w.runs| && id in IdSet(w.runs[r].manifest) && Settled(w, r);
    assert RunOk(w, r);
    if w.runs[r].manifest.payoutTotal != 0 {
      var n := w.runs[r].sends[0].nonce;
      assert AppliedOk(w, n);
      assert PaysExactly(w.chain.applied[n], w.runs[r].manifest);
    }
  }

  /**
   The durable boundary: a snapshot that would let the service prepare or first-submit a request can
   only be read while no request of the run has left the process; and once two requests have left,
   whatever can be read forbids a third.
   */
  lemma DurableBoundary(w: World)
    requires Inv(w) && Load(w.disk).Loaded?
    ensures var l := Load(w.disk);
            && |w.runs| > 0 && l.state.run == |w.runs| - 1
            && (l.state.phase.PhasePrepared? ==> w.runs[l.state.run].sends == [])
            && (l.state.phase.PhasePayoutPrepared? && !l.fromBackup ==> w.runs[l.state.run].sends == [])
            && (|w.runs[l.state.run].sends| == 2 ==> l.state.journal.Some? && l.state.journal.value.attempts == 2)
  {
    assert RunOk(w, |w.runs| - 1);
  }

  // ---------------------------------------------------------------- steps of the environment

  function Last(c: Chain): int
    requires |c.totals| > 0
  {
    c.totals[|c.totals| - 1]
  }

  function Receive(c: Chain, amount: nat): Chain
    requires |c.totals| > 0
  {
    c.(totals := c.totals + [Last(c) + amount])
  }

  /** The exchange applies a nonce at most once; a first transfer to a new address may cost one more USDC. */
  function Apply(c: Chain, q: Prepared, newAddress: bool): Chain
    requires |c.totals| > 0
  {
    if q.nonce in c.applied then c
    else c.(applied := c.applied[q.nonce := q],
            totals := c.totals + [Last(c) - q.body.amount - if newAddress then ONE_USDC else 0],
            outflow := |c.totals|)
  }

  ghost predicate NothingOutstanding(c: Chain) {
    forall q :: q in c.inflight ==> q.nonce in c.applied
  }

  /** What may have changed after any number of environment steps. */
  ghost predicate Drift(w: World, w': World) {
    && w' == w.(chain := w'.chain, status := w'.status, touched := w'.touched, foreign := w'.foreign, told := w'.told)
    && Tells(w.told, w'.told)
    && w.touched <= w'.touched && w.foreign <= w'.foreign
    && w'.chain.inflight == w.chain.inflight
    && w'.chain.floor == w.chain.floor
    && w.chain.totals <= w'.chain.totals
    && (forall n :: n in w.chain.applied ==> n in w'.chain.applied && w'.chain.applied[n] == w.chain.applied[n])
    && DoneStays(w.status, w'.status)
    && (NothingOutstanding(w.chain) ==> w'.chain.outflow == w.chain.outflow && w'.chain.applied == w.chain.applied)
  }

  lemma ReceiveKeepsInv(w: World, amount: nat)
    requires Inv(w)
    ensures Inv(w.(chain := Receive(w.chain, amount)))
    ensures Drift(w, w.(chain := Receive(w.chain, amount)))
  {
    hide DiskOk, Protected, RunOk, AppliedOk, InflightOk, Justified;
    var w' := w.(chain := Receive(w.chain, amount));
    LogsCarryOver(w, w');
    RunsCarryOver(w, w');
    SnapshotsCarryOver(w, w');
  }

  /** Logs only grow: manifests are frozen, submissions are appended, nonces and payments stay. */
  ghost predicate Extends(w: World, w': World) {
    && |w.runs| <= |w'.runs|
    && (forall r :: 0 <= r < |w.runs| ==>
          && w'.runs[r].manifest == w.runs[r].manifest
          && w.runs[r].sends <= w'.runs[r].sends && w.runs[r].boundaries <= w'.runs[r].boundaries
          && w.runs[r].answers <= w'.runs[r].answers)
    && w'.initial == w.initial && w.touched <= w'.touched && w.foreign <= w'.foreign
    && Tells(w.told, w'.told)
    && (forall n :: n in w.issued ==> n in w'.issued && w'.issued[n] == w.issued[n])
    && (forall n :: n in w.chain.applied ==> n in w'.chain.applied && w'.chain.applied[n] == w.chain.applied[n])
    && DoneStays(w.status, w'.status)
  }

  lemma JustifiedStays(w: World, w': World)
    requires Extends(w, w')
    ensures forall id: nat :: Justified(w, id) ==> Justified(w', id)
  {
    forall id: nat | Justified(w, id)
      ensures Justified(w', id)
    {
      var r: nat :| r < |w.runs| && id in IdSet(w.runs[r].manifest) && Settled(w, r);
      assert id in IdSet(w'.runs[r].manifest) && Settled(w', r);
    }
  }

  /** A step that freezes no manifest and closes no run keeps everything the logs promise. */
  lemma LogsCarryOver(w: World, w': World)
    requires Inv(w) && Extends(w, w')
    requires |w'.runs| == |w.runs| && (Open(w.disk) ==> Open(w'.disk))
    ensures forall n: nat :: n in w.chain.applied ==> AppliedOk(w', n)
    ensures forall q: Prepared :: q in w.chain.inflight ==> InflightOk(w', q)
    ensures w'.status == w.status ==> forall id: nat :: RowOk(w', id)
  {
    forall n: nat | n in w.chain.applied
      ensures AppliedOk(w', n)
    {
      assert AppliedOk(w, n);
      forall r | w.issued[n] < r < |w.runs|
        ensures IdSet(w'.runs[w.issued[n]].manifest) !! IdSet(w'.runs[r].manifest)
      {
        assert IdSet(w.runs[w.issued[n]].manifest) !! IdSet(w.runs[r].manifest);
      }
    }
    forall q: Prepared | q in w.chain.inflight
      ensures InflightOk(w', q)
    {
      assert InflightOk(w, q);
    }
    if w'.status == w.status {
      NothingChanged(w.status, {}, w'.touched, w'.foreign);
      RowsCarryOver(w, w', {});
    }
  }

  /** A step that completes nothing but justified rows keeps what the invariant says about rows. */
  lemma RowsCarryOver(w: World, w': World, ids: set<nat>)
    requires Inv(w) && Extends(w, w')
    requires OnlyCompletes(w.status, w'.status, ids, w'.touched, w'.foreign)
    requires forall id :: id in ids ==> Justified(w', id)
    ensures forall id: nat :: RowOk(w', id)
  {
    hide DiskOk, Protected, TotalsOk, RunOk, AppliedOk, InflightOk, Justified;
    JustifiedStays(w, w');
    forall id: nat
      ensures RowOk(w', id)
    {
      assert RowOk(w, id);
    }
  }

  lemma RunsCarryOver(w: World, w': World)
    requires Inv(w) && Extends(w, w') && w'.runs == w.runs
    ensures forall r: nat :: r < |w.runs| ==> RunOk(w', r)
  {
    hide DiskOk, Protected, TotalsOk, AppliedOk, InflightOk, Justified, DurableAt, GoodManifest, ValidPrepared;
    forall r: nat | r < |w.runs|
      ensures RunOk(w', r)
    {
      assert RunOk(w, r);
    }
  }

  /** Inflows and rows do not touch what any snapshot says. */
  lemma SnapshotsCarryOver(w: World, w': World)
    requires Inv(w)
    requires w' == w.(chain := w'.chain, status := w'.status, touched := w'.touched, foreign := w'.foreign,
                      told := w'.told)
    requires w'.chain == w.chain.(totals := w'.chain.totals) && w.chain.totals <= w'.chain.totals
    requires DoneStays(w.status, w'.status)
    ensures DiskOk(w') && Protected(w')
  {
    hide WellFormed, IdSet, TotalsOk, RunOk, AppliedOk, InflightOk, Justified, SameJournal;
    assert forall s :: SnapshotOk(w, s) ==> SnapshotOk(w', s);
  }

  /** Applying the request of the open run leaves every readable snapshot right. */
  lemma ApplyKeepsDisk(w: World, q: Prepared, newAddress: bool)
    requires Inv(w) && q in w.chain.inflight && q.nonce !in w.chain.applied
    ensures DiskOk(w.(chain := Apply(w.chain, q, newAddress)))
    ensures Protected(w.(chain := Apply(w.chain, q, newAddress)))
  {
    hide WellFormed, IdSet, AppliedOk, Justified, RunOk, SameJournal;
    var w' := w.(chain := Apply(w.chain, q, newAddress));
    assert InflightOk(w, q);
    assert forall s :: SnapshotOk(w, s) ==> SnapshotOk(w', s);
  }

  lemma AppliedIsOk(w: World, q: Prepared, newAddress: bool)
    requires Inv(w) && q in w.chain.inflight && q.nonce !in w.chain.applied
    ensures AppliedOk(w.(chain := Apply(w.chain, q, newAddress)), q.nonce)
  {
    hide DiskOk, Protected, RunOk, Justified, IdSet;
    assert InflightOk(w, q);
  }

  lemma ApplyKeepsInv(w: World, q: Prepared, newAddress: bool)
    requires Inv(w) && q in w.chain.inflight && q.nonce !in w.chain.applied
    ensures Inv(w.(chain := Apply(w.chain, q, newAddress)))
    ensures Drift(w, w.(chain := Apply(w.chain, q, newAddress)))
  {
    hide DiskOk, Protected, RunOk, AppliedOk, InflightOk, Justified;
    var w' := w.(chain := Apply(w.chain, q, newAddress));
    LogsCarryOver(w, w');
    RunsCarryOver(w, w');
    ApplyKeepsDisk(w, q, newAddress);
    AppliedIsOk(w, q, newAddress);
    assert TotalsOk(w'.chain);
  }

  lemma RowsKeepInv(w: World, status: map<nat, int>, touched: set<nat>, foreign: set<nat>)
    requires Inv(w) && DoneStays(w.status, status)
    requires w.touched <= touched && w.foreign <= foreign && OnlyCompletes(w.status, status, {}, touched, foreign)
    ensures var w' := w.(status := status, touched := touched, foreign := foreign); Inv(w') && Drift(w, w')
  {
    hide DiskOk, Protected, TotalsOk, RunOk, AppliedOk, InflightOk, Justified, RowOk, OnlyCompletes;
    var w' := w.(status := status, touched := touched, foreign := foreign);
    LogsCarryOver(w, w');
    RowsCarryOver(w, w', {});
    RunsCarryOver(w, w');
    SnapshotsCarryOver(w, w');
  }

  /** Being told something changes nothing. */
  lemma HearingKeepsInv(w: World, told: Told)
    requires Inv(w) && Tells(w.told, told)
    ensures Inv(w.(told := told)) && Drift(w, w.(told := told))
  {
    hide DiskOk, Protected, TotalsOk, RunOk, AppliedOk, InflightOk, Justified, RowOk;
    var w' := w.(told := told);
    LogsCarryOver(w, w');
    RunsCarryOver(w, w');
    SnapshotsCarryOver(w, w');
  }

  lemma LossKeepsInv(w: World)
    requires Inv(w)
    ensures Inv(w.(disk := LosePrimary(w.disk)))
  {
    DiskChange(w, LosePrimary(w.disk));
  }

  /** Replacing the disk of an open run touches nothing but the disk. */
  lemma DiskChange(w: World, d: Disk<RunState>)
    requires Inv(w)
    requires Open(w.disk) ==> Open(d)
    ensures DiskOk(w.(disk := d)) && Protected(w.(disk := d)) ==> Inv(w.(disk := d))
    ensures forall s :: SnapshotOk(w.(disk := d), s) <==> SnapshotOk(w, s)
  {
    hide DiskOk, Protected, TotalsOk, RunOk, AppliedOk, InflightOk, Justified, WellFormed, IdSet;
    var w' := w.(disk := d);
    LogsCarryOver(w, w');
    RunsCarryOver(w, w');
  }

  // ---------------------------------------------------------------- steps of the service

  /** The state the process works with is the one the disk would give back. */
  ghost predicate Holding(w: World, s: RunState) {
    Contents(w.disk) == Holds(s)
  }

  /** A state that may replace what the disk holds. */
  ghost predicate MaySave(w: World, next: RunState) {
    && SnapshotOk(w, next)
    && (next.phase.PhasePayoutPrepared? ==> Sends(w) == [])
    && match Load(w.disk)
       case Empty => Sends(w) == []
       case LoadError => false
       case Loaded(s, _) => !next.phase.PhasePrepared? && !s.phase.PhaseCompleted? && SameJournal(s, next)
  }

  lemma SaveKeepsInv(w: World, next: RunState, d: Disk<RunState>)
    requires Inv(w) && MaySave(w, next) && SavePoint(w.disk, next, d)
    ensures Inv(w.(disk := d))
  {
    hide TotalsOk, RunOk, AppliedOk, InflightOk, Justified, WellFormed, IdSet, JournalOk;
    DiskChange(w, d);
  }

  /** Freezing a manifest of pending rows while no run is open. */
  function Freeze(w: World, m: Manifest): World {
    w.(runs := w.runs + [RunLog(m, [], [], [])])
  }

  lemma FreezeKeepsInv(w: World, m: Manifest)
    requires Inv(w) && !Open(w.disk) && GoodManifest(m)
    requires forall id :: id in IdSet(m) ==> !Done(w.status, id)
    ensures Inv(Freeze(w, m)) && Extends(w, Freeze(w, m))
  {
    hide RowOk, OnlyCompletes, TotalsOk, Justified, GoodManifest, ValidPrepared, SnapshotOk;
    var w' := Freeze(w, m);
    forall r: nat | r < |w'.runs|
      ensures RunOk(w', r)
    {
      assert r < |w.runs| ==> RunOk(w, r);
    }
    forall n: nat | n in w.chain.applied
      ensures AppliedOk(w', n)
    {
      assert AppliedOk(w, n);
      assert AllDone(w.status, IdSet(w.runs[w.issued[n]].manifest));
    }
    forall q: Prepared | q in w.chain.inflight
      ensures InflightOk(w', q)
    {
      assert InflightOk(w, q);
    }
    NothingChanged(w.status, {}, w.touched, w.foreign);
    RowsCarryOver(w, w', {});
  }

  /** No journal is readable: the run is still before its first prepared request. */
  ghost predicate NoJournal(w: World) {
    && (w.disk.current.Valid? ==> w.disk.current.state.journal.None?)
    && (w.disk.backup.Valid? ==> w.disk.backup.state.journal.None?)
  }

  /** Drawing a nonce and moving the baseline only happen where no journal can be read. */
  lemma PrepareKeepsInv(w: World, nonce: nat, floor: nat)
    requires Inv(w) && NoJournal(w) && |w.runs| > 0
    requires nonce !in w.issued && floor < |w.chain.totals|
    ensures var w' := w.(issued := w.issued[nonce := |w.runs| - 1], chain := w.chain.(floor := floor));
            Inv(w') && Extends(w, w')
  {
    hide WellFormed, IdSet, RunOk, AppliedOk, InflightOk, Justified;
    var w' := w.(issued := w.issued[nonce := |w.runs| - 1], chain := w.chain.(floor := floor));
    LogsCarryOver(w, w');
    RunsCarryOver(w, w');
  }

  /** Both generations already record the request, and the send budget is not used up. */
  ghost predicate MaySend(w: World, q: Prepared) {
    && |w.runs| > 0
    && ValidPrepared(w.runs[|w.runs| - 1].manifest, q)
    && q.nonce in w.issued && w.issued[q.nonce] == |w.runs| - 1
    && DurableAt(w.disk, q, |Sends(w)|)
    && !w.disk.current.state.phase.PhasePayoutPrepared?
    && (Sends(w) == [] || Sends(w) == [q])
  }

  function Delivery(log: RunLog, q: Prepared, d: Disk<RunState>, reply: SubmitReply): RunLog {
    RunLog(log.manifest, log.sends + [q], log.boundaries + [d], log.answers + [reply])
  }

  function Send(w: World, q: Prepared, arrives: bool, reply: SubmitReply): World
    requires |w.runs| > 0
  {
    var r := |w.runs| - 1;
    w.(runs := w.runs[r := Delivery(w.runs[r], q, w.disk, reply)],
       chain := if arrives then w.chain.(inflight := w.chain.inflight + {q}) else w.chain)
  }

  lemma SendKeepsRuns(w: World, q: Prepared, arrives: bool, reply: SubmitReply)
    requires Inv(w) && MaySend(w, q)
    ensures forall r: nat :: r < |w.runs| ==> RunOk(Send(w, q, arrives, reply), r)
  {
    hide DiskOk, Protected, TotalsOk, Justified, AppliedOk, InflightOk, GoodManifest, ValidPrepared, RecordsRequest;
    forall r: nat | r < |w.runs|
      ensures RunOk(Send(w, q, arrives, reply), r)
    {
      assert RunOk(w, r);
    }
  }

  lemma SendKeepsInv(w: World, q: Prepared, arrives: bool, reply: SubmitReply)
    requires Inv(w) && MaySend(w, q)
    ensures Inv(Send(w, q, arrives, reply)) && Extends(w, Send(w, q, arrives, reply))
  {
    hide DiskOk, Protected, RunOk, AppliedOk, InflightOk, Justified, DurableAt, ValidPrepared;
    var w' := Send(w, q, arrives, reply);
    SendExtends(w, q, arrives, reply);
    LogsCarryOver(w, w');
    SendKeepsRuns(w, q, arrives, reply);
    SendKeepsDisk(w, q, arrives, reply);
    SentIsOk(w, q, arrives, reply);
  }

  lemma SendExtends(w: World, q: Prepared, arrives: bool, reply: SubmitReply)
    requires MaySend(w, q)
    ensures Extends(w, Send(w, q, arrives, reply)) && |w.runs| > 0
  {
  }

  lemma SendKeepsDisk(w: World, q: Prepared, arrives: bool, reply: SubmitReply)
    requires Inv(w) && MaySend(w, q)
    ensures DiskOk(Send(w, q, arrives, reply)) && Protected(Send(w, q, arrives, reply))
  {
    hide WellFormed, ValidPrepared, IdSet, TotalsOk, RunOk, AppliedOk, InflightOk, Justified, SameJournal;
    var w' := Send(w, q, arrives, reply);
    assert forall s :: SnapshotOk(w, s) && RecordsRequest(s, q, |Sends(w)| + 1) ==> SnapshotOk(w', s);
  }

  lemma SentIsOk(w: World, q: Prepared, arrives: bool, reply: SubmitReply)
    requires Inv(w) && MaySend(w, q)
    ensures InflightOk(Send(w, q, arrives, reply), q)
  {
    hide DiskOk, Protected, TotalsOk, RunOk, AppliedOk, Justified, ValidPrepared;
  }

  /** Completing rows of a settled run. */
  lemma CompleteKeepsInv(w: World, status: map<nat, int>, touched: set<nat>, foreign: set<nat>, r: nat)
    requires Inv(w) && DoneStays(w.status, status)
    requires r < |w.runs| && Settled(w, r)
    requires w.touched <= touched && w.foreign <= foreign
    requires OnlyCompletes(w.status, status, IdSet(w.runs[r].manifest), touched, foreign)
    ensures var w' := w.(status := status, touched := touched, foreign := foreign); Inv(w') && Extends(w, w')
  {
    hide DiskOk, Protected, TotalsOk, RunOk, AppliedOk, InflightOk, IdSet, RowOk, OnlyCompletes;
    var w' := w.(status := status, touched := touched, foreign := foreign);
    LogsCarryOver(w, w');
    forall id: nat | id in IdSet(w.runs[r].manifest)
      ensures Justified(w', id)
    {
      assert Settled(w', r);
    }
    RowsCarryOver(w, w', IdSet(w.runs[r].manifest));
    RunsCarryOver(w, w');
    SnapshotsCarryOver(w, w');
  }

  /** A run may be forgotten when its rows are completed, or when its only request was refused outright. */
  ghost predicate MayClear(w: World) {
    && w.disk.current.Valid? && |w.runs| > 0
    && (|| w.disk.current.state.phase.PhaseCompleted?
        || NothingSent(w))
  }

  lemma ClearKeepsInv(w: World, d: Disk<RunState>)
    requires Inv(w) && MayClear(w) && ClearPoint(w.disk, d)
    ensures Inv(w.(disk := d))
  {
    hide TotalsOk, RunOk, AppliedOk, InflightOk, Justified, WellFormed, JournalOk, SameJournal;
    if Open(d) {
      DiskChange(w, d);
    } else {
      ForgetKeepsLogs(w);
    }
  }

  /** Forgetting the open run leaves nothing behind that could still move money unaccounted for. */
  lemma ForgetKeepsLogs(w: World)
    requires Inv(w) && MayClear(w)
    ensures Inv(w.(disk := Disk(Missing, Missing)))
  {
    hide TotalsOk, WellFormed, JournalOk, SameJournal, Justified, RowOk, OnlyCompletes, RunOk;
    hide GoodManifest, ValidPrepared, IdSet;
    var w' := w.(disk := Disk(Missing, Missing));
    RunsCarryOver(w, w');
    NothingChanged(w.status, {}, w.touched, w.foreign);
    RowsCarryOver(w, w', {});
    assert RunOk(w, |w.runs| - 1);
    forall n: nat | n in w.chain.applied
      ensures AppliedOk(w', n)
    {
      assert AppliedOk(w, n);
    }
    forall q: Prepared | q in w.chain.inflight
      ensures InflightOk(w', q)
    {
      assert InflightOk(w, q);
    }
  }
}
