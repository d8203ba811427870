/**
 The persisted entities of a referral payout and the checks the service runs on them
 (internal/funding/model.go, internal/funding/action_validation.go).

 Amounts are integers at a fixed scale of 10^-18. Addresses and tokens are opaque strings; the
 service compares addresses without regard to case, so a string here stands for its lower-case form.
 */
module Funding {
  import opened Wrappers

  const ONE_USDC: int := 1_000_000_000_000_000_000
  const MICRO_USDC: int := 1_000_000_000_000

  datatype Record = Record(id: nat, period: nat, amount: int)

  datatype Manifest = Manifest(
    records: seq<Record>, rawTotal: int, payoutTotal: int,
    token: Option<string>, settlement: string, recipient: string)

  /** The request as the exchange decodes it: this is what leaves the process. */
  datatype Body = Body(kind: string, destination: string, token: string, amount: int, nonce: nat, time: nat)

  /** A signed action together with the fields the service keeps beside the request body. */
  datatype Prepared = Prepared(
    kind: string, signer: string, destination: string, token: string, amount: int, nonce: nat, body: Body)

  datatype Journal = Journal(prepared: Prepared, totalBefore: int, attempts: int)

  datatype Phase =
    | PhasePrepared
    | PhasePayoutPrepared
    | PhasePayoutSubmitting
    | PhasePayoutReplaying
    | PhasePayoutConfirmed
    | PhaseCompleted
    | PhaseBlocked

  datatype BlockedReason = NotBlocked | UncertainResult | ExplicitlyRejected

  datatype Evidence = NoEvidence | ExchangeResponse | BalanceDecreased | BalanceDecreasedWithFee

  /** A run and its single referral target. `run` stands for the run identifier. */
  datatype RunState = RunState(
    run: nat, phase: Phase, manifest: Manifest, journal: Option<Journal>,
    blockedReason: BlockedReason, evidence: Evidence)

  ghost function IdSet(m: Manifest): set<nat> {
    set r | r in m.records :: r.id
  }

  /** validatePreparedPayout: every field that decides where the money goes matches the frozen manifest. */
  predicate ValidPrepared(m: Manifest, p: Prepared) {
    && m.token.Some?
    && p.kind == "spotSend"
    && p.signer == m.settlement
    && p.destination == m.recipient
    && p.token == m.token.value
    && p.amount == m.payoutTotal
    && p.body.kind == "spotSend"
    && p.body.destination == p.destination
    && p.body.token == p.token
    && p.body.amount == p.amount
    && p.body.nonce == p.nonce
    && p.body.time == p.nonce
  }

  /** validatePayoutJournal. */
  predicate ValidJournal(m: Manifest, j: Journal) {
    && ValidPrepared(m, j.prepared)
    && 0 <= j.totalBefore
    && 0 < m.payoutTotal <= j.totalBefore
    && 1 <= j.attempts <= 2
  }

  /** validateTargetProgress on a target that is not completed. */
  predicate ValidProgress(s: RunState) {
    s.journal.Some? ==>
      && ValidJournal(s.manifest, s.journal.value)
      && (s.phase.PhasePayoutPrepared? || s.phase.PhasePayoutSubmitting? ==> s.journal.value.attempts == 1)
      && (s.phase.PhasePayoutReplaying? ==> s.journal.value.attempts == 2)
  }
}
