/**
 The exchange as the UTC 00:00 task meets it. It keeps the books, and a log of everything it was asked and
 what it answered, by UTC date and builder. It knows nothing of the service's intent: it debits the builder
 that signed and credits whatever destination a request names, and it applies a nonce of a builder at most
 once. What the service says about a day is proved about these logs and not about its own notes.
 */
module Exchanges {
  import opened Wrappers
  import opened Nonces
  import opened Observation
  import opened Claims

  const CLAIMABLE_ATTEMPTS: nat := 5
  const SWEEP_QUERIES: nat := 5

  datatype Key = Key(date: nat, builder: string)

  datatype ClaimReply = ClaimAccepted | BelowThreshold | ClaimRejected | ClaimUnknown

  datatype SubmitOutcome = Accepted | Rejected | Unknown

  /** A transfer that reached the exchange. `window` is the last window of balance answers given before it. */
  datatype Submission = Submission(
    key: Key, nonce: nat, destination: string, amount: int, window: int, outcome: SubmitOutcome)

  datatype Id = Id(signer: string, nonce: nat)

  function IdOf(s: Submission): Id {
    Id(s.key.builder, s.nonce)
  }

  // ---------------------------------------------------------------- the logs

  /** Whether the client could sign a transfer after the given window of balance answers. */
  datatype Signing = Signing(window: int, ok: bool)

  /**
   Windows of claimable answers, whether a claim could be signed, replies to claims, windows of balance
   answers, observation samples, and whether transfers could be signed.
   */
  datatype Told = Told(
    answers: seq<seq<Option<int>>>, prepared: seq<bool>, replies: seq<ClaimReply>, windows: seq<seq<Reply>>,
    samples: seq<Sample>, signed: seq<Signing>)

  const SILENCE := Told([], [], [], [], [], [])

  /** Everything between the service and the exchange about one builder on one date. */
  datatype View = View(told: Told, sent: seq<Submission>)

  ghost function Of(sent: seq<Submission>, key: Key): seq<Submission> {
    if sent == [] then []
    else
      var s := sent[|sent| - 1];
      Of(sent[..|sent| - 1], key) + if s.key == key then [s] else []
  }

  datatype Logs = Logs(told: map<Key, Told>, sent: seq<Submission>)
  {
    function ToldOf(key: Key): Told {
      if key in told then told[key] else SILENCE
    }

    ghost function At(key: Key): View {
      View(ToldOf(key), Of(sent, key))
    }
  }

  /** The later logs tell more about one builder on one date, and the same about every other. */
  ghost predicate Only(before: Logs, after: Logs, key: Key) {
    && before.sent <= after.sent
    && (forall k :: k != key ==> after.At(k) == before.At(k))
    && (forall i :: |before.sent| <= i < |after.sent| ==> after.sent[i].key == key)
  }

  lemma OnlyThrough(a: Logs, b: Logs, c: Logs, key: Key)
    requires Only(a, b, key) && Only(b, c, key)
    ensures Only(a, c, key)
  {
    forall k | k != key
      ensures c.At(k) == a.At(k)
    {
      assert b.At(k) == a.At(k);
    }
  }

  lemma OnlyItself(a: Logs, key: Key)
    ensures Only(a, a, key)
  {
  }

  lemma TellsOnly(logs: Logs, key: Key, t: Told)
    ensures Only(logs, logs.(told := logs.told[key := t]), key)
    ensures logs.(told := logs.told[key := t]).At(key) == View(t, logs.At(key).sent)
  {
  }

  lemma SendsOnly(logs: Logs, s: Submission)
    ensures Only(logs, logs.(sent := logs.sent + [s]), s.key)
    ensures logs.(sent := logs.sent + [s]).At(s.key) == View(logs.At(s.key).told, logs.At(s.key).sent + [s])
  {
    assert (logs.sent + [s])[..|logs.sent|] == logs.sent;
  }

  lemma {:induction false} OfIsPart(sent: seq<Submission>, key: Key)
    ensures forall s :: s in Of(sent, key) <==> s in sent && s.key == key
  {
    if sent != [] {
      OfIsPart(sent[..|sent| - 1], key);
      assert sent == sent[..|sent| - 1] + [sent[|sent| - 1]];
    }
  }

  // ---------------------------------------------------------------- the books

  /**
   What every account holds (nothing if absent), what came or went by other ways than the logged transfers
   (rewards, deposits, payouts), and the transfers applied.
   */
  datatype Books = Books(held: map<string, int>, external: map<string, int>, applied: set<Id>)
  {
    function Held(account: string): int {
      if account in held then held[account] else 0
    }

    function External(account: string): int {
      if account in external then external[account] else 0
    }

    /** The part of a balance that transfers are answerable for. */
    function Net(account: string): int {
      Held(account) - External(account)
    }

    predicate MayApply(id: Id, amount: int) {
      id !in applied && amount <= Held(id.signer)
    }

    function After(id: Id, destination: string, amount: int): Books {
      var debited := held[id.signer := Held(id.signer) - amount];
      var there := if destination in debited then debited[destination] else 0;
      Books(debited[destination := there + amount], external, applied + {id})
    }

    function Outside(account: string, amount: int): Books {
      Books(held[account := Held(account) + amount], external[account := External(account) + amount], applied)
    }
  }

  ghost predicate Increasing(sent: seq<Submission>) {
    forall i, j :: 0 <= i < j < |sent| ==> sent[i].nonce < sent[j].nonce
  }

  ghost function Ids(sent: seq<Submission>): set<Id> {
    set i | 0 <= i < |sent| :: IdOf(sent[i])
  }

  /** What the applied transfers of a log add to an account. */
  ghost function Flow(sent: seq<Submission>, applied: set<Id>, account: string): int {
    if sent == [] then 0
    else Flow(sent[..|sent| - 1], applied, account) + Share(sent[|sent| - 1], applied, account)
  }

  ghost function Share(s: Submission, applied: set<Id>, account: string): int {
    if IdOf(s) in applied
    then (if s.destination == account then s.amount else 0) - (if s.key.builder == account then s.amount else 0)
    else 0
  }

  /** The sum of the applied transfers of a log. */
  ghost function Moved(sent: seq<Submission>, applied: set<Id>): int {
    if sent == [] then 0
    else Moved(sent[..|sent| - 1], applied) + if IdOf(sent[|sent| - 1]) in applied then sent[|sent| - 1].amount else 0
  }

  lemma {:induction false} FlowIgnoresOthers(sent: seq<Submission>, applied: set<Id>, id: Id, account: string)
    requires id !in Ids(sent)
    ensures Flow(sent, applied + {id}, account) == Flow(sent, applied, account)
  {
    if sent != [] {
      var n := |sent| - 1;
      assert IdOf(sent[n]) in Ids(sent);
      assert Ids(sent[..n]) <= Ids(sent) by {
        assert forall i :: 0 <= i < n ==> sent[..n][i] == sent[i];
      }
      FlowIgnoresOthers(sent[..n], applied, id, account);
    }
  }

  /** Applying one logged transfer moves exactly its amount, from its signer to its destination. */
  lemma {:induction false} ApplyFlows(sent: seq<Submission>, applied: set<Id>, i: nat, account: string)
    requires Increasing(sent) && i < |sent| && IdOf(sent[i]) !in applied
    ensures Flow(sent, applied + {IdOf(sent[i])}, account) ==
            Flow(sent, applied, account) + Share(sent[i], {IdOf(sent[i])}, account)
  {
    var n := |sent| - 1;
    if i == n {
      assert IdOf(sent[n]) !in Ids(sent[..n]);
      FlowIgnoresOthers(sent[..n], applied, IdOf(sent[i]), account);
    } else {
      ApplyFlows(sent[..n], applied, i, account);
      assert sent[n].nonce != sent[i].nonce;
    }
  }

  /** What has been applied since `before`. */
  ghost function Since(before: Books, now: Books): set<Id> {
    now.applied - before.applied
  }

  /**
   The books differ from what they were by the applied transfers and by nothing else; what was accepted is
   applied and what was rejected is not.
   */
  ghost predicate Balanced(before: Books, now: Books, sent: seq<Submission>) {
    && before.applied <= now.applied && Since(before, now) <= Ids(sent)
    && (forall a :: now.Net(a) == before.Net(a) + Flow(sent, Since(before, now), a))
    && (forall i :: 0 <= i < |sent| && sent[i].outcome.Accepted? ==> IdOf(sent[i]) in Since(before, now))
    && (forall i :: 0 <= i < |sent| && sent[i].outcome.Rejected? ==> IdOf(sent[i]) !in Since(before, now))
    && (forall a :: 0 <= before.Held(a) ==> 0 <= now.Held(a))
  }

  /** Only the transfers of the log are applied, each at most once, and a positive amount needs its cover. */
  ghost predicate Sound(before: Books, now: Books, sent: seq<Submission>) {
    Increasing(sent) && Balanced(before, now, sent)
  }

  lemma NothingMovedYet(books: Books)
    ensures Sound(books, books, [])
  {
  }

  lemma OutsideKeepsBalance(before: Books, now: Books, sent: seq<Submission>, account: string, amount: int)
    requires Sound(before, now, sent) && (0 <= amount || 0 <= now.Held(account) + amount)
    ensures Sound(before, now.Outside(account, amount), sent)
  {
    var later := now.Outside(account, amount);
    assert Since(before, later) == Since(before, now);
    assert forall a :: later.Net(a) == now.Net(a);
  }

  lemma LateApplicationKeepsBalance(before: Books, now: Books, sent: seq<Submission>, i: nat)
    requires Sound(before, now, sent) && i < |sent| && sent[i].outcome.Unknown? && 0 <= sent[i].amount
    requires now.MayApply(IdOf(sent[i]), sent[i].amount)
    ensures Sound(before, now.After(IdOf(sent[i]), sent[i].destination, sent[i].amount), sent)
  {
    hide Flow;
    var s := sent[i];
    var later := now.After(IdOf(s), s.destination, s.amount);
    assert Since(before, later) == Since(before, now) + {IdOf(s)};
    forall a
      ensures later.Net(a) == before.Net(a) + Flow(sent, Since(before, later), a)
    {
      ApplyFlows(sent, Since(before, now), i, a);
    }
    forall j | 0 <= j < |sent| && sent[j].outcome.Rejected?
      ensures IdOf(sent[j]) !in Since(before, later)
    {
      assert j != i;
    }
  }

  /** A transfer that was not applied, or was applied and then answered, joins the log in balance. */
  lemma SubmissionKeepsBalance(before: Books, now: Books, later: Books, sent: seq<Submission>, s: Submission)
    requires Sound(before, now, sent) && 0 <= s.amount
    requires forall i :: 0 <= i < |sent| ==> sent[i].nonce < s.nonce
    requires || (later == now && !s.outcome.Accepted?)
             || (later == now.After(IdOf(s), s.destination, s.amount) && now.MayApply(IdOf(s), s.amount)
                 && !s.outcome.Rejected?)
    ensures Sound(before, later, sent + [s])
  {
    if later == now && !s.outcome.Accepted? {
      UnappliedJoins(before, now, sent, s);
    } else {
      AppliedJoins(before, now, sent, s);
    }
  }

  lemma UnappliedJoins(before: Books, now: Books, sent: seq<Submission>, s: Submission)
    requires Sound(before, now, sent) && !s.outcome.Accepted?
    requires forall i :: 0 <= i < |sent| ==> sent[i].nonce < s.nonce
    ensures Sound(before, now, sent + [s])
  {
    hide Books.Net, Flow;
    IdsGrow(sent, s);
    assert forall i :: 0 <= i < |sent| ==> (sent + [s])[i] == sent[i];
    forall a
      ensures now.Net(a) == before.Net(a) + Flow(sent + [s], Since(before, now), a)
    {
      FlowGrows(sent, Since(before, now), s, a);
    }
  }

  lemma AppliedJoins(before: Books, now: Books, sent: seq<Submission>, s: Submission)
    requires Sound(before, now, sent) && 0 <= s.amount && !s.outcome.Rejected? && now.MayApply(IdOf(s), s.amount)
    requires forall i :: 0 <= i < |sent| ==> sent[i].nonce < s.nonce
    ensures Sound(before, now.After(IdOf(s), s.destination, s.amount), sent + [s])
  {
    hide Books.After, Books.Net, Flow;
    var later := now.After(IdOf(s), s.destination, s.amount);
    IdsGrow(sent, s);
    AppliedOnce(before, now, s);
    assert forall i :: 0 <= i < |sent| ==> (sent + [s])[i] == sent[i] && IdOf(sent[i]) in Ids(sent);
    forall a
      ensures later.Net(a) == before.Net(a) + Flow(sent + [s], Since(before, later), a)
    {
      FlowGrows(sent, Since(before, now), s, a);
      NetAfter(now, s, a);
    }
  }

  lemma IdsGrow(sent: seq<Submission>, s: Submission)
    requires forall i :: 0 <= i < |sent| ==> sent[i].nonce < s.nonce
    ensures IdOf(s) !in Ids(sent) && Ids(sent + [s]) == Ids(sent) + {IdOf(s)}
  {
    var longer := sent + [s];
    assert longer[|sent|] == s;
    assert forall i :: 0 <= i < |sent| ==> longer[i] == sent[i];
  }

  lemma AppliedOnce(before: Books, now: Books, s: Submission)
    requires before.applied <= now.applied && now.MayApply(IdOf(s), s.amount) && 0 <= s.amount
    ensures var later := now.After(IdOf(s), s.destination, s.amount);
            && IdOf(s) in later.applied && before.applied <= later.applied
            && Since(before, later) == Since(before, now) + {IdOf(s)}
            && (forall a :: 0 <= now.Held(a) ==> 0 <= later.Held(a))
  {
  }

  lemma FlowGrows(sent: seq<Submission>, applied: set<Id>, s: Submission, a: string)
    requires IdOf(s) !in Ids(sent) && IdOf(s) !in applied
    ensures Flow(sent + [s], applied, a) == Flow(sent, applied, a)
    ensures Flow(sent + [s], applied + {IdOf(s)}, a) == Flow(sent, applied, a) + Share(s, {IdOf(s)}, a)
  {
    assert (sent + [s])[..|sent|] == sent;
    FlowIgnoresOthers(sent, applied, IdOf(s), a);
  }

  lemma NetAfter(now: Books, s: Submission, a: string)
    ensures now.After(IdOf(s), s.destination, s.amount).Net(a) == now.Net(a) + Share(s, {IdOf(s)}, a)
  {
  }

  // ---------------------------------------------------------------- conservation

  ghost function SumNet(accounts: seq<string>, books: Books): int {
    if accounts == [] then 0 else SumNet(accounts[..|accounts| - 1], books) + books.Net(accounts[|accounts| - 1])
  }

  ghost function SumFlow(accounts: seq<string>, sent: seq<Submission>, applied: set<Id>): int {
    if accounts == [] then 0
    else SumFlow(accounts[..|accounts| - 1], sent, applied) + Flow(sent, applied, accounts[|accounts| - 1])
  }

  /** Every transfer is of a positive amount from one of the builders to settlement. */
  ghost predicate AllToSettlement(sent: seq<Submission>, builders: seq<string>, settlement: string) {
    forall i :: 0 <= i < |sent| ==>
      && sent[i].destination == settlement && sent[i].key.builder in builders && 0 < sent[i].amount
  }

  ghost predicate Distinct(accounts: seq<string>) {
    forall i, j :: 0 <= i < j < |accounts| ==> accounts[i] != accounts[j]
  }

  lemma {:induction false} FlowOfOne(
    sent: seq<Submission>, applied: set<Id>, builders: seq<string>, settlement: string, a: string)
    requires AllToSettlement(sent, builders, settlement) && settlement !in builders
    ensures a == settlement ==> Flow(sent, applied, a) == Moved(sent, applied)
    ensures a in builders ==> Flow(sent, applied, a) <= 0
    ensures a != settlement && a !in builders ==> Flow(sent, applied, a) == 0
    ensures 0 <= Moved(sent, applied)
  {
    if sent != [] {
      FlowOfOne(sent[..|sent| - 1], applied, builders, settlement, a);
    }
  }

  /** A single transfer leaves one of the builders, once. */
  lemma {:induction false} SharesAddUp(builders: seq<string>, s: Submission, applied: set<Id>, settlement: string)
    requires Distinct(builders) && settlement !in builders && s.destination == settlement
    ensures SumShare(builders, s, applied) ==
            if s.key.builder in builders && IdOf(s) in applied then -s.amount else 0
  {
    if builders != [] {
      var n := |builders| - 1;
      assert builders == builders[..n] + [builders[n]];
      SharesAddUp(builders[..n], s, applied, settlement);
    }
  }

  ghost function SumShare(accounts: seq<string>, s: Submission, applied: set<Id>): int {
    if accounts == [] then 0
    else SumShare(accounts[..|accounts| - 1], s, applied) + Share(s, applied, accounts[|accounts| - 1])
  }

  lemma {:induction false} SumFlowSplits(accounts: seq<string>, sent: seq<Submission>, applied: set<Id>)
    requires sent != []
    ensures SumFlow(accounts, sent, applied) ==
            SumFlow(accounts, sent[..|sent| - 1], applied) + SumShare(accounts, sent[|sent| - 1], applied)
  {
    if accounts != [] {
      SumFlowSplits(accounts[..|accounts| - 1], sent, applied);
    }
  }

  lemma {:induction false} EmptyFlows(accounts: seq<string>, applied: set<Id>)
    ensures SumFlow(accounts, [], applied) == 0
  {
    if accounts != [] {
      EmptyFlows(accounts[..|accounts| - 1], applied);
    }
  }

  /** What the builders lost together is what was moved. */
  lemma {:induction false} BuildersPayForAll(
    sent: seq<Submission>, applied: set<Id>, builders: seq<string>, settlement: string)
    requires AllToSettlement(sent, builders, settlement) && Distinct(builders) && settlement !in builders
    ensures SumFlow(builders, sent, applied) == -Moved(sent, applied)
  {
    if sent == [] {
      EmptyFlows(builders, applied);
    } else {
      var n := |sent| - 1;
      BuildersPayForAll(sent[..n], applied, builders, settlement);
      SumFlowSplits(builders, sent, applied);
      SharesAddUp(builders, sent[n], applied, settlement);
    }
  }

  lemma {:induction false} NetFollowsFlow(accounts: seq<string>, before: Books, now: Books, sent: seq<Submission>)
    requires Balanced(before, now, sent)
    ensures SumNet(accounts, now) == SumNet(accounts, before) + SumFlow(accounts, sent, Since(before, now))
  {
    if accounts != [] {
      NetFollowsFlow(accounts[..|accounts| - 1], before, now, sent);
    }
  }

  /** Settlement gained what all builders together lost; no builder gained and nobody else is concerned. */
  ghost predicate Conserved(
    before: Books, now: Books, sent: seq<Submission>, builders: seq<string>, settlement: string)
  {
    var moved := Moved(sent, Since(before, now));
    && 0 <= moved
    && now.Net(settlement) == before.Net(settlement) + moved
    && SumNet(builders, now) == SumNet(builders, before) - moved
    && (forall b :: b in builders ==> now.Net(b) <= before.Net(b))
    && (forall a :: a != settlement && a !in builders ==> now.Net(a) == before.Net(a))
    && (forall a :: 0 <= before.Held(a) ==> 0 <= now.Held(a))
  }

  lemma BalanceIsConserved(before: Books, now: Books, sent: seq<Submission>, builders: seq<string>, settlement: string)
    requires Sound(before, now, sent)
    requires AllToSettlement(sent, builders, settlement) && Distinct(builders) && settlement !in builders
    ensures Conserved(before, now, sent, builders, settlement)
  {
    hide Flow, Moved, SumFlow, SumNet, Increasing;
    var applied := Since(before, now);
    BuildersPayForAll(sent, applied, builders, settlement);
    NetFollowsFlow(builders, before, now, sent);
    FlowOfOne(sent, applied, builders, settlement, settlement);
    forall a
      ensures a in builders ==> now.Net(a) <= before.Net(a)
      ensures a != settlement && a !in builders ==> now.Net(a) == before.Net(a)
    {
      FlowOfOne(sent, applied, builders, settlement, a);
    }
  }

  /** With positive amounts, what was moved covers each applied transfer. */
  lemma {:induction false} MovedCovers(sent: seq<Submission>, applied: set<Id>, i: nat)
    requires forall j :: 0 <= j < |sent| ==> 0 < sent[j].amount
    requires i < |sent| && IdOf(sent[i]) in applied
    ensures sent[i].amount <= Moved(sent, applied)
  {
    var n := |sent| - 1;
    if i < n {
      MovedCovers(sent[..n], applied, i);
    } else {
      MovedIsNonNegative(sent[..n], applied);
    }
  }

  lemma {:induction false} MovedIsNonNegative(sent: seq<Submission>, applied: set<Id>)
    requires forall j :: 0 <= j < |sent| ==> 0 < sent[j].amount
    ensures 0 <= Moved(sent, applied)
  {
    if sent != [] {
      MovedIsNonNegative(sent[..|sent| - 1], applied);
    }
  }

  // ---------------------------------------------------------------- the exchange

  class Exchange {
    var books: Books
    var logs: Logs
    ghost const initial: Books
    /** How often the task was cancelled, or a record could not be written or read. */
    ghost var refusals: nat

    constructor (books: Books)
      ensures Valid() && initial == books && logs == Logs(map[], []) && refusals == 0
    {
      this.books, this.initial, logs, refusals := books, books, Logs(map[], []), 0;
      new;
      NothingMovedYet(books);
    }

    ghost predicate Valid()
      reads this
    {
      Sound(initial, books, logs.sent)
    }

    /** The task may be cancelled at any point, and a file may fail to be written or read. */
    method Refuses() returns (refused: bool)
      modifies this`refusals
      ensures refusals == old(refusals) + if refused then 1 else 0
    {
      refused := *;
      if refused {
        refusals := refusals + 1;
      }
    }

    /** PrepareClaim: the client may fail to sign. */
    method PrepareClaim(key: Key) returns (ok: bool)
      modifies this`logs
      ensures Only(old(logs), logs, key) && logs.sent == old(logs).sent
      ensures var t := old(logs).At(key).told;
              logs.At(key) == old(logs).At(key).(told := t.(prepared := t.prepared + [ok]))
    {
      ok := *;
      var t := logs.ToldOf(key);
      TellsOnly(logs, key, t.(prepared := t.prepared + [ok]));
      logs := logs.(told := logs.told[key := t.(prepared := t.prepared + [ok])]);
    }

    /** PrepareSpotSend: the client may fail to sign. */
    method PrepareTransfer(key: Key) returns (ok: bool)
      modifies this`logs
      ensures Only(old(logs), logs, key) && logs.sent == old(logs).sent
      ensures var t := old(logs).At(key).told;
              logs.At(key) ==
              old(logs).At(key).(told := t.(signed := t.signed + [Signing(|t.windows| - 1, ok)]))
    {
      ok := *;
      var t := logs.ToldOf(key);
      TellsOnly(logs, key, t.(signed := t.signed + [Signing(|t.windows| - 1, ok)]));
      logs := logs.(told := logs.told[key := t.(signed := t.signed + [Signing(|t.windows| - 1, ok)])]);
    }

    /** The answers one round of claimable queries would get. */
    method QueryClaimable(key: Key) returns (answers: seq<Option<int>>)
      modifies this`logs
      ensures |answers| == CLAIMABLE_ATTEMPTS && Only(old(logs), logs, key) && logs.sent == old(logs).sent
      ensures var t := old(logs).At(key).told;
              logs.At(key) == old(logs).At(key).(told := t.(answers := t.answers + [answers]))
    {
      answers := [];
      for i := 0 to CLAIMABLE_ATTEMPTS
        invariant |answers| == i
      {
        var a: Option<int> := *;
        answers := answers + [a];
      }
      var t := logs.ToldOf(key);
      TellsOnly(logs, key, t.(answers := t.answers + [answers]));
      logs := logs.(told := logs.told[key := t.(answers := t.answers + [answers])]);
    }

    /** The answers one window of balance queries would get; a cancelled wait is a refusal. */
    method ReadWindow(key: Key) returns (replies: seq<Reply>)
      modifies this`logs, this`refusals
      ensures old(refusals) <= refusals && (Interrupted in replies ==> old(refusals) < refusals)
      ensures |replies| == SWEEP_QUERIES && Only(old(logs), logs, key) && logs.sent == old(logs).sent
      ensures var t := old(logs).At(key).told;
              logs.At(key) == old(logs).At(key).(told := t.(windows := t.windows + [replies]))
    {
      replies := [];
      for i := 0 to SWEEP_QUERIES
        invariant |replies| == i
      {
        var r: Reply := *;
        replies := replies + [r];
      }
      var t := logs.ToldOf(key);
      if Interrupted in replies {
        refusals := refusals + 1;
      }
      TellsOnly(logs, key, t.(windows := t.windows + [replies]));
      logs := logs.(told := logs.told[key := t.(windows := t.windows + [replies])]);
    }

    /** The answers the observation of one claim would get. */
    method DrawSamples(key: Key) returns (samples: seq<Sample>)
      modifies this`logs
      ensures |samples| == Claims.OBSERVATION_ATTEMPTS && Only(old(logs), logs, key) && logs.sent == old(logs).sent
      ensures var t := old(logs).At(key).told;
              logs.At(key) == old(logs).At(key).(told := t.(samples := t.samples + samples))
    {
      samples := [];
      for k := 0 to Claims.OBSERVATION_ATTEMPTS
        invariant |samples| == k
      {
        var s: Sample := *;
        samples := samples + [s];
      }
      var t := logs.ToldOf(key);
      TellsOnly(logs, key, t.(samples := t.samples + samples));
      logs := logs.(told := logs.told[key := t.(samples := t.samples + samples)]);
    }

    /** A claim request, and the answer to it. */
    method SubmitClaim(key: Key) returns (reply: ClaimReply)
      modifies this`logs
      ensures Only(old(logs), logs, key) && logs.sent == old(logs).sent
      ensures var t := old(logs).At(key).told;
              logs.At(key) == old(logs).At(key).(told := t.(replies := t.replies + [reply]))
    {
      reply := *;
      var t := logs.ToldOf(key);
      TellsOnly(logs, key, t.(replies := t.replies + [reply]));
      logs := logs.(told := logs.told[key := t.(replies := t.replies + [reply])]);
    }

    /** A transfer: accepted means applied, rejected means not, unknown means either, now or later. */
    method Submit(key: Key, nonce: nat, destination: string, amount: nat) returns (outcome: SubmitOutcome)
      requires Valid() && forall i :: 0 <= i < |logs.sent| ==> logs.sent[i].nonce < nonce
      modifies this`books, this`logs
      ensures Valid() && Only(old(logs), logs, key)
      ensures var s := Submission(key, nonce, destination, amount, |old(logs).At(key).told.windows| - 1, outcome);
              && logs.sent == old(logs).sent + [s]
              && logs.At(key) == old(logs).At(key).(sent := old(logs).At(key).sent + [s])
    {
      hide Sound;
      ghost var before := books;
      var id := Id(key.builder, nonce);
      if {
        case books.MayApply(id, amount) =>
          books := books.After(id, destination, amount);
          outcome := Accepted;
        case true =>
          outcome := Rejected;
        case true =>
          var now: bool := *;
          if now && books.MayApply(id, amount) {
            books := books.After(id, destination, amount);
          }
          outcome := Unknown;
      }
      var s := Submission(key, nonce, destination, amount, |logs.ToldOf(key).windows| - 1, outcome);
      SubmissionKeepsBalance(initial, before, books, logs.sent, s);
      SendsOnly(logs, s);
      logs := logs.(sent := logs.sent + [s]);
    }

    /** Time passes: unknown transfers may be applied, and money may come and go by other ways. */
    method Move()
      requires Valid() && forall i :: 0 <= i < |logs.sent| ==> 0 < logs.sent[i].amount
      modifies this`books
      ensures Valid()
    {
      hide Sound;
      var steps: nat := *;
      while steps > 0
        invariant Valid()
        decreases steps
      {
        steps := steps - 1;
        if {
          case true =>
            var i: int := *;
            if 0 <= i < |logs.sent| && logs.sent[i].outcome.Unknown?
               && books.MayApply(IdOf(logs.sent[i]), logs.sent[i].amount) {
              var s := logs.sent[i];
              LateApplicationKeepsBalance(initial, books, logs.sent, i);
              books := books.After(IdOf(s), s.destination, s.amount);
            }
          case true =>
            var account: string, amount: int := *, *;
            if 0 <= amount || 0 <= books.Held(account) + amount {
              OutsideKeepsBalance(initial, books, logs.sent, account, amount);
              books := books.Outside(account, amount);
            }
        }
      }
    }

    /** A nonce above all earlier ones: the clock is ahead of those that an earlier process drew. */
    method DrawNonce(nonces: NonceGenerator) returns (nonce: nat)
      modifies nonces
      ensures forall i :: 0 <= i < |logs.sent| ==> logs.sent[i].nonce < nonce
    {
      SomeClockIsAhead(logs.sent, nonces.last);
      var now: nat :| ClockAhead(logs.sent, nonces.last, now);
      nonce := nonces.Next(now);
    }
  }

  /** The clock has passed every nonce that the present generator does not know of. */
  predicate ClockAhead(sent: seq<Submission>, last: nat, now: nat) {
    forall i :: 0 <= i < |sent| ==> sent[i].nonce <= last || sent[i].nonce < now
  }

  lemma {:induction false} SomeClockIsAhead(sent: seq<Submission>, last: nat)
    ensures exists now: nat :: ClockAhead(sent, last, now)
  {
    if sent == [] {
      assert ClockAhead(sent, last, 0);
    } else {
      var n := |sent| - 1;
      SomeClockIsAhead(sent[..n], last);
      var now: nat :| ClockAhead(sent[..n], last, now);
      var later := if now <= sent[n].nonce then sent[n].nonce + 1 else now;
      forall i | 0 <= i < |sent|
        ensures sent[i].nonce <= last || sent[i].nonce < later
      {
        assert i < n ==> sent[..n][i] == sent[i];
      }
      assert ClockAhead(sent, last, later);
    }
  }
}
