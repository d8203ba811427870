/**
 Watching claimed rewards arrive (internal/funding/orchestrator.go, observeClaimBalances).

 The loop asks all builders in turn, attempt after attempt, and keeps its state in maps keyed by
 builder. Below, that interleaved loop is shown to do for every builder what a separate observation of
 that builder alone would do, and the separate observation is characterized on its whole trace.
 */
module Claims {
  import opened Wrappers
  import opened Funding

  const OBSERVATION_ATTEMPTS: nat := 10

  datatype Balances = Balances(total: int, available: int)

  /** claimBalanceTarget; `submitUnknown` marks a claim whose submission had no definite answer. */
  datatype Target = Target(
    before: Balances, claimableBefore: int, claimableKnown: bool, minimumIncrease: int,
    submitUnknown: bool, preStateSeen: bool)

  /** The answers one attempt would get for one builder: the balance, and the claimable if it is asked. */
  datatype Sample = Sample(balance: Option<Balances>, claimable: Option<int>)

  // ---------------------------------------------------------------- the trace property

  /** The sample shows the reward: the total rose enough and, for an unknown claim, the claimable fell. */
  ghost predicate Shows(t: Target, s: Sample) {
    && s.balance.Some?
    && t.before.total + t.minimumIncrease <= s.balance.value.total
    && (t.submitUnknown ==> t.claimableKnown && s.claimable.Some? && s.claimable.value < t.claimableBefore)
  }

  ghost predicate PreStateSeen(t: Target, samples: seq<Sample>, k: int) {
    exists j :: 0 <= j <= k && j < |samples| && samples[j].balance == Some(t.before)
  }

  ghost predicate Counts(t: Target, samples: seq<Sample>, k: int) {
    && 0 <= k < |samples| && Shows(t, samples[k])
    && (t.submitUnknown ==> PreStateSeen(t, samples, k))
  }

  /** Attempts k-1 and k both count and returned the same tuple. */
  ghost predicate Converges(t: Target, samples: seq<Sample>, k: int) {
    && Counts(t, samples, k - 1) && Counts(t, samples, k)
    && samples[k - 1].balance == samples[k].balance
  }

  ghost predicate FirstConverges(t: Target, samples: seq<Sample>, k: int) {
    Converges(t, samples, k) && forall j :: 0 <= j < k ==> !Converges(t, samples, j)
  }

  // ---------------------------------------------------------------- one builder alone

  datatype Watch = Watch(
    pending: bool, seen: bool, consecutive: nat, candidate: Option<Balances>, last: Option<Balances>)

  const START := Watch(true, false, 0, None, None)

  /** One pass of the loop body for a builder that is still pending. */
  function Look(t: Target, w: Watch, s: Sample): Watch {
    if !w.pending then w
    else if s.balance.None? then w.(consecutive := 0)
    else
      var b := s.balance.value;
      var seen := w.seen || (t.submitUnknown && b == t.before);
      var visible :=
        && t.before.total + t.minimumIncrease <= b.total
        && (t.submitUnknown ==> seen && t.claimableKnown && s.claimable.Some? && s.claimable.value < t.claimableBefore);
      var consecutive :=
        if !visible then 0 else if w.consecutive > 0 && w.candidate == Some(b) then w.consecutive + 1 else 1;
      Watch(consecutive < 2, seen, consecutive, if visible then Some(b) else w.candidate, Some(b))
  }

  function Observe(t: Target, samples: seq<Sample>): Watch {
    if samples == [] then START
    else Look(t, Observe(t, samples[..|samples| - 1]), samples[|samples| - 1])
  }

  /** The folded state says exactly what the trace property says. */
  lemma {:induction false} ObserveMeans(t: Target, samples: seq<Sample>)
    ensures var w := Observe(t, samples);
            && (w.pending <==> forall k :: 0 <= k < |samples| ==> !Converges(t, samples, k))
            && (!w.pending ==> exists k :: FirstConverges(t, samples, k) && w.last == samples[k].balance)
            && (w.pending ==> (w.seen <==> t.submitUnknown && PreStateSeen(t, samples, |samples| - 1)))
            && (w.pending ==> w.consecutive < 2)
            && (w.pending ==> (w.consecutive > 0 <==> Counts(t, samples, |samples| - 1)))
            && (w.pending && w.consecutive > 0 ==> w.candidate == samples[|samples| - 1].balance)
  {
    if samples != [] {
      var n := |samples| - 1;
      var earlier := samples[..n];
      ObserveMeans(t, earlier);
      assert forall k :: 0 <= k < n ==> (Counts(t, samples, k) <==> Counts(t, earlier, k)) by {
        forall k | 0 <= k < n
          ensures Counts(t, samples, k) <==> Counts(t, earlier, k)
        {
          PrefixKeepsSeen(t, samples, n, k);
        }
      }
      assert forall k :: 0 <= k < n ==> (Converges(t, samples, k) <==> Converges(t, earlier, k));
      SeenStep(t, samples, n);
      var w0, w := Observe(t, earlier), Observe(t, samples);
      if w0.pending {
        assert Counts(t, samples, n) <==> w.consecutive > 0;
        assert n > 0 ==> samples[n - 1] == earlier[n - 1] && (Counts(t, samples, n - 1) <==> w0.consecutive > 0);
        assert Converges(t, samples, n) <==> w.consecutive >= 2;
        assert !w.pending ==> FirstConverges(t, samples, n);
      } else {
        var k :| FirstConverges(t, earlier, k) && w0.last == earlier[k].balance;
        assert FirstConverges(t, samples, k);
      }
    }
  }

  lemma PrefixKeepsSeen(t: Target, samples: seq<Sample>, n: int, k: int)
    requires 0 <= k < n <= |samples|
    ensures PreStateSeen(t, samples, k) <==> PreStateSeen(t, samples[..n], k)
  {
    if PreStateSeen(t, samples, k) {
      var j :| 0 <= j <= k && j < |samples| && samples[j].balance == Some(t.before);
      assert samples[..n][j] == samples[j];
    }
    if PreStateSeen(t, samples[..n], k) {
      var j :| 0 <= j <= k && j < n && samples[..n][j].balance == Some(t.before);
      assert samples[j] == samples[..n][j];
    }
  }

  lemma SeenStep(t: Target, samples: seq<Sample>, n: int)
    requires 0 <= n < |samples|
    ensures PreStateSeen(t, samples, n) <==>
            PreStateSeen(t, samples[..n], n - 1) || samples[n].balance == Some(t.before)
  {
    if n > 0 {
      PrefixKeepsSeen(t, samples, n, n - 1);
    }
    if PreStateSeen(t, samples, n) {
      var j :| 0 <= j <= n && samples[j].balance == Some(t.before);
      assert j == n || PreStateSeen(t, samples, n - 1);
    }
  }

  // ---------------------------------------------------------------- the interleaved loop

  /** The loop's state: four maps keyed by builder, and the unknown claims resolved so far. */
  datatype Board = Board(
    pending: map<string, Target>, consecutive: map<string, nat>, candidates: map<string, Balances>,
    balances: map<string, Balances>, resolved: set<string>)
  {
    /** What the maps hold for a builder is the state w of its own observation. */
    ghost predicate Tracks(b: string, t: Target, w: Watch) {
      && (b in pending <==> w.pending)
      && (b in pending ==> pending[b] == t.(preStateSeen := w.seen))
      && (b in pending ==> w.consecutive == if b in consecutive then consecutive[b] else 0)
      && (b in pending && w.consecutive > 0 ==> b in candidates && w.candidate == Some(candidates[b]))
      && w.last == (if b in balances then Some(balances[b]) else None)
      && (b in resolved <==> t.submitUnknown && !w.pending)
    }

    /** Everything the maps hold for any builder but b. */
    ghost function Others(b: string): Board {
      Board(pending - {b}, consecutive - {b}, candidates - {b}, balances - {b}, resolved - {b})
    }
  }

  /** What one successful balance query does to a builder's target and counter. */
  method Judge(target: Target, count: nat, candidate: Option<Balances>, balance: Balances, claimable: Option<int>)
    returns (seen: Target, next: nat)
    ensures seen == target.(preStateSeen := target.preStateSeen || (target.submitUnknown && balance == target.before))
    ensures forall w: Watch ::
              && w.pending && w.seen == target.preStateSeen
              && w.consecutive == count && (count > 0 ==> w.candidate == candidate) ==>
                Look(target, w, Sample(Some(balance), claimable)) ==
                Watch(next < 2, seen.preStateSeen, next, if next > 0 then Some(balance) else w.candidate, Some(balance))
  {
    seen := target;
    if seen.submitUnknown && balance == seen.before {
      seen := seen.(preStateSeen := true);
    }
    var visible := seen.before.total + seen.minimumIncrease <= balance.total;
    var transitioned := !seen.submitUnknown || !seen.claimableKnown;
    if visible && seen.submitUnknown && seen.claimableKnown {
      if claimable.None? {
        return seen, 0;
      }
      transitioned := claimable.value < seen.claimableBefore;
    }
    visible := visible && transitioned;
    if seen.submitUnknown {
      visible := visible && seen.preStateSeen && seen.claimableKnown;
    }
    next := if !visible then 0 else if count > 0 && Some(balance) == candidate then count + 1 else 1;
  }

  lemma LookIgnoresSeenInTarget(t: Target, seen: bool, w: Watch, s: Sample)
    ensures Look(t.(preStateSeen := seen), w, s) == Look(t, w, s)
  {
  }

  /** The loop body for one builder at one attempt. */
  method Ask(o: Board, b: string, sample: Sample, ghost t: Target, ghost w: Watch) returns (o': Board)
    requires o.Tracks(b, t, w)
    ensures o'.Tracks(b, t, Look(t, w, sample))
    ensures o'.Others(b) == o.Others(b)
  {
    if b !in o.pending {
      return o;
    }
    if sample.balance.None? {
      UpdateLeavesOthers(o.consecutive, b, 0);
      return o.(consecutive := o.consecutive[b := 0]);
    }
    o' := Enter(o, b, sample.balance.value, sample.claimable, t, w);
    assert sample == Sample(Some(sample.balance.value), sample.claimable);
  }

  /** A balance that was read is entered into the maps. */
  method Enter(o: Board, b: string, balance: Balances, claimable: Option<int>, ghost t: Target, ghost w: Watch)
    returns (o': Board)
    requires b in o.pending && o.Tracks(b, t, w)
    ensures o'.Tracks(b, t, Look(t, w, Sample(Some(balance), claimable)))
    ensures o'.Others(b) == o.Others(b)
  {
    hide Look;
    var count := if b in o.consecutive then o.consecutive[b] else 0;
    var candidate := if b in o.candidates then Some(o.candidates[b]) else None;
    var target, next := Judge(o.pending[b], count, candidate, balance, claimable);
    LookIgnoresSeenInTarget(t, w.seen, w, Sample(Some(balance), claimable));
    UpdateLeavesOthers(o.consecutive, b, next);
    UpdateLeavesOthers(o.candidates, b, balance);
    UpdateLeavesOthers(o.balances, b, balance);
    UpdateLeavesOthers(o.pending, b, target);
    o' := Board(if next >= 2 then o.pending - {b} else o.pending[b := target],
                o.consecutive[b := next],
                if next > 0 then o.candidates[b := balance] else o.candidates,
                o.balances[b := balance],
                if next >= 2 && target.submitUnknown then o.resolved + {b} else o.resolved);
  }

  lemma UpdateLeavesOthers<V>(m: map<string, V>, b: string, v: V)
    ensures m[b := v] - {b} == m - {b} && m - {b} - {b} == m - {b}
  {
  }

  /** A step for one builder leaves every other builder's entries alone. */
  lemma OtherBuildersKept(o: Board, o': Board, b: string, c: string, t: Target, w: Watch)
    requires c != b && o'.Others(b) == o.Others(b) && o.Tracks(c, t, w)
    ensures o'.Tracks(c, t, w)
  {
    assert c in o.pending <==> c in o.Others(b).pending;
    assert c in o'.pending <==> c in o'.Others(b).pending;
    assert c in o.consecutive <==> c in o.Others(b).consecutive;
    assert c in o'.consecutive <==> c in o'.Others(b).consecutive;
    assert c in o.candidates <==> c in o.Others(b).candidates;
    assert c in o'.candidates <==> c in o'.Others(b).candidates;
    assert c in o.balances <==> c in o.Others(b).balances;
    assert c in o'.balances <==> c in o'.Others(b).balances;
    assert c in o.resolved <==> c in o.Others(b).resolved;
    assert c in o'.resolved <==> c in o'.Others(b).resolved;
  }

  /** The maps hold nothing about any builder but these. */
  ghost predicate OnlyAbout(o: Board, builders: set<string>) {
    o.pending.Keys <= builders && o.balances.Keys <= builders
  }

  lemma StaysAbout(o: Board, o': Board, b: string, builders: set<string>)
    requires OnlyAbout(o, builders) && b in builders && o'.Others(b) == o.Others(b)
    ensures OnlyAbout(o', builders)
  {
    forall c | c in o'.pending || c in o'.balances
      ensures c in builders
    {
      if c != b {
        assert c in o'.pending ==> c in o'.Others(b).pending && c in o.Others(b).pending;
        assert c in o'.balances ==> c in o'.Others(b).balances && c in o.Others(b).balances;
      }
    }
  }

  /** The builders the loop has reached are one sample ahead of the others. */
  ghost predicate InStep(
    o: Board, targets: map<string, Target>, samples: map<string, seq<Sample>>, ahead: seq<string>, n: nat)
    requires forall b :: b in targets ==> b in samples && n < |samples[b]|
  {
    && (forall b :: b in targets && b in ahead ==> o.Tracks(b, targets[b], After(targets[b], samples[b], n + 1)))
    && (forall b :: b in targets && b !in ahead ==> o.Tracks(b, targets[b], After(targets[b], samples[b], n)))
  }

  ghost predicate AllAfter(o: Board, targets: map<string, Target>, samples: map<string, seq<Sample>>, n: nat)
    requires forall b :: b in targets ==> b in samples && n <= |samples[b]|
  {
    forall b :: b in targets ==> o.Tracks(b, targets[b], After(targets[b], samples[b], n))
  }

  /**
   observeClaimBalances. Returns the latest balances, the claims that never converged, and the unknown
   claims that were resolved as successful.
   */
  method ObserveClaims(builders: seq<string>, targets: map<string, Target>, samples: map<string, seq<Sample>>)
    returns (o: Board)
    requires forall i, j :: 0 <= i < j < |builders| ==> builders[i] != builders[j]
    requires forall b :: b in targets ==> b in builders && b in samples && |samples[b]| == 10
    requires forall b :: b in targets ==> !targets[b].preStateSeen
    ensures forall b :: b in targets ==> o.Tracks(b, targets[b], Observe(targets[b], samples[b]))
    ensures OnlyAbout(o, targets.Keys)
  {
    hide Look, Observe, Board.Tracks;
    o := Board(targets, map[], map[], map[], {});
    StartIsInStep(targets, samples);
    for attempt := 0 to OBSERVATION_ATTEMPTS
      invariant AllAfter(o, targets, samples, attempt) && OnlyAbout(o, targets.Keys)
    {
      for i := 0 to |builders|
        invariant InStep(o, targets, samples, builders[..i], attempt) && OnlyAbout(o, targets.Keys)
      {
        var b := builders[i];
        assert builders[..i + 1] == builders[..i] + [b];
        assert b !in builders[..i];
        if b in targets {
          AfterStep(targets[b], samples[b], attempt);
          ghost var before := o;
          o := Ask(o, b, samples[b][attempt], targets[b], After(targets[b], samples[b], attempt));
          StaysAbout(before, o, b, targets.Keys);
          forall c, w | c in targets && c != b && before.Tracks(c, targets[c], w)
            ensures o.Tracks(c, targets[c], w)
          {
            OtherBuildersKept(before, o, b, c, targets[c], w);
          }
        }
      }
      assert builders[..|builders|] == builders;
    }
    forall b | b in targets
      ensures After(targets[b], samples[b], OBSERVATION_ATTEMPTS) == Observe(targets[b], samples[b])
    {
      assert samples[b][..OBSERVATION_ATTEMPTS] == samples[b];
    }
  }

  lemma StartIsInStep(targets: map<string, Target>, samples: map<string, seq<Sample>>)
    requires forall b :: b in targets ==> b in samples && |samples[b]| == OBSERVATION_ATTEMPTS
    requires forall b :: b in targets ==> !targets[b].preStateSeen
    ensures AllAfter(Board(targets, map[], map[], map[], {}), targets, samples, 0)
  {
    forall b | b in targets
      ensures Board(targets, map[], map[], map[], {}).Tracks(b, targets[b], After(targets[b], samples[b], 0))
    {
      AfterStart(targets[b], samples[b]);
    }
  }

  lemma AfterStart(t: Target, samples: seq<Sample>)
    ensures After(t, samples, 0) == START
  {
  }

  ghost function After(t: Target, samples: seq<Sample>, n: nat): Watch
    requires n <= |samples|
  {
    Observe(t, samples[..n])
  }

  lemma AfterStep(t: Target, samples: seq<Sample>, n: nat)
    requires n < |samples|
    ensures After(t, samples, n + 1) == Look(t, After(t, samples, n), samples[n])
  {
    assert samples[..n + 1][..n] == samples[..n];
  }

  /**
   An unknown claim is reported as successful only if, after the submission, the pre-claim tuple was seen
   again and at that point or later two adjacent attempts returned one tuple that covers the reward, each
   with a claimable below the captured one; never when no claimable was captured.
   */
  lemma ResolvedClaimsWereWitnessed(t: Target, samples: seq<Sample>)
    requires t.submitUnknown
    ensures !Observe(t, samples).pending <==>
            exists k :: 0 < k < |samples| && t.claimableKnown
                        && Shows(t, samples[k - 1]) && Shows(t, samples[k])
                        && samples[k - 1].balance == samples[k].balance
                        && PreStateSeen(t, samples, k - 1)
  {
    ObserveMeans(t, samples);
    if k :| 0 <= k < |samples| && Converges(t, samples, k) {
      assert Shows(t, samples[k]) && PreStateSeen(t, samples, k - 1);
    }
    if k :| 0 < k < |samples| && t.claimableKnown && Shows(t, samples[k - 1]) && Shows(t, samples[k])
            && samples[k - 1].balance == samples[k].balance && PreStateSeen(t, samples, k - 1) {
      assert PreStateSeen(t, samples, k);
      assert Converges(t, samples, k);
    }
  }
}
