/**
 Marking funding records as completed in MySQL under lost commit responses
 (internal/repository/mysql/repository.go, internal/repository/mysql/retry.go).

 The table maps an identifier to its status. Other writers may change any row at any time, except
 that a completed row (status 1) stays completed. The server and the driver decide every `if *`.
 */
module MySql {
  import opened Wrappers
  import opened Funding

  const COMPLETE_BATCH_SIZE: nat := 500

  /** IsRetryable decides between the two; everything else about an error is text. */
  datatype Error = Retryable | Permanent

  datatype StatusRead = ZeroIds(ids: seq<nat>) | ReadFailed(error: Error)

  datatype Completion = Completed | GaveUp(error: Error) | Cancelled

  ghost predicate Done(status: map<nat, int>, id: nat) {
    id in status && status[id] == 1
  }

  ghost predicate AllDone(status: map<nat, int>, ids: set<nat>) {
    forall id :: id in ids ==> Done(status, id)
  }

  ghost predicate DoneStays(before: map<nat, int>, after: map<nat, int>) {
    forall id :: Done(before, id) ==> Done(after, id)
  }

  ghost predicate SameRow(before: map<nat, int>, after: map<nat, int>, id: nat) {
    (id in before <==> id in after) && (id in before ==> before[id] == after[id])
  }

  /**
   Other writers aside, no row outside `ids` changed, and a row of `ids` changed only from pending to
   completed. A row that was completed meanwhile is one of `ids` or was completed by somebody else.
   */
  ghost predicate OnlyCompletes(
    before: map<nat, int>, after: map<nat, int>, ids: set<nat>, touched: set<nat>, foreign: set<nat>)
  {
    && (forall id :: id !in touched ==> SameRow(before, after, id) || (id in ids && Flipped(before, after, id)))
    && (forall id :: Done(after, id) ==> Done(before, id) || id in ids || id in foreign)
  }

  ghost predicate Flipped(before: map<nat, int>, after: map<nat, int>, id: nat) {
    id in before && before[id] == 0 && Done(after, id)
  }

  lemma NothingChanged(status: map<nat, int>, ids: set<nat>, touched: set<nat>, foreign: set<nat>)
    ensures OnlyCompletes(status, status, ids, touched, foreign)
  {
  }

  /** A row that no completion can get past: it is gone, or neither pending nor completed. */
  ghost predicate Bad(view: map<nat, int>, id: nat) {
    id !in view || (view[id] != 0 && view[id] != 1)
  }

  ghost predicate Clean(status: map<nat, int>, ids: set<nat>) {
    forall id :: id in ids ==> !Bad(status, id)
  }

  /** Rows only went from pending to completed. */
  ghost predicate Progressed(before: map<nat, int>, after: map<nat, int>) {
    forall id :: SameRow(before, after, id) || Flipped(before, after, id)
  }

  lemma ProgressedThrough(a: map<nat, int>, b: map<nat, int>, c: map<nat, int>)
    requires Progressed(a, b) && Progressed(b, c)
    ensures Progressed(a, c)
  {
    forall id
      ensures SameRow(a, c, id) || Flipped(a, c, id)
    {
      assert SameRow(a, b, id) || Flipped(a, b, id);
      assert SameRow(b, c, id) || Flipped(b, c, id);
    }
  }

  lemma ProgressKeepsClean(before: map<nat, int>, after: map<nat, int>, ids: set<nat>)
    requires Progressed(before, after) && Clean(before, ids)
    ensures Clean(after, ids)
  {
    forall id | id in ids
      ensures !Bad(after, id)
    {
      assert !Bad(before, id) && (SameRow(before, after, id) || Flipped(before, after, id));
    }
  }

  /**
   The table, and the log of what the outside did: the rows that other writers changed and completed,
   how often they interfered, what was refused, what status queries saw, and what updates left pending.
   */
  datatype Past = Past(
    status: map<nat, int>, touched: set<nat>, foreign: set<nat>, interference: nat,
    refusals: seq<Error>, views: seq<map<nat, int>>, missed: seq<set<nat>>)

  /** From p to q the service meant to complete no rows but `ids`. */
  ghost predicate Step(p: Past, q: Past, ids: set<nat>) {
    && p.touched <= q.touched && p.foreign <= q.foreign && p.interference <= q.interference
    && p.refusals <= q.refusals && p.views <= q.views && p.missed <= q.missed
    && DoneStays(p.status, q.status)
    && OnlyCompletes(p.status, q.status, ids, q.touched, q.foreign)
    && (q.interference == p.interference ==>
          Progressed(p.status, q.status) && forall k :: |p.views| <= k < |q.views| ==> Progressed(p.status, q.views[k]))
  }

  /** What can be to blame for giving up between p and q: a bad row, a row an update left, or a refusal for good. */
  ghost predicate Blamed(p: Past, q: Past, ids: set<nat>) {
    SawBad(p, q, ids) || Missed(p, q, ids) || exists k :: |p.refusals| <= k < |q.refusals| && q.refusals[k].Permanent?
  }

  ghost predicate SawBad(p: Past, q: Past, ids: set<nat>) {
    exists k, id :: |p.views| <= k < |q.views| && id in ids && Bad(q.views[k], id)
  }

  ghost predicate Missed(p: Past, q: Past, ids: set<nat>) {
    exists k, id :: |p.missed| <= k < |q.missed| && id in ids && id in q.missed[k]
  }

  /** Everything from outside that may keep rows from being completed. */
  ghost function Unrest(p: Past): nat {
    |p.refusals| + |p.missed| + p.interference
  }

  lemma StepThrough(a: Past, b: Past, c: Past, first: set<nat>, second: set<nat>, ids: set<nat>)
    requires Step(a, b, first) && Step(b, c, second) && first <= ids && second <= ids
    ensures Step(a, c, ids)
  {
    if c.interference == a.interference {
      ProgressedThrough(a.status, b.status, c.status);
      forall k | |a.views| <= k < |c.views|
        ensures Progressed(a.status, c.views[k])
      {
        if k < |b.views| {
          assert c.views[k] == b.views[k];
        } else {
          ProgressedThrough(a.status, b.status, c.views[k]);
        }
      }
    }
  }

  lemma UnrestGrows(p: Past, q: Past, ids: set<nat>)
    requires Step(p, q, ids)
    ensures Unrest(p) <= Unrest(q)
    ensures Unrest(p) == Unrest(q) ==> q.interference == p.interference
  {
  }

  lemma NoStep(p: Past, ids: set<nat>)
    ensures Step(p, p, ids)
  {
  }

  lemma WiderStep(p: Past, q: Past, ids: set<nat>, more: set<nat>)
    requires Step(p, q, ids) && ids <= more
    ensures Step(p, q, more)
  {
  }

  lemma LaterBlame(a: Past, b: Past, c: Past, ids: set<nat>, more: set<nat>)
    requires Step(a, b, more) && Blamed(b, c, ids) && ids <= more
    ensures Blamed(a, c, more)
  {
  }

  lemma EarlierBlame(a: Past, b: Past, c: Past, ids: set<nat>, more: set<nat>)
    requires Blamed(a, b, ids) && Step(b, c, more) && ids <= more
    ensures Blamed(a, c, more)
  {
    if k :| |a.refusals| <= k < |b.refusals| && b.refusals[k].Permanent? {
      assert c.refusals[k] == b.refusals[k];
    } else if k, id :| |a.views| <= k < |b.views| && id in ids && Bad(b.views[k], id) {
      assert c.views[k] == b.views[k];
    } else {
      var k, id :| |a.missed| <= k < |b.missed| && id in ids && id in b.missed[k];
      assert c.missed[k] == b.missed[k];
    }
  }

  /** With clean rows and nobody interfering, refusing or missing anything, nothing can be to blame. */
  lemma NothingToBlame(p: Past, q: Past, ids: set<nat>)
    requires Step(p, q, ids) && Unrest(p) == Unrest(q) && Clean(p.status, ids)
    ensures !Blamed(p, q, ids) && q.refusals == p.refusals
  {
    forall k, id | |p.views| <= k < |q.views| && id in ids
      ensures !Bad(q.views[k], id)
    {
      ProgressKeepsClean(p.status, q.views[k], ids);
    }
  }

  ghost function Elements(ids: seq<nat>): set<nat> {
    set id | id in ids
  }

  /** The entries of `unique` stand at the increasing positions `at` of `ids`, each the first with its value. */
  ghost predicate FirstOccurrences(ids: seq<nat>, unique: seq<nat>, at: seq<nat>) {
    && |at| == |unique|
    && (forall k :: 0 <= k < |at| ==> at[k] < |ids| && ids[at[k]] == unique[k])
    && (forall k, l :: 0 <= k < l < |at| ==> at[k] < at[l])
    && (forall k, l :: 0 <= k < |at| && 0 <= l < at[k] < |ids| ==> ids[l] != ids[at[k]])
  }

  /** uniqueIDs keeps the first occurrence of every identifier. */
  method UniqueIds(ids: seq<nat>) returns (unique: seq<nat>, ghost at: seq<nat>)
    ensures Elements(unique) == Elements(ids)
    ensures forall i, j :: 0 <= i < j < |unique| ==> unique[i] != unique[j]
    ensures FirstOccurrences(ids, unique, at)
  {
    unique, at := [], [];
    var seen: set<nat> := {};
    for i := 0 to |ids|
      invariant seen == Elements(unique) == Elements(ids[..i])
      invariant forall a, b :: 0 <= a < b < |unique| ==> unique[a] != unique[b]
      invariant FirstOccurrences(ids, unique, at) && (forall k :: 0 <= k < |at| ==> at[k] < i)
    {
      assert ids[..i + 1] == ids[..i] + [ids[i]];
      if ids[i] !in seen {
        seen := seen + {ids[i]};
        unique, at := unique + [ids[i]], at + [i];
      }
    }
    assert ids[..|ids|] == ids;
  }

  class Repository {
    var status: map<nat, int>
    ghost var touched: set<nat>
    ghost var foreign: set<nat>
    ghost var interference: nat
    ghost var refusals: seq<Error>
    ghost var views: seq<map<nat, int>>
    ghost var missed: seq<set<nat>>
    /** The transactions that were begun, and the commits that got no answer. */
    ghost var begun: seq<Begun>
    ghost var doubts: seq<Doubt>

    constructor (rows: map<nat, int>)
      ensures Now() == Past(rows, {}, {}, 0, [], [], [])
    {
      status, touched, foreign, interference, refusals, views, missed := rows, {}, {}, 0, [], [], [];
      begun, doubts := [], [];
    }

    ghost function Now(): Past
      reads this
    {
      Past(status, touched, foreign, interference, refusals, views, missed)
    }

    // ------------------------------------------------------------ the outside

    method OtherWriters()
      modifies this`status, this`touched, this`foreign, this`interference
      ensures Step(old(Now()), Now(), {})
      ensures interference == old(interference) ==> status == old(status)
    {
      var rows: map<nat, int> := *;
      if forall id :: id in status && status[id] == 1 ==> id in rows && rows[id] == 1 {
        touched := touched + set id | id in status.Keys + rows.Keys && !SameRow(status, rows, id);
        foreign := foreign + set id | id in rows && Done(rows, id) && !Done(status, id);
        if rows != status {
          interference := interference + 1;
        }
        status := rows;
      }
    }

    /** The server, the driver or the context may refuse anything. */
    method Refused() returns (e: Option<Error>)
      modifies this`refusals
      ensures refusals == if e.Some? then old(refusals) + [e.value] else old(refusals)
    {
      e := *;
      if e.Some? {
        refusals := refusals + [e.value];
      }
    }

    /** BEGIN. What the transaction is for goes on record. */
    method Begin(ids: seq<nat>) returns (e: Option<Error>)
      modifies this`refusals, this`begun
      ensures refusals == if e.Some? then old(refusals) + [e.value] else old(refusals)
      ensures begun == if e.Some? then old(begun) else old(begun) + [Begun(Elements(ids), |views|, |doubts|)]
    {
      e := Refused();
      if e.None? {
        begun := begun + [Begun(Elements(ids), |views|, |doubts|)];
      }
    }

    /** COMMIT. Without an answer it may have been applied or not. */
    method Commit(tx: map<nat, int>) returns (e: Option<Error>)
      modifies this`status, this`refusals, this`doubts
      ensures refusals == if e.Some? then old(refusals) + [e.value] else old(refusals)
      ensures status == tx || (e.Some? && status == old(status))
      ensures doubts == if e.Some? then old(doubts) + [Doubt(|views|, |refusals|)] else old(doubts)
    {
      e := Refused();
      if e.Some? {
        doubts := doubts + [Doubt(|views|, |refusals|)];
      }
      var applied: bool := *;
      if e.None? || applied {
        status := tx;
      }
    }

    /** A status query, in a transaction that sees `tx` or on the pool, where other writers may come first. */
    method Query(tx: Option<map<nat, int>>) returns (view: map<nat, int>, e: Option<Error>)
      modifies this`status, this`touched, this`foreign, this`interference, this`refusals, this`views
      ensures Now() == old(Now()).(status := status, touched := touched, foreign := foreign,
                                   interference := interference, refusals := refusals, views := views)
      ensures tx.None? ==> Step(old(Now()), Now(), {})
      ensures tx.Some? ==> Now() == old(Now()).(refusals := refusals, views := views)
      ensures interference == old(interference) ==> status == old(status)
      ensures refusals == if e.Some? then old(refusals) + [e.value] else old(refusals)
      ensures views == if e.Some? then old(views) else old(views) + [view]
      ensures view == if tx.Some? then tx.value else status
    {
      NoStep(Now(), {});
      if tx.None? {
        OtherWriters();
      }
      view := if tx.Some? then tx.value else status;
      e := Refused();
      if e.None? {
        views := views + [view];
      }
    }

    /** One UPDATE on a transaction's view; rows of the batch it leaves pending are recorded. */
    method Update(tx: map<nat, int>, batch: seq<nat>) returns (tx': map<nat, int>)
      modifies this`missed
      ensures Progressed(tx, tx') && DoneStays(tx, tx') && forall id :: id !in batch ==> SameRow(tx, tx', id)
      ensures old(missed) <= missed
      ensures forall id :: id in batch && id in tx && tx[id] == 0 ==>
                Done(tx', id) || (|missed| == |old(missed)| + 1 && id in missed[|old(missed)|])
    {
      var left: set<nat> := *;
      left := set id | id in left && id in batch && id in tx && tx[id] == 0;
      tx' := map id | id in tx :: if id in batch && tx[id] == 0 && id !in left then 1 else tx[id];
      if left != {} {
        missed := missed + [left];
      }
    }

    // ------------------------------------------------------------ the service

    /**
     readStatuses, inside a transaction (`tx` holds its view) or on the pool, where other writers run
     between the batches. A missing row or an unexpected status is a permanent error, and nothing else of
     the table is.
     */
    method ReadStatuses(ids: seq<nat>, tx: Option<map<nat, int>>) returns (r: StatusRead)
      modifies this`status, this`touched, this`foreign, this`interference, this`refusals, this`views
      ensures tx.None? ==> Step(old(Now()), Now(), {})
      ensures tx.Some? ==>
                && Now() == old(Now()).(refusals := refusals, views := views) && old(views) <= views
                && (forall k :: |old(views)| <= k < |views| ==> views[k] == tx.value)
      ensures missed == old(missed)
      ensures r.ReadFailed? ==>
                || refusals == old(refusals) + [r.error]
                || (refusals == old(refusals) && r.error.Permanent? && SawBad(old(Now()), Now(), Elements(ids)))
      ensures r.ZeroIds? ==> refusals == old(refusals) && Elements(r.ids) <= Elements(ids)
      ensures r.ZeroIds? ==>
                AllDone(if tx.Some? then tx.value else status, Elements(ids) - Elements(r.ids))
      ensures r.ZeroIds? ==> SeenPending(old(Now()), Now(), r.ids)
      ensures r.ZeroIds? && ids != [] ==> |old(views)| < |views|
    {
      hide Step, Progressed, AllDone, Elements, DoneStays, SeenPending;
      NoStep(Now(), {});
      NothingRead(ids, if tx.Some? then tx.value else status, old(Now()));
      var zeroIds: seq<nat> := [];
      var start := 0;
      while start < |ids|
        invariant 0 <= start <= |ids|
        invariant tx.None? ==> Step(old(Now()), Now(), {})
        invariant tx.Some? ==>
                    && Now() == old(Now()).(refusals := refusals, views := views) && old(views) <= views
                    && (forall k :: |old(views)| <= k < |views| ==> views[k] == tx.value)
        invariant missed == old(missed) && refusals == old(refusals) && |old(views)| <= |views|
        invariant Elements(zeroIds) <= Elements(ids[..start])
        invariant AllDone(if tx.Some? then tx.value else status, Elements(ids[..start]) - Elements(zeroIds))
        invariant SeenPending(old(Now()), Now(), zeroIds) && (start > 0 ==> |old(views)| < |views|)
      {
        var end := if start + COMPLETE_BATCH_SIZE <= |ids| then start + COMPLETE_BATCH_SIZE else |ids|;
        ghost var before := Now();
        var view, e := Query(tx);
        SameStays(view);
        if tx.None? {
          StepThrough(old(Now()), before, Now(), {}, {}, {});
          StepMeans(before, Now(), {});
        } else {
          assert view == tx.value;
        }
        StillDone(if tx.Some? then view else before.status, view, ids[..start], zeroIds);
        if e.Some? {
          return ReadFailed(e.value);
        }
        var batch := ReadBatch(view, ids[start..end]);
        if batch.ReadFailed? {
          BadIn(view, ids, start, end, old(Now()), Now());
          assert views[|views| - 1] == view;
          return batch;
        }
        StaysSeen(old(Now()), before, Now(), zeroIds);
        JustSeen(old(Now()), Now(), batch.ids);
        BatchAdds(if tx.Some? then tx.value else before.status, view, ids, start, end, zeroIds, batch.ids);
        BothSeen(old(Now()), Now(), zeroIds, batch.ids);
        zeroIds := zeroIds + batch.ids;
        start := end;
      }
      assert ids[..|ids|] == ids;
      return ZeroIds(zeroIds);
    }

    /** The switch over the statuses of one batch. */
    method ReadBatch(view: map<nat, int>, batch: seq<nat>) returns (r: StatusRead)
      ensures r.ReadFailed? <==> exists id :: id in Elements(batch) && Bad(view, id)
      ensures r.ReadFailed? ==> r.error.Permanent?
      ensures r.ZeroIds? ==> forall id :: id in r.ids ==> id in batch && id in view && view[id] == 0
      ensures r.ZeroIds? ==> forall id :: id in batch ==> id in r.ids || Done(view, id)
    {
      var zeroIds: seq<nat> := [];
      for i := 0 to |batch|
        invariant forall id :: id in zeroIds ==> id in batch && id in view && view[id] == 0
        invariant forall id :: id in batch[..i] ==> id in zeroIds || Done(view, id)
      {
        assert batch[..i + 1] == batch[..i] + [batch[i]];
        assert batch[i] in Elements(batch);
        if batch[i] !in view {
          return ReadFailed(Permanent);
        }
        if view[batch[i]] == 0 {
          zeroIds := zeroIds + [batch[i]];
        } else if view[batch[i]] != 1 {
          return ReadFailed(Permanent);
        }
      }
      return ZeroIds(zeroIds);
    }

    /**
     completeTransaction. An update may leave any part of its batch; the status check inside the
     transaction is what makes the commit all-or-nothing for the manifest.
     */
    method CompleteTransaction(ids: seq<nat>) returns (commitAttempted: bool, err: Option<Error>)
      modifies this
      ensures Step(old(Now()), Now(), Elements(ids))
      ensures !commitAttempted ==> err.Some? && Step(old(Now()), Now(), {})
      ensures err.None? ==> refusals == old(refusals) && AllDone(status, Elements(ids))
      ensures err.Some? ==>
                || refusals == old(refusals) + [err.value]
                || (refusals == old(refusals) && err.value.Permanent? && !commitAttempted
                    && (SawBad(old(Now()), Now(), Elements(ids)) || Missed(old(Now()), Now(), Elements(ids))))
      ensures begun == old(begun) || begun == old(begun) + [Begun(Elements(ids), |old(views)|, |old(doubts)|)]
      ensures commitAttempted ==> begun != old(begun)
      ensures commitAttempted && ids != [] ==>
                |old(views)| < |views| && AllDone(views[|views| - 1], Elements(ids))
      ensures doubts == if commitAttempted && err.Some? then old(doubts) + [Doubt(|views|, |refusals|)]
                        else old(doubts)
    {
      hide Step, Progressed, OnlyCompletes;
      OtherWriters();
      ghost var p := Now();
      WiderStep(old(Now()), p, {}, Elements(ids));
      var e := Begin(ids);
      MoreTold(old(Now()), p, Now(), Elements(ids));
      MoreTold(old(Now()), p, Now(), {});
      if e.Some? {
        return false, e;
      }
      var tx;
      tx, e := UpdateRows(ids);
      StepMeans(old(Now()), p, {});
      MoreTold(old(Now()), p, Now(), Elements(ids));
      MoreTold(old(Now()), p, Now(), {});
      if e.Some? {
        return false, e;
      }
      ghost var q := Now();
      var read := ReadStatuses(ids, Some(tx));
      TransactionStep(old(Now()), p, Now(), tx, Elements(ids));
      if read.ReadFailed? {
        return false, Some(read.error);
      }
      if |read.ids| != 0 {
        StillPending(p, q, Now(), tx, read.ids, ids);
        return false, Some(Permanent);
      }
      ghost var open := status;
      e := Commit(tx);
      TransactionStep(old(Now()), p, Now().(status := open), tx, Elements(ids));
      return true, e;
    }

    /** The updates of the transaction on its own view of the table, batch by batch. */
    method UpdateRows(ids: seq<nat>) returns (view: map<nat, int>, e: Option<Error>)
      modifies this`refusals, this`missed
      ensures DoneStays(status, view) && Progressed(status, view)
      ensures OnlyCompletes(status, view, Elements(ids), touched, foreign)
      ensures refusals == if e.Some? then old(refusals) + [e.value] else old(refusals)
      ensures old(missed) <= missed
      ensures e.None? ==>
                forall id :: id in ids && id in view && view[id] == 0 ==> Missed(old(Now()), Now(), {id})
    {
      e := None;
      view := status;
      var start := 0;
      while start < |ids|
        invariant 0 <= start <= |ids| && refusals == old(refusals) && e.None?
        invariant DoneStays(status, view) && Progressed(status, view) && old(missed) <= missed
        invariant forall id :: id !in ids ==> SameRow(status, view, id)
        invariant forall id :: id in ids[..start] && id in view && view[id] == 0 ==> Missed(old(Now()), Now(), {id})
      {
        var end := if start + COMPLETE_BATCH_SIZE <= |ids| then start + COMPLETE_BATCH_SIZE else |ids|;
        e := Refused();
        if e.Some? {
          return;  // execution, affected-row count out of range
        }
        ghost var before, was := view, Now();
        view := Update(view, ids[start..end]);
        ProgressedThrough(status, before, view);
        assert ids[..end] == ids[..start] + ids[start..end];
        forall id | id in ids[..end] && id in view && view[id] == 0
          ensures Missed(old(Now()), Now(), {id})
        {
          PendingWasMissed(before, view, old(Now()), was, Now(), id, id in ids[start..end]);
        }
        assert forall id :: id in ids[start..end] ==> id in ids;
        forall id | id !in ids
          ensures SameRow(status, view, id)
        {
          assert SameRow(status, before, id) && SameRow(before, view, id);
        }
        start := end;
      }
      assert ids[..|ids|] == ids;
    }

    /**
     The closure of Complete: one attempt. After a commit without an answer no transaction is begun until all
     rows have been read back, and then only for rows that were seen pending. `first` counts the doubts there
     were before Complete.
     */
    method Attempt(
      manifestIds: seq<nat>, remaining: seq<nat>, resolveCommit: bool, commitErr: Error, ghost first: nat)
      returns (err: Option<Error>, remaining': seq<nat>, resolveCommit': bool, commitErr': Error)
      requires Elements(remaining) <= Elements(manifestIds)
      requires AllDone(status, Elements(manifestIds) - Elements(remaining))
      requires first <= |doubts| && InOrder(doubts, first, |views|)
      requires !resolveCommit ==> Known(doubts, first, views, Elements(remaining))
      modifies this
      ensures old(doubts) <= doubts && old(begun) <= begun && InOrder(doubts, first, |views|)
      ensures Careful(begun, |old(begun)|, doubts, first, views)
      ensures err.Some? && !resolveCommit' ==> Known(doubts, first, views, Elements(remaining'))
      ensures resolveCommit' && doubts == old(doubts) ==> resolveCommit && begun == old(begun)
      ensures resolveCommit' && doubts != old(doubts) && err.Some? && err.value.Retryable? ==>
                doubts[|doubts| - 1].refusals < |refusals|
      ensures Step(old(Now()), Now(), Elements(manifestIds))
      ensures Elements(remaining') <= Elements(manifestIds)
      ensures AllDone(status, Elements(manifestIds) - Elements(remaining'))
      ensures err.None? ==> AllDone(status, Elements(manifestIds))
      ensures err.Some? && err.value.Retryable? ==> |old(refusals)| < |refusals| || resolveCommit
      ensures err.Some? && err.value.Permanent? ==>
                || Blamed(old(Now()), Now(), Elements(manifestIds))
                || (resolveCommit && commitErr.Permanent?)
      ensures resolveCommit' && !resolveCommit ==> |old(refusals)| < |refusals|
      ensures resolveCommit' && commitErr'.Permanent? && !(resolveCommit && commitErr.Permanent?) ==>
                Blamed(old(Now()), Now(), Elements(manifestIds))
    {
      hide Step, Progressed, OnlyCompletes, PendingBetween, SeenPending, Careful, Known, Blamed;
      remaining', resolveCommit', commitErr' := remaining, resolveCommit, commitErr;
      ghost var p, all := Now(), Elements(manifestIds);
      NoStep(p, all);
      if resolveCommit {
        var done;
        done, err, remaining' := ReadBack(manifestIds, remaining, commitErr);
        StepMeans(p, Now(), all);
        NothingBegun(begun, doubts, first, views);
        if done {
          return;
        }
        NowKnown(p, Now(), doubts, first, remaining');
      }
      ghost var q := Now();
      err, remaining', resolveCommit', commitErr' := TryRemaining(manifestIds, remaining', commitErr, first);
      StepThrough(p, q, Now(), all, all, all);
      StepMeans(p, q, all);
      StillBlamed(p, q, Now(), all);
    }

    /** The second half of an attempt: a transaction for the remaining rows, and what its commit calls for. */
    method TryRemaining(manifestIds: seq<nat>, remaining: seq<nat>, commitErr: Error, ghost first: nat)
      returns (err: Option<Error>, remaining': seq<nat>, resolveCommit: bool, commitErr': Error)
      requires Elements(remaining) <= Elements(manifestIds)
      requires AllDone(status, Elements(manifestIds) - Elements(remaining))
      requires first <= |doubts| && InOrder(doubts, first, |views|)
      requires Known(doubts, first, views, Elements(remaining))
      modifies this
      ensures old(doubts) <= doubts && old(begun) <= begun && InOrder(doubts, first, |views|)
      ensures Careful(begun, |old(begun)|, doubts, first, views)
      ensures err.Some? && !resolveCommit ==> Known(doubts, first, views, Elements(remaining'))
      ensures resolveCommit ==> doubts != old(doubts)
      ensures resolveCommit && err.Some? && err.value.Retryable? ==> doubts[|doubts| - 1].refusals < |refusals|
      ensures Step(old(Now()), Now(), Elements(manifestIds))
      ensures Elements(remaining') <= Elements(manifestIds)
      ensures AllDone(status, Elements(manifestIds) - Elements(remaining'))
      ensures err.None? ==> AllDone(status, Elements(manifestIds))
      ensures (err.Some? && err.value.Retryable?) || resolveCommit ==> |old(refusals)| < |refusals|
      ensures (err.Some? && err.value.Permanent?) || (resolveCommit && commitErr'.Permanent?) ==>
                Blamed(old(Now()), Now(), Elements(manifestIds))
    {
      hide Step, Progressed, OnlyCompletes, PendingBetween, SeenPending, Careful, Known, SawBad, Missed;
      remaining', resolveCommit, commitErr' := remaining, false, commitErr;
      ghost var p, all, begun0, doubts0 := Now(), Elements(manifestIds), begun, doubts;
      NoStep(p, all);
      var commitAttempted;
      commitAttempted, err := CompleteTransaction(remaining);
      StepMeans(p, Now(), Elements(remaining));
      WiderStep(p, Now(), Elements(remaining), all);
      BegunCarefully(begun0, begun, doubts0, doubts, first, p.views, views, Elements(remaining));
      StillKnown(doubts0, doubts, first, p.views, views, Elements(remaining));
      if err.None? {
        return;
      }
      if err.value.Permanent? {
        assert refusals == p.refusals + [err.value] ==> refusals[|p.refusals|].Permanent?;
        LaterBlame(p, p, Now(), Elements(remaining), all);
      }
      if !commitAttempted {
        return;
      }
      // The commit may have reached the server: only rows read back as zero may be tried again.
      resolveCommit, commitErr' := true, err.value;
      ghost var t := Now();
      var done, e, zeroIds := ReadBack(manifestIds, remaining, commitErr');
      StepThrough(p, t, Now(), all, all, all);
      StepMeans(t, Now(), all);
      StillBlamed(p, t, Now(), all);
      NothingBegun(begun, doubts, first, views);
      StillCareful(begun, begun, |begun0|, doubts, doubts, first, t.views, views);
      remaining' := zeroIds;
      if done {
        err := e;
        return;
      }
      resolveCommit := false;
      NowKnown(t, Now(), doubts, first, remaining');
    }

    /** Reading back after a commit without an answer. `done` ends the attempt with the error, if there is one. */
    method ReadBack(manifestIds: seq<nat>, remaining: seq<nat>, commitErr: Error)
      returns (done: bool, err: Option<Error>, zeroIds: seq<nat>)
      requires Elements(remaining) <= Elements(manifestIds)
      requires AllDone(status, Elements(manifestIds) - Elements(remaining))
      modifies this`status, this`touched, this`foreign, this`interference, this`refusals, this`views
      ensures Step(old(Now()), Now(), Elements(manifestIds))
      ensures Elements(zeroIds) <= Elements(manifestIds)
      ensures AllDone(status, Elements(manifestIds) - Elements(zeroIds))
      ensures done && err.None? ==> AllDone(status, Elements(manifestIds))
      ensures done && err.Some? && err.value.Retryable? ==> |old(refusals)| < |refusals|
      ensures done && err.Some? && err.value.Permanent? ==>
                Blamed(old(Now()), Now(), Elements(manifestIds)) || commitErr.Permanent?
      ensures !done ==> commitErr.Retryable? && SeenPending(old(Now()), Now(), zeroIds)
    {
      hide Step, Progressed, OnlyCompletes;
      var read := ReadStatuses(manifestIds, None);
      StepMeans(old(Now()), Now(), {});
      WiderStep(old(Now()), Now(), {}, Elements(manifestIds));
      if read.ReadFailed? {
        assert read.error.Permanent? && refusals == old(refusals) + [read.error] ==>
            refusals[|old(refusals)|].Permanent?;
        return true, Some(read.error), remaining;
      }
      if |read.ids| == 0 {
        return true, None, read.ids;
      }
      if !commitErr.Retryable? {
        return true, Some(commitErr), read.ids;
      }
      return false, None, read.ids;
    }

    /**
     Complete, driven by Retryer.Do. The retry loop has no attempt limit and only the task context
     ends it; `patience` is the number of attempts after which the context is cancelled.
     */
    method Complete(ids: seq<nat>, patience: nat) returns (r: Completion)
      modifies this
      ensures r.Completed? ==> AllDone(status, Elements(ids))
      ensures Step(old(Now()), Now(), Elements(ids))
      ensures r.GaveUp? ==> r.error == Permanent && Blamed(old(Now()), Now(), Elements(ids))
      ensures r.Cancelled? && 0 < patience ==> |old(refusals)| < |refusals|
      ensures 0 < patience && Unrest(old(Now())) == Unrest(Now()) && Clean(old(status), Elements(ids)) ==>
                r.Completed?
      ensures Careful(begun, |old(begun)|, doubts, |old(doubts)|, views)
    {
      hide Step, Progressed, OnlyCompletes, Blamed, Unrest;
      ghost var p := Now();
      NoStep(p, Elements(ids));
      var manifestIds;
      ghost var at;
      manifestIds, at := UniqueIds(ids);
      if |manifestIds| == 0 {
        return Completed;
      }
      var remaining := manifestIds;
      var resolveCommit, commitErr := false, Permanent;
      var attempts := 0;
      while attempts < patience
        invariant attempts <= patience && Elements(manifestIds) == Elements(ids)
        invariant Elements(remaining) <= Elements(ids)
        invariant AllDone(status, Elements(ids) - Elements(remaining))
        invariant Step(p, Now(), Elements(ids))
        invariant attempts > 0 || resolveCommit ==> |p.refusals| < |refusals|
        invariant resolveCommit && commitErr.Permanent? ==> Blamed(p, Now(), Elements(ids))
        invariant old(doubts) <= doubts && old(begun) <= begun && InOrder(doubts, |old(doubts)|, |views|)
        invariant !resolveCommit ==> Known(doubts, |old(doubts)|, views, Elements(remaining))
        invariant Careful(begun, |old(begun)|, doubts, |old(doubts)|, views)
        decreases patience - attempts
      {
        attempts := attempts + 1;
        ghost var q, begun0, doubts0 := Now(), begun, doubts;
        var err;
        err, remaining, resolveCommit, commitErr :=
          Attempt(manifestIds, remaining, resolveCommit, commitErr, |old(doubts)|);
        StepThrough(p, q, Now(), Elements(ids), Elements(ids), Elements(ids));
        StepMeans(p, q, Elements(ids));
        StepMeans(q, Now(), Elements(ids));
        StillCareful(begun0, begun, |old(begun)|, doubts0, doubts, |old(doubts)|, q.views, views);
        StillBlamed(p, q, Now(), Elements(ids));
        if err.None? {
          return Completed;
        }
        if err.value.Permanent? {
          if Unrest(p) == Unrest(Now()) && Clean(p.status, Elements(ids)) {
            NothingToBlame(p, Now(), Elements(ids));
          }
          return GaveUp(err.value);
        }
      }
      if Unrest(p) == Unrest(Now()) && Clean(p.status, Elements(ids)) {
        NothingToBlame(p, Now(), Elements(ids));
      }
      return Cancelled;
    }
  }

  /** Each of the rows was pending in some status query between p and q. */
  ghost predicate SeenPending(p: Past, q: Past, ids: seq<nat>) {
    forall id :: id in ids ==> exists k :: |p.views| <= k < |q.views| && id in q.views[k] && q.views[k][id] == 0
  }

  /** A transaction that was begun: what for, and after how many status queries and doubts. */
  datatype Begun = Begun(ids: set<nat>, views: nat, doubts: nat)

  /** A commit without an answer, after so many status queries and refusals. */
  datatype Doubt = Doubt(views: nat, refusals: nat)

  ghost predicate InOrder(doubts: seq<Doubt>, first: nat, views: nat) {
    forall i :: first <= i < |doubts| ==> doubts[i].views <= views
  }

  /** Each of the rows was seen pending by one of the status queries from `lo` up to `hi`. */
  ghost predicate PendingBetween(views: seq<map<nat, int>>, lo: nat, hi: nat, ids: set<nat>) {
    forall id :: id in ids ==> exists k :: lo <= k < hi && k < |views| && id in views[k] && views[k][id] == 0
  }

  /** Each of the rows was seen pending after the latest doubt, if there was one. */
  ghost predicate Known(doubts: seq<Doubt>, first: nat, views: seq<map<nat, int>>, ids: set<nat>) {
    first < |doubts| ==> PendingBetween(views, doubts[|doubts| - 1].views, |views|, ids)
  }

  /** After a commit without an answer a transaction is begun only for rows that were seen pending since. */
  ghost predicate Careful(
    begun: seq<Begun>, start: nat, doubts: seq<Doubt>, first: nat, views: seq<map<nat, int>>)
  {
    forall i :: start <= i < |begun| ==>
      && begun[i].doubts <= |doubts|
      && (first < begun[i].doubts ==>
            PendingBetween(views, doubts[begun[i].doubts - 1].views, begun[i].views, begun[i].ids))
  }

  lemma StillBetween(views: seq<map<nat, int>>, views': seq<map<nat, int>>, lo: nat, hi: nat, hi': nat, ids: set<nat>)
    requires PendingBetween(views, lo, hi, ids) && views <= views' && hi <= hi'
    ensures PendingBetween(views', lo, hi', ids)
  {
    forall id | id in ids
      ensures exists k :: lo <= k < hi' && k < |views'| && id in views'[k] && views'[k][id] == 0
    {
      var k :| lo <= k < hi && k < |views| && id in views[k] && views[k][id] == 0;
      assert views'[k] == views[k];
    }
  }

  lemma SeenBetween(p: Past, q: Past, lo: nat, ids: seq<nat>)
    requires SeenPending(p, q, ids) && lo <= |p.views|
    ensures PendingBetween(q.views, lo, |q.views|, Elements(ids))
  {
  }

  /** What was read back as pending is known to have been pending after every doubt so far. */
  lemma NowKnown(p: Past, q: Past, doubts: seq<Doubt>, first: nat, ids: seq<nat>)
    requires SeenPending(p, q, ids) && InOrder(doubts, first, |p.views|)
    ensures Known(doubts, first, q.views, Elements(ids))
  {
    if first < |doubts| {
      SeenBetween(p, q, doubts[|doubts| - 1].views, ids);
    }
  }

  lemma StillKnown(
    doubts: seq<Doubt>, doubts': seq<Doubt>, first: nat, views: seq<map<nat, int>>, views': seq<map<nat, int>>,
    ids: set<nat>)
    requires Known(doubts, first, views, ids) && views <= views'
    ensures doubts' == doubts ==> Known(doubts', first, views', ids)
  {
    hide PendingBetween;
    if first < |doubts| {
      StillBetween(views, views', doubts[|doubts| - 1].views, |views|, |views'|, ids);
    }
  }

  lemma NothingBegun(begun: seq<Begun>, doubts: seq<Doubt>, first: nat, views: seq<map<nat, int>>)
    ensures Careful(begun, |begun|, doubts, first, views)
  {
  }

  lemma BegunCarefully(
    begun: seq<Begun>, begun': seq<Begun>, doubts: seq<Doubt>, doubts': seq<Doubt>, first: nat,
    views: seq<map<nat, int>>, views': seq<map<nat, int>>, ids: set<nat>)
    requires begun' == begun || begun' == begun + [Begun(ids, |views|, |doubts|)]
    requires Known(doubts, first, views, ids) && doubts <= doubts' && views <= views'
    ensures Careful(begun', |begun|, doubts', first, views')
  {
    hide PendingBetween;
    if first < |doubts| {
      StillBetween(views, views', doubts[|doubts| - 1].views, |views|, |views|, ids);
    }
  }

  lemma StillCareful(
    begun: seq<Begun>, begun': seq<Begun>, start: nat, doubts: seq<Doubt>, doubts': seq<Doubt>, first: nat,
    views: seq<map<nat, int>>, views': seq<map<nat, int>>)
    requires start <= |begun| && begun <= begun' && doubts <= doubts' && views <= views'
    requires Careful(begun, start, doubts, first, views)
    requires Careful(begun', |begun|, doubts', first, views')
    ensures Careful(begun', start, doubts', first, views')
  {
    hide PendingBetween;
    forall i | start <= i < |begun|
      ensures begun'[i].doubts <= |doubts'|
      ensures first < begun'[i].doubts ==>
                PendingBetween(views', doubts'[begun'[i].doubts - 1].views, begun'[i].views, begun'[i].ids)
    {
      if first < begun[i].doubts {
        var b := begun[i];
        StillBetween(views, views', doubts[b.doubts - 1].views, b.views, b.views, b.ids);
      }
    }
  }

  lemma StaysSeen(p: Past, q: Past, t: Past, ids: seq<nat>)
    requires SeenPending(p, q, ids) && q.views <= t.views
    ensures SeenPending(p, t, ids)
  {
    forall id | id in ids
      ensures exists k :: |p.views| <= k < |t.views| && id in t.views[k] && t.views[k][id] == 0
    {
      var k :| |p.views| <= k < |q.views| && id in q.views[k] && q.views[k][id] == 0;
      assert t.views[k] == q.views[k];
    }
  }

  lemma JustSeen(p: Past, q: Past, ids: seq<nat>)
    requires |p.views| < |q.views|
    requires forall id :: id in ids ==> id in q.views[|q.views| - 1] && q.views[|q.views| - 1][id] == 0
    ensures SeenPending(p, q, ids)
  {
  }

  lemma StillBlamed(p: Past, q: Past, t: Past, ids: set<nat>)
    requires Step(p, q, ids) && Step(q, t, ids)
    ensures Blamed(p, q, ids) || Blamed(q, t, ids) ==> Blamed(p, t, ids)
  {
    if Blamed(p, q, ids) {
      EarlierBlame(p, q, t, ids, ids);
    } else if Blamed(q, t, ids) {
      LaterBlame(p, q, t, ids, ids);
    }
  }

  lemma StepMeans(p: Past, q: Past, ids: set<nat>)
    requires Step(p, q, ids)
    ensures p.touched <= q.touched && p.foreign <= q.foreign && p.interference <= q.interference
    ensures p.refusals <= q.refusals && p.views <= q.views && p.missed <= q.missed
    ensures DoneStays(p.status, q.status) && OnlyCompletes(p.status, q.status, ids, q.touched, q.foreign)
    ensures q.interference == p.interference ==> Progressed(p.status, q.status)
  {
  }

  /** Being refused or leaving rows pending is no step of the table. */
  lemma MoreTold(p: Past, q: Past, t: Past, ids: set<nat>)
    requires Step(p, q, ids) && t == q.(refusals := t.refusals, missed := t.missed)
    requires q.refusals <= t.refusals && q.missed <= t.missed
    ensures Step(p, t, ids)
  {
  }

  /** Inside a transaction the table stands still; committing its view completes rows of `ids` and no others. */
  lemma TransactionStep(p: Past, q: Past, t: Past, tx: map<nat, int>, ids: set<nat>)
    requires Step(p, q, {}) && t == q.(refusals := t.refusals, missed := t.missed, views := t.views)
    requires q.refusals <= t.refusals && q.missed <= t.missed && q.views <= t.views
    requires forall k :: |q.views| <= k < |t.views| ==> t.views[k] == tx
    requires DoneStays(q.status, tx) && Progressed(q.status, tx)
    requires OnlyCompletes(q.status, tx, ids, q.touched, q.foreign)
    ensures Step(p, t, {}) && Step(p, t, ids) && Step(p, t.(status := tx), ids)
  {
    var done := t.(status := tx);
    assert Step(q, t, {}) by {
      forall k | |q.views| <= k < |t.views|
        ensures Progressed(q.status, t.views[k])
      {
      }
      NoStep(q, {});
    }
    StepThrough(p, q, t, {}, {}, {});
    WiderStep(p, t, {}, ids);
    assert Step(q, done, ids) by {
      forall k | |q.views| <= k < |done.views|
        ensures Progressed(q.status, done.views[k])
      {
      }
    }
    StepThrough(p, q, done, {}, ids, ids);
  }

  lemma NothingRead(ids: seq<nat>, view: map<nat, int>, p: Past)
    ensures Elements([]) <= Elements(ids[..0]) && AllDone(view, Elements(ids[..0]) - Elements([]))
    ensures SeenPending(p, p, [])
  {
  }

  /** The part of the identifiers that was not found pending is completed, batch by batch. */
  lemma BatchAdds(
    before: map<nat, int>, view: map<nat, int>, ids: seq<nat>, start: nat, end: nat,
    zeroIds: seq<nat>, more: seq<nat>)
    requires start <= end <= |ids| && DoneStays(before, view)
    requires Elements(zeroIds) <= Elements(ids[..start])
    requires AllDone(before, Elements(ids[..start]) - Elements(zeroIds))
    requires forall id :: id in more ==> id in ids[start..end]
    requires forall id :: id in ids[start..end] ==> id in more || Done(view, id)
    ensures Elements(zeroIds + more) <= Elements(ids[..end])
    ensures AllDone(view, Elements(ids[..end]) - Elements(zeroIds + more))
  {
    SplitElements(ids, start, end);
    forall id | id in Elements(ids[..end]) - Elements(zeroIds + more)
      ensures Done(view, id)
    {
      assert id in Elements(ids[..start]) ==> id in Elements(ids[..start]) - Elements(zeroIds);
    }
  }

  lemma StillDone(before: map<nat, int>, view: map<nat, int>, ids: seq<nat>, zeroIds: seq<nat>)
    requires DoneStays(before, view) && AllDone(before, Elements(ids) - Elements(zeroIds))
    ensures AllDone(view, Elements(ids) - Elements(zeroIds))
  {
  }

  lemma BadIn(view: map<nat, int>, ids: seq<nat>, start: nat, end: nat, p: Past, q: Past)
    requires start <= end <= |ids| && |p.views| < |q.views| && q.views[|q.views| - 1] == view
    requires exists id :: id in Elements(ids[start..end]) && Bad(view, id)
    ensures SawBad(p, q, Elements(ids))
  {
    SplitElements(ids, start, end);
    var id :| id in Elements(ids[start..end]) && Bad(view, id);
    assert id in Elements(ids) && Bad(q.views[|q.views| - 1], id);
  }

  lemma SameStays(status: map<nat, int>)
    ensures DoneStays(status, status)
  {
  }

  lemma BothSeen(p: Past, q: Past, a: seq<nat>, b: seq<nat>)
    requires SeenPending(p, q, a) && SeenPending(p, q, b)
    ensures SeenPending(p, q, a + b)
  {
  }

  lemma SplitElements(ids: seq<nat>, start: nat, end: nat)
    requires start <= end <= |ids|
    ensures Elements(ids[..end]) == Elements(ids[..start]) + Elements(ids[start..end])
    ensures Elements(ids[start..end]) <= Elements(ids)
  {
    assert ids[..end] == ids[..start] + ids[start..end];
  }

  lemma PendingWasMissed(
    before: map<nat, int>, view: map<nat, int>, p: Past, was: Past, now: Past, id: nat, inBatch: bool)
    requires Progressed(before, view) && id in view && view[id] == 0
    requires was.missed <= now.missed && |p.missed| <= |was.missed|
    requires inBatch && id in before && before[id] == 0 ==>
               Done(view, id) || (|now.missed| == |was.missed| + 1 && id in now.missed[|was.missed|])
    requires !inBatch && id in before && before[id] == 0 ==> Missed(p, was, {id})
    ensures Missed(p, now, {id})
  {
    assert SameRow(before, view, id) || Flipped(before, view, id);
    if inBatch {
      assert id in {id} && id in now.missed[|was.missed|];
    } else {
      var k, i :| |p.missed| <= k < |was.missed| && i in {id} && i in was.missed[k];
      assert now.missed[k] == was.missed[k];
    }
  }

  /** A row that is still pending after the updates was left pending by one of them. */
  lemma StillPending(p: Past, q: Past, t: Past, tx: map<nat, int>, zeroIds: seq<nat>, ids: seq<nat>)
    requires |zeroIds| != 0 && Elements(zeroIds) <= Elements(ids) && t.missed == q.missed
    requires SeenPending(q, t, zeroIds) && forall k :: |q.views| <= k < |t.views| ==> t.views[k] == tx
    requires forall id :: id in ids && id in tx && tx[id] == 0 ==> Missed(p, q, {id})
    ensures Missed(p, t, Elements(ids))
  {
    var id := zeroIds[0];
    assert id in Elements(zeroIds);
    assert Missed(p, q, {id});
    var k, i :| |p.missed| <= k < |q.missed| && i in {id} && i in q.missed[k];
  }
}
