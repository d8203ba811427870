/**
 The two-generation snapshot store (internal/state/store.go).

 A snapshot file is missing, present but unreadable (checksum, permissions, not regular), or holds a
 state. A process that stops inside Save or Clear leaves the disk after one of the atomic renames or
 removes; a returned error leaves it in one of the same places.
 */
module Store {
  datatype Slot<+S> = Missing | Invalid | Valid(state: S)

  datatype Disk<+S> = Disk(current: Slot<S>, backup: Slot<S>)

  datatype LoadResult<+S> = Empty | Loaded(state: S, fromBackup: bool) | LoadError

  /** LoadWithMetadata. */
  function Load<S>(d: Disk<S>): LoadResult<S> {
    if d.current.Valid? then Loaded(d.current.state, false)
    else if d.backup.Valid? then Loaded(d.backup.state, true)
    else if d.current.Missing? && d.backup.Missing? then Empty
    else LoadError
  }

  /** The register value the process believes in: what Load returns, without its provenance. */
  datatype Register<+S> = Unset | Holds(state: S) | Unreadable

  function Contents<S>(d: Disk<S>): Register<S> {
    match Load(d)
    case Empty => Unset
    case Loaded(s, _) => Holds(s)
    case LoadError => Unreadable
  }

  /** The rename of a readable primary over the backup. */
  function Rotate<S>(d: Disk<S>): Disk<S> {
    if d.current.Valid? then Disk(Missing, d.current) else d
  }

  /** An unreadable primary is only replaced under the protection of a readable backup. */
  predicate MayReplace<S>(d: Disk<S>) {
    d.current.Invalid? ==> d.backup.Valid?
  }

  /** The disk after a Save that ran to its end. */
  function Saved<S>(d: Disk<S>, s: S): Disk<S> {
    Disk(Valid(s), Rotate(d).backup)
  }

  /** Every disk a Save of s can leave behind, whether it was cut short or not. */
  ghost predicate SavePoint<S(!new)>(d: Disk<S>, s: S, d': Disk<S>) {
    || d' == d
    || (MayReplace(d) && (d' == Rotate(d) || d' == Saved(d, s)))
  }

  /** Every disk a Clear can leave behind. */
  ghost predicate ClearPoint<S(!new)>(d: Disk<S>, d': Disk<S>) {
    d' == d || d' == Disk(d.current, Missing) || d' == Disk(Missing, Missing)
  }

  /** The primary becomes unreadable while the backup is left alone. */
  function LosePrimary<S>(d: Disk<S>): Disk<S> {
    if d.current.Missing? then d else d.(current := Invalid)
  }

  class SnapshotStore<S(!new)> {
    var current: Slot<S>
    var backup: Slot<S>
    /** How often the operating system failed a call, or the process stopped. */
    ghost var failures: nat

    function Image(): Disk<S>
      reads this
    {
      Disk(current, backup)
    }

    constructor ()
      ensures Image() == Disk(Missing, Missing) && failures == 0
    {
      current, backup, failures := Missing, Missing, 0;
    }

    method LoadWithMetadata() returns (r: LoadResult<S>)
      ensures r == Load(Image())
    {
      if current.Valid? {
        return Loaded(current.state, false);
      }
      if backup.Valid? {
        return Loaded(backup.state, true);
      }
      if current.Missing? && backup.Missing? {
        return Empty;
      }
      return LoadError;
    }

    /** The operating system may fail any call, and the process may stop before it. */
    method Fails() returns (failed: bool)
      modifies this`failures
      ensures failures == old(failures) + if failed then 1 else 0
    {
      failed := *;
      if failed {
        failures := failures + 1;
      }
    }

    /**
     `ok` is false when an error was returned or the process stopped. Without a failure from outside only
     an unreadable primary that has no readable backup is refused.
     */
    method Save(s: S) returns (ok: bool)
      modifies this
      ensures SavePoint(old(Image()), s, Image())
      ensures ok ==> MayReplace(old(Image())) && Image() == Saved(old(Image()), s)
      ensures old(failures) <= failures
      ensures failures == old(failures) ==> (ok <==> MayReplace(old(Image())))
    {
      var failed := Fails();
      if failed {
        return false;  // preparing the directory or the synced temporary file
      }
      if current.Valid? {
        current, backup := Missing, current;  // one rename
      } else if current.Invalid? && !backup.Valid? {
        return false;  // refuse to replace the only trace of a run
      }
      failed := Fails();
      if failed {
        return false;  // before the installing rename
      }
      current := Valid(s);
      failed := Fails();
      return !failed;  // the directory sync fails after the rename
    }

    method Clear() returns (ok: bool)
      modifies this
      ensures ClearPoint(old(Image()), Image())
      ensures ok ==> Image() == Disk(Missing, Missing)
      ensures old(failures) <= failures && (failures == old(failures) ==> ok)
    {
      var failed := Fails();
      if failed {
        return false;
      }
      backup := Missing;  // the stale generation goes first
      failed := Fails();
      if failed {
        return false;
      }
      current := Missing;
      failed := Fails();
      return !failed;
    }

    /** The fault of the environment model; it never touches the backup. */
    method Corrupt()
      modifies this`current
      ensures Image() == LosePrimary(old(Image()))
    {
      if !current.Missing? {
        current := Invalid;
      }
    }
  }

  /** A Save cut anywhere is atomic: afterwards the register holds its old value or the new state. */
  lemma SaveIsAtomic<S(!new)>(d: Disk<S>, s: S, d': Disk<S>)
    requires SavePoint(d, s, d')
    ensures Contents(d') == Contents(d) || Contents(d') == Holds(s)
    ensures d.current.Valid? || d.backup.Valid? ==> d'.current.Valid? || d'.backup.Valid?
    ensures d' == Saved(d, s) ==> Contents(d') == Holds(s)
  {
  }

  /**
   Losing the primary after a completed Save brings back exactly the state that the saving process
   had last loaded or saved, and nothing older; with no such state the store fails closed.
   */
  lemma PrimaryLossRevertsOneGeneration<S(!new)>(d: Disk<S>, s: S)
    requires MayReplace(d)
    ensures Contents(LosePrimary(Saved(d, s))) ==
            if d.current.Valid? || d.backup.Valid? then Contents(d) else Unreadable
    ensures Load(LosePrimary(Saved(d, s))).Loaded? ==> Load(LosePrimary(Saved(d, s))).fromBackup
  {
  }

  /**
   Saving the same state twice covers both generations exactly when the primary stays readable
   between the two Saves: a loss in between makes the second Save skip its rotation, and the older
   backup survives.
   */
  lemma TwoSavesCoverBothGenerations<S(!new)>(d: Disk<S>, s: S, lostBetween: bool)
    requires MayReplace(d)
    requires Contents(d).Holds? && Contents(d).state != s
    ensures var first := Saved(d, s);
            var between := if lostBetween then LosePrimary(first) else first;
            MayReplace(between)
    ensures var first := Saved(d, s);
            var between := if lostBetween then LosePrimary(first) else first;
            Contents(LosePrimary(Saved(between, s))) == Holds(s) <==> !lostBetween
  {
  }

  /** A Clear cut anywhere never brings an older generation back: the terminal state or nothing. */
  lemma ClearNeverResurrects<S(!new)>(d: Disk<S>, d': Disk<S>)
    requires ClearPoint(d, d')
    requires d.current.Valid?
    ensures Load(d') == Load(d) || Load(d') == Empty
    ensures Load(d') == Empty ==> d' == Disk(Missing, Missing)
  {
  }

  /** One operation of a store's life: a Save that reached step `cut` (0 none, 1 rotated, 2 installed), or a loss. */
  datatype Operation<+S> = SaveCut(state: S, cut: nat) | PrimaryLoss

  ghost function OnDisk<S>(d: Disk<S>, op: Operation<S>): Disk<S> {
    match op
    case PrimaryLoss => LosePrimary(d)
    case SaveCut(s, cut) =>
      if cut == 0 || !MayReplace(d) then d
      else if cut == 1 then Rotate(d)
      else Saved(d, s)
  }

  ghost function DiskAfter<S>(d: Disk<S>, ops: seq<Operation<S>>): Disk<S> {
    if ops == [] then d else OnDisk(DiskAfter(d, ops[..|ops| - 1]), ops[|ops| - 1])
  }

  /** The abstract register: its value, and the value it falls back to when the primary is lost. */
  datatype Abstract<+S> = Abstract(value: Register<S>, fallback: Register<S>)

  ghost function Abstraction<S>(d: Disk<S>): Abstract<S> {
    Abstract(Contents(d), Contents(LosePrimary(d)))
  }

  /** What the operations mean without any files: a Save moves the value to the fallback and replaces it. */
  ghost function OnRegister<S>(a: Abstract<S>, op: Operation<S>): Abstract<S> {
    match op
    case PrimaryLoss => Abstract(a.fallback, a.fallback)
    case SaveCut(s, cut) =>
      if cut == 0 || a.value.Unreadable? then a
      else if cut == 1 then Abstract(a.value, a.value)
      else Abstract(Holds(s), if a.value.Holds? then a.value else Unreadable)
  }

  ghost function RegisterAfter<S>(a: Abstract<S>, ops: seq<Operation<S>>): Abstract<S> {
    if ops == [] then a else OnRegister(RegisterAfter(a, ops[..|ops| - 1]), ops[|ops| - 1])
  }

  /** Through every sequence of Saves, cuts and primary losses the two files behave as that register. */
  lemma {:induction false} StoreRefinesRegister<S(!new)>(d: Disk<S>, ops: seq<Operation<S>>)
    requires !d.backup.Invalid?
    ensures Abstraction(DiskAfter(d, ops)) == RegisterAfter(Abstraction(d), ops)
    ensures !DiskAfter(d, ops).backup.Invalid?
  {
    if ops != [] {
      StoreRefinesRegister(d, ops[..|ops| - 1]);
    }
  }
}
