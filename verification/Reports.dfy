/**
 What a consolidation leaves behind for a builder, and the validator of the daily record
 (internal/funding/report.go, internal/funding/daily_consolidation.go).

 A summary text accompanies every status in the service; it carries no decision and is left out.
 */
module Reports {
  import opened Wrappers
  import opened Funding

  datatype StepStatus = Pending | Success | Warning | Skipped

  /** BuilderReport, and field for field the builder entry of a daily record. */
  datatype BuilderReport = BuilderReport(
    address: string, claimable: Option<int>, claimableObserved: bool, queryAttempts: int,
    claimAttempts: int, uncertain: bool, claimStatus: StepStatus,
    sweepAmount: Option<int>, sweepStatus: StepStatus)

  datatype RecordStatus = ClaimablesCaptured | RecordCompleted

  /** Times are zero when unset, as the zero time is. */
  datatype DailyRecord = DailyRecord(
    date: nat, status: RecordStatus, startedAt: nat, capturedAt: nat, completedAt: nat,
    builders: seq<BuilderReport>)

  predicate ValidStep(s: StepStatus, allowPending: bool) {
    allowPending || !s.Pending?
  }

  predicate ValidEntry(b: BuilderReport, allowPending: bool) {
    && b.address != ""
    && 0 < b.queryAttempts
    && (b.claimableObserved ==> b.claimable.Some? && 0 <= b.claimable.value)
    && (!b.claimableObserved ==> b.claimable.None?)
    && 0 <= b.claimAttempts
    && (b.sweepAmount.Some? ==> 0 <= b.sweepAmount.value)
    && ValidStep(b.claimStatus, allowPending) && ValidStep(b.sweepStatus, allowPending)
    && (b.uncertain ==> b.claimStatus.Warning?)
  }

  /** DailyConsolidation.Validate. */
  predicate Valid(r: DailyRecord) {
    && r.startedAt != 0 && r.capturedAt != 0
    && (r.status.ClaimablesCaptured? <==> r.completedAt == 0)
    && r.builders != []
    && (forall i, j :: 0 <= i < j < |r.builders| ==> r.builders[i].address != r.builders[j].address)
    && (forall i :: 0 <= i < |r.builders| ==> ValidEntry(r.builders[i], r.status.ClaimablesCaptured?))
  }

  /** DailyConsolidation.Validate, entry by entry, with the addresses seen so far. */
  method Validate(r: DailyRecord) returns (ok: bool)
    ensures ok <==> Valid(r)
  {
    if r.startedAt == 0 || r.capturedAt == 0 {
      return false;
    }
    if r.status.ClaimablesCaptured? {
      if r.completedAt != 0 {
        return false;
      }
    } else if r.completedAt == 0 {
      return false;
    }
    if |r.builders| == 0 {
      return false;
    }
    var seen: set<string> := {};
    for i := 0 to |r.builders|
      invariant forall a :: a in seen <==> exists j :: 0 <= j < i && r.builders[j].address == a
      invariant forall j, k :: 0 <= j < k < i ==> r.builders[j].address != r.builders[k].address
      invariant forall j :: 0 <= j < i ==> ValidEntry(r.builders[j], r.status.ClaimablesCaptured?)
    {
      var b := r.builders[i];
      if b.address == "" || b.address in seen {
        return false;
      }
      seen := seen + {b.address};
      if b.queryAttempts <= 0 {
        return false;
      }
      if b.claimableObserved {
        if b.claimable.None? || b.claimable.value < 0 {
          return false;
        }
      } else if b.claimable.Some? {
        return false;
      }
      if b.claimAttempts < 0 || (b.sweepAmount.Some? && b.sweepAmount.value < 0) {
        return false;
      }
      if !r.status.ClaimablesCaptured? && (b.claimStatus.Pending? || b.sweepStatus.Pending?) {
        return false;
      }
      if b.uncertain && !b.claimStatus.Warning? {
        return false;
      }
    }
    return true;
  }

  /** The reconciliation values of a record. */
  function Claimables(r: DailyRecord): seq<Option<int>> {
    seq(|r.builders|, i requires 0 <= i < |r.builders| => r.builders[i].claimable)
  }
}
