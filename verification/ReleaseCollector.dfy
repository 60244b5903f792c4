/**
 The release-evidence collector as it runs: one object for the private directory, whose
 methods rewrite the lock file, the watermark and the batch effect by effect.
 */
module ReleaseCollector {
  import opened RunTypes
  import opened ReleaseEvidence

  class EvidenceDirectory {
    var lock: Lock
    var marks: map<Source, Mark>
    var batches: map<Key, seq<Check>>

    function State(): Files
      reads this
    {
      Files(lock, marks, batches)
    }

    constructor ()
      ensures State() == NoFiles
    {
      lock, marks, batches := NoLock, map[], map[];
    }

    method UpdatePendingSource(x: Source, pending: bool, fault: Fault) returns (o: Outcome)
      modifies this`lock
      ensures (lock, o) == UpdatePending(old(lock), x, pending, fault)
    {
      if !lock.Pending? {
        return if fault.Crash? && fault.writes == 0 then Died else Raised;
      }
      var sources := lock.sources;
      if pending {
        sources := sources + {x};
      } else {
        sources := sources - {x};
      }
      if fault.StopsAt(0) {
        return Stop(fault);
      }
      lock := TornLock;
      if fault.StopsAt(1) {
        return Stop(fault);
      }
      lock := Pending(sources);
      o := if fault.StopsAt(2) then Stop(fault) else Went;
    }

    method RewriteWatermark(x: Source, mark: Mark, fault: Fault) returns (o: Outcome)
      modifies this`marks
      ensures (marks, o) == RewriteMark(old(marks), x, mark, fault)
    {
      if fault.StopsAt(0) {
        return Stop(fault);
      }
      marks := marks[x := TornMark];
      if fault.StopsAt(1) {
        return Stop(fault);
      }
      marks := marks[x := mark];
      assert marks == old(marks)[x := mark];
      o := if fault.StopsAt(2) then Stop(fault) else Went;
    }

    method StoreWatermark(x: Source, mark: Mark, faults: MarkFaults) returns (o: Outcome)
      requires mark.Mark?
      modifies this`marks
      ensures (marks, o) == StoreMark(old(marks), x, mark, faults)
    {
      if faults.first.StopsAt(0) {
        if faults.first.IoError? && mark.status.PendingStatus? && x in marks {
          o := RewriteWatermark(x, mark, faults.rewrite);
          return;
        }
        return Stop(faults.first);
      }
      marks := marks - {x};
      if faults.first.StopsAt(1) || faults.first.StopsAt(2) {
        return Stop(faults.first);
      }
      marks := marks[x := mark];
      assert marks == old(marks)[x := mark];
      o := if faults.first.StopsAt(3) then Stop(faults.first) else Went;
    }

    method StoreReceipts(key: Key, checks: seq<Check>, fault: Fault) returns (o: Outcome)
      modifies this`batches
      ensures (batches, o) == StoreBatch(old(batches), key, checks, fault)
    {
      if key in batches {
        return if batches[key] == checks then Went else Raised;
      }
      if fault.StopsAt(0) {
        return Stop(fault);
      }
      batches := batches[key := checks];
      o := if fault.StopsAt(1) then Stop(fault) else Went;
    }

    method OpenLockFile(creator: bool, fault: Fault) returns (o: Outcome)
      modifies this`lock
      ensures (lock, o) == OpenLock(old(lock), creator, fault)
    {
      if fault.StopsAt(0) {
        return Stop(fault);
      }
      if creator && lock.EmptyLock? {
        lock := TornLock;
        if fault.StopsAt(1) {
          return Stop(fault);
        }
        lock := Pending({});
        if fault.StopsAt(2) {
          return Stop(fault);
        }
      }
      o := Went;
    }

    /** `main`, from the moment it holds the lock. */
    method CollectEvidence(s: Session)
      modifies this
      ensures State() == Collect(old(State()), s)
    {
      hide StoreAll;
      var o := OpenLockFile(s.creator, s.opening);
      if !o.Went? {
        return;
      }
      var marked := UpdatePendingSource(s.x, true, s.marking);
      if marked.Died? {
        return;
      }
      o := StoreWatermark(s.x, Mark(None, None, PendingStatus), s.invalidating);
      if !o.Went? || !marked.Went? || s.collected.None? {
        return;
      }
      StoreCollection(s, s.collected.value);
    }

    method StoreCollection(s: Session, c: Collected)
      modifies this
      ensures State() == StoreAll(old(State()), s, c)
    {
      hide StatusOf;
      var o := StoreWatermark(s.x, Mark(WorkflowOf(c), c.run, PendingStatus), s.invalidatingAgain);
      if !o.Went? {
        return;
      }
      if c.checks != [] {
        if c.run.None? {
          return;
        }
        o := StoreReceipts(Key(s.x, c.run.value.0, c.run.value.1), c.checks, s.storing);
        if !o.Went? {
          return;
        }
      }
      if !StatusOf(c).PendingStatus? {
        if c.checks == [] || c.run.None? {
          return;
        }
        o := StoreWatermark(s.x, Mark(WorkflowOf(c), c.run, StatusOf(c)), s.finishing);
        if !o.Went? {
          return;
        }
      }
      o := UpdatePendingSource(s.x, false, s.clearing);
    }
  }
}
