/**
 The run repository of one market date as an object that updates its stored files step by
 step. Every method is proved against its specification in `RunStore`, for every point at
 which the environment may stop it.
 */
module RunRepository {
  import opened RunTypes
  import opened RunStore

  class FileSystemRunRepository {
    var staging: map<nat, RunDir>
    var finals: map<nat, RunDir>
    var orphans: map<nat, RunDir>
    var index: map<nat, Entry>
    var latest: Option<nat>

    function Files(): DateStore
      reads this
    {
      DateStore(staging, finals, orphans, index, latest)
    }

    constructor ()
      ensures Files() == DateStore(map[], map[], map[], map[], None)
    {
      staging, finals, orphans, index, latest := map[], map[], map[], map[], None;
    }

    method CreateRun(context: RunContext, fault: Fault) returns (r: Result<RunContext>)
      modifies this
      ensures (Files(), r) == Create(old(Files()), context, fault)
    {
      var rev := context.revision;
      if rev in finals {
        return Rejected(PublicationFailed);
      }
      if rev in staging && staging[rev].context.Some? {
        if staging[rev].context.value != context {
          return Rejected(PublicationFailed);
        }
        return Ok(context);
      }
      if fault.StopsAt(0) {
        return Interrupted;
      }
      ghost var made := if rev in staging then staging[rev] else EmptyDir;
      if rev !in staging {
        staging := staging[rev := EmptyDir];
      }
      assert staging == old(staging)[rev := made];
      if fault.StopsAt(1) {
        return Interrupted;
      }
      staging := staging[rev := staging[rev].(context := Some(context))];
      if fault.StopsAt(2) {
        return Interrupted;
      }
      r := Ok(context);
    }

    method AllocateRevision(invocation: Invocation, seed: RunContext, fault: Fault)
      returns (r: Result<RunContext>)
      modifies this
      ensures (Files(), r) == Allocate(old(Files()), invocation, seed, fault)
    {
      var revision := NextRevision(Files());
      match invocation {
        case Scheduled =>
          if 1 in Existing(Files()) {
            return Resume(Files(), 1, false);
          }
          revision := 1;
        case ManualRequested(requested) =>
          if requested == 0 {
            return Rejected(InvalidRequest);
          }
          if requested in Existing(Files()) {
            return Resume(Files(), requested, true);
          }
          if requested != revision {
            return Rejected(InvalidRequest);
          }
        case ManualFresh =>
      }
      r := CreateRun(NewContext(seed, revision), fault);
    }

    method Stage(rev: nat, name: Name, payload: Payload, fault: Fault) returns (r: Result<Digest>)
      modifies this
      ensures (Files(), r) == StageArtifact(old(Files()), rev, name, payload, fault)
    {
      if payload == RawBytes([]) || rev !in staging {
        return Rejected(InvalidRequest);
      }
      var digest := Sha256(payload);
      if name in staging[rev].artifacts {
        if staging[rev].artifacts[name] != payload {
          return Rejected(InvalidRequest);
        }
        return Ok(digest);
      }
      if fault.StopsAt(0) {
        return Interrupted;
      }
      staging := staging[rev := staging[rev].(artifacts := staging[rev].artifacts[name := payload])];
      if fault.StopsAt(1) {
        return Interrupted;
      }
      r := Ok(digest);
    }

    method AppendUnlocked(rev: nat, cp: Checkpoint, fault: Fault) returns (r: Result<()>)
      modifies this
      ensures (Files(), r) == AppendCheckpoint(old(Files()), rev, cp, fault)
    {
      if cp.revision != rev || rev !in staging || staging[rev].context.None? {
        return Rejected(InvalidRequest);
      }
      var rd := staging[rev];
      if !Admits(rd, cp) {
        return Rejected(if rd.freeze.None? then InvalidRequest else CutoffViolation);
      }
      if fault.StopsAt(0) {
        return Interrupted;
      }
      staging := staging[rev := Append(rd, cp)];
      if fault.StopsAt(1) {
        return Interrupted;
      }
      r := Ok(());
    }

    method AppendIfCurrentCount(rev: nat, cp: Checkpoint, expected: nat, fault: Fault) returns (r: Result<()>)
      modifies this
      ensures (Files(), r) == AppendIfCurrent(old(Files()), rev, cp, expected, fault)
    {
      var stored := Load(Files(), rev);
      if stored.None? || stored.value.published || |stored.value.checkpoints| != expected {
        return Rejected(InvalidRequest);
      }
      r := AppendUnlocked(rev, cp, fault);
    }

    method FreezeEvidence(rev: nat, cutoff: Instant, fault: Fault) returns (r: Result<Stored>)
      modifies this
      ensures (Files(), r) == Freeze(old(Files()), rev, cutoff, fault)
    {
      if rev !in staging || staging[rev].context.None? || staging[rev].freeze.Some? {
        return Rejected(InvalidRequest);
      }
      if cutoff < staging[rev].context.value.invokedAt {
        return Rejected(InvalidRequest);
      }
      if fault.StopsAt(0) {
        return Interrupted;
      }
      var marker := FrozenMarker(staging[rev], rev, cutoff);
      staging := staging[rev := staging[rev].(freeze := Some(cutoff))];
      if fault.StopsAt(1) {
        return Interrupted;
      }
      var appended := AppendUnlocked(rev, marker, fault.After(1));
      match appended {
        case Ok(_) => r := Ok(LoadDir(staging[rev], false).value);
        case Rejected(failure) => r := Rejected(failure);
        case Interrupted => r := Interrupted;
      }
    }

    /** Handle an error after the rename: the final directory must not stay visible. */
    method QuarantineOrphan(rev: nat)
      requires rev in finals
      modifies this
      ensures Files() == Quarantine(old(Files()), rev)
    {
      if rev in orphans {
        return;
      }
      orphans := orphans[rev := finals[rev]];
      finals := finals - {rev};
    }

    /** Write the frozen pair into staging and rename the directory to its final place. */
    method WriteAndRename(bundle: Bundle, ghost now: Instant, fault: Fault) returns (stopped: bool)
      requires Publishable(Files(), bundle)
      modifies this
      ensures stopped <==> !fault.NoFault? && fault.writes < 3
      ensures Files() == AfterWrites(old(Files()), bundle, now, if stopped then fault.writes else 3)
    {
      var rev := bundle.run.revision;
      ghost var s := Files();
      if fault.StopsAt(0) {
        assert s.staging == s.staging[rev := s.staging[rev]];
        return true;
      }
      staging := staging[rev := staging[rev].(bundle := Some(bundle))];
      if fault.StopsAt(1) {
        return true;
      }
      staging := staging[rev := staging[rev].(report := Some(bundle.markdown))];
      if fault.StopsAt(2) {
        return true;
      }
      finals := finals[rev := staging[rev]];
      staging := staging - {rev};
      stopped := false;
    }

    /** Record the renamed directory in the index and move the latest pointer. */
    method IndexAndPoint(ghost s: DateStore, bundle: Bundle, now: Instant, fault: Fault) returns (stopped: bool)
      requires Publishable(s, bundle) && !Conflicts(s, bundle)
      requires Files() == AfterWrites(s, bundle, now, 3)
      modifies this
      ensures stopped <==> !fault.NoFault? && 3 <= fault.writes <= 5
      ensures Files() == AfterWrites(s, bundle, now, if stopped then fault.writes else 5)
    {
      var rev := bundle.run.revision;
      if fault.StopsAt(3) {
        return true;
      }
      index := index[rev := EntryFor(Files(), bundle, now)];
      if fault.StopsAt(4) {
        return true;
      }
      assert rev in index;
      latest := Some(MaxKey(index));
      stopped := fault.StopsAt(5);
    }

    method PublishAtomically(bundle: Bundle, now: Instant, fault: Fault) returns (r: Result<Receipt>)
      modifies this
      ensures (Files(), r) == Publish(old(Files()), bundle, now, fault)
    {
      if !Publishable(Files(), bundle) {
        return Rejected(PublicationFailed);
      }
      var rev := bundle.run.revision;
      var entry := EntryFor(Files(), bundle, now);
      var conflict := Conflicts(Files(), bundle);
      ghost var s := Files();
      var stopped := WriteAndRename(bundle, now, fault);
      if stopped {
        return if fault.Crash? then Interrupted else Rejected(PublicationFailed);
      }
      if !conflict {
        stopped := IndexAndPoint(s, bundle, now, fault);
        if !stopped {
          return Ok(Receipt(rev, entry));
        }
      }
      if fault.Crash? && (stopped || fault.writes == 3) {
        return Interrupted;
      }
      QuarantineOrphan(rev);
      r := Rejected(PublicationFailed);
    }

    method RecoverInterruptedPublication(rev: nat, now: Instant, fault: Fault) returns (r: Result<Receipt>)
      modifies this
      ensures (Files(), r) == Recover(old(Files()), rev, now, fault)
    {
      var existing := GetReceipt(Files(), rev);
      if existing.Some? {
        return Ok(existing.value);
      }
      if !Recoverable(Files(), rev) {
        return Rejected(PublicationFailed);
      }
      if fault.StopsAt(0) {
        return if fault.Crash? then Interrupted else Rejected(PublicationFailed);
      }
      var bundle := orphans[rev].bundle.value;
      staging := staging[rev := orphans[rev]];
      orphans := orphans - {rev};
      if fault.StopsAt(1) {
        return if fault.Crash? then Interrupted else Rejected(PublicationFailed);
      }
      r := PublishAtomically(bundle, now, fault.After(1));
    }
  }
}
