/**
 What every sequence of preparation, validation, publication and recovery calls keeps, with
 any answers and any failures: evidence is fixed by its first staged write, the cutoff is the
 stored collection's completion time, and every hand-off of a run carries the same packet.
 */
module PreparedEvidence {
  import opened RunTypes
  import opened RunStore
  import opened RunHistory
  import opened Publication
  import opened PublicationMachine
  import opened FinalBundle
  import opened ClosedRuns
  import opened SettledRuns
  import opened PublicationService
  import opened Preparation
  import opened Replay

  // ---- Nothing staged is ever lost or changed ----

  ghost predicate DirKeeps(a: RunDir, b: RunDir) {
    && (a.context.Some? ==> b.context == a.context)
    && (a.freeze.Some? ==> b.freeze == a.freeze)
    && a.checkpoints <= b.checkpoints
    && forall n :: n in a.artifacts ==> n in b.artifacts && b.artifacts[n] == a.artifacts[n]
  }

  ghost predicate Keeps(s: DateStore, s': DateStore) {
    && WellFormed(s')
    && (forall r :: Current(s', r).Some? ==> Current(s, r).Some?)
    && forall r :: Current(s, r).Some? ==>
         Current(s', r).Some? && DirKeeps(Current(s, r).value, Current(s', r).value)
  }

  lemma KeepsSelf(s: DateStore)
    requires WellFormed(s)
    ensures Keeps(s, s)
  {
  }

  lemma KeepsChain(s: DateStore, s1: DateStore, s2: DateStore)
    requires Keeps(s, s1) && Keeps(s1, s2)
    ensures Keeps(s, s2)
  {
    hide Current, WellFormed;
  }

  function Runs(s: DateStore): set<nat> {
    s.staging.Keys + s.finals.Keys + s.orphans.Keys
  }

  lemma LocalAddsNoRun(s: DateStore, s': DateStore, rev: nat)
    requires LocalTo(s, s', rev)
    ensures Runs(s') == Runs(s)
  {
    if s' != s { assert s'.staging.Keys == s.staging.Keys; }
  }

  lemma PublishAddsNoRun(s: DateStore, bundle: Bundle, now: Instant, fault: Fault)
    ensures Runs(Publish(s, bundle, now, fault).0) == Runs(s)
  {
    hide Publishable;
    if Publishable(s, bundle) {
      var n: nat, quarantined := Stop(s, bundle, now, fault);
      StopAddsNoRun(s, bundle, now, n, quarantined);
    }
  }

  lemma Stop(s: DateStore, bundle: Bundle, now: Instant, fault: Fault) returns (n: nat, quarantined: bool)
    requires Publishable(s, bundle)
    ensures Publish(s, bundle, now, fault).0 == Stopped(s, bundle, now, n, quarantined)
  {
    hide Publishable, Publish, Stopped;
    PublishStops(s, bundle, now, fault);
    n, quarantined :| Publish(s, bundle, now, fault).0 == Stopped(s, bundle, now, n, quarantined);
  }

  lemma StopAddsNoRun(s: DateStore, bundle: Bundle, now: Instant, n: nat, quarantined: bool)
    requires Publishable(s, bundle)
    ensures Runs(Stopped(s, bundle, now, n, quarantined)) == Runs(s)
  {
    var rev := bundle.run.revision;
    var s' := AfterWrites(s, bundle, now, n);
    if n < 3 {
      assert s'.staging.Keys == s.staging.Keys;
    } else {
      assert s'.staging.Keys == s.staging.Keys - {rev} && s'.finals.Keys == s.finals.Keys + {rev};
      if quarantined && rev !in s'.orphans {
        var s2 := Quarantine(s', rev);
        assert s2.finals.Keys == s'.finals.Keys - {rev} && s2.orphans.Keys == s'.orphans.Keys + {rev};
      }
    }
  }

  lemma OpAddsNoRun(s: DateStore, op: Op)
    requires !op.OpCreate? && !op.OpAllocate?
    ensures Runs(Apply(s, op)) == Runs(s)
  {
    hide Runs, LocalTo, AppendCheckpoint, Freeze, Publish, Recoverable;
    match op
    case OpStage(rev, name, payload, fault) => StageIsLocal(s, rev, name, payload, fault); LocalAddsNoRun(s, Apply(s, op), rev);
    case OpCheckpoint(rev, cp, fault) => AppendIsLocal(s, rev, cp, fault); LocalAddsNoRun(s, Apply(s, op), rev);
    case OpCheckpointIf(rev, cp, expected, fault) =>
      AppendIsLocal(s, rev, cp, fault);
      LocalAddsNoRun(s, AppendCheckpoint(s, rev, cp, fault).0, rev);
    case OpFreeze(rev, cutoff, fault) => FreezeIsLocal(s, rev, cutoff, fault); LocalAddsNoRun(s, Apply(s, op), rev);
    case OpPublish(bundle, now, fault) => PublishAddsNoRun(s, bundle, now, fault);
    case OpRecover(rev, now, fault) =>
      if GetReceipt(s, rev).None? && Recoverable(s, rev) {
        RestageAddsNoRun(s, rev);
        PublishAddsNoRun(Restage(s, rev), s.orphans[rev].bundle.value, now, fault.After(1));
      }
  }

  lemma StageIsLocal(s: DateStore, rev: nat, name: Name, payload: Payload, fault: Fault)
    ensures LocalTo(s, StageArtifact(s, rev, name, payload, fault).0, rev)
  {
  }

  lemma RestageAddsNoRun(s: DateStore, rev: nat)
    requires Recoverable(s, rev)
    ensures rev in s.orphans && s.orphans[rev].bundle.Some?
    ensures Runs(Restage(s, rev)) == Runs(s)
  {
    var s1 := Restage(s, rev);
    assert s1.staging.Keys == s.staging.Keys + {rev} && s1.orphans.Keys == s.orphans.Keys - {rev};
  }

  lemma OpKeeps(s: DateStore, op: Op)
    requires WellFormed(s) && !op.OpCreate? && !op.OpAllocate?
    ensures Keeps(s, Apply(s, op))
  {
    StepKeepsIdentity(s, op);
    OpAddsNoRun(s, op);
    hide Apply, WellFormed;
    forall r ensures Current(s, r).Some? <==> r in Runs(s)
             ensures Current(Apply(s, op), r).Some? <==> r in Runs(Apply(s, op))
    {
    }
    hide Current, Runs;
    forall r | Current(s, r).Some?
      ensures Current(Apply(s, op), r).Some? && DirKeeps(Current(s, r).value, Current(Apply(s, op), r).value)
    {
      StepIsLater(s, op, r);
    }
  }

  lemma {:induction false} StageAllKeeps(s: DateStore, rev: nat, writes: Writes, env: Environment, i: nat)
    requires WellFormed(s)
    ensures Keeps(s, StageAll(s, rev, writes, env, i).0)
    decreases |writes|
  {
    hide Keeps, StageArtifact, WellFormed;
    if writes == [] {
      KeepsSelf(s);
    } else {
      var op := OpStage(rev, writes[0].0, writes[0].1, env(i));
      OpKeeps(s, op);
      var s1 := Apply(s, op);
      KeptIsWellFormed(s, s1);
      StageAllKeeps(s1, rev, writes[1..], env, i + 1);
      KeepsChain(s, s1, StageAll(s1, rev, writes[1..], env, i + 1).0);
    }
  }

  lemma KeptIsWellFormed(s: DateStore, s': DateStore)
    requires Keeps(s, s')
    ensures WellFormed(s')
  {
  }

  lemma StageAndAppendKeeps(s: DateStore, rev: nat, writes: Writes, cp: Checkpoint, expected: nat, env: Environment)
    requires WellFormed(s)
    ensures Keeps(s, StageAndAppend(s, rev, writes, cp, expected, env).0)
  {
    hide Keeps, StageAll, AppendIfCurrent, WellFormed;
    var s1 := StageAll(s, rev, writes, env, 0).0;
    StageAllKeeps(s, rev, writes, env, 0);
    KeptIsWellFormed(s, s1);
    OpKeeps(s1, OpCheckpointIf(rev, cp, expected, env(|writes|)));
    KeepsChain(s, s1, AppendIfCurrent(s1, rev, cp, expected, env(|writes|)).0);
  }

  lemma PerformKeeps(s: DateStore, rev: nat, d: Decision, now: Instant, env: Environment)
    requires WellFormed(s)
    ensures Keeps(s, Perform(s, rev, d, now, env).0)
  {
    hide Keeps, StageAll, StageAndAppend, Publish, WellFormed;
    KeepsSelf(s);
    match d
    case Leave(writes) => StageAllKeeps(s, rev, writes, env, 0);
    case Record(writes, cp, expected, outcome) => StageAndAppendKeeps(s, rev, writes, cp, expected, env);
    case Finish(bundle) => OpKeeps(s, OpPublish(bundle, now, env(0)));
    case Close(writes, cp, expected, bundle) =>
      var s1 := StageAndAppend(s, rev, writes, cp, expected, env).0;
      StageAndAppendKeeps(s, rev, writes, cp, expected, env);
      KeptIsWellFormed(s, s1);
      OpKeeps(s1, OpPublish(bundle, now, env(|writes| + 1)));
      KeepsChain(s, s1, Publish(s1, bundle, now, env(|writes| + 1)).0);
    case _ =>
  }

  // ---- The invariant ----

  /** The cutoff is the stored collection's completion time; a packet is this run's and not FAIL. */
  ghost predicate EvidenceSound(p: Rules, rd: RunDir) {
    && rd.context.Some?
    && (rd.freeze.Some? ==>
          && MarketDataCollection in rd.artifacts
          && rd.artifacts[MarketDataCollection].CollectionBytes?
          && var collection := rd.artifacts[MarketDataCollection].collection;
          && rd.freeze == Some(collection.completedAt)
          && collection.symbols == p.symbols(rd.context.value.configuration))
    && (ResearchPacket in rd.artifacts ==>
          && rd.freeze.Some?
          && rd.artifacts[ResearchPacket].PacketBytes?
          && var packet := rd.artifacts[ResearchPacket].packet;
          && packet.run.execution.AwaitingSynthesis?
          && !packet.run.quality.Fail?
          && packet.run == WithStatuses(RunOf(rd), StatusesOf(packet.run)))
  }

  ghost predicate PreparedSound(e: Engine, p: Rules, s: DateStore) {
    && StoreSound(e, s)
    && forall r :: Current(s, r).Some? && Current(s, r).value.context.Some? ==> EvidenceSound(p, Current(s, r).value)
  }

  lemma GrowingKeepsEvidence(p: Rules, a: RunDir, b: RunDir)
    requires EvidenceSound(p, a) && Grows(a, b) && DirKeeps(a, b)
    ensures EvidenceSound(p, b)
  {
  }

  lemma GrownKeepsContext(a: RunDir, b: RunDir)
    requires Grows(a, b)
    ensures a.context == b.context
  {
  }

  lemma GrownStoreKeepsEvidence(e: Engine, p: Rules, s: DateStore, s': DateStore)
    requires PreparedSound(e, p, s) && StoreSound(e, s') && AllGrow(s, s') && Keeps(s, s')
    ensures PreparedSound(e, p, s')
  {
    hide StoreSound, Current, EvidenceSound, Grows, DirKeeps;
    forall r | Current(s', r).Some? && Current(s', r).value.context.Some?
      ensures EvidenceSound(p, Current(s', r).value)
    {
      GrownKeepsContext(Current(s, r).value, Current(s', r).value);
      GrowingKeepsEvidence(p, Current(s, r).value, Current(s', r).value);
    }
  }

  lemma PerformKeepsPrepared(e: Engine, p: Rules, s: DateStore, call: Call, telemetry: Telemetry, now: Instant,
                             env: Environment)
    requires PreparedSound(e, p, s)
    ensures var s' := Perform(s, CallRev(call), Decide(e, s, call, telemetry), now, env).0;
            PreparedSound(e, p, s') && Keeps(s, s')
  {
    hide Perform, Decide, StoreSound, Play, Keeps, AllGrow, EvidenceSound;
    var served := Served(call, telemetry, now, env);
    var w := World(s, [], {});
    StoreIsWellFormed(e, s);
    ServiceIsPlayed(e, w, served);
    var moves :| Matches(w, Play(e, w, moves), served, Serve(e, s, served));
    PlayKeepsSound(e, w, moves);
    PerformKeeps(s, CallRev(call), Decide(e, s, call, telemetry), now, env);
    GrownStoreKeepsEvidence(e, p, s, Play(e, w, moves).store);
  }

  lemma StoreIsWellFormed(e: Engine, s: DateStore)
    requires StoreSound(e, s)
    ensures WellFormed(s)
  {
  }

  /** A directory without a context holds nothing. */
  lemma StagedHasContext(e: Engine, s: DateStore, rev: nat)
    requires StoreSound(e, s) && rev in s.staging
    ensures s.staging[rev].context.Some? || s.staging[rev] == EmptyDir
  {
    assert ViewSound(e, rev, ViewOf(s, rev));
  }

  lemma RecoverKeepsPrepared(e: Engine, p: Rules, s: DateStore, rev: nat, now: Instant, fault: Fault)
    requires PreparedSound(e, p, s)
    ensures var s' := Recover(s, rev, now, fault).0; PreparedSound(e, p, s') && Keeps(s, s')
  {
    hide Recover, StoreSound, Keeps, AllGrow, EvidenceSound;
    StoreIsWellFormed(e, s);
    RecoverKeepsSound(e, s, [], rev, now, fault);
    OpKeeps(s, OpRecover(rev, now, fault));
    GrownStoreKeepsEvidence(e, p, s, Recover(s, rev, now, fault).0);
  }

  // ---- The steps of preparation ----

  /** A staged run that has no final checkpoint yet. */
  ghost predicate Open(e: Engine, p: Rules, s: DateStore, rev: nat) {
    PreparedSound(e, p, s) && rev in s.staging && s.staging[rev].context.Some?
    && !ClosedRuns.Ended(s.staging[rev].checkpoints)
  }

  /** Still open, and nothing was lost on the way from `s`. */
  ghost predicate StaysOpen(e: Engine, p: Rules, s: DateStore, s': DateStore, rev: nat) {
    Open(e, p, s', rev) && Keeps(s, s')
  }

  lemma OpenStays(e: Engine, p: Rules, s: DateStore, rev: nat)
    requires Open(e, p, s, rev)
    ensures StaysOpen(e, p, s, s, rev)
  {
    KeepsSelf(s);
  }

  lemma OpenChain(e: Engine, p: Rules, s: DateStore, s1: DateStore, s2: DateStore, rev: nat)
    requires StaysOpen(e, p, s, s1, rev) && StaysOpen(e, p, s1, s2, rev)
    ensures StaysOpen(e, p, s, s2, rev)
  {
    KeepsChain(s, s1, s2);
  }

  lemma OpenRun(e: Engine, p: Rules, s: DateStore, rev: nat)
    requires Open(e, p, s, rev)
    ensures var rd := s.staging[rev];
            && RunSound(e, rev, rd) && EvidenceSound(p, rd)
            && Load(s, rev) == LoadDir(rd, false) && Load(s, rev).Some?
            && WellFormed(s)
  {
    StagedRunSound(e, s, rev);
    assert Current(s, rev) == Some(s.staging[rev]);
  }

  lemma LocalStep(e: Engine, p: Rules, s: DateStore, rev: nat, grown: RunDir)
    requires Open(e, p, s, rev)
    requires RunSound(e, rev, grown) && EvidenceSound(p, grown) && !ClosedRuns.Ended(grown.checkpoints)
    ensures Open(e, p, s.(staging := s.staging[rev := grown]), rev)
  {
    var s' := s.(staging := s.staging[rev := grown]);
    assert s'.staging.Keys == s.staging.Keys;
    assert ViewSound(e, rev, ViewOf(s, rev));
    forall r ensures ViewSound(e, r, ViewOf(s', r)) {
      hide RunSound, FilesSettled, IndexSettled;
      if r != rev {
        assert ViewOf(s', r) == ViewOf(s, r);
        assert ViewSound(e, r, ViewOf(s, r));
      } else {
        assert ViewOf(s', r).dir == Some(grown) && !ViewOf(s', r).moved;
        assert ViewOf(s', r).entry.None? by { IndexedIsEnded(e, s, rev); }
      }
    }
    forall r | Current(s', r).Some? && Current(s', r).value.context.Some?
      ensures EvidenceSound(p, Current(s', r).value)
    {
      if r != rev { assert Current(s', r) == Current(s, r); }
    }
  }

  lemma IndexedIsEnded(e: Engine, s: DateStore, rev: nat)
    requires StoreSound(e, s) && rev in s.staging && !ClosedRuns.Ended(s.staging[rev].checkpoints)
    ensures rev !in s.index
  {
    assert ViewSound(e, rev, ViewOf(s, rev));
  }

  lemma StagingStaysOpen(e: Engine, p: Rules, s: DateStore, rev: nat, name: Name, payload: Payload, fault: Fault)
    requires Open(e, p, s, rev)
    requires name == ResearchPacket && name !in s.staging[rev].artifacts ==>
               EvidenceSound(p, s.staging[rev].(artifacts := s.staging[rev].artifacts[name := payload]))
    ensures StaysOpen(e, p, s, StageArtifact(s, rev, name, payload, fault).0, rev)
  {
    hide Open, Keeps, EvidenceSound, RunSound, StageArtifact, WellFormed;
    OpenRun(e, p, s, rev);
    OpKeeps(s, OpStage(rev, name, payload, fault));
    StagingOpens(e, p, s, rev, name, payload, fault);
  }

  lemma StagingOpens(e: Engine, p: Rules, s: DateStore, rev: nat, name: Name, payload: Payload, fault: Fault)
    requires Open(e, p, s, rev)
    requires name == ResearchPacket && name !in s.staging[rev].artifacts ==>
               EvidenceSound(p, s.staging[rev].(artifacts := s.staging[rev].artifacts[name := payload]))
    ensures Open(e, p, StageArtifact(s, rev, name, payload, fault).0, rev)
  {
    OpenRun(e, p, s, rev);
    var s' := StageArtifact(s, rev, name, payload, fault).0;
    if s' != s {
      var rd := s.staging[rev];
      var grown := rd.(artifacts := rd.artifacts[name := payload]);
      assert EvidenceSound(p, grown) && RunSound(e, rev, grown);
      LocalStep(e, p, s, rev, grown) by { hide Open, EvidenceSound, RunSound; OpenNotEnded(e, p, s, rev); }
    }
  }

  lemma OpenNotEnded(e: Engine, p: Rules, s: DateStore, rev: nat)
    requires Open(e, p, s, rev)
    ensures rev in s.staging && !ClosedRuns.Ended(s.staging[rev].checkpoints)
  {
  }

  /** A checkpoint of the preparation stages, none of which ends a run. */
  ghost predicate Harmless(rev: nat, cp: Checkpoint) {
    cp.revision == rev && !cp.stage.Published? && NoReasonYet(cp)
  }

  lemma AppendOpens(e: Engine, p: Rules, s: DateStore, rev: nat, cp: Checkpoint, fault: Fault)
    requires Open(e, p, s, rev) && Harmless(rev, cp)
    ensures Open(e, p, AppendCheckpoint(s, rev, cp, fault).0, rev)
  {
    hide Admits;
    OpenRun(e, p, s, rev);
    var s' := AppendCheckpoint(s, rev, cp, fault).0;
    if s' != s {
      var grown := Append(s.staging[rev], cp);
      assert Last(grown.checkpoints) == cp;
      assert EvidenceSound(p, grown) && RunSound(e, rev, grown) && !ClosedRuns.Ended(grown.checkpoints);
      LocalStep(e, p, s, rev, grown) by { hide Open, EvidenceSound, RunSound; OpenNotEnded(e, p, s, rev); }
    }
  }

  lemma AppendStaysOpen(e: Engine, p: Rules, s: DateStore, rev: nat, cp: Checkpoint, fault: Fault)
    requires Open(e, p, s, rev) && Harmless(rev, cp)
    ensures StaysOpen(e, p, s, AppendCheckpoint(s, rev, cp, fault).0, rev)
  {
    hide Open, Keeps, AppendCheckpoint, RunSound, EvidenceSound, WellFormed, Harmless;
    OpenRun(e, p, s, rev);
    OpKeeps(s, OpCheckpoint(rev, cp, fault));
    AppendOpens(e, p, s, rev, cp, fault);
  }

  lemma AppendIfStaysOpen(e: Engine, p: Rules, s: DateStore, rev: nat, cp: Checkpoint, expected: nat, fault: Fault)
    requires Open(e, p, s, rev) && Harmless(rev, cp)
    ensures StaysOpen(e, p, s, AppendIfCurrent(s, rev, cp, expected, fault).0, rev)
  {
    hide Open, StaysOpen, AppendCheckpoint, Harmless;
    OpenStays(e, p, s, rev);
    AppendStaysOpen(e, p, s, rev, cp, fault);
  }

  predicate NoPacket(writes: Writes) {
    forall k :: 0 <= k < |writes| ==> writes[k].0 != ResearchPacket
  }

  lemma {:induction false} StageAllStaysOpen(e: Engine, p: Rules, s: DateStore, rev: nat, writes: Writes,
                                             env: Environment, i: nat)
    requires Open(e, p, s, rev) && NoPacket(writes)
    ensures StaysOpen(e, p, s, StageAll(s, rev, writes, env, i).0, rev)
    decreases |writes|
  {
    hide Open, Keeps, StageArtifact;
    OpenStays(e, p, s, rev);
    if writes != [] {
      var s1 := StageArtifact(s, rev, writes[0].0, writes[0].1, env(i)).0;
      StagingStaysOpen(e, p, s, rev, writes[0].0, writes[0].1, env(i)) by { OpenNotEnded(e, p, s, rev); }
      StageAllStaysOpen(e, p, s1, rev, writes[1..], env, i + 1);
      OpenChain(e, p, s, s1, StageAll(s1, rev, writes[1..], env, i + 1).0, rev);
    }
  }

  lemma StageAndAppendStaysOpen(e: Engine, p: Rules, s: DateStore, rev: nat, writes: Writes, cp: Checkpoint,
                                expected: nat, env: Environment)
    requires Open(e, p, s, rev) && NoPacket(writes) && Harmless(rev, cp)
    ensures StaysOpen(e, p, s, StageAndAppend(s, rev, writes, cp, expected, env).0, rev)
  {
    hide Open, Keeps, StageAll, AppendIfCurrent, Harmless;
    var s1 := StageAll(s, rev, writes, env, 0).0;
    StageAllStaysOpen(e, p, s, rev, writes, env, 0);
    AppendIfStaysOpen(e, p, s1, rev, cp, expected, env(|writes|));
    OpenChain(e, p, s, s1, AppendIfCurrent(s1, rev, cp, expected, env(|writes|)).0, rev);
  }

  /** The staged collection completed exactly at this cutoff. */
  ghost predicate CompletedAt(p: Rules, rd: RunDir, cutoff: Instant) {
    && rd.context.Some?
    && MarketDataCollection in rd.artifacts
    && rd.artifacts[MarketDataCollection].CollectionBytes?
    && rd.artifacts[MarketDataCollection].collection.completedAt == cutoff
    && rd.artifacts[MarketDataCollection].collection.symbols == p.symbols(rd.context.value.configuration)
  }

  lemma FreezeOpens(e: Engine, p: Rules, s: DateStore, rev: nat, cutoff: Instant, fault: Fault)
    requires Open(e, p, s, rev) && CompletedAt(p, s.staging[rev], cutoff)
    ensures Open(e, p, Freeze(s, rev, cutoff, fault).0, rev)
  {
    OpenRun(e, p, s, rev);
    var rd := s.staging[rev];
    if rd.freeze.None? {
      var frozen := rd.(freeze := Some(cutoff));
      var s1 := s.(staging := s.staging[rev := frozen]);
      assert RunSound(e, rev, frozen) && EvidenceSound(p, frozen);
      hide Open, RunSound, EvidenceSound, AppendCheckpoint;
      OpenNotEnded(e, p, s, rev);
      LocalStep(e, p, s, rev, frozen);
      AppendOpens(e, p, s1, rev, FrozenMarker(rd, rev, cutoff), fault.After(1));
    }
  }

  lemma FreezeStaysOpen(e: Engine, p: Rules, s: DateStore, rev: nat, cutoff: Instant, fault: Fault)
    requires Open(e, p, s, rev) && CompletedAt(p, s.staging[rev], cutoff)
    ensures StaysOpen(e, p, s, Freeze(s, rev, cutoff, fault).0, rev)
  {
    hide Open, Keeps, Freeze, CompletedAt, WellFormed, RunSound, EvidenceSound;
    OpenRun(e, p, s, rev);
    OpKeeps(s, OpFreeze(rev, cutoff, fault));
    FreezeOpens(e, p, s, rev, cutoff, fault);
  }

  // ---- The phases ----

  lemma PriorStaysOpen(e: Engine, p: Rules, s: DateStore, run: RunContext, chosen: string, at: Instant, env: Environment)
    requires Open(e, p, s, run.revision)
    ensures StaysOpen(e, p, s, FreezePrior(p, s, run, chosen, at, env).0, run.revision)
  {
    hide Open, StaysOpen, StageAndAppend, BoundPriors, LatestAt;
    var rev := run.revision;
    OpenStays(e, p, s, rev);
    var s' := FreezePrior(p, s, run, chosen, at, env).0;
    if s' != s {
      var stored, payload := Load(s, rev).value, ReadStaged(s, rev, PriorResearch);
      var selection := if payload.Some? then payload.value.text else chosen;
      var writes := if payload.None? then [(PriorResearch, TextBytes(selection))] else [];
      StageAndAppendStaysOpen(e, p, s, rev, writes, ConfigCheckpoint(stored, selection, at),
                              |stored.checkpoints|, env);
    }
  }

  /** The staged collection of a run is `collection`. */
  ghost predicate Holds(rd: RunDir, collection: Collection) {
    MarketDataCollection in rd.artifacts && rd.artifacts[MarketDataCollection] == CollectionBytes(collection)
  }

  lemma ChosenIsStaged(p: Rules, s: DateStore, run: RunContext, cps: seq<Checkpoint>, answer: Answer<Collection>,
                       fault: Fault)
    requires run.revision in s.staging
    requires StageFresh(s, run, cps, answer, fault).1.Ok?
    requires ChosenCollection(p, s, run, cps, answer).Ok?
    ensures var s1 := StageFresh(s, run, cps, answer, fault).0;
            var collection := ChosenCollection(p, s, run, cps, answer).value;
            && run.revision in s1.staging
            && Holds(s1.staging[run.revision], collection)
            && collection.symbols == p.symbols(run.configuration)
  {
  }

  lemma HeldStays(s: DateStore, s': DateStore, rev: nat, collection: Collection)
    requires Keeps(s, s') && rev in s.staging && rev in s'.staging && Holds(s.staging[rev], collection)
    ensures Holds(s'.staging[rev], collection)
  {
    assert Current(s, rev) == Some(s.staging[rev]) && Current(s', rev) == Some(s'.staging[rev]);
  }

  lemma HeldIsComplete(e: Engine, p: Rules, s: DateStore, run: RunContext, collection: Collection)
    requires Open(e, p, s, run.revision) && Holds(s.staging[run.revision], collection)
    requires collection.symbols == p.symbols(run.configuration)
    requires Load(s, run.revision).Some? && SameButCutoff(Load(s, run.revision).value.run, run)
    ensures CompletedAt(p, s.staging[run.revision], collection.completedAt)
  {
    OpenRun(e, p, s, run.revision);
  }

  lemma SameRunStays(e: Engine, p: Rules, s: DateStore, s': DateStore, run: RunContext)
    requires Open(e, p, s, run.revision) && StaysOpen(e, p, s, s', run.revision)
    requires Load(s, run.revision).Some? && SameButCutoff(Load(s, run.revision).value.run, run)
    ensures Load(s', run.revision).Some? && SameButCutoff(Load(s', run.revision).value.run, run)
  {
    var rev := run.revision;
    OpenRun(e, p, s, rev);
    OpenRun(e, p, s', rev);
    assert Current(s, rev) == Some(s.staging[rev]) && Current(s', rev) == Some(s'.staging[rev]);
    assert DirKeeps(s.staging[rev], s'.staging[rev]);
  }

  /** The first two writes of binding a collection: its telemetry and its checkpoint. */
  function Bind(s: DateStore, rev: nat, stored: Stored, collection: Collection, telemetry: Telemetry, env: Environment)
    : (DateStore, Result<()>)
  {
    if LatestAt(stored.checkpoints, Stage.EvidenceCollected).Some? then (s, Ok(()))
    else
      var (s0, staged) := StageArtifact(s, rev, TelemetryArtifact(telemetry).0, TelemetryArtifact(telemetry).1, env(1));
      if !staged.Ok? then (s0, Propagate(staged))
      else
        AppendIfCurrent(s0, rev, WithTelemetry(CollectedCheckpoint(stored, collection), telemetry),
                        |stored.checkpoints|, env(2))
  }

  lemma BindStaysOpen(e: Engine, p: Rules, s: DateStore, rev: nat, stored: Stored, collection: Collection,
                      telemetry: Telemetry, env: Environment)
    requires Open(e, p, s, rev) && stored.run.revision == rev
    ensures StaysOpen(e, p, s, Bind(s, rev, stored, collection, telemetry, env).0, rev)
  {
    hide Open, Keeps, StageArtifact, AppendIfCurrent, LatestAt;
    OpenStays(e, p, s, rev);
    OpenNotEnded(e, p, s, rev);
    var s0 := StageArtifact(s, rev, TelemetryArtifact(telemetry).0, TelemetryArtifact(telemetry).1, env(1)).0;
    StagingStaysOpen(e, p, s, rev, TelemetryArtifact(telemetry).0, TelemetryArtifact(telemetry).1, env(1));
    var cp := WithTelemetry(CollectedCheckpoint(stored, collection), telemetry);
    AppendIfStaysOpen(e, p, s0, rev, cp, |stored.checkpoints|, env(2));
    OpenChain(e, p, s, s0, AppendIfCurrent(s0, rev, cp, |stored.checkpoints|, env(2)).0, rev);
  }

  lemma BindAndFreezeStaysOpen(e: Engine, p: Rules, s: DateStore, run: RunContext, stored: Stored,
                               collection: Collection, telemetry: Telemetry, env: Environment)
    requires Open(e, p, s, run.revision) && stored.run.revision == run.revision
    requires Holds(s.staging[run.revision], collection) && collection.symbols == p.symbols(run.configuration)
    requires Load(s, run.revision).Some? && SameButCutoff(Load(s, run.revision).value.run, run)
    ensures StaysOpen(e, p, s, BindAndFreeze(s, run, stored, collection, telemetry, env).0, run.revision)
  {
    hide Open, StageArtifact, AppendIfCurrent, LatestAt, Freeze, Keeps, Load, Holds, CompletedAt, SameButCutoff;
    var rev := run.revision;
    var (s1, r) := Bind(s, rev, stored, collection, telemetry, env);
    BindStaysOpen(e, p, s, rev, stored, collection, telemetry, env);
    OpenNotEnded(e, p, s, rev);
    OpenNotEnded(e, p, s1, rev);
    HeldStays(s, s1, rev, collection);
    SameRunStays(e, p, s, s1, run);
    HeldIsComplete(e, p, s1, run, collection);
    FreezeStaysOpen(e, p, s1, rev, collection.completedAt, env(3));
    OpenChain(e, p, s, s1, Freeze(s1, rev, collection.completedAt, env(3)).0, rev);
  }

  lemma FreshStaysOpen(e: Engine, p: Rules, s: DateStore, run: RunContext, cps: seq<Checkpoint>,
                       answer: Answer<Collection>, fault: Fault)
    requires Open(e, p, s, run.revision)
    ensures StaysOpen(e, p, s, StageFresh(s, run, cps, answer, fault).0, run.revision)
  {
    hide Open, Keeps, StageArtifact, LatestAt;
    OpenStays(e, p, s, run.revision);
    OpenNotEnded(e, p, s, run.revision);
    if answer.Given? {
      StagingStaysOpen(e, p, s, run.revision, MarketDataCollection, CollectionBytes(answer.given), fault);
    }
  }

  lemma CollectStaysOpen(e: Engine, p: Rules, s: DateStore, run: RunContext, answer: Answer<Collection>,
                         telemetry: Telemetry, env: Environment)
    requires Open(e, p, s, run.revision)
    ensures StaysOpen(e, p, s, CollectAndFreeze(p, s, run, answer, telemetry, env).0, run.revision)
  {
    hide Open, Keeps, StageFresh, ChosenCollection, BindAndFreeze, LoadFrozen, LatestTelemetry, SameButCutoff, Holds;
    var rev := run.revision;
    OpenStays(e, p, s, rev);
    OpenRun(e, p, s, rev);
    var stored := Load(s, rev).value;
    if !stored.published && SameButCutoff(stored.run, run) && stored.cutoff.None? {
      var (s1, kept) := StageFresh(s, run, stored.checkpoints, answer, env(0));
      var collection := ChosenCollection(p, s, run, stored.checkpoints, answer);
      FreshStaysOpen(e, p, s, run, stored.checkpoints, answer, env(0));
      if kept.Ok? && collection.Ok? {
        OpenNotEnded(e, p, s, rev);
        ChosenIsStaged(p, s, run, stored.checkpoints, answer, env(0));
        SameRunStays(e, p, s, s1, run);
        StoredRevision(e, p, s, rev);
        BindAndFreezeStaysOpen(e, p, s1, run, stored, collection.value, telemetry, env);
        OpenChain(e, p, s, s1, BindAndFreeze(s1, run, stored, collection.value, telemetry, env).0, rev);
      }
    }
  }

  lemma StoredRevision(e: Engine, p: Rules, s: DateStore, rev: nat)
    requires Open(e, p, s, rev)
    ensures Load(s, rev).Some? && Load(s, rev).value.run.revision == rev && !Load(s, rev).value.published
  {
    OpenRun(e, p, s, rev);
  }

  lemma QualityStaysOpen(e: Engine, p: Rules, s: DateStore, run: RunContext, answer: Answer<QualityResult>,
                         at: Instant, telemetry: Telemetry, env: Environment)
    requires Open(e, p, s, run.revision)
    ensures StaysOpen(e, p, s, CheckpointQuality(p, s, run, answer, at, telemetry, env).0, run.revision)
  {
    hide Open, StaysOpen, StageAndAppend, LatestTelemetry, ChosenQuality, QualityRecorded, StoredCollection, WithTelemetry;
    var rev := run.revision;
    OpenStays(e, p, s, rev);
    StoredRevision(e, p, s, rev);
    var s' := CheckpointQuality(p, s, run, answer, at, telemetry, env).0;
    if s' != s {
      var (stored, collection) := LoadFrozen(p, s, run).value;
      var quality := ChosenQuality(s, rev, Last(stored.checkpoints), answer).value;
      var cp := QualityCheckpoint(stored, collection, quality, at);
      BoundIsHarmless(rev, cp, telemetry);
      StageAndAppendStaysOpen(e, p, s, rev, [(DataQuality, QualityBytes(quality)), TelemetryArtifact(telemetry)],
                              WithTelemetry(cp, telemetry), |stored.checkpoints|, env);
    }
  }

  lemma BoundIsHarmless(rev: nat, cp: Checkpoint, telemetry: Telemetry)
    requires Harmless(rev, cp)
    ensures Harmless(rev, WithTelemetry(cp, telemetry))
  {
  }

  /** A quality phase that returns leaves its status on the newest checkpoint. */
  lemma QualityLeavesStatus(e: Engine, p: Rules, s: DateStore, run: RunContext, answer: Answer<QualityResult>,
                            at: Instant, telemetry: Telemetry, env: Environment)
    requires Open(e, p, s, run.revision)
    ensures var (s', r) := CheckpointQuality(p, s, run, answer, at, telemetry, env);
            r.Ok? && run.revision in s'.staging ==>
              var cps := s'.staging[run.revision].checkpoints;
              cps != [] && Last(cps).quality == r.value.status
  {
    hide Open, StageAll, LatestTelemetry, ChosenQuality, StoredCollection, WithTelemetry, Admits;
    OpenNotEnded(e, p, s, run.revision);
    var (s', r) := CheckpointQuality(p, s, run, answer, at, telemetry, env);
    if r.Ok? {
      var (stored, collection) := LoadFrozen(p, s, run).value;
      if !Last(stored.checkpoints).stage.QualityEvaluated? {
        var cp := QualityCheckpoint(stored, collection, r.value, at);
        BoundQuality(cp, telemetry);
      }
    }
  }

  lemma BoundQuality(cp: Checkpoint, telemetry: Telemetry)
    ensures WithTelemetry(cp, telemetry).quality == cp.quality
  {
  }

  lemma FittingPacketIsSound(e: Engine, p: Rules, s: DateStore, packet: Packet, at: Instant)
    requires Open(e, p, s, packet.run.revision) && PacketFits(s, packet, at) && !packet.run.quality.Fail?
    ensures var rd := s.staging[packet.run.revision];
            EvidenceSound(p, rd.(artifacts := rd.artifacts[ResearchPacket := PacketBytes(packet)]))
  {
    hide LatestTelemetry;
    OpenRun(e, p, s, packet.run.revision);
  }

  lemma PacketStaysOpen(e: Engine, p: Rules, s: DateStore, packet: Packet, at: Instant, telemetry: Telemetry,
                        env: Environment)
    requires Open(e, p, s, packet.run.revision) && !packet.run.quality.Fail?
    ensures StaysOpen(e, p, s, StagePacket(e, s, packet, at, telemetry, env).0, packet.run.revision)
  {
    hide Open, Keeps, StageArtifact, AppendCheckpoint, PacketFits, EvidenceSound, PacketRecorded, Load;
    var rev := packet.run.revision;
    OpenStays(e, p, s, rev);
    OpenNotEnded(e, p, s, rev);
    if PacketFits(s, packet, at) {
      FittingPacketIsSound(e, p, s, packet, at);
      var write1, write2 := (ResearchPacket, PacketBytes(packet)), (ReducedReport, TextBytes(e.base(packet)));
      var (s0, r0) := StageArtifact(s, rev, write1.0, write1.1, env(0));
      StagingStaysOpen(e, p, s, rev, write1.0, write1.1, env(0));
      OpenNotEnded(e, p, s0, rev);
      var (s1, r1) := StageAll(s, rev, [write1, write2], env, 0);
      StageTwo(s, rev, write1, write2, env);
      StagingStaysOpen(e, p, s0, rev, write2.0, write2.1, env(1));
      OpenChain(e, p, s, s0, StageArtifact(s0, rev, write2.0, write2.1, env(1)).0, rev);
      assert StaysOpen(e, p, s, s1, rev);
      OpenNotEnded(e, p, s1, rev);
      var write3 := TelemetryArtifact(telemetry);
      var s2 := StageArtifact(s1, rev, write3.0, write3.1, env(2)).0;
      StagingStaysOpen(e, p, s1, rev, write3.0, write3.1, env(2));
      OpenChain(e, p, s, s1, s2, rev);
      var cp := PacketCheckpoint(packet, e.base(packet), at);
      BoundIsHarmless(rev, cp, telemetry);
      AppendStaysOpen(e, p, s2, rev, WithTelemetry(cp, telemetry), env(3));
      OpenChain(e, p, s, s2, AppendCheckpoint(s2, rev, WithTelemetry(cp, telemetry), env(3)).0, rev);
    }
  }

  lemma StageTwo(s: DateStore, rev: nat, write1: (Name, Payload), write2: (Name, Payload), env: Environment)
    ensures StageAll(s, rev, [write1, write2], env, 0)
            == (var (s0, r0) := StageArtifact(s, rev, write1.0, write1.1, env(0));
                if !r0.Ok? then (s0, Propagate(r0))
                else
                  var (s1, r1) := StageArtifact(s0, rev, write2.0, write2.1, env(1));
                  (s1, if r1.Ok? then Ok(()) else Propagate(r1)))
  {
    hide StageArtifact;
    StageOne(StageArtifact(s, rev, write1.0, write1.1, env(0)).0, rev, write2, env, 1);
    assert [write1, write2][1..] == [write2];
  }

  // ---- Hand-offs ----

  /** What `coherent_handoff` demands of a packet hand-off. */
  ghost predicate Coherent(stored: Stored, packet: Packet) {
    && !stored.published
    && stored.checkpoints != []
    && var latest := Last(stored.checkpoints);
    && StageAwaitsSynthesis(latest.stage)
    && packet.run == ComposeRun(stored.run, latest).(execution := Execution.AwaitingSynthesis)
    && !packet.run.quality.Fail?
    && stored.cutoff == packet.run.cutoff
    && ResearchPacket in latest.artifacts
    && latest.artifacts[ResearchPacket] == Sha256(PacketBytes(packet))
  }

  /** Staging touches nothing of a staged run but its artifacts. */
  ghost predicate OnlyStaged(s: DateStore, s': DateStore, rev: nat) {
    && rev in s.staging && rev in s'.staging
    && s'.staging[rev] == s.staging[rev].(artifacts := s'.staging[rev].artifacts)
    && forall n :: n in s.staging[rev].artifacts ==>
         n in s'.staging[rev].artifacts && s'.staging[rev].artifacts[n] == s.staging[rev].artifacts[n]
  }

  lemma StagesOnly(s: DateStore, rev: nat, name: Name, payload: Payload, fault: Fault)
    requires rev in s.staging
    ensures OnlyStaged(s, StageArtifact(s, rev, name, payload, fault).0, rev)
    ensures var (s', r) := StageArtifact(s, rev, name, payload, fault);
            r.Ok? ==> ReadStaged(s', rev, name) == Some(payload)
  {
  }

  lemma PacketWritesOnlyStage(s: DateStore, rev: nat, packet: Packet, base: string, telemetry: Telemetry, env: Environment)
    requires rev in s.staging
    ensures var (s1, r1) := StageAll(s, rev, [(ResearchPacket, PacketBytes(packet)), (ReducedReport, TextBytes(base))], env, 0);
            && OnlyStaged(s, s1, rev)
            && (r1.Ok? ==> ReadStaged(s1, rev, ResearchPacket) == Some(PacketBytes(packet)))
            && OnlyStaged(s, StageArtifact(s1, rev, TelemetryArtifact(telemetry).0, TelemetryArtifact(telemetry).1, env(2)).0, rev)
  {
    hide StageArtifact, StageAll;
    var write1, write2 := (ResearchPacket, PacketBytes(packet)), (ReducedReport, TextBytes(base));
    StageTwo(s, rev, write1, write2, env);
    var s0 := StageArtifact(s, rev, write1.0, write1.1, env(0)).0;
    StagesOnly(s, rev, write1.0, write1.1, env(0));
    StagesOnly(s0, rev, write2.0, write2.1, env(1));
    var s1 := StageAll(s, rev, [write1, write2], env, 0).0;
    StagesOnly(s1, rev, TelemetryArtifact(telemetry).0, TelemetryArtifact(telemetry).1, env(2));
  }

  lemma PacketCheckpointCarries(packet: Packet, base: string, at: Instant, telemetry: Telemetry)
    ensures var cp := WithTelemetry(PacketCheckpoint(packet, base, at), telemetry);
            && cp.stage.AwaitingSynthesis? && cp.quality == packet.run.quality && cp.delivery == packet.run.delivery
            && ResearchPacket in cp.artifacts && cp.artifacts[ResearchPacket] == Sha256(PacketBytes(packet))
  {
  }

  /** A packet that was staged is handed off coherently, and stays staged. */
  lemma StagedPacketIsCoherent(e: Engine, p: Rules, s: DateStore, packet: Packet, at: Instant, telemetry: Telemetry,
                               env: Environment)
    requires Open(e, p, s, packet.run.revision) && !packet.run.quality.Fail?
    ensures var (s', r) := StagePacket(e, s, packet, at, telemetry, env);
            r.Ok? ==>
              && Load(s', packet.run.revision).Some?
              && Coherent(Load(s', packet.run.revision).value, packet)
              && ReadStaged(s', packet.run.revision, ResearchPacket) == Some(PacketBytes(packet))
  {
    hide Open, StageArtifact, StageAll, Admits, WithTelemetry, LatestTelemetry;
    var rev, base := packet.run.revision, e.base(packet);
    OpenNotEnded(e, p, s, rev);
    PacketWritesOnlyStage(s, rev, packet, base, telemetry, env);
    PacketCheckpointCarries(packet, base, at, telemetry);
    var (s', r) := StagePacket(e, s, packet, at, telemetry, env);
    if r.Ok? {
      hide OnlyStaged;
      var (s1, r1) := StageAll(s, rev, [(ResearchPacket, PacketBytes(packet)), (ReducedReport, TextBytes(base))], env, 0);
      StagedFrame(s, s1, rev);
      if !StageAwaitsSynthesis(Last(Load(s, rev).value.checkpoints).stage) {
        var s2 := StageArtifact(s1, rev, TelemetryArtifact(telemetry).0, TelemetryArtifact(telemetry).1, env(2)).0;
        StagedFrame(s, s2, rev);
        StagesOnly(s1, rev, TelemetryArtifact(telemetry).0, TelemetryArtifact(telemetry).1, env(2));
        PacketRemains(s1, s2, rev, packet);
      }
    }
  }

  lemma PacketRemains(s1: DateStore, s2: DateStore, rev: nat, packet: Packet)
    requires OnlyStaged(s1, s2, rev) && ReadStaged(s1, rev, ResearchPacket) == Some(PacketBytes(packet))
    ensures ReadStaged(s2, rev, ResearchPacket) == Some(PacketBytes(packet))
  {
  }

  lemma StagedFrame(s: DateStore, s': DateStore, rev: nat)
    requires OnlyStaged(s, s', rev)
    ensures rev in s.staging && rev in s'.staging && Load(s', rev) == Load(s, rev)
    ensures s'.staging[rev].checkpoints == s.staging[rev].checkpoints && s'.staging[rev].context == s.staging[rev].context
            && s'.staging[rev].freeze == s.staging[rev].freeze
  {
  }

  // ---- Whole calls ----

  /** The invariant holds again, and nothing was lost on the way. */
  ghost predicate StaysSound(e: Engine, p: Rules, s: DateStore, s': DateStore) {
    PreparedSound(e, p, s') && Keeps(s, s')
  }

  lemma SoundSelf(e: Engine, p: Rules, s: DateStore)
    requires PreparedSound(e, p, s)
    ensures StaysSound(e, p, s, s)
  {
    KeepsSelf(s);
  }

  lemma SoundIsPrepared(e: Engine, p: Rules, s: DateStore, s': DateStore)
    requires StaysSound(e, p, s, s')
    ensures PreparedSound(e, p, s')
  {
  }

  lemma SoundChain(e: Engine, p: Rules, s: DateStore, s1: DateStore, s2: DateStore)
    requires StaysSound(e, p, s, s1) && StaysSound(e, p, s1, s2)
    ensures StaysSound(e, p, s, s2)
  {
    KeepsChain(s, s1, s2);
  }

  lemma OpenIsSound(e: Engine, p: Rules, s: DateStore, s': DateStore, rev: nat)
    requires StaysOpen(e, p, s, s', rev)
    ensures StaysSound(e, p, s, s') && PreparedSound(e, p, s')
  {
  }

  lemma LoadedRevision(e: Engine, s: DateStore, rev: nat)
    requires StoreSound(e, s) && Load(s, rev).Some?
    ensures Load(s, rev).value.run.revision == rev
  {
    assert ViewSound(e, rev, ViewOf(s, rev));
  }

  lemma RecordingStaysSound(e: Engine, p: Rules, s: DateStore, rev: nat, code: ErrorCode, at: Instant, env: Environment)
    requires PreparedSound(e, p, s)
    ensures StaysSound(e, p, s, Perform(s, rev, PlanFailure(s, rev, code, at), at, env).0)
  {
    hide PreparedSound, Keeps, Perform, PlanFailure;
    PerformKeepsPrepared(e, p, s, CallFail(rev, code, at), Telemetry([]), at, env);
  }

  lemma EndingStaysSound(e: Engine, p: Rules, s: DateStore, run: RunContext, code: ErrorCode, at: Instant,
                         telemetry: Telemetry, env: Environment)
    requires PreparedSound(e, p, s)
    ensures StaysSound(e, p, s, Perform(s, run.revision, PlanOperational(e, s, run, code, at, false, telemetry), at, env).0)
  {
    hide PreparedSound, Keeps, Perform, PlanOperational;
    PerformKeepsPrepared(e, p, s, CallOperational(run, code, at, false), telemetry, at, env);
  }

  lemma FailureStaysSound(e: Engine, p: Rules, s: DateStore, rev: nat, code: ErrorCode, at: Instant,
                          quality: Option<QualityResult>, a: Answers)
    requires PreparedSound(e, p, s)
    ensures StaysSound(e, p, s, OperationalFailure(e, s, rev, code, at, quality, a).0)
  {
    hide Perform, PlanFailure, Load, EndFailed, PreparedSound, StaysSound;
    SoundSelf(e, p, s);
    var stored := Load(s, rev);
    if stored.Some? && stored.value.checkpoints != [] {
      var (s1, recorded) :=
        if Last(stored.value.checkpoints).quality.Fail? then (s, Ok(FailureRecorded))
        else Perform(s, rev, PlanFailure(s, rev, code, at), at, a.env(0));
      RecordingStaysSound(e, p, s, rev, code, at, a.env(0));
      SoundIsPrepared(e, p, s, s1);
      EndFailedStaysSound(e, p, s1, rev, code, at, quality, a);
      SoundChain(e, p, s, s1, EndFailed(e, s1, rev, code, at, quality, a).0);
    }
  }

  lemma EndFailedStaysSound(e: Engine, p: Rules, s: DateStore, rev: nat, code: ErrorCode, at: Instant,
                            quality: Option<QualityResult>, a: Answers)
    requires PreparedSound(e, p, s)
    ensures StaysSound(e, p, s, EndFailed(e, s, rev, code, at, quality, a).0)
  {
    hide Perform, PlanOperational, Load, PublishedResult, PreparedSound, StaysSound;
    SoundSelf(e, p, s);
    var stored := Load(s, rev);
    if stored.Some? && stored.value.checkpoints != [] {
      var run := ComposeRun(stored.value.run, Last(stored.value.checkpoints));
      EndingStaysSound(e, p, s, run, code, at, a.measured(0), a.env(1));
    }
  }

  lemma PreparedStore(e: Engine, p: Rules, s: DateStore)
    requires PreparedSound(e, p, s)
    ensures StoreSound(e, s) && WellFormed(s)
  {
  }

  /** Every result that hands off a packet hands off the staged one, coherently. */
  ghost predicate HandsOff(s: DateStore, rev: nat, r: Result<Handoff>) {
    r.Ok? && r.value.PacketReady? ==>
      && Load(s, rev) == Some(r.value.stored)
      && Coherent(r.value.stored, r.value.packet)
      && ReadStaged(s, rev, ResearchPacket) == Some(PacketBytes(r.value.packet))
  }

  lemma FailureHandsOffNothing(e: Engine, s: DateStore, rev: nat, code: ErrorCode, at: Instant,
                               quality: Option<QualityResult>, a: Answers)
    ensures var r := OperationalFailure(e, s, rev, code, at, quality, a).1; r.Ok? ==> r.value.Ended?
  {
    hide Perform, PlanFailure, PlanOperational, Load;
  }

  lemma ReuseIsSound(e: Engine, p: Rules, s: DateStore, rev: nat, a: Answers)
    requires PreparedSound(e, p, s) && rev in s.staging
    requires ReadStaged(s, rev, ResearchPacket).Some? && s.staging[rev].checkpoints != []
    ensures var (s', r) := ReusePacket(e, s, rev, ReadStaged(s, rev, ResearchPacket).value,
                                       Last(s.staging[rev].checkpoints), a);
            StaysSound(e, p, s, s') && HandsOff(s', rev, r)
  {
    hide Keeps, StagePacket, Load;
    SoundSelf(e, p, s);
    var payload, latest := ReadStaged(s, rev, ResearchPacket).value, Last(s.staging[rev].checkpoints);
    assert Current(s, rev) == Some(s.staging[rev]);
    if payload.PacketBytes? {
      var packet := payload.packet;
      PreparedStore(e, p, s);
      StagedHasContext(e, s, rev);
      StagedRunSound(e, s, rev);
      assert packet.run.revision == rev;
      var at := if latest.writtenAt >= packet.run.invokedAt then latest.writtenAt else packet.run.invokedAt;
      StageSoundly(e, p, s, packet, at, a.measured(5), a.env(5));
    }
  }

  /** Staging a packet is sound from an open run, and refused from one that ended. */
  lemma StageSoundly(e: Engine, p: Rules, s: DateStore, packet: Packet, at: Instant, telemetry: Telemetry,
                     env: Environment)
    requires PreparedSound(e, p, s) && packet.run.revision in s.staging && !packet.run.quality.Fail?
    ensures var (s', r) := StagePacket(e, s, packet, at, telemetry, env);
            && StaysSound(e, p, s, s')
            && HandsOff(s', packet.run.revision, Ready(packet.run.revision, packet, (s', r)).1)
  {
    hide PreparedSound, Keeps, StagePacket, Coherent, StaysOpen;
    var rev := packet.run.revision;
    SoundSelf(e, p, s);
    if s.staging[rev].context.None? || ClosedRuns.Ended(s.staging[rev].checkpoints) {
      EndedRefusesPacket(e, p, s, packet, at, telemetry, env);
    } else {
      assert Open(e, p, s, rev);
      PacketStaysOpen(e, p, s, packet, at, telemetry, env);
      OpenIsSound(e, p, s, StagePacket(e, s, packet, at, telemetry, env).0, rev);
      StagedPacketIsCoherent(e, p, s, packet, at, telemetry, env);
    }
  }

  lemma EndedRefusesPacket(e: Engine, p: Rules, s: DateStore, packet: Packet, at: Instant, telemetry: Telemetry,
                           env: Environment)
    requires packet.run.revision in s.staging
    requires s.staging[packet.run.revision].context.None? || ClosedRuns.Ended(s.staging[packet.run.revision].checkpoints)
    ensures StagePacket(e, s, packet, at, telemetry, env) == (s, Rejected(InvalidRequest))
  {
  }

  /** A call's outcome: the store stays sound and a packet hand-off is the staged packet. */
  ghost predicate Outcome(e: Engine, p: Rules, s: DateStore, rev: nat, result: (DateStore, Result<Handoff>)) {
    StaysSound(e, p, s, result.0) && HandsOff(result.0, rev, result.1)
  }

  lemma OutcomeChain(e: Engine, p: Rules, s: DateStore, s1: DateStore, rev: nat, result: (DateStore, Result<Handoff>))
    requires StaysSound(e, p, s, s1) && Outcome(e, p, s1, rev, result)
    ensures Outcome(e, p, s, rev, result)
  {
    hide HandsOff, StaysSound;
    SoundChain(e, p, s, s1, result.0);
  }

  lemma FailureOutcome(e: Engine, p: Rules, s: DateStore, rev: nat, code: ErrorCode, at: Instant,
                       quality: Option<QualityResult>, a: Answers)
    requires PreparedSound(e, p, s)
    ensures Outcome(e, p, s, rev, OperationalFailure(e, s, rev, code, at, quality, a))
  {
    hide OperationalFailure, PreparedSound, Keeps;
    FailureStaysSound(e, p, s, rev, code, at, quality, a);
    FailureHandsOffNothing(e, s, rev, code, at, quality, a);
  }

  lemma RefusalOutcome(e: Engine, p: Rules, s: DateStore, rev: nat, s': DateStore)
    requires StaysSound(e, p, s, s')
    ensures forall r: Result<Handoff> :: (r.Ok? ==> !r.value.PacketReady?) ==> Outcome(e, p, s, rev, (s', r))
  {
  }

  lemma EvaluateOutcome(e: Engine, p: Rules, s: DateStore, run: RunContext, collection: Collection, prior: string,
                        a: Answers)
    requires Open(e, p, s, run.revision)
    ensures Outcome(e, p, s, run.revision, Evaluate(e, p, s, run, collection, prior, a))
  {
    hide Open, StaysSound, PreparedSound, CheckpointQuality, OperationalFailure, StagePacket, HandsOff, Outcome;
    var rev := run.revision;
    var (s1, quality) := CheckpointQuality(p, s, run, a.quality, a.now(4), a.measured(4), a.env(4));
    QualityStaysOpen(e, p, s, run, a.quality, a.now(4), a.measured(4), a.env(4));
    QualityLeavesStatus(e, p, s, run, a.quality, a.now(4), a.measured(4), a.env(4));
    OpenIsSound(e, p, s, s1, rev);
    RefusalOutcome(e, p, s, rev, s1);
    if quality.Ok? && quality.value.status.Fail? && quality.value.reasons != [] {
      FailureOutcome(e, p, s1, rev, quality.value.reasons[0], a.now(5), Some(quality.value), a);
      OutcomeChain(e, p, s, s1, rev, OperationalFailure(e, s1, rev, quality.value.reasons[0], a.now(5), Some(quality.value), a));
    } else if quality.Ok? && !quality.value.status.Fail? {
      OpenNotEnded(e, p, s1, rev);
      StoredRevision(e, p, s1, rev);
      OpenLast(e, p, s1, rev);
      var stored := Load(s1, rev).value;
      if stored.checkpoints != [] {
        var context := ComposeRun(stored.run, Last(stored.checkpoints)).(execution := Execution.AwaitingSynthesis);
        var built := a.build(context, collection, quality.value, prior);
        if built.Given? {
          var packet := Packet(context, [], built.given);
          StageOutcome(e, p, s1, packet, a.now(6), a.measured(5), a.env(5));
          OutcomeChain(e, p, s, s1, rev, Ready(rev, packet, StagePacket(e, s1, packet, a.now(6), a.measured(5), a.env(5))));
        }
      }
    }
  }

  lemma StageOutcome(e: Engine, p: Rules, s: DateStore, packet: Packet, at: Instant, telemetry: Telemetry,
                     env: Environment)
    requires Open(e, p, s, packet.run.revision) && !packet.run.quality.Fail?
    ensures Outcome(e, p, s, packet.run.revision,
                    Ready(packet.run.revision, packet, StagePacket(e, s, packet, at, telemetry, env)))
  {
    hide StagePacket, HandsOff, StaysSound, PreparedSound;
    StageSoundly(e, p, s, packet, at, telemetry, env);
  }

  lemma OpenLast(e: Engine, p: Rules, s: DateStore, rev: nat)
    requires Open(e, p, s, rev)
    ensures Load(s, rev).Some? && Load(s, rev).value.checkpoints == s.staging[rev].checkpoints
  {
    OpenRun(e, p, s, rev);
  }

  lemma AssembleOutcome(e: Engine, p: Rules, s: DateStore, run: RunContext, a: Answers)
    requires Open(e, p, s, run.revision)
    ensures Outcome(e, p, s, run.revision, Assemble(e, p, s, run, a))
  {
    hide Open, StaysSound, PreparedSound, FreezePrior, CollectAndFreeze, Evaluate, HandsOff, Outcome, Keeps;
    var rev := run.revision;
    OpenStays(e, p, s, rev);
    OpenIsSound(e, p, s, s, rev);
    var (s1, prior) := FreezePrior(p, s, run, a.prior, a.now(2), a.env(2));
    PriorStaysOpen(e, p, s, run, a.prior, a.now(2), a.env(2));
    OpenIsSound(e, p, s, s1, rev);
    var (s2, collected) := CollectAndFreeze(p, s1, run, a.collect, a.measured(3), a.env(3));
    CollectStaysOpen(e, p, s1, run, a.collect, a.measured(3), a.env(3));
    OpenChain(e, p, s, s1, s2, rev);
    OpenIsSound(e, p, s, s2, rev);
    RefusalOutcome(e, p, s, rev, s);
    RefusalOutcome(e, p, s, rev, s1);
    RefusalOutcome(e, p, s, rev, s2);
    if collected.Ok? {
      CollectedRevision(e, p, s1, run, a.collect, a.measured(3), a.env(3));
      EvaluateOutcome(e, p, s2, collected.value.0.run, collected.value.1, if prior.Ok? then prior.value else "", a);
      OutcomeChain(e, p, s, s2, rev, Evaluate(e, p, s2, collected.value.0.run, collected.value.1,
                                              if prior.Ok? then prior.value else "", a));
    }
  }

  /** What collection returns is this run's own frozen state. */
  lemma CollectedRevision(e: Engine, p: Rules, s: DateStore, run: RunContext, answer: Answer<Collection>,
                          telemetry: Telemetry, env: Environment)
    requires Open(e, p, s, run.revision)
    ensures var (s', r) := CollectAndFreeze(p, s, run, answer, telemetry, env);
            r.Ok? ==> r.value.0.run.revision == run.revision
  {
    hide Open, StageFresh, ChosenCollection, StoredCollection, LatestTelemetry, StageArtifact, AppendIfCurrent, LatestAt;
    var rev := run.revision;
    var (s', r) := CollectAndFreeze(p, s, run, answer, telemetry, env);
    CollectStaysOpen(e, p, s, run, answer, telemetry, env);
    StoredRevision(e, p, s, rev);
    StoredRevision(e, p, s', rev);
    if r.Ok? { FreezeReturnsStored(e, p, s, run, answer, telemetry, env); }
  }

  lemma FreezeReturnsStored(e: Engine, p: Rules, s: DateStore, run: RunContext, answer: Answer<Collection>,
                            telemetry: Telemetry, env: Environment)
    requires Open(e, p, s, run.revision)
    requires CollectAndFreeze(p, s, run, answer, telemetry, env).1.Ok?
    ensures var (s', r) := CollectAndFreeze(p, s, run, answer, telemetry, env);
            Load(s', run.revision) == Some(r.value.0)
  {
    hide Open, StageFresh, ChosenCollection, StoredCollection, LatestTelemetry, StageArtifact, AppendIfCurrent, LatestAt,
         Freeze;
    var rev, stored := run.revision, Load(s, run.revision).value;
    if stored.cutoff.None? {
      var s1 := StageFresh(s, run, stored.checkpoints, answer, env(0)).0;
      var collection := ChosenCollection(p, s, run, stored.checkpoints, answer).value;
      var s2 := Bind(s1, rev, stored, collection, telemetry, env).0;
      FreezeLoads(s2, rev, collection.completedAt, env(3));
    }
  }

  lemma FreezeLoads(s: DateStore, rev: nat, cutoff: Instant, fault: Fault)
    ensures var (s', r) := Freeze(s, rev, cutoff, fault); r.Ok? ==> Load(s', rev) == Some(r.value)
  {
    hide Admits, LatestStatuses;
  }

  lemma ResumeOutcome(e: Engine, p: Rules, s: DateStore, rev: nat, latest: Checkpoint, a: Answers)
    requires PreparedSound(e, p, s)
    ensures Outcome(e, p, s, rev, ResumeFailure(e, s, rev, latest, a))
  {
    hide PreparedSound, Outcome, OperationalFailure, StaysSound;
    SoundSelf(e, p, s);
    RefusalOutcome(e, p, s, rev, s);
    var reason, quality := ReadStaged(s, rev, OperationalReason), ReadStaged(s, rev, DataQuality);
    if reason.Some? && reason.value.CodeBytes? {
      var code := reason.value.code;
      FailureOutcome(e, p, s, rev, code, a.now(1), None, a);
      if quality.Some? && quality.value.QualityBytes? {
        FailureOutcome(e, p, s, rev, code, a.now(1), Some(quality.value.quality), a);
      }
    }
  }

  lemma StagedOrPublished(e: Engine, s: DateStore, rev: nat)
    requires StoreSound(e, s) && Load(s, rev).Some?
    ensures !Load(s, rev).value.published ==>
              rev in s.staging && Load(s, rev).value.checkpoints == s.staging[rev].checkpoints
  {
    assert ViewSound(e, rev, ViewOf(s, rev));
  }

  lemma PrepareOutcome(e: Engine, p: Rules, s: DateStore, rev: nat, a: Answers)
    requires PreparedSound(e, p, s)
    ensures Outcome(e, p, s, rev, Prepare(e, p, s, rev, a))
  {
    hide PreparedSound, Outcome, OperationalFailure, StaysSound, ResumeFailure, ReusePacket, Assemble, Load, PublishedResult,
         ReadStaged, HandsOff, StoreSound;
    SoundSelf(e, p, s);
    PreparedStore(e, p, s);
    RefusalOutcome(e, p, s, rev, s);
    PublishedHandsOffNothing(s, rev);
    FailureOutcome(e, p, s, rev, MarketCalendarUnavailable, a.now(0), None, a);
    FailureOutcome(e, p, s, rev, MissedWindowCode, a.now(0), None, a);
    FailureOutcome(e, p, s, rev, MissedWindowCode, a.now(1), None, a);
    FailureOutcome(e, p, s, rev, MarketCalendarUnavailable, a.now(1), None, a);
    var stored := Load(s, rev);
    if stored.Some? && !stored.value.published && stored.value.checkpoints != [] {
      StagedOrPublished(e, s, rev);
      LoadedRevision(e, s, rev);
      var latest := Last(stored.value.checkpoints);
      if ReadStaged(s, rev, ResearchPacket).Some? {
        ReuseIsSound(e, p, s, rev, a);
        ReuseOutcome(e, p, s, rev, a);
      }
      ResumeOutcome(e, p, s, rev, latest, a);
      if !latest.stage.Published? {
        StagedIsOpen(e, p, s, rev);
        AssembleOutcome(e, p, s, stored.value.run, a);
        var (s1, r) := Assemble(e, p, s, stored.value.run, a);
        OutcomeIsSound(e, p, s, rev, (s1, r));
        if r.Rejected? && r.failure.Aborted? {
          FailureOutcome(e, p, s1, rev, r.failure.code, a.now(7), None, a);
          OutcomeChain(e, p, s, s1, rev, OperationalFailure(e, s1, rev, r.failure.code, a.now(7), None, a));
        }
      }
    }
  }

  lemma ReuseOutcome(e: Engine, p: Rules, s: DateStore, rev: nat, a: Answers)
    requires PreparedSound(e, p, s) && rev in s.staging
    requires ReadStaged(s, rev, ResearchPacket).Some? && s.staging[rev].checkpoints != []
    ensures Outcome(e, p, s, rev, ReusePacket(e, s, rev, ReadStaged(s, rev, ResearchPacket).value,
                                              Last(s.staging[rev].checkpoints), a))
  {
    hide PreparedSound, StaysSound, ReusePacket, HandsOff;
    ReuseIsSound(e, p, s, rev, a);
  }

  lemma OutcomeIsSound(e: Engine, p: Rules, s: DateStore, rev: nat, result: (DateStore, Result<Handoff>))
    requires Outcome(e, p, s, rev, result)
    ensures StaysSound(e, p, s, result.0) && PreparedSound(e, p, result.0)
  {
  }

  lemma StagedIsOpen(e: Engine, p: Rules, s: DateStore, rev: nat)
    requires PreparedSound(e, p, s) && rev in s.staging && s.staging[rev].checkpoints != []
    requires !Last(s.staging[rev].checkpoints).stage.Published?
    ensures Open(e, p, s, rev)
  {
    StagedHasContext(e, s, rev);
  }

  lemma PublishedHandsOffNothing(s: DateStore, rev: nat)
    ensures var r := PublishedResult(s, rev, None); r.Ok? ==> r.value.Ended?
  {
  }

  /** A run that is already published is handed back with its verified receipt, never refused. */
  lemma PublishedRunIsReturned(e: Engine, p: Rules, s: DateStore, rev: nat, a: Answers)
    requires PreparedSound(e, p, s)
    requires Load(s, rev).Some? && Load(s, rev).value.published
    ensures Prepare(e, p, s, rev, a).0 == s
    ensures var r := Prepare(e, p, s, rev, a).1;
            && r.Ok? && r.value.Ended?
            && r.value.stored == Load(s, rev).value
            && GetReceipt(s, rev) == Some(r.value.receipt)
  {
    hide StoreSound, ClosedSynthesized, ClosedReduced, ClosedOperational, FinalContents, FrozenTelemetry;
    PreparedStore(e, p, s);
    PublishedIsVisible(e, s, rev);
    VisibleIsClosed(e, s, rev);
  }

  lemma PublishedIsVisible(e: Engine, s: DateStore, rev: nat)
    requires StoreSound(e, s) && Load(s, rev).Some? && Load(s, rev).value.published
    ensures GetPublished(s, rev).Some? && GetReceipt(s, rev).Some?
    ensures rev in s.finals && Current(s, rev) == Some(s.finals[rev])
    ensures Load(s, rev) == LoadDir(s.finals[rev], true)
  {
  }

  /** Answers that differ at most in what the providers, the prior selection and the builder say. */
  ghost predicate SameButProviders(a: Answers, b: Answers) {
    b == a.(prior := b.prior, collect := b.collect, quality := b.quality, build := b.build)
  }

  /**
   Once its artifact is staged, a phase no longer listens to the providers: not the collection,
   not the quality, and with a staged packet not the whole call.
   */
  lemma StagedEvidenceIgnoresProviders(e: Engine, p: Rules, s: DateStore, run: RunContext, a: Answers, b: Answers,
                                       at: Instant, telemetry: Telemetry, env: Environment)
    requires SameButProviders(a, b)
    ensures ReadStaged(s, run.revision, MarketDataCollection).Some? ==>
              CollectAndFreeze(p, s, run, a.collect, telemetry, env) == CollectAndFreeze(p, s, run, b.collect, telemetry, env)
    ensures ReadStaged(s, run.revision, DataQuality).Some? ==>
              CheckpointQuality(p, s, run, a.quality, at, telemetry, env)
              == CheckpointQuality(p, s, run, b.quality, at, telemetry, env)
    ensures ReadStaged(s, run.revision, ResearchPacket).Some? ==>
              Prepare(e, p, s, run.revision, a) == Prepare(e, p, s, run.revision, b)
  {
    hide StagePacket, BindAndFreeze, StageAndAppend, LoadFrozen, Load, OperationalFailure, PublishedResult;
    if ReadStaged(s, run.revision, ResearchPacket).Some? { SameFailure(e, s, run.revision, a, b); }
  }

  lemma SameFailure(e: Engine, s: DateStore, rev: nat, a: Answers, b: Answers)
    requires SameButProviders(a, b)
    ensures forall code, at, quality ::
              OperationalFailure(e, s, rev, code, at, quality, a) == OperationalFailure(e, s, rev, code, at, quality, b)
  {
    hide Perform, PlanFailure, PlanOperational, Load, PublishedResult;
  }

  // ---- Every sequence of calls ----

  /** One call of the outside world on the date. */
  datatype Visit =
    | VisitStart(invocation: Invocation, seed: RunContext, telemetry: Telemetry, env: Environment)
    | VisitPrepare(rev: nat, answers: Answers)
    | VisitService(served: Served)
    | VisitRecovery(rev: nat, now: Instant, fault: Fault)

  /** The id an invocation would allocate. */
  function Taken(s: DateStore, invocation: Invocation): nat {
    match invocation
    case Scheduled => 1
    case ManualRequested(rev) => rev
    case ManualFresh => NextRevision(s)
  }

  /** A start that would be given a quarantined id is not one of these visits. */
  ghost function After(e: Engine, p: Rules, s: DateStore, visit: Visit): DateStore {
    match visit
    case VisitStart(invocation, seed, telemetry, env) =>
      if Taken(s, invocation) in s.orphans then s else StartRun(s, invocation, seed, telemetry, env).0
    case VisitPrepare(rev, a) => Prepare(e, p, s, rev, a).0
    case VisitService(served) => Serve(e, s, served).0
    case VisitRecovery(rev, now, fault) => Recover(s, rev, now, fault).0
  }

  ghost function Visits(e: Engine, p: Rules, s: DateStore, visits: seq<Visit>): DateStore
    decreases visits
  {
    if visits == [] then s else Visits(e, p, After(e, p, s, visits[0]), visits[1..])
  }

  // ---- Starting a run ----

  /** Started, perhaps without the checkpoint that names the staged telemetry. */
  ghost predicate StartedWith(rd: RunDir, telemetry: Telemetry)
    requires rd.context.Some?
  {
    var full := Started(rd.context.value, telemetry);
    rd == full || rd == full.(checkpoints := [])
  }

  /** A run as `prepare_premarket_run` leaves it, wherever it stops before it returns. */
  ghost predicate JustStarted(rev: nat, rd: RunDir) {
    || rd == EmptyDir
    || (&& rd.context.Some? && rd.context.value.revision == rev
        && (rd == EmptyDir.(context := rd.context) || (exists telemetry :: StartedWith(rd, telemetry))))
  }

  /** At most a new run was made, and it is as starting it may leave it. */
  ghost predicate Starts(s: DateStore, s': DateStore, rev: nat) {
    s' == s
    || (&& rev !in Existing(s) && rev in s'.staging
        && s' == Within(s, rev, s'.staging[rev])
        && JustStarted(rev, s'.staging[rev]))
  }

  function Within(s: DateStore, rev: nat, rd: RunDir): DateStore {
    s.(staging := s.staging[rev := rd])
  }

  lemma StartsWith(s: DateStore, rev: nat, rd: RunDir)
    requires rev !in Existing(s) && JustStarted(rev, rd)
    ensures Starts(s, Within(s, rev, rd), rev)
  {
    hide JustStarted;
  }

  lemma CreatesNew(s: DateStore, context: RunContext, fault: Fault)
    requires context.revision !in Existing(s)
    ensures var (s1, created) := Create(s, context, fault);
            && Starts(s, s1, context.revision)
            && (created.Ok? ==>
                  created.value == context && s1 == Within(s, context.revision, EmptyDir.(context := Some(context))))
            && (fault.NoFault? ==> created.Ok?)
  {
    var rev := context.revision;
    StartsWith(s, rev, EmptyDir);
    StartsWith(s, rev, EmptyDir.(context := Some(context)));
    assert s.staging[rev := EmptyDir][rev := EmptyDir.(context := Some(context))]
           == s.staging[rev := EmptyDir.(context := Some(context))];
    hide JustStarted;
  }

  /** Every invocation allocates the id it takes, to a new run, or refuses. */
  lemma AllocatesNew(s: DateStore, invocation: Invocation, seed: RunContext, fault: Fault)
    requires Named(invocation).Some? ==> Load(s, Named(invocation).value).None?
    ensures var (s1, created) := Allocate(s, invocation, seed, fault);
            var rev := Taken(s, invocation);
            && Starts(s, s1, rev)
            && (created.Ok? ==>
                  && rev !in Existing(s) && created.value == NewContext(seed, rev)
                  && s1 == Within(s, rev, EmptyDir.(context := Some(NewContext(seed, rev)))))
            && (fault.NoFault? && Allocates(s, invocation) ==> created.Ok?)
  {
    hide Create, Starts, Load, NextRevision, Existing;
    NextIsFree(s);
    var rev := Taken(s, invocation);
    if rev !in Existing(s) { CreatesNew(s, NewContext(seed, rev), fault); }
    assert Starts(s, s, rev) by { StartsSelf(s, rev); }
  }

  lemma StartsSelf(s: DateStore, rev: nat)
    ensures Starts(s, s, rev)
  {
  }

  lemma NextIsFree(s: DateStore)
    ensures NextRevision(s) !in Existing(s) && NextRevision(s) > 0
  {
  }

  /** The invocation finds its id free, and a requested one is the next. */
  predicate Allocates(s: DateStore, invocation: Invocation) {
    && Taken(s, invocation) !in Existing(s)
    && (invocation.ManualRequested? ==> invocation.revision == NextRevision(s))
  }

  lemma StagesFirst(s: DateStore, context: RunContext, telemetry: Telemetry, fault: Fault)
    ensures var rev, empty := context.revision, EmptyDir.(context := Some(context));
            var full := Started(context, telemetry);
            var (name, payload) := TelemetryArtifact(telemetry);
            var (s2, staged) := StageArtifact(Within(s, rev, empty), rev, name, payload, fault);
            && (s2 == Within(s, rev, empty) || s2 == Within(s, rev, full.(checkpoints := [])))
            && (staged.Ok? ==> s2 == Within(s, rev, full.(checkpoints := [])))
            && (fault.NoFault? ==> staged.Ok?)
  {
    var rev, empty := context.revision, EmptyDir.(context := Some(context));
    var full := Started(context, telemetry);
    var (name, payload) := TelemetryArtifact(telemetry);
    assert empty.(artifacts := empty.artifacts[name := payload]) == full.(checkpoints := []);
    assert s.staging[rev := empty][rev := full.(checkpoints := [])] == s.staging[rev := full.(checkpoints := [])];
  }

  lemma AppendsFirst(s: DateStore, context: RunContext, telemetry: Telemetry, fault: Fault)
    ensures var rev, full := context.revision, Started(context, telemetry);
            var bare := Within(s, rev, full.(checkpoints := []));
            var cp := WithTelemetry(StartCheckpoint(context), telemetry);
            var (s3, appended) := AppendCheckpoint(bare, rev, cp, fault);
            && (s3 == bare || s3 == Within(s, rev, full))
            && (fault.NoFault? ==> appended.Ok? && s3 == Within(s, rev, full))
  {
    var rev, full := context.revision, Started(context, telemetry);
    assert Append(full.(checkpoints := []), WithTelemetry(StartCheckpoint(context), telemetry)) == full;
    assert s.staging[rev := full.(checkpoints := [])][rev := full] == s.staging[rev := full];
  }

  lemma StartedDirectories(rev: nat, context: RunContext, telemetry: Telemetry)
    requires rev == context.revision
    ensures JustStarted(rev, EmptyDir.(context := Some(context)))
    ensures JustStarted(rev, Started(context, telemetry))
    ensures JustStarted(rev, Started(context, telemetry).(checkpoints := []))
  {
    assert StartedWith(Started(context, telemetry), telemetry);
    assert StartedWith(Started(context, telemetry).(checkpoints := []), telemetry);
  }

  /** Starting makes at most the one run, and undisturbed it leaves exactly its first checkpoint. */
  lemma StartIsPlain(s: DateStore, invocation: Invocation, seed: RunContext, telemetry: Telemetry, env: Environment)
    ensures var (s', r) := StartRun(s, invocation, seed, telemetry, env);
            var rev := Taken(s, invocation);
            && Starts(s, s', rev)
            && (Allocates(s, invocation) && env(0).NoFault? && env(1).NoFault? && env(2).NoFault? ==>
                  && s' == Within(s, rev, Started(NewContext(seed, rev), telemetry))
                  && r == Ok(JustStored(NewContext(seed, rev), telemetry)))
  {
    var rev := Taken(s, invocation);
    StartsSelf(s, rev);
    if Named(invocation).Some? && Load(s, Named(invocation).value).Some? { LoadedExists(s, rev); }
    else {
      AllocatesNew(s, invocation, seed, env(0));
      if Allocate(s, invocation, seed, env(0)).1.Ok? { StartGoesOn(s, NewContext(seed, rev), telemetry, env); }
      assert NewContext(seed, rev).cutoff.None? && NewContext(seed, rev).revision == rev;
      hide Allocate, StageArtifact, AppendCheckpoint, Starts, Started, JustStored, Load, WithTelemetry, StartCheckpoint,
           NewContext;
    }
  }

  lemma LoadedExists(s: DateStore, rev: nat)
    requires Load(s, rev).Some?
    ensures rev in Existing(s)
  {
  }

  /** What follows the allocation. */
  lemma StartGoesOn(s: DateStore, context: RunContext, telemetry: Telemetry, env: Environment)
    requires context.revision !in Existing(s)
    ensures var rev := context.revision;
            var s1 := Within(s, rev, EmptyDir.(context := Some(context)));
            var (s2, staged) := StageArtifact(s1, rev, TelemetryArtifact(telemetry).0, TelemetryArtifact(telemetry).1, env(1));
            var (s3, appended) := AppendCheckpoint(s2, rev, WithTelemetry(StartCheckpoint(context), telemetry), env(2));
            && Load(s1, rev).Some? && !Load(s1, rev).value.published
            && Starts(s, s2, rev)
            && (staged.Ok? ==> Starts(s, s3, rev))
            && (env(1).NoFault? ==> staged.Ok?)
            && (env(1).NoFault? && env(2).NoFault? ==>
                  && appended.Ok? && s3 == Within(s, rev, Started(context, telemetry))
                  && (context.cutoff.None? ==> Load(s3, rev) == Some(JustStored(context, telemetry))))
  {
    var rev, empty, full := context.revision, EmptyDir.(context := Some(context)), Started(context, telemetry);
    StagesFirst(s, context, telemetry, env(1));
    AppendsFirst(s, context, telemetry, env(2));
    StartedDirectories(rev, context, telemetry);
    assert Load(Within(s, rev, empty), rev) == LoadDir(empty, false);
    assert Load(Within(s, rev, full), rev) == LoadDir(full, false);
    assert context.cutoff.None? ==> LoadDir(full, false) == Some(JustStored(context, telemetry));
    hide JustStarted, JustStored, Started, StageArtifact, AppendCheckpoint, WithTelemetry, StartCheckpoint;
    StartsWith(s, rev, empty);
    StartsWith(s, rev, full);
    StartsWith(s, rev, full.(checkpoints := []));
    hide Within, Starts, Load;
  }

  // ---- What the visits keep ----

  /** Nothing that was there is lost or changed; runs may be new. */
  ghost predicate Retains(s: DateStore, s': DateStore) {
    && WellFormed(s')
    && forall r :: Current(s, r).Some? ==>
         Current(s', r).Some? && DirKeeps(Current(s, r).value, Current(s', r).value)
  }

  ghost predicate Persists(e: Engine, p: Rules, s: DateStore, s': DateStore) {
    PreparedSound(e, p, s') && Retains(s, s')
  }

  lemma PersistsChain(e: Engine, p: Rules, s: DateStore, s1: DateStore, s2: DateStore)
    requires Persists(e, p, s, s1) && Persists(e, p, s1, s2)
    ensures Persists(e, p, s, s2)
  {
    hide Current, WellFormed, PreparedSound;
  }

  lemma SoundPersists(e: Engine, p: Rules, s: DateStore, s': DateStore)
    requires StaysSound(e, p, s, s')
    ensures Persists(e, p, s, s')
  {
    hide Current, PreparedSound, DirKeeps;
  }

  lemma StartedIsSound(e: Engine, p: Rules, rev: nat, rd: RunDir)
    requires JustStarted(rev, rd)
    ensures rd != EmptyDir ==> rd.context.Some? && RunSound(e, rev, rd) && EvidenceSound(p, rd)
  {
  }

  /** A start adds a sound run with nothing published and keeps everything else. */
  lemma StartPersists(e: Engine, p: Rules, s: DateStore, s': DateStore, rev: nat)
    requires PreparedSound(e, p, s) && Starts(s, s', rev) && rev !in s.orphans
    ensures Persists(e, p, s, s')
  {
    SoundSelf(e, p, s);
    if s' == s {
      SoundPersists(e, p, s, s);
    } else {
      hide RunSound, EvidenceSound, JustStarted, FilesSettled, IndexSettled;
      var rd := s'.staging[rev];
      assert s'.staging.Keys == s.staging.Keys + {rev};
      assert ViewSound(e, rev, ViewOf(s, rev));
      StartedIsSound(e, p, rev, rd);
      assert Current(s, rev).None?;
      forall r ensures r != rev ==> ViewOf(s', r) == ViewOf(s, r) && Current(s', r) == Current(s, r) {
      }
      forall r ensures ViewSound(e, r, ViewOf(s', r)) {
        if r != rev { assert ViewSound(e, r, ViewOf(s, r)); }
      }
    }
  }

  lemma VisitPersists(e: Engine, p: Rules, s: DateStore, visit: Visit)
    requires PreparedSound(e, p, s)
    ensures Persists(e, p, s, After(e, p, s, visit))
  {
    hide PreparedSound, Keeps, Retains, Prepare, Recover, Perform, Decide, StartRun, Starts;
    SoundSelf(e, p, s);
    SoundPersists(e, p, s, s);
    match visit
    case VisitStart(invocation, seed, telemetry, env) =>
      StartIsPlain(s, invocation, seed, telemetry, env);
      if Taken(s, invocation) !in s.orphans { StartPersists(e, p, s, After(e, p, s, visit), Taken(s, invocation)); }
    case VisitPrepare(rev, a) =>
      PrepareOutcome(e, p, s, rev, a);
      OutcomeIsSound(e, p, s, rev, Prepare(e, p, s, rev, a));
      SoundPersists(e, p, s, Prepare(e, p, s, rev, a).0);
    case VisitService(served) =>
      PerformKeepsPrepared(e, p, s, served.call, served.telemetry, served.now, served.env);
      SoundPersists(e, p, s, After(e, p, s, visit));
    case VisitRecovery(rev, now, fault) =>
      RecoverKeepsPrepared(e, p, s, rev, now, fault);
      SoundPersists(e, p, s, Recover(s, rev, now, fault).0);
  }

  lemma {:induction false} VisitsPersist(e: Engine, p: Rules, s: DateStore, visits: seq<Visit>)
    requires PreparedSound(e, p, s)
    ensures Persists(e, p, s, Visits(e, p, s, visits))
    decreases visits
  {
    hide PreparedSound, Retains, After;
    if visits == [] {
      SoundSelf(e, p, s);
      SoundPersists(e, p, s, s);
    } else {
      var s1 := After(e, p, s, visits[0]);
      VisitPersists(e, p, s, visits[0]);
      PersistsIsPrepared(e, p, s, s1);
      VisitsPersist(e, p, s1, visits[1..]);
      PersistsChain(e, p, s, s1, Visits(e, p, s1, visits[1..]));
    }
  }

  lemma PersistsIsPrepared(e: Engine, p: Rules, s: DateStore, s': DateStore)
    requires Persists(e, p, s, s')
    ensures PreparedSound(e, p, s')
  {
  }

  lemma {:induction false} VisitsSplit(e: Engine, p: Rules, s: DateStore, first: seq<Visit>, second: seq<Visit>)
    ensures Visits(e, p, s, first + second) == Visits(e, p, Visits(e, p, s, first), second)
    decreases first
  {
    hide After;
    if first == [] {
      assert first + second == second;
    } else {
      assert (first + second)[1..] == first[1..] + second;
      VisitsSplit(e, p, After(e, p, s, first[0]), first[1..], second);
    }
  }

  /** A date on which nothing was done but starting runs. */
  ghost predicate Fresh(s: DateStore) {
    && s.finals == map[] && s.orphans == map[] && s.index == map[] && s.latest.None?
    && forall rev :: rev in s.staging ==> JustStarted(rev, s.staging[rev])
  }

  lemma FreshIsPrepared(e: Engine, p: Rules, s: DateStore)
    requires Fresh(s)
    ensures PreparedSound(e, p, s)
  {
    hide RunSound, EvidenceSound, JustStarted;
    forall rev ensures ViewSound(e, rev, ViewOf(s, rev)) {
      if rev in s.staging { StartedIsSound(e, p, rev, s.staging[rev]); }
    }
    forall rev | Current(s, rev).Some? && Current(s, rev).value.context.Some?
      ensures EvidenceSound(p, Current(s, rev).value)
    {
      StartedIsSound(e, p, rev, s.staging[rev]);
    }
  }

  /**
   Starting a run by any invocation leaves at most one new run, just started wherever it
   stopped; undisturbed, an invocation whose id is free leaves exactly the first checkpoint.
   */
  lemma StartingKeepsFresh(s: DateStore, invocation: Invocation, seed: RunContext, telemetry: Telemetry, env: Environment)
    requires Fresh(s)
    ensures Fresh(StartRun(s, invocation, seed, telemetry, env).0)
    ensures Allocates(s, invocation) && env(0).NoFault? && env(1).NoFault? && env(2).NoFault? ==>
              var rev := Taken(s, invocation);
              StartRun(s, invocation, seed, telemetry, env)
              == (Within(s, rev, Started(NewContext(seed, rev), telemetry)),
                  Ok(JustStored(NewContext(seed, rev), telemetry)))
  {
    StartIsPlain(s, invocation, seed, telemetry, env);
    hide StartRun, JustStarted, JustStored, Started, NewContext, Allocates, Taken;
  }

  /**
   Resume never refreshes evidence: whatever artifact of a run was staged after `before`, the
   collection, the quality and the packet included, is the same bytes after any later calls,
   and once there is a cutoff it is the stored collection's completion time for good.
   */
  lemma EvidenceIsFixed(e: Engine, p: Rules, s: DateStore, before: seq<Visit>, after: seq<Visit>, rev: nat)
    requires Fresh(s)
    ensures var s1 := Visits(e, p, s, before);
            var s2 := Visits(e, p, s, before + after);
            Current(s1, rev).Some? ==>
              && Current(s2, rev).Some?
              && var a, b := Current(s1, rev).value, Current(s2, rev).value;
              && (forall n :: n in a.artifacts ==> n in b.artifacts && b.artifacts[n] == a.artifacts[n])
              && (a.freeze.Some? ==> b.freeze == a.freeze)
              && (b.freeze.Some? ==>
                    && MarketDataCollection in b.artifacts && b.artifacts[MarketDataCollection].CollectionBytes?
                    && b.freeze == Some(b.artifacts[MarketDataCollection].collection.completedAt))
  {
    hide StoreSound, Current;
    FreshIsPrepared(e, p, s);
    VisitsPersist(e, p, s, before);
    var s1 := Visits(e, p, s, before);
    VisitsPersist(e, p, s1, after);
    VisitsSplit(e, p, s, before, after);
    var s2 := Visits(e, p, s, before + after);
    if Current(s2, rev).Some? && Current(s2, rev).value.freeze.Some? { FrozenEvidence(e, p, s2, rev); }
  }

  lemma FrozenEvidence(e: Engine, p: Rules, s: DateStore, rev: nat)
    requires PreparedSound(e, p, s) && Current(s, rev).Some? && Current(s, rev).value.freeze.Some?
    ensures EvidenceSound(p, Current(s, rev).value)
  {
    assert ViewSound(e, rev, ViewOf(s, rev));
  }

  /** Call `i` of the sequence handed off this packet for this run. */
  ghost predicate Offers(e: Engine, p: Rules, s: DateStore, visits: seq<Visit>, i: nat, rev: nat, packet: Packet)
    requires i < |visits|
  {
    && visits[i].VisitPrepare? && visits[i].rev == rev
    && var r := Prepare(e, p, Visits(e, p, s, visits[..i]), rev, visits[i].answers).1;
    && r.Ok? && r.value.PacketReady? && r.value.packet == packet
  }

  lemma OfferIsStaged(e: Engine, p: Rules, s: DateStore, visits: seq<Visit>, i: nat, rev: nat, packet: Packet)
    requires Fresh(s) && i < |visits| && Offers(e, p, s, visits, i, rev, packet)
    ensures var s' := Visits(e, p, s, visits[..i + 1]);
            && PreparedSound(e, p, s')
            && ReadStaged(s', rev, ResearchPacket) == Some(PacketBytes(packet))
            && Load(s', rev).Some? && Coherent(Load(s', rev).value, packet)
  {
    hide PreparedSound, Prepare, StaysSound, Coherent, Load, ReadStaged, Keeps;
    FreshIsPrepared(e, p, s);
    var before := Visits(e, p, s, visits[..i]);
    VisitsPersist(e, p, s, visits[..i]);
    PersistsIsPrepared(e, p, s, before);
    PrepareOutcome(e, p, before, rev, visits[i].answers);
    OutcomeIsSound(e, p, before, rev, Prepare(e, p, before, rev, visits[i].answers));
    assert visits[..i + 1] == visits[..i] + [visits[i]];
    VisitsSplit(e, p, s, visits[..i], [visits[i]]);
    assert [visits[i]][1..] == [];
    assert Visits(e, p, before, [visits[i]]) == Visits(e, p, After(e, p, before, visits[i]), []);
  }

  /** Any two hand-offs of a run carry the same packet, and each passes the hand-off's own checks. */
  lemma HandoffsAgree(e: Engine, p: Rules, s: DateStore, visits: seq<Visit>, i: nat, j: nat, rev: nat, a: Packet,
                      b: Packet)
    requires Fresh(s) && i <= j < |visits|
    requires Offers(e, p, s, visits, i, rev, a) && Offers(e, p, s, visits, j, rev, b)
    ensures a == b
    ensures var s' := Visits(e, p, s, visits[..j + 1]); Load(s', rev).Some? && Coherent(Load(s', rev).value, b)
  {
    hide PreparedSound, Offers, Coherent, Load;
    OfferIsStaged(e, p, s, visits, i, rev, a);
    OfferIsStaged(e, p, s, visits, j, rev, b);
    assert visits[..j + 1] == visits[..i + 1] + visits[i + 1..j + 1];
    VisitsSplit(e, p, s, visits[..i + 1], visits[i + 1..j + 1]);
    VisitsPersist(e, p, Visits(e, p, s, visits[..i + 1]), visits[i + 1..j + 1]);
    StagedIsKept(e, p, Visits(e, p, s, visits[..i + 1]), Visits(e, p, s, visits[..j + 1]), rev, ResearchPacket);
  }

  lemma StagedIsKept(e: Engine, p: Rules, s: DateStore, s': DateStore, rev: nat, name: Name)
    requires Persists(e, p, s, s') && rev in s.staging && rev in s'.staging && name in s.staging[rev].artifacts
    ensures ReadStaged(s', rev, name) == Some(s.staging[rev].artifacts[name])
  {
    assert Current(s, rev) == Some(s.staging[rev]) && Current(s', rev) == Some(s'.staging[rev]);
  }

  /**
   From an empty date, or one with runs just started, through any sequence of starting,
   preparation, validation, publication and recovery with any answers and failures, every
   visible publication replays.
   */
  lemma EveryPublicationReplays(e: Engine, p: Rules, s: DateStore, visits: seq<Visit>, rev: nat)
    requires Fresh(s) && GetPublished(Visits(e, p, s, visits), rev).Some?
    ensures var s' := Visits(e, p, s, visits);
            var (report, bundle) := GetPublished(s', rev).value;
            ReplayRun(e, s', rev, bundle.run.versions)
            == Replayed(bundle, report, Some(Sha256(TextBytes(report))), [], bundle.telemetry)
  {
    hide ReplayRun, GetPublished, StoreSound;
    FreshIsPrepared(e, p, s);
    VisitsPersist(e, p, s, visits);
    var s' := Visits(e, p, s, visits);
    var versions := GetPublished(s', rev).value.1.run.versions;
    VisibleReplays(e, s', rev, versions);
    NoDrift(versions, 0);
  }
}
