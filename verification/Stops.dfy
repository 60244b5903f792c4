/**
 Preparation that is stopped: wherever a call stops on its way to the packet, it leaves the run on
 that way, or while packing, or handed over; only between the two writes of the freeze is it stuck.
 */
module Stops {
  import opened RunTypes
  import opened RunStore
  import opened RunHistory
  import opened Publication
  import opened FinalBundle
  import opened PublicationMachine
  import opened PublicationService
  import opened Preparation
  import opened PreparedEvidence
  import opened Undisturbed
  import opened Retries
  import opened RepeatedCalls
  import opened Failures
  import opened Progress
  import Resumptions

  // ---- What disturbed steps leave ----

  /** Staging and appending, disturbed: part of the writes, or all and the checkpoint. */
  lemma StepLeaves(s: DateStore, rev: nat, rd: RunDir, writes: Writes, cp: Checkpoint, env: Environment)
    requires Agrees(rd, writes) && rd.context.Some? && StagedAll(rd, writes).context.Some? && cp.revision == rev
    requires Admits(StagedAll(rd, writes), cp)
    ensures var (s1, r) := StageAndAppend(Put(s, rev, rd), rev, writes, cp, |rd.checkpoints|, env);
            var done := Put(s, rev, Append(StagedAll(rd, writes), cp));
            && (PartlyStaged(s, s1, rev, rd, writes, false) || s1 == done)
            && (r.Ok? ==> s1 == done)
  {
    hide StageAll, AppendIfCurrent, AppendCheckpoint, Admits, StagedAll, Agrees, Put, Under;
    StagesPart(s, rev, rd, writes, env, 0);
    var (s0, staged) := StageAll(Put(s, rev, rd), rev, writes, env, 0);
    if staged.Ok? {
      var full := StagedAll(rd, writes);
      assert full.context == rd.context && full.checkpoints == rd.checkpoints by { StagedKeepsRest(rd, writes); }
      AppendCalmly(s, rev, full, cp, NoFault);
      AppendsOrNot(s, rev, full, cp, |rd.checkpoints|, env(|writes|));
      PartIsPart(s, rev, full);
      hide PartlyStaged;
      Resumptions.AppendedAlike(s0, rev, cp, |rd.checkpoints|, env(|writes|));
    }
  }

  lemma FreezeLeaves(s: DateStore, rd: RunDir, rev: nat, cutoff: Instant, fault: Fault)
    requires rd.context.Some? && rd.context.value.revision == rev && rd.freeze.None? && rd.checkpoints != []
    requires cutoff >= rd.context.value.invokedAt && cutoff >= Last(rd.checkpoints).writtenAt
    ensures var (s1, r) := Freeze(Put(s, rev, rd), rev, cutoff, fault);
            && (s1 == Put(s, rev, rd) || s1 == Put(s, rev, rd.(freeze := Some(cutoff)))
                || s1 == Put(s, rev, FrozenDir(rd, cutoff)))
            && (r.Ok? ==> s1 == Put(s, rev, FrozenDir(rd, cutoff)) && r.value == LoadDir(FrozenDir(rd, cutoff), false).value)
  {
    var frozen, marker := rd.(freeze := Some(cutoff)), FrozenMarker(rd, rev, cutoff);
    assert FreezeMarker(frozen, marker);
    assert Admits(frozen, marker) by {
      hide QualityEvaluation, SynthesisStep, OperationalPublication, PreparationFailure;
    }
    assert Put(s, rev, rd).staging[rev := frozen] == s.staging[rev := frozen];
    assert Put(s, rev, frozen).staging[rev := Append(frozen, marker)] == s.staging[rev := Append(frozen, marker)];
    hide Admits, FreezeMarker, FrozenMarker;
  }

  // ---- Prior research ----

  /** Nothing more than the selection is staged on top. */
  lemma ChoosingPart(s: DateStore, rd: RunDir, rev: nat, prior: string, x: RunDir)
    requires Choosing(s, rd, rev) && PriorOf(rd, prior) == prior
    requires Under(rd, x) && Under(x, WithArtifact(rd, PriorResearch, TextBytes(prior)))
    ensures Choosing(s, x, rev) && PriorOf(x, prior) == prior && x.context == rd.context
    ensures MarketDataCollection !in x.artifacts
  {
    hide StoredPacketHash, Attempts, LatestAt, BoundPriors, Resumptions.AllMeasurable;
    StagedIsMeasurable(s, rev, rd, PriorResearch, TextBytes(prior));
    var full := WithArtifact(rd, PriorResearch, TextBytes(prior));
    AllFits(s, rev, full);
    Resumptions.MoreIsMeasurable(s, rev, rd, x, full);
  }

  lemma AllFits(s: DateStore, rev: nat, rd: RunDir)
    requires Resumptions.AllMeasurable(s, rev, rd)
    ensures forall t :: TelemetryFits(rd, t)
  {
  }

  lemma PriorWrites(rd: RunDir, prior: string)
    requires PriorResearch in rd.artifacts ==> rd.artifacts[PriorResearch] == TextBytes(prior)
    ensures var writes := if PriorResearch in rd.artifacts then [] else [(PriorResearch, TextBytes(prior))];
            Agrees(rd, writes) && StagedAll(rd, writes) == WithArtifact(rd, PriorResearch, TextBytes(prior))
  {
    var one := [(PriorResearch, TextBytes(prior))];
    assert one[1..] == [];
    assert Agrees(WithArtifact(rd, PriorResearch, TextBytes(prior)), []);
    assert StagedAll(WithArtifact(rd, PriorResearch, TextBytes(prior)), [])
           == WithArtifact(rd, PriorResearch, TextBytes(prior));
    if PriorResearch in rd.artifacts {
      assert rd.artifacts[PriorResearch := TextBytes(prior)] == rd.artifacts;
    }
  }

  /** Selecting prior research, disturbed. */
  lemma PriorLeaves(p: Rules, s: DateStore, rd: RunDir, rev: nat, prior: string, given: string, at: Instant,
                    env: Environment) returns (x: RunDir)
    requires Choosing(s, rd, rev) && PriorOf(rd, prior) == prior && (PriorResearch !in rd.artifacts ==> given == prior)
    requires p.priorFits(RunOf(rd), prior) && at >= rd.context.value.invokedAt && at >= Last(rd.checkpoints).writtenAt
    ensures var (s1, r) := FreezePrior(p, Put(s, rev, rd), RunOf(rd), given, at, env);
            && s1 == Put(s, rev, x)
            && (Choosing(s, x, rev) || Gathering(s, x, rev, prior)) && PriorOf(x, prior) == prior
            && x.context == rd.context && MarketDataCollection !in x.artifacts
            && (r.Ok? ==> r.value == prior && x == PriorDir(rd, prior, at))
            && (r.Rejected? ==> !r.failure.Aborted?)
  {
    hide Underway, LatestAt, BoundPriors, StageAndAppend, Put, Admits, PartlyStaged, StagedAll, Agrees;
    var cp := ConfigCheckpoint(LoadDir(rd, false).value, prior, at);
    var writes: Writes := if PriorResearch in rd.artifacts then [] else [(PriorResearch, TextBytes(prior))];
    var full := WithArtifact(rd, PriorResearch, TextBytes(prior));
    ChoosingBasics(s, rd, rev, prior, given);
    ChoosingReads(s, rd, rev);
    LoadPut(s, rev, rd);
    PriorWrites(rd, prior);
    EarlyIsAdmitted(full, cp);
    StepLeaves(s, rev, rd, writes, cp, env);
    var (s1, r) := StageAndAppend(Put(s, rev, rd), rev, writes, cp, |rd.checkpoints|, env);
    StepNeverAborts(Put(s, rev, rd), rev, writes, cp, |rd.checkpoints|, env);
    if s1 == Put(s, rev, PriorDir(rd, prior, at)) {
      x := PriorDir(rd, prior, at);
      PriorThenCollecting(s, rd, rev, prior, at);
      PriorDirHolds(rd, prior, at);
    } else {
      x := PartOf(s, s1, rev, rd, writes);
      ChoosingPart(s, rd, rev, prior, x);
    }
    hide Choosing, Gathering, PriorDir, Load, ReadStaged;
  }

  lemma PriorDirHolds(rd: RunDir, prior: string, at: Instant)
    requires rd.context.Some?
    ensures PriorOf(PriorDir(rd, prior, at), prior) == prior && PriorDir(rd, prior, at).context == rd.context
  {
  }

  lemma ChoosingReads(s: DateStore, rd: RunDir, rev: nat)
    requires Choosing(s, rd, rev)
    ensures rd.context.Some? && rd.context.value.revision == rev && rd.freeze.None? && rd.checkpoints != []
    ensures BoundPriors(rd.checkpoints) == {} && LatestAt(rd.checkpoints, Stage.EvidenceCollected).None?
  {
    hide LatestAt, BoundPriors, StoredPacketHash, Attempts, Resumptions.AllMeasurable;
  }

  lemma PartOf(s: DateStore, s1: DateStore, rev: nat, rd: RunDir, writes: Writes) returns (x: RunDir)
    requires PartlyStaged(s, s1, rev, rd, writes, false)
    ensures s1 == Put(s, rev, x) && Under(rd, x) && Under(x, StagedAll(rd, writes))
  {
    x := s1.staging[rev];
  }

  lemma StepNeverAborts(s: DateStore, rev: nat, writes: Writes, cp: Checkpoint, expected: nat, env: Environment)
    ensures var r := StageAndAppend(s, rev, writes, cp, expected, env).1; !(r.Rejected? && r.failure.Aborted?)
  {
    Resumptions.StagingNeverAborts(s, rev, writes, env, 0);
    hide StageAll, Admits, Load;
  }

  // ---- Collection ----

  /** The freeze file is there, but its marker is not. */
  predicate Unmarked(rd: RunDir) {
    rd.freeze.Some? && rd.checkpoints != [] && Last(rd.checkpoints).stage.EvidenceCollected?
  }

  lemma MoreIsGathering(s: DateStore, rd: RunDir, rev: nat, prior: string, t: Telemetry)
    requires Gathering(s, rd, rev, prior)
    ensures var x := WithArtifact(rd, TelemetryArtifact(t).0, TelemetryArtifact(t).1);
            Gathering(s, x, rev, prior) && x.context == rd.context
            && forall collection :: CollectionOf(rd, collection) == collection ==> CollectionOf(x, collection) == collection
  {
    hide StoredPacketHash, Attempts, LatestAt, BoundPriors, StoredCollection, Resumptions.AllMeasurable;
    var x := WithArtifact(rd, TelemetryArtifact(t).0, TelemetryArtifact(t).1);
    assert TelemetryFits(rd, t) by { CollectingBasics(s, rd, rev, prior); }
    StagedIsMeasurable(s, rev, rd, TelemetryArtifact(t).0, TelemetryArtifact(t).1);
    if LatestAt(rd.checkpoints, Stage.EvidenceCollected).Some? {
      CollectionStaysBound(s, rev, rd, x, rd.artifacts[MarketDataCollection].collection);
    }
  }

  /** Binding and freezing a staged collection, disturbed. */
  lemma BindLeaves(s: DateStore, rd: RunDir, rev: nat, prior: string, collection: Collection, t: Telemetry,
                   env: Environment) returns (x: RunDir)
    requires Gathering(s, rd, rev, prior) && CollectionOf(rd, collection) == collection
    requires MarketDataCollection in rd.artifacts && collection.completedAt >= rd.context.value.invokedAt
    ensures var (s1, r) := BindAndFreeze(Put(s, rev, rd), RunOf(rd), LoadDir(rd, false).value, collection, t, env);
            && s1 == Put(s, rev, x) && x.context == rd.context
            && ((Gathering(s, x, rev, prior) && CollectionOf(x, collection) == collection) || Unmarked(x)
                || Frozen(s, x, rev, prior, collection))
            && DataQuality !in x.artifacts
            && (r.Ok? ==> r.value == (LoadDir(x, false).value, collection) && Frozen(s, x, rev, prior, collection))
            && (r.Rejected? ==> !r.failure.Aborted?)
  {
    hide StageArtifact, AppendIfCurrent, AppendCheckpoint, Freeze, LatestAt, WithTelemetry, Admits, StoredCollection, Put,
         FrozenDir, Underway, PriorBound, CollectionBound, TelemetryFits;
    CollectingBasics(s, rd, rev, prior);
    var bound, more := CollectedDir(rd, collection, t), WithArtifact(rd, TelemetryArtifact(t).0, TelemetryArtifact(t).1);
    CollectionOfStaged(s, rd, rev, prior, collection, t);
    if LatestAt(rd.checkpoints, Stage.EvidenceCollected).None? {
      MoreIsGathering(s, rd, rev, prior, t);
      CollectionIsBound(s, rd, rev, prior, collection, t);
      assert TelemetryFits(rd, t);
      StageLeaves(s, rev, rd, t, env(1));
      BindingLeaves(s, rd, rev, collection, t, env(2));
      BoundIsFrozen(s, rd, rev, prior, collection, t, bound, env(3));
      var (s0, staged) := StageArtifact(Put(s, rev, rd), rev, TelemetryArtifact(t).0, TelemetryArtifact(t).1, env(1));
      if !staged.Ok? {
        x := if s0 == Put(s, rev, rd) then rd else more;
      } else {
        var (s1, r1) := AppendIfCurrent(s0, rev, WithTelemetry(CollectedCp(rd, collection), t), |rd.checkpoints|, env(2));
        if !r1.Ok? {
          x := if s1 == Put(s, rev, bound) then bound else more;
        } else {
          x := FrozenPart(s, bound, rev, collection.completedAt, env(3));
        }
      }
    } else {
      BoundCollectionTime(s, rd, rev, prior, collection);
      BoundIsFrozen(s, rd, rev, prior, collection, t, rd, env(3));
      x := FrozenPart(s, rd, rev, collection.completedAt, env(3));
    }
  }

  lemma CollectionOfStaged(s: DateStore, rd: RunDir, rev: nat, prior: string, collection: Collection, t: Telemetry)
    requires Gathering(s, rd, rev, prior) && CollectionOf(rd, collection) == collection && rd.context.Some?
    requires MarketDataCollection in rd.artifacts
    ensures rd.artifacts[MarketDataCollection] == CollectionBytes(collection)
    ensures CollectionOf(CollectedDir(rd, collection, t), collection) == collection
    ensures CollectedDir(rd, collection, t).context == rd.context
    ensures LatestAt(rd.checkpoints, Stage.EvidenceCollected).Some? ==> CollectionBound(s, rd, rev, collection)
  {
    hide Underway, PriorBound, LatestAt, StoredCollection, WithTelemetry;
  }

  lemma StageLeaves(s: DateStore, rev: nat, rd: RunDir, t: Telemetry, fault: Fault)
    requires TelemetryFits(rd, t)
    ensures var (name, payload) := TelemetryArtifact(t);
            var (s1, r) := StageArtifact(Put(s, rev, rd), rev, name, payload, fault);
            && (s1 == Put(s, rev, rd) || s1 == Put(s, rev, WithArtifact(rd, name, payload)))
            && (r.Ok? ==> s1 == Put(s, rev, WithArtifact(rd, name, payload)))
            && (r.Rejected? ==> !r.failure.Aborted?)
  {
    StageOnce(s, rev, rd, TelemetryArtifact(t).0, TelemetryArtifact(t).1, fault);
  }

  lemma BindingLeaves(s: DateStore, rd: RunDir, rev: nat, collection: Collection, t: Telemetry, fault: Fault)
    requires rd.context.Some? && rd.context.value.revision == rev && rd.freeze.None? && rd.checkpoints != []
    requires LatestAt(rd.checkpoints, Stage.EvidenceCollected).None?
    requires MarketDataCollection in rd.artifacts && rd.artifacts[MarketDataCollection] == CollectionBytes(collection)
    ensures var more := WithArtifact(rd, TelemetryArtifact(t).0, TelemetryArtifact(t).1);
            var (s1, r) := AppendIfCurrent(Put(s, rev, more), rev, WithTelemetry(CollectedCp(rd, collection), t),
                                           |rd.checkpoints|, fault);
            && (s1 == Put(s, rev, more) || s1 == Put(s, rev, CollectedDir(rd, collection, t)))
            && (r.Ok? ==> s1 == Put(s, rev, CollectedDir(rd, collection, t)))
            && (r.Rejected? ==> !r.failure.Aborted?)
  {
    hide AppendIfCurrent, AppendCheckpoint, LatestAt, WithTelemetry, Admits, Put, Business;
    var more, cp := WithArtifact(rd, TelemetryArtifact(t).0, TelemetryArtifact(t).1), WithTelemetry(CollectedCp(rd, collection), t);
    CollectedSays(rd, rev, collection, t);
    assert rd.artifacts[MarketDataCollection := CollectionBytes(collection)] == rd.artifacts;
    assert WithArtifact(rd, MarketDataCollection, CollectionBytes(collection)) == rd;
    EarlyIsAdmitted(more, cp);
    AppendCalmly(s, rev, more, cp, NoFault);
    AppendsOrNot(s, rev, more, cp, |rd.checkpoints|, fault);
    Resumptions.AppendedAlike(Put(s, rev, more), rev, cp, |rd.checkpoints|, fault);
    AppendNeverAborts(Put(s, rev, more), rev, cp, |rd.checkpoints|, fault);
  }

  lemma AppendNeverAborts(s: DateStore, rev: nat, cp: Checkpoint, expected: nat, fault: Fault)
    ensures var r := AppendIfCurrent(s, rev, cp, expected, fault).1; !(r.Rejected? && r.failure.Aborted?)
  {
    hide Admits, Load;
  }

  /** What freezing a bound collection can leave, all of it accounted for. */
  lemma BoundIsFrozen(s: DateStore, rd: RunDir, rev: nat, prior: string, collection: Collection, t: Telemetry,
                      bound: RunDir, fault: Fault)
    requires Gathering(s, bound, rev, prior) && CollectionBound(s, bound, rev, collection)
    requires Last(bound.checkpoints).writtenAt == collection.completedAt
    requires LatestAt(bound.checkpoints, Stage.EvidenceCollected).Some?
    requires bound.context.Some? && collection.completedAt >= bound.context.value.invokedAt
    ensures var cutoff := collection.completedAt;
            var (s1, r) := Freeze(Put(s, rev, bound), rev, cutoff, fault);
            && (s1 == Put(s, rev, bound) || s1 == Put(s, rev, bound.(freeze := Some(cutoff)))
                || s1 == Put(s, rev, FrozenDir(bound, cutoff)))
            && (r.Ok? ==> s1 == Put(s, rev, FrozenDir(bound, cutoff))
                          && r.value == LoadDir(FrozenDir(bound, cutoff), false).value)
            && (r.Rejected? ==> !r.failure.Aborted?)
            && Unmarked(bound.(freeze := Some(cutoff)))
            && Frozen(s, FrozenDir(bound, cutoff), rev, prior, collection) && DataQuality !in FrozenDir(bound, cutoff).artifacts
            && FrozenDir(bound, cutoff).context == bound.context
  {
    hide LatestAt, WithTelemetry, StoredCollection, Put, Underway, PriorBound, CollectionBound, Freeze, Frozen;
    CollectingBasics(s, bound, rev, prior);
    BoundThenFrozen(s, bound, rev, prior, collection);
    FreezeLeaves(s, bound, rev, collection.completedAt, fault);
    FreezeNeverAborts(Put(s, rev, bound), rev, collection.completedAt, fault);
  }

  lemma FreezeNeverAborts(s: DateStore, rev: nat, cutoff: Instant, fault: Fault)
    ensures var r := Freeze(s, rev, cutoff, fault).1; !(r.Rejected? && r.failure.Aborted?)
  {
    hide Admits, FrozenMarker;
  }

  /** The directory a disturbed freeze left. */
  lemma FrozenPart(s: DateStore, rd: RunDir, rev: nat, cutoff: Instant, fault: Fault) returns (x: RunDir)
    requires rd.context.Some?
    requires var s1 := Freeze(Put(s, rev, rd), rev, cutoff, fault).0;
             s1 == Put(s, rev, rd) || s1 == Put(s, rev, rd.(freeze := Some(cutoff))) || s1 == Put(s, rev, FrozenDir(rd, cutoff))
    ensures Freeze(Put(s, rev, rd), rev, cutoff, fault).0 == Put(s, rev, x)
    ensures x == rd || x == rd.(freeze := Some(cutoff)) || x == FrozenDir(rd, cutoff)
    ensures Freeze(Put(s, rev, rd), rev, cutoff, fault).0 == Put(s, rev, FrozenDir(rd, cutoff)) ==> x == FrozenDir(rd, cutoff)
  {
    hide Freeze, Put, FrozenDir;
    var s1 := Freeze(Put(s, rev, rd), rev, cutoff, fault).0;
    x := if s1 == Put(s, rev, FrozenDir(rd, cutoff)) then FrozenDir(rd, cutoff)
         else if s1 == Put(s, rev, rd) then rd else rd.(freeze := Some(cutoff));
  }

  /** Collecting and freezing, disturbed. */
  lemma CollectionLeaves(p: Rules, s: DateStore, rd: RunDir, rev: nat, prior: string, collection: Collection,
                         answer: Answer<Collection>, t: Telemetry, env: Environment) returns (x: RunDir)
    requires Gathering(s, rd, rev, prior) && CollectionOf(rd, collection) == collection
    requires MarketDataCollection !in rd.artifacts ==> answer == Given(collection)
    requires collection.completedAt >= rd.context.value.invokedAt
    requires collection.symbols == p.symbols(RunOf(rd).configuration)
    ensures var (s1, r) := CollectAndFreeze(p, Put(s, rev, rd), RunOf(rd), answer, t, env);
            && s1 == Put(s, rev, x) && x.context == rd.context
            && ((Gathering(s, x, rev, prior) && CollectionOf(x, collection) == collection) || Unmarked(x)
                || Frozen(s, x, rev, prior, collection))
            && DataQuality !in x.artifacts
            && (r.Ok? ==> r.value == (LoadDir(x, false).value, collection) && Frozen(s, x, rev, prior, collection))
            && (r.Rejected? ==> !r.failure.Aborted?)
  {
    var staged := WithArtifact(rd, MarketDataCollection, CollectionBytes(collection));
    hide Underway, PriorBound, StageArtifact, BindAndFreeze, LatestAt, StoredCollection, Put, Frozen, Load,
         LatestTelemetry, CollectionBound, TelemetryFits;
    CollectingBasics(s, rd, rev, prior);
    LoadPut(s, rev, rd);
    if MarketDataCollection in rd.artifacts {
      BoundIsOurs(s, rd, rev, prior);
      x := BindLeaves(s, rd, rev, prior, collection, t, env);
    } else {
      FreshIsCollecting(s, rd, rev, prior, collection);
      StageOnce(s, rev, rd, MarketDataCollection, CollectionBytes(collection), env(0));
      StagingReplies(Put(s, rev, rd), rev, MarketDataCollection, CollectionBytes(collection), env(0));
      var (s0, r0) := StageArtifact(Put(s, rev, rd), rev, MarketDataCollection, CollectionBytes(collection), env(0));
      if r0.Ok? {
        assert LoadDir(staged, false) == LoadDir(rd, false);
        x := BindLeaves(s, staged, rev, prior, collection, t, env);
      } else {
        x := if s0 == Put(s, rev, rd) then rd else staged;
      }
    }
  }

  lemma StagingReplies(s: DateStore, rev: nat, name: Name, payload: Payload, fault: Fault)
    ensures var r := StageArtifact(s, rev, name, payload, fault).1; !(r.Rejected? && r.failure.Aborted?)
  {
  }

  // ---- Quality ----

  lemma QualityPart(s: DateStore, rd: RunDir, rev: nat, prior: string, collection: Collection, quality: QualityResult,
                    t: Telemetry, x: RunDir)
    requires Frozen(s, rd, rev, prior, collection) && QualityOf(rd, quality) == quality
    requires var staged := WithArtifact(rd, DataQuality, QualityBytes(quality));
             Under(rd, x) && Under(x, WithArtifact(staged, TelemetryArtifact(t).0, TelemetryArtifact(t).1))
    ensures Frozen(s, x, rev, prior, collection) && QualityOf(x, quality) == quality && x.context == rd.context
  {
    hide StoredPacketHash, Attempts, LatestAt, BoundPriors, StoredCollection, Resumptions.AllMeasurable;
    var staged := WithArtifact(rd, DataQuality, QualityBytes(quality));
    var full := WithArtifact(staged, TelemetryArtifact(t).0, TelemetryArtifact(t).1);
    StagedIsMeasurable(s, rev, rd, DataQuality, QualityBytes(quality));
    AllFits(s, rev, staged);
    assert TelemetryFits(staged, t);
    StagedIsMeasurable(s, rev, staged, TelemetryArtifact(t).0, TelemetryArtifact(t).1);
    AllFits(s, rev, full);
    Resumptions.MoreIsMeasurable(s, rev, rd, x, full);
    CollectionStaysBound(s, rev, rd, x, collection);
  }

  lemma QualityWrites(rd: RunDir, quality: QualityResult, t: Telemetry)
    requires DataQuality in rd.artifacts ==> rd.artifacts[DataQuality] == QualityBytes(quality)
    requires TelemetryFits(WithArtifact(rd, DataQuality, QualityBytes(quality)), t)
    ensures var staged, writes := WithArtifact(rd, DataQuality, QualityBytes(quality)),
                                  [(DataQuality, QualityBytes(quality)), TelemetryArtifact(t)];
            && Agrees(rd, writes)
            && StagedAll(rd, writes) == WithArtifact(staged, TelemetryArtifact(t).0, TelemetryArtifact(t).1)
  {
    var writes := [(DataQuality, QualityBytes(quality)), TelemetryArtifact(t)];
    TwoWrites(rd, writes);
  }

  /** Two writes that agree, staged one after the other. */
  lemma TwoWrites(rd: RunDir, writes: Writes)
    requires |writes| == 2 && writes[0].1 != RawBytes([]) && writes[1].1 != RawBytes([])
    requires writes[0].0 in rd.artifacts ==> rd.artifacts[writes[0].0] == writes[0].1
    requires var once := WithArtifact(rd, writes[0].0, writes[0].1);
             writes[1].0 in once.artifacts ==> once.artifacts[writes[1].0] == writes[1].1
    ensures var once := WithArtifact(rd, writes[0].0, writes[0].1);
            Agrees(rd, writes) && StagedAll(rd, writes) == WithArtifact(once, writes[1].0, writes[1].1)
  {
    var once := WithArtifact(rd, writes[0].0, writes[0].1);
    var twice := WithArtifact(once, writes[1].0, writes[1].1);
    assert writes[1..] == [writes[1]] && writes[1..][1..] == [];
    assert Agrees(twice, []) && StagedAll(twice, []) == twice;
    assert Agrees(once, writes[1..]) && StagedAll(once, writes[1..]) == twice;
  }

  /** Checkpointing quality, disturbed. */
  lemma QualityLeaves(p: Rules, s: DateStore, rd: RunDir, rev: nat, prior: string, collection: Collection,
                      quality: QualityResult, answer: Answer<QualityResult>, at: Instant, t: Telemetry, env: Environment)
    returns (x: RunDir)
    requires Frozen(s, rd, rev, prior, collection) && QualityOf(rd, quality) == quality && !quality.status.Fail?
    requires at >= collection.completedAt && (DataQuality !in rd.artifacts ==> answer == Given(quality))
    requires collection.symbols == p.symbols(RunOf(rd).configuration)
    ensures var (s1, r) := CheckpointQuality(p, Put(s, rev, rd), RunOf(rd), answer, at, t, env);
            && s1 == Put(s, rev, x) && x.context == rd.context
            && ((Frozen(s, x, rev, prior, collection) && QualityOf(x, quality) == quality)
                || Judged(s, x, rev, prior, collection, quality))
            && (r.Ok? ==> r.value == quality && x == JudgedDir(rd, collection, quality, at, t)
                          && Judged(s, x, rev, prior, collection, quality))
            && (r.Rejected? ==> !r.failure.Aborted?)
  {
    hide Underway, PriorBound, CollectionBound, LoadFrozen, LatestTelemetry, StageAndAppend, WithTelemetry, Admits, Put,
         CollectAndFreeze, Bound, QualityCheckpoint, TelemetryFits, StagedAll, Agrees, PartlyStaged, Judged, Under;
    FrozenBasics(s, rd, rev, prior, collection);
    var s0, a := Put(s, rev, rd), QualityCp(rd, collection, quality, at);
    var writes := [(DataQuality, QualityBytes(quality)), TelemetryArtifact(t)];
    FrozenIsGivenBack(p, s, rd, rev, prior, collection, Given(collection), t, env);
    StagedQualityIsOurs(s, rd, rev, prior, collection, quality);
    Progress.QualityIsAdmitted(s, rd, rev, prior, collection, quality, at, t);
    QualitySays(s, rd, rev, prior, collection, quality, at, t);
    QualityWrites(rd, quality, t);
    LoadPut(s, rev, rd);
    StepLeaves(s, rev, rd, writes, WithTelemetry(a, t), env);
    StepNeverAborts(s0, rev, writes, WithTelemetry(a, t), |rd.checkpoints|, env);
    var (s1, r) := StageAndAppend(s0, rev, writes, WithTelemetry(a, t), |rd.checkpoints|, env);
    DisturbedQuality(p, s0, RunOf(rd), LoadDir(rd, false).value, collection, quality, answer, at, t, env);
    if s1 == Put(s, rev, JudgedDir(rd, collection, quality, at, t)) {
      x := JudgedDir(rd, collection, quality, at, t);
      JudgedIsRecorded(s, rd, rev, prior, collection, quality, at, t);
      JudgedDirContext(rd, collection, quality, at, t);
    } else {
      assert !r.Ok? by { JudgedDirIs(rd, collection, quality, at, t); }
      assert PartlyStaged(s, s1, rev, rd, writes, false) by { JudgedDirIs(rd, collection, quality, at, t); }
      x := PartOf(s, s1, rev, rd, writes);
      QualityPart(s, rd, rev, prior, collection, quality, t, x);
    }
  }

  lemma JudgedDirContext(rd: RunDir, collection: Collection, quality: QualityResult, at: Instant, t: Telemetry)
    requires rd.context.Some? && rd.checkpoints != []
    ensures JudgedDir(rd, collection, quality, at, t).context == rd.context
  {
  }

  lemma JudgedDirIs(rd: RunDir, collection: Collection, quality: QualityResult, at: Instant, t: Telemetry)
    requires rd.context.Some? && rd.checkpoints != []
    ensures var staged := WithArtifact(rd, DataQuality, QualityBytes(quality));
            Append(WithArtifact(staged, TelemetryArtifact(t).0, TelemetryArtifact(t).1),
                   WithTelemetry(QualityCp(rd, collection, quality, at), t))
            == JudgedDir(rd, collection, quality, at, t)
  {
    hide WithTelemetry;
  }

  /** Quality that is not checkpointed yet is staged and checkpointed, however that goes. */
  lemma DisturbedQuality(p: Rules, s: DateStore, run: RunContext, stored: Stored, collection: Collection,
                         quality: QualityResult, answer: Answer<QualityResult>, at: Instant, t: Telemetry,
                         env: Environment)
    requires LoadFrozen(p, s, run) == Some((stored, collection)) && stored.checkpoints != []
    requires ChosenQuality(s, run.revision, Last(stored.checkpoints), answer) == Ok(quality)
    requires !LatestTelemetry(s, stored.checkpoints).Malformed?
    requires stored.cutoff.Some? && stored.cutoff.value <= at && Last(stored.checkpoints).writtenAt <= at
    requires Last(stored.checkpoints).stage.EvidenceFrozen? && Last(stored.checkpoints).cutoff == stored.cutoff
    ensures var (s1, r) := StageAndAppend(s, run.revision, [(DataQuality, QualityBytes(quality)), TelemetryArtifact(t)],
                                          WithTelemetry(QualityCheckpoint(stored, collection, quality, at), t),
                                          |stored.checkpoints|, env);
            CheckpointQuality(p, s, run, answer, at, t, env) == (s1, if r.Ok? then Ok(quality) else Propagate(r))
  {
    hide LoadFrozen, LatestTelemetry, StageAndAppend, WithTelemetry, QualityCheckpoint, ReadStaged, QualityRecorded,
         ChosenQuality;
  }

  // ---- Packet ----

  lemma AppendsPlainly(s: DateStore, rev: nat, rd: RunDir, cp: Checkpoint, fault: Fault)
    requires rd.context.Some? && cp.revision == rev && Admits(rd, cp)
    ensures var (s1, r) := AppendCheckpoint(Put(s, rev, rd), rev, cp, fault);
            && (s1 == Put(s, rev, rd) || s1 == Put(s, rev, Append(rd, cp)))
            && (r.Ok? ==> s1 == Put(s, rev, Append(rd, cp)))
            && !r.Rejected?
  {
    hide Admits;
    assert Put(s, rev, rd).staging[rev := Append(rd, cp)] == s.staging[rev := Append(rd, cp)];
  }

  lemma PackingSteps(e: Engine, rd: RunDir, packet: Packet, t: Telemetry)
    requires ResearchPacket !in rd.artifacts && ReducedReport !in rd.artifacts
    requires TelemetryFits(Filled(e, rd, packet), t)
    ensures var once, twice := WithArtifact(rd, ResearchPacket, PacketBytes(packet)), Filled(e, rd, packet);
            && Packing(e, rd, packet, t, once) && Packing(e, rd, packet, t, twice)
            && Packing(e, rd, packet, t, WithArtifact(twice, TelemetryArtifact(t).0, TelemetryArtifact(t).1))
  {
  }

  /** Staging a packet and its checkpoint, disturbed. */
  lemma PacketLeaves(e: Engine, s: DateStore, rd: RunDir, rev: nat, prior: string, collection: Collection,
                     quality: QualityResult, packet: Packet, at: Instant, t: Telemetry, env: Environment)
    returns (x: RunDir)
    requires Judged(s, rd, rev, prior, collection, quality)
    requires rd.context.Some? && rd.checkpoints != [] && packet.run == PacketContext(rd)
    requires at >= Last(rd.checkpoints).writtenAt && at >= collection.completedAt
    ensures var (s1, r) := StagePacket(e, Put(s, rev, rd), packet, at, t, env);
            && s1 == Put(s, rev, x)
            && (x == rd || Packing(e, rd, packet, t, x) || HandsOver(e, x, packet)) && x.context == rd.context
            && (r.Ok? ==> HandsOver(e, x, packet))
            && (r.Rejected? ==> !r.failure.Aborted?)
  {
    hide WithTelemetry, Judged, StoredPacketHash, Attempts, LatestTelemetry, Put, Admits, TelemetryFits, StageArtifact,
         StageAll, AppendCheckpoint, Packing, PacketFits, HandsOver, Load;
    JudgedBasics(s, rd, rev, prior, collection, quality);
    Progress.PacketIsAdmitted(e, s, rd, rev, prior, collection, quality, packet, at, t);
    JudgedFits(s, rd, rev, prior, collection, quality, packet, at);
    PackingSteps(e, rd, packet, t);
    PackagedHandsOver(e, rd, packet, at, t);
    LoadPut(s, rev, rd);
    var base, once, twice := TextBytes(e.base(packet)), WithArtifact(rd, ResearchPacket, PacketBytes(packet)), Filled(e, rd, packet);
    var full := WithArtifact(twice, TelemetryArtifact(t).0, TelemetryArtifact(t).1);
    var cp := WithTelemetry(PacketCheckpoint(packet, e.base(packet), at), t);
    assert cp.revision == rev by { BoundIsOtherwise(PacketCheckpoint(packet, e.base(packet), at), t); }
    StageOneOrTwo(Put(s, rev, rd), rev, Some((ResearchPacket, PacketBytes(packet))), (ReducedReport, base), env);
    assert [(ResearchPacket, PacketBytes(packet))] + [(ReducedReport, base)]
           == [(ResearchPacket, PacketBytes(packet)), (ReducedReport, base)];
    StageOnce(s, rev, rd, ResearchPacket, PacketBytes(packet), env(0));
    StageOnce(s, rev, once, ReducedReport, base, env(1));
    StageLeaves(s, rev, twice, t, env(2));
    AppendsPlainly(s, rev, full, cp, env(3));
    StagingReplies(Put(s, rev, rd), rev, ResearchPacket, PacketBytes(packet), env(0));
    StagingReplies(Put(s, rev, once), rev, ReducedReport, base, env(1));
    var s1 := StagePacket(e, Put(s, rev, rd), packet, at, t, env).0;
    x := if s1 == Put(s, rev, PackagedDir(e, rd, packet, at, t)) then PackagedDir(e, rd, packet, at, t)
         else if s1 == Put(s, rev, full) then full
         else if s1 == Put(s, rev, twice) then twice
         else if s1 == Put(s, rev, once) then once else rd;
  }

  lemma JudgedFits(s: DateStore, rd: RunDir, rev: nat, prior: string, collection: Collection, quality: QualityResult,
                   packet: Packet, at: Instant)
    requires Judged(s, rd, rev, prior, collection, quality)
    requires rd.context.Some? && rd.checkpoints != [] && packet.run == PacketContext(rd)
    requires at >= collection.completedAt
    ensures PacketFits(Put(s, rev, rd), packet, at) && packet.run.revision == rev
    ensures !StageAwaitsSynthesis(Last(rd.checkpoints).stage)
  {
    hide WithTelemetry, Judged, StoredPacketHash, Attempts, LatestTelemetry, Put;
    JudgedBasics(s, rd, rev, prior, collection, quality);
    LoadPut(s, rev, rd);
    hide Load;
  }

  // ---- The whole call ----

  /** Where a call can have stopped: on the way, between the writes of the freeze, while packing, or handed over. */
  ghost predicate LeftBehind(e: Engine, s: DateStore, x: RunDir, rev: nat, prior: string, collection: Collection,
                             quality: QualityResult, packet: Packet, base: RunDir, t: Telemetry)
  {
    || OnTheWay(s, x, rev, prior, collection, quality)
    || Unmarked(x)
    || (Judged(s, base, rev, prior, collection, quality) && Packing(e, base, packet, t, x))
    || HandsOver(e, x, packet)
  }

  lemma FirstPhaseLeaves(p: Rules, s: DateStore, rd: RunDir, rev: nat, prior: string, collection: Collection,
                         quality: QualityResult, a: Answers) returns (x: RunDir)
    requires OnTheWay(s, rd, rev, prior, collection, quality) && rd.context.Some? && rd.checkpoints != []
    requires p.priorFits(RunOf(rd), prior) && Supplies(a, rd, prior, collection, quality) && InSequence(a, rd, collection)
    ensures var (s1, r) := FreezePrior(p, Put(s, rev, rd), RunOf(rd), a.prior, a.now(2), a.env(2));
            && s1 == Put(s, rev, x) && OnTheWay(s, x, rev, prior, collection, quality) && x.context == rd.context
            && (r.Ok? ==> r.value == prior && !Choosing(s, x, rev) && RunOf(x) == RunOf(rd)
                          && Supplies(a, x, prior, collection, quality)
                          && (x == rd || (Gathering(s, x, rev, prior) && CollectionOf(x, collection) == collection)))
            && (r.Rejected? ==> !r.failure.Aborted?)
  {
    hide FreezePrior, Put, Gathering, Frozen, Judged, PriorDir, Choosing;
    if Choosing(s, rd, rev) && PriorOf(rd, prior) == prior {
      ChoosingBasics(s, rd, rev, prior, a.prior);
      x := PriorLeaves(p, s, rd, rev, prior, a.prior, a.now(2), a.env(2));
      PriorThenCollecting(s, rd, rev, prior, a.now(2));
      CollectingIsNotChoosing(s, PriorDir(rd, prior, a.now(2)), rev, prior);
      PriorDirKeeps(rd, prior, a.now(2));
    } else {
      x := rd;
      LaterHasPrior(s, rd, rev, prior, collection, quality);
      PriorIsRestored(p, s, rd, rev, prior, a.prior, a.now(2), a.env(2));
    }
  }

  lemma SecondPhaseLeaves(p: Rules, s: DateStore, rd: RunDir, rev: nat, prior: string, collection: Collection,
                          quality: QualityResult, a: Answers) returns (x: RunDir)
    requires OnTheWay(s, rd, rev, prior, collection, quality) && !Choosing(s, rd, rev)
    requires rd.context.Some? && Supplies(a, rd, prior, collection, quality)
    requires collection.symbols == p.symbols(rd.context.value.configuration)
    requires collection.completedAt >= rd.context.value.invokedAt
    ensures x.context == rd.context
    ensures var (s1, r) := CollectAndFreeze(p, Put(s, rev, rd), RunOf(rd), a.collect, a.measured(3), a.env(3));
            && s1 == Put(s, rev, x) && (OnTheWay(s, x, rev, prior, collection, quality) || Unmarked(x))
            && (r.Ok? ==>
                  && r.value == (LoadDir(x, false).value, collection)
                  && ((Frozen(s, x, rev, prior, collection) && QualityOf(x, quality) == quality)
                      || Judged(s, x, rev, prior, collection, quality))
                  && (DataQuality !in x.artifacts ==> a.quality == Given(quality))
                  && (x == rd || Frozen(s, x, rev, prior, collection)))
            && (r.Rejected? ==> !r.failure.Aborted?)
  {
    hide CollectAndFreeze, Put, Underway, PriorBound, CollectionBound, QualityRecorded, LatestAt;
    if Gathering(s, rd, rev, prior) && CollectionOf(rd, collection) == collection {
      NoQualityYet(s, rd, rev, prior);
      x := CollectionLeaves(p, s, rd, rev, prior, collection, a.collect, a.measured(3), a.env(3));
    } else {
      x := rd;
      LaterIsFrozen(s, rd, rev, prior, collection, quality);
      FrozenIsGivenBack(p, s, rd, rev, prior, collection, a.collect, a.measured(3), a.env(3));
    }
  }

  lemma NoQualityYet(s: DateStore, rd: RunDir, rev: nat, prior: string)
    requires Gathering(s, rd, rev, prior)
    ensures DataQuality !in rd.artifacts
  {
    hide Underway, PriorBound, CollectionBound, LatestAt;
  }

  lemma ThirdPhaseLeaves(p: Rules, s: DateStore, rd: RunDir, rev: nat, prior: string, collection: Collection,
                         quality: QualityResult, a: Answers) returns (x: RunDir)
    requires (Frozen(s, rd, rev, prior, collection) && QualityOf(rd, quality) == quality)
             || Judged(s, rd, rev, prior, collection, quality)
    requires rd.context.Some? && rd.checkpoints != [] && (DataQuality !in rd.artifacts ==> a.quality == Given(quality))
    requires collection.symbols == p.symbols(rd.context.value.configuration) && !quality.status.Fail?
    requires a.now(4) >= collection.completedAt
    ensures var (s1, r) := CheckpointQuality(p, Put(s, rev, rd), RunOf(rd), a.quality, a.now(4), a.measured(4), a.env(4));
            && s1 == Put(s, rev, x) && OnTheWay(s, x, rev, prior, collection, quality) && x.context == rd.context
            && (r.Ok? ==> r.value == quality && Judged(s, x, rev, prior, collection, quality) && x.checkpoints != []
                          && (x == rd || Last(x.checkpoints).writtenAt == a.now(4)))
            && (r.Rejected? ==> !r.failure.Aborted?)
  {
    hide CheckpointQuality, Put, Underway, PriorBound, CollectionBound, QualityRecorded, JudgedDir;
    if Judged(s, rd, rev, prior, collection, quality) {
      x := rd;
      JudgedIsGivenBack(p, s, rd, rev, prior, collection, quality, a.quality, a.now(4), a.measured(4), a.env(4));
    } else {
      x := QualityLeaves(p, s, rd, rev, prior, collection, quality, a.quality, a.now(4), a.measured(4), a.env(4));
      StagedQualityIsOurs(s, rd, rev, prior, collection, quality);
      JudgedIsRecorded(s, rd, rev, prior, collection, quality, a.now(4), a.measured(4));
      if Judged(s, x, rev, prior, collection, quality) { JudgedBasics(s, x, rev, prior, collection, quality); }
    }
  }

  /** The last phase, disturbed, from checkpointed quality. */
  lemma LastPhaseLeaves(e: Engine, p: Rules, s: DateStore, rd: RunDir, rev: nat, run: RunContext, s2: DateStore,
                        prior: string, collection: Collection, quality: QualityResult, body: string, a: Answers)
    returns (x: RunDir)
    requires Judged(s, rd, rev, prior, collection, quality) && rd.context.Some? && rd.checkpoints != []
    requires run.revision == rev && !quality.status.Fail? && !a.expired(2) && !a.expired(3)
    requires CheckpointQuality(p, s2, run, a.quality, a.now(4), a.measured(4), a.env(4)) == (Put(s, rev, rd), Ok(quality))
    requires a.build(PacketRun(rd, collection, quality), collection, quality, prior) == Given(body)
    requires a.now(6) >= Last(rd.checkpoints).writtenAt && a.now(6) >= collection.completedAt
    ensures var packet := Packet(PacketRun(rd, collection, quality), [], body);
            var (s1, r) := Evaluate(e, p, s2, run, collection, prior, a);
            && s1 == Put(s, rev, x)
            && (x == rd || Packing(e, rd, packet, a.measured(5), x) || HandsOver(e, x, packet)) && x.context == rd.context
            && (r.Ok? ==> HandsOver(e, x, packet))
            && (r.Rejected? ==> !r.failure.Aborted?)
  {
    hide Judged, CheckpointQuality, StagePacket, Put, Load, Packing, HandsOver, OperationalFailure;
    var packet := Packet(PacketRun(rd, collection, quality), [], body);
    JudgedContext(s, rd, rev, prior, collection, quality);
    x := PacketLeaves(e, s, rd, rev, prior, collection, quality, packet, a.now(6), a.measured(5), a.env(5));
    LoadPut(s, rev, rd);
    LoadPut(s, rev, x);
  }

  /** The evidence fits the run, and no deadline passes; every write may fail. */
  predicate Fitting(a: Answers, p: Rules, rd: RunDir, prior: string, collection: Collection, quality: QualityResult)
    requires rd.context.Some?
  {
    && Enters(a)
    && !a.expired(0) && !a.expired(1) && !a.expired(2) && !a.expired(3) && !p.providerTimedOut(collection)
    && p.priorFits(RunOf(rd), prior) && collection.symbols == p.symbols(rd.context.value.configuration)
    && !quality.status.Fail?
  }

  lemma AssembleStopsFirst(e: Engine, p: Rules, s: DateStore, run: RunContext, a: Answers)
    requires !a.expired(0) && !FreezePrior(p, s, run, a.prior, a.now(2), a.env(2)).1.Ok?
    ensures var (s1, r) := FreezePrior(p, s, run, a.prior, a.now(2), a.env(2));
            Assemble(e, p, s, run, a) == (s1, Propagate(r))
  {
    hide FreezePrior, CollectAndFreeze, Evaluate;
  }

  lemma AssembleStopsSecond(e: Engine, p: Rules, s: DateStore, run: RunContext, a: Answers, prior: string, s1: DateStore)
    requires !a.expired(0) && FreezePrior(p, s, run, a.prior, a.now(2), a.env(2)) == (s1, Ok(prior))
    requires !CollectAndFreeze(p, s1, run, a.collect, a.measured(3), a.env(3)).1.Ok?
    ensures var (s2, r) := CollectAndFreeze(p, s1, run, a.collect, a.measured(3), a.env(3));
            Assemble(e, p, s, run, a) == (s2, Propagate(r))
  {
    hide FreezePrior, CollectAndFreeze, Evaluate;
  }

  lemma EvaluateStopsFirst(e: Engine, p: Rules, s: DateStore, run: RunContext, collection: Collection, prior: string,
                           a: Answers)
    requires !CheckpointQuality(p, s, run, a.quality, a.now(4), a.measured(4), a.env(4)).1.Ok?
    ensures var (s1, r) := CheckpointQuality(p, s, run, a.quality, a.now(4), a.measured(4), a.env(4));
            Evaluate(e, p, s, run, collection, prior, a) == (s1, Propagate(r))
  {
    hide CheckpointQuality, StagePacket, Load, OperationalFailure;
  }

  /** Evaluating and packing, disturbed, from frozen evidence. */
  lemma EvaluateLeaves(e: Engine, p: Rules, s: DateStore, rd: RunDir, rev: nat, prior: string, collection: Collection,
                       quality: QualityResult, body: string, a: Answers) returns (x: RunDir, base: RunDir)
    requires (Frozen(s, rd, rev, prior, collection) && QualityOf(rd, quality) == quality)
             || Judged(s, rd, rev, prior, collection, quality)
    requires rd.context.Some? && rd.checkpoints != [] && rd.context.value.revision == rev
    requires DataQuality !in rd.artifacts ==> a.quality == Given(quality)
    requires InBudget(a, p, rd, collection, quality)
    requires a.build(PacketRun(rd, collection, quality), collection, quality, prior) == Given(body)
    requires a.now(4) >= collection.completedAt && a.now(6) >= a.now(4)
    requires a.now(6) >= Last(rd.checkpoints).writtenAt || !Judged(s, rd, rev, prior, collection, quality)
    ensures var packet := Packet(PacketRun(rd, collection, quality), [], body);
            var (s1, r) := Evaluate(e, p, Put(s, rev, rd), RunOf(rd), collection, prior, a);
            && s1 == Put(s, rev, x) && LeftBehind(e, s, x, rev, prior, collection, quality, packet, base, a.measured(5))
            && x.context == rd.context && base.context == rd.context
            && (r.Ok? ==> HandsOver(e, x, packet))
            && (r.Rejected? ==> !r.failure.Aborted?)
  {
    hide Judged, Frozen, CheckpointQuality, Put, Evaluate, Packing, HandsOver, Unmarked;
    base := ThirdPhaseLeaves(p, s, rd, rev, prior, collection, quality, a);
    if CheckpointQuality(p, Put(s, rev, rd), RunOf(rd), a.quality, a.now(4), a.measured(4), a.env(4)).1.Ok? {
      x := LastPhaseLeaves(e, p, s, base, rev, RunOf(rd), Put(s, rev, rd), prior, collection, quality, body, a);
    } else {
      x := base;
      EvaluateStopsFirst(e, p, Put(s, rev, rd), RunOf(rd), collection, prior, a);
    }
  }

  predicate InBudget(a: Answers, p: Rules, rd: RunDir, collection: Collection, quality: QualityResult)
    requires rd.context.Some?
  {
    && !a.expired(2) && !a.expired(3) && collection.symbols == p.symbols(rd.context.value.configuration)
    && !quality.status.Fail?
  }

  /**
   A call that is not out of time, on a run on the way to the packet, is stopped at any of its
   writes, by its process or by an I/O error. It leaves the run on the way to the same packet, or
   while packing it, or handed over; the one other place is between the freeze file and its marker.
   */
  lemma WherePreparationStops(e: Engine, p: Rules, s: DateStore, rd: RunDir, rev: nat, prior: string,
                              collection: Collection, quality: QualityResult, body: string, a: Answers)
    returns (x: RunDir, base: RunDir)
    requires OnTheWay(s, rd, rev, prior, collection, quality) && rd.context.Some? && rd.checkpoints != []
    requires Supplies(a, rd, prior, collection, quality) && Fitting(a, p, rd, prior, collection, quality)
    requires InSequence(a, rd, collection)
    requires a.build(PacketRun(rd, collection, quality), collection, quality, prior) == Given(body)
    ensures var packet := Packet(PacketRun(rd, collection, quality), [], body);
            var (s1, r) := Prepare(e, p, Put(s, rev, rd), rev, a);
            && s1 == Put(s, rev, x)
            && LeftBehind(e, s, x, rev, prior, collection, quality, packet, base, a.measured(5))
            && x.context == rd.context && base.context == rd.context
            && (r.Ok? ==> HandsOver(e, x, packet))
  {
    hide OnTheWay, Judged, Frozen, Choosing, Gathering, CheckpointQuality, CollectAndFreeze, FreezePrior, Put, Prepare, Assemble,
         Evaluate, Load, ReadStaged, HandsOver, Supplies, Packing, Unmarked;
    OnTheWayBasics(s, rd, rev, prior, collection, quality);
    LoadPut(s, rev, rd);
    var s0, run := Put(s, rev, rd), RunOf(rd);
    var rd1 := FirstPhaseLeaves(p, s, rd, rev, prior, collection, quality, a);
    base := rd;
    if !FreezePrior(p, s0, run, a.prior, a.now(2), a.env(2)).1.Ok? {
      x := rd1;
      AssembleStopsFirst(e, p, s0, run, a);
    } else {
      var rd2 := SecondPhaseLeaves(p, s, rd1, rev, prior, collection, quality, a);
      if !CollectAndFreeze(p, Put(s, rev, rd1), run, a.collect, a.measured(3), a.env(3)).1.Ok? {
        x := rd2;
        AssembleStopsSecond(e, p, s0, run, a, prior, Put(s, rev, rd1));
      } else {
        SecondBasics(s, rd2, rev, prior, collection, quality);
        PhasesAssemble(e, p, s0, run, a, prior, collection, Put(s, rev, rd1), Put(s, rev, rd2), LoadDir(rd2, false).value);
        JudgedFromTheStart(s, rd, rd1, rd2, rev, prior, collection, quality);
        x, base := EvaluateLeaves(e, p, s, rd2, rev, prior, collection, quality, body, a);
      }
    }
    WorkGoesOn(e, p, s0, rev, a, LoadDir(rd, false).value);
  }

  /** A directory that is judged before its third phase was so from the start. */
  lemma JudgedFromTheStart(s: DateStore, rd: RunDir, rd1: RunDir, rd2: RunDir, rev: nat, prior: string,
                           collection: Collection, quality: QualityResult)
    requires rd1 == rd || (Gathering(s, rd1, rev, prior) && CollectionOf(rd1, collection) == collection)
    requires rd2 == rd1 || Frozen(s, rd2, rev, prior, collection)
    ensures Judged(s, rd2, rev, prior, collection, quality) ==> rd2 == rd
  {
    if Judged(s, rd2, rev, prior, collection, quality) {
      JudgedIsNotCollecting(s, rd2, rev, prior, collection, quality);
    }
    hide Gathering, Frozen, Judged;
  }

  // ---- The two calls together ----

  /** The second call finds what the first one left, is not disturbed, and builds as the first one would have. */
  ghost predicate GoesOn(e: Engine, p: Rules, x: RunDir, packet: Packet, prior: string, collection: Collection,
                         quality: QualityResult, a: Answers, b: Answers)
  {
    && x.context.Some? && x.checkpoints != [] && !Unmarked(x) && !HandsOver(e, x, packet)
    && Supplies(b, x, prior, collection, quality) && Unhindered(b, p, x, prior, collection, quality)
    && InSequence(b, x, collection) && b.build == a.build
  }

  /**
   A call is stopped at any of its writes, but not between those of the freeze, and had not handed
   over yet; the next call, undisturbed, hands off the very packet the first one was preparing,
   whatever its providers answer for the evidence that was staged.
   */
  lemma StoppedPreparationGoesOn(e: Engine, p: Rules, s: DateStore, rd: RunDir, rev: nat, prior: string,
                                 collection: Collection, quality: QualityResult, body: string, a: Answers, b: Answers)
    requires OnTheWay(s, rd, rev, prior, collection, quality) && rd.context.Some? && rd.checkpoints != []
    requires Supplies(a, rd, prior, collection, quality) && Fitting(a, p, rd, prior, collection, quality)
    requires InSequence(a, rd, collection)
    requires a.build(PacketRun(rd, collection, quality), collection, quality, prior) == Given(body)
    requires var s1 := Prepare(e, p, Put(s, rev, rd), rev, a).0;
             rev in s1.staging
             && GoesOn(e, p, s1.staging[rev], Packet(PacketRun(rd, collection, quality), [], body), prior, collection,
                       quality, a, b)
    ensures var packet := Packet(PacketRun(rd, collection, quality), [], body);
            var (s2, r) := Prepare(e, p, Prepare(e, p, Put(s, rev, rd), rev, a).0, rev, b);
            && rev in s2.staging && HandsOver(e, s2.staging[rev], packet)
            && r == Ok(PacketReady(LoadDir(s2.staging[rev], false).value, packet))
  {
    hide OnTheWay, Judged, Prepare, HandsOver, Packing, Supplies, Unhindered, InSequence, Fitting, Unmarked, Put;
    var packet := Packet(PacketRun(rd, collection, quality), [], body);
    var x, base := WherePreparationStops(e, p, s, rd, rev, prior, collection, quality, body, a);
    var next: RunDir;
    PutHolds(s, rev, x);
    UnhinderedMeans(b, p, x, prior, collection, quality);
    if OnTheWay(s, x, rev, prior, collection, quality) {
      next := PreparationResumes(e, p, s, x, rev, prior, collection, quality, body, b);
    } else {
      JudgedBasics(s, base, rev, prior, collection, quality);
      next := PackingResumes(e, p, s, base, rev, prior, collection, quality, body, a.measured(5), x, b);
    }
    PutHolds(s, rev, next);
  }

  lemma PutHolds(s: DateStore, rev: nat, rd: RunDir)
    ensures rev in Put(s, rev, rd).staging && Put(s, rev, rd).staging[rev] == rd
  {
  }

  lemma UnhinderedMeans(a: Answers, p: Rules, rd: RunDir, prior: string, collection: Collection, quality: QualityResult)
    requires rd.context.Some? && Unhindered(a, p, rd, prior, collection, quality)
    ensures Resumptions.InsideWindow(a) && a.env(5) == Calm()
  {
  }

  // ---- The one place preparation cannot leave ----

  /** The freeze file without its marker: what was bound, with a cutoff that nothing marks. */
  function Half(rd: RunDir, cutoff: Instant): RunDir {
    rd.(freeze := Some(cutoff))
  }

  lemma HalfIsUnderway(s: DateStore, rd: RunDir, rev: nat, prior: string, collection: Collection)
    requires Gathering(s, rd, rev, prior) && CollectionBound(s, rd, rev, collection)
    requires LatestAt(rd.checkpoints, Stage.EvidenceCollected).Some?
    ensures var x := Half(rd, collection.completedAt);
            && Underway(s, x, rev) && PriorBound(x, prior) && CollectionBound(s, x, rev, collection)
            && Unmarked(x) && DataQuality !in x.artifacts
  {
    hide StoredPacketHash, Attempts, LatestAt, BoundPriors, StoredCollection, LatestTelemetry;
    var x := Half(rd, collection.completedAt);
    forall t ensures TelemetryFits(x, t) { assert TelemetryFits(rd, t); }
    ReasonReads(s, rev, rd, x);
    LatestStays(Put(s, rev, rd), Put(s, rev, x), rd.checkpoints);
    CollectionStaysBound(s, rev, rd, x, collection);
  }

  /** Evidence whose freeze is not marked cannot be evaluated: every call refuses it, and writes nothing. */
  lemma UnmarkedIsRefused(p: Rules, s: DateStore, x: RunDir, rev: nat, collection: Collection,
                          answer: Answer<QualityResult>, at: Instant, t: Telemetry, env: Environment)
    requires Underway(s, x, rev) && CollectionBound(s, x, rev, collection) && x.freeze == Some(collection.completedAt)
    requires Unmarked(x) && DataQuality !in x.artifacts && answer.Given?
    requires collection.symbols == p.symbols(RunOf(x).configuration)
    ensures CheckpointQuality(p, Put(s, rev, x), RunOf(x), answer, at, t, env) == (Put(s, rev, x), Rejected(InvalidRequest))
  {
    hide CollectionBound, LoadFrozen, LatestTelemetry, StageAndAppend, WithTelemetry, Put, CollectAndFreeze, QualityRecorded,
         StoredPacketHash, Attempts, TelemetryFits;
    FrozenIsGivenBack(p, s, x, rev, "", collection, Given(collection), t, env);
    LoadPut(s, rev, x);
    hide Load, ReadStaged, Underway;
  }

  /** A run that stopped between the two writes of its freeze is refused by every later call that is in time. */
  lemma UnmarkedIsStuck(e: Engine, p: Rules, s: DateStore, rd: RunDir, rev: nat, prior: string, collection: Collection,
                        a: Answers)
    requires Gathering(s, rd, rev, prior) && CollectionBound(s, rd, rev, collection)
    requires LatestAt(rd.checkpoints, Stage.EvidenceCollected).Some?
    requires Enters(a) && !a.expired(0) && !a.expired(1) && !p.providerTimedOut(collection) && a.quality.Given?
    requires Half(rd, collection.completedAt).context.Some? && p.priorFits(RunOf(Half(rd, collection.completedAt)), prior)
    requires collection.symbols == p.symbols(RunOf(Half(rd, collection.completedAt)).configuration)
    ensures var s1 := Put(s, rev, Half(rd, collection.completedAt));
            Prepare(e, p, s1, rev, a) == (s1, Rejected(InvalidRequest))
  {
    hide Underway, PriorBound, CollectionBound, FreezePrior, CollectAndFreeze, CheckpointQuality, Evaluate, Assemble, Put, Load,
         ReadStaged, LatestAt, Prepare;
    var x := Half(rd, collection.completedAt);
    HalfIsUnderway(s, rd, rev, prior, collection);
    UnderwayBasics(s, x, rev);
    PriorIsRestored(p, s, x, rev, prior, a.prior, a.now(2), a.env(2));
    FrozenIsGivenBack(p, s, x, rev, prior, collection, a.collect, a.measured(3), a.env(3));
    UnmarkedIsRefused(p, s, x, rev, collection, a.quality, a.now(4), a.measured(4), a.env(4));
    PhasesAssemble(e, p, Put(s, rev, x), RunOf(x), a, prior, collection, Put(s, rev, x), Put(s, rev, x),
                   LoadDir(x, false).value);
    EvaluateStopsFirst(e, p, Put(s, rev, x), RunOf(x), collection, prior, a);
    LoadPut(s, rev, x);
    WorkGoesOn(e, p, Put(s, rev, x), rev, a, LoadDir(x, false).value);
  }

  lemma UnderwayBasics(s: DateStore, rd: RunDir, rev: nat)
    requires Underway(s, rd, rev)
    ensures rd.context.Some? && rd.context.value.revision == rev && rd.checkpoints != []
    ensures ResearchPacket !in rd.artifacts && OperationalReason !in rd.artifacts
  {
    hide StoredPacketHash, Attempts, Resumptions.AllMeasurable;
  }
}
