/**
 Preparation taken up again: from every directory an earlier call can have left behind on its way
 to the packet, the next undisturbed call hands off a packet. What was staged before is what it is
 built from, and a packet that was staged is handed off itself.
 */
module Progress {
  import opened RunTypes
  import opened RunStore
  import opened RunHistory
  import opened Publication
  import opened FinalBundle
  import opened PublicationMachine
  import opened PublicationService
  import opened Preparation
  import opened PreparedEvidence
  import opened Undisturbed
  import opened Retries
  import opened Failures
  import Resumptions

  // ---- The directories on the way ----

  /** What all of them have in common. */
  ghost predicate Underway(s: DateStore, rd: RunDir, rev: nat) {
    && rd.context.Some? && rd.context.value.revision == rev && rd.context.value.cutoff.None?
    && Resumptions.AllMeasurable(s, rev, rd)
    && ResearchPacket !in rd.artifacts && ReducedReport !in rd.artifacts && OperationalReason !in rd.artifacts
    && rd.checkpoints != []
    && StoredPacketHash(rd.checkpoints).None? && Attempts(rd.checkpoints) == []
    && var latest := Last(rd.checkpoints);
    && latest.revision == rev && !latest.quality.Fail? && latest.delivery == rd.context.value.delivery
    && ReducedReport !in latest.artifacts
  }

  /** The prior selection that is staged is the only one any checkpoint bound. */
  predicate PriorBound(rd: RunDir, prior: string) {
    && PriorResearch in rd.artifacts && rd.artifacts[PriorResearch] == TextBytes(prior)
    && BoundPriors(rd.checkpoints) == {Sha256(TextBytes(prior))}
  }

  /** Started; a selection may be staged, but none is bound. */
  ghost predicate Choosing(s: DateStore, rd: RunDir, rev: nat) {
    && Underway(s, rd, rev) && rd.freeze.None?
    && BoundPriors(rd.checkpoints) == {} && LatestAt(rd.checkpoints, Stage.EvidenceCollected).None?
    && MarketDataCollection !in rd.artifacts && DataQuality !in rd.artifacts
    && (PriorResearch in rd.artifacts ==> rd.artifacts[PriorResearch].TextBytes?)
    && Last(rd.checkpoints).stage.ConfigFrozen?
  }

  /** The newest collected checkpoint binds this collection. */
  ghost predicate CollectionBound(s: DateStore, rd: RunDir, rev: nat, collection: Collection) {
    && StoredCollection(Put(s, rev, rd), rev, rd.checkpoints) == Some(collection)
    && MarketDataCollection in rd.artifacts && rd.artifacts[MarketDataCollection] == CollectionBytes(collection)
  }

  /** The selection is bound; a collection may be staged, and then bound, but nothing is frozen. */
  ghost predicate Gathering(s: DateStore, rd: RunDir, rev: nat, prior: string) {
    && Underway(s, rd, rev) && rd.freeze.None? && PriorBound(rd, prior) && DataQuality !in rd.artifacts
    && (MarketDataCollection in rd.artifacts ==> rd.artifacts[MarketDataCollection].CollectionBytes?)
    && (if LatestAt(rd.checkpoints, Stage.EvidenceCollected).None? then Last(rd.checkpoints).stage.ConfigFrozen?
        else
          && Last(rd.checkpoints).stage.EvidenceCollected? && MarketDataCollection in rd.artifacts
          && CollectionBound(s, rd, rev, rd.artifacts[MarketDataCollection].collection))
  }

  /** The collection is frozen and marked. */
  ghost predicate Frozen(s: DateStore, rd: RunDir, rev: nat, prior: string, collection: Collection) {
    && Underway(s, rd, rev) && PriorBound(rd, prior) && CollectionBound(s, rd, rev, collection)
    && rd.freeze == Some(collection.completedAt)
    && (DataQuality in rd.artifacts ==> rd.artifacts[DataQuality].QualityBytes?)
    && var latest := Last(rd.checkpoints);
    && latest.stage.EvidenceFrozen? && latest.cutoff == rd.freeze && latest.writtenAt == collection.completedAt
  }

  /** Quality is checkpointed, and is not FAIL. */
  ghost predicate Judged(s: DateStore, rd: RunDir, rev: nat, prior: string, collection: Collection,
                         quality: QualityResult)
  {
    && Underway(s, rd, rev) && PriorBound(rd, prior) && CollectionBound(s, rd, rev, collection)
    && rd.freeze == Some(collection.completedAt)
    && DataQuality in rd.artifacts && rd.artifacts[DataQuality] == QualityBytes(quality)
    && Last(rd.checkpoints).stage.QualityEvaluated? && Last(rd.checkpoints).writtenAt >= collection.completedAt
    && QualityRecorded(Put(s, rev, rd), Last(rd.checkpoints), rd.freeze, collection, quality)
  }

  // ---- Growing a directory ----

  lemma BoundPriorsAppend(cps: seq<Checkpoint>, cp: Checkpoint)
    ensures BoundPriors(cps + [cp])
            == BoundPriors(cps) + (if PriorResearch in cp.artifacts then {cp.artifacts[PriorResearch]} else {})
  {
    var all := cps + [cp];
    forall d | d in BoundPriors(cps) ensures d in BoundPriors(all) {
      var i :| 0 <= i < |cps| && PriorResearch in cps[i].artifacts && cps[i].artifacts[PriorResearch] == d;
      assert all[i] == cps[i];
    }
    if PriorResearch in cp.artifacts { assert all[|cps|] == cp; }
  }

  lemma PacketHashSkips(cps: seq<Checkpoint>, cp: Checkpoint)
    requires ResearchPacket !in cp.artifacts
    ensures StoredPacketHash(cps + [cp]) == StoredPacketHash(cps)
  {
    assert (cps + [cp])[..|cps|] == cps;
  }

  /** A checkpoint that names no telemetry leaves the newest as it is. */
  lemma TelemetrySkips(s: DateStore, cps: seq<Checkpoint>, cp: Checkpoint)
    requires TelemetryNames(cp.artifacts) == {}
    ensures LatestTelemetry(s, cps + [cp]) == LatestTelemetry(s, cps)
  {
    assert (cps + [cp])[..|cps|] == cps;
  }

  /** Staging one more artifact of its own name. */
  lemma StagedIsMeasurable(s: DateStore, rev: nat, rd: RunDir, name: Name, payload: Payload)
    requires Resumptions.AllMeasurable(s, rev, rd) && (name in rd.artifacts ==> rd.artifacts[name] == payload)
    requires name.TelemetryName? ==> exists u :: (name, payload) == TelemetryArtifact(u)
    ensures Resumptions.AllMeasurable(s, rev, WithArtifact(rd, name, payload))
  {
    hide LatestTelemetry;
    var more := WithArtifact(rd, name, payload);
    forall t ensures TelemetryFits(more, t) {
      assert TelemetryFits(rd, t);
      FitsLater(rd, name, payload, t);
    }
    Resumptions.MoreIsMeasurable(s, rev, rd, more, more);
  }

  /** A checkpoint without telemetry, appended. */
  lemma AppendedIsMeasurable(s: DateStore, rev: nat, rd: RunDir, cp: Checkpoint, freeze: Option<Instant>)
    requires Resumptions.AllMeasurable(s, rev, rd) && TelemetryNames(cp.artifacts) == {}
    ensures Resumptions.AllMeasurable(s, rev, Append(rd.(freeze := freeze), cp))
  {
    hide LatestTelemetry;
    var next := Append(rd.(freeze := freeze), cp);
    forall t ensures TelemetryFits(next, t) { assert TelemetryFits(rd, t); }
    TelemetrySkips(Put(s, rev, next), rd.checkpoints, cp);
    ReasonReads(s, rev, rd, next);
    LatestStays(Put(s, rev, rd), Put(s, rev, next), rd.checkpoints);
  }

  /** A checkpoint bound to new telemetry. */
  lemma BoundIsMeasurable(s: DateStore, rev: nat, rd: RunDir, cp: Checkpoint, t: Telemetry)
    requires Resumptions.AllMeasurable(s, rev, rd) && TelemetryNames(cp.artifacts) == {} && cp.revision == rev
    ensures Resumptions.AllMeasurable(s, rev, Bound(rd, cp, t))
  {
    hide LatestTelemetry, WithTelemetry;
    var next := Bound(rd, cp, t);
    forall u ensures TelemetryFits(next, u) {
      assert TelemetryFits(rd, u);
      FitsLater(rd, TelemetryArtifact(t).0, TelemetryArtifact(t).1, u);
    }
    TelemetryContinues(s, rev, next, next.checkpoints, |next.checkpoints| - 1, cp, t);
  }

  /** A bound collection stays bound while artifacts are added and other stages checkpointed. */
  lemma CollectionStaysBound(s: DateStore, rev: nat, rd: RunDir, next: RunDir, collection: Collection)
    requires CollectionBound(s, rd, rev, collection)
    requires forall n :: n in rd.artifacts ==> n in next.artifacts && next.artifacts[n] == rd.artifacts[n]
    requires LatestAt(next.checkpoints, Stage.EvidenceCollected) == LatestAt(rd.checkpoints, Stage.EvidenceCollected)
    ensures CollectionBound(s, next, rev, collection)
  {
    hide LatestAt, CheckpointTelemetry;
    ReasonReads(s, rev, rd, next);
    TelemetryStays(Put(s, rev, rd), Put(s, rev, next), LatestAt(rd.checkpoints, Stage.EvidenceCollected).value);
    LoadPut(s, rev, rd);
    LoadPut(s, rev, next);
    hide Put, ReadsStay;
  }

  // ---- Prior research ----

  /** The staged selection, or else the one given. */
  function PriorOf(rd: RunDir, given: string): string {
    if PriorResearch in rd.artifacts && rd.artifacts[PriorResearch].TextBytes? then rd.artifacts[PriorResearch].text
    else given
  }

  function PriorDir(rd: RunDir, prior: string, at: Instant): RunDir
    requires rd.context.Some?
  {
    Append(WithArtifact(rd, PriorResearch, TextBytes(prior)), ConfigCheckpoint(LoadDir(rd, false).value, prior, at))
  }

  /** A checkpoint before the freeze is admitted unless it is final. */
  lemma EarlyIsAdmitted(rd: RunDir, cp: Checkpoint)
    requires rd.context.Some? && rd.freeze.None? && !cp.stage.Published?
    ensures Admits(rd, cp)
  {
  }

  lemma PriorIsStaged(s: DateStore, rd: RunDir, rev: nat, prior: string)
    requires PriorResearch in rd.artifacts ==> rd.artifacts[PriorResearch] == TextBytes(prior)
    ensures var writes := if PriorResearch in rd.artifacts then [] else [(PriorResearch, TextBytes(prior))];
            StageAll(Put(s, rev, rd), rev, writes, Calm(), 0)
            == (Put(s, rev, WithArtifact(rd, PriorResearch, TextBytes(prior))), Ok(()))
            && |writes| <= 1
  {
    if PriorResearch in rd.artifacts {
      assert rd.artifacts[PriorResearch := TextBytes(prior)] == rd.artifacts;
    } else {
      StageOne(Put(s, rev, rd), rev, (PriorResearch, TextBytes(prior)), Calm(), 0);
      StageCalmly(s, rev, rd, PriorResearch, TextBytes(prior), NoFault);
    }
    hide StageArtifact;
  }

  /** The selection is staged, if it was not, and bound. */
  lemma PriorIsChosen(p: Rules, s: DateStore, rd: RunDir, rev: nat, given: string, at: Instant)
    requires Choosing(s, rd, rev) && p.priorFits(RunOf(rd), PriorOf(rd, given))
    requires at >= rd.context.value.invokedAt && at >= Last(rd.checkpoints).writtenAt
    ensures FreezePrior(p, Put(s, rev, rd), RunOf(rd), given, at, Calm())
            == (Put(s, rev, PriorDir(rd, PriorOf(rd, given), at)), Ok(PriorOf(rd, given)))
  {
    hide Resumptions.AllMeasurable, StoredPacketHash, Attempts, LatestAt, StageArtifact, AppendIfCurrent, StageAll, Admits,
         BoundPriors, Put, AppendCheckpoint;
    var prior := PriorOf(rd, given);
    var staged, cp := WithArtifact(rd, PriorResearch, TextBytes(prior)), ConfigCheckpoint(LoadDir(rd, false).value, prior, at);
    LoadPut(s, rev, rd);
    PriorIsStaged(s, rd, rev, prior);
    EarlyIsAdmitted(staged, cp);
    AppendCalmly(s, rev, staged, cp, NoFault);
    hide Load, ReadStaged;
  }

  lemma PriorThenCollecting(s: DateStore, rd: RunDir, rev: nat, prior: string, at: Instant)
    requires Choosing(s, rd, rev) && (PriorResearch in rd.artifacts ==> rd.artifacts[PriorResearch] == TextBytes(prior))
    ensures Gathering(s, PriorDir(rd, prior, at), rev, prior) && RunOf(PriorDir(rd, prior, at)) == RunOf(rd)
    ensures Last(PriorDir(rd, prior, at).checkpoints).writtenAt == at
    ensures MarketDataCollection !in PriorDir(rd, prior, at).artifacts
  {
    hide Resumptions.AllMeasurable, StoredPacketHash, Attempts, LatestAt, BoundPriors;
    var cp, next := ConfigCheckpoint(LoadDir(rd, false).value, prior, at), PriorDir(rd, prior, at);
    var staged := WithArtifact(rd, PriorResearch, TextBytes(prior));
    BoundPriorsAppend(rd.checkpoints, cp);
    PacketHashSkips(rd.checkpoints, cp);
    AttemptsAppend(rd.checkpoints, cp);
    LatestAtAppend(rd.checkpoints, cp, Stage.EvidenceCollected);
    StagedIsMeasurable(s, rev, rd, PriorResearch, TextBytes(prior));
    assert TelemetryNames(cp.artifacts) == {};
    AppendedIsMeasurable(s, rev, staged, cp, None);
    assert staged.(freeze := None) == staged;
    assert Last(next.checkpoints) == cp;
  }

  /** A bound selection is restored, whatever is given. */
  lemma PriorIsRestored(p: Rules, s: DateStore, rd: RunDir, rev: nat, prior: string, given: string, at: Instant,
                        env: Environment)
    requires Underway(s, rd, rev) && PriorBound(rd, prior) && p.priorFits(RunOf(rd), prior)
    ensures FreezePrior(p, Put(s, rev, rd), RunOf(rd), given, at, env) == (Put(s, rev, rd), Ok(prior))
  {
    hide Resumptions.AllMeasurable, StoredPacketHash, Attempts, BoundPriors, Put, StageAndAppend;
    LoadPut(s, rev, rd);
    hide Load, ReadStaged;
  }

  // ---- Collection ----

  /** The staged collection, or else the one given. */
  function CollectionOf(rd: RunDir, given: Collection): Collection {
    if MarketDataCollection in rd.artifacts && rd.artifacts[MarketDataCollection].CollectionBytes?
    then rd.artifacts[MarketDataCollection].collection else given
  }

  function CollectedCp(rd: RunDir, collection: Collection): Checkpoint
    requires rd.context.Some?
  {
    CollectedCheckpoint(LoadDir(rd, false).value, collection)
  }

  /** The directory with the collection bound. */
  function CollectedDir(rd: RunDir, collection: Collection, t: Telemetry): RunDir
    requires rd.context.Some?
  {
    if LatestAt(rd.checkpoints, Stage.EvidenceCollected).Some? then rd
    else Bound(WithArtifact(rd, MarketDataCollection, CollectionBytes(collection)), CollectedCp(rd, collection), t)
  }

  /** And frozen. */
  function FrozenDir(rd: RunDir, cutoff: Instant): RunDir
    requires rd.context.Some?
  {
    Append(rd.(freeze := Some(cutoff)), FrozenMarker(rd, rd.context.value.revision, cutoff))
  }

  lemma FreezesCalmly(s: DateStore, rd: RunDir, rev: nat, cutoff: Instant)
    requires rd.context.Some? && rd.context.value.revision == rev && rd.freeze.None? && rd.checkpoints != []
    requires cutoff >= rd.context.value.invokedAt && cutoff >= Last(rd.checkpoints).writtenAt
    ensures Freeze(Put(s, rev, rd), rev, cutoff, NoFault)
            == (Put(s, rev, FrozenDir(rd, cutoff)), Ok(LoadDir(FrozenDir(rd, cutoff), false).value))
  {
    hide AppendCheckpoint;
    var frozen, marker := rd.(freeze := Some(cutoff)), FrozenMarker(rd, rev, cutoff);
    assert FreezeMarker(frozen, marker);
    assert Admits(frozen, marker) by {
      hide QualityEvaluation, SynthesisStep, OperationalPublication, PreparationFailure;
    }
    assert Put(s, rev, rd).staging[rev := frozen] == s.staging[rev := frozen];
    AppendCalmly(s, rev, frozen, marker, NoFault);
  }

  /** What the checkpoint that binds a collection says. */
  lemma CollectedSays(rd: RunDir, rev: nat, collection: Collection, t: Telemetry)
    requires rd.context.Some? && rd.context.value.revision == rev && rd.checkpoints != []
    ensures var a, latest := CollectedCp(rd, collection), Last(rd.checkpoints);
            var cp := WithTelemetry(a, t);
            && cp == a.(artifacts := cp.artifacts) && TelemetryNames(a.artifacts) == {} && a.revision == rev
            && cp.stage.EvidenceCollected? && cp.quality == latest.quality && cp.delivery == latest.delivery
            && cp.writtenAt == collection.completedAt && cp.cutoff.None? && cp.resumable && cp.revision == rev
            && Business(cp.artifacts).Keys == {MarketDataCollection}
            && MarketDataCollection in cp.artifacts
            && cp.artifacts[MarketDataCollection] == Sha256(CollectionBytes(collection))
            && PriorResearch !in cp.artifacts && ResearchPacket !in cp.artifacts && ReducedReport !in cp.artifacts
  {
    hide WithTelemetry;
    var a := CollectedCp(rd, collection);
    assert TelemetryNames(a.artifacts) == {};
    BoundNames(a, t);
    BoundIsOtherwise(a, t);
    BoundIsUnpacked(a, t);
    KeptName(a, t, MarketDataCollection);
    PriorNotNamed(a, t);
  }

  /** The bound collection is read back. */
  lemma CollectionReadsBack(s: DateStore, rd: RunDir, rev: nat, collection: Collection, t: Telemetry)
    requires rd.context.Some? && rd.context.value.revision == rev && rd.checkpoints != []
    requires LatestAt(rd.checkpoints, Stage.EvidenceCollected).None?
    ensures var next := CollectedDir(rd, collection, t);
            && CollectionBound(s, next, rev, collection)
            && LatestAt(next.checkpoints, Stage.EvidenceCollected).Some? && Last(next.checkpoints).stage.EvidenceCollected?
            && Last(next.checkpoints).writtenAt == collection.completedAt
  {
    hide LatestAt, WithTelemetry, CheckpointTelemetry, Business, TelemetryNames;
    var a, next := CollectedCp(rd, collection), CollectedDir(rd, collection, t);
    CollectedSays(rd, rev, collection, t);
    LatestAtAppend(rd.checkpoints, WithTelemetry(a, t), Stage.EvidenceCollected);
    TelemetryReads(s, rev, next, a, t);
    LoadPut(s, rev, next);
    hide Put;
  }

  lemma CollectedIsUnderway(s: DateStore, rd: RunDir, rev: nat, collection: Collection, t: Telemetry)
    requires Underway(s, rd, rev) && LatestAt(rd.checkpoints, Stage.EvidenceCollected).None?
    requires MarketDataCollection in rd.artifacts ==> rd.artifacts[MarketDataCollection] == CollectionBytes(collection)
    ensures Underway(s, CollectedDir(rd, collection, t), rev)
  {
    hide Resumptions.AllMeasurable, StoredPacketHash, Attempts, LatestAt, WithTelemetry, Business, TelemetryNames;
    var a, cp := CollectedCp(rd, collection), WithTelemetry(CollectedCp(rd, collection), t);
    CollectedSays(rd, rev, collection, t);
    PacketHashSkips(rd.checkpoints, cp);
    AttemptsAppend(rd.checkpoints, cp);
    StagedIsMeasurable(s, rev, rd, MarketDataCollection, CollectionBytes(collection));
    BoundIsMeasurable(s, rev, WithArtifact(rd, MarketDataCollection, CollectionBytes(collection)), a, t);
    assert Last(CollectedDir(rd, collection, t).checkpoints) == cp;
  }

  lemma CollectedKeepsPrior(rd: RunDir, rev: nat, prior: string, collection: Collection, t: Telemetry)
    requires rd.context.Some? && rd.context.value.revision == rev && rd.checkpoints != [] && PriorBound(rd, prior)
    ensures PriorBound(CollectedDir(rd, collection, t), prior)
  {
    hide BoundPriors, LatestAt, WithTelemetry, Business, TelemetryNames;
    CollectedSays(rd, rev, collection, t);
    BoundPriorsAppend(rd.checkpoints, WithTelemetry(CollectedCp(rd, collection), t));
  }

  /** Binding a collection that was not bound. */
  lemma CollectionIsBound(s: DateStore, rd: RunDir, rev: nat, prior: string, collection: Collection, t: Telemetry)
    requires Gathering(s, rd, rev, prior) && LatestAt(rd.checkpoints, Stage.EvidenceCollected).None?
    requires MarketDataCollection in rd.artifacts ==> rd.artifacts[MarketDataCollection] == CollectionBytes(collection)
    ensures var next := CollectedDir(rd, collection, t);
            && Gathering(s, next, rev, prior) && RunOf(next) == RunOf(rd)
            && CollectionBound(s, next, rev, collection) && Last(next.checkpoints).writtenAt == collection.completedAt
            && LatestAt(next.checkpoints, Stage.EvidenceCollected).Some?
  {
    CollectionReadsBack(s, rd, rev, collection, t);
    CollectedIsUnderway(s, rd, rev, collection, t);
    CollectedKeepsPrior(rd, rev, prior, collection, t);
    hide Underway, PriorBound, CollectionBound, LatestAt, WithTelemetry;
  }

  lemma PriorNotNamed(cp: Checkpoint, t: Telemetry)
    requires PriorResearch !in cp.artifacts
    ensures PriorResearch !in WithTelemetry(cp, t).artifacts
  {
  }

  /** Freezing a bound collection at its completion. */
  lemma BoundThenFrozen(s: DateStore, rd: RunDir, rev: nat, prior: string, collection: Collection)
    requires Gathering(s, rd, rev, prior) && CollectionBound(s, rd, rev, collection)
    requires Last(rd.checkpoints).writtenAt == collection.completedAt
    ensures Frozen(s, FrozenDir(rd, collection.completedAt), rev, prior, collection)
    ensures RunOf(FrozenDir(rd, collection.completedAt)) == RunOf(rd).(cutoff := Some(collection.completedAt))
    ensures DataQuality !in FrozenDir(rd, collection.completedAt).artifacts
    ensures FrozenDir(rd, collection.completedAt).context.Some?
  {
    hide Resumptions.AllMeasurable, StoredPacketHash, Attempts, LatestAt, BoundPriors, StoredCollection;
    var cutoff := collection.completedAt;
    var marker, next := FrozenMarker(rd, rev, cutoff), FrozenDir(rd, cutoff);
    PacketHashSkips(rd.checkpoints, marker);
    AttemptsAppend(rd.checkpoints, marker);
    BoundPriorsAppend(rd.checkpoints, marker);
    LatestAtAppend(rd.checkpoints, marker, Stage.EvidenceCollected);
    assert TelemetryNames(marker.artifacts) == {};
    AppendedIsMeasurable(s, rev, rd, marker, Some(cutoff));
    CollectionStaysBound(s, rev, rd, next, collection);
    assert Last(next.checkpoints) == marker;
  }

  lemma BoundCollectionTime(s: DateStore, rd: RunDir, rev: nat, prior: string, collection: Collection)
    requires Gathering(s, rd, rev, prior) && CollectionBound(s, rd, rev, collection)
    requires LatestAt(rd.checkpoints, Stage.EvidenceCollected).Some?
    ensures Last(rd.checkpoints).writtenAt == collection.completedAt
  {
    hide Resumptions.AllMeasurable, StoredPacketHash, Attempts, BoundPriors, CheckpointTelemetry;
  }

  /** Freezing a collection, bound before or by this call. */
  lemma BindsAndFreezes(s: DateStore, rd: RunDir, rev: nat, prior: string, collection: Collection, t: Telemetry)
    requires Gathering(s, rd, rev, prior) && CollectionOf(rd, collection) == collection
    requires LatestAt(rd.checkpoints, Stage.EvidenceCollected).None? ==> MarketDataCollection in rd.artifacts
    requires collection.completedAt >= rd.context.value.invokedAt
    ensures var next := FrozenDir(CollectedDir(rd, collection, t), collection.completedAt);
            && BindAndFreeze(Put(s, rev, rd), RunOf(rd), LoadDir(rd, false).value, collection, t, Calm())
               == (Put(s, rev, next), Ok((LoadDir(next, false).value, collection)))
            && Frozen(s, next, rev, prior, collection) && DataQuality !in next.artifacts && next.context.Some?
            && RunOf(next) == RunOf(rd).(cutoff := Some(collection.completedAt))
  {
    hide Underway, PriorBound, StageArtifact, AppendIfCurrent, AppendCheckpoint, Freeze, LatestAt, WithTelemetry, Admits,
         StoredCollection, Put, Frozen, FrozenDir;
    CollectingBasics(s, rd, rev, prior);
    var bound := CollectedDir(rd, collection, t);
    if LatestAt(rd.checkpoints, Stage.EvidenceCollected).None? {
      CollectionIsBound(s, rd, rev, prior, collection, t);
      CollectionBinds(s, rd, rev, collection, t);
    } else {
      BoundCollectionTime(s, rd, rev, prior, collection);
    }
    CollectingBasics(s, bound, rev, prior);
    BoundThenFrozen(s, bound, rev, prior, collection);
    FreezesCalmly(s, bound, rev, collection.completedAt);
  }

  lemma CollectingBasics(s: DateStore, rd: RunDir, rev: nat, prior: string)
    requires Gathering(s, rd, rev, prior)
    ensures rd.context.Some? && rd.context.value.revision == rev && rd.freeze.None? && rd.checkpoints != []
    ensures rd.context.value.cutoff.None?
    ensures forall t :: TelemetryFits(rd, t)
    ensures !LatestTelemetry(Put(s, rev, rd), rd.checkpoints).Malformed?
  {
    hide LatestTelemetry, StoredPacketHash, Attempts, LatestAt, BoundPriors, StoredCollection;
  }

  /** The telemetry and the checkpoint of a staged collection. */
  lemma CollectionBinds(s: DateStore, rd: RunDir, rev: nat, collection: Collection, t: Telemetry)
    requires rd.context.Some? && rd.context.value.revision == rev && rd.freeze.None? && rd.checkpoints != []
    requires (forall u :: TelemetryFits(rd, u)) && LatestAt(rd.checkpoints, Stage.EvidenceCollected).None?
    requires MarketDataCollection in rd.artifacts && rd.artifacts[MarketDataCollection] == CollectionBytes(collection)
    ensures var (s1, staged) := StageArtifact(Put(s, rev, rd), rev, TelemetryArtifact(t).0, TelemetryArtifact(t).1, NoFault);
            && staged.Ok?
            && AppendIfCurrent(s1, rev, WithTelemetry(CollectedCp(rd, collection), t), |rd.checkpoints|, NoFault)
               == (Put(s, rev, CollectedDir(rd, collection, t)), Ok(()))
  {
    hide StageArtifact, AppendIfCurrent, AppendCheckpoint, LatestAt, WithTelemetry, Admits, Put, TelemetryFits, Business;
    var a := CollectedCp(rd, collection);
    CollectedSays(rd, rev, collection, t);
    assert rd.artifacts[MarketDataCollection := CollectionBytes(collection)] == rd.artifacts;
    assert WithArtifact(rd, MarketDataCollection, CollectionBytes(collection)) == rd;
    EarlyIsAdmitted(WithArtifact(rd, TelemetryArtifact(t).0, TelemetryArtifact(t).1), WithTelemetry(a, t));
    assert TelemetryFits(rd, t);
    BindCalmly(s, rev, rd, a, t, NoFault, NoFault);
  }

  /** A staged collection is frozen as it is, a fresh one is staged first; a bound one is frozen as it was bound. */
  lemma CollectionIsFrozen(p: Rules, s: DateStore, rd: RunDir, rev: nat, prior: string, given: Collection,
                           answer: Answer<Collection>, t: Telemetry)
    returns (next: RunDir)
    requires Gathering(s, rd, rev, prior) && (MarketDataCollection !in rd.artifacts ==> answer == Given(given))
    requires var collection := CollectionOf(rd, given);
             collection.completedAt >= rd.context.value.invokedAt
             && collection.symbols == p.symbols(RunOf(rd).configuration)
    ensures next.context.Some?
    ensures var collection := CollectionOf(rd, given);
            && CollectAndFreeze(p, Put(s, rev, rd), RunOf(rd), answer, t, Calm())
               == (Put(s, rev, next), Ok((LoadDir(next, false).value, collection)))
            && Frozen(s, next, rev, prior, collection) && DataQuality !in next.artifacts
            && RunOf(next) == RunOf(rd).(cutoff := Some(collection.completedAt))
  {
    var collection := CollectionOf(rd, given);
    var staged := WithArtifact(rd, MarketDataCollection, CollectionBytes(collection));
    hide Underway, PriorBound, StageArtifact, BindAndFreeze, LatestAt, StoredCollection, Put, Frozen, FrozenDir, Load,
         LatestTelemetry, CollectionBound, TelemetryFits;
    CollectingBasics(s, rd, rev, prior);
    LoadPut(s, rev, rd);
    if MarketDataCollection in rd.artifacts {
      BindsAndFreezes(s, rd, rev, prior, collection, t);
      next := FrozenDir(CollectedDir(rd, collection, t), collection.completedAt);
      BoundIsOurs(s, rd, rev, prior);
    } else {
      StageCalmly(s, rev, rd, MarketDataCollection, CollectionBytes(given), NoFault);
      FreshIsCollecting(s, rd, rev, prior, given);
      assert LoadDir(staged, false) == LoadDir(rd, false);
      BindsAndFreezes(s, staged, rev, prior, collection, t);
      next := FrozenDir(CollectedDir(staged, collection, t), collection.completedAt);
    }
  }

  /** The collection a checkpoint bound is the staged one. */
  lemma BoundIsOurs(s: DateStore, rd: RunDir, rev: nat, prior: string)
    requires Gathering(s, rd, rev, prior) && MarketDataCollection in rd.artifacts
    ensures LatestAt(rd.checkpoints, Stage.EvidenceCollected).Some? ==>
              StoredCollection(Put(s, rev, rd), rev, rd.checkpoints) == Some(rd.artifacts[MarketDataCollection].collection)
  {
    hide Underway, PriorBound, StoredCollection, LatestAt;
  }

  lemma FreshIsCollecting(s: DateStore, rd: RunDir, rev: nat, prior: string, given: Collection)
    requires Gathering(s, rd, rev, prior) && MarketDataCollection !in rd.artifacts
    ensures var staged := WithArtifact(rd, MarketDataCollection, CollectionBytes(given));
            Gathering(s, staged, rev, prior) && RunOf(staged) == RunOf(rd) && CollectionOf(staged, given) == given
            && LatestAt(rd.checkpoints, Stage.EvidenceCollected).None?
  {
    hide Resumptions.AllMeasurable, StoredPacketHash, Attempts, LatestAt, BoundPriors, StoredCollection;
    StagedIsMeasurable(s, rev, rd, MarketDataCollection, CollectionBytes(given));
  }

  /** A frozen collection is given back, and nothing is written, whatever the provider would answer. */
  lemma FrozenIsGivenBack(p: Rules, s: DateStore, rd: RunDir, rev: nat, prior: string, collection: Collection,
                          answer: Answer<Collection>, t: Telemetry, env: Environment)
    requires Underway(s, rd, rev) && CollectionBound(s, rd, rev, collection) && rd.freeze == Some(collection.completedAt)
    requires collection.symbols == p.symbols(RunOf(rd).configuration)
    ensures CollectAndFreeze(p, Put(s, rev, rd), RunOf(rd), answer, t, env)
            == (Put(s, rev, rd), Ok((LoadDir(rd, false).value, collection)))
    ensures LoadFrozen(p, Put(s, rev, rd), RunOf(rd)) == Some((LoadDir(rd, false).value, collection))
  {
    hide StoredPacketHash, Attempts, LatestAt, StoredCollection, LatestTelemetry, Put, BindAndFreeze;
    LoadPut(s, rev, rd);
    hide Load;
  }

  // ---- Quality ----

  /** The staged quality, or else the one given. */
  function QualityOf(rd: RunDir, given: QualityResult): QualityResult {
    if DataQuality in rd.artifacts && rd.artifacts[DataQuality].QualityBytes? then rd.artifacts[DataQuality].quality
    else given
  }

  function QualityCp(rd: RunDir, collection: Collection, quality: QualityResult, at: Instant): Checkpoint
    requires rd.context.Some? && rd.checkpoints != []
  {
    QualityCheckpoint(LoadDir(rd, false).value, collection, quality, at)
  }

  function JudgedDir(rd: RunDir, collection: Collection, quality: QualityResult, at: Instant, t: Telemetry): RunDir
    requires rd.context.Some? && rd.checkpoints != []
  {
    Bound(WithArtifact(rd, DataQuality, QualityBytes(quality)), QualityCp(rd, collection, quality, at), t)
  }

  /** What the quality checkpoint says. */
  lemma QualitySays(s: DateStore, rd: RunDir, rev: nat, prior: string, collection: Collection, quality: QualityResult,
                    at: Instant, t: Telemetry)
    requires Frozen(s, rd, rev, prior, collection)
    ensures var a := QualityCp(rd, collection, quality, at);
            var cp := WithTelemetry(a, t);
            && cp == a.(artifacts := cp.artifacts) && TelemetryNames(a.artifacts) == {} && a.revision == rev
            && a.artifacts == map[MarketDataCollection := Sha256(CollectionBytes(collection)),
                                  DataQuality := Sha256(QualityBytes(quality))]
            && Business(cp.artifacts) == a.artifacts && TelemetryNamed(cp.artifacts)
            && cp.stage.QualityEvaluated? && cp.execution.Analyzing? && cp.quality == quality.status && !cp.resumable
            && cp.writtenAt == at && cp.cutoff == rd.freeze && cp.delivery == Last(rd.checkpoints).delivery
            && PriorResearch !in cp.artifacts && ResearchPacket !in cp.artifacts && ReducedReport !in cp.artifacts
  {
    hide WithTelemetry, Resumptions.AllMeasurable, StoredPacketHash, Attempts, BoundPriors, StoredCollection;
    var a := QualityCp(rd, collection, quality, at);
    assert TelemetryNames(a.artifacts) == {};
    BoundNames(a, t);
    BoundIsOtherwise(a, t);
    BoundIsUnpacked(a, t);
    PriorNotNamed(a, t);
  }

  /** What a frozen directory's collected checkpoint says, as the admission rule reads it. */
  lemma CollectedIsBound(s: DateStore, rd: RunDir, rev: nat, collection: Collection)
    requires CollectionBound(s, rd, rev, collection)
    ensures var collected := LatestAt(rd.checkpoints, Stage.EvidenceCollected);
            && collected.Some? && collected.value.cutoff.None? && collected.value.resumable
            && Business(collected.value.artifacts).Keys == {MarketDataCollection}
            && Business(collected.value.artifacts)[MarketDataCollection] == Sha256(CollectionBytes(collection))
  {
    hide LatestAt, CheckpointTelemetry;
    LoadPut(s, rev, rd);
    hide Put, ReadStaged;
  }

  lemma QualityIsAdmitted(s: DateStore, rd: RunDir, rev: nat, prior: string, collection: Collection,
                          quality: QualityResult, at: Instant, t: Telemetry)
    requires Frozen(s, rd, rev, prior, collection) && at >= collection.completedAt
    requires DataQuality in rd.artifacts ==> rd.artifacts[DataQuality] == QualityBytes(quality)
    ensures var staged := WithArtifact(rd, DataQuality, QualityBytes(quality));
            && TelemetryFits(staged, t)
            && Admits(WithArtifact(staged, TelemetryArtifact(t).0, TelemetryArtifact(t).1),
                      WithTelemetry(QualityCp(rd, collection, quality, at), t))
  {
    hide WithTelemetry, StoredPacketHash, Attempts, BoundPriors, StoredCollection, Business, TelemetryNamed, LatestAt,
         LatestTelemetry, TelemetryNames, StagedMatches;
    var a, staged := QualityCp(rd, collection, quality, at), WithArtifact(rd, DataQuality, QualityBytes(quality));
    QualitySays(s, rd, rev, prior, collection, quality, at, t);
    CollectedIsBound(s, rd, rev, collection);
    assert TelemetryFits(rd, t);
    FitsLater(rd, DataQuality, QualityBytes(quality), t);
    QualityIsStaged(rd, a, collection, quality, t);
    var full, cp := WithArtifact(staged, TelemetryArtifact(t).0, TelemetryArtifact(t).1), WithTelemetry(a, t);
    assert QualityEvaluation(full, cp) by { hide Admits; }
    hide QualityEvaluation, SynthesisStep, Admits;
    StepAdmits(full, cp);
  }

  lemma QualityIsStaged(rd: RunDir, a: Checkpoint, collection: Collection, quality: QualityResult, t: Telemetry)
    requires MarketDataCollection in rd.artifacts && rd.artifacts[MarketDataCollection] == CollectionBytes(collection)
    requires TelemetryNames(a.artifacts) == {}
    requires a.artifacts == map[MarketDataCollection := Sha256(CollectionBytes(collection)),
                                DataQuality := Sha256(QualityBytes(quality))]
    requires TelemetryFits(WithArtifact(rd, DataQuality, QualityBytes(quality)), t)
    ensures var staged := WithArtifact(rd, DataQuality, QualityBytes(quality));
            StagedMatches(WithArtifact(staged, TelemetryArtifact(t).0, TelemetryArtifact(t).1).artifacts,
                          WithTelemetry(a, t).artifacts)
  {
    var staged := WithArtifact(rd, DataQuality, QualityBytes(quality));
    BoundIsStaged(staged, a, t);
  }

  lemma JudgedIsUnderway(s: DateStore, rd: RunDir, rev: nat, prior: string, collection: Collection,
                         quality: QualityResult, at: Instant, t: Telemetry)
    requires Frozen(s, rd, rev, prior, collection) && !quality.status.Fail?
    requires DataQuality in rd.artifacts ==> rd.artifacts[DataQuality] == QualityBytes(quality)
    ensures Underway(s, JudgedDir(rd, collection, quality, at, t), rev)
    ensures PriorBound(JudgedDir(rd, collection, quality, at, t), prior)
    ensures CollectionBound(s, JudgedDir(rd, collection, quality, at, t), rev, collection)
  {
    hide WithTelemetry, StoredPacketHash, Attempts, BoundPriors, StoredCollection, Business, TelemetryNamed, LatestAt,
         Resumptions.AllMeasurable, TelemetryNames;
    var a, staged := QualityCp(rd, collection, quality, at), WithArtifact(rd, DataQuality, QualityBytes(quality));
    var next, cp := JudgedDir(rd, collection, quality, at, t), WithTelemetry(QualityCp(rd, collection, quality, at), t);
    QualitySays(s, rd, rev, prior, collection, quality, at, t);
    PacketHashSkips(rd.checkpoints, cp);
    AttemptsAppend(rd.checkpoints, cp);
    BoundPriorsAppend(rd.checkpoints, cp);
    LatestAtAppend(rd.checkpoints, cp, Stage.EvidenceCollected);
    StagedIsMeasurable(s, rev, rd, DataQuality, QualityBytes(quality));
    BoundIsMeasurable(s, rev, staged, a, t);
    MoreTelemetry(s, rev, rd, staged, t);
    CollectionStaysBound(s, rev, rd, next, collection);
    assert Last(next.checkpoints) == cp;
  }

  /** Telemetry staged on top takes nothing away. */
  lemma MoreTelemetry(s: DateStore, rev: nat, rd: RunDir, more: RunDir, t: Telemetry)
    requires Resumptions.AllMeasurable(s, rev, rd)
    requires forall n :: n in rd.artifacts ==> n in more.artifacts && more.artifacts[n] == rd.artifacts[n]
    ensures var next := WithArtifact(more, TelemetryArtifact(t).0, TelemetryArtifact(t).1);
            forall n :: n in rd.artifacts ==> n in next.artifacts && next.artifacts[n] == rd.artifacts[n]
  {
    assert TelemetryFits(rd, t);
  }

  lemma JudgedIsRecorded(s: DateStore, rd: RunDir, rev: nat, prior: string, collection: Collection,
                         quality: QualityResult, at: Instant, t: Telemetry)
    requires Frozen(s, rd, rev, prior, collection) && !quality.status.Fail? && at >= collection.completedAt
    requires DataQuality in rd.artifacts ==> rd.artifacts[DataQuality] == QualityBytes(quality)
    ensures var next := JudgedDir(rd, collection, quality, at, t);
            && Judged(s, next, rev, prior, collection, quality) && RunOf(next) == RunOf(rd)
            && Last(next.checkpoints).writtenAt == at
  {
    hide WithTelemetry, Underway, PriorBound, CollectionBound, Business, TelemetryNames, CheckpointTelemetry, TelemetryNamed;
    FrozenBasics(s, rd, rev, prior, collection);
    var next, a := JudgedDir(rd, collection, quality, at, t), QualityCp(rd, collection, quality, at);
    JudgedIsUnderway(s, rd, rev, prior, collection, quality, at, t);
    QualitySays(s, rd, rev, prior, collection, quality, at, t);
    TelemetryReads(s, rev, next, a, t);
    LoadPut(s, rev, next);
    hide Put;
    assert Last(next.checkpoints) == WithTelemetry(a, t);
  }

  lemma FrozenBasics(s: DateStore, rd: RunDir, rev: nat, prior: string, collection: Collection)
    requires Frozen(s, rd, rev, prior, collection)
    ensures rd.context.Some? && rd.context.value.revision == rev && rd.checkpoints != []
    ensures forall t :: TelemetryFits(rd, t)
    ensures !LatestTelemetry(Put(s, rev, rd), rd.checkpoints).Malformed?
    ensures Last(rd.checkpoints).revision == rev
  {
    hide LatestTelemetry, StoredPacketHash, Attempts, BoundPriors, StoredCollection;
  }

  /** Stage one artifact that may be staged already, and a snapshot, then append the checkpoint bound to them. */
  lemma BindsTwo(s: DateStore, rev: nat, rd: RunDir, name: Name, payload: Payload, cp: Checkpoint, t: Telemetry)
    requires name in rd.artifacts ==> rd.artifacts[name] == payload
    requires payload != RawBytes([]) && TelemetryFits(WithArtifact(rd, name, payload), t) && cp.revision == rev
    requires rd.context.Some?
    requires Admits(WithArtifact(WithArtifact(rd, name, payload), TelemetryArtifact(t).0, TelemetryArtifact(t).1),
                    WithTelemetry(cp, t))
    ensures StageAndAppend(Put(s, rev, rd), rev, [(name, payload), TelemetryArtifact(t)], WithTelemetry(cp, t),
                           |rd.checkpoints|, Calm())
            == (Put(s, rev, Bound(WithArtifact(rd, name, payload), cp, t)), Ok(()))
  {
    hide StageArtifact, AppendIfCurrent, Admits, WithTelemetry, TelemetryFits, Bound, StageAll;
    StageOneOrTwo(Put(s, rev, rd), rev, Some((name, payload)), TelemetryArtifact(t), Calm());
    assert [(name, payload)] + [TelemetryArtifact(t)] == [(name, payload), TelemetryArtifact(t)];
    StageCalmly(s, rev, rd, name, payload, NoFault);
    BindCalmly(s, rev, WithArtifact(rd, name, payload), cp, t, NoFault, NoFault);
  }

  /** The steps of checkpointing quality that is not checkpointed yet. */
  lemma QualitySteps(p: Rules, s: DateStore, run: RunContext, stored: Stored, collection: Collection,
                     quality: QualityResult, answer: Answer<QualityResult>, at: Instant, t: Telemetry, s': DateStore)
    requires LoadFrozen(p, s, run) == Some((stored, collection)) && stored.checkpoints != []
    requires ChosenQuality(s, run.revision, Last(stored.checkpoints), answer) == Ok(quality)
    requires !LatestTelemetry(s, stored.checkpoints).Malformed?
    requires stored.cutoff.Some? && stored.cutoff.value <= at && Last(stored.checkpoints).writtenAt <= at
    requires Last(stored.checkpoints).stage.EvidenceFrozen? && Last(stored.checkpoints).cutoff == stored.cutoff
    requires StageAndAppend(s, run.revision, [(DataQuality, QualityBytes(quality)), TelemetryArtifact(t)],
                            WithTelemetry(QualityCheckpoint(stored, collection, quality, at), t), |stored.checkpoints|,
                            Calm()) == (s', Ok(()))
    ensures CheckpointQuality(p, s, run, answer, at, t, Calm()) == (s', Ok(quality))
  {
    hide LoadFrozen, LatestTelemetry, StageAndAppend, WithTelemetry, QualityCheckpoint, ReadStaged, QualityRecorded,
         ChosenQuality;
  }

  /** Staged quality is checkpointed as it is; a new one is staged first. */
  lemma QualityIsJudged(p: Rules, s: DateStore, rd: RunDir, rev: nat, prior: string, collection: Collection,
                        given: QualityResult, answer: Answer<QualityResult>, at: Instant, t: Telemetry)
    requires Frozen(s, rd, rev, prior, collection) && at >= collection.completedAt
    requires DataQuality !in rd.artifacts ==> answer == Given(given)
    requires collection.symbols == p.symbols(RunOf(rd).configuration)
    ensures CheckpointQuality(p, Put(s, rev, rd), RunOf(rd), answer, at, t, Calm())
            == (Put(s, rev, JudgedDir(rd, collection, QualityOf(rd, given), at, t)), Ok(QualityOf(rd, given)))
  {
    hide Underway, PriorBound, CollectionBound, LoadFrozen, LatestTelemetry, StageAndAppend, WithTelemetry, Admits, Put,
         CheckpointQuality, CollectAndFreeze, Bound, QualityCheckpoint;
    var quality := QualityOf(rd, given);
    FrozenBasics(s, rd, rev, prior, collection);
    FrozenIsGivenBack(p, s, rd, rev, prior, collection, Given(collection), t, Calm());
    QualityIsAdmitted(s, rd, rev, prior, collection, quality, at, t);
    QualitySays(s, rd, rev, prior, collection, quality, at, t);
    LoadPut(s, rev, rd);
    BindsTwo(s, rev, rd, DataQuality, QualityBytes(quality), QualityCp(rd, collection, quality, at), t);
    QualitySteps(p, Put(s, rev, rd), RunOf(rd), LoadDir(rd, false).value, collection, quality, answer, at, t,
                 Put(s, rev, JudgedDir(rd, collection, quality, at, t)));
  }

  lemma JudgedBasics(s: DateStore, rd: RunDir, rev: nat, prior: string, collection: Collection, quality: QualityResult)
    requires Judged(s, rd, rev, prior, collection, quality)
    ensures rd.context.Some? && rd.context.value.revision == rev && rd.checkpoints != []
    ensures rd.freeze == Some(collection.completedAt) && rd.context.value.cutoff.None?
    ensures !quality.status.Fail? && Last(rd.checkpoints).quality == quality.status
    ensures forall t :: TelemetryFits(rd, t)
    ensures !LatestTelemetry(Put(s, rev, rd), rd.checkpoints).Malformed?
    ensures Last(rd.checkpoints).revision == rev && Last(rd.checkpoints).stage.QualityEvaluated?
    ensures Last(rd.checkpoints).delivery == rd.context.value.delivery
    ensures DataQuality in rd.artifacts && rd.artifacts[DataQuality] == QualityBytes(quality)
    ensures ResearchPacket !in rd.artifacts && ReducedReport !in rd.artifacts && OperationalReason !in rd.artifacts
    ensures ReducedReport !in Last(rd.checkpoints).artifacts
    ensures StoredPacketHash(rd.checkpoints).None? && Attempts(rd.checkpoints) == []
    ensures Last(rd.checkpoints).writtenAt >= collection.completedAt
  {
    hide LatestTelemetry, StoredPacketHash, Attempts, BoundPriors, StoredCollection, Business, CheckpointTelemetry;
  }

  /** Recorded quality is given back, and nothing is written, whatever evaluating again would answer. */
  lemma JudgedIsGivenBack(p: Rules, s: DateStore, rd: RunDir, rev: nat, prior: string, collection: Collection,
                          quality: QualityResult, answer: Answer<QualityResult>, at: Instant, t: Telemetry,
                          env: Environment)
    requires Judged(s, rd, rev, prior, collection, quality) && at >= collection.completedAt
    requires collection.symbols == p.symbols(RunOf(rd).configuration)
    ensures CheckpointQuality(p, Put(s, rev, rd), RunOf(rd), answer, at, t, env) == (Put(s, rev, rd), Ok(quality))
  {
    hide Underway, PriorBound, CollectionBound, LoadFrozen, LatestTelemetry, StageAndAppend, WithTelemetry, Put,
         CollectAndFreeze, QualityRecorded, StoredPacketHash, Attempts, TelemetryFits;
    JudgedBasics(s, rd, rev, prior, collection, quality);
    FrozenIsGivenBack(p, s, rd, rev, prior, collection, Given(collection), t, env);
    LoadPut(s, rev, rd);
    hide Load, ReadStaged;
  }

  // ---- Packet ----

  /** The context a packet of this directory is built for. */
  function PacketContext(rd: RunDir): RunContext
    requires rd.context.Some? && rd.checkpoints != []
  {
    ComposeRun(RunOf(rd), Last(rd.checkpoints)).(execution := Execution.AwaitingSynthesis)
  }

  function PackagedDir(e: Engine, rd: RunDir, packet: Packet, at: Instant, t: Telemetry): RunDir {
    Bound(Filled(e, rd, packet), PacketCheckpoint(packet, e.base(packet), at), t)
  }

  lemma PacketSays(e: Engine, packet: Packet, at: Instant, t: Telemetry)
    ensures var a := PacketCheckpoint(packet, e.base(packet), at);
            var cp := WithTelemetry(a, t);
            && cp == a.(artifacts := cp.artifacts) && TelemetryNames(a.artifacts) == {}
            && Business(cp.artifacts).Keys == {ResearchPacket, ReducedReport} && TelemetryNamed(cp.artifacts)
            && ResearchPacket in cp.artifacts && cp.artifacts[ResearchPacket] == Sha256(PacketBytes(packet))
            && ReducedReport in cp.artifacts && cp.artifacts[ReducedReport] == Sha256(TextBytes(e.base(packet)))
  {
    hide WithTelemetry;
    var a := PacketCheckpoint(packet, e.base(packet), at);
    assert TelemetryNames(a.artifacts) == {};
    BoundNames(a, t);
    BoundIsOtherwise(a, t);
    assert a.artifacts.Keys == {ResearchPacket, ReducedReport};
    KeptName(a, t, ResearchPacket);
    KeptName(a, t, ReducedReport);
  }

  lemma PacketIsAdmitted(e: Engine, s: DateStore, rd: RunDir, rev: nat, prior: string, collection: Collection,
                         quality: QualityResult, packet: Packet, at: Instant, t: Telemetry)
    requires Judged(s, rd, rev, prior, collection, quality) && at >= Last(rd.checkpoints).writtenAt
    requires rd.context.Some? && rd.checkpoints != [] && packet.run == PacketContext(rd)
    ensures var staged := Filled(e, rd, packet);
            && TelemetryFits(staged, t)
            && Admits(WithArtifact(staged, TelemetryArtifact(t).0, TelemetryArtifact(t).1),
                      WithTelemetry(PacketCheckpoint(packet, e.base(packet), at), t))
  {
    hide WithTelemetry, Judged, StoredPacketHash, Attempts, TelemetryNamed, Business, TelemetryNames, StagedMatches,
         LatestTelemetry;
    var a, staged := PacketCheckpoint(packet, e.base(packet), at), Filled(e, rd, packet);
    JudgedBasics(s, rd, rev, prior, collection, quality);
    PacketSays(e, packet, at, t);
    assert TelemetryFits(rd, t);
    FitsLater(rd, ResearchPacket, PacketBytes(packet), t);
    FitsLater(WithArtifact(rd, ResearchPacket, PacketBytes(packet)), ReducedReport, TextBytes(e.base(packet)), t);
    FilledIsStaged(e, rd, packet, at, t);
    var full, cp := WithArtifact(staged, TelemetryArtifact(t).0, TelemetryArtifact(t).1), WithTelemetry(a, t);
    assert SynthesisStep(full, cp) by { hide Admits; }
    hide SynthesisStep, Admits;
    StepAdmits(full, cp);
  }

  lemma FilledIsStaged(e: Engine, rd: RunDir, packet: Packet, at: Instant, t: Telemetry)
    requires TelemetryFits(Filled(e, rd, packet), t)
    ensures var staged := Filled(e, rd, packet);
            StagedMatches(WithArtifact(staged, TelemetryArtifact(t).0, TelemetryArtifact(t).1).artifacts,
                          WithTelemetry(PacketCheckpoint(packet, e.base(packet), at), t).artifacts)
  {
    var a := PacketCheckpoint(packet, e.base(packet), at);
    assert TelemetryNames(a.artifacts) == {};
    BoundIsStaged(Filled(e, rd, packet), a, t);
  }

  lemma PacketIsPackaged(e: Engine, s: DateStore, rd: RunDir, rev: nat, prior: string, collection: Collection,
                         quality: QualityResult, packet: Packet, at: Instant, t: Telemetry)
    requires Judged(s, rd, rev, prior, collection, quality)
    requires rd.context.Some? && rd.checkpoints != [] && packet.run == PacketContext(rd)
    requires at >= Last(rd.checkpoints).writtenAt && at >= collection.completedAt
    ensures StagePacket(e, Put(s, rev, rd), packet, at, t, Calm()) == (Put(s, rev, PackagedDir(e, rd, packet, at, t)), Ok(()))
  {
    hide WithTelemetry, Judged, StoredPacketHash, Attempts, LatestTelemetry, Put, Admits, StagePacket, Filled, Bound, TelemetryFits;
    JudgedBasics(s, rd, rev, prior, collection, quality);
    PacketIsAdmitted(e, s, rd, rev, prior, collection, quality, packet, at, t);
    LoadPut(s, rev, rd);
    assert PacketFits(Put(s, rev, rd), packet, at);
    assert packet.run.revision == rev;
    StagePacketCalmly(e, s, rd, packet, at, t);
  }

  // ---- The whole call ----

  /** A directory on the way to a packet of this evidence: what is staged of it is staged as this. */
  ghost predicate OnTheWay(s: DateStore, rd: RunDir, rev: nat, prior: string, collection: Collection,
                           quality: QualityResult)
  {
    || (Choosing(s, rd, rev) && PriorOf(rd, prior) == prior)
    || (Gathering(s, rd, rev, prior) && CollectionOf(rd, collection) == collection)
    || (Frozen(s, rd, rev, prior, collection) && QualityOf(rd, quality) == quality)
    || Judged(s, rd, rev, prior, collection, quality)
  }

  /** The providers answer what is not staged yet; of the rest they may answer anything. */
  predicate Supplies(a: Answers, rd: RunDir, prior: string, collection: Collection, quality: QualityResult) {
    && (PriorResearch !in rd.artifacts ==> a.prior == prior)
    && (MarketDataCollection !in rd.artifacts ==> a.collect == Given(collection))
    && (DataQuality !in rd.artifacts ==> a.quality == Given(quality))
  }

  /** Nothing fails or runs out of time, and the evidence fits the run. */
  ghost predicate Unhindered(a: Answers, p: Rules, rd: RunDir, prior: string, collection: Collection,
                             quality: QualityResult)
    requires rd.context.Some?
  {
    && Enters(a)
    && !a.expired(0) && !a.expired(1) && !a.expired(2) && !a.expired(3) && !p.providerTimedOut(collection)
    && a.env(2) == Calm() && a.env(3) == Calm() && a.env(4) == Calm() && a.env(5) == Calm()
    && p.priorFits(RunOf(rd), prior) && collection.symbols == p.symbols(rd.context.value.configuration)
    && !quality.status.Fail?
  }

  /** The clock does not run backwards. */
  predicate InSequence(a: Answers, rd: RunDir, collection: Collection)
    requires rd.context.Some? && rd.checkpoints != []
  {
    && a.now(2) >= rd.context.value.invokedAt && a.now(2) >= Last(rd.checkpoints).writtenAt
    && collection.completedAt >= rd.context.value.invokedAt
    && a.now(4) >= collection.completedAt && a.now(6) >= a.now(4) && a.now(6) >= Last(rd.checkpoints).writtenAt
  }

  lemma OnTheWayBasics(s: DateStore, rd: RunDir, rev: nat, prior: string, collection: Collection, quality: QualityResult)
    requires OnTheWay(s, rd, rev, prior, collection, quality)
    ensures rd.context.Some? && rd.context.value.revision == rev && rd.checkpoints != []
    ensures LoadDir(rd, false).Some? && !LoadDir(rd, false).value.published
    ensures ResearchPacket !in rd.artifacts && OperationalReason !in rd.artifacts
    ensures !StageAwaitsSynthesis(Last(rd.checkpoints).stage) && !Last(rd.checkpoints).stage.Published?
    ensures !Last(rd.checkpoints).stage.PreparationFailed?
  {
    hide Resumptions.AllMeasurable, StoredPacketHash, Attempts, LatestAt, BoundPriors, CollectionBound, QualityRecorded;
  }

  /** After the first phase the selection is bound. */
  lemma FirstPhase(p: Rules, s: DateStore, rd: RunDir, rev: nat, prior: string, collection: Collection,
                   quality: QualityResult, a: Answers) returns (next: RunDir)
    requires OnTheWay(s, rd, rev, prior, collection, quality)
    requires rd.context.Some? && rd.checkpoints != []
    requires p.priorFits(RunOf(rd), prior) && Supplies(a, rd, prior, collection, quality) && InSequence(a, rd, collection)
    ensures FreezePrior(p, Put(s, rev, rd), RunOf(rd), a.prior, a.now(2), Calm()) == (Put(s, rev, next), Ok(prior))
    ensures OnTheWay(s, next, rev, prior, collection, quality) && !Choosing(s, next, rev)
    ensures next.context == rd.context && RunOf(next) == RunOf(rd) && Supplies(a, next, prior, collection, quality)
    ensures next == rd || (Gathering(s, next, rev, prior) && CollectionOf(next, collection) == collection)
  {
    hide FreezePrior, Put, Gathering, Frozen, Judged, PriorDir, Choosing;
    if Choosing(s, rd, rev) && PriorOf(rd, prior) == prior {
      next := PriorDir(rd, prior, a.now(2));
      ChoosingBasics(s, rd, rev, prior, a.prior);
      PriorIsChosen(p, s, rd, rev, a.prior, a.now(2));
      PriorThenCollecting(s, rd, rev, prior, a.now(2));
      CollectingIsNotChoosing(s, next, rev, prior);
      PriorDirKeeps(rd, prior, a.now(2));
    } else {
      next := rd;
      LaterHasPrior(s, rd, rev, prior, collection, quality);
      PriorIsRestored(p, s, rd, rev, prior, a.prior, a.now(2), Calm());
    }
  }

  lemma PriorDirKeeps(rd: RunDir, prior: string, at: Instant)
    requires rd.context.Some?
    ensures var next := PriorDir(rd, prior, at);
            && next.context == rd.context
            && PriorResearch in next.artifacts
            && (forall n :: n != PriorResearch ==> (n in next.artifacts <==> n in rd.artifacts))
  {
  }

  lemma ChoosingBasics(s: DateStore, rd: RunDir, rev: nat, prior: string, given: string)
    requires Choosing(s, rd, rev) && PriorOf(rd, prior) == prior && (PriorResearch !in rd.artifacts ==> given == prior)
    ensures PriorOf(rd, given) == prior
    ensures PriorResearch in rd.artifacts ==> rd.artifacts[PriorResearch] == TextBytes(prior)
    ensures DataQuality !in rd.artifacts && MarketDataCollection !in rd.artifacts
  {
    hide Underway, LatestAt, BoundPriors;
  }

  lemma CollectingIsNotChoosing(s: DateStore, rd: RunDir, rev: nat, prior: string)
    requires Gathering(s, rd, rev, prior)
    ensures !Choosing(s, rd, rev)
  {
    hide Underway, LatestAt, CollectionBound;
  }

  lemma LaterHasPrior(s: DateStore, rd: RunDir, rev: nat, prior: string, collection: Collection, quality: QualityResult)
    requires OnTheWay(s, rd, rev, prior, collection, quality) && !(Choosing(s, rd, rev) && PriorOf(rd, prior) == prior)
    ensures Underway(s, rd, rev) && PriorBound(rd, prior) && !Choosing(s, rd, rev)
  {
    hide Underway, LatestAt, CollectionBound, QualityRecorded;
  }

  /** After the second phase the collection is frozen. */
  lemma SecondPhase(p: Rules, s: DateStore, rd: RunDir, rev: nat, prior: string, collection: Collection,
                    quality: QualityResult, a: Answers) returns (next: RunDir)
    requires OnTheWay(s, rd, rev, prior, collection, quality) && !Choosing(s, rd, rev)
    requires rd.context.Some? && Supplies(a, rd, prior, collection, quality)
    requires collection.symbols == p.symbols(rd.context.value.configuration)
    requires collection.completedAt >= rd.context.value.invokedAt
    ensures next.context == rd.context && next.context.Some?
    ensures CollectAndFreeze(p, Put(s, rev, rd), RunOf(rd), a.collect, a.measured(3), Calm())
            == (Put(s, rev, next), Ok((LoadDir(next, false).value, collection)))
    ensures (Frozen(s, next, rev, prior, collection) && QualityOf(next, quality) == quality)
            || Judged(s, next, rev, prior, collection, quality)
    ensures DataQuality !in next.artifacts ==> a.quality == Given(quality)
    ensures next == rd || Frozen(s, next, rev, prior, collection)
    ensures RunOf(next) == rd.context.value.(cutoff := Some(collection.completedAt))
  {
    hide CollectAndFreeze, Put, Underway, PriorBound, CollectionBound, QualityRecorded, LatestAt;
    if Gathering(s, rd, rev, prior) && CollectionOf(rd, collection) == collection {
      next := CollectionIsFrozen(p, s, rd, rev, prior, collection, a.collect, a.measured(3));
      CollectingBasics(s, rd, rev, prior);
      FrozenRun(s, next, rd, rev, prior, collection);
    } else {
      next := rd;
      LaterIsFrozen(s, rd, rev, prior, collection, quality);
      FrozenIsGivenBack(p, s, rd, rev, prior, collection, a.collect, a.measured(3), Calm());
    }
  }

  lemma FrozenRun(s: DateStore, next: RunDir, rd: RunDir, rev: nat, prior: string, collection: Collection)
    requires rd.context.Some? && rd.context.value.cutoff.None? && rd.freeze.None? && next.context.Some?
    requires Frozen(s, next, rev, prior, collection) && RunOf(next) == RunOf(rd).(cutoff := Some(collection.completedAt))
    ensures next.context == rd.context
  {
    hide Resumptions.AllMeasurable, StoredPacketHash, Attempts, PriorBound, CollectionBound;
    assert next.context.value.cutoff.None?;
    assert next.context.value == RunOf(next).(cutoff := None);
  }

  lemma LaterIsFrozen(s: DateStore, rd: RunDir, rev: nat, prior: string, collection: Collection, quality: QualityResult)
    requires OnTheWay(s, rd, rev, prior, collection, quality) && !Choosing(s, rd, rev)
    requires !(Gathering(s, rd, rev, prior) && CollectionOf(rd, collection) == collection)
    ensures Underway(s, rd, rev) && CollectionBound(s, rd, rev, collection) && rd.freeze == Some(collection.completedAt)
    ensures rd.context.Some?
  {
    hide PriorBound, LatestAt, CollectionBound, QualityRecorded, Resumptions.AllMeasurable, StoredPacketHash, Attempts;
  }

  /** After the third phase quality is checkpointed. */
  lemma ThirdPhase(p: Rules, s: DateStore, rd: RunDir, rev: nat, prior: string, collection: Collection,
                   quality: QualityResult, a: Answers) returns (next: RunDir)
    requires (Frozen(s, rd, rev, prior, collection) && QualityOf(rd, quality) == quality)
             || Judged(s, rd, rev, prior, collection, quality)
    requires rd.context.Some? && rd.checkpoints != [] && (DataQuality !in rd.artifacts ==> a.quality == Given(quality))
    requires collection.symbols == p.symbols(rd.context.value.configuration) && !quality.status.Fail?
    requires a.now(4) >= collection.completedAt
    ensures CheckpointQuality(p, Put(s, rev, rd), RunOf(rd), a.quality, a.now(4), a.measured(4), Calm())
            == (Put(s, rev, next), Ok(quality))
    ensures Judged(s, next, rev, prior, collection, quality) && next.context.Some? && RunOf(next) == RunOf(rd)
    ensures next.checkpoints != []
    ensures Last(next.checkpoints).writtenAt == a.now(4) || next == rd
  {
    hide CheckpointQuality, Put, Underway, PriorBound, CollectionBound, QualityRecorded, JudgedDir;
    if Judged(s, rd, rev, prior, collection, quality) {
      next := rd;
      JudgedIsGivenBack(p, s, rd, rev, prior, collection, quality, a.quality, a.now(4), a.measured(4), Calm());
    } else {
      next := JudgedDir(rd, collection, quality, a.now(4), a.measured(4));
      QualityIsJudged(p, s, rd, rev, prior, collection, quality, a.quality, a.now(4), a.measured(4));
      StagedQualityIsOurs(s, rd, rev, prior, collection, quality);
      JudgedIsRecorded(s, rd, rev, prior, collection, quality, a.now(4), a.measured(4));
      JudgedBasics(s, next, rev, prior, collection, quality);
    }
  }

  lemma StagedQualityIsOurs(s: DateStore, rd: RunDir, rev: nat, prior: string, collection: Collection,
                            quality: QualityResult)
    requires Frozen(s, rd, rev, prior, collection) && QualityOf(rd, quality) == quality
    ensures DataQuality in rd.artifacts ==> rd.artifacts[DataQuality] == QualityBytes(quality)
  {
    hide Underway, PriorBound, CollectionBound;
  }

  /** The run a packet of this evidence is built for. */
  function PacketRun(rd: RunDir, collection: Collection, quality: QualityResult): RunContext
    requires rd.context.Some?
  {
    rd.context.value.(cutoff := Some(collection.completedAt), execution := Execution.AwaitingSynthesis,
                      quality := quality.status)
  }

  lemma JudgedContext(s: DateStore, rd: RunDir, rev: nat, prior: string, collection: Collection, quality: QualityResult)
    requires Judged(s, rd, rev, prior, collection, quality) && rd.context.Some? && rd.checkpoints != []
    ensures PacketContext(rd) == PacketRun(rd, collection, quality)
  {
    JudgedBasics(s, rd, rev, prior, collection, quality);
    hide Judged, StoredPacketHash, Attempts, LatestTelemetry, TelemetryFits;
  }

  /** The phases put together. */
  lemma PhasesAssemble(e: Engine, p: Rules, s: DateStore, run: RunContext, a: Answers, prior: string,
                       collection: Collection, s1: DateStore, s2: DateStore, frozen: Stored)
    requires !a.expired(0) && !a.expired(1) && !p.providerTimedOut(collection)
    requires FreezePrior(p, s, run, a.prior, a.now(2), a.env(2)) == (s1, Ok(prior))
    requires CollectAndFreeze(p, s1, run, a.collect, a.measured(3), a.env(3)) == (s2, Ok((frozen, collection)))
    ensures Assemble(e, p, s, run, a) == Evaluate(e, p, s2, frozen.run, collection, prior, a)
  {
    hide FreezePrior, CollectAndFreeze, Evaluate;
  }

  /** A call on a run that preparation is still working on goes through the phases. */
  lemma WorkGoesOn(e: Engine, p: Rules, s: DateStore, rev: nat, a: Answers, stored: Stored)
    requires Load(s, rev) == Some(stored) && !stored.published && stored.checkpoints != [] && Enters(a)
    requires ReadStaged(s, rev, ResearchPacket).None? && ReadStaged(s, rev, OperationalReason).None?
    requires var stage := Last(stored.checkpoints).stage;
             !StageAwaitsSynthesis(stage) && !stage.Published? && !stage.PreparationFailed?
    requires var r := Assemble(e, p, s, stored.run, a).1; !(r.Rejected? && r.failure.Aborted?)
    ensures Prepare(e, p, s, rev, a) == Assemble(e, p, s, stored.run, a)
  {
    hide Assemble, Load, ReadStaged, OperationalFailure, ReusePacket, ResumeFailure, PublishedResult;
  }

  /** The packet is staged with its fallback, and the newest checkpoint names both. */
  ghost predicate HandsOver(e: Engine, next: RunDir, packet: Packet) {
    && next.context.Some? && next.checkpoints != []
    && ResearchPacket in next.artifacts && next.artifacts[ResearchPacket] == PacketBytes(packet)
    && ReducedReport in next.artifacts && next.artifacts[ReducedReport] == TextBytes(e.base(packet))
    && var latest := Last(next.checkpoints);
    && latest.stage.AwaitingSynthesis?
    && ResearchPacket in latest.artifacts && latest.artifacts[ResearchPacket] == Sha256(PacketBytes(packet))
    && ReducedReport in latest.artifacts && latest.artifacts[ReducedReport] == Sha256(TextBytes(e.base(packet)))
  }

  lemma PackagedHandsOver(e: Engine, rd: RunDir, packet: Packet, at: Instant, t: Telemetry)
    requires rd.context.Some?
    ensures HandsOver(e, PackagedDir(e, rd, packet, at, t), packet)
  {
    PacketSays(e, packet, at, t);
    assert Last(PackagedDir(e, rd, packet, at, t).checkpoints) == WithTelemetry(PacketCheckpoint(packet, e.base(packet), at), t);
    hide WithTelemetry;
  }

  lemma LastPhase(e: Engine, p: Rules, s: DateStore, rd: RunDir, rev: nat, run: RunContext, s2: DateStore, prior: string,
                  collection: Collection, quality: QualityResult, body: string, a: Answers) returns (next: RunDir)
    requires Judged(s, rd, rev, prior, collection, quality) && rd.context.Some? && rd.checkpoints != []
    requires run.revision == rev && !quality.status.Fail? && !a.expired(2) && !a.expired(3) && a.env(5) == Calm()
    requires CheckpointQuality(p, s2, run, a.quality, a.now(4), a.measured(4), a.env(4)) == (Put(s, rev, rd), Ok(quality))
    requires a.build(PacketRun(rd, collection, quality), collection, quality, prior) == Given(body)
    requires a.now(6) >= Last(rd.checkpoints).writtenAt && a.now(6) >= collection.completedAt
    ensures var packet := Packet(PacketRun(rd, collection, quality), [], body);
            && HandsOver(e, next, packet)
            && Evaluate(e, p, s2, run, collection, prior, a)
               == (Put(s, rev, next), Ok(PacketReady(LoadDir(next, false).value, packet)))
  {
    hide Judged, CheckpointQuality, StagePacket, Put, Load, Evaluate, PackagedDir;
    var packet := Packet(PacketRun(rd, collection, quality), [], body);
    next := PackagedDir(e, rd, packet, a.now(6), a.measured(5));
    JudgedContext(s, rd, rev, prior, collection, quality);
    PacketIsPackaged(e, s, rd, rev, prior, collection, quality, packet, a.now(6), a.measured(5));
    PackagedHandsOver(e, rd, packet, a.now(6), a.measured(5));
    LoadPut(s, rev, rd);
    LoadPut(s, rev, next);
    EvaluateSteps(e, p, s2, run, collection, prior, a, Put(s, rev, rd), quality, packet, Put(s, rev, next),
                  LoadDir(rd, false).value, LoadDir(next, false).value);
  }

  /**
   From every directory on the way to the packet, an undisturbed call hands off the packet built
   from this evidence: what was staged before is used whatever the providers answer now, and the
   rest is what they answer.
   */
  lemma PreparationResumes(e: Engine, p: Rules, s: DateStore, rd: RunDir, rev: nat, prior: string,
                           collection: Collection, quality: QualityResult, body: string, a: Answers)
    returns (next: RunDir)
    requires OnTheWay(s, rd, rev, prior, collection, quality) && rd.context.Some? && rd.checkpoints != []
    requires Supplies(a, rd, prior, collection, quality) && Unhindered(a, p, rd, prior, collection, quality)
    requires InSequence(a, rd, collection)
    requires a.build(PacketRun(rd, collection, quality), collection, quality, prior) == Given(body)
    ensures var packet := Packet(PacketRun(rd, collection, quality), [], body);
            && HandsOver(e, next, packet)
            && Prepare(e, p, Put(s, rev, rd), rev, a)
               == (Put(s, rev, next), Ok(PacketReady(LoadDir(next, false).value, packet)))
  {
    hide OnTheWay, Judged, Frozen, Choosing, Gathering, CheckpointQuality, CollectAndFreeze, FreezePrior, Put, Prepare, Assemble,
         Evaluate, Load, ReadStaged, HandsOver, Supplies;
    OnTheWayBasics(s, rd, rev, prior, collection, quality);
    var rd1 := FirstPhase(p, s, rd, rev, prior, collection, quality, a);
    var rd2 := SecondPhase(p, s, rd1, rev, prior, collection, quality, a);
    PhasesAssemble(e, p, Put(s, rev, rd), RunOf(rd), a, prior, collection, Put(s, rev, rd1), Put(s, rev, rd2),
                   LoadDir(rd2, false).value);
    SecondBasics(s, rd2, rev, prior, collection, quality);
    var rd3 := ThirdPhase(p, s, rd2, rev, prior, collection, quality, a);
    ContextStays(rd, rd1, rd2, rd3);
    LastWrite(s, rd, rd1, rd2, rd3, rev, prior, collection, quality, a);
    next := LastPhase(e, p, s, rd3, rev, RunOf(rd2), Put(s, rev, rd2), prior, collection, quality, body, a);
    LoadPut(s, rev, rd);
    WorkGoesOn(e, p, Put(s, rev, rd), rev, a, LoadDir(rd, false).value);
  }

  lemma SecondBasics(s: DateStore, rd: RunDir, rev: nat, prior: string, collection: Collection, quality: QualityResult)
    requires (Frozen(s, rd, rev, prior, collection) && QualityOf(rd, quality) == quality)
             || Judged(s, rd, rev, prior, collection, quality)
    ensures rd.context.Some? && rd.checkpoints != [] && rd.context.value.revision == rev
  {
    hide PriorBound, CollectionBound, QualityRecorded, Resumptions.AllMeasurable, StoredPacketHash, Attempts;
  }

  lemma ContextStays(rd: RunDir, rd1: RunDir, rd2: RunDir, rd3: RunDir)
    requires rd.context.Some? && rd1.context == rd.context && rd2.context == rd1.context && rd3.context.Some?
    requires RunOf(rd3) == RunOf(rd2)
    ensures rd3.context.value.(cutoff := None) == rd.context.value.(cutoff := None)
  {
  }

  /** The newest checkpoint when the packet is built is not later than that. */
  lemma LastWrite(s: DateStore, rd: RunDir, rd1: RunDir, rd2: RunDir, rd3: RunDir, rev: nat, prior: string,
                  collection: Collection, quality: QualityResult, a: Answers)
    requires rd.context.Some? && rd.checkpoints != [] && InSequence(a, rd, collection) && rd3.checkpoints != []
    requires rd1 == rd || Gathering(s, rd1, rev, prior)
    requires rd2 == rd1 || Frozen(s, rd2, rev, prior, collection)
    requires Last(rd3.checkpoints).writtenAt == a.now(4) || rd3 == rd2
    requires Judged(s, rd3, rev, prior, collection, quality)
    ensures a.now(6) >= Last(rd3.checkpoints).writtenAt
  {
    if rd3 == rd2 && rd2 != rd1 {
      assert Last(rd3.checkpoints).stage.EvidenceFrozen?;
    } else if rd3 == rd2 && rd1 != rd {
      assert false by {
        JudgedIsNotCollecting(s, rd3, rev, prior, collection, quality);
      }
    }
    hide Underway, PriorBound, CollectionBound, QualityRecorded, LatestAt;
  }

  lemma JudgedIsNotCollecting(s: DateStore, rd: RunDir, rev: nat, prior: string, collection: Collection,
                              quality: QualityResult)
    requires Judged(s, rd, rev, prior, collection, quality)
    ensures !Gathering(s, rd, rev, prior) && !Frozen(s, rd, rev, prior, collection)
  {
    hide Underway, PriorBound, CollectionBound, QualityRecorded, LatestAt;
  }

  // ---- A staged packet ----

  /** A call that finds a staged packet reuses it, before it looks at anything else. */
  lemma PacketIsReused(e: Engine, p: Rules, s: DateStore, rd: RunDir, rev: nat, packet: Packet, a: Answers)
    requires rd.context.Some? && rd.checkpoints != [] && Resumptions.InsideWindow(a)
    requires ResearchPacket in rd.artifacts && rd.artifacts[ResearchPacket] == PacketBytes(packet)
    requires ResearchPacket in Last(rd.checkpoints).artifacts ==>
               Last(rd.checkpoints).artifacts[ResearchPacket] == Sha256(PacketBytes(packet))
    ensures Prepare(e, p, Put(s, rev, rd), rev, a)
            == Ready(rev, packet, StagePacket(e, Put(s, rev, rd), packet, ReuseTime(rd, packet), a.measured(5), a.env(5)))
  {
    LoadPut(s, rev, rd);
    hide Put, Load, ReadStaged, OperationalFailure, Assemble, StagePacket, ResumeFailure, PublishedResult, Ready;
  }

  function ReuseTime(rd: RunDir, packet: Packet): Instant
    requires rd.checkpoints != []
  {
    if Last(rd.checkpoints).writtenAt >= packet.run.invokedAt then Last(rd.checkpoints).writtenAt else packet.run.invokedAt
  }

  /** Stopped while it was staging this packet: the packet is there, its fallback and telemetry perhaps. */
  ghost predicate Packing(e: Engine, rd: RunDir, packet: Packet, t: Telemetry, x: RunDir) {
    && Under(rd, x)
    && Under(x, WithArtifact(Filled(e, rd, packet), TelemetryArtifact(t).0, TelemetryArtifact(t).1))
    && ResearchPacket in x.artifacts
  }

  lemma PackingHolds(e: Engine, s: DateStore, rev: nat, rd: RunDir, packet: Packet, t: Telemetry, x: RunDir, u: Telemetry)
    requires Packing(e, rd, packet, t, x) && Resumptions.AllMeasurable(s, rev, rd)
    requires ResearchPacket !in rd.artifacts && ReducedReport !in rd.artifacts
    ensures x.artifacts[ResearchPacket] == PacketBytes(packet)
    ensures ReducedReport in x.artifacts ==> x.artifacts[ReducedReport] == TextBytes(e.base(packet))
    ensures TelemetryFits(Filled(e, x, packet), u)
    ensures !LatestTelemetry(Put(s, rev, x), x.checkpoints).Malformed?
  {
    hide LatestTelemetry;
    var full := WithArtifact(Filled(e, rd, packet), TelemetryArtifact(t).0, TelemetryArtifact(t).1);
    assert TelemetryFits(rd, u);
    FitsLater(rd, ResearchPacket, PacketBytes(packet), u);
    FitsLater(WithArtifact(rd, ResearchPacket, PacketBytes(packet)), ReducedReport, TextBytes(e.base(packet)), u);
    FitsLater(Filled(e, rd, packet), TelemetryArtifact(t).0, TelemetryArtifact(t).1, u);
    ReasonReads(s, rev, rd, x);
    LatestStays(Put(s, rev, rd), Put(s, rev, x), rd.checkpoints);
  }

  /** The packet's checkpoint is admitted whatever of the packet is staged already. */
  lemma PackingIsAdmitted(e: Engine, rd: RunDir, packet: Packet, x: RunDir, at: Instant, u: Telemetry)
    requires x == rd.(artifacts := x.artifacts) && rd.context.Some? && rd.checkpoints != [] && rd.freeze.Some?
    requires Last(rd.checkpoints).stage.QualityEvaluated? && !Last(rd.checkpoints).quality.Fail?
    requires StoredPacketHash(rd.checkpoints).None? && Attempts(rd.checkpoints) == []
    requires ReducedReport !in Last(rd.checkpoints).artifacts && TelemetryFits(Filled(e, x, packet), u)
    requires packet.run.quality == Last(rd.checkpoints).quality && packet.run.delivery == Last(rd.checkpoints).delivery
    requires packet.run.cutoff == rd.freeze && at >= Last(rd.checkpoints).writtenAt
    ensures Admits(WithArtifact(Filled(e, x, packet), TelemetryArtifact(u).0, TelemetryArtifact(u).1),
                   WithTelemetry(PacketCheckpoint(packet, e.base(packet), at), u))
  {
    hide WithTelemetry, StoredPacketHash, Attempts, TelemetryNamed, Business, TelemetryNames, StagedMatches, TelemetryFits;
    PacketSays(e, packet, at, u);
    FilledIsStaged(e, x, packet, at, u);
    var full := WithArtifact(Filled(e, x, packet), TelemetryArtifact(u).0, TelemetryArtifact(u).1);
    var cp := WithTelemetry(PacketCheckpoint(packet, e.base(packet), at), u);
    assert SynthesisStep(full, cp) by { hide Admits; }
    hide SynthesisStep, Admits;
    StepAdmits(full, cp);
  }

  /** Stage what is missing of a packet, then append its checkpoint. */
  lemma PacketIsCompleted(e: Engine, s: DateStore, x: RunDir, packet: Packet, at: Instant, u: Telemetry)
    requires PacketFits(Put(s, packet.run.revision, x), packet, at)
    requires x.context.Some? && x.checkpoints != [] && !StageAwaitsSynthesis(Last(x.checkpoints).stage)
    requires ResearchPacket in x.artifacts ==> x.artifacts[ResearchPacket] == PacketBytes(packet)
    requires ReducedReport in x.artifacts ==> x.artifacts[ReducedReport] == TextBytes(e.base(packet))
    requires TelemetryFits(Filled(e, x, packet), u)
    requires Admits(WithArtifact(Filled(e, x, packet), TelemetryArtifact(u).0, TelemetryArtifact(u).1),
                    WithTelemetry(PacketCheckpoint(packet, e.base(packet), at), u))
    ensures StagePacket(e, Put(s, packet.run.revision, x), packet, at, u, Calm())
            == (Put(s, packet.run.revision, PackagedDir(e, x, packet, at, u)), Ok(()))
  {
    hide StageAll, StageArtifact, AppendCheckpoint, AppendIfCurrent, WithTelemetry, PacketFits, PacketRecorded, Admits,
         TelemetryFits, Bound, Load;
    var rev, base := packet.run.revision, TextBytes(e.base(packet));
    var once := WithArtifact(x, ResearchPacket, PacketBytes(packet));
    StageOneOrTwo(Put(s, rev, x), rev, Some((ResearchPacket, PacketBytes(packet))), (ReducedReport, base), Calm());
    assert [(ResearchPacket, PacketBytes(packet))] + [(ReducedReport, base)]
           == [(ResearchPacket, PacketBytes(packet)), (ReducedReport, base)];
    StageCalmly(s, rev, x, ResearchPacket, PacketBytes(packet), NoFault);
    StageCalmly(s, rev, once, ReducedReport, base, NoFault);
    LoadPut(s, rev, x);
    hide Put, WithArtifact;
    BindCalmly(s, rev, Filled(e, x, packet), PacketCheckpoint(packet, e.base(packet), at), u, NoFault, NoFault);
  }

  /** A call stopped while it staged its packet is completed by the next one, with that packet and no other. */
  lemma PackingResumes(e: Engine, p: Rules, s: DateStore, rd: RunDir, rev: nat, prior: string, collection: Collection,
                       quality: QualityResult, body: string, t: Telemetry, x: RunDir, a: Answers) returns (next: RunDir)
    requires Judged(s, rd, rev, prior, collection, quality) && rd.context.Some? && rd.checkpoints != []
    requires var packet := Packet(PacketRun(rd, collection, quality), [], body); Packing(e, rd, packet, t, x)
    requires Resumptions.InsideWindow(a) && a.env(5) == Calm()
    ensures var packet := Packet(PacketRun(rd, collection, quality), [], body);
            && HandsOver(e, next, packet)
            && Prepare(e, p, Put(s, rev, x), rev, a)
               == (Put(s, rev, next), Ok(PacketReady(LoadDir(next, false).value, packet)))
  {
    hide StoredPacketHash, Attempts, LatestTelemetry, Put, Load, Prepare, StagePacket, PackagedDir, TelemetryFits, Filled,
         ReadStaged, Judged, Admits;
    var packet := Packet(PacketRun(rd, collection, quality), [], body);
    var at, u := ReuseTime(rd, packet), a.measured(5);
    JudgedBasics(s, rd, rev, prior, collection, quality);
    JudgedMeasures(s, rd, rev, prior, collection, quality);
    PackingHolds(e, s, rev, rd, packet, t, x, u);
    LoadPut(s, rev, x);
    PackingIsAdmitted(e, rd, packet, x, at, u);
    assert PacketFits(Put(s, rev, x), packet, at);
    PacketIsCompleted(e, s, x, packet, at, u);
    next := PackagedDir(e, x, packet, at, u);
    PackagedHandsOver(e, x, packet, at, u);
    LoadPut(s, rev, next);
    JudgedNamesNoPacket(s, rd, rev, prior, collection, quality);
    PacketIsReused(e, p, s, x, rev, packet, a);
  }

  lemma JudgedMeasures(s: DateStore, rd: RunDir, rev: nat, prior: string, collection: Collection, quality: QualityResult)
    requires Judged(s, rd, rev, prior, collection, quality)
    ensures Resumptions.AllMeasurable(s, rev, rd)
  {
    hide StoredPacketHash, Attempts, CollectionBound, QualityRecorded, PriorBound;
  }

  lemma JudgedNamesNoPacket(s: DateStore, rd: RunDir, rev: nat, prior: string, collection: Collection,
                            quality: QualityResult)
    requires Judged(s, rd, rev, prior, collection, quality)
    ensures rd.checkpoints != [] && ResearchPacket !in Last(rd.checkpoints).artifacts
  {
    hide Attempts, CollectionBound, QualityRecorded, PriorBound, Resumptions.AllMeasurable;
  }

  /** A packet that was handed off is handed off again, and nothing is written, whatever fails. */
  lemma HandedOffIsReturned(e: Engine, p: Rules, s: DateStore, rd: RunDir, rev: nat, packet: Packet, a: Answers)
    requires rd.context.Some? && rd.checkpoints != [] && packet.run.revision == rev && Resumptions.InsideWindow(a)
    requires ResearchPacket in rd.artifacts && rd.artifacts[ResearchPacket] == PacketBytes(packet)
    requires ReducedReport in rd.artifacts && rd.artifacts[ReducedReport] == TextBytes(e.base(packet))
    requires StageAwaitsSynthesis(Last(rd.checkpoints).stage) && PacketRecorded(Last(rd.checkpoints), packet, e.base(packet))
    requires PacketFits(Put(s, rev, rd), packet, ReuseTime(rd, packet))
    ensures Prepare(e, p, Put(s, rev, rd), rev, a)
            == (Put(s, rev, rd), Ok(PacketReady(LoadDir(rd, false).value, packet)))
  {
    hide PacketFits, Put, Load, Prepare, ReadStaged, StageAll;
    LoadPut(s, rev, rd);
    StagedAgain(s, rev, rd, packet, e.base(packet), a.env(5));
    PacketIsReused(e, p, s, rd, rev, packet, a);
  }

  /** Staging what is staged with the same bytes writes nothing. */
  lemma StagedAgain(s: DateStore, rev: nat, rd: RunDir, packet: Packet, base: string, env: Environment)
    requires ResearchPacket in rd.artifacts && rd.artifacts[ResearchPacket] == PacketBytes(packet)
    requires ReducedReport in rd.artifacts && rd.artifacts[ReducedReport] == TextBytes(base)
    ensures StageAll(Put(s, rev, rd), rev, [(ResearchPacket, PacketBytes(packet)), (ReducedReport, TextBytes(base))], env, 0)
            == (Put(s, rev, rd), Ok(()))
  {
    StageOneOrTwo(Put(s, rev, rd), rev, Some((ResearchPacket, PacketBytes(packet))), (ReducedReport, TextBytes(base)), env);
    assert [(ResearchPacket, PacketBytes(packet))] + [(ReducedReport, TextBytes(base))]
           == [(ResearchPacket, PacketBytes(packet)), (ReducedReport, TextBytes(base))];
    hide StageAll;
  }

  // ---- Where a started run is ----

  /** A just started run is on the way to the packet of whatever evidence it will be given. */
  lemma StartedIsOnTheWay(s: DateStore, c: Course, prior: string, collection: Collection, quality: QualityResult)
    requires c.context.cutoff.None? && !c.context.quality.Fail?
    ensures OnTheWay(s, After0(c), c.context.revision, prior, collection, quality)
  {
    var rd, cp := After0(c), StartCheckpoint(c.context);
    assert rd.checkpoints == [WithTelemetry(cp, c.started)];
    BoundNames(cp, c.started);
    BoundIsOtherwise(cp, c.started);
    BoundIsUnpacked(cp, c.started);
    NonePacked(rd.checkpoints);
    forall t ensures Measurable(s, c.context.revision, rd, t) { StartedMeasures(s, c, t); }
    assert Measurable(s, c.context.revision, rd, Telemetry([]));
    assert PriorResearch !in rd.checkpoints[0].artifacts by { PriorNotNamed(cp, c.started); }
    LatestAtAppend([], rd.checkpoints[0], Stage.EvidenceCollected);
    assert [] + [rd.checkpoints[0]] == rd.checkpoints;
    hide WithTelemetry, StoredPacketHash, LatestTelemetry, LatestAt, Attempts, TelemetryFits;
    assert forall t :: Measurable(s, c.context.revision, rd, t) ==> TelemetryFits(rd, t);
    assert Choosing(s, rd, c.context.revision);
  }

  /** The handed-off run of a course hands off its packet again. */
  lemma CourseIsReturned(e: Engine, p: Rules, s: DateStore, c: Course, a: Answers)
    requires GoodCourse(p, c) && Resumptions.InsideWindow(a)
    ensures var rev, rd := c.context.revision, After4(e, c);
            && LoadDir(rd, false).Some?
            && Prepare(e, p, Put(s, rev, rd), rev, a)
               == (Put(s, rev, rd), Ok(PacketReady(LoadDir(rd, false).value, ThePacket(c))))
  {
    hide After3, After4, Packed4, WithTelemetry, StoredPacketHash, Attempts, LatestTelemetry, Put, Load, ReadStaged, Prepare;
    var rev, rd, packet := c.context.revision, After4(e, c), ThePacket(c);
    AfterFour(e, c);
    PackedNames(e, c);
    FallbackKeepsTelemetry(e, s, c);
    BoundIsOtherwise(Packed4(e, c), c.packed);
    KeptName(Packed4(e, c), c.packed, ReducedReport);
    KeptName(Packed4(e, c), c.packed, ResearchPacket);
    PacketRevision(c);
    LoadPut(s, rev, rd);
    assert PacketFits(Put(s, rev, rd), packet, ReuseTime(rd, packet));
    HandedOffIsReturned(e, p, s, rd, rev, packet, a);
  }
}
