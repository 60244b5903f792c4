/**
 An undisturbed run: the admission rule lets every checkpoint of preparation through, the
 packet is handed off, and the fallback can be published from it.
 */
module Undisturbed {
  import opened RunTypes
  import opened RunStore
  import opened RunHistory
  import opened Publication
  import opened FinalBundle
  import opened ClosedRuns
  import opened PublicationMachine
  import opened PublicationService
  import opened Preparation
  import opened PreparedEvidence

  /** Nothing goes wrong with any repository call. */
  function Calm(): Environment {
    (i: nat) => NoFault
  }

  /** A telemetry snapshot's own name holds nothing but that snapshot. */
  predicate TelemetryFits(rd: RunDir, t: Telemetry) {
    TelemetryArtifact(t).0 in rd.artifacts ==> rd.artifacts[TelemetryArtifact(t).0] == TelemetryBytes(t)
  }

  /** Bind a checkpoint to its telemetry and append it. */
  function Bound(rd: RunDir, cp: Checkpoint, t: Telemetry): RunDir {
    Append(WithArtifact(rd, TelemetryArtifact(t).0, TelemetryArtifact(t).1), WithTelemetry(cp, t))
  }

  lemma BoundNames(cp: Checkpoint, t: Telemetry)
    requires TelemetryNames(cp.artifacts) == {}
    ensures var m := WithTelemetry(cp, t).artifacts;
            && Business(m) == cp.artifacts
            && TelemetryNames(m) == {TelemetryArtifact(t).0}
            && TelemetryNamed(m)
  {
    var m := WithTelemetry(cp, t).artifacts;
    assert forall n :: n in cp.artifacts ==> !n.TelemetryName? || n in TelemetryNames(cp.artifacts);
    assert Business(cp.artifacts) == cp.artifacts;
    assert Business(m) == cp.artifacts;
    assert TelemetryNames(m) == {TelemetryArtifact(t).0};
  }

  /** What a bound checkpoint names is staged when what the checkpoint named is. */
  lemma BoundIsStaged(rd: RunDir, cp: Checkpoint, t: Telemetry)
    requires TelemetryNames(cp.artifacts) == {} && StagedMatches(rd.artifacts, cp.artifacts) && TelemetryFits(rd, t)
    ensures StagedMatches(Bound(rd, cp, t).artifacts, WithTelemetry(cp, t).artifacts)
  {
    BoundNames(cp, t);
    var m := WithTelemetry(cp, t).artifacts;
    forall n | n in m
      ensures n in Bound(rd, cp, t).artifacts && Sha256(Bound(rd, cp, t).artifacts[n]) == m[n]
    {
      if n != TelemetryArtifact(t).0 {
        assert n.TelemetryName? ==> n in TelemetryNames(m);
        assert !n.TelemetryName? ==> n in Business(m);
      }
    }
  }

  // ---- The directory after each phase ----

  /** What the outside contributes to an undisturbed run. */
  datatype Course = Course(context: RunContext, started: Telemetry, prior: string, chosenAt: Instant,
                           collection: Collection, collected: Telemetry, quality: QualityResult,
                           judgedAt: Instant, judged: Telemetry, body: string, packedAt: Instant, packed: Telemetry)

  /** Times do not run backwards, and evidence fits the configuration. */
  ghost predicate Timely(p: Rules, c: Course) {
    && c.context.cutoff.None?
    && p.priorFits(c.context, c.prior)
    && c.context.invokedAt <= c.chosenAt
    && c.context.invokedAt <= c.collection.completedAt <= c.judgedAt <= c.packedAt
    && c.collection.symbols == p.symbols(c.context.configuration)
  }

  /** And quality is not FAIL. */
  ghost predicate GoodCourse(p: Rules, c: Course) {
    Timely(p, c) && !c.quality.status.Fail?
  }

  function After0(c: Course): RunDir {
    Started(c.context, c.started)
  }

  function After1(c: Course): RunDir {
    var rd := WithArtifact(After0(c), PriorResearch, TextBytes(c.prior));
    Append(rd, ConfigCheckpoint(LoadDir(After0(c), false).value, c.prior, c.chosenAt))
  }

  function Collected2(c: Course): RunDir {
    Bound(WithArtifact(After1(c), MarketDataCollection, CollectionBytes(c.collection)),
          CollectedCheckpoint(LoadDir(After1(c), false).value, c.collection), c.collected)
  }

  function After2(c: Course): RunDir {
    var rd := Collected2(c);
    Append(rd.(freeze := Some(c.collection.completedAt)),
           FrozenMarker(rd, c.context.revision, c.collection.completedAt))
  }

  function After3(c: Course): RunDir {
    Bound(WithArtifact(After2(c), DataQuality, QualityBytes(c.quality)),
          QualityCheckpoint(LoadDir(After2(c), false).value, c.collection, c.quality, c.judgedAt), c.judged)
  }

  function TheContext(c: Course): RunContext {
    ComposeRun(LoadDir(After3(c), false).value.run, Last(After3(c).checkpoints)).(execution := Execution.AwaitingSynthesis)
  }

  function ThePacket(c: Course): Packet {
    Packet(TheContext(c), [], c.body)
  }

  function After4(e: Engine, c: Course): RunDir {
    Bound(Staged4(e, c), Packed4(e, c), c.packed)
  }

  // ---- Each phase ----

  lemma LoadPut(s: DateStore, rev: nat, rd: RunDir)
    ensures Load(Put(s, rev, rd), rev) == LoadDir(rd, false)
    ensures forall name :: ReadStaged(Put(s, rev, rd), rev, name)
                           == if name in rd.artifacts then Some(rd.artifacts[name]) else None
  {
  }

  lemma BindCalmly(s: DateStore, rev: nat, rd: RunDir, cp: Checkpoint, t: Telemetry, first: Fault, second: Fault)
    requires first.NoFault? && second.NoFault? && TelemetryFits(rd, t)
    requires cp.revision == rev && rd.context.Some?
    requires Admits(WithArtifact(rd, TelemetryArtifact(t).0, TelemetryArtifact(t).1), WithTelemetry(cp, t))
    ensures var (s1, r1) := StageArtifact(Put(s, rev, rd), rev, TelemetryArtifact(t).0, TelemetryArtifact(t).1, first);
            && r1.Ok?
            && AppendIfCurrent(s1, rev, WithTelemetry(cp, t), |rd.checkpoints|, second) == (Put(s, rev, Bound(rd, cp, t)), Ok(()))
            && AppendCheckpoint(s1, rev, WithTelemetry(cp, t), second) == (Put(s, rev, Bound(rd, cp, t)), Ok(()))
  {
    hide Admits, AppendIfCurrent, AppendCheckpoint, StageArtifact;
    StageCalmly(s, rev, rd, TelemetryArtifact(t).0, TelemetryArtifact(t).1, first);
    AppendCalmly(s, rev, WithArtifact(rd, TelemetryArtifact(t).0, TelemetryArtifact(t).1), WithTelemetry(cp, t), second);
  }

  /** Stage one artifact and a snapshot, then append the checkpoint that is bound to them. */
  lemma BindTwoCalmly(s: DateStore, rev: nat, rd: RunDir, name: Name, payload: Payload, cp: Checkpoint, t: Telemetry,
                      env: Environment)
    requires env(0).NoFault? && env(1).NoFault? && env(2).NoFault?
    requires name !in rd.artifacts && payload != RawBytes([])
    requires TelemetryFits(WithArtifact(rd, name, payload), t) && cp.revision == rev && rd.context.Some?
    requires Admits(WithArtifact(WithArtifact(rd, name, payload), TelemetryArtifact(t).0, TelemetryArtifact(t).1),
                    WithTelemetry(cp, t))
    ensures StageAndAppend(Put(s, rev, rd), rev, [(name, payload), TelemetryArtifact(t)], WithTelemetry(cp, t),
                           |rd.checkpoints|, env)
            == (Put(s, rev, Bound(WithArtifact(rd, name, payload), cp, t)), Ok(()))
  {
    hide StageArtifact, AppendIfCurrent, Admits, WithTelemetry, TelemetryFits, Bound, StageAll;
    StageOneOrTwo(Put(s, rev, rd), rev, Some((name, payload)), TelemetryArtifact(t), env);
    assert [(name, payload)] + [TelemetryArtifact(t)] == [(name, payload), TelemetryArtifact(t)];
    StageCalmly(s, rev, rd, name, payload, env(0));
    BindCalmly(s, rev, WithArtifact(rd, name, payload), cp, t, env(1), env(2));
  }

  lemma StepAdmits(rd: RunDir, cp: Checkpoint)
    requires rd.context.Some? && rd.freeze.Some? && cp.cutoff == rd.freeze
    requires rd.checkpoints != [] ==> cp.writtenAt >= Last(rd.checkpoints).writtenAt
    requires QualityEvaluation(rd, cp) || SynthesisStep(rd, cp)
    ensures Admits(rd, cp)
  {
    hide QualityEvaluation, SynthesisStep, OperationalPublication, PreparationFailure, FreezeMarker;
  }

  lemma PriorCalmly(p: Rules, s: DateStore, c: Course)
    requires Timely(p, c)
    ensures FreezePrior(p, Put(s, c.context.revision, After0(c)), c.context, c.prior, c.chosenAt, Calm())
            == (Put(s, c.context.revision, After1(c)), Ok(c.prior))
  {
    hide StageArtifact, AppendIfCurrent;
    var rev, rd := c.context.revision, After0(c);
    LoadPut(s, rev, rd);
    assert BoundPriors(rd.checkpoints) == {} by {
      assert forall i :: 0 <= i < |rd.checkpoints| ==> PriorResearch !in rd.checkpoints[i].artifacts;
    }
    assert LatestAt(rd.checkpoints, Stage.EvidenceCollected).None? by {
      assert rd.checkpoints[..0] == [];
    }
    var cp := ConfigCheckpoint(LoadDir(rd, false).value, c.prior, c.chosenAt);
    var staged := WithArtifact(rd, PriorResearch, TextBytes(c.prior));
    StageOne(Put(s, rev, rd), rev, (PriorResearch, TextBytes(c.prior)), Calm(), 0);
    StageCalmly(s, rev, rd, PriorResearch, TextBytes(c.prior), NoFault);
    AppendCalmly(s, rev, staged, cp, NoFault);
  }

  lemma TelemetryReads(s: DateStore, rev: nat, rd: RunDir, cp: Checkpoint, t: Telemetry)
    requires cp.revision == rev && TelemetryNames(cp.artifacts) == {}
    requires TelemetryArtifact(t).0 in rd.artifacts && rd.artifacts[TelemetryArtifact(t).0] == TelemetryBytes(t)
    ensures CheckpointTelemetry(Put(s, rev, rd), WithTelemetry(cp, t)) == Found(t, TelemetryDigest(t))
  {
    BoundNames(cp, t);
  }

  /** Telemetry can be continued from the newest snapshot, wherever the later checkpoints name none. */
  lemma {:induction false} TelemetryContinues(s: DateStore, rev: nat, rd: RunDir, cps: seq<Checkpoint>, i: nat,
                                              cp: Checkpoint, t: Telemetry)
    requires i < |cps| && cps[i] == WithTelemetry(cp, t)
    requires forall k :: i < k < |cps| ==> TelemetryNames(cps[k].artifacts) == {}
    requires cp.revision == rev && TelemetryNames(cp.artifacts) == {}
    requires TelemetryArtifact(t).0 in rd.artifacts && rd.artifacts[TelemetryArtifact(t).0] == TelemetryBytes(t)
    ensures !LatestTelemetry(Put(s, rev, rd), cps).Malformed?
  {
    BoundNames(cp, t);
    if i == |cps| - 1 {
      TelemetryReads(s, rev, rd, cp, t);
    } else {
      TelemetryContinues(s, rev, rd, cps[..|cps| - 1], i, cp, t);
    }
  }

  lemma AfterOne(c: Course)
    ensures var rd := After1(c);
            && rd.context == Some(c.context) && rd.freeze.None? && |rd.checkpoints| == 2
            && rd.checkpoints[0] == WithTelemetry(StartCheckpoint(c.context), c.started)
            && rd.checkpoints[1] == ConfigCheckpoint(LoadDir(After0(c), false).value, c.prior, c.chosenAt)
            && rd.artifacts == map[TelemetryArtifact(c.started).0 := TelemetryBytes(c.started),
                                   PriorResearch := TextBytes(c.prior)]
            && LatestAt(rd.checkpoints, Stage.EvidenceCollected).None?
  {
    var cps := After1(c).checkpoints;
    assert cps == ([] + [cps[0]]) + [cps[1]];
    LatestAtAppend([], cps[0], Stage.EvidenceCollected);
    LatestAtAppend([] + [cps[0]], cps[1], Stage.EvidenceCollected);
  }

  lemma LatestAtAppend(cps: seq<Checkpoint>, cp: Checkpoint, stage: Stage)
    ensures LatestAt(cps + [cp], stage) == if cp.stage == stage then Some(cp) else LatestAt(cps, stage)
  {
    assert (cps + [cp])[..|cps|] == cps;
  }

  lemma BoundIsOtherwise(cp: Checkpoint, t: Telemetry)
    ensures WithTelemetry(cp, t) == cp.(artifacts := WithTelemetry(cp, t).artifacts)
  {
  }

  function Fixed2(c: Course): Checkpoint {
    CollectedCheckpoint(LoadDir(After1(c), false).value, c.collection)
  }

  lemma CollectCalmly(p: Rules, s: DateStore, c: Course)
    requires Timely(p, c)
    ensures CollectAndFreeze(p, Put(s, c.context.revision, After1(c)), c.context, Given(c.collection), c.collected, Calm())
            == (Put(s, c.context.revision, After2(c)), Ok((LoadDir(After2(c), false).value, c.collection)))
  {
    hide StageArtifact, AppendIfCurrent, Freeze, LatestTelemetry, LatestAt, After1, WithTelemetry, StoredCollection;
    var rev, rd := c.context.revision, After1(c);
    AfterOne(c);
    LoadPut(s, rev, rd);
    ConfigNamesNoTelemetry(c);
    TelemetryContinues(s, rev, rd, rd.checkpoints, 0, StartCheckpoint(c.context), c.started);
    var staged := WithArtifact(rd, MarketDataCollection, CollectionBytes(c.collection));
    StageCalmly(s, rev, rd, MarketDataCollection, CollectionBytes(c.collection), NoFault);
    BoundIsOtherwise(Fixed2(c), c.collected);
    BindCalmly(s, rev, staged, Fixed2(c), c.collected, NoFault, NoFault);
    FreezeCalmly(s, c);
  }

  lemma ConfigNamesNoTelemetry(c: Course)
    ensures TelemetryNames(ConfigCheckpoint(LoadDir(After0(c), false).value, c.prior, c.chosenAt).artifacts) == {}
    ensures TelemetryNames(StartCheckpoint(c.context).artifacts) == {}
  {
  }

  lemma FreezeCalmly(s: DateStore, c: Course)
    requires c.context.cutoff.None? && c.context.invokedAt <= c.collection.completedAt
    ensures Freeze(Put(s, c.context.revision, Collected2(c)), c.context.revision, c.collection.completedAt, NoFault)
            == (Put(s, c.context.revision, After2(c)), Ok(LoadDir(After2(c), false).value))
  {
    hide After1, AppendCheckpoint;
    var rev, rd, cutoff := c.context.revision, Collected2(c), c.collection.completedAt;
    AfterOne(c);
    var frozen, marker := rd.(freeze := Some(cutoff)), FrozenMarker(rd, rev, cutoff);
    assert FreezeMarker(frozen, marker);
    assert Admits(frozen, marker) by {
      hide QualityEvaluation, SynthesisStep, OperationalPublication, PreparationFailure;
    }
    assert Put(s, rev, rd).staging[rev := frozen] == s.staging[rev := frozen];
    AppendCalmly(s, rev, frozen, marker, NoFault);
  }

  // ---- Quality ----

  lemma AfterTwo(c: Course)
    requires c.context.cutoff.None?
    ensures var rd := After2(c);
            && rd.context == Some(c.context) && rd.freeze == Some(c.collection.completedAt) && |rd.checkpoints| == 4
            && rd.checkpoints[..2] == After1(c).checkpoints
            && rd.checkpoints[2] == WithTelemetry(Fixed2(c), c.collected)
            && rd.checkpoints[3].stage.EvidenceFrozen? && rd.checkpoints[3].artifacts == map[]
            && rd.checkpoints[3].writtenAt == c.collection.completedAt && rd.checkpoints[3].cutoff == rd.freeze
            && rd.checkpoints[3].delivery == c.context.delivery
            && rd.artifacts == map[TelemetryArtifact(c.started).0 := TelemetryBytes(c.started),
                                   PriorResearch := TextBytes(c.prior),
                                   MarketDataCollection := CollectionBytes(c.collection),
                                   TelemetryArtifact(c.collected).0 := TelemetryBytes(c.collected)]
            && LatestAt(rd.checkpoints, Stage.EvidenceCollected) == Some(WithTelemetry(Fixed2(c), c.collected))
            && Last(rd.checkpoints) == rd.checkpoints[3]
  {
    AfterOne(c);
    assert Fixed2(c).delivery == c.context.delivery;
    BoundIsOtherwise(Fixed2(c), c.collected);
    hide After1, WithTelemetry, LatestAt;
    var cps := After2(c).checkpoints;
    assert cps == (After1(c).checkpoints + [cps[2]]) + [cps[3]];
    LatestAtAppend(After1(c).checkpoints, cps[2], Stage.EvidenceCollected);
    LatestAtAppend(After1(c).checkpoints + [cps[2]], cps[3], Stage.EvidenceCollected);
  }

  lemma CollectionReads(p: Rules, s: DateStore, c: Course)
    requires Timely(p, c)
    ensures LoadFrozen(p, Put(s, c.context.revision, After2(c)), LoadDir(After2(c), false).value.run)
            == Some((LoadDir(After2(c), false).value, c.collection))
    ensures !LatestTelemetry(Put(s, c.context.revision, After2(c)), After2(c).checkpoints).Malformed?
  {
    var rev, rd, cp := c.context.revision, After2(c), Fixed2(c);
    AfterTwo(c);
    LoadPut(s, rev, rd);
    CollectedNames(c);
    BoundIsOtherwise(cp, c.collected);
    BoundNames(cp, c.collected);
    TelemetryReads(s, rev, rd, cp, c.collected);
    TelemetryContinues(s, rev, rd, rd.checkpoints, 2, cp, c.collected);
    hide After2, After1, WithTelemetry, LatestTelemetry, LatestAt, CheckpointTelemetry;
    var bound := WithTelemetry(cp, c.collected);
    KeptName(cp, c.collected, MarketDataCollection);
    assert StoredCollection(Put(s, rev, rd), rev, rd.checkpoints) == Some(c.collection);
  }

  lemma CollectedNames(c: Course)
    ensures TelemetryNames(Fixed2(c).artifacts) == {}
    ensures Fixed2(c).artifacts == map[MarketDataCollection := Sha256(CollectionBytes(c.collection))]
    ensures Fixed2(c).artifacts.Keys == {MarketDataCollection}
    ensures Fixed2(c).revision == c.context.revision
  {
  }

  /** Binding telemetry keeps what a checkpoint named. */
  lemma KeptName(cp: Checkpoint, t: Telemetry, name: Name)
    requires !name.TelemetryName? && name in cp.artifacts
    ensures name in WithTelemetry(cp, t).artifacts && WithTelemetry(cp, t).artifacts[name] == cp.artifacts[name]
  {
  }

  function Judged3(c: Course): Checkpoint {
    QualityCheckpoint(LoadDir(After2(c), false).value, c.collection, c.quality, c.judgedAt)
  }

  lemma JudgedNames(c: Course)
    requires c.context.cutoff.None?
    ensures var cp := Judged3(c);
            && TelemetryNames(cp.artifacts) == {}
            && cp.artifacts == map[MarketDataCollection := Sha256(CollectionBytes(c.collection)),
                                   DataQuality := Sha256(QualityBytes(c.quality))]
            && cp.artifacts.Keys == {MarketDataCollection, DataQuality}
            && cp.revision == c.context.revision && cp.stage.QualityEvaluated? && cp.execution.Analyzing?
            && cp.quality == c.quality.status && cp.delivery == c.context.delivery && cp.writtenAt == c.judgedAt
            && cp.cutoff == Some(c.collection.completedAt) && !cp.resumable
  {
    AfterTwo(c);
    hide After2;
  }

  lemma QualityIsAdmitted(p: Rules, c: Course)
    requires Timely(p, c)
    ensures var staged := WithArtifact(After2(c), DataQuality, QualityBytes(c.quality));
            && TelemetryFits(staged, c.judged)
            && Admits(WithArtifact(staged, TelemetryArtifact(c.judged).0, TelemetryArtifact(c.judged).1),
                      WithTelemetry(Judged3(c), c.judged))
  {
    var staged, cp := WithArtifact(After2(c), DataQuality, QualityBytes(c.quality)), Judged3(c);
    AfterTwo(c);
    JudgedNames(c);
    CollectedNames(c);
    BoundNames(cp, c.judged);
    BoundNames(Fixed2(c), c.collected);
    BoundIsOtherwise(cp, c.judged);
    BoundIsOtherwise(Fixed2(c), c.collected);
    hide After2, After1, Judged3, WithTelemetry, LatestAt, Business;
    BoundIsStaged(staged, cp, c.judged);
    var full := WithArtifact(staged, TelemetryArtifact(c.judged).0, TelemetryArtifact(c.judged).1);
    assert QualityEvaluation(full, WithTelemetry(cp, c.judged)) by { hide Admits; }
    hide QualityEvaluation, SynthesisStep, Admits, StagedMatches, TelemetryNamed;
    StepAdmits(full, WithTelemetry(cp, c.judged));
  }

  lemma QualityIsNew(p: Rules, s: DateStore, run: RunContext, stored: Stored, collection: Collection,
                     quality: QualityResult, at: Instant, t: Telemetry, s': DateStore)
    requires LoadFrozen(p, s, run) == Some((stored, collection)) && stored.checkpoints != []
    requires ReadStaged(s, run.revision, DataQuality).None? && !LatestTelemetry(s, stored.checkpoints).Malformed?
    requires stored.cutoff.Some? && stored.cutoff.value <= at && Last(stored.checkpoints).writtenAt <= at
    requires Last(stored.checkpoints).stage.EvidenceFrozen? && Last(stored.checkpoints).cutoff == stored.cutoff
    requires StageAndAppend(s, run.revision, [(DataQuality, QualityBytes(quality)), TelemetryArtifact(t)],
                            WithTelemetry(QualityCheckpoint(stored, collection, quality, at), t), |stored.checkpoints|,
                            Calm()) == (s', Ok(()))
    ensures CheckpointQuality(p, s, run, Given(quality), at, t, Calm()) == (s', Ok(quality))
  {
    hide LoadFrozen, LatestTelemetry, StageAndAppend, WithTelemetry, QualityCheckpoint, ReadStaged, QualityRecorded;
  }

  lemma QualityCalmly(p: Rules, s: DateStore, c: Course)
    requires Timely(p, c)
    ensures CheckpointQuality(p, Put(s, c.context.revision, After2(c)), LoadDir(After2(c), false).value.run,
                              Given(c.quality), c.judgedAt, c.judged, Calm())
            == (Put(s, c.context.revision, After3(c)), Ok(c.quality))
  {
    var rev, rd := c.context.revision, After2(c);
    AfterTwo(c);
    CollectionReads(p, s, c);
    JudgedNames(c);
    QualityIsAdmitted(p, c);
    LoadPut(s, rev, rd);
    hide After2, WithTelemetry, LatestTelemetry, LoadFrozen, StageAndAppend, QualityCheckpoint, Admits, TelemetryFits,
         Put, Load, ReadStaged, CheckpointQuality, LatestAt;
    BindTwoCalmly(s, rev, rd, DataQuality, QualityBytes(c.quality), Judged3(c), c.judged, Calm());
    QualityIsNew(p, Put(s, rev, rd), LoadDir(rd, false).value.run, LoadDir(rd, false).value, c.collection, c.quality,
                 c.judgedAt, c.judged, Put(s, rev, After3(c)));
  }

  // ---- Packet ----

  lemma AfterThree(c: Course)
    requires c.context.cutoff.None?
    ensures var rd := After3(c);
            && rd.context == Some(c.context) && rd.freeze == Some(c.collection.completedAt) && |rd.checkpoints| == 5
            && rd.checkpoints == After2(c).checkpoints + [WithTelemetry(Judged3(c), c.judged)]
            && Last(rd.checkpoints) == rd.checkpoints[4] == WithTelemetry(Judged3(c), c.judged)
            && Last(rd.checkpoints).stage.QualityEvaluated? && Last(rd.checkpoints).quality == c.quality.status
            && Last(rd.checkpoints).delivery == c.context.delivery && Last(rd.checkpoints).writtenAt == c.judgedAt
            && rd.artifacts == map[TelemetryArtifact(c.started).0 := TelemetryBytes(c.started),
                                   PriorResearch := TextBytes(c.prior),
                                   MarketDataCollection := CollectionBytes(c.collection),
                                   TelemetryArtifact(c.collected).0 := TelemetryBytes(c.collected),
                                   DataQuality := QualityBytes(c.quality),
                                   TelemetryArtifact(c.judged).0 := TelemetryBytes(c.judged)]
            && TheContext(c) == c.context.(cutoff := rd.freeze, execution := Execution.AwaitingSynthesis,
                                           quality := c.quality.status)
  {
    AfterTwo(c);
    JudgedNames(c);
    BoundIsOtherwise(Judged3(c), c.judged);
    hide After2, WithTelemetry, Judged3;
  }

  predicate Unpacked(cp: Checkpoint) {
    ResearchPacket !in cp.artifacts && ReducedReport !in cp.artifacts && !cp.stage.Validating?
  }

  lemma BoundIsUnpacked(cp: Checkpoint, t: Telemetry)
    requires Unpacked(cp) && TelemetryNames(cp.artifacts) == {}
    ensures Unpacked(WithTelemetry(cp, t))
  {
  }

  lemma StartUnpacked(c: Course)
    ensures |After1(c).checkpoints| == 2 && forall k :: 0 <= k < 2 ==> Unpacked(After1(c).checkpoints[k])
  {
    AfterOne(c);
    ConfigNamesNoTelemetry(c);
    BoundIsUnpacked(StartCheckpoint(c.context), c.started);
    hide After1, WithTelemetry, LatestAt, TelemetryNames;
  }

  /** No checkpoint so far names a packet or a fallback. */
  lemma AllUnpacked(c: Course, k: nat)
    requires c.context.cutoff.None? && k < 5
    ensures |After3(c).checkpoints| == 5 && Unpacked(After3(c).checkpoints[k])
  {
    StartUnpacked(c);
    AfterTwo(c);
    AfterThree(c);
    JudgedNames(c);
    CollectedNames(c);
    BoundIsUnpacked(Fixed2(c), c.collected);
    BoundIsUnpacked(Judged3(c), c.judged);
    hide After1, After2, After3, WithTelemetry, LatestAt, TelemetryNames;
    if k < 2 {
      assert After3(c).checkpoints[k] == After2(c).checkpoints[..2][k];
    }
    hide Judged3;
  }

  lemma NoPacketYet(c: Course)
    requires c.context.cutoff.None?
    ensures StoredPacketHash(After3(c).checkpoints).None?
    ensures Attempts(After3(c).checkpoints) == []
    ensures ReducedReport !in Last(After3(c).checkpoints).artifacts
  {
    AfterThree(c);
    hide After3;
    forall k | 0 <= k < 5 ensures Unpacked(After3(c).checkpoints[k]) {
      AllUnpacked(c, k);
    }
    NonePacked(After3(c).checkpoints);
  }

  lemma {:induction false} NonePacked(cps: seq<Checkpoint>)
    requires forall k :: 0 <= k < |cps| ==> ResearchPacket !in cps[k].artifacts && !cps[k].stage.Validating?
    ensures StoredPacketHash(cps).None? && Attempts(cps) == []
  {
    if cps != [] { NonePacked(cps[..|cps| - 1]); }
  }

  function Packed4(e: Engine, c: Course): Checkpoint {
    PacketCheckpoint(ThePacket(c), e.base(ThePacket(c)), c.packedAt)
  }

  /** The directory with a packet and its fallback staged. */
  function Filled(e: Engine, rd: RunDir, packet: Packet): RunDir {
    WithArtifact(WithArtifact(rd, ResearchPacket, PacketBytes(packet)), ReducedReport, TextBytes(e.base(packet)))
  }

  function Staged4(e: Engine, c: Course): RunDir {
    Filled(e, After3(c), ThePacket(c))
  }

  lemma PackedNames(e: Engine, c: Course)
    requires c.context.cutoff.None?
    ensures var cp := Packed4(e, c);
            && TelemetryNames(cp.artifacts) == {}
            && cp.artifacts == map[ResearchPacket := Sha256(PacketBytes(ThePacket(c))),
                                   ReducedReport := Sha256(TextBytes(e.base(ThePacket(c))))]
            && cp.artifacts.Keys == {ResearchPacket, ReducedReport}
            && cp.revision == c.context.revision && cp.stage.AwaitingSynthesis? && cp.execution.AwaitingSynthesis?
            && cp.quality == c.quality.status && cp.delivery == c.context.delivery && cp.writtenAt == c.packedAt
            && cp.cutoff == Some(c.collection.completedAt) && !cp.resumable
  {
    AfterThree(c);
    hide After3;
  }

  lemma PacketIsStaged(e: Engine, c: Course)
    requires c.context.cutoff.None?
    ensures TelemetryFits(Staged4(e, c), c.packed)
    ensures StagedMatches(Ready4(e, c).artifacts, WithTelemetry(Packed4(e, c), c.packed).artifacts)
    ensures CurrentPacketHash(Ready4(e, c)) == Some(Sha256(PacketBytes(ThePacket(c))))
  {
    AfterThree(c);
    NoPacketYet(c);
    PackedNames(e, c);
    hide After3, Packed4, WithTelemetry, StoredPacketHash, Attempts, TheContext, ThePacket;
    BoundIsStaged(Staged4(e, c), Packed4(e, c), c.packed);
  }

  /** The directory just before the packet's checkpoint is appended. */
  function Ready4(e: Engine, c: Course): RunDir {
    WithArtifact(Staged4(e, c), TelemetryArtifact(c.packed).0, TelemetryArtifact(c.packed).1)
  }

  lemma PacketIsAdmitted(e: Engine, p: Rules, c: Course)
    requires GoodCourse(p, c)
    ensures Admits(Ready4(e, c), WithTelemetry(Packed4(e, c), c.packed))
  {
    var cp := Packed4(e, c);
    AfterThree(c);
    NoPacketYet(c);
    PackedNames(e, c);
    PacketIsStaged(e, c);
    BoundNames(cp, c.packed);
    BoundIsOtherwise(cp, c.packed);
    KeptName(cp, c.packed, ResearchPacket);
    KeptName(cp, c.packed, ReducedReport);
    hide After3, Packed4, WithTelemetry, Business, StoredPacketHash, Attempts, TheContext, ThePacket, StagedMatches,
         CurrentPacketHash, TelemetryFits;
    assert SynthesisStep(Ready4(e, c), WithTelemetry(cp, c.packed)) by { hide Admits; }
    hide SynthesisStep, Admits, TelemetryNamed;
    StepAdmits(Ready4(e, c), WithTelemetry(cp, c.packed));
  }

  lemma TelemetryAfterThree(s: DateStore, c: Course)
    requires c.context.cutoff.None?
    ensures !LatestTelemetry(Put(s, c.context.revision, After3(c)), After3(c).checkpoints).Malformed?
  {
    AfterThree(c);
    JudgedNames(c);
    hide After3, WithTelemetry, Judged3, LatestTelemetry;
    TelemetryContinues(s, c.context.revision, After3(c), After3(c).checkpoints, 4, Judged3(c), c.judged);
  }

  lemma PacketFitsNow(e: Engine, p: Rules, s: DateStore, c: Course)
    requires GoodCourse(p, c)
    ensures PacketFits(Put(s, c.context.revision, After3(c)), ThePacket(c), c.packedAt)
    ensures ThePacket(c).run.revision == c.context.revision
    ensures Load(Put(s, c.context.revision, After3(c)), c.context.revision) == LoadDir(After3(c), false)
    ensures After3(c).checkpoints != [] && Last(After3(c).checkpoints).stage.QualityEvaluated?
    ensures After3(c).context.Some?
  {
    AfterThree(c);
    TelemetryAfterThree(s, c);
    LoadPut(s, c.context.revision, After3(c));
    hide After3, LatestTelemetry, TheContext;
  }

  /** Stage a packet and its fallback, then append the checkpoint bound to them. */
  lemma StagePacketCalmly(e: Engine, s: DateStore, rd: RunDir, packet: Packet, at: Instant, t: Telemetry)
    requires PacketFits(Put(s, packet.run.revision, rd), packet, at)
    requires rd.context.Some? && rd.checkpoints != [] && !StageAwaitsSynthesis(Last(rd.checkpoints).stage)
    requires ResearchPacket !in rd.artifacts && ReducedReport !in rd.artifacts
    requires var staged := Filled(e, rd, packet);
             && TelemetryFits(staged, t)
             && Admits(WithArtifact(staged, TelemetryArtifact(t).0, TelemetryArtifact(t).1),
                       WithTelemetry(PacketCheckpoint(packet, e.base(packet), at), t))
    ensures StagePacket(e, Put(s, packet.run.revision, rd), packet, at, t, Calm())
            == (Put(s, packet.run.revision,
                    Bound(Filled(e, rd, packet), PacketCheckpoint(packet, e.base(packet), at), t)), Ok(()))
  {
    hide StageAll, StageArtifact, AppendCheckpoint, AppendIfCurrent, WithTelemetry, PacketFits, PacketRecorded, Admits,
         TelemetryFits, Bound;
    var rev, base := packet.run.revision, TextBytes(e.base(packet));
    var once := WithArtifact(rd, ResearchPacket, PacketBytes(packet));
    StageOneOrTwo(Put(s, rev, rd), rev, Some((ResearchPacket, PacketBytes(packet))), (ReducedReport, base), Calm());
    assert [(ResearchPacket, PacketBytes(packet))] + [(ReducedReport, base)]
           == [(ResearchPacket, PacketBytes(packet)), (ReducedReport, base)];
    StageCalmly(s, rev, rd, ResearchPacket, PacketBytes(packet), NoFault);
    StageCalmly(s, rev, once, ReducedReport, base, NoFault);
    LoadPut(s, rev, rd);
    hide Put, WithArtifact;
    BindCalmly(s, rev, Filled(e, rd, packet), PacketCheckpoint(packet, e.base(packet), at), t, NoFault, NoFault);
  }

  lemma PacketCalmly(e: Engine, p: Rules, s: DateStore, c: Course)
    requires GoodCourse(p, c)
    ensures StagePacket(e, Put(s, c.context.revision, After3(c)), ThePacket(c), c.packedAt, c.packed, Calm())
            == (Put(s, c.context.revision, After4(e, c)), Ok(()))
  {
    PacketFitsNow(e, p, s, c);
    PacketIsStaged(e, c);
    PacketIsAdmitted(e, p, c);
    NamesAreFree(c);
    hide After3, WithTelemetry, StagePacket, ThePacket, PacketFits, Admits, TelemetryFits, Load, GoodCourse, Put;
    StagePacketCalmly(e, s, After3(c), ThePacket(c), c.packedAt, c.packed);
  }

  lemma NamesAreFree(c: Course)
    requires c.context.cutoff.None?
    ensures ResearchPacket !in After3(c).artifacts && ReducedReport !in After3(c).artifacts
            && OperationalReason !in After3(c).artifacts && ReducedReasonName !in After3(c).artifacts
  {
    AfterThree(c);
    hide After3;
  }

  // ---- The whole call ----

  /** The answers of one call that gets this course up to its quality. */
  ghost predicate Reaches(a: Answers, p: Rules, c: Course) {
    && a.retryWindow.InWindow? && !a.missedAtStart && !a.calendarDown
    && !a.expired(0) && !a.expired(1) && !p.providerTimedOut(c.collection)
    && a.prior == c.prior && a.now(2) == c.chosenAt
    && a.collect == Given(c.collection) && a.measured(3) == c.collected
    && a.quality == Given(c.quality) && a.now(4) == c.judgedAt && a.measured(4) == c.judged
    && forall k :: 2 <= k <= 4 ==> a.env(k) == Calm()
  }

  /** The answers of one call that gets the whole course. */
  ghost predicate Follows(a: Answers, p: Rules, c: Course) {
    && Reaches(a, p, c)
    && !a.expired(2) && !a.expired(3)
    && a.build(TheContext(c), c.collection, c.quality, c.prior) == Given(c.body)
    && a.now(6) == c.packedAt && a.measured(5) == c.packed && a.env(5) == Calm()
  }

  /** The last two phases put together. */
  lemma EvaluateSteps(e: Engine, p: Rules, s: DateStore, run: RunContext, collection: Collection, prior: string,
                      a: Answers, s1: DateStore, quality: QualityResult, packet: Packet, s2: DateStore, before: Stored,
                      after: Stored)
    requires !a.expired(2) && !a.expired(3) && !quality.status.Fail?
    requires CheckpointQuality(p, s, run, a.quality, a.now(4), a.measured(4), a.env(4)) == (s1, Ok(quality))
    requires Load(s1, run.revision) == Some(before) && before.checkpoints != [] && packet.plans == []
    requires packet.run == ComposeRun(before.run, Last(before.checkpoints)).(execution := Execution.AwaitingSynthesis)
    requires a.build(packet.run, collection, quality, prior) == Given(packet.body)
    requires StagePacket(e, s1, packet, a.now(6), a.measured(5), a.env(5)) == (s2, Ok(()))
    requires Load(s2, run.revision) == Some(after)
    ensures Evaluate(e, p, s, run, collection, prior, a) == (s2, Ok(PacketReady(after, packet)))
  {
    hide CheckpointQuality, StagePacket, Load, OperationalFailure;
  }

  lemma EvaluateCalmly(e: Engine, p: Rules, s: DateStore, c: Course, a: Answers)
    requires GoodCourse(p, c) && Follows(a, p, c)
    ensures Evaluate(e, p, Put(s, c.context.revision, After2(c)), LoadDir(After2(c), false).value.run, c.collection,
                     c.prior, a)
            == (Put(s, c.context.revision, After4(e, c)), Ok(PacketReady(LoadDir(After4(e, c), false).value, ThePacket(c))))
  {
    var rev, run := c.context.revision, LoadDir(After2(c), false).value.run;
    AfterTwo(c);
    QualityCalmly(p, s, c);
    PacketCalmly(e, p, s, c);
    PacketFitsNow(e, p, s, c);
    LoadPut(s, rev, After4(e, c));
    assert LoadDir(After3(c), false).Some? && LoadDir(After4(e, c), false).Some? && run.revision == rev by {
      AfterThree(c);
      AfterFour(e, c);
      hide After2, After3, After4;
    }
    hide After2, After3, After4, CheckpointQuality, StagePacket, Load, PacketFits, Put, Evaluate, LoadDir;
    EvaluateSteps(e, p, Put(s, rev, After2(c)), run, c.collection, c.prior, a, Put(s, rev, After3(c)), c.quality,
                  ThePacket(c), Put(s, rev, After4(e, c)), LoadDir(After3(c), false).value,
                  LoadDir(After4(e, c), false).value);
  }

  lemma AssembleReaches(e: Engine, p: Rules, s: DateStore, c: Course, a: Answers)
    requires Timely(p, c) && Reaches(a, p, c)
    ensures After2(c).context.Some?
    ensures Assemble(e, p, Put(s, c.context.revision, After0(c)), c.context, a)
            == Evaluate(e, p, Put(s, c.context.revision, After2(c)), LoadDir(After2(c), false).value.run, c.collection,
                        c.prior, a)
  {
    AfterTwo(c);
    PriorCalmly(p, s, c);
    CollectCalmly(p, s, c);
    hide After0, After1, After2, After3, FreezePrior, CollectAndFreeze, Evaluate, Timely;
  }

  lemma AssembleCalmly(e: Engine, p: Rules, s: DateStore, c: Course, a: Answers)
    requires GoodCourse(p, c) && Follows(a, p, c)
    ensures Assemble(e, p, Put(s, c.context.revision, After0(c)), c.context, a)
            == (Put(s, c.context.revision, After4(e, c)), Ok(PacketReady(LoadDir(After4(e, c), false).value, ThePacket(c))))
  {
    AssembleReaches(e, p, s, c, a);
    EvaluateCalmly(e, p, s, c, a);
    hide After0, After2, After4, Assemble, Evaluate, Timely, ThePacket, Put;
  }

  lemma StartedIsClean(c: Course)
    requires c.context.cutoff.None?
    ensures var rd := After0(c);
            && rd.context.Some? && LoadDir(rd, false).value.run == c.context && !LoadDir(rd, false).value.published
            && rd.checkpoints != [] && Last(rd.checkpoints).stage.ConfigFrozen?
            && ResearchPacket !in rd.artifacts && OperationalReason !in rd.artifacts
            && LoadDir(rd, false).value.checkpoints == rd.checkpoints
  {
  }

  /** A call on a run that nothing was staged for yet goes through the phases. */
  lemma PrepareAssembles(e: Engine, p: Rules, s: DateStore, rev: nat, a: Answers, stored: Stored)
    requires Load(s, rev) == Some(stored) && !stored.published && stored.checkpoints != []
    requires Last(stored.checkpoints).stage.ConfigFrozen?
    requires ReadStaged(s, rev, ResearchPacket).None? && ReadStaged(s, rev, OperationalReason).None?
    requires a.retryWindow.InWindow? && !a.missedAtStart && !a.calendarDown
    requires var r := Assemble(e, p, s, stored.run, a).1; !(r.Rejected? && r.failure.Aborted?)
    ensures Prepare(e, p, s, rev, a) == Assemble(e, p, s, stored.run, a)
  {
    hide Assemble, Load, ReadStaged, OperationalFailure, ReusePacket, ResumeFailure, PublishedResult;
  }

  /**
   From a started run an undisturbed call hands off the packet: every checkpoint it appends is
   admitted, and what it staged on the way is exactly what it was given.
   */
  lemma PreparationHandsOff(e: Engine, p: Rules, s: DateStore, c: Course, a: Answers)
    requires GoodCourse(p, c) && Follows(a, p, c)
    ensures Prepare(e, p, Put(s, c.context.revision, After0(c)), c.context.revision, a)
            == (Put(s, c.context.revision, After4(e, c)), Ok(PacketReady(LoadDir(After4(e, c), false).value, ThePacket(c))))
  {
    var rev, rd := c.context.revision, After0(c);
    AssembleCalmly(e, p, s, c, a);
    StartedIsClean(c);
    LoadPut(s, rev, rd);
    hide After0, After3, After4, Assemble, Load, ReadStaged, ThePacket, Prepare, GoodCourse, Put;
    PrepareAssembles(e, p, Put(s, rev, rd), rev, a, LoadDir(rd, false).value);
  }

  lemma AfterFour(e: Engine, c: Course)
    requires c.context.cutoff.None?
    ensures var rd, packet := After4(e, c), ThePacket(c);
            && rd.context == Some(c.context) && rd.freeze == Some(c.collection.completedAt)
            && rd.checkpoints == After3(c).checkpoints + [WithTelemetry(Packed4(e, c), c.packed)]
            && Last(rd.checkpoints) == WithTelemetry(Packed4(e, c), c.packed)
            && rd.artifacts == After3(c).artifacts[ResearchPacket := PacketBytes(packet)]
                                 [ReducedReport := TextBytes(e.base(packet))]
                                 [TelemetryArtifact(c.packed).0 := TelemetryBytes(c.packed)]
            && Attempts(rd.checkpoints) == []
            && StoredPacketHash(rd.checkpoints) == Some(Sha256(PacketBytes(packet)))
            && packet.run == c.context.(cutoff := rd.freeze, execution := Execution.AwaitingSynthesis,
                                        quality := c.quality.status)
  {
    AfterThree(c);
    NoPacketYet(c);
    PackedNames(e, c);
    BoundIsOtherwise(Packed4(e, c), c.packed);
    KeptName(Packed4(e, c), c.packed, ResearchPacket);
    AttemptsAppend(After3(c).checkpoints, WithTelemetry(Packed4(e, c), c.packed));
    PacketHash(After3(c).checkpoints, WithTelemetry(Packed4(e, c), c.packed));
    hide WithTelemetry, Packed4, StoredPacketHash, Attempts;
  }

  lemma PacketHash(cps: seq<Checkpoint>, cp: Checkpoint)
    requires ResearchPacket in cp.artifacts
    ensures StoredPacketHash(cps + [cp]) == Some(cp.artifacts[ResearchPacket])
  {
  }

  // ---- The fallback ----

  function ReasonStaged(e: Engine, c: Course): RunDir {
    WithArtifact(After4(e, c), ReducedReasonName, ReasonBytes(SynthesisUnavailable))
  }

  function Named5(e: Engine, c: Course): map<Name, Digest> {
    Last(After4(e, c).checkpoints).artifacts[ReducedReasonName := Sha256(ReasonBytes(SynthesisUnavailable))]
  }

  /** The final checkpoint before its telemetry. */
  function Final5(e: Engine, c: Course, at: Instant): Checkpoint {
    var run := ThePacket(c).run;
    Checkpoint(run.revision, Stage.Published, Execution.Published, run.quality, run.delivery, at, run.cutoff,
               Named5(e, c), false)
  }

  /** Telemetry put onto, and then replaced on, a map that names none. */
  lemma ReboundNames(base: map<Name, Digest>, cp: Checkpoint, before: Telemetry, t: Telemetry)
    requires TelemetryNames(base) == {}
    requires cp.artifacts == base[TelemetryArtifact(before).0 := TelemetryDigest(before)]
    ensures var m := WithTelemetry(cp, t).artifacts;
            && TelemetryNames(m) == {TelemetryArtifact(t).0} && TelemetryNamed(m)
            && Business(cp.artifacts) == base && Business(m) == base
            && m == base[TelemetryArtifact(t).0 := TelemetryDigest(t)]
  {
    assert forall n :: n in base ==> !n.TelemetryName? || n in TelemetryNames(base);
    assert Business(cp.artifacts) == base;
    var m := WithTelemetry(cp, t).artifacts;
    assert m == base[TelemetryArtifact(t).0 := TelemetryDigest(t)];
    assert TelemetryNames(m) == {TelemetryArtifact(t).0};
  }

  function FinalNames(e: Engine, c: Course): map<Name, Digest> {
    Packed4(e, c).artifacts[ReducedReasonName := Sha256(ReasonBytes(SynthesisUnavailable))]
  }

  lemma PreviousNames(e: Engine, c: Course)
    requires c.context.cutoff.None?
    ensures var previous := Last(After4(e, c).checkpoints);
            && previous.artifacts == Packed4(e, c).artifacts[TelemetryArtifact(c.packed).0 := TelemetryDigest(c.packed)]
            && Business(previous.artifacts) == Packed4(e, c).artifacts
            && Named5(e, c) == FinalNames(e, c)[TelemetryArtifact(c.packed).0 := TelemetryDigest(c.packed)]
            && TelemetryNames(FinalNames(e, c)) == {}
  {
    AfterFour(e, c);
    PackedNames(e, c);
    BoundNames(Packed4(e, c), c.packed);
    PackedBinding(e, c);
    hide After4, After3, Packed4, WithTelemetry, Business, StoredPacketHash, Attempts;
    assert forall n :: n in Packed4(e, c).artifacts ==> !n.TelemetryName?;
  }

  lemma FinalNames5(e: Engine, c: Course, at: Instant, t: Telemetry)
    requires c.context.cutoff.None?
    ensures var cp, previous := WithTelemetry(Final5(e, c, at), t), Last(After4(e, c).checkpoints);
            && TelemetryNames(cp.artifacts) == {TelemetryArtifact(t).0}
            && TelemetryNamed(cp.artifacts)
            && Business(previous.artifacts) == Packed4(e, c).artifacts
            && Business(cp.artifacts) == FinalNames(e, c)
            && cp.artifacts == FinalNames(e, c)[TelemetryArtifact(t).0 := TelemetryDigest(t)]
            && TelemetryFits(ReasonStaged(e, c), t)
  {
    PreviousNames(e, c);
    FinalFits(e, c, t);
    hide After4, Packed4, WithTelemetry, Business, TelemetryFits, FinalNames, Named5, TelemetryNames, TelemetryNamed;
    ReboundNames(FinalNames(e, c), Final5(e, c, at), c.packed, t);
  }

  lemma FourFits(e: Engine, c: Course, t: Telemetry)
    requires c.context.cutoff.None?
    ensures TelemetryFits(After4(e, c), t)
  {
    AfterThree(c);
    AfterFour(e, c);
    hide After3, After4, WithTelemetry, Packed4, StoredPacketHash, Attempts;
  }

  lemma FitsLater(rd: RunDir, name: Name, payload: Payload, t: Telemetry)
    requires TelemetryFits(rd, t)
    requires name.TelemetryName? ==> exists u :: (name, payload) == TelemetryArtifact(u)
    ensures TelemetryFits(WithArtifact(rd, name, payload), t)
  {
  }

  lemma FinalFits(e: Engine, c: Course, t: Telemetry)
    requires c.context.cutoff.None?
    ensures TelemetryFits(ReasonStaged(e, c), t)
  {
    FourFits(e, c, t);
    FitsLater(After4(e, c), ReducedReasonName, ReasonBytes(SynthesisUnavailable), t);
    hide After4, TelemetryFits;
  }

  lemma PackedBinding(e: Engine, c: Course)
    requires c.context.cutoff.None?
    ensures WithTelemetry(Packed4(e, c), c.packed).artifacts
            == Packed4(e, c).artifacts[TelemetryArtifact(c.packed).0 := TelemetryDigest(c.packed)]
  {
    PackedNames(e, c);
    hide Packed4;
    assert Business(Packed4(e, c).artifacts) == Packed4(e, c).artifacts;
  }

  /** The directory just before the final checkpoint is appended. */
  function Full5(e: Engine, c: Course, t: Telemetry): RunDir {
    WithArtifact(ReasonStaged(e, c), TelemetryArtifact(t).0, TelemetryArtifact(t).1)
  }

  lemma FinalIsStaged(e: Engine, c: Course, at: Instant, t: Telemetry)
    requires c.context.cutoff.None?
    ensures StagedMatches(Full5(e, c, t).artifacts, WithTelemetry(Final5(e, c, at), t).artifacts)
    ensures ResearchPacket in Full5(e, c, t).artifacts
            && Full5(e, c, t).artifacts[ResearchPacket] == PacketBytes(ThePacket(c))
  {
    AfterFour(e, c);
    PackedNames(e, c);
    FinalNames5(e, c, at, t);
    hide After3, After4, Packed4, WithTelemetry, Business, StoredPacketHash, Attempts, TelemetryFits, Named5, ThePacket;
  }

  lemma FinalIsReduced(e: Engine, c: Course, at: Instant, t: Telemetry)
    requires c.context.cutoff.None?
    ensures ReducedPublication(Full5(e, c, t), WithTelemetry(Final5(e, c, at), t))
  {
    AfterFour(e, c);
    PackedNames(e, c);
    FinalNames5(e, c, at, t);
    BoundIsOtherwise(Final5(e, c, at), t);
    BoundIsOtherwise(Packed4(e, c), c.packed);
    KeptName(Packed4(e, c), c.packed, ReducedReport);
    hide After3, After4, Packed4, WithTelemetry, Business, StoredPacketHash, Attempts, TelemetryFits, Named5, ThePacket,
         TelemetryNamed;
  }

  lemma FinalKeepsFallback(e: Engine, c: Course, at: Instant, t: Telemetry)
    requires c.context.cutoff.None?
    ensures var previous := Last(Full5(e, c, t).checkpoints);
            var cp := WithTelemetry(Final5(e, c, at), t);
            && ReducedReport in previous.artifacts && ReducedReport in cp.artifacts
            && cp.artifacts[ReducedReport] == previous.artifacts[ReducedReport]
            && ResearchPacket in cp.artifacts && cp.artifacts[ResearchPacket] == Sha256(PacketBytes(ThePacket(c)))
            && previous.quality == c.quality.status && previous.delivery == c.context.delivery
            && previous.writtenAt == c.packedAt
  {
    AfterFour(e, c);
    PackedNames(e, c);
    FinalNames5(e, c, at, t);
    BoundIsOtherwise(Packed4(e, c), c.packed);
    KeptName(Packed4(e, c), c.packed, ReducedReport);
    hide After3, After4, Packed4, WithTelemetry, Business, StoredPacketHash, Attempts, TelemetryFits, Named5, ThePacket,
         TelemetryNamed, Final5;
  }

  lemma FinalIsAdmitted(e: Engine, p: Rules, c: Course, at: Instant, t: Telemetry)
    requires GoodCourse(p, c) && at >= c.packedAt
    ensures Admits(Full5(e, c, t), WithTelemetry(Final5(e, c, at), t))
  {
    AfterFour(e, c);
    FinalIsStaged(e, c, at, t);
    FinalIsReduced(e, c, at, t);
    FinalKeepsFallback(e, c, at, t);
    FinalNames5(e, c, at, t);
    BoundIsOtherwise(Final5(e, c, at), t);
    hide After3, After4, Packed4, WithTelemetry, Business, StoredPacketHash, Attempts, TelemetryFits, Named5,
         StagedMatches, ReducedPublication, TelemetryNamed, ThePacket;
    var full, cp := Full5(e, c, t), WithTelemetry(Final5(e, c, at), t);
    assert SynthesisStep(full, cp) by { hide Admits; }
    hide SynthesisStep, Admits;
    StepAdmits(full, cp);
  }

  function After5(e: Engine, c: Course, at: Instant, t: Telemetry): RunDir {
    Bound(ReasonStaged(e, c), Final5(e, c, at), t)
  }

  function FallbackBundle(e: Engine, c: Course, at: Instant, t: Telemetry): Bundle {
    var packet := ThePacket(c);
    MakeBundle(ComposeRun(LoadDir(After4(e, c), false).value.run, WithTelemetry(Final5(e, c, at), t)),
               ReducedContents(packet, SynthesisUnavailable, BaseSha(e, packet), BlockedPlans(packet, SynthesisUnavailable), []),
               t, TelemetryDigest(t), e.reduced(packet, SynthesisUnavailable))
  }

  lemma FallbackIsStaged(e: Engine, p: Rules, s: DateStore, c: Course)
    requires GoodCourse(p, c)
    ensures StagedPacket(Put(s, c.context.revision, After4(e, c)), ThePacket(c),
                         {Stage.AwaitingSynthesis, Stage.Validating, Stage.Published})
  {
    AfterFour(e, c);
    PackedNames(e, c);
    BoundIsOtherwise(Packed4(e, c), c.packed);
    KeptName(Packed4(e, c), c.packed, ResearchPacket);
    LoadPut(s, c.context.revision, After4(e, c));
    hide After3, After4, Packed4, WithTelemetry, StoredPacketHash, Attempts, ThePacket, Put, Load, ReadStaged;
  }

  lemma FallbackIsReady(e: Engine, p: Rules, s: DateStore, c: Course, at: Instant)
    requires GoodCourse(p, c) && at >= c.packedAt
    ensures ReducedReady(e, Put(s, c.context.revision, After4(e, c)), ThePacket(c), SynthesisUnavailable, at)
  {
    var rev, rd, packet := c.context.revision, After4(e, c), ThePacket(c);
    FallbackIsStaged(e, p, s, c);
    AfterFour(e, c);
    PackedNames(e, c);
    BoundIsOtherwise(Packed4(e, c), c.packed);
    KeptName(Packed4(e, c), c.packed, ReducedReport);
    LoadPut(s, rev, rd);
    assert RecordedReports(e, Put(s, rev, rd), packet, []) == Some([]);
    hide After3, After4, Packed4, WithTelemetry, StoredPacketHash, Attempts, ThePacket, Put, Load, ReadStaged, StagedPacket,
         RecordedReports;
  }

  lemma FallbackKeepsTelemetry(e: Engine, s: DateStore, c: Course)
    requires c.context.cutoff.None?
    ensures !LatestTelemetry(Put(s, c.context.revision, After4(e, c)), After4(e, c).checkpoints).Malformed?
  {
    AfterFour(e, c);
    PackedNames(e, c);
    hide After3, After4, Packed4, WithTelemetry, StoredPacketHash, Attempts, LatestTelemetry, ThePacket, Put;
    var rd := After4(e, c);
    TelemetryContinues(s, c.context.revision, rd, rd.checkpoints, |rd.checkpoints| - 1, Packed4(e, c), c.packed);
  }

  lemma ReducedCloses(e: Engine, s: DateStore, stored: Stored, packet: Packet, reason: ReducedReason, at: Instant,
                      t: Telemetry)
    requires Load(s, packet.run.revision) == Some(stored) && !stored.published && stored.checkpoints != []
    requires !Last(stored.checkpoints).stage.Published? && !packet.run.quality.Fail?
    requires ReducedReady(e, s, packet, reason, at) && !LatestTelemetry(s, stored.checkpoints).Malformed?
    requires Attempts(stored.checkpoints) == []
    ensures var run, latest := packet.run, Last(stored.checkpoints);
            var named := latest.artifacts[ReducedReasonName := Sha256(ReasonBytes(reason))];
            var cp := WithTelemetry(Checkpoint(run.revision, Stage.Published, Execution.Published, run.quality,
                                               run.delivery, at, run.cutoff, named, false), t);
            PlanReduced(e, s, packet, reason, at, t)
            == Close([(ReducedReasonName, ReasonBytes(reason)), TelemetryArtifact(t)], cp, |stored.checkpoints|,
                     MakeBundle(ComposeRun(stored.run, cp),
                                ReducedContents(packet, reason, BaseSha(e, packet), BlockedPlans(packet, reason), []),
                                t, TelemetryDigest(t), e.reduced(packet, reason)))
  {
    hide ReducedReadyFrom, LatestTelemetry, Attempts, Load, WithTelemetry, AlreadyReduced, MakeBundle, BlockedPlans, ComposeRun;
    assert RecordedReports(e, s, packet, []) == Some([]);
    assert [(ReducedReasonName, ReasonBytes(reason))] + [TelemetryArtifact(t)]
           == [(ReducedReasonName, ReasonBytes(reason)), TelemetryArtifact(t)];
  }

  lemma FallbackIsPlanned(e: Engine, p: Rules, s: DateStore, c: Course, at: Instant, t: Telemetry)
    requires GoodCourse(p, c) && at >= c.packedAt
    ensures PlanReduced(e, Put(s, c.context.revision, After4(e, c)), ThePacket(c), SynthesisUnavailable, at, t)
            == Close([(ReducedReasonName, ReasonBytes(SynthesisUnavailable)), TelemetryArtifact(t)],
                     WithTelemetry(Final5(e, c, at), t), |After4(e, c).checkpoints|, FallbackBundle(e, c, at, t))
  {
    var rev, rd := c.context.revision, After4(e, c);
    AfterFour(e, c);
    PackedNames(e, c);
    BoundIsOtherwise(Packed4(e, c), c.packed);
    FallbackIsReady(e, p, s, c, at);
    FallbackKeepsTelemetry(e, s, c);
    LoadPut(s, rev, rd);
    hide After3, After4, Packed4, WithTelemetry, StoredPacketHash, Attempts, LatestTelemetry, ReducedReady, Put, Load,
         ReadStaged, PlanReduced, MakeBundle, BlockedPlans, ComposeRun, ThePacket;
    ReducedCloses(e, Put(s, rev, rd), LoadDir(rd, false).value, ThePacket(c), SynthesisUnavailable, at, t);
  }

  lemma FinalDirectory(e: Engine, c: Course, at: Instant, t: Telemetry)
    requires c.context.cutoff.None?
    ensures var rd := After5(e, c, at, t);
            && rd.context == Some(c.context) && rd.freeze == Some(c.collection.completedAt) && rd.checkpoints != []
            && Last(rd.checkpoints) == WithTelemetry(Final5(e, c, at), t)
            && PublishedArtifactsIntact(rd)
  {
    AfterFour(e, c);
    FinalIsStaged(e, c, at, t);
    hide After3, After4, WithTelemetry, StagedMatches, Final5, ThePacket, StoredPacketHash, Attempts, Packed4;
  }

  /** A run whose final checkpoint is admitted can be published as it then is. */
  lemma EndedIsPublishable(s: DateStore, rev: nat, rd: RunDir, cp: Checkpoint, contents: Contents, t: Telemetry,
                           markdown: string)
    requires rd.context.Some? && rd.context.value.revision == rev && rev !in s.finals
    requires StagedMatches(rd.artifacts, cp.artifacts)
    ensures var bundle := MakeBundle(ComposeRun(LoadDir(rd, false).value.run, cp), contents, t, TelemetryDigest(t), markdown);
            Publishable(Put(s, rev, Append(rd, cp)), bundle) && bundle.run.revision == rev && bundle.markdown == markdown
  {
    hide StagedMatches;
    assert Last(Append(rd, cp).checkpoints) == cp;
  }

  lemma FallbackIsPublishable(e: Engine, s: DateStore, c: Course, at: Instant, t: Telemetry)
    requires c.context.cutoff.None? && c.context.revision !in s.finals
    ensures Publishable(Put(s, c.context.revision, After5(e, c, at, t)), FallbackBundle(e, c, at, t))
    ensures FallbackBundle(e, c, at, t).run.revision == c.context.revision
  {
    var packet, cp := ThePacket(c), WithTelemetry(Final5(e, c, at), t);
    FinalIsStaged(e, c, at, t);
    assert After4(e, c).context == Some(c.context) by { AfterFour(e, c); }
    assert LoadDir(Full5(e, c, t), false).value.run == LoadDir(After4(e, c), false).value.run;
    hide After4, WithTelemetry, StagedMatches, Named5, ThePacket, BlockedPlans, Publishable, ComposeRun;
    EndedIsPublishable(s, c.context.revision, Full5(e, c, t), cp,
                       ReducedContents(packet, SynthesisUnavailable, BaseSha(e, packet),
                                       BlockedPlans(packet, SynthesisUnavailable), []),
                       t, e.reduced(packet, SynthesisUnavailable));
  }

  lemma PublishCalmly(s: DateStore, bundle: Bundle, now: Instant)
    requires Publishable(s, bundle) && bundle.run.revision !in s.index
    ensures var (s', r) := Publish(s, bundle, now, NoFault);
            && r.Ok? && GetPublished(s', bundle.run.revision) == Some((bundle.markdown, bundle))
            && GetReceipt(s', bundle.run.revision) == Some(r.value)
            && Load(s', bundle.run.revision) == LoadDir(s.staging[bundle.run.revision], true)
  {
  }

  lemma CloseCalmly(e: Engine, p: Rules, s: DateStore, c: Course, at: Instant, t: Telemetry,
                    env: Environment)
    requires env(0).NoFault? && env(1).NoFault? && env(2).NoFault?
    requires GoodCourse(p, c) && at >= c.packedAt
    ensures StageAndAppend(Put(s, c.context.revision, After4(e, c)), c.context.revision,
                           [(ReducedReasonName, ReasonBytes(SynthesisUnavailable)), TelemetryArtifact(t)],
                           WithTelemetry(Final5(e, c, at), t), |After4(e, c).checkpoints|, env)
            == (Put(s, c.context.revision, After5(e, c, at, t)), Ok(()))
  {
    AfterFour(e, c);
    NamesAreFree(c);
    FinalIsAdmitted(e, p, c, at, t);
    FinalNames5(e, c, at, t);
    FinalRevision(e, c, at);
    hide After3, After4, WithTelemetry, StageAndAppend, Admits, TelemetryFits, Final5, ThePacket, GoodCourse;
    BindTwoCalmly(s, c.context.revision, After4(e, c), ReducedReasonName, ReasonBytes(SynthesisUnavailable),
                  Final5(e, c, at), t, env);
  }

  lemma FinalRevision(e: Engine, c: Course, at: Instant)
    requires c.context.cutoff.None?
    ensures Final5(e, c, at).revision == c.context.revision
  {
    AfterFour(e, c);
    hide After3, After4;
  }

  lemma CloseThenPublish(s: DateStore, s1: DateStore, rev: nat, writes: Writes, cp: Checkpoint, expected: nat,
                         bundle: Bundle, now: Instant)
    requires StageAndAppend(s, rev, writes, cp, expected, Calm()) == (s1, Ok(()))
    requires Publishable(s1, bundle) && bundle.run.revision == rev && rev !in s1.index
    ensures var (s', r) := Perform(s, rev, Close(writes, cp, expected, bundle), now, Calm());
            && r.Ok? && r.value.Receipted?
            && GetReceipt(s', rev) == Some(r.value.receipt)
            && GetPublished(s', rev) == Some((bundle.markdown, bundle))
            && Load(s', rev) == LoadDir(s1.staging[rev], true)
  {
    hide StageAndAppend, Publish, GetPublished, GetReceipt, Load;
    PublishCalmly(s1, bundle, now);
  }

  /** After an undisturbed preparation the fallback is published, and readers are given exactly it. */
  lemma FallbackIsPublished(e: Engine, p: Rules, s: DateStore, c: Course, at: Instant, t: Telemetry)
    requires GoodCourse(p, c) && at >= c.packedAt
    requires c.context.revision !in s.finals && c.context.revision !in s.index
    ensures var rev := c.context.revision;
            var s4 := Put(s, rev, After4(e, c));
            var (s', r) := Perform(s4, rev, PlanReduced(e, s4, ThePacket(c), SynthesisUnavailable, at, t), at, Calm());
            && r.Ok? && r.value.Receipted?
            && GetReceipt(s', rev) == Some(r.value.receipt)
            && GetPublished(s', rev) == Some((e.reduced(ThePacket(c), SynthesisUnavailable), FallbackBundle(e, c, at, t)))
  {
    var rev := c.context.revision;
    FallbackIsPlanned(e, p, s, c, at, t);
    CloseCalmly(e, p, s, c, at, t, Calm());
    FallbackIsPublishable(e, s, c, at, t);
    hide After4, After5, PlanReduced, StageAndAppend, Publishable, GetPublished, GetReceipt, Final5, GoodCourse, Perform;
    CloseThenPublish(Put(s, rev, After4(e, c)), Put(s, rev, After5(e, c, at, t)), rev,
                     [(ReducedReasonName, ReasonBytes(SynthesisUnavailable)), TelemetryArtifact(t)],
                     WithTelemetry(Final5(e, c, at), t), |After4(e, c).checkpoints|, FallbackBundle(e, c, at, t), at);
  }

  /** The answers that give a call this course. */
  function AnswersOf(c: Course): Answers {
    Answers(InWindow, false, false,
            (k: nat) => if k == 2 then c.chosenAt else if k == 4 then c.judgedAt else c.packedAt,
            (k: nat) => false,
            c.prior, Given(c.collection), Given(c.quality),
            (run: RunContext, collection: Collection, quality: QualityResult, prior: string) => Given(c.body),
            (k: nat) => if k == 3 then c.collected else if k == 4 then c.judged else c.packed,
            (k: nat) => Calm())
  }

  /** The service call that ends the run of this course with its fallback. */
  function FallbackCall(c: Course, t: Telemetry, env: Environment): Served {
    Served(CallReduced(ThePacket(c), SynthesisUnavailable, c.packedAt), t, c.packedAt, env)
  }

  lemma AnswersFollow(p: Rules, c: Course)
    requires !p.providerTimedOut(c.collection)
    ensures Follows(AnswersOf(c), p, c)
  {
    hide TheContext;
  }

  /** The visit that starts the run of this course. */
  predicate StartsCourse(s: DateStore, invocation: Invocation, seed: RunContext, c: Course) {
    && Allocates(s, invocation) && Taken(s, invocation) !in s.orphans
    && c.context == NewContext(seed, Taken(s, invocation))
  }

  lemma StartVisit(e: Engine, p: Rules, s: DateStore, invocation: Invocation, seed: RunContext, c: Course)
    requires StartsCourse(s, invocation, seed, c)
    ensures After(e, p, s, VisitStart(invocation, seed, c.started, Calm())) == Put(s, c.context.revision, After0(c))
    ensures StartRun(s, invocation, seed, c.started, Calm()).1 == Ok(JustStored(c.context, c.started))
  {
    StartIsPlain(s, invocation, seed, c.started, Calm());
    hide StartRun, Started, JustStored, Allocates, Taken;
  }

  lemma PrepareVisit(e: Engine, p: Rules, s: DateStore, c: Course)
    requires GoodCourse(p, c) && !p.providerTimedOut(c.collection)
    ensures After(e, p, Put(s, c.context.revision, After0(c)), VisitPrepare(c.context.revision, AnswersOf(c)))
            == Put(s, c.context.revision, After4(e, c))
  {
    hide Prepare, After0, After4, Follows, GoodCourse, AnswersOf, ThePacket, Put;
    AnswersFollow(p, c);
    PreparationHandsOff(e, p, s, c, AnswersOf(c));
  }

  lemma FallbackIsServed(e: Engine, s: DateStore, c: Course, t: Telemetry, env: Environment)
    requires c.context.cutoff.None?
    ensures Serve(e, s, FallbackCall(c, t, env))
            == Perform(s, c.context.revision, PlanReduced(e, s, ThePacket(c), SynthesisUnavailable, c.packedAt, t),
                       c.packedAt, env)
  {
    PacketRevision(c);
    hide Perform, PlanReduced, PlanValidation, PlanSynthesized, PlanOperational, PlanFailure, ThePacket;
  }

  lemma PublishVisit(e: Engine, p: Rules, s: DateStore, c: Course, t: Telemetry)
    requires GoodCourse(p, c) && c.context.revision !in s.finals && c.context.revision !in s.index
    ensures var s' := After(e, p, Put(s, c.context.revision, After4(e, c)), VisitService(FallbackCall(c, t, Calm())));
            GetPublished(s', c.context.revision) == Some((e.reduced(ThePacket(c), SynthesisUnavailable),
                                                          FallbackBundle(e, c, c.packedAt, t)))
  {
    FallbackIsPublished(e, p, s, c, c.packedAt, t);
    FallbackIsServed(e, Put(s, c.context.revision, After4(e, c)), c, t, Calm());
    hide Serve, Perform, PlanReduced, Put, After4, GetPublished, GetReceipt, ThePacket, FallbackBundle, GoodCourse,
         FallbackCall, Calm;
  }

  lemma ThreeVisits(e: Engine, p: Rules, s: DateStore, first: Visit, second: Visit, third: Visit)
    ensures Visits(e, p, s, [first, second, third])
            == After(e, p, After(e, p, After(e, p, s, first), second), third)
  {
    hide After;
    var s1 := After(e, p, s, first);
    var s2 := After(e, p, s1, second);
    assert [first, second, third][1..] == [second, third] && [second, third][1..] == [third];
    assert Visits(e, p, s2, [third]) == Visits(e, p, After(e, p, s2, third), []);
    assert Visits(e, p, s1, [second, third]) == Visits(e, p, s2, [third]);
  }

  /**
   A run that is started, prepared and ended with its fallback is published, and readers are
   then given exactly that report: `PreparedEvidence` speaks of something.
   */
  lemma StartedRunIsPublished(e: Engine, p: Rules, s: DateStore, invocation: Invocation, seed: RunContext, c: Course,
                              t: Telemetry)
    requires StartsCourse(s, invocation, seed, c) && c.context.revision !in s.index
    requires GoodCourse(p, c) && !p.providerTimedOut(c.collection)
    ensures var rev := c.context.revision;
            var visits := [VisitStart(invocation, seed, c.started, Calm()), VisitPrepare(rev, AnswersOf(c)),
                           VisitService(FallbackCall(c, t, Calm()))];
            GetPublished(Visits(e, p, s, visits), rev) == Some((e.reduced(ThePacket(c), SynthesisUnavailable),
                                                                FallbackBundle(e, c, c.packedAt, t)))
  {
    var rev := c.context.revision;
    assert rev !in s.finals;
    StartVisit(e, p, s, invocation, seed, c);
    PrepareVisit(e, p, s, c);
    PublishVisit(e, p, s, c, t);
    ThreeVisits(e, p, s, VisitStart(invocation, seed, c.started, Calm()), VisitPrepare(rev, AnswersOf(c)),
                VisitService(FallbackCall(c, t, Calm())));
    hide *;
  }

  lemma PacketRevision(c: Course)
    requires c.context.cutoff.None?
    ensures ThePacket(c).run.revision == c.context.revision
  {
    AfterThree(c);
    hide After3;
  }
}
