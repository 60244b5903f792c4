/**
 Preparation as it runs: each phase reads the repository object, stages and appends step by
 step, and is proved to do exactly what `Preparation` specifies, wherever it is stopped.
 */
module PreparationService {
  import opened RunTypes
  import opened RunStore
  import opened RunRepository
  import opened Publication
  import opened PublicationService
  import opened Preparation
  import PreparedEvidence

  /** `freeze_prior_research` */
  method FreezePriorResearch(repository: FileSystemRunRepository, p: Rules, run: RunContext, chosen: string, at: Instant,
                             env: Environment)
    returns (r: Result<string>)
    modifies repository
    ensures (repository.Files(), r) == FreezePrior(p, old(repository.Files()), run, chosen, at, env)
  {
    hide Load, StageArtifact, AppendIfCurrent, BoundPriors, LatestAt;
    var s, rev := repository.Files(), run.revision;
    var stored, payload := Load(s, rev), ReadStaged(s, rev, PriorResearch);
    if stored.None? || stored.value.published || stored.value.run != run
       || (payload.Some? && !payload.value.TextBytes?)
    {
      return Rejected(InvalidRequest);
    }
    var cps := stored.value.checkpoints;
    if BoundPriors(cps) != {} {
      if payload.None? || BoundPriors(cps) != {Sha256(payload.value)} || !p.priorFits(run, payload.value.text) {
        return Rejected(InvalidRequest);
      }
      return Ok(payload.value.text);
    }
    if stored.value.cutoff.Some? || LatestAt(cps, Stage.EvidenceCollected).Some?
       || ReadStaged(s, rev, MarketDataCollection).Some?
    {
      return Rejected(InvalidRequest);
    }
    var selection := if payload.Some? then payload.value.text else chosen;
    if !p.priorFits(run, selection) || at < run.invokedAt || (cps != [] && at < Last(cps).writtenAt) {
      return Rejected(InvalidRequest);
    }
    var cp := ConfigCheckpoint(stored.value, selection, at);
    if payload.None? {
      StageOne(s, rev, (PriorResearch, TextBytes(selection)), env, 0);
      var staged := repository.Stage(rev, PriorResearch, TextBytes(selection), env(0));
      if !staged.Ok? {
        return Propagate(staged);
      }
    }
    var appended := repository.AppendIfCurrentCount(rev, cp, |cps|, env(if payload.None? then 1 else 0));
    r := if appended.Ok? then Ok(selection) else Propagate(appended);
  }

  /** `collect_and_freeze_market_data_for_run` */
  method CollectAndFreezeMarketData(repository: FileSystemRunRepository, p: Rules, run: RunContext,
                                    answer: Answer<Collection>, telemetry: Telemetry, env: Environment)
    returns (r: Result<(Stored, Collection)>)
    modifies repository
    ensures (repository.Files(), r) == CollectAndFreeze(p, old(repository.Files()), run, answer, telemetry, env)
  {
    hide Load, StageArtifact, LatestTelemetry, LatestAt, StoredCollection, BindAndFreeze;
    var s, rev := repository.Files(), run.revision;
    var stored := Load(s, rev);
    if stored.None? || stored.value.published || !SameButCutoff(stored.value.run, run)
       || LatestTelemetry(s, stored.value.checkpoints).Malformed?
       || (run.cutoff.Some? && run.cutoff != stored.value.cutoff)
    {
      return Rejected(InvalidRequest);
    }
    if stored.value.cutoff.Some? {
      var frozen := LoadFrozen(p, s, run);
      return if frozen.Some? then Ok(frozen.value) else Rejected(InvalidRequest);
    }
    var cps := stored.value.checkpoints;
    var collection: Collection;
    if LatestAt(cps, Stage.EvidenceCollected).Some? {
      var bound := StoredCollection(s, rev, cps);
      if bound.None? {
        return Rejected(InvalidRequest);
      }
      collection := bound.value;
    } else {
      var payload := ReadStaged(s, rev, MarketDataCollection);
      if payload.None? {
        if answer.Raises? {
          return Rejected(answer.failure);
        }
        collection := answer.given;
        var staged := repository.Stage(rev, MarketDataCollection, CollectionBytes(collection), env(0));
        if !staged.Ok? {
          return Propagate(staged);
        }
      } else if payload.value.CollectionBytes? {
        collection := payload.value.collection;
      } else {
        return Rejected(InvalidRequest);
      }
    }
    if collection.symbols != p.symbols(run.configuration) {
      return Rejected(InvalidRequest);
    }
    r := BindThenFreeze(repository, run, stored.value, collection, telemetry, env);
  }

  /** Bind the collection to its checkpoint, then freeze at its completion. */
  method BindThenFreeze(repository: FileSystemRunRepository, run: RunContext, stored: Stored, collection: Collection,
                        telemetry: Telemetry, env: Environment)
    returns (r: Result<(Stored, Collection)>)
    requires stored.run.revision == run.revision
    modifies repository
    ensures (repository.Files(), r) == BindAndFreeze(old(repository.Files()), run, stored, collection, telemetry, env)
  {
    hide StageArtifact, AppendIfCurrent, Freeze, LatestAt, WithTelemetry;
    var rev := run.revision;
    if LatestAt(stored.checkpoints, Stage.EvidenceCollected).None? {
      var bound := BindTelemetry(repository, CollectedCheckpoint(stored, collection), telemetry, env(1));
      if !bound.Ok? {
        return Propagate(bound);
      }
      var appended := repository.AppendIfCurrentCount(rev, bound.value, |stored.checkpoints|, env(2));
      if !appended.Ok? {
        return Propagate(appended);
      }
    }
    var frozen := repository.FreezeEvidence(rev, collection.completedAt, env(3));
    r := if frozen.Ok? then Ok((frozen.value, collection)) else Propagate(frozen);
  }

  /** `checkpoint_collected_market_data_quality` */
  method CheckpointMarketDataQuality(repository: FileSystemRunRepository, p: Rules, run: RunContext,
                                     answer: Answer<QualityResult>, at: Instant, telemetry: Telemetry, env: Environment)
    returns (r: Result<QualityResult>)
    modifies repository
    ensures (repository.Files(), r) == CheckpointQuality(p, old(repository.Files()), run, answer, at, telemetry, env)
  {
    hide StageArtifact, AppendIfCurrent, WithTelemetry, LatestTelemetry, LoadFrozen, QualityRecorded, ReadStaged;
    var s, rev := repository.Files(), run.revision;
    LoadedOfRun(p, s, run);
    var frozen := LoadFrozen(p, s, run);
    if frozen.None? || frozen.value.0.checkpoints == [] {
      return Rejected(InvalidRequest);
    }
    var (stored, collection) := frozen.value;
    var cps := stored.checkpoints;
    if LatestTelemetry(s, cps).Malformed? {
      return Rejected(InvalidRequest);
    }
    var existing := ReadStaged(s, rev, DataQuality);
    var quality: QualityResult;
    if existing.Some? {
      if !existing.value.QualityBytes? {
        return Rejected(InvalidRequest);
      }
      quality := existing.value.quality;
    } else if Last(cps).stage.QualityEvaluated? {
      return Rejected(InvalidRequest);
    } else if answer.Raises? {
      return Rejected(answer.failure);
    } else {
      quality := answer.given;
    }
    if at < stored.cutoff.value {
      return Rejected(InvalidRequest);
    }
    if Last(cps).stage.QualityEvaluated? {
      return if QualityRecorded(s, Last(cps), stored.cutoff, collection, quality) then Ok(quality)
             else Rejected(InvalidRequest);
    }
    if !Last(cps).stage.EvidenceFrozen? || Last(cps).cutoff != stored.cutoff || at < Last(cps).writtenAt {
      return Rejected(InvalidRequest);
    }
    StageTwoThings(s, rev, (DataQuality, QualityBytes(quality)), TelemetryArtifact(telemetry), env);
    var staged := repository.Stage(rev, DataQuality, QualityBytes(quality), env(0));
    if !staged.Ok? {
      return Propagate(staged);
    }
    var bound := BindTelemetry(repository, QualityCheckpoint(stored, collection, quality, at), telemetry, env(1));
    if !bound.Ok? {
      return Propagate(bound);
    }
    var appended := repository.AppendIfCurrentCount(rev, bound.value, |cps|, env(2));
    r := if appended.Ok? then Ok(quality) else Propagate(appended);
  }

  lemma LoadedOfRun(p: Rules, s: DateStore, run: RunContext)
    ensures LoadFrozen(p, s, run).Some? ==>
              LoadFrozen(p, s, run).value.0.run.revision == run.revision && LoadFrozen(p, s, run).value.0.cutoff.Some?
  {
  }

  lemma StageTwoThings(s: DateStore, rev: nat, first: (Name, Payload), last: (Name, Payload), env: Environment)
    ensures StageAll(s, rev, [first, last], env, 0)
            == (var (s1, r1) := StageArtifact(s, rev, first.0, first.1, env(0));
                if !r1.Ok? then (s1, Propagate(r1))
                else
                  var (s2, r2) := StageArtifact(s1, rev, last.0, last.1, env(1));
                  (s2, if r2.Ok? then Ok(()) else Propagate(r2)))
  {
    hide StageArtifact;
    StageOneOrTwo(s, rev, Some(first), last, env);
    assert [first] + [last] == [first, last];
  }

  /** `stage_research_packet` */
  method StageResearchPacket(repository: FileSystemRunRepository, e: Engine, packet: Packet, at: Instant,
                             telemetry: Telemetry, env: Environment)
    returns (r: Result<()>)
    modifies repository
    ensures (repository.Files(), r) == StagePacket(e, old(repository.Files()), packet, at, telemetry, env)
  {
    hide StageArtifact, AppendCheckpoint, WithTelemetry, PacketFits, PacketRecorded;
    var s, rev := repository.Files(), packet.run.revision;
    if !PacketFits(s, packet, at) {
      return Rejected(InvalidRequest);
    }
    FittingPacketHasLatest(s, packet, at);
    var latest, base := Last(Load(s, rev).value.checkpoints), e.base(packet);
    StageTwoThings(s, rev, (ResearchPacket, PacketBytes(packet)), (ReducedReport, TextBytes(base)), env);
    var staged := repository.Stage(rev, ResearchPacket, PacketBytes(packet), env(0));
    if !staged.Ok? {
      return Propagate(staged);
    }
    staged := repository.Stage(rev, ReducedReport, TextBytes(base), env(1));
    if !staged.Ok? {
      return Propagate(staged);
    }
    if StageAwaitsSynthesis(latest.stage) {
      return if PacketRecorded(latest, packet, base) then Ok(()) else Rejected(InvalidRequest);
    }
    var bound := BindTelemetry(repository, PacketCheckpoint(packet, base, at), telemetry, env(2));
    if !bound.Ok? {
      return Propagate(bound);
    }
    r := repository.AppendUnlocked(rev, bound.value, env(3));
  }

  lemma FittingPacketHasLatest(s: DateStore, packet: Packet, at: Instant)
    requires PacketFits(s, packet, at)
    ensures Load(s, packet.run.revision).Some? && Load(s, packet.run.revision).value.checkpoints != []
  {
  }

  /** The checkpoint a preparation leaves when it gives up on a run that is not FAIL yet. */
  method RecordFailure(repository: FileSystemRunRepository, rev: nat, code: ErrorCode, at: Instant, env: Environment)
    returns (r: Result<Reply>)
    modifies repository
    ensures (repository.Files(), r)
            == Perform(old(repository.Files()), rev, PlanFailure(old(repository.Files()), rev, code, at), at, env)
  {
    hide Load, StageArtifact, AppendIfCurrent;
    var s := repository.Files();
    var stored := Load(s, rev);
    if stored.None? || stored.value.published || stored.value.checkpoints == []
       || Last(stored.value.checkpoints).quality.Fail?
    {
      return Rejected(InvalidRequest);
    }
    var latest := Last(stored.value.checkpoints);
    StageOne(s, rev, (OperationalReason, CodeBytes(code)), env, 0);
    var staged := repository.Stage(rev, OperationalReason, CodeBytes(code), env(0));
    StagedDigest(s, rev, OperationalReason, CodeBytes(code), env(0));
    if !staged.Ok? {
      return Propagate(staged);
    }
    var cp := latest.(stage := Stage.PreparationFailed, quality := Fail, writtenAt := at, resumable := false,
                      artifacts := latest.artifacts[OperationalReason := staged.value]);
    var appended := repository.AppendIfCurrentCount(rev, cp, |stored.value.checkpoints|, env(1));
    r := if appended.Ok? then Ok(FailureRecorded) else Propagate(appended);
  }

  /** `_operational_failure` */
  method EndOperationally(repository: FileSystemRunRepository, e: Engine, rev: nat, code: ErrorCode, at: Instant,
                          quality: Option<QualityResult>, a: Answers)
    returns (r: Result<Handoff>)
    modifies repository
    ensures (repository.Files(), r) == OperationalFailure(e, old(repository.Files()), rev, code, at, quality, a)
  {
    hide Load, EndFailed, PlanFailure, Perform;
    var stored := Load(repository.Files(), rev);
    if stored.None? || stored.value.checkpoints == [] {
      return Rejected(InvalidRequest);
    }
    if !Last(stored.value.checkpoints).quality.Fail? {
      var recorded := RecordFailure(repository, rev, code, at, a.env(0));
      if !recorded.Ok? {
        return Propagate(recorded);
      }
    }
    r := PublishFailure(repository, e, rev, code, at, quality, a);
  }

  method PublishFailure(repository: FileSystemRunRepository, e: Engine, rev: nat, code: ErrorCode, at: Instant,
                        quality: Option<QualityResult>, a: Answers)
    returns (r: Result<Handoff>)
    modifies repository
    ensures (repository.Files(), r) == EndFailed(e, old(repository.Files()), rev, code, at, quality, a)
  {
    hide Load, PublishedResult, PlanOperational, Perform;
    var stored := Load(repository.Files(), rev);
    if stored.None? || stored.value.checkpoints == [] {
      return Rejected(InvalidRequest);
    }
    var run := ComposeRun(stored.value.run, Last(stored.value.checkpoints));
    var published := PublishOperationalReport(repository, e, run, code, at, false, a.measured(0), at, a.env(1));
    r := if published.Ok? then PublishedResult(repository.Files(), rev, quality) else Propagate(published);
  }

  /** The phases from the evidence to the staged packet. */
  method AssemblePacket(repository: FileSystemRunRepository, e: Engine, p: Rules, run: RunContext, a: Answers)
    returns (r: Result<Handoff>)
    modifies repository
    ensures (repository.Files(), r) == Assemble(e, p, old(repository.Files()), run, a)
  {
    hide Load, FreezePrior, CollectAndFreeze, CheckpointQuality, StagePacket, OperationalFailure;
    var rev := run.revision;
    if a.expired(0) {
      return Rejected(Aborted(DeadlineExceeded));
    }
    var prior := FreezePriorResearch(repository, p, run, a.prior, a.now(2), a.env(2));
    if !prior.Ok? {
      return Propagate(prior);
    }
    var collected := CollectAndFreezeMarketData(repository, p, run, a.collect, a.measured(3), a.env(3));
    if !collected.Ok? {
      return Propagate(collected);
    }
    var (frozen, collection) := collected.value;
    if p.providerTimedOut(collection) || a.expired(1) {
      return Rejected(Aborted(DeadlineExceeded));
    }
    r := EvaluateAndStage(repository, e, p, frozen.run, collection, prior.value, a);
  }

  method EvaluateAndStage(repository: FileSystemRunRepository, e: Engine, p: Rules, run: RunContext,
                          collection: Collection, prior: string, a: Answers)
    returns (r: Result<Handoff>)
    modifies repository
    ensures (repository.Files(), r) == Evaluate(e, p, old(repository.Files()), run, collection, prior, a)
  {
    hide Load, CheckpointQuality, StagePacket, OperationalFailure;
    var rev := run.revision;
    var quality := CheckpointMarketDataQuality(repository, p, run, a.quality, a.now(4), a.measured(4), a.env(4));
    if !quality.Ok? {
      return Propagate(quality);
    }
    if quality.value.status.Fail? {
      if quality.value.reasons == [] {
        return Rejected(InvalidRequest);
      }
      r := EndOperationally(repository, e, rev, quality.value.reasons[0], a.now(5), Some(quality.value), a);
      return;
    }
    if a.expired(2) {
      return Rejected(Aborted(DeadlineExceeded));
    }
    var stored := Load(repository.Files(), rev);
    if stored.None? || stored.value.checkpoints == [] {
      return Rejected(InvalidRequest);
    }
    var context :=
      ComposeRun(stored.value.run, Last(stored.value.checkpoints)).(execution := Execution.AwaitingSynthesis);
    var built := a.build(context, collection, quality.value, prior);
    if built.Raises? {
      return Rejected(built.failure);
    }
    if a.expired(3) {
      return Rejected(Aborted(DeadlineExceeded));
    }
    r := StageAndHandOff(repository, e, rev, Packet(context, [], built.given), a.now(6), a.measured(5), a.env(5));
  }

  method StageAndHandOff(repository: FileSystemRunRepository, e: Engine, rev: nat, packet: Packet, at: Instant,
                         telemetry: Telemetry, env: Environment)
    returns (r: Result<Handoff>)
    modifies repository
    ensures (repository.Files(), r)
            == Ready(rev, packet, StagePacket(e, old(repository.Files()), packet, at, telemetry, env))
  {
    hide Load, StagePacket;
    var staged := StageResearchPacket(repository, e, packet, at, telemetry, env);
    if !staged.Ok? {
      return Propagate(staged);
    }
    var stored := Load(repository.Files(), rev);
    r := if stored.Some? then Ok(PacketReady(stored.value, packet)) else Rejected(InvalidRequest);
  }

  /**
   `prepare_research_packet` on a run that exists. From a sound date it loses nothing that was
   staged, leaves the date sound, and hands off only the staged packet, coherently.
   */
  method PrepareResearchPacket(repository: FileSystemRunRepository, e: Engine, p: Rules, rev: nat, a: Answers)
    returns (r: Result<Handoff>)
    modifies repository
    ensures (repository.Files(), r) == Prepare(e, p, old(repository.Files()), rev, a)
    ensures PreparedEvidence.PreparedSound(e, p, old(repository.Files())) ==>
              PreparedEvidence.Outcome(e, p, old(repository.Files()), rev, (repository.Files(), r))
  {
    hide Load, Assemble, StagePacket, OperationalFailure, PublishedResult, PreparedEvidence.PreparedSound,
         PreparedEvidence.Outcome;
    var s := repository.Files();
    if PreparedEvidence.PreparedSound(e, p, s) { PreparedEvidence.PrepareOutcome(e, p, s, rev, a); }
    var stored := Load(s, rev);
    if stored.None? {
      return Rejected(InvalidRequest);
    }
    if stored.value.published {
      return PublishedResult(s, rev, None);
    }
    if a.retryWindow.CalendarDown? {
      r := EndOperationally(repository, e, rev, MarketCalendarUnavailable, a.now(0), None, a);
      return;
    }
    if a.retryWindow.RecordMissed? {
      return Ok(NotRun);
    }
    if a.retryWindow.ReportMissed? || a.missedAtStart {
      var at := a.now(if a.retryWindow.ReportMissed? then 0 else 1);
      r := EndOperationally(repository, e, rev, MissedWindowCode, at, None, a);
      return;
    }
    if stored.value.checkpoints == [] {
      return Rejected(InvalidRequest);
    }
    var latest := Last(stored.value.checkpoints);
    var payload := ReadStaged(s, rev, ResearchPacket);
    if payload.Some? {
      if !payload.value.PacketBytes?
         || (ResearchPacket in latest.artifacts && latest.artifacts[ResearchPacket] != Sha256(payload.value))
      {
        return Rejected(InvalidRequest);
      }
      var packet := payload.value.packet;
      var at := if latest.writtenAt >= packet.run.invokedAt then latest.writtenAt else packet.run.invokedAt;
      r := StageAndHandOff(repository, e, rev, packet, at, a.measured(5), a.env(5));
      return;
    }
    if StageAwaitsSynthesis(latest.stage) {
      return Rejected(InvalidRequest);
    }
    if ReadStaged(s, rev, OperationalReason).Some? || latest.stage.Published? || latest.stage.PreparationFailed? {
      r := ResumeFailedPreparation(repository, e, rev, latest, a);
      return;
    }
    if a.calendarDown {
      r := EndOperationally(repository, e, rev, MarketCalendarUnavailable, a.now(1), None, a);
      return;
    }
    r := AssemblePacket(repository, e, p, stored.value.run, a);
    if r.Rejected? && r.failure.Aborted? {
      r := EndOperationally(repository, e, rev, r.failure.code, a.now(7), None, a);
    }
  }

  method ResumeFailedPreparation(repository: FileSystemRunRepository, e: Engine, rev: nat, latest: Checkpoint, a: Answers)
    returns (r: Result<Handoff>)
    modifies repository
    ensures (repository.Files(), r) == ResumeFailure(e, old(repository.Files()), rev, latest, a)
  {
    hide OperationalFailure, ReadStaged;
    var s := repository.Files();
    var reason, quality := ReadStaged(s, rev, OperationalReason), ReadStaged(s, rev, DataQuality);
    if reason.None? || !reason.value.CodeBytes?
       || (OperationalReason in latest.artifacts && latest.artifacts[OperationalReason] != Sha256(reason.value))
    {
      return Rejected(InvalidRequest);
    }
    var explained: Option<QualityResult> := None;
    if quality.Some? {
      if !quality.value.QualityBytes? || DataQuality !in latest.artifacts
         || latest.artifacts[DataQuality] != Sha256(quality.value)
      {
        return Rejected(InvalidRequest);
      }
      if quality.value.quality.status.Fail? && reason.value.code in quality.value.quality.reasons {
        explained := Some(quality.value.quality);
      }
    }
    r := EndOperationally(repository, e, rev, reason.value.code, a.now(1), explained, a);
  }
}
