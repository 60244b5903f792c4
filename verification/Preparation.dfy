/**
 The resumable preparation of one run: select prior research, collect and freeze evidence,
 evaluate quality, build and stage the packet. Every call may find any prefix of this done,
 gets its own answers from the clock and the providers, and may stop at any write.
 */
module Preparation {
  import opened RunTypes
  import opened RunStore
  import opened Publication
  import opened PublicationService

  /** The deterministic functions of the frozen configuration and of frozen evidence. */
  datatype Rules = Rules(
    symbols: string -> seq<string>,          // the configured symbols, in order
    priorFits: (RunContext, string) -> bool,
    providerTimedOut: Collection -> bool)

  /** Where a retry falls relative to the run's window. */
  datatype Window = InWindow | CalendarDown | ReportMissed | RecordMissed

  datatype Answer<T> = Given(given: T) | Raises(failure: Failure)

  /** Everything the outside contributes to one call. */
  datatype Answers = Answers(
    retryWindow: Window,                     // of the retry time
    missedAtStart: bool,                     // the run's own window calls for a missed report
    calendarDown: bool,
    now: nat -> Instant,                     // successive clock readings
    expired: nat -> bool,                    // the outcomes of the deadline checks
    prior: string,
    collect: Answer<Collection>,
    quality: Answer<QualityResult>,
    build: (RunContext, Collection, QualityResult, string) -> Answer<string>,
    measured: nat -> Telemetry,              // the telemetry snapshot of each phase
    env: nat -> Environment)                 // the failures of each phase

  datatype Handoff =
    | PacketReady(stored: Stored, packet: Packet)
    | Ended(stored: Stored, receipt: Receipt, code: Option<ErrorCode>, quality: Option<QualityResult>)
    | NotRun

  // ---- Starting a run ----

  /** The first checkpoint of a run: its frozen configuration, and the telemetry of starting it. */
  function StartCheckpoint(context: RunContext): Checkpoint {
    Checkpoint(context.revision, Stage.ConfigFrozen, context.execution, context.quality, context.delivery,
               context.invokedAt, None, map[], true)
  }

  /** The directory of a run that was just started. */
  function Started(context: RunContext, telemetry: Telemetry): RunDir {
    var (name, payload) := TelemetryArtifact(telemetry);
    RunDir(Some(context), [WithTelemetry(StartCheckpoint(context), telemetry)], None, map[name := payload], None, None)
  }

  /** What loading a just started run gives. */
  function JustStored(context: RunContext, telemetry: Telemetry): Stored {
    Stored(context, [WithTelemetry(StartCheckpoint(context), telemetry)], None, false)
  }

  /** The id an invocation names before anything is allocated. */
  function Named(invocation: Invocation): Option<nat> {
    match invocation
    case Scheduled => Some(1)
    case ManualRequested(rev) => Some(rev)
    case ManualFresh => None
  }

  /** `prepare_premarket_run` when its window runs: find the run, or allocate it and append the first checkpoint. */
  function StartRun(s: DateStore, invocation: Invocation, seed: RunContext, telemetry: Telemetry, env: Environment)
    : (DateStore, Result<Stored>)
  {
    var (s1, created) := Allocate(s, invocation, seed, env(0));
    if Named(invocation).Some? && Load(s, Named(invocation).value).Some? then
      var stored := Load(s, Named(invocation).value).value;
      (s, if !invocation.Scheduled? && stored.published then Rejected(InvalidRequest) else Ok(stored))
    else if !created.Ok? then (s1, Propagate(created))
    else
      var rev := created.value.revision;
      var stored := Load(s1, rev);
      if stored.None? then (s1, Rejected(InvalidRequest))
      else if stored.value.published then (s1, Ok(stored.value))
      else
        var (s2, staged) := StageArtifact(s1, rev, TelemetryArtifact(telemetry).0, TelemetryArtifact(telemetry).1, env(1));
        if !staged.Ok? then (s2, Propagate(staged))
        else
          var (s3, appended) :=
            AppendCheckpoint(s2, rev, WithTelemetry(StartCheckpoint(created.value), telemetry), env(2));
          (s3, if !appended.Ok? then Propagate(appended)
               else if Load(s3, rev).None? then Rejected(InvalidRequest)
               else Ok(Load(s3, rev).value))
  }

  // ---- Prior research ----

  const PriorResearch: Name := OtherName("prior_research")

  /** The digests under which checkpoints bound the prior selection. */
  function BoundPriors(cps: seq<Checkpoint>): set<Digest> {
    set i | 0 <= i < |cps| && PriorResearch in cps[i].artifacts :: cps[i].artifacts[PriorResearch]
  }

  function Statuses(stored: Stored): (Execution, Quality, Delivery) {
    if stored.checkpoints != [] then
      var cp := Last(stored.checkpoints);
      (cp.execution, cp.quality, cp.delivery)
    else StatusesOf(stored.run)
  }

  function ConfigCheckpoint(stored: Stored, prior: string, at: Instant): Checkpoint {
    var (execution, quality, delivery) := Statuses(stored);
    Checkpoint(stored.run.revision, Stage.ConfigFrozen, execution, quality, delivery, at, None,
               map[PriorResearch := Sha256(TextBytes(prior))], true)
  }

  /** `freeze_prior_research`: select once before collection, or restore the bound bytes. */
  function FreezePrior(p: Rules, s: DateStore, run: RunContext, chosen: string, at: Instant, env: Environment)
    : (DateStore, Result<string>)
  {
    var rev := run.revision;
    var stored := Load(s, rev);
    var payload := ReadStaged(s, rev, PriorResearch);
    if stored.None? || stored.value.published || stored.value.run != run then (s, Rejected(InvalidRequest))
    else if payload.Some? && !payload.value.TextBytes? then (s, Rejected(InvalidRequest))
    else
      var cps := stored.value.checkpoints;
      if BoundPriors(cps) != {} then
        if payload.None? || BoundPriors(cps) != {Sha256(payload.value)} || !p.priorFits(run, payload.value.text)
        then (s, Rejected(InvalidRequest))
        else (s, Ok(payload.value.text))
      else if stored.value.cutoff.Some? || LatestAt(cps, Stage.EvidenceCollected).Some?
              || ReadStaged(s, rev, MarketDataCollection).Some?
      then (s, Rejected(InvalidRequest))
      else
        var selection := if payload.Some? then payload.value.text else chosen;
        if !p.priorFits(run, selection) || at < run.invokedAt || (cps != [] && at < Last(cps).writtenAt) then
          (s, Rejected(InvalidRequest))
        else
          var cp := ConfigCheckpoint(stored.value, selection, at);
          var writes := if payload.None? then [(PriorResearch, TextBytes(selection))] else [];
          var (s1, r) := StageAndAppend(s, rev, writes, cp, |cps|, env);
          (s1, if r.Ok? then Ok(selection) else Propagate(r))
  }

  // ---- Collection ----

  /** `_stored_collection`: the collection the newest collected checkpoint bound. */
  function StoredCollection(s: DateStore, rev: nat, cps: seq<Checkpoint>): Option<Collection> {
    var cp := LatestAt(cps, Stage.EvidenceCollected);
    if cp.None? then None
    else if MarketDataCollection !in cp.value.artifacts
            || Business(cp.value.artifacts).Keys != {MarketDataCollection}
            || CheckpointTelemetry(s, cp.value).Malformed?
            || cp.value.cutoff.Some? || !cp.value.resumable
    then None
    else
      var payload := ReadStaged(s, rev, MarketDataCollection);
      if payload.Some? && Sha256(payload.value) == cp.value.artifacts[MarketDataCollection]
         && payload.value.CollectionBytes? && cp.value.writtenAt == payload.value.collection.completedAt
      then Some(payload.value.collection)
      else None
  }

  predicate SameButCutoff(a: RunContext, b: RunContext) {
    a.(cutoff := None) == b.(cutoff := None)
  }

  /** `load_frozen_market_data_for_run` */
  function LoadFrozen(p: Rules, s: DateStore, run: RunContext): Option<(Stored, Collection)> {
    var stored := Load(s, run.revision);
    if stored.None? || stored.value.published || !SameButCutoff(stored.value.run, run)
       || stored.value.cutoff.None? || (run.cutoff.Some? && run.cutoff != stored.value.cutoff)
    then None
    else
      var collection := StoredCollection(s, run.revision, stored.value.checkpoints);
      if collection.Some? && stored.value.cutoff == Some(collection.value.completedAt)
         && collection.value.symbols == p.symbols(run.configuration)
      then Some((stored.value, collection.value))
      else None
  }

  function CollectedCheckpoint(stored: Stored, collection: Collection): Checkpoint {
    var (execution, quality, delivery) := Statuses(stored);
    Checkpoint(stored.run.revision, Stage.EvidenceCollected, execution, quality, delivery, collection.completedAt, None,
               map[MarketDataCollection := Sha256(CollectionBytes(collection))], true)
  }

  /** The collection to freeze: the bound one, the staged one, or else the provider's answer. */
  function ChosenCollection(p: Rules, s: DateStore, run: RunContext, cps: seq<Checkpoint>, answer: Answer<Collection>)
    : Result<Collection>
  {
    var bound := LatestAt(cps, Stage.EvidenceCollected).Some?;
    var payload := ReadStaged(s, run.revision, MarketDataCollection);
    var collection :=
      if bound then StoredCollection(s, run.revision, cps)
      else if payload.Some? then
        if payload.value.CollectionBytes? then Some(payload.value.collection) else None
      else if answer.Given? then Some(answer.given)
      else None;
    if !bound && payload.None? && answer.Raises? then Rejected(answer.failure)
    else if collection.None? || collection.value.symbols != p.symbols(run.configuration) then Rejected(InvalidRequest)
    else Ok(collection.value)
  }

  /** Stage a fresh collection even when its symbols are then refused. */
  function StageFresh(s: DateStore, run: RunContext, cps: seq<Checkpoint>, answer: Answer<Collection>, fault: Fault)
    : (DateStore, Result<()>)
  {
    if LatestAt(cps, Stage.EvidenceCollected).None? && ReadStaged(s, run.revision, MarketDataCollection).None?
       && answer.Given?
    then
      var (s1, r) := StageArtifact(s, run.revision, MarketDataCollection, CollectionBytes(answer.given), fault);
      (s1, if r.Ok? then Ok(()) else Propagate(r))
    else (s, Ok(()))
  }

  /** Bind the collection to a checkpoint unless one already does, then freeze at its completion. */
  function BindAndFreeze(s: DateStore, run: RunContext, stored: Stored, collection: Collection, telemetry: Telemetry,
                         env: Environment): (DateStore, Result<(Stored, Collection)>)
  {
    var rev := run.revision;
    var (s1, r) :=
      if LatestAt(stored.checkpoints, Stage.EvidenceCollected).Some? then (s, Ok(()))
      else
        var (s0, staged) := StageArtifact(s, rev, TelemetryArtifact(telemetry).0, TelemetryArtifact(telemetry).1, env(1));
        if !staged.Ok? then (s0, Propagate(staged))
        else
          AppendIfCurrent(s0, rev, WithTelemetry(CollectedCheckpoint(stored, collection), telemetry),
                          |stored.checkpoints|, env(2));
    if !r.Ok? then (s1, Propagate(r))
    else
      var (s2, frozen) := Freeze(s1, rev, collection.completedAt, env(3));
      (s2, if frozen.Ok? then Ok((frozen.value, collection)) else Propagate(frozen))
  }

  /** `collect_and_freeze_market_data_for_run` */
  function CollectAndFreeze(p: Rules, s: DateStore, run: RunContext, answer: Answer<Collection>, telemetry: Telemetry,
                            env: Environment): (DateStore, Result<(Stored, Collection)>)
  {
    var stored := Load(s, run.revision);
    if stored.None? || stored.value.published || !SameButCutoff(stored.value.run, run)
       || LatestTelemetry(s, stored.value.checkpoints).Malformed?
       || (run.cutoff.Some? && run.cutoff != stored.value.cutoff)
    then (s, Rejected(InvalidRequest))
    else if stored.value.cutoff.Some? then
      var frozen := LoadFrozen(p, s, run);
      (s, if frozen.Some? then Ok(frozen.value) else Rejected(InvalidRequest))
    else
      var (s1, kept) := StageFresh(s, run, stored.value.checkpoints, answer, env(0));
      var collection := ChosenCollection(p, s, run, stored.value.checkpoints, answer);
      if !kept.Ok? then (s1, Propagate(kept))
      else if !collection.Ok? then (s1, Propagate(collection))
      else BindAndFreeze(s1, run, stored.value, collection.value, telemetry, env)
  }

  // ---- Quality ----

  /** The quality to checkpoint: the staged one, or else a new evaluation. */
  function ChosenQuality(s: DateStore, rev: nat, latest: Checkpoint, answer: Answer<QualityResult>)
    : Result<QualityResult>
  {
    var existing := ReadStaged(s, rev, DataQuality);
    if existing.Some? then
      if existing.value.QualityBytes? then Ok(existing.value.quality) else Rejected(InvalidRequest)
    else if latest.stage.QualityEvaluated? then Rejected(InvalidRequest)
    else if answer.Given? then Ok(answer.given)
    else Rejected(answer.failure)
  }

  function QualityCheckpoint(stored: Stored, collection: Collection, quality: QualityResult, at: Instant): Checkpoint
    requires stored.checkpoints != []
  {
    Checkpoint(stored.run.revision, Stage.QualityEvaluated, Execution.Analyzing, quality.status,
               Last(stored.checkpoints).delivery, at, stored.cutoff,
               map[MarketDataCollection := Sha256(CollectionBytes(collection)),
                   DataQuality := Sha256(QualityBytes(quality))], false)
  }

  /** A quality checkpoint that already records exactly this result. */
  predicate QualityRecorded(s: DateStore, latest: Checkpoint, cutoff: Option<Instant>, collection: Collection,
                            quality: QualityResult)
  {
    && latest.execution.Analyzing?
    && latest.quality == quality.status
    && latest.cutoff == cutoff
    && Business(latest.artifacts)
       == map[MarketDataCollection := Sha256(CollectionBytes(collection)), DataQuality := Sha256(QualityBytes(quality))]
    && ReadStaged(s, latest.revision, DataQuality) == Some(QualityBytes(quality))
    && !latest.resumable
    && CheckpointTelemetry(s, latest).Found?
  }

  /** `checkpoint_collected_market_data_quality` with `checkpoint_market_data_quality` */
  function CheckpointQuality(p: Rules, s: DateStore, run: RunContext, answer: Answer<QualityResult>, at: Instant,
                             telemetry: Telemetry, env: Environment): (DateStore, Result<QualityResult>)
  {
    var frozen := LoadFrozen(p, s, run);
    if frozen.None? || frozen.value.0.checkpoints == [] then (s, Rejected(InvalidRequest))
    else
      var (stored, collection) := frozen.value;
      var cps := stored.checkpoints;
      var quality := ChosenQuality(s, run.revision, Last(cps), answer);
      if LatestTelemetry(s, cps).Malformed? then (s, Rejected(InvalidRequest))
      else if !quality.Ok? then (s, quality)
      else if at < stored.cutoff.value then (s, Rejected(InvalidRequest))
      else if Last(cps).stage.QualityEvaluated? then
        (s, if QualityRecorded(s, Last(cps), stored.cutoff, collection, quality.value) then quality
            else Rejected(InvalidRequest))
      else if !Last(cps).stage.EvidenceFrozen? || Last(cps).cutoff != stored.cutoff || at < Last(cps).writtenAt then
        (s, Rejected(InvalidRequest))
      else
        var (s1, r) := StageAndAppend(s, run.revision,
                                      [(DataQuality, QualityBytes(quality.value)), TelemetryArtifact(telemetry)],
                                      WithTelemetry(QualityCheckpoint(stored, collection, quality.value, at), telemetry),
                                      |cps|, env);
        (s1, if r.Ok? then quality else Propagate(r))
  }

  // ---- Packet ----

  predicate Packable(stage: Stage) {
    stage.EvidenceFrozen? || stage.QualityEvaluated? || stage.AwaitingSynthesis? || stage.Validating?
  }

  predicate StageAwaitsSynthesis(stage: Stage) {
    stage.AwaitingSynthesis? || stage.Validating?
  }

  /** What `stage_research_packet` checks before it writes. */
  predicate PacketFits(s: DateStore, packet: Packet, at: Instant) {
    var stored := Load(s, packet.run.revision);
    && packet.run.execution.AwaitingSynthesis?
    && packet.run.cutoff.Some?
    && at >= packet.run.cutoff.value
    && stored.Some?
    && !stored.value.published
    && stored.value.cutoff == packet.run.cutoff
    && WithStatuses(stored.value.run, StatusesOf(packet.run)) == packet.run
    && stored.value.checkpoints != []
    && var latest := Last(stored.value.checkpoints);
    && Packable(latest.stage)
    && !(latest.stage.QualityEvaluated? && latest.quality.Fail?)
    && latest.quality == packet.run.quality
    && latest.delivery == packet.run.delivery
    && !LatestTelemetry(s, stored.value.checkpoints).Malformed?
  }

  /** The latest checkpoint already froze this packet and its fallback. */
  predicate PacketRecorded(latest: Checkpoint, packet: Packet, base: string) {
    && latest.execution == (if latest.stage.Validating? then Execution.Validating else Execution.AwaitingSynthesis)
    && latest.cutoff == packet.run.cutoff
    && ResearchPacket in latest.artifacts
    && latest.artifacts[ResearchPacket] == Sha256(PacketBytes(packet))
    && ReducedReport in latest.artifacts
    && latest.artifacts[ReducedReport] == Sha256(TextBytes(base))
    && !latest.resumable
  }

  function PacketCheckpoint(packet: Packet, base: string, at: Instant): Checkpoint {
    Checkpoint(packet.run.revision, Stage.AwaitingSynthesis, Execution.AwaitingSynthesis, packet.run.quality,
               packet.run.delivery, at, packet.run.cutoff,
               map[ResearchPacket := Sha256(PacketBytes(packet)), ReducedReport := Sha256(TextBytes(base))], false)
  }

  /** `stage_research_packet` */
  function StagePacket(e: Engine, s: DateStore, packet: Packet, at: Instant, telemetry: Telemetry, env: Environment)
    : (DateStore, Result<()>)
  {
    if !PacketFits(s, packet, at) then (s, Rejected(InvalidRequest))
    else
      var rev, base := packet.run.revision, e.base(packet);
      var latest := Last(Load(s, rev).value.checkpoints);
      var (s1, r) := StageAll(s, rev, [(ResearchPacket, PacketBytes(packet)), (ReducedReport, TextBytes(base))], env, 0);
      if !r.Ok? then (s1, r)
      else if StageAwaitsSynthesis(latest.stage) then
        (s1, if PacketRecorded(latest, packet, base) then Ok(()) else Rejected(InvalidRequest))
      else
        var (s2, staged) := StageArtifact(s1, rev, TelemetryArtifact(telemetry).0, TelemetryArtifact(telemetry).1, env(2));
        if !staged.Ok? then (s2, Propagate(staged))
        else AppendCheckpoint(s2, rev, WithTelemetry(PacketCheckpoint(packet, base, at), telemetry), env(3))
  }

  // ---- One call ----

  /** `_published_result` */
  function PublishedResult(s: DateStore, rev: nat, quality: Option<QualityResult>): Result<Handoff> {
    var stored, receipt, published := Load(s, rev), GetReceipt(s, rev), GetPublished(s, rev);
    if stored.None? || receipt.None? || published.None? || !stored.value.published then Rejected(InvalidRequest)
    else
      var bundle := published.value.1;
      var context :=
        if stored.value.checkpoints != [] then ComposeRun(stored.value.run, Last(stored.value.checkpoints))
        else stored.value.run;
      if !context.execution.Published? || context != bundle.run then Rejected(InvalidRequest)
      else
        Ok(Ended(stored.value, receipt.value,
                 if bundle.contents.OperationalContents? then Some(bundle.contents.code) else None, quality))
  }

  /** `_operational_failure`: record the failure if the run is not FAIL yet, then end it. */
  function OperationalFailure(e: Engine, s: DateStore, rev: nat, code: ErrorCode, at: Instant,
                              quality: Option<QualityResult>, a: Answers): (DateStore, Result<Handoff>)
  {
    var stored := Load(s, rev);
    if stored.None? || stored.value.checkpoints == [] then (s, Rejected(InvalidRequest))
    else
      var (s1, recorded) :=
        if Last(stored.value.checkpoints).quality.Fail? then (s, Ok(FailureRecorded))
        else Perform(s, rev, PlanFailure(s, rev, code, at), at, a.env(0));
      if recorded.Ok? then EndFailed(e, s1, rev, code, at, quality, a) else (s1, Propagate(recorded))
  }

  /** The operational report of a run whose newest checkpoint is FAIL. */
  function EndFailed(e: Engine, s: DateStore, rev: nat, code: ErrorCode, at: Instant, quality: Option<QualityResult>,
                     a: Answers): (DateStore, Result<Handoff>)
  {
    var stored := Load(s, rev);
    if stored.None? || stored.value.checkpoints == [] then (s, Rejected(InvalidRequest))
    else
      var run := ComposeRun(stored.value.run, Last(stored.value.checkpoints));
      var (s1, published) :=
        Perform(s, run.revision, PlanOperational(e, s, run, code, at, false, a.measured(0)), at, a.env(1));
      (s1, if published.Ok? then PublishedResult(s1, rev, quality) else Propagate(published))
  }

  /** The recovery of a preparation that already gave up. */
  function ResumeFailure(e: Engine, s: DateStore, rev: nat, latest: Checkpoint, a: Answers)
    : (DateStore, Result<Handoff>)
  {
    var reason, quality := ReadStaged(s, rev, OperationalReason), ReadStaged(s, rev, DataQuality);
    if reason.None? || !reason.value.CodeBytes?
       || (OperationalReason in latest.artifacts && latest.artifacts[OperationalReason] != Sha256(reason.value))
       || (quality.Some? && (!quality.value.QualityBytes? || DataQuality !in latest.artifacts
                             || latest.artifacts[DataQuality] != Sha256(quality.value)))
    then (s, Rejected(InvalidRequest))
    else
      var code := reason.value.code;
      var explained :=
        if quality.Some? && quality.value.quality.status.Fail? && code in quality.value.quality.reasons
        then Some(quality.value.quality) else None;
      OperationalFailure(e, s, rev, code, a.now(1), explained, a)
  }

  /** Reuse the staged packet, completing a crash between its staging and its checkpoint. */
  function ReusePacket(e: Engine, s: DateStore, rev: nat, payload: Payload, latest: Checkpoint, a: Answers)
    : (DateStore, Result<Handoff>)
  {
    if !payload.PacketBytes?
       || (ResearchPacket in latest.artifacts && latest.artifacts[ResearchPacket] != Sha256(payload))
    then (s, Rejected(InvalidRequest))
    else
      var packet := payload.packet;
      var at := if latest.writtenAt >= packet.run.invokedAt then latest.writtenAt else packet.run.invokedAt;
      Ready(rev, packet, StagePacket(e, s, packet, at, a.measured(5), a.env(5)))
  }

  function Ready(rev: nat, packet: Packet, staged: (DateStore, Result<()>)): (DateStore, Result<Handoff>) {
    var stored := Load(staged.0, rev);
    (staged.0,
     if !staged.1.Ok? then Propagate(staged.1)
     else if stored.None? then Rejected(InvalidRequest)
     else Ok(PacketReady(stored.value, packet)))
  }

  /** From the evidence to the staged packet; an aborted step leaves the store as it is then. */
  function Assemble(e: Engine, p: Rules, s: DateStore, run: RunContext, a: Answers): (DateStore, Result<Handoff>) {
    var rev := run.revision;
    if a.expired(0) then (s, Rejected(Aborted(DeadlineExceeded)))
    else
      var (s1, prior) := FreezePrior(p, s, run, a.prior, a.now(2), a.env(2));
      if !prior.Ok? then (s1, Propagate(prior))
      else
        var (s2, collected) := CollectAndFreeze(p, s1, run, a.collect, a.measured(3), a.env(3));
        if !collected.Ok? then (s2, Propagate(collected))
        else
          var (frozen, collection) := collected.value;
          if p.providerTimedOut(collection) || a.expired(1) then (s2, Rejected(Aborted(DeadlineExceeded)))
          else Evaluate(e, p, s2, frozen.run, collection, prior.value, a)
  }

  function Evaluate(e: Engine, p: Rules, s: DateStore, run: RunContext, collection: Collection, prior: string,
                    a: Answers): (DateStore, Result<Handoff>)
  {
    var rev := run.revision;
    var (s1, quality) := CheckpointQuality(p, s, run, a.quality, a.now(4), a.measured(4), a.env(4));
    if !quality.Ok? then (s1, Propagate(quality))
    else if quality.value.status.Fail? then
      if quality.value.reasons == [] then (s1, Rejected(InvalidRequest))
      else OperationalFailure(e, s1, rev, quality.value.reasons[0], a.now(5), Some(quality.value), a)
    else if a.expired(2) then (s1, Rejected(Aborted(DeadlineExceeded)))
    else
      var stored := Load(s1, rev);
      if stored.None? || stored.value.checkpoints == [] then (s1, Rejected(InvalidRequest))
      else
        var context :=
          ComposeRun(stored.value.run, Last(stored.value.checkpoints)).(execution := Execution.AwaitingSynthesis);
        var built := a.build(context, collection, quality.value, prior);
        if built.Raises? then (s1, Rejected(built.failure))
        else if a.expired(3) then (s1, Rejected(Aborted(DeadlineExceeded)))
        else
          var packet := Packet(context, [], built.given);
          Ready(rev, packet, StagePacket(e, s1, packet, a.now(6), a.measured(5), a.env(5)))
  }

  /** `prepare_research_packet` on a run that exists. */
  function Prepare(e: Engine, p: Rules, s: DateStore, rev: nat, a: Answers): (DateStore, Result<Handoff>) {
    var stored := Load(s, rev);
    if stored.None? then (s, Rejected(InvalidRequest))
    else if stored.value.published then (s, PublishedResult(s, rev, None))
    else if a.retryWindow.CalendarDown? then
      OperationalFailure(e, s, rev, MarketCalendarUnavailable, a.now(0), None, a)
    else if a.retryWindow.RecordMissed? then (s, Ok(NotRun))
    else if a.retryWindow.ReportMissed? then OperationalFailure(e, s, rev, MissedWindowCode, a.now(0), None, a)
    else if a.missedAtStart then OperationalFailure(e, s, rev, MissedWindowCode, a.now(1), None, a)
    else if stored.value.checkpoints == [] then (s, Rejected(InvalidRequest))
    else
      var latest := Last(stored.value.checkpoints);
      var payload := ReadStaged(s, rev, ResearchPacket);
      if payload.Some? then ReusePacket(e, s, rev, payload.value, latest, a)
      else if StageAwaitsSynthesis(latest.stage) then (s, Rejected(InvalidRequest))
      else if ReadStaged(s, rev, OperationalReason).Some? || latest.stage.Published? || latest.stage.PreparationFailed?
      then ResumeFailure(e, s, rev, latest, a)
      else if a.calendarDown then OperationalFailure(e, s, rev, MarketCalendarUnavailable, a.now(1), None, a)
      else
        var (s1, r) := Assemble(e, p, s, stored.value.run, a);
        if r.Rejected? && r.failure.Aborted? then
          OperationalFailure(e, s1, rev, r.failure.code, a.now(7), None, a)
        else (s1, r)
  }
}
