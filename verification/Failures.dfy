/**
 Giving up: a preparation that cannot go on records why, and publishes exactly the operational
 report of that code. Each cause has its own code.
 */
module Failures {
  import opened RunTypes
  import opened RunStore
  import opened RunHistory
  import opened Publication
  import opened FinalBundle
  import opened PublicationMachine
  import opened PublicationService
  import opened Preparation
  import opened PreparedEvidence
  import opened Undisturbed
  import opened Endings
  import opened Retries

  function FailureReason(code: ErrorCode): Option<(Name, Payload)> {
    Some((OperationalReason, CodeBytes(code)))
  }

  // ---- From a FAIL stage ----

  /** The staged packet is the one the checkpoints froze. */
  predicate PacketKept(rd: RunDir) {
    && ResearchPacket in rd.artifacts
    && StoredPacketHash(rd.checkpoints) == Some(Sha256(rd.artifacts[ResearchPacket]))
  }

  /** Nothing staged or named contradicts the report of this code. */
  predicate Reportable(rd: RunDir, code: ErrorCode) {
    && rd.checkpoints != []
    && (OperationalReason in rd.artifacts ==> rd.artifacts[OperationalReason] == CodeBytes(code))
    && (OperationalReason in Last(rd.checkpoints).artifacts ==>
          Last(rd.checkpoints).artifacts[OperationalReason] == Sha256(CodeBytes(code)))
    && (HasPacket(rd) ==> code.MissedWindowCode? && PacketKept(rd))
  }

  /** The newest checkpoint is FAIL before synthesis, and the report of `code` may follow it. */
  predicate Failing(rd: RunDir, rev: nat, code: ErrorCode, at: Instant) {
    && rd.context.Some? && rd.context.value.revision == rev
    && Reportable(rd, code)
    && (rd.freeze.Some? ==> at >= rd.freeze.value)
    && var latest := Last(rd.checkpoints);
    && latest.quality.Fail? && PreSynthesis(latest.stage) && at >= latest.writtenAt
    && StagedMatches(rd.artifacts, Business(latest.artifacts))
  }

  /** A telemetry snapshot can be bound next, and the earlier ones can be read. */
  ghost predicate Measurable(s: DateStore, rev: nat, rd: RunDir, t: Telemetry) {
    TelemetryFits(rd, t) && !LatestTelemetry(Put(s, rev, rd), rd.checkpoints).Malformed?
  }

  function FailingRun(rd: RunDir): RunContext
    requires rd.context.Some? && rd.checkpoints != []
  {
    ComposeRun(LoadDir(rd, false).value.run, Last(rd.checkpoints))
  }

  function FailureFinal(rd: RunDir, rev: nat, code: ErrorCode, at: Instant): Checkpoint
    requires rd.checkpoints != []
  {
    Checkpoint(rev, Stage.Published, Execution.Published, Fail, Last(rd.checkpoints).delivery, at, rd.freeze,
               Names(rd, FailureReason(code)), false)
  }

  lemma FailureIsAdmitted(rd: RunDir, rev: nat, code: ErrorCode, at: Instant, t: Telemetry)
    requires Failing(rd, rev, code, at) && TelemetryFits(Reasoned(rd, FailureReason(code)), t)
    ensures var full, cp := Loaded(rd, FailureReason(code), t), WithTelemetry(FailureFinal(rd, rev, code, at), t);
            Admits(full, cp) && StagedMatches(full.artifacts, cp.artifacts)
  {
    var cp := FailureFinal(rd, rev, code, at);
    FinalBusiness(rd, FailureReason(code), cp, t);
    FinalStaged(rd, FailureReason(code), cp, t);
    BoundIsOtherwise(cp, t);
    hide WithTelemetry, StagedMatches, Business, TelemetryNamed, StoredPacketHash, Admits, FreezeMarker,
         QualityEvaluation, SynthesisStep, PreparationFailure, TelemetryFits;
    var full := Loaded(rd, FailureReason(code), t);
    assert OperationalPublication(full, WithTelemetry(cp, t));
    hide OperationalPublication;
    OperationalAdmits(full, WithTelemetry(cp, t));
  }

  lemma OperationalAdmits(rd: RunDir, cp: Checkpoint)
    requires rd.context.Some? && OperationalPublication(rd, cp)
    ensures Admits(rd, cp)
  {
    hide FreezeMarker, QualityEvaluation, SynthesisStep, PreparationFailure, TelemetryNamed, StagedMatches, Business;
  }

  lemma FailureIsPlanned(e: Engine, s: DateStore, rd: RunDir, rev: nat, code: ErrorCode, at: Instant, measured: bool,
                         t: Telemetry)
    requires Failing(rd, rev, code, at) && Measurable(s, rev, rd, t)
    ensures PlanOperational(e, Put(s, rev, rd), FailingRun(rd), code, at, measured, t)
            == Closing(rd, WithTelemetry(FailureFinal(rd, rev, code, at), t), FailureReason(code),
                       OperationalContents(code), t, OperationalMarkdown(e, FailingRun(rd), code))
  {
    LoadPut(s, rev, rd);
    hide WithTelemetry, StagedMatches, Business, LatestTelemetry, Put, AlreadyOperational, StoredPacketHash, MakeBundle,
         TelemetryFits;
  }

  lemma ReasonKeepsTelemetry(rd: RunDir, code: ErrorCode, t: Telemetry)
    requires TelemetryFits(rd, t)
    ensures TelemetryFits(Reasoned(rd, FailureReason(code)), t)
  {
    FitsLater(rd, OperationalReason, CodeBytes(code), t);
  }

  /** Readers are given the operational report of the code, and nothing else about the run. */
  ghost predicate ReportsCode(e: Engine, s': DateStore, rev: nat, delivery: Delivery, code: ErrorCode) {
    && GetPublished(s', rev).Some?
    && GetPublished(s', rev).value.0 == e.operational(rev, Fail, delivery, code)
    && GetPublished(s', rev).value.1.contents == OperationalContents(code)
    && GetPublished(s', rev).value.1.run.quality.Fail?
  }

  /** The hand-off of a run that ended: what is published, why, and the quality that explains it. */
  ghost predicate HandedOff(s': DateStore, rev: nat, r: Result<Handoff>, code: ErrorCode, quality: Option<QualityResult>) {
    && Load(s', rev).Some? && Load(s', rev).value.published && GetReceipt(s', rev).Some?
    && r == Ok(Ended(Load(s', rev).value, GetReceipt(s', rev).value, Some(code), quality))
  }

  lemma FailingEnds(e: Engine, s: DateStore, rd: RunDir, rev: nat, code: ErrorCode, at: Instant, measured: bool, t: Telemetry)
    requires Failing(rd, rev, code, at) && Measurable(s, rev, rd, t) && rev !in s.finals && rev !in s.index
    ensures var s1 := Put(s, rev, rd);
            var (s', r) := Perform(s1, rev, PlanOperational(e, s1, FailingRun(rd), code, at, measured, t), at, Calm());
            && r.Ok? && ReportsCode(e, s', rev, Last(rd.checkpoints).delivery, code)
            && PublishedResult(s', rev, None).Ok?
            && forall quality :: HandedOff(s', rev, PublishedResult(s', rev, quality), code, quality)
  {
    var final, markdown := FailureFinal(rd, rev, code, at), OperationalMarkdown(e, FailingRun(rd), code);
    var cp := WithTelemetry(final, t);
    ReasonKeepsTelemetry(rd, code, t);
    FailureIsAdmitted(rd, rev, code, at, t);
    FailureIsPlanned(e, s, rd, rev, code, at, measured, t);
    BoundIsOtherwise(final, t);
    hide WithTelemetry, StagedMatches, Business, Put, Perform, PlanOperational, Admits, GetPublished, GetReceipt, HasPacket,
         LatestTelemetry, TelemetryFits, Load, StoredPacketHash, PublishedResult;
    EndsCalmly(s, rev, rd, cp, FailureReason(code), OperationalContents(code), t, markdown, at);
    var d := Closing(rd, cp, FailureReason(code), OperationalContents(code), t, markdown);
    var s' := Perform(Put(s, rev, rd), rev, d, at, Calm()).0;
    forall quality ensures HandedOff(s', rev, PublishedResult(s', rev, quality), code, quality) {
      ResultIsHandedOff(s', rev, Append(Loaded(rd, FailureReason(code), t), cp), d.bundle, code, quality);
    }
    assert PublishedResult(s', rev, None).Ok? by { assert HandedOff(s', rev, PublishedResult(s', rev, None), code, None); }
  }

  lemma ResultIsHandedOff(s: DateStore, rev: nat, rd: RunDir, bundle: Bundle, code: ErrorCode, quality: Option<QualityResult>)
    requires rd.context.Some? && rd.checkpoints != [] && Last(rd.checkpoints).execution.Published?
    requires Load(s, rev) == LoadDir(rd, true) && GetPublished(s, rev) == Some((bundle.markdown, bundle))
    requires bundle.contents == OperationalContents(code)
    requires bundle.run == ComposeRun(LoadDir(rd, true).value.run, Last(rd.checkpoints))
    ensures HandedOff(s, rev, PublishedResult(s, rev, quality), code, quality)
  {
    hide Load, GetPublished;
  }

  // ---- From a stage that is not FAIL yet ----

  /** The stages preparation can give up from once evidence is frozen; a kept packet only by a missed window. */
  predicate GivesUpFrom(rd: RunDir, stage: Stage) {
    || ((stage.EvidenceFrozen? || stage.QualityEvaluated?) && !HasPacket(rd))
    || ((stage.AwaitingSynthesis? || stage.Validating?) && PacketKept(rd))
  }

  /** A run whose preparation may give up with this code. */
  predicate MayFail(rd: RunDir, rev: nat, code: ErrorCode, at: Instant) {
    && rd.context.Some? && rd.context.value.revision == rev
    && Reportable(rd, code)
    && var latest := Last(rd.checkpoints);
    && !latest.quality.Fail? && at >= latest.writtenAt && latest.revision == rev
    && (rd.freeze.Some? ==> at >= rd.freeze.value && latest.cutoff == rd.freeze && GivesUpFrom(rd, latest.stage))
    && StagedMatches(rd.artifacts, latest.artifacts)
  }

  function FailedCheckpoint(rd: RunDir, code: ErrorCode, at: Instant): Checkpoint
    requires rd.checkpoints != []
  {
    Last(rd.checkpoints).(stage := Stage.PreparationFailed, quality := Fail, writtenAt := at, resumable := false,
                          artifacts := Names(rd, FailureReason(code)))
  }

  /** The directory once the failure is recorded. */
  function FailureDir(rd: RunDir, code: ErrorCode, at: Instant): RunDir
    requires rd.checkpoints != []
  {
    Append(Reasoned(rd, FailureReason(code)), FailedCheckpoint(rd, code, at))
  }

  lemma FailedIsAdmitted(rd: RunDir, rev: nat, code: ErrorCode, at: Instant)
    requires MayFail(rd, rev, code, at)
    ensures Admits(Reasoned(rd, FailureReason(code)), FailedCheckpoint(rd, code, at))
    ensures StagedMatches(Reasoned(rd, FailureReason(code)).artifacts, FailedCheckpoint(rd, code, at).artifacts)
  {
    hide FreezeMarker, QualityEvaluation, SynthesisStep, OperationalPublication, StoredPacketHash;
    var full, cp := Reasoned(rd, FailureReason(code)), FailedCheckpoint(rd, code, at);
    if rd.freeze.Some? { assert PreparationFailure(full, cp); }
  }

  lemma FailureIsRecorded(e: Engine, s: DateStore, rd: RunDir, rev: nat, code: ErrorCode, at: Instant)
    requires MayFail(rd, rev, code, at)
    ensures Perform(Put(s, rev, rd), rev, PlanFailure(Put(s, rev, rd), rev, code, at), at, Calm())
            == (Put(s, rev, FailureDir(rd, code, at)), Ok(FailureRecorded))
  {
    FailedIsAdmitted(rd, rev, code, at);
    LoadPut(s, rev, rd);
    var full, cp := Reasoned(rd, FailureReason(code)), FailedCheckpoint(rd, code, at);
    hide Admits, StoredPacketHash, StagedMatches, StageArtifact, AppendIfCurrent, AppendCheckpoint, Load;
    StageOne(Put(s, rev, rd), rev, (OperationalReason, CodeBytes(code)), Calm(), 0);
    StageCalmly(s, rev, rd, OperationalReason, CodeBytes(code), NoFault);
    AppendCalmly(s, rev, full, cp, NoFault);
    assert PlanFailure(Put(s, rev, rd), rev, code, at)
           == Record([(OperationalReason, CodeBytes(code))], cp, |rd.checkpoints|, None);
    hide Put, PlanFailure, StageAll;
  }

  lemma FailedIsFailing(rd: RunDir, rev: nat, code: ErrorCode, at: Instant)
    requires MayFail(rd, rev, code, at)
    ensures Failing(FailureDir(rd, code, at), rev, code, at)
  {
    hide Admits, StoredPacketHash, StagedMatches, Business;
    FailedIsAdmitted(rd, rev, code, at);
    var cp := FailedCheckpoint(rd, code, at);
    PacketHashGoesOn(rd.checkpoints, cp);
    assert Last(FailureDir(rd, code, at).checkpoints) == cp;
    BusinessIsStaged(Reasoned(rd, FailureReason(code)).artifacts, cp.artifacts);
  }

  lemma BusinessIsStaged(artifacts: map<Name, Payload>, m: map<Name, Digest>)
    requires StagedMatches(artifacts, m)
    ensures StagedMatches(artifacts, Business(m))
  {
  }

  /** A checkpoint that names the same telemetry as its predecessor changes nothing about reading it. */
  lemma SameTelemetry(s: DateStore, cps: seq<Checkpoint>, cp: Checkpoint)
    requires cps != [] && cp.revision == Last(cps).revision
    requires TelemetryNames(cp.artifacts) == TelemetryNames(Last(cps).artifacts)
    requires forall n :: n in TelemetryNames(cp.artifacts) ==> cp.artifacts[n] == Last(cps).artifacts[n]
    ensures LatestTelemetry(s, cps + [cp]) == LatestTelemetry(s, cps)
  {
    assert (cps + [cp])[..|cps|] == cps;
  }

  lemma FailedIsMeasurable(s: DateStore, rd: RunDir, rev: nat, code: ErrorCode, at: Instant, t: Telemetry)
    requires MayFail(rd, rev, code, at) && Measurable(s, rev, rd, t)
    ensures Measurable(s, rev, FailureDir(rd, code, at), t)
  {
    var cp, failed := FailedCheckpoint(rd, code, at), FailureDir(rd, code, at);
    ReasonKeepsTelemetry(rd, code, t);
    assert TelemetryNames(cp.artifacts) == TelemetryNames(Last(rd.checkpoints).artifacts);
    ReasonReads(s, rev, rd, failed);
    LatestStays(Put(s, rev, rd), Put(s, rev, failed), rd.checkpoints);
    SameTelemetry(Put(s, rev, failed), rd.checkpoints, cp);
    hide LatestTelemetry, StagedMatches, StoredPacketHash, TelemetryFits, ReadsStay;
  }

  lemma ReasonReads(s: DateStore, rev: nat, rd: RunDir, more: RunDir)
    requires forall n :: n in rd.artifacts ==> n in more.artifacts && more.artifacts[n] == rd.artifacts[n]
    ensures ReadsStay(Put(s, rev, rd), Put(s, rev, more))
  {
  }

  /** A preparation that gives up, undisturbed, records why and publishes exactly that. */
  lemma GivesUp(e: Engine, s: DateStore, rd: RunDir, rev: nat, code: ErrorCode, at: Instant,
                quality: Option<QualityResult>, a: Answers)
    requires MayFail(rd, rev, code, at) && Measurable(s, rev, rd, a.measured(0)) && rev !in s.finals && rev !in s.index
    requires a.env(0) == Calm() && a.env(1) == Calm()
    ensures var (s', r) := OperationalFailure(e, Put(s, rev, rd), rev, code, at, quality, a);
            && ReportsCode(e, s', rev, Last(rd.checkpoints).delivery, code)
            && HandedOff(s', rev, r, code, quality)
  {
    var failed := FailureDir(rd, code, at);
    FailureIsRecorded(e, s, rd, rev, code, at);
    FailedIsFailing(rd, rev, code, at);
    FailedIsMeasurable(s, rd, rev, code, at, a.measured(0));
    hide Perform, PlanFailure, Failing, Measurable, Put, FailureDir, Load;
    FailureSteps(e, s, rd, rev, code, at, quality, a);
    FailedStateEnds(e, s, failed, rev, code, at, quality, a);
    assert failed.checkpoints != [] && Last(failed.checkpoints).delivery == Last(rd.checkpoints).delivery by {
      FailedKeepsDelivery(rd, code, at);
    }
  }

  lemma FailedKeepsDelivery(rd: RunDir, code: ErrorCode, at: Instant)
    requires rd.checkpoints != []
    ensures var failed := FailureDir(rd, code, at);
            failed.checkpoints != [] && Last(failed.checkpoints).delivery == Last(rd.checkpoints).delivery
  {
  }

  lemma FailureSteps(e: Engine, s: DateStore, rd: RunDir, rev: nat, code: ErrorCode, at: Instant,
                     quality: Option<QualityResult>, a: Answers)
    requires rd.context.Some? && rd.checkpoints != [] && !Last(rd.checkpoints).quality.Fail? && a.env(0) == Calm()
    requires Perform(Put(s, rev, rd), rev, PlanFailure(Put(s, rev, rd), rev, code, at), at, Calm())
             == (Put(s, rev, FailureDir(rd, code, at)), Ok(FailureRecorded))
    ensures OperationalFailure(e, Put(s, rev, rd), rev, code, at, quality, a)
            == EndFailed(e, Put(s, rev, FailureDir(rd, code, at)), rev, code, at, quality, a)
  {
    LoadPut(s, rev, rd);
    hide Perform, PlanFailure, Put, FailureDir, Load, EndFailed;
  }

  /** From a stage that is FAIL already the report follows at once. */
  lemma FailedStateEnds(e: Engine, s: DateStore, rd: RunDir, rev: nat, code: ErrorCode, at: Instant,
                        quality: Option<QualityResult>, a: Answers)
    requires Failing(rd, rev, code, at) && Measurable(s, rev, rd, a.measured(0)) && rev !in s.finals && rev !in s.index
    requires a.env(1) == Calm()
    ensures rd.checkpoints != []
    ensures var (s', r) := EndFailed(e, Put(s, rev, rd), rev, code, at, quality, a);
            && ReportsCode(e, s', rev, Last(rd.checkpoints).delivery, code)
            && HandedOff(s', rev, r, code, quality)
    ensures OperationalFailure(e, Put(s, rev, rd), rev, code, at, quality, a)
            == EndFailed(e, Put(s, rev, rd), rev, code, at, quality, a)
  {
    FailingEnds(e, s, rd, rev, code, at, false, a.measured(0));
    LoadPut(s, rev, rd);
    FailingIsLoaded(rd, rev, code, at);
    hide Perform, PlanOperational, PlanFailure, Failing, Measurable, Put, Load, PublishedResult, HandedOff, ReportsCode;
    assert FailingRun(rd).revision == rev;
  }

  lemma FailingIsLoaded(rd: RunDir, rev: nat, code: ErrorCode, at: Instant)
    requires Failing(rd, rev, code, at)
    ensures rd.context.Some? && rd.context.value.revision == rev && rd.checkpoints != [] && Last(rd.checkpoints).quality.Fail?
  {
  }

  /** A run that an operational report of this code can end, whether or not it is FAIL already. */
  predicate Endable(rd: RunDir, rev: nat, code: ErrorCode, at: Instant) {
    MayFail(rd, rev, code, at) || Failing(rd, rev, code, at)
  }

  /** What an undisturbed report of `code` gives readers and the caller. */
  ghost predicate EndsWith(e: Engine, outcome: (DateStore, Result<Handoff>), rev: nat, delivery: Delivery,
                           code: ErrorCode, quality: Option<QualityResult>)
  {
    ReportsCode(e, outcome.0, rev, delivery, code) && HandedOff(outcome.0, rev, outcome.1, code, quality)
  }

  /** The publisher's repository calls succeed, and its telemetry can be recorded. */
  ghost predicate Publishing(s: DateStore, rev: nat, rd: RunDir, a: Answers) {
    && a.env(0) == Calm() && a.env(1) == Calm()
    && Measurable(s, rev, rd, a.measured(0)) && rev !in s.finals && rev !in s.index
  }

  lemma EndsAnyway(e: Engine, s: DateStore, rd: RunDir, rev: nat, code: ErrorCode, at: Instant,
                   quality: Option<QualityResult>, a: Answers)
    requires Endable(rd, rev, code, at) && Publishing(s, rev, rd, a)
    ensures rd.checkpoints != []
    ensures EndsWith(e, OperationalFailure(e, Put(s, rev, rd), rev, code, at, quality, a), rev,
                     Last(rd.checkpoints).delivery, code, quality)
  {
    if MayFail(rd, rev, code, at) {
      GivesUp(e, s, rd, rev, code, at, quality, a);
    } else {
      FailedStateEnds(e, s, rd, rev, code, at, quality, a);
    }
    hide OperationalFailure, EndFailed, ReportsCode, HandedOff, Put;
  }

  // ---- Before preparation begins ----

  /** Nothing is prepared beyond collected evidence, and nothing gave up yet. */
  predicate Preparable(rd: RunDir) {
    && rd.checkpoints != []
    && ResearchPacket !in rd.artifacts && OperationalReason !in rd.artifacts
    && !StageAwaitsSynthesis(Last(rd.checkpoints).stage)
    && !Last(rd.checkpoints).stage.Published? && !Last(rd.checkpoints).stage.PreparationFailed?
  }

  /** Why a call ends its run before it prepares anything, with which code, at which clock reading. */
  predicate EndsAtOnce(a: Answers, rd: RunDir, code: ErrorCode, at: Instant) {
    || (a.retryWindow.CalendarDown? && code.MarketCalendarUnavailable? && at == a.now(0))
    || (a.retryWindow.ReportMissed? && code.MissedWindowCode? && at == a.now(0))
    || (a.retryWindow.InWindow? && a.missedAtStart && code.MissedWindowCode? && at == a.now(1))
    || (a.retryWindow.InWindow? && !a.missedAtStart && a.calendarDown && Preparable(rd)
        && code.MarketCalendarUnavailable? && at == a.now(1))
  }

  /** A run outside its window, or without a calendar, ends with the code that says so. */
  lemma WindowIsReported(e: Engine, p: Rules, s: DateStore, rd: RunDir, rev: nat, code: ErrorCode, at: Instant, a: Answers)
    requires EndsAtOnce(a, rd, code, at) && Endable(rd, rev, code, at) && Publishing(s, rev, rd, a)
    ensures rd.checkpoints != []
    ensures EndsWith(e, Prepare(e, p, Put(s, rev, rd), rev, a), rev, Last(rd.checkpoints).delivery, code, None)
  {
    hide OperationalFailure, EndsWith, Put, Load, ReadStaged, Endable, Publishing, ReusePacket, ResumeFailure, Assemble,
         PublishedResult;
    EndsAnyway(e, s, rd, rev, code, at, None, a);
    LoadPut(s, rev, rd);
    EndableLoads(rd, rev, code, at);
  }

  lemma EndableLoads(rd: RunDir, rev: nat, code: ErrorCode, at: Instant)
    requires Endable(rd, rev, code, at)
    ensures rd.context.Some? && rd.checkpoints != [] && LoadDir(rd, false).Some? && !LoadDir(rd, false).value.published
    ensures LoadDir(rd, false).value.checkpoints == rd.checkpoints
  {
  }

  /** Past the close the missed window is only recorded elsewhere: the run stays as it is. */
  lemma RecordedMissIsNotRun(e: Engine, p: Rules, s: DateStore, rev: nat, a: Answers)
    requires rev in s.staging && s.staging[rev].context.Some? && a.retryWindow.RecordMissed?
    ensures Prepare(e, p, s, rev, a) == (s, Ok(NotRun))
  {
    hide Assemble, OperationalFailure, ReusePacket, ResumeFailure;
  }

  // ---- While it prepares ----

  datatype Phase = Prior | Collection | Quality | Packaging

  /** The directory a phase of this course begins with. */
  function DirAt(c: Course, phase: Phase): RunDir {
    match phase
    case Prior => After0(c)
    case Collection => After1(c)
    case Quality => After2(c)
    case Packaging => After3(c)
  }

  /** When its newest checkpoint was written. */
  function WrittenAt(c: Course, phase: Phase): Instant {
    match phase
    case Prior => c.context.invokedAt
    case Collection => c.chosenAt
    case Quality => c.collection.completedAt
    case Packaging => c.judgedAt
  }

  /** The call enters preparation on a run within its window. */
  predicate Enters(a: Answers) {
    a.retryWindow.InWindow? && !a.missedAtStart && !a.calendarDown
  }

  /** The call has got as far as this phase of the course. */
  ghost predicate Arrives(a: Answers, p: Rules, c: Course, phase: Phase) {
    && Enters(a)
    && (!phase.Prior? ==> !a.expired(0) && a.prior == c.prior && a.now(2) == c.chosenAt && a.env(2) == Calm())
    && (phase.Quality? || phase.Packaging? ==>
          a.collect == Given(c.collection) && a.measured(3) == c.collected && a.env(3) == Calm())
    && (phase.Packaging? ==>
          && !p.providerTimedOut(c.collection) && !a.expired(1) && !c.quality.status.Fail?
          && a.quality == Given(c.quality) && a.now(4) == c.judgedAt && a.measured(4) == c.judged && a.env(4) == Calm())
  }

  /** The packet builder's answer for this course. */
  function Built(a: Answers, c: Course): Answer<string> {
    a.build(TheContext(c), c.collection, c.quality, c.prior)
  }

  /** How a phase fails: a deadline passed, the provider timed out, or a step that raises. */
  ghost predicate Fails(a: Answers, p: Rules, c: Course, phase: Phase, failure: Failure) {
    match phase
    case Prior => a.expired(0) && failure == Aborted(DeadlineExceeded)
    case Collection => a.collect == Raises(failure)
    case Quality =>
      if p.providerTimedOut(c.collection) || a.expired(1) then failure == Aborted(DeadlineExceeded)
      else a.quality == Raises(failure)
    case Packaging =>
      if a.expired(2) then failure == Aborted(DeadlineExceeded)
      else if Built(a, c).Raises? then Built(a, c) == Raises(failure)
      else a.expired(3) && failure == Aborted(DeadlineExceeded)
  }

  lemma StartedMayFail(c: Course, code: ErrorCode, at: Instant)
    requires c.context.cutoff.None? && !c.context.quality.Fail? && at >= c.context.invokedAt
    ensures MayFail(After0(c), c.context.revision, code, at) && Last(After0(c).checkpoints).delivery == c.context.delivery
  {
    var rd, cp := After0(c), StartCheckpoint(c.context);
    assert rd.checkpoints == [WithTelemetry(cp, c.started)];
    BoundNames(cp, c.started);
    BoundIsOtherwise(cp, c.started);
    BoundIsUnpacked(cp, c.started);
    NonePacked(rd.checkpoints);
    assert WithTelemetry(cp, c.started).artifacts == map[TelemetryArtifact(c.started).0 := TelemetryDigest(c.started)];
    hide WithTelemetry, StoredPacketHash;
  }

  lemma PriorMayFail(c: Course, code: ErrorCode, at: Instant)
    requires c.context.cutoff.None? && !c.context.quality.Fail? && at >= c.chosenAt
    ensures MayFail(After1(c), c.context.revision, code, at) && Last(After1(c).checkpoints).delivery == c.context.delivery
  {
    AfterOne(c);
    StartUnpacked(c);
    BoundIsOtherwise(StartCheckpoint(c.context), c.started);
    NonePacked(After1(c).checkpoints);
    hide After1, WithTelemetry, StoredPacketHash, LatestAt;
  }

  lemma CollectedNamesNoPacket(c: Course)
    requires c.context.cutoff.None?
    ensures StoredPacketHash(After2(c).checkpoints).None?
  {
    hide After1, After2, WithTelemetry, StoredPacketHash, LatestAt;
    AfterTwo(c);
    StartUnpacked(c);
    CollectedNames(c);
    BoundIsUnpacked(Fixed2(c), c.collected);
    var cps := After2(c).checkpoints;
    assert cps[0] == After1(c).checkpoints[0] && cps[1] == After1(c).checkpoints[1];
    NonePacked(cps);
  }

  lemma CollectedMayFail(c: Course, code: ErrorCode, at: Instant)
    requires c.context.cutoff.None? && !c.context.quality.Fail? && at >= c.collection.completedAt
    ensures MayFail(After2(c), c.context.revision, code, at) && Last(After2(c).checkpoints).delivery == c.context.delivery
  {
    hide After1, After2, WithTelemetry, StoredPacketHash, LatestAt;
    AfterTwo(c);
    MarkerOfCourse(c);
    CollectedNamesNoPacket(c);
  }

  lemma MarkerOfCourse(c: Course)
    requires c.context.cutoff.None?
    ensures var rd := After2(c);
            && rd.checkpoints != []
            && var marker := Last(rd.checkpoints);
            && marker.quality == c.context.quality && marker.revision == c.context.revision
  {
    AfterOne(c);
    BoundIsOtherwise(Fixed2(c), c.collected);
    BoundIsOtherwise(StartCheckpoint(c.context), c.started);
    hide After1, WithTelemetry, LatestAt;
  }

  lemma JudgedMayFail(c: Course, code: ErrorCode, at: Instant)
    requires c.context.cutoff.None? && !c.quality.status.Fail? && c.judgedAt >= c.collection.completedAt && at >= c.judgedAt
    ensures MayFail(After3(c), c.context.revision, code, at) && Last(After3(c).checkpoints).delivery == c.context.delivery
  {
    AfterThree(c);
    NoPacketYet(c);
    JudgedNames(c);
    JudgedIsStaged(c);
    BoundIsOtherwise(Judged3(c), c.judged);
    JudgedHasNoReason(c);
    hide After2, After3, WithTelemetry, Judged3, StoredPacketHash, Attempts;
  }

  lemma JudgedHasNoReason(c: Course)
    requires c.context.cutoff.None?
    ensures OperationalReason !in WithTelemetry(Judged3(c), c.judged).artifacts
  {
    JudgedNames(c);
    hide Judged3;
  }

  lemma JudgedIsStaged(c: Course)
    requires c.context.cutoff.None?
    ensures After3(c).checkpoints != [] && StagedMatches(After3(c).artifacts, Last(After3(c).checkpoints).artifacts)
  {
    AfterTwo(c);
    AfterThree(c);
    JudgedNames(c);
    hide After2, WithTelemetry, Judged3, LatestAt;
    BoundIsStaged(WithArtifact(After2(c), DataQuality, QualityBytes(c.quality)), Judged3(c), c.judged);
  }

  /** Every phase of a course can end with every code. */
  lemma PhaseMayFail(p: Rules, c: Course, phase: Phase, code: ErrorCode, at: Instant)
    requires Timely(p, c) && !c.context.quality.Fail? && (phase.Packaging? ==> !c.quality.status.Fail?)
    requires at >= WrittenAt(c, phase)
    ensures MayFail(DirAt(c, phase), c.context.revision, code, at)
    ensures Last(DirAt(c, phase).checkpoints).delivery == c.context.delivery
  {
    match phase
    case Prior => StartedMayFail(c, code, at);
    case Collection => PriorMayFail(c, code, at);
    case Quality => CollectedMayFail(c, code, at);
    case Packaging => JudgedMayFail(c, code, at);
    hide After0, After1, After2, After3, MayFail;
  }

  lemma PhaseIsMeasurable(p: Rules, s: DateStore, c: Course, phase: Phase, t: Telemetry)
    requires Timely(p, c)
    ensures Measurable(s, c.context.revision, DirAt(c, phase), t)
  {
    match phase
    case Prior => StartedMeasures(s, c, t);
    case Collection => PriorMeasures(s, c, t);
    case Quality => CollectedMeasures(p, s, c, t);
    case Packaging => TelemetryAfterThree(s, c); ThreeFits(c, t);
    hide After0, After1, After2, After3, LatestTelemetry, TelemetryFits, Put;
  }

  lemma StartedMeasures(s: DateStore, c: Course, t: Telemetry)
    ensures Measurable(s, c.context.revision, After0(c), t)
  {
    var rd := After0(c);
    ConfigNamesNoTelemetry(c);
    TelemetryContinues(s, c.context.revision, rd, rd.checkpoints, 0, StartCheckpoint(c.context), c.started);
    hide LatestTelemetry, WithTelemetry;
  }

  lemma PriorMeasures(s: DateStore, c: Course, t: Telemetry)
    ensures Measurable(s, c.context.revision, After1(c), t)
  {
    var rd := After1(c);
    AfterOne(c);
    ConfigNamesNoTelemetry(c);
    hide LatestTelemetry, WithTelemetry, LatestAt, After1;
    TelemetryContinues(s, c.context.revision, rd, rd.checkpoints, 0, StartCheckpoint(c.context), c.started);
  }

  lemma CollectedMeasures(p: Rules, s: DateStore, c: Course, t: Telemetry)
    requires Timely(p, c)
    ensures Measurable(s, c.context.revision, After2(c), t)
  {
    AfterTwo(c);
    CollectionReads(p, s, c);
    hide LatestTelemetry, WithTelemetry, LatestAt, After1, After2, LoadFrozen;
  }

  lemma ThreeFits(c: Course, t: Telemetry)
    requires c.context.cutoff.None?
    ensures TelemetryFits(After3(c), t)
  {
    AfterThree(c);
    hide After3, WithTelemetry;
  }

  lemma CollectionRaises(p: Rules, s: DateStore, c: Course, failure: Failure, t: Telemetry, env: Environment)
    requires Timely(p, c)
    ensures CollectAndFreeze(p, Put(s, c.context.revision, After1(c)), c.context, Raises(failure), t, env)
            == (Put(s, c.context.revision, After1(c)), Rejected(failure))
  {
    var rev, rd := c.context.revision, After1(c);
    AfterOne(c);
    PriorMeasures(s, c, c.started);
    LoadPut(s, rev, rd);
    hide LatestTelemetry, LatestAt, After1, WithTelemetry, StoredCollection, BindAndFreeze, Put;
  }

  lemma QualityRaises(p: Rules, s: DateStore, c: Course, failure: Failure, at: Instant, t: Telemetry, env: Environment)
    requires Timely(p, c)
    ensures CheckpointQuality(p, Put(s, c.context.revision, After2(c)), LoadDir(After2(c), false).value.run,
                              Raises(failure), at, t, env)
            == (Put(s, c.context.revision, After2(c)), Rejected(failure))
  {
    var rev, rd := c.context.revision, After2(c);
    AfterTwo(c);
    CollectionReads(p, s, c);
    LoadPut(s, rev, rd);
    hide LatestTelemetry, LatestAt, After2, WithTelemetry, StageAndAppend, Put, LoadFrozen, Load;
  }

  lemma ArrivesReaches(a: Answers, p: Rules, c: Course)
    requires Arrives(a, p, c, Packaging)
    ensures Reaches(a, p, c)
  {
  }

  lemma PriorFails(e: Engine, p: Rules, s: DateStore, c: Course, a: Answers, failure: Failure)
    requires Timely(p, c) && Arrives(a, p, c, Prior) && Fails(a, p, c, Prior, failure)
    ensures Assemble(e, p, Put(s, c.context.revision, After0(c)), c.context, a)
            == (Put(s, c.context.revision, After0(c)), Rejected(failure))
  {
    hide After0, FreezePrior, CollectAndFreeze, Evaluate, Put, Timely;
  }

  lemma CollectionFails(e: Engine, p: Rules, s: DateStore, c: Course, a: Answers, failure: Failure)
    requires Timely(p, c) && Arrives(a, p, c, Phase.Collection) && Fails(a, p, c, Phase.Collection, failure)
    ensures Assemble(e, p, Put(s, c.context.revision, After0(c)), c.context, a)
            == (Put(s, c.context.revision, After1(c)), Rejected(failure))
  {
    PriorCalmly(p, s, c);
    CollectionRaises(p, s, c, failure, a.measured(3), a.env(3));
    hide After0, After1, FreezePrior, CollectAndFreeze, Evaluate, Put, Timely;
  }

  /** Up to the frozen collection. */
  lemma AssembleCollects(e: Engine, p: Rules, s: DateStore, c: Course, a: Answers)
    requires Timely(p, c) && Arrives(a, p, c, Quality)
    ensures LoadDir(After2(c), false).Some?
    ensures var s2 := Put(s, c.context.revision, After2(c));
            Assemble(e, p, Put(s, c.context.revision, After0(c)), c.context, a)
            == if p.providerTimedOut(c.collection) || a.expired(1) then (s2, Rejected(Aborted(DeadlineExceeded)))
               else Evaluate(e, p, s2, LoadDir(After2(c), false).value.run, c.collection, c.prior, a)
  {
    hide After0, After1, After2, FreezePrior, CollectAndFreeze, Evaluate, Put, LatestAt;
    AfterTwo(c);
    PriorCalmly(p, s, c);
    CollectCalmly(p, s, c);
    hide Timely;
  }

  lemma EvaluateRaises(e: Engine, p: Rules, s: DateStore, run: RunContext, collection: Collection, prior: string,
                       a: Answers, failure: Failure)
    requires CheckpointQuality(p, s, run, a.quality, a.now(4), a.measured(4), a.env(4)) == (s, Rejected(failure))
    ensures Evaluate(e, p, s, run, collection, prior, a) == (s, Rejected(failure))
  {
    hide CheckpointQuality;
  }

  lemma QualityFails(e: Engine, p: Rules, s: DateStore, c: Course, a: Answers, failure: Failure)
    requires Timely(p, c) && Arrives(a, p, c, Quality) && Fails(a, p, c, Quality, failure)
    ensures Assemble(e, p, Put(s, c.context.revision, After0(c)), c.context, a)
            == (Put(s, c.context.revision, After2(c)), Rejected(failure))
  {
    hide After0, After2, Assemble, Evaluate, CheckpointQuality, Put, Timely, Arrives;
    AssembleCollects(e, p, s, c, a);
    if !(p.providerTimedOut(c.collection) || a.expired(1)) {
      QualityRaises(p, s, c, failure, a.now(4), a.measured(4), a.env(4));
      EvaluateRaises(e, p, Put(s, c.context.revision, After2(c)), LoadDir(After2(c), false).value.run, c.collection, c.prior,
                     a, failure);
    }
  }

  /** The last phase, stopped by a deadline or by the builder. */
  lemma EvaluateStops(e: Engine, p: Rules, s: DateStore, run: RunContext, collection: Collection, prior: string,
                      a: Answers, s1: DateStore, quality: QualityResult, before: Stored, context: RunContext,
                      failure: Failure)
    requires CheckpointQuality(p, s, run, a.quality, a.now(4), a.measured(4), a.env(4)) == (s1, Ok(quality))
    requires !quality.status.Fail? && Load(s1, run.revision) == Some(before) && before.checkpoints != []
    requires context == ComposeRun(before.run, Last(before.checkpoints)).(execution := Execution.AwaitingSynthesis)
    requires if a.expired(2) then failure == Aborted(DeadlineExceeded)
             else if a.build(context, collection, quality, prior).Raises? then
               a.build(context, collection, quality, prior) == Raises(failure)
             else a.expired(3) && failure == Aborted(DeadlineExceeded)
    ensures Evaluate(e, p, s, run, collection, prior, a) == (s1, Rejected(failure))
  {
    hide CheckpointQuality, StagePacket, Load, OperationalFailure;
  }

  lemma PackagingFails(e: Engine, p: Rules, s: DateStore, c: Course, a: Answers, failure: Failure)
    requires Timely(p, c) && Arrives(a, p, c, Packaging) && Fails(a, p, c, Packaging, failure)
    ensures Assemble(e, p, Put(s, c.context.revision, After0(c)), c.context, a)
            == (Put(s, c.context.revision, After3(c)), Rejected(failure))
  {
    hide After0, After1, After2, After3, Assemble, CheckpointQuality, Put, Load, Evaluate, WithTelemetry, LatestAt, ReadStaged;
    var rev := c.context.revision;
    ArrivesReaches(a, p, c);
    AssembleReaches(e, p, s, c, a);
    QualityCalmly(p, s, c);
    AfterTwo(c);
    AfterThree(c);
    LoadPut(s, rev, After3(c));
    assert LoadDir(After2(c), false).value.run.revision == rev;
    EvaluateStops(e, p, Put(s, rev, After2(c)), LoadDir(After2(c), false).value.run, c.collection, c.prior, a,
                  Put(s, rev, After3(c)), c.quality, LoadDir(After3(c), false).value, TheContext(c), failure);
  }

  /** A failing phase leaves the directory it began with. */
  lemma PhaseFails(e: Engine, p: Rules, s: DateStore, c: Course, a: Answers, phase: Phase, failure: Failure)
    requires Timely(p, c) && Arrives(a, p, c, phase) && Fails(a, p, c, phase, failure)
    ensures Assemble(e, p, Put(s, c.context.revision, After0(c)), c.context, a)
            == (Put(s, c.context.revision, DirAt(c, phase)), Rejected(failure))
  {
    match phase
    case Prior => PriorFails(e, p, s, c, a, failure);
    case Collection => CollectionFails(e, p, s, c, a, failure);
    case Quality => QualityFails(e, p, s, c, a, failure);
    case Packaging => PackagingFails(e, p, s, c, a, failure);
    hide After0, After1, After2, After3, Assemble, Put, Fails, Arrives, Timely;
  }

  lemma PrepareFails(e: Engine, p: Rules, s: DateStore, c: Course, a: Answers, phase: Phase, failure: Failure)
    requires Timely(p, c) && Arrives(a, p, c, phase) && Fails(a, p, c, phase, failure)
    ensures var rev, s1 := c.context.revision, Put(s, c.context.revision, DirAt(c, phase));
            Prepare(e, p, Put(s, rev, After0(c)), rev, a)
            == if failure.Aborted? then OperationalFailure(e, s1, rev, failure.code, a.now(7), None, a)
               else (s1, Rejected(failure))
  {
    var rev, rd := c.context.revision, After0(c);
    PhaseFails(e, p, s, c, a, phase, failure);
    StartedIsClean(c);
    LoadPut(s, rev, rd);
    hide After0, DirAt, Assemble, Put, Fails, Timely, Load, ReadStaged, OperationalFailure;
  }

  /**
   From a started run an undisturbed call that gives up, in whatever phase, publishes the
   operational report of exactly the code it gave up with and hands that off: a deadline or a
   provider out of time as such, a raised code as it was raised. A failure that is none of those
   is returned, and the run stays as the phase before left it.
   */
  lemma EveryCauseIsReported(e: Engine, p: Rules, s: DateStore, c: Course, a: Answers, phase: Phase, failure: Failure)
    requires Timely(p, c) && Arrives(a, p, c, phase) && Fails(a, p, c, phase, failure) && !c.context.quality.Fail?
    requires a.env(0) == Calm() && a.env(1) == Calm() && a.now(7) >= WrittenAt(c, phase)
    requires c.context.revision !in s.finals && c.context.revision !in s.index
    ensures var rev := c.context.revision;
            var outcome := Prepare(e, p, Put(s, rev, After0(c)), rev, a);
            if failure.Aborted? then EndsWith(e, outcome, rev, c.context.delivery, failure.code, None)
            else outcome == (Put(s, rev, DirAt(c, phase)), Rejected(failure))
  {
    var rev, rd := c.context.revision, DirAt(c, phase);
    PrepareFails(e, p, s, c, a, phase, failure);
    if failure.Aborted? {
      assert phase.Packaging? ==> !c.quality.status.Fail?;
      PhaseMayFail(p, c, phase, failure.code, a.now(7));
      PhaseIsMeasurable(p, s, c, phase, a.measured(0));
      hide DirAt, After0, Prepare, OperationalFailure, MayFail, Failing, Measurable, EndsWith, Put, Fails, Arrives, Timely;
      EndsAnyway(e, s, rd, rev, failure.code, a.now(7), None, a);
    }
  }

  /**
   A course interrupted after any of its phases, a just started run among them, ends with the code
   of its window, or of its calendar, as soon as a call finds it so.
   */
  lemma CourseWindowIsReported(e: Engine, p: Rules, s: DateStore, c: Course, phase: Phase, code: ErrorCode, at: Instant,
                               a: Answers)
    requires Timely(p, c) && !c.context.quality.Fail? && (phase.Packaging? ==> !c.quality.status.Fail?)
    requires EndsAtOnce(a, DirAt(c, phase), code, at) && at >= WrittenAt(c, phase)
    requires a.env(0) == Calm() && a.env(1) == Calm()
    requires c.context.revision !in s.finals && c.context.revision !in s.index
    ensures var rev := c.context.revision;
            EndsWith(e, Prepare(e, p, Put(s, rev, DirAt(c, phase)), rev, a), rev, c.context.delivery, code, None)
  {
    hide DirAt, Prepare, MayFail, Failing, Measurable, EndsWith, Put, Timely, EndsAtOnce;
    PhaseMayFail(p, c, phase, code, at);
    PhaseIsMeasurable(p, s, c, phase, a.measured(0));
    WindowIsReported(e, p, s, DirAt(c, phase), c.context.revision, code, at, a);
  }

  // ---- FAIL quality ----

  /** A timely course whose quality is FAIL, for a reason. */
  ghost predicate FailsQuality(p: Rules, c: Course) {
    Timely(p, c) && c.quality.status.Fail? && c.quality.reasons != []
  }

  /** The answers of a call that finds FAIL quality and publishes it without further failures. */
  ghost predicate ReachesFailure(a: Answers, p: Rules, c: Course) {
    Reaches(a, p, c) && a.now(5) >= c.judgedAt && a.env(1) == Calm()
  }

  lemma JudgedIsFailing(p: Rules, c: Course, code: ErrorCode, at: Instant)
    requires FailsQuality(p, c) && at >= c.judgedAt
    ensures Failing(After3(c), c.context.revision, code, at)
    ensures Last(After3(c).checkpoints).delivery == c.context.delivery
  {
    AfterThree(c);
    NoPacketYet(c);
    NamesAreFree(c);
    JudgedIsStaged(c);
    JudgedHasNoReason(c);
    BusinessIsStaged(After3(c).artifacts, Last(After3(c).checkpoints).artifacts);
    hide After3, WithTelemetry, Judged3, StoredPacketHash, Attempts, StagedMatches, Business;
  }

  lemma EvaluateFails(e: Engine, p: Rules, s: DateStore, c: Course, a: Answers)
    requires FailsQuality(p, c) && Reaches(a, p, c) && After2(c).context.Some?
    ensures Evaluate(e, p, Put(s, c.context.revision, After2(c)), LoadDir(After2(c), false).value.run, c.collection,
                     c.prior, a)
            == OperationalFailure(e, Put(s, c.context.revision, After3(c)), c.context.revision, c.quality.reasons[0],
                                  a.now(5), Some(c.quality), a)
  {
    AfterTwo(c);
    QualityCalmly(p, s, c);
    hide After2, After3, CheckpointQuality, OperationalFailure, Put, Load;
  }

  /**
   From a started run an undisturbed call that finds FAIL quality publishes the operational
   report of its first reason, and hands off that reason with the quality that explains it.
   */
  lemma FailureIsPublished(e: Engine, p: Rules, s: DateStore, c: Course, a: Answers)
    requires FailsQuality(p, c) && ReachesFailure(a, p, c)
    requires c.context.revision !in s.finals && c.context.revision !in s.index
    ensures var rev := c.context.revision;
            EndsWith(e, Prepare(e, p, Put(s, rev, After0(c)), rev, a), rev, c.context.delivery, c.quality.reasons[0],
                     Some(c.quality))
  {
    var rev, code, at := c.context.revision, c.quality.reasons[0], a.now(5);
    JudgedIsFailing(p, c, code, at);
    TelemetryAfterThree(s, c);
    ThreeFits(c, a.measured(0));
    AssembleReaches(e, p, s, c, a);
    EvaluateFails(e, p, s, c, a);
    hide After0, After2, After3, Assemble, Evaluate, OperationalFailure, Prepare, Put, Failing, EndFailed, LatestTelemetry,
         TelemetryFits, ReportsCode;
    FailedStateEnds(e, s, After3(c), rev, code, at, Some(c.quality), a);
    PrepareIsAssemble(e, p, s, c, a);
  }

  lemma PrepareIsAssemble(e: Engine, p: Rules, s: DateStore, c: Course, a: Answers)
    requires Timely(p, c) && Reaches(a, p, c)
    requires var r := Assemble(e, p, Put(s, c.context.revision, After0(c)), c.context, a).1;
             !(r.Rejected? && r.failure.Aborted?)
    ensures Prepare(e, p, Put(s, c.context.revision, After0(c)), c.context.revision, a)
            == Assemble(e, p, Put(s, c.context.revision, After0(c)), c.context, a)
  {
    var rev, rd := c.context.revision, After0(c);
    StartedIsClean(c);
    LoadPut(s, rev, rd);
    hide After0, Assemble, Load, ReadStaged, Prepare, Put;
    PrepareAssembles(e, p, Put(s, rev, rd), rev, a, LoadDir(rd, false).value);
  }
}
