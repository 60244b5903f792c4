/**
 Preparation that is resumed: a run whose preparation gave up, and stopped anywhere while giving
 up, is ended by the next call with the code it gave up with.
 */
module Resumptions {
  import opened RunTypes
  import opened RunStore
  import opened RunHistory
  import opened Publication
  import opened FinalBundle
  import opened PublicationMachine
  import opened PublicationService
  import opened Preparation
  import opened PreparedEvidence
  import opened Undisturbed
  import opened Endings
  import opened Retries
  import opened RepeatedCalls
  import opened Failures

  // ---- A staged reason is resumed ----

  /** The staged quality that explains a code: FAIL, and the code is one of its reasons. */
  function Explained(rd: RunDir, code: ErrorCode): Option<QualityResult> {
    if DataQuality in rd.artifacts && rd.artifacts[DataQuality].QualityBytes?
       && rd.artifacts[DataQuality].quality.status.Fail? && code in rd.artifacts[DataQuality].quality.reasons
    then Some(rd.artifacts[DataQuality].quality) else None
  }

  /** A reason is staged, and nothing contradicts it. */
  predicate GaveUp(rd: RunDir) {
    && rd.checkpoints != []
    && OperationalReason in rd.artifacts && NothingPackaged(rd)
  }

  /** No packet yet, and quality, if staged, is the one the newest checkpoint names. */
  predicate NothingPackaged(rd: RunDir)
    requires rd.checkpoints != []
  {
    && ResearchPacket !in rd.artifacts
    && !StageAwaitsSynthesis(Last(rd.checkpoints).stage)
    && (DataQuality in rd.artifacts ==>
          && rd.artifacts[DataQuality].QualityBytes?
          && DataQuality in Last(rd.checkpoints).artifacts
          && Last(rd.checkpoints).artifacts[DataQuality] == Sha256(rd.artifacts[DataQuality]))
  }

  predicate InsideWindow(a: Answers) {
    a.retryWindow.InWindow? && !a.missedAtStart
  }

  /** A call that finds a staged reason carries on with giving up, whatever else it would answer. */
  lemma ResumesWithReason(e: Engine, p: Rules, s: DateStore, rd: RunDir, rev: nat, code: ErrorCode, a: Answers)
    requires rd.context.Some? && GaveUp(rd) && rd.artifacts[OperationalReason] == CodeBytes(code) && InsideWindow(a)
    requires OperationalReason in Last(rd.checkpoints).artifacts ==>
               Last(rd.checkpoints).artifacts[OperationalReason] == Sha256(CodeBytes(code))
    ensures Prepare(e, p, Put(s, rev, rd), rev, a)
            == OperationalFailure(e, Put(s, rev, rd), rev, code, a.now(1), Explained(rd, code), a)
  {
    LoadPut(s, rev, rd);
    hide Put, Load, ReadStaged, OperationalFailure, Assemble, ReusePacket, PublishedResult;
  }

  lemma StagedReasonIsResumed(e: Engine, p: Rules, s: DateStore, rd: RunDir, rev: nat, code: ErrorCode, a: Answers)
    requires Endable(rd, rev, code, a.now(1)) && GaveUp(rd) && InsideWindow(a) && Publishing(s, rev, rd, a)
    ensures EndsWith(e, Prepare(e, p, Put(s, rev, rd), rev, a), rev, Last(rd.checkpoints).delivery, code,
                     Explained(rd, code))
  {
    EndsAnyway(e, s, rd, rev, code, a.now(1), Explained(rd, code), a);
    EndableNames(rd, rev, code, a.now(1));
    ResumesWithReason(e, p, s, rd, rev, code, a);
    hide Prepare, OperationalFailure, Put, EndsWith, Endable;
  }

  lemma EndableNames(rd: RunDir, rev: nat, code: ErrorCode, at: Instant)
    requires Endable(rd, rev, code, at)
    ensures rd.context.Some? && rd.checkpoints != []
    ensures OperationalReason in rd.artifacts ==> rd.artifacts[OperationalReason] == CodeBytes(code)
    ensures OperationalReason in Last(rd.checkpoints).artifacts ==>
              Last(rd.checkpoints).artifacts[OperationalReason] == Sha256(CodeBytes(code))
  {
  }

  // ---- What giving up leaves ----

  /** A recorded checkpoint, disturbed: part of its writes, or all of it. */
  lemma RecordLeaves(s: DateStore, rev: nat, rd: RunDir, writes: Writes, cp: Checkpoint, expected: nat, now: Instant,
                     env: Environment)
    requires Agrees(rd, writes)
    requires AppendIfCurrent(Put(s, rev, StagedAll(rd, writes)), rev, cp, expected, NoFault).1.Ok?
    ensures var (s1, r) := Perform(Put(s, rev, rd), rev, Record(writes, cp, expected, None), now, env);
            && (PartlyStaged(s, s1, rev, rd, writes, false) || s1 == Put(s, rev, Append(StagedAll(rd, writes), cp)))
            && (r.Ok? ==> s1 == Put(s, rev, Append(StagedAll(rd, writes), cp)))
  {
    hide StageAll, AppendIfCurrent, StagedAll, Agrees, Put, Under;
    StagesPart(s, rev, rd, writes, env, 0);
    var (s0, staged) := StageAll(Put(s, rev, rd), rev, writes, env, 0);
    if staged.Ok? {
      assert s0 == Put(s, rev, StagedAll(rd, writes));
      AppendsOrNot(s, rev, StagedAll(rd, writes), cp, expected, env(|writes|));
      PartIsPart(s, rev, StagedAll(rd, writes));
      hide PartlyStaged;
      AppendedAlike(s0, rev, cp, expected, env(|writes|));
    }
  }

  lemma AppendedAlike(s: DateStore, rev: nat, cp: Checkpoint, expected: nat, fault: Fault)
    ensures AppendIfCurrent(s, rev, cp, expected, fault).1.Ok? ==>
              AppendIfCurrent(s, rev, cp, expected, fault) == AppendIfCurrent(s, rev, cp, expected, NoFault)
  {
    if AppendIfCurrent(s, rev, cp, expected, fault).1.Ok? { AppendedAnyway(s, rev, cp, expected, fault); }
  }

  /** The reason alone, staged or not. */
  lemma ReasonOrNot(rd: RunDir, code: ErrorCode, part: RunDir)
    requires Agrees(rd, [(OperationalReason, CodeBytes(code))])
    requires Under(rd, part) && Under(part, StagedAll(rd, [(OperationalReason, CodeBytes(code))]))
    ensures StagedAll(rd, [(OperationalReason, CodeBytes(code))]) == Reasoned(rd, FailureReason(code))
    ensures OperationalReason in part.artifacts ==> part == Reasoned(rd, FailureReason(code))
  {
    var one := [(OperationalReason, CodeBytes(code))];
    assert one[1..] == [];
    assert StagedAll(Reasoned(rd, FailureReason(code)), []) == Reasoned(rd, FailureReason(code));
    if OperationalReason in part.artifacts {
      assert part.artifacts == Reasoned(rd, FailureReason(code)).artifacts;
    }
  }

  lemma ReasonedMayFail(rd: RunDir, rev: nat, code: ErrorCode, at: Instant, later: Instant)
    requires MayFail(rd, rev, code, at) && later >= at
    ensures MayFail(Reasoned(rd, FailureReason(code)), rev, code, later)
  {
    hide StoredPacketHash;
  }

  /** A FAIL directory with more telemetry staged is as it was for its report. */
  lemma MoreIsFailing(rd: RunDir, rev: nat, code: ErrorCode, at: Instant, later: Instant, part: RunDir)
    requires Failing(rd, rev, code, at) && later >= at && Under(rd, part)
    requires OperationalReason in rd.artifacts
    requires forall n :: n in part.artifacts && !n.TelemetryName? ==> n in rd.artifacts
    ensures Failing(part, rev, code, later)
  {
    hide StoredPacketHash, Business;
  }

  /** Any telemetry can be bound next, and the newest can be read. */
  ghost predicate AllMeasurable(s: DateStore, rev: nat, rd: RunDir) {
    (forall t :: TelemetryFits(rd, t)) && !LatestTelemetry(Put(s, rev, rd), rd.checkpoints).Malformed?
  }

  lemma MoreIsMeasurable(s: DateStore, rev: nat, rd: RunDir, part: RunDir, full: RunDir)
    requires AllMeasurable(s, rev, rd) && Under(rd, part)
    requires forall n :: n in part.artifacts ==> n in full.artifacts && full.artifacts[n] == part.artifacts[n]
    requires forall t :: TelemetryFits(full, t)
    ensures AllMeasurable(s, rev, part)
  {
    forall t ensures TelemetryFits(part, t) {
      assert TelemetryFits(full, t);
    }
    ReasonReads(s, rev, rd, part);
    LatestStays(Put(s, rev, rd), Put(s, rev, part), rd.checkpoints);
    hide LatestTelemetry;
  }

  lemma LoadedFits(rd: RunDir, code: ErrorCode, t: Telemetry)
    requires forall u :: TelemetryFits(rd, u)
    ensures forall u :: TelemetryFits(Loaded(rd, FailureReason(code), t), u)
    ensures forall u :: TelemetryFits(Reasoned(rd, FailureReason(code)), u)
  {
    forall u
      ensures TelemetryFits(Loaded(rd, FailureReason(code), t), u) && TelemetryFits(Reasoned(rd, FailureReason(code)), u)
    {
      assert TelemetryFits(rd, u);
      FitsLater(rd, OperationalReason, CodeBytes(code), u);
      FitsLater(Reasoned(rd, FailureReason(code)), TelemetryArtifact(t).0, TelemetryArtifact(t).1, u);
    }
  }

  function ReportWrites(code: ErrorCode, t: Telemetry): Writes {
    [FailureReason(code).value] + [TelemetryArtifact(t)]
  }

  lemma ReportStages(rd: RunDir, code: ErrorCode, t: Telemetry)
    ensures StagedAll(rd, ReportWrites(code, t)) == Loaded(rd, FailureReason(code), t)
  {
    var writes := ReportWrites(code, t);
    assert writes[1..] == [TelemetryArtifact(t)] && [TelemetryArtifact(t)][1..] == [];
    assert StagedAll(Loaded(rd, FailureReason(code), t), []) == Loaded(rd, FailureReason(code), t);
    assert StagedAll(Reasoned(rd, FailureReason(code)), [TelemetryArtifact(t)])
           == StagedAll(Loaded(rd, FailureReason(code), t), []);
  }

  /** The final checkpoint and the bundle of a report. */
  function ReportFinal(rd: RunDir, rev: nat, code: ErrorCode, at: Instant, t: Telemetry): Checkpoint
    requires rd.checkpoints != []
  {
    WithTelemetry(FailureFinal(rd, rev, code, at), t)
  }

  function ReportDecision(e: Engine, rd: RunDir, rev: nat, code: ErrorCode, at: Instant, t: Telemetry): Decision
    requires rd.checkpoints != [] && rd.context.Some?
  {
    Closing(rd, ReportFinal(rd, rev, code, at, t), FailureReason(code), OperationalContents(code), t,
            OperationalMarkdown(e, FailingRun(rd), code))
  }

  /** Where a report that was begun from a FAIL directory can have stopped. */
  ghost predicate ReportStopped(e: Engine, s: DateStore, s1: DateStore, rd: RunDir, rev: nat, code: ErrorCode, at: Instant,
                                t: Telemetry)
    requires rd.checkpoints != [] && rd.context.Some?
  {
    || PartlyStaged(s, s1, rev, rd, ReportWrites(code, t), false)
    || LeftBy(s, s1, rev, Append(Loaded(rd, FailureReason(code), t), ReportFinal(rd, rev, code, at, t)),
              ReportDecision(e, rd, rev, code, at, t).bundle)
  }

  /** The report of a FAIL directory, disturbed. */
  lemma ReportLeaves(e: Engine, s: DateStore, rd: RunDir, rev: nat, code: ErrorCode, at: Instant,
                     quality: Option<QualityResult>, a: Answers)
    requires Failing(rd, rev, code, at) && Measurable(s, rev, rd, a.measured(0)) && rev !in s.finals && rev !in s.index
    ensures rd.checkpoints != [] && rd.context.Some?
    ensures ReportStopped(e, s, EndFailed(e, Put(s, rev, rd), rev, code, at, quality, a).0, rd, rev, code, at, a.measured(0))
    ensures var d := ReportDecision(e, rd, rev, code, at, a.measured(0));
            && Ends(s, rev, rd, d.writes, d.cp, d.expected, d.bundle) && d.bundle.run.revision == rev
            && d.writes == ReportWrites(code, a.measured(0))
            && PlanOperational(e, Put(s, rev, rd), FailingRun(rd), code, at, false, a.measured(0)) == d
  {
    var t := a.measured(0);
    FailingEnds(e, s, rd, rev, code, at, false, t);
    FailureIsPlanned(e, s, rd, rev, code, at, false, t);
    FailingIsLoaded(rd, rev, code, at);
    LoadPut(s, rev, rd);
    ReportStages(rd, code, t);
    var d := ReportDecision(e, rd, rev, code, at, t);
    hide Failing, Measurable, Put, PlanOperational, Perform, Load, PublishedResult, ReportsCode, HandedOff, Ends, PartlyStaged,
         LeftBy, WithTelemetry;
    WholeEnds(s, rev, rd, d.writes, d.cp, d.expected, d.bundle, at, Calm());
    CloseLeaves(s, rev, rd, d.writes, d.cp, d.expected, d.bundle, at, a.env(1));
    assert FailingRun(rd).revision == rev;
  }

  // ---- Resuming from each of these places ----

  lemma PartGaveUp(rd: RunDir, code: ErrorCode, t: Telemetry, part: RunDir)
    requires rd.checkpoints != [] && GaveUp(rd) && rd.artifacts[OperationalReason] == CodeBytes(code)
    requires Under(rd, part) && Under(part, Loaded(rd, FailureReason(code), t))
    ensures GaveUp(part) && Explained(part, code) == Explained(rd, code)
    ensures forall n :: n in part.artifacts && !n.TelemetryName? ==> n in rd.artifacts
  {
  }

  /** Stopped while staging the report: it is begun again. */
  lemma PartIsResumed(e: Engine, p: Rules, s: DateStore, rd: RunDir, rev: nat, code: ErrorCode, at: Instant, t: Telemetry,
                      part: RunDir, b: Answers)
    requires Failing(rd, rev, code, at) && AllMeasurable(s, rev, rd) && rev !in s.finals && rev !in s.index
    requires GaveUp(rd) && rd.artifacts[OperationalReason] == CodeBytes(code)
    requires Under(rd, part) && Under(part, Loaded(rd, FailureReason(code), t))
    requires InsideWindow(b) && b.now(1) >= at && b.env(0) == Calm() && b.env(1) == Calm()
    ensures EndsWith(e, Prepare(e, p, Put(s, rev, part), rev, b), rev, Last(rd.checkpoints).delivery, code,
                     Explained(rd, code))
  {
    PartGaveUp(rd, code, t, part);
    MoreIsFailing(rd, rev, code, at, b.now(1), part);
    LoadedFits(rd, code, t);
    MoreIsMeasurable(s, rev, rd, part, Loaded(rd, FailureReason(code), t));
    hide Failing, GaveUp, Loaded, Prepare, EndsWith, Put, LatestTelemetry, TelemetryFits;
    assert TelemetryFits(part, b.measured(0));
    StagedReasonIsResumed(e, p, s, part, rev, code, b);
  }

  /** The final checkpoint of a report names what its predecessor named. */
  lemma FinalGaveUp(rd: RunDir, rev: nat, code: ErrorCode, at: Instant, t: Telemetry, done: RunDir)
    requires rd.checkpoints != [] && NothingPackaged(rd) && rd.context.Some?
    requires SameRun(Append(Loaded(rd, FailureReason(code), t), ReportFinal(rd, rev, code, at, t)), done)
    ensures GaveUp(done) && Explained(done, code) == Explained(rd, code)
    ensures done.context.Some? && done.artifacts[OperationalReason] == CodeBytes(code)
    ensures var cp := Last(done.checkpoints);
            && cp == ReportFinal(rd, rev, code, at, t) && cp.quality.Fail? && cp.delivery == Last(rd.checkpoints).delivery
            && cp.execution.Published?
            && (OperationalReason in cp.artifacts ==> cp.artifacts[OperationalReason] == Sha256(CodeBytes(code)))
  {
    var cp := ReportFinal(rd, rev, code, at, t);
    BoundIsOtherwise(FailureFinal(rd, rev, code, at), t);
    assert Last(done.checkpoints) == cp;
    if DataQuality in done.artifacts { KeptName(FailureFinal(rd, rev, code, at), t, DataQuality); }
    KeptName(FailureFinal(rd, rev, code, at), t, OperationalReason);
    hide WithTelemetry;
  }

  lemma FinalRun(rd: RunDir, rev: nat, code: ErrorCode, at: Instant, t: Telemetry, done: RunDir)
    requires rd.context.Some? && rd.checkpoints != [] && Last(rd.checkpoints).quality.Fail?
    requires SameRun(Append(Loaded(rd, FailureReason(code), t), ReportFinal(rd, rev, code, at, t)), done)
    ensures done.context.Some? && done.checkpoints != []
    ensures FailingRun(done) == FailingRun(rd).(execution := FailingRun(done).execution)
    ensures FailingRun(done).revision == FailingRun(rd).revision
  {
    BoundIsOtherwise(FailureFinal(rd, rev, code, at), t);
    assert Last(done.checkpoints) == ReportFinal(rd, rev, code, at, t);
    hide WithTelemetry;
  }

  /** Stopped after the final checkpoint: the report is finished. */
  lemma FinalIsFinished(e: Engine, s: DateStore, rd: RunDir, rev: nat, code: ErrorCode, at: Instant, t: Telemetry,
                        done: RunDir, later: Instant, u: Telemetry)
    requires rd.context.Some? && rd.context.value.revision == rev && rd.checkpoints != [] && Last(rd.checkpoints).quality.Fail?
    requires var d := ReportDecision(e, rd, rev, code, at, t);
             && Ends(s, rev, rd, d.writes, d.cp, d.expected, d.bundle) && d.bundle.run.revision == rev
             && d.writes == ReportWrites(code, t)
             && PlanOperational(e, Put(s, rev, rd), FailingRun(rd), code, at, false, t) == d
    requires SameRun(Append(Loaded(rd, FailureReason(code), t), ReportFinal(rd, rev, code, at, t)), done) && later >= at
    ensures done.context.Some? && done.checkpoints != []
    ensures PlanOperational(e, Put(s, rev, done), FailingRun(done), code, later, false, u)
            == Finish(ReportDecision(e, rd, rev, code, at, t).bundle)
  {
    hide StagedAll, WithTelemetry, Publishable, Conflicts, AppendIfCurrent, PlanOperational, Agrees, Loaded, EndedBy, Load,
         SameRun;
    var d, s0, s1 := ReportDecision(e, rd, rev, code, at, t), Put(s, rev, rd), Put(s, rev, done);
    FinalRun(rd, rev, code, at, t, done);
    ReportStages(rd, code, t);
    LoadPut(s, rev, rd);
    PutOverPut(s, rev, rd, done);
    assert FailingRun(rd).revision == rev;
    assert LeftBy(s0, s1, rev, Append(StagedAll(rd, d.writes), d.cp), d.bundle);
    EndIsThere(s0, s1, rev, d.writes, d.cp, d.bundle);
    OperationalFinishes(e, s0, s1, FailingRun(rd), code, at, false, t, FailingRun(done), later, false, u);
  }

  lemma PutOverPut(s: DateStore, rev: nat, a: RunDir, b: RunDir)
    ensures rev in Put(s, rev, a).staging && Put(s, rev, a).staging[rev] == a
    ensures Put(Put(s, rev, a), rev, b) == Put(s, rev, b)
    ensures rev in Put(s, rev, b).staging && Put(s, rev, b).staging[rev] == b
  {
    assert Put(s, rev, a).staging[rev := b] == s.staging[rev := b];
  }

  /** A finished report is handed off as it was published. */
  lemma FinishHandsOff(e: Engine, s: DateStore, rev: nat, done: RunDir, bundle: Bundle, code: ErrorCode, now: Instant,
                       quality: Option<QualityResult>)
    requires Publishable(Put(s, rev, done), bundle) && bundle.run.revision == rev && !Conflicts(Put(s, rev, done), bundle)
    requires done.context.Some? && done.checkpoints != [] && Last(done.checkpoints).execution.Published?
    requires bundle.contents == OperationalContents(code) && bundle.run == FailingRun(done) && bundle.run.quality.Fail?
    ensures var (s', r) := Perform(Put(s, rev, done), rev, Finish(bundle), now, Calm());
            && r.Ok? && GetPublished(s', rev) == Some((bundle.markdown, bundle))
            && HandedOff(s', rev, PublishedResult(s', rev, quality), code, quality)
  {
    PublishLeaves(s, rev, done, bundle, now, NoFault);
    var s' := Publish(Put(s, rev, done), bundle, now, NoFault).0;
    hide Publish, Publishable, Conflicts, Put, PublishedResult;
    ShownIsLoaded(s, s', rev, done, bundle);
    hide LeftBy, Load, GetPublished;
    ResultIsHandedOff(s', rev, done, bundle, code, quality);
  }

  lemma ShownIsLoaded(s: DateStore, s': DateStore, rev: nat, done: RunDir, bundle: Bundle)
    requires LeftBy(s, s', rev, done, bundle) && rev !in s'.staging && GetPublished(s', rev).Some?
    ensures Load(s', rev) == LoadDir(done, true)
  {
  }

  lemma FinalIsResumed(e: Engine, p: Rules, s: DateStore, rd: RunDir, rev: nat, code: ErrorCode, at: Instant, t: Telemetry,
                       done: RunDir, b: Answers)
    requires Failing(rd, rev, code, at) && NothingPackaged(rd)
    requires var d := ReportDecision(e, rd, rev, code, at, t);
             && Ends(s, rev, rd, d.writes, d.cp, d.expected, d.bundle) && d.bundle.run.revision == rev
             && d.writes == ReportWrites(code, t)
             && PlanOperational(e, Put(s, rev, rd), FailingRun(rd), code, at, false, t) == d
    requires SameRun(Append(Loaded(rd, FailureReason(code), t), ReportFinal(rd, rev, code, at, t)), done)
    requires InsideWindow(b) && b.now(1) >= at && b.env(1) == Calm()
    ensures EndsWith(e, Prepare(e, p, Put(s, rev, done), rev, b), rev, Last(rd.checkpoints).delivery, code,
                     Explained(rd, code))
  {
    var d, s1 := ReportDecision(e, rd, rev, code, at, t), Put(s, rev, done);
    FailingIsLoaded(rd, rev, code, at);
    FinalGaveUp(rd, rev, code, at, t, done);
    FinalIsFinished(e, s, rd, rev, code, at, t, done, b.now(1), b.measured(0));
    ReportStages(rd, code, t);
    SamePublishable(s, rev, Append(Loaded(rd, FailureReason(code), t), ReportFinal(rd, rev, code, at, t)), done, d.bundle);
    assert d.bundle.run == FailingRun(done) by {
      LoadsSame(Append(Loaded(rd, FailureReason(code), t), ReportFinal(rd, rev, code, at, t)), done, rd);
      hide WithTelemetry;
    }
    ResumesWithReason(e, p, s, done, rev, code, b);
    LoadPut(s, rev, done);
    assert OperationalMarkdown(e, FailingRun(rd), code) == e.operational(rev, Fail, Last(rd.checkpoints).delivery, code);
    hide Failing, GaveUp, NothingPackaged, WithTelemetry, Publishable, Conflicts, Ends, PlanOperational, Put, Load, Perform, Prepare, Loaded,
         PublishedResult, HandedOff, SameRun, Explained, FailureFinal, GetPublished;
    FinishHandsOff(e, s, rev, done, d.bundle, code, b.now(1), Explained(rd, code));
    EndedAlready(e, s1, rev, LoadDir(done, false).value, code, b.now(1), Explained(rd, code), b);
  }

  lemma LoadsSame(a: RunDir, b: RunDir, rd: RunDir)
    requires SameRun(a, b) && a.context == rd.context && a.freeze == rd.freeze && rd.context.Some?
    ensures LoadDir(a, false).value.run == LoadDir(b, false).value.run == LoadDir(rd, false).value.run
  {
  }

  /** A call on a FAIL run goes straight to its report. */
  lemma EndedAlready(e: Engine, s: DateStore, rev: nat, stored: Stored, code: ErrorCode, at: Instant,
                     quality: Option<QualityResult>, a: Answers)
    requires Load(s, rev) == Some(stored) && stored.checkpoints != [] && Last(stored.checkpoints).quality.Fail?
    requires stored.run.revision == rev
    requires var run := ComposeRun(stored.run, Last(stored.checkpoints));
             Perform(s, rev, PlanOperational(e, s, run, code, at, false, a.measured(0)), at, a.env(1)).1.Ok?
    ensures var run := ComposeRun(stored.run, Last(stored.checkpoints));
            var s' := Perform(s, rev, PlanOperational(e, s, run, code, at, false, a.measured(0)), at, a.env(1)).0;
            OperationalFailure(e, s, rev, code, at, quality, a) == (s', PublishedResult(s', rev, quality))
  {
    hide Load, Perform, PlanOperational, PublishedResult, PlanFailure;
  }

  // ---- The two calls together ----

  /** The second call: within the window, undisturbed while it reports, and not earlier. */
  ghost predicate Resumes(b: Answers, at: Instant) {
    InsideWindow(b) && b.now(1) >= at && b.env(0) == Calm() && b.env(1) == Calm()
  }

  lemma ReasonedIsFailing(rd: RunDir, rev: nat, code: ErrorCode, at: Instant)
    requires Failing(rd, rev, code, at) && NothingPackaged(rd)
    ensures var base := Reasoned(rd, FailureReason(code));
            && Failing(base, rev, code, at) && GaveUp(base) && base.artifacts[OperationalReason] == CodeBytes(code)
            && Explained(base, code) == Explained(rd, code)
  {
    hide StoredPacketHash, Business;
  }

  lemma ReasonedIsMeasurable(s: DateStore, rev: nat, rd: RunDir, code: ErrorCode)
    requires AllMeasurable(s, rev, rd) && (OperationalReason in rd.artifacts ==> rd.artifacts[OperationalReason] == CodeBytes(code))
    ensures AllMeasurable(s, rev, Reasoned(rd, FailureReason(code)))
  {
    var base := Reasoned(rd, FailureReason(code));
    LoadedFits(rd, code, Telemetry([]));
    hide LatestTelemetry, TelemetryFits;
    MoreIsMeasurable(s, rev, rd, base, base);
  }

  /** From a FAIL directory. */
  lemma FailingIsResumed(e: Engine, p: Rules, s: DateStore, rd: RunDir, rev: nat, code: ErrorCode, at: Instant,
                         quality: Option<QualityResult>, a: Answers, b: Answers)
    requires Failing(rd, rev, code, at) && NothingPackaged(rd) && AllMeasurable(s, rev, rd) && rev !in s.finals && rev !in s.index
    requires Resumes(b, at)
    requires var s1 := EndFailed(e, Put(s, rev, rd), rev, code, at, quality, a).0;
             rev in s1.staging && OperationalReason in s1.staging[rev].artifacts
    ensures EndsWith(e, Prepare(e, p, EndFailed(e, Put(s, rev, rd), rev, code, at, quality, a).0, rev, b), rev,
                     Last(rd.checkpoints).delivery, code, Explained(rd, code))
  {
    var s1, t, base := EndFailed(e, Put(s, rev, rd), rev, code, at, quality, a).0, a.measured(0), Reasoned(rd, FailureReason(code));
    var x := s1.staging[rev];
    FailingIsLoaded(rd, rev, code, at);
    assert Measurable(s, rev, rd, t);
    ReportLeaves(e, s, rd, rev, code, at, quality, a);
    ReportStages(rd, code, t);
    if PartlyStaged(s, s1, rev, rd, ReportWrites(code, t), false) {
      ReasonedIsFailing(rd, rev, code, at);
      assert OperationalReason in rd.artifacts ==> rd.artifacts[OperationalReason] == CodeBytes(code);
      ReasonedIsMeasurable(s, rev, rd, code);
      ReasonedPart(rd, code, t, x);
      hide Failing, NothingPackaged, GaveUp, AllMeasurable, Put, Prepare, EndFailed, EndsWith, Under, Loaded, StagedAll, Ends,
           PlanOperational, Explained, Reasoned;
      PartIsResumed(e, p, s, base, rev, code, at, t, x, b);
      assert Last(base.checkpoints) == Last(rd.checkpoints);
    } else {
      hide Failing, NothingPackaged, AllMeasurable, Put, Prepare, EndFailed, EndsWith, Loaded, StagedAll, Ends, PlanOperational, Explained,
           SameRun, WithTelemetry;
      FinalIsResumed(e, p, s, rd, rev, code, at, t, x, b);
    }
  }

  lemma ReasonedPart(rd: RunDir, code: ErrorCode, t: Telemetry, part: RunDir)
    requires Under(rd, part) && Under(part, Loaded(rd, FailureReason(code), t)) && OperationalReason in part.artifacts
    ensures var base := Reasoned(rd, FailureReason(code));
            Under(base, part) && Under(part, Loaded(base, FailureReason(code), t)) && base.checkpoints == rd.checkpoints
  {
  }

  /** From a directory that is not FAIL yet. */
  lemma MayFailIsResumed(e: Engine, p: Rules, s: DateStore, rd: RunDir, rev: nat, code: ErrorCode, at: Instant,
                         quality: Option<QualityResult>, a: Answers, b: Answers)
    requires MayFail(rd, rev, code, at) && NothingPackaged(rd) && AllMeasurable(s, rev, rd) && rev !in s.finals && rev !in s.index
    requires Resumes(b, at)
    requires var s1 := OperationalFailure(e, Put(s, rev, rd), rev, code, at, quality, a).0;
             rev in s1.staging && OperationalReason in s1.staging[rev].artifacts
    ensures EndsWith(e, Prepare(e, p, OperationalFailure(e, Put(s, rev, rd), rev, code, at, quality, a).0, rev, b), rev,
                     Last(rd.checkpoints).delivery, code, Explained(rd, code))
  {
    var s0, failed, s1 := Put(s, rev, rd), FailureDir(rd, code, at),
                          OperationalFailure(e, Put(s, rev, rd), rev, code, at, quality, a).0;
    var (s2, recorded) := Perform(s0, rev, PlanFailure(s0, rev, code, at), at, a.env(0));
    FailureLeaves(e, s, rd, rev, code, at, a.env(0));
    FailureFollows(e, s, rd, rev, code, at, quality, a);
    FailedIsFailing(rd, rev, code, at);
    FailedIsUnpacked(s, rd, rev, code, at);
    FailedKeepsDelivery(rd, code, at);
    if recorded.Ok? {
      hide MayFail, Failing, NothingPackaged, AllMeasurable, Put, Prepare, EndFailed, EndsWith, FailureDir, OperationalFailure, Perform,
           PlanFailure, Explained;
      FailingIsResumed(e, p, s, failed, rev, code, at, quality, a, b);
    } else if s2 == Put(s, rev, failed) {
      FailedGaveUp(rd, rev, code, at);
      assert s1 == Put(s, rev, failed);
      hide MayFail, NothingPackaged, AllMeasurable, Put, Prepare, EndFailed, EndsWith, FailureDir, OperationalFailure, Perform,
           PlanFailure, Explained, Under, GaveUp, Failing;
      assert Under(failed, failed) && Under(failed, Loaded(failed, FailureReason(code), a.measured(0))) by {
        SelfUnder(failed, rev, code, at, a.measured(0), s);
      }
      PartIsResumed(e, p, s, failed, rev, code, at, a.measured(0), failed, b);
    } else {
      ReasonedMayFail(rd, rev, code, at, b.now(1));
      ReasonedIsMeasurable(s, rev, rd, code);
      ReasonedGaveUp(rd, code);
      assert s1 == Put(s, rev, Reasoned(rd, FailureReason(code)));
      hide MayFail, NothingPackaged, Put, Prepare, EndFailed, EndsWith, FailureDir, OperationalFailure, Perform, PlanFailure, Explained,
           GaveUp, Failing, LatestTelemetry, TelemetryFits, Reasoned;
      assert TelemetryFits(Reasoned(rd, FailureReason(code)), b.measured(0));
      StagedReasonIsResumed(e, p, s, Reasoned(rd, FailureReason(code)), rev, code, b);
    }
  }

  lemma ReasonedGaveUp(rd: RunDir, code: ErrorCode)
    requires rd.checkpoints != [] && NothingPackaged(rd)
    ensures GaveUp(Reasoned(rd, FailureReason(code)))
    ensures Explained(Reasoned(rd, FailureReason(code)), code) == Explained(rd, code)
    ensures Reasoned(rd, FailureReason(code)).checkpoints == rd.checkpoints
  {
  }

  lemma FailedGaveUp(rd: RunDir, rev: nat, code: ErrorCode, at: Instant)
    requires MayFail(rd, rev, code, at) && NothingPackaged(rd)
    ensures var failed := FailureDir(rd, code, at);
            && GaveUp(failed) && failed.artifacts[OperationalReason] == CodeBytes(code)
            && Explained(failed, code) == Explained(rd, code)
  {
    hide StoredPacketHash, StagedMatches;
    assert Last(FailureDir(rd, code, at).checkpoints) == FailedCheckpoint(rd, code, at);
  }

  lemma FailedIsUnpacked(s: DateStore, rd: RunDir, rev: nat, code: ErrorCode, at: Instant)
    requires MayFail(rd, rev, code, at) && NothingPackaged(rd) && AllMeasurable(s, rev, rd)
    ensures var failed := FailureDir(rd, code, at);
            && failed.checkpoints != [] && NothingPackaged(failed) && AllMeasurable(s, rev, failed)
            && Explained(failed, code) == Explained(rd, code)
  {
    FailedGaveUp(rd, rev, code, at);
    var failed := FailureDir(rd, code, at);
    forall t ensures TelemetryFits(failed, t) && !LatestTelemetry(Put(s, rev, failed), failed.checkpoints).Malformed? {
      FailedIsMeasurable(s, rd, rev, code, at, t);
      hide LatestTelemetry, FailureDir;
    }
    assert TelemetryFits(failed, Telemetry([]));
    hide LatestTelemetry, MayFail, Explained;
  }

  lemma SelfUnder(rd: RunDir, rev: nat, code: ErrorCode, at: Instant, t: Telemetry, s: DateStore)
    requires Failing(rd, rev, code, at) && AllMeasurable(s, rev, rd)
    ensures Under(rd, rd) && Under(rd, Loaded(rd, FailureReason(code), t))
  {
    assert TelemetryFits(rd, t);
  }

  /** Recording a failure, disturbed: the reason is staged or not, or the failure is recorded. */
  lemma FailureLeaves(e: Engine, s: DateStore, rd: RunDir, rev: nat, code: ErrorCode, at: Instant, env: Environment)
    requires MayFail(rd, rev, code, at)
    ensures var s0 := Put(s, rev, rd);
            var (s1, r) := Perform(s0, rev, PlanFailure(s0, rev, code, at), at, env);
            && (r.Ok? ==> s1 == Put(s, rev, FailureDir(rd, code, at)))
            && (s1 == Put(s, rev, FailureDir(rd, code, at))
                || (rev in s1.staging && OperationalReason in s1.staging[rev].artifacts ==>
                      s1 == Put(s, rev, Reasoned(rd, FailureReason(code)))))
  {
    var writes, cp := [(OperationalReason, CodeBytes(code))], FailedCheckpoint(rd, code, at);
    var full := Reasoned(rd, FailureReason(code));
    FailedIsAdmitted(rd, rev, code, at);
    LoadPut(s, rev, rd);
    assert PlanFailure(Put(s, rev, rd), rev, code, at) == Record(writes, cp, |rd.checkpoints|, None);
    assert Agrees(rd, writes) by { assert writes[1..] == []; }
    assert StagedAll(rd, writes) == full by { ReasonOrNot(rd, code, rd); }
    hide Admits, StoredPacketHash, StagedMatches, AppendIfCurrent, AppendCheckpoint, Load, Perform, PlanFailure, StagedAll, Agrees;
    AppendCalmly(s, rev, full, cp, NoFault);
    RecordLeaves(s, rev, rd, writes, cp, |rd.checkpoints|, at, env);
    var s1 := Perform(Put(s, rev, rd), rev, Record(writes, cp, |rd.checkpoints|, None), at, env).0;
    if s1 != Put(s, rev, FailureDir(rd, code, at)) && rev in s1.staging && OperationalReason in s1.staging[rev].artifacts {
      ReasonOrNot(rd, code, s1.staging[rev]);
    }
  }

  /** A failure that was recorded is reported; one that was not leaves what recording left. */
  lemma FailureFollows(e: Engine, s: DateStore, rd: RunDir, rev: nat, code: ErrorCode, at: Instant,
                       quality: Option<QualityResult>, a: Answers)
    requires rd.context.Some? && rd.checkpoints != [] && !Last(rd.checkpoints).quality.Fail?
    ensures var s0 := Put(s, rev, rd);
            var (s1, r) := Perform(s0, rev, PlanFailure(s0, rev, code, at), at, a.env(0));
            OperationalFailure(e, s0, rev, code, at, quality, a).0
            == if r.Ok? then EndFailed(e, s1, rev, code, at, quality, a).0 else s1
  {
    LoadPut(s, rev, rd);
    hide Perform, PlanFailure, Put, Load, EndFailed;
  }

  /**
   A preparation that gives up is stopped anywhere after it staged its reason, by its process or by
   an I/O error, with the run still staged. The next call within the window, undisturbed, publishes
   the report of the code it gave up with, and hands it off with the staged quality if that explains
   it.
   */
  lemma GivingUpIsResumed(e: Engine, p: Rules, s: DateStore, rd: RunDir, rev: nat, code: ErrorCode, at: Instant,
                          quality: Option<QualityResult>, a: Answers, b: Answers)
    requires Endable(rd, rev, code, at) && NothingPackaged(rd) && AllMeasurable(s, rev, rd) && rev !in s.finals && rev !in s.index
    requires Resumes(b, at)
    requires var s1 := OperationalFailure(e, Put(s, rev, rd), rev, code, at, quality, a).0;
             rev in s1.staging && OperationalReason in s1.staging[rev].artifacts
    ensures EndsWith(e, Prepare(e, p, OperationalFailure(e, Put(s, rev, rd), rev, code, at, quality, a).0, rev, b), rev,
                     Last(rd.checkpoints).delivery, code, Explained(rd, code))
  {
    if MayFail(rd, rev, code, at) {
      MayFailIsResumed(e, p, s, rd, rev, code, at, quality, a, b);
    } else {
      FailingGoesOn(e, s, rd, rev, code, at, quality, a);
      FailingIsResumed(e, p, s, rd, rev, code, at, quality, a, b);
    }
    hide *;
  }

  lemma FailingGoesOn(e: Engine, s: DateStore, rd: RunDir, rev: nat, code: ErrorCode, at: Instant,
                      quality: Option<QualityResult>, a: Answers)
    requires Failing(rd, rev, code, at)
    ensures OperationalFailure(e, Put(s, rev, rd), rev, code, at, quality, a)
            == EndFailed(e, Put(s, rev, rd), rev, code, at, quality, a)
  {
    LoadPut(s, rev, rd);
    FailingIsLoaded(rd, rev, code, at);
    hide Failing, EndFailed, Perform, PlanFailure, Put, Load;
  }

  // ---- From a started run ----

  lemma StartedPackagedNothing(c: Course, code: ErrorCode)
    requires c.context.cutoff.None?
    ensures NothingPackaged(After0(c)) && Explained(After0(c), code) == None
    ensures NothingPackaged(After1(c)) && Explained(After1(c), code) == None
  {
    AfterOne(c);
    BoundIsOtherwise(StartCheckpoint(c.context), c.started);
    hide WithTelemetry, LatestAt, After1;
  }

  lemma CollectedPackagedNothing(c: Course, code: ErrorCode)
    requires c.context.cutoff.None?
    ensures NothingPackaged(After2(c)) && Explained(After2(c), code) == None
  {
    AfterTwo(c);
    hide WithTelemetry, LatestAt, After2, After1;
  }

  lemma JudgedPackagedNothing(c: Course, code: ErrorCode)
    requires c.context.cutoff.None?
    ensures NothingPackaged(After3(c))
    ensures Explained(After3(c), code)
            == if c.quality.status.Fail? && code in c.quality.reasons then Some(c.quality) else None
  {
    AfterThree(c);
    JudgedNames(c);
    KeptName(Judged3(c), c.judged, DataQuality);
    hide WithTelemetry, After3, Judged3;
  }

  lemma PhasePackagedNothing(p: Rules, c: Course, phase: Phase, code: ErrorCode)
    requires Timely(p, c) && (phase.Packaging? ==> !c.quality.status.Fail?)
    ensures DirAt(c, phase).checkpoints != []
    ensures NothingPackaged(DirAt(c, phase)) && Explained(DirAt(c, phase), code) == None
  {
    StartedPackagedNothing(c, code);
    CollectedPackagedNothing(c, code);
    JudgedPackagedNothing(c, code);
    hide After0, After1, After2, After3, NothingPackaged, Explained;
  }

  lemma PhaseIsAllMeasurable(p: Rules, s: DateStore, c: Course, phase: Phase)
    requires Timely(p, c)
    ensures AllMeasurable(s, c.context.revision, DirAt(c, phase))
  {
    forall t
      ensures TelemetryFits(DirAt(c, phase), t)
              && !LatestTelemetry(Put(s, c.context.revision, DirAt(c, phase)), DirAt(c, phase).checkpoints).Malformed?
    {
      PhaseIsMeasurable(p, s, c, phase, t);
      hide DirAt, LatestTelemetry, Timely;
    }
    assert TelemetryFits(DirAt(c, phase), Telemetry([]));
    hide DirAt, LatestTelemetry, Timely;
  }

  /**
   The two calls of a run: the first gives up in some phase and is stopped after it staged its
   reason; the second one, within the window and undisturbed, publishes the report of that code.
   */
  lemma StoppedCauseIsReported(e: Engine, p: Rules, s: DateStore, c: Course, a: Answers, phase: Phase, code: ErrorCode,
                               b: Answers)
    requires Timely(p, c) && Arrives(a, p, c, phase) && Fails(a, p, c, phase, Aborted(code)) && !c.context.quality.Fail?
    requires a.now(7) >= WrittenAt(c, phase) && Resumes(b, a.now(7))
    requires c.context.revision !in s.finals && c.context.revision !in s.index
    requires var rev := c.context.revision;
             var s1 := Prepare(e, p, Put(s, rev, After0(c)), rev, a).0;
             rev in s1.staging && OperationalReason in s1.staging[rev].artifacts
    ensures var rev := c.context.revision;
            var s1 := Prepare(e, p, Put(s, rev, After0(c)), rev, a).0;
            EndsWith(e, Prepare(e, p, s1, rev, b), rev, c.context.delivery, code, None)
  {
    var rev, rd := c.context.revision, DirAt(c, phase);
    PrepareFails(e, p, s, c, a, phase, Aborted(code));
    assert phase.Packaging? ==> !c.quality.status.Fail?;
    PhaseMayFail(p, c, phase, code, a.now(7));
    PhaseIsAllMeasurable(p, s, c, phase);
    PhasePackagedNothing(p, c, phase, code);
    hide DirAt, After0, Prepare, OperationalFailure, MayFail, Failing, AllMeasurable, EndsWith, Put, Fails, Arrives, Timely,
         NothingPackaged, Explained;
    GivingUpIsResumed(e, p, s, rd, rev, code, a.now(7), None, a, b);
  }

  /** No repository call and no service raises one of the errors that end a preparation. */
  lemma {:induction false} StagingNeverAborts(s: DateStore, rev: nat, writes: Writes, env: Environment, i: nat)
    ensures var r := StageAll(s, rev, writes, env, i).1; !(r.Rejected? && r.failure.Aborted?)
    decreases |writes|
  {
    if writes != [] {
      StagingNeverAborts(StageArtifact(s, rev, writes[0].0, writes[0].1, env(i)).0, rev, writes[1..], env, i + 1);
    }
  }

  lemma ServiceNeverAborts(s: DateStore, rev: nat, d: Decision, now: Instant, env: Environment)
    ensures var r := Perform(s, rev, d, now, env).1; !(r.Rejected? && r.failure.Aborted?)
  {
    if d.Leave? || d.Record? || d.Close? { StagingNeverAborts(s, rev, d.writes, env, 0); }
    hide StageAll, Publishable, Admits, Conflicts, AfterWrites, Quarantine, Load, EntryFor;
  }

  lemma FailureNeverAborts(e: Engine, s: DateStore, rev: nat, code: ErrorCode, at: Instant,
                           quality: Option<QualityResult>, a: Answers)
    ensures var r := OperationalFailure(e, s, rev, code, at, quality, a).1; !(r.Rejected? && r.failure.Aborted?)
  {
    hide Perform, PlanFailure, PlanOperational, Load, GetPublished, GetReceipt;
    ServiceNeverAborts(s, rev, PlanFailure(s, rev, code, at), at, a.env(0));
    var s1 := Perform(s, rev, PlanFailure(s, rev, code, at), at, a.env(0)).0;
    EndingNeverAborts(e, s, rev, code, at, quality, a);
    EndingNeverAborts(e, s1, rev, code, at, quality, a);
    hide EndFailed;
  }

  lemma EndingNeverAborts(e: Engine, s: DateStore, rev: nat, code: ErrorCode, at: Instant,
                          quality: Option<QualityResult>, a: Answers)
    ensures var r := EndFailed(e, s, rev, code, at, quality, a).1; !(r.Rejected? && r.failure.Aborted?)
  {
    hide Perform, PlanOperational, Load, GetPublished, GetReceipt;
    var stored := Load(s, rev);
    if stored.Some? && stored.value.checkpoints != [] {
      var run := ComposeRun(stored.value.run, Last(stored.value.checkpoints));
      ServiceNeverAborts(s, run.revision, PlanOperational(e, s, run, code, at, false, a.measured(0)), at, a.env(1));
    }
  }

  /** A call that finds FAIL quality goes on to its report, however that goes. */
  lemma FailureIsBegun(e: Engine, p: Rules, s: DateStore, c: Course, a: Answers)
    requires FailsQuality(p, c) && Reaches(a, p, c)
    ensures var rev := c.context.revision;
            Prepare(e, p, Put(s, rev, After0(c)), rev, a)
            == OperationalFailure(e, Put(s, rev, After3(c)), rev, c.quality.reasons[0], a.now(5), Some(c.quality), a)
  {
    var rev := c.context.revision;
    AssembleReaches(e, p, s, c, a);
    EvaluateFails(e, p, s, c, a);
    FailureNeverAborts(e, Put(s, rev, After3(c)), rev, c.quality.reasons[0], a.now(5), Some(c.quality), a);
    hide After0, After2, After3, Assemble, Evaluate, OperationalFailure, Prepare, Put, Timely;
    PrepareIsAssemble(e, p, s, c, a);
  }

  /** The same of a call that finds FAIL quality: its first reason is reported, with that quality. */
  lemma StoppedFailureIsReported(e: Engine, p: Rules, s: DateStore, c: Course, a: Answers, b: Answers)
    requires FailsQuality(p, c) && Reaches(a, p, c) && a.now(5) >= c.judgedAt && Resumes(b, a.now(5))
    requires c.context.revision !in s.finals && c.context.revision !in s.index
    requires var rev := c.context.revision;
             var s1 := Prepare(e, p, Put(s, rev, After0(c)), rev, a).0;
             rev in s1.staging && OperationalReason in s1.staging[rev].artifacts
    ensures var rev := c.context.revision;
            var s1 := Prepare(e, p, Put(s, rev, After0(c)), rev, a).0;
            EndsWith(e, Prepare(e, p, s1, rev, b), rev, c.context.delivery, c.quality.reasons[0], Some(c.quality))
  {
    hide After0, After3, Prepare, OperationalFailure, MayFail, Failing, AllMeasurable, EndsWith, Put, NothingPackaged, Explained,
         Reaches, Timely;
    var rev, rd, code := c.context.revision, After3(c), c.quality.reasons[0];
    FailureIsBegun(e, p, s, c, a);
    JudgedIsFailing(p, c, code, a.now(5));
    PhaseIsAllMeasurable(p, s, c, Packaging);
    assert DirAt(c, Packaging) == rd;
    TimelyHasNoCutoff(p, c);
    JudgedPackagedNothing(c, code);
    JudgedHasCheckpoints(c);
    GivingUpIsResumed(e, p, s, rd, rev, code, a.now(5), Some(c.quality), a, b);
  }

  lemma TimelyHasNoCutoff(p: Rules, c: Course)
    requires Timely(p, c)
    ensures c.context.cutoff.None?
  {
  }

  lemma JudgedHasCheckpoints(c: Course)
    requires c.context.cutoff.None?
    ensures After3(c).checkpoints != []
  {
    AfterThree(c);
  }
}
