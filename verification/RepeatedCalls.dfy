/**
 Repeating a publisher's call. Wherever the call stops, if it leaves the run staged the same
 call made again publishes exactly what it would have published undisturbed; if it leaves the
 publication visible the same call answers with its receipt; otherwise it is refused.
 */
module RepeatedCalls {
  import opened RunTypes
  import opened RunStore
  import opened RunHistory
  import opened Publication
  import opened FinalBundle
  import opened PublicationMachine
  import opened PublicationService
  import opened Undisturbed
  import opened Retries

  // ---- What one call leaves ----

  /** The final directory of a publication that got past its rename. */
  function Shown(rd: RunDir, bundle: Bundle): RunDir {
    rd.(bundle := Some(bundle), report := Some(bundle.markdown))
  }

  /** The run is still staged, with the same run in it, or it is where `Shown` says or nowhere. */
  ghost predicate LeftBy(s: DateStore, s1: DateStore, rev: nat, rd: RunDir, bundle: Bundle) {
    && (rev in s1.staging ==> s1 == Put(s, rev, s1.staging[rev]) && SameRun(rd, s1.staging[rev]))
    && (rev !in s1.staging && rev in s1.finals ==> s1.finals[rev] == Shown(rd, bundle))
  }

  /** Readers are given the bundle, and the call its receipt. */
  ghost predicate Publishes(s1: DateStore, rev: nat, bundle: Bundle, r: Result<Receipt>) {
    && rev !in s1.staging && GetPublished(s1, rev) == Some((bundle.markdown, bundle))
    && r.Ok? && GetReceipt(s1, rev) == Some(r.value)
  }

  lemma EarlyWritesLeave(s: DateStore, rev: nat, rd: RunDir, bundle: Bundle, now: Instant, n: nat)
    requires Publishable(Put(s, rev, rd), bundle) && bundle.run.revision == rev && n < 3
    ensures LeftBy(s, AfterWrites(Put(s, rev, rd), bundle, now, n), rev, rd, bundle)
  {
    hide Publishable;
    var s0 := Put(s, rev, rd);
    assert s0.staging[rev] == rd;
    var rd2 := AfterWrites(s0, bundle, now, n).staging[rev];
    assert s0.staging[rev := rd2] == s.staging[rev := rd2];
  }

  lemma LateWritesLeave(s: DateStore, rev: nat, rd: RunDir, bundle: Bundle, now: Instant, n: nat)
    requires Publishable(Put(s, rev, rd), bundle) && bundle.run.revision == rev && n >= 3
    ensures var s1 := AfterWrites(Put(s, rev, rd), bundle, now, n);
            && rev in s1.finals && rev !in s1.staging && s1.finals[rev] == Shown(rd, bundle)
            && (n >= 4 ==> rev in s1.index && s1.index[rev] == EntryFor(Put(s, rev, rd), bundle, now))
  {
    hide Publishable, EntryFor;
    assert Put(s, rev, rd).staging[rev] == rd;
  }

  lemma QuarantineLeaves(s: DateStore, s1: DateStore, rev: nat, rd: RunDir, bundle: Bundle)
    requires rev in s1.finals && rev !in s1.staging && s1.finals[rev] == Shown(rd, bundle)
    ensures LeftBy(s, s1, rev, rd, bundle) && LeftBy(s, Quarantine(s1, rev), rev, rd, bundle)
    ensures rev !in Quarantine(s1, rev).staging
  {
  }

  /** Whatever part of its writes a publication made, it left the run as described. */
  lemma PublishStopsSomewhere(s: DateStore, bundle: Bundle, now: Instant, fault: Fault) returns (n: nat, moved: bool)
    requires Publishable(s, bundle) && !Conflicts(s, bundle)
    ensures moved ==> n >= 3
    ensures var s1 := AfterWrites(s, bundle, now, n);
            Publish(s, bundle, now, fault).0 == if moved then Quarantine(s1, bundle.run.revision) else s1
    ensures Publish(s, bundle, now, fault).1.Ok? || fault.NoFault? ==>
              n == 5 && !moved
              && Publish(s, bundle, now, fault).1 == Ok(Receipt(bundle.run.revision, EntryFor(s, bundle, now)))
  {
    hide Publishable, Conflicts, EntryFor;
    n := if fault.NoFault? || fault.writes > 5 then 5 else fault.writes;
    moved := fault.IoError? && 3 <= fault.writes <= 5;
    if n >= 3 { FinalIsThere(s, bundle, now, n); }
    if moved { assert Publish(s, bundle, now, fault).0 == Quarantine(AfterWrites(s, bundle, now, n), bundle.run.revision); }
  }

  lemma FinalIsThere(s: DateStore, bundle: Bundle, now: Instant, n: nat)
    requires Publishable(s, bundle) && n >= 3
    ensures bundle.run.revision in AfterWrites(s, bundle, now, n).finals
  {
    hide Publishable, EntryFor;
  }

  lemma PublishLeaves(s: DateStore, rev: nat, rd: RunDir, bundle: Bundle, now: Instant, fault: Fault)
    requires Publishable(Put(s, rev, rd), bundle) && bundle.run.revision == rev && !Conflicts(Put(s, rev, rd), bundle)
    ensures var (s1, r) := Publish(Put(s, rev, rd), bundle, now, fault);
            && LeftBy(s, s1, rev, rd, bundle)
            && (fault.NoFault? ==> r.Ok?)
            && (r.Ok? ==> Publishes(s1, rev, bundle, r))
  {
    hide Publish, AfterWrites, Quarantine, Put, SameRun, EntryFor, Conflicts, Publishable;
    var s0 := Put(s, rev, rd);
    var n, moved := PublishStopsSomewhere(s0, bundle, now, fault);
    if n < 3 {
      EarlyWritesLeave(s, rev, rd, bundle, now, n);
    } else {
      LateWritesLeave(s, rev, rd, bundle, now, n);
      QuarantineLeaves(s, AfterWrites(s0, bundle, now, n), rev, rd, bundle);
      if n == 5 { EntryMatches(s0, bundle, now); }
    }
  }

  lemma EntryMatches(s: DateStore, bundle: Bundle, now: Instant)
    requires !Conflicts(s, bundle)
    ensures (EntryFor(s, bundle, now).bundleSha, EntryFor(s, bundle, now).markdownSha) == Shas(bundle)
  {
  }

  lemma SamePublishable(s: DateStore, rev: nat, a: RunDir, b: RunDir, bundle: Bundle)
    requires SameRun(a, b) && bundle.run.revision == rev
    requires Publishable(Put(s, rev, a), bundle) && !Conflicts(Put(s, rev, a), bundle)
    ensures Publishable(Put(s, rev, b), bundle) && !Conflicts(Put(s, rev, b), bundle)
  {
  }

  /** What an undisturbed ending has gone through. */
  ghost predicate Ends(s: DateStore, rev: nat, rd: RunDir, writes: Writes, cp: Checkpoint, expected: nat, bundle: Bundle) {
    var done := Append(StagedAll(rd, writes), cp);
    && Agrees(rd, writes)
    && AppendIfCurrent(Put(s, rev, StagedAll(rd, writes)), rev, cp, expected, NoFault) == (Put(s, rev, done), Ok(()))
    && Publishable(Put(s, rev, done), bundle) && !Conflicts(Put(s, rev, done), bundle)
  }

  lemma AppendsOrNot(s: DateStore, rev: nat, full: RunDir, cp: Checkpoint, expected: nat, fault: Fault)
    requires AppendIfCurrent(Put(s, rev, full), rev, cp, expected, NoFault).1.Ok?
    ensures AppendIfCurrent(Put(s, rev, full), rev, cp, expected, NoFault) == (Put(s, rev, Append(full, cp)), Ok(()))
    ensures var (s1, r) := AppendIfCurrent(Put(s, rev, full), rev, cp, expected, fault);
            (s1 == Put(s, rev, full) && !r.Ok?) || s1 == Put(s, rev, Append(full, cp))
  {
    hide Admits;
    var s0 := Put(s, rev, full);
    assert s0.staging[rev] == full;
    assert s0.staging[rev := Append(full, cp)] == s.staging[rev := Append(full, cp)];
  }

  lemma PublishedMeans(s: DateStore, bundle: Bundle, now: Instant, fault: Fault)
    requires Publish(s, bundle, now, fault).1.Ok?
    ensures Publishable(s, bundle) && !Conflicts(s, bundle)
  {
  }

  lemma AppendedAnyway(s: DateStore, rev: nat, cp: Checkpoint, expected: nat, fault: Fault)
    requires AppendIfCurrent(s, rev, cp, expected, fault).1.Ok?
    ensures AppendIfCurrent(s, rev, cp, expected, NoFault).1.Ok?
    ensures AppendIfCurrent(s, rev, cp, expected, fault) == AppendIfCurrent(s, rev, cp, expected, NoFault)
  {
    hide Admits, Load;
  }

  /** A call that ended its run went through all of it. */
  lemma WholeEnds(s: DateStore, rev: nat, rd: RunDir, writes: Writes, cp: Checkpoint, expected: nat, bundle: Bundle,
                  now: Instant, env: Environment)
    requires Perform(Put(s, rev, rd), rev, Close(writes, cp, expected, bundle), now, env).1.Ok?
    requires bundle.run.revision == rev
    ensures Ends(s, rev, rd, writes, cp, expected, bundle)
  {
    hide StageAll, AppendIfCurrent, Publish, Publishable, Conflicts, StagedAll, Agrees, Put, PartlyStaged;
    StagingAgreed(s, rev, rd, writes, env, 0);
    StagesWhole(s, rev, rd, writes, env);
    var full := StagedAll(rd, writes);
    AppendedAnyway(Put(s, rev, full), rev, cp, expected, env(|writes|));
    AppendsOrNot(s, rev, full, cp, expected, NoFault);
    PublishedMeans(Put(s, rev, Append(full, cp)), bundle, now, env(|writes| + 1));
  }

  lemma StagesWhole(s: DateStore, rev: nat, rd: RunDir, writes: Writes, env: Environment)
    requires Agrees(rd, writes) && StageAll(Put(s, rev, rd), rev, writes, env, 0).1.Ok?
    ensures StageAll(Put(s, rev, rd), rev, writes, env, 0).0 == Put(s, rev, StagedAll(rd, writes))
  {
    StagesPart(s, rev, rd, writes, env, 0);
    hide StageAll, StagedAll, Agrees, Under, Put;
  }

  /** Where a disturbed ending stopped: while staging, or after its checkpoint. */
  ghost predicate StoppedIn(s: DateStore, s1: DateStore, rev: nat, rd: RunDir, writes: Writes, cp: Checkpoint,
                            bundle: Bundle)
  {
    || PartlyStaged(s, s1, rev, rd, writes, false)
    || LeftBy(s, s1, rev, Append(StagedAll(rd, writes), cp), bundle)
  }

  lemma CloseLeaves(s: DateStore, rev: nat, rd: RunDir, writes: Writes, cp: Checkpoint, expected: nat, bundle: Bundle,
                    now: Instant, env: Environment)
    requires Ends(s, rev, rd, writes, cp, expected, bundle) && bundle.run.revision == rev
    ensures var (s1, r) := Perform(Put(s, rev, rd), rev, Close(writes, cp, expected, bundle), now, env);
            && StoppedIn(s, s1, rev, rd, writes, cp, bundle)
            && (r.Ok? ==> r.value.Receipted? && Publishes(s1, rev, bundle, Ok(r.value.receipt)))
            && (r.Ok? ==> LeftBy(s, s1, rev, Append(StagedAll(rd, writes), cp), bundle))
            && (env == Calm() ==> r.Ok?)
  {
    hide StageAll, AppendIfCurrent, Publish, Publishable, Conflicts, StagedAll, Agrees, Publishes, Put, SameRun, Under;
    StagesPart(s, rev, rd, writes, env, 0);
    assert env == Calm() ==> CalmBetween(env, 0, |writes|);
    assert env == Calm() ==> env(|writes|).NoFault? && env(|writes| + 1).NoFault?;
    var (s0, staged) := StageAll(Put(s, rev, rd), rev, writes, env, 0);
    var full := StagedAll(rd, writes);
    if staged.Ok? {
      assert s0 == Put(s, rev, full);
      AppendsOrNot(s, rev, full, cp, expected, env(|writes|));
      PartIsPart(s, rev, full);
      var (s1, appended) := AppendIfCurrent(s0, rev, cp, expected, env(|writes|));
      if appended.Ok? {
        PublishLeaves(s, rev, Append(full, cp), bundle, now, env(|writes| + 1));
      } else if s1 != s0 {
        JustLeft(s, rev, Append(full, cp), bundle);
      }
    }
  }

  lemma PartIsPart(s: DateStore, rev: nat, full: RunDir)
    ensures rev in Put(s, rev, full).staging && Put(s, rev, full).staging[rev] == full
  {
  }

  lemma JustLeft(s: DateStore, rev: nat, rd: RunDir, bundle: Bundle)
    ensures LeftBy(s, Put(s, rev, rd), rev, rd, bundle)
  {
  }

  // ---- What a publisher's decision is made of ----

  predicate Avoids(writes: Writes, name: Name) {
    forall i :: 0 <= i < |writes| ==> writes[i].0 != name
  }

  /** A publisher ends a run only while it is staged, and stages anything but a packet. */
  lemma EndingIsOfStagedRun(e: Engine, s: DateStore, call: Call, t: Telemetry)
    requires CallKind(call).Some?
    ensures var d, rev := Decide(e, s, call, t), CallRev(call);
            && (d.Close? || d.Finish? ==>
                  && rev in s.staging && s.staging[rev].context.Some?
                  && Load(s, rev) == LoadDir(s.staging[rev], false) && s.staging[rev].checkpoints != []
                  && d.bundle.run.revision == Load(s, rev).value.run.revision)
            && (d.Close? ==> !Last(s.staging[rev].checkpoints).stage.Published?)
            && (d.Finish? ==> Last(s.staging[rev].checkpoints).stage.Published?)
            && (d.Close? ==> Avoids(d.writes, ResearchPacket))
            && !d.Record? && !d.Answer?
  {
    hide LatestTelemetry, SynthesizedReadyFrom, ReducedReadyFrom, OperationalReadyFrom, RecordedReports, RecordedAttempt,
         CheckpointTelemetry, FinalCheckpoint, BlockedPlans, StoredPacketHash, Attempts;
  }

  lemma {:induction false} OnlyTheirNames(rd: RunDir, writes: Writes, name: Name)
    requires Avoids(writes, name) && name in StagedAll(rd, writes).artifacts
    ensures name in rd.artifacts
    decreases |writes|
  {
    if writes != [] {
      assert forall i :: 0 <= i < |writes[1..]| ==> writes[1..][i] == writes[i + 1];
      OnlyTheirNames(WithArtifact(rd, writes[0].0, writes[0].1), writes[1..], name);
    }
  }

  lemma PutBack(s: DateStore, rev: nat)
    requires rev in s.staging
    ensures Put(s, rev, s.staging[rev]) == s
  {
    assert s.staging[rev := s.staging[rev]] == s.staging;
  }

  lemma MoreReads(s: DateStore, rev: nat, part: RunDir)
    requires rev in s.staging && Under(s.staging[rev], part)
    ensures ReadsStay(s, Put(s, rev, part)) && Load(Put(s, rev, part), rev) == Load(s, rev)
  {
  }

  lemma PartLoadsAlike(s: DateStore, s1: DateStore, rev: nat, writes: Writes)
    requires rev in s.staging && PartlyStaged(s, s1, rev, s.staging[rev], writes, false) && Avoids(writes, ResearchPacket)
    ensures LoadsAlike(s, s1, rev)
  {
    var part := s1.staging[rev];
    MoreReads(s, rev, part);
    if ResearchPacket in part.artifacts { OnlyTheirNames(s.staging[rev], writes, ResearchPacket); }
    hide StagedAll, ReadsStay, Load, Avoids;
  }

  /** After the final checkpoint, while the run is still staged. */
  lemma EndIsThere(s: DateStore, s1: DateStore, rev: nat, writes: Writes, cp: Checkpoint, bundle: Bundle)
    requires rev in s.staging && s.staging[rev].context.Some? && Agrees(s.staging[rev], writes)
    requires Avoids(writes, ResearchPacket)
    requires LeftBy(s, s1, rev, Append(StagedAll(s.staging[rev], writes), cp), bundle) && rev in s1.staging
    ensures EndedBy(s, s1, rev, writes, cp)
  {
    var rd := s.staging[rev];
    StagingIsUnder(rd, writes);
    forall i | 0 <= i < |writes| ensures ReadStaged(s1, rev, writes[i].0) == Some(writes[i].1) {
      StagedAreThere(rd, writes, i);
      hide StagedAll, Agrees;
    }
    if ResearchPacket in s1.staging[rev].artifacts { OnlyTheirNames(rd, writes, ResearchPacket); }
    hide StagedAll, Agrees, Avoids;
    assert ReadsStay(s, s1);
  }

  lemma SameRunLoads(s: DateStore, s1: DateStore, rev: nat, bundle: Bundle)
    requires rev in s.staging && LeftBy(s, s1, rev, s.staging[rev], bundle) && rev in s1.staging
    ensures LoadsAlike(s, s1, rev)
  {
  }

  // ---- A run that is ended is finished whatever the time and the telemetry ----

  lemma FinishIgnores(s: DateStore, stored: Stored, run: RunContext, other: RunContext, at: Instant, quality: Quality,
                      cutoff: Option<Instant>, reason: Option<(Name, Payload)>, contents: Contents, markdown: string,
                      t: Telemetry, later: Instant, u: Telemetry)
    requires stored.checkpoints != []
    ensures var d := CloseOrFinish(s, stored, run, at, quality, cutoff, reason, contents, markdown, t);
            d.Finish? ==>
              && Last(stored.checkpoints).stage.Published?
              && CloseOrFinish(s, stored, other, later, quality, cutoff, reason, contents, markdown, u) == d
  {
    hide CheckpointTelemetry;
  }

  lemma SynthesizedFinishIgnores(e: Engine, s: DateStore, packet: Packet, at: Instant, t: Telemetry, later: Instant,
                                 u: Telemetry)
    requires PlanSynthesized(e, s, packet, at, t).Finish? && later >= at
    ensures PlanSynthesized(e, s, packet, later, u) == PlanSynthesized(e, s, packet, at, t)
  {
    hide CloseOrFinish, RecordedAttempt, Load, LatestTelemetry, Attempts;
    var stored := Load(s, packet.run.revision).value;
    var (draft, report) := RecordedAttempt(s, Last(Attempts(stored.checkpoints))).value;
    FinishIgnores(s, stored, packet.run, packet.run, at, packet.run.quality, packet.run.cutoff, None,
                  SynthesizedContents(packet, draft, report), e.brief(packet, draft, report), t, later, u);
  }

  lemma ReducedFinishIgnores(e: Engine, s: DateStore, packet: Packet, reason: ReducedReason, at: Instant, t: Telemetry,
                             later: Instant, u: Telemetry)
    requires PlanReduced(e, s, packet, reason, at, t).Finish? && later >= at
    ensures PlanReduced(e, s, packet, reason, later, u) == PlanReduced(e, s, packet, reason, at, t)
  {
    hide CloseOrFinish, RecordedReports, Load, LatestTelemetry, Attempts, BlockedPlans, ReadStaged;
    var stored := Load(s, packet.run.revision).value;
    var reports := RecordedReports(e, s, packet, Attempts(stored.checkpoints)).value;
    FinishIgnores(s, stored, packet.run, packet.run, at, packet.run.quality, packet.run.cutoff,
                  Some((ReducedReasonName, ReasonBytes(reason))),
                  ReducedContents(packet, reason, BaseSha(e, packet), BlockedPlans(packet, reason), reports),
                  e.reduced(packet, reason), t, later, u);
  }

  lemma OperationalFinishIgnores(e: Engine, s: DateStore, run: RunContext, code: ErrorCode, at: Instant, measured: bool,
                                 t: Telemetry, other: RunContext, later: Instant, again: bool, u: Telemetry)
    requires PlanOperational(e, s, run, code, at, measured, t).Finish? && later >= at
    requires other == run.(execution := other.execution)
    ensures PlanOperational(e, s, other, code, later, again, u) == PlanOperational(e, s, run, code, at, measured, t)
  {
    hide CloseOrFinish, Load, LatestTelemetry, ReadStaged, StoredPacketHash;
    var stored := Load(s, run.revision).value;
    assert OperationalMarkdown(e, other, code) == OperationalMarkdown(e, run, code);
    FinishIgnores(s, stored, run, other, at, Fail, stored.cutoff, Some((OperationalReason, CodeBytes(code))),
                  OperationalContents(code), OperationalMarkdown(e, run, code), t, later, u);
  }

  lemma FinishedAgain(e: Engine, s: DateStore, call: Call, t: Telemetry, again: Call, u: Telemetry)
    requires Repeats(call, again) && TimeOf(again) >= TimeOf(call) && Decide(e, s, call, t).Finish?
    ensures Decide(e, s, again, u) == Decide(e, s, call, t)
  {
    hide PlanSynthesized, PlanReduced, PlanOperational;
    match call
    case CallSynthesized(packet, at) => SynthesizedFinishIgnores(e, s, packet, at, t, again.at, u);
    case CallReduced(packet, reason, at) => ReducedFinishIgnores(e, s, packet, reason, at, t, again.at, u);
    case CallOperational(run, code, at, measured) =>
      OperationalFinishIgnores(e, s, run, code, at, measured, t, again.run, again.at, again.measured, u);
  }

  // ---- A run that is visible is answered with its receipt ----

  /** The final checkpoint a decision ends with: the one it appends, or the one it found. */
  function FinalOf(d: Decision, stored: Stored): Checkpoint
    requires stored.checkpoints != []
  {
    if d.Close? then d.cp else Last(stored.checkpoints)
  }

  lemma EndingBinds(s: DateStore, stored: Stored, run: RunContext, at: Instant, quality: Quality,
                    cutoff: Option<Instant>, reason: Option<(Name, Payload)>, contents: Contents, markdown: string,
                    t: Telemetry)
    requires stored.checkpoints != []
    ensures var d := CloseOrFinish(s, stored, run, at, quality, cutoff, reason, contents, markdown, t);
            d.Close? || d.Finish? ==>
              && FinalOf(d, stored).stage.Published? && PublishedTelemetryValid(d.bundle, FinalOf(d, stored))
              && d.bundle.contents == contents && d.bundle.markdown == markdown
              && d.bundle.markdownSha == Some(Sha256(TextBytes(markdown)))
  {
    var d := CloseOrFinish(s, stored, run, at, quality, cutoff, reason, contents, markdown, t);
    if d.Close? {
      var latest := Last(stored.checkpoints);
      var named := if reason.None? then latest.artifacts else latest.artifacts[reason.value.0 := Sha256(reason.value.1)];
      FinalHolds(run, at, quality, cutoff, named, t);
      assert TheName({TelemetryArtifact(t).0}) == TelemetryArtifact(t).0;
      hide FinalCheckpoint;
    }
  }

  /** Readers are given the bundle a decision ended its run with. */
  ghost predicate VisibleAs(s: DateStore, s1: DateStore, rev: nat, d: Decision) {
    && (d.Close? || d.Finish?)
    && Load(s, rev).Some? && Load(s, rev).value.checkpoints != []
    && Load(s1, rev).Some? && Load(s1, rev).value.published && Load(s1, rev).value.run == Load(s, rev).value.run
    && Load(s1, rev).value.checkpoints != []
    && Last(Load(s1, rev).value.checkpoints) == FinalOf(d, Load(s, rev).value)
    && GetPublished(s1, rev) == Some((d.bundle.markdown, d.bundle))
  }

  lemma SynthesizedAnswers(e: Engine, s: DateStore, s1: DateStore, packet: Packet, at: Instant, t: Telemetry,
                           later: Instant, u: Telemetry)
    requires VisibleAs(s, s1, packet.run.revision, PlanSynthesized(e, s, packet, at, t))
    ensures PlanSynthesized(e, s1, packet, later, u) == Already(GetReceipt(s1, packet.run.revision).value)
  {
    hide CloseOrFinish, RecordedAttempt, Load, LatestTelemetry, Attempts, GetPublished, PublishedTelemetryValid;
    var stored := Load(s, packet.run.revision).value;
    var (draft, report) := RecordedAttempt(s, Last(Attempts(stored.checkpoints))).value;
    EndingBinds(s, stored, packet.run, at, packet.run.quality, packet.run.cutoff, None,
                SynthesizedContents(packet, draft, report), e.brief(packet, draft, report), t);
  }

  lemma ReducedAnswers(e: Engine, s: DateStore, s1: DateStore, packet: Packet, reason: ReducedReason, at: Instant,
                       t: Telemetry, later: Instant, u: Telemetry)
    requires VisibleAs(s, s1, packet.run.revision, PlanReduced(e, s, packet, reason, at, t))
    ensures PlanReduced(e, s1, packet, reason, later, u) == Already(GetReceipt(s1, packet.run.revision).value)
  {
    hide CloseOrFinish, RecordedReports, Load, LatestTelemetry, Attempts, BlockedPlans, GetPublished,
         PublishedTelemetryValid, ReadStaged, StagedPacket;
    var stored := Load(s, packet.run.revision).value;
    var reports := RecordedReports(e, s, packet, Attempts(stored.checkpoints)).value;
    EndingBinds(s, stored, packet.run, at, packet.run.quality, packet.run.cutoff,
                Some((ReducedReasonName, ReasonBytes(reason))),
                ReducedContents(packet, reason, BaseSha(e, packet), BlockedPlans(packet, reason), reports),
                e.reduced(packet, reason), t);
  }

  lemma OperationalAnswers(e: Engine, s: DateStore, s1: DateStore, run: RunContext, code: ErrorCode, at: Instant,
                           measured: bool, t: Telemetry, other: RunContext, later: Instant, again: bool, u: Telemetry)
    requires VisibleAs(s, s1, run.revision, PlanOperational(e, s, run, code, at, measured, t))
    requires other == run.(execution := other.execution)
    ensures PlanOperational(e, s1, other, code, later, again, u) == Already(GetReceipt(s1, run.revision).value)
  {
    hide CloseOrFinish, Load, LatestTelemetry, GetPublished, PublishedTelemetryValid, OperationalReadyFrom;
    var stored := Load(s, run.revision).value;
    EndingBinds(s, stored, run, at, Fail, stored.cutoff, Some((OperationalReason, CodeBytes(code))),
                OperationalContents(code), OperationalMarkdown(e, run, code), t);
  }

  lemma VisibleAnswers(e: Engine, s: DateStore, s1: DateStore, call: Call, t: Telemetry, again: Call, u: Telemetry)
    requires Repeats(call, again) && VisibleAs(s, s1, CallRev(call), Decide(e, s, call, t))
    ensures Decide(e, s1, again, u) == Already(GetReceipt(s1, CallRev(call)).value)
  {
    hide PlanSynthesized, PlanReduced, PlanOperational, VisibleAs;
    match call
    case CallSynthesized(packet, at) => SynthesizedAnswers(e, s, s1, packet, at, t, again.at, u);
    case CallReduced(packet, reason, at) => ReducedAnswers(e, s, s1, packet, reason, at, t, again.at, u);
    case CallOperational(run, code, at, measured) =>
      OperationalAnswers(e, s, s1, run, code, at, measured, t, again.run, again.at, again.measured, u);
  }

  /** An answer depends on what was published only. */
  lemma AlreadyAgain(e: Engine, s: DateStore, call: Call, t: Telemetry, again: Call, u: Telemetry)
    requires Repeats(call, again) && Decide(e, s, call, t).Already?
    ensures Decide(e, s, again, u) == Decide(e, s, call, t)
    ensures GetReceipt(s, CallRev(call)) == Some(Decide(e, s, call, t).receipt)
  {
    hide FinalCheckpoint, MakeBundle, CheckpointTelemetry, LatestTelemetry, SynthesizedReadyFrom, ReducedReadyFrom, OperationalReadyFrom, RecordedReports,
         RecordedAttempt, PublishedTelemetryValid, Attempts, Load;
  }

  /** A run that is neither staged nor visible is refused. */
  lemma NothingToAnswer(e: Engine, s: DateStore, call: Call, t: Telemetry)
    requires CallKind(call).Some? && CallRev(call) !in s.staging && GetPublished(s, CallRev(call)).None?
    ensures Decide(e, s, call, t).Refuse?
  {
    hide CloseOrFinish, LatestTelemetry, SynthesizedReadyFrom, ReducedReadyFrom, OperationalReadyFrom, RecordedReports,
         RecordedAttempt, PublishedTelemetryValid, Attempts;
  }

  // ---- The same call again ----

  /** What is loaded of the run is its own. */
  predicate OwnRun(s: DateStore, rev: nat) {
    Load(s, rev).Some? ==> Load(s, rev).value.run.revision == rev
  }

  /** A publisher's call that succeeds when nothing goes wrong. */
  ghost predicate WouldPublish(e: Engine, s: DateStore, served: Served) {
    && CallKind(served.call).Some? && OwnRun(s, CallRev(served.call))
    && Serve(e, s, served.(env := Calm())).1.Ok?
  }

  /** The bundle the call is about to publish, when it ends or finishes its run. */
  ghost predicate AboutTo(e: Engine, s: DateStore, served: Served, d: Decision, rd: RunDir) {
    var rev := CallRev(served.call);
    && d == Decide(e, s, served.call, served.telemetry) && (d.Close? || d.Finish?)
    && rev in s.staging && rd == s.staging[rev] && rd.context.Some? && rd.checkpoints != []
    && Load(s, rev) == LoadDir(rd, false) && d.bundle.run.revision == rev
    && (d.Finish? ==> Publishable(Put(s, rev, rd), d.bundle) && !Conflicts(Put(s, rev, rd), d.bundle))
    && (d.Close? ==> Ends(s, rev, rd, d.writes, d.cp, d.expected, d.bundle))
  }

  lemma SuccessMeans(e: Engine, s: DateStore, served: Served)
    requires CallKind(served.call).Some? && OwnRun(s, CallRev(served.call)) && Serve(e, s, served).1.Ok?
    ensures var d, rev := Decide(e, s, served.call, served.telemetry), CallRev(served.call);
            || d.Already?
            || (rev in s.staging && AboutTo(e, s, served, d, s.staging[rev]))
  {
    hide Decide, Publish, Publishable, Conflicts, Ends, StageAndAppend, Put, Load;
    var d, rev := Decide(e, s, served.call, served.telemetry), CallRev(served.call);
    EndingIsOfStagedRun(e, s, served.call, served.telemetry);
    if d.Close? {
      PutBack(s, rev);
      WholeEnds(s, rev, s.staging[rev], d.writes, d.cp, d.expected, d.bundle, served.now, served.env);
    } else if d.Finish? {
      PutBack(s, rev);
      PublishedMeans(s, d.bundle, served.now, served.env(0));
    }
  }

  /** The directory with the final checkpoint in it. */
  function DoneDir(d: Decision, rd: RunDir): RunDir {
    if d.Close? then Append(StagedAll(rd, d.writes), d.cp) else rd
  }

  /** What a call about to publish leaves, wherever it stops. */
  lemma CallLeaves(e: Engine, s: DateStore, served: Served, d: Decision, rd: RunDir)
    requires AboutTo(e, s, served, d, rd)
    ensures var rev, (s1, r) := CallRev(served.call), Serve(e, s, served);
            && (|| (d.Close? && PartlyStaged(s, s1, rev, rd, d.writes, false))
                || LeftBy(s, s1, rev, DoneDir(d, rd), d.bundle))
            && (served.env == Calm() ==> r.Ok?)
            && (r.Ok? ==> r.value.Receipted? && LeftBy(s, s1, rev, DoneDir(d, rd), d.bundle)
                          && Publishes(s1, rev, d.bundle, Ok(r.value.receipt)))
  {
    hide Decide, Publish, Publishable, Conflicts, Ends, StageAndAppend, Put, Load, PartlyStaged, LeftBy, Publishes, StagedAll;
    var rev := CallRev(served.call);
    PutIsBack(s, rev, rd);
    if d.Close? {
      CloseLeaves(s, rev, rd, d.writes, d.cp, d.expected, d.bundle, served.now, served.env);
    } else {
      PublishLeaves(s, rev, rd, d.bundle, served.now, served.env(0));
    }
  }

  lemma PutIsBack(s: DateStore, rev: nat, rd: RunDir)
    requires rev in s.staging && rd == s.staging[rev]
    ensures Put(s, rev, rd) == s
  {
    PutBack(s, rev);
  }

  /** Stopped while staging: the same call goes on to the same ending. */
  lemma GoesOnStaging(e: Engine, s: DateStore, served: Served, d: Decision, rd: RunDir, s1: DateStore, later: Instant)
    requires AboutTo(e, s, served, d, rd) && d.Close?
    requires PartlyStaged(s, s1, CallRev(served.call), rd, d.writes, false) && CallKind(served.call).Some?
    ensures var rev, (s2, r) := CallRev(served.call), Serve(e, s1, served.(env := Calm(), now := later));
            r.Ok? && r.value.Receipted? && Publishes(s2, rev, d.bundle, Ok(r.value.receipt))
  {
    hide Decide, Publish, Publishable, Conflicts, StageAndAppend, Put, Load, Publishes, StagedAll, Agrees, Under, Perform,
         AppendIfCurrent, ReadsStay, LoadsAlike;
    var rev, part := CallRev(served.call), s1.staging[CallRev(served.call)];
    EndingIsOfStagedRun(e, s, served.call, served.telemetry);
    PartLoadsAlike(s, s1, rev, d.writes);
    DecisionStays(e, s, s1, served.call, served.telemetry);
    StagingResumes(rd, d.writes, part);
    assert Ends(s, rev, part, d.writes, d.cp, d.expected, d.bundle);
    CloseLeaves(s, rev, part, d.writes, d.cp, d.expected, d.bundle, later, Calm());
  }

  /** Stopped after the final checkpoint: any later repetition finishes with the same bundle. */
  lemma GoesOnFinishing(e: Engine, s: DateStore, served: Served, d: Decision, rd: RunDir, s1: DateStore, again: Served)
    requires AboutTo(e, s, served, d, rd) && Repeats(served.call, again.call) && again.env == Calm()
    requires TimeOf(again.call) >= TimeOf(served.call)
    requires LeftBy(s, s1, CallRev(served.call), DoneDir(d, rd), d.bundle) && CallRev(served.call) in s1.staging
    ensures var rev, (s2, r) := CallRev(served.call), Serve(e, s1, again);
            r.Ok? && r.value.Receipted? && Publishes(s2, rev, d.bundle, Ok(r.value.receipt))
  {
    hide Decide, Publish, Publishable, Conflicts, StageAndAppend, Put, Load, Publishes, StagedAll, Agrees, EndedBy,
         AppendIfCurrent, ReadsStay, LoadsAlike, SameRun;
    var rev := CallRev(served.call);
    EndingIsOfStagedRun(e, s, served.call, served.telemetry);
    assert CallKind(served.call).Some? && CallRev(again.call) == rev;
    if d.Close? {
      EndIsThere(s, s1, rev, d.writes, d.cp, d.bundle);
      DecisionFinishes(e, s, s1, served.call, served.telemetry, again.call, again.telemetry);
    } else {
      SameRunLoads(s, s1, rev, d.bundle);
      DecisionStays(e, s, s1, served.call, served.telemetry);
      FinishedAgain(e, s1, served.call, served.telemetry, again.call, again.telemetry);
    }
    assert Decide(e, s1, again.call, again.telemetry) == Finish(d.bundle);
    SamePublishable(s, rev, DoneDir(d, rd), s1.staging[rev], d.bundle);
    PublishLeaves(s, rev, s1.staging[rev], d.bundle, again.now, NoFault);
  }

  /** Stopped with the publication visible: any repetition is answered, and writes nothing. */
  lemma IsAnswered(e: Engine, s: DateStore, served: Served, d: Decision, rd: RunDir, s1: DateStore, again: Served)
    requires AboutTo(e, s, served, d, rd) && Repeats(served.call, again.call)
    requires LeftBy(s, s1, CallRev(served.call), DoneDir(d, rd), d.bundle)
    requires CallRev(served.call) !in s1.staging && GetPublished(s1, CallRev(served.call)).Some?
    ensures var rev := CallRev(served.call);
            && GetReceipt(s1, rev).Some? && GetPublished(s1, rev) == Some((d.bundle.markdown, d.bundle))
            && Serve(e, s1, again) == (s1, Ok(Receipted(GetReceipt(s1, rev).value)))
  {
    hide Decide, Publish, Publishable, Conflicts, Ends, StageAndAppend, StagedAll, SameRun, Put;
    VisibleLeft(s, s1, CallRev(served.call), d, rd);
    hide Load, GetPublished;
    VisibleAnswers(e, s, s1, served.call, served.telemetry, again.call, again.telemetry);
  }

  lemma VisibleLeft(s: DateStore, s1: DateStore, rev: nat, d: Decision, rd: RunDir)
    requires (d.Close? || d.Finish?) && rd.context.Some? && rd.checkpoints != [] && Load(s, rev) == LoadDir(rd, false)
    requires LeftBy(s, s1, rev, DoneDir(d, rd), d.bundle) && rev !in s1.staging && GetPublished(s1, rev).Some?
    ensures VisibleAs(s, s1, rev, d)
  {
    if d.Close? { StagedKeepsRest(rd, d.writes); }
    hide StagedAll;
  }

  lemma {:induction false} StagedKeepsRest(rd: RunDir, writes: Writes)
    ensures var full := StagedAll(rd, writes); full == rd.(artifacts := full.artifacts)
    decreases |writes|
  {
    if writes != [] { StagedKeepsRest(WithArtifact(rd, writes[0].0, writes[0].1), writes[1..]); }
  }

  /** The run was left staged with its final checkpoint in it. */
  predicate StagedEnded(s: DateStore, rev: nat) {
    rev in s.staging && s.staging[rev].checkpoints != [] && Last(s.staging[rev].checkpoints).stage.Published?
  }

  /** The same request with the same time and telemetry, or any later one once the run is ended. */
  predicate AsksAgain(s1: DateStore, first: Served, again: Served) {
    && Repeats(first.call, again.call)
    && TimeOf(again.call) >= TimeOf(first.call)
    && ((again.call, again.telemetry) == (first.call, first.telemetry)
        || !(CallRev(first.call) in s1.staging) || StagedEnded(s1, CallRev(first.call)))
  }

  /** What a repeated call must give when the first one would have published `published`. */
  ghost predicate Settles(s1: DateStore, rev: nat, published: Option<(string, Bundle)>, outcome: (DateStore, Result<Reply>)) {
    && (outcome.1.Ok? <==> rev in s1.staging || GetPublished(s1, rev).Some?)
    && (outcome.1.Ok? ==>
          && published.Some? && GetPublished(outcome.0, rev) == published
          && outcome.1.value.Receipted? && GetReceipt(outcome.0, rev) == Some(outcome.1.value.receipt))
    && (rev !in s1.staging ==> outcome.0 == s1)
    && (!outcome.1.Ok? ==> outcome.1 == Rejected(InvalidRequest))
  }

  lemma SettledSomehow(e: Engine, s: DateStore, first: Served, again: Served, d: Decision)
    requires CallRev(first.call) in s.staging && CallKind(first.call).Some?
    requires AboutTo(e, s, first, d, s.staging[CallRev(first.call)])
    requires var s1 := Serve(e, s, first).0; AsksAgain(s1, first, again) && again.env == Calm()
    ensures var s1 := Serve(e, s, first).0;
            Settles(s1, CallRev(first.call), Some((d.bundle.markdown, d.bundle)), Serve(e, s1, again))
  {
    hide Decide, Ends, Put, Load, StagedAll, Agrees, Perform, GetPublished, SameRun, Publishable, Conflicts, Under, GetReceipt;
    var rev, s1, rd := CallRev(first.call), Serve(e, s, first).0, s.staging[CallRev(first.call)];
    CallLeaves(e, s, first, d, rd);
    if LeftBy(s, s1, rev, DoneDir(d, rd), d.bundle) {
      if rev in s1.staging {
        GoesOnFinishing(e, s, first, d, rd, s1, again);
      } else if GetPublished(s1, rev).Some? {
        IsAnswered(e, s, first, d, rd, s1, again);
      } else {
        IsRefused(e, s1, again);
      }
    } else {
      PartIsOpen(e, s, first, d, rd, s1);
      GoesOnStaging(e, s, first, d, rd, s1, again.now);
      assert again == first.(env := Calm(), now := again.now);
    }
  }

  lemma IsRefused(e: Engine, s: DateStore, served: Served)
    requires CallKind(served.call).Some? && CallRev(served.call) !in s.staging && GetPublished(s, CallRev(served.call)).None?
    ensures Serve(e, s, served) == (s, Rejected(InvalidRequest))
  {
    NothingToAnswer(e, s, served.call, served.telemetry);
    hide Decide, GetPublished;
  }

  lemma PartIsOpen(e: Engine, s: DateStore, first: Served, d: Decision, rd: RunDir, s1: DateStore)
    requires AboutTo(e, s, first, d, rd) && d.Close? && CallKind(first.call).Some?
    requires PartlyStaged(s, s1, CallRev(first.call), rd, d.writes, false)
    ensures CallRev(first.call) in s1.staging && !StagedEnded(s1, CallRev(first.call))
  {
    EndingIsOfStagedRun(e, s, first.call, first.telemetry);
    hide Decide, Ends, Put, Load, StagedAll, Agrees;
  }

  /**
   A publisher's call that would have succeeded undisturbed stops anywhere, with its process or
   with an I/O error. Made again, undisturbed, it returns exactly if the run is still staged or
   the publication is visible; then readers are given the very markdown and bundle of the
   undisturbed call, and the caller its receipt. Once the final checkpoint is in place this holds
   of any repetition that is not earlier, whatever telemetry it measured. A repetition on a run
   that is not staged any more writes nothing.
   */
  lemma SameCallAgain(e: Engine, s: DateStore, first: Served, again: Served)
    requires WouldPublish(e, s, first) && AsksAgain(Serve(e, s, first).0, first, again) && again.env == Calm()
    ensures var rev, s1 := CallRev(first.call), Serve(e, s, first).0;
            Settles(s1, rev, GetPublished(Serve(e, s, first.(env := Calm())).0, rev), Serve(e, s1, again))
  {
    hide Decide, Put, Load, Perform, GetPublished, GetReceipt, AboutTo, OwnRun;
    var rev, d, whole := CallRev(first.call), Decide(e, s, first.call, first.telemetry), first.(env := Calm());
    SuccessMeans(e, s, whole);
    if rev in s.staging && AboutTo(e, s, whole, d, s.staging[rev]) {
      SameAboutTo(e, s, first, d);
      CallLeaves(e, s, whole, d, s.staging[rev]);
      SettledSomehow(e, s, first, again, d);
    } else {
      AnsweredStays(e, s, first, again);
    }
  }

  lemma SameAboutTo(e: Engine, s: DateStore, served: Served, d: Decision)
    requires CallRev(served.call) in s.staging
    requires AboutTo(e, s, served.(env := Calm()), d, s.staging[CallRev(served.call)])
    ensures AboutTo(e, s, served, d, s.staging[CallRev(served.call)])
  {
    hide Decide, Put, Load, Ends, Publishable, Conflicts;
  }

  lemma AnsweredStays(e: Engine, s: DateStore, first: Served, again: Served)
    requires CallKind(first.call).Some? && Repeats(first.call, again.call)
    requires Decide(e, s, first.call, first.telemetry).Already?
    ensures var rev := CallRev(first.call);
            && Serve(e, s, first).0 == s && Serve(e, s, first.(env := Calm())).0 == s
            && Settles(s, rev, GetPublished(s, rev), Serve(e, s, again))
  {
    AlreadyAgain(e, s, first.call, first.telemetry, again.call, again.telemetry);
    AlreadyIsVisible(e, s, first.call, first.telemetry);
    hide Decide, GetPublished;
  }

  lemma AlreadyIsVisible(e: Engine, s: DateStore, call: Call, t: Telemetry)
    requires CallKind(call).Some? && Decide(e, s, call, t).Already?
    ensures CallRev(call) !in s.staging && GetPublished(s, CallRev(call)).Some?
  {
    hide FinalCheckpoint, MakeBundle, CheckpointTelemetry, LatestTelemetry, SynthesizedReadyFrom, ReducedReadyFrom,
         OperationalReadyFrom, RecordedReports, RecordedAttempt, PublishedTelemetryValid, Attempts;
  }

  /** A call that returned is what the undisturbed call would have done. */
  lemma SuccessWouldPublish(e: Engine, s: DateStore, served: Served)
    requires CallKind(served.call).Some? && OwnRun(s, CallRev(served.call)) && Serve(e, s, served).1.Ok?
    ensures WouldPublish(e, s, served)
    ensures GetPublished(Serve(e, s, served).0, CallRev(served.call))
            == GetPublished(Serve(e, s, served.(env := Calm())).0, CallRev(served.call))
    ensures CallRev(served.call) !in Serve(e, s, served).0.staging
    ensures Serve(e, s, served).1.value.Receipted?
    ensures GetReceipt(Serve(e, s, served).0, CallRev(served.call)) == Some(Serve(e, s, served).1.value.receipt)
  {
    hide Decide, Put, Load, Perform, GetPublished, GetReceipt, AboutTo, OwnRun;
    var rev, d, whole := CallRev(served.call), Decide(e, s, served.call, served.telemetry), served.(env := Calm());
    SuccessMeans(e, s, served);
    if rev in s.staging && AboutTo(e, s, served, d, s.staging[rev]) {
      CallLeaves(e, s, served, d, s.staging[rev]);
      assert AboutTo(e, s, whole, d, s.staging[rev]) by { AboutWhole(e, s, served, d); }
      CallLeaves(e, s, whole, d, s.staging[rev]);
    } else {
      AnsweredStays(e, s, served, served);
      AlreadyAgain(e, s, served.call, served.telemetry, served.call, served.telemetry);
      AlreadyIsVisible(e, s, served.call, served.telemetry);
      AlreadyReplies(e, s, served);
    }
  }

  lemma AlreadyReplies(e: Engine, s: DateStore, served: Served)
    requires Decide(e, s, served.call, served.telemetry).Already?
    ensures Serve(e, s, served) == (s, Ok(Receipted(Decide(e, s, served.call, served.telemetry).receipt)))
    ensures Serve(e, s, served.(env := Calm())) == Serve(e, s, served)
  {
    hide Decide;
  }

  lemma AboutWhole(e: Engine, s: DateStore, served: Served, d: Decision)
    requires CallRev(served.call) in s.staging
    requires AboutTo(e, s, served, d, s.staging[CallRev(served.call)])
    ensures AboutTo(e, s, served.(env := Calm()), d, s.staging[CallRev(served.call)])
  {
    hide Decide, Put, Load, Ends, Publishable, Conflicts;
  }

  /**
   Once a publisher's call returned, every repetition of it returns the same receipt and writes
   nothing: at any time, with any telemetry, and whatever fails.
   */
  lemma PublishedIsAnswered(e: Engine, s: DateStore, first: Served, again: Served)
    requires CallKind(first.call).Some? && OwnRun(s, CallRev(first.call)) && Serve(e, s, first).1.Ok?
    requires Repeats(first.call, again.call)
    ensures Serve(e, Serve(e, s, first).0, again) == Serve(e, s, first)
  {
    hide Decide, Put, Load, Perform, GetPublished, GetReceipt, AboutTo, OwnRun, WouldPublish;
    var rev, d := CallRev(first.call), Decide(e, s, first.call, first.telemetry);
    SuccessMeans(e, s, first);
    SuccessWouldPublish(e, s, first);
    if rev in s.staging && AboutTo(e, s, first, d, s.staging[rev]) {
      CallLeaves(e, s, first, d, s.staging[rev]);
      IsAnswered(e, s, first, d, s.staging[rev], Serve(e, s, first).0, again);
    } else {
      AlreadyAgain(e, s, first.call, first.telemetry, again.call, again.telemetry);
      AlreadyReplies(e, s, first);
      AlreadyReplies(e, s, again);
    }
  }

  // ---- However often it is stopped ----

  /** The store after the same call was made once in each of these environments. */
  ghost function AfterStops(e: Engine, s: DateStore, served: Served, stops: seq<Environment>): DateStore
    decreases |stops|
  {
    if stops == [] then s else AfterStops(e, Serve(e, s, served.(env := stops[0])).0, served, stops[1..])
  }

  /** A run that is not staged is not written to. */
  lemma {:induction false} NotStagedStays(e: Engine, s: DateStore, served: Served, stops: seq<Environment>)
    requires CallKind(served.call).Some? && CallRev(served.call) !in s.staging
    ensures AfterStops(e, s, served, stops) == s
    decreases |stops|
  {
    if stops != [] {
      var next := served.(env := stops[0]);
      EndingIsOfStagedRun(e, s, served.call, served.telemetry);
      NothingLeft(e, s, served.call, served.telemetry);
      assert Serve(e, s, next).0 == s by { hide Decide; }
      hide Serve;
      NotStagedStays(e, s, served, stops[1..]);
    }
  }

  lemma NothingLeft(e: Engine, s: DateStore, call: Call, t: Telemetry)
    requires CallKind(call).Some? && CallRev(call) !in s.staging
    ensures !Decide(e, s, call, t).Leave?
  {
    hide FinalCheckpoint, MakeBundle, CheckpointTelemetry, LatestTelemetry, SynthesizedReadyFrom, ReducedReadyFrom,
         OperationalReadyFrom, RecordedReports, RecordedAttempt, PublishedTelemetryValid, Attempts;
  }

  /**
   However often the call is stopped, and wherever: made once more, undisturbed, it gives readers
   exactly what it would have given them at first, as long as the run is still staged or the
   publication is visible.
   */
  lemma {:induction false} HoweverOftenStopped(e: Engine, s: DateStore, served: Served, stops: seq<Environment>)
    requires WouldPublish(e, s, served) && served.env == Calm()
    ensures var rev, s1 := CallRev(served.call), AfterStops(e, s, served, stops);
            Settles(s1, rev, GetPublished(Serve(e, s, served).0, rev), Serve(e, s1, served))
    decreases |stops|
  {
    hide Serve, GetPublished, GetReceipt, Load;
    var rev := CallRev(served.call);
    if stops == [] {
      SuccessSettles(e, s, served);
    } else {
      var first := served.(env := stops[0]);
      var s1 := Serve(e, s, first).0;
      assert first.(env := Calm()) == served;
      SameCallAgain(e, s, first, served);
      if rev in s1.staging {
        StillOwn(e, s, first);
        HoweverOftenStopped(e, s1, served, stops[1..]);
      } else {
        NotStagedStays(e, s1, served, stops[1..]);
      }
    }
  }

  lemma SuccessSettles(e: Engine, s: DateStore, served: Served)
    requires WouldPublish(e, s, served) && served.env == Calm()
    ensures var rev := CallRev(served.call);
            Settles(s, rev, GetPublished(Serve(e, s, served).0, rev), Serve(e, s, served))
  {
    hide Decide, Load, Perform, GetPublished, GetReceipt, AboutTo, OwnRun;
    assert served.(env := Calm()) == served;
    var rev, d := CallRev(served.call), Decide(e, s, served.call, served.telemetry);
    SuccessMeans(e, s, served);
    if rev in s.staging && AboutTo(e, s, served, d, s.staging[rev]) {
      CallLeaves(e, s, served, d, s.staging[rev]);
    } else {
      AnsweredStays(e, s, served, served);
      AlreadyReplies(e, s, served);
    }
  }

  /** The run loads as its own after the call as before. */
  lemma StillOwn(e: Engine, s: DateStore, served: Served)
    requires WouldPublish(e, s, served) && CallRev(served.call) in Serve(e, s, served).0.staging
    ensures OwnRun(Serve(e, s, served).0, CallRev(served.call))
  {
    hide Decide, Put, Perform, GetPublished, Ends, Publishable, Conflicts;
    var rev, d, whole := CallRev(served.call), Decide(e, s, served.call, served.telemetry), served.(env := Calm());
    SuccessMeans(e, s, whole);
    if rev in s.staging && AboutTo(e, s, whole, d, s.staging[rev]) {
      SameAboutTo(e, s, served, d);
      CallLeaves(e, s, served, d, s.staging[rev]);
      assert Load(Serve(e, s, served).0, rev).value.run == Load(s, rev).value.run by {
        LeftLoads(s, Serve(e, s, served).0, rev, d, s.staging[rev]);
      }
    } else {
      AnsweredStays(e, s, served, served);
    }
  }

  lemma LeftLoads(s: DateStore, s1: DateStore, rev: nat, d: Decision, rd: RunDir)
    requires rev in s.staging && rd == s.staging[rev] && rev in s1.staging && rd.context.Some? && (d.Close? || d.Finish?)
    requires (d.Close? && PartlyStaged(s, s1, rev, rd, d.writes, false)) || LeftBy(s, s1, rev, DoneDir(d, rd), d.bundle)
    ensures Load(s, rev).Some? && Load(s1, rev).Some? && Load(s1, rev).value.run == Load(s, rev).value.run
  {
    if d.Close? { StagedKeepsRest(rd, d.writes); }
    hide StagedAll;
  }
}
