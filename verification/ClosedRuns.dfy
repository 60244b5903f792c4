/**
 What every world reachable by the services keeps, when no frozen packet has FAIL quality:
 each run is closed in at most one way, and everything pending, published or quarantined
 for it is the one bundle its final checkpoint determines.
 */
module ClosedRuns {
  import opened RunTypes
  import opened RunStore
  import opened RunHistory
  import opened Publication
  import opened PublicationMachine
  import opened FinalBundle

  // ---- The invariant ----

  ghost predicate Ended(cps: seq<Checkpoint>) {
    cps != [] && Last(cps).stage.Published?
  }

  /** A staged packet is not FAIL and is this run's own context with synthesis statuses. */
  ghost predicate PacketPremise(rd: RunDir)
    requires rd.context.Some?
  {
    ResearchPacket in rd.artifacts && rd.artifacts[ResearchPacket].PacketBytes? ==>
      var packet := rd.artifacts[ResearchPacket].packet;
      && !packet.run.quality.Fail?
      && packet.run == WithStatuses(RunOf(rd), StatusesOf(packet.run))
  }

  /** Checkpoints of the synthesis stages carry no ending reason. */
  ghost predicate NoReasonYet(cp: Checkpoint) {
    cp.stage.AwaitingSynthesis? || cp.stage.Validating? ==>
      OperationalReason !in cp.artifacts && ReducedReasonName !in cp.artifacts
  }

  ghost predicate RunSound(e: Engine, rev: nat, rd: RunDir) {
    && rd.context.Some?
    && rd.context.value.revision == rev
    && PacketPremise(rd)
    && (forall i :: 0 <= i < |rd.checkpoints| ==> rd.checkpoints[i].revision == rev && NoReasonYet(rd.checkpoints[i]))
    && (Ended(rd.checkpoints) ==> ClosesRun(e, rd, rd.checkpoints))
  }

  ghost predicate ClosesRun(e: Engine, rd: RunDir, cps: seq<Checkpoint>)
    requires rd.context.Some? && cps != []
  {
    && Closed(e, RunOf(rd), cps)
    && (!Last(cps).quality.Fail? ==> rd.freeze.Some?)
  }

  /** A task whose count is outdated will be refused; a current one ends the run in the one way it may. */
  ghost predicate AppendTask(e: Engine, rd: RunDir, t: Task)
    requires rd.context.Some? && t.cp.Some?
  {
    var cp := t.cp.value;
    && cp.revision == t.rev
    && t.expected <= |rd.checkpoints|
    && NoReasonYet(cp)
    && (t.expected == |rd.checkpoints| ==>
          if t.bundle.Some? then
            var cps := rd.checkpoints[..t.expected] + [cp];
            && ClosesRun(e, rd, cps)
            && t.bundle.value == TheBundle(e, RunOf(rd), cps)
          else
            || (cp.stage.Validating? && rd.freeze.Some?)
            || (cp.stage.PreparationFailed? && t.expected > 0 && !rd.checkpoints[t.expected - 1].quality.Fail?))
  }

  ghost predicate TaskSound(e: Engine, rd: RunDir, t: Task) {
    && rd.context.Some?
    && (forall k :: 0 <= k < |t.writes| ==> t.writes[k].0 != ResearchPacket)
    && (t.cp.Some? ==> AppendTask(e, rd, t))
    && (t.cp.None? && t.bundle.Some? ==>
          Ended(rd.checkpoints) && t.bundle.value == TheBundle(e, RunOf(rd), rd.checkpoints))
  }

  /** The run's published or quarantined files are its one bundle. */
  ghost predicate FilesSettled(e: Engine, rd: RunDir) {
    && rd.context.Some?
    && Ended(rd.checkpoints)
    && rd.bundle == Some(TheBundle(e, RunOf(rd), rd.checkpoints))
    && rd.report == Some(TheBundle(e, RunOf(rd), rd.checkpoints).markdown)
  }

  ghost predicate IndexSettled(e: Engine, rd: RunDir, entry: Entry) {
    && rd.context.Some?
    && Ended(rd.checkpoints)
    && (entry.bundleSha, entry.markdownSha) == Shas(TheBundle(e, RunOf(rd), rd.checkpoints))
  }

  /** All a store says about one revision. */
  datatype View = View(dir: Option<RunDir>, moved: bool, entry: Option<Entry>)

  function ViewOf(s: DateStore, rev: nat): View {
    View(Current(s, rev), rev in s.finals || rev in s.orphans,
         if rev in s.index then Some(s.index[rev]) else None)
  }

  /** A directory that was made but has no context yet holds nothing else either. */
  ghost predicate ViewSound(e: Engine, rev: nat, v: View) {
    match v.dir
    case None => v.entry.None?
    case Some(rd) =>
      if rd.context.None? then rd == EmptyDir && !v.moved && v.entry.None?
      else
      && RunSound(e, rev, rd)
      && (v.moved ==> FilesSettled(e, rd))
      && (v.entry.Some? ==> IndexSettled(e, rd, v.entry.value))
  }

  /** Each run is in one place only. */
  ghost predicate Shape(s: DateStore) {
    && WellFormed(s)
    && s.staging.Keys !! s.orphans.Keys
    && s.finals.Keys !! s.orphans.Keys
  }

  ghost predicate StoreSound(e: Engine, s: DateStore) {
    Shape(s) && forall rev :: ViewSound(e, rev, ViewOf(s, rev))
  }

  ghost predicate TaskFits(e: Engine, dir: Option<RunDir>, t: Task) {
    dir.Some? && TaskSound(e, dir.value, t)
  }

  ghost predicate TasksSound(e: Engine, s: DateStore, tasks: seq<Task>) {
    forall i :: 0 <= i < |tasks| ==> TaskFits(e, Current(s, tasks[i].rev), tasks[i])
  }

  ghost predicate Sound(e: Engine, w: World) {
    StoreSound(e, w.store) && TasksSound(e, w.store, w.tasks)
  }

  // ---- Decisions establish it ----

  lemma CloseEstablishes(e: Engine, s: DateStore, rd: RunDir, rev: nat, run: RunContext, at: Instant,
                         quality: Quality, cutoff: Option<Instant>, reason: Option<(Name, Payload)>,
                         contents: Contents, markdown: string, telemetry: Telemetry)
    requires RunSound(e, rev, rd) && rd.checkpoints != [] && !Last(rd.checkpoints).stage.Published?
    requires run.revision == rev
    requires reason.Some? ==> reason.value.0 == OperationalReason || reason.value.0 == ReducedReasonName
    requires var d := CloseOrFinish(s, LoadDir(rd, false).value, run, at, quality, cutoff, reason, contents,
                                    markdown, telemetry);
             d.Close? ==>
               var cps := rd.checkpoints + [d.cp];
               && (ClosedSynthesized(RunOf(rd), cps) || ClosedReduced(e, RunOf(rd), cps) || ClosedOperational(cps))
               && FinalContents(e, RunOf(rd), cps) == (contents, markdown)
               && (!quality.Fail? ==> rd.freeze.Some?)
    ensures var d := CloseOrFinish(s, LoadDir(rd, false).value, run, at, quality, cutoff, reason, contents,
                                   markdown, telemetry);
            d.Close? ==> TaskSound(e, rd, Task(rev, d.writes, Some(d.cp), d.expected, Some(d.bundle)))
  {
    hide FinalContents, ClosedSynthesized, ClosedReduced, ClosedOperational, FrozenTelemetry, PacketPremise;
    var d := CloseOrFinish(s, LoadDir(rd, false).value, run, at, quality, cutoff, reason, contents, markdown, telemetry);
    if d.Close? {
      var latest := Last(rd.checkpoints);
      var named := if reason.None? then latest.artifacts else latest.artifacts[reason.value.0 := Sha256(reason.value.1)];
      TelemetryBound(Checkpoint(rev, Stage.Published, Execution.Published, quality, run.delivery, at, cutoff, named, false),
                     telemetry);
      var cps := rd.checkpoints + [d.cp];
      assert rd.checkpoints[..d.expected] == rd.checkpoints;
      assert Last(cps) == d.cp;
      assert Closed(e, RunOf(rd), cps);
    }
  }

  /** The names a final checkpoint keeps, seen through the frozen readers. */
  lemma FinalNames(cp: Checkpoint, named: map<Name, Digest>, name: Name)
    requires Business(cp.artifacts) == Business(named)
    requires !name.TelemetryName?
    ensures name in cp.artifacts <==> name in named
    ensures name in named ==> cp.artifacts[name] == named[name]
  {
    if name in named { assert name in Business(named); assert name in Business(cp.artifacts); }
    if name in cp.artifacts { assert name in Business(cp.artifacts); assert name in Business(named); }
  }

  /** No recorded attempt of a run closed by the fallback is valid. */
  lemma ReducedHasNoValid(e: Engine, run: RunContext, cps: seq<Checkpoint>)
    requires cps != [] && ClosedReduced(e, run, cps) && Attempts(cps) != []
    ensures FrozenAttempt(Last(Attempts(cps))).Some? && !FrozenAttempt(Last(Attempts(cps))).value.1.valid
  {
    var attempts := Attempts(cps);
    CheckedReports(e, FrozenPacket(Last(cps)).value, attempts);
    assert !FrozenReports(attempts)[|attempts| - 1].valid;
  }

  lemma SynthesizedCloses(e: Engine, rd: RunDir, cp: Checkpoint, packet: Packet, draft: Draft, report: Report)
    requires rd.context.Some? && rd.checkpoints != [] && cp.stage.Published?
    requires Business(cp.artifacts) == Business(Last(rd.checkpoints).artifacts)
    requires OperationalReason !in Last(rd.checkpoints).artifacts
    requires ReducedReasonName !in Last(rd.checkpoints).artifacts
    requires FrozenPacket(Last(rd.checkpoints)) == Some(packet)
    requires !packet.run.quality.Fail? && cp.quality == packet.run.quality && cp.delivery == packet.run.delivery
    requires packet.run == WithStatuses(RunOf(rd), StatusesOf(packet.run))
    requires Attempts(rd.checkpoints) != []
    requires FrozenAttempt(Last(Attempts(rd.checkpoints))) == Some((draft, report))
    requires draft.origin.Synthesized? && report.valid && report.attempt == |Attempts(rd.checkpoints)|
    ensures var cps := rd.checkpoints + [cp];
            && ClosedSynthesized(RunOf(rd), cps)
            && FinalContents(e, RunOf(rd), cps)
               == (SynthesizedContents(packet, draft, report), e.brief(packet, draft, report))
  {
    var latest := Last(rd.checkpoints);
    FinalNames(cp, latest.artifacts, ResearchPacket);
    FinalNames(cp, latest.artifacts, OperationalReason);
    FinalNames(cp, latest.artifacts, ReducedReasonName);
    AttemptsAppend(rd.checkpoints, cp);
    assert Attempts(rd.checkpoints + [cp]) == Attempts(rd.checkpoints);
    assert Last(rd.checkpoints + [cp]) == cp;
  }

  lemma SynthesizedIsReady(e: Engine, s: DateStore, packet: Packet, at: Instant)
    requires var rev := packet.run.revision; rev in s.staging && RunSound(e, rev, s.staging[rev])
    requires SynthesizedReady(s, packet, at)
    ensures var rd := s.staging[packet.run.revision];
            var latest, attempts := Last(rd.checkpoints), Attempts(rd.checkpoints);
            && (latest.stage.Validating? || latest.stage.Published?)
            && FrozenPacket(latest) == Some(packet)
            && !packet.run.quality.Fail?
            && latest.quality == packet.run.quality
            && packet.run == WithStatuses(RunOf(rd), StatusesOf(packet.run))
            && rd.freeze.Some?
            && FrozenAttempt(Last(attempts)) == RecordedAttempt(s, Last(attempts))
            && (latest.stage.Published? ==> FrozenReason(latest).None? && FrozenCode(latest).None?)
            && (latest.stage.Validating? ==>
                  OperationalReason !in latest.artifacts && ReducedReasonName !in latest.artifacts)
  {
    var rd := s.staging[packet.run.revision];
    var latest := Last(rd.checkpoints);
    assert latest.stage in {Stage.Validating, Stage.Published};
    assert NoReasonYet(latest);
    if latest.stage.Published? && ClosedReduced(e, RunOf(rd), rd.checkpoints) {
      ReducedHasNoValid(e, RunOf(rd), rd.checkpoints);
    }
  }

  lemma SynthesizedPlanCloses(e: Engine, s: DateStore, packet: Packet, at: Instant, telemetry: Telemetry)
    requires var rev := packet.run.revision; rev in s.staging && RunSound(e, rev, s.staging[rev])
    ensures var d := PlanSynthesized(e, s, packet, at, telemetry);
            var rev := packet.run.revision;
            d.Close? ==> TaskSound(e, s.staging[rev], Task(rev, d.writes, Some(d.cp), d.expected, Some(d.bundle)))
  {
    var rev := packet.run.revision;
    var rd := s.staging[rev];
    var d := PlanSynthesized(e, s, packet, at, telemetry);
    if d.Close? {
      var latest, attempts := Last(rd.checkpoints), Attempts(rd.checkpoints);
      SynthesizedIsReady(e, s, packet, at);
      var (draft, report) := RecordedAttempt(s, Last(attempts)).value;
      TelemetryBound(Checkpoint(rev, Stage.Published, Execution.Published, packet.run.quality, packet.run.delivery, at,
                                packet.run.cutoff, latest.artifacts, false), telemetry);
      SynthesizedCloses(e, rd, d.cp, packet, draft, report);
      CloseEstablishes(e, s, rd, rev, packet.run, at, packet.run.quality, packet.run.cutoff, None,
                       SynthesizedContents(packet, draft, report), e.brief(packet, draft, report), telemetry);
    }
  }

  lemma SynthesizedPlanFinishes(e: Engine, s: DateStore, packet: Packet, at: Instant, telemetry: Telemetry)
    requires var rev := packet.run.revision; rev in s.staging && RunSound(e, rev, s.staging[rev])
    ensures var d := PlanSynthesized(e, s, packet, at, telemetry);
            var rev := packet.run.revision;
            && !d.Record? && !d.Leave?
            && (d.Finish? ==> TaskSound(e, s.staging[rev], Task(rev, [], None, 0, Some(d.bundle))))
  {
    var d := PlanSynthesized(e, s, packet, at, telemetry);
    if d.Finish? {
      SynthesizedIsReady(e, s, packet, at);
      var frozen := CheckpointTelemetry(s, Last(s.staging[packet.run.revision].checkpoints));
    }
  }

  lemma ReducedCloses(e: Engine, rd: RunDir, cp: Checkpoint, packet: Packet, reason: ReducedReason)
    requires rd.context.Some? && rd.checkpoints != [] && cp.stage.Published?
    requires var latest := Last(rd.checkpoints);
             Business(cp.artifacts) == Business(latest.artifacts[ReducedReasonName := Sha256(ReasonBytes(reason))])
    requires OperationalReason !in Last(rd.checkpoints).artifacts
    requires ResearchPacket in Last(rd.checkpoints).artifacts
             && Last(rd.checkpoints).artifacts[ResearchPacket] == Sha256(PacketBytes(packet))
    requires !packet.run.quality.Fail? && cp.quality == packet.run.quality && cp.delivery == packet.run.delivery
    requires packet.run == WithStatuses(RunOf(rd), StatusesOf(packet.run))
    requires AttemptsChecked(e, packet, Attempts(rd.checkpoints))
    requires ReasonFits(FrozenReports(Attempts(rd.checkpoints)), reason)
    ensures var cps := rd.checkpoints + [cp];
            && ClosedReduced(e, RunOf(rd), cps)
            && FinalContents(e, RunOf(rd), cps)
               == (ReducedContents(packet, reason, BaseSha(e, packet), BlockedPlans(packet, reason),
                                   FrozenReports(Attempts(rd.checkpoints))),
                   e.reduced(packet, reason))
  {
    var named := Last(rd.checkpoints).artifacts[ReducedReasonName := Sha256(ReasonBytes(reason))];
    FinalNames(cp, named, ResearchPacket);
    FinalNames(cp, named, OperationalReason);
    FinalNames(cp, named, ReducedReasonName);
    AttemptsAppend(rd.checkpoints, cp);
    assert Attempts(rd.checkpoints + [cp]) == Attempts(rd.checkpoints);
    assert Last(rd.checkpoints + [cp]) == cp;
  }

  lemma ReducedIsReady(e: Engine, s: DateStore, packet: Packet, reason: ReducedReason, at: Instant)
    requires var rev := packet.run.revision; rev in s.staging && RunSound(e, rev, s.staging[rev])
    requires ReducedReady(e, s, packet, reason, at)
    ensures var rd := s.staging[packet.run.revision];
            var latest, attempts := Last(rd.checkpoints), Attempts(rd.checkpoints);
            && (latest.stage.AwaitingSynthesis? || latest.stage.Validating? || latest.stage.Published?)
            && FrozenPacket(latest) == Some(packet)
            && !packet.run.quality.Fail?
            && latest.quality == packet.run.quality
            && packet.run == WithStatuses(RunOf(rd), StatusesOf(packet.run))
            && rd.freeze.Some?
            && RecordedReports(e, s, packet, attempts) == Some(FrozenReports(attempts))
            && AttemptsChecked(e, packet, attempts)
            && ReasonFits(FrozenReports(attempts), reason)
            && (latest.stage.Published? ==> FrozenReason(latest) == Some(reason))
            && (!latest.stage.Published? ==> OperationalReason !in latest.artifacts)
  {
    var rd := s.staging[packet.run.revision];
    var latest := Last(rd.checkpoints);
    assert latest.stage in {Stage.AwaitingSynthesis, Stage.Validating, Stage.Published};
    assert NoReasonYet(latest);
    ReportsFrozen(e, s, packet, Attempts(rd.checkpoints));
  }

  lemma ReducedPlanCloses(e: Engine, s: DateStore, packet: Packet, reason: ReducedReason, at: Instant,
                          telemetry: Telemetry)
    requires var rev := packet.run.revision; rev in s.staging && RunSound(e, rev, s.staging[rev])
    ensures var d := PlanReduced(e, s, packet, reason, at, telemetry);
            var rev := packet.run.revision;
            d.Close? ==> TaskSound(e, s.staging[rev], Task(rev, d.writes, Some(d.cp), d.expected, Some(d.bundle)))
  {
    var rev := packet.run.revision;
    var rd := s.staging[rev];
    var d := PlanReduced(e, s, packet, reason, at, telemetry);
    if d.Close? {
      var latest := Last(rd.checkpoints);
      ReducedIsReady(e, s, packet, reason, at);
      var named := latest.artifacts[ReducedReasonName := Sha256(ReasonBytes(reason))];
      TelemetryBound(Checkpoint(rev, Stage.Published, Execution.Published, packet.run.quality, packet.run.delivery, at,
                                packet.run.cutoff, named, false), telemetry);
      ReducedCloses(e, rd, d.cp, packet, reason);
      CloseEstablishes(e, s, rd, rev, packet.run, at, packet.run.quality, packet.run.cutoff,
                       Some((ReducedReasonName, ReasonBytes(reason))),
                       ReducedContents(packet, reason, BaseSha(e, packet), BlockedPlans(packet, reason),
                                       FrozenReports(Attempts(rd.checkpoints))),
                       e.reduced(packet, reason), telemetry);
    }
  }

  lemma ReducedPlanFinishes(e: Engine, s: DateStore, packet: Packet, reason: ReducedReason, at: Instant,
                            telemetry: Telemetry)
    requires var rev := packet.run.revision; rev in s.staging && RunSound(e, rev, s.staging[rev])
    ensures var d := PlanReduced(e, s, packet, reason, at, telemetry);
            var rev := packet.run.revision;
            && !d.Record? && !d.Leave?
            && (d.Finish? ==> TaskSound(e, s.staging[rev], Task(rev, [], None, 0, Some(d.bundle))))
  {
    var rd := s.staging[packet.run.revision];
    var d := PlanReduced(e, s, packet, reason, at, telemetry);
    hide ReducedReadyFrom, RecordedReports, TelemetryLost;
    if d.Finish? {
      ReducedIsReady(e, s, packet, reason, at);
      var frozen := CheckpointTelemetry(s, Last(rd.checkpoints));
    }
  }

  lemma OperationalCloses(e: Engine, rd: RunDir, cp: Checkpoint, code: ErrorCode)
    requires rd.context.Some? && rd.checkpoints != [] && cp.stage.Published? && cp.quality.Fail?
    requires Business(cp.artifacts)
             == Business(Last(rd.checkpoints).artifacts[OperationalReason := Sha256(CodeBytes(code))])
    ensures var cps := rd.checkpoints + [cp];
            && ClosedOperational(cps)
            && FinalContents(e, RunOf(rd), cps)
               == (OperationalContents(code), e.operational(RunOf(rd).revision, Fail, cp.delivery, code))
  {
    hide FrozenPacket, FrozenReason, FrozenAttempt, Attempts;
    FinalNames(cp, Last(rd.checkpoints).artifacts[OperationalReason := Sha256(CodeBytes(code))], OperationalReason);
    assert Last(rd.checkpoints + [cp]) == cp;
  }

  lemma OperationalPlanCloses(e: Engine, s: DateStore, run: RunContext, code: ErrorCode, at: Instant,
                              measured: bool, telemetry: Telemetry)
    requires run.revision in s.staging && RunSound(e, run.revision, s.staging[run.revision])
    ensures var d := PlanOperational(e, s, run, code, at, measured, telemetry);
            var rev := run.revision;
            d.Close? ==> TaskSound(e, s.staging[rev], Task(rev, d.writes, Some(d.cp), d.expected, Some(d.bundle)))
  {
    var rev := run.revision;
    var rd := s.staging[rev];
    var d := PlanOperational(e, s, run, code, at, measured, telemetry);
    if d.Close? {
      hide FinalContents, ClosedSynthesized, ClosedReduced, ClosedOperational, TaskSound, RunSound;
      var named := Last(rd.checkpoints).artifacts[OperationalReason := Sha256(CodeBytes(code))];
      TelemetryBound(Checkpoint(rev, Stage.Published, Execution.Published, Fail, run.delivery, at, rd.freeze, named, false),
                     telemetry);
      StagedIdentity(e, s, rev);
      OperationalCloses(e, rd, d.cp, code);
      CloseEstablishes(e, s, rd, rev, run, at, Fail, rd.freeze, Some((OperationalReason, CodeBytes(code))),
                       OperationalContents(code), OperationalMarkdown(e, run, code), telemetry);
    }
  }

  lemma StagedIdentity(e: Engine, s: DateStore, rev: nat)
    requires rev in s.staging && RunSound(e, rev, s.staging[rev])
    ensures s.staging[rev].context.Some? && RunOf(s.staging[rev]).revision == rev
    ensures Load(s, rev) == LoadDir(s.staging[rev], false)
  {
  }

  lemma OperationalPlanFinishes(e: Engine, s: DateStore, run: RunContext, code: ErrorCode, at: Instant,
                                measured: bool, telemetry: Telemetry)
    requires run.revision in s.staging && RunSound(e, run.revision, s.staging[run.revision])
    ensures var d := PlanOperational(e, s, run, code, at, measured, telemetry);
            var rev := run.revision;
            && !d.Record?
            && (d.Finish? ==> TaskSound(e, s.staging[rev], Task(rev, [], None, 0, Some(d.bundle))))
            && (d.Leave? ==> TaskSound(e, s.staging[rev], Task(rev, d.writes, None, 0, None)))
  {
    var rd := s.staging[run.revision];
    var d := PlanOperational(e, s, run, code, at, measured, telemetry);
    if d.Finish? {
      assert FrozenCode(Last(rd.checkpoints)) == Some(code);
      var frozen := CheckpointTelemetry(s, Last(rd.checkpoints));
    }
  }

  lemma RecordedCheckpoint(e: Engine, cps: seq<Checkpoint>, packet: Packet, draft: Draft, at: Instant,
                           telemetry: Telemetry, attempt: nat)
    requires cps != []
    ensures var d := RecordAttempt(e, cps, packet, draft, at, telemetry, attempt);
            d.Refuse?
            || (d.Record? && d.cp.stage.Validating? && d.cp.revision == packet.run.revision && d.expected == |cps|
                && NoReasonYet(d.cp) && forall k :: 0 <= k < |d.writes| ==> d.writes[k].0 != ResearchPacket)
  {
  }

  lemma ValidationPlan(e: Engine, s: DateStore, packet: Packet, draft: Draft, at: Instant, telemetry: Telemetry)
    requires var rev := packet.run.revision; rev in s.staging && RunSound(e, rev, s.staging[rev])
    ensures var d := PlanValidation(e, s, packet, draft, at, telemetry);
            var rev := packet.run.revision;
            && !d.Close? && !d.Finish? && !d.Leave?
            && (d.Record? ==> TaskSound(e, s.staging[rev], Task(rev, d.writes, Some(d.cp), d.expected, None)))
  {
    var d := PlanValidation(e, s, packet, draft, at, telemetry);
    if d.Record? {
      var cps := s.staging[packet.run.revision].checkpoints;
      RecordedCheckpoint(e, cps, packet, draft, at, telemetry, 1);
      var attempts := Attempts(cps);
      if attempts != [] {
        var previous := RecordedAttempt(s, Last(attempts)).value;
        RecordedCheckpoint(e, cps, packet, draft, at, telemetry, NextAttempt(packet, previous.1).value);
      }
    }
  }

  lemma FailurePlan(e: Engine, s: DateStore, rev: nat, code: ErrorCode, at: Instant)
    requires rev in s.staging && RunSound(e, rev, s.staging[rev])
    ensures var d := PlanFailure(s, rev, code, at);
            && !d.Close? && !d.Finish? && !d.Leave?
            && (d.Record? ==> TaskSound(e, s.staging[rev], Task(rev, d.writes, Some(d.cp), d.expected, None)))
  {
  }

  lemma OpenOnlyWhenStaged(e: Engine, s: DateStore, call: Call, telemetry: Telemetry)
    requires CallRev(call) !in s.staging || s.staging[CallRev(call)].context.None?
    ensures var d := Decide(e, s, call, telemetry); !d.Record? && !d.Close? && !d.Finish? && !d.Leave?
  {
  }
}
