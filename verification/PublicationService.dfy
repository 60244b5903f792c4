/**
 The validation service and the three publishers as they run: step by step over the
 repository object, with any of their repository calls failing. Each is proved to carry
 out exactly its decision, and to be one play of the machine.
 */
module PublicationService {
  import opened RunTypes
  import opened RunStore
  import opened RunRepository
  import opened Publication
  import opened PublicationMachine
  import opened RunHistory
  import opened SettledRuns

  datatype Reply = Validated(report: Report) | Receipted(receipt: Receipt) | FailureRecorded

  /** What the environment does to each repository call of a service, counted from 0. */
  type Environment = nat -> Fault

  function Propagate<T, U>(r: Result<T>): (f: Result<U>)
    requires !r.Ok?
    ensures !f.Ok?
  {
    if r.Rejected? then Rejected(r.failure) else Interrupted
  }

  // ---- Carrying out a decision ----

  function StageAll(s: DateStore, rev: nat, writes: Writes, env: Environment, i: nat): (DateStore, Result<()>)
    decreases |writes|
  {
    if writes == [] then (s, Ok(()))
    else
      var (s1, r) := StageArtifact(s, rev, writes[0].0, writes[0].1, env(i));
      if r.Ok? then StageAll(s1, rev, writes[1..], env, i + 1) else (s1, Propagate(r))
  }

  function StageAndAppend(s: DateStore, rev: nat, writes: Writes, cp: Checkpoint, expected: nat, env: Environment)
    : (DateStore, Result<()>)
  {
    var (s1, r) := StageAll(s, rev, writes, env, 0);
    if r.Ok? then AppendIfCurrent(s1, rev, cp, expected, env(|writes|)) else (s1, r)
  }

  function ReceiptReply(r: Result<Receipt>): Result<Reply> {
    if r.Ok? then Ok(Receipted(r.value)) else Propagate(r)
  }

  /** What a service call with this decision does to the store, and what it returns. */
  function Perform(s: DateStore, rev: nat, d: Decision, now: Instant, env: Environment): (DateStore, Result<Reply>) {
    match d
    case Refuse => (s, Rejected(InvalidRequest))
    case Answer(report) => (s, Ok(Validated(report)))
    case Already(receipt) => (s, Ok(Receipted(receipt)))
    case Leave(writes) =>
      var (s1, r) := StageAll(s, rev, writes, env, 0);
      (s1, if r.Ok? then Rejected(InvalidRequest) else Propagate(r))
    case Record(writes, cp, expected, outcome) =>
      var (s1, r) := StageAndAppend(s, rev, writes, cp, expected, env);
      (s1, if !r.Ok? then Propagate(r) else Ok(if outcome.Some? then Validated(outcome.value) else FailureRecorded))
    case Finish(bundle) =>
      var (s1, r) := Publish(s, bundle, now, env(0));
      (s1, ReceiptReply(r))
    case Close(writes, cp, expected, bundle) =>
      var (s1, r) := StageAndAppend(s, rev, writes, cp, expected, env);
      if !r.Ok? then (s1, Propagate(r))
      else
        var (s2, p) := Publish(s1, bundle, now, env(|writes| + 1));
        (s2, ReceiptReply(p))
  }

  // ---- The services ----

  /** `checkpoint_with_telemetry`: stage the snapshot, then name its digest in the checkpoint. */
  method BindTelemetry(repository: FileSystemRunRepository, cp: Checkpoint, telemetry: Telemetry, fault: Fault)
    returns (r: Result<Checkpoint>)
    modifies repository
    ensures var (s, staged) := StageArtifact(old(repository.Files()), cp.revision, TelemetryArtifact(telemetry).0,
                                             TelemetryArtifact(telemetry).1, fault);
            && repository.Files() == s
            && r == (if staged.Ok? then Ok(WithTelemetry(cp, telemetry)) else Propagate(staged))
  {
    var payload := TelemetryBytes(telemetry);
    var name := TelemetryName(Hex(Sha256(payload)));
    var staged := repository.Stage(cp.revision, name, payload, fault);
    if !staged.Ok? {
      return Propagate(staged);
    }
    var hashes := Business(cp.artifacts);
    hashes := hashes[name := staged.value];
    r := Ok(cp.(artifacts := hashes));
  }

  method ValidateStagedBrief(repository: FileSystemRunRepository, e: Engine, packet: Packet, draft: Draft, at: Instant,
                             telemetry: Telemetry, now: Instant, env: Environment)
    returns (r: Result<Reply>)
    modifies repository
    ensures (repository.Files(), r)
            == Perform(old(repository.Files()), packet.run.revision,
                       PlanValidation(e, old(repository.Files()), packet, draft, at, telemetry), now, env)
  {
    var s, rev := repository.Files(), packet.run.revision;
    if !draft.origin.Synthesized? || packet.run.cutoff.None? || at < packet.run.cutoff.value
       || !StagedPacket(s, packet, {Stage.AwaitingSynthesis, Stage.Validating})
    {
      return Rejected(InvalidRequest);
    }
    var cps := Load(s, rev).value.checkpoints;
    if LatestTelemetry(s, cps).Malformed? {
      return Rejected(InvalidRequest);
    }
    var attempts := Attempts(cps);
    var attempt := 1;
    if attempts != [] {
      var previous := RecordedAttempt(s, Last(attempts));
      if previous.None? {
        return Rejected(InvalidRequest);
      }
      var (previousDraft, previousReport) := previous.value;
      if previousReport.packetSha != ContentSha(packet) || previousReport.attempt != |attempts|
         || previousReport != Validate(e, packet, previousDraft, previousReport.attempt)
      {
        return Rejected(InvalidRequest);
      }
      if previousDraft == draft {
        return Ok(Validated(previousReport));
      }
      var repair := NextAttempt(packet, previousReport);
      if repair.None? {
        return Rejected(InvalidRequest);
      }
      attempt := repair.value;
    }
    if at < Last(cps).writtenAt {
      return Rejected(InvalidRequest);
    }
    var report := Validate(e, packet, draft, attempt);
    r := RecordStep(repository, e, packet, draft, report, cps, at, telemetry, now, env);
  }

  /** The writes of one recorded attempt: draft, report, telemetry, checkpoint. */
  method RecordStep(repository: FileSystemRunRepository, e: Engine, packet: Packet, draft: Draft, report: Report,
                    cps: seq<Checkpoint>, at: Instant, telemetry: Telemetry, now: Instant, env: Environment)
    returns (r: Result<Reply>)
    requires cps != [] && at >= Last(cps).writtenAt
    requires report == Validate(e, packet, draft, report.attempt)
    modifies repository
    ensures (repository.Files(), r)
            == Perform(old(repository.Files()), packet.run.revision,
                       RecordAttempt(e, cps, packet, draft, at, telemetry, report.attempt), now, env)
  {
    hide StageArtifact, AppendIfCurrent, WithTelemetry, Load;
    var rev := packet.run.revision;
    ghost var s := repository.Files();
    ghost var d := RecordAttempt(e, cps, packet, draft, at, telemetry, report.attempt);
    StageThree(s, rev, d.writes, env);
    var draftBytes, reportBytes := DraftBytes(draft), ReportBytes(report);
    var draftName, reportName := BriefDraft(Hex(Sha256(draftBytes))), ValidationReport(Hex(Sha256(reportBytes)));
    var draftHash := repository.Stage(rev, draftName, draftBytes, env(0));
    StagedDigest(s, rev, draftName, draftBytes, env(0));
    if !draftHash.Ok? {
      return Propagate(draftHash);
    }
    ghost var s1 := repository.Files();
    var reportHash := repository.Stage(rev, reportName, reportBytes, env(1));
    StagedDigest(s1, rev, reportName, reportBytes, env(1));
    if !reportHash.Ok? {
      return Propagate(reportHash);
    }
    var cp := AttemptCheckpoint(cps, packet, draftHash.value, reportHash.value, at);
    var bound := BindTelemetry(repository, cp, telemetry, env(2));
    if !bound.Ok? {
      return Propagate(bound);
    }
    var appended := repository.AppendIfCurrentCount(rev, bound.value, |cps|, env(3));
    r := if appended.Ok? then Ok(Validated(report)) else Propagate(appended);
  }

  lemma StagedDigest(s: DateStore, rev: nat, name: Name, payload: Payload, fault: Fault)
    ensures var r := StageArtifact(s, rev, name, payload, fault).1; r.Ok? ==> r.value == Sha256(payload)
  {
  }

  lemma StageThree(s: DateStore, rev: nat, writes: Writes, env: Environment)
    requires |writes| == 3
    ensures StageAll(s, rev, writes, env, 0)
            == (var (s1, r1) := StageArtifact(s, rev, writes[0].0, writes[0].1, env(0));
                if !r1.Ok? then (s1, Propagate(r1))
                else
                  var (s2, r2) := StageArtifact(s1, rev, writes[1].0, writes[1].1, env(1));
                  if !r2.Ok? then (s2, Propagate(r2))
                  else
                    var (s3, r3) := StageArtifact(s2, rev, writes[2].0, writes[2].1, env(2));
                    (s3, if r3.Ok? then Ok(()) else Propagate(r3)))
  {
    assert writes[1..][1..] == [writes[2]];
    var s1 := StageArtifact(s, rev, writes[0].0, writes[0].1, env(0)).0;
    var s2 := StageArtifact(s1, rev, writes[1].0, writes[1].1, env(1)).0;
    assert StageAll(s2, rev, [writes[2]], env, 2).0 == StageArtifact(s2, rev, writes[2].0, writes[2].1, env(2)).0;
  }

  lemma StageOne(s: DateStore, rev: nat, write: (Name, Payload), env: Environment, i: nat)
    ensures StageAll(s, rev, [write], env, i)
            == (var (s', r) := StageArtifact(s, rev, write.0, write.1, env(i));
                (s', if r.Ok? then Ok(()) else Propagate(r)))
  {
    hide StageArtifact;
    var s' := StageArtifact(s, rev, write.0, write.1, env(i)).0;
    assert [write][1..] == [];
    assert StageAll(s', rev, [], env, i + 1) == (s', Ok(()));
  }

  lemma StageOneOrTwo(s: DateStore, rev: nat, first: Option<(Name, Payload)>, last: (Name, Payload), env: Environment)
    ensures StageAll(s, rev, (if first.None? then [] else [first.value]) + [last], env, 0)
            == (var (s1, r1) := if first.None? then (s, Ok(Sha256(last.1)))
                                else StageArtifact(s, rev, first.value.0, first.value.1, env(0));
                if !r1.Ok? then (s1, Propagate(r1))
                else
                  var (s2, r2) := StageArtifact(s1, rev, last.0, last.1, env(if first.None? then 0 else 1));
                  (s2, if r2.Ok? then Ok(()) else Propagate(r2)))
  {
    hide StageArtifact;
    var writes := (if first.None? then [] else [first.value]) + [last];
    var s1 := if first.None? then s else StageArtifact(s, rev, first.value.0, first.value.1, env(0)).0;
    var i := if first.None? then 0 else 1;
    StageOne(s1, rev, last, env, i);
    assert first.None? ==> writes == [last];
    assert first.Some? ==> writes[1..] == [last];
  }

  /** The ending all three publishers share: the final checkpoint, unless it exists, then the bundle. */
  method CloseRun(repository: FileSystemRunRepository, stored: Stored, run: RunContext, at: Instant, quality: Quality,
                  cutoff: Option<Instant>, reason: Option<(Name, Payload)>, contents: Contents, markdown: string,
                  telemetry: Telemetry, now: Instant, env: Environment)
    returns (r: Result<Reply>)
    requires stored.checkpoints != []
    modifies repository
    ensures (repository.Files(), r)
            == Perform(old(repository.Files()), run.revision,
                       CloseOrFinish(old(repository.Files()), stored, run, at, quality, cutoff, reason, contents,
                                     markdown, telemetry), now, env)
  {
    hide Perform, CloseOrFinish;
    var latest := Last(stored.checkpoints);
    if latest.stage.Published? {
      r := FinishRun(repository, stored, run, at, quality, cutoff, reason, contents, markdown, telemetry, now, env);
    } else {
      r := AppendAndPublish(repository, stored, run, at, quality, cutoff, reason, contents, markdown, telemetry, now, env);
    }
  }

  /** Retry after a crash past the final checkpoint: publish what it froze. */
  method FinishRun(repository: FileSystemRunRepository, stored: Stored, run: RunContext, at: Instant, quality: Quality,
                   cutoff: Option<Instant>, reason: Option<(Name, Payload)>, contents: Contents, markdown: string,
                   telemetry: Telemetry, now: Instant, env: Environment)
    returns (r: Result<Reply>)
    requires stored.checkpoints != [] && Last(stored.checkpoints).stage.Published?
    modifies repository
    ensures (repository.Files(), r)
            == Perform(old(repository.Files()), run.revision,
                       CloseOrFinish(old(repository.Files()), stored, run, at, quality, cutoff, reason, contents,
                                     markdown, telemetry), now, env)
  {
    hide Publish, CheckpointTelemetry;
    var latest := Last(stored.checkpoints);
    var frozen := CheckpointTelemetry(repository.Files(), latest);
    if !frozen.Found? {
      return Rejected(InvalidRequest);
    }
    var bundle := MakeBundle(ComposeRun(stored.run, latest), contents, frozen.telemetry, frozen.digest, markdown);
    var published := repository.PublishAtomically(bundle, now, env(0));
    r := ReceiptReply(published);
  }

  /** The reason, the telemetry, the final checkpoint, then the publication. */
  method AppendAndPublish(repository: FileSystemRunRepository, stored: Stored, run: RunContext, at: Instant,
                          quality: Quality, cutoff: Option<Instant>, reason: Option<(Name, Payload)>,
                          contents: Contents, markdown: string, telemetry: Telemetry, now: Instant, env: Environment)
    returns (r: Result<Reply>)
    requires stored.checkpoints != [] && !Last(stored.checkpoints).stage.Published?
    modifies repository
    ensures (repository.Files(), r)
            == Perform(old(repository.Files()), run.revision,
                       CloseOrFinish(old(repository.Files()), stored, run, at, quality, cutoff, reason, contents,
                                     markdown, telemetry), now, env)
  {
    hide StageArtifact, AppendIfCurrent, WithTelemetry, Publish, Load, CheckpointTelemetry, ComposeRun, MakeBundle;
    var latest := Last(stored.checkpoints);
    StageOneOrTwo(repository.Files(), run.revision, reason, TelemetryArtifact(telemetry), env);
    var hashes, calls := latest.artifacts, 0;
    if reason.Some? {
      ghost var s := repository.Files();
      var staged := repository.Stage(run.revision, reason.value.0, reason.value.1, env(0));
      StagedDigest(s, run.revision, reason.value.0, reason.value.1, env(0));
      if !staged.Ok? {
        return Propagate(staged);
      }
      hashes, calls := hashes[reason.value.0 := staged.value], 1;
    }
    var cp := Checkpoint(run.revision, Stage.Published, Execution.Published, quality, run.delivery, at, cutoff, hashes, false);
    var bound := BindTelemetry(repository, cp, telemetry, env(calls));
    if !bound.Ok? {
      return Propagate(bound);
    }
    var appended := repository.AppendIfCurrentCount(run.revision, bound.value, |stored.checkpoints|, env(calls + 1));
    if !appended.Ok? {
      return Propagate(appended);
    }
    var bundle := MakeBundle(ComposeRun(stored.run, bound.value), contents, telemetry, TelemetryDigest(telemetry), markdown);
    var published := repository.PublishAtomically(bundle, now, env(calls + 2));
    r := ReceiptReply(published);
  }

  /** `publish_validated_brief` */
  method PublishValidatedBrief(repository: FileSystemRunRepository, e: Engine, packet: Packet, at: Instant,
                               telemetry: Telemetry, now: Instant, env: Environment)
    returns (r: Result<Reply>)
    modifies repository
    ensures (repository.Files(), r)
            == Perform(old(repository.Files()), packet.run.revision,
                       PlanSynthesized(e, old(repository.Files()), packet, at, telemetry), now, env)
  {
    hide CloseOrFinish, AlreadySynthesized, SynthesizedReadyFrom, Load, Attempts, RecordedAttempt, TelemetryLost;
    var s, rev := repository.Files(), packet.run.revision;
    var stored := Load(s, rev);
    if stored.None? || stored.value.checkpoints == [] {
      return Rejected(InvalidRequest);
    }
    if stored.value.published {
      var answer := AlreadySynthesized(s, packet, Last(stored.value.checkpoints));
      return if answer.Already? then Ok(Receipted(answer.receipt)) else Rejected(InvalidRequest);
    }
    if !SynthesizedReady(s, packet, at) || TelemetryLost(s, stored.value.checkpoints) {
      return Rejected(InvalidRequest);
    }
    ReadyHasAttempt(s, packet, at);
    var (draft, report) := RecordedAttempt(s, Last(Attempts(stored.value.checkpoints))).value;
    r := CloseRun(repository, stored.value, packet.run, at, packet.run.quality, packet.run.cutoff, None,
                  SynthesizedContents(packet, draft, report), e.brief(packet, draft, report), telemetry, now, env);
  }

  lemma ReadyHasAttempt(s: DateStore, packet: Packet, at: Instant)
    requires SynthesizedReady(s, packet, at)
    ensures var cps := Load(s, packet.run.revision).value.checkpoints;
            Attempts(cps) != [] && RecordedAttempt(s, Last(Attempts(cps))).Some?
  {
  }

  /** Check the recorded attempts in order; absent when one is not what its draft deserves. */
  method CollectReports(e: Engine, s: DateStore, packet: Packet, attempts: seq<Checkpoint>)
    returns (reports: Option<seq<Report>>)
    ensures reports == RecordedReports(e, s, packet, attempts)
  {
    hide RecordedAttempt;
    var collected, index := [], 0;
    while index < |attempts|
      invariant index <= |attempts|
      invariant RecordedReports(e, s, packet, attempts[..index]) == Some(collected)
    {
      assert attempts[..index + 1][..index] == attempts[..index];
      var recorded := RecordedAttempt(s, attempts[index]);
      if recorded.None? {
        RefusedReports(e, s, packet, attempts, index + 1);
        return None;
      }
      var (draft, report) := recorded.value;
      if !draft.origin.Synthesized? || report.attempt != index + 1
         || report != Validate(e, packet, draft, index + 1)
      {
        RefusedReports(e, s, packet, attempts, index + 1);
        return None;
      }
      collected := collected + [report];
      index := index + 1;
    }
    assert attempts[..|attempts|] == attempts;
    reports := Some(collected);
  }

  lemma {:induction false} RefusedReports(e: Engine, s: DateStore, packet: Packet, attempts: seq<Checkpoint>, n: nat)
    requires n <= |attempts| && RecordedReports(e, s, packet, attempts[..n]).None?
    ensures RecordedReports(e, s, packet, attempts).None?
    decreases |attempts|
  {
    if n == |attempts| {
      assert attempts[..n] == attempts;
    } else {
      var shorter := attempts[..|attempts| - 1];
      assert shorter[..n] == attempts[..n];
      RefusedReports(e, s, packet, shorter, n);
    }
  }

  /** `publish_reduced_report` */
  method PublishReducedReport(repository: FileSystemRunRepository, e: Engine, packet: Packet, reason: ReducedReason,
                              at: Instant, telemetry: Telemetry, now: Instant, env: Environment)
    returns (r: Result<Reply>)
    modifies repository
    ensures (repository.Files(), r)
            == Perform(old(repository.Files()), packet.run.revision,
                       PlanReduced(e, old(repository.Files()), packet, reason, at, telemetry), now, env)
  {
    hide CloseOrFinish, AlreadyReduced, ReducedReadyFrom, Load, Attempts, RecordedReports, TelemetryLost;
    var s, rev := repository.Files(), packet.run.revision;
    var stored := Load(s, rev);
    if packet.run.quality.Fail? || stored.None? || stored.value.checkpoints == [] {
      return Rejected(InvalidRequest);
    }
    var latest := Last(stored.value.checkpoints);
    if stored.value.published {
      var answer := AlreadyReduced(e, s, packet, reason, latest);
      return if answer.Already? then Ok(Receipted(answer.receipt)) else Rejected(InvalidRequest);
    }
    var reports := CollectReports(e, s, packet, Attempts(stored.value.checkpoints));
    ReducedReadyReports(e, s, packet, reason, at);
    if reports.None? || !ReducedReady(e, s, packet, reason, at) || TelemetryLost(s, stored.value.checkpoints) {
      return Rejected(InvalidRequest);
    }
    r := CloseRun(repository, stored.value, packet.run, at, packet.run.quality, packet.run.cutoff,
                  Some((ReducedReasonName, ReasonBytes(reason))),
                  ReducedContents(packet, reason, BaseSha(e, packet), BlockedPlans(packet, reason), reports.value),
                  e.reduced(packet, reason), telemetry, now, env);
  }

  lemma ReducedReadyReports(e: Engine, s: DateStore, packet: Packet, reason: ReducedReason, at: Instant)
    ensures ReducedReady(e, s, packet, reason, at) ==>
              Load(s, packet.run.revision).Some?
              && RecordedReports(e, s, packet, Attempts(Load(s, packet.run.revision).value.checkpoints)).Some?
  {
  }

  /** The branches of the operational publisher. */
  lemma OperationalBranches(e: Engine, s: DateStore, run: RunContext, reason: ErrorCode, at: Instant, measured: bool,
                            telemetry: Telemetry)
    ensures var stored, d := Load(s, run.revision), PlanOperational(e, s, run, reason, at, measured, telemetry);
            if stored.None? || stored.value.checkpoints == [] || !run.quality.Fail?
               || WithStatuses(stored.value.run, StatusesOf(run)) != run
            then d == Refuse
            else if stored.value.published then d == AlreadyOperational(e, s, run, reason, Last(stored.value.checkpoints))
            else if !OperationalReady(s, run, reason, at) then d == Refuse
            else if !measured && TelemetryLost(s, stored.value.checkpoints) then
              d == Leave([(OperationalReason, CodeBytes(reason))])
            else d == CloseOrFinish(s, stored.value, run, at, Fail, stored.value.cutoff,
                                    Some((OperationalReason, CodeBytes(reason))), OperationalContents(reason),
                                    OperationalMarkdown(e, run, reason), telemetry)
  {
    hide CloseOrFinish, AlreadyOperational, OperationalReadyFrom, Load, TelemetryLost;
  }

  /** `publish_operational_report` */
  method PublishOperationalReport(repository: FileSystemRunRepository, e: Engine, run: RunContext, reason: ErrorCode,
                                  at: Instant, measured: bool, telemetry: Telemetry, now: Instant, env: Environment)
    returns (r: Result<Reply>)
    modifies repository
    ensures (repository.Files(), r)
            == Perform(old(repository.Files()), run.revision,
                       PlanOperational(e, old(repository.Files()), run, reason, at, measured, telemetry), now, env)
  {
    hide CloseOrFinish, OperationalReady, Load, TelemetryLost, StageArtifact, PlanOperational, AlreadyOperational;
    var s := repository.Files();
    OperationalBranches(e, s, run, reason, at, measured, telemetry);
    var stored := Load(s, run.revision);
    if stored.None? || stored.value.checkpoints == [] || !run.quality.Fail?
       || WithStatuses(stored.value.run, StatusesOf(run)) != run
    {
      return Rejected(InvalidRequest);
    }
    if stored.value.published {
      var answer := AlreadyOperational(e, s, run, reason, Last(stored.value.checkpoints));
      return if answer.Already? then Ok(Receipted(answer.receipt)) else Rejected(InvalidRequest);
    }
    if !OperationalReady(s, run, reason, at) {
      return Rejected(InvalidRequest);
    }
    if !measured && TelemetryLost(s, stored.value.checkpoints) {
      StageOne(s, run.revision, (OperationalReason, CodeBytes(reason)), env, 0);
      var staged := repository.Stage(run.revision, OperationalReason, CodeBytes(reason), env(0));
      return if staged.Ok? then Rejected(InvalidRequest) else Propagate(staged);
    }
    r := CloseRun(repository, stored.value, run, at, Fail, stored.value.cutoff,
                  Some((OperationalReason, CodeBytes(reason))), OperationalContents(reason),
                  OperationalMarkdown(e, run, reason), telemetry, now, env);
  }

  // ---- A service call is one play of the machine ----

  function StepsLeft(t: Task): nat {
    |t.writes| + if t.cp.Some? then 1 else 0
  }

  /** A task carried on by itself from repository call `k` until it ends. */
  function CarryOn(s: DateStore, t: Task, now: Instant, env: Environment, k: nat): (r: (DateStore, Option<Receipt>))
    ensures r.1.Some? ==> t.bundle.Some?
    decreases StepsLeft(t)
  {
    if t.writes != [] then
      var (s1, r) := StageArtifact(s, t.rev, t.writes[0].0, t.writes[0].1, env(k));
      if r.Ok? then CarryOn(s1, t.(writes := t.writes[1..]), now, env, k + 1) else (s1, None)
    else if t.cp.Some? then
      var (s1, r) := AppendIfCurrent(s, t.rev, t.cp.value, t.expected, env(k));
      if r.Ok? && t.bundle.Some? then CarryOn(s1, t.(cp := None), now, env, k + 1) else (s1, None)
    else if t.bundle.Some? then
      var (s1, r) := Publish(s, t.bundle.value, now, env(k));
      (s1, if r.Ok? then Some(r.value) else None)
    else (s, None)
  }

  /** Task `i`, the newest one, played alone. */
  lemma {:induction false} TaskPlays(e: Engine, w: World, now: Instant, env: Environment, k: nat)
    returns (moves: seq<Move>)
    requires w.tasks != []
    ensures var t, n := w.tasks[|w.tasks| - 1], |w.tasks| - 1;
            var (s, receipt) := CarryOn(w.store, t, now, env, k);
            var w' := Play(e, w, moves);
            && w'.store == s && w'.tasks == w.tasks[..n]
            && w'.done == w.done + (if receipt.Some? then Reported(Ok(receipt.value), t.bundle.value) else {})
    decreases StepsLeft(w.tasks[|w.tasks| - 1])
  {
    hide StageArtifact, AppendIfCurrent, Publish;
    var n := |w.tasks| - 1;
    var t := w.tasks[n];
    var m := Advance(n, now, env(k));
    var w1 := Next(e, w, m);
    assert w1 == AdvanceTask(w, n, now, env(k));
    assert Remove(w.tasks, n) == w.tasks[..n];
    if |w1.tasks| == |w.tasks| {
      var rest := TaskPlays(e, w1, now, env, k + 1);
      moves := [m] + rest;
      assert w1.tasks[..n] == w.tasks[..n];
    } else {
      moves := [m];
    }
    assert moves[0] == m;
    assert Play(e, w, moves) == Play(e, w1, moves[1..]);
  }

  lemma {:induction false} WritesCarryOn(s: DateStore, t: Task, now: Instant, env: Environment, k: nat)
    ensures var (s1, r) := StageAll(s, t.rev, t.writes, env, k);
            CarryOn(s, t, now, env, k)
            == if r.Ok? then CarryOn(s1, t.(writes := []), now, env, k + |t.writes|) else (s1, None)
    decreases |t.writes|
  {
    hide StageArtifact;
    if t.writes == [] {
      assert t.(writes := []) == t;
    } else {
      WritesCarryOn(StageArtifact(s, t.rev, t.writes[0].0, t.writes[0].1, env(k)).0, t.(writes := t.writes[1..]),
                    now, env, k + 1);
    }
  }

  /** Carrying out a decision is carrying on the task it leaves. */
  lemma PerformCarriesOn(s: DateStore, rev: nat, d: Decision, now: Instant, env: Environment)
    requires TaskOf(rev, d).Some?
    ensures var (s1, receipt) := CarryOn(s, TaskOf(rev, d).value, now, env, 0);
            var (s2, r) := Perform(s, rev, d, now, env);
            && s1 == s2
            && (r.Ok? && r.value.Receipted? <==> receipt.Some?)
            && (receipt.Some? ==> r.value.receipt == receipt.value)
  {
    hide StageArtifact, AppendIfCurrent, Publish, StageAll;
    WritesCarryOn(s, TaskOf(rev, d).value, now, env, 0);
    if d.Close? {
      var (s1, r) := StageAndAppend(s, rev, d.writes, d.cp, d.expected, env);
    }
  }

  /** The bundle a decision publishes is of the kind that was asked for. */
  /** Whatever the call loaded first, its decision is of its own kind. */
  lemma DecisionOfItsKind(e: Engine, first: Option<Stored>, s: DateStore, call: Call, telemetry: Telemetry)
    ensures OfItsKind(call, DecideFrom(e, first, s, call, telemetry))
  {
    hide Load, StagedPacket, StagedPacketIn, SynthesizedReadyFrom, ReducedReadyFrom, OperationalReadyFrom, RecordedReports,
         RecordedAttempt, CheckpointTelemetry, LatestTelemetry, Attempts;
  }

  predicate OfItsKind(call: Call, d: Decision) {
    && (d.Close? || d.Finish? ==> CallKind(call).Some? && KindOf(d.bundle.contents) == CallKind(call))
    && (d.Already? ==> CallKind(call).Some?)
  }

  /** One service call with everything the environment contributes to it. */
  datatype Served = Served(call: Call, telemetry: Telemetry, now: Instant, env: Environment)

  ghost function Serve(e: Engine, s: DateStore, served: Served): (DateStore, Result<Reply>) {
    Perform(s, CallRev(served.call), Decide(e, s, served.call, served.telemetry), served.now, served.env)
  }

  ghost predicate Matches(w: World, w': World, served: Served, outcome: (DateStore, Result<Reply>)) {
    && w'.store == outcome.0 && w'.tasks == w.tasks && w.done <= w'.done
    && (outcome.1.Ok? && outcome.1.value.Receipted? ==>
          && CallKind(served.call).Some?
          && Success(CallKind(served.call).value, outcome.1.value.receipt) in w'.done)
  }

  /** Carrying out a decision is a play of the machine that begins with the move that made it. */
  lemma DecisionIsPlayed(e: Engine, w: World, served: Served, d: Decision, m: Move)
    requires Next(e, w, m) == BeginWith(w, served.call, d) && OfItsKind(served.call, d)
    ensures exists moves :: Matches(w, Play(e, w, moves), served,
                                    Perform(w.store, CallRev(served.call), d, served.now, served.env))
  {
    hide Perform, CarryOn, Next;
    var rev, now, env := CallRev(served.call), served.now, served.env;
    var moves: seq<Move>;
    var w1 := BeginWith(w, served.call, d);
    BeginWithAdds(w, served.call, d);
    if TaskOf(rev, d).Some? {
      PerformCarriesOn(w.store, rev, d, now, env);
      var rest := TaskPlays(e, w1, now, env, 0);
      moves := [m] + rest;
      assert w1.tasks[..|w.tasks|] == w.tasks;
    } else {
      moves := [m];
      PerformWithoutTask(w.store, rev, d, now, env);
    }
    assert Play(e, w, moves) == Play(e, w1, moves[1..]);
    assert Matches(w, Play(e, w, moves), served, Perform(w.store, rev, d, now, env));
  }

  /**
   A service call, however its repository calls fail, changes the store exactly as some play
   of the machine does, leaves no task behind, and reports success only when that play does.
   So everything proved of all plays holds for the services.
   */
  lemma ServiceIsPlayed(e: Engine, w: World, served: Served)
    ensures exists moves :: Matches(w, Play(e, w, moves), served, Serve(e, w.store, served))
  {
    hide Decide, DecideFrom, Perform, BeginWith;
    DecidesFromItsLoad(e, w.store, served.call, served.telemetry);
    DecisionOfItsKind(e, Load(w.store, CallRev(served.call)), w.store, served.call, served.telemetry);
    DecisionIsPlayed(e, w, served, Decide(e, w.store, served.call, served.telemetry), Begin(served.call, served.telemetry));
  }

  /** The same when the call loaded its run before other calls went on, and read everything else after. */
  lemma LateServiceIsPlayed(e: Engine, w: World, before: seq<Move>, served: Served)
    requires ClosedRuns.Sound(e, w)
    ensures var rev, w' := CallRev(served.call), Play(e, w, before);
            exists moves ::
              Matches(w', Play(e, w', moves), served,
                      Perform(w'.store, rev, DecideFrom(e, Load(w.store, rev), w'.store, served.call, served.telemetry),
                              served.now, served.env))
  {
    hide DecideFrom, Perform, BeginWith, OlderLoad, Load, ClosedRuns.Sound;
    var rev, w' := CallRev(served.call), Play(e, w, before);
    var first := Load(w.store, rev);
    EarlierLoadIsOlder(e, w, before, rev);
    DecisionOfItsKind(e, first, w'.store, served.call, served.telemetry);
    LateMove(e, w', served.call, first, served.telemetry);
    DecisionIsPlayed(e, w', served, DecideFrom(e, first, w'.store, served.call, served.telemetry),
                     BeginLate(served.call, first, served.telemetry));
  }

  lemma LateMove(e: Engine, w: World, call: Call, first: Option<Stored>, telemetry: Telemetry)
    requires OlderLoad(first, w.store, CallRev(call))
    ensures Next(e, w, BeginLate(call, first, telemetry))
            == BeginWith(w, call, DecideFrom(e, first, w.store, call, telemetry))
  {
    hide OlderLoad, DecideFrom, BeginWith;
  }

  lemma PerformWithoutTask(s: DateStore, rev: nat, d: Decision, now: Instant, env: Environment)
    requires TaskOf(rev, d).None?
    ensures Perform(s, rev, d, now, env).0 == s
    ensures var r := Perform(s, rev, d, now, env).1;
            r.Ok? && r.value.Receipted? ==> d == Already(r.value.receipt)
  {
  }

  ghost function ServeAll(e: Engine, s: DateStore, calls: seq<Served>): DateStore {
    if calls == [] then s else Serve(e, ServeAll(e, s, calls[..|calls| - 1]), calls[|calls| - 1]).0
  }

  /** Call `i` of the sequence reported this receipt. */
  ghost predicate Reports(e: Engine, s: DateStore, calls: seq<Served>, i: nat, receipt: Receipt)
    requires i < |calls|
  {
    Serve(e, ServeAll(e, s, calls[..i]), calls[i]).1 == Ok(Receipted(receipt))
  }

  lemma {:induction false} PlaysCompose(e: Engine, w: World, first: seq<Move>, second: seq<Move>)
    ensures Play(e, w, first + second) == Play(e, Play(e, w, first), second)
    decreases first
  {
    if first == [] {
      assert first + second == second;
    } else {
      assert (first + second)[1..] == first[1..] + second;
      PlaysCompose(e, Next(e, w, first[0]), first[1..], second);
    }
  }

  ghost predicate Replays(e: Engine, s: DateStore, calls: seq<Served>, moves: seq<Move>) {
    var w := Play(e, World(s, [], {}), moves);
    && w.store == ServeAll(e, s, calls) && w.tasks == []
    && forall i, receipt :: 0 <= i < |calls| && Reports(e, s, calls, i, receipt) ==>
         CallKind(calls[i].call).Some? && Success(CallKind(calls[i].call).value, receipt) in w.done
  }

  lemma {:induction false} SequenceIsPlayed(e: Engine, s: DateStore, calls: seq<Served>)
    ensures exists moves :: Replays(e, s, calls, moves)
  {
    hide Serve, Next;
    if calls == [] {
      assert Replays(e, s, calls, []);
    } else {
      var n := |calls| - 1;
      SequenceIsPlayed(e, s, calls[..n]);
      var earlier :| Replays(e, s, calls[..n], earlier);
      var w := Play(e, World(s, [], {}), earlier);
      ServiceIsPlayed(e, w, calls[n]);
      var last :| Matches(w, Play(e, w, last), calls[n], Serve(e, w.store, calls[n]));
      PlaysCompose(e, World(s, [], {}), earlier, last);
      forall i, receipt | 0 <= i < n && Reports(e, s, calls, i, receipt)
        ensures Reports(e, s, calls[..n], i, receipt)
      {
        assert calls[..n][..i] == calls[..i];
      }
      assert Replays(e, s, calls, earlier + last);
    }
  }

  /** Over any sequence of service calls with any failures, one run ends in at most one way. */
  lemma ServicesEndOnce(e: Engine, s: DateStore, calls: seq<Served>, i: nat, j: nat, a: Receipt, b: Receipt)
    requires WellFormed(s)
    requires i < |calls| && j < |calls|
    requires Reports(e, s, calls, i, a) && Reports(e, s, calls, j, b) && a.revision == b.revision
    ensures a == b && CallKind(calls[i].call) == CallKind(calls[j].call)
  {
    hide Reports, Play;
    SequenceIsPlayed(e, s, calls);
    var moves :| Replays(e, s, calls, moves);
    OneKindSucceeds(e, s, moves, Success(CallKind(calls[i].call).value, a), Success(CallKind(calls[j].call).value, b));
  }
}
