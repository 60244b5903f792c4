/**
 The invariant of `ClosedRuns` over every interleaving, failure, retry and recovery, and
 what it means: one bundle per run, built again exactly by every retry.
 */
module SettledRuns {
  import opened RunTypes
  import opened RunStore
  import opened RunHistory
  import opened Publication
  import opened PublicationMachine
  import opened FinalBundle
  import opened ClosedRuns

  // ---- How a run directory may change ----

  ghost predicate Grows(a: RunDir, b: RunDir) {
    && a.context == b.context
    && a.freeze == b.freeze
    && (ResearchPacket in a.artifacts <==> ResearchPacket in b.artifacts)
    && (ResearchPacket in a.artifacts ==> a.artifacts[ResearchPacket] == b.artifacts[ResearchPacket])
    && a.checkpoints <= b.checkpoints
    && (Ended(a.checkpoints) ==> a.checkpoints == b.checkpoints)
  }

  lemma TaskStays(e: Engine, a: RunDir, b: RunDir, t: Task)
    requires TaskSound(e, a, t) && Grows(a, b)
    ensures TaskSound(e, b, t)
  {
    if t.cp.Some? {
      assert a.checkpoints[..t.expected] == b.checkpoints[..t.expected];
    }
  }

  lemma NothingFollowsTheEnd(e: Engine, rd: RunDir, rev: nat, t: Task)
    requires RunSound(e, rev, rd) && Ended(rd.checkpoints)
    requires TaskSound(e, rd, t) && t.cp.Some? && t.expected == |rd.checkpoints|
    ensures !Admits(rd, t.cp.value)
  {
    var cp := t.cp.value;
    if t.bundle.Some? { assert Last(rd.checkpoints[..t.expected] + [cp]) == cp; }
    if rd.freeze.Some? { AfterPublished(rd, cp); }
  }

  lemma AppendKeepsRun(e: Engine, rd: RunDir, rev: nat, t: Task)
    requires RunSound(e, rev, rd)
    requires TaskSound(e, rd, t) && t.cp.Some? && t.expected == |rd.checkpoints| && t.rev == rev
    requires Admits(rd, t.cp.value)
    ensures Grows(rd, Append(rd, t.cp.value))
    ensures RunSound(e, rev, Append(rd, t.cp.value))
    ensures t.bundle.Some? ==> TaskSound(e, Append(rd, t.cp.value), t.(cp := None))
  {
    if Ended(rd.checkpoints) { NothingFollowsTheEnd(e, rd, rev, t); }
    var grown := Append(rd, t.cp.value);
    assert rd.checkpoints[..t.expected] == rd.checkpoints;
    assert RunOf(grown) == RunOf(rd);
    assert Last(grown.checkpoints) == t.cp.value;
  }

  // ---- How the store may change ----

  /** Only revision `rev` looks different afterwards, and it only grew. */
  ghost predicate OnlyAt(s: DateStore, s': DateStore, rev: nat) {
    && Shape(s')
    && (forall r :: r != rev ==> ViewOf(s', r) == ViewOf(s, r))
    && (Current(s, rev).Some? ==> Current(s', rev).Some? && Grows(Current(s, rev).value, Current(s', rev).value))
  }

  /** No run disappears, and every run only grows. */
  ghost predicate AllGrow(s: DateStore, s': DateStore) {
    forall r :: Current(s, r).Some? ==>
      Current(s', r).Some? && Grows(Current(s, r).value, Current(s', r).value)
  }

  lemma OnlyAtGrows(s: DateStore, s': DateStore, rev: nat)
    requires OnlyAt(s, s', rev)
    ensures AllGrow(s, s')
  {
    forall r | Current(s, r).Some? ensures Current(s', r).Some? && Grows(Current(s, r).value, Current(s', r).value) {
      if r != rev { assert ViewOf(s', r) == ViewOf(s, r); }
    }
  }

  lemma AllGrowTransitive(s: DateStore, s': DateStore, s'': DateStore)
    requires AllGrow(s, s') && AllGrow(s', s'')
    ensures AllGrow(s, s'')
  {
    hide Current;
  }

  lemma TaskFitsLater(e: Engine, before: Option<RunDir>, after: Option<RunDir>, t: Task)
    requires TaskFits(e, before, t)
    requires after.Some? && Grows(before.value, after.value)
    ensures TaskFits(e, after, t)
  {
    TaskStays(e, before.value, after.value, t);
  }

  lemma FrameKeepsSound(e: Engine, s: DateStore, s': DateStore, tasks: seq<Task>, rev: nat)
    requires StoreSound(e, s) && TasksSound(e, s, tasks)
    requires OnlyAt(s, s', rev)
    requires ViewSound(e, rev, ViewOf(s', rev))
    ensures StoreSound(e, s') && TasksSound(e, s', tasks) && AllGrow(s, s')
  {
    OnlyAtGrows(s, s', rev);
    hide ViewSound, TaskFits, Current, Grows, Shape;
    forall r ensures ViewSound(e, r, ViewOf(s', r)) {
      if r != rev { assert ViewSound(e, r, ViewOf(s, r)); }
    }
    forall i | 0 <= i < |tasks| ensures TaskFits(e, Current(s', tasks[i].rev), tasks[i]) {
      var t := tasks[i];
      assert TaskFits(e, Current(s, t.rev), t);
      if t.rev == rev { TaskFitsLater(e, Current(s, rev), Current(s', rev), t) by { FitsDir(e, Current(s, rev), t); } }
      else { assert ViewOf(s', t.rev) == ViewOf(s, t.rev); }
    }
  }

  lemma FitsDir(e: Engine, dir: Option<RunDir>, t: Task)
    requires TaskFits(e, dir, t)
    ensures dir.Some?
  {
  }

  lemma LocalKeepsSound(e: Engine, s: DateStore, tasks: seq<Task>, rev: nat, grown: RunDir)
    requires StoreSound(e, s) && TasksSound(e, s, tasks)
    requires rev in s.staging && Grows(s.staging[rev], grown) && RunSound(e, rev, grown)
    ensures var s' := s.(staging := s.staging[rev := grown]);
            StoreSound(e, s') && TasksSound(e, s', tasks) && AllGrow(s, s')
  {
    var s' := s.(staging := s.staging[rev := grown]);
    assert s'.staging.Keys == s.staging.Keys;
    assert ViewSound(e, rev, ViewOf(s, rev));
    assert ViewSound(e, rev, ViewOf(s', rev)) by { hide RunSound; }
    FrameKeepsSound(e, s, s', tasks, rev);
  }

  /** Where publishing `bundle` can leave the store: after `n` writes, perhaps quarantined. */
  function Stopped(s: DateStore, bundle: Bundle, now: Instant, n: nat, quarantined: bool): DateStore
    requires Publishable(s, bundle)
  {
    var s' := AfterWrites(s, bundle, now, n);
    if quarantined && n >= 3 then Quarantine(s', bundle.run.revision) else s'
  }

  /** How one revision may look after publication writes or a quarantine. */
  ghost predicate LooksPublished(s: DateStore, s': DateStore, bundle: Bundle) {
    var rev := bundle.run.revision;
    && OnlyAt(s, s', rev)
    && Current(s, rev).Some?
    && SameRun(Current(s, rev).value, Current(s', rev).value)
    && (rev in s'.finals || rev in s'.orphans ==>
          Current(s', rev).value.bundle == Some(bundle) && Current(s', rev).value.report == Some(bundle.markdown))
    && (rev in s'.index ==>
          || (rev in s.index && s'.index[rev] == s.index[rev])
          || (s'.index[rev].bundleSha, s'.index[rev].markdownSha) == Shas(bundle))
  }

  lemma EarlyWritesLook(s: DateStore, bundle: Bundle, now: Instant, n: nat)
    requires Shape(s) && Publishable(s, bundle) && n < 3
    ensures LooksPublished(s, AfterWrites(s, bundle, now, n), bundle)
  {
    assert AfterWrites(s, bundle, now, n).staging.Keys == s.staging.Keys;
  }

  lemma LateWritesLook(s: DateStore, bundle: Bundle, now: Instant, n: nat)
    requires Shape(s) && Publishable(s, bundle) && n >= 3
    ensures LooksPublished(s, AfterWrites(s, bundle, now, n), bundle)
  {
    var rev := bundle.run.revision;
    var s' := AfterWrites(s, bundle, now, n);
    assert s'.staging.Keys == s.staging.Keys - {rev};
    assert s'.finals.Keys == s.finals.Keys + {rev};
  }

  lemma QuarantineLooks(s: DateStore, s': DateStore, bundle: Bundle)
    requires LooksPublished(s, s', bundle) && bundle.run.revision in s'.finals
    ensures LooksPublished(s, Quarantine(s', bundle.run.revision), bundle)
  {
    var rev := bundle.run.revision;
    var s2 := Quarantine(s', rev);
    assert s2.finals.Keys == s'.finals.Keys - {rev};
    assert s2.orphans.Keys == s'.orphans.Keys + {rev};
    assert Current(s2, rev) == Current(s', rev);
    forall r | r != rev ensures ViewOf(s2, r) == ViewOf(s, r) {
      assert ViewOf(s', r) == ViewOf(s, r);
    }
  }

  lemma StoppedLooks(s: DateStore, bundle: Bundle, now: Instant, n: nat, quarantined: bool)
    requires Shape(s) && Publishable(s, bundle)
    ensures LooksPublished(s, Stopped(s, bundle, now, n, quarantined), bundle)
  {
    hide LooksPublished;
    if n < 3 { EarlyWritesLook(s, bundle, now, n); } else { LateWritesLook(s, bundle, now, n); }
    if quarantined && n >= 3 { QuarantineLooks(s, AfterWrites(s, bundle, now, n), bundle); }
  }

  lemma StoppedKeepsSound(e: Engine, s: DateStore, tasks: seq<Task>, bundle: Bundle, now: Instant, n: nat,
                          quarantined: bool)
    requires StoreSound(e, s) && TasksSound(e, s, tasks)
    requires Publishable(s, bundle)
    requires var rd := s.staging[bundle.run.revision];
             Ended(rd.checkpoints) && rd.context.Some? && bundle == TheBundle(e, RunOf(rd), rd.checkpoints)
    ensures StoreSound(e, Stopped(s, bundle, now, n, quarantined))
    ensures TasksSound(e, Stopped(s, bundle, now, n, quarantined), tasks)
    ensures AllGrow(s, Stopped(s, bundle, now, n, quarantined))
  {
    var rev := bundle.run.revision;
    var s' := Stopped(s, bundle, now, n, quarantined);
    StoppedLooks(s, bundle, now, n, quarantined);
    assert ViewSound(e, rev, ViewOf(s, rev));
    ViewAfterMove(e, rev, ViewOf(s, rev), ViewOf(s', rev), bundle);
    FrameKeepsSound(e, s, s', tasks, rev);
  }

  lemma ViewAfterMove(e: Engine, rev: nat, v: View, v': View, bundle: Bundle)
    requires ViewSound(e, rev, v) && v.dir.Some? && v'.dir.Some?
    requires SameRun(v.dir.value, v'.dir.value)
    requires v.dir.value.context.Some? && Ended(v.dir.value.checkpoints)
    requires bundle == TheBundle(e, RunOf(v.dir.value), v.dir.value.checkpoints)
    requires v'.moved ==> v'.dir.value.bundle == Some(bundle) && v'.dir.value.report == Some(bundle.markdown)
    requires v'.entry.Some? ==>
               v'.entry == v.entry || (v'.entry.value.bundleSha, v'.entry.value.markdownSha) == Shas(bundle)
    ensures ViewSound(e, rev, v')
  {
    hide TheBundle, Closed;
  }

  lemma PublishStops(s: DateStore, bundle: Bundle, now: Instant, fault: Fault)
    requires Publishable(s, bundle)
    ensures exists n: nat, quarantined ::
              Publish(s, bundle, now, fault).0 == Stopped(s, bundle, now, n, quarantined)
  {
    var s' := Publish(s, bundle, now, fault).0;
    var last := if Conflicts(s, bundle) then 3 else 5;
    if fault.Crash? && fault.writes <= last {
      assert s' == Stopped(s, bundle, now, fault.writes, false);
    } else if fault.IoError? && fault.writes <= last {
      assert s' == Stopped(s, bundle, now, fault.writes, true);
    } else if Conflicts(s, bundle) {
      assert s' == Stopped(s, bundle, now, 3, true);
    } else {
      assert s' == Stopped(s, bundle, now, 5, false);
    }
  }

  lemma PublishKeepsSound(e: Engine, s: DateStore, tasks: seq<Task>, bundle: Bundle, now: Instant, fault: Fault)
    requires StoreSound(e, s) && TasksSound(e, s, tasks)
    requires var current := Current(s, bundle.run.revision);
             current.Some? && current.value.context.Some? && Ended(current.value.checkpoints)
             && bundle == TheBundle(e, RunOf(current.value), current.value.checkpoints)
    ensures var s' := Publish(s, bundle, now, fault).0;
            StoreSound(e, s') && TasksSound(e, s', tasks) && AllGrow(s, s')
  {
    hide StoreSound, TasksSound, TheBundle;
    if Publishable(s, bundle) {
      PublishStops(s, bundle, now, fault);
      var n: nat, quarantined :| Publish(s, bundle, now, fault).0 == Stopped(s, bundle, now, n, quarantined);
      StoppedKeepsSound(e, s, tasks, bundle, now, n, quarantined);
    }
  }

  lemma RestageLooks(s: DateStore, rev: nat)
    requires Shape(s) && Recoverable(s, rev)
    ensures OnlyAt(s, Restage(s, rev), rev)
    ensures Current(Restage(s, rev), rev) == Current(s, rev) == Some(s.orphans[rev])
    ensures ViewOf(s, rev).moved && !ViewOf(Restage(s, rev), rev).moved
    ensures ViewOf(Restage(s, rev), rev).entry == ViewOf(s, rev).entry
  {
    var s1 := Restage(s, rev);
    assert s1.staging.Keys == s.staging.Keys + {rev};
    assert s1.orphans.Keys == s.orphans.Keys - {rev};
  }

  lemma RecoverKeepsSound(e: Engine, s: DateStore, tasks: seq<Task>, rev: nat, now: Instant, fault: Fault)
    requires StoreSound(e, s) && TasksSound(e, s, tasks)
    ensures var s' := Recover(s, rev, now, fault).0;
            StoreSound(e, s') && TasksSound(e, s', tasks) && AllGrow(s, s')
  {
    if GetReceipt(s, rev).None? && Recoverable(s, rev) {
      hide StoreSound, TasksSound, AllGrow, TheBundle;
      RestageKeepsSound(e, s, tasks, rev);
      var s1 := Restage(s, rev);
      PublishKeepsSound(e, s1, tasks, s.orphans[rev].bundle.value, now, fault.After(1));
      AllGrowTransitive(s, s1, Publish(s1, s.orphans[rev].bundle.value, now, fault.After(1)).0);
    } else {
      EveryRunGrows(s);
    }
  }

  lemma RestageKeepsSound(e: Engine, s: DateStore, tasks: seq<Task>, rev: nat)
    requires StoreSound(e, s) && TasksSound(e, s, tasks)
    requires Recoverable(s, rev)
    ensures var s1 := Restage(s, rev);
            && StoreSound(e, s1) && TasksSound(e, s1, tasks) && AllGrow(s, s1)
            && var current := Current(s1, rev);
            current.Some? && current.value.context.Some? && Ended(current.value.checkpoints)
            && s.orphans[rev].bundle == Some(TheBundle(e, RunOf(current.value), current.value.checkpoints))
            && s.orphans[rev].bundle.value.run.revision == rev
  {
    hide TheBundle;
    RestageLooks(s, rev);
    assert ViewSound(e, rev, ViewOf(s, rev));
    FrameKeepsSound(e, s, Restage(s, rev), tasks, rev);
  }

  // ---- Every move ----

  lemma TasksAfterRemoval(e: Engine, s: DateStore, tasks: seq<Task>, i: nat)
    requires TasksSound(e, s, tasks) && i < |tasks|
    ensures TasksSound(e, s, Remove(tasks, i))
  {
    var rest := Remove(tasks, i);
    hide TaskFits, Current;
    forall k | 0 <= k < |rest| ensures TaskFits(e, Current(s, rest[k].rev), rest[k]) {
      assert rest[k] == tasks[if k < i then k else k + 1];
    }
  }

  lemma TasksAfterAddition(e: Engine, s: DateStore, tasks: seq<Task>, t: Task)
    requires TasksSound(e, s, tasks) && TaskFits(e, Current(s, t.rev), t)
    ensures TasksSound(e, s, tasks + [t])
  {
    hide TaskFits, Current;
  }

  lemma TasksAfterUpdate(e: Engine, s: DateStore, tasks: seq<Task>, i: nat, t: Task)
    requires TasksSound(e, s, tasks) && i < |tasks| && TaskFits(e, Current(s, t.rev), t)
    ensures TasksSound(e, s, tasks[i := t])
  {
    hide TaskFits, Current;
  }

  /** The task a decision leaves behind, if any. */
  function TaskOf(rev: nat, d: Decision): Option<Task> {
    match d
    case Record(writes, cp, expected, _) => Some(Task(rev, writes, Some(cp), expected, None))
    case Close(writes, cp, expected, bundle) => Some(Task(rev, writes, Some(cp), expected, Some(bundle)))
    case Finish(bundle) => Some(Task(rev, [], None, 0, Some(bundle)))
    case Leave(writes) => Some(Task(rev, writes, None, 0, None))
    case _ => None
  }

  lemma DecisionFits(e: Engine, s: DateStore, call: Call, telemetry: Telemetry)
    requires CallRev(call) in s.staging && RunSound(e, CallRev(call), s.staging[CallRev(call)])
    ensures var t := TaskOf(CallRev(call), Decide(e, s, call, telemetry));
            t.Some? ==> TaskSound(e, s.staging[CallRev(call)], t.value)
  {
    hide RunSound, TaskSound, PlanValidation, PlanSynthesized, PlanReduced, PlanOperational, PlanFailure;
    match call
    case CallValidate(packet, draft, at) => ValidationPlan(e, s, packet, draft, at, telemetry);
    case CallSynthesized(packet, at) =>
      SynthesizedPlanCloses(e, s, packet, at, telemetry);
      SynthesizedPlanFinishes(e, s, packet, at, telemetry);
    case CallReduced(packet, reason, at) =>
      ReducedPlanCloses(e, s, packet, reason, at, telemetry);
      ReducedPlanFinishes(e, s, packet, reason, at, telemetry);
    case CallOperational(run, code, at, measured) =>
      OperationalPlanCloses(e, s, run, code, at, measured, telemetry);
      OperationalPlanFinishes(e, s, run, code, at, measured, telemetry);
    case CallFail(rev, code, at) => FailurePlan(e, s, rev, code, at);
  }

  lemma StagedRunSound(e: Engine, s: DateStore, rev: nat)
    requires StoreSound(e, s) && rev in s.staging && s.staging[rev].context.Some?
    ensures RunSound(e, rev, s.staging[rev])
  {
    assert ViewSound(e, rev, ViewOf(s, rev));
  }

  lemma BeginAdds(e: Engine, w: World, call: Call, telemetry: Telemetry)
    ensures var t := TaskOf(CallRev(call), Decide(e, w.store, call, telemetry));
            var w' := BeginCall(e, w, call, telemetry);
            w'.store == w.store && w'.tasks == (if t.Some? then w.tasks + [t.value] else w.tasks)
  {
    hide Decide;
    BeginWithAdds(w, call, Decide(e, w.store, call, telemetry));
  }

  lemma BeginWithAdds(w: World, call: Call, d: Decision)
    ensures var t, w' := TaskOf(CallRev(call), d), BeginWith(w, call, d);
            w'.store == w.store && w'.tasks == (if t.Some? then w.tasks + [t.value] else w.tasks)
  {
  }

  // ---- A call that loaded its run earlier ----

  /** The run was loaded unpublished and without its newest checkpoints. */
  ghost predicate Outdated(first: Stored, dir: RunDir) {
    && dir.context.Some?
    && first.checkpoints < dir.checkpoints
    && !(first.checkpoints != [] && Last(first.checkpoints).stage.Published?)
  }

  /** A publisher that missed checkpoints can only plan an append that will be refused. */
  lemma OutdatedCloses(e: Engine, s: DateStore, first: Stored, dir: RunDir, run: RunContext, at: Instant,
                       quality: Quality, cutoff: Option<Instant>, reason: Option<(Name, Payload)>, contents: Contents,
                       markdown: string, telemetry: Telemetry)
    requires Outdated(first, dir) && first.checkpoints != [] && (reason.Some? ==> reason.value.0 != ResearchPacket)
    ensures var t := TaskOf(run.revision,
                            CloseOrFinish(s, first, run, at, quality, cutoff, reason, contents, markdown, telemetry));
            t.Some? && TaskSound(e, dir, t.value)
  {
    var latest := Last(first.checkpoints).artifacts;
    var named := if reason.None? then latest else latest[reason.value.0 := Sha256(reason.value.1)];
    BoundRevision(Checkpoint(run.revision, Stage.Published, Execution.Published, quality, run.delivery, at, cutoff, named,
                             false), telemetry);
    hide WithTelemetry;
  }

  lemma BoundRevision(cp: Checkpoint, t: Telemetry)
    ensures WithTelemetry(cp, t) == cp.(artifacts := WithTelemetry(cp, t).artifacts)
  {
  }

  lemma OutdatedFits(e: Engine, first: Stored, s: DateStore, dir: RunDir, call: Call, telemetry: Telemetry)
    requires Outdated(first, dir) && !call.CallValidate?
    requires forall i :: 0 <= i < |first.checkpoints| ==> first.checkpoints[i].revision == CallRev(call)
    ensures var t := TaskOf(CallRev(call), DecideFrom(e, Some(first), s, call, telemetry));
            t.Some? ==> TaskSound(e, dir, t.value)
  {
    hide CloseOrFinish, TaskSound, SynthesizedReadyFrom, ReducedReadyFrom, OperationalReadyFrom, TelemetryLost,
         RecordedAttempt, RecordedReports, AlreadySynthesized, AlreadyReduced, AlreadyOperational;
    match call
    case CallSynthesized(packet, at) =>
      if first.checkpoints != [] && SynthesizedReadyFrom(first, s, packet, at) {
        var (draft, report) := RecordedOf(s, first, packet, at);
        OutdatedCloses(e, s, first, dir, packet.run, at, packet.run.quality, packet.run.cutoff, None,
                       SynthesizedContents(packet, draft, report), e.brief(packet, draft, report), telemetry);
      }
    case CallReduced(packet, reason, at) =>
      if first.checkpoints != [] && ReducedReadyFrom(e, first, s, packet, reason, at) {
        var reports := ReportsOf(e, s, first, packet, reason, at);
        OutdatedCloses(e, s, first, dir, packet.run, at, packet.run.quality, packet.run.cutoff,
                       Some((ReducedReasonName, ReasonBytes(reason))),
                       ReducedContents(packet, reason, BaseSha(e, packet), BlockedPlans(packet, reason), reports),
                       e.reduced(packet, reason), telemetry);
      }
    case CallOperational(run, code, at, measured) =>
      LeaveFits(e, dir, run.revision, [(OperationalReason, CodeBytes(code))]);
      if first.checkpoints != [] {
        OutdatedCloses(e, s, first, dir, run, at, Fail, first.cutoff, Some((OperationalReason, CodeBytes(code))),
                       OperationalContents(code), OperationalMarkdown(e, run, code), telemetry);
      }
    case CallFail(rev, code, at) => OutdatedFailure(e, first, dir, rev, code, at);
  }

  function RecordedOf(s: DateStore, first: Stored, packet: Packet, at: Instant): (Draft, Report)
    requires SynthesizedReadyFrom(first, s, packet, at)
  {
    RecordedAttempt(s, Last(Attempts(first.checkpoints))).value
  }

  function ReportsOf(e: Engine, s: DateStore, first: Stored, packet: Packet, reason: ReducedReason, at: Instant): seq<Report>
    requires ReducedReadyFrom(e, first, s, packet, reason, at)
  {
    RecordedReports(e, s, packet, Attempts(first.checkpoints)).value
  }

  lemma LeaveFits(e: Engine, dir: RunDir, rev: nat, writes: Writes)
    requires dir.context.Some? && forall k :: 0 <= k < |writes| ==> writes[k].0 != ResearchPacket
    ensures TaskSound(e, dir, Task(rev, writes, None, 0, None))
  {
  }

  lemma OutdatedFailure(e: Engine, first: Stored, dir: RunDir, rev: nat, code: ErrorCode, at: Instant)
    requires Outdated(first, dir)
    requires forall i :: 0 <= i < |first.checkpoints| ==> first.checkpoints[i].revision == rev
    ensures var t := TaskOf(rev, FailureFrom(Some(first), code, at)); t.Some? ==> TaskSound(e, dir, t.value)
  {
  }

  /** A validation records its attempt after the checkpoints it loaded last; only its packet check may be older. */
  lemma LateValidation(e: Engine, first: Stored, s: DateStore, dir: RunDir, packet: Packet, draft: Draft, at: Instant,
                       telemetry: Telemetry)
    requires Current(s, packet.run.revision) == Some(dir) && dir.context.Some? && first.cutoff == dir.freeze
    ensures var rev := packet.run.revision;
            var t := TaskOf(rev, ValidationFrom(e, Some(first), s, packet, draft, at, telemetry));
            t.Some? ==> TaskSound(e, dir, t.value)
  {
    var rev := packet.run.revision;
    var d := ValidationFrom(e, Some(first), s, packet, draft, at, telemetry);
    hide LatestTelemetry, RecordedAttempt, Validate, RecordAttempt, Attempts, TaskSound;
    if d.Record? {
      assert rev in s.staging && Load(s, rev).value.checkpoints == dir.checkpoints && dir.freeze.Some?;
      var attempts := Attempts(dir.checkpoints);
      if attempts == [] {
        RecordFits(e, dir, packet, draft, at, telemetry, 1);
      } else {
        var previous := RecordedAttempt(s, Last(attempts)).value;
        RecordFits(e, dir, packet, draft, at, telemetry, NextAttempt(packet, previous.1).value);
      }
    } else {
      NothingElseRecorded(e, dir.checkpoints, packet, draft, at, telemetry);
    }
  }

  lemma RecordFits(e: Engine, dir: RunDir, packet: Packet, draft: Draft, at: Instant, telemetry: Telemetry, attempt: nat)
    requires dir.context.Some? && dir.freeze.Some? && dir.checkpoints != []
    ensures var d := RecordAttempt(e, dir.checkpoints, packet, draft, at, telemetry, attempt);
            var t := TaskOf(packet.run.revision, d);
            t.Some? ==> TaskSound(e, dir, t.value)
  {
    RecordedCheckpoint(e, dir.checkpoints, packet, draft, at, telemetry, attempt);
    hide RecordAttempt;
  }

  lemma NothingElseRecorded(e: Engine, cps: seq<Checkpoint>, packet: Packet, draft: Draft, at: Instant, telemetry: Telemetry)
    ensures cps != [] ==> forall attempt ::
              var d := RecordAttempt(e, cps, packet, draft, at, telemetry, attempt); d.Record? || d.Refuse?
  {
  }

  /** A run that moved out of staging, loaded before it did. */
  lemma MovedRefuses(e: Engine, first: Stored, s: DateStore, call: Call, telemetry: Telemetry)
    requires CallRev(call) !in s.staging
    requires first.checkpoints != [] && Last(first.checkpoints).stage.Published? && !first.published
    ensures TaskOf(CallRev(call), DecideFrom(e, Some(first), s, call, telemetry)).Some? ==>
              call.CallFail? && !Last(first.checkpoints).quality.Fail?
  {
  }

  lemma FailureAfterTheEnd(e: Engine, first: Stored, dir: RunDir, rev: nat, code: ErrorCode, at: Instant)
    requires dir.context.Some? && first.checkpoints == dir.checkpoints
    requires forall i :: 0 <= i < |first.checkpoints| ==> first.checkpoints[i].revision == rev
    ensures var t := TaskOf(rev, FailureFrom(Some(first), code, at)); t.Some? ==> TaskSound(e, dir, t.value)
  {
  }

  lemma PublishedLoadsNothing(e: Engine, first: Stored, s: DateStore, call: Call, telemetry: Telemetry)
    requires first.published
    ensures TaskOf(CallRev(call), DecideFrom(e, Some(first), s, call, telemetry)).None?
  {
  }

  lemma NoLoadNoTask(e: Engine, s: DateStore, call: Call, telemetry: Telemetry)
    ensures TaskOf(CallRev(call), DecideFrom(e, None, s, call, telemetry)).None?
  {
  }

  /** The task of a call whose load is older than its reading fits the run, or is the one it would begin now. */
  lemma LateFits(e: Engine, s: DateStore, call: Call, first: Option<Stored>, telemetry: Telemetry)
    requires StoreSound(e, s) && OlderLoad(first, s, CallRev(call)) && first != Load(s, CallRev(call))
    ensures var t := TaskOf(CallRev(call), DecideFrom(e, first, s, call, telemetry));
            t.Some? ==> TaskFits(e, Current(s, CallRev(call)), t.value)
  {
    hide DecideFrom, TaskSound;
    var rev := CallRev(call);
    if first.None? {
      NoLoadNoTask(e, s, call, telemetry);
    } else if first.value.published {
      PublishedLoadsNothing(e, first.value, s, call, telemetry);
    } else {
      var dir := Current(s, rev).value;
      CheckpointsOfRun(e, s, rev);
      if call.CallValidate? {
        LateValidation(e, first.value, s, dir, call.packet, call.draft, call.at, telemetry);
        DecideIsValidation(e, first, s, call, telemetry);
      } else if Outdated(first.value, dir) {
        OutdatedFits(e, first.value, s, dir, call, telemetry);
      } else {
        NotOutdated(e, first.value, s, rev);
        MovedRefuses(e, first.value, s, call, telemetry);
        if call.CallFail? {
          FailureAfterTheEnd(e, first.value, dir, rev, call.code, call.at);
          DecideIsFailure(e, first, s, call, telemetry);
        }
      }
    }
  }

  lemma DecideIsValidation(e: Engine, first: Option<Stored>, s: DateStore, call: Call, telemetry: Telemetry)
    requires call.CallValidate?
    ensures DecideFrom(e, first, s, call, telemetry)
            == ValidationFrom(e, first, s, call.packet, call.draft, call.at, telemetry)
  {
  }

  lemma DecideIsFailure(e: Engine, first: Option<Stored>, s: DateStore, call: Call, telemetry: Telemetry)
    requires call.CallFail?
    ensures DecideFrom(e, first, s, call, telemetry) == FailureFrom(first, call.code, call.at)
  {
  }

  lemma CheckpointsOfRun(e: Engine, s: DateStore, rev: nat)
    requires StoreSound(e, s) && Current(s, rev).Some? && Current(s, rev).value.context.Some?
    ensures var cps := Current(s, rev).value.checkpoints; forall i :: 0 <= i < |cps| ==> cps[i].revision == rev
  {
    assert ViewSound(e, rev, ViewOf(s, rev));
  }

  /** An older load that missed nothing and is not the present one is of a run that moved since. */
  lemma NotOutdated(e: Engine, first: Stored, s: DateStore, rev: nat)
    requires StoreSound(e, s) && OlderLoad(Some(first), s, rev) && Some(first) != Load(s, rev) && !first.published
    requires !Outdated(first, Current(s, rev).value)
    ensures rev !in s.staging && first.checkpoints == Current(s, rev).value.checkpoints
    ensures first.checkpoints != [] && Last(first.checkpoints).stage.Published?
  {
    var dir := Current(s, rev).value;
    assert ViewSound(e, rev, ViewOf(s, rev));
    assert first.checkpoints == dir.checkpoints;
  }

  lemma LateKeepsSound(e: Engine, w: World, call: Call, first: Option<Stored>, telemetry: Telemetry)
    requires ClosedRuns.Sound(e, w) && OlderLoad(first, w.store, CallRev(call))
    ensures ClosedRuns.Sound(e, BeginWith(w, call, DecideFrom(e, first, w.store, call, telemetry)))
  {
    hide Decide, DecideFrom, BeginWith, StoreSound, TasksSound, OlderLoad, Load, TaskFits;
    var d := DecideFrom(e, first, w.store, call, telemetry);
    BeginWithAdds(w, call, d);
    if first == Load(w.store, CallRev(call)) {
      DecidesFromItsLoad(e, w.store, call, telemetry);
      BeginKeepsSound(e, w, call, telemetry);
    } else if TaskOf(CallRev(call), d).Some? {
      LateFits(e, w.store, call, first, telemetry);
      TaskRevision(CallRev(call), d);
      TasksAfterAddition(e, w.store, w.tasks, TaskOf(CallRev(call), d).value);
    }
  }

  /** What a call loaded at some point is an older load at every later one. */
  lemma EarlierLoadIsOlder(e: Engine, w: World, moves: seq<Move>, rev: nat)
    requires ClosedRuns.Sound(e, w)
    ensures OlderLoad(Load(w.store, rev), Play(e, w, moves).store, rev)
  {
    hide Play;
    PlayKeepsSound(e, w, moves);
  }

  lemma PresentLoadIsOlder(s: DateStore, rev: nat)
    ensures OlderLoad(Load(s, rev), s, rev)
  {
  }

  /** Whatever its load, a call that decides to finish a run finishes the one that ended. */
  lemma FinishFits(e: Engine, s: DateStore, call: Call, first: Option<Stored>, telemetry: Telemetry, bundle: Bundle)
    requires StoreSound(e, s) && OlderLoad(first, s, CallRev(call))
    requires DecideFrom(e, first, s, call, telemetry) == Finish(bundle)
    ensures TaskFits(e, Current(s, CallRev(call)), Task(CallRev(call), [], None, 0, Some(bundle)))
  {
    hide DecideFrom, Decide, TaskSound;
    var rev := CallRev(call);
    if first == Load(s, rev) {
      DecidesFromItsLoad(e, s, call, telemetry);
      if rev !in s.staging || s.staging[rev].context.None? { OpenOnlyWhenStaged(e, s, call, telemetry); }
      StagedRunSound(e, s, rev);
      DecisionFits(e, s, call, telemetry);
    } else {
      LateFits(e, s, call, first, telemetry);
    }
  }

  lemma TaskRevision(rev: nat, d: Decision)
    ensures TaskOf(rev, d).Some? ==> TaskOf(rev, d).value.rev == rev
  {
  }

  lemma BeginKeepsSound(e: Engine, w: World, call: Call, telemetry: Telemetry)
    requires ClosedRuns.Sound(e, w)
    ensures ClosedRuns.Sound(e, BeginCall(e, w, call, telemetry))
  {
    hide Decide, BeginCall, TaskSound, RunSound, StoreSound, TasksSound;
    var rev := CallRev(call);
    var t := TaskOf(rev, Decide(e, w.store, call, telemetry));
    BeginAdds(e, w, call, telemetry);
    if rev !in w.store.staging || w.store.staging[rev].context.None? {
      OpenOnlyWhenStaged(e, w.store, call, telemetry);
    } else if t.Some? {
      StagedRunSound(e, w.store, rev);
      DecisionFits(e, w.store, call, telemetry);
      TasksAfterAddition(e, w.store, w.tasks, t.value);
    }
  }

  lemma StagingGrows(e: Engine, rd: RunDir, rev: nat, name: Name, payload: Payload)
    requires RunSound(e, rev, rd) && name !in rd.artifacts && name != ResearchPacket
    ensures var grown := rd.(artifacts := rd.artifacts[name := payload]);
            Grows(rd, grown) && RunSound(e, rev, grown)
  {
  }

  lemma StagingKeepsSound(e: Engine, w: World, i: nat, now: Instant, fault: Fault)
    requires ClosedRuns.Sound(e, w) && i < |w.tasks| && w.tasks[i].writes != []
    ensures ClosedRuns.Sound(e, AdvanceTask(w, i, now, fault))
    ensures AllGrow(w.store, AdvanceTask(w, i, now, fault).store)
  {
    var t, s := w.tasks[i], w.store;
    var (name, payload) := t.writes[0];
    var s' := StageArtifact(s, t.rev, name, payload, fault).0;
    assert TaskFits(e, Current(s, t.rev), t);
    if s' != s {
      StagedRunSound(e, s, t.rev);
      var rd := s.staging[t.rev];
      StagingGrows(e, rd, t.rev, name, payload);
      LocalKeepsSound(e, s, w.tasks, t.rev, rd.(artifacts := rd.artifacts[name := payload]));
    }
    assert TaskFits(e, Current(s', t.rev), t);
    TasksAfterRemoval(e, s', w.tasks, i);
    TasksAfterUpdate(e, s', w.tasks, i, t.(writes := t.writes[1..]));
  }

  lemma AppendingKeepsSound(e: Engine, w: World, i: nat, now: Instant, fault: Fault)
    requires ClosedRuns.Sound(e, w) && i < |w.tasks|
    requires w.tasks[i].writes == [] && w.tasks[i].cp.Some?
    ensures ClosedRuns.Sound(e, AdvanceTask(w, i, now, fault))
    ensures AllGrow(w.store, AdvanceTask(w, i, now, fault).store)
  {
    hide RunSound, Grows, ViewSound, Admits;
    var t, s := w.tasks[i], w.store;
    EveryRunGrows(s);
    var (s', r) := AppendIfCurrent(s, t.rev, t.cp.value, t.expected, fault);
    assert TaskFits(e, Current(s, t.rev), t);
    if r.Ok? || s' != s {
      StagedRunSound(e, s, t.rev);
      var rd := s.staging[t.rev];
      AppendKeepsRun(e, rd, t.rev, t);
      LocalKeepsSound(e, s, w.tasks, t.rev, Append(rd, t.cp.value));
      if t.bundle.Some? { TasksAfterUpdate(e, s', w.tasks, i, t.(cp := None)); }
    }
    TasksAfterRemoval(e, s', w.tasks, i);
  }

  lemma PublishingKeepsSound(e: Engine, w: World, i: nat, now: Instant, fault: Fault)
    requires ClosedRuns.Sound(e, w) && i < |w.tasks|
    requires w.tasks[i].writes == [] && w.tasks[i].cp.None?
    ensures ClosedRuns.Sound(e, AdvanceTask(w, i, now, fault))
    ensures AllGrow(w.store, AdvanceTask(w, i, now, fault).store)
  {
    hide Publish, Closed, FinalContents, FrozenTelemetry, AllGrow;
    var t := w.tasks[i];
    EveryRunGrows(w.store);
    if t.bundle.Some? {
      assert TaskFits(e, Current(w.store, t.rev), t);
      assert ViewSound(e, t.rev, ViewOf(w.store, t.rev));
      PublishKeepsSound(e, w.store, w.tasks, t.bundle.value, now, fault);
    }
    TasksAfterRemoval(e, AdvanceTask(w, i, now, fault).store, w.tasks, i);
  }

  lemma MoveKeepsSound(e: Engine, w: World, m: Move)
    requires ClosedRuns.Sound(e, w)
    ensures ClosedRuns.Sound(e, Next(e, w, m))
    ensures AllGrow(w.store, Next(e, w, m).store)
  {
    hide AdvanceTask, BeginCall, BeginWith, DecideFrom, AllGrow, StoreSound, TasksSound, OlderLoad, Recover;
    EveryRunGrows(w.store);
    match m
    case Begin(call, telemetry) =>
      BeginKeepsSound(e, w, call, telemetry);
      BeginAdds(e, w, call, telemetry);
    case BeginLate(call, first, telemetry) =>
      if OlderLoad(first, w.store, CallRev(call)) {
        LateKeepsSound(e, w, call, first, telemetry);
        BeginWithAdds(w, call, DecideFrom(e, first, w.store, call, telemetry));
      }
    case Advance(i, now, fault) =>
      if i < |w.tasks| {
        if w.tasks[i].writes != [] { StagingKeepsSound(e, w, i, now, fault); }
        else if w.tasks[i].cp.Some? { AppendingKeepsSound(e, w, i, now, fault); }
        else { PublishingKeepsSound(e, w, i, now, fault); }
      }
    case Abandon(i) => if i < |w.tasks| { TasksAfterRemoval(e, w.store, w.tasks, i); }
    case Recovery(rev, now, fault) => RecoverKeepsSound(e, w.store, w.tasks, rev, now, fault);
  }

  lemma {:induction false} PlayKeepsSound(e: Engine, w: World, moves: seq<Move>)
    requires ClosedRuns.Sound(e, w)
    ensures ClosedRuns.Sound(e, Play(e, w, moves))
    ensures AllGrow(w.store, Play(e, w, moves).store)
    decreases moves
  {
    hide Next, Current, ClosedRuns.Sound;
    if moves != [] {
      var w1 := Next(e, w, moves[0]);
      MoveKeepsSound(e, w, moves[0]);
      PlayKeepsSound(e, w1, moves[1..]);
      AllGrowTransitive(w.store, w1.store, Play(e, w, moves).store);
    } else {
      EveryRunGrows(w.store);
    }
  }

  lemma EveryRunGrows(s: DateStore)
    ensures AllGrow(s, s)
  {
  }

  // ---- What it means ----

  /** A date on which nothing is published yet and every run is anywhere in its preparation. */
  ghost predicate Prepared(s: DateStore) {
    && s.finals == map[] && s.orphans == map[] && s.index == map[] && s.latest.None?
    && forall rev :: rev in s.staging ==> PreparedRun(rev, s.staging[rev])
  }

  ghost predicate PreparedRun(rev: nat, rd: RunDir) {
    && rd.context.Some?
    && rd.context.value.revision == rev
    && PacketPremise(rd)
    && forall i :: 0 <= i < |rd.checkpoints| ==>
         && rd.checkpoints[i].revision == rev
         && NoReasonYet(rd.checkpoints[i])
         && !rd.checkpoints[i].stage.Published?
  }

  lemma PreparedIsSound(e: Engine, s: DateStore)
    requires Prepared(s)
    ensures ClosedRuns.Sound(e, World(s, [], {}))
  {
    forall rev ensures ViewSound(e, rev, ViewOf(s, rev)) {
      if rev in s.staging { assert PreparedRun(rev, s.staging[rev]); }
    }
  }

  /**
   Whatever the services did, whatever failed: once a run has its final checkpoint, its
   checkpoints and the bundle they determine never change again.
   */
  lemma TheEndIsFinal(e: Engine, s: DateStore, before: seq<Move>, after: seq<Move>, rev: nat)
    requires Prepared(s)
    requires var current := Current(Play(e, World(s, [], {}), before).store, rev);
             current.Some? && Ended(current.value.checkpoints)
    ensures var w := Play(e, World(s, [], {}), before);
            var w' := Play(e, w, after);
            var a, b := Current(w.store, rev), Current(w'.store, rev);
            && a.value.context.Some? && b.Some? && b.value.context.Some?
            && b.value.checkpoints == a.value.checkpoints
            && TheBundle(e, RunOf(b.value), b.value.checkpoints) == TheBundle(e, RunOf(a.value), a.value.checkpoints)
  {
    hide TheBundle, Closed;
    PreparedIsSound(e, s);
    PlayKeepsSound(e, World(s, [], {}), before);
    var w := Play(e, World(s, [], {}), before);
    assert ViewSound(e, rev, ViewOf(w.store, rev));
    PlayKeepsSound(e, w, after);
  }

  /**
   Every bundle a call is about to publish, every bundle readers get and every bundle kept
   in quarantine is the one its run's final checkpoint determines; a retry that finds that
   checkpoint, in a load however old, decides to publish the very same bundle as the
   interrupted call.
   */
  lemma OneBundlePerRun(e: Engine, s: DateStore, moves: seq<Move>, rev: nat, bundle: Bundle)
    requires Prepared(s)
    requires var w := Play(e, World(s, [], {}), moves);
             || (exists i :: 0 <= i < |w.tasks| && w.tasks[i].rev == rev && w.tasks[i].cp.None?
                             && w.tasks[i].bundle == Some(bundle))
             || (exists call, first, telemetry :: CallRev(call) == rev && OlderLoad(first, w.store, rev)
                             && DecideFrom(e, first, w.store, call, telemetry) == Finish(bundle))
             || (GetPublished(w.store, rev).Some? && GetPublished(w.store, rev).value.1 == bundle)
             || (rev in w.store.orphans && w.store.orphans[rev].bundle == Some(bundle))
    ensures var current := Current(Play(e, World(s, [], {}), moves).store, rev);
            && current.Some? && current.value.context.Some? && Ended(current.value.checkpoints)
            && bundle == TheBundle(e, RunOf(current.value), current.value.checkpoints)
  {
    hide DecideFrom, TheBundle, Closed, OlderLoad;
    PreparedIsSound(e, s);
    PlayKeepsSound(e, World(s, [], {}), moves);
    var w := Play(e, World(s, [], {}), moves);
    assert ViewSound(e, rev, ViewOf(w.store, rev));
    if i :| 0 <= i < |w.tasks| && w.tasks[i].rev == rev && w.tasks[i].cp.None? && w.tasks[i].bundle == Some(bundle) {
      assert TaskFits(e, Current(w.store, rev), w.tasks[i]);
    } else if call, first, telemetry :| CallRev(call) == rev && OlderLoad(first, w.store, rev)
                                        && DecideFrom(e, first, w.store, call, telemetry) == Finish(bundle) {
      FinishFits(e, w.store, call, first, telemetry, bundle);
    }
  }

  /** What the published kind says about the recorded attempts. */
  ghost predicate KindEarned(contents: Contents, cps: seq<Checkpoint>) {
    var attempts := Attempts(cps);
    match contents
    case SynthesizedContents(_, draft, report) =>
      attempts != [] && FrozenAttempt(Last(attempts)) == Some((draft, report)) && report.valid
    case ReducedContents(_, reason, _, _, reports) =>
      && |reports| == |attempts|
      && (forall k :: 0 <= k < |attempts| ==>
            FrozenAttempt(attempts[k]).Some? && FrozenAttempt(attempts[k]).value.1 == reports[k] && !reports[k].valid)
      && (reason.ValidationRepairExhausted? <==> |attempts| == 3)
    case OperationalContents(_) => cps != [] && Last(cps).quality.Fail?
    case UnknownContents(_) => false
  }

  lemma ClosedEarnsKind(e: Engine, run: RunContext, cps: seq<Checkpoint>)
    requires cps != [] && Closed(e, run, cps)
    ensures KindEarned(TheBundle(e, run, cps).contents, cps)
  {
    if ClosedReduced(e, run, cps) { CheckedReports(e, FrozenPacket(Last(cps)).value, Attempts(cps)); }
  }

  /**
   The kind of ending is earned: a synthesized report has a valid latest attempt, a reduced
   one never follows a valid attempt and is called exhausted exactly after three failures,
   and an operational one ends a FAIL run.
   */
  lemma EndingIsEarned(e: Engine, s: DateStore, moves: seq<Move>, rev: nat)
    requires Prepared(s)
    requires var current := Current(Play(e, World(s, [], {}), moves).store, rev);
             current.Some? && Ended(current.value.checkpoints)
    ensures var current := Current(Play(e, World(s, [], {}), moves).store, rev).value;
            && current.context.Some?
            && KindEarned(TheBundle(e, RunOf(current), current.checkpoints).contents, current.checkpoints)
  {
    hide TheBundle, Closed, KindEarned;
    PreparedIsSound(e, s);
    PlayKeepsSound(e, World(s, [], {}), moves);
    var w := Play(e, World(s, [], {}), moves);
    assert ViewSound(e, rev, ViewOf(w.store, rev));
    var rd := Current(w.store, rev).value;
    ClosedEarnsKind(e, RunOf(rd), rd.checkpoints);
  }
}
