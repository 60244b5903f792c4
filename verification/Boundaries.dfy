/**
 Where the repository's guarantees end, exactly and at inputs that are reached: a freeze that
 is recorded but refused, a freeze after the end, a quarantined publication and its recovery,
 a quarantined id that is handed out again, and the one kind of run whose ending is not
 determined by its final checkpoint.
 */
module Boundaries {
  import opened RunTypes
  import opened RunStore
  import opened RunHistory
  import opened Publication
  import opened FinalBundle
  import opened ClosedRuns
  import opened PublicationService
  import opened Preparation
  import opened PreparedEvidence
  import opened Undisturbed
  import RepeatedCalls

  // ---- Freezing ----

  /** A staged, unfrozen run and a cutoff that does not precede its invocation. */
  predicate Freezable(s: DateStore, rev: nat, cutoff: Instant) {
    && rev in s.staging && s.staging[rev].context.Some? && s.staging[rev].context.value.revision == rev
    && s.staging[rev].freeze.None? && cutoff >= s.staging[rev].context.value.invokedAt
  }

  /**
   The cutoff is recorded whatever happens to its marker checkpoint. The call succeeds exactly
   when no checkpoint is later than the cutoff, and no later freeze of the run ever succeeds.
   */
  lemma FreezeIsNotAllOrNothing(s: DateStore, rev: nat, cutoff: Instant, again: Instant, fault: Fault)
    requires Freezable(s, rev, cutoff)
    ensures var (s', r) := Freeze(s, rev, cutoff, NoFault);
            var cps := s.staging[rev].checkpoints;
            && (r.Ok? <==> (cps != [] ==> Last(cps).writtenAt <= cutoff))
            && s'.staging[rev].freeze == Some(cutoff)
            && s'.staging[rev].checkpoints == cps + (if r.Ok? then [FrozenMarker(s.staging[rev], rev, cutoff)] else [])
            && Freeze(s', rev, again, fault) == (s', Rejected(InvalidRequest))
  {
    var rd := s.staging[rev].(freeze := Some(cutoff));
    assert FreezeMarker(rd, FrozenMarker(s.staging[rev], rev, cutoff));
  }

  // ---- Runs that repository calls reach ----

  /** The only run of its date. */
  function Alone(rev: nat, rd: RunDir): DateStore {
    NoRuns.(staging := map[rev := rd])
  }

  lemma AloneIsPut(rev: nat, rd: RunDir)
    ensures Alone(rev, rd) == Put(NoRuns, rev, rd)
  {
    assert map[rev := rd] == NoRuns.staging[rev := rd];
  }

  lemma ReachCreate(context: RunContext)
    ensures Reachable(Alone(context.revision, EmptyDir.(context := Some(context))))
  {
    ReachStart();
    ReachNext(NoRuns, OpCreate(context, NoFault));
    var rev, rd := context.revision, EmptyDir.(context := Some(context));
    assert NoRuns.staging[rev := EmptyDir][rev := rd] == map[rev := rd];
  }

  lemma ReachStage(rev: nat, rd: RunDir, name: Name, payload: Payload)
    requires Reachable(Alone(rev, rd)) && name !in rd.artifacts && payload != RawBytes([])
    ensures Reachable(Alone(rev, WithArtifact(rd, name, payload)))
  {
    hide Apply, Reachable, StageArtifact, Put, WithArtifact, Alone;
    AloneIsPut(rev, rd);
    AloneIsPut(rev, WithArtifact(rd, name, payload));
    StageCalmly(NoRuns, rev, rd, name, payload, NoFault);
    ReachOf(Alone(rev, rd), OpStage(rev, name, payload, NoFault));
  }

  /** The store after one more call, in the terms of that call. */
  lemma ReachOf(s: DateStore, op: Op)
    requires Reachable(s)
    ensures op.OpStage? ==> Reachable(StageArtifact(s, op.rev, op.name, op.payload, op.fault).0)
    ensures op.OpCheckpoint? ==> Reachable(AppendCheckpoint(s, op.rev, op.cp, op.fault).0)
    ensures op.OpFreeze? ==> Reachable(Freeze(s, op.rev, op.cutoff, op.fault).0)
  {
    hide Reachable, StageArtifact, AppendCheckpoint, Freeze, Publish, Recover, Create, Allocate, AppendIfCurrent;
    ReachNext(s, op);
  }

  lemma ReachAppend(rev: nat, rd: RunDir, cp: Checkpoint)
    requires Reachable(Alone(rev, rd)) && rd.context.Some? && cp.revision == rev && Admits(rd, cp)
    ensures Reachable(Alone(rev, Append(rd, cp)))
  {
    hide Apply, Reachable, AppendCheckpoint, Put, Append, Alone, Admits;
    AloneIsPut(rev, rd);
    AloneIsPut(rev, Append(rd, cp));
    AppendCalmly(NoRuns, rev, rd, cp, NoFault);
    ReachOf(Alone(rev, rd), OpCheckpoint(rev, cp, NoFault));
  }

  lemma ReachFreeze(rev: nat, rd: RunDir, cutoff: Instant)
    requires Reachable(Alone(rev, rd)) && rd.context.Some? && rd.context.value.revision == rev
    requires rd.freeze.None? && rd.context.value.invokedAt <= cutoff
    requires rd.checkpoints != [] ==> Last(rd.checkpoints).writtenAt <= cutoff
    ensures Reachable(Alone(rev, Append(rd.(freeze := Some(cutoff)), FrozenMarker(rd, rev, cutoff))))
  {
    FreezeIsNotAllOrNothing(Alone(rev, rd), rev, cutoff, cutoff, NoFault);
    var s' := Freeze(Alone(rev, rd), rev, cutoff, NoFault).0;
    assert s' == Alone(rev, Append(rd.(freeze := Some(cutoff)), FrozenMarker(rd, rev, cutoff))) by {
      var frozen := rd.(freeze := Some(cutoff));
      assert s'.staging[rev].checkpoints == Append(frozen, FrozenMarker(rd, rev, cutoff)).checkpoints;
      assert Alone(rev, rd).staging[rev := frozen] == map[rev := frozen];
    }
    hide Apply, Reachable, Freeze, Alone;
    ReachOf(Alone(rev, rd), OpFreeze(rev, cutoff, NoFault));
  }

  // ---- Freezes that go wrong happen ----

  /** A first checkpoint, of any run, written at this time. */
  function FirstCheckpoint(seed: RunContext, quality: Quality, at: Instant): Checkpoint {
    Checkpoint(1, Stage.ConfigFrozen, Execution.Created, quality, seed.delivery, at, None, map[], true)
  }

  function NewRun(seed: RunContext): RunDir {
    EmptyDir.(context := Some(NewContext(seed, 1)))
  }

  /** A run whose first checkpoint is later than its invocation: a freeze at the invocation is recorded but refused. */
  lemma RefusedFreezeHappens(seed: RunContext)
    ensures var s := Alone(1, Append(NewRun(seed), FirstCheckpoint(seed, Pass, seed.invokedAt + 1)));
            var (s', r) := Freeze(s, 1, seed.invokedAt, NoFault);
            && Reachable(s) && Freezable(s, 1, seed.invokedAt)
            && !r.Ok? && s'.staging[1].freeze == Some(seed.invokedAt) && s'.staging[1].checkpoints == s.staging[1].checkpoints
  {
    var rd, cp := NewRun(seed), FirstCheckpoint(seed, Pass, seed.invokedAt + 1);
    ReachCreate(NewContext(seed, 1));
    AnythingBeforeTheFreeze(rd, cp);
    ReachAppend(1, rd, cp);
    var s := Alone(1, Append(rd, cp));
    assert Last(s.staging[1].checkpoints) == cp;
    FreezeIsNotAllOrNothing(s, 1, seed.invokedAt, seed.invokedAt, NoFault);
    hide Reachable, Freeze;
  }

  lemma AnythingBeforeTheFreeze(rd: RunDir, cp: Checkpoint)
    requires rd.context.Some? && rd.freeze.None? && !cp.stage.Published?
    ensures Admits(rd, cp)
  {
  }

  /** The operational final checkpoint of a run that was never frozen, at its invocation. */
  function EarlyFinal(seed: RunContext, code: ErrorCode): Checkpoint {
    Checkpoint(1, Stage.Published, Execution.Published, Fail, seed.delivery, seed.invokedAt, None,
               map[OperationalReason := Sha256(CodeBytes(code))], false)
  }

  function EndedEarly(seed: RunContext, code: ErrorCode): RunDir {
    Append(Append(WithArtifact(NewRun(seed), OperationalReason, CodeBytes(code)),
                  FirstCheckpoint(seed, Fail, seed.invokedAt)),
           EarlyFinal(seed, code))
  }

  /** A run that ended before its freeze can still be frozen at that instant: PUBLISHED is not its last checkpoint. */
  lemma MarkerAfterPublishedHappens(seed: RunContext, code: ErrorCode)
    ensures var s := Alone(1, EndedEarly(seed, code));
            var (s', r) := Freeze(s, 1, seed.invokedAt, NoFault);
            && Reachable(s) && r.Ok?
            && |s'.staging[1].checkpoints| == 3
            && s'.staging[1].checkpoints[1].stage.Published? && s'.staging[1].checkpoints[2].stage.EvidenceFrozen?
  {
    var staged := WithArtifact(NewRun(seed), OperationalReason, CodeBytes(code));
    var first, final := FirstCheckpoint(seed, Fail, seed.invokedAt), EarlyFinal(seed, code);
    ReachCreate(NewContext(seed, 1));
    ReachStage(1, NewRun(seed), OperationalReason, CodeBytes(code));
    AnythingBeforeTheFreeze(staged, first);
    ReachAppend(1, staged, first);
    EarlyFinalIsAdmitted(seed, code);
    ReachAppend(1, Append(staged, first), final);
    var s := Alone(1, EndedEarly(seed, code));
    assert Last(s.staging[1].checkpoints) == final;
    FreezeIsNotAllOrNothing(s, 1, seed.invokedAt, seed.invokedAt, NoFault);
    hide Reachable, Freeze;
  }

  lemma EarlyFinalIsAdmitted(seed: RunContext, code: ErrorCode)
    ensures Admits(Append(WithArtifact(NewRun(seed), OperationalReason, CodeBytes(code)),
                          FirstCheckpoint(seed, Fail, seed.invokedAt)), EarlyFinal(seed, code))
  {
    var first, cp := FirstCheckpoint(seed, Fail, seed.invokedAt), EarlyFinal(seed, code);
    var rd := Append(WithArtifact(NewRun(seed), OperationalReason, CodeBytes(code)), first);
    EarlyNames(seed, code);
    PacketHashAppend([], first);
    assert rd.checkpoints == [] + [first] && Last(rd.checkpoints) == first;
    assert StagedMatches(rd.artifacts, cp.artifacts);
    hide StoredPacketHash, Business, TelemetryNamed, StagedMatches, Admits, MissedWindowPacket;
    assert OperationalPublication(rd, cp);
    hide OperationalPublication;
    OperationalBeforeFreeze(rd, cp);
  }

  lemma EarlyNames(seed: RunContext, code: ErrorCode)
    ensures var final, first := EarlyFinal(seed, code).artifacts, FirstCheckpoint(seed, Fail, seed.invokedAt).artifacts;
            && Business(final).Keys == Business(first).Keys + {OperationalReason}
            && TelemetryNamed(final) && RunStore.Keeps(Business(final), Business(first))
  {
    var final := EarlyFinal(seed, code).artifacts;
    assert TelemetryNames(final) == {};
    assert Business(final).Keys == {OperationalReason};
  }

  lemma OperationalBeforeFreeze(rd: RunDir, cp: Checkpoint)
    requires rd.context.Some? && rd.freeze.None? && OperationalPublication(rd, cp)
    ensures Admits(rd, cp)
  {
    hide OperationalPublication, FreezeMarker, QualityEvaluation, SynthesisStep, PreparationFailure;
  }

  // ---- Quarantine, recovery and reuse ----

  /** The newest checkpoint is the one a publisher leaves for `bundle`. */
  predicate ReadyToPublish(s: DateStore, bundle: Bundle) {
    && Publishable(s, bundle)
    && var rd := s.staging[bundle.run.revision];
    && rd.checkpoints != []
    && var cp := Last(rd.checkpoints);
    && cp.stage.Published? && cp.execution.Published? && cp.cutoff == rd.freeze && !cp.resumable
  }

  lemma QuarantinedState(s: DateStore, bundle: Bundle, now: Instant, k: nat)
    requires Shape(s) && ReadyToPublish(s, bundle) && !Conflicts(s, bundle) && 3 <= k <= 5
    ensures var rev := bundle.run.revision;
            var s1 := Publish(s, bundle, now, IoError(k)).0;
            && s1.orphans == s.orphans[rev := s.staging[rev].(bundle := Some(bundle), report := Some(bundle.markdown))]
            && s1.finals == s.finals && s1.staging == s.staging - {rev}
            && (k == 3 ==> s1.index == s.index && s1.latest == s.latest)
            && (k > 3 ==> s1.index == s.index[rev := EntryFor(s, bundle, now)])
            && GetReceipt(s1, rev).None? && Recoverable(s1, rev)
  {
    var rev := bundle.run.revision;
    var s1 := Publish(s, bundle, now, IoError(k)).0;
    var rd := s.staging[rev];
    assert s1.finals == s.finals;
    assert bundle.run == WithStatuses(LoadDir(rd, false).value.run, LatestStatuses(rd));
  }

  /**
   A publication that failed after its rename, at any write, is completed by recovery with
   exactly the result of one that had not failed; the time is that of whichever call indexed it.
   */
  lemma RecoveryCompletes(s: DateStore, bundle: Bundle, now: Instant, k: nat, later: Instant)
    requires Shape(s) && ReadyToPublish(s, bundle) && !Conflicts(s, bundle) && 3 <= k <= 5
    ensures Recover(Publish(s, bundle, now, IoError(k)).0, bundle.run.revision, later, NoFault)
            == Publish(s, bundle, if k == 3 then later else now, NoFault)
  {
    var rev := bundle.run.revision;
    var s1 := Publish(s, bundle, now, IoError(k)).0;
    QuarantinedState(s, bundle, now, k);
    var s2 := Restage(s1, rev);
    var rd := s.staging[rev].(bundle := Some(bundle), report := Some(bundle.markdown));
    assert s2.staging == s.staging[rev := rd];
    assert s2.orphans == s.orphans;
    assert s2.staging - {rev} == s.staging - {rev};
    assert Publishable(s2, bundle) by { hide Shape, Recoverable, Publish; }
    var at := if k == 3 then later else now;
    assert rd.(bundle := Some(bundle)).(report := Some(bundle.markdown)) == rd;
    assert !Conflicts(s2, bundle);
    assert EntryFor(s2, bundle, later) == EntryFor(s, bundle, at);
    assert s2.index[rev := EntryFor(s, bundle, at)] == s.index[rev := EntryFor(s, bundle, at)];
    assert AfterWrites(s2, bundle, later, 5) == AfterWrites(s, bundle, at, 5);
  }

  /** A recoverable orphan can be published once it is staged again. */
  lemma RestagedIsPublishable(s: DateStore, rev: nat)
    requires Recoverable(s, rev)
    ensures Publishable(Restage(s, rev), s.orphans[rev].bundle.value)
    ensures Conflicts(Restage(s, rev), s.orphans[rev].bundle.value) <==> Conflicts(s, s.orphans[rev].bundle.value)
  {
    var rd, bundle := s.orphans[rev], s.orphans[rev].bundle.value;
    assert LoadDir(rd, false).value.run == RunOf(rd);
    assert Restage(s, rev).staging[rev] == rd;
    assert StatusesOf(bundle.run) == LatestStatuses(rd);
    assert PublishedArtifactsIntact(rd) by { hide StagedMatches; }
    hide StagedMatches;
  }

  /**
   Recovery, undisturbed, succeeds exactly if the publication is visible already or its orphan is
   intact and no other content is indexed under its id. What is visible is returned with its
   receipt, and nothing is written, whatever fails; what is not recoverable is left alone.
   */
  lemma RecoveryAnswers(s: DateStore, rev: nat, now: Instant, fault: Fault)
    ensures var (s', r) := Recover(s, rev, now, NoFault);
            && (r.Ok? <==> GetPublished(s, rev).Some?
                           || (Recoverable(s, rev) && !Conflicts(s, s.orphans[rev].bundle.value)))
            && (r.Ok? ==> GetReceipt(s', rev) == Some(r.value))
            && (r.Ok? && GetPublished(s, rev).None? ==>
                  GetPublished(s', rev) == Some((s.orphans[rev].report.value, s.orphans[rev].bundle.value)))
    ensures GetPublished(s, rev).Some? ==> Recover(s, rev, now, fault) == (s, Ok(GetReceipt(s, rev).value))
    ensures GetPublished(s, rev).None? && !Recoverable(s, rev) ==>
              Recover(s, rev, now, fault) == (s, Rejected(PublicationFailed))
  {
    if GetPublished(s, rev).None? && Recoverable(s, rev) {
      var s1, bundle := Restage(s, rev), s.orphans[rev].bundle.value;
      RestagedIsPublishable(s, rev);
      RecoverableIsItsOwn(s, rev);
      assert Restage(s, rev) == Put(s.(orphans := s.orphans - {rev}), rev, s.orphans[rev]);
      hide Publish, Publishable, Recoverable, Conflicts, Restage;
      if !Conflicts(s, bundle) {
        RepeatedCalls.PublishLeaves(s.(orphans := s.orphans - {rev}), rev, s.orphans[rev], bundle, now, NoFault);
      } else {
        ConflictIsRejected(s1, bundle, now);
      }
    }
  }

  lemma RecoverableIsItsOwn(s: DateStore, rev: nat)
    requires Recoverable(s, rev)
    ensures var bundle := s.orphans[rev].bundle.value;
            bundle.run.revision == rev && bundle.markdown == s.orphans[rev].report.value
  {
  }

  lemma ConflictIsRejected(s: DateStore, bundle: Bundle, now: Instant)
    requires Conflicts(s, bundle)
    ensures !Publish(s, bundle, now, NoFault).1.Ok?
  {
    hide Publishable, Conflicts, AfterWrites, Quarantine;
  }

  /** This call hands out `rev`, to a new run or to one it resumes. */
  predicate HandsOut(s: DateStore, invocation: Invocation, seed: RunContext, fault: Fault, rev: nat) {
    var r := Allocate(s, invocation, seed, fault).1;
    r.Ok? && r.value.revision == rev
  }

  /** `rev` is one above everything staged or published. */
  predicate IsNext(s: DateStore, rev: nat) {
    && rev > 0
    && (forall r :: r in Existing(s) ==> r < rev)
    && (rev == 1 || rev - 1 in Existing(s))
  }

  /** When a call asks for `rev` and nothing staged or published stands against it. */
  predicate AsksFor(s: DateStore, invocation: Invocation, rev: nat) {
    match invocation
    case Scheduled => rev == 1
    case ManualFresh => IsNext(s, rev)
    case ManualRequested(requested) => requested == rev && IsNext(s, rev)
  }

  lemma NextIsNext(s: DateStore, rev: nat)
    ensures IsNext(s, rev) <==> rev == NextRevision(s)
    ensures IsNext(s, rev) ==> rev > 0
  {
    if IsNext(s, rev) && Existing(s) != {} { assert SetMax(Existing(s)) == rev - 1; }
  }

  lemma ResumedKeepsRevision(s: DateStore, rev: nat, manual: bool)
    ensures Resume(s, rev, manual).Ok? ==> Resume(s, rev, manual).value.revision == rev
  {
  }

  /**
   Orphans do not count when revisions are allocated. A quarantined id is handed out again
   exactly when it is the id the invocation takes by what is staged and published alone, and
   then to a run that starts from nothing; a call that is stopped hands it out no more often.
   */
  lemma QuarantinedIdIsReused(s: DateStore, rev: nat, invocation: Invocation, seed: RunContext, fault: Fault)
    requires rev in s.orphans && rev !in Existing(s)
    ensures HandsOut(s, invocation, seed, NoFault, rev) <==> AsksFor(s, invocation, rev)
    ensures HandsOut(s, invocation, seed, fault, rev) ==>
              AsksFor(s, invocation, rev) && StartsEmpty(s, Allocate(s, invocation, seed, fault), NewContext(seed, rev))
  {
    hide IsNext, NextRevision, Resume, Create, StartsEmpty, Existing;
    NextIsNext(s, rev);
    CreateNew(s, NewContext(seed, rev), fault);
    CreateNew(s, NewContext(seed, rev), NoFault);
    var r := if invocation.Scheduled? then 1 else if invocation.ManualRequested? then invocation.revision else NextRevision(s);
    ResumedKeepsRevision(s, r, invocation.ManualRequested?);
    CreatedKeepsRevision(s, NewContext(seed, r), fault);
    CreatedKeepsRevision(s, NewContext(seed, r), NoFault);
  }

  /** A new run with this context and nothing else was made. */
  predicate StartsEmpty(s: DateStore, result: (DateStore, Result<RunContext>), context: RunContext) {
    && result.1 == Ok(context)
    && result.0 == s.(staging := s.staging[context.revision := EmptyDir.(context := Some(context))])
  }

  lemma CreatedKeepsRevision(s: DateStore, context: RunContext, fault: Fault)
    ensures Create(s, context, fault).1.Ok? ==> Create(s, context, fault).1.value.revision == context.revision
  {
  }

  lemma CreateNew(s: DateStore, context: RunContext, fault: Fault)
    requires context.revision !in Existing(s)
    ensures Create(s, context, NoFault).1.Ok?
    ensures Create(s, context, fault).1.Ok? ==> StartsEmpty(s, Create(s, context, fault), context)
  {
    var rev, rd := context.revision, EmptyDir.(context := Some(context));
    assert s.staging[rev := EmptyDir][rev := rd] == s.staging[rev := rd];
  }

  /**
   A publication that fails after its rename gives its id back: the next call that takes the
   least free id of what else is staged or published gets it, and so does a scheduled call
   when it is the first id of the date.
   */
  lemma FailedPublicationFreesItsId(s: DateStore, bundle: Bundle, now: Instant, k: nat, invocation: Invocation,
                                    seed: RunContext)
    requires Shape(s) && ReadyToPublish(s, bundle) && !Conflicts(s, bundle) && 3 <= k <= 5
    ensures var rev := bundle.run.revision;
            var (s1, r) := Publish(s, bundle, now, IoError(k));
            && r == Rejected(PublicationFailed) && rev in s1.orphans
            && (HandsOut(s1, invocation, seed, NoFault, rev) <==>
                  match invocation
                  case Scheduled => rev == 1
                  case ManualFresh => IsTop(s, rev)
                  case ManualRequested(requested) => requested == rev && IsTop(s, rev))
  {
    var rev := bundle.run.revision;
    var s1 := Publish(s, bundle, now, IoError(k)).0;
    QuarantinedState(s, bundle, now, k);
    assert Existing(s1) == Existing(s) - {rev};
    assert Publish(s, bundle, now, IoError(k)).1 == Rejected(PublicationFailed);
    assert IsNext(s1, rev) <==> IsTop(s, rev);
    hide Publish, ReadyToPublish, IsNext, IsTop;
    QuarantinedIdIsReused(s1, rev, invocation, seed, NoFault);
  }

  /** `rev` is the greatest id staged or published, and the one below it is there too. */
  predicate IsTop(s: DateStore, rev: nat) {
    && rev > 0
    && (forall r :: r in Existing(s) ==> r <= rev)
    && (rev == 1 || rev - 1 in Existing(s))
  }

  /** The fault of a publication that meets an I/O error after `k` writes, once its checkpoint is appended. */
  function FailsToPublish(k: nat): Environment {
    (i: nat) => if i == 3 then IoError(k) else NoFault
  }

  /** The fallback's call reaches its publication, which then fails. */
  lemma FallbackReachesPublication(e: Engine, p: Rules, c: Course, t: Telemetry, k: nat)
    requires GoodCourse(p, c) && c.context.revision == 1 && 3 <= k <= 5
    ensures var (s', r) := Publish(Put(NoRuns, 1, After5(e, c, c.packedAt, t)), FallbackBundle(e, c, c.packedAt, t),
                                   c.packedAt, IoError(k));
            Serve(e, Put(NoRuns, 1, After4(e, c)), FallbackCall(c, t, FailsToPublish(k))) == (s', ReceiptReply(r))
  {
    var s4, s5 := Put(NoRuns, 1, After4(e, c)), Put(NoRuns, 1, After5(e, c, c.packedAt, t));
    var env, bundle := FailsToPublish(k), FallbackBundle(e, c, c.packedAt, t);
    var writes := [(ReducedReasonName, ReasonBytes(SynthesisUnavailable)), TelemetryArtifact(t)];
    assert env(3) == IoError(k) && env(0).NoFault? && env(1).NoFault? && env(2).NoFault?;
    assert c.context.cutoff.None?;
    hide Publish, After4, After5, FallbackBundle, Final5, StageAndAppend, PlanReduced, Serve, GoodCourse, FallbackCall,
         Put, FailsToPublish, WithTelemetry, Perform, ThePacket, TelemetryArtifact;
    FallbackIsServed(e, s4, c, t, env);
    FallbackIsPlanned(e, p, NoRuns, c, c.packedAt, t);
    CloseCalmly(e, p, NoRuns, c, c.packedAt, t, env);
    ClosesWith(s4, s5, 1, writes, WithTelemetry(Final5(e, c, c.packedAt), t), |After4(e, c).checkpoints|, bundle,
               c.packedAt, env);
  }

  /** A publisher whose checkpoint is appended has the outcome of its publication. */
  lemma ClosesWith(s: DateStore, s1: DateStore, rev: nat, writes: Writes, cp: Checkpoint, expected: nat, bundle: Bundle,
                   now: Instant, env: Environment)
    requires StageAndAppend(s, rev, writes, cp, expected, env) == (s1, Ok(()))
    ensures var (s2, r) := Publish(s1, bundle, now, env(|writes| + 1));
            Perform(s, rev, Close(writes, cp, expected, bundle), now, env) == (s2, ReceiptReply(r))
  {
    hide StageAndAppend, Publish;
  }
  lemma FallbackIsQuarantined(e: Engine, p: Rules, c: Course, t: Telemetry, k: nat)
    requires GoodCourse(p, c) && c.context.revision == 1 && 3 <= k <= 5
    ensures var s := Put(NoRuns, 1, After4(e, c));
            var (s', r) := Serve(e, s, FallbackCall(c, t, FailsToPublish(k)));
            r == Rejected(PublicationFailed) && 1 in s'.orphans && Existing(s') == {}
  {
    assert c.context.cutoff.None?;
    hide Publish, After4, After5, FallbackBundle, Serve, GoodCourse, FallbackCall, Put, Existing, FailsToPublish, Conflicts,
         ReadyToPublish, Shape, Recoverable, Publishable;
    FallbackReachesPublication(e, p, c, t, k);
    FallbackIsReadyToPublish(e, c, c.packedAt, t);
    FailedLeavesNothing(Put(NoRuns, 1, After5(e, c, c.packedAt, t)), FallbackBundle(e, c, c.packedAt, t), c.packedAt, k);
  }

  lemma FailedLeavesNothing(s: DateStore, bundle: Bundle, now: Instant, k: nat)
    requires Shape(s) && ReadyToPublish(s, bundle) && !Conflicts(s, bundle) && 3 <= k <= 5
    requires Existing(s) == {bundle.run.revision}
    ensures var (s', r) := Publish(s, bundle, now, IoError(k));
            r == Rejected(PublicationFailed) && bundle.run.revision in s'.orphans && Existing(s') == {}
  {
    QuarantinedState(s, bundle, now, k);
    FailedIsRejected(s, bundle, now, k) by { hide Shape; }
    hide Publish, ReadyToPublish, Recoverable;
  }

  lemma FailedIsRejected(s: DateStore, bundle: Bundle, now: Instant, k: nat)
    requires Publishable(s, bundle) && !Conflicts(s, bundle) && k <= 5
    ensures Publish(s, bundle, now, IoError(k)).1 == Rejected(PublicationFailed)
  {
    hide Publishable, Conflicts;
  }

  lemma FallbackIsReadyToPublish(e: Engine, c: Course, at: Instant, t: Telemetry)
    requires c.context.cutoff.None? && c.context.revision == 1
    ensures var s5, bundle := Put(NoRuns, 1, After5(e, c, at, t)), FallbackBundle(e, c, at, t);
            && Shape(s5) && ReadyToPublish(s5, bundle) && !Conflicts(s5, bundle)
            && bundle.run.revision == 1 && Existing(s5) == {1}
  {
    FallbackIsPublishable(e, NoRuns, c, at, t);
    FinalDirectory(e, c, at, t);
    FallbackFinal(e, c, at, t);
    OneRunShape(After5(e, c, at, t));
    hide Publishable, After5, FallbackBundle, Final5, WithTelemetry, PublishedArtifactsIntact, Shape, Existing;
  }

  lemma FallbackFinal(e: Engine, c: Course, at: Instant, t: Telemetry)
    requires c.context.cutoff.None?
    ensures var cp := WithTelemetry(Final5(e, c, at), t);
            cp.stage.Published? && cp.execution.Published? && !cp.resumable && cp.cutoff == Some(c.collection.completedAt)
  {
    AfterFour(e, c);
    BoundIsOtherwise(Final5(e, c, at), t);
    hide After3, After4, WithTelemetry, Named5, ThePacket;
  }

  lemma OneRunShape(rd: RunDir)
    ensures var s := Put(NoRuns, 1, rd);
            && Shape(s) && Existing(s) == {1} && s.staging == map[1 := rd] && s.index == map[]
            && forall bundle :: !Conflicts(s, bundle)
  {
  }

  /**
   An id is handed out twice: a scheduled run is started, prepared, and fails to be published
   after its rename; the next scheduled call starts another run under the same id.
   */
  lemma IdIsHandedOutTwice(e: Engine, p: Rules, c: Course, seed: RunContext, t: Telemetry, k: nat, later: RunContext)
    requires c.context == NewContext(seed, 1) && 3 <= k <= 5
    requires GoodCourse(p, c) && !p.providerTimedOut(c.collection)
    ensures var first := StartRun(NoRuns, Scheduled, seed, c.started, Calm());
            var s := Visits(e, p, NoRuns,
                            [VisitStart(Scheduled, seed, c.started, Calm()),
                             VisitPrepare(1, AnswersOf(c)),
                             VisitService(FallbackCall(c, t, FailsToPublish(k)))]);
            && first.1 == Ok(JustStored(NewContext(seed, 1), c.started))
            && 1 in s.orphans
            && StartRun(s, Scheduled, later, t, Calm())
               == (Within(s, 1, Started(NewContext(later, 1), t)), Ok(JustStored(NewContext(later, 1), t)))
  {
    StartVisit(e, p, NoRuns, Scheduled, seed, c);
    PrepareVisit(e, p, NoRuns, c);
    FallbackIsQuarantined(e, p, c, t, k);
    var s := Serve(e, Put(NoRuns, 1, After4(e, c)), FallbackCall(c, t, FailsToPublish(k))).0;
    FirstIdIsFree(s, later, t);
    ThreeVisits(e, p, NoRuns, VisitStart(Scheduled, seed, c.started, Calm()),
                            VisitPrepare(1, AnswersOf(c)),
                            VisitService(FallbackCall(c, t, FailsToPublish(k))));
    hide After4, StartRun, JustStored, Serve, Put, GoodCourse, FallbackCall, Started, Visits, Prepare, AnswersOf, NewContext,
         Existing, Within, FailsToPublish;
  }

  lemma FirstIdIsFree(s: DateStore, seed: RunContext, t: Telemetry)
    requires Existing(s) == {}
    ensures StartRun(s, Scheduled, seed, t, Calm())
            == (Within(s, 1, Started(NewContext(seed, 1), t)), Ok(JustStored(NewContext(seed, 1), t)))
  {
    StartIsPlain(s, Scheduled, seed, t, Calm());
    hide StartRun, Started, JustStored, NewContext, Starts;
  }

  /** Such a run can be published only with the very content the id was indexed with. */
  lemma ReusedIdKeepsItsContent(s: DateStore, bundle: Bundle, now: Instant, fault: Fault)
    requires bundle.run.revision in s.index
    ensures Publish(s, bundle, now, fault).1.Ok? ==>
              && Publish(s, bundle, now, fault).1.value.entry == s.index[bundle.run.revision]
              && s.index[bundle.run.revision].bundleSha == Sha256(BundleBytes(bundle))
  {
  }

  // ---- A FAIL packet ----

  /** A reachable staged run that ended operationally. */
  ghost predicate EndedByFailure(s: DateStore, rev: nat) {
    && Reachable(s)
    && rev in s.staging && s.staging[rev].checkpoints != []
    && var cp := Last(s.staging[rev].checkpoints);
    cp.stage.Published? && cp.quality.Fail? && OperationalReason in cp.artifacts
  }

  /** What the source requires of a packet before a draft can be recorded against it. */
  predicate Attemptable(e: Engine, packet: Packet, draft: Draft) {
    && packet.run.cutoff.Some? && packet.run.invokedAt <= packet.run.cutoff.value
    && draft.origin.Synthesized? && Validate(e, packet, draft, 1).valid
  }

  function WitnessArtifacts(e: Engine, packet: Packet, draft: Draft, telemetry: Telemetry): map<Name, Payload> {
    var report := Validate(e, packet, draft, 1);
    map[ResearchPacket := PacketBytes(packet),
        BriefDraft(Hex(Sha256(DraftBytes(draft)))) := DraftBytes(draft),
        ValidationReport(Hex(Sha256(ReportBytes(report)))) := ReportBytes(report),
        OperationalReason := CodeBytes(MissedWindowCode),
        TelemetryArtifact(telemetry).0 := TelemetryArtifact(telemetry).1]
  }

  function WitnessCheckpoints(e: Engine, packet: Packet, draft: Draft, telemetry: Telemetry): seq<Checkpoint>
    requires packet.run.cutoff.Some?
  {
    var run, at := packet.run, packet.run.cutoff.value;
    var report := Validate(e, packet, draft, 1);
    var start := Checkpoint(run.revision, Stage.ConfigFrozen, Execution.Created, Fail, run.delivery, at, None, map[], true);
    var frozen := start.(stage := Stage.EvidenceFrozen, cutoff := run.cutoff, resumable := false);
    var staged := frozen.(stage := Stage.AwaitingSynthesis, execution := Execution.AwaitingSynthesis,
                          artifacts := map[ResearchPacket := Sha256(PacketBytes(packet))]);
    var attempt := AttemptCheckpoint([start, frozen, staged], packet, Sha256(DraftBytes(draft)),
                                     Sha256(ReportBytes(report)), at);
    var failed := attempt.(stage := Stage.PreparationFailed,
                           artifacts := attempt.artifacts[OperationalReason := Sha256(CodeBytes(MissedWindowCode))]);
    [start, frozen, staged, attempt, failed,
     FinalCheckpoint(run, at, Fail, run.cutoff, failed.artifacts, telemetry)]
  }

  function WitnessStore(e: Engine, packet: Packet, draft: Draft, telemetry: Telemetry): DateStore
    requires packet.run.cutoff.Some?
  {
    var rd := RunDir(Some(NewContext(packet.run, packet.run.revision)), WitnessCheckpoints(e, packet, draft, telemetry),
                     packet.run.cutoff, WitnessArtifacts(e, packet, draft, telemetry), None, None);
    DateStore(map[packet.run.revision := rd], map[], map[], map[], None)
  }

  lemma AttemptNames(packet: Packet, cps: seq<Checkpoint>, draftSha: Digest, reportSha: Digest, at: Instant)
    requires cps != [] && ReducedReport !in Last(cps).artifacts
    ensures var m := AttemptCheckpoint(cps, packet, draftSha, reportSha, at).artifacts;
            && Business(m) == m && TelemetryNames(m) == {}
            && DraftNames(m) == {BriefDraft(Hex(draftSha))} && ReportNames(m) == {ValidationReport(Hex(reportSha))}
            && AttemptArtifacts(m)
  {
    var m := AttemptCheckpoint(cps, packet, draftSha, reportSha, at).artifacts;
    var draft, report := BriefDraft(Hex(draftSha)), ValidationReport(Hex(reportSha));
    assert m.Keys == {ResearchPacket, draft, report};
    assert Business(m) == m;
    assert |m.Keys| == 3 == |m|;
    assert DraftNames(m) == {draft} && ReportNames(m) == {report};
  }

  lemma PacketHashAppend(cps: seq<Checkpoint>, cp: Checkpoint)
    ensures StoredPacketHash(cps + [cp])
            == if ResearchPacket in cp.artifacts then Some(cp.artifacts[ResearchPacket]) else StoredPacketHash(cps)
  {
    assert (cps + [cp])[..|cps|] == cps;
  }

  /** A checkpoint that continues a frozen run at the same instant and with the same statuses. */
  predicate Continues(rd: RunDir, cp: Checkpoint) {
    && rd.context.Some? && rd.freeze.Some? && rd.checkpoints != []
    && var previous := Last(rd.checkpoints);
    && cp.cutoff == rd.freeze && cp.writtenAt == previous.writtenAt && !cp.resumable
    && cp.quality == previous.quality && cp.delivery == previous.delivery
    && StagedMatches(rd.artifacts, cp.artifacts)
  }

  lemma AwaitingIsAdmitted(rd: RunDir, frozen: Checkpoint, cp: Checkpoint)
    requires rd.checkpoints != [] && Last(rd.checkpoints) == frozen
    requires frozen.stage.EvidenceFrozen? && frozen.artifacts == map[]
    requires StoredPacketHash(rd.checkpoints).None?
    requires Continues(rd, cp) && ResearchPacket in rd.artifacts
    requires cp.stage.AwaitingSynthesis? && cp.execution.AwaitingSynthesis?
    requires cp.artifacts == map[ResearchPacket := Sha256(rd.artifacts[ResearchPacket])]
    ensures Admits(rd, cp)
  {
    assert Business(cp.artifacts).Keys == {ResearchPacket};
    assert TelemetryNames(cp.artifacts) == {};
    assert SynthesisStep(rd, cp) by { hide FreezeMarker, QualityEvaluation, OperationalPublication, PreparationFailure; }
  }

  lemma AttemptIsAdmitted(rd: RunDir, staged: Checkpoint, cp: Checkpoint)
    requires rd.checkpoints != [] && Last(rd.checkpoints) == staged && staged.stage.AwaitingSynthesis?
    requires ReducedReport !in staged.artifacts && Attempts(rd.checkpoints) == []
    requires Continues(rd, cp) && ResearchPacket in rd.artifacts && ResearchPacket in cp.artifacts
    requires StoredPacketHash(rd.checkpoints) == Some(Sha256(rd.artifacts[ResearchPacket]))
    requires cp.stage.Validating? && cp.execution.Validating?
    requires AttemptArtifacts(cp.artifacts) && TelemetryNames(cp.artifacts) == {}
    ensures Admits(rd, cp)
  {
    hide AttemptArtifacts;
    assert SynthesisStep(rd, cp);
  }

  lemma FailureIsAdmitted(rd: RunDir, cp: Checkpoint)
    requires Continues(rd, cp) && Last(rd.checkpoints).stage.Validating? && Last(rd.checkpoints).quality.Fail?
    requires OperationalReason !in Last(rd.checkpoints).artifacts
    requires MissedWindowPacket(rd) && cp.stage.PreparationFailed? && cp.execution == Last(rd.checkpoints).execution
    requires cp.artifacts == Last(rd.checkpoints).artifacts[OperationalReason := Sha256(CodeBytes(MissedWindowCode))]
    ensures Admits(rd, cp)
  {
    assert PreparationFailure(rd, cp);
  }

  lemma OperationalIsAdmitted(rd: RunDir, cp: Checkpoint, telemetry: Telemetry)
    requires Continues(rd, cp) && Last(rd.checkpoints).stage.PreparationFailed? && Last(rd.checkpoints).quality.Fail?
    requires MissedWindowPacket(rd) && cp.stage.Published? && cp.execution.Published?
    requires OperationalReason in Last(rd.checkpoints).artifacts
    requires cp.artifacts == Business(Last(rd.checkpoints).artifacts)[TelemetryArtifact(telemetry).0 := TelemetryDigest(telemetry)]
    ensures Admits(rd, cp)
  {
    var previous := Last(rd.checkpoints);
    TelemetryBound(previous, telemetry);
    assert Business(cp.artifacts) == Business(previous.artifacts);
    assert TelemetryNames(cp.artifacts) == {TelemetryArtifact(telemetry).0};
    assert OperationalReason in Business(previous.artifacts).Keys;
    assert OperationalPublication(rd, cp);
  }

  lemma WitnessIsStaged(e: Engine, packet: Packet, draft: Draft, telemetry: Telemetry)
    requires Attemptable(e, packet, draft) && packet.run.quality.Fail?
    ensures var artifacts, cps := WitnessArtifacts(e, packet, draft, telemetry), WitnessCheckpoints(e, packet, draft, telemetry);
            && (forall i :: 0 <= i < 6 ==> StagedMatches(artifacts, cps[i].artifacts))
            && artifacts[ResearchPacket] == PacketBytes(packet)
            && artifacts[OperationalReason] == CodeBytes(MissedWindowCode)
  {
    hide Validate;
  }

  /** What the steps of the witness look like, without their artifact maps. */
  lemma WitnessHashes(cps: seq<Checkpoint>, packetSha: Digest)
    requires |cps| == 6
    requires forall i :: 0 <= i < 2 ==> ResearchPacket !in cps[i].artifacts
    requires forall i :: 0 <= i < 3 ==> !cps[i].stage.Validating?
    requires forall i :: 2 <= i < 5 ==> ResearchPacket in cps[i].artifacts && cps[i].artifacts[ResearchPacket] == packetSha
    ensures forall i :: 3 <= i <= 5 ==> StoredPacketHash(cps[..i]) == Some(packetSha)
    ensures StoredPacketHash(cps[..2]).None?
    ensures Attempts(cps[..3]) == []
  {
    forall i | 0 <= i < 5 ensures cps[..i + 1] == cps[..i] + [cps[i]] {
    }
    PacketHashAppend(cps[..0], cps[0]);
    PacketHashAppend(cps[..1], cps[1]);
    PacketHashAppend(cps[..2], cps[2]);
    PacketHashAppend(cps[..3], cps[3]);
    PacketHashAppend(cps[..4], cps[4]);
    AttemptsAppend(cps[..0], cps[0]);
    AttemptsAppend(cps[..1], cps[1]);
    AttemptsAppend(cps[..2], cps[2]);
  }

  /** Six checkpoints at one instant with FAIL quality, naming only what is staged. */
  predicate FailTimes(rd: RunDir) {
    && |rd.checkpoints| == 6
    && forall i :: 0 <= i < 6 ==>
         && StagedMatches(rd.artifacts, rd.checkpoints[i].artifacts)
         && rd.checkpoints[i].writtenAt == rd.checkpoints[0].writtenAt
         && (i > 0 ==> rd.checkpoints[i].cutoff == rd.freeze && !rd.checkpoints[i].resumable)
         && rd.checkpoints[i].quality.Fail? && rd.checkpoints[i].delivery == rd.checkpoints[0].delivery
  }

  /** A run that failed before its freeze, was attempted once all the same, then missed its window. */
  predicate FailShape(rd: RunDir, telemetry: Telemetry) {
    && rd.context.Some? && rd.freeze.Some?
    && FailTimes(rd)
    && ResearchPacket in rd.artifacts
    && OperationalReason in rd.artifacts && rd.artifacts[OperationalReason] == CodeBytes(MissedWindowCode)
    && var cps, sha := rd.checkpoints, Sha256(rd.artifacts[ResearchPacket]);
    && cps[0].stage.ConfigFrozen? && cps[0].artifacts == map[]
    && cps[1] == FrozenMarker(Before(rd, 1), cps[0].revision, rd.freeze.value) && cps[1].writtenAt == rd.freeze.value
    && cps[2].stage.AwaitingSynthesis? && cps[2].execution.AwaitingSynthesis?
    && cps[2].artifacts == map[ResearchPacket := sha]
    && cps[3].stage.Validating? && cps[3].execution.Validating?
    && ResearchPacket in cps[3].artifacts && OperationalReason !in cps[3].artifacts
    && AttemptArtifacts(cps[3].artifacts) && TelemetryNames(cps[3].artifacts) == {}
    && cps[4].stage.PreparationFailed? && cps[4].execution == cps[3].execution
    && cps[4].artifacts == cps[3].artifacts[OperationalReason := Sha256(CodeBytes(MissedWindowCode))]
    && cps[5].stage.Published? && cps[5].execution.Published?
    && cps[5].artifacts
       == Business(cps[4].artifacts)[TelemetryArtifact(telemetry).0 := TelemetryDigest(telemetry)]
  }

  function Before(rd: RunDir, i: nat): RunDir
    requires i <= |rd.checkpoints|
  {
    rd.(checkpoints := rd.checkpoints[..i])
  }

  lemma FailShapeContinues(rd: RunDir, telemetry: Telemetry, i: nat)
    requires FailShape(rd, telemetry) && 2 <= i < 6
    ensures Continues(Before(rd, i), rd.checkpoints[i])
    ensures i >= 3 ==> StoredPacketHash(rd.checkpoints[..i]) == Some(Sha256(rd.artifacts[ResearchPacket]))
    ensures StoredPacketHash(rd.checkpoints[..2]).None?
    ensures Attempts(rd.checkpoints[..3]) == []
  {
    hide AttemptArtifacts, Business, TelemetryNames, StoredPacketHash, Attempts;
    WitnessHashes(rd.checkpoints, Sha256(rd.artifacts[ResearchPacket]));
  }

  /** The start is admitted before the freeze, and the marker once the cutoff is recorded. */
  lemma FailShapeStarts(rd: RunDir, telemetry: Telemetry)
    requires FailShape(rd, telemetry)
    ensures Admits(Before(rd, 0).(freeze := None), rd.checkpoints[0])
    ensures Admits(Before(rd, 1), rd.checkpoints[1])
  {
    hide StagedMatches, AttemptArtifacts, Business, TelemetryNames, QualityEvaluation, SynthesisStep,
         OperationalPublication, PreparationFailure;
    assert FreezeMarker(Before(rd, 1), rd.checkpoints[1]);
  }

  lemma FailShapeAwaits(rd: RunDir, telemetry: Telemetry)
    requires FailShape(rd, telemetry)
    ensures Admits(Before(rd, 2), rd.checkpoints[2])
  {
    hide Admits, StagedMatches, AttemptArtifacts, Business, TelemetryNames, Continues;
    FailShapeContinues(rd, telemetry, 2);
    AwaitingIsAdmitted(Before(rd, 2), rd.checkpoints[1], rd.checkpoints[2]);
  }

  lemma FailShapeAttempts(rd: RunDir, telemetry: Telemetry)
    requires FailShape(rd, telemetry)
    ensures Admits(Before(rd, 3), rd.checkpoints[3])
  {
    hide Admits, StagedMatches, AttemptArtifacts, Business, TelemetryNames, Continues;
    FailShapeContinues(rd, telemetry, 3);
    AttemptIsAdmitted(Before(rd, 3), rd.checkpoints[2], rd.checkpoints[3]);
  }

  lemma FailShapeEnds(rd: RunDir, telemetry: Telemetry)
    requires FailShape(rd, telemetry)
    ensures Admits(Before(rd, 4), rd.checkpoints[4]) && Admits(Before(rd, 5), rd.checkpoints[5])
  {
    hide Admits, StagedMatches, AttemptArtifacts, Business, TelemetryNames, FreezeMarker, Continues;
    FailShapeContinues(rd, telemetry, 4);
    FailShapeContinues(rd, telemetry, 5);
    FailureIsAdmitted(Before(rd, 4), rd.checkpoints[4]);
    OperationalIsAdmitted(Before(rd, 5), rd.checkpoints[5], telemetry);
  }

  lemma WitnessIsShaped(e: Engine, packet: Packet, draft: Draft, telemetry: Telemetry)
    requires Attemptable(e, packet, draft) && packet.run.quality.Fail?
    ensures FailShape(WitnessStore(e, packet, draft, telemetry).staging[packet.run.revision], telemetry)
  {
    hide FailTimes, StagedMatches, AttemptArtifacts, Validate, Business, TelemetryNames, DraftNames, ReportNames;
    var cps := WitnessCheckpoints(e, packet, draft, telemetry);
    WitnessTimes(e, packet, draft, telemetry);
    AttemptNames(packet, [cps[0], cps[1], cps[2]], Sha256(DraftBytes(draft)),
                 Sha256(ReportBytes(Validate(e, packet, draft, 1))), packet.run.cutoff.value);
  }

  lemma WitnessTimes(e: Engine, packet: Packet, draft: Draft, telemetry: Telemetry)
    requires Attemptable(e, packet, draft) && packet.run.quality.Fail?
    ensures FailTimes(WitnessStore(e, packet, draft, telemetry).staging[packet.run.revision])
  {
    hide StagedMatches, WitnessArtifacts, Validate;
    WitnessIsStaged(e, packet, draft, telemetry);
  }

  /** A run of this shape is reached by appending its checkpoints once everything is staged. */
  lemma FailShapeIsReached(rev: nat, rd: RunDir, telemetry: Telemetry)
    requires FailShape(rd, telemetry) && rd.context.value.revision == rev
    requires forall i :: 0 <= i < 6 ==> rd.checkpoints[i].revision == rev
    requires rd.context.value.invokedAt <= rd.freeze.value
    requires Reachable(Alone(rev, Before(rd, 0).(freeze := None)))
    ensures Reachable(Alone(rev, rd))
  {
    FailShapeStarts(rd, telemetry);
    FailShapeAwaits(rd, telemetry);
    FailShapeAttempts(rd, telemetry);
    FailShapeEnds(rd, telemetry);
    FailShapeSteps(rd, telemetry);
    var cutoff := rd.freeze.value;
    hide FailShape, Admits, Reachable, Alone, Before, Append;
    ReachAppend(rev, Before(rd, 0).(freeze := None), rd.checkpoints[0]);
    ReachFreeze(rev, Before(rd, 1).(freeze := None), cutoff);
    ReachAppend(rev, Before(rd, 2), rd.checkpoints[2]);
    ReachAppend(rev, Before(rd, 3), rd.checkpoints[3]);
    ReachAppend(rev, Before(rd, 4), rd.checkpoints[4]);
    ReachAppend(rev, Before(rd, 5), rd.checkpoints[5]);
  }

  lemma FailShapeSteps(rd: RunDir, telemetry: Telemetry)
    requires FailShape(rd, telemetry)
    ensures |rd.checkpoints| == 6 && rd.context.Some? && rd.freeze.Some?
    ensures Append(Before(rd, 0).(freeze := None), rd.checkpoints[0]) == Before(rd, 1).(freeze := None)
    ensures var early := Before(rd, 1).(freeze := None);
            && early.context == rd.context && early.freeze.None? && early.checkpoints != []
            && Last(early.checkpoints).writtenAt <= rd.freeze.value
            && Append(early.(freeze := rd.freeze), FrozenMarker(early, rd.checkpoints[0].revision, rd.freeze.value))
               == Before(rd, 2)
            && early.(freeze := Some(rd.freeze.value)) == early.(freeze := rd.freeze)
    ensures forall i {:trigger Before(rd, i)} :: 2 <= i < 6 ==>
              Append(Before(rd, i), rd.checkpoints[i]) == Before(rd, i + 1) && Before(rd, i).context == rd.context
    ensures Before(rd, 0).context == rd.context && Before(rd, 6) == rd
  {
    hide StagedMatches, AttemptArtifacts, Business, TelemetryNames;
    forall i | 0 <= i < 6 ensures rd.checkpoints[..i + 1] == rd.checkpoints[..i] + [rd.checkpoints[i]] {
    }
    assert rd.checkpoints[..6] == rd.checkpoints;
  }

  lemma WitnessIsReached(e: Engine, packet: Packet, draft: Draft, telemetry: Telemetry)
    requires Attemptable(e, packet, draft) && packet.run.quality.Fail?
    ensures FailShape(WitnessStore(e, packet, draft, telemetry).staging[packet.run.revision], telemetry)
    ensures Reachable(WitnessStore(e, packet, draft, telemetry))
  {
    var rev := packet.run.revision;
    var rd := WitnessStore(e, packet, draft, telemetry).staging[rev];
    WitnessIsShaped(e, packet, draft, telemetry);
    ReachWitnessArtifacts(e, packet, draft, telemetry);
    assert Before(rd, 0).(freeze := None) == Bare(packet).(artifacts := WitnessArtifacts(e, packet, draft, telemetry));
    assert WitnessStore(e, packet, draft, telemetry) == Alone(rev, rd);
    WitnessRevisions(e, packet, draft, telemetry);
    hide FailShape, Reachable, WitnessArtifacts, WitnessCheckpoints, Alone, Validate, Before, Bare;
    FailShapeIsReached(rev, rd, telemetry);
  }

  lemma WitnessRevisions(e: Engine, packet: Packet, draft: Draft, telemetry: Telemetry)
    requires packet.run.cutoff.Some?
    ensures var cps := WitnessCheckpoints(e, packet, draft, telemetry);
            |cps| == 6 && forall i :: 0 <= i < 6 ==> cps[i].revision == packet.run.revision
  {
    hide Validate, Business, TelemetryNames;
  }

  /** The run as it is created. */
  function Bare(packet: Packet): RunDir {
    EmptyDir.(context := Some(NewContext(packet.run, packet.run.revision)))
  }

  lemma ReachWitnessArtifacts(e: Engine, packet: Packet, draft: Draft, telemetry: Telemetry)
    ensures Reachable(Alone(packet.run.revision,
                            Bare(packet).(artifacts := WitnessArtifacts(e, packet, draft, telemetry))))
  {
    hide Reachable, Alone, Validate;
    var rev, report := packet.run.revision, Validate(e, packet, draft, 1);
    var rd0 := Bare(packet);
    ReachCreate(NewContext(packet.run, rev));
    ReachStage(rev, rd0, ResearchPacket, PacketBytes(packet));
    var rd1 := WithArtifact(rd0, ResearchPacket, PacketBytes(packet));
    var draftName := BriefDraft(Hex(Sha256(DraftBytes(draft))));
    var reportName := ValidationReport(Hex(Sha256(ReportBytes(report))));
    ReachStage(rev, rd1, draftName, DraftBytes(draft));
    var rd2 := WithArtifact(rd1, draftName, DraftBytes(draft));
    ReachStage(rev, rd2, reportName, ReportBytes(report));
    var rd3 := WithArtifact(rd2, reportName, ReportBytes(report));
    ReachStage(rev, rd3, OperationalReason, CodeBytes(MissedWindowCode));
    var rd4 := WithArtifact(rd3, OperationalReason, CodeBytes(MissedWindowCode));
    ReachStage(rev, rd4, TelemetryArtifact(telemetry).0, TelemetryArtifact(telemetry).1);
    assert WithArtifact(rd4, TelemetryArtifact(telemetry).0, TelemetryArtifact(telemetry).1).artifacts
           == WitnessArtifacts(e, packet, draft, telemetry);
  }

  /** One final checkpoint that both publishers would finish, each with its own report. */
  ghost predicate EndsTwoWays(e: Engine, s: DateStore, packet: Packet, run: RunContext, at: Instant, telemetry: Telemetry) {
    && run.revision == packet.run.revision
    && EndedByFailure(s, packet.run.revision)
    && PlanOperational(e, s, run, MissedWindowCode, at, true, telemetry).Finish?
    && PlanSynthesized(e, s, packet, at, telemetry).Finish?
  }

  lemma WitnessAttempts(rd: RunDir, telemetry: Telemetry)
    requires FailShape(rd, telemetry)
    ensures Attempts(rd.checkpoints) == [rd.checkpoints[3]]
  {
    hide AttemptArtifacts, Business, TelemetryNames, FreezeMarker, StagedMatches;
    FailShapeContinues(rd, telemetry, 3);
    var cps := rd.checkpoints;
    AttemptsAppend(cps[..3], cps[3]);
    AttemptsAppend(cps[..4], cps[4]);
    AttemptsAppend(cps[..5], cps[5]);
    assert cps[..3] + [cps[3]] == cps[..4];
    assert cps[..4] + [cps[4]] == cps[..5];
    assert cps[..5] + [cps[5]] == cps;
  }

  lemma WitnessRecorded(e: Engine, packet: Packet, draft: Draft, telemetry: Telemetry)
    requires Attemptable(e, packet, draft) && packet.run.quality.Fail?
    ensures var s := WitnessStore(e, packet, draft, telemetry);
            RecordedAttempt(s, s.staging[packet.run.revision].checkpoints[3])
            == Some((draft, Validate(e, packet, draft, 1)))
  {
    var s := WitnessStore(e, packet, draft, telemetry);
    var cps := s.staging[packet.run.revision].checkpoints;
    AttemptNames(packet, [cps[0], cps[1], cps[3]], Sha256(DraftBytes(draft)),
                 Sha256(ReportBytes(Validate(e, packet, draft, 1))), packet.run.cutoff.value);
    hide AttemptArtifacts, Business, TelemetryNames;
    assert TheName(DraftNames(cps[3].artifacts)) == BriefDraft(Hex(Sha256(DraftBytes(draft))));
  }

  lemma FailShapeFinal(rd: RunDir, telemetry: Telemetry)
    requires FailShape(rd, telemetry)
    ensures var cp := rd.checkpoints[5];
            && ResearchPacket in cp.artifacts && cp.artifacts[ResearchPacket] == Sha256(rd.artifacts[ResearchPacket])
            && OperationalReason in cp.artifacts
            && cp.artifacts[OperationalReason] == Sha256(CodeBytes(MissedWindowCode))
            && TelemetryNames(cp.artifacts) == {TelemetryArtifact(telemetry).0}
            && TelemetryArtifact(telemetry).0 in rd.artifacts
            && cp.artifacts[TelemetryArtifact(telemetry).0] == TelemetryDigest(telemetry)
            && StoredPacketHash(rd.checkpoints) == Some(Sha256(rd.artifacts[ResearchPacket]))
  {
    hide AttemptArtifacts, FreezeMarker;
    var cp := rd.checkpoints[5];
    assert forall n :: n in rd.checkpoints[3].artifacts && n.TelemetryName? ==>
             n in TelemetryNames(rd.checkpoints[3].artifacts);
    assert Business(rd.checkpoints[4].artifacts) == rd.checkpoints[4].artifacts;
    assert ResearchPacket in rd.checkpoints[4].artifacts;
    assert TelemetryNames(cp.artifacts) == {TelemetryArtifact(telemetry).0};
  }

  lemma WitnessEndsTwoWays(e: Engine, packet: Packet, draft: Draft, telemetry: Telemetry)
    requires Attemptable(e, packet, draft) && packet.run.quality.Fail?
    ensures EndsTwoWays(e, WitnessStore(e, packet, draft, telemetry), packet, packet.run, packet.run.cutoff.value, telemetry)
  {
    var s := WitnessStore(e, packet, draft, telemetry);
    var rd := s.staging[packet.run.revision];
    WitnessIsReached(e, packet, draft, telemetry);
    WitnessIsStaged(e, packet, draft, telemetry);
    FailShapeFinal(rd, telemetry);
    WitnessAttempts(rd, telemetry);
    WitnessRecorded(e, packet, draft, telemetry);
    WitnessDecides(e, s, packet, draft, telemetry);
  }

  lemma WitnessDecides(e: Engine, s: DateStore, packet: Packet, draft: Draft, telemetry: Telemetry)
    requires Attemptable(e, packet, draft) && packet.run.quality.Fail?
    requires s == WitnessStore(e, packet, draft, telemetry) && Reachable(s)
    requires var rd := s.staging[packet.run.revision]; FailShape(rd, telemetry)
    requires Attempts(s.staging[packet.run.revision].checkpoints) == [s.staging[packet.run.revision].checkpoints[3]]
    requires RecordedAttempt(s, s.staging[packet.run.revision].checkpoints[3]) == Some((draft, Validate(e, packet, draft, 1)))
    ensures EndsTwoWays(e, s, packet, packet.run, packet.run.cutoff.value, telemetry)
  {
    WitnessEndsOperationally(e, s, packet, draft, telemetry);
    WitnessEndsSynthesized(e, s, packet, draft, telemetry);
    FailShapeFinal(s.staging[packet.run.revision], telemetry);
    hide Reachable, FailShape, PlanOperational, PlanSynthesized, WitnessArtifacts, StoredPacketHash;
  }

  lemma WitnessEndsOperationally(e: Engine, s: DateStore, packet: Packet, draft: Draft, telemetry: Telemetry)
    requires Attemptable(e, packet, draft) && packet.run.quality.Fail?
    requires s == WitnessStore(e, packet, draft, telemetry)
    requires var rd := s.staging[packet.run.revision]; FailShape(rd, telemetry)
    ensures PlanOperational(e, s, packet.run, MissedWindowCode, packet.run.cutoff.value, true, telemetry).Finish?
  {
    hide AttemptArtifacts, FreezeMarker, Attempts, StoredPacketHash, Validate;
    WitnessIsStaged(e, packet, draft, telemetry);
    FailShapeFinal(s.staging[packet.run.revision], telemetry);
    WitnessTelemetry(e, s, packet, draft, telemetry);
    assert OperationalReady(s, packet.run, MissedWindowCode, packet.run.cutoff.value);
  }

  lemma WitnessEndsSynthesized(e: Engine, s: DateStore, packet: Packet, draft: Draft, telemetry: Telemetry)
    requires Attemptable(e, packet, draft) && packet.run.quality.Fail?
    requires s == WitnessStore(e, packet, draft, telemetry)
    requires var rd := s.staging[packet.run.revision]; FailShape(rd, telemetry)
    requires Attempts(s.staging[packet.run.revision].checkpoints) == [s.staging[packet.run.revision].checkpoints[3]]
    requires RecordedAttempt(s, s.staging[packet.run.revision].checkpoints[3]) == Some((draft, Validate(e, packet, draft, 1)))
    ensures PlanSynthesized(e, s, packet, packet.run.cutoff.value, telemetry).Finish?
  {
    hide AttemptArtifacts, FreezeMarker, RecordedAttempt, Attempts, StoredPacketHash, DraftNames, ReportNames;
    WitnessIsStaged(e, packet, draft, telemetry);
    FailShapeFinal(s.staging[packet.run.revision], telemetry);
    WitnessTelemetry(e, s, packet, draft, telemetry);
    assert SynthesizedReady(s, packet, packet.run.cutoff.value);
  }

  lemma WitnessTelemetry(e: Engine, s: DateStore, packet: Packet, draft: Draft, telemetry: Telemetry)
    requires Attemptable(e, packet, draft) && packet.run.quality.Fail?
    requires s == WitnessStore(e, packet, draft, telemetry)
    requires var rd := s.staging[packet.run.revision]; FailShape(rd, telemetry)
    ensures CheckpointTelemetry(s, Last(s.staging[packet.run.revision].checkpoints)).Found?
  {
    hide AttemptArtifacts, FreezeMarker, Attempts, StoredPacketHash, Validate, WitnessCheckpoints;
    WitnessRevisions(e, packet, draft, telemetry);
    FailShapeFinal(s.staging[packet.run.revision], telemetry);
    assert TheName({TelemetryArtifact(telemetry).0}) == TelemetryArtifact(telemetry).0;
  }

  /**
   Two publishers can both finish one final checkpoint, an operational one, exactly when the
   packet's quality is FAIL; otherwise its quality alone sends them apart.
   */
  lemma EndingIsAmbiguousOnlyOnFail(e: Engine, packet: Packet, draft: Draft)
    requires Attemptable(e, packet, draft)
    ensures (exists s, run, at, telemetry :: EndsTwoWays(e, s, packet, run, at, telemetry))
            <==> packet.run.quality.Fail?
  {
    if packet.run.quality.Fail? {
      WitnessEndsTwoWays(e, packet, draft, Telemetry([]));
    }
  }
}
