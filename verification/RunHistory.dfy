/**
 Every history of the repository: any sequence of its operations by any callers, each one
 stopped at any of its writes. What a published identity, the latest pointer and a frozen
 run's checkpoints keep along all of them.
 */
module RunHistory {
  import opened RunTypes
  import opened RunStore

  datatype Op =
    | OpAllocate(invocation: Invocation, seed: RunContext, fault: Fault)
    | OpCreate(context: RunContext, fault: Fault)
    | OpStage(rev: nat, name: Name, payload: Payload, fault: Fault)
    | OpCheckpoint(rev: nat, cp: Checkpoint, fault: Fault)
    | OpCheckpointIf(rev: nat, cp: Checkpoint, expected: nat, fault: Fault)
    | OpFreeze(rev: nat, cutoff: Instant, fault: Fault)
    | OpPublish(bundle: Bundle, now: Instant, fault: Fault)
    | OpRecover(rev: nat, now: Instant, fault: Fault)

  function Apply(s: DateStore, op: Op): DateStore {
    match op
    case OpAllocate(invocation, seed, fault) => Allocate(s, invocation, seed, fault).0
    case OpCreate(context, fault) => Create(s, context, fault).0
    case OpStage(rev, name, payload, fault) => StageArtifact(s, rev, name, payload, fault).0
    case OpCheckpoint(rev, cp, fault) => AppendCheckpoint(s, rev, cp, fault).0
    case OpCheckpointIf(rev, cp, expected, fault) => AppendIfCurrent(s, rev, cp, expected, fault).0
    case OpFreeze(rev, cutoff, fault) => Freeze(s, rev, cutoff, fault).0
    case OpPublish(bundle, now, fault) => Publish(s, bundle, now, fault).0
    case OpRecover(rev, now, fault) => Recover(s, rev, now, fault).0
  }

  function Exec(s: DateStore, ops: seq<Op>): DateStore
    decreases ops
  {
    if ops == [] then s else Exec(Apply(s, ops[0]), ops[1..])
  }

  lemma {:induction false} ExecSplit(s: DateStore, first: seq<Op>, second: seq<Op>)
    ensures Exec(s, first + second) == Exec(Exec(s, first), second)
    decreases first
  {
    if first == [] {
      assert first + second == second;
    } else {
      assert (first + second)[1..] == first[1..] + second;
      ExecSplit(Apply(s, first[0]), first[1..], second);
    }
  }

  // ---- Reachable stores and undisturbed calls ----

  const NoRuns: DateStore := DateStore(map[], map[], map[], map[], None)

  /** Some sequence of repository calls leads here from an empty date. */
  ghost predicate Reachable(s: DateStore) {
    exists ops :: s == Exec(NoRuns, ops)
  }

  lemma ReachNext(s: DateStore, op: Op)
    requires Reachable(s)
    ensures Reachable(Apply(s, op))
  {
    hide Apply;
    var ops :| s == Exec(NoRuns, ops);
    ExecSplit(NoRuns, ops, [op]);
    assert Exec(s, [op]) == Exec(Apply(s, op), []);
  }

  lemma ReachStart()
    ensures Reachable(NoRuns)
  {
    assert NoRuns == Exec(NoRuns, []);
  }

  /** The store with another directory for one staged run. */
  function Put(s: DateStore, rev: nat, rd: RunDir): DateStore {
    s.(staging := s.staging[rev := rd])
  }

  function WithArtifact(rd: RunDir, name: Name, payload: Payload): RunDir {
    rd.(artifacts := rd.artifacts[name := payload])
  }

  lemma StageCalmly(s: DateStore, rev: nat, rd: RunDir, name: Name, payload: Payload, fault: Fault)
    requires fault.NoFault? && payload != RawBytes([])
    requires name in rd.artifacts ==> rd.artifacts[name] == payload
    ensures StageArtifact(Put(s, rev, rd), rev, name, payload, fault)
            == (Put(s, rev, WithArtifact(rd, name, payload)), Ok(Sha256(payload)))
  {
    var s1 := Put(s, rev, rd);
    assert name in rd.artifacts ==> rd.artifacts[name := payload] == rd.artifacts;
    assert s1.staging[rev := WithArtifact(rd, name, payload)] == s.staging[rev := WithArtifact(rd, name, payload)];
    assert s1.staging[rev := rd] == s1.staging;
  }

  lemma AppendCalmly(s: DateStore, rev: nat, rd: RunDir, cp: Checkpoint, fault: Fault)
    requires fault.NoFault? && cp.revision == rev && rd.context.Some? && Admits(rd, cp)
    ensures AppendCheckpoint(Put(s, rev, rd), rev, cp, fault) == (Put(s, rev, Append(rd, cp)), Ok(()))
    ensures AppendIfCurrent(Put(s, rev, rd), rev, cp, |rd.checkpoints|, fault) == (Put(s, rev, Append(rd, cp)), Ok(()))
  {
    hide Admits;
    assert Put(s, rev, rd).staging[rev := Append(rd, cp)] == s.staging[rev := Append(rd, cp)];
  }

  // ---- Publication identity ----

  /** No run is both staged and final; the latest pointer names an indexed run. */
  ghost predicate WellFormed(s: DateStore) {
    && s.staging.Keys !! s.finals.Keys
    && (s.latest.Some? ==> s.latest.value in s.index)
  }

  ghost predicate IndexGrows(s: DateStore, s': DateStore) {
    && (forall rev :: rev in s.index ==> rev in s'.index && s'.index[rev] == s.index[rev])
    && (s.latest.Some? ==> s'.latest.Some? && s.latest.value <= s'.latest.value)
  }

  lemma WritesKeepIdentity(s: DateStore, bundle: Bundle, now: Instant, n: nat)
    requires WellFormed(s) && Publishable(s, bundle)
    requires n >= 4 ==> !Conflicts(s, bundle)
    ensures WellFormed(AfterWrites(s, bundle, now, n))
    ensures IndexGrows(s, AfterWrites(s, bundle, now, n))
  {
    var s' := AfterWrites(s, bundle, now, n);
    if n < 3 { assert s'.staging.Keys == s.staging.Keys; }
    else { assert s'.staging.Keys == s.staging.Keys - {bundle.run.revision}; }
  }

  lemma PublishKeepsIdentity(s: DateStore, bundle: Bundle, now: Instant, fault: Fault)
    requires WellFormed(s)
    ensures WellFormed(Publish(s, bundle, now, fault).0)
    ensures IndexGrows(s, Publish(s, bundle, now, fault).0)
    ensures forall receipt :: Publish(s, bundle, now, fault).1 == Ok(receipt) ==>
              receipt.revision in Publish(s, bundle, now, fault).0.index
              && Publish(s, bundle, now, fault).0.index[receipt.revision] == receipt.entry
  {
    if Publishable(s, bundle) {
      hide Publishable, WellFormed, IndexGrows;
      var last := if Conflicts(s, bundle) then 3 else 5;
      var n := if fault.NoFault? || fault.writes > last then last else fault.writes;
      WritesKeepIdentity(s, bundle, now, n);
      if n >= 3 { QuarantineIdentity(s, AfterWrites(s, bundle, now, n), bundle.run.revision); }
    }
  }

  lemma QuarantineIdentity(s: DateStore, s': DateStore, rev: nat)
    requires WellFormed(s') && IndexGrows(s, s') && rev in s'.finals
    ensures WellFormed(Quarantine(s', rev)) && IndexGrows(s, Quarantine(s', rev))
  {
  }

  lemma CreateKeepsIdentity(s: DateStore, context: RunContext, fault: Fault)
    requires WellFormed(s)
    ensures WellFormed(Create(s, context, fault).0)
    ensures IndexGrows(s, Create(s, context, fault).0)
  {
  }

  /** At most the content of one staged directory changes. */
  ghost predicate LocalTo(s: DateStore, s': DateStore, rev: nat) {
    || s' == s
    || (rev in s.staging && rev in s'.staging && s' == s.(staging := s.staging[rev := s'.staging[rev]]))
  }

  lemma AppendIsLocal(s: DateStore, rev: nat, cp: Checkpoint, fault: Fault)
    ensures LocalTo(s, AppendCheckpoint(s, rev, cp, fault).0, rev)
  {
  }

  lemma FreezeIsLocal(s: DateStore, rev: nat, cutoff: Instant, fault: Fault)
    ensures LocalTo(s, Freeze(s, rev, cutoff, fault).0, rev)
  {
    hide Admits, LatestStatuses;
    if rev in s.staging && s.staging[rev].context.Some? {
      var s1 := s.(staging := s.staging[rev := s.staging[rev].(freeze := Some(cutoff))]);
      AppendIsLocal(s1, rev, FrozenMarker(s.staging[rev], rev, cutoff), fault.After(1));
    }
  }

  lemma LocalKeepsIdentity(s: DateStore, s': DateStore, rev: nat)
    requires WellFormed(s) && LocalTo(s, s', rev)
    ensures WellFormed(s') && IndexGrows(s, s')
  {
    assert s'.staging.Keys == s.staging.Keys;
  }

  lemma AllocateKeepsIdentity(s: DateStore, invocation: Invocation, seed: RunContext, fault: Fault)
    requires WellFormed(s)
    ensures WellFormed(Allocate(s, invocation, seed, fault).0)
    ensures IndexGrows(s, Allocate(s, invocation, seed, fault).0)
  {
    match invocation
    case Scheduled => CreateKeepsIdentity(s, NewContext(seed, 1), fault);
    case ManualFresh => CreateKeepsIdentity(s, NewContext(seed, NextRevision(s)), fault);
    case ManualRequested(rev) => CreateKeepsIdentity(s, NewContext(seed, rev), fault);
  }

  lemma RecoverKeepsIdentity(s: DateStore, rev: nat, now: Instant, fault: Fault)
    requires WellFormed(s)
    ensures WellFormed(Recover(s, rev, now, fault).0)
    ensures IndexGrows(s, Recover(s, rev, now, fault).0)
    ensures forall receipt :: Recover(s, rev, now, fault).1 == Ok(receipt) ==>
              receipt.revision in Recover(s, rev, now, fault).0.index
              && Recover(s, rev, now, fault).0.index[receipt.revision] == receipt.entry
  {
    if Recoverable(s, rev) {
      var s1 := Restage(s, rev);
      assert s1.staging.Keys == s.staging.Keys + {rev};
      assert WellFormed(s1);
      PublishKeepsIdentity(s1, s.orphans[rev].bundle.value, now, fault.After(1));
    }
  }

  lemma StepKeepsIdentity(s: DateStore, op: Op)
    requires WellFormed(s)
    ensures WellFormed(Apply(s, op))
    ensures IndexGrows(s, Apply(s, op))
  {
    match op
    case OpAllocate(invocation, seed, fault) => AllocateKeepsIdentity(s, invocation, seed, fault);
    case OpCreate(context, fault) => CreateKeepsIdentity(s, context, fault);
    case OpPublish(bundle, now, fault) => PublishKeepsIdentity(s, bundle, now, fault);
    case OpRecover(rev, now, fault) => RecoverKeepsIdentity(s, rev, now, fault);
    case OpStage(rev, name, payload, fault) => LocalKeepsIdentity(s, Apply(s, op), rev);
    case OpCheckpoint(rev, cp, fault) =>
      AppendIsLocal(s, rev, cp, fault);
      LocalKeepsIdentity(s, Apply(s, op), rev);
    case OpCheckpointIf(rev, cp, expected, fault) =>
      AppendIsLocal(s, rev, cp, fault);
      LocalKeepsIdentity(s, Apply(s, op), rev);
    case OpFreeze(rev, cutoff, fault) =>
      FreezeIsLocal(s, rev, cutoff, fault);
      LocalKeepsIdentity(s, Apply(s, op), rev);
  }

  /**
   Over every history with any failures, staging and final never coexist, index entries
   are append-only and the latest pointer's revision never decreases.
   */
  lemma {:induction false} IdentityIsImmutable(s: DateStore, ops: seq<Op>)
    requires WellFormed(s)
    ensures WellFormed(Exec(s, ops))
    ensures IndexGrows(s, Exec(s, ops))
    decreases ops
  {
    if ops != [] {
      StepKeepsIdentity(s, ops[0]);
      IdentityIsImmutable(Apply(s, ops[0]), ops[1..]);
    }
  }

  /** A receipt that some caller is given by, or can read after, the operation. */
  ghost predicate Sees(s: DateStore, op: Op, receipt: Receipt) {
    || GetReceipt(Apply(s, op), receipt.revision) == Some(receipt)
    || (op.OpPublish? && Publish(s, op.bundle, op.now, op.fault).1 == Ok(receipt))
    || (op.OpRecover? && Recover(s, op.rev, op.now, op.fault).1 == Ok(receipt))
  }

  lemma SeenIsIndexed(s: DateStore, op: Op, receipt: Receipt)
    requires WellFormed(s) && Sees(s, op, receipt)
    ensures receipt.revision in Apply(s, op).index
    ensures Apply(s, op).index[receipt.revision] == receipt.entry
  {
    if op.OpPublish? {
      PublishKeepsIdentity(s, op.bundle, op.now, op.fault);
    } else if op.OpRecover? {
      RecoverKeepsIdentity(s, op.rev, op.now, op.fault);
    }
  }

  lemma HistoryExtends(s: DateStore, ops: seq<Op>, i: nat, j: nat)
    requires WellFormed(s)
    requires i < j <= |ops|
    ensures WellFormed(Exec(s, ops[..i])) && WellFormed(Exec(s, ops[..j]))
    ensures IndexGrows(Apply(Exec(s, ops[..i]), ops[i]), Exec(s, ops[..j]))
  {
    IdentityIsImmutable(s, ops[..i]);
    IdentityIsImmutable(s, ops[..j]);
    var si := Exec(s, ops[..i]);
    var later := ops[i..j];
    assert ops[..j] == ops[..i] + later;
    ExecSplit(s, ops[..i], later);
    StepKeepsIdentity(si, ops[i]);
    IdentityIsImmutable(Apply(si, ops[i]), later[1..]);
  }

  /**
   All receipts ever seen for one run id agree, digests and publication time, through
   failed index updates, quarantine, recovery and reuse of a quarantined id.
   */
  lemma OneReceiptPerRun(s: DateStore, ops: seq<Op>, i: nat, j: nat, a: Receipt, b: Receipt)
    requires WellFormed(s)
    requires i <= j < |ops|
    requires Sees(Exec(s, ops[..i]), ops[i], a)
    requires Sees(Exec(s, ops[..j]), ops[j], b)
    requires a.revision == b.revision
    ensures a == b
  {
    hide Apply, Exec, Sees;
    IdentityIsImmutable(s, ops[..i]);
    IdentityIsImmutable(s, ops[..j]);
    SeenIsIndexed(Exec(s, ops[..i]), ops[i], a);
    SeenIsIndexed(Exec(s, ops[..j]), ops[j], b);
    if i < j {
      HistoryExtends(s, ops, i, j);
      StepKeepsIdentity(Exec(s, ops[..j]), ops[j]);
    }
  }

  /** Whatever a reader gets for one run id, at any two times, is the same report and bundle. */
  lemma PublishedContentIsImmutable(s: DateStore, ops: seq<Op>, rev: nat)
    requires WellFormed(s)
    requires GetPublished(s, rev).Some? && GetPublished(Exec(s, ops), rev).Some?
    ensures GetPublished(Exec(s, ops), rev) == GetPublished(s, rev)
    ensures GetReceipt(Exec(s, ops), rev) == GetReceipt(s, rev)
  {
    IdentityIsImmutable(s, ops);
    var (report, bundle) := GetPublished(s, rev).value;
    var (report', bundle') := GetPublished(Exec(s, ops), rev).value;
    assert Sha256(TextBytes(report)) == Sha256(TextBytes(report'));
    assert Sha256(BundleBytes(bundle)) == Sha256(BundleBytes(bundle'));
  }

  /** The latest run a reader is given is visible, and along every history it never goes back to a lower one. */
  lemma LatestNeverGoesBack(s: DateStore, ops: seq<Op>)
    requires WellFormed(s)
    ensures var before, after := GetLatest(s), GetLatest(Exec(s, ops));
            && (after.Some? ==> GetReceipt(Exec(s, ops), after.value).Some?)
            && (before.Some? && after.Some? ==> before.value <= after.value)
  {
    hide Exec;
    IdentityIsImmutable(s, ops);
  }

  /**
   A publication that returns makes its run visible, and the latest run is then the greatest
   indexed one: this run, or one above it, or none while that one is not visible.
   */
  lemma PublishedIsLatest(s: DateStore, bundle: Bundle, now: Instant, fault: Fault)
    requires WellFormed(s) && Publish(s, bundle, now, fault).1.Ok?
    ensures var s', rev := Publish(s, bundle, now, fault).0, bundle.run.revision;
            && GetPublished(s', rev) == Some((bundle.markdown, bundle))
            && s'.index != map[]
            && var top := MaxKey(s'.index);
            && rev <= top
            && GetLatest(s') == (if GetReceipt(s', top).Some? && Load(s', top).Some? then Some(top) else None)
            && (top == rev ==> GetLatest(s') == Some(rev))
  {
    PublishKeepsIdentity(s, bundle, now, fault);
    var s', rev := Publish(s, bundle, now, fault).0, bundle.run.revision;
    assert rev in s'.index && s'.latest == Some(MaxKey(s'.index));
    assert rev in s'.finals && s'.finals[rev].context.Some?;
    var top := MaxKey(s'.index);
    hide Publish, Publishable;
    if GetReceipt(s', top).Some? { assert top !in s'.staging; }
  }

  // ---- The checkpoints of one run directory ----

  /** The directory a run id currently names. */
  function Current(s: DateStore, rev: nat): Option<RunDir> {
    if rev in s.staging then Some(s.staging[rev])
    else if rev in s.finals then Some(s.finals[rev])
    else if rev in s.orphans then Some(s.orphans[rev])
    else None
  }

  /** The only way a run id comes to name another directory: its quarantined one is replaced. */
  ghost predicate Replaces(s: DateStore, op: Op, rev: nat) {
    && rev !in s.staging
    && rev !in s.finals
    && rev in Apply(s, op).staging
    && (op.OpCreate? || op.OpAllocate?)
  }

  ghost predicate NeverReplaced(s: DateStore, ops: seq<Op>, rev: nat)
    decreases ops
  {
    ops != [] ==> !Replaces(s, ops[0], rev) && NeverReplaced(Apply(s, ops[0]), ops[1..], rev)
  }

  /** What admission guarantees of the checkpoint at `i`, given a cutoff. */
  ghost predicate Sound(rd: RunDir, i: nat)
    requires i < |rd.checkpoints|
  {
    var cp := rd.checkpoints[i];
    && cp.cutoff == rd.freeze
    && (i > 0 ==> rd.checkpoints[i - 1].writtenAt <= cp.writtenAt)
    && StagedMatches(rd.artifacts, cp.artifacts)
    && (cp.stage.Validating? && AttemptArtifacts(cp.artifacts) ==> |Attempts(rd.checkpoints[..i])| < 3)
    && (cp.stage.Published? ==> i > 0 && PublishedFrom(rd.checkpoints[i - 1], cp))
    && (i > 0 ==> StageFollows(rd.checkpoints[i - 1], cp))
  }

  /**
   The course of a frozen run, read off two neighbouring checkpoints: which stage may follow which,
   that delivery never changes, that quality changes only where it is evaluated or preparation gives
   up, and what each stage names.
   */
  ghost predicate StageFollows(previous: Checkpoint, cp: Checkpoint) {
    && cp.delivery == previous.delivery && !cp.resumable
    && (cp.quality == previous.quality || cp.stage.QualityEvaluated? || (cp.stage.PreparationFailed? && cp.quality.Fail?))
    && (cp.stage.PreparationFailed? || TelemetryNamed(cp.artifacts))
    && match cp.stage
       case EvidenceFrozen => cp.execution == previous.execution && cp.artifacts == map[] && Some(cp.writtenAt) == cp.cutoff
       case QualityEvaluated =>
         && previous.stage.EvidenceFrozen? && cp.execution.Analyzing?
         && Business(cp.artifacts).Keys == {MarketDataCollection, DataQuality}
       case AwaitingSynthesis =>
         && (previous.stage.EvidenceFrozen? || (previous.stage.QualityEvaluated? && !cp.quality.Fail?))
         && cp.execution.AwaitingSynthesis? && PacketOnly(Business(cp.artifacts).Keys)
       case Validating =>
         && (previous.stage.AwaitingSynthesis? || previous.stage.Validating?) && cp.execution.Validating?
         && (PacketOnly(Business(cp.artifacts).Keys) || AttemptArtifacts(cp.artifacts))
         && FallbackKept(previous, cp)
       case Published => cp.execution.Published? && (FallbackKept(previous, cp) || AddsOperationalReason(previous, cp))
       case PreparationFailed =>
         && (previous.stage.EvidenceFrozen? || previous.stage.QualityEvaluated? || previous.stage.AwaitingSynthesis?
             || previous.stage.Validating?)
         && cp.execution == previous.execution && cp.quality.Fail?
         && OperationalReason in cp.artifacts
         && cp.artifacts == previous.artifacts[OperationalReason := cp.artifacts[OperationalReason]]
       case _ => false
  }

  /** A fallback once named stays named, with the same bytes. */
  predicate FallbackKept(previous: Checkpoint, cp: Checkpoint) {
    ReducedReport in previous.artifacts ==>
      ReducedReport in cp.artifacts && cp.artifacts[ReducedReport] == previous.artifacts[ReducedReport]
  }

  /**
   A final checkpoint keeps its predecessor's statuses of quality and delivery and its business
   artifacts. A synthesized one adds nothing to a validated attempt; a reduced one adds its
   reason to a synthesis stage that holds the fallback; an operational one adds its reason to
   a FAIL stage before synthesis.
   */
  ghost predicate PublishedFrom(previous: Checkpoint, final: Checkpoint) {
    && final.quality == previous.quality && final.delivery == previous.delivery
    && (KeepsAttempt(previous, final) || AddsReducedReason(previous, final) || AddsOperationalReason(previous, final))
  }

  predicate KeepsAttempt(previous: Checkpoint, final: Checkpoint) {
    previous.stage.Validating? && Business(final.artifacts) == Business(previous.artifacts)
  }

  predicate AddsReducedReason(previous: Checkpoint, final: Checkpoint) {
    var before, after := Business(previous.artifacts), Business(final.artifacts);
    && (previous.stage.AwaitingSynthesis? || previous.stage.Validating?)
    && ReducedReport in before
    && ReducedReasonName in after
    && after == before[ReducedReasonName := after[ReducedReasonName]]
  }

  predicate AddsOperationalReason(previous: Checkpoint, final: Checkpoint) {
    var before, after := Business(previous.artifacts), Business(final.artifacts);
    && PreSynthesis(previous.stage)
    && previous.quality.Fail? && final.quality.Fail?
    && OperationalReason in after
    && after == before[OperationalReason := after[OperationalReason]]
  }

  /** Published strictly after the cutoff. */
  ghost predicate Terminal(rd: RunDir, i: nat)
    requires i < |rd.checkpoints|
  {
    rd.checkpoints[i].stage.Published? && rd.freeze.Some? && rd.checkpoints[i].writtenAt > rd.freeze.value
  }

  ghost predicate DirLater(a: RunDir, b: RunDir) {
    && (a.context.Some? ==> b.context == a.context)
    && a.checkpoints <= b.checkpoints
    && (a.freeze.Some? ==> b.freeze == a.freeze)
    && (forall n :: n in a.artifacts ==> n in b.artifacts && b.artifacts[n] == a.artifacts[n])
    && (a.freeze.Some? ==>
          && (forall i :: |a.checkpoints| <= i < |b.checkpoints| ==> Sound(b, i))
          && (forall i :: 0 <= i && |a.checkpoints| - 1 <= i < |b.checkpoints| - 1 ==> !Terminal(b, i)))
  }

  lemma DirLaterTransitive(a: RunDir, b: RunDir, c: RunDir)
    requires DirLater(a, b) && DirLater(b, c)
    ensures DirLater(a, c)
  {
    if a.freeze.Some? {
      forall i | |a.checkpoints| <= i < |c.checkpoints| ensures Sound(c, i) {
        if i < |b.checkpoints| {
          assert Sound(b, i);
          assert b.checkpoints[i] == c.checkpoints[i];
          assert b.checkpoints[..i] == c.checkpoints[..i];
        }
      }
      forall i | 0 <= i && |a.checkpoints| - 1 <= i < |c.checkpoints| - 1 ensures !Terminal(c, i) {
        if i < |b.checkpoints| - 1 {
          assert !Terminal(b, i);
          assert b.checkpoints[i] == c.checkpoints[i];
        }
      }
    }
  }

  lemma KeysAndKeeps(previous: map<Name, Digest>, final: map<Name, Digest>, added: Name)
    requires Business(final).Keys == Business(previous).Keys + {added}
    requires Keeps(Business(final), Business(previous))
    ensures Business(final) == Business(previous)[added := Business(final)[added]]
  {
    assert added in Business(final).Keys;
    var after, before := Business(final), Business(previous);
    var rebuilt := before[added := after[added]];
    forall n | n in after ensures n in rebuilt && rebuilt[n] == after[n] {
      assert n in after.Keys;
      if n != added { assert n in before.Keys; }
    }
    forall n | n in rebuilt ensures n in after {
      assert n in after.Keys;
    }
  }

  /**
   The admission rule of a PUBLISHED checkpoint, read off its artifacts: one of the three
   publishers' own endings. Before the freeze only the operational one is admitted, and a
   PUBLISHED checkpoint without FAIL quality only ever keeps an attempt or adds the reduced reason.
   */
  lemma AdmittedPublication(rd: RunDir, cp: Checkpoint)
    requires rd.context.Some? && Admits(rd, cp) && cp.stage.Published?
    ensures rd.checkpoints != []
    ensures PublishedFrom(Last(rd.checkpoints), cp)
    ensures rd.freeze.None? ==> AddsOperationalReason(Last(rd.checkpoints), cp)
    ensures !cp.quality.Fail? ==> KeepsAttempt(Last(rd.checkpoints), cp) || AddsReducedReason(Last(rd.checkpoints), cp)
  {
    hide FreezeMarker, QualityEvaluation, PreparationFailure;
    if OperationalPublication(rd, cp) {
      KeysAndKeeps(Last(rd.checkpoints).artifacts, cp.artifacts, OperationalReason);
    } else {
      assert SynthesisStep(rd, cp) by { PublishedIsNoOther(rd, cp); }
      if ReducedPublication(rd, cp) {
        KeysAndKeeps(Last(rd.checkpoints).artifacts, cp.artifacts, ReducedReasonName);
        assert ReducedReport in Business(Last(rd.checkpoints).artifacts);
      } else {
        assert SynthesizedPublication(rd, cp);
        assert Business(cp.artifacts) == Business(Last(rd.checkpoints).artifacts);
      }
    }
  }

  lemma PublishedIsNoOther(rd: RunDir, cp: Checkpoint)
    requires rd.context.Some? && cp.stage.Published?
    ensures !FreezeMarker(rd, cp) && !QualityEvaluation(rd, cp) && !PreparationFailure(rd, cp)
  {
  }

  /** Once a packet is frozen or staged, giving up is admitted for a missed window only, and only of that packet. */
  lemma PacketEndsOnlyMissed(rd: RunDir, cp: Checkpoint)
    requires rd.context.Some? && Admits(rd, cp) && HasPacket(rd) && rd.checkpoints != []
    requires (cp.stage.PreparationFailed? && rd.freeze.Some?) || (cp.stage.Published? && PreSynthesis(Last(rd.checkpoints).stage))
    ensures OperationalReason in rd.artifacts && rd.artifacts[OperationalReason] == CodeBytes(MissedWindowCode)
    ensures ResearchPacket in rd.artifacts
    ensures StoredPacketHash(rd.checkpoints) == Some(Sha256(rd.artifacts[ResearchPacket]))
  {
    hide StoredPacketHash, Attempts, StagedMatches, LatestAt, Business, AttemptArtifacts, TelemetryNamed;
    if cp.stage.Published? { PublishedIsNoOther(rd, cp); }
  }

  /** After a final checkpoint nothing is admitted but a freeze marker of the very same instant. */
  lemma AfterPublished(rd: RunDir, cp: Checkpoint)
    requires rd.context.Some? && rd.freeze.Some?
    requires rd.checkpoints != [] && Last(rd.checkpoints).stage.Published?
    ensures Admits(rd, cp) <==>
              FreezeMarker(rd, cp) && cp.cutoff == rd.freeze
              && Last(rd.checkpoints).writtenAt <= rd.freeze.value
  {
  }

  /** A checkpoint admitted after the freeze follows its predecessor as the course of a run allows. */
  lemma AdmittedFollows(rd: RunDir, cp: Checkpoint)
    requires rd.context.Some? && rd.freeze.Some? && Admits(rd, cp) && rd.checkpoints != []
    ensures StageFollows(Last(rd.checkpoints), cp)
  {
    hide StoredPacketHash, Attempts, StagedMatches, LatestAt, Business, AttemptArtifacts, TelemetryNamed;
    var previous := Last(rd.checkpoints);
    if cp.stage.Published? {
      AdmittedPublication(rd, cp);
      PublishedIsNoOther(rd, cp);
    }
    if PreparationFailure(rd, cp) { FailureAdds(previous, cp); }
    if FreezeMarker(rd, cp) { MarkerNamesNothing(cp); }
    hide PublishedFrom, KeepsAttempt, AddsReducedReason, AddsOperationalReason;
  }

  lemma FailureAdds(previous: Checkpoint, cp: Checkpoint)
    requires cp.artifacts.Keys == previous.artifacts.Keys + {OperationalReason} && Keeps(cp.artifacts, previous.artifacts)
    ensures OperationalReason in cp.artifacts
  {
    assert OperationalReason in cp.artifacts.Keys;
  }

  lemma MarkerNamesNothing(cp: Checkpoint)
    requires cp.artifacts == map[]
    ensures TelemetryNamed(cp.artifacts)
  {
    assert TelemetryNames(cp.artifacts) == {};
  }

  lemma AdmittedIsSound(rd: RunDir, cp: Checkpoint)
    requires rd.context.Some? && rd.freeze.Some? && Admits(rd, cp)
    requires cp.stage.Published? ==> rd.checkpoints != [] && PublishedFrom(Last(rd.checkpoints), cp)
    ensures Sound(Append(rd, cp), |rd.checkpoints|)
  {
    hide PublishedFrom, StageFollows;
    if rd.checkpoints != [] { AdmittedFollows(rd, cp); }
    assert Append(rd, cp).checkpoints[..|rd.checkpoints|] == rd.checkpoints;
  }

  lemma NothingAfterTerminal(rd: RunDir, cp: Checkpoint)
    requires rd.context.Some? && rd.freeze.Some? && Admits(rd, cp) && rd.checkpoints != []
    ensures !Terminal(Append(rd, cp), |rd.checkpoints| - 1)
  {
    if Last(rd.checkpoints).stage.Published? { AfterPublished(rd, cp); }
    hide Admits, FreezeMarker;
  }

  lemma AppendIsLater(rd: RunDir, cp: Checkpoint)
    requires rd.context.Some? && Admits(rd, cp)
    ensures DirLater(rd, Append(rd, cp))
  {
    if rd.freeze.Some? {
      var n := |rd.checkpoints|;
      var grown := Append(rd, cp);
      if cp.stage.Published? { AdmittedPublication(rd, cp); }
      AdmittedIsSound(rd, cp);
      if n > 0 { NothingAfterTerminal(rd, cp); }
      hide Sound, Admits, PublishedFrom;
    }
  }

  lemma LocalIsLater(s: DateStore, s': DateStore, changed: nat, rev: nat)
    requires LocalTo(s, s', changed)
    requires changed in s.staging && changed in s'.staging ==>
               DirLater(s.staging[changed], s'.staging[changed])
    requires Current(s, rev).Some?
    ensures Current(s', rev).Some?
    ensures DirLater(Current(s, rev).value, Current(s', rev).value)
  {
  }

  lemma CheckpointIsLater(s: DateStore, changed: nat, cp: Checkpoint, fault: Fault, rev: nat)
    requires Current(s, rev).Some?
    ensures var s' := AppendCheckpoint(s, changed, cp, fault).0;
            Current(s', rev).Some? && DirLater(Current(s, rev).value, Current(s', rev).value)
  {
    var s' := AppendCheckpoint(s, changed, cp, fault).0;
    if s' != s { AppendIsLater(s.staging[changed], cp); }
    AppendIsLocal(s, changed, cp, fault);
    LocalIsLater(s, s', changed, rev);
  }

  lemma RecoverIsLater(s: DateStore, r: nat, now: Instant, fault: Fault, rev: nat)
    requires WellFormed(s)
    requires Current(s, rev).Some?
    ensures var s' := Recover(s, r, now, fault).0;
            Current(s', rev).Some? && DirLater(Current(s, rev).value, Current(s', rev).value)
  {
    if GetReceipt(s, r).None? && Recoverable(s, r) {
      var s1 := Restage(s, r);
      assert s1.staging.Keys == s.staging.Keys + {r};
      assert Current(s1, rev) == Current(s, rev);
      PublishIsLater(s1, s.orphans[r].bundle.value, now, fault.After(1), rev);
    }
  }

  lemma StepIsLater(s: DateStore, op: Op, rev: nat)
    requires WellFormed(s)
    requires Current(s, rev).Some?
    requires !Replaces(s, op, rev)
    ensures Current(Apply(s, op), rev).Some?
    ensures DirLater(Current(s, rev).value, Current(Apply(s, op), rev).value)
  {
    hide DirLater, Create, Allocate, Freeze, Publish, Recover, AppendCheckpoint;
    match op
    case OpCheckpoint(r, cp, fault) => CheckpointIsLater(s, r, cp, fault, rev);
    case OpCheckpointIf(r, cp, expected, fault) =>
      SameDirIsLater(Current(s, rev).value);
      CheckpointIsLater(s, r, cp, fault, rev);
    case OpFreeze(r, cutoff, fault) =>
      FreezeIsLocal(s, r, cutoff, fault);
      if r in s.staging { FreezeIsLater(s, r, cutoff, fault); }
      LocalIsLater(s, Apply(s, op), r, rev);
    case OpPublish(bundle, now, fault) => PublishIsLater(s, bundle, now, fault, rev);
    case OpRecover(r, now, fault) => RecoverIsLater(s, r, now, fault, rev);
    case OpAllocate(invocation, seed, fault) => CreateIsLater(s, op, rev);
    case OpCreate(context, fault) => CreateIsLater(s, op, rev);
    case OpStage(r, name, payload, fault) => LocalIsLater(s, Apply(s, op), r, rev);
  }

  /** Allocation only ever creates, or changes nothing. */
  function Requested(s: DateStore, invocation: Invocation, seed: RunContext): RunContext {
    match invocation
    case Scheduled => NewContext(seed, 1)
    case ManualFresh => NewContext(seed, NextRevision(s))
    case ManualRequested(rev) => NewContext(seed, rev)
  }

  lemma AllocateCreates(s: DateStore, invocation: Invocation, seed: RunContext, fault: Fault)
    ensures var s' := Allocate(s, invocation, seed, fault).0;
            s' == s || s' == Create(s, Requested(s, invocation, seed), fault).0
  {
    hide Create, Resume, NextRevision;
  }

  lemma CreateKeepsDirs(s: DateStore, context: RunContext, fault: Fault, rev: nat)
    requires Current(s, rev).Some?
    requires rev in s.staging || rev in s.finals || rev !in Create(s, context, fault).0.staging
    ensures var s' := Create(s, context, fault).0;
            Current(s', rev).Some? && DirLater(Current(s, rev).value, Current(s', rev).value)
  {
    hide Sound, Terminal;
  }

  lemma CreateIsLater(s: DateStore, op: Op, rev: nat)
    requires op.OpCreate? || op.OpAllocate?
    requires Current(s, rev).Some?
    requires !Replaces(s, op, rev)
    ensures Current(Apply(s, op), rev).Some?
    ensures DirLater(Current(s, rev).value, Current(Apply(s, op), rev).value)
  {
    hide Create, Allocate, Sound, Terminal;
    match op
    case OpCreate(context, fault) => CreateKeepsDirs(s, context, fault, rev);
    case OpAllocate(invocation, seed, fault) =>
      AllocateCreates(s, invocation, seed, fault);
      if Apply(s, op) != s { CreateKeepsDirs(s, Requested(s, invocation, seed), fault, rev); }
  }

  lemma MarkerIsLater(rd: RunDir, frozen: RunDir, cp: Checkpoint)
    requires rd.context.Some? && rd.freeze.None? && frozen == rd.(freeze := frozen.freeze)
    ensures DirLater(rd, frozen)
    ensures Admits(frozen, cp) ==> DirLater(rd, Append(frozen, cp))
  {
    hide Sound, Terminal, Admits;
    if Admits(frozen, cp) { AppendIsLater(frozen, cp); }
  }

  lemma FreezeIsLater(s: DateStore, rev: nat, cutoff: Instant, fault: Fault)
    requires rev in s.staging
    ensures rev in Freeze(s, rev, cutoff, fault).0.staging
    ensures DirLater(s.staging[rev], Freeze(s, rev, cutoff, fault).0.staging[rev])
  {
    hide DirLater, Admits;
    var rd := s.staging[rev];
    SameDirIsLater(rd);
    if rd.context.Some? && rd.freeze.None? {
      MarkerIsLater(rd, rd.(freeze := Some(cutoff)), FrozenMarker(rd, rev, cutoff));
    }
  }

  lemma SameDirIsLater(rd: RunDir)
    ensures DirLater(rd, rd)
  {
  }

  /** Two directories that differ at most in their publication files. */
  ghost predicate SameRun(a: RunDir, b: RunDir) {
    a.context == b.context && a.checkpoints == b.checkpoints && a.freeze == b.freeze && a.artifacts == b.artifacts
  }

  lemma WritesKeepRun(s: DateStore, bundle: Bundle, now: Instant, n: nat, rev: nat)
    requires Publishable(s, bundle) && Current(s, rev).Some?
    ensures var s' := AfterWrites(s, bundle, now, n);
            Current(s', rev).Some? && SameRun(Current(s, rev).value, Current(s', rev).value)
    ensures n >= 3 ==> var s' := AfterWrites(s, bundle, now, n);
              bundle.run.revision in s'.finals && bundle.run.revision !in s'.staging
  {
  }

  lemma QuarantineKeepsRun(s: DateStore, moved: nat, rev: nat)
    requires moved in s.finals && moved !in s.staging && Current(s, rev).Some?
    ensures Current(Quarantine(s, moved), rev) == Current(s, rev)
  {
  }

  lemma PublishIsLater(s: DateStore, bundle: Bundle, now: Instant, fault: Fault, rev: nat)
    requires Current(s, rev).Some?
    ensures Current(Publish(s, bundle, now, fault).0, rev).Some?
    ensures DirLater(Current(s, rev).value, Current(Publish(s, bundle, now, fault).0, rev).value)
  {
    if Publishable(s, bundle) {
      var n := if fault.NoFault? then 5 else fault.writes;
      WritesKeepRun(s, bundle, now, n, rev);
      WritesKeepRun(s, bundle, now, 3, rev);
      WritesKeepRun(s, bundle, now, 5, rev);
      QuarantineKeepsRun(AfterWrites(s, bundle, now, 3), bundle.run.revision, rev);
      if n >= 3 { QuarantineKeepsRun(AfterWrites(s, bundle, now, n), bundle.run.revision, rev); }
    }
  }

  lemma {:induction false} HistoryIsLater(s: DateStore, ops: seq<Op>, rev: nat)
    requires WellFormed(s)
    requires Current(s, rev).Some?
    requires NeverReplaced(s, ops, rev)
    ensures Current(Exec(s, ops), rev).Some?
    ensures DirLater(Current(s, rev).value, Current(Exec(s, ops), rev).value)
    decreases ops
  {
    if ops != [] {
      var s1 := Apply(s, ops[0]);
      StepKeepsIdentity(s, ops[0]);
      StepIsLater(s, ops[0], rev);
      HistoryIsLater(s1, ops[1..], rev);
      DirLaterTransitive(Current(s, rev).value, Current(s1, rev).value, Current(Exec(s, ops), rev).value);
    }
  }

  /** The draft/report pairs recorded from position `from` on. */
  function RecordedPairs(cps: seq<Checkpoint>, from: nat): nat
    requires from <= |cps|
  {
    if |cps| == from then 0
    else
      RecordedPairs(cps[..|cps| - 1], from)
      + (if Last(cps).stage.Validating? && AttemptArtifacts(Last(cps).artifacts) then 1 else 0)
  }

  lemma {:induction false} PairsAreAttempts(cps: seq<Checkpoint>, from: nat)
    requires from <= |cps|
    ensures RecordedPairs(cps, from) <= |Attempts(cps)|
  {
    if |cps| != from { PairsAreAttempts(cps[..|cps| - 1], from); }
  }

  lemma {:induction false} AtMostThreePairs(rd: RunDir, from: nat, to: nat)
    requires from <= to <= |rd.checkpoints|
    requires forall i :: from <= i < to ==> Sound(rd, i)
    ensures RecordedPairs(rd.checkpoints[..to], from) <= 3
  {
    if to != from {
      var cps := rd.checkpoints[..to];
      assert cps[..to - 1] == rd.checkpoints[..to - 1];
      assert Sound(rd, to - 1);
      if Last(cps).stage.Validating? && AttemptArtifacts(Last(cps).artifacts) {
        PairsAreAttempts(cps[..to - 1], from);
      } else {
        AtMostThreePairs(rd, from, to - 1);
      }
    }
  }

  /**
   From the freeze on, over every history: each appended checkpoint carries the one cutoff,
   is not before its predecessor, and names only digests of the bytes that stay staged;
   one packet digest is ever named; it follows its predecessor as the course of a run allows
   (`StageFollows`); at most three draft/report pairs are recorded; and a final checkpoint keeps
   its predecessor's business artifacts and adds what its own path adds (`PublishedFrom`) and,
   when written strictly after the cutoff, is the last one.
   */
  lemma FrozenChain(s: DateStore, ops: seq<Op>, rev: nat)
    requires WellFormed(s)
    requires Current(s, rev).Some? && Current(s, rev).value.freeze.Some?
    requires NeverReplaced(s, ops, rev)
    ensures Current(Exec(s, ops), rev).Some?
    ensures var before, after := Current(s, rev).value, Current(Exec(s, ops), rev).value;
            && before.checkpoints <= after.checkpoints
            && after.freeze == before.freeze
            && (forall i :: |before.checkpoints| <= i < |after.checkpoints| ==> Sound(after, i))
            && (forall i, j ::
                  && |before.checkpoints| <= i < |after.checkpoints|
                  && |before.checkpoints| <= j < |after.checkpoints|
                  && ResearchPacket in after.checkpoints[i].artifacts
                  && ResearchPacket in after.checkpoints[j].artifacts
                  ==> after.checkpoints[i].artifacts[ResearchPacket]
                      == after.checkpoints[j].artifacts[ResearchPacket])
            && RecordedPairs(after.checkpoints, |before.checkpoints|) <= 3
            && (forall i :: |before.checkpoints| <= i < |after.checkpoints| && Terminal(after, i) ==>
                  i == |after.checkpoints| - 1)
  {
    HistoryIsLater(s, ops, rev);
    var before, after := Current(s, rev).value, Current(Exec(s, ops), rev).value;
    assert after.checkpoints[..|after.checkpoints|] == after.checkpoints;
    AtMostThreePairs(after, |before.checkpoints|, |after.checkpoints|);
    forall i | |before.checkpoints| <= i < |after.checkpoints| && ResearchPacket in after.checkpoints[i].artifacts
      ensures ResearchPacket in after.artifacts
              && after.checkpoints[i].artifacts[ResearchPacket] == Sha256(after.artifacts[ResearchPacket])
    {
      assert Sound(after, i);
    }
  }
}
