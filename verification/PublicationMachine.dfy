/**
 Any number of concurrent service calls on one market date: each call loads its run, decides
 from a reading of the store that may be later than that load, then its writes interleave with
 those of every other call, fail at any point, or never happen because its process died.
 */
module PublicationMachine {
  import opened RunTypes
  import opened RunStore
  import opened RunHistory
  import opened Publication

  datatype Call =
    | CallValidate(packet: Packet, draft: Draft, at: Instant)
    | CallSynthesized(packet: Packet, at: Instant)
    | CallReduced(packet: Packet, reason: ReducedReason, at: Instant)
    | CallOperational(run: RunContext, code: ErrorCode, at: Instant, measured: bool)
    | CallFail(rev: nat, code: ErrorCode, at: Instant)

  /** What a call still has to do: stage, then append its checkpoint, then publish. */
  datatype Task = Task(rev: nat, writes: Writes, cp: Option<Checkpoint>, expected: nat, bundle: Option<Bundle>)

  /** A publication some call reported as successful. */
  datatype Success = Success(kind: Kind, receipt: Receipt)

  datatype World = World(store: DateStore, tasks: seq<Task>, done: set<Success>)

  datatype Move =
    | Begin(call: Call, telemetry: Telemetry)
    | BeginLate(call: Call, first: Option<Stored>, telemetry: Telemetry)
    | Advance(i: nat, now: Instant, fault: Fault)
    | Abandon(i: nat)
    | Recovery(rev: nat, now: Instant, fault: Fault)

  function Decide(e: Engine, s: DateStore, call: Call, telemetry: Telemetry): Decision {
    match call
    case CallValidate(packet, draft, at) => PlanValidation(e, s, packet, draft, at, telemetry)
    case CallSynthesized(packet, at) => PlanSynthesized(e, s, packet, at, telemetry)
    case CallReduced(packet, reason, at) => PlanReduced(e, s, packet, reason, at, telemetry)
    case CallOperational(run, code, at, measured) => PlanOperational(e, s, run, code, at, measured, telemetry)
    case CallFail(rev, code, at) => PlanFailure(s, rev, code, at)
  }

  /** The decision of a call that loaded `first` and reads everything else from `s`. */
  function DecideFrom(e: Engine, first: Option<Stored>, s: DateStore, call: Call, telemetry: Telemetry): Decision {
    match call
    case CallValidate(packet, draft, at) => ValidationFrom(e, first, s, packet, draft, at, telemetry)
    case CallSynthesized(packet, at) => SynthesizedFrom(e, first, s, packet, at, telemetry)
    case CallReduced(packet, reason, at) => ReducedFrom(e, first, s, packet, reason, at, telemetry)
    case CallOperational(run, code, at, measured) => OperationalFrom(e, first, s, run, code, at, measured, telemetry)
    case CallFail(rev, code, at) => FailureFrom(first, code, at)
  }

  lemma DecidesFromItsLoad(e: Engine, s: DateStore, call: Call, telemetry: Telemetry)
    ensures Decide(e, s, call, telemetry) == DecideFrom(e, Load(s, CallRev(call)), s, call, telemetry)
  {
    hide Load, ValidationFrom, SynthesizedFrom, ReducedFrom, OperationalFrom, FailureFrom;
  }

  /** What an earlier load of the run can have found, given what the store holds now. */
  predicate OlderLoad(first: Option<Stored>, s: DateStore, rev: nat) {
    first.Some? ==>
      && var dir := Current(s, rev);
      && dir.Some? && dir.value.context.Some?
      && first.value.run == LoadDir(dir.value, false).value.run
      && first.value.cutoff == dir.value.freeze
      && first.value.checkpoints <= dir.value.checkpoints
      && (first.value.checkpoints != [] && Last(first.value.checkpoints).stage.Published? ==>
            first.value.checkpoints == dir.value.checkpoints)
  }

  function CallRev(call: Call): nat {
    match call
    case CallValidate(packet, _, _) => packet.run.revision
    case CallSynthesized(packet, _) => packet.run.revision
    case CallReduced(packet, _, _) => packet.run.revision
    case CallOperational(run, _, _, _) => run.revision
    case CallFail(rev, _, _) => rev
  }

  function KindOf(contents: Contents): Option<Kind> {
    match contents
    case SynthesizedContents(_, _, _) => Some(KindSynthesized)
    case ReducedContents(_, _, _, _, _) => Some(KindReduced)
    case OperationalContents(_) => Some(KindOperational)
    case UnknownContents(_) => None
  }

  function CallKind(call: Call): Option<Kind> {
    if call.CallSynthesized? then Some(KindSynthesized)
    else if call.CallReduced? then Some(KindReduced)
    else if call.CallOperational? then Some(KindOperational)
    else None
  }

  function Remove(tasks: seq<Task>, i: nat): seq<Task>
    requires i < |tasks|
  {
    tasks[..i] + tasks[i + 1..]
  }

  function BeginCall(e: Engine, w: World, call: Call, telemetry: Telemetry): World {
    BeginWith(w, call, Decide(e, w.store, call, telemetry))
  }

  function BeginWith(w: World, call: Call, d: Decision): World {
    match d
    case Record(writes, cp, expected, _) =>
      w.(tasks := w.tasks + [Task(CallRev(call), writes, Some(cp), expected, None)])
    case Close(writes, cp, expected, bundle) =>
      w.(tasks := w.tasks + [Task(CallRev(call), writes, Some(cp), expected, Some(bundle))])
    case Finish(bundle) => w.(tasks := w.tasks + [Task(CallRev(call), [], None, 0, Some(bundle))])
    case Leave(writes) => w.(tasks := w.tasks + [Task(CallRev(call), writes, None, 0, None)])
    case Already(receipt) =>
      if CallKind(call).Some? then w.(done := w.done + {Success(CallKind(call).value, receipt)}) else w
    case _ => w
  }

  /** One repository call of task `i`; a call that does not return normally ends its task. */
  function AdvanceTask(w: World, i: nat, now: Instant, fault: Fault): World
    requires i < |w.tasks|
  {
    var t := w.tasks[i];
    if t.writes != [] then
      var (s, r) := StageArtifact(w.store, t.rev, t.writes[0].0, t.writes[0].1, fault);
      World(s, if r.Ok? then w.tasks[i := t.(writes := t.writes[1..])] else Remove(w.tasks, i), w.done)
    else if t.cp.Some? then
      var (s, r) := AppendIfCurrent(w.store, t.rev, t.cp.value, t.expected, fault);
      World(s, if r.Ok? && t.bundle.Some? then w.tasks[i := t.(cp := None)] else Remove(w.tasks, i), w.done)
    else if t.bundle.Some? then
      var (s, r) := Publish(w.store, t.bundle.value, now, fault);
      World(s, Remove(w.tasks, i), w.done + Reported(r, t.bundle.value))
    else World(w.store, Remove(w.tasks, i), w.done)
  }

  function Reported(r: Result<Receipt>, bundle: Bundle): set<Success> {
    if r.Ok? && KindOf(bundle.contents).Some? then {Success(KindOf(bundle.contents).value, r.value)} else {}
  }

  /** The bundle an explicit recovery republishes, or the one already published. */
  function RecoveredBundle(s: DateStore, rev: nat): Option<Bundle> {
    if GetPublished(s, rev).Some? then Some(GetPublished(s, rev).value.1)
    else if rev in s.orphans then s.orphans[rev].bundle
    else None
  }

  function Next(e: Engine, w: World, m: Move): World {
    match m
    case Begin(call, telemetry) => BeginCall(e, w, call, telemetry)
    case BeginLate(call, first, telemetry) =>
      if !OlderLoad(first, w.store, CallRev(call)) then w
      else BeginWith(w, call, DecideFrom(e, first, w.store, call, telemetry))
    case Advance(i, now, fault) => if i < |w.tasks| then AdvanceTask(w, i, now, fault) else w
    case Abandon(i) => if i < |w.tasks| then w.(tasks := Remove(w.tasks, i)) else w
    case Recovery(rev, now, fault) =>
      var (s, r) := Recover(w.store, rev, now, fault);
      var bundle := RecoveredBundle(w.store, rev);
      World(s, w.tasks, w.done + (if bundle.Some? then Reported(r, bundle.value) else {}))
  }

  function Play(e: Engine, w: World, moves: seq<Move>): World
    decreases moves
  {
    if moves == [] then w else Play(e, Next(e, w, moves[0]), moves[1..])
  }

  // ---- One kind of success per run, whatever the packet ----

  /** Every reported success is the indexed publication and has the kind of its bundle. */
  ghost predicate SuccessesIndexed(w: World) {
    && WellFormed(w.store)
    && forall x :: x in w.done ==> SuccessIndexed(w.store, x)
  }

  ghost predicate SuccessIndexed(s: DateStore, x: Success) {
    && x.receipt.revision in s.index
    && s.index[x.receipt.revision] == x.receipt.entry
    && x.receipt.entry.bundleSha.of.BundleBytes?
    && KindOf(x.receipt.entry.bundleSha.of.bundle.contents) == Some(x.kind)
  }

  lemma PublishedSha(s: DateStore, bundle: Bundle, now: Instant, fault: Fault)
    ensures var r := Publish(s, bundle, now, fault).1;
            r.Ok? ==> r.value.revision == bundle.run.revision
                      && r.value.entry.bundleSha == Sha256(BundleBytes(bundle))
                      && r.value.entry.markdownSha == Sha256(TextBytes(bundle.markdown))
  {
  }

  lemma AlreadyIsOfItsKind(e: Engine, first: Option<Stored>, s: DateStore, call: Call, telemetry: Telemetry)
    requires DecideFrom(e, first, s, call, telemetry).Already?
    ensures CallKind(call).Some?
    ensures var receipt := DecideFrom(e, first, s, call, telemetry).receipt;
            GetPublished(s, CallRev(call)).Some?
            && GetReceipt(s, CallRev(call)) == Some(receipt)
            && KindOf(GetPublished(s, CallRev(call)).value.1.contents) == CallKind(call)
  {
  }

  lemma DecisionKeepsSuccesses(e: Engine, w: World, call: Call, first: Option<Stored>, telemetry: Telemetry)
    requires SuccessesIndexed(w)
    ensures SuccessesIndexed(BeginWith(w, call, DecideFrom(e, first, w.store, call, telemetry)))
  {
    if DecideFrom(e, first, w.store, call, telemetry).Already? {
      AlreadyIsOfItsKind(e, first, w.store, call, telemetry);
    }
    hide DecideFrom;
  }

  lemma AdvanceKeepsSuccesses(w: World, i: nat, now: Instant, fault: Fault)
    requires SuccessesIndexed(w) && i < |w.tasks|
    ensures SuccessesIndexed(AdvanceTask(w, i, now, fault))
  {
    hide Publish, AppendCheckpoint;
    var t, w' := w.tasks[i], AdvanceTask(w, i, now, fault);
    if t.writes != [] {
      LocalKeepsIdentity(w.store, w'.store, t.rev);
    } else if t.cp.Some? {
      AppendIsLocal(w.store, t.rev, t.cp.value, fault);
      LocalKeepsIdentity(w.store, w'.store, t.rev);
    } else if t.bundle.Some? {
      PublishKeepsIdentity(w.store, t.bundle.value, now, fault);
      PublishedSha(w.store, t.bundle.value, now, fault);
    }
  }

  lemma RecoveryKeepsSuccesses(e: Engine, w: World, rev: nat, now: Instant, fault: Fault)
    requires SuccessesIndexed(w)
    ensures SuccessesIndexed(Next(e, w, Recovery(rev, now, fault)))
  {
    hide Publish;
    RecoverKeepsIdentity(w.store, rev, now, fault);
    if GetReceipt(w.store, rev).None? && Recoverable(w.store, rev) {
      PublishedSha(Restage(w.store, rev), w.store.orphans[rev].bundle.value, now, fault.After(1));
    }
  }

  lemma NextKeepsSuccesses(e: Engine, w: World, m: Move)
    requires SuccessesIndexed(w)
    ensures SuccessesIndexed(Next(e, w, m))
  {
    match m
    case Begin(call, telemetry) =>
      DecidesFromItsLoad(e, w.store, call, telemetry);
      DecisionKeepsSuccesses(e, w, call, Load(w.store, CallRev(call)), telemetry);
      hide Decide, DecideFrom, BeginWith, SuccessesIndexed, Load;
    case BeginLate(call, first, telemetry) =>
      DecisionKeepsSuccesses(e, w, call, first, telemetry);
      hide DecideFrom, BeginWith, SuccessesIndexed, OlderLoad;
    case Advance(i, now, fault) =>
      if i < |w.tasks| { AdvanceKeepsSuccesses(w, i, now, fault); }
      hide AdvanceTask, SuccessesIndexed;
    case Abandon(i) =>
    case Recovery(rev, now, fault) => RecoveryKeepsSuccesses(e, w, rev, now, fault);
  }

  lemma {:induction false} PlayKeepsSuccesses(e: Engine, w: World, moves: seq<Move>)
    requires SuccessesIndexed(w)
    ensures SuccessesIndexed(Play(e, w, moves))
    decreases moves
  {
    if moves != [] {
      NextKeepsSuccesses(e, w, moves[0]);
      PlayKeepsSuccesses(e, Next(e, w, moves[0]), moves[1..]);
    }
  }

  /**
   At most one kind of publication ever succeeds for a run, over every interleaving, retry,
   failure and recovery of the services, from any store and for any packet.
   */
  lemma OneKindSucceeds(e: Engine, s: DateStore, moves: seq<Move>, x: Success, y: Success)
    requires WellFormed(s)
    requires x in Play(e, World(s, [], {}), moves).done
    requires y in Play(e, World(s, [], {}), moves).done
    requires x.receipt.revision == y.receipt.revision
    ensures x == y
  {
    PlayKeepsSuccesses(e, World(s, [], {}), moves);
  }
}
