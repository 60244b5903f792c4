/**
 The specification of the run repository: what each operation does to the stored files of
 one market date, including when it stops part-way, and which checkpoints it admits.
 */
module RunStore {
  import opened RunTypes

  // ---- Reading a run directory ----

  function LoadDir(rd: RunDir, published: bool): Option<Stored> {
    if rd.context.None? then None
    else
      var run := if rd.freeze.Some? then rd.context.value.(cutoff := rd.freeze) else rd.context.value;
      Some(Stored(run, rd.checkpoints, rd.freeze, published))
  }

  function Last(cps: seq<Checkpoint>): Checkpoint
    requires cps != []
  {
    cps[|cps| - 1]
  }

  /** The digest under which the newest checkpoint that names a packet froze it. */
  function StoredPacketHash(cps: seq<Checkpoint>): Option<Digest> {
    if cps == [] then None
    else if ResearchPacket in Last(cps).artifacts then Some(Last(cps).artifacts[ResearchPacket])
    else StoredPacketHash(cps[..|cps| - 1])
  }

  function LatestAt(cps: seq<Checkpoint>, stage: Stage): Option<Checkpoint> {
    if cps == [] then None
    else if Last(cps).stage == stage then Some(Last(cps))
    else LatestAt(cps[..|cps| - 1], stage)
  }

  /** The checkpoints of one stage, oldest first. */
  function AtStage(cps: seq<Checkpoint>, stage: Stage): seq<Checkpoint> {
    if cps == [] then []
    else
      AtStage(cps[..|cps| - 1], stage) + (if Last(cps).stage == stage then [Last(cps)] else [])
  }

  function Attempts(cps: seq<Checkpoint>): seq<Checkpoint> {
    AtStage(cps, Stage.Validating)
  }

  // ---- Artifact maps of a checkpoint ----

  function Business(m: map<Name, Digest>): map<Name, Digest> {
    map n | n in m && !n.TelemetryName? :: m[n]
  }

  function TelemetryNames(m: map<Name, Digest>): set<Name> {
    set n | n in m && n.TelemetryName?
  }

  function DraftNames(m: map<Name, Digest>): set<Name> {
    set n | n in m && n.BriefDraft?
  }

  function ReportNames(m: map<Name, Digest>): set<Name> {
    set n | n in m && n.ValidationReport?
  }

  /** At most one telemetry artifact, named by its own digest. */
  predicate TelemetryNamed(m: map<Name, Digest>) {
    && |TelemetryNames(m)| <= 1
    && forall n :: n in TelemetryNames(m) ==> n == TelemetryName(Hex(m[n]))
  }

  /** Every named digest is the digest of the bytes staged under that name. */
  predicate StagedMatches(artifacts: map<Name, Payload>, m: map<Name, Digest>) {
    forall n :: n in m ==> n in artifacts && Sha256(artifacts[n]) == m[n]
  }

  predicate Keeps(m: map<Name, Digest>, previous: map<Name, Digest>) {
    forall n :: n in previous ==> n in m && m[n] == previous[n]
  }

  // ---- Which checkpoints are admitted ----

  predicate PreSynthesis(stage: Stage) {
    stage.Created? || stage.ConfigFrozen? || stage.PriorPlansObserved? || stage.EvidenceCollected?
    || stage.EvidenceFrozen? || stage.Normalized? || stage.QualityEvaluated? || stage.Analyzed?
    || stage.PacketFrozen? || stage.Collecting? || stage.Normalizing? || stage.Analyzing?
    || stage.PreparationFailed?
  }

  predicate MissedWindowPacket(rd: RunDir) {
    && OperationalReason in rd.artifacts
    && rd.artifacts[OperationalReason] == CodeBytes(MissedWindowCode)
    && ResearchPacket in rd.artifacts
    && StoredPacketHash(rd.checkpoints) == Some(Sha256(rd.artifacts[ResearchPacket]))
  }

  predicate HasPacket(rd: RunDir) {
    StoredPacketHash(rd.checkpoints).Some? || ResearchPacket in rd.artifacts
  }

  predicate StagedFailureCode(rd: RunDir) {
    OperationalReason in rd.artifacts && rd.artifacts[OperationalReason].CodeBytes?
  }

  predicate OperationalPublication(rd: RunDir, cp: Checkpoint) {
    && rd.checkpoints != []
    && var previous := Last(rd.checkpoints);
    && cp.stage.Published?
    && cp.execution.Published?
    && cp.quality.Fail?
    && !cp.resumable
    && cp.cutoff == rd.freeze
    && cp.writtenAt >= previous.writtenAt
    && previous.quality.Fail?
    && cp.delivery == previous.delivery
    && PreSynthesis(previous.stage)
    && (HasPacket(rd) ==> MissedWindowPacket(rd))
    && Business(cp.artifacts).Keys == Business(previous.artifacts).Keys + {OperationalReason}
    && Keeps(Business(cp.artifacts), Business(previous.artifacts))
    && TelemetryNamed(cp.artifacts)
    && StagedMatches(rd.artifacts, cp.artifacts)
    && StagedFailureCode(rd)
  }

  predicate FreezeMarker(rd: RunDir, cp: Checkpoint)
    requires rd.context.Some?
  {
    && cp.stage.EvidenceFrozen?
    && (cp.execution, cp.quality, cp.delivery) == LatestStatuses(rd)
    && Some(cp.writtenAt) == rd.freeze
    && !cp.resumable
    && cp.artifacts == map[]
  }

  function LatestStatuses(rd: RunDir): (Execution, Quality, Delivery)
    requires rd.context.Some?
  {
    if rd.checkpoints != [] then
      var cp := Last(rd.checkpoints);
      (cp.execution, cp.quality, cp.delivery)
    else
      var run := rd.context.value;
      (run.execution, run.quality, run.delivery)
  }

  predicate QualityEvaluation(rd: RunDir, cp: Checkpoint) {
    && cp.stage.QualityEvaluated?
    && cp.execution.Analyzing?
    && !cp.resumable
    && rd.freeze.Some?
    && cp.writtenAt >= rd.freeze.value
    && rd.checkpoints != []
    && Last(rd.checkpoints).stage.EvidenceFrozen?
    && cp.delivery == Last(rd.checkpoints).delivery
    && var collected := LatestAt(rd.checkpoints, Stage.EvidenceCollected);
    && collected.Some?
    && collected.value.cutoff.None?
    && collected.value.resumable
    && Business(collected.value.artifacts).Keys == {MarketDataCollection}
    && Business(cp.artifacts).Keys == {MarketDataCollection, DataQuality}
    && TelemetryNamed(cp.artifacts)
    && Business(cp.artifacts)[MarketDataCollection]
       == Business(collected.value.artifacts)[MarketDataCollection]
    && ResearchPacket !in rd.artifacts
    && StagedMatches(rd.artifacts, cp.artifacts)
  }

  predicate PacketOnly(names: set<Name>) {
    names == {ResearchPacket} || names == {ResearchPacket, ReducedReport}
  }

  /** Exactly one draft and one report beside the packet and, perhaps, the reduced report. */
  predicate AttemptArtifacts(m: map<Name, Digest>) {
    && |DraftNames(m)| == 1
    && |ReportNames(m)| == 1
    && (|Business(m)| == 3 || |Business(m)| == 4)
    && forall n :: n in Business(m) ==>
         n == ResearchPacket || n == ReducedReport || n.BriefDraft? || n.ValidationReport?
  }

  predicate ReducedPublication(rd: RunDir, cp: Checkpoint) {
    && cp.stage.Published?
    && rd.checkpoints != []
    && var previous := Last(rd.checkpoints);
    && (previous.stage.AwaitingSynthesis? || previous.stage.Validating?)
    && ReducedReport in previous.artifacts
    && Business(cp.artifacts).Keys == Business(previous.artifacts).Keys + {ReducedReasonName}
    && Keeps(Business(cp.artifacts), Business(previous.artifacts))
    && TelemetryNamed(cp.artifacts)
  }

  predicate SynthesizedPublication(rd: RunDir, cp: Checkpoint) {
    && cp.stage.Published?
    && rd.checkpoints != []
    && var previous := Last(rd.checkpoints);
    && previous.stage.Validating?
    && Business(cp.artifacts).Keys == Business(previous.artifacts).Keys
    && Keeps(Business(cp.artifacts), Business(previous.artifacts))
  }

  /** The staged packet's digest, unless an earlier checkpoint froze another one. */
  function CurrentPacketHash(rd: RunDir): Option<Digest> {
    if ResearchPacket !in rd.artifacts then None
    else
      var current := Some(Sha256(rd.artifacts[ResearchPacket]));
      var frozen := StoredPacketHash(rd.checkpoints);
      if frozen.Some? && frozen != current then None else current
  }

  predicate StageNamesExecution(cp: Checkpoint) {
    || (cp.stage.AwaitingSynthesis? && cp.execution.AwaitingSynthesis?)
    || (cp.stage.Validating? && cp.execution.Validating?)
    || (cp.stage.Published? && cp.execution.Published?)
  }

  predicate SynthesisArtifacts(rd: RunDir, cp: Checkpoint) {
    || (!cp.stage.Published? && PacketOnly(Business(cp.artifacts).Keys))
    || (!cp.stage.AwaitingSynthesis? && (AttemptArtifacts(cp.artifacts) || ReducedPublication(rd, cp)))
  }

  predicate SynthesisOrder(rd: RunDir, cp: Checkpoint)
    requires rd.checkpoints != []
  {
    var previous := Last(rd.checkpoints);
    || (cp.stage.AwaitingSynthesis? && (previous.stage.EvidenceFrozen? || previous.stage.QualityEvaluated?))
    || (cp.stage.Validating? && (previous.stage.AwaitingSynthesis? || previous.stage.Validating?))
    || SynthesizedPublication(rd, cp)
    || ReducedPublication(rd, cp)
  }

  predicate SynthesisStep(rd: RunDir, cp: Checkpoint) {
    && rd.checkpoints != []
    && var previous := Last(rd.checkpoints);
    && StageNamesExecution(cp)
    && !cp.resumable
    && !(cp.stage.AwaitingSynthesis? && previous.stage.QualityEvaluated? && cp.quality.Fail?)
    && SynthesisArtifacts(rd, cp)
    && StagedMatches(rd.artifacts, cp.artifacts)
    && TelemetryNamed(cp.artifacts)
    && CurrentPacketHash(rd).Some?
    && ResearchPacket in cp.artifacts
    && cp.artifacts[ResearchPacket] == CurrentPacketHash(rd).value
    && (ReducedReport in previous.artifacts ==>
          ReducedReport in cp.artifacts && cp.artifacts[ReducedReport] == previous.artifacts[ReducedReport])
    && cp.quality == previous.quality
    && cp.delivery == previous.delivery
    && (cp.stage.Validating? && AttemptArtifacts(cp.artifacts) ==> |Attempts(rd.checkpoints)| < 3)
    && SynthesisOrder(rd, cp)
  }

  predicate PreparationFailure(rd: RunDir, cp: Checkpoint) {
    && cp.stage.PreparationFailed?
    && rd.checkpoints != []
    && var previous := Last(rd.checkpoints);
    && (|| ((previous.stage.EvidenceFrozen? || previous.stage.QualityEvaluated?) && !HasPacket(rd))
        || ((previous.stage.AwaitingSynthesis? || previous.stage.Validating?) && MissedWindowPacket(rd)))
    && cp.execution == previous.execution
    && cp.quality.Fail?
    && cp.delivery == previous.delivery
    && !cp.resumable
    && cp.artifacts.Keys == previous.artifacts.Keys + {OperationalReason}
    && Keeps(cp.artifacts, previous.artifacts)
    && StagedMatches(rd.artifacts, cp.artifacts)
    && StagedFailureCode(rd)
  }

  /** The admission rule for appending `cp` to a staged run whose context is readable. */
  predicate Admits(rd: RunDir, cp: Checkpoint)
    requires rd.context.Some?
  {
    if rd.freeze.None? then
      cp.stage.Published? ==> OperationalPublication(rd, cp)
    else
      && cp.cutoff == rd.freeze
      && (rd.checkpoints != [] ==> cp.writtenAt >= Last(rd.checkpoints).writtenAt)
      && (|| FreezeMarker(rd, cp)
          || QualityEvaluation(rd, cp)
          || SynthesisStep(rd, cp)
          || OperationalPublication(rd, cp)
          || PreparationFailure(rd, cp))
  }

  // ---- Reading the date's store ----

  /** The verified pair of published files, absent unless both digests match the index. */
  function PublishedPayloads(s: DateStore, rev: nat, rd: RunDir): Option<(string, Bundle)> {
    if rev !in s.index || rd.report.None? || rd.bundle.None? then None
    else if s.index[rev].markdownSha != Sha256(TextBytes(rd.report.value)) then None
    else if s.index[rev].bundleSha != Sha256(BundleBytes(rd.bundle.value)) then None
    else Some((rd.report.value, rd.bundle.value))
  }

  function Load(s: DateStore, rev: nat): Option<Stored> {
    if rev in s.staging then LoadDir(s.staging[rev], false)
    else if rev in s.finals && PublishedPayloads(s, rev, s.finals[rev]).Some? then
      LoadDir(s.finals[rev], true)
    else None
  }

  function GetPublished(s: DateStore, rev: nat): Option<(string, Bundle)> {
    if rev in s.finals then PublishedPayloads(s, rev, s.finals[rev]) else None
  }

  function GetReceipt(s: DateStore, rev: nat): Option<Receipt> {
    if GetPublished(s, rev).Some? then Some(Receipt(rev, s.index[rev])) else None
  }

  function GetLatest(s: DateStore): Option<nat> {
    if s.latest.Some? && GetPublished(s, s.latest.value).Some?
       && Load(s, s.latest.value).Some? && Load(s, s.latest.value).value.published
    then s.latest else None
  }

  function ReadStaged(s: DateStore, rev: nat, name: Name): Option<Payload> {
    if rev in s.staging && name in s.staging[rev].artifacts then Some(s.staging[rev].artifacts[name])
    else None
  }

  // ---- Operations on a staged run ----

  const EmptyDir: RunDir := RunDir(None, [], None, map[], None, None)

  function Create(s: DateStore, context: RunContext, fault: Fault): (DateStore, Result<RunContext>) {
    var rev := context.revision;
    if rev in s.finals then (s, Rejected(PublicationFailed))
    else if rev in s.staging && s.staging[rev].context.Some? then
      (s, if s.staging[rev].context.value == context then Ok(context) else Rejected(PublicationFailed))
    else if fault.StopsAt(0) then (s, Interrupted)
    else
      var made := if rev in s.staging then s.staging[rev] else EmptyDir;
      var s1 := s.(staging := s.staging[rev := made]);
      if fault.StopsAt(1) then (s1, Interrupted)
      else
        var s2 := s1.(staging := s1.staging[rev := made.(context := Some(context))]);
        (s2, if fault.StopsAt(2) then Interrupted else Ok(context))
  }

  function StageArtifact(s: DateStore, rev: nat, name: Name, payload: Payload, fault: Fault)
    : (DateStore, Result<Digest>)
  {
    if payload == RawBytes([]) || rev !in s.staging then (s, Rejected(InvalidRequest))
    else if name in s.staging[rev].artifacts then
      (s, if s.staging[rev].artifacts[name] == payload then Ok(Sha256(payload)) else Rejected(InvalidRequest))
    else if fault.StopsAt(0) then (s, Interrupted)
    else
      var rd := s.staging[rev];
      var s' := s.(staging := s.staging[rev := rd.(artifacts := rd.artifacts[name := payload])]);
      (s', if fault.StopsAt(1) then Interrupted else Ok(Sha256(payload)))
  }

  function Append(rd: RunDir, cp: Checkpoint): RunDir {
    rd.(checkpoints := rd.checkpoints + [cp])
  }

  function AppendCheckpoint(s: DateStore, rev: nat, cp: Checkpoint, fault: Fault): (DateStore, Result<()>) {
    if cp.revision != rev || rev !in s.staging || s.staging[rev].context.None? then
      (s, Rejected(InvalidRequest))
    else if !Admits(s.staging[rev], cp) then
      (s, Rejected(if s.staging[rev].freeze.None? then InvalidRequest else CutoffViolation))
    else if fault.StopsAt(0) then (s, Interrupted)
    else
      var s' := s.(staging := s.staging[rev := Append(s.staging[rev], cp)]);
      (s', if fault.StopsAt(1) then Interrupted else Ok(()))
  }

  /** Append only against the checkpoint count the caller observed. */
  function AppendIfCurrent(s: DateStore, rev: nat, cp: Checkpoint, expected: nat, fault: Fault)
    : (DateStore, Result<()>)
  {
    var stored := Load(s, rev);
    if stored.None? || stored.value.published || |stored.value.checkpoints| != expected then
      (s, Rejected(InvalidRequest))
    else AppendCheckpoint(s, rev, cp, fault)
  }

  function FrozenMarker(rd: RunDir, rev: nat, cutoff: Instant): Checkpoint
    requires rd.context.Some?
  {
    var (execution, quality, delivery) := LatestStatuses(rd);
    Checkpoint(rev, Stage.EvidenceFrozen, execution, quality, delivery, cutoff, Some(cutoff), map[], false)
  }

  /** The freeze file is written first; its marker may then still be refused. */
  function Freeze(s: DateStore, rev: nat, cutoff: Instant, fault: Fault): (DateStore, Result<Stored>) {
    if rev !in s.staging || s.staging[rev].context.None? || s.staging[rev].freeze.Some?
       || cutoff < s.staging[rev].context.value.invokedAt
    then (s, Rejected(InvalidRequest))
    else if fault.StopsAt(0) then (s, Interrupted)
    else
      var rd := s.staging[rev];
      var s1 := s.(staging := s.staging[rev := rd.(freeze := Some(cutoff))]);
      if fault.StopsAt(1) then (s1, Interrupted)
      else
        var (s2, r) := AppendCheckpoint(s1, rev, FrozenMarker(rd, rev, cutoff), fault.After(1));
        match r
        case Ok(_) => (s2, Ok(LoadDir(s2.staging[rev], false).value))
        case Rejected(f) => (s2, Rejected(f))
        case Interrupted => (s2, Interrupted)
  }

  // ---- Publication ----

  function MaxKey(m: map<nat, Entry>): nat
    requires m != map[]
    ensures MaxKey(m) in m
    ensures forall k :: k in m ==> k <= MaxKey(m)
  {
    SetMax(m.Keys)
  }

  function SetMax(ks: set<nat>): (max: nat)
    requires ks != {}
    ensures max in ks
    ensures forall k :: k in ks ==> k <= max
  {
    GreatestExists(ks);
    var max :| max in ks && forall k :: k in ks ==> k <= max;
    max
  }

  lemma GreatestExists(ks: set<nat>)
    requires ks != {}
    ensures exists max :: max in ks && forall k :: k in ks ==> k <= max
  {
    var k :| k in ks;
    var rest := ks - {k};
    if rest == {} {
      assert ks == {k};
    } else {
      GreatestExists(rest);
      var m :| m in rest && forall j :: j in rest ==> j <= m;
      assert forall j :: j in ks ==> j == k || j in rest;
      if k <= m { assert m in ks; } else { assert k in ks; }
    }
  }

  predicate PublishedArtifactsIntact(rd: RunDir) {
    rd.checkpoints != [] && Last(rd.checkpoints).stage.Published? ==>
      StagedMatches(rd.artifacts, Last(rd.checkpoints).artifacts)
  }

  function WithStatuses(run: RunContext, statuses: (Execution, Quality, Delivery)): RunContext {
    run.(execution := statuses.0, quality := statuses.1, delivery := statuses.2)
  }

  function StatusesOf(run: RunContext): (Execution, Quality, Delivery) {
    (run.execution, run.quality, run.delivery)
  }

  /** The checks made before any publication file is written. */
  predicate Publishable(s: DateStore, bundle: Bundle) {
    var rev := bundle.run.revision;
    && rev in s.staging
    && rev !in s.finals
    && s.staging[rev].context.Some?
    && var rd := s.staging[rev];
    var staged := LoadDir(rd, false).value.run;
    && WithStatuses(bundle.run, StatusesOf(staged)) == staged
    && StatusesOf(bundle.run) == LatestStatuses(rd)
    && PublishedArtifactsIntact(rd)
    && bundle.markdownSha == Some(Sha256(TextBytes(bundle.markdown)))
  }

  function Shas(bundle: Bundle): (Digest, Digest) {
    (Sha256(BundleBytes(bundle)), Sha256(TextBytes(bundle.markdown)))
  }

  predicate Conflicts(s: DateStore, bundle: Bundle) {
    var rev := bundle.run.revision;
    rev in s.index && (s.index[rev].bundleSha, s.index[rev].markdownSha) != Shas(bundle)
  }

  /** The index entry a publication writes: a matching earlier entry keeps its time. */
  function EntryFor(s: DateStore, bundle: Bundle, now: Instant): Entry {
    var rev := bundle.run.revision;
    if rev in s.index && !Conflicts(s, bundle) then s.index[rev]
    else Entry(Shas(bundle).0, Shas(bundle).1, now)
  }

  /** The store after the first `n` writes of publishing `bundle`. */
  function AfterWrites(s: DateStore, bundle: Bundle, now: Instant, n: nat): DateStore
    requires Publishable(s, bundle)
  {
    var rev := bundle.run.revision;
    var rd := s.staging[rev];
    var rd1 := if n >= 1 then rd.(bundle := Some(bundle)) else rd;
    var rd2 := if n >= 2 then rd1.(report := Some(bundle.markdown)) else rd1;
    if n < 3 then s.(staging := s.staging[rev := rd2])
    else
      var index := if n >= 4 then s.index[rev := EntryFor(s, bundle, now)] else s.index;
      assert n >= 4 ==> rev in index;
      DateStore(s.staging - {rev}, s.finals[rev := rd2], s.orphans, index,
                if n >= 5 then Some(MaxKey(index)) else s.latest)
  }

  /** Move a final directory to diagnostics, unless one is already there. */
  function Quarantine(s: DateStore, rev: nat): DateStore
    requires rev in s.finals
  {
    if rev in s.orphans then s
    else s.(finals := s.finals - {rev}, orphans := s.orphans[rev := s.finals[rev]])
  }

  function Publish(s: DateStore, bundle: Bundle, now: Instant, fault: Fault): (DateStore, Result<Receipt>) {
    if !Publishable(s, bundle) then (s, Rejected(PublicationFailed))
    else
      var rev := bundle.run.revision;
      var last := if Conflicts(s, bundle) then 3 else 5;
      if fault.Crash? && fault.writes <= last then
        (AfterWrites(s, bundle, now, fault.writes), Interrupted)
      else if fault.IoError? && fault.writes < 3 then
        (AfterWrites(s, bundle, now, fault.writes), Rejected(PublicationFailed))
      else if fault.IoError? && fault.writes <= last then
        (Quarantine(AfterWrites(s, bundle, now, fault.writes), rev), Rejected(PublicationFailed))
      else if Conflicts(s, bundle) then
        (Quarantine(AfterWrites(s, bundle, now, 3), rev), Rejected(PublicationFailed))
      else
        (AfterWrites(s, bundle, now, 5), Ok(Receipt(rev, EntryFor(s, bundle, now))))
  }

  /** An orphan whose frozen pair, identity, final checkpoint and artifacts all agree. */
  predicate Recoverable(s: DateStore, rev: nat) {
    && rev !in s.staging
    && rev !in s.finals
    && rev in s.orphans
    && var rd := s.orphans[rev];
    && rd.bundle.Some?
    && rd.report.Some?
    && rd.context.Some?
    && rd.checkpoints != []
    && var bundle := rd.bundle.value;
    var cp := Last(rd.checkpoints);
    var stored := LoadDir(rd, false).value;
    && bundle.run.revision == rev
    && stored.run.revision == rev
    && bundle.markdownSha == Some(Sha256(TextBytes(rd.report.value)))
    && bundle.markdown == rd.report.value
    && cp.stage.Published?
    && cp.execution.Published?
    && cp.quality == bundle.run.quality
    && cp.delivery == bundle.run.delivery
    && cp.cutoff == stored.cutoff
    && !cp.resumable
    && bundle.run == WithStatuses(stored.run, (cp.execution, cp.quality, cp.delivery))
    && StagedMatches(rd.artifacts, cp.artifacts)
  }

  function Restage(s: DateStore, rev: nat): DateStore
    requires rev in s.orphans
  {
    s.(staging := s.staging[rev := s.orphans[rev]], orphans := s.orphans - {rev})
  }

  function Recover(s: DateStore, rev: nat, now: Instant, fault: Fault): (DateStore, Result<Receipt>) {
    if GetReceipt(s, rev).Some? then (s, Ok(GetReceipt(s, rev).value))
    else if !Recoverable(s, rev) then (s, Rejected(PublicationFailed))
    else if fault.StopsAt(0) then (s, if fault.Crash? then Interrupted else Rejected(PublicationFailed))
    else if fault.StopsAt(1) then
      (Restage(s, rev), if fault.Crash? then Interrupted else Rejected(PublicationFailed))
    else Publish(Restage(s, rev), s.orphans[rev].bundle.value, now, fault.After(1))
  }

  // ---- Allocating a revision ----

  function Existing(s: DateStore): set<nat> {
    s.staging.Keys + s.finals.Keys
  }

  function NextRevision(s: DateStore): nat {
    if Existing(s) == {} then 1 else SetMax(Existing(s)) + 1
  }

  datatype Invocation = Scheduled | ManualFresh | ManualRequested(revision: nat)

  function Resume(s: DateStore, rev: nat, manual: bool): Result<RunContext> {
    if rev in s.staging && rev in s.finals then Rejected(PublicationFailed)
    else if manual && rev in s.finals then
      Rejected(if GetPublished(s, rev).Some? then InvalidRequest else PublicationFailed)
    else
      var stored := Load(s, rev);
      if stored.None? || stored.value.run.revision != rev then Rejected(PublicationFailed)
      else Ok(stored.value.run)
  }

  /** What a seed fixes of a new run's context, and what every new run starts with. */
  function NewContext(seed: RunContext, rev: nat): RunContext {
    seed.(revision := rev, cutoff := None, execution := Execution.Created, quality := Pass)
  }

  function Allocate(s: DateStore, invocation: Invocation, seed: RunContext, fault: Fault)
    : (DateStore, Result<RunContext>)
  {
    match invocation
    case Scheduled =>
      if 1 in Existing(s) then (s, Resume(s, 1, false))
      else Create(s, NewContext(seed, 1), fault)
    case ManualRequested(rev) =>
      if rev == 0 then (s, Rejected(InvalidRequest))
      else if rev in Existing(s) then (s, Resume(s, rev, true))
      else if rev != NextRevision(s) then (s, Rejected(InvalidRequest))
      else Create(s, NewContext(seed, rev), fault)
    case ManualFresh =>
      Create(s, NewContext(seed, NextRevision(s)), fault)
  }
}
