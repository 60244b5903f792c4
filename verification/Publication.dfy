/**
 The three ways to end a run, as decisions over the stored files: what a call of the
 validation service or of one of the three publishers reads, checks, and then intends to
 stage, checkpoint and publish.
 */
module Publication {
  import opened RunTypes
  import opened RunStore

  /** The deterministic domain functions the services call but do not own. */
  datatype Engine = Engine(
    judge: (Packet, Draft, nat) -> (bool, string),
    brief: (Packet, Draft, Report) -> string,
    base: Packet -> string,
    reduced: (Packet, ReducedReason) -> string,
    operational: (nat, Quality, Delivery, ErrorCode) -> string)

  function ContentSha(packet: Packet): Digest {
    Sha256(PacketContentBytes(packet))
  }

  function Validate(e: Engine, packet: Packet, draft: Draft, attempt: nat): Report {
    var (valid, issues) := e.judge(packet, draft, attempt);
    Report(packet.run.revision, ContentSha(packet), valid, !valid && attempt < 3, attempt, issues)
  }

  /** The constraints every parsed validation report satisfies. */
  predicate WellFormedReport(r: Report) {
    1 <= r.attempt <= 3 && r.repairable == (!r.valid && r.attempt < 3)
  }

  /** The attempt number a repair may use, if one is permitted. */
  function NextAttempt(packet: Packet, report: Report): Option<nat> {
    if report.packetSha != ContentSha(packet) || report.valid || !report.repairable || report.attempt >= 3
    then None
    else Some(report.attempt + 1)
  }

  // ---- Reading named artifacts ----

  lemma SingletonMember(names: set<Name>)
    requires |names| == 1
    ensures exists n :: n in names && names == {n}
  {
    var n :| n in names;
    assert |names - {n}| == 0;
    assert names - {n} == {};
  }

  function TheName(names: set<Name>): (name: Name)
    requires |names| == 1
    ensures names == {name}
  {
    SingletonMember(names);
    var n :| n in names && names == {n};
    n
  }

  /** The one artifact of a kind that a checkpoint names, verified against its digest. */
  function NamedPayload(s: DateStore, cp: Checkpoint, names: set<Name>): Option<Payload>
    requires names <= cp.artifacts.Keys
  {
    if |names| != 1 then None
    else
      var name := TheName(names);
      var payload := ReadStaged(s, cp.revision, name);
      if payload.Some? && Sha256(payload.value) == cp.artifacts[name] then payload else None
  }

  function DecodeAttempt(draft: Option<Payload>, report: Option<Payload>): Option<(Draft, Report)> {
    if draft.Some? && draft.value.DraftBytes? && report.Some? && report.value.ReportBytes?
       && WellFormedReport(report.value.report)
    then Some((draft.value.draft, report.value.report))
    else None
  }

  function RecordedAttempt(s: DateStore, cp: Checkpoint): Option<(Draft, Report)> {
    DecodeAttempt(NamedPayload(s, cp, DraftNames(cp.artifacts)), NamedPayload(s, cp, ReportNames(cp.artifacts)))
  }

  datatype TelemetryRead = Absent | Malformed | Found(telemetry: Telemetry, digest: Digest)

  function CheckpointTelemetry(s: DateStore, cp: Checkpoint): TelemetryRead {
    var names := TelemetryNames(cp.artifacts);
    if names == {} then Absent
    else if |names| != 1 then Malformed
    else
      var name := TheName(names);
      var payload := NamedPayload(s, cp, names);
      if name != TelemetryName(Hex(cp.artifacts[name])) || payload.None? || !payload.value.TelemetryBytes?
      then Malformed
      else Found(payload.value.telemetry, cp.artifacts[name])
  }

  /** The newest checkpoint that binds a telemetry snapshot decides. */
  function LatestTelemetry(s: DateStore, cps: seq<Checkpoint>): TelemetryRead {
    if cps == [] then Absent
    else if TelemetryNames(Last(cps).artifacts) != {} then CheckpointTelemetry(s, Last(cps))
    else LatestTelemetry(s, cps[..|cps| - 1])
  }

  function TelemetryDigest(t: Telemetry): Digest {
    Sha256(TelemetryBytes(t))
  }

  function TelemetryArtifact(t: Telemetry): (Name, Payload) {
    (TelemetryName(Hex(TelemetryDigest(t))), TelemetryBytes(t))
  }

  /** Rebind a checkpoint to one telemetry snapshot, dropping any earlier one. */
  function WithTelemetry(cp: Checkpoint, t: Telemetry): Checkpoint {
    cp.(artifacts := Business(cp.artifacts)[TelemetryArtifact(t).0 := TelemetryDigest(t)])
  }

  // ---- Decisions ----

  datatype Kind = KindSynthesized | KindReduced | KindOperational

  type Writes = seq<(Name, Payload)>

  datatype Decision =
    | Refuse
    | Answer(report: Report)                 // the exact draft was already recorded
    | Record(writes: Writes, cp: Checkpoint, expected: nat, outcome: Option<Report>)
    | Already(receipt: Receipt)              // published before, and of this kind
    | Finish(bundle: Bundle)                 // the final checkpoint is already there
    | Leave(writes: Writes)                  // refuses only after staging these
    | Close(writes: Writes, cp: Checkpoint, expected: nat, bundle: Bundle)

  function ComposeRun(run: RunContext, cp: Checkpoint): RunContext {
    WithStatuses(run, (cp.execution, cp.quality, cp.delivery))
  }

  function MakeBundle(run: RunContext, contents: Contents, telemetry: Telemetry, digest: Digest, markdown: string)
    : Bundle
  {
    Bundle(run, contents, Some(telemetry), Some(digest), markdown, Some(Sha256(TextBytes(markdown))))
  }

  /** The telemetry frozen in a published bundle agrees with its final checkpoint. */
  predicate PublishedTelemetryValid(bundle: Bundle, cp: Checkpoint) {
    var names := TelemetryNames(cp.artifacts);
    if bundle.telemetry.None? && bundle.telemetrySha.None? && names == {} then true
    else
      && bundle.telemetry.Some? && bundle.telemetrySha.Some? && |names| == 1
      && cp.artifacts[TheName(names)] == bundle.telemetrySha.value
      && TheName(names) == TelemetryName(Hex(bundle.telemetrySha.value))
      && TelemetryDigest(bundle.telemetry.value) == bundle.telemetrySha.value
  }

  /** The staged packet is `packet`, and the latest checkpoint froze exactly it. */
  predicate StagedPacket(s: DateStore, packet: Packet, allowed: set<Stage>) {
    StagedPacketIn(Load(s, packet.run.revision), s, packet, allowed)
  }

  /** The same, of a run that was loaded before its artifacts are read from `s`. */
  predicate StagedPacketIn(stored: Option<Stored>, s: DateStore, packet: Packet, allowed: set<Stage>) {
    var rev := packet.run.revision;
    && stored.Some?
    && !stored.value.published
    && stored.value.checkpoints != []
    && packet.run.cutoff.Some?
    && var latest := Last(stored.value.checkpoints);
    && latest.stage in allowed
    && ReadStaged(s, rev, ResearchPacket) == Some(PacketBytes(packet))
    && ResearchPacket in latest.artifacts
    && latest.artifacts[ResearchPacket] == Sha256(PacketBytes(packet))
    && stored.value.cutoff == packet.run.cutoff
    && latest.quality == packet.run.quality
    && latest.delivery == packet.run.delivery
  }

  /** `validate_staged_brief`: record one attempt, or return the one already recorded. */
  function PlanValidation(e: Engine, s: DateStore, packet: Packet, draft: Draft, at: Instant, telemetry: Telemetry)
    : Decision
  {
    ValidationFrom(e, Load(s, packet.run.revision), s, packet, draft, at, telemetry)
  }

  /** The packet is checked against `first`, the run as it was loaded first; the rest is read from `s`. */
  function ValidationFrom(e: Engine, first: Option<Stored>, s: DateStore, packet: Packet, draft: Draft, at: Instant,
                          telemetry: Telemetry): Decision
  {
    var rev := packet.run.revision;
    if !draft.origin.Synthesized? || packet.run.cutoff.None? || at < packet.run.cutoff.value then Refuse
    else if !StagedPacketIn(first, s, packet, {Stage.AwaitingSynthesis, Stage.Validating}) then Refuse
    else if Load(s, rev).None? || Load(s, rev).value.checkpoints == [] then Refuse
    else
      var cps := Load(s, rev).value.checkpoints;
      var attempts := Attempts(cps);
      if LatestTelemetry(s, cps).Malformed? then Refuse
      else if attempts == [] then RecordAttempt(e, cps, packet, draft, at, telemetry, 1)
      else
        var previous := RecordedAttempt(s, Last(attempts));
        if previous.None? then Refuse
        else
          var (previousDraft, previousReport) := previous.value;
          if previousReport.packetSha != ContentSha(packet) || previousReport.attempt != |attempts|
             || previousReport != Validate(e, packet, previousDraft, previousReport.attempt)
          then Refuse
          else if previousDraft == draft then Answer(previousReport)
          else if NextAttempt(packet, previousReport).None? then Refuse
          else RecordAttempt(e, cps, packet, draft, at, telemetry, NextAttempt(packet, previousReport).value)
  }

  function RecordAttempt(e: Engine, cps: seq<Checkpoint>, packet: Packet, draft: Draft, at: Instant,
                         telemetry: Telemetry, attempt: nat): Decision
    requires cps != []
  {
    if at < Last(cps).writtenAt then Refuse
    else
      var report := Validate(e, packet, draft, attempt);
      var draftBytes, reportBytes := DraftBytes(draft), ReportBytes(report);
      Record([(BriefDraft(Hex(Sha256(draftBytes))), draftBytes),
              (ValidationReport(Hex(Sha256(reportBytes))), reportBytes),
              TelemetryArtifact(telemetry)],
             WithTelemetry(AttemptCheckpoint(cps, packet, Sha256(draftBytes), Sha256(reportBytes), at), telemetry),
             |cps|, Some(report))
  }

  /** The checkpoint of one attempt: the packet, the pair, and the fallback the run already froze. */
  function AttemptCheckpoint(cps: seq<Checkpoint>, packet: Packet, draftSha: Digest, reportSha: Digest, at: Instant)
    : Checkpoint
    requires cps != []
  {
    var core := map[ResearchPacket := Sha256(PacketBytes(packet)),
                    BriefDraft(Hex(draftSha)) := draftSha,
                    ValidationReport(Hex(reportSha)) := reportSha];
    var named :=
      if ReducedReport in Last(cps).artifacts then core[ReducedReport := Last(cps).artifacts[ReducedReport]]
      else core;
    Checkpoint(packet.run.revision, Stage.Validating, Execution.Validating, packet.run.quality, packet.run.delivery,
               at, packet.run.cutoff, named, false)
  }

  function FinalCheckpoint(run: RunContext, at: Instant, quality: Quality, cutoff: Option<Instant>,
                           artifacts: map<Name, Digest>, telemetry: Telemetry): Checkpoint
  {
    WithTelemetry(
      Checkpoint(run.revision, Stage.Published, Execution.Published, quality, run.delivery, at, cutoff, artifacts, false),
      telemetry)
  }

  /** A new final checkpoint continues from a telemetry snapshot that can no longer be read. */
  predicate TelemetryLost(s: DateStore, cps: seq<Checkpoint>) {
    cps != [] && !Last(cps).stage.Published? && LatestTelemetry(s, cps).Malformed?
  }

  /** What `publish_validated_brief` demands of an unpublished run before it writes anything. */
  predicate SynthesizedReady(s: DateStore, packet: Packet, at: Instant) {
    Load(s, packet.run.revision).Some? && SynthesizedReadyFrom(Load(s, packet.run.revision).value, s, packet, at)
  }

  predicate SynthesizedReadyFrom(stored: Stored, s: DateStore, packet: Packet, at: Instant) {
    && packet.run.cutoff.Some?
    && at >= packet.run.cutoff.value
    && StagedPacket(s, packet, {Stage.Validating, Stage.Published})
    && var cps := stored.checkpoints;
    var attempts := Attempts(cps);
    && attempts != []
    && cps != []
    && Last(cps).stage in {Stage.Validating, Stage.Published}
    && RecordedAttempt(s, Last(attempts)).Some?
    && var (draft, report) := RecordedAttempt(s, Last(attempts)).value;
    && report.valid
    && draft.origin.Synthesized?
    && report.attempt == |attempts|
    && report.revision == packet.run.revision
    && at >= Last(cps).writtenAt
  }

  /** `publish_validated_brief`: only the latest recorded attempt, and only if it is valid. */
  function PlanSynthesized(e: Engine, s: DateStore, packet: Packet, at: Instant, telemetry: Telemetry): Decision {
    SynthesizedFrom(e, Load(s, packet.run.revision), s, packet, at, telemetry)
  }

  /** The checkpoints are those of `stored`, the run as it was loaded first; the rest is read from `s`. */
  function SynthesizedFrom(e: Engine, stored: Option<Stored>, s: DateStore, packet: Packet, at: Instant,
                           telemetry: Telemetry): Decision
  {
    if stored.None? || stored.value.checkpoints == [] then Refuse
    else if stored.value.published then
      AlreadySynthesized(s, packet, Last(stored.value.checkpoints))
    else if !SynthesizedReadyFrom(stored.value, s, packet, at) || TelemetryLost(s, stored.value.checkpoints) then Refuse
    else
      var (draft, report) := RecordedAttempt(s, Last(Attempts(stored.value.checkpoints))).value;
      CloseOrFinish(s, stored.value, packet.run, at, packet.run.quality, packet.run.cutoff, None,
                    SynthesizedContents(packet, draft, report), e.brief(packet, draft, report), telemetry)
  }

  /** The common ending: append the final checkpoint, or reuse the one an interrupted call left. */
  function CloseOrFinish(s: DateStore, stored: Stored, run: RunContext, at: Instant, quality: Quality,
                         cutoff: Option<Instant>, reason: Option<(Name, Payload)>, contents: Contents,
                         markdown: string, telemetry: Telemetry): Decision
    requires stored.checkpoints != []
  {
    var latest := Last(stored.checkpoints);
    if latest.stage.Published? then
      var frozen := CheckpointTelemetry(s, latest);
      if !frozen.Found? then Refuse
      else Finish(MakeBundle(ComposeRun(stored.run, latest), contents, frozen.telemetry, frozen.digest, markdown))
    else
      var named := if reason.None? then latest.artifacts
                   else latest.artifacts[reason.value.0 := Sha256(reason.value.1)];
      var cp := FinalCheckpoint(run, at, quality, cutoff, named, telemetry);
      Close((if reason.None? then [] else [reason.value]) + [TelemetryArtifact(telemetry)], cp, |stored.checkpoints|,
            MakeBundle(ComposeRun(stored.run, cp), contents, telemetry, TelemetryDigest(telemetry), markdown))
  }

  function AlreadySynthesized(s: DateStore, packet: Packet, latest: Checkpoint): (d: Decision)
    ensures d.Already? || d.Refuse?
  {
    var published := GetPublished(s, packet.run.revision);
    if published.None? then Refuse
    else
      var (report, bundle) := published.value;
      if bundle.contents.SynthesizedContents? && bundle.contents.packet == packet
         && bundle.contents.draft.origin.Synthesized?
         && bundle.markdownSha == Some(Sha256(TextBytes(report)))
         && latest.stage.Published? && PublishedTelemetryValid(bundle, latest)
      then Already(GetReceipt(s, packet.run.revision).value)
      else Refuse
  }

  /** The recorded reports, oldest first, if every one is what its draft deserves. */
  function RecordedReports(e: Engine, s: DateStore, packet: Packet, attempts: seq<Checkpoint>): Option<seq<Report>> {
    if attempts == [] then Some([])
    else
      var n := |attempts|;
      var earlier := RecordedReports(e, s, packet, attempts[..n - 1]);
      var recorded := RecordedAttempt(s, attempts[n - 1]);
      if earlier.None? || recorded.None? then None
      else
        var (draft, report) := recorded.value;
        if !draft.origin.Synthesized? || report.attempt != n || report != Validate(e, packet, draft, n) then None
        else Some(earlier.value + [report])
  }

  predicate ReasonFits(reports: seq<Report>, reason: ReducedReason) {
    && (forall i :: 0 <= i < |reports| ==> !reports[i].valid)
    && (|reports| == 3 <==> reason.ValidationRepairExhausted?)
  }

  function BlockedPlans(packet: Packet, reason: ReducedReason): seq<BlockedPlan> {
    seq(|packet.plans|, i requires 0 <= i < |packet.plans| => BlockedPlan(packet.plans[i], reason))
  }

  function BaseSha(e: Engine, packet: Packet): Digest {
    Sha256(TextBytes(e.base(packet)))
  }

  /** What `publish_reduced_report` demands of an unpublished run before it writes anything. */
  predicate ReducedReady(e: Engine, s: DateStore, packet: Packet, reason: ReducedReason, at: Instant) {
    Load(s, packet.run.revision).Some? && ReducedReadyFrom(e, Load(s, packet.run.revision).value, s, packet, reason, at)
  }

  predicate ReducedReadyFrom(e: Engine, stored: Stored, s: DateStore, packet: Packet, reason: ReducedReason, at: Instant) {
    && packet.run.cutoff.Some?
    && at >= packet.run.cutoff.value
    && StagedPacket(s, packet, {Stage.AwaitingSynthesis, Stage.Validating, Stage.Published})
    && stored.checkpoints != []
    && var rev := packet.run.revision;
    var cps := stored.checkpoints;
    var latest := Last(cps);
    var reports := RecordedReports(e, s, packet, Attempts(cps));
    && at >= latest.writtenAt
    && ReadStaged(s, rev, ReducedReport) == Some(TextBytes(e.base(packet)))
    && ReducedReport in latest.artifacts
    && latest.artifacts[ReducedReport] == BaseSha(e, packet)
    && reports.Some?
    && ReasonFits(reports.value, reason)
    && (latest.stage.Published? ==>
          && ReadStaged(s, rev, ReducedReasonName) == Some(ReasonBytes(reason))
          && ReducedReasonName in latest.artifacts
          && latest.artifacts[ReducedReasonName] == Sha256(ReasonBytes(reason)))
  }

  /** `publish_reduced_report`: only the frozen fallback, and never after a valid attempt. */
  function PlanReduced(e: Engine, s: DateStore, packet: Packet, reason: ReducedReason, at: Instant,
                       telemetry: Telemetry): Decision
  {
    ReducedFrom(e, Load(s, packet.run.revision), s, packet, reason, at, telemetry)
  }

  /** The checkpoints are those of `stored`, the run as it was loaded first; the rest is read from `s`. */
  function ReducedFrom(e: Engine, stored: Option<Stored>, s: DateStore, packet: Packet, reason: ReducedReason,
                       at: Instant, telemetry: Telemetry): Decision
  {
    if packet.run.quality.Fail? || stored.None? || stored.value.checkpoints == [] then Refuse
    else if stored.value.published then
      AlreadyReduced(e, s, packet, reason, Last(stored.value.checkpoints))
    else if !ReducedReadyFrom(e, stored.value, s, packet, reason, at) || TelemetryLost(s, stored.value.checkpoints) then Refuse
    else
      var reports := RecordedReports(e, s, packet, Attempts(stored.value.checkpoints)).value;
      CloseOrFinish(s, stored.value, packet.run, at, packet.run.quality, packet.run.cutoff,
                    Some((ReducedReasonName, ReasonBytes(reason))),
                    ReducedContents(packet, reason, BaseSha(e, packet), BlockedPlans(packet, reason), reports),
                    e.reduced(packet, reason), telemetry)
  }

  function AlreadyReduced(e: Engine, s: DateStore, packet: Packet, reason: ReducedReason, latest: Checkpoint)
    : (d: Decision)
    ensures d.Already? || d.Refuse?
  {
    var published := GetPublished(s, packet.run.revision);
    if published.None? then Refuse
    else
      var (report, bundle) := published.value;
      if bundle.contents.ReducedContents? && bundle.contents.reason == reason
         && bundle.contents.packet == packet && report == e.reduced(packet, reason)
         && latest.stage.Published? && PublishedTelemetryValid(bundle, latest)
      then Already(GetReceipt(s, packet.run.revision).value)
      else Refuse
  }

  function OperationalMarkdown(e: Engine, run: RunContext, reason: ErrorCode): string {
    e.operational(run.revision, run.quality, run.delivery, reason)
  }

  predicate StagedMissedWindow(s: DateStore, rev: nat, cps: seq<Checkpoint>, reason: ErrorCode) {
    && reason.MissedWindowCode?
    && ReadStaged(s, rev, ResearchPacket).Some?
    && StoredPacketHash(cps) == Some(Sha256(ReadStaged(s, rev, ResearchPacket).value))
  }

  /** What `publish_operational_report` demands of an unpublished run before it writes anything. */
  predicate OperationalReady(s: DateStore, run: RunContext, reason: ErrorCode, at: Instant) {
    Load(s, run.revision).Some? && OperationalReadyFrom(Load(s, run.revision).value, s, run, reason, at)
  }

  predicate OperationalReadyFrom(stored: Stored, s: DateStore, run: RunContext, reason: ErrorCode, at: Instant) {
    var rev := run.revision;
    && stored.checkpoints != []
    && var cps := stored.checkpoints;
    var latest := Last(cps);
    && (stored.cutoff.Some? ==> stored.cutoff == run.cutoff && at >= stored.cutoff.value)
    && latest.quality.Fail?
    && latest.delivery == run.delivery
    && at >= latest.writtenAt
    && (StoredPacketHash(cps).Some? || ReadStaged(s, rev, ResearchPacket).Some? ==>
          StagedMissedWindow(s, rev, cps, reason))
    && (if latest.stage.Published? then
          && ReadStaged(s, rev, OperationalReason) == Some(CodeBytes(reason))
          && OperationalReason in latest.artifacts
          && latest.artifacts[OperationalReason] == Sha256(CodeBytes(reason))
        else PreSynthesis(latest.stage) && latest.execution == run.execution)
  }

  /**
   `publish_operational_report`: a closed failure code for a FAIL state before synthesis.
   `measured` says that the caller passes its own telemetry recorder.
   */
  function PlanOperational(e: Engine, s: DateStore, run: RunContext, reason: ErrorCode, at: Instant,
                           measured: bool, telemetry: Telemetry): Decision
  {
    OperationalFrom(e, Load(s, run.revision), s, run, reason, at, measured, telemetry)
  }

  /** The checkpoints are those of `stored`, the run as it was loaded first; the rest is read from `s`. */
  function OperationalFrom(e: Engine, stored: Option<Stored>, s: DateStore, run: RunContext, reason: ErrorCode,
                           at: Instant, measured: bool, telemetry: Telemetry): Decision
  {
    if stored.None? || stored.value.checkpoints == [] || !run.quality.Fail?
       || WithStatuses(stored.value.run, StatusesOf(run)) != run
    then Refuse
    else if stored.value.published then
      AlreadyOperational(e, s, run, reason, Last(stored.value.checkpoints))
    else if !OperationalReadyFrom(stored.value, s, run, reason, at) then Refuse
    else if !measured && TelemetryLost(s, stored.value.checkpoints) then
      Leave([(OperationalReason, CodeBytes(reason))])
    else
      CloseOrFinish(s, stored.value, run, at, Fail, stored.value.cutoff,
                    Some((OperationalReason, CodeBytes(reason))),
                    OperationalContents(reason), OperationalMarkdown(e, run, reason), telemetry)
  }

  function AlreadyOperational(e: Engine, s: DateStore, run: RunContext, reason: ErrorCode, latest: Checkpoint)
    : (d: Decision)
    ensures d.Already? || d.Refuse?
  {
    var published := GetPublished(s, run.revision);
    if published.None? then Refuse
    else
      var (report, bundle) := published.value;
      if bundle.contents == OperationalContents(reason) && report == OperationalMarkdown(e, run, reason)
         && latest.stage.Published? && PublishedTelemetryValid(bundle, latest)
      then Already(GetReceipt(s, run.revision).value)
      else Refuse
  }

  /** Preparation giving up on a run whose quality is not FAIL yet (`_operational_failure`). */
  function PlanFailure(s: DateStore, rev: nat, reason: ErrorCode, at: Instant): Decision {
    FailureFrom(Load(s, rev), reason, at)
  }

  function FailureFrom(stored: Option<Stored>, reason: ErrorCode, at: Instant): Decision {
    if stored.None? || stored.value.published || stored.value.checkpoints == []
       || Last(stored.value.checkpoints).quality.Fail?
    then Refuse
    else
      var latest := Last(stored.value.checkpoints);
      var cp := latest.(stage := Stage.PreparationFailed, quality := Fail, writtenAt := at, resumable := false,
                        artifacts := latest.artifacts[OperationalReason := Sha256(CodeBytes(reason))]);
      Record([(OperationalReason, CodeBytes(reason))], cp, |stored.value.checkpoints|, None)
  }
}
