/**
 Validation with repair: which drafts are recorded, with which reports, and how the run then
 ends. At most three drafts are judged; a valid one is published as synthesized, and after
 three invalid ones the frozen fallback is published as exhausted.
 */
module Repairs {
  import opened RunTypes
  import opened RunStore
  import opened RunHistory
  import opened Publication
  import opened FinalBundle
  import opened PublicationMachine
  import opened PublicationService
  import opened Preparation
  import opened Undisturbed
  import opened Endings

  function DraftName(draft: Draft): Name {
    BriefDraft(Hex(Sha256(DraftBytes(draft))))
  }

  function ReportName(report: Report): Name {
    ValidationReport(Hex(Sha256(ReportBytes(report))))
  }

  /** An artifact that is named by a digest holds the bytes of that digest. */
  predicate OwnEntry(name: Name, payload: Payload) {
    name.TelemetryName? || name.BriefDraft? || name.ValidationReport? ==>
      name.suffix.Hex? ==> name.suffix.digest == Sha256(payload)
  }

  ghost predicate OwnNames(rd: RunDir) {
    forall n :: n in rd.artifacts ==> OwnEntry(n, rd.artifacts[n])
  }

  lemma OwnGrows(rd: RunDir, name: Name, payload: Payload)
    requires OwnNames(rd) && OwnEntry(name, payload)
    ensures OwnNames(WithArtifact(rd, name, payload))
  {
  }

  /** The packet and its fallback are frozen, staged and named by the newest checkpoint. */
  ghost predicate Holding(e: Engine, rd: RunDir, packet: Packet) {
    && rd.context.Some? && rd.context.value.revision == packet.run.revision
    && rd.freeze.Some? && rd.freeze == packet.run.cutoff && !packet.run.quality.Fail?
    && ResearchPacket in rd.artifacts && rd.artifacts[ResearchPacket] == PacketBytes(packet)
    && ReducedReport in rd.artifacts && rd.artifacts[ReducedReport] == TextBytes(e.base(packet))
    && ReducedReasonName !in rd.artifacts
    && OwnNames(rd)
    && rd.checkpoints != []
    && StoredPacketHash(rd.checkpoints) == Some(Sha256(PacketBytes(packet)))
    && NamesPacket(e, Last(rd.checkpoints), packet)
    && StagedMatches(rd.artifacts, Last(rd.checkpoints).artifacts)
  }

  /** The newest checkpoint belongs to the packet and names it with its fallback. */
  ghost predicate NamesPacket(e: Engine, latest: Checkpoint, packet: Packet) {
    && (latest.stage.AwaitingSynthesis? || latest.stage.Validating?)
    && latest.quality == packet.run.quality && latest.delivery == packet.run.delivery
    && latest.revision == packet.run.revision
    && ResearchPacket in latest.artifacts && latest.artifacts[ResearchPacket] == Sha256(PacketBytes(packet))
    && ReducedReport in latest.artifacts && latest.artifacts[ReducedReport] == BaseSha(e, packet)
    && ReducedReasonName !in latest.artifacts
  }

  /** The pair of one attempt is staged and named by its checkpoint. */
  ghost predicate HoldsPair(rd: RunDir, cp: Checkpoint, draft: Draft, report: Report) {
    && DraftName(draft) in rd.artifacts && rd.artifacts[DraftName(draft)] == DraftBytes(draft)
    && ReportName(report) in rd.artifacts && rd.artifacts[ReportName(report)] == ReportBytes(report)
    && DraftNames(cp.artifacts) == {DraftName(draft)} && ReportNames(cp.artifacts) == {ReportName(report)}
    && cp.artifacts[DraftName(draft)] == Sha256(DraftBytes(draft))
    && cp.artifacts[ReportName(report)] == Sha256(ReportBytes(report))
    && AttemptArtifacts(cp.artifacts)
  }

  /** What the engine makes of these drafts, submitted in this order. */
  function Reports(e: Engine, packet: Packet, drafts: seq<Draft>): seq<Report> {
    seq(|drafts|, i requires 0 <= i < |drafts| => Validate(e, packet, drafts[i], i + 1))
  }

  ghost predicate Invalid(e: Engine, packet: Packet, drafts: seq<Draft>) {
    forall i :: 0 <= i < |drafts| ==> !Validate(e, packet, drafts[i], i + 1).valid
  }

  /** Exactly these drafts are recorded, with the reports they deserve. */
  ghost predicate Recorded(e: Engine, rd: RunDir, packet: Packet, drafts: seq<Draft>) {
    && Holding(e, rd, packet)
    && |drafts| <= 3
    && var attempts := Attempts(rd.checkpoints);
    && |attempts| == |drafts|
    && (if drafts == [] then Last(rd.checkpoints).stage.AwaitingSynthesis?
        else Last(rd.checkpoints).stage.Validating? && Last(attempts) == Last(rd.checkpoints))
    && forall i :: 0 <= i < |drafts| ==>
         && attempts[i].revision == packet.run.revision && drafts[i].origin.Synthesized?
         && HoldsPair(rd, attempts[i], drafts[i], Validate(e, packet, drafts[i], i + 1))
  }

  /** The newest telemetry can be read, so it can be continued. */
  predicate Continues(s: DateStore, rev: nat, rd: RunDir) {
    !LatestTelemetry(Put(s, rev, rd), rd.checkpoints).Malformed?
  }

  predicate PastCutoff(rd: RunDir, at: Instant) {
    rd.freeze.Some? && at >= rd.freeze.value
  }

  /** The next call of the run comes no earlier than its newest checkpoint and its cutoff. */
  predicate InTime(rd: RunDir, at: Instant) {
    rd.checkpoints != [] && at >= Last(rd.checkpoints).writtenAt && PastCutoff(rd, at)
  }

  lemma OwnNamesFit(rd: RunDir, t: Telemetry)
    requires OwnNames(rd)
    ensures TelemetryFits(rd, t)
  {
  }

  // ---- The next attempt ----

  /** The directory with the pair of one attempt staged. */
  function Paired(rd: RunDir, draft: Draft, report: Report): RunDir {
    WithArtifact(WithArtifact(rd, DraftName(draft), DraftBytes(draft)), ReportName(report), ReportBytes(report))
  }

  function Attempt(rd: RunDir, packet: Packet, draft: Draft, report: Report, at: Instant): Checkpoint
    requires rd.checkpoints != []
  {
    AttemptCheckpoint(rd.checkpoints, packet, Sha256(DraftBytes(draft)), Sha256(ReportBytes(report)), at)
  }

  function Attempted(rd: RunDir, packet: Packet, draft: Draft, report: Report, at: Instant, t: Telemetry): RunDir
    requires rd.checkpoints != []
  {
    Bound(Paired(rd, draft, report), Attempt(rd, packet, draft, report, at), t)
  }

  lemma PairedKeeps(e: Engine, rd: RunDir, packet: Packet, draft: Draft, report: Report)
    requires Holding(e, rd, packet)
    ensures DraftName(draft) in rd.artifacts ==> rd.artifacts[DraftName(draft)] == DraftBytes(draft)
    ensures ReportName(report) in rd.artifacts ==> rd.artifacts[ReportName(report)] == ReportBytes(report)
    ensures OwnNames(Paired(rd, draft, report))
    ensures forall n :: n in rd.artifacts ==>
              n in Paired(rd, draft, report).artifacts && Paired(rd, draft, report).artifacts[n] == rd.artifacts[n]
  {
    hide StoredPacketHash, StagedMatches;
  }

  /** The names of an attempt: packet, pair, fallback. */
  lemma AttemptNames(e: Engine, rd: RunDir, packet: Packet, draft: Draft, report: Report, at: Instant)
    requires Holding(e, rd, packet)
    ensures var m := Attempt(rd, packet, draft, report, at).artifacts;
            && m == map[ResearchPacket := Sha256(PacketBytes(packet)), DraftName(draft) := Sha256(DraftBytes(draft)),
                        ReportName(report) := Sha256(ReportBytes(report)), ReducedReport := BaseSha(e, packet)]
            && m.Keys == {ResearchPacket, DraftName(draft), ReportName(report), ReducedReport}
            && TelemetryNames(m) == {} && Business(m) == m
            && AttemptArtifacts(m)
            && DraftNames(m) == {DraftName(draft)} && ReportNames(m) == {ReportName(report)}
  {
    hide StoredPacketHash, StagedMatches, OwnNames;
    var m := Attempt(rd, packet, draft, report, at).artifacts;
    assert m.Keys == {ResearchPacket, DraftName(draft), ReportName(report), ReducedReport};
    assert |m.Keys| == 4 == |m|;
    assert Business(m) == m;
    assert DraftNames(m) == {DraftName(draft)} && ReportNames(m) == {ReportName(report)};
  }

  /** Artifact maps with the same business part name the same attempt. */
  lemma SameAttempt(m: map<Name, Digest>, n: map<Name, Digest>)
    requires Business(m) == Business(n)
    ensures DraftNames(m) == DraftNames(n) && ReportNames(m) == ReportNames(n)
    ensures AttemptArtifacts(m) <==> AttemptArtifacts(n)
  {
    assert forall x :: x in m && !x.TelemetryName? <==> x in Business(m);
    assert forall x :: x in n && !x.TelemetryName? <==> x in Business(n);
    assert DraftNames(m) == DraftNames(n) && ReportNames(m) == ReportNames(n);
  }

  lemma AttemptIsStaged(e: Engine, rd: RunDir, packet: Packet, draft: Draft, report: Report, at: Instant)
    requires Holding(e, rd, packet)
    ensures StagedMatches(Paired(rd, draft, report).artifacts, Attempt(rd, packet, draft, report, at).artifacts)
  {
    AttemptNames(e, rd, packet, draft, report, at);
    PairedKeeps(e, rd, packet, draft, report);
    hide StoredPacketHash, AttemptCheckpoint, AttemptArtifacts, OwnNames;
  }

  lemma AttemptRevision(rd: RunDir, packet: Packet, draft: Draft, report: Report, at: Instant)
    requires rd.checkpoints != []
    ensures Attempt(rd, packet, draft, report, at).revision == packet.run.revision
  {
  }

  lemma AttemptIsAdmitted(e: Engine, rd: RunDir, packet: Packet, draft: Draft, report: Report, at: Instant, t: Telemetry)
    requires Holding(e, rd, packet) && |Attempts(rd.checkpoints)| < 3 && InTime(rd, at)
    ensures var full := WithArtifact(Paired(rd, draft, report), TelemetryArtifact(t).0, TelemetryArtifact(t).1);
            var cp := WithTelemetry(Attempt(rd, packet, draft, report, at), t);
            TelemetryFits(Paired(rd, draft, report), t) && Admits(full, cp) && StagedMatches(full.artifacts, cp.artifacts)
  {
    var a := Attempt(rd, packet, draft, report, at);
    AttemptNames(e, rd, packet, draft, report, at);
    PairedKeeps(e, rd, packet, draft, report);
    OwnNamesFit(Paired(rd, draft, report), t);
    BoundNames(a, t);
    BoundIsOtherwise(a, t);
    SameAttempt(a.artifacts, WithTelemetry(a, t).artifacts);
    AttemptIsStaged(e, rd, packet, draft, report, at);
    BoundIsStaged(Paired(rd, draft, report), a, t);
    KeptName(a, t, ResearchPacket);
    KeptName(a, t, ReducedReport);
    var full := WithArtifact(Paired(rd, draft, report), TelemetryArtifact(t).0, TelemetryArtifact(t).1);
    hide WithTelemetry, StagedMatches, Business, TelemetryNamed, StoredPacketHash, Attempts, AttemptArtifacts, DraftNames,
         ReportNames, TelemetryFits, TelemetryNames, OwnNames;
    assert SynthesisStep(full, WithTelemetry(a, t)) by { hide Admits; }
    hide SynthesisStep, Admits;
    StepAdmits(full, WithTelemetry(a, t));
  }

  /** Stage the pair and the telemetry, then append the attempt. */
  lemma RecordsCalmly(e: Engine, s: DateStore, rd: RunDir, packet: Packet, draft: Draft, report: Report, at: Instant,
                      t: Telemetry)
    requires Holding(e, rd, packet) && |Attempts(rd.checkpoints)| < 3 && InTime(rd, at)
    ensures StageAndAppend(Put(s, packet.run.revision, rd), packet.run.revision,
                           [(DraftName(draft), DraftBytes(draft)), (ReportName(report), ReportBytes(report)),
                            TelemetryArtifact(t)],
                           WithTelemetry(Attempt(rd, packet, draft, report, at), t), |rd.checkpoints|, Calm())
            == (Put(s, packet.run.revision, Attempted(rd, packet, draft, report, at, t)), Ok(()))
  {
    hide StageAll, StageArtifact, AppendIfCurrent, AppendCheckpoint, Admits, WithTelemetry, TelemetryFits, Put, Bound,
         AttemptCheckpoint, StagedMatches, OwnNames, StoredPacketHash, Attempts, Holding;
    var rev := packet.run.revision;
    var writes := [(DraftName(draft), DraftBytes(draft)), (ReportName(report), ReportBytes(report)), TelemetryArtifact(t)];
    var once := WithArtifact(rd, DraftName(draft), DraftBytes(draft));
    HoldingHasContext(e, rd, packet);
    PairedKeeps(e, rd, packet, draft, report);
    AttemptIsAdmitted(e, rd, packet, draft, report, at, t);
    StageThree(Put(s, rev, rd), rev, writes, Calm());
    StageCalmly(s, rev, rd, DraftName(draft), DraftBytes(draft), NoFault);
    StageCalmly(s, rev, once, ReportName(report), ReportBytes(report), NoFault);
    AttemptRevision(rd, packet, draft, report, at);
    BindCalmly(s, rev, Paired(rd, draft, report), Attempt(rd, packet, draft, report, at), t, NoFault, NoFault);
  }

  lemma HoldingHasContext(e: Engine, rd: RunDir, packet: Packet)
    requires Holding(e, rd, packet)
    ensures rd.context.Some? && rd.checkpoints != []
  {
  }

  /** More artifacts, with the earlier ones as they were. */
  ghost predicate Extends(a: RunDir, b: RunDir) {
    forall n :: n in a.artifacts ==> n in b.artifacts && b.artifacts[n] == a.artifacts[n]
  }

  lemma AttemptedExtends(e: Engine, rd: RunDir, packet: Packet, draft: Draft, report: Report, at: Instant, t: Telemetry)
    requires Holding(e, rd, packet)
    ensures var next := Attempted(rd, packet, draft, report, at, t);
            Extends(rd, next) && Extends(Paired(rd, draft, report), next) && OwnNames(next)
  {
    PairedKeeps(e, rd, packet, draft, report);
    OwnNamesFit(Paired(rd, draft, report), t);
    hide StoredPacketHash, StagedMatches, WithTelemetry, AttemptCheckpoint, Holding;
  }

  lemma AttemptNamesPacket(e: Engine, rd: RunDir, packet: Packet, draft: Draft, report: Report, at: Instant, t: Telemetry)
    requires Holding(e, rd, packet)
    ensures var a := Attempt(rd, packet, draft, report, at);
            var cp := WithTelemetry(a, t);
            && NamesPacket(e, cp, packet) && cp.stage.Validating? && cp.writtenAt == at
            && DraftNames(cp.artifacts) == {DraftName(draft)} && ReportNames(cp.artifacts) == {ReportName(report)}
            && cp.artifacts[DraftName(draft)] == Sha256(DraftBytes(draft))
            && cp.artifacts[ReportName(report)] == Sha256(ReportBytes(report))
            && AttemptArtifacts(cp.artifacts)
  {
    var a := Attempt(rd, packet, draft, report, at);
    AttemptNames(e, rd, packet, draft, report, at);
    BoundNames(a, t);
    BoundIsOtherwise(a, t);
    SameAttempt(a.artifacts, WithTelemetry(a, t).artifacts);
    KeptName(a, t, ResearchPacket);
    KeptName(a, t, ReducedReport);
    KeptName(a, t, DraftName(draft));
    KeptName(a, t, ReportName(report));
    assert ReducedReasonName !in WithTelemetry(a, t).artifacts;
    hide WithTelemetry, StagedMatches, Business, TelemetryNamed, StoredPacketHash, Attempts, AttemptArtifacts, DraftNames,
         ReportNames, TelemetryNames, OwnNames;
  }

  lemma AttemptIsHeld(e: Engine, rd: RunDir, packet: Packet, draft: Draft, report: Report, at: Instant, t: Telemetry)
    requires Holding(e, rd, packet) && |Attempts(rd.checkpoints)| < 3 && InTime(rd, at)
    ensures var next := Attempted(rd, packet, draft, report, at, t);
            && Holding(e, next, packet)
            && Attempts(next.checkpoints) == Attempts(rd.checkpoints) + [Last(next.checkpoints)]
            && Last(next.checkpoints).stage.Validating? && Last(next.checkpoints).writtenAt == at
            && HoldsPair(next, Last(next.checkpoints), draft, report)
            && Last(next.checkpoints).revision == packet.run.revision
  {
    var next, cp := Attempted(rd, packet, draft, report, at, t), WithTelemetry(Attempt(rd, packet, draft, report, at), t);
    AttemptIsAdmitted(e, rd, packet, draft, report, at, t);
    AttemptedExtends(e, rd, packet, draft, report, at, t);
    AttemptNamesPacket(e, rd, packet, draft, report, at, t);
    AttemptsAppend(rd.checkpoints, cp);
    PacketHash(rd.checkpoints, cp);
    assert Last(next.checkpoints) == cp;
    PairIsThere(rd, next, draft, report);
    PacketStays(e, rd, next, packet);
    ReasonStaysAway(rd, packet, draft, report, at, t);
    hide WithTelemetry, StagedMatches, StoredPacketHash, Attempts, AttemptArtifacts, DraftNames, ReportNames, OwnNames,
         Admits, TelemetryFits, Paired, AttemptCheckpoint;
  }

  lemma ReasonStaysAway(rd: RunDir, packet: Packet, draft: Draft, report: Report, at: Instant, t: Telemetry)
    requires rd.checkpoints != [] && ReducedReasonName !in rd.artifacts
    ensures ReducedReasonName !in Attempted(rd, packet, draft, report, at, t).artifacts
  {
  }

  lemma PairIsThere(rd: RunDir, next: RunDir, draft: Draft, report: Report)
    requires Extends(Paired(rd, draft, report), next)
    ensures DraftName(draft) in next.artifacts && next.artifacts[DraftName(draft)] == DraftBytes(draft)
    ensures ReportName(report) in next.artifacts && next.artifacts[ReportName(report)] == ReportBytes(report)
  {
    var paired := Paired(rd, draft, report);
    assert DraftName(draft) in paired.artifacts && ReportName(report) in paired.artifacts;
  }

  lemma PacketStays(e: Engine, rd: RunDir, next: RunDir, packet: Packet)
    requires Extends(rd, next) && Holding(e, rd, packet)
    ensures ResearchPacket in next.artifacts && next.artifacts[ResearchPacket] == PacketBytes(packet)
    ensures ReducedReport in next.artifacts && next.artifacts[ReducedReport] == TextBytes(e.base(packet))
  {
    hide StoredPacketHash, StagedMatches, OwnNames;
  }

  /** The recorded pairs, with one more after them. */
  lemma PairsGoOn(e: Engine, rd: RunDir, next: RunDir, packet: Packet, drafts: seq<Draft>, draft: Draft, i: nat)
    requires Recorded(e, rd, packet, drafts) && Extends(rd, next) && i <= |drafts| && draft.origin.Synthesized?
    requires next.checkpoints != []
    requires Attempts(next.checkpoints) == Attempts(rd.checkpoints) + [Last(next.checkpoints)]
    requires Last(next.checkpoints).revision == packet.run.revision
    requires HoldsPair(next, Last(next.checkpoints), draft, Validate(e, packet, draft, |drafts| + 1))
    ensures var all, attempts := drafts + [draft], Attempts(next.checkpoints);
            && |attempts| == |all|
            && attempts[i].revision == packet.run.revision && all[i].origin.Synthesized?
            && HoldsPair(next, attempts[i], all[i], Validate(e, packet, all[i], i + 1))
  {
    hide Holding, HoldsPair, Attempts, Validate, Extends;
    if i < |drafts| {
      assert Attempts(next.checkpoints)[i] == Attempts(rd.checkpoints)[i];
      PairStays(rd, next, Attempts(rd.checkpoints)[i], drafts[i], Validate(e, packet, drafts[i], i + 1));
    }
  }

  lemma NextIsRecorded(e: Engine, rd: RunDir, packet: Packet, drafts: seq<Draft>, draft: Draft, at: Instant, t: Telemetry)
    requires Recorded(e, rd, packet, drafts) && |drafts| < 3 && InTime(rd, at) && draft.origin.Synthesized?
    ensures var next := Attempted(rd, packet, draft, Validate(e, packet, draft, |drafts| + 1), at, t);
            Recorded(e, next, packet, drafts + [draft]) && Last(next.checkpoints).writtenAt == at
            && next.freeze == rd.freeze
  {
    hide Holding, HoldsPair, Attempted, Validate, Attempts, Extends;
    var report := Validate(e, packet, draft, |drafts| + 1);
    var next := Attempted(rd, packet, draft, report, at, t);
    AttemptKeepsFreeze(e, rd, packet, draft, report, at, t);
    AttemptIsHeld(e, rd, packet, draft, report, at, t);
    AttemptedExtends(e, rd, packet, draft, report, at, t);
    forall i | 0 <= i <= |drafts|
      ensures var all, attempts := drafts + [draft], Attempts(next.checkpoints);
              && |attempts| == |all|
              && attempts[i].revision == packet.run.revision && all[i].origin.Synthesized?
              && HoldsPair(next, attempts[i], all[i], Validate(e, packet, all[i], i + 1))
    {
      PairsGoOn(e, rd, next, packet, drafts, draft, i);
    }
  }

  lemma AttemptKeepsFreeze(e: Engine, rd: RunDir, packet: Packet, draft: Draft, report: Report, at: Instant, t: Telemetry)
    requires Holding(e, rd, packet)
    ensures var next := Attempted(rd, packet, draft, report, at, t);
            next.freeze == rd.freeze && next.checkpoints != []
  {
  }

  lemma PairStays(rd: RunDir, next: RunDir, cp: Checkpoint, draft: Draft, report: Report)
    requires Extends(rd, next) && HoldsPair(rd, cp, draft, report)
    ensures HoldsPair(next, cp, draft, report)
  {
    hide AttemptArtifacts, DraftNames, ReportNames;
  }

  // ---- Reading what is recorded ----

  lemma PairIsRead(s: DateStore, rev: nat, rd: RunDir, cp: Checkpoint, draft: Draft, report: Report)
    requires HoldsPair(rd, cp, draft, report) && cp.revision == rev && WellFormedReport(report)
    ensures RecordedAttempt(Put(s, rev, rd), cp) == Some((draft, report))
  {
    hide AttemptArtifacts, DraftNames, ReportNames;
    var names, reports := {DraftName(draft)}, {ReportName(report)};
    assert TheName(names) == DraftName(draft) && TheName(reports) == ReportName(report);
    LoadPut(s, rev, rd);
  }

  lemma ReportIsWellFormed(e: Engine, packet: Packet, draft: Draft, n: nat)
    requires 1 <= n <= 3
    ensures var report := Validate(e, packet, draft, n);
            && WellFormedReport(report) && report.attempt == n
            && report.packetSha == ContentSha(packet) && report.revision == packet.run.revision
  {
  }

  /** The recorded reports are read back as the engine gave them. */
  lemma {:induction false} ReportsAreRead(e: Engine, s: DateStore, rd: RunDir, packet: Packet, drafts: seq<Draft>, n: nat)
    requires Recorded(e, rd, packet, drafts) && n <= |drafts|
    ensures RecordedReports(e, Put(s, packet.run.revision, rd), packet, Attempts(rd.checkpoints)[..n])
            == Some(Reports(e, packet, drafts[..n]))
  {
    if n == 0 {
      NothingIsRead(e, Put(s, packet.run.revision, rd), packet, Attempts(rd.checkpoints), drafts);
    } else {
      hide Recorded, Attempts, Put, Reports;
      ReportsAreRead(e, s, rd, packet, drafts, n - 1);
      OneIsRead(e, s, rd, packet, drafts, n);
      ReportsGrow(e, packet, drafts, n);
      ReadOneMore(e, Put(s, packet.run.revision, rd), packet, Attempts(rd.checkpoints), n,
                  Reports(e, packet, drafts[..n - 1]), drafts[n - 1]);
    }
  }

  lemma NothingIsRead(e: Engine, s: DateStore, packet: Packet, attempts: seq<Checkpoint>, drafts: seq<Draft>)
    ensures RecordedReports(e, s, packet, attempts[..0]) == Some(Reports(e, packet, drafts[..0]))
  {
    assert attempts[..0] == [] && drafts[..0] == [];
    assert Reports(e, packet, []) == [];
  }

  lemma OneIsRead(e: Engine, s: DateStore, rd: RunDir, packet: Packet, drafts: seq<Draft>, n: nat)
    requires Recorded(e, rd, packet, drafts) && 0 < n <= |drafts|
    ensures |Attempts(rd.checkpoints)| == |drafts| <= 3 && drafts[n - 1].origin.Synthesized?
    ensures RecordedAttempt(Put(s, packet.run.revision, rd), Attempts(rd.checkpoints)[n - 1])
            == Some((drafts[n - 1], Validate(e, packet, drafts[n - 1], n)))
  {
    hide Holding, HoldsPair, Attempts, Put, RecordedAttempt, Validate;
    ReportIsWellFormed(e, packet, drafts[n - 1], n);
    PairIsRead(s, packet.run.revision, rd, Attempts(rd.checkpoints)[n - 1], drafts[n - 1],
               Validate(e, packet, drafts[n - 1], n));
  }

  lemma ReadOneMore(e: Engine, s: DateStore, packet: Packet, attempts: seq<Checkpoint>, n: nat, reports: seq<Report>,
                    draft: Draft)
    requires 0 < n <= |attempts| && n <= 3 && draft.origin.Synthesized?
    requires RecordedReports(e, s, packet, attempts[..n - 1]) == Some(reports)
    requires RecordedAttempt(s, attempts[n - 1]) == Some((draft, Validate(e, packet, draft, n)))
    ensures RecordedReports(e, s, packet, attempts[..n]) == Some(reports + [Validate(e, packet, draft, n)])
  {
    hide RecordedAttempt;
    assert attempts[..n][..n - 1] == attempts[..n - 1];
    ReportIsWellFormed(e, packet, draft, n);
    hide Validate;
  }

  lemma ReportsGrow(e: Engine, packet: Packet, drafts: seq<Draft>, n: nat)
    requires 0 < n <= |drafts|
    ensures Reports(e, packet, drafts[..n])
            == Reports(e, packet, drafts[..n - 1]) + [Validate(e, packet, drafts[n - 1], n)]
  {
    hide Validate;
  }

  lemma LastIsRead(e: Engine, s: DateStore, rd: RunDir, packet: Packet, drafts: seq<Draft>)
    requires Recorded(e, rd, packet, drafts) && drafts != []
    ensures var n, attempts := |drafts|, Attempts(rd.checkpoints);
            && |attempts| == n
            && RecordedAttempt(Put(s, packet.run.revision, rd), Last(attempts))
               == Some((drafts[n - 1], Validate(e, packet, drafts[n - 1], n)))
  {
    var n := |drafts|;
    ReportIsWellFormed(e, packet, drafts[n - 1], n);
    PairIsRead(s, packet.run.revision, rd, Last(Attempts(rd.checkpoints)), drafts[n - 1],
               Validate(e, packet, drafts[n - 1], n));
    hide Holding, HoldsPair, Attempts, Put, RecordedAttempt, Validate;
  }

  lemma PacketIsStaged(e: Engine, s: DateStore, rd: RunDir, packet: Packet, allowed: set<Stage>)
    requires Holding(e, rd, packet) && Last(rd.checkpoints).stage in allowed
    ensures StagedPacket(Put(s, packet.run.revision, rd), packet, allowed)
    ensures Load(Put(s, packet.run.revision, rd), packet.run.revision) == LoadDir(rd, false)
    ensures ReadStaged(Put(s, packet.run.revision, rd), packet.run.revision, ReducedReport) == Some(TextBytes(e.base(packet)))
  {
    LoadPut(s, packet.run.revision, rd);
    hide StoredPacketHash, StagedMatches, OwnNames;
  }

  // ---- What the validator decides ----

  /** The validator's answer once it read the last recorded pair, or found none. */
  lemma ValidationBranches(e: Engine, s: DateStore, rd: RunDir, packet: Packet, drafts: seq<Draft>, draft: Draft,
                           at: Instant, t: Telemetry)
    requires Recorded(e, rd, packet, drafts) && draft.origin.Synthesized? && PastCutoff(rd, at)
    requires Continues(s, packet.run.revision, rd)
    ensures var n, d := |drafts|, PlanValidation(e, Put(s, packet.run.revision, rd), packet, draft, at, t);
            if n == 0 then d == RecordAttempt(e, rd.checkpoints, packet, draft, at, t, 1)
            else if drafts[n - 1] == draft then d == Answer(Validate(e, packet, draft, n))
            else if NextAttempt(packet, Validate(e, packet, drafts[n - 1], n)).None? then d == Refuse
            else d == RecordAttempt(e, rd.checkpoints, packet, draft, at, t,
                                    NextAttempt(packet, Validate(e, packet, drafts[n - 1], n)).value)
  {
    hide LatestTelemetry, Attempts, Put, StagedPacketIn, Load, Validate, RecordedAttempt, NextAttempt, RecordAttempt,
         HoldsPair, StoredPacketHash, StagedMatches, OwnNames;
    HoldingFits(e, rd, packet);
    PacketIsStaged(e, s, rd, packet, {Stage.AwaitingSynthesis, Stage.Validating});
    if drafts != [] {
      LastIsRead(e, s, rd, packet, drafts);
      ReportIsWellFormed(e, packet, drafts[|drafts| - 1], |drafts|);
    }
    assert packet.run.cutoff.Some? && at >= packet.run.cutoff.value;
    hide Holding;
  }

  /** Another draft may follow exactly an invalid one that was not the third. */
  lemma RepairIsPermitted(e: Engine, packet: Packet, draft: Draft, n: nat)
    requires 1 <= n <= 3
    ensures NextAttempt(packet, Validate(e, packet, draft, n))
            == if !Validate(e, packet, draft, n).valid && n < 3 then Some(n + 1) else None
  {
  }

  /** One submission, undisturbed, as the service carries it out. */
  function Submission(packet: Packet, draft: Draft, at: Instant, t: Telemetry): Served {
    Served(CallValidate(packet, draft, at), t, at, Calm())
  }

  lemma SubmissionServes(e: Engine, s: DateStore, packet: Packet, draft: Draft, at: Instant, t: Telemetry)
    ensures Serve(e, s, Submission(packet, draft, at, t))
            == Perform(s, packet.run.revision, PlanValidation(e, s, packet, draft, at, t), at, Calm())
  {
    hide Perform, PlanValidation;
  }

  lemma AttemptIsServed(e: Engine, s: DateStore, rd: RunDir, packet: Packet, draft: Draft, at: Instant, t: Telemetry, n: nat)
    requires Holding(e, rd, packet) && |Attempts(rd.checkpoints)| < 3 && InTime(rd, at)
    ensures Perform(Put(s, packet.run.revision, rd), packet.run.revision,
                    RecordAttempt(e, rd.checkpoints, packet, draft, at, t, n), at, Calm())
            == (Put(s, packet.run.revision, Attempted(rd, packet, draft, Validate(e, packet, draft, n), at, t)),
                Ok(Validated(Validate(e, packet, draft, n))))
  {
    RecordsCalmly(e, s, rd, packet, draft, Validate(e, packet, draft, n), at, t);
    hide Holding, Attempted, Validate, Put, StageAndAppend, WithTelemetry, AttemptCheckpoint, Attempts;
  }

  lemma ContinuesAfter(e: Engine, s: DateStore, rd: RunDir, packet: Packet, draft: Draft, report: Report, at: Instant,
                       t: Telemetry)
    requires Holding(e, rd, packet)
    ensures Continues(s, packet.run.revision, Attempted(rd, packet, draft, report, at, t))
  {
    var a, next := Attempt(rd, packet, draft, report, at), Attempted(rd, packet, draft, report, at, t);
    AttemptNames(e, rd, packet, draft, report, at);
    AttemptRevision(rd, packet, draft, report, at);
    hide LatestTelemetry, WithTelemetry, AttemptCheckpoint, AttemptArtifacts, Business, Holding, TelemetryNames;
    TelemetryContinues(s, packet.run.revision, next, next.checkpoints, |next.checkpoints| - 1, a, t);
  }

  /** While every draft so far is invalid and there were fewer than three, another one is judged as the next. */
  predicate MayFollow(e: Engine, packet: Packet, drafts: seq<Draft>, draft: Draft) {
    && draft.origin.Synthesized?
    && |drafts| < 3
    && (drafts != [] ==>
          draft != drafts[|drafts| - 1] && !Validate(e, packet, drafts[|drafts| - 1], |drafts|).valid)
  }

  /**
   After n < 3 drafts of which the last is invalid, a draft other than the last is recorded with
   the report the engine gives it for attempt n + 1.
   */
  lemma NextDraftIsRecorded(e: Engine, s: DateStore, rd: RunDir, packet: Packet, drafts: seq<Draft>, draft: Draft,
                            at: Instant, t: Telemetry)
    requires Recorded(e, rd, packet, drafts) && MayFollow(e, packet, drafts, draft) && InTime(rd, at)
    requires Continues(s, packet.run.revision, rd)
    ensures var report := Validate(e, packet, draft, |drafts| + 1);
            var next := Attempted(rd, packet, draft, report, at, t);
            && Serve(e, Put(s, packet.run.revision, rd), Submission(packet, draft, at, t))
               == (Put(s, packet.run.revision, next), Ok(Validated(report)))
            && Recorded(e, next, packet, drafts + [draft]) && Continues(s, packet.run.revision, next)
            && next.checkpoints != [] && Last(next.checkpoints).writtenAt == at && next.freeze == rd.freeze
  {
    var n := |drafts|;
    var report := Validate(e, packet, draft, n + 1);
    SubmissionServes(e, Put(s, packet.run.revision, rd), packet, draft, at, t);
    ValidationBranches(e, s, rd, packet, drafts, draft, at, t);
    if n > 0 { RepairIsPermitted(e, packet, drafts[n - 1], n); }
    AttemptIsServed(e, s, rd, packet, draft, at, t, n + 1);
    NextIsRecorded(e, rd, packet, drafts, draft, at, t);
    ContinuesAfter(e, s, rd, packet, draft, report, at, t);
    hide Holding, HoldsPair, Attempted, Validate, Put, Perform, PlanValidation, Serve, Continues, RecordAttempt, NextAttempt;
  }

  /** Submitting the last recorded draft again returns its recorded report and writes nothing, whatever fails. */
  lemma SameDraftIsAnswered(e: Engine, s: DateStore, rd: RunDir, packet: Packet, drafts: seq<Draft>, at: Instant,
                            t: Telemetry, now: Instant, env: Environment)
    requires Recorded(e, rd, packet, drafts) && drafts != [] && PastCutoff(rd, at) && Continues(s, packet.run.revision, rd)
    ensures var draft, s1 := drafts[|drafts| - 1], Put(s, packet.run.revision, rd);
            Serve(e, s1, Served(CallValidate(packet, draft, at), t, now, env))
            == (s1, Ok(Validated(Validate(e, packet, draft, |drafts|))))
  {
    ValidationBranches(e, s, rd, packet, drafts, drafts[|drafts| - 1], at, t);
    hide Holding, HoldsPair, Validate, Put, PlanValidation, Continues, RecordAttempt, NextAttempt;
  }

  /** No other draft is judged once one is valid or three were judged: it is refused, and nothing is written. */
  lemma NoFurtherDraft(e: Engine, s: DateStore, rd: RunDir, packet: Packet, drafts: seq<Draft>, draft: Draft,
                       at: Instant, t: Telemetry, now: Instant, env: Environment)
    requires Recorded(e, rd, packet, drafts) && drafts != [] && PastCutoff(rd, at) && Continues(s, packet.run.revision, rd)
    requires draft.origin.Synthesized? && draft != drafts[|drafts| - 1]
    requires Validate(e, packet, drafts[|drafts| - 1], |drafts|).valid || |drafts| == 3
    ensures var s1 := Put(s, packet.run.revision, rd);
            Serve(e, s1, Served(CallValidate(packet, draft, at), t, now, env)) == (s1, Rejected(InvalidRequest))
  {
    ValidationBranches(e, s, rd, packet, drafts, draft, at, t);
    RepairIsPermitted(e, packet, drafts[|drafts| - 1], |drafts|);
    hide Holding, HoldsPair, Validate, Put, PlanValidation, Continues, RecordAttempt, NextAttempt;
  }

  // ---- How the run then ends ----

  function SynthesizedFinal(rd: RunDir, packet: Packet, at: Instant): Checkpoint
    requires rd.checkpoints != []
  {
    var run := packet.run;
    Checkpoint(run.revision, Stage.Published, Execution.Published, run.quality, run.delivery, at, run.cutoff,
               Names(rd, None), false)
  }

  lemma SynthesizedIsPlanned(e: Engine, s: DateStore, rd: RunDir, packet: Packet, drafts: seq<Draft>, at: Instant,
                             t: Telemetry)
    requires Recorded(e, rd, packet, drafts) && drafts != [] && Continues(s, packet.run.revision, rd) && InTime(rd, at)
    requires Validate(e, packet, drafts[|drafts| - 1], |drafts|).valid
    ensures var draft, report := drafts[|drafts| - 1], Validate(e, packet, drafts[|drafts| - 1], |drafts|);
            PlanSynthesized(e, Put(s, packet.run.revision, rd), packet, at, t)
            == Closing(rd, WithTelemetry(SynthesizedFinal(rd, packet, at), t), None,
                       SynthesizedContents(packet, draft, report), t, e.brief(packet, draft, report))
  {
    PacketIsStaged(e, s, rd, packet, {Stage.Validating, Stage.Published});
    LastIsRead(e, s, rd, packet, drafts);
    ReportIsWellFormed(e, packet, drafts[|drafts| - 1], |drafts|);
    hide LatestTelemetry, Attempts, StoredPacketHash, WithTelemetry, StagedMatches, HoldsPair, Validate, StagedPacket, Load,
         RecordedAttempt, Put, MakeBundle, AlreadySynthesized, OwnNames;
    assert SynthesizedReady(Put(s, packet.run.revision, rd), packet, at);
  }

  lemma SynthesizedIsAdmitted(e: Engine, rd: RunDir, packet: Packet, drafts: seq<Draft>, at: Instant, t: Telemetry)
    requires Recorded(e, rd, packet, drafts) && drafts != [] && InTime(rd, at)
    ensures var full, cp := Loaded(rd, None, t), WithTelemetry(SynthesizedFinal(rd, packet, at), t);
            Admits(full, cp) && StagedMatches(full.artifacts, cp.artifacts)
  {
    hide WithTelemetry, StagedMatches, Business, TelemetryNamed, StoredPacketHash, Attempts, AttemptArtifacts, DraftNames,
         ReportNames, TelemetryFits, TelemetryNames, OwnNames, Validate;
    var final, latest := SynthesizedFinal(rd, packet, at), Last(rd.checkpoints);
    var full, cp := Loaded(rd, None, t), WithTelemetry(final, t);
    BusinessIsStaged(rd.artifacts, latest.artifacts);
    OwnNamesFit(rd, t);
    FinalBusiness(rd, None, final, t);
    FinalStaged(rd, None, final, t);
    BoundIsOtherwise(final, t);
    assert HoldsPair(rd, latest, drafts[|drafts| - 1], Validate(e, packet, drafts[|drafts| - 1], |drafts|));
    SameAttempt(latest.artifacts, cp.artifacts);
    KeptName(final, t, ResearchPacket);
    KeptName(final, t, ReducedReport);
    assert SynthesisStep(full, cp) by { hide Admits; }
    hide SynthesisStep, Admits;
    StepAdmits(full, cp);
  }

  lemma BusinessIsStaged(artifacts: map<Name, Payload>, m: map<Name, Digest>)
    requires StagedMatches(artifacts, m)
    ensures StagedMatches(artifacts, Business(m))
  {
  }

  /** The service calls that end a run, undisturbed. */
  function Synthesis(packet: Packet, at: Instant, t: Telemetry): Served {
    Served(CallSynthesized(packet, at), t, at, Calm())
  }

  function Reduction(packet: Packet, reason: ReducedReason, at: Instant, t: Telemetry): Served {
    Served(CallReduced(packet, reason, at), t, at, Calm())
  }

  lemma EndingServes(e: Engine, s: DateStore, packet: Packet, reason: ReducedReason, at: Instant, t: Telemetry)
    ensures Serve(e, s, Synthesis(packet, at, t))
            == Perform(s, packet.run.revision, PlanSynthesized(e, s, packet, at, t), at, Calm())
    ensures Serve(e, s, Reduction(packet, reason, at, t))
            == Perform(s, packet.run.revision, PlanReduced(e, s, packet, reason, at, t), at, Calm())
  {
    hide Perform, PlanSynthesized, PlanReduced;
  }

  /** Readers are given this report with these contents, and the caller its receipt. */
  ghost predicate Delivers(outcome: (DateStore, Result<Reply>), rev: nat, markdown: string, contents: Contents) {
    && outcome.1.Ok? && outcome.1.value.Receipted?
    && GetReceipt(outcome.0, rev) == Some(outcome.1.value.receipt)
    && GetPublished(outcome.0, rev).Some?
    && GetPublished(outcome.0, rev).value.0 == markdown
    && GetPublished(outcome.0, rev).value.1.contents == contents
  }

  /** When the last recorded draft is valid its brief is what readers get. */
  lemma ValidDraftIsPublished(e: Engine, s: DateStore, rd: RunDir, packet: Packet, drafts: seq<Draft>, at: Instant,
                              t: Telemetry)
    requires Recorded(e, rd, packet, drafts) && drafts != [] && Continues(s, packet.run.revision, rd) && InTime(rd, at)
    requires Validate(e, packet, drafts[|drafts| - 1], |drafts|).valid
    requires packet.run.revision !in s.finals && packet.run.revision !in s.index
    ensures var rev, draft := packet.run.revision, drafts[|drafts| - 1];
            var report := Validate(e, packet, draft, |drafts|);
            Delivers(Serve(e, Put(s, rev, rd), Synthesis(packet, at, t)), rev, e.brief(packet, draft, report),
                     SynthesizedContents(packet, draft, report))
  {
    var rev, draft, final := packet.run.revision, drafts[|drafts| - 1], SynthesizedFinal(rd, packet, at);
    var report := Validate(e, packet, draft, |drafts|);
    EndingServes(e, Put(s, rev, rd), packet, SynthesisUnavailable, at, t);
    SynthesizedIsPlanned(e, s, rd, packet, drafts, at, t);
    SynthesizedIsAdmitted(e, rd, packet, drafts, at, t);
    OwnNamesFit(rd, t);
    BoundIsOtherwise(final, t);
    hide LatestTelemetry, Put, Perform, PlanSynthesized, Admits, Loaded, GetPublished, GetReceipt, StagedMatches, OwnNames,
         WithTelemetry, Attempts, StoredPacketHash, ComposeRun, Validate, Serve, Continues, HoldsPair, TelemetryFits;
    EndsCalmly(s, rev, rd, WithTelemetry(final, t), None, SynthesizedContents(packet, draft, report), t,
               e.brief(packet, draft, report), at);
  }

  /** The reason a fallback may be published for: exhausted after three drafts, else unavailable or out of time. */
  predicate FallbackFits(e: Engine, packet: Packet, drafts: seq<Draft>, reason: ReducedReason) {
    (|drafts| == 3 <==> reason.ValidationRepairExhausted?)
    && forall i :: 0 <= i < |drafts| ==> !Validate(e, packet, drafts[i], i + 1).valid
  }

  function NamedReason(reason: ReducedReason): Option<(Name, Payload)> {
    Some((ReducedReasonName, ReasonBytes(reason)))
  }

  function ReducedFinal(rd: RunDir, packet: Packet, reason: ReducedReason, at: Instant): Checkpoint
    requires rd.checkpoints != []
  {
    var run := packet.run;
    Checkpoint(run.revision, Stage.Published, Execution.Published, run.quality, run.delivery, at, run.cutoff,
               Names(rd, NamedReason(reason)), false)
  }

  function FallbackContents(e: Engine, packet: Packet, reason: ReducedReason, drafts: seq<Draft>): Contents {
    ReducedContents(packet, reason, BaseSha(e, packet), BlockedPlans(packet, reason), Reports(e, packet, drafts))
  }

  lemma FitsMeans(e: Engine, packet: Packet, drafts: seq<Draft>, reason: ReducedReason)
    ensures ReasonFits(Reports(e, packet, drafts), reason) <==> FallbackFits(e, packet, drafts, reason)
  {
    hide Validate;
    var reports := Reports(e, packet, drafts);
    assert forall i: nat :: i < |drafts| ==> reports[i] == Validate(e, packet, drafts[i], i + 1);
  }

  /** An open run's fallback is ready exactly when the reason fits its reports. */
  lemma FallbackIsReady(e: Engine, s: DateStore, rd: RunDir, packet: Packet, drafts: seq<Draft>, reason: ReducedReason,
                        at: Instant)
    requires Recorded(e, rd, packet, drafts) && InTime(rd, at)
    ensures RecordedReports(e, Put(s, packet.run.revision, rd), packet, Attempts(rd.checkpoints))
            == Some(Reports(e, packet, drafts))
    ensures ReducedReady(e, Put(s, packet.run.revision, rd), packet, reason, at) <==> FallbackFits(e, packet, drafts, reason)
  {
    hide Attempts, StoredPacketHash, StagedMatches, HoldsPair, Validate, StagedPacket, Load, RecordedReports, Put, OwnNames,
         ReasonFits, FallbackFits, ReadStaged, Reports;
    var attempts := Attempts(rd.checkpoints);
    HoldingFits(e, rd, packet);
    PacketIsStaged(e, s, rd, packet, {Stage.AwaitingSynthesis, Stage.Validating, Stage.Published});
    ReportsAreRead(e, s, rd, packet, drafts, |drafts|);
    assert attempts[..|drafts|] == attempts && drafts[..|drafts|] == drafts;
    FitsMeans(e, packet, drafts, reason);
    hide Holding;
  }

  lemma HoldingFits(e: Engine, rd: RunDir, packet: Packet)
    requires Holding(e, rd, packet)
    ensures rd.context.Some? && rd.checkpoints != []
    ensures rd.freeze == packet.run.cutoff && packet.run.cutoff.Some? && !packet.run.quality.Fail?
    ensures ReducedReport in Last(rd.checkpoints).artifacts
            && Last(rd.checkpoints).artifacts[ReducedReport] == BaseSha(e, packet)
    ensures !Last(rd.checkpoints).stage.Published?
  {
    hide StoredPacketHash, StagedMatches, OwnNames;
  }

  lemma ReducedDecides(e: Engine, s: DateStore, stored: Stored, packet: Packet, reason: ReducedReason, at: Instant,
                       t: Telemetry, reports: seq<Report>)
    requires Load(s, packet.run.revision) == Some(stored) && !stored.published && stored.checkpoints != []
    requires !Last(stored.checkpoints).stage.Published? && !packet.run.quality.Fail?
    requires RecordedReports(e, s, packet, Attempts(stored.checkpoints)) == Some(reports)
    requires !LatestTelemetry(s, stored.checkpoints).Malformed?
    ensures PlanReduced(e, s, packet, reason, at, t)
            == if ReducedReady(e, s, packet, reason, at)
               then CloseOrFinish(s, stored, packet.run, at, packet.run.quality, packet.run.cutoff, NamedReason(reason),
                                  ReducedContents(packet, reason, BaseSha(e, packet), BlockedPlans(packet, reason), reports),
                                  e.reduced(packet, reason), t)
               else Refuse
  {
    hide ReducedReadyFrom, LatestTelemetry, Attempts, Load, AlreadyReduced, BlockedPlans, CloseOrFinish, RecordedReports;
  }

  lemma FallbackIsPlanned(e: Engine, s: DateStore, rd: RunDir, packet: Packet, drafts: seq<Draft>, reason: ReducedReason,
                          at: Instant, t: Telemetry)
    requires Recorded(e, rd, packet, drafts) && Continues(s, packet.run.revision, rd) && InTime(rd, at)
    ensures PlanReduced(e, Put(s, packet.run.revision, rd), packet, reason, at, t)
            == if FallbackFits(e, packet, drafts, reason)
               then Closing(rd, WithTelemetry(ReducedFinal(rd, packet, reason, at), t), NamedReason(reason),
                            FallbackContents(e, packet, reason, drafts), t, e.reduced(packet, reason))
               else Refuse
  {
    FallbackIsReady(e, s, rd, packet, drafts, reason, at);
    LoadPut(s, packet.run.revision, rd);
    hide LatestTelemetry, Attempts, StoredPacketHash, WithTelemetry, StagedMatches, HoldsPair, Validate, Load, PlanReduced,
         RecordedReports, Put, MakeBundle, OwnNames, FallbackFits, ReadStaged, BlockedPlans, ReducedReady, Reports;
    ReducedDecides(e, Put(s, packet.run.revision, rd), LoadDir(rd, false).value, packet, reason, at, t,
                   Reports(e, packet, drafts));
  }

  lemma FallbackIsReduced(e: Engine, rd: RunDir, packet: Packet, reason: ReducedReason, at: Instant, t: Telemetry)
    requires Holding(e, rd, packet)
    ensures var full, cp := Loaded(rd, NamedReason(reason), t), WithTelemetry(ReducedFinal(rd, packet, reason, at), t);
            ReducedPublication(full, cp)
  {
    var final, latest := ReducedFinal(rd, packet, reason, at), Last(rd.checkpoints);
    FinalBusiness(rd, NamedReason(reason), final, t);
    BoundIsOtherwise(final, t);
    hide WithTelemetry, StagedMatches, Business, TelemetryNamed, StoredPacketHash, OwnNames;
  }

  lemma FallbackIsStaged(e: Engine, rd: RunDir, packet: Packet, reason: ReducedReason, at: Instant, t: Telemetry)
    requires Holding(e, rd, packet)
    ensures var full, cp := Loaded(rd, NamedReason(reason), t), WithTelemetry(ReducedFinal(rd, packet, reason, at), t);
            && Stageable(rd, NamedReason(reason), t) && StagedMatches(full.artifacts, cp.artifacts)
            && TelemetryNamed(cp.artifacts)
            && ResearchPacket in full.artifacts && full.artifacts[ResearchPacket] == PacketBytes(packet)
            && ResearchPacket in cp.artifacts && cp.artifacts[ResearchPacket] == Sha256(PacketBytes(packet))
            && ReducedReport in cp.artifacts && cp.artifacts[ReducedReport] == BaseSha(e, packet)
  {
    var final := ReducedFinal(rd, packet, reason, at);
    BusinessIsStaged(rd.artifacts, Last(rd.checkpoints).artifacts);
    OwnNamesFit(rd, t);
    FitsLater(rd, ReducedReasonName, ReasonBytes(reason), t);
    FinalBusiness(rd, NamedReason(reason), final, t);
    FinalStaged(rd, NamedReason(reason), final, t);
    KeptName(final, t, ResearchPacket);
    KeptName(final, t, ReducedReport);
    hide WithTelemetry, StagedMatches, Business, TelemetryNamed, StoredPacketHash, OwnNames, TelemetryFits, TelemetryNames;
  }

  lemma FallbackIsAdmitted(e: Engine, rd: RunDir, packet: Packet, drafts: seq<Draft>, reason: ReducedReason, at: Instant,
                           t: Telemetry)
    requires Recorded(e, rd, packet, drafts) && InTime(rd, at)
    ensures var full, cp := Loaded(rd, NamedReason(reason), t), WithTelemetry(ReducedFinal(rd, packet, reason, at), t);
            Stageable(rd, NamedReason(reason), t) && Admits(full, cp) && StagedMatches(full.artifacts, cp.artifacts)
  {
    var final := ReducedFinal(rd, packet, reason, at);
    var full, cp := Loaded(rd, NamedReason(reason), t), WithTelemetry(final, t);
    BoundIsOtherwise(final, t);
    FallbackIsReduced(e, rd, packet, reason, at, t);
    FallbackIsStaged(e, rd, packet, reason, at, t);
    hide WithTelemetry, StagedMatches, Business, TelemetryNamed, StoredPacketHash, Attempts, AttemptArtifacts, HoldsPair,
         TelemetryFits, TelemetryNames, OwnNames, Validate, ReducedPublication, Stageable;
    assert SynthesisStep(full, cp) by { hide Admits; }
    hide SynthesisStep, Admits;
    StepAdmits(full, cp);
  }

  /**
   The fallback is published, with every recorded report in it, exactly for the reason that fits:
   exhausted after three invalid drafts, unavailable or out of time after fewer; after a valid
   draft for none, and then nothing is written.
   */
  lemma FallbackIsDelivered(e: Engine, s: DateStore, rd: RunDir, packet: Packet, drafts: seq<Draft>,
                            reason: ReducedReason, at: Instant, t: Telemetry)
    requires Recorded(e, rd, packet, drafts) && Continues(s, packet.run.revision, rd) && InTime(rd, at)
    requires packet.run.revision !in s.finals && packet.run.revision !in s.index
    ensures var rev := packet.run.revision;
            var outcome := Serve(e, Put(s, rev, rd), Reduction(packet, reason, at, t));
            if FallbackFits(e, packet, drafts, reason)
            then Delivers(outcome, rev, e.reduced(packet, reason), FallbackContents(e, packet, reason, drafts))
            else outcome == (Put(s, rev, rd), Rejected(InvalidRequest))
  {
    var rev, final := packet.run.revision, ReducedFinal(rd, packet, reason, at);
    EndingServes(e, Put(s, rev, rd), packet, reason, at, t);
    FallbackIsPlanned(e, s, rd, packet, drafts, reason, at, t);
    if FallbackFits(e, packet, drafts, reason) {
      FallbackIsAdmitted(e, rd, packet, drafts, reason, at, t);
      BoundIsOtherwise(final, t);
      hide LatestTelemetry, Put, Perform, PlanReduced, Admits, Loaded, GetPublished, GetReceipt, StagedMatches, OwnNames,
           WithTelemetry, Attempts, StoredPacketHash, ComposeRun, Validate, Serve, Continues, HoldsPair, Stageable,
           FallbackContents;
      EndsCalmly(s, rev, rd, WithTelemetry(final, t), NamedReason(reason), FallbackContents(e, packet, reason, drafts),
                 t, e.reduced(packet, reason), at);
    } else {
      hide Put, PlanReduced, Serve, Recorded, FallbackFits;
    }
  }

  /** Without a valid last draft nothing is published as synthesized, and nothing is written. */
  lemma InvalidIsNotPublished(e: Engine, s: DateStore, rd: RunDir, packet: Packet, drafts: seq<Draft>, at: Instant,
                              t: Telemetry)
    requires Recorded(e, rd, packet, drafts)
    requires drafts != [] ==> !Validate(e, packet, drafts[|drafts| - 1], |drafts|).valid
    ensures var s1 := Put(s, packet.run.revision, rd);
            Serve(e, s1, Synthesis(packet, at, t)) == (s1, Rejected(InvalidRequest))
  {
    var s1 := Put(s, packet.run.revision, rd);
    EndingServes(e, s1, packet, SynthesisUnavailable, at, t);
    LoadPut(s, packet.run.revision, rd);
    if drafts != [] { LastIsRead(e, s, rd, packet, drafts); }
    hide LatestTelemetry, Attempts, StoredPacketHash, StagedMatches, HoldsPair, Validate, Load, RecordedAttempt, Put,
         CloseOrFinish, AlreadySynthesized, OwnNames, ReadStaged, Serve;
    assert PlanSynthesized(e, s1, packet, at, t) == Refuse;
  }

  // ---- From the handed-off packet ----

  lemma ThreeOwnsItsNames(c: Course)
    requires c.context.cutoff.None?
    ensures OwnNames(After3(c)) && ReducedReasonName !in After3(c).artifacts
  {
    AfterThree(c);
    hide After3, WithTelemetry;
  }

  lemma FourOwnsItsNames(e: Engine, c: Course)
    requires c.context.cutoff.None?
    ensures OwnNames(After4(e, c)) && ReducedReasonName !in After4(e, c).artifacts
  {
    var packet := ThePacket(c);
    ThreeOwnsItsNames(c);
    var once := WithArtifact(After3(c), ResearchPacket, PacketBytes(packet));
    OwnGrows(After3(c), ResearchPacket, PacketBytes(packet));
    OwnGrows(once, ReducedReport, TextBytes(e.base(packet)));
    OwnGrows(Staged4(e, c), TelemetryArtifact(c.packed).0, TelemetryBytes(c.packed));
    assert After4(e, c).artifacts == Ready4(e, c).artifacts;
    hide After3, Packed4, WithTelemetry, ThePacket, OwnEntry;
  }

  lemma FourIsStaged(e: Engine, c: Course)
    requires c.context.cutoff.None?
    ensures StagedMatches(After4(e, c).artifacts, WithTelemetry(Packed4(e, c), c.packed).artifacts)
  {
    Undisturbed.PacketIsStaged(e, c);
    assert After4(e, c).artifacts == Ready4(e, c).artifacts;
  }

  /** The handed-off run awaits its first draft. */
  lemma FourAwaitsDraft(e: Engine, p: Rules, s: DateStore, c: Course)
    requires GoodCourse(p, c)
    ensures var rd, packet := After4(e, c), ThePacket(c);
            && Recorded(e, rd, packet, []) && Continues(s, packet.run.revision, rd)
            && rd.checkpoints != [] && Last(rd.checkpoints).writtenAt == c.packedAt
            && rd.freeze == Some(c.collection.completedAt)
            && packet.run.revision == c.context.revision
  {
    AfterFour(e, c);
    PackedNames(e, c);
    FourOwnsItsNames(e, c);
    FourIsStaged(e, c);
    FallbackKeepsTelemetry(e, s, c);
    BoundIsOtherwise(Packed4(e, c), c.packed);
    KeptName(Packed4(e, c), c.packed, ReducedReport);
    KeptName(Packed4(e, c), c.packed, ResearchPacket);
    assert ReducedReasonName !in WithTelemetry(Packed4(e, c), c.packed).artifacts;
    hide After3, After4, Packed4, WithTelemetry, StoredPacketHash, Attempts, ThePacket, StagedMatches, OwnNames,
         LatestTelemetry;
    assert NamesPacket(e, Last(After4(e, c).checkpoints), ThePacket(c));
  }

  /** One draft as it is submitted. */
  datatype Turn = Turn(draft: Draft, at: Instant, telemetry: Telemetry)

  function Drafts(turns: seq<Turn>): seq<Draft> {
    seq(|turns|, i requires 0 <= i < |turns| => turns[i].draft)
  }

  /** The store after these drafts were submitted in this order. */
  ghost function AfterTurns(e: Engine, s: DateStore, packet: Packet, turns: seq<Turn>): DateStore {
    if turns == [] then s
    else
      var last := turns[|turns| - 1];
      Serve(e, AfterTurns(e, s, packet, turns[..|turns| - 1]), Submission(packet, last.draft, last.at, last.telemetry)).0
  }

  function LastAt(turns: seq<Turn>, start: Instant): Instant {
    if turns == [] then start else turns[|turns| - 1].at
  }

  /** Drafts in order of time, each one allowed to follow those before it. */
  ghost predicate InOrder(e: Engine, packet: Packet, turns: seq<Turn>, start: Instant) {
    forall i :: 0 <= i < |turns| ==>
      && MayFollow(e, packet, Drafts(turns[..i]), turns[i].draft)
      && turns[i].at >= LastAt(turns[..i], start)
  }

  lemma EarlierInOrder(e: Engine, packet: Packet, turns: seq<Turn>, start: Instant)
    requires InOrder(e, packet, turns, start) && turns != []
    ensures InOrder(e, packet, turns[..|turns| - 1], start)
  {
    var earlier := turns[..|turns| - 1];
    assert forall i :: 0 <= i < |earlier| ==> earlier[i] == turns[i] && earlier[..i] == turns[..i];
  }

  lemma InOrderAreFew(e: Engine, packet: Packet, turns: seq<Turn>, start: Instant)
    requires InOrder(e, packet, turns, start)
    ensures |turns| <= 3 && |Drafts(turns)| == |turns|
    ensures forall i :: 0 <= i < |turns| ==> turns[i].at >= start
    ensures LastAt(turns, start) >= start
  {
    if turns != [] {
      EarlierInOrder(e, packet, turns, start);
      InOrderAreFew(e, packet, turns[..|turns| - 1], start);
      assert MayFollow(e, packet, Drafts(turns[..|turns| - 1]), turns[|turns| - 1].draft);
    }
    hide MayFollow;
  }

  /** Every draft of such a sequence is recorded: from the hand-off on, the run holds exactly these drafts. */
  lemma {:induction false} TurnsAreRecorded(e: Engine, p: Rules, s: DateStore, c: Course, turns: seq<Turn>)
    returns (rd: RunDir)
    requires GoodCourse(p, c) && InOrder(e, ThePacket(c), turns, c.packedAt)
    ensures var packet := ThePacket(c);
            && AfterTurns(e, Put(s, c.context.revision, After4(e, c)), packet, turns) == Put(s, packet.run.revision, rd)
            && Recorded(e, rd, packet, Drafts(turns)) && Continues(s, packet.run.revision, rd)
            && rd.checkpoints != [] && Last(rd.checkpoints).writtenAt == LastAt(turns, c.packedAt)
            && rd.freeze == Some(c.collection.completedAt)
  {
    hide After4, ThePacket, Recorded, Continues, Put, Serve, MayFollow, Attempted, Submission, Validate;
    var packet := ThePacket(c);
    FourAwaitsDraft(e, p, s, c);
    if turns == [] {
      rd := After4(e, c);
      assert Drafts(turns) == [];
    } else {
      var n := |turns| - 1;
      var last := turns[n];
      EarlierInOrder(e, packet, turns, c.packedAt);
      var before := TurnsAreRecorded(e, p, s, c, turns[..n]);
      InOrderAreFew(e, packet, turns[..n], c.packedAt);
      assert InTime(before, last.at);
      NextDraftIsRecorded(e, s, before, packet, Drafts(turns[..n]), last.draft, last.at, last.telemetry);
      rd := Attempted(before, packet, last.draft, Validate(e, packet, last.draft, n + 1), last.at, last.telemetry);
      assert Drafts(turns) == Drafts(turns[..n]) + [last.draft];
    }
  }

  // ---- The whole of it ----

  /** The last draft, if there is one, is valid. */
  predicate LastIsValid(e: Engine, packet: Packet, drafts: seq<Draft>) {
    drafts != [] && Validate(e, packet, drafts[|drafts| - 1], |drafts|).valid
  }

  /** What the validator answers to one more draft. */
  ghost predicate AnswersDraft(e: Engine, s1: DateStore, packet: Packet, drafts: seq<Draft>, draft: Draft, at: Instant,
                               t: Telemetry)
  {
    var n, outcome := |drafts|, Serve(e, s1, Submission(packet, draft, at, t));
    if MayFollow(e, packet, drafts, draft) then outcome.1 == Ok(Validated(Validate(e, packet, draft, n + 1)))
    else if n > 0 && draft == drafts[n - 1] then outcome == (s1, Ok(Validated(Validate(e, packet, draft, n))))
    else outcome == (s1, Rejected(InvalidRequest))
  }

  /** What a publisher of the synthesized report gives. */
  ghost predicate AnswersSynthesis(e: Engine, s1: DateStore, packet: Packet, drafts: seq<Draft>, at: Instant, t: Telemetry) {
    var outcome := Serve(e, s1, Synthesis(packet, at, t));
    if LastIsValid(e, packet, drafts) then
      var draft := drafts[|drafts| - 1];
      var report := Validate(e, packet, draft, |drafts|);
      Delivers(outcome, packet.run.revision, e.brief(packet, draft, report), SynthesizedContents(packet, draft, report))
    else outcome == (s1, Rejected(InvalidRequest))
  }

  /** What a publisher of the fallback gives. */
  ghost predicate AnswersReduction(e: Engine, s1: DateStore, packet: Packet, drafts: seq<Draft>, reason: ReducedReason,
                                   at: Instant, t: Telemetry)
  {
    var outcome := Serve(e, s1, Reduction(packet, reason, at, t));
    if FallbackFits(e, packet, drafts, reason) then
      Delivers(outcome, packet.run.revision, e.reduced(packet, reason), FallbackContents(e, packet, reason, drafts))
    else outcome == (s1, Rejected(InvalidRequest))
  }

  lemma DraftIsAnswered(e: Engine, s: DateStore, rd: RunDir, packet: Packet, drafts: seq<Draft>, draft: Draft,
                        at: Instant, t: Telemetry)
    requires Recorded(e, rd, packet, drafts) && Continues(s, packet.run.revision, rd) && InTime(rd, at)
    requires draft.origin.Synthesized?
    ensures AnswersDraft(e, Put(s, packet.run.revision, rd), packet, drafts, draft, at, t)
  {
    if MayFollow(e, packet, drafts, draft) {
      NextDraftIsRecorded(e, s, rd, packet, drafts, draft, at, t);
    } else if drafts != [] && draft == drafts[|drafts| - 1] {
      SameDraftIsAnswered(e, s, rd, packet, drafts, at, t, at, Calm());
    } else {
      NoFurtherDraft(e, s, rd, packet, drafts, draft, at, t, at, Calm());
    }
    hide Holding, HoldsPair, Attempted, Validate, Attempts, Serve, Put, Continues;
  }

  /**
   From an undisturbed hand-off, after any drafts submitted in order: another draft is recorded as
   the next attempt exactly while the last one is invalid, differs from it and was not the third;
   the last one is answered with its own report; anything else is refused. The brief of the last
   draft is what readers get exactly if it is valid, and the fallback exactly for the reason that
   fits the drafts. What is refused writes nothing.
   */
  lemma RepairedRunEnds(e: Engine, p: Rules, s: DateStore, c: Course, turns: seq<Turn>, draft: Draft,
                        reason: ReducedReason, at: Instant, t: Telemetry)
    requires GoodCourse(p, c) && InOrder(e, ThePacket(c), turns, c.packedAt)
    requires draft.origin.Synthesized? && at >= LastAt(turns, c.packedAt)
    requires c.context.revision !in s.finals && c.context.revision !in s.index
    ensures var packet, drafts := ThePacket(c), Drafts(turns);
            var s1 := AfterTurns(e, Put(s, c.context.revision, After4(e, c)), packet, turns);
            && AnswersDraft(e, s1, packet, drafts, draft, at, t)
            && AnswersSynthesis(e, s1, packet, drafts, at, t)
            && AnswersReduction(e, s1, packet, drafts, reason, at, t)
  {
    hide After4, ThePacket, Recorded, Continues, Put, Serve, MayFollow, AfterTurns, InOrder, Delivers, FallbackContents,
         AnswersDraft, Validate, FallbackFits;
    var packet, drafts := ThePacket(c), Drafts(turns);
    var rd := TurnsAreRecorded(e, p, s, c, turns);
    FourAwaitsDraft(e, p, s, c);
    InOrderAreFew(e, packet, turns, c.packedAt);
    assert InTime(rd, at);
    DraftIsAnswered(e, s, rd, packet, drafts, draft, at, t);
    if LastIsValid(e, packet, drafts) {
      ValidDraftIsPublished(e, s, rd, packet, drafts, at, t);
    } else {
      InvalidIsNotPublished(e, s, rd, packet, drafts, at, t);
    }
    FallbackIsDelivered(e, s, rd, packet, drafts, reason, at, t);
  }

  /** After three invalid drafts a further different one is refused, and the fallback is published as exhausted. */
  lemma ThreeFailuresExhaust(e: Engine, p: Rules, s: DateStore, c: Course, turns: seq<Turn>, draft: Draft, at: Instant,
                             t: Telemetry)
    requires GoodCourse(p, c) && InOrder(e, ThePacket(c), turns, c.packedAt) && |turns| == 3
    requires !LastIsValid(e, ThePacket(c), Drafts(turns))
    requires draft.origin.Synthesized? && draft != turns[2].draft && at >= turns[2].at
    requires c.context.revision !in s.finals && c.context.revision !in s.index
    ensures var rev, packet := c.context.revision, ThePacket(c);
            var s1 := AfterTurns(e, Put(s, rev, After4(e, c)), packet, turns);
            && Serve(e, s1, Submission(packet, draft, at, t)) == (s1, Rejected(InvalidRequest))
            && Delivers(Serve(e, s1, Reduction(packet, ValidationRepairExhausted, at, t)), rev,
                        e.reduced(packet, ValidationRepairExhausted),
                        FallbackContents(e, packet, ValidationRepairExhausted, Drafts(turns)))
            && |Reports(e, packet, Drafts(turns))| == 3
  {
    hide After4, ThePacket, Put, Serve, AfterTurns, Delivers, FallbackContents, Validate, Submission, Reduction;
    RepairedRunEnds(e, p, s, c, turns, draft, ValidationRepairExhausted, at, t);
    AllAreInvalid(e, ThePacket(c), turns, c.packedAt);
    FourAwaitsDraft(e, p, s, c);
    hide InOrder, Recorded, Continues;
  }

  lemma AllAreInvalid(e: Engine, packet: Packet, turns: seq<Turn>, start: Instant)
    requires InOrder(e, packet, turns, start) && !LastIsValid(e, packet, Drafts(turns))
    ensures var drafts := Drafts(turns);
            forall i :: 0 <= i < |drafts| ==> !Validate(e, packet, drafts[i], i + 1).valid
  {
    hide Validate;
    var drafts := Drafts(turns);
    forall i | 0 <= i < |drafts| ensures !Validate(e, packet, drafts[i], i + 1).valid {
      if i + 1 < |drafts| {
        assert MayFollow(e, packet, Drafts(turns[..i + 1]), turns[i + 1].draft);
        assert Drafts(turns[..i + 1])[i] == drafts[i];
      }
    }
  }

  /**
   After an undisturbed preparation a draft that is valid at once is recorded, and its report is
   published as synthesized and then given to readers.
   */
  lemma DraftIsPublished(e: Engine, p: Rules, s: DateStore, c: Course, draft: Draft, at: Instant, t: Telemetry,
                         later: Instant, u: Telemetry)
    requires GoodCourse(p, c) && draft.origin.Synthesized? && Validate(e, ThePacket(c), draft, 1).valid
    requires c.packedAt <= at <= later
    requires c.context.revision !in s.finals && c.context.revision !in s.index
    ensures var rev, packet := c.context.revision, ThePacket(c);
            var report := Validate(e, packet, draft, 1);
            var (s5, recorded) := Serve(e, Put(s, rev, After4(e, c)), Submission(packet, draft, at, t));
            && recorded == Ok(Validated(report))
            && Delivers(Serve(e, s5, Synthesis(packet, later, u)), rev, e.brief(packet, draft, report),
                        SynthesizedContents(packet, draft, report))
  {
    hide After4, ThePacket, Put, Serve, Delivers, Validate, Submission, Synthesis, Reduction, Recorded, Continues;
    var rev, packet, turns := c.context.revision, ThePacket(c), [Turn(draft, at, t)];
    var s4 := Put(s, rev, After4(e, c));
    FourAwaitsDraft(e, p, s, c);
    assert turns[..0] == [] && Drafts([]) == [] && Drafts(turns) == [draft];
    assert AfterTurns(e, s4, packet, []) == s4;
    assert AfterTurns(e, s4, packet, turns) == Serve(e, s4, Submission(packet, draft, at, t)).0;
    assert InOrder(e, packet, [], c.packedAt) && InOrder(e, packet, turns, c.packedAt);
    RepairedRunEnds(e, p, s, c, [], draft, SynthesisUnavailable, at, t);
    RepairedRunEnds(e, p, s, c, turns, draft, SynthesisUnavailable, later, u);
  }
}
