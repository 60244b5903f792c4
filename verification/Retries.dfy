/**
 Repeating a publisher's call: after any stop that leaves the run staged, the same call made
 again publishes exactly what the call would have published undisturbed; and once the run is
 published, the call answers with its receipt and writes nothing.
 */
module Retries {
  import opened RunTypes
  import opened RunStore
  import opened RunHistory
  import opened Publication
  import opened FinalBundle
  import opened PublicationMachine
  import opened PublicationService
  import opened Undisturbed

  // ---- What staging leaves ----

  function StagedAll(rd: RunDir, writes: Writes): RunDir
    decreases |writes|
  {
    if writes == [] then rd else StagedAll(WithArtifact(rd, writes[0].0, writes[0].1), writes[1..])
  }

  /** Every write is new or says what is staged already. */
  predicate Agrees(rd: RunDir, writes: Writes)
    decreases |writes|
  {
    writes != [] ==>
      && writes[0].1 != RawBytes([])
      && (writes[0].0 in rd.artifacts ==> rd.artifacts[writes[0].0] == writes[0].1)
      && Agrees(WithArtifact(rd, writes[0].0, writes[0].1), writes[1..])
  }

  /** Two directories that differ at most in staged artifacts, of which the second has all of the first. */
  ghost predicate Under(a: RunDir, b: RunDir) {
    && b == a.(artifacts := b.artifacts)
    && forall n :: n in a.artifacts ==> n in b.artifacts && b.artifacts[n] == a.artifacts[n]
  }

  lemma {:induction false} StagingIsUnder(rd: RunDir, writes: Writes)
    requires Agrees(rd, writes)
    ensures Under(rd, StagedAll(rd, writes))
    decreases |writes|
  {
    if writes != [] { StagingIsUnder(WithArtifact(rd, writes[0].0, writes[0].1), writes[1..]); }
  }

  /** Staging goes on from any part of it to the same directory. */
  lemma {:induction false} StagingResumes(rd: RunDir, writes: Writes, part: RunDir)
    requires Agrees(rd, writes) && Under(rd, part) && Under(part, StagedAll(rd, writes))
    ensures Agrees(part, writes) && StagedAll(part, writes) == StagedAll(rd, writes)
    decreases |writes|
  {
    if writes == [] {
      assert part.artifacts == rd.artifacts;
    } else {
      var (name, payload) := writes[0];
      var next := WithArtifact(rd, name, payload);
      StagingIsUnder(next, writes[1..]);
      StagingResumes(next, writes[1..], WithArtifact(part, name, payload));
    }
  }

  /** The writes are there once they are staged. */
  lemma {:induction false} StagedAreThere(rd: RunDir, writes: Writes, i: nat)
    requires Agrees(rd, writes) && i < |writes|
    ensures var full := StagedAll(rd, writes);
            writes[i].0 in full.artifacts && full.artifacts[writes[i].0] == writes[i].1
    decreases |writes|
  {
    var next := WithArtifact(rd, writes[0].0, writes[0].1);
    StagingIsUnder(next, writes[1..]);
    if i > 0 { StagedAreThere(next, writes[1..], i - 1); }
  }

  /** Nothing goes wrong with the calls from `i` on, before `n`. */
  ghost predicate CalmBetween(env: Environment, i: nat, n: nat) {
    forall k :: i <= k < n ==> env(k).NoFault?
  }

  lemma UnderChain(a: RunDir, b: RunDir, c: RunDir)
    requires Under(a, b) && Under(b, c)
    ensures Under(a, c)
  {
  }

  /** The staged directory after part of the writes, all of them if the loop returned. */
  ghost predicate PartlyStaged(s: DateStore, s': DateStore, rev: nat, rd: RunDir, writes: Writes, whole: bool) {
    && rev in s'.staging && s' == Put(s, rev, s'.staging[rev])
    && Under(rd, s'.staging[rev]) && Under(s'.staging[rev], StagedAll(rd, writes))
    && (whole ==> s'.staging[rev] == StagedAll(rd, writes))
  }

  /** A staging loop, however it goes, leaves a part of what it was to stage; all of it when it returns. */
  lemma {:induction false} StagesPart(s: DateStore, rev: nat, rd: RunDir, writes: Writes, env: Environment, i: nat)
    requires Agrees(rd, writes)
    ensures var (s', r) := StageAll(Put(s, rev, rd), rev, writes, env, i);
            && PartlyStaged(s, s', rev, rd, writes, r.Ok?)
            && (CalmBetween(env, i, i + |writes|) ==> r.Ok?)
    decreases |writes|
  {
    StagingIsUnder(rd, writes);
    if writes == [] {
      assert Put(s, rev, rd).staging[rev] == rd;
    } else {
      var (name, payload) := writes[0];
      var next := WithArtifact(rd, name, payload);
      StageOnce(s, rev, rd, name, payload, env(i));
      StagingIsUnder(next, writes[1..]);
      StagesPart(s, rev, next, writes[1..], env, i + 1);
      StagedPart(s, rev, rd, rd, writes);
      StagedPart(s, rev, next, rd, writes);
      PartOfMore(s, StageAll(Put(s, rev, next), rev, writes[1..], env, i + 1).0, rev, rd, writes,
                 StageAll(Put(s, rev, next), rev, writes[1..], env, i + 1).1.Ok?);
      hide StageArtifact, Put, PartlyStaged, Under, StagedAll, Agrees;
    }
  }

  lemma StagedPart(s: DateStore, rev: nat, part: RunDir, rd: RunDir, writes: Writes)
    requires Under(rd, part) && Under(part, StagedAll(rd, writes))
    ensures PartlyStaged(s, Put(s, rev, part), rev, rd, writes, false)
  {
    assert Put(s, rev, part).staging[rev] == part;
  }

  lemma PartOfMore(s: DateStore, s': DateStore, rev: nat, rd: RunDir, writes: Writes, whole: bool)
    requires Agrees(rd, writes) && writes != []
    requires PartlyStaged(s, s', rev, WithArtifact(rd, writes[0].0, writes[0].1), writes[1..], whole)
    ensures PartlyStaged(s, s', rev, rd, writes, whole)
  {
    UnderChain(rd, WithArtifact(rd, writes[0].0, writes[0].1), s'.staging[rev]);
  }

  lemma StageOnce(s: DateStore, rev: nat, rd: RunDir, name: Name, payload: Payload, fault: Fault)
    requires payload != RawBytes([]) && (name in rd.artifacts ==> rd.artifacts[name] == payload)
    ensures var (s', r) := StageArtifact(Put(s, rev, rd), rev, name, payload, fault);
            && (s' == Put(s, rev, rd) || s' == Put(s, rev, WithArtifact(rd, name, payload)))
            && (r.Ok? ==> s' == Put(s, rev, WithArtifact(rd, name, payload)))
            && (fault.NoFault? ==> r.Ok?)
  {
    var s1, next := Put(s, rev, rd), WithArtifact(rd, name, payload);
    assert name in rd.artifacts ==> rd.artifacts[name := payload] == rd.artifacts;
    assert s1.staging[rev := next] == s.staging[rev := next];
  }

  lemma {:induction false} StagingAgreed(s: DateStore, rev: nat, rd: RunDir, writes: Writes, env: Environment, i: nat)
    requires StageAll(Put(s, rev, rd), rev, writes, env, i).1.Ok?
    ensures Agrees(rd, writes)
    decreases |writes|
  {
    if writes != [] {
      var (name, payload) := writes[0];
      assert Put(s, rev, rd).staging[rev] == rd;
      StageOnce(s, rev, rd, name, payload, env(i));
      hide StageArtifact;
      StagingAgreed(s, rev, WithArtifact(rd, name, payload), writes[1..], env, i + 1);
    }
  }

  // ---- What a call reads again ----

  /** Every staged artifact that could be read still can, with the same bytes. */
  ghost predicate ReadsStay(s: DateStore, s1: DateStore) {
    forall rev, name :: ReadStaged(s, rev, name).Some? ==> ReadStaged(s1, rev, name) == ReadStaged(s, rev, name)
  }

  lemma PayloadStays(s: DateStore, s1: DateStore, cp: Checkpoint, names: set<Name>)
    requires ReadsStay(s, s1) && names <= cp.artifacts.Keys
    ensures NamedPayload(s, cp, names).Some? ==> NamedPayload(s1, cp, names) == NamedPayload(s, cp, names)
  {
  }

  lemma RecordedStays(s: DateStore, s1: DateStore, cp: Checkpoint)
    requires ReadsStay(s, s1) && RecordedAttempt(s, cp).Some?
    ensures RecordedAttempt(s1, cp) == RecordedAttempt(s, cp)
  {
    PayloadStays(s, s1, cp, DraftNames(cp.artifacts));
    PayloadStays(s, s1, cp, ReportNames(cp.artifacts));
    hide NamedPayload, ReadsStay;
  }

  lemma {:induction false} ReportsStay(e: Engine, s: DateStore, s1: DateStore, packet: Packet, attempts: seq<Checkpoint>)
    requires ReadsStay(s, s1) && RecordedReports(e, s, packet, attempts).Some?
    ensures RecordedReports(e, s1, packet, attempts) == RecordedReports(e, s, packet, attempts)
  {
    hide ReadsStay, RecordedAttempt, Validate;
    if attempts != [] {
      ReportsStay(e, s, s1, packet, attempts[..|attempts| - 1]);
      RecordedStays(s, s1, attempts[|attempts| - 1]);
    }
  }

  lemma TelemetryStays(s: DateStore, s1: DateStore, cp: Checkpoint)
    requires ReadsStay(s, s1) && !CheckpointTelemetry(s, cp).Malformed?
    ensures CheckpointTelemetry(s1, cp) == CheckpointTelemetry(s, cp)
  {
    PayloadStays(s, s1, cp, TelemetryNames(cp.artifacts));
    hide NamedPayload, ReadsStay;
  }

  lemma {:induction false} LatestStays(s: DateStore, s1: DateStore, cps: seq<Checkpoint>)
    requires ReadsStay(s, s1) && !LatestTelemetry(s, cps).Malformed?
    ensures LatestTelemetry(s1, cps) == LatestTelemetry(s, cps)
  {
    hide ReadsStay, CheckpointTelemetry;
    if cps != [] {
      if TelemetryNames(Last(cps).artifacts) != {} { TelemetryStays(s, s1, Last(cps)); }
      else { LatestStays(s, s1, cps[..|cps| - 1]); }
    }
  }

  /** The run loads as before, and still holds a packet or none. */
  ghost predicate LoadsAlike(s: DateStore, s1: DateStore, rev: nat) {
    && ReadsStay(s, s1)
    && Load(s1, rev) == Load(s, rev)
    && (ReadStaged(s, rev, ResearchPacket).None? ==> ReadStaged(s1, rev, ResearchPacket).None?)
  }

  lemma EndingStays(s: DateStore, s1: DateStore, stored: Stored, run: RunContext, at: Instant, quality: Quality,
                    cutoff: Option<Instant>, reason: Option<(Name, Payload)>, contents: Contents, markdown: string,
                    telemetry: Telemetry)
    requires ReadsStay(s, s1) && stored.checkpoints != []
    ensures var d := CloseOrFinish(s, stored, run, at, quality, cutoff, reason, contents, markdown, telemetry);
            d.Close? || d.Finish? ==>
              CloseOrFinish(s1, stored, run, at, quality, cutoff, reason, contents, markdown, telemetry) == d
  {
    hide ReadsStay, CheckpointTelemetry;
    var frozen := CheckpointTelemetry(s, Last(stored.checkpoints));
    if !frozen.Malformed? { TelemetryStays(s, s1, Last(stored.checkpoints)); }
  }

  /** A call that decides to end a run, or to finish it, decides the same while nothing it reads changes. */
  lemma SynthesizedStays(e: Engine, s: DateStore, s1: DateStore, packet: Packet, at: Instant, t: Telemetry)
    requires LoadsAlike(s, s1, packet.run.revision)
    ensures var d := PlanSynthesized(e, s, packet, at, t);
            d.Close? || d.Finish? ==> PlanSynthesized(e, s1, packet, at, t) == d
  {
    hide ReadsStay, CloseOrFinish, RecordedAttempt, Load, LatestTelemetry, Attempts;
    var d := PlanSynthesized(e, s, packet, at, t);
    if d.Close? || d.Finish? {
      var stored := Load(s, packet.run.revision).value;
      var attempts := Attempts(stored.checkpoints);
      RecordedStays(s, s1, Last(attempts));
      if !LatestTelemetry(s, stored.checkpoints).Malformed? { LatestStays(s, s1, stored.checkpoints); }
      var (draft, report) := RecordedAttempt(s, Last(attempts)).value;
      EndingStays(s, s1, stored, packet.run, at, packet.run.quality, packet.run.cutoff, None,
                  SynthesizedContents(packet, draft, report), e.brief(packet, draft, report), t);
      ReadStays(s, s1, packet.run.revision, ResearchPacket);
    }
  }

  lemma ReadStays(s: DateStore, s1: DateStore, rev: nat, name: Name)
    requires ReadsStay(s, s1)
    ensures ReadStaged(s, rev, name).Some? ==> ReadStaged(s1, rev, name) == ReadStaged(s, rev, name)
  {
  }

  lemma ReducedStays(e: Engine, s: DateStore, s1: DateStore, packet: Packet, reason: ReducedReason, at: Instant,
                     t: Telemetry)
    requires LoadsAlike(s, s1, packet.run.revision)
    ensures var d := PlanReduced(e, s, packet, reason, at, t);
            d.Close? || d.Finish? ==> PlanReduced(e, s1, packet, reason, at, t) == d
  {
    hide ReadsStay, CloseOrFinish, RecordedReports, Load, LatestTelemetry, Attempts, ReadStaged;
    var d, rev := PlanReduced(e, s, packet, reason, at, t), packet.run.revision;
    if d.Close? || d.Finish? {
      var stored := Load(s, rev).value;
      var attempts := Attempts(stored.checkpoints);
      ReportsStay(e, s, s1, packet, attempts);
      if !LatestTelemetry(s, stored.checkpoints).Malformed? { LatestStays(s, s1, stored.checkpoints); }
      var reports := RecordedReports(e, s, packet, attempts).value;
      EndingStays(s, s1, stored, packet.run, at, packet.run.quality, packet.run.cutoff,
                  Some((ReducedReasonName, ReasonBytes(reason))),
                  ReducedContents(packet, reason, BaseSha(e, packet), BlockedPlans(packet, reason), reports),
                  e.reduced(packet, reason), t);
      ReadStays(s, s1, rev, ResearchPacket);
      ReadStays(s, s1, rev, ReducedReport);
      ReadStays(s, s1, rev, ReducedReasonName);
    }
  }

  lemma OperationalStays(e: Engine, s: DateStore, s1: DateStore, run: RunContext, code: ErrorCode, at: Instant,
                         measured: bool, t: Telemetry)
    requires LoadsAlike(s, s1, run.revision)
    ensures var d := PlanOperational(e, s, run, code, at, measured, t);
            d.Close? || d.Finish? ==> PlanOperational(e, s1, run, code, at, measured, t) == d
  {
    hide ReadsStay, CloseOrFinish, Load, LatestTelemetry, ReadStaged, StoredPacketHash;
    var d, rev := PlanOperational(e, s, run, code, at, measured, t), run.revision;
    if d.Close? || d.Finish? {
      var stored := Load(s, rev).value;
      if !LatestTelemetry(s, stored.checkpoints).Malformed? { LatestStays(s, s1, stored.checkpoints); }
      EndingStays(s, s1, stored, run, at, Fail, stored.cutoff, Some((OperationalReason, CodeBytes(code))),
                  OperationalContents(code), OperationalMarkdown(e, run, code), t);
      ReadStays(s, s1, rev, ResearchPacket);
      ReadStays(s, s1, rev, OperationalReason);
    }
  }

  lemma DecisionStays(e: Engine, s: DateStore, s1: DateStore, call: Call, t: Telemetry)
    requires LoadsAlike(s, s1, CallRev(call)) && CallKind(call).Some?
    ensures var d := Decide(e, s, call, t); d.Close? || d.Finish? ==> Decide(e, s1, call, t) == d
  {
    hide LoadsAlike, PlanSynthesized, PlanReduced, PlanOperational;
    match call
    case CallSynthesized(packet, at) => SynthesizedStays(e, s, s1, packet, at, t);
    case CallReduced(packet, reason, at) => ReducedStays(e, s, s1, packet, reason, at, t);
    case CallOperational(run, code, at, measured) => OperationalStays(e, s, s1, run, code, at, measured, t);
  }

  // ---- The same request, made again ----

  /**
   The same publication is asked for, at whatever time and with whatever telemetry recorder; an
   operational one also of a context that has the execution status of another checkpoint.
   */
  predicate Repeats(a: Call, b: Call) {
    match a
    case CallSynthesized(packet, _) => b.CallSynthesized? && b.packet == packet
    case CallReduced(packet, reason, _) => b.CallReduced? && b.packet == packet && b.reason == reason
    case CallOperational(run, code, _, _) =>
      b.CallOperational? && b.run == run.(execution := b.run.execution) && b.code == code
    case _ => false
  }

  function TimeOf(call: Call): Instant {
    match call
    case CallValidate(_, _, at) => at
    case CallSynthesized(_, at) => at
    case CallReduced(_, _, at) => at
    case CallOperational(_, _, at, _) => at
    case CallFail(_, _, at) => at
  }

  /** What a publisher staged is there, and its final checkpoint is the newest. */
  ghost predicate EndedBy(s: DateStore, s1: DateStore, rev: nat, writes: Writes, cp: Checkpoint) {
    && ReadsStay(s, s1)
    && (ReadStaged(s, rev, ResearchPacket).None? ==> ReadStaged(s1, rev, ResearchPacket).None?)
    && Load(s, rev).Some?
    && Load(s1, rev) == Some(Load(s, rev).value.(checkpoints := Load(s, rev).value.checkpoints + [cp]))
    && forall i :: 0 <= i < |writes| ==> ReadStaged(s1, rev, writes[i].0) == Some(writes[i].1)
  }

  /** The names of a final checkpoint besides its telemetry, and its telemetry. */
  lemma FinalHolds(run: RunContext, at: Instant, quality: Quality, cutoff: Option<Instant>, named: map<Name, Digest>,
                   t: Telemetry)
    ensures var cp := FinalCheckpoint(run, at, quality, cutoff, named, t);
            && cp == Checkpoint(run.revision, Stage.Published, Execution.Published, quality, run.delivery, at, cutoff,
                                cp.artifacts, false)
            && (forall n: Name :: !n.TelemetryName? ==>
                  (n in cp.artifacts <==> n in named) && (n in named ==> cp.artifacts[n] == named[n]))
            && TelemetryNames(cp.artifacts) == {TelemetryArtifact(t).0}
            && cp.artifacts[TelemetryArtifact(t).0] == TelemetryDigest(t)
  {
    var cp := FinalCheckpoint(run, at, quality, cutoff, named, t);
    assert TelemetryNames(cp.artifacts) == {TelemetryArtifact(t).0};
  }

  /** The telemetry of a final checkpoint, as the next call reads it back. */
  lemma TelemetryReadBack(s1: DateStore, cp: Checkpoint, t: Telemetry)
    requires TelemetryNames(cp.artifacts) == {TelemetryArtifact(t).0}
    requires cp.artifacts[TelemetryArtifact(t).0] == TelemetryDigest(t)
    requires ReadStaged(s1, cp.revision, TelemetryArtifact(t).0) == Some(TelemetryArtifact(t).1)
    ensures CheckpointTelemetry(s1, cp) == Found(t, TelemetryDigest(t))
  {
    assert TheName({TelemetryArtifact(t).0}) == TelemetryArtifact(t).0;
  }

  /** An ending that was begun is finished by the next call with the very same bundle. */
  lemma EndingIsFinished(s: DateStore, s1: DateStore, stored: Stored, run: RunContext, other: RunContext, at: Instant, quality: Quality,
                         cutoff: Option<Instant>, reason: Option<(Name, Payload)>, contents: Contents, markdown: string,
                         t: Telemetry, later: Instant, u: Telemetry)
    requires stored.checkpoints != [] && !Last(stored.checkpoints).stage.Published?
    requires var d := CloseOrFinish(s, stored, run, at, quality, cutoff, reason, contents, markdown, t);
             EndedBy(s, s1, run.revision, d.writes, d.cp) && Load(s, run.revision) == Some(stored)
    ensures var d := CloseOrFinish(s, stored, run, at, quality, cutoff, reason, contents, markdown, t);
            var stored1 := Load(s1, run.revision).value;
            && stored1.checkpoints != []
            && CloseOrFinish(s1, stored1, other, later, quality, cutoff, reason, contents, markdown, u) == Finish(d.bundle)
  {
    var d := CloseOrFinish(s, stored, run, at, quality, cutoff, reason, contents, markdown, t);
    var named := if reason.None? then Last(stored.checkpoints).artifacts
                 else Last(stored.checkpoints).artifacts[reason.value.0 := Sha256(reason.value.1)];
    FinalHolds(run, at, quality, cutoff, named, t);
    assert d.writes[|d.writes| - 1] == TelemetryArtifact(t);
    TelemetryReadBack(s1, d.cp, t);
    var stored1 := Load(s1, run.revision).value;
    assert Last(stored1.checkpoints) == d.cp;
    hide Load, CheckpointTelemetry, FinalCheckpoint, ReadsStay, ReadStaged;
  }

  lemma SynthesizedFinishes(e: Engine, s: DateStore, s1: DateStore, packet: Packet, at: Instant, t: Telemetry,
                            later: Instant, u: Telemetry)
    requires var d := PlanSynthesized(e, s, packet, at, t);
             d.Close? && EndedBy(s, s1, packet.run.revision, d.writes, d.cp) && later >= at
    ensures PlanSynthesized(e, s1, packet, later, u) == Finish(PlanSynthesized(e, s, packet, at, t).bundle)
  {
    var rev := packet.run.revision;
    var stored, stored1 := Load(s, rev).value, Load(s1, rev).value;
    var latest, attempts := Last(stored.checkpoints), Attempts(stored.checkpoints);
    var d := PlanSynthesized(e, s, packet, at, t);
    RecordedStays(s, s1, Last(attempts));
    AttemptsAppend(stored.checkpoints, d.cp);
    FinalHolds(packet.run, at, packet.run.quality, packet.run.cutoff, latest.artifacts, t);
    ReadStays(s, s1, rev, ResearchPacket);
    var (draft, report) := RecordedAttempt(s, Last(attempts)).value;
    hide RecordedAttempt, Attempts, ReadStaged, LatestTelemetry, FinalCheckpoint, ReadsStay;
    EndingIsFinished(s, s1, stored, packet.run, packet.run, at, packet.run.quality, packet.run.cutoff, None,
                     SynthesizedContents(packet, draft, report), e.brief(packet, draft, report), t, later, u);
    hide CloseOrFinish, Load;
    assert SynthesizedReadyFrom(stored1, s1, packet, later);
  }

  /** The ending a reduced publisher decided on, and what it had checked. */
  lemma ReducedEnding(e: Engine, s: DateStore, packet: Packet, reason: ReducedReason, at: Instant, t: Telemetry)
    requires PlanReduced(e, s, packet, reason, at, t).Close?
    ensures Load(s, packet.run.revision).Some?
    ensures var stored := Load(s, packet.run.revision).value;
            && !packet.run.quality.Fail? && !stored.published && stored.checkpoints != []
            && ReducedReadyFrom(e, stored, s, packet, reason, at) && !Last(stored.checkpoints).stage.Published?
            && RecordedReports(e, s, packet, Attempts(stored.checkpoints)).Some?
            && PlanReduced(e, s, packet, reason, at, t)
               == CloseOrFinish(s, stored, packet.run, at, packet.run.quality, packet.run.cutoff,
                                Some((ReducedReasonName, ReasonBytes(reason))),
                                ReducedContents(packet, reason, BaseSha(e, packet), BlockedPlans(packet, reason),
                                                RecordedReports(e, s, packet, Attempts(stored.checkpoints)).value),
                                e.reduced(packet, reason), t)
  {
    hide RecordedReports, Attempts, Load, BlockedPlans, ReadStaged;
  }

  /** The packet is found staged after the final checkpoint as it was before. */
  lemma PacketStaysStaged(s: DateStore, s1: DateStore, packet: Packet, allowed: set<Stage>, stored: Stored, cp: Checkpoint)
    requires ReadsStay(s, s1) && StagedPacket(s, packet, allowed) && Stage.Published in allowed
    requires Load(s, packet.run.revision) == Some(stored)
    requires Load(s1, packet.run.revision) == Some(stored.(checkpoints := stored.checkpoints + [cp]))
    requires cp.stage.Published? && cp.quality == packet.run.quality && cp.delivery == packet.run.delivery
    requires ResearchPacket in cp.artifacts && cp.artifacts[ResearchPacket] == Sha256(PacketBytes(packet))
    ensures StagedPacket(s1, packet, allowed)
  {
    ReadStays(s, s1, packet.run.revision, ResearchPacket);
    hide ReadsStay, Load, ReadStaged;
  }

  lemma PacketHeld(s: DateStore, packet: Packet, allowed: set<Stage>, stored: Stored)
    requires StagedPacket(s, packet, allowed) && Load(s, packet.run.revision) == Some(stored)
    ensures stored.checkpoints != []
    ensures var m := Last(stored.checkpoints).artifacts;
            ResearchPacket in m && m[ResearchPacket] == Sha256(PacketBytes(packet))
  {
  }

  /** All of it still holds after the final checkpoint. */
  lemma ReducedReadyAgain(e: Engine, s: DateStore, s1: DateStore, packet: Packet, reason: ReducedReason, at: Instant,
                          later: Instant, stored: Stored, stored1: Stored, cp: Checkpoint, t: Telemetry)
    requires ReadsStay(s, s1) && Load(s, packet.run.revision) == Some(stored) && Load(s1, packet.run.revision) == Some(stored1)
    requires stored.checkpoints != [] && stored1 == stored.(checkpoints := stored.checkpoints + [cp])
    requires ReducedReadyFrom(e, stored, s, packet, reason, at) && !Last(stored.checkpoints).stage.Published?
    requires cp == FinalCheckpoint(packet.run, at, packet.run.quality, packet.run.cutoff,
                                   Last(stored.checkpoints).artifacts[ReducedReasonName := Sha256(ReasonBytes(reason))], t)
    requires ReadStaged(s1, packet.run.revision, ReducedReasonName) == Some(ReasonBytes(reason)) && later >= at
    ensures ReducedReadyFrom(e, stored1, s1, packet, reason, later)
    ensures RecordedReports(e, s1, packet, Attempts(stored1.checkpoints))
            == RecordedReports(e, s, packet, Attempts(stored.checkpoints))
  {
    hide RecordedReports, Attempts, ReadStaged, FinalCheckpoint, ReadsStay, Load, StagedPacket;
    var rev, attempts := packet.run.revision, Attempts(stored.checkpoints);
    ReportsStay(e, s, s1, packet, attempts);
    AttemptsAppend(stored.checkpoints, cp);
    FinalHolds(packet.run, at, packet.run.quality, packet.run.cutoff,
               Last(stored.checkpoints).artifacts[ReducedReasonName := Sha256(ReasonBytes(reason))], t);
    ReadStays(s, s1, rev, ReducedReport);
    PacketHeld(s, packet, {Stage.AwaitingSynthesis, Stage.Validating, Stage.Published}, stored);
    PacketStaysStaged(s, s1, packet, {Stage.AwaitingSynthesis, Stage.Validating, Stage.Published}, stored, cp);
    assert Last(stored1.checkpoints) == cp;
    assert Attempts(stored1.checkpoints) == attempts;
  }

  lemma ReducedFinishes(e: Engine, s: DateStore, s1: DateStore, packet: Packet, reason: ReducedReason, at: Instant,
                        t: Telemetry, later: Instant, u: Telemetry)
    requires var d := PlanReduced(e, s, packet, reason, at, t);
             d.Close? && EndedBy(s, s1, packet.run.revision, d.writes, d.cp) && later >= at
    ensures PlanReduced(e, s1, packet, reason, later, u) == Finish(PlanReduced(e, s, packet, reason, at, t).bundle)
  {
    var rev, d := packet.run.revision, PlanReduced(e, s, packet, reason, at, t);
    var stored, stored1 := Load(s, rev).value, Load(s1, rev).value;
    ReducedEnding(e, s, packet, reason, at, t);
    assert d.writes[0] == (ReducedReasonName, ReasonBytes(reason));
    var reports := RecordedReports(e, s, packet, Attempts(stored.checkpoints)).value;
    hide RecordedReports, Attempts, ReadStaged, LatestTelemetry, FinalCheckpoint, ReadsStay, BlockedPlans,
         ReducedReadyFrom, Load;
    ReducedReadyAgain(e, s, s1, packet, reason, at, later, stored, stored1, d.cp, t);
    EndingIsFinished(s, s1, stored, packet.run, packet.run, at, packet.run.quality, packet.run.cutoff,
                     Some((ReducedReasonName, ReasonBytes(reason))),
                     ReducedContents(packet, reason, BaseSha(e, packet), BlockedPlans(packet, reason), reports),
                     e.reduced(packet, reason), t, later, u);
    assert Last(stored1.checkpoints) == d.cp && d.cp.stage.Published? by { FinalIsPublished(d, s, packet, reason, at, t, e); }
    hide CloseOrFinish;
  }

  lemma FinalIsPublished(d: Decision, s: DateStore, packet: Packet, reason: ReducedReason, at: Instant, t: Telemetry,
                         e: Engine)
    requires d == PlanReduced(e, s, packet, reason, at, t) && d.Close?
    ensures d.cp.stage.Published?
  {
    hide RecordedReports, Attempts, ReadStaged, Load, BlockedPlans;
  }

  lemma PacketHashGoesOn(cps: seq<Checkpoint>, cp: Checkpoint)
    requires cps != []
    requires ResearchPacket in cp.artifacts <==> ResearchPacket in Last(cps).artifacts
    requires ResearchPacket in cp.artifacts ==> cp.artifacts[ResearchPacket] == Last(cps).artifacts[ResearchPacket]
    ensures StoredPacketHash(cps + [cp]) == StoredPacketHash(cps)
  {
    assert (cps + [cp])[..|cps|] == cps;
  }

  lemma OperationalEnding(e: Engine, s: DateStore, run: RunContext, code: ErrorCode, at: Instant, measured: bool,
                          t: Telemetry)
    requires PlanOperational(e, s, run, code, at, measured, t).Close?
    ensures Load(s, run.revision).Some?
    ensures var stored := Load(s, run.revision).value;
            && run.quality.Fail? && WithStatuses(stored.run, StatusesOf(run)) == run
            && !stored.published && stored.checkpoints != []
            && OperationalReadyFrom(stored, s, run, code, at) && !Last(stored.checkpoints).stage.Published?
            && PlanOperational(e, s, run, code, at, measured, t)
               == CloseOrFinish(s, stored, run, at, Fail, stored.cutoff, Some((OperationalReason, CodeBytes(code))),
                                OperationalContents(code), OperationalMarkdown(e, run, code), t)
  {
    hide Load, ReadStaged, StoredPacketHash;
  }

  lemma OperationalReadyAgain(s: DateStore, s1: DateStore, run: RunContext, code: ErrorCode, at: Instant, later: Instant,
                              stored: Stored, stored1: Stored, cp: Checkpoint, t: Telemetry, other: RunContext)
    requires ReadsStay(s, s1) && other == run.(execution := other.execution)
    requires ReadStaged(s, run.revision, ResearchPacket).None? ==> ReadStaged(s1, run.revision, ResearchPacket).None?
    requires stored.checkpoints != [] && stored1 == stored.(checkpoints := stored.checkpoints + [cp])
    requires OperationalReadyFrom(stored, s, run, code, at) && !Last(stored.checkpoints).stage.Published?
    requires cp == FinalCheckpoint(run, at, Fail, stored.cutoff,
                                   Last(stored.checkpoints).artifacts[OperationalReason := Sha256(CodeBytes(code))], t)
    requires ReadStaged(s1, run.revision, OperationalReason) == Some(CodeBytes(code)) && later >= at
    ensures OperationalReadyFrom(stored1, s1, other, code, later)
  {
    FinalHolds(run, at, Fail, stored.cutoff, Last(stored.checkpoints).artifacts[OperationalReason := Sha256(CodeBytes(code))], t);
    PacketHashGoesOn(stored.checkpoints, cp);
    ReadStays(s, s1, run.revision, ResearchPacket);
    assert Last(stored1.checkpoints) == cp;
    hide StoredPacketHash, ReadStaged, FinalCheckpoint, ReadsStay;
  }

  lemma OperationalFinishes(e: Engine, s: DateStore, s1: DateStore, run: RunContext, code: ErrorCode, at: Instant,
                            measured: bool, t: Telemetry, other: RunContext, later: Instant, again: bool, u: Telemetry)
    requires other == run.(execution := other.execution)
    requires var d := PlanOperational(e, s, run, code, at, measured, t);
             d.Close? && EndedBy(s, s1, run.revision, d.writes, d.cp) && later >= at
    ensures PlanOperational(e, s1, other, code, later, again, u)
            == Finish(PlanOperational(e, s, run, code, at, measured, t).bundle)
  {
    var rev, d := run.revision, PlanOperational(e, s, run, code, at, measured, t);
    var stored, stored1 := Load(s, rev).value, Load(s1, rev).value;
    OperationalEnding(e, s, run, code, at, measured, t);
    assert d.writes[0] == (OperationalReason, CodeBytes(code));
    assert d.cp.stage.Published?;
    assert Last(stored1.checkpoints) == d.cp;
    hide StoredPacketHash, ReadStaged, LatestTelemetry, FinalCheckpoint, ReadsStay, OperationalReadyFrom, Load;
    OperationalReadyAgain(s, s1, run, code, at, later, stored, stored1, d.cp, t, other);
    EndingIsFinished(s, s1, stored, run, other, at, Fail, stored.cutoff, Some((OperationalReason, CodeBytes(code))),
                     OperationalContents(code), OperationalMarkdown(e, run, code), t, later, u);
    hide CloseOrFinish;
    assert OperationalMarkdown(e, other, code) == OperationalMarkdown(e, run, code);
  }

  lemma DecisionFinishes(e: Engine, s: DateStore, s1: DateStore, call: Call, t: Telemetry, again: Call, u: Telemetry)
    requires Repeats(call, again) && TimeOf(again) >= TimeOf(call)
    requires var d := Decide(e, s, call, t); d.Close? && EndedBy(s, s1, CallRev(call), d.writes, d.cp)
    ensures Decide(e, s1, again, u) == Finish(Decide(e, s, call, t).bundle)
  {
    hide EndedBy, PlanSynthesized, PlanReduced, PlanOperational;
    match call
    case CallSynthesized(packet, at) => SynthesizedFinishes(e, s, s1, packet, at, t, again.at, u);
    case CallReduced(packet, reason, at) => ReducedFinishes(e, s, s1, packet, reason, at, t, again.at, u);
    case CallOperational(run, code, at, measured) =>
      OperationalFinishes(e, s, s1, run, code, at, measured, t, again.run, again.at, again.measured, u);
  }
}
