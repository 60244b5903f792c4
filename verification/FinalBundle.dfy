/**
 The one bundle a run's final checkpoint determines. It is read off the checkpoints alone:
 a digest fixes the bytes behind it, so what was frozen decides what can be published.
 */
module FinalBundle {
  import opened RunTypes
  import opened RunStore
  import opened RunHistory
  import opened Publication

  function RunOf(rd: RunDir): RunContext
    requires rd.context.Some?
  {
    LoadDir(rd, false).value.run
  }

  // ---- What the digests of a checkpoint freeze ----

  function FrozenPayload(cp: Checkpoint, names: set<Name>): Option<Payload>
    requires names <= cp.artifacts.Keys
  {
    if |names| == 1 then Some(cp.artifacts[TheName(names)].of) else None
  }

  function FrozenAttempt(cp: Checkpoint): Option<(Draft, Report)> {
    DecodeAttempt(FrozenPayload(cp, DraftNames(cp.artifacts)), FrozenPayload(cp, ReportNames(cp.artifacts)))
  }

  function FrozenReports(attempts: seq<Checkpoint>): seq<Report> {
    if attempts == [] then []
    else
      FrozenReports(attempts[..|attempts| - 1])
      + (if FrozenAttempt(Last(attempts)).Some? then [FrozenAttempt(Last(attempts)).value.1] else [])
  }

  function FrozenTelemetry(cp: Checkpoint): Option<(Telemetry, Digest)> {
    var payload := FrozenPayload(cp, TelemetryNames(cp.artifacts));
    if payload.Some? && payload.value.TelemetryBytes? then
      Some((payload.value.telemetry, Sha256(payload.value)))
    else None
  }

  function FrozenPacket(cp: Checkpoint): Option<Packet> {
    if ResearchPacket in cp.artifacts && cp.artifacts[ResearchPacket].of.PacketBytes? then
      Some(cp.artifacts[ResearchPacket].of.packet)
    else None
  }

  function FrozenCode(cp: Checkpoint): Option<ErrorCode> {
    if OperationalReason in cp.artifacts && cp.artifacts[OperationalReason].of.CodeBytes? then
      Some(cp.artifacts[OperationalReason].of.code)
    else None
  }

  function FrozenReason(cp: Checkpoint): Option<ReducedReason> {
    if ReducedReasonName in cp.artifacts && cp.artifacts[ReducedReasonName].of.ReasonBytes? then
      Some(cp.artifacts[ReducedReasonName].of.reason)
    else None
  }

  function FinalContents(e: Engine, run: RunContext, cps: seq<Checkpoint>): (Contents, string)
    requires cps != []
  {
    var cp := Last(cps);
    var attempts := Attempts(cps);
    if FrozenCode(cp).Some? then
      (OperationalContents(FrozenCode(cp).value),
       e.operational(run.revision, cp.quality, cp.delivery, FrozenCode(cp).value))
    else if FrozenPacket(cp).None? then (UnknownContents(""), "")
    else
      var packet := FrozenPacket(cp).value;
      if FrozenReason(cp).Some? then
        var reason := FrozenReason(cp).value;
        (ReducedContents(packet, reason, BaseSha(e, packet), BlockedPlans(packet, reason), FrozenReports(attempts)),
         e.reduced(packet, reason))
      else if attempts == [] || FrozenAttempt(Last(attempts)).None? then (UnknownContents(""), "")
      else
        var (draft, report) := FrozenAttempt(Last(attempts)).value;
        (SynthesizedContents(packet, draft, report), e.brief(packet, draft, report))
  }

  function TheBundle(e: Engine, run: RunContext, cps: seq<Checkpoint>): Bundle
    requires cps != []
  {
    var cp := Last(cps);
    var (contents, markdown) := FinalContents(e, run, cps);
    var telemetry := FrozenTelemetry(cp);
    Bundle(ComposeRun(run, cp), contents,
           if telemetry.Some? then Some(telemetry.value.0) else None,
           if telemetry.Some? then Some(telemetry.value.1) else None,
           markdown, Some(Sha256(TextBytes(markdown))))
  }

  // ---- What a final checkpoint of each kind guarantees ----

  /** The packet frozen by the checkpoint belongs to this run and carries its statuses. */
  ghost predicate PacketOf(run: RunContext, cp: Checkpoint) {
    && FrozenPacket(cp).Some?
    && FrozenPacket(cp).value.run
       == WithStatuses(run, (FrozenPacket(cp).value.run.execution, cp.quality, cp.delivery))
  }

  /** Every recorded attempt is what its draft deserves, in order. */
  ghost predicate AttemptsChecked(e: Engine, packet: Packet, attempts: seq<Checkpoint>) {
    forall k :: 0 <= k < |attempts| ==>
      && FrozenAttempt(attempts[k]).Some?
      && FrozenAttempt(attempts[k]).value.0.origin.Synthesized?
      && FrozenAttempt(attempts[k]).value.1 == Validate(e, packet, FrozenAttempt(attempts[k]).value.0, k + 1)
  }

  ghost predicate ClosedSynthesized(run: RunContext, cps: seq<Checkpoint>)
    requires cps != []
  {
    var cp, attempts := Last(cps), Attempts(cps);
    && !cp.quality.Fail?
    && FrozenCode(cp).None?
    && FrozenReason(cp).None?
    && PacketOf(run, cp)
    && attempts != []
    && FrozenAttempt(Last(attempts)).Some?
    && FrozenAttempt(Last(attempts)).value.0.origin.Synthesized?
    && FrozenAttempt(Last(attempts)).value.1.valid
    && FrozenAttempt(Last(attempts)).value.1.attempt == |attempts|
  }

  ghost predicate ClosedReduced(e: Engine, run: RunContext, cps: seq<Checkpoint>)
    requires cps != []
  {
    var cp, attempts := Last(cps), Attempts(cps);
    && !cp.quality.Fail?
    && FrozenCode(cp).None?
    && FrozenReason(cp).Some?
    && PacketOf(run, cp)
    && AttemptsChecked(e, FrozenPacket(cp).value, attempts)
    && ReasonFits(FrozenReports(attempts), FrozenReason(cp).value)
  }

  ghost predicate ClosedOperational(cps: seq<Checkpoint>)
    requires cps != []
  {
    Last(cps).quality.Fail? && FrozenCode(Last(cps)).Some?
  }

  ghost predicate Closed(e: Engine, run: RunContext, cps: seq<Checkpoint>)
    requires cps != []
  {
    && Last(cps).stage.Published?
    && Last(cps).execution.Published?
    && FrozenTelemetry(Last(cps)).Some?
    && (ClosedSynthesized(run, cps) || ClosedReduced(e, run, cps) || ClosedOperational(cps))
  }

  // ---- The decisions build exactly this bundle ----

  lemma AttemptsAppend(cps: seq<Checkpoint>, cp: Checkpoint)
    ensures Attempts(cps + [cp]) == Attempts(cps) + (if cp.stage.Validating? then [cp] else [])
  {
    assert (cps + [cp])[..|cps|] == cps;
  }

  lemma TelemetryBound(cp: Checkpoint, t: Telemetry)
    ensures FrozenTelemetry(WithTelemetry(cp, t)) == Some((t, TelemetryDigest(t)))
    ensures Business(WithTelemetry(cp, t).artifacts) == Business(cp.artifacts)
  {
    var name := TelemetryArtifact(t).0;
    var m := WithTelemetry(cp, t).artifacts;
    assert TelemetryNames(m) == {name};
    assert TheName({name}) == name;
    assert Business(m) == Business(cp.artifacts);
  }

  lemma AttemptFrozen(s: DateStore, cp: Checkpoint)
    ensures RecordedAttempt(s, cp).Some? ==> FrozenAttempt(cp) == RecordedAttempt(s, cp)
  {
  }

  lemma {:induction false} ReportsFrozen(e: Engine, s: DateStore, packet: Packet, attempts: seq<Checkpoint>)
    requires RecordedReports(e, s, packet, attempts).Some?
    ensures RecordedReports(e, s, packet, attempts).value == FrozenReports(attempts)
    ensures AttemptsChecked(e, packet, attempts)
    ensures |FrozenReports(attempts)| == |attempts|
    ensures forall k :: 0 <= k < |attempts| ==>
              FrozenAttempt(attempts[k]).Some? && FrozenReports(attempts)[k] == FrozenAttempt(attempts[k]).value.1
  {
    if attempts != [] {
      var n := |attempts|;
      var earlier := attempts[..n - 1];
      ReportsFrozen(e, s, packet, earlier);
      hide RecordedAttempt, FrozenAttempt, Validate;
      AttemptFrozen(s, attempts[n - 1]);
      assert forall k :: 0 <= k < n - 1 ==> attempts[k] == earlier[k];
    }
  }

  lemma {:induction false} CheckedReports(e: Engine, packet: Packet, attempts: seq<Checkpoint>)
    requires AttemptsChecked(e, packet, attempts)
    ensures |FrozenReports(attempts)| == |attempts|
    ensures forall k :: 0 <= k < |attempts| ==> FrozenReports(attempts)[k] == FrozenAttempt(attempts[k]).value.1
  {
    if attempts != [] {
      var earlier := attempts[..|attempts| - 1];
      assert forall k :: 0 <= k < |earlier| ==> attempts[k] == earlier[k];
      CheckedReports(e, packet, earlier);
    }
  }
}
