/**
 Read-only replay of a published run: everything is rebuilt from the frozen bundle alone,
 and must come out as exactly the stored report.
 */
module Replay {
  import opened RunTypes
  import opened RunStore
  import opened RunHistory
  import opened Publication
  import opened PublicationMachine
  import opened FinalBundle
  import opened ClosedRuns
  import opened SettledRuns

  /** `markdownSha` is absent when version drift made the call skip the reconstruction. */
  datatype Replayed =
    | NotFound
    | Invalid
    | Replayed(bundle: Bundle, report: string, markdownSha: Option<Digest>, drift: seq<nat>,
               telemetry: Option<Telemetry>)

  /** The components whose version differs, in order. */
  function Drift(recorded: Versions, current: Versions, from: nat): seq<nat>
    requires from <= 12
    decreases 12 - from
  {
    if from == 12 then []
    else (if recorded[from] != current[from] then [from] else []) + Drift(recorded, current, from + 1)
  }

  predicate ReducedReportsFit(packet: Packet, reports: seq<Report>, reason: ReducedReason) {
    && |reports| <= 3
    && (forall i :: 0 <= i < |reports| ==>
          && WellFormedReport(reports[i])
          && reports[i].revision == packet.run.revision
          && reports[i].packetSha == ContentSha(packet)
          && reports[i].attempt == i + 1
          && !reports[i].valid)
    && (|reports| == 3 <==> reason.ValidationRepairExhausted?)
  }

  predicate PacketRunFits(packet: Packet, run: RunContext) {
    packet.run == run.(execution := packet.run.execution)
  }

  /** `_reconstructed_report`: absent when it raises. */
  function Reconstruct(e: Engine, bundle: Bundle): Option<string> {
    if !bundle.run.execution.Published? then None
    else
      match bundle.contents
      case SynthesizedContents(packet, draft, report) =>
        if draft.origin.Synthesized? && WellFormedReport(report) && PacketRunFits(packet, bundle.run)
        then Some(e.brief(packet, draft, report)) else None
      case ReducedContents(packet, reason, baseSha, plans, reports) =>
        if baseSha == BaseSha(e, packet) && plans == BlockedPlans(packet, reason)
           && ReducedReportsFit(packet, reports, reason) && PacketRunFits(packet, bundle.run)
        then Some(e.reduced(packet, reason)) else None
      case OperationalContents(code) =>
        if bundle.run.quality.Fail? then Some(OperationalMarkdown(e, bundle.run, code)) else None
      case UnknownContents(_) => None
  }

  /** `_frozen_telemetry`: neither half may be missing, and the digest must be the value's. */
  predicate TelemetryIntact(bundle: Bundle) {
    || (bundle.telemetry.None? && bundle.telemetrySha.None?)
    || (bundle.telemetry.Some? && bundle.telemetrySha == Some(TelemetryDigest(bundle.telemetry.value)))
  }

  /** `replay_published_artifact` */
  function ReplayRun(e: Engine, s: DateStore, rev: nat, current: Versions): Replayed {
    var published := GetPublished(s, rev);
    if published.None? then NotFound
    else
      var (report, bundle) := published.value;
      var entry := s.index[rev];
      if bundle.run.revision != rev || Sha256(BundleBytes(bundle)) != entry.bundleSha
         || bundle.markdownSha != Some(Sha256(TextBytes(report)))
         || Sha256(TextBytes(report)) != entry.markdownSha
         || !TelemetryIntact(bundle)
      then Invalid
      else
        var drift := Drift(bundle.run.versions, current, 0);
        if drift != [] then Replayed(bundle, report, None, drift, bundle.telemetry)
        else
          var rebuilt := Reconstruct(e, bundle);
          if rebuilt != Some(report) || bundle.markdown != report then Invalid
          else Replayed(bundle, report, Some(Sha256(TextBytes(rebuilt.value))), [], bundle.telemetry)
  }

  lemma {:induction false} DriftNames(recorded: Versions, current: Versions, from: nat)
    requires from <= 12
    ensures forall i :: i in Drift(recorded, current, from) <==> from <= i < 12 && recorded[i] != current[i]
    decreases 12 - from
  {
    if from < 12 { DriftNames(recorded, current, from + 1); }
  }

  lemma {:induction false} NoDrift(versions: Versions, from: nat)
    requires from <= 12
    ensures Drift(versions, versions, from) == []
    decreases 12 - from
  {
    if from < 12 { NoDrift(versions, from + 1); }
  }

  // ---- Publish, then replay ----

  lemma SynthesizedReplays(e: Engine, run: RunContext, cps: seq<Checkpoint>)
    requires cps != [] && Closed(e, run, cps) && ClosedSynthesized(run, cps)
    ensures Reconstruct(e, TheBundle(e, run, cps)) == Some(TheBundle(e, run, cps).markdown)
  {
  }

  lemma ReducedReplays(e: Engine, run: RunContext, cps: seq<Checkpoint>)
    requires cps != [] && Closed(e, run, cps) && ClosedReduced(e, run, cps)
    ensures Reconstruct(e, TheBundle(e, run, cps)) == Some(TheBundle(e, run, cps).markdown)
  {
    var cp, attempts := Last(cps), Attempts(cps);
    var packet, reports := FrozenPacket(cp).value, FrozenReports(attempts);
    CheckedReports(e, packet, attempts);
    forall i | 0 <= i < |reports|
      ensures reports[i] == Validate(e, packet, FrozenAttempt(attempts[i]).value.0, i + 1)
              && WellFormedReport(reports[i])
    {
      assert FrozenAttempt(attempts[i]).Some?;
    }
    assert |reports| > 0 ==> WellFormedReport(reports[|reports| - 1]);
    assert ReducedReportsFit(packet, reports, FrozenReason(cp).value);
  }

  /** The bundle of every closed run reconstructs to exactly its own markdown. */
  lemma ClosedReplays(e: Engine, run: RunContext, cps: seq<Checkpoint>)
    requires cps != [] && Closed(e, run, cps)
    ensures var bundle := TheBundle(e, run, cps);
            && Reconstruct(e, bundle) == Some(bundle.markdown)
            && TelemetryIntact(bundle) && bundle.telemetry.Some?
            && bundle.markdownSha == Some(Sha256(TextBytes(bundle.markdown)))
            && bundle.run.revision == run.revision && bundle.run.versions == run.versions
  {
    if ClosedSynthesized(run, cps) { SynthesizedReplays(e, run, cps); }
    else if ClosedReduced(e, run, cps) { ReducedReplays(e, run, cps); }
  }

  /**
   Publish then replay is the identity: in every world the services can reach, replaying a
   visible publication returns the stored report and bundle, rebuilt byte for byte unless
   the component versions drifted, in which case exactly the drifted ones are named.
   */
  lemma PublishedRunsReplay(e: Engine, s: DateStore, moves: seq<Move>, rev: nat, current: Versions)
    requires Prepared(s)
    requires GetPublished(Play(e, World(s, [], {}), moves).store, rev).Some?
    ensures var store := Play(e, World(s, [], {}), moves).store;
            var (report, bundle) := GetPublished(store, rev).value;
            var replayed := ReplayRun(e, store, rev, current);
            && replayed.Replayed?
            && replayed.report == report && replayed.bundle == bundle
            && replayed.telemetry == bundle.telemetry && bundle.telemetry.Some?
            && (forall i :: i in replayed.drift <==> 0 <= i < 12 && bundle.run.versions[i] != current[i])
            && replayed.markdownSha == (if replayed.drift == [] then Some(Sha256(TextBytes(report))) else None)
  {
    hide ReplayRun, GetPublished;
    PreparedIsSound(e, s);
    PlayKeepsSound(e, World(s, [], {}), moves);
    VisibleReplays(e, Play(e, World(s, [], {}), moves).store, rev, current);
  }

  lemma VisibleReplays(e: Engine, store: DateStore, rev: nat, current: Versions)
    requires StoreSound(e, store) && GetPublished(store, rev).Some?
    ensures var (report, bundle) := GetPublished(store, rev).value;
            var replayed := ReplayRun(e, store, rev, current);
            && replayed.Replayed?
            && replayed.report == report && replayed.bundle == bundle
            && replayed.telemetry == bundle.telemetry && bundle.telemetry.Some?
            && replayed.drift == Drift(bundle.run.versions, current, 0)
            && (forall i :: i in replayed.drift <==> 0 <= i < 12 && bundle.run.versions[i] != current[i])
            && replayed.markdownSha == (if replayed.drift == [] then Some(Sha256(TextBytes(report))) else None)
  {
    hide StoreSound, TheBundle, Closed, Reconstruct;
    VisibleIsClosed(e, store, rev);
    var rd := Current(store, rev).value;
    ClosedReplays(e, RunOf(rd), rd.checkpoints);
    DriftNames(GetPublished(store, rev).value.1.run.versions, current, 0);
  }

  lemma VisibleIsClosed(e: Engine, s: DateStore, rev: nat)
    requires StoreSound(e, s) && GetPublished(s, rev).Some?
    ensures Current(s, rev).Some?
    ensures var rd := Current(s, rev).value;
            && rd.context.Some? && RunOf(rd).revision == rev
            && rd.checkpoints != [] && Closed(e, RunOf(rd), rd.checkpoints)
            && GetPublished(s, rev).value
               == (TheBundle(e, RunOf(rd), rd.checkpoints).markdown, TheBundle(e, RunOf(rd), rd.checkpoints))
  {
    hide TheBundle, Closed;
    assert ViewSound(e, rev, ViewOf(s, rev));
  }

  // ---- What a replay proves about any store ----

  /** The report a bundle's frozen inputs deserve. */
  function Deserved(e: Engine, bundle: Bundle): string {
    match bundle.contents
    case SynthesizedContents(packet, draft, report) => e.brief(packet, draft, report)
    case ReducedContents(packet, reason, _, _, _) => e.reduced(packet, reason)
    case OperationalContents(code) => OperationalMarkdown(e, bundle.run, code)
    case UnknownContents(_) => ""
  }

  /**
   Whatever is in the store, an accepted replay without drift means that the visible report
   is the rendering of the frozen inputs and carries the indexed digests.
   */
  lemma AcceptedReplayIsFaithful(e: Engine, s: DateStore, rev: nat, current: Versions)
    requires ReplayRun(e, s, rev, current).Replayed? && ReplayRun(e, s, rev, current).markdownSha.Some?
    ensures var r := ReplayRun(e, s, rev, current);
            && r.report == Deserved(e, r.bundle)
            && r.bundle.run.versions == current
            && r.bundle.run.revision == rev
            && s.index[rev].bundleSha == Sha256(BundleBytes(r.bundle))
            && s.index[rev].markdownSha == Sha256(TextBytes(Deserved(e, r.bundle)))
  {
    DriftNames(ReplayRun(e, s, rev, current).bundle.run.versions, current, 0);
  }

  /** Replacing the published files by anything else hides the publication; it never changes it. */
  lemma ChangedFilesAreNotReplayed(e: Engine, s: DateStore, rev: nat, current: Versions, bundle: Option<Bundle>,
                                   report: Option<string>)
    requires GetPublished(s, rev).Some?
    ensures var rd := s.finals[rev].(bundle := bundle, report := report);
            var s' := s.(finals := s.finals[rev := rd]);
            ReplayRun(e, s', rev, current)
            == if rd == s.finals[rev] then ReplayRun(e, s, rev, current) else NotFound
  {
    var rd := s.finals[rev].(bundle := bundle, report := report);
    if rd == s.finals[rev] {
      assert s.finals[rev := rd] == s.finals;
    } else if bundle.Some? && report.Some? {
      assert Sha256(BundleBytes(bundle.value)).of.bundle != s.finals[rev].bundle.value
             || Sha256(TextBytes(report.value)).of.text != s.finals[rev].report.value;
    }
  }

  /** Over every later history by any callers, a replay that still finds the run answers the same. */
  lemma ReplayIsStable(e: Engine, s: DateStore, ops: seq<Op>, rev: nat, current: Versions)
    requires WellFormed(s)
    requires GetPublished(s, rev).Some? && GetPublished(Exec(s, ops), rev).Some?
    ensures ReplayRun(e, Exec(s, ops), rev, current) == ReplayRun(e, s, rev, current)
  {
    PublishedContentIsImmutable(s, ops, rev);
  }
}
