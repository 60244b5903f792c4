/**
 The ending all publishers share, undisturbed: from any directory whose final checkpoint is
 admitted, the reason and the telemetry are staged, the checkpoint appended and the bundle
 given to readers.
 */
module Endings {
  import opened RunTypes
  import opened RunStore
  import opened RunHistory
  import opened Publication
  import opened FinalBundle
  import opened PublicationMachine
  import opened PublicationService
  import opened Preparation
  import opened Undisturbed

  /** The directory once a publisher staged its reason, if any, and its telemetry. */
  function Loaded(rd: RunDir, reason: Option<(Name, Payload)>, t: Telemetry): RunDir {
    WithArtifact(Reasoned(rd, reason), TelemetryArtifact(t).0, TelemetryArtifact(t).1)
  }

  function Reasoned(rd: RunDir, reason: Option<(Name, Payload)>): RunDir {
    if reason.None? then rd else WithArtifact(rd, reason.value.0, reason.value.1)
  }

  function Names(rd: RunDir, reason: Option<(Name, Payload)>): map<Name, Digest>
    requires rd.checkpoints != []
  {
    if reason.None? then Last(rd.checkpoints).artifacts
    else Last(rd.checkpoints).artifacts[reason.value.0 := Sha256(reason.value.1)]
  }

  /** A reason and telemetry whose names are free, or hold just these bytes already. */
  predicate Stageable(rd: RunDir, reason: Option<(Name, Payload)>, t: Telemetry) {
    && (reason.Some? ==>
          && reason.value.1 != RawBytes([])
          && (reason.value.0 in rd.artifacts ==> rd.artifacts[reason.value.0] == reason.value.1))
    && TelemetryFits(Reasoned(rd, reason), t)
  }

  lemma StagesCalmly(s: DateStore, rev: nat, rd: RunDir, reason: Option<(Name, Payload)>, t: Telemetry)
    requires Stageable(rd, reason, t)
    ensures StageAll(Put(s, rev, rd), rev, (if reason.None? then [] else [reason.value]) + [TelemetryArtifact(t)], Calm(), 0)
            == (Put(s, rev, Loaded(rd, reason, t)), Ok(()))
  {
    StageOneOrTwo(Put(s, rev, rd), rev, reason, TelemetryArtifact(t), Calm());
    if reason.Some? { StageCalmly(s, rev, rd, reason.value.0, reason.value.1, NoFault); }
    StageCalmly(s, rev, Reasoned(rd, reason), TelemetryArtifact(t).0, TelemetryArtifact(t).1, NoFault);
    hide StageArtifact, StageAll, Put;
  }

  function Closing(rd: RunDir, cp: Checkpoint, reason: Option<(Name, Payload)>, contents: Contents, t: Telemetry,
                   markdown: string): Decision
    requires rd.context.Some?
  {
    Close((if reason.None? then [] else [reason.value]) + [TelemetryArtifact(t)], cp, |rd.checkpoints|,
          MakeBundle(ComposeRun(LoadDir(rd, false).value.run, cp), contents, t, TelemetryDigest(t), markdown))
  }

  lemma AppendsCalmly(s: DateStore, rev: nat, rd: RunDir, cp: Checkpoint, reason: Option<(Name, Payload)>, t: Telemetry)
    requires rd.context.Some? && Stageable(rd, reason, t) && cp.revision == rev && Admits(Loaded(rd, reason, t), cp)
    ensures StageAndAppend(Put(s, rev, rd), rev, (if reason.None? then [] else [reason.value]) + [TelemetryArtifact(t)],
                           cp, |rd.checkpoints|, Calm())
            == (Put(s, rev, Append(Loaded(rd, reason, t), cp)), Ok(()))
  {
    StagesCalmly(s, rev, rd, reason, t);
    AppendCalmly(s, rev, Loaded(rd, reason, t), cp, NoFault);
    hide StageAll, AppendIfCurrent, AppendCheckpoint, Admits, Stageable, Put, Append;
  }

  /** Stage the reason and the telemetry, append the final checkpoint, publish: readers get the bundle. */
  lemma EndsCalmly(s: DateStore, rev: nat, rd: RunDir, cp: Checkpoint, reason: Option<(Name, Payload)>,
                   contents: Contents, t: Telemetry, markdown: string, at: Instant)
    requires rd.context.Some? && rd.context.value.revision == rev && rev !in s.finals && rev !in s.index
    requires Stageable(rd, reason, t) && cp.revision == rev
    requires Admits(Loaded(rd, reason, t), cp) && StagedMatches(Loaded(rd, reason, t).artifacts, cp.artifacts)
    ensures var d := Closing(rd, cp, reason, contents, t, markdown);
            var (s', r) := Perform(Put(s, rev, rd), rev, d, at, Calm());
            && r.Ok? && r.value.Receipted?
            && GetReceipt(s', rev) == Some(r.value.receipt)
            && GetPublished(s', rev) == Some((markdown, d.bundle))
            && Load(s', rev) == LoadDir(Append(Loaded(rd, reason, t), cp), true)
  {
    AppendsCalmly(s, rev, rd, cp, reason, t);
    EndedIsPublishable(s, rev, Loaded(rd, reason, t), cp, contents, t, markdown);
    var d := Closing(rd, cp, reason, contents, t, markdown);
    var s1 := Put(s, rev, Append(Loaded(rd, reason, t), cp));
    assert LoadDir(Loaded(rd, reason, t), false).value.run == LoadDir(rd, false).value.run;
    hide StageAndAppend, Admits, Stageable, Publishable, Perform, ComposeRun, StagedMatches, GetPublished, GetReceipt, Append, Load;
    assert s1.staging[rev] == Append(Loaded(rd, reason, t), cp);
    CloseThenPublish(Put(s, rev, rd), s1, rev, d.writes, cp, d.expected, d.bundle, at);
  }

  /** The names of a final checkpoint: its predecessor's, the reason, and only the new telemetry. */
  lemma FinalBusiness(rd: RunDir, reason: Option<(Name, Payload)>, cp: Checkpoint, t: Telemetry)
    requires rd.checkpoints != [] && cp.artifacts == Names(rd, reason)
    requires reason.Some? ==> !reason.value.0.TelemetryName?
    ensures var m, before := WithTelemetry(cp, t).artifacts, Business(Last(rd.checkpoints).artifacts);
            && Business(m) == (if reason.None? then before else before[reason.value.0 := Sha256(reason.value.1)])
            && TelemetryNames(m) == {TelemetryArtifact(t).0} && TelemetryNamed(m)
            && TelemetryArtifact(t).0 in m && m[TelemetryArtifact(t).0] == TelemetryDigest(t)
  {
    var m, before := WithTelemetry(cp, t).artifacts, Business(Last(rd.checkpoints).artifacts);
    assert Business(m) == Business(cp.artifacts);
    assert Business(cp.artifacts) == (if reason.None? then before else before[reason.value.0 := Sha256(reason.value.1)]);
    assert TelemetryNames(m) == {TelemetryArtifact(t).0};
  }

  lemma FinalStaged(rd: RunDir, reason: Option<(Name, Payload)>, cp: Checkpoint, t: Telemetry)
    requires rd.checkpoints != [] && cp.artifacts == Names(rd, reason) && Stageable(rd, reason, t)
    requires reason.Some? ==> !reason.value.0.TelemetryName?
    requires StagedMatches(rd.artifacts, Business(Last(rd.checkpoints).artifacts))
    ensures StagedMatches(Loaded(rd, reason, t).artifacts, WithTelemetry(cp, t).artifacts)
  {
    FinalBusiness(rd, reason, cp, t);
    var m, full := WithTelemetry(cp, t).artifacts, Loaded(rd, reason, t).artifacts;
    hide WithTelemetry, Business, TelemetryNamed;
    forall n | n in m ensures n in full && Sha256(full[n]) == m[n] {
      if n != TelemetryArtifact(t).0 { NameIsBusiness(m, n, TelemetryArtifact(t).0); }
    }
  }

  lemma NameIsBusiness(m: map<Name, Digest>, n: Name, telemetry: Name)
    requires n in m && n != telemetry && TelemetryNames(m) == {telemetry}
    ensures n in Business(m) && Business(m)[n] == m[n]
  {
    assert n.TelemetryName? ==> n in TelemetryNames(m);
  }
}
