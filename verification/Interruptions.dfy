/**
 The endings of a prepared run, however often the calls that end it are stopped: repeated once
 more, undisturbed, they give readers what they would have given at first.
 */
module Interruptions {
  import opened RunTypes
  import opened RunStore
  import opened RunHistory
  import opened Publication
  import opened FinalBundle
  import opened PublicationMachine
  import opened PublicationService
  import opened Preparation
  import opened Undisturbed
  import opened Endings
  import opened Retries
  import opened RepeatedCalls
  import opened Failures
  import Repairs

  /** The run is still staged, or its publication is visible: not stranded between two renames. */
  ghost predicate Within(s: DateStore, rev: nat) {
    rev in s.staging || GetPublished(s, rev).Some?
  }

  lemma DeliveredDespiteStops(e: Engine, s: DateStore, served: Served, stops: seq<Environment>, markdown: string,
                              contents: Contents)
    requires CallKind(served.call).Some? && OwnRun(s, CallRev(served.call)) && served.env == Calm()
    requires Repairs.Delivers(Serve(e, s, served), CallRev(served.call), markdown, contents)
    requires Within(AfterStops(e, s, served, stops), CallRev(served.call))
    ensures Repairs.Delivers(Serve(e, AfterStops(e, s, served, stops), served), CallRev(served.call), markdown, contents)
  {
    assert served.(env := Calm()) == served;
    hide Serve, GetPublished, GetReceipt, AfterStops, OwnRun;
    HoweverOftenStopped(e, s, served, stops);
  }

  /**
   A prepared run whose last draft is valid: however often publishing it is stopped, as long as it
   is not stranded the brief of that draft is what readers get; and in the same way the fallback
   for the reason that fits.
   */
  lemma EndingsDespiteStops(e: Engine, p: Rules, s: DateStore, c: Course, turns: seq<Repairs.Turn>, reason: ReducedReason,
                            at: Instant, t: Telemetry, stops: seq<Environment>)
    requires GoodCourse(p, c) && Repairs.InOrder(e, ThePacket(c), turns, c.packedAt)
    requires at >= Repairs.LastAt(turns, c.packedAt)
    requires c.context.revision !in s.finals && c.context.revision !in s.index
    ensures var rev, packet, drafts := c.context.revision, ThePacket(c), Repairs.Drafts(turns);
            var s1 := Repairs.AfterTurns(e, Put(s, rev, After4(e, c)), packet, turns);
            var synthesis, reduction := Repairs.Synthesis(packet, at, t), Repairs.Reduction(packet, reason, at, t);
            && (Repairs.LastIsValid(e, packet, drafts) && Within(AfterStops(e, s1, synthesis, stops), rev) ==>
                  var draft := drafts[|drafts| - 1];
                  var report := Validate(e, packet, draft, |drafts|);
                  Repairs.Delivers(Serve(e, AfterStops(e, s1, synthesis, stops), synthesis), rev,
                                   e.brief(packet, draft, report), SynthesizedContents(packet, draft, report)))
            && (Repairs.FallbackFits(e, packet, drafts, reason) && Within(AfterStops(e, s1, reduction, stops), rev) ==>
                  Repairs.Delivers(Serve(e, AfterStops(e, s1, reduction, stops), reduction), rev,
                                   e.reduced(packet, reason), Repairs.FallbackContents(e, packet, reason, drafts)))
  {
    hide After4, ThePacket, Put, Serve, Repairs.AfterTurns, Repairs.Delivers, Repairs.FallbackContents, AfterStops,
         Repairs.MayFollow, Within, Repairs.FallbackFits, Validate, Repairs.InOrder, Repairs.Recorded, Repairs.Continues;
    var rev, packet, drafts := c.context.revision, ThePacket(c), Repairs.Drafts(turns);
    var s1 := Repairs.AfterTurns(e, Put(s, rev, After4(e, c)), packet, turns);
    var some := Draft(Synthesized, "");
    Repairs.RepairedRunEnds(e, p, s, c, turns, some, reason, at, t);
    var rd := Repairs.TurnsAreRecorded(e, p, s, c, turns);
    Repairs.FourAwaitsDraft(e, p, s, c);
    RecordedIsOwn(e, s, rd, packet, drafts);
    var synthesis, reduction := Repairs.Synthesis(packet, at, t), Repairs.Reduction(packet, reason, at, t);
    if Repairs.LastIsValid(e, packet, drafts) && Within(AfterStops(e, s1, synthesis, stops), rev) {
      var draft := drafts[|drafts| - 1];
      var report := Validate(e, packet, draft, |drafts|);
      DeliveredDespiteStops(e, s1, synthesis, stops, e.brief(packet, draft, report),
                            SynthesizedContents(packet, draft, report));
    }
    if Repairs.FallbackFits(e, packet, drafts, reason) && Within(AfterStops(e, s1, reduction, stops), rev) {
      DeliveredDespiteStops(e, s1, reduction, stops, e.reduced(packet, reason),
                            Repairs.FallbackContents(e, packet, reason, drafts));
    }
  }

  lemma RecordedIsOwn(e: Engine, s: DateStore, rd: RunDir, packet: Packet, drafts: seq<Draft>)
    requires Repairs.Recorded(e, rd, packet, drafts)
    ensures OwnRun(Put(s, packet.run.revision, rd), packet.run.revision)
  {
  }

  /** A run that is FAIL before synthesis: however often its report is stopped, it is the one readers get. */
  lemma ReportDespiteStops(e: Engine, s: DateStore, rd: RunDir, rev: nat, code: ErrorCode, at: Instant, measured: bool,
                           t: Telemetry, stops: seq<Environment>)
    requires Failing(rd, rev, code, at) && Measurable(s, rev, rd, t) && rev !in s.finals && rev !in s.index
    ensures rd.checkpoints != []
    ensures var call := Served(CallOperational(FailingRun(rd), code, at, measured), t, at, Calm());
            var s1 := AfterStops(e, Put(s, rev, rd), call, stops);
            Within(s1, rev) ==> ReportsCode(e, Serve(e, s1, call).0, rev, Last(rd.checkpoints).delivery, code)
  {
    hide Serve, GetPublished, GetReceipt, AfterStops, Failing, Measurable, Put;
    FailingIsLoaded(rd, rev, code, at);
    var call := Served(CallOperational(FailingRun(rd), code, at, measured), t, at, Calm());
    FailingIsServed(e, s, rd, rev, code, at, measured, t);
    LoadPut(s, rev, rd);
    assert call.(env := Calm()) == call && CallRev(call.call) == rev;
    HoweverOftenStopped(e, Put(s, rev, rd), call, stops);
  }

  lemma FailingIsServed(e: Engine, s: DateStore, rd: RunDir, rev: nat, code: ErrorCode, at: Instant, measured: bool,
                        t: Telemetry)
    requires Failing(rd, rev, code, at) && Measurable(s, rev, rd, t) && rev !in s.finals && rev !in s.index
    ensures var call := Served(CallOperational(FailingRun(rd), code, at, measured), t, at, Calm());
            var (s', r) := Serve(e, Put(s, rev, rd), call);
            r.Ok? && ReportsCode(e, s', rev, Last(rd.checkpoints).delivery, code) && FailingRun(rd).revision == rev
  {
    FailingEnds(e, s, rd, rev, code, at, measured, t);
    hide Perform, PlanOperational, Put, Measurable, ReportsCode, HandedOff, PublishedResult;
  }
}
