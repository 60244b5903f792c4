/**
 Starting and resuming: what a start, an allocation and a creation answer for a run that is
 already there, and that they then write nothing.
 */
module Starting {
  import opened RunTypes
  import opened RunStore
  import opened PublicationService
  import opened Preparation

  /** The run is in one place, and what is stored there is readable and its own. */
  predicate Readable(s: DateStore, rev: nat) {
    && Load(s, rev).Some?
    && Load(s, rev).value.run.revision == rev
    && !(rev in s.staging && rev in s.finals)
  }

  /** What is loaded of a run: its context with the frozen cutoff, its checkpoints, and where it is. */
  lemma LoadedRun(s: DateStore, rev: nat)
    requires Readable(s, rev)
    ensures var stored := Load(s, rev).value;
            && stored.published == (rev in s.finals)
            && var rd := if rev in s.finals then s.finals[rev] else s.staging[rev];
            && rd.context.Some? && stored.checkpoints == rd.checkpoints && stored.cutoff == rd.freeze
            && stored.run == rd.context.value.(cutoff := if rd.freeze.Some? then rd.freeze else rd.context.value.cutoff)
            && (stored.published ==> GetReceipt(s, rev).Some?)
  {
  }

  /** A scheduled call returns the first run of its date, staged or published, and writes nothing. */
  lemma ScheduledCallReturnsRun(s: DateStore, seed: RunContext, telemetry: Telemetry, env: Environment, fault: Fault)
    requires Readable(s, 1)
    ensures StartRun(s, Scheduled, seed, telemetry, env) == (s, Ok(Load(s, 1).value))
    ensures Allocate(s, Scheduled, seed, fault) == (s, Ok(Load(s, 1).value.run))
  {
  }

  /** A manual request for a run returns it exactly when it is not published, and writes nothing either way. */
  lemma RequestReturnsUnpublished(s: DateStore, rev: nat, seed: RunContext, telemetry: Telemetry, env: Environment,
                                  fault: Fault)
    requires Readable(s, rev) && rev > 0
    ensures var stored := Load(s, rev).value;
            && StartRun(s, ManualRequested(rev), seed, telemetry, env)
               == (s, if stored.published then Rejected(InvalidRequest) else Ok(stored))
            && Allocate(s, ManualRequested(rev), seed, fault)
               == (s, if stored.published then Rejected(InvalidRequest) else Ok(stored.run))
  {
  }

  /** A fresh manual call never resumes a run: its id is above everything staged or published. */
  lemma FreshCallIsNew(s: DateStore, seed: RunContext, fault: Fault)
    ensures var (s', r) := Allocate(s, ManualFresh, seed, fault);
            r.Ok? ==>
              && r.value == NewContext(seed, NextRevision(s))
              && forall rev :: rev in Existing(s) ==> rev < r.value.revision
  {
  }

  /** An id whose directory has no readable context is refused by every call that names it, until it is created again. */
  lemma UnreadableIsRefused(s: DateStore, rev: nat, seed: RunContext, telemetry: Telemetry, env: Environment, fault: Fault)
    requires rev in Existing(s) && Load(s, rev).None?
    ensures rev == 1 ==> StartRun(s, Scheduled, seed, telemetry, env).0 == s
                         && !StartRun(s, Scheduled, seed, telemetry, env).1.Ok?
                         && Allocate(s, Scheduled, seed, fault) == (s, Rejected(PublicationFailed))
    ensures rev > 0 ==> StartRun(s, ManualRequested(rev), seed, telemetry, env).0 == s
                        && !StartRun(s, ManualRequested(rev), seed, telemetry, env).1.Ok?
                        && Allocate(s, ManualRequested(rev), seed, fault).0 == s
                        && !Allocate(s, ManualRequested(rev), seed, fault).1.Ok?
  {
  }

  /** Creating a run again: the same context is accepted as it is, another or a published id is refused. */
  lemma CreatedOnce(s: DateStore, context: RunContext, fault: Fault)
    ensures var rev, (s', r) := context.revision, Create(s, context, fault);
            && (rev in s.finals ==> (s', r) == (s, Rejected(PublicationFailed)))
            && (rev !in s.finals && rev in s.staging && s.staging[rev].context.Some? ==>
                  s' == s && r == if s.staging[rev].context == Some(context) then Ok(context) else Rejected(PublicationFailed))
            && (rev !in s.finals && (rev in s.staging ==> s.staging[rev].context.None?) && fault.NoFault? ==>
                  && r == Ok(context) && rev in s'.staging
                  && s'.staging[rev] == (if rev in s.staging then s.staging[rev] else EmptyDir).(context := Some(context))
                  && forall other :: other != rev ==>
                       (other in s'.staging <==> other in s.staging)
                       && (other in s.staging ==> s'.staging[other] == s.staging[other]))
  {
  }
}
