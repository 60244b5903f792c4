/**
 The release-evidence protocol: one locked writer makes a pending marker and a PENDING
 watermark durable, collects, writes a write-once batch, a final watermark, and clears the
 marker. It may stop at any file effect, inside the lock file's rewrite too; a reader must
 never be given the batch of an earlier collection.
 */
module ReleaseEvidence {
  import opened RunTypes

  /** An exact source: its commit and its tree. */
  type Source = nat

  datatype Key = Key(source: Source, run: nat, attempt: nat)

  datatype Check = Check(key: Key, workflow: string, success: bool, body: string)

  datatype Status = PassStatus | FailStatus | PendingStatus

  /** The lock file's content. Any strict prefix of a state is unreadable. */
  datatype Lock = NoLock | EmptyLock | TornLock | Pending(sources: set<Source>)

  /** A watermark file's content. */
  datatype Mark = TornMark | Mark(workflow: Option<string>, run: Option<(nat, nat)>, status: Status)

  datatype Files = Files(lock: Lock, marks: map<Source, Mark>, batches: map<Key, seq<Check>>)

  datatype Collected = Collected(run: Option<(nat, nat)>, checks: seq<Check>, complete: bool)

  function StatusOf(c: Collected): Status {
    if exists i :: 0 <= i < |c.checks| && !c.checks[i].success then FailStatus
    else if !c.complete then PendingStatus
    else PassStatus
  }

  /** How one write of a session went: it returned, raised, or its process died. */
  datatype Outcome = Went | Raised | Died

  function Stop(fault: Fault): Outcome {
    if fault.Crash? then Died else Raised
  }

  // ---- Single files ----

  /** `_update_release_evidence_pending_source`: truncate, then write the new state. */
  function UpdatePending(lock: Lock, x: Source, pending: bool, fault: Fault): (Lock, Outcome) {
    if !lock.Pending? then (lock, if fault.Crash? && fault.writes == 0 then Died else Raised)
    else
      var updated := Pending(if pending then lock.sources + {x} else lock.sources - {x});
      if fault.StopsAt(0) then (lock, Stop(fault))
      else if fault.StopsAt(1) then (TornLock, Stop(fault))
      else if fault.StopsAt(2) then (updated, Stop(fault))
      else (updated, Went)
  }

  /** The failures one watermark update may meet: in its own writes, or in its fallback's. */
  datatype MarkFaults = MarkFaults(first: Fault, rewrite: Fault)

  /** `_rewrite_existing_pending_watermark`: the existing file is overwritten in place. */
  function RewriteMark(marks: map<Source, Mark>, x: Source, mark: Mark, fault: Fault): (map<Source, Mark>, Outcome) {
    if fault.StopsAt(0) then (marks, Stop(fault))
    else if fault.StopsAt(1) then (marks[x := TornMark], Stop(fault))
    else if fault.StopsAt(2) then (marks[x := mark], Stop(fault))
    else (marks[x := mark], Went)
  }

  /** `_store_collection_watermark`: unlink, write a temporary file, replace. */
  function StoreMark(marks: map<Source, Mark>, x: Source, mark: Mark, faults: MarkFaults)
    : (map<Source, Mark>, Outcome)
    requires mark.Mark?
  {
    if faults.first.StopsAt(0) then
      if faults.first.IoError? && mark.status.PendingStatus? && x in marks then
        RewriteMark(marks, x, mark, faults.rewrite)
      else (marks, Stop(faults.first))
    else if faults.first.StopsAt(1) || faults.first.StopsAt(2) then (marks - {x}, Stop(faults.first))
    else if faults.first.StopsAt(3) then (marks[x := mark], Stop(faults.first))
    else (marks[x := mark], Went)
  }

  /** `_store_receipts`: link the batch, or find the identical one. */
  function StoreBatch(batches: map<Key, seq<Check>>, key: Key, checks: seq<Check>, fault: Fault)
    : (map<Key, seq<Check>>, Outcome)
  {
    if key in batches then (batches, if batches[key] == checks then Went else Raised)
    else if fault.StopsAt(0) then (batches, Stop(fault))
    else if fault.StopsAt(1) then (batches[key := checks], Stop(fault))
    else (batches[key := checks], Went)
  }

  // ---- One collection ----

  /** Everything the environment decides about one run of the collector for source `x`. */
  datatype Session = Session(
    x: Source,
    creator: bool,                   // this process created the lock file
    opening: Fault,
    marking: Fault,
    invalidating: MarkFaults,
    collected: Option<Collected>,    // absent when collection is unavailable
    invalidatingAgain: MarkFaults,
    storing: Fault,
    finishing: MarkFaults,
    clearing: Fault)

  function WorkflowOf(c: Collected): Option<string> {
    if c.checks != [] then Some(c.checks[0].workflow) else None
  }

  /** The creator writes the first state once it holds the lock. */
  function OpenLock(lock: Lock, creator: bool, fault: Fault): (Lock, Outcome) {
    if !creator || !lock.EmptyLock? then (lock, if fault.StopsAt(0) then Stop(fault) else Went)
    else if fault.StopsAt(0) then (lock, Stop(fault))
    else if fault.StopsAt(1) then (TornLock, Stop(fault))
    else if fault.StopsAt(2) then (Pending({}), Stop(fault))
    else (Pending({}), Went)
  }

  /** The steps after the source was invalidated and its evidence collected. */
  function StoreAll(f: Files, s: Session, c: Collected): Files {
    var (marks1, again) := StoreMark(f.marks, s.x, Mark(WorkflowOf(c), c.run, PendingStatus), s.invalidatingAgain);
    var f1 := f.(marks := marks1);
    if !again.Went? then f1
    else if c.checks != [] && c.run.None? then f1
    else
      var (batches2, stored) :=
        if c.checks == [] then (f.batches, Went)
        else StoreBatch(f.batches, Key(s.x, c.run.value.0, c.run.value.1), c.checks, s.storing);
      var f2 := f1.(batches := batches2);
      if !stored.Went? then f2
      else if StatusOf(c).PendingStatus? then ClearMarker(f2, s)
      else if c.checks == [] || c.run.None? then f2
      else
        var (marks3, done) := StoreMark(marks1, s.x, Mark(WorkflowOf(c), c.run, StatusOf(c)), s.finishing);
        var f3 := f2.(marks := marks3);
        if !done.Went? then f3 else ClearMarker(f3, s)
  }

  function ClearMarker(f: Files, s: Session): Files {
    f.(lock := UpdatePending(f.lock, s.x, false, s.clearing).0)
  }

  /** `main` */
  function Collect(f: Files, s: Session): Files {
    var (lock0, ready) := OpenLock(f.lock, s.creator, s.opening);
    var f0 := f.(lock := lock0);
    if !ready.Went? then f0
    else
      var (lock1, marked) := UpdatePending(lock0, s.x, true, s.marking);
      var f1 := f0.(lock := lock1);
      if marked.Died? then f1
      else
        var (marks2, invalidated) := StoreMark(f.marks, s.x, Mark(None, None, PendingStatus), s.invalidating);
        var f2 := f1.(marks := marks2);
        if !invalidated.Went? || !marked.Went? || s.collected.None? then f2
        else StoreAll(f2, s, s.collected.value)
  }

  /** The session's marker, or its PENDING watermark, reached its file. */
  predicate Landed(f: Files, s: Session) {
    var (lock0, ready) := OpenLock(f.lock, s.creator, s.opening);
    && ready.Went?
    && var (lock1, marked) := UpdatePending(lock0, s.x, true, s.marking);
    || (lock1.Pending? && s.x in lock1.sources && (marked.Went? || s.marking.StopsAt(2)))
    || (!marked.Died?
        && var (marks2, invalidated) := StoreMark(f.marks, s.x, Mark(None, None, PendingStatus), s.invalidating);
        (invalidated.Went? || (s.x in marks2 && marks2[s.x] == Mark(None, None, PendingStatus))))
  }

  // ---- Reading ----

  datatype Reading = Nothing | Malformed | Batch(checks: seq<Check>)

  predicate BatchFits(key: Key, checks: seq<Check>, workflow: string) {
    checks != [] && forall i :: 0 <= i < |checks| ==> checks[i].key == key && checks[i].workflow == workflow
  }

  /** `FileSystemReleaseEvidenceReader.list_receipts` */
  function Read(f: Files, x: Source, workflow: string): Reading {
    if !f.lock.Pending? || x in f.lock.sources || x !in f.marks then Nothing
    else if f.marks[x].TornMark? then Malformed
    else
      var mark := f.marks[x];
      if mark.workflow.Some? && mark.workflow.value != workflow then Malformed
      else if mark.status.PendingStatus? then Nothing
      else if mark.workflow.None? || mark.run.None? then Malformed
      else
        var key := Key(x, mark.run.value.0, mark.run.value.1);
        if key !in f.batches then Nothing
        else if BatchFits(key, f.batches[key], workflow) then Batch(f.batches[key])
        else Malformed
  }

  // ---- Every history ----

  /** A process creates the lock file, or runs a session. */
  datatype Event = CreateLock | Run(session: Session)

  function Happen(f: Files, e: Event): Files {
    match e
    case CreateLock => if f.lock.NoLock? then f.(lock := EmptyLock) else f
    case Run(s) => Collect(f, s)
  }

  const NoFiles: Files := Files(NoLock, map[], map[])

  function History(events: seq<Event>): Files {
    if events == [] then NoFiles else Happen(History(events[..|events| - 1]), events[|events| - 1])
  }

  /** Event `j` is a collection of `x` that found these checks under this run, with a result. */
  predicate Found(events: seq<Event>, j: nat, x: Source, run: (nat, nat), checks: seq<Check>)
    requires j < |events|
  {
    && events[j].Run? && events[j].session.x == x
    && events[j].session.collected.Some?
    && var c := events[j].session.collected.value;
    c.run == Some(run) && c.checks == checks && !StatusOf(c).PendingStatus?
  }

  /** Event `i` made the marker or the PENDING watermark of `x` durable. */
  predicate Begun(events: seq<Event>, i: nat, x: Source)
    requires i < |events|
  {
    events[i].Run? && events[i].session.x == x && Landed(History(events[..i]), events[i].session)
  }

  /** A readable result of `x` belongs to a collection no earlier than any that has begun. */
  ghost predicate Current(f: Files, events: seq<Event>, x: Source) {
    f.lock.Pending? && x !in f.lock.sources && x in f.marks && f.marks[x].Mark? && !f.marks[x].status.PendingStatus? ==>
      && f.marks[x].run.Some?
      && var run := f.marks[x].run.value;
      && Key(x, run.0, run.1) in f.batches
      && exists j :: 0 <= j < |events| && Found(events, j, x, run, f.batches[Key(x, run.0, run.1)])
                     && forall i :: 0 <= i < |events| && Begun(events, i, x) ==> i <= j
  }

  /** Before the lock file has a state there is no result. */
  ghost predicate Unstarted(f: Files) {
    f.lock.NoLock? || f.lock.EmptyLock? ==>
      forall x :: x in f.marks ==> f.marks[x].TornMark? || f.marks[x].status.PendingStatus?
  }

  /** A result of `x` that nothing marks as pending. */
  predicate Readable(f: Files, x: Source) {
    f.lock.Pending? && x !in f.lock.sources && x in f.marks && f.marks[x].Mark? && !f.marks[x].status.PendingStatus?
  }

  /** The session ran to its end with this result. */
  predicate Finished(f': Files, s: Session) {
    && s.collected.Some?
    && var c := s.collected.value;
    && !StatusOf(c).PendingStatus? && c.run.Some?
    && s.x in f'.marks && f'.marks[s.x].Mark? && f'.marks[s.x].run == c.run
    && var key := Key(s.x, c.run.value.0, c.run.value.1);
    key in f'.batches && f'.batches[key] == c.checks
  }

  lemma StoringEnds(f: Files, s: Session, c: Collected)
    requires f.lock.Pending? && s.x in f.lock.sources && s.collected == Some(c)
    ensures Readable(StoreAll(f, s, c), s.x) ==> Finished(StoreAll(f, s, c), s)
  {
    hide StatusOf;
  }

  /** A readable result of the session's own source is its own, or the session left no trace. */
  lemma OwnResult(f: Files, s: Session)
    requires Unstarted(f)
    ensures Readable(Collect(f, s), s.x) ==>
              || Finished(Collect(f, s), s)
              || (!Landed(f, s) && Readable(f, s.x) && Collect(f, s).marks[s.x] == f.marks[s.x]
                  && Collect(f, s).batches == f.batches)
  {
    hide StoreAll;
    var (lock0, ready) := OpenLock(f.lock, s.creator, s.opening);
    if ready.Went? {
      var (lock1, marked) := UpdatePending(lock0, s.x, true, s.marking);
      var (marks2, invalidated) := StoreMark(f.marks, s.x, Mark(None, None, PendingStatus), s.invalidating);
      if marked.Went? && invalidated.Went? && s.collected.Some? {
        StoringEnds(Files(lock1, marks2, f.batches), s, s.collected.value);
      }
    }
  }

  /** What is kept of a source that the session does not collect. */
  ghost predicate KeepsSource(f: Files, f': Files, y: Source) {
    && (y in f'.marks <==> y in f.marks) && (y in f.marks ==> f'.marks[y] == f.marks[y])
    && (forall key: Key :: key.source == y ==>
          (key in f'.batches <==> key in f.batches) && (key in f.batches ==> f'.batches[key] == f.batches[key]))
  }

  lemma StoringKeepsSource(f: Files, s: Session, c: Collected, y: Source)
    requires y != s.x
    ensures KeepsSource(f, StoreAll(f, s, c), y)
  {
    hide StatusOf, UpdatePending;
    StoreMarkKeeps(f.marks, s.x, Mark(WorkflowOf(c), c.run, PendingStatus), s.invalidatingAgain, y);
    var marks1 := StoreMark(f.marks, s.x, Mark(WorkflowOf(c), c.run, PendingStatus), s.invalidatingAgain).0;
    StoreMarkKeeps(marks1, s.x, Mark(WorkflowOf(c), c.run, StatusOf(c)), s.finishing, y);
    hide StoreMark;
  }

  lemma StoreMarkKeeps(marks: map<Source, Mark>, x: Source, mark: Mark, faults: MarkFaults, y: Source)
    requires mark.Mark? && y != x
    ensures var marks' := StoreMark(marks, x, mark, faults).0;
            (y in marks' <==> y in marks) && (y in marks ==> marks'[y] == marks[y])
  {
  }

  lemma StoringKeepsLock(f: Files, s: Session, c: Collected, y: Source)
    requires y != s.x && f.lock.Pending?
    ensures var lock' := StoreAll(f, s, c).lock;
            && (lock'.TornLock? || lock'.Pending?)
            && (lock'.Pending? ==> (y in lock'.sources <==> y in f.lock.sources))
  {
    hide StatusOf, StoreMark, StoreBatch;
  }

  lemma StoringKeepsOthers(f: Files, s: Session, c: Collected, y: Source)
    requires y != s.x && f.lock.Pending?
    ensures var f' := StoreAll(f, s, c);
            && KeepsSource(f, f', y)
            && (f'.lock.TornLock? || f'.lock.Pending?)
            && (f'.lock.Pending? ==> (y in f'.lock.sources <==> y in f.lock.sources))
  {
    StoringKeepsSource(f, s, c, y);
    StoringKeepsLock(f, s, c, y);
    hide StoreAll, KeepsSource;
  }

  /** A session changes nothing about other sources: not their watermarks, batches or markers. */
  lemma OthersUnchanged(f: Files, s: Session, y: Source)
    requires y != s.x
    ensures var f' := Collect(f, s);
            && KeepsSource(f, f', y)
            && (f'.lock.Pending? ==>
                  if f.lock.Pending? then y in f'.lock.sources <==> y in f.lock.sources
                  else f.lock.EmptyLock? && y !in f'.lock.sources)
  {
    hide StoreAll, KeepsSource;
    var (lock0, ready) := OpenLock(f.lock, s.creator, s.opening);
    var (lock1, marked) := UpdatePending(lock0, s.x, true, s.marking);
    var (marks2, invalidated) := StoreMark(f.marks, s.x, Mark(None, None, PendingStatus), s.invalidating);
    MarkingKeepsOthers(f, s, y);
    if marked.Went? && s.collected.Some? {
      var f2 := Files(lock1, marks2, f.batches);
      StoringKeepsOthers(f2, s, s.collected.value, y);
      SourceChain(f, f2, StoreAll(f2, s, s.collected.value), y);
    }
  }

  lemma SourceChain(f: Files, f1: Files, f2: Files, y: Source)
    requires KeepsSource(f, f1, y) && KeepsSource(f1, f2, y)
    ensures KeepsSource(f, f2, y)
  {
  }

  lemma MarkingKeepsOthers(f: Files, s: Session, y: Source)
    requires y != s.x
    ensures forall lock :: KeepsSource(f, Files(lock, f.marks, f.batches), y)
    ensures var marks2 := StoreMark(f.marks, s.x, Mark(None, None, PendingStatus), s.invalidating).0;
            forall lock :: KeepsSource(f, Files(lock, marks2, f.batches), y)
  {
  }

  lemma SessionKeepsUnstarted(f: Files, s: Session)
    requires Unstarted(f)
    ensures Unstarted(Collect(f, s))
  {
    hide StoreAll;
    var lock1 := UpdatePending(OpenLock(f.lock, s.creator, s.opening).0, s.x, true, s.marking).0;
    var marks2 := StoreMark(f.marks, s.x, Mark(None, None, PendingStatus), s.invalidating).0;
    if lock1.Pending? && s.collected.Some? {
      StoringKeepsOthers(Files(lock1, marks2, f.batches), s, s.collected.value, s.x + 1);
    }
  }

  lemma EarlierEvents(events: seq<Event>, e: Event, x: Source)
    ensures History(events + [e]) == Happen(History(events), e)
    ensures forall j, run, checks :: 0 <= j < |events| ==>
              Found(events + [e], j, x, run, checks) == Found(events, j, x, run, checks)
    ensures forall i :: 0 <= i < |events| ==> Begun(events + [e], i, x) == Begun(events, i, x)
  {
    hide Landed, Happen, StatusOf;
    assert (events + [e])[..|events|] == events;
    forall i | 0 <= i < |events| ensures (events + [e])[..i] == events[..i] && (events + [e])[i] == events[i] {
    }
  }

  lemma CurrentStays(f: Files, f': Files, events: seq<Event>, e: Event, x: Source)
    requires Current(f, events, x)
    requires !Begun(events + [e], |events|, x)
    requires Readable(f', x) ==> Readable(f, x) && KeepsSource(f, f', x)
    ensures Current(f', events + [e], x)
  {
    hide Begun, Found;
    if Readable(f', x) {
      var run := f.marks[x].run.value;
      var checks := f.batches[Key(x, run.0, run.1)];
      EarlierEvents(events, e, x);
      var j :| 0 <= j < |events| && Found(events, j, x, run, checks)
               && forall i :: 0 <= i < |events| && Begun(events, i, x) ==> i <= j;
      assert Found(events + [e], j, x, run, checks);
    }
  }

  lemma EventKeepsCurrent(f: Files, events: seq<Event>, e: Event, x: Source)
    requires f == History(events) && Unstarted(f) && Current(f, events, x)
    ensures Unstarted(Happen(f, e)) && Current(Happen(f, e), events + [e], x)
  {
    hide Current, Landed, Collect, StatusOf;
    var f' := Happen(f, e);
    assert (events + [e])[..|events|] == events;
    if e.CreateLock? {
      CurrentStays(f, f', events, e, x);
    } else {
      var s := e.session;
      SessionKeepsUnstarted(f, s);
      if s.x != x {
        OthersUnchanged(f, s, x);
        CurrentStays(f, f', events, e, x);
      } else {
        OwnResult(f, s);
        if Readable(f', x) && Finished(f', s) {
          OwnIsCurrent(f', events, e, x);
        } else {
          if Readable(f', x) { assert KeepsSource(f, f', x); }
          else { UnreadableIsCurrent(f', events + [e], x); }
          if Readable(f', x) { CurrentStays(f, f', events, e, x); }
        }
      }
    }
  }

  lemma UnreadableIsCurrent(f: Files, events: seq<Event>, x: Source)
    requires !Readable(f, x)
    ensures Current(f, events, x)
  {
  }

  lemma OwnIsCurrent(f': Files, events: seq<Event>, e: Event, x: Source)
    requires e.Run? && e.session.x == x && Finished(f', e.session)
    ensures Current(f', events + [e], x)
  {
    hide Begun, StatusOf;
    var c := e.session.collected.value;
    assert Found(events + [e], |events|, x, c.run.value, c.checks);
  }

  lemma {:induction false} HistoryIsCurrent(events: seq<Event>, x: Source)
    ensures Unstarted(History(events)) && Current(History(events), events, x)
  {
    hide Happen, Found, Begun;
    if events != [] {
      var earlier := events[..|events| - 1];
      HistoryIsCurrent(earlier, x);
      EventKeepsCurrent(History(earlier), earlier, events[|events| - 1], x);
      assert earlier + [events[|events| - 1]] == events;
    }
  }

  /**
   Once a collection of a source made its marker or its PENDING watermark durable, a reader is
   given nothing, or the batch of that collection or of a later one of the same source, for
   every history of collections that stop at any file effect.
   */
  lemma StaleBatchIsNeverRead(events: seq<Event>, i: nat, x: Source, workflow: string)
    requires i < |events| && Begun(events, i, x)
    requires Read(History(events), x, workflow).Batch?
    ensures exists j, run :: i <= j < |events|
              && Found(events, j, x, run, Read(History(events), x, workflow).checks)
  {
    hide Begun, Found, History, StatusOf;
    HistoryIsCurrent(events, x);
    var f := History(events);
    var run := f.marks[x].run.value;
    assert exists j :: 0 <= j < |events| && Found(events, j, x, run, f.batches[Key(x, run.0, run.1)])
                       && forall i :: 0 <= i < |events| && Begun(events, i, x) ==> i <= j;
  }

  /** A lock file torn by an interrupted rewrite stays unreadable, and no batch is read again. */
  lemma {:induction false} TornLockReadsNothing(events: seq<Event>, n: nat, x: Source, workflow: string)
    requires n <= |events| && History(events[..n]).lock.TornLock?
    ensures History(events).lock.TornLock? && Read(History(events), x, workflow) == Nothing
    decreases |events|
  {
    if n < |events| {
      var earlier := events[..|events| - 1];
      assert earlier[..n] == events[..n];
      TornLockReadsNothing(earlier, n, x, workflow);
    } else {
      assert events[..n] == events;
    }
  }

  const NO_MARK_FAULTS: MarkFaults := MarkFaults(NoFault, NoFault)

  /** A session in which nothing fails. */
  function Undisturbed(x: Source, creator: bool, c: Collected): Session {
    Session(x, creator, NoFault, NoFault, NO_MARK_FAULTS, Some(c), NO_MARK_FAULTS, NoFault, NO_MARK_FAULTS, NoFault)
  }

  /** Another batch is stored under the key of this collection. */
  predicate Blocked(f: Files, x: Source, c: Collected) {
    c.run.Some? && var key := Key(x, c.run.value.0, c.run.value.1); key in f.batches && f.batches[key] != c.checks
  }

  /**
   What a reader is given after an undisturbed session: its batch exactly when it has a result
   and no other batch is stored under its key, and otherwise nothing.
   */
  lemma UndisturbedSessionIsRead(f: Files, x: Source, c: Collected, workflow: string)
    requires f.lock.Pending? && c.run.Some?
    requires BatchFits(Key(x, c.run.value.0, c.run.value.1), c.checks, workflow)
    ensures var f' := Collect(f, Undisturbed(x, false, c));
            && (Read(f', x, workflow) == Batch(c.checks) <==> !StatusOf(c).PendingStatus? && !Blocked(f, x, c))
            && (Read(f', x, workflow) == Nothing <==> StatusOf(c).PendingStatus? || Blocked(f, x, c))
            && (x in f'.lock.sources <==> Blocked(f, x, c))
  {
    hide StatusOf;
  }

  /** The watermark an undisturbed session leaves: FAIL for any failed check, PENDING for checks still missing. */
  lemma WatermarkSays(f: Files, x: Source, c: Collected)
    requires f.lock.Pending? && c.run.Some? && c.checks != []
    ensures var f', failed := Collect(f, Undisturbed(x, false, c)), exists i :: 0 <= i < |c.checks| && !c.checks[i].success;
            && x in f'.marks && f'.marks[x].Mark?
            && f'.marks[x].workflow == Some(c.checks[0].workflow) && f'.marks[x].run == c.run
            && (f'.marks[x].status.FailStatus? <==> failed && !Blocked(f, x, c))
            && (f'.marks[x].status.PassStatus? <==> !failed && c.complete && !Blocked(f, x, c))
            && (f'.marks[x].status.PendingStatus? <==> (!failed && !c.complete) || Blocked(f, x, c))
            && (!Blocked(f, x, c) ==> f'.batches == f.batches[Key(x, c.run.value.0, c.run.value.1) := c.checks])
  {
    StatusMeans(c);
    hide StatusOf;
  }

  lemma StatusMeans(c: Collected)
    ensures var failed := exists i :: 0 <= i < |c.checks| && !c.checks[i].success;
            && (StatusOf(c).FailStatus? <==> failed)
            && (StatusOf(c).PendingStatus? <==> !failed && !c.complete)
            && (StatusOf(c).PassStatus? <==> !failed && c.complete)
  {
  }

  /** A different batch under the same run keeps the source pending until another run is found. */
  lemma ConflictingBatchStaysPending(f: Files, s: Session)
    requires f.lock.Pending? && s.collected.Some? && s.collected.value.checks != []
    requires Blocked(f, s.x, s.collected.value)
    requires s.opening.NoFault? && s.marking.NoFault?
    ensures Collect(f, s).lock == Pending(f.lock.sources + {s.x})
    ensures Collect(f, s).batches == f.batches
  {
    hide StatusOf;
  }

  const FirstCheck: Check := Check(Key(0, 7, 1), "release", true, "first")
  const SecondCheck: Check := Check(Key(0, 7, 1), "release", true, "second")

  /** The same workflow attempt, seen before and after its last check finished. */
  const Partial: Collected := Collected(Some((7, 1)), [FirstCheck], false)
  const Whole: Collected := Collected(Some((7, 1)), [FirstCheck, SecondCheck], true)

  /** The lock is created, an attempt is collected while it is partial, and again when it is complete. */
  const LateCompletion: seq<Event> :=
    [CreateLock, Run(Undisturbed(0, true, Partial)), Run(Undisturbed(0, false, Partial)),
     Run(Undisturbed(0, false, Whole))]

  /**
   A complete collection of an attempt that was stored while partial is not read, though
   nothing failed: the source stays pending with the partial batch.
   */
  lemma LateCompletionIsNotRead()
    ensures !StatusOf(Whole).PendingStatus? && BatchFits(Key(0, 7, 1), Whole.checks, "release")
    ensures var f := History(LateCompletion);
            && Read(f, 0, "release") == Nothing
            && f.lock == Pending({0})
            && f.batches == map[Key(0, 7, 1) := Partial.checks]
  {
    hide Collect, StatusOf;
    var f1 := Files(EmptyLock, map[], map[]);
    var stored := Files(Pending({}), map[0 := Mark(Some("release"), Some((7, 1)), PendingStatus)],
                        map[Key(0, 7, 1) := Partial.checks]);
    assert History([CreateLock]) == f1 by {
      assert [CreateLock][..0] == [];
      assert History([]) == NoFiles;
    }
    EarlierEvents([CreateLock], LateCompletion[1], 0);
    EarlierEvents([CreateLock, LateCompletion[1]], LateCompletion[2], 0);
    EarlierEvents([CreateLock, LateCompletion[1], LateCompletion[2]], LateCompletion[3], 0);
    assert [CreateLock] + [LateCompletion[1]] == [CreateLock, LateCompletion[1]];
    assert [CreateLock, LateCompletion[1]] + [LateCompletion[2]] == [CreateLock, LateCompletion[1], LateCompletion[2]];
    assert [CreateLock, LateCompletion[1], LateCompletion[2]] + [LateCompletion[3]] == LateCompletion;
    PartialStatuses();
    FirstPartial(f1, stored);
    AgainPartial(stored);
    hide History, Read, Happen;
    HappenCollects(f1);
    HappenCollects(stored);
    assert Happen(f1, LateCompletion[1]) == stored && Happen(stored, LateCompletion[2]) == stored;
    UndisturbedSessionIsRead(stored, 0, Whole, "release");
    ConflictingBatchStaysPending(stored, Undisturbed(0, false, Whole));
  }

  lemma HappenCollects(f: Files)
    ensures forall s :: Happen(f, Run(s)) == Collect(f, s)
  {
    hide Collect;
  }

  lemma PartialStatuses()
    ensures StatusOf(Partial).PendingStatus? && StatusOf(Whole).PassStatus?
    ensures BatchFits(Key(0, 7, 1), Whole.checks, "release")
  {
  }

  lemma FirstPartial(f: Files, stored: Files)
    requires f == Files(EmptyLock, map[], map[]) && StatusOf(Partial).PendingStatus?
    requires stored == Files(Pending({}), map[0 := Mark(Some("release"), Some((7, 1)), PendingStatus)],
                             map[Key(0, 7, 1) := Partial.checks])
    ensures Collect(f, Undisturbed(0, true, Partial)) == stored
  {
    hide StatusOf;
  }

  lemma AgainPartial(stored: Files)
    requires stored == Files(Pending({}), map[0 := Mark(Some("release"), Some((7, 1)), PendingStatus)],
                             map[Key(0, 7, 1) := Partial.checks])
    requires StatusOf(Partial).PendingStatus?
    ensures Collect(stored, Undisturbed(0, false, Partial)) == stored
  {
    hide StatusOf;
  }
}
