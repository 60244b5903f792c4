/**
 Normalising one provider response of daily bars: the outcome of a symbol depends on which
 records came, not on their order, and success means exactly the expected sessions in order.
 */
module DailyBars {
  import opened Ordering

  datatype Option<+T> = None | Some(value: T)

  /** Session dates, as day ordinals. */
  type Session = nat

  /** A normalised record: its session and everything else it says. */
  datatype Observation = Observation(session: Session, body: string)

  datatype Reason = NoData | MalformedBar | DuplicateConflict | FutureOrIncompleteBar | Stale | MissingExpectedSession

  datatype Outcome =
    | Bars(symbol: string, observations: seq<Observation>, duplicateRemoved: bool)
    | Failure(symbol: string, reason: Reason, missing: seq<Session>, duplicateRemoved: bool)

  /** `expected` is strictly increasing and ends at `completedThrough`. */
  datatype Request = Request(symbols: seq<string>, expected: seq<Session>, completedThrough: Session)

  /** `normalise` reads one record, if it can; `consistent` is the constructor's own check. */
  datatype Reader<!Record> = Reader(
    normalise: (string, Record) -> Option<Observation>,
    consistent: (string, seq<Observation>) -> bool)

  // ---- What the records of one symbol amount to ----

  ghost predicate Malformed<Record>(r: Reader<Record>, symbol: string, records: seq<Record>) {
    exists i :: 0 <= i < |records| && r.normalise(symbol, records[i]).None?
  }

  /** The distinct observations the records amount to. */
  ghost function Observed<Record>(r: Reader<Record>, symbol: string, records: seq<Record>): set<Observation>
    requires !Malformed(r, symbol, records)
  {
    set i | 0 <= i < |records| :: r.normalise(symbol, records[i]).value
  }

  /** Two different observations of one session. */
  ghost predicate Conflicting(observed: set<Observation>) {
    exists a, b :: a in observed && b in observed && a.session == b.session && a != b
  }

  /** Some observation came more than once. */
  ghost predicate Repeated<Record>(r: Reader<Record>, symbol: string, records: seq<Record>)
    requires !Malformed(r, symbol, records)
  {
    exists i, j :: 0 <= i < j < |records| && r.normalise(symbol, records[i]) == r.normalise(symbol, records[j])
  }

  ghost predicate InOrder(s: seq<Observation>) {
    forall i, j :: 0 <= i < j < |s| ==> s[i].session < s[j].session
  }

  /** The observations of a set without conflicts, by increasing session. */
  ghost predicate Arranges(s: seq<Observation>, observed: set<Observation>) {
    InOrder(s) && forall o :: o in s <==> o in observed
  }

  function MissingFrom(expected: seq<Session>, s: seq<Observation>): seq<Session> {
    if expected == [] then []
    else
      var last := expected[|expected| - 1];
      MissingFrom(expected[..|expected| - 1], s)
      + (if exists i :: 0 <= i < |s| && s[i].session == last then [] else [last])
  }

  /** The checks after grouping, on the arranged observations. */
  function Judge<Record>(r: Reader<Record>, q: Request, symbol: string, s: seq<Observation>, repeated: bool): Outcome
    requires s != []
  {
    if exists i :: 0 <= i < |s| && s[i].session > q.completedThrough then
      Failure(symbol, FutureOrIncompleteBar, [], repeated)
    else if exists i :: 0 <= i < |s| && s[i].session !in q.expected then Failure(symbol, MalformedBar, [], repeated)
    else if s[|s| - 1].session < q.completedThrough then
      Failure(symbol, Stale, MissingFrom(q.expected, s), repeated)
    else if MissingFrom(q.expected, s) != [] then
      Failure(symbol, MissingExpectedSession, MissingFrom(q.expected, s), repeated)
    else if !r.consistent(symbol, s) then Failure(symbol, MalformedBar, [], repeated)
    else Bars(symbol, s, repeated)
  }

  /** The outcome of a symbol, told without an order of records. */
  ghost predicate Normalises<Record>(r: Reader<Record>, q: Request, symbol: string, records: seq<Record>, o: Outcome) {
    if records == [] then o == Failure(symbol, NoData, q.expected, false)
    else if Malformed(r, symbol, records) then o == Failure(symbol, MalformedBar, [], false)
    else if Conflicting(Observed(r, symbol, records)) then o == Failure(symbol, DuplicateConflict, [], false)
    else
      exists s :: s != [] && Arranges(s, Observed(r, symbol, records))
                  && o == Judge(r, q, symbol, s, Repeated(r, symbol, records))
  }

  // ---- Order does not matter ----

  lemma SameObservations<Record(!new)>(r: Reader<Record>, symbol: string, a: seq<Record>, b: seq<Record>)
    requires multiset(a) == multiset(b) && !Malformed(r, symbol, a) && !Malformed(r, symbol, b)
    ensures Observed(r, symbol, a) == Observed(r, symbol, b)
  {
    OneWay(r, symbol, a, b);
    OneWay(r, symbol, b, a);
  }

  lemma OneWay<Record(!new)>(r: Reader<Record>, symbol: string, a: seq<Record>, b: seq<Record>)
    requires multiset(a) == multiset(b) && !Malformed(r, symbol, a) && !Malformed(r, symbol, b)
    ensures Observed(r, symbol, a) <= Observed(r, symbol, b)
  {
    forall o | o in Observed(r, symbol, a) ensures o in Observed(r, symbol, b) {
      var i :| 0 <= i < |a| && r.normalise(symbol, a[i]).value == o;
      var j := MemberIndex(b, a[i]);
      assert r.normalise(symbol, b[j]).value == o;
    }
  }

  lemma MalformedIgnoresOrder<Record(!new)>(r: Reader<Record>, symbol: string, a: seq<Record>, b: seq<Record>)
    requires multiset(a) == multiset(b) && Malformed(r, symbol, a)
    ensures Malformed(r, symbol, b)
  {
    var i :| 0 <= i < |a| && r.normalise(symbol, a[i]).None?;
    var j := MemberIndex(b, a[i]);
    assert r.normalise(symbol, b[j]).None?;
  }

  /** The observations in the order of the records. */
  ghost function Values<Record>(r: Reader<Record>, symbol: string, records: seq<Record>): (v: seq<Observation>)
    requires !Malformed(r, symbol, records)
    ensures |v| == |records|
  {
    seq(|records|, i requires 0 <= i < |records| => r.normalise(symbol, records[i]).value)
  }

  lemma {:induction false} ValuesKeepMultiset<Record(!new)>(r: Reader<Record>, symbol: string, a: seq<Record>, b: seq<Record>)
    requires multiset(a) == multiset(b) && !Malformed(r, symbol, a) && !Malformed(r, symbol, b)
    ensures multiset(Values(r, symbol, a)) == multiset(Values(r, symbol, b))
    decreases |a|
  {
    assert |a| == |multiset(a)| == |b|;
    if a != [] {
      var n := |a| - 1;
      var k := MemberIndex(b, a[n]);
      var rest, before, after := a[..n], b[..k], b[k + 1..];
      assert a == rest + [a[n]] && b == before + [a[n]] + after;
      RemoveOne(rest, a[n], before, after);
      assert forall i :: 0 <= i < |rest| ==> rest[i] == a[i];
      assert forall i :: 0 <= i < |before + after| ==> (before + after)[i] == b[if i < k then i else i + 1];
      ValuesKeepMultiset(r, symbol, rest, before + after);
      assert Values(r, symbol, a) == Values(r, symbol, rest) + [Values(r, symbol, a)[n]];
      SplitValues(r, symbol, b, k);
    }
  }

  lemma SplitValues<Record>(r: Reader<Record>, symbol: string, b: seq<Record>, k: nat)
    requires k < |b| && !Malformed(r, symbol, b)
    ensures !Malformed(r, symbol, b[..k] + b[k + 1..])
    ensures multiset(Values(r, symbol, b))
            == multiset(Values(r, symbol, b[..k] + b[k + 1..])) + multiset{r.normalise(symbol, b[k]).value}
  {
    var others := b[..k] + b[k + 1..];
    assert forall i :: 0 <= i < |others| ==> others[i] == b[if i < k then i else i + 1];
    var v := Values(r, symbol, b);
    assert v == v[..k] + [v[k]] + v[k + 1..];
    assert Values(r, symbol, others) == v[..k] + v[k + 1..];
  }

  /** A sequence repeats a value exactly when its multiset counts one twice. */
  lemma RepeatsAreCounted(v: seq<Observation>)
    ensures (exists i, j :: 0 <= i < j < |v| && v[i] == v[j]) <==> exists o :: multiset(v)[o] >= 2
  {
    if i, j :| 0 <= i < j < |v| && v[i] == v[j] {
      TwiceInMultiset(v, i, j);
    }
    if o :| multiset(v)[o] >= 2 {
      var i := MemberIndex(v, o);
      assert v == v[..i] + [o] + v[i + 1..];
      assert o in multiset(v[..i]) || o in multiset(v[i + 1..]);
      if o in multiset(v[..i]) {
        var k := MemberIndex(v[..i], o);
        assert v[k] == v[i];
      } else {
        var k := MemberIndex(v[i + 1..], o);
        assert v[i] == v[i + 1 + k];
      }
    }
  }

  lemma RepeatedIgnoresOrder<Record(!new)>(r: Reader<Record>, symbol: string, a: seq<Record>, b: seq<Record>)
    requires multiset(a) == multiset(b) && !Malformed(r, symbol, a) && !Malformed(r, symbol, b)
    ensures Repeated(r, symbol, a) == Repeated(r, symbol, b)
  {
    ValuesKeepMultiset(r, symbol, a, b);
    RepeatsAreCounted(Values(r, symbol, a));
    RepeatsAreCounted(Values(r, symbol, b));
    RepeatedValues(r, symbol, a);
    RepeatedValues(r, symbol, b);
  }

  lemma RepeatedValues<Record(!new)>(r: Reader<Record>, symbol: string, records: seq<Record>)
    requires !Malformed(r, symbol, records)
    ensures Repeated(r, symbol, records)
            <==> exists i, j :: 0 <= i < j < |records| && Values(r, symbol, records)[i] == Values(r, symbol, records)[j]
  {
    if i, j :| 0 <= i < j < |records| && r.normalise(symbol, records[i]) == r.normalise(symbol, records[j]) {
      assert Values(r, symbol, records)[i] == Values(r, symbol, records)[j];
    }
    if i, j :| 0 <= i < j < |records| && Values(r, symbol, records)[i] == Values(r, symbol, records)[j] {
      assert r.normalise(symbol, records[i]) == r.normalise(symbol, records[j]);
    }
  }

  lemma EmptyOrMember<T>(s: seq<T>)
    ensures s == [] || exists o :: o in s
  {
    if s != [] { assert s[0] in s; }
  }

  /** Observations of different sessions leave one arrangement. */
  lemma {:induction false} ArrangementIsUnique(s: seq<Observation>, t: seq<Observation>, observed: set<Observation>)
    requires Arranges(s, observed) && Arranges(t, observed)
    ensures s == t
    decreases |s|
  {
    if s == [] {
      EmptyOrMember(t);
    } else {
      var last := s[|s| - 1];
      assert last in observed;
      assert t != [];
      assert t[|t| - 1] in s && last in t;
      assert last == t[|t| - 1];
      var s', t' := s[..|s| - 1], t[..|t| - 1];
      forall o ensures o in s' <==> o in observed - {last}
               ensures o in t' <==> o in observed - {last}
      {
        assert s == s' + [last] && t == t' + [last];
      }
      ArrangementIsUnique(s', t', observed - {last});
      assert s == s' + [last] && t == t' + [last];
    }
  }

  /** Permuting a symbol's records never changes its outcome. */
  lemma RecordOrderDoesNotMatter<Record(!new)>(r: Reader<Record>, q: Request, symbol: string, a: seq<Record>,
                                               b: seq<Record>, o: Outcome, o': Outcome)
    requires multiset(a) == multiset(b)
    requires Normalises(r, q, symbol, a, o) && Normalises(r, q, symbol, b, o')
    ensures o == o'
  {
    hide Malformed, Conflicting, Observed, Repeated, Arranges, Judge;
    assert |a| == |multiset(a)| == |b|;
    if Malformed(r, symbol, a) {
      MalformedIgnoresOrder(r, symbol, a, b);
    } else if Malformed(r, symbol, b) {
      MalformedIgnoresOrder(r, symbol, b, a);
    } else {
      SameObservations(r, symbol, a, b);
      RepeatedIgnoresOrder(r, symbol, a, b);
      if a != [] && !Conflicting(Observed(r, symbol, a)) {
        var s :| s != [] && Arranges(s, Observed(r, symbol, a))
                 && o == Judge(r, q, symbol, s, Repeated(r, symbol, a));
        var t :| t != [] && Arranges(t, Observed(r, symbol, b))
                 && o' == Judge(r, q, symbol, t, Repeated(r, symbol, b));
        ArrangementIsUnique(s, t, Observed(r, symbol, a));
      }
    }
  }

  // ---- Success ----

  ghost predicate GoodRequest(q: Request) {
    && q.expected != []
    && (forall i, j :: 0 <= i < j < |q.expected| ==> q.expected[i] < q.expected[j])
    && q.expected[|q.expected| - 1] == q.completedThrough
  }

  lemma {:induction false} NothingMissing(expected: seq<Session>, s: seq<Observation>)
    requires MissingFrom(expected, s) == []
    ensures forall k :: 0 <= k < |expected| ==> exists i :: 0 <= i < |s| && s[i].session == expected[k]
  {
    if expected != [] { NothingMissing(expected[..|expected| - 1], s); }
  }

  function Sessions(s: seq<Observation>): (r: seq<Session>)
    ensures |r| == |s|
  {
    seq(|s|, i requires 0 <= i < |s| => s[i].session)
  }

  /** Two strictly increasing sequences with the same members are equal. */
  lemma {:induction false} SameIncreasing(a: seq<Session>, b: seq<Session>)
    requires forall i, j :: 0 <= i < j < |a| ==> a[i] < a[j]
    requires forall i, j :: 0 <= i < j < |b| ==> b[i] < b[j]
    requires forall x :: x in a <==> x in b
    ensures a == b
    decreases |a|
  {
    if a == [] {
      EmptyOrMember(b);
    } else {
      var last := a[|a| - 1];
      assert last in a;
      assert b != [] && b[|b| - 1] in a;
      assert last == b[|b| - 1];
      var a', b' := a[..|a| - 1], b[..|b| - 1];
      assert a == a' + [last] && b == b' + [last];
      forall x ensures x in a' <==> x in b' {
        assert x in a' ==> x != last && x in a;
        assert x in b' ==> x != last && x in b;
      }
      SameIncreasing(a', b');
    }
  }

  /** What the checks after grouping established when they let a symbol's bars through. */
  lemma JudgedBars<Record>(r: Reader<Record>, q: Request, symbol: string, s: seq<Observation>, repeated: bool)
    requires s != [] && Judge(r, q, symbol, s, repeated).Bars?
    ensures Judge(r, q, symbol, s, repeated) == Bars(symbol, s, repeated)
    ensures MissingFrom(q.expected, s) == []
    ensures forall i :: 0 <= i < |s| ==> s[i].session in q.expected
  {
    hide MissingFrom;
  }

  lemma SameMembers(expected: seq<Session>, s: seq<Observation>)
    requires forall k :: 0 <= k < |expected| ==> exists i :: 0 <= i < |s| && s[i].session == expected[k]
    requires forall i :: 0 <= i < |s| ==> s[i].session in expected
    ensures forall x :: x in Sessions(s) <==> x in expected
  {
    forall x | x in expected ensures x in Sessions(s) {
      var k :| 0 <= k < |expected| && expected[k] == x;
      var i :| 0 <= i < |s| && s[i].session == expected[k];
      assert Sessions(s)[i] == x;
    }
  }

  /** Bars in order whose sessions are the expected ones as a set are those sessions in order. */
  lemma ExpectedInOrder(q: Request, s: seq<Observation>)
    requires GoodRequest(q) && InOrder(s) && MissingFrom(q.expected, s) == []
    requires forall i :: 0 <= i < |s| ==> s[i].session in q.expected
    ensures Sessions(s) == q.expected
  {
    NothingMissing(q.expected, s);
    SameMembers(q.expected, s);
    hide MissingFrom;
    SameIncreasing(Sessions(s), q.expected);
  }

  /** Success holds only when the deduplicated sessions are the expected ones, in increasing order. */
  lemma SuccessIsComplete<Record(!new)>(r: Reader<Record>, q: Request, symbol: string, records: seq<Record>, o: Outcome)
    requires GoodRequest(q) && Normalises(r, q, symbol, records, o) && o.Bars?
    ensures Sessions(o.observations) == q.expected
    ensures !Malformed(r, symbol, records) && Arranges(o.observations, Observed(r, symbol, records))
    ensures o.duplicateRemoved <==> Repeated(r, symbol, records)
  {
    hide Malformed, Conflicting, Observed, Repeated, Judge, GoodRequest, InOrder, MissingFrom, Sessions;
    var s: seq<Observation> :| s != [] && Arranges(s, Observed(r, symbol, records))
                               && o == Judge(r, q, symbol, s, Repeated(r, symbol, records));
    JudgedBars(r, q, symbol, s, Repeated(r, symbol, records));
    ExpectedInOrder(q, s);
  }

  // ---- Why a symbol fails ----

  ghost predicate Future(q: Request, observed: set<Observation>) {
    exists o :: o in observed && o.session > q.completedThrough
  }

  ghost predicate Unexpected(q: Request, observed: set<Observation>) {
    exists o :: o in observed && o.session !in q.expected
  }

  /** No observation is of this session. */
  ghost predicate Lacks(observed: set<Observation>, x: Session) {
    forall o :: o in observed ==> o.session != x
  }

  ghost predicate LacksSome(q: Request, observed: set<Observation>) {
    exists x :: x in q.expected && Lacks(observed, x)
  }

  ghost predicate Consistent<Record>(r: Reader<Record>, symbol: string, observed: set<Observation>) {
    exists s :: Arranges(s, observed) && r.consistent(symbol, s)
  }

  /** Some records, all of them readable, and no two of one session that differ. */
  ghost predicate Clean<Record>(r: Reader<Record>, symbol: string, records: seq<Record>) {
    records != [] && !Malformed(r, symbol, records) && !Conflicting(Observed(r, symbol, records))
  }

  lemma {:induction false} MissingMeans(expected: seq<Session>, s: seq<Observation>)
    ensures forall x :: x in MissingFrom(expected, s) <==> x in expected && forall o :: o in s ==> o.session != x
    ensures (forall i, j :: 0 <= i < j < |expected| ==> expected[i] < expected[j]) ==>
              forall i, j :: 0 <= i < j < |MissingFrom(expected, s)| ==>
                MissingFrom(expected, s)[i] < MissingFrom(expected, s)[j]
  {
    if expected != [] {
      var front, last := expected[..|expected| - 1], expected[|expected| - 1];
      MissingMeans(front, s);
      assert expected == front + [last];
      var earlier := MissingFrom(front, s);
      forall i | 0 <= i < |earlier| ensures earlier[i] in front {
        assert earlier[i] in earlier;
      }
      if i :| 0 <= i < |s| && s[i].session == last { assert s[i] in s; }
    }
  }

  lemma ArrangedMembers(s: seq<Observation>, observed: set<Observation>)
    requires s != [] && Arranges(s, observed)
    ensures forall i :: 0 <= i < |s| ==> s[i] in observed
    ensures forall o :: o in observed ==> o in s && o.session <= s[|s| - 1].session
  {
    forall i | 0 <= i < |s| ensures s[i] in observed { assert s[i] in s; }
  }

  lemma ArrangedFuture(q: Request, s: seq<Observation>, observed: set<Observation>)
    requires s != [] && Arranges(s, observed)
    ensures (exists i :: 0 <= i < |s| && s[i].session > q.completedThrough) <==> Future(q, observed)
    ensures !Future(q, observed) ==> (s[|s| - 1].session < q.completedThrough <==> Lacks(observed, q.completedThrough))
  {
    ArrangedMembers(s, observed);
    hide Arranges;
  }

  lemma ArrangedUnexpected(q: Request, s: seq<Observation>, observed: set<Observation>)
    requires s != [] && Arranges(s, observed)
    ensures (exists i :: 0 <= i < |s| && s[i].session !in q.expected) <==> Unexpected(q, observed)
  {
    ArrangedMembers(s, observed);
    hide Arranges;
  }

  lemma ArrangedMissing(q: Request, s: seq<Observation>, observed: set<Observation>)
    requires Arranges(s, observed)
    ensures forall x :: x in MissingFrom(q.expected, s) <==> x in q.expected && Lacks(observed, x)
    ensures MissingFrom(q.expected, s) == [] <==> !LacksSome(q, observed)
  {
    MissingMeans(q.expected, s);
    hide MissingFrom, InOrder;
    EmptyOrMember(MissingFrom(q.expected, s));
  }

  /** The order of the checks. */
  lemma JudgeChecks<Record>(r: Reader<Record>, q: Request, symbol: string, s: seq<Observation>, repeated: bool)
    requires s != []
    ensures var o := Judge(r, q, symbol, s, repeated);
            var missing := MissingFrom(q.expected, s);
            if exists i :: 0 <= i < |s| && s[i].session > q.completedThrough then
              o == Failure(symbol, FutureOrIncompleteBar, [], repeated)
            else if exists i :: 0 <= i < |s| && s[i].session !in q.expected then
              o == Failure(symbol, MalformedBar, [], repeated)
            else if s[|s| - 1].session < q.completedThrough then o == Failure(symbol, Stale, missing, repeated)
            else if missing != [] then o == Failure(symbol, MissingExpectedSession, missing, repeated)
            else o == if r.consistent(symbol, s) then Bars(symbol, s, repeated)
                      else Failure(symbol, MalformedBar, [], repeated)
  {
    hide MissingFrom;
  }

  /** The reason of a failure, and what it reports as missing, in terms of the records alone. */
  ghost predicate Earned<Record>(r: Reader<Record>, q: Request, symbol: string, records: seq<Record>, o: Outcome)
    requires Clean(r, symbol, records)
  {
    var observed := Observed(r, symbol, records);
    && o.symbol == symbol
    && (o.duplicateRemoved <==> Repeated(r, symbol, records))
    && (o.Failure? && o.reason.FutureOrIncompleteBar? <==> Future(q, observed))
    && (o.Failure? && o.reason.Stale? <==>
          !Future(q, observed) && !Unexpected(q, observed) && Lacks(observed, q.completedThrough))
    && (o.Failure? && o.reason.MissingExpectedSession? <==>
          && !Future(q, observed) && !Unexpected(q, observed) && !Lacks(observed, q.completedThrough)
          && LacksSome(q, observed))
    && (o.Failure? && o.reason.MalformedBar? <==>
          && !Future(q, observed)
          && (Unexpected(q, observed) || (!LacksSome(q, observed) && !Consistent(r, symbol, observed))))
    && (o.Bars? <==>
          && !Future(q, observed) && !Unexpected(q, observed) && !LacksSome(q, observed)
          && Consistent(r, symbol, observed))
    && (o.Failure? && (o.reason.Stale? || o.reason.MissingExpectedSession?) ==>
          && (forall x :: x in o.missing <==> x in q.expected && Lacks(observed, x))
          && forall i, j :: 0 <= i < j < |o.missing| ==> o.missing[i] < o.missing[j])
    && (o.Failure? && !o.reason.Stale? && !o.reason.MissingExpectedSession? ==> o.missing == [])
  }

  lemma ConsistentArrangement<Record(!new)>(r: Reader<Record>, symbol: string, s: seq<Observation>,
                                            observed: set<Observation>)
    requires Arranges(s, observed)
    ensures Consistent(r, symbol, observed) <==> r.consistent(symbol, s)
  {
    if t :| Arranges(t, observed) && r.consistent(symbol, t) { ArrangementIsUnique(s, t, observed); }
  }

  /** The order of the checks, on the set of observations. */
  lemma JudgeBy<Record(!new)>(r: Reader<Record>, q: Request, symbol: string, s: seq<Observation>,
                              observed: set<Observation>, repeated: bool)
    requires s != [] && Arranges(s, observed)
    ensures var o := Judge(r, q, symbol, s, repeated);
            var missing := MissingFrom(q.expected, s);
            if Future(q, observed) then o == Failure(symbol, FutureOrIncompleteBar, [], repeated)
            else if Unexpected(q, observed) then o == Failure(symbol, MalformedBar, [], repeated)
            else if Lacks(observed, q.completedThrough) then o == Failure(symbol, Stale, missing, repeated)
            else if LacksSome(q, observed) then o == Failure(symbol, MissingExpectedSession, missing, repeated)
            else if Consistent(r, symbol, observed) then o == Bars(symbol, s, repeated)
            else o == Failure(symbol, MalformedBar, [], repeated)
  {
    ArrangedFuture(q, s, observed);
    ArrangedUnexpected(q, s, observed);
    ArrangedMissing(q, s, observed);
    ConsistentArrangement(r, symbol, s, observed);
    JudgeChecks(r, q, symbol, s, repeated);
    hide Arranges, Future, Unexpected, Lacks, LacksSome, Consistent, MissingFrom, Judge;
  }

  lemma JudgeIsEarned<Record(!new)>(r: Reader<Record>, q: Request, symbol: string, records: seq<Record>,
                                    s: seq<Observation>)
    requires GoodRequest(q) && Clean(r, symbol, records)
    requires s != [] && Arranges(s, Observed(r, symbol, records))
    ensures Earned(r, q, symbol, records, Judge(r, q, symbol, s, Repeated(r, symbol, records)))
  {
    var observed, repeated := Observed(r, symbol, records), Repeated(r, symbol, records);
    JudgeBy(r, q, symbol, s, observed, repeated);
    MissingMeans(q.expected, s);
    ArrangedMissing(q, s, observed);
    assert q.completedThrough in q.expected;
    LackingOneIsLacking(q, observed, q.completedThrough);
    var missing := MissingFrom(q.expected, s);
    assert forall i, j :: 0 <= i < j < |missing| ==> missing[i] < missing[j];
    hide *;
    EarnedBy(r, q, symbol, records, Judge(r, q, symbol, s, repeated), missing, s);
  }

  lemma EarnedBy<Record(!new)>(r: Reader<Record>, q: Request, symbol: string, records: seq<Record>, o: Outcome,
                               missing: seq<Session>, s: seq<Observation>)
    requires Clean(r, symbol, records)
    requires Lacks(Observed(r, symbol, records), q.completedThrough) ==> LacksSome(q, Observed(r, symbol, records))
    requires forall x :: x in missing <==> x in q.expected && Lacks(Observed(r, symbol, records), x)
    requires forall i, j :: 0 <= i < j < |missing| ==> missing[i] < missing[j]
    requires var observed, repeated := Observed(r, symbol, records), Repeated(r, symbol, records);
             if Future(q, observed) then o == Failure(symbol, FutureOrIncompleteBar, [], repeated)
             else if Unexpected(q, observed) then o == Failure(symbol, MalformedBar, [], repeated)
             else if Lacks(observed, q.completedThrough) then o == Failure(symbol, Stale, missing, repeated)
             else if LacksSome(q, observed) then o == Failure(symbol, MissingExpectedSession, missing, repeated)
             else if Consistent(r, symbol, observed) then o == Bars(symbol, s, repeated)
             else o == Failure(symbol, MalformedBar, [], repeated)
    ensures Earned(r, q, symbol, records, o)
  {
    hide Observed, Repeated, Future, Unexpected, Lacks, LacksSome, Consistent, Malformed, Conflicting;
  }

  lemma LackingOneIsLacking(q: Request, observed: set<Observation>, x: Session)
    requires x in q.expected
    ensures Lacks(observed, x) ==> LacksSome(q, observed)
  {
  }

  /** Every outcome of a symbol has the reason its records earn, told without their order. */
  lemma ReasonsAreEarned<Record(!new)>(r: Reader<Record>, q: Request, symbol: string, records: seq<Record>, o: Outcome)
    requires GoodRequest(q) && Normalises(r, q, symbol, records, o)
    ensures o.Failure? && o.reason.NoData? <==> records == []
    ensures records == [] ==> o.missing == q.expected
    ensures Malformed(r, symbol, records) ==> o == Failure(symbol, MalformedBar, [], false)
    ensures o.Failure? && o.reason.DuplicateConflict? <==>
              records != [] && !Malformed(r, symbol, records) && Conflicting(Observed(r, symbol, records))
    ensures Clean(r, symbol, records) ==> Earned(r, q, symbol, records, o)
  {
    hide Malformed, Conflicting, Observed, Repeated, Arranges, Judge, Earned;
    if Clean(r, symbol, records) {
      var s :| s != [] && Arranges(s, Observed(r, symbol, records))
               && o == Judge(r, q, symbol, s, Repeated(r, symbol, records));
      JudgeIsEarned(r, q, symbol, records, s);
      JudgesNoOther(r, q, symbol, s, Repeated(r, symbol, records));
    }
    MalformedHasRecords(r, symbol, records);
  }

  lemma MalformedHasRecords<Record>(r: Reader<Record>, symbol: string, records: seq<Record>)
    ensures Malformed(r, symbol, records) ==> records != []
  {
  }

  lemma JudgesNoOther<Record>(r: Reader<Record>, q: Request, symbol: string, s: seq<Observation>, repeated: bool)
    requires s != []
    ensures var o := Judge(r, q, symbol, s, repeated);
            o.Failure? ==> !o.reason.NoData? && !o.reason.DuplicateConflict?
  {
    hide MissingFrom;
  }

  // ---- The loops ----

  /** Observations grouped so far, by session. */
  ghost predicate Groups<Record>(r: Reader<Record>, symbol: string, records: seq<Record>, n: nat,
                                 bySession: map<Session, Observation>, repeated: bool)
    requires n <= |records| && !Malformed(r, symbol, records)
  {
    && (forall s :: s in bySession ==> bySession[s].session == s
                                       && exists i :: 0 <= i < n && r.normalise(symbol, records[i]).value == bySession[s])
    && (forall i :: 0 <= i < n ==>
          var o := r.normalise(symbol, records[i]).value;
          o.session in bySession && bySession[o.session] == o)
    && (repeated <==> exists i, j :: 0 <= i < j < n
                                     && r.normalise(symbol, records[i]) == r.normalise(symbol, records[j]))
  }

  /** Group one symbol's observations; absent on a conflict. */
  method GroupBySession<Record(!new)>(r: Reader<Record>, symbol: string, records: seq<Record>)
    returns (grouped: Option<map<Session, Observation>>, repeated: bool)
    requires !Malformed(r, symbol, records)
    ensures grouped.None? <==> Conflicting(Observed(r, symbol, records))
    ensures grouped.Some? ==> Groups(r, symbol, records, |records|, grouped.value, repeated)
  {
    hide Groups, Malformed, Conflicting, Observed;
    var bySession: map<Session, Observation> := map[];
    repeated := false;
    NoneGrouped(r, symbol, records);
    for n := 0 to |records|
      invariant Groups(r, symbol, records, n, bySession, repeated)
    {
      assert r.normalise(symbol, records[n]).Some? by { WellFormedRecord(r, symbol, records, n); }
      var o := r.normalise(symbol, records[n]).value;
      if o.session in bySession && bySession[o.session] != o {
        GroupsConflict(r, symbol, records, n, bySession, repeated);
        return None, repeated;
      }
      GroupsGrow(r, symbol, records, n, bySession, repeated);
      if o.session in bySession {
        repeated := true;
        assert bySession[o.session := o] == bySession;
      } else {
        bySession := bySession[o.session := o];
      }
    }
    NoConflict(r, symbol, records, bySession, repeated);
    grouped := Some(bySession);
  }

  lemma WellFormedRecord<Record>(r: Reader<Record>, symbol: string, records: seq<Record>, n: nat)
    requires n < |records| && !Malformed(r, symbol, records)
    ensures r.normalise(symbol, records[n]).Some?
  {
  }

  lemma NoneGrouped<Record(!new)>(r: Reader<Record>, symbol: string, records: seq<Record>)
    requires !Malformed(r, symbol, records)
    ensures Groups(r, symbol, records, 0, map[], false)
  {
  }

  lemma GroupsConflict<Record(!new)>(r: Reader<Record>, symbol: string, records: seq<Record>, n: nat,
                                     bySession: map<Session, Observation>, repeated: bool)
    requires n < |records| && !Malformed(r, symbol, records)
    requires Groups(r, symbol, records, n, bySession, repeated)
    requires r.normalise(symbol, records[n]).Some?
    requires var o := r.normalise(symbol, records[n]).value; o.session in bySession && bySession[o.session] != o
    ensures Conflicting(Observed(r, symbol, records))
  {
    var o := r.normalise(symbol, records[n]).value;
    assert bySession[o.session] in Observed(r, symbol, records) && o in Observed(r, symbol, records);
  }

  lemma GroupsGrow<Record(!new)>(r: Reader<Record>, symbol: string, records: seq<Record>, n: nat,
                                 bySession: map<Session, Observation>, repeated: bool)
    requires n < |records| && !Malformed(r, symbol, records)
    requires Groups(r, symbol, records, n, bySession, repeated)
    requires r.normalise(symbol, records[n]).Some?
    requires var o := r.normalise(symbol, records[n]).value; o.session in bySession ==> bySession[o.session] == o
    ensures var o := r.normalise(symbol, records[n]).value;
            Groups(r, symbol, records, n + 1, bySession[o.session := o], repeated || o.session in bySession)
  {
    var o := r.normalise(symbol, records[n]).value;
    if o.session in bySession {
      var i :| 0 <= i < n && r.normalise(symbol, records[i]).value == bySession[o.session];
      assert r.normalise(symbol, records[i]) == r.normalise(symbol, records[n]);
      assert bySession[o.session := o] == bySession;
    }
  }

  lemma NoConflict<Record(!new)>(r: Reader<Record>, symbol: string, records: seq<Record>,
                                 bySession: map<Session, Observation>, repeated: bool)
    requires !Malformed(r, symbol, records) && Groups(r, symbol, records, |records|, bySession, repeated)
    ensures !Conflicting(Observed(r, symbol, records))
    ensures forall o :: o in Observed(r, symbol, records) <==> o.session in bySession && bySession[o.session] == o
    ensures repeated == Repeated(r, symbol, records)
  {
  }

  /** The observations of all days but the remaining ones, which are all later. */
  ghost predicate Arranged(bySession: map<Session, Observation>, days: set<Session>, s: seq<Observation>) {
    && days <= bySession.Keys
    && InOrder(s)
    && (forall i, d :: 0 <= i < |s| && d in days ==> s[i].session < d)
    && forall o :: o in s <==> o.session in bySession && o.session !in days && bySession[o.session] == o
  }

  lemma AddLeast(bySession: map<Session, Observation>, days: set<Session>, s: seq<Observation>, d: Session)
    requires forall x :: x in bySession ==> bySession[x].session == x
    requires Arranged(bySession, days, s) && d in days && forall x :: x in days ==> d <= x
    ensures Arranged(bySession, days - {d}, s + [bySession[d]])
  {
    var s' := s + [bySession[d]];
    forall o ensures o in s' <==> o.session in bySession && o.session !in days - {d} && bySession[o.session] == o {
      assert o in s' <==> o in s || o == bySession[d];
    }
  }

  /** The grouped observations by increasing session. */
  method InSessionOrder(bySession: map<Session, Observation>) returns (s: seq<Observation>)
    requires forall d :: d in bySession ==> bySession[d].session == d
    ensures InOrder(s)
    ensures forall o :: o in s <==> o.session in bySession && bySession[o.session] == o
  {
    s := [];
    var days := bySession.Keys;
    while days != {}
      invariant Arranged(bySession, days, s)
      decreases |days|
    {
      LeastExists(days);
      var d :| IsLeast(days, d);
      AddLeast(bySession, days, s, d);
      hide Arranged;
      s := s + [bySession[d]];
      days := days - {d};
    }
  }

  /** The outcome of one symbol. */
  method NormaliseSymbol<Record(!new)>(r: Reader<Record>, q: Request, symbol: string, records: seq<Record>)
    returns (o: Outcome)
    ensures Normalises(r, q, symbol, records, o)
  {
    hide Conflicting, Observed, Repeated, Judge;
    if records == [] {
      return Failure(symbol, NoData, q.expected, false);
    }
    if exists i :: 0 <= i < |records| && r.normalise(symbol, records[i]).None? {
      return Failure(symbol, MalformedBar, [], false);
    }
    var grouped, repeated := GroupBySession(r, symbol, records);
    if grouped.None? {
      return Failure(symbol, DuplicateConflict, [], false);
    }
    NoConflict(r, symbol, records, grouped.value, repeated);
    var s := InSessionOrder(grouped.value);
    assert r.normalise(symbol, records[0]).value in s;
    assert Arranges(s, Observed(r, symbol, records));
    o := Judge(r, q, symbol, s, repeated);
  }

  /** `normalize_alpaca_daily_bars`: one outcome per requested symbol, in request order. */
  method NormaliseAll<Record(!new)>(r: Reader<Record>, q: Request, bySymbol: map<string, seq<Record>>)
    returns (outcomes: Option<seq<Outcome>>)
    ensures outcomes.None? <==> exists symbol :: symbol in bySymbol && symbol !in q.symbols
    ensures outcomes.Some? ==>
              |outcomes.value| == |q.symbols|
              && forall i :: 0 <= i < |q.symbols| ==>
                   outcomes.value[i].symbol == q.symbols[i]
                   && Normalises(r, q, q.symbols[i],
                                 if q.symbols[i] in bySymbol then bySymbol[q.symbols[i]] else [], outcomes.value[i])
  {
    hide Normalises;
    if exists symbol :: symbol in bySymbol && symbol !in q.symbols {
      return None;
    }
    var done: seq<Outcome> := [];
    for i := 0 to |q.symbols|
      invariant |done| == i
      invariant forall k :: 0 <= k < i ==>
                  done[k].symbol == q.symbols[k]
                  && Normalises(r, q, q.symbols[k],
                                if q.symbols[k] in bySymbol then bySymbol[q.symbols[k]] else [], done[k])
    {
      var symbol := q.symbols[i];
      var records := if symbol in bySymbol then bySymbol[symbol] else [];
      var o := NormaliseSymbol(r, q, symbol, records);
      OutcomeOfSymbol(r, q, symbol, records, o);
      done := done + [o];
    }
    outcomes := Some(done);
  }

  lemma OutcomeOfSymbol<Record(!new)>(r: Reader<Record>, q: Request, symbol: string, records: seq<Record>, o: Outcome)
    requires Normalises(r, q, symbol, records, o)
    ensures o.symbol == symbol
  {
    hide Malformed, Conflicting, Observed, Repeated, Arranges;
  }
}
