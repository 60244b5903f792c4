/**
 Observing a prior conditional plan over completed daily bars: one pass over the eligible
 sessions, proved against what the observation means.
 */
module PriorPlan {

  datatype Option<+T> = None | Some(value: T)

  /** Days of the trading calendar, and instants. */
  type Day = int
  type Instant = int

  /** What a decimal context makes of a difference of two prices. */
  type Rounding = real -> real

  /** A larger value is never rounded to a smaller one, nor zero to anything else: true of 28 digits. */
  ghost predicate Monotone(round: Rounding) {
    round(0.0) == 0.0 && forall x, y :: x <= y ==> round(x) <= round(y)
  }

  lemma Ordered(round: Rounding, x: real, y: real)
    requires Monotone(round) && x <= y
    ensures round(x) <= round(y)
  {
  }

  datatype Bar = Bar(day: Day, instrument: string, low: real, high: real, evidence: string, reliable: bool,
                     retrievedAt: Instant, cutoffAt: Instant)

  datatype Plan = Plan(id: string, instrument: string, validFrom: Instant, startDay: Day, cutoff: Instant,
                       cutoffDay: Day, lower: real, upper: real, upperEvidence: string, stop: real,
                       targets: seq<real>)

  /** The exchange calendar: which days trade, and when their sessions open and close. */
  datatype Calendar = Calendar(trades: Day -> bool, opens: Day -> Instant, closes: Day -> Instant)

  datatype Outcome =
    | EntryZoneNotObserved | EntryZoneObserved | InvalidationObserved | TargetObserved
    | AmbiguousSequence | ObservationWindowEnded

  datatype Observation = Observation(
    plan: string, through: Day, outcomes: seq<Outcome>, reference: real, referenceEvidence: string,
    entryAt: Option<Instant>, stopAt: Option<Instant>, targetAt: Option<Instant>,
    mfe: Option<real>, mae: Option<real>, evidence: seq<string>)

  // ---- What one bar shows ----

  predicate Overlaps(p: Plan, b: Bar) {
    b.low <= p.upper && b.high >= p.lower
  }

  predicate HitsStop(p: Plan, b: Bar) {
    b.low <= p.stop
  }

  predicate HitsTarget(p: Plan, b: Bar) {
    exists i :: 0 <= i < |p.targets| && b.high >= p.targets[i]
  }

  /** A daily bar does not order what happened within it. */
  predicate Unorderable(p: Plan, b: Bar) {
    (Overlaps(p, b) && (HitsStop(p, b) || HitsTarget(p, b))) || (HitsStop(p, b) && HitsTarget(p, b))
  }

  function Favourable(round: Rounding, p: Plan, b: Bar): real {
    if round(b.high - p.upper) > 0.0 then round(b.high - p.upper) else 0.0
  }

  function Adverse(round: Rounding, p: Plan, b: Bar): real {
    if round(b.low - p.upper) < 0.0 then round(b.low - p.upper) else 0.0
  }

  // ---- What the observation means ----

  /** Entry is the first eligible bar that overlaps the zone. */
  predicate IsEntry(p: Plan, bars: seq<Bar>, n: nat, i: nat)
    requires n <= |bars|
  {
    i < n && Overlaps(p, bars[i]) && forall k :: 0 <= k < i ==> !Overlaps(p, bars[k])
  }

  /** The first orderable bar from `from` on for which `hit` holds. */
  ghost predicate FirstHit(p: Plan, bars: seq<Bar>, from: nat, n: nat, hit: Bar -> bool, at: Option<Instant>, c: Calendar)
    requires n <= |bars|
  {
    if at.None? then forall k :: from <= k < n ==> Unorderable(p, bars[k]) || !hit(bars[k])
    else exists i :: from <= i < n && !Unorderable(p, bars[i]) && hit(bars[i]) && at.value == c.closes(bars[i].day)
                     && forall k :: from <= k < i ==> Unorderable(p, bars[k]) || !hit(bars[k])
  }

  ghost predicate GreatestFavourable(round: Rounding, p: Plan, bars: seq<Bar>, from: nat, n: nat, mfe: real)
    requires n <= |bars|
  {
    && (exists i :: from <= i < n && mfe == Favourable(round, p, bars[i]))
    && forall i :: from <= i < n ==> Favourable(round, p, bars[i]) <= mfe
  }

  ghost predicate GreatestAdverse(round: Rounding, p: Plan, bars: seq<Bar>, from: nat, n: nat, mae: real)
    requires n <= |bars|
  {
    && (exists i :: from <= i < n && mae == Adverse(round, p, bars[i]))
    && forall i :: from <= i < n ==> Adverse(round, p, bars[i]) >= mae
  }

  /** The state of the scan after the first `n` bars. */
  datatype Scan = Scan(entryAt: Option<Instant>, stopAt: Option<Instant>, targetAt: Option<Instant>,
                       mfe: Option<real>, mae: Option<real>, ambiguous: bool)

  ghost predicate Means(round: Rounding, p: Plan, c: Calendar, bars: seq<Bar>, n: nat, s: Scan)
    requires n <= |bars|
  {
    if s.entryAt.None? then
      s == Scan(None, None, None, None, None, false) && forall k :: 0 <= k < n ==> !Overlaps(p, bars[k])
    else
      exists e :: IsEntry(p, bars, n, e) && MeansFrom(round, p, c, bars, e, n, s)
  }

  ghost predicate MeansFrom(round: Rounding, p: Plan, c: Calendar, bars: seq<Bar>, e: nat, n: nat, s: Scan)
    requires e < n <= |bars|
  {
    && s.entryAt == Some(c.closes(bars[e].day))
    && s.mfe.Some? && GreatestFavourable(round, p, bars, e, n, s.mfe.value)
    && s.mae.Some? && GreatestAdverse(round, p, bars, e, n, s.mae.value)
    && FirstHit(p, bars, e, n, b => HitsStop(p, b), s.stopAt, c)
    && FirstHit(p, bars, e, n, b => HitsTarget(p, b), s.targetAt, c)
    && (s.ambiguous <==> exists k :: e <= k < n && Unorderable(p, bars[k]))
  }

  // ---- The scan ----

  method ScanBars(round: Rounding, p: Plan, c: Calendar, bars: seq<Bar>) returns (s: Scan)
    ensures Means(round, p, c, bars, |bars|, s)
  {
    hide Means, Overlaps, HitsStop, HitsTarget, Favourable, Adverse;
    var entryAt: Option<Instant>, stopAt: Option<Instant>, targetAt: Option<Instant> := None, None, None;
    var mfe: Option<real>, mae: Option<real>, ambiguous := None, None, false;
    NothingSeen(round, p, c, bars);
    for n := 0 to |bars|
      invariant Means(round, p, c, bars, n, Scan(entryAt, stopAt, targetAt, mfe, mae, ambiguous))
    {
      ghost var before := Scan(entryAt, stopAt, targetAt, mfe, mae, ambiguous);
      var bar := bars[n];
      var entryThisBar := Overlaps(p, bar);
      if entryAt.None? && !entryThisBar {
        NotYet(round, p, c, bars, n, before);
        continue;
      }
      var confirmedAt := c.closes(bar.day);
      if entryAt.None? {
        entryAt := Some(confirmedAt);
      }
      var high, low := Favourable(round, p, bar), Adverse(round, p, bar);
      mfe := Some(if mfe.None? || high > mfe.value then high else mfe.value);
      mae := Some(if mae.None? || low < mae.value then low else mae.value);
      var stopHit, targetHit := HitsStop(p, bar), HitsTarget(p, bar);
      if (entryThisBar && (stopHit || targetHit)) || (stopHit && targetHit) {
        ambiguous := true;
      } else {
        if stopHit && stopAt.None? {
          stopAt := Some(confirmedAt);
        }
        if targetHit && targetAt.None? {
          targetAt := Some(confirmedAt);
        }
      }
      OneMoreBar(round, p, c, bars, n, before, Scan(entryAt, stopAt, targetAt, mfe, mae, ambiguous));
    }
    s := Scan(entryAt, stopAt, targetAt, mfe, mae, ambiguous);
  }

  lemma NothingSeen(round: Rounding, p: Plan, c: Calendar, bars: seq<Bar>)
    ensures Means(round, p, c, bars, 0, Scan(None, None, None, None, None, false))
  {
  }

  lemma NotYet(round: Rounding, p: Plan, c: Calendar, bars: seq<Bar>, n: nat, s: Scan)
    requires n < |bars| && Means(round, p, c, bars, n, s) && s.entryAt.None? && !Overlaps(p, bars[n])
    ensures Means(round, p, c, bars, n + 1, s)
  {
    hide Overlaps;
  }

  function Earlier(at: Option<Instant>, hit: bool, now: Instant): Option<Instant> {
    if at.None? && hit then Some(now) else at
  }

  /** One step of the scan keeps its meaning. */
  lemma OneMoreBar(round: Rounding, p: Plan, c: Calendar, bars: seq<Bar>, n: nat, s: Scan, s': Scan)
    requires n < |bars| && Means(round, p, c, bars, n, s)
    requires s.entryAt.Some? || Overlaps(p, bars[n])
    requires var b := bars[n];
             var now := c.closes(b.day);
             var high, low := Favourable(round, p, b), Adverse(round, p, b);
             && s'.entryAt == (if s.entryAt.Some? then s.entryAt else Some(now))
             && s'.mfe == Some(if s.mfe.None? || high > s.mfe.value then high else s.mfe.value)
             && s'.mae == Some(if s.mae.None? || low < s.mae.value then low else s.mae.value)
             && s'.ambiguous == (s.ambiguous || Unorderable(p, b))
             && s'.stopAt == Earlier(s.stopAt, !Unorderable(p, b) && HitsStop(p, b), now)
             && s'.targetAt == Earlier(s.targetAt, !Unorderable(p, b) && HitsTarget(p, b), now)
    ensures Means(round, p, c, bars, n + 1, s')
  {
    hide HitsStop, HitsTarget, Unorderable, Overlaps, Favourable, Adverse;
    if s.entryAt.None? {
      assert IsEntry(p, bars, n + 1, n);
      assert MeansFrom(round, p, c, bars, n, n + 1, s');
    } else {
      var e :| IsEntry(p, bars, n, e) && MeansFrom(round, p, c, bars, e, n, s);
      assert IsEntry(p, bars, n + 1, e);
      LaterBar(round, p, c, bars, e, n, s, s');
    }
  }

  lemma LaterBar(round: Rounding, p: Plan, c: Calendar, bars: seq<Bar>, e: nat, n: nat, s: Scan, s': Scan)
    requires e < n < |bars| && MeansFrom(round, p, c, bars, e, n, s) && s.entryAt.Some? && s'.entryAt == s.entryAt
    requires var b := bars[n];
             var now := c.closes(b.day);
             && s'.mfe == Some(if Favourable(round, p, b) > s.mfe.value then Favourable(round, p, b) else s.mfe.value)
             && s'.mae == Some(if Adverse(round, p, b) < s.mae.value then Adverse(round, p, b) else s.mae.value)
             && s'.ambiguous == (s.ambiguous || Unorderable(p, b))
             && s'.stopAt == Earlier(s.stopAt, !Unorderable(p, b) && HitsStop(p, b), now)
             && s'.targetAt == Earlier(s.targetAt, !Unorderable(p, b) && HitsTarget(p, b), now)
    ensures MeansFrom(round, p, c, bars, e, n + 1, s')
  {
    hide HitsStop, HitsTarget, Unorderable, Favourable, Adverse, FirstHit, GreatestFavourable, GreatestAdverse;
    HitGrows(p, c, bars, e, n, b => HitsStop(p, b), s.stopAt);
    HitGrows(p, c, bars, e, n, b => HitsTarget(p, b), s.targetAt);
    ExcursionsGrow(round, p, bars, e, n, s.mfe.value, s.mae.value);
  }

  lemma HitGrows(p: Plan, c: Calendar, bars: seq<Bar>, e: nat, n: nat, hit: Bar -> bool, at: Option<Instant>)
    requires e < n < |bars| && FirstHit(p, bars, e, n, hit, at, c)
    ensures FirstHit(p, bars, e, n + 1, hit,
                     Earlier(at, !Unorderable(p, bars[n]) && hit(bars[n]), c.closes(bars[n].day)), c)
  {
    hide Unorderable;
    if at.Some? {
      var i :| e <= i < n && !Unorderable(p, bars[i]) && hit(bars[i]) && at.value == c.closes(bars[i].day)
               && forall k :: e <= k < i ==> Unorderable(p, bars[k]) || !hit(bars[k]);
      assert !Unorderable(p, bars[i]) && hit(bars[i]);
    } else if !Unorderable(p, bars[n]) && hit(bars[n]) {
      assert forall k :: e <= k < n ==> Unorderable(p, bars[k]) || !hit(bars[k]);
    }
  }

  lemma ExcursionsGrow(round: Rounding, p: Plan, bars: seq<Bar>, e: nat, n: nat, mfe: real, mae: real)
    requires e < n < |bars|
    requires GreatestFavourable(round, p, bars, e, n, mfe) && GreatestAdverse(round, p, bars, e, n, mae)
    ensures var high, low := Favourable(round, p, bars[n]), Adverse(round, p, bars[n]);
            && GreatestFavourable(round, p, bars, e, n + 1, if high > mfe then high else mfe)
            && GreatestAdverse(round, p, bars, e, n + 1, if low < mae then low else mae)
  {
    hide Favourable, Adverse;
    var i :| e <= i < n && mfe == Favourable(round, p, bars[i]);
    var j :| e <= j < n && mae == Adverse(round, p, bars[j]);
    assert Favourable(round, p, bars[i]) <= mfe && Adverse(round, p, bars[j]) >= mae;
  }

  // ---- Rounding ----

  const Exactly: Rounding := x => x

  /** The clamped excursion of the source is the rounding of the exact one. */
  lemma ExcursionsRound(round: Rounding, p: Plan, b: Bar)
    requires Monotone(round)
    ensures Favourable(round, p, b) == round(Favourable(Exactly, p, b))
    ensures Adverse(round, p, b) == round(Adverse(Exactly, p, b))
  {
    var up, down := b.high - p.upper, b.low - p.upper;
    assert round(0.0) == 0.0;
    if up >= 0.0 { Ordered(round, 0.0, up); } else { Ordered(round, up, 0.0); }
    if down >= 0.0 { Ordered(round, 0.0, down); } else { Ordered(round, down, 0.0); }
    hide Monotone;
  }

  /**
   Rounding every difference and then taking the extremes gives the rounding of the exact
   extremes: the excursions of the source are those of exact arithmetic, rounded once.
   */
  lemma ExtremesRound(round: Rounding, p: Plan, bars: seq<Bar>, from: nat, n: nat, mfe: real, mae: real)
    requires n <= |bars| && Monotone(round)
    requires GreatestFavourable(Exactly, p, bars, from, n, mfe) && GreatestAdverse(Exactly, p, bars, from, n, mae)
    ensures GreatestFavourable(round, p, bars, from, n, round(mfe))
    ensures GreatestAdverse(round, p, bars, from, n, round(mae))
  {
    hide Favourable, Adverse, Monotone;
    forall i | from <= i < n
      ensures Favourable(round, p, bars[i]) == round(Favourable(Exactly, p, bars[i])) <= round(mfe)
      ensures Adverse(round, p, bars[i]) == round(Adverse(Exactly, p, bars[i])) >= round(mae)
    {
      ExcursionsRound(round, p, bars[i]);
      Ordered(round, Favourable(Exactly, p, bars[i]), mfe);
      Ordered(round, mae, Adverse(Exactly, p, bars[i]));
    }
  }

  lemma HitIsUnique(p: Plan, bars: seq<Bar>, from: nat, n: nat, hit: Bar -> bool, a: Option<Instant>,
                    b: Option<Instant>, c: Calendar)
    requires n <= |bars| && FirstHit(p, bars, from, n, hit, a, c) && FirstHit(p, bars, from, n, hit, b, c)
    ensures a == b
  {
    hide Unorderable;
    if a.Some? && b.Some? {
      var i :| from <= i < n && !Unorderable(p, bars[i]) && hit(bars[i]) && a.value == c.closes(bars[i].day)
               && forall k :: from <= k < i ==> Unorderable(p, bars[k]) || !hit(bars[k]);
      var j :| from <= j < n && !Unorderable(p, bars[j]) && hit(bars[j]) && b.value == c.closes(bars[j].day)
               && forall k :: from <= k < j ==> Unorderable(p, bars[k]) || !hit(bars[k]);
      assert i == j;
    }
  }

  lemma ExtremesAreUnique(round: Rounding, p: Plan, bars: seq<Bar>, from: nat, n: nat, a: real, b: real)
    requires n <= |bars|
    ensures GreatestFavourable(round, p, bars, from, n, a) && GreatestFavourable(round, p, bars, from, n, b) ==> a == b
    ensures GreatestAdverse(round, p, bars, from, n, a) && GreatestAdverse(round, p, bars, from, n, b) ==> a == b
  {
    hide Favourable, Adverse;
  }

  /** The meaning of a scan leaves one result. */
  lemma ScanIsUnique(round: Rounding, p: Plan, c: Calendar, bars: seq<Bar>, s: Scan, s': Scan)
    requires Means(round, p, c, bars, |bars|, s) && Means(round, p, c, bars, |bars|, s')
    ensures s == s'
  {
    hide Overlaps, FirstHit, Unorderable, GreatestFavourable, GreatestAdverse;
    if s.entryAt.Some? {
      var e :| IsEntry(p, bars, |bars|, e) && MeansFrom(round, p, c, bars, e, |bars|, s);
      var e' :| IsEntry(p, bars, |bars|, e') && MeansFrom(round, p, c, bars, e', |bars|, s');
      assert e == e';
      HitIsUnique(p, bars, e, |bars|, b => HitsStop(p, b), s.stopAt, s'.stopAt, c);
      HitIsUnique(p, bars, e, |bars|, b => HitsTarget(p, b), s.targetAt, s'.targetAt, c);
      ExtremesAreUnique(round, p, bars, e, |bars|, s.mfe.value, s'.mfe.value);
      ExtremesAreUnique(round, p, bars, e, |bars|, s.mae.value, s'.mae.value);
    }
  }

  function Round(round: Rounding, excursion: Option<real>): Option<real> {
    if excursion.Some? then Some(round(excursion.value)) else None
  }

  /** What the source's rounded scan finds is exactly what exact arithmetic finds, its two excursions rounded. */
  lemma ScanRounds(round: Rounding, p: Plan, c: Calendar, bars: seq<Bar>, exact: Scan, s: Scan)
    requires Monotone(round)
    requires Means(Exactly, p, c, bars, |bars|, exact) && Means(round, p, c, bars, |bars|, s)
    ensures s == exact.(mfe := Round(round, exact.mfe), mae := Round(round, exact.mae))
  {
    hide Overlaps, FirstHit, Unorderable, GreatestFavourable, GreatestAdverse, Monotone;
    var rounded := exact.(mfe := Round(round, exact.mfe), mae := Round(round, exact.mae));
    if exact.entryAt.Some? {
      var e :| IsEntry(p, bars, |bars|, e) && MeansFrom(Exactly, p, c, bars, e, |bars|, exact);
      ExtremesRound(round, p, bars, e, |bars|, exact.mfe.value, exact.mae.value);
      assert MeansFrom(round, p, c, bars, e, |bars|, rounded);
    }
    ScanIsUnique(round, p, c, bars, s, rounded);
  }

  // ---- Which sessions count ----

  predicate Eligible(p: Plan, c: Calendar, day: Day) {
    c.trades(day) && c.opens(day) >= p.validFrom && c.closes(day) <= p.cutoff
  }

  /** The eligible sessions from `first` to `last`, in order. */
  function EligibleDays(p: Plan, c: Calendar, first: Day, last: Day): (days: seq<Day>)
    ensures forall day :: day in days <==> first <= day <= last && Eligible(p, c, day)
    ensures forall i, j :: 0 <= i < j < |days| ==> days[i] < days[j]
    decreases if first > last then 0 else last - first + 1
  {
    if first > last then []
    else
      var earlier := EligibleDays(p, c, first, last - 1);
      assert forall i :: 0 <= i < |earlier| ==> earlier[i] in earlier;
      earlier + (if Eligible(p, c, last) then [last] else [])
  }

  function EndDay(p: Plan, through: Day): Day {
    if through <= p.cutoffDay then through else p.cutoffDay
  }

  predicate Increasing(bars: seq<Bar>) {
    forall i, j :: 0 <= i < j < |bars| ==> bars[i].day < bars[j].day
  }

  predicate Sound(c: Calendar, bar: Bar) {
    bar.reliable && bar.retrievedAt >= c.closes(bar.day) && bar.cutoffAt >= c.closes(bar.day)
  }

  /** There is a bar for the day, and it can be relied on. */
  predicate HasSound(c: Calendar, bars: seq<Bar>, day: Day) {
    exists k :: 0 <= k < |bars| && bars[k].day == day && Sound(c, bars[k])
  }

  /** The bars of these days, in the order of the days. */
  ghost predicate BarsOf(bars: seq<Bar>, days: seq<Day>, eligible: seq<Bar>) {
    && |eligible| == |days|
    && forall i :: 0 <= i < |days| ==> eligible[i] in bars && eligible[i].day == days[i]
  }

  /** The coverage `observe_prior_plan` demands. */
  ghost predicate Covered(p: Plan, c: Calendar, bars: seq<Bar>, through: Day) {
    var days := EligibleDays(p, c, p.startDay, EndDay(p, through));
    && (forall i :: 0 <= i < |bars| ==> bars[i].instrument == p.instrument && bars[i].day <= through)
    && Increasing(bars)
    && c.trades(through)
    && !(through >= p.cutoffDay && c.trades(p.cutoffDay) && c.opens(p.cutoffDay) < p.cutoff < c.closes(p.cutoffDay))
    && days != []
    && forall i :: 0 <= i < |days| ==> HasSound(c, bars, days[i])
  }

  method DaysBetween(p: Plan, c: Calendar, last: Day) returns (days: seq<Day>)
    ensures days == EligibleDays(p, c, p.startDay, last)
  {
    days := [];
    var day := p.startDay;
    while day <= last
      invariant p.startDay <= day
      invariant day <= last + 1 || day == p.startDay
      invariant days == EligibleDays(p, c, p.startDay, day - 1)
    {
      if Eligible(p, c, day) {
        days := days + [day];
      }
      day := day + 1;
    }
  }

  /** The bar of each day; absent when a day has none, or one that cannot be relied on. */
  method SelectBars(c: Calendar, bars: seq<Bar>, days: seq<Day>) returns (r: Option<seq<Bar>>)
    requires Increasing(bars)
    ensures r.Some? <==> forall i :: 0 <= i < |days| ==> HasSound(c, bars, days[i])
    ensures r.Some? ==> BarsOf(bars, days, r.value)
  {
    var byDate: map<Day, Bar> := map[];
    for k := 0 to |bars|
      invariant forall d :: d in byDate <==> exists m :: 0 <= m < k && bars[m].day == d
      invariant forall m :: 0 <= m < k ==> bars[m].day in byDate && byDate[bars[m].day] == bars[m]
    {
      byDate := byDate[bars[k].day := bars[k]];
    }
    var eligible: seq<Bar> := [];
    for i := 0 to |days|
      invariant |eligible| == i
      invariant forall k :: 0 <= k < i ==> eligible[k] in bars && eligible[k].day == days[k]
      invariant forall k :: 0 <= k < i ==> HasSound(c, bars, days[k])
    {
      if days[i] !in byDate {
        assert !HasSound(c, bars, days[i]);
        return None;
      }
      var bar := byDate[days[i]];
      ghost var m :| 0 <= m < |bars| && bars[m].day == days[i];
      assert bar == bars[m];
      if !Sound(c, bar) {
        assert forall k :: 0 <= k < |bars| && bars[k].day == days[i] ==> k == m;
        assert !HasSound(c, bars, days[i]);
        return None;
      }
      eligible := eligible + [bar];
    }
    r := Some(eligible);
  }

  function EvidenceOf(bars: seq<Bar>): seq<string> {
    seq(|bars|, i requires 0 <= i < |bars| => bars[i].evidence)
  }

  function OutcomesOf(s: Scan, ended: bool): seq<Outcome> {
    [if s.entryAt.None? then EntryZoneNotObserved else EntryZoneObserved]
    + (if s.stopAt.Some? then [InvalidationObserved] else [])
    + (if s.targetAt.Some? then [TargetObserved] else [])
    + (if s.ambiguous then [AmbiguousSequence] else [])
    + (if ended then [ObservationWindowEnded] else [])
  }

  /** The observation says what the bars of every eligible session show. */
  ghost predicate Observes(round: Rounding, p: Plan, c: Calendar, bars: seq<Bar>, through: Day, o: Observation) {
    exists eligible, s ::
      && BarsOf(bars, EligibleDays(p, c, p.startDay, EndDay(p, through)), eligible)
      && Means(round, p, c, eligible, |eligible|, s)
      && o == Observation(p.id, through, OutcomesOf(s, through >= p.cutoffDay), p.upper, p.upperEvidence,
                          s.entryAt, s.stopAt, s.targetAt, s.mfe, s.mae, EvidenceOf(eligible))
  }

  /** `observe_prior_plan`: refused exactly without coverage, and otherwise true to the bars. */
  method ObservePriorPlan(round: Rounding, p: Plan, c: Calendar, bars: seq<Bar>, through: Day)
    returns (r: Option<Observation>)
    ensures r.Some? <==> Covered(p, c, bars, through)
    ensures r.Some? ==> Observes(round, p, c, bars, through, r.value)
  {
    hide Means, HasSound, EligibleDays, BarsOf;
    if exists i :: 0 <= i < |bars| && bars[i].instrument != p.instrument {
      return None;
    }
    if !Increasing(bars) || (exists i :: 0 <= i < |bars| && bars[i].day > through) || !c.trades(through) {
      return None;
    }
    if through >= p.cutoffDay && c.trades(p.cutoffDay) && c.opens(p.cutoffDay) < p.cutoff < c.closes(p.cutoffDay) {
      return None;
    }
    var days := DaysBetween(p, c, EndDay(p, through));
    if days == [] {
      return None;
    }
    var eligible := SelectBars(c, bars, days);
    if eligible.None? {
      return None;
    }
    var s := ScanBars(round, p, c, eligible.value);
    r := Some(Observation(p.id, through, OutcomesOf(s, through >= p.cutoffDay), p.upper, p.upperEvidence,
                          s.entryAt, s.stopAt, s.targetAt, s.mfe, s.mae, EvidenceOf(eligible.value)));
  }

  /** The model's own check of a coherent path never refuses what the scan produced. */
  lemma ObservationsAreCoherent(round: Rounding, p: Plan, c: Calendar, bars: seq<Bar>, through: Day, o: Observation)
    requires Observes(round, p, c, bars, through, o)
    ensures EntryZoneObserved in o.outcomes <==> o.entryAt.Some?
    ensures o.entryAt.None? ==> o.mfe.None? && o.mae.None?
    ensures o.mfe.Some? ==> o.mfe.value >= 0.0
    ensures o.mae.Some? ==> o.mae.value <= 0.0
  {
    hide Overlaps, HitsStop, HitsTarget, Unorderable;
  }

  /** Some bar from the entry on is unorderable. */
  ghost predicate AmbiguousAfterEntry(p: Plan, bars: seq<Bar>) {
    exists e: nat, k: nat :: IsEntry(p, bars, |bars|, e) && e <= k < |bars| && Unorderable(p, bars[k])
  }

  /** The outcomes name what was seen and nothing else, and the evidence is that of every eligible session in order. */
  lemma OutcomesSay(round: Rounding, p: Plan, c: Calendar, bars: seq<Bar>, through: Day, o: Observation)
    requires Observes(round, p, c, bars, through, o)
    ensures EntryZoneObserved in o.outcomes <==> o.entryAt.Some?
    ensures EntryZoneNotObserved in o.outcomes <==> o.entryAt.None?
    ensures InvalidationObserved in o.outcomes <==> o.stopAt.Some?
    ensures TargetObserved in o.outcomes <==> o.targetAt.Some?
    ensures ObservationWindowEnded in o.outcomes <==> through >= p.cutoffDay
    ensures o.plan == p.id && o.through == through && o.reference == p.upper && o.referenceEvidence == p.upperEvidence
    ensures exists eligible: seq<Bar> ::
              && BarsOf(bars, EligibleDays(p, c, p.startDay, EndDay(p, through)), eligible)
              && (AmbiguousSequence in o.outcomes <==> AmbiguousAfterEntry(p, eligible))
              && |o.evidence| == |eligible| && forall i :: 0 <= i < |eligible| ==> o.evidence[i] == eligible[i].evidence
  {
    hide EligibleDays, BarsOf;
    var days := EligibleDays(p, c, p.startDay, EndDay(p, through));
    var eligible, s :| BarsOf(bars, days, eligible) && Means(round, p, c, eligible, |eligible|, s)
      && o == Observation(p.id, through, OutcomesOf(s, through >= p.cutoffDay), p.upper, p.upperEvidence,
                          s.entryAt, s.stopAt, s.targetAt, s.mfe, s.mae, EvidenceOf(eligible));
    AmbiguityMeans(round, p, c, eligible, s);
    OutcomesList(s, through >= p.cutoffDay);
    hide OutcomesOf, Means, AmbiguousAfterEntry;
    assert BarsOf(bars, days, eligible) && (AmbiguousSequence in o.outcomes <==> AmbiguousAfterEntry(p, eligible));
  }

  lemma AmbiguityMeans(round: Rounding, p: Plan, c: Calendar, bars: seq<Bar>, s: Scan)
    requires Means(round, p, c, bars, |bars|, s)
    ensures s.ambiguous <==> AmbiguousAfterEntry(p, bars)
  {
    hide Overlaps, FirstHit, Unorderable, GreatestFavourable, GreatestAdverse;
    if s.entryAt.Some? {
      var e: nat :| IsEntry(p, bars, |bars|, e) && MeansFrom(round, p, c, bars, e, |bars|, s);
      if d: nat, k: nat :| IsEntry(p, bars, |bars|, d) && d <= k < |bars| && Unorderable(p, bars[k]) {
        assert d == e;
      }
      if k :| e <= k < |bars| && Unorderable(p, bars[k]) {
        assert IsEntry(p, bars, |bars|, e) && Unorderable(p, bars[k]);
      }
    }
  }

  lemma OutcomesList(s: Scan, ended: bool)
    ensures var outcomes := OutcomesOf(s, ended);
            && (EntryZoneObserved in outcomes <==> s.entryAt.Some?)
            && (EntryZoneNotObserved in outcomes <==> s.entryAt.None?)
            && (InvalidationObserved in outcomes <==> s.stopAt.Some?)
            && (TargetObserved in outcomes <==> s.targetAt.Some?)
            && (AmbiguousSequence in outcomes <==> s.ambiguous)
            && (ObservationWindowEnded in outcomes <==> ended)
  {
  }
}
