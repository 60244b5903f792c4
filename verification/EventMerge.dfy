/**
 Merging the events of several providers: one event for each type, subject and time, with all
 the evidence that supports it, whatever the order of the providers.
 */
module EventMerge {
  import opened Ordering

  datatype Option<+T> = None | Some(value: T)

  datatype Materiality = Unknown | Low | Medium | High

  /** What makes two records the same event. */
  datatype Key = Key(kind: Word, subject: Option<Word>, time: int)

  /** The sorted identifier tuples of the source are represented by their sets. */
  datatype Event = Event(id: Word, key: Key, verified: bool, materiality: Materiality,
                         supporting: set<Word>, conflicts: set<Word>)

  function Rank(m: Materiality): nat {
    match m case Unknown => 0 case Low => 1 case Medium => 2 case High => 3
  }

  // ---- One event from its records ----

  function Ids(records: set<Event>): set<Word> {
    set r | r in records :: r.id
  }

  ghost predicate LeastOf(ids: set<Word>, x: Word) {
    x in ids && forall y :: y in ids ==> !Less(y, x)
  }

  lemma {:induction false} LeastIdExists(ids: set<Word>)
    requires |ids| > 0
    ensures exists x :: LeastOf(ids, x)
    decreases |ids|
  {
    var w :| w in ids;
    var rest := ids - {w};
    LessIsStrict(w, w);
    if |rest| == 0 {
      assert ids == {w};
      assert LeastOf(ids, w);
    } else {
      LeastIdExists(rest);
      var x :| LeastOf(rest, x);
      LessIsTotal(w, x);
      LessIsStrict(w, x);
      assert ids == rest + {w};
      if Less(w, x) {
        forall y | y in ids ensures !Less(y, w) {
          if y != w && Less(y, w) { LessIsTransitive(y, w, x); }
        }
        assert LeastOf(ids, w);
      } else {
        assert LeastOf(ids, x);
      }
    }
  }

  lemma LeastIdIsUnique(ids: set<Word>, x: Word, y: Word)
    requires LeastOf(ids, x) && LeastOf(ids, y)
    ensures x == y
  {
    LessIsTotal(x, y);
  }

  ghost function LeastId(ids: set<Word>): (x: Word)
    requires |ids| > 0
    ensures LeastOf(ids, x)
  {
    LeastIdExists(ids);
    var x :| LeastOf(ids, x);
    x
  }

  function Supporting(records: set<Event>): set<Word> {
    set r, x | r in records && x in r.supporting :: x
  }

  function Conflicts(records: set<Event>): set<Word> {
    set r, x | r in records && x in r.conflicts :: x
  }

  /** Records that disagree about verification or materiality. */
  predicate Compete(records: set<Event>) {
    exists a, b :: a in records && b in records && (a.verified, a.materiality) != (b.verified, b.materiality)
  }

  ghost predicate IsGreatest(records: set<Event>, m: Materiality) {
    && (exists r :: r in records && r.materiality == m)
    && forall r :: r in records ==> Rank(r.materiality) <= Rank(m)
  }

  /** `e` is the merged event of these records of one key. */
  ghost predicate Merges(key: Key, records: set<Event>, e: Event) {
    && |Ids(records)| > 0
    && e.key == key
    && e.id == LeastId(Ids(records))
    && (e.verified <==> exists r :: r in records && r.verified)
    && IsGreatest(records, e.materiality)
    && e.supporting == Supporting(records)
    && e.conflicts == Conflicts(records) + (if Compete(records) then Supporting(records) else {})
  }

  lemma MergedIsUnique(key: Key, records: set<Event>, a: Event, b: Event)
    requires Merges(key, records, a) && Merges(key, records, b)
    ensures a == b
  {
    hide LeastId, Supporting, Conflicts, Compete;
    var x :| x in records && x.materiality == a.materiality;
    var y :| y in records && y.materiality == b.materiality;
    assert Rank(a.materiality) == Rank(b.materiality);
  }

  // ---- All events ----

  ghost function AllEvents(collections: seq<seq<Event>>): set<Event> {
    set i, j | 0 <= i < |collections| && 0 <= j < |collections[i]| :: collections[i][j]
  }

  ghost function GroupOf(all: set<Event>, key: Key): set<Event> {
    set r | r in all && r.key == key
  }

  ghost predicate Has(events: set<Event>, key: Key) {
    exists e :: e in events && e.key == key
  }

  /** One merged event for each key that occurs. */
  ghost predicate MergesAll(all: set<Event>, merged: set<Event>) {
    && (forall e :: e in merged ==> Has(all, e.key) && Merges(e.key, GroupOf(all, e.key), e))
    && (forall r :: r in all ==> Has(merged, r.key))
  }

  lemma WitnessOf(events: set<Event>, key: Key) returns (e: Event)
    requires Has(events, key)
    ensures e in events && e.key == key
  {
    e :| e in events && e.key == key;
  }

  /** The merged set depends only on the set of records. */
  lemma MergedSetIsUnique(all: set<Event>, a: set<Event>, b: set<Event>)
    requires MergesAll(all, a) && MergesAll(all, b)
    ensures a == b
  {
    MergedSubset(all, a, b);
    MergedSubset(all, b, a);
  }

  lemma MergedSubset(all: set<Event>, a: set<Event>, b: set<Event>)
    requires MergesAll(all, a) && MergesAll(all, b)
    ensures a <= b
  {
    hide Merges, GroupOf, Has;
    forall e | e in a ensures e in b {
      var r := WitnessOf(all, e.key);
      var f := WitnessOf(b, r.key);
      MergedIsUnique(e.key, GroupOf(all, e.key), e, f);
    }
  }

  lemma SameRecords(a: seq<seq<Event>>, b: seq<seq<Event>>)
    requires multiset(a) == multiset(b)
    ensures AllEvents(a) == AllEvents(b)
  {
    SomeRecords(a, b);
    SomeRecords(b, a);
  }

  lemma SomeRecords(a: seq<seq<Event>>, b: seq<seq<Event>>)
    requires multiset(a) == multiset(b)
    ensures AllEvents(a) <= AllEvents(b)
  {
    forall e | e in AllEvents(a) ensures e in AllEvents(b) {
      var i, j :| 0 <= i < |a| && 0 <= j < |a[i]| && a[i][j] == e;
      var k := MemberIndex(b, a[i]);
      assert b[k][j] == e;
    }
  }

  /** Permuting the providers does not change the merged events. */
  lemma ProviderOrderDoesNotMatter(a: seq<seq<Event>>, b: seq<seq<Event>>, merged: set<Event>, merged': set<Event>)
    requires multiset(a) == multiset(b)
    requires MergesAll(AllEvents(a), merged) && MergesAll(AllEvents(b), merged')
    ensures merged == merged'
  {
    SameRecords(a, b);
    MergedSetIsUnique(AllEvents(a), merged, merged');
  }

  /** One event for each key, and no supporting evidence identifier is lost or invented. */
  lemma NothingIsLost(all: set<Event>, merged: set<Event>)
    requires MergesAll(all, merged)
    ensures forall e, f :: e in merged && f in merged && e.key == f.key ==> e == f
    ensures Supporting(merged) == Supporting(all)
    ensures Conflicts(all) <= Conflicts(merged) <= Conflicts(all) + Supporting(all)
  {
    hide LeastId, Compete, IsGreatest, Has;
    forall e, f | e in merged && f in merged && e.key == f.key ensures e == f {
      MergedIsUnique(e.key, GroupOf(all, e.key), e, f);
    }
    forall r | r in all ensures r.supporting <= Supporting(merged) && r.conflicts <= Conflicts(merged) {
      var e := WitnessOf(merged, r.key);
      assert r in GroupOf(all, e.key);
      assert r.supporting <= e.supporting && r.conflicts <= e.conflicts;
    }
    forall e | e in merged
      ensures e.supporting <= Supporting(all) && e.conflicts <= Conflicts(all) + Supporting(all)
    {
      assert GroupOf(all, e.key) <= all;
    }
  }

  // ---- The loops ----

  ghost function Records(s: seq<Event>): set<Event> {
    set i | 0 <= i < |s| :: s[i]
  }

  /** Records grouped so far, by key. */
  ghost predicate Groups(grouped: map<Key, seq<Event>>, all: set<Event>) {
    && (forall key :: key in grouped ==> grouped[key] != [] && Records(grouped[key]) == GroupOf(all, key))
    && forall r :: r in all ==> r.key in grouped
  }

  lemma GroupOne(grouped: map<Key, seq<Event>>, all: set<Event>, r: Event)
    requires Groups(grouped, all)
    ensures Groups(grouped[r.key := (if r.key in grouped then grouped[r.key] else []) + [r]], all + {r})
  {
    var before := if r.key in grouped then grouped[r.key] else [];
    var after := before + [r];
    assert Records(after) == Records(before) + {r} by {
      forall e | e in Records(before) + {r} ensures e in Records(after) {
        if e == r { assert after[|before|] == r; }
        else { var i :| 0 <= i < |before| && before[i] == e; assert after[i] == e; }
      }
    }
    assert GroupOf(all + {r}, r.key) == GroupOf(all, r.key) + {r};
    forall key | key in grouped && key != r.key ensures GroupOf(all + {r}, key) == GroupOf(all, key) {
    }
    if r.key !in grouped { assert GroupOf(all, r.key) == {}; }
  }

  method GroupByKey(collections: seq<seq<Event>>) returns (grouped: map<Key, seq<Event>>)
    ensures Groups(grouped, AllEvents(collections))
  {
    hide Groups;
    grouped := map[];
    ghost var all: set<Event> := {};
    assert Groups(grouped, all) by { NothingGrouped(); }
    for i := 0 to |collections|
      invariant all == AllEvents(collections[..i])
      invariant Groups(grouped, all)
    {
      var events := collections[i];
      for j := 0 to |events|
        invariant all == AllEvents(collections[..i]) + Records(events[..j])
        invariant Groups(grouped, all)
      {
        var r := events[j];
        GroupOne(grouped, all, r);
        grouped := grouped[r.key := (if r.key in grouped then grouped[r.key] else []) + [r]];
        all := all + {r};
        MoreRecords(events, j);
      }
      assert events[..|events|] == events;
      MoreEvents(collections, i);
    }
    assert collections[..|collections|] == collections;
  }

  lemma NothingGrouped()
    ensures Groups(map[], {})
  {
  }

  lemma MoreRecords(s: seq<Event>, j: nat)
    requires j < |s|
    ensures Records(s[..j + 1]) == Records(s[..j]) + {s[j]}
  {
    forall e | e in Records(s[..j]) + {s[j]} ensures e in Records(s[..j + 1]) {
      if e == s[j] { assert s[..j + 1][j] == e; }
      else { var i :| 0 <= i < j && s[..j][i] == e; assert s[..j + 1][i] == e; }
    }
  }

  lemma MoreEvents(c: seq<seq<Event>>, i: nat)
    requires i < |c|
    ensures AllEvents(c[..i + 1]) == AllEvents(c[..i]) + Records(c[i])
  {
    var longer, shorter := c[..i + 1], c[..i];
    forall e | e in AllEvents(shorter) + Records(c[i]) ensures e in AllEvents(longer) {
      if e in AllEvents(shorter) {
        var k, j :| 0 <= k < |shorter| && 0 <= j < |shorter[k]| && shorter[k][j] == e;
        assert longer[k][j] == e;
      } else {
        var j :| 0 <= j < |c[i]| && c[i][j] == e;
        assert longer[i][j] == e;
      }
    }
    forall e | e in AllEvents(longer) ensures e in AllEvents(shorter) + Records(c[i]) {
      var k, j :| 0 <= k < |longer| && 0 <= j < |longer[k]| && longer[k][j] == e;
      if k < i { assert shorter[k][j] == e; }
    }
  }

  /** The merged event of one non-empty group. */
  method MergeRecords(key: Key, records: seq<Event>) returns (e: Event)
    requires records != []
    ensures Merges(key, Records(records), e)
  {
    hide Less, LeastId, Compete;
    var id, verified, materiality := records[0].id, records[0].verified, records[0].materiality;
    var supporting, conflicts := records[0].supporting, records[0].conflicts;
    var competing := false;
    ghost var seen := {records[0]};
    LessIsStrict(id, id);
    for i := 1 to |records|
      invariant seen == Records(records[..i])
      invariant LeastOf(Ids(seen), id)
      invariant verified <==> exists r :: r in seen && r.verified
      invariant IsGreatest(seen, materiality)
      invariant supporting == Supporting(seen) && conflicts == Conflicts(seen)
      invariant competing <==> exists r :: r in seen && (r.verified, r.materiality) != (records[0].verified, records[0].materiality)
      invariant records[0] in seen
    {
      var r := records[i];
      MoreRecords(records, i);
      OneMoreRecord(seen, r, id, materiality);
      if Less(r.id, id) {
        id := r.id;
      }
      verified := verified || r.verified;
      if Rank(r.materiality) > Rank(materiality) {
        materiality := r.materiality;
      }
      supporting, conflicts := supporting + r.supporting, conflicts + r.conflicts;
      competing := competing || (r.verified, r.materiality) != (records[0].verified, records[0].materiality);
      seen := seen + {r};
    }
    assert records[..|records|] == records;
    CompetingFirst(seen, records[0]);
    assert records[0].id in Ids(seen);
    LeastIdIsUnique(Ids(seen), id, LeastId(Ids(seen)));
    if competing {
      conflicts := conflicts + supporting;
    }
    e := Event(id, key, verified, materiality, supporting, conflicts);
  }

  lemma CompetingFirst(records: set<Event>, first: Event)
    requires first in records
    ensures Compete(records)
            <==> exists r :: r in records && (r.verified, r.materiality) != (first.verified, first.materiality)
  {
  }

  lemma OneMoreRecord(seen: set<Event>, r: Event, id: Word, materiality: Materiality)
    requires LeastOf(Ids(seen), id) && IsGreatest(seen, materiality)
    ensures LeastOf(Ids(seen + {r}), if Less(r.id, id) then r.id else id)
    ensures IsGreatest(seen + {r}, if Rank(r.materiality) > Rank(materiality) then r.materiality else materiality)
    ensures Supporting(seen + {r}) == Supporting(seen) + r.supporting
    ensures Conflicts(seen + {r}) == Conflicts(seen) + r.conflicts
  {
    assert Ids(seen + {r}) == Ids(seen) + {r.id};
    LessIsStrict(r.id, r.id);
    if Less(r.id, id) {
      forall y | y in Ids(seen) ensures !Less(y, r.id) {
        if Less(y, r.id) { LessIsTransitive(y, r.id, id); }
      }
    }
  }

  /** The merge of `CompositeEventProvider.collect_events`, without the final presentation order. */
  method MergeEvents(collections: seq<seq<Event>>) returns (merged: seq<Event>)
    ensures MergesAll(AllEvents(collections), Records(merged))
    ensures forall i, j :: 0 <= i < j < |merged| ==> merged[i].key != merged[j].key
  {
    hide Merges, AllEvents;
    var grouped := GroupByKey(collections);
    ghost var all := AllEvents(collections);
    merged := [];
    var keys := grouped.Keys;
    while |keys| > 0
      invariant keys <= grouped.Keys
      invariant forall e :: e in merged ==> e.key in grouped && e.key !in keys && Merges(e.key, GroupOf(all, e.key), e)
      invariant forall key :: key in grouped && key !in keys ==> exists e :: e in merged && e.key == key
      invariant forall i, j :: 0 <= i < j < |merged| ==> merged[i].key != merged[j].key
      decreases |keys|
    {
      var key :| key in keys;
      var e := MergeRecords(key, grouped[key]);
      MergedKey(key, GroupOf(all, key), e);
      assert forall k :: k in grouped && k !in keys ==> exists f :: f in merged + [e] && f.key == k;
      assert e in merged + [e];
      merged := merged + [e];
      keys := keys - {key};
    }
    MergedGroups(grouped, all, merged);
  }

  lemma MergedKey(key: Key, records: set<Event>, e: Event)
    requires Merges(key, records, e)
    ensures e.key == key
  {
  }

  lemma MergedGroups(grouped: map<Key, seq<Event>>, all: set<Event>, merged: seq<Event>)
    requires Groups(grouped, all)
    requires forall e :: e in merged ==> e.key in grouped && Merges(e.key, GroupOf(all, e.key), e)
    requires forall key :: key in grouped ==> exists e :: e in merged && e.key == key
    ensures MergesAll(all, Records(merged))
  {
    hide Merges;
    forall e | e in Records(merged)
      ensures Has(all, e.key) && Merges(e.key, GroupOf(all, e.key), e)
    {
      var i :| 0 <= i < |merged| && merged[i] == e;
      assert e in merged;
      assert grouped[e.key][0] in Records(grouped[e.key]);
      assert grouped[e.key][0] in GroupOf(all, e.key);
    }
    forall r | r in all ensures Has(Records(merged), r.key) {
      var e :| e in merged && e.key == r.key;
      var i :| 0 <= i < |merged| && merged[i] == e;
      assert merged[i] in Records(merged);
    }
  }
}
