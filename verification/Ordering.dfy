/**
 Sorting by a text key, as Python's `sorted` does it for identifiers and for path bytes:
 stable, and with one possible result when the keys are distinct.
 */
module Ordering {

  /** A text as its code points, or a path as its bytes. */
  type Word = seq<nat>

  predicate Less(a: Word, b: Word) {
    if b == [] then false
    else if a == [] then true
    else a[0] < b[0] || (a[0] == b[0] && Less(a[1..], b[1..]))
  }

  lemma {:induction false} LessIsStrict(a: Word, b: Word)
    ensures !(Less(a, b) && Less(b, a))
    ensures !Less(a, a)
  {
    if a != [] {
      LessIsStrict(a[1..], a[1..]);
      if b != [] { LessIsStrict(a[1..], b[1..]); }
    }
  }

  lemma {:induction false} LessIsTotal(a: Word, b: Word)
    ensures a == b || Less(a, b) || Less(b, a)
  {
    if a != [] && b != [] && a[0] == b[0] {
      LessIsTotal(a[1..], b[1..]);
      assert a == [a[0]] + a[1..] && b == [b[0]] + b[1..];
    }
  }

  lemma {:induction false} LessIsTransitive(a: Word, b: Word, c: Word)
    requires Less(a, b) && Less(b, c)
    ensures Less(a, c)
  {
    if a != [] && a[0] == b[0] && b[0] == c[0] {
      LessIsTransitive(a[1..], b[1..], c[1..]);
    }
  }

  /** In order, equal keys allowed. */
  ghost predicate Sorted<T>(s: seq<T>, key: T -> Word) {
    forall i, j :: 0 <= i < j < |s| ==> !Less(key(s[j]), key(s[i]))
  }

  ghost predicate DistinctKeys<T>(s: seq<T>, key: T -> Word) {
    forall i, j :: 0 <= i < j < |s| ==> key(s[i]) != key(s[j])
  }

  /** Put `x` after everything whose key is not greater. */
  function Insert<T>(x: T, s: seq<T>, key: T -> Word): seq<T> {
    if s == [] then [x]
    else if Less(key(x), key(s[|s| - 1])) then Insert(x, s[..|s| - 1], key) + [s[|s| - 1]]
    else s + [x]
  }

  function Sort<T>(s: seq<T>, key: T -> Word): seq<T> {
    if s == [] then [] else Insert(s[|s| - 1], Sort(s[..|s| - 1], key), key)
  }

  lemma {:induction false} InsertSorts<T>(x: T, s: seq<T>, key: T -> Word)
    requires Sorted(s, key)
    ensures Sorted(Insert(x, s, key), key)
    ensures multiset(Insert(x, s, key)) == multiset(s) + multiset{x}
  {
    if s != [] {
      var last, front := s[|s| - 1], s[..|s| - 1];
      assert s == front + [last];
      if Less(key(x), key(last)) {
        InsertSorts(x, front, key);
        var inner := Insert(x, front, key);
        forall i | 0 <= i < |inner| ensures !Less(key(last), key(inner[i])) {
          assert inner[i] in multiset(inner);
          LessIsStrict(key(x), key(last));
          if inner[i] in front { var k :| 0 <= k < |front| && front[k] == inner[i]; assert s[k] == inner[i]; }
        }
      } else {
        forall i | 0 <= i < |s| ensures !Less(key(x), key(s[i])) {
          BelowLast(x, s, key, i);
        }
      }
    }
  }

  lemma BelowLast<T>(x: T, s: seq<T>, key: T -> Word, i: nat)
    requires Sorted(s, key) && i < |s| && !Less(key(x), key(s[|s| - 1]))
    ensures !Less(key(x), key(s[i]))
  {
    var last := s[|s| - 1];
    if Less(key(x), key(s[i])) {
      LessIsTotal(key(s[i]), key(last));
      if Less(key(s[i]), key(last)) { LessIsTransitive(key(x), key(s[i]), key(last)); }
    }
  }

  lemma {:induction false} SortSorts<T>(s: seq<T>, key: T -> Word)
    ensures Sorted(Sort(s, key), key)
    ensures multiset(Sort(s, key)) == multiset(s)
    ensures |Sort(s, key)| == |s|
  {
    if s != [] {
      var front := s[..|s| - 1];
      SortSorts(front, key);
      InsertSorts(s[|s| - 1], Sort(front, key), key);
      assert s == front + [s[|s| - 1]];
      assert |Sort(s, key)| == |multiset(Sort(s, key))|;
    }
  }

  lemma MemberIndex<T>(s: seq<T>, x: T) returns (i: nat)
    requires x in multiset(s)
    ensures i < |s| && s[i] == x
  {
    assert x in s;
    i :| 0 <= i < |s| && s[i] == x;
  }

  lemma DistinctIsMultiset<T>(a: seq<T>, b: seq<T>, key: T -> Word)
    requires multiset(a) == multiset(b) && DistinctKeys(a, key)
    ensures DistinctKeys(b, key)
  {
    forall i, j | 0 <= i < j < |b| ensures key(b[i]) != key(b[j]) {
      if key(b[i]) == key(b[j]) {
        var p := MemberIndex(a, b[i]);
        var q := MemberIndex(a, b[j]);
        if p == q {
          assert b[i] == b[j];
          TwiceInMultiset(b, i, j);
          OnceInMultiset(a, key, p);
        }
      }
    }
  }

  lemma TwiceInMultiset<T>(s: seq<T>, i: nat, j: nat)
    requires i < j < |s| && s[i] == s[j]
    ensures multiset(s)[s[i]] >= 2
  {
    assert s == s[..i] + [s[i]] + s[i + 1..j] + [s[j]] + s[j + 1..];
  }

  lemma OnceInMultiset<T>(s: seq<T>, key: T -> Word, p: nat)
    requires DistinctKeys(s, key) && p < |s|
    ensures multiset(s)[s[p]] == 1
  {
    assert s == s[..p] + [s[p]] + s[p + 1..];
    var before, after := s[..p], s[p + 1..];
    assert forall k :: 0 <= k < |before| ==> key(before[k]) != key(s[p]);
    assert forall k :: 0 <= k < |after| ==> key(after[k]) != key(s[p]);
    assert s[p] !in s[..p] && s[p] !in s[p + 1..];
  }

  /** Both arrangements end with the same element: the one with the greatest key. */
  lemma SameLast<T>(a: seq<T>, b: seq<T>, key: T -> Word)
    requires multiset(a) == multiset(b) && |a| == |b| > 0
    requires Sorted(a, key) && Sorted(b, key) && DistinctKeys(a, key)
    ensures a[|a| - 1] == b[|b| - 1]
  {
    var n := |a| - 1;
    var i := MemberIndex(b, a[n]);
    var j := MemberIndex(a, b[n]);
    assert i == n || !Less(key(b[n]), key(b[i]));
    assert j == n || !Less(key(a[n]), key(a[j]));
    LessIsTotal(key(a[n]), key(b[n]));
  }

  lemma DropLast<T>(s: seq<T>)
    requires s != []
    ensures s == s[..|s| - 1] + [s[|s| - 1]]
    ensures multiset(s[..|s| - 1]) == multiset(s) - multiset{s[|s| - 1]}
    ensures |s[..|s| - 1]| == |s| - 1
  {
    assert s == s[..|s| - 1] + [s[|s| - 1]];
  }

  lemma PrefixInOrder<T>(s: seq<T>, key: T -> Word)
    requires s != [] && Sorted(s, key)
    ensures Sorted(s[..|s| - 1], key)
  {
  }

  lemma PrefixDistinct<T>(s: seq<T>, key: T -> Word)
    requires s != [] && DistinctKeys(s, key)
    ensures DistinctKeys(s[..|s| - 1], key)
  {
  }

  /** Distinct keys leave one sorted arrangement. */
  lemma {:induction false} SortedIsUnique<T>(a: seq<T>, b: seq<T>, key: T -> Word)
    requires multiset(a) == multiset(b)
    requires Sorted(a, key) && Sorted(b, key) && DistinctKeys(a, key)
    ensures a == b
  {
    hide Sorted, DistinctKeys;
    assert |a| == |multiset(a)| == |b|;
    if a != [] {
      SameLast(a, b, key);
      DropLast(a);
      DropLast(b);
      PrefixInOrder(a, key);
      PrefixInOrder(b, key);
      PrefixDistinct(a, key);
      SortedIsUnique(a[..|a| - 1], b[..|b| - 1], key);
    }
  }

  /** Sorting forgets the order of its argument. */
  lemma SortIgnoresOrder<T>(a: seq<T>, b: seq<T>, key: T -> Word)
    requires multiset(a) == multiset(b) && DistinctKeys(a, key)
    ensures Sort(a, key) == Sort(b, key)
  {
    SortSorts(a, key);
    SortSorts(b, key);
    DistinctIsMultiset(a, Sort(a, key), key);
    SortedIsUnique(Sort(a, key), Sort(b, key), key);
  }

  /** What is left when one element is taken out of two arrangements of the same elements. */
  lemma RemoveOne<T>(rest: seq<T>, x: T, before: seq<T>, after: seq<T>)
    requires multiset(rest + [x]) == multiset(before + [x] + after)
    ensures multiset(rest) == multiset(before + after)
  {
    assert multiset(rest) == multiset(rest + [x]) - multiset{x};
    assert multiset(before + after) == multiset(before + [x] + after) - multiset{x};
  }

  predicate IsLeast(days: set<nat>, m: nat) {
    m in days && forall d :: d in days ==> m <= d
  }

  lemma {:induction false} LeastExists(days: set<nat>)
    requires days != {}
    ensures exists m :: IsLeast(days, m)
  {
    var d :| d in days;
    var rest := days - {d};
    if rest == {} {
      assert days == {d};
      assert IsLeast(days, d);
    } else {
      LeastExists(rest);
      var m :| IsLeast(rest, m);
      LeastOfTwo(days, d, m);
    }
  }

  lemma LeastOfTwo(days: set<nat>, d: nat, m: nat)
    requires d in days && IsLeast(days - {d}, m)
    ensures IsLeast(days, if d <= m then d else m)
  {
    forall x | x in days ensures (if d <= m then d else m) <= x {
      if x != d { assert x in days - {d}; }
    }
  }
}
