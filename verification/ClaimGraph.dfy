/**
 The two walks over a brief's claim graph: the review scope pops from the end of its
 worklist, the renderer from the front. Both visit exactly what is reachable, cycles included.
 */
module ClaimGraph {

  type Id = string

  datatype Claim = Claim(evidence: seq<Id>, counter: seq<Id>, metrics: seq<Id>, supports: seq<Id>)

  type Graph = map<Id, Claim>

  // ---- Reachability ----

  /** Each claim of the path supports the next one. */
  ghost predicate Path(g: Graph, p: seq<Id>) {
    p != [] && forall i :: 0 <= i < |p| - 1 ==> p[i] in g && p[i + 1] in g[p[i]].supports
  }

  ghost predicate Leads(g: Graph, p: seq<Id>, roots: set<Id>, x: Id) {
    Path(g, p) && p[0] in roots && p[|p| - 1] == x
  }

  ghost predicate Reachable(g: Graph, roots: set<Id>, x: Id) {
    exists p :: Leads(g, p, roots, x)
  }

  lemma RootIsReachable(g: Graph, roots: set<Id>, x: Id)
    requires x in roots
    ensures Reachable(g, roots, x)
  {
    assert Leads(g, [x], roots, x);
  }

  lemma StepIsReachable(g: Graph, roots: set<Id>, x: Id, y: Id)
    requires Reachable(g, roots, x) && x in g && y in g[x].supports
    ensures Reachable(g, roots, y)
  {
    var p :| Leads(g, p, roots, x);
    assert Leads(g, p + [y], roots, y);
  }

  /** Everything visited, or still on the worklist, accounts for all support links. */
  ghost predicate Covers(g: Graph, visited: set<Id>, pending: seq<Id>) {
    forall x, y :: x in visited && x in g && y in g[x].supports ==> y in visited || y in pending
  }

  /** A set that contains the roots and is closed under support contains all that is reachable. */
  lemma {:induction false} ClosedContains(g: Graph, roots: set<Id>, visited: set<Id>, p: seq<Id>)
    requires roots <= visited && visited <= g.Keys && Covers(g, visited, [])
    requires Path(g, p) && p[0] in roots
    ensures p[|p| - 1] in visited
    decreases |p|
  {
    if |p| > 1 {
      var shorter := p[..|p| - 1];
      ClosedContains(g, roots, visited, shorter);
      assert p[|p| - 1] in g[p[|p| - 2]].supports;
    }
  }

  lemma ClosedIsReachable(g: Graph, roots: set<Id>, visited: set<Id>)
    requires roots <= visited && visited <= g.Keys && Covers(g, visited, [])
    requires forall x :: x in visited ==> Reachable(g, roots, x)
    ensures forall x :: Reachable(g, roots, x) <==> x in visited
  {
    forall x | Reachable(g, roots, x) ensures x in visited {
      var p :| Leads(g, p, roots, x);
      ClosedContains(g, roots, visited, p);
    }
  }

  /** The invariant of both walks, whichever end of the worklist they pop. */
  ghost predicate Walk(g: Graph, roots: set<Id>, visited: set<Id>, pending: seq<Id>) {
    && visited <= g.Keys
    && (forall x :: x in visited || x in pending ==> Reachable(g, roots, x))
    && (forall x :: x in roots ==> x in visited || x in pending)
    && Covers(g, visited, pending)
  }

  ghost predicate Pops(pending: seq<Id>, rest: seq<Id>, current: Id) {
    forall x :: x in pending <==> x in rest || x == current
  }

  lemma WalkStarts(g: Graph, pending: seq<Id>)
    ensures Walk(g, (set x | x in pending), {}, pending)
  {
    forall x | x in pending ensures Reachable(g, (set y | y in pending), x) {
      RootIsReachable(g, (set y | y in pending), x);
    }
  }

  lemma WalkSkips(g: Graph, roots: set<Id>, visited: set<Id>, pending: seq<Id>, rest: seq<Id>, current: Id)
    requires Walk(g, roots, visited, pending) && Pops(pending, rest, current) && current in visited
    ensures Walk(g, roots, visited, rest)
  {
    hide Reachable;
  }

  lemma WalkVisits(g: Graph, roots: set<Id>, visited: set<Id>, pending: seq<Id>, rest: seq<Id>, current: Id)
    requires Walk(g, roots, visited, pending) && Pops(pending, rest, current)
    requires current in g && current !in visited
    ensures Walk(g, roots, visited + {current}, rest + g[current].supports)
    ensures |g.Keys - (visited + {current})| < |g.Keys - visited|
  {
    assert Reachable(g, roots, current);
    forall y | y in g[current].supports ensures Reachable(g, roots, y) {
      StepIsReachable(g, roots, current, y);
    }
    hide Reachable;
    assert current in g.Keys - visited;
    Shrinks(g.Keys - (visited + {current}), g.Keys - visited);
  }

  lemma WalkEnds(g: Graph, roots: set<Id>, visited: set<Id>)
    requires Walk(g, roots, visited, [])
    ensures forall x :: Reachable(g, roots, x) <==> x in visited
  {
    ClosedIsReachable(g, roots, visited);
  }

  lemma WalkReaches(g: Graph, roots: set<Id>, visited: set<Id>, pending: seq<Id>, x: Id)
    requires Walk(g, roots, visited, pending) && x in pending
    ensures Reachable(g, roots, x)
  {
  }

  lemma Shrinks(a: set<Id>, b: set<Id>)
    requires a < b
    ensures |a| < |b|
  {
    var x :| x in b && x !in a;
    assert a <= b - {x};
    SubsetSize(a, b - {x});
  }

  lemma {:induction false} SubsetSize(a: set<Id>, b: set<Id>)
    requires a <= b
    ensures |a| <= |b|
  {
    if a != {} {
      var x :| x in a;
      SubsetSize(a - {x}, b - {x});
    }
  }

  // ---- The review scope ----

  datatype Result<T> = Ok(value: T) | Broken

  /** A claim that is there and whose metrics are all there. */
  predicate Intact(g: Graph, inputs: map<Id, seq<Id>>, x: Id) {
    x in g && forall i :: 0 <= i < |g[x].metrics| ==> g[x].metrics[i] in inputs
  }

  /** The evidence one claim refers to: its own, its counter-evidence, and its metrics' inputs. */
  ghost predicate Cites(g: Graph, inputs: map<Id, seq<Id>>, x: Id, evidence: Id)
    requires Intact(g, inputs, x)
  {
    || evidence in g[x].evidence
    || evidence in g[x].counter
    || exists i :: 0 <= i < |g[x].metrics| && evidence in inputs[g[x].metrics[i]]
  }

  method EvidenceOf(g: Graph, inputs: map<Id, seq<Id>>, x: Id) returns (r: Result<set<Id>>)
    requires x in g
    ensures r.Broken? <==> !Intact(g, inputs, x)
    ensures r.Ok? ==> forall e :: e in r.value <==> Cites(g, inputs, x, e)
  {
    var claim := g[x];
    var ids := claim.evidence + claim.counter;
    for i := 0 to |claim.metrics|
      invariant forall k :: 0 <= k < i ==> claim.metrics[k] in inputs
      invariant forall e :: e in ids <==>
                  e in claim.evidence || e in claim.counter
                  || exists k :: 0 <= k < i && e in inputs[claim.metrics[k]]
    {
      if claim.metrics[i] !in inputs {
        return Broken;
      }
      ids := ids + inputs[claim.metrics[i]];
    }
    r := Ok(set e | e in ids);
  }

  /** `allowed` is the evidence that the visited claims, all intact, refer to. */
  ghost predicate Gathered(g: Graph, inputs: map<Id, seq<Id>>, visited: set<Id>, allowed: set<Id>) {
    && (forall x :: x in visited ==> Intact(g, inputs, x))
    && forall e :: e in allowed <==> exists x :: x in visited && Cites(g, inputs, x, e)
  }

  lemma GatherOne(g: Graph, inputs: map<Id, seq<Id>>, visited: set<Id>, allowed: set<Id>, x: Id, cited: set<Id>)
    requires Gathered(g, inputs, visited, allowed) && Intact(g, inputs, x)
    requires forall e :: e in cited <==> Cites(g, inputs, x, e)
    ensures Gathered(g, inputs, visited + {x}, allowed + cited)
  {
    hide Cites, Intact;
  }

  /** The evidence that the claims reachable from the roots refer to. */
  ghost predicate ScopeIs(g: Graph, inputs: map<Id, seq<Id>>, roots: set<Id>, allowed: set<Id>) {
    && (forall x :: Reachable(g, roots, x) ==> Intact(g, inputs, x))
    && forall e :: e in allowed <==>
         exists x :: Reachable(g, roots, x) && Intact(g, inputs, x) && Cites(g, inputs, x, e)
  }

  lemma GatheredAll(g: Graph, inputs: map<Id, seq<Id>>, roots: set<Id>, visited: set<Id>, allowed: set<Id>)
    requires Gathered(g, inputs, visited, allowed)
    requires forall x :: Reachable(g, roots, x) <==> x in visited
    ensures ScopeIs(g, inputs, roots, allowed)
  {
    hide Reachable, Cites, Intact;
  }

  /** The invariant of the scope's walk. */
  ghost predicate Scoping(g: Graph, inputs: map<Id, seq<Id>>, roots: set<Id>, visited: set<Id>, pending: seq<Id>,
                          allowed: set<Id>) {
    Walk(g, roots, visited, pending) && Gathered(g, inputs, visited, allowed)
  }

  /** Some claim reachable from the roots, or one of its metrics, is missing. */
  ghost predicate SomeBroken(g: Graph, inputs: map<Id, seq<Id>>, roots: set<Id>) {
    exists x :: Reachable(g, roots, x) && !Intact(g, inputs, x)
  }

  lemma ScopeStarts(g: Graph, inputs: map<Id, seq<Id>>, root: Id)
    ensures Scoping(g, inputs, {root}, {}, [root], {})
  {
    WalkStarts(g, [root]);
    assert (set x | x in [root]) == {root};
  }

  lemma ScopeBreaks(g: Graph, inputs: map<Id, seq<Id>>, roots: set<Id>, visited: set<Id>, pending: seq<Id>,
                    allowed: set<Id>, x: Id)
    requires Scoping(g, inputs, roots, visited, pending, allowed) && x in pending && !Intact(g, inputs, x)
    ensures SomeBroken(g, inputs, roots)
  {
    hide Intact;
    WalkReaches(g, roots, visited, pending, x);
  }

  lemma ScopeEnds(g: Graph, inputs: map<Id, seq<Id>>, roots: set<Id>, visited: set<Id>, allowed: set<Id>)
    requires Scoping(g, inputs, roots, visited, [], allowed)
    ensures ScopeIs(g, inputs, roots, allowed) && !SomeBroken(g, inputs, roots)
  {
    hide Reachable, Intact, Cites;
    WalkEnds(g, roots, visited);
    GatheredAll(g, inputs, roots, visited, allowed);
  }

  /** The walk from one selected claim, popping from the end. */
  method ScopeOf(g: Graph, inputs: map<Id, seq<Id>>, selected: Id) returns (r: Result<set<Id>>)
    ensures r.Broken? <==> SomeBroken(g, inputs, {selected})
    ensures r.Ok? ==> ScopeIs(g, inputs, {selected}, r.value)
  {
    hide *;
    var pending, visited, allowed := [selected], {}, {};
    ScopeStarts(g, inputs, selected);
    while pending != []
      invariant Scoping(g, inputs, {selected}, visited, pending, allowed)
      decreases |g.Keys - visited|, |pending|
    {
      var current := pending[|pending| - 1];
      var rest := pending[..|pending| - 1];
      if current !in g {
        MissingIsBroken(g, inputs, current);
        ScopeBreaks(g, inputs, {selected}, visited, pending, allowed, current);
        return Broken;
      }
      if current in visited {
        ScopeSkips(g, inputs, {selected}, visited, pending, rest, allowed, current);
        pending := rest;
      } else {
        var cited := EvidenceOf(g, inputs, current);
        if cited.Broken? {
          ScopeBreaks(g, inputs, {selected}, visited, pending, allowed, current);
          return Broken;
        }
        ScopeVisits(g, inputs, {selected}, visited, pending, rest, allowed, current, cited.value);
        visited, allowed := visited + {current}, allowed + cited.value;
        pending := rest + g[current].supports;
      }
    }
    ScopeEnds(g, inputs, {selected}, visited, allowed);
    r := Ok(allowed);
  }

  lemma MissingIsBroken(g: Graph, inputs: map<Id, seq<Id>>, x: Id)
    requires x !in g
    ensures !Intact(g, inputs, x)
  {
  }

  lemma ScopeSkips(g: Graph, inputs: map<Id, seq<Id>>, roots: set<Id>, visited: set<Id>, pending: seq<Id>,
                   rest: seq<Id>, allowed: set<Id>, current: Id)
    requires Scoping(g, inputs, roots, visited, pending, allowed)
    requires pending != [] && rest == pending[..|pending| - 1] && current == pending[|pending| - 1]
    requires current in visited
    ensures Scoping(g, inputs, roots, visited, rest, allowed)
  {
    hide Walk, Gathered;
    assert pending == rest + [current];
    WalkSkips(g, roots, visited, pending, rest, current);
  }

  lemma ScopeVisits(g: Graph, inputs: map<Id, seq<Id>>, roots: set<Id>, visited: set<Id>, pending: seq<Id>,
                    rest: seq<Id>, allowed: set<Id>, current: Id, cited: set<Id>)
    requires Scoping(g, inputs, roots, visited, pending, allowed)
    requires pending != [] && rest == pending[..|pending| - 1] && current == pending[|pending| - 1]
    requires current !in visited && current in g && Intact(g, inputs, current)
    requires forall e :: e in cited <==> Cites(g, inputs, current, e)
    ensures Scoping(g, inputs, roots, visited + {current}, rest + g[current].supports, allowed + cited)
    ensures |g.Keys - (visited + {current})| < |g.Keys - visited|
  {
    hide Walk, Gathered, Intact, Cites;
    assert pending == rest + [current];
    WalkVisits(g, roots, visited, pending, rest, current);
    GatherOne(g, inputs, visited, allowed, current, cited);
  }

  /** `_full_review_scope`: the allowed pairs of every selected claim. */
  method FullReviewScope(g: Graph, inputs: map<Id, seq<Id>>, selected: set<Id>) returns (r: Result<set<(Id, Id)>>)
    ensures r.Broken? <==>
              exists s :: s in selected && SomeBroken(g, inputs, {s})
    ensures r.Ok? ==> forall e, s :: (e, s) in r.value <==>
                        s in selected
                        && exists x :: Reachable(g, {s}, x) && Intact(g, inputs, x) && Cites(g, inputs, x, e)
  {
    hide Reachable, Intact, Cites;
    var todo := selected;
    var allowed: set<(Id, Id)> := {};
    while todo != {}
      invariant todo <= selected
      invariant forall s :: s in selected - todo ==> !SomeBroken(g, inputs, {s})
      invariant forall e, s :: (e, s) in allowed <==>
                  s in selected - todo
                  && exists x :: Reachable(g, {s}, x) && Intact(g, inputs, x) && Cites(g, inputs, x, e)
      decreases |todo|
    {
      var s :| s in todo;
      var scope := ScopeOf(g, inputs, s);
      if scope.Broken? {
        return Broken;
      }
      ghost var before := allowed;
      allowed := allowed + set e | e in scope.value :: (e, s);
      assert forall e, t :: (e, t) in allowed <==> (e, t) in before || (t == s && e in scope.value);
      todo := todo - {s};
    }
    r := Ok(allowed);
  }

  // ---- The renderer's citations ----

  function Citations(claim: Claim): seq<Id> {
    claim.evidence + claim.metrics
  }

  /** `dict.fromkeys`: the first occurrence of each. */
  function Firsts(s: seq<Id>): (r: seq<Id>)
    ensures forall x :: x in r <==> x in s
    ensures forall i, j :: 0 <= i < j < |r| ==> r[i] != r[j]
  {
    if s == [] then []
    else
      var front := Firsts(s[..|s| - 1]);
      assert s == s[..|s| - 1] + [s[|s| - 1]];
      if s[|s| - 1] in front then front else front + [s[|s| - 1]]
  }

  /** The walk of one plan narrative, popping from the front: each citation once. */
  method NarrativeCitations(g: Graph, roots: seq<Id>) returns (r: Result<seq<Id>>)
    ensures r.Broken? <==> exists x :: Reachable(g, (set y | y in roots), x) && x !in g
    ensures r.Ok? ==>
              && (forall c :: c in r.value <==>
                    exists x :: Reachable(g, (set y | y in roots), x) && x in g && c in Citations(g[x]))
              && (forall i, j :: 0 <= i < j < |r.value| ==> r.value[i] != r.value[j])
  {
    hide Reachable, Covers, Walk;
    ghost var start := set y | y in roots;
    var pending := roots;
    var seen: set<Id> := {};
    var citations: seq<Id> := [];
    WalkStarts(g, pending);
    while pending != []
      invariant Walk(g, start, seen, pending)
      invariant seen <= g.Keys
      invariant forall c :: c in citations <==> exists x :: x in seen && c in Citations(g[x])
      decreases |g.Keys - seen|, |pending|
    {
      ghost var before := pending;
      var current := pending[0];
      pending := pending[1..];
      assert before == [current] + pending;
      WalkReaches(g, start, seen, before, current);
      if current in seen {
        WalkSkips(g, start, seen, before, pending, current);
        continue;
      }
      if current !in g {
        return Broken;
      }
      WalkVisits(g, start, seen, before, pending, current);
      seen := seen + {current};
      citations := citations + Citations(g[current]);
      pending := pending + g[current].supports;
    }
    WalkEnds(g, start, seen);
    r := Ok(Firsts(citations));
  }
}
