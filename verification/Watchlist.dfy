/**
 Watchlist updates by compare-and-swap: any number of callers read, build a replacement and
 swap it in under the file's lock; the outcome is that of the successful ones one by one.
 */
module Watchlist {

  const MAX_ITEMS: nat := 30

  datatype Item = Item(symbol: string, body: string)

  /** Versions are positive decimals without leading zeros, so they are the numbers themselves. */
  datatype Config = Config(version: nat, items: seq<Item>)

  datatype Operation = Upsert(item: Item) | Remove(symbol: string)

  datatype Outcome = Changed(before: nat, after: nat) | Conflict | Invalid

  predicate Valid(c: Config) {
    && c.version > 0
    && |c.items| <= MAX_ITEMS
    && forall i, j :: 0 <= i < j < |c.items| ==> c.items[i].symbol != c.items[j].symbol
  }

  /** The items of another symbol, in order. */
  function Others(items: seq<Item>, symbol: string): seq<Item> {
    if items == [] then []
    else
      Others(items[..|items| - 1], symbol)
      + (if items[|items| - 1].symbol != symbol then [items[|items| - 1]] else [])
  }

  /** The configuration an operation asks for. */
  function Replacement(c: Config, op: Operation): Config {
    match op
    case Upsert(item) => Config(c.version + 1, Others(c.items, item.symbol) + [item])
    case Remove(symbol) => Config(c.version + 1, Others(c.items, symbol))
  }

  lemma {:induction false} OthersAreOthers(items: seq<Item>, symbol: string)
    ensures |Others(items, symbol)| <= |items|
    ensures forall x :: x in Others(items, symbol) <==> x in items && x.symbol != symbol
    ensures (forall i, j :: 0 <= i < j < |items| ==> items[i].symbol != items[j].symbol) ==>
              forall i, j :: 0 <= i < j < |Others(items, symbol)| ==>
                Others(items, symbol)[i].symbol != Others(items, symbol)[j].symbol
  {
    if items != [] {
      var front, last := items[..|items| - 1], items[|items| - 1];
      OthersAreOthers(front, symbol);
      assert items == front + [last];
      if last.symbol != symbol {
        forall i | 0 <= i < |Others(front, symbol)|
          ensures Others(front, symbol)[i] in front
        {
          assert Others(front, symbol)[i] in Others(front, symbol);
        }
      }
    }
  }

  /** What an update leaves: its item if any, and every item of another symbol. */
  lemma ReplacementMeans(c: Config, op: Operation)
    requires Valid(c)
    ensures var r := Replacement(c, op);
            && r.version == c.version + 1
            && (forall x :: x in r.items <==>
                  match op
                  case Upsert(item) => x == item || (x in c.items && x.symbol != item.symbol)
                  case Remove(symbol) => x in c.items && x.symbol != symbol)
            && (Valid(r) <==> |r.items| <= MAX_ITEMS)
            && (op.Remove? ==> Valid(r))
  {
    var symbol := if op.Upsert? then op.item.symbol else op.symbol;
    OthersAreOthers(c.items, symbol);
    var others := Others(c.items, symbol);
    forall i | 0 <= i < |others| ensures others[i].symbol != symbol {
      assert others[i] in others;
    }
  }

  // ---- The file and the service ----

  class WatchlistRepository {
    var stored: Config

    constructor (c: Config)
      ensures stored == c
    {
      stored := c;
    }

    /** `replace_if_version`, holding the file's lock. */
    method ReplaceIfVersion(expected: nat, replacement: Config) returns (replaced: bool, raised: bool)
      modifies this
      ensures raised <==> old(stored).version == expected && replacement.version != expected + 1
      ensures replaced <==> old(stored).version == expected && !raised
      ensures stored == if replaced then replacement else old(stored)
    {
      if stored.version != expected {
        return false, false;
      }
      if replacement.version != expected + 1 {
        return false, true;
      }
      stored := replacement;
      replaced, raised := true, false;
    }

    /** `WatchlistService.upsert` and `remove`, when nobody interferes. */
    method Update(expected: nat, op: Operation) returns (o: Outcome)
      modifies this
      ensures o.Changed? <==> old(stored).version == expected && Valid(Replacement(old(stored), op))
      ensures o == Conflict <==> old(stored).version != expected
      ensures stored == if o.Changed? then Replacement(old(stored), op) else old(stored)
      ensures o.Changed? ==> o == Changed(expected, expected + 1)
    {
      var current := stored;
      if current.version != expected {
        return Conflict;
      }
      var updated := Replacement(current, op);
      if !Valid(updated) {
        return Invalid;
      }
      var replaced, raised := ReplaceIfVersion(expected, updated);
      o := if replaced then Changed(current.version, updated.version) else Conflict;
    }
  }

  // ---- Any number of callers ----

  /** A caller between its read and its compare-and-swap. */
  datatype Caller = Caller(op: Operation, expected: nat, updated: Config)

  /** `done` lists the successful operations in the order in which they took effect. */
  datatype World = World(config: Config, callers: seq<Caller>, done: seq<Operation>)

  datatype Move =
    | Read(op: Operation, expected: nat)
    | Swap(i: nat)
    | Abandon(i: nat)

  function Without(s: seq<Caller>, i: nat): seq<Caller>
    requires i < |s|
  {
    s[..i] + s[i + 1..]
  }

  function Next(w: World, m: Move): World {
    match m
    case Read(op, expected) =>
      var updated := Replacement(w.config, op);
      if w.config.version != expected || !Valid(updated) then w
      else w.(callers := w.callers + [Caller(op, expected, updated)])
    case Swap(i) =>
      if i >= |w.callers| then w
      else
        var c := w.callers[i];
        if w.config.version == c.expected && c.updated.version == c.expected + 1 then
          World(c.updated, Without(w.callers, i), w.done + [c.op])
        else w.(callers := Without(w.callers, i))
    case Abandon(i) => if i >= |w.callers| then w else w.(callers := Without(w.callers, i))
  }

  function Play(w: World, moves: seq<Move>): World
    decreases moves
  {
    if moves == [] then w else Play(Next(w, moves[0]), moves[1..])
  }

  /** The operations one by one. */
  function Fold(c: Config, ops: seq<Operation>): Config {
    if ops == [] then c else Replacement(Fold(c, ops[..|ops| - 1]), ops[|ops| - 1])
  }

  lemma {:induction false} FoldCounts(c: Config, ops: seq<Operation>)
    ensures Fold(c, ops).version == c.version + |ops|
  {
    if ops != [] { FoldCounts(c, ops[..|ops| - 1]); }
  }

  /** A caller built its replacement from some configuration of the history. */
  ghost predicate FromHistory(start: Config, w: World, c: Caller) {
    exists k :: 0 <= k <= |w.done| && BuiltAt(start, w.done, c, k)
  }

  ghost predicate BuiltAt(start: Config, done: seq<Operation>, c: Caller, k: nat)
    requires k <= |done|
  {
    && c.expected == start.version + k
    && c.updated == Replacement(Fold(start, done[..k]), c.op)
    && Valid(c.updated)
  }

  ghost predicate Linear(start: Config, w: World) {
    && Valid(start)
    && w.config == Fold(start, w.done)
    && Valid(w.config)
    && forall i :: 0 <= i < |w.callers| ==> FromHistory(start, w, w.callers[i])
  }

  lemma SwapIsNext(start: Config, w: World, i: nat)
    requires Linear(start, w) && i < |w.callers| && w.config.version == w.callers[i].expected
    ensures Linear(start, World(w.callers[i].updated, Without(w.callers, i), w.done + [w.callers[i].op]))
  {
    var c := w.callers[i];
    var w' := World(c.updated, Without(w.callers, i), w.done + [c.op]);
    var k :| 0 <= k <= |w.done| && BuiltAt(start, w.done, c, k);
    FoldCounts(start, w.done);
    assert k == |w.done| && w.done[..k] == w.done;
    assert w'.done[..|w.done|] == w.done;
    forall j | 0 <= j < |w'.callers| ensures FromHistory(start, w', w'.callers[j]) {
      HistoryStays(start, w, w', w.callers[if j < i then j else j + 1]);
    }
  }

  lemma HistoryStays(start: Config, w: World, w': World, c: Caller)
    requires FromHistory(start, w, c) && w.done <= w'.done
    ensures FromHistory(start, w', c)
  {
    var k :| 0 <= k <= |w.done| && BuiltAt(start, w.done, c, k);
    assert w'.done[..k] == w.done[..k];
    assert BuiltAt(start, w'.done, c, k);
  }

  lemma ReadIsLinear(start: Config, w: World, op: Operation, expected: nat)
    requires Linear(start, w)
    ensures Linear(start, Next(w, Read(op, expected))) && w.done <= Next(w, Read(op, expected)).done
  {
    hide Fold, Replacement, Valid, BuiltAt;
    var updated := Replacement(w.config, op);
    if w.config.version == expected && Valid(updated) {
      var c := Caller(op, expected, updated);
      BuiltNow(start, w, c);
      CallerJoins(start, w, c);
    }
  }

  lemma BuiltNow(start: Config, w: World, c: Caller)
    requires Linear(start, w) && c.expected == w.config.version
    requires c.updated == Replacement(w.config, c.op) && Valid(c.updated)
    ensures FromHistory(start, w, c)
  {
    hide Fold, Replacement, Valid;
    FoldCounts(start, w.done);
    assert w.done[..|w.done|] == w.done;
    assert BuiltAt(start, w.done, c, |w.done|);
  }

  lemma CallerJoins(start: Config, w: World, c: Caller)
    requires Linear(start, w) && FromHistory(start, w, c)
    ensures Linear(start, w.(callers := w.callers + [c]))
  {
    hide Fold, Valid, BuiltAt;
  }

  lemma SwapIsLinear(start: Config, w: World, i: nat)
    requires Linear(start, w)
    ensures Linear(start, Next(w, Swap(i))) && w.done <= Next(w, Swap(i)).done
  {
    hide Linear, Fold, Valid, Replacement;
    if i < |w.callers| {
      var c := w.callers[i];
      if w.config.version == c.expected && c.updated.version == c.expected + 1 { SwapIsNext(start, w, i); }
      else { RemovalIsLinear(start, w, i); }
    }
  }

  lemma NextIsLinear(start: Config, w: World, m: Move)
    requires Linear(start, w)
    ensures Linear(start, Next(w, m)) && w.done <= Next(w, m).done
  {
    hide Linear, Fold, Valid, Replacement;
    match m
    case Read(op, expected) => ReadIsLinear(start, w, op, expected);
    case Swap(i) => SwapIsLinear(start, w, i);
    case Abandon(i) => if i < |w.callers| { RemovalIsLinear(start, w, i); }
  }

  lemma RemovalIsLinear(start: Config, w: World, i: nat)
    requires Linear(start, w) && i < |w.callers|
    ensures Linear(start, w.(callers := Without(w.callers, i)))
  {
    var w' := w.(callers := Without(w.callers, i));
    forall j | 0 <= j < |w'.callers| ensures FromHistory(start, w', w'.callers[j]) {
      HistoryStays(start, w, w', w.callers[if j < i then j else j + 1]);
    }
  }

  lemma {:induction false} PlayIsLinear(start: Config, w: World, moves: seq<Move>)
    requires Linear(start, w)
    ensures Linear(start, Play(w, moves)) && w.done <= Play(w, moves).done
    decreases moves
  {
    if moves != [] {
      NextIsLinear(start, w, moves[0]);
      PlayIsLinear(start, Next(w, moves[0]), moves[1..]);
    }
  }

  lemma {:induction false} PlaySplits(w: World, first: seq<Move>, second: seq<Move>)
    ensures Play(w, first + second) == Play(Play(w, first), second)
    decreases first
  {
    if first == [] {
      assert first + second == second;
    } else {
      assert (first + second)[1..] == first[1..] + second;
      PlaySplits(Next(w, first[0]), first[1..], second);
    }
  }

  /**
   Updates are linearizable: over every interleaving the watchlist is the fold of the
   successful operations in version order, each raised the version by one, and none is lost.
   */
  lemma UpdatesAreLinearizable(start: Config, moves: seq<Move>)
    requires Valid(start)
    ensures var w := Play(World(start, [], []), moves);
            && w.config == Fold(start, w.done)
            && w.config.version == start.version + |w.done|
            && Valid(w.config)
  {
    PlayIsLinear(start, World(start, [], []), moves);
    FoldCounts(start, Play(World(start, [], []), moves).done);
  }

  lemma LaterContent(start: Config, w: World, moves: seq<Move>)
    requires Linear(start, w)
    ensures w.config.version <= Play(w, moves).config.version
    ensures w.config.version == Play(w, moves).config.version ==> w.config == Play(w, moves).config
  {
    PlayIsLinear(start, w, moves);
    var done, done' := w.done, Play(w, moves).done;
    FoldCounts(start, done);
    FoldCounts(start, done');
    hide Fold, FromHistory, Play;
    if |done| == |done'| { assert done == done'; }
  }

  /** Along every history a version determines the content. */
  lemma VersionDeterminesContent(start: Config, before: seq<Move>, after: seq<Move>)
    requires Valid(start)
    ensures var a, b := Play(World(start, [], []), before), Play(World(start, [], []), before + after);
            && a.config.version <= b.config.version
            && (a.config.version == b.config.version ==> a.config == b.config)
  {
    PlayIsLinear(start, World(start, [], []), before);
    PlaySplits(World(start, [], []), before, after);
    hide Play, Linear;
    LaterContent(start, Play(World(start, [], []), before), after);
  }
}
