/**
 Building a packet within its byte budget: evidence is sorted, and discovery excerpts and
 citation labels are given up in three stages, each disclosed, only as far as needed.
 */
module PacketBuilder {
  import opened Ordering
  import opened PacketSize

  const DISCOVERY_AUTHORITY_TIER: nat := 4

  /** An evidence item by what trimming may change; texts are their UTF-8 bytes. */
  datatype Item = Item(id: Word, tier: nat, excerpt: Word, citation: Word, body: string)

  datatype Section = DuplicateExcerpts | LowAuthorityExcerpts | VerboseDescriptions

  /** The disclosed sections, in the order they were added. */
  type Omitted = seq<(Section, nat)>

  /** The bytes of the canonical text that do not belong to the byte count. */
  type Weigh = f: (seq<Item>, Omitted) -> nat | forall items, omitted :: f(items, omitted) > 0
    witness (items, omitted) => 1

  datatype Identity = Identity(evidence: seq<Item>, omitted: Omitted, limit: nat, count: nat)

  datatype Packet = Packet(evidence: seq<Item>, omitted: Omitted, limit: nat, count: nat, identity: Identity)

  datatype Build = Built(packet: Packet) | DuplicateIdentifier | BudgetExceeded

  // ---- The contract a packet must meet ----

  /** `SynthesisConstraints` and `ResearchPacket` accept it. */
  ghost predicate Accepted(weigh: Weigh, p: Packet) {
    && p.identity == Identity(p.evidence, p.omitted, p.limit, p.count)
    && CountsItself(weigh(p.evidence, p.omitted), p.count)
    && 0 < p.count <= p.limit
    && forall i, j :: 0 <= i < j < |p.omitted| ==> p.omitted[i].0 != p.omitted[j].0
  }

  /** `_packet` */
  function Assembled(weigh: Weigh, items: seq<Item>, omitted: Omitted, limit: nat): Packet {
    var count := Count(weigh(items, omitted));
    Packet(items, omitted, limit, count, Identity(items, omitted, limit, count))
  }

  // ---- What each stage gives up ----

  function ById(item: Item): Word {
    item.id
  }

  function ExcerptBytes(items: seq<Item>): nat {
    if items == [] then 0 else ExcerptBytes(items[..|items| - 1]) + |items[|items| - 1].excerpt|
  }

  /** A discovery excerpt that an earlier item already carries. */
  predicate IsDuplicate(items: seq<Item>, i: nat)
    requires i < |items|
  {
    && items[i].tier >= DISCOVERY_AUTHORITY_TIER
    && items[i].excerpt != []
    && exists j :: 0 <= j < i && items[j].excerpt == items[i].excerpt
  }

  function WithoutExcerpt(item: Item): Item {
    item.(excerpt := [])
  }

  function DropDuplicates(items: seq<Item>): (r: seq<Item>)
    ensures |r| == |items|
  {
    seq(|items|, i requires 0 <= i < |items| => if IsDuplicate(items, i) then WithoutExcerpt(items[i]) else items[i])
  }

  function DropDiscovery(items: seq<Item>): (r: seq<Item>)
    ensures |r| == |items|
  {
    seq(|items|, i requires 0 <= i < |items| =>
          if items[i].tier >= DISCOVERY_AUTHORITY_TIER then WithoutExcerpt(items[i]) else items[i])
  }

  function Relabel(items: seq<Item>): (r: seq<Item>)
    ensures |r| == |items|
  {
    seq(|items|, i requires 0 <= i < |items| => items[i].(citation := items[i].id))
  }

  function Saved(item: Item): nat {
    if |item.citation| > |item.id| then |item.citation| - |item.id| else 0
  }

  function LabelBytesSaved(items: seq<Item>): nat {
    if items == [] then 0 else LabelBytesSaved(items[..|items| - 1]) + Saved(items[|items| - 1])
  }

  function Disclosed(omitted: Omitted, section: Section, bytes: nat): Omitted {
    if bytes > 0 then omitted + [(section, bytes)] else omitted
  }

  // ---- The stages as loops over the list ----

  lemma PrefixBytes(items: seq<Item>, i: nat)
    requires i < |items|
    ensures ExcerptBytes(items[..i + 1]) == ExcerptBytes(items[..i]) + |items[i].excerpt|
  {
    assert items[..i + 1][..i] == items[..i];
  }

  /** The duplicate stage has treated the first `n` items. */
  ghost predicate Deduplicated(items: seq<Item>, n: nat, trimmed: seq<Item>, removed: nat, seen: set<Word>)
    requires n <= |items|
  {
    && |trimmed| == |items|
    && (forall k :: 0 <= k < n ==> trimmed[k] == DropDuplicates(items)[k])
    && (forall k :: n <= k < |items| ==> trimmed[k] == items[k])
    && (forall w :: w in seen <==> w != [] && exists k :: 0 <= k < n && items[k].excerpt == w)
    && ExcerptBytes(trimmed[..n]) + removed == ExcerptBytes(items[..n])
    && (removed > 0 <==> trimmed != items)
  }

  method RemoveDuplicateExcerpts(items: seq<Item>) returns (trimmed: seq<Item>, removed: nat)
    ensures trimmed == DropDuplicates(items)
    ensures ExcerptBytes(trimmed) + removed == ExcerptBytes(items)
    ensures removed > 0 <==> trimmed != items
  {
    trimmed, removed := items, 0;
    var seen: set<Word> := {};
    for index := 0 to |items|
      invariant Deduplicated(items, index, trimmed, removed, seen)
    {
      var item := items[index];
      DuplicateStep(items, index, trimmed, removed, seen);
      hide Deduplicated, IsDuplicate;
      if item.tier >= DISCOVERY_AUTHORITY_TIER && item.excerpt != [] && item.excerpt in seen {
        removed := removed + |item.excerpt|;
        trimmed := trimmed[index := WithoutExcerpt(item)];
      } else if item.excerpt != [] {
        seen := seen + {item.excerpt};
      }
    }
    assert trimmed[..|items|] == trimmed && items[..|items|] == items;
  }

  /** One item of the duplicate stage: dropped exactly when it is a duplicate, and its bytes counted. */
  lemma DuplicateStep(items: seq<Item>, n: nat, trimmed: seq<Item>, removed: nat, seen: set<Word>)
    requires n < |items| && Deduplicated(items, n, trimmed, removed, seen)
    ensures |trimmed| == |items|
    ensures var item := items[n];
            if item.tier >= DISCOVERY_AUTHORITY_TIER && item.excerpt != [] && item.excerpt in seen then
              Deduplicated(items, n + 1, trimmed[n := WithoutExcerpt(item)], removed + |item.excerpt|, seen)
            else
              Deduplicated(items, n + 1, trimmed, removed, if item.excerpt != [] then seen + {item.excerpt} else seen)
  {
    hide ExcerptBytes;
    var item := items[n];
    PrefixBytes(items, n);
    var dropped := item.tier >= DISCOVERY_AUTHORITY_TIER && item.excerpt != [] && item.excerpt in seen;
    assert dropped <==> IsDuplicate(items, n);
    var trimmed' := if dropped then trimmed[n := WithoutExcerpt(item)] else trimmed;
    assert trimmed'[..n] == trimmed[..n];
    PrefixBytes(trimmed', n);
    if dropped { assert trimmed'[n] != items[n]; }
  }

  method RemoveDiscoveryExcerpts(items: seq<Item>) returns (trimmed: seq<Item>, removed: nat)
    ensures trimmed == DropDiscovery(items)
    ensures ExcerptBytes(trimmed) + removed == ExcerptBytes(items)
  {
    trimmed, removed := items, 0;
    for index := 0 to |items|
      invariant |trimmed| == |items|
      invariant forall k :: 0 <= k < index ==> trimmed[k] == DropDiscovery(items)[k]
      invariant forall k :: index <= k < |items| ==> trimmed[k] == items[k]
      invariant ExcerptBytes(trimmed[..index]) + removed == ExcerptBytes(items[..index])
    {
      var item := items[index];
      PrefixBytes(items, index);
      ghost var before := trimmed;
      if item.tier >= DISCOVERY_AUTHORITY_TIER && item.excerpt != [] {
        removed := removed + |item.excerpt|;
        trimmed := trimmed[index := WithoutExcerpt(item)];
      }
      assert trimmed[..index] == before[..index];
      PrefixBytes(trimmed, index);
    }
    assert trimmed[..|items|] == trimmed && items[..|items|] == items;
  }

  method ReplaceLabels(items: seq<Item>) returns (trimmed: seq<Item>, saved: nat)
    ensures trimmed == Relabel(items)
    ensures saved == LabelBytesSaved(items)
  {
    trimmed, saved := items, 0;
    for index := 0 to |items|
      invariant |trimmed| == |items|
      invariant forall k :: 0 <= k < index ==> trimmed[k] == Relabel(items)[k]
      invariant forall k :: index <= k < |items| ==> trimmed[k] == items[k]
      invariant saved == LabelBytesSaved(items[..index])
    {
      var item := items[index];
      assert items[..index + 1][..index] == items[..index];
      saved := saved + Saved(item);
      trimmed := trimmed[index := item.(citation := item.id)];
    }
    assert items[..|items|] == items;
  }

  // ---- The candidates, in the order they are tried ----

  function DuplicateBytes(items: seq<Item>): int {
    ExcerptBytes(items) - ExcerptBytes(DropDuplicates(items))
  }

  function DiscoveryBytes(items: seq<Item>): int {
    ExcerptBytes(items) - ExcerptBytes(DropDiscovery(items))
  }

  lemma {:induction false} StagesOnlyRemove(items: seq<Item>)
    ensures ExcerptBytes(DropDuplicates(items)) <= ExcerptBytes(items)
    ensures ExcerptBytes(DropDiscovery(items)) <= ExcerptBytes(items)
    ensures DropDuplicates(items) != items ==> ExcerptBytes(DropDuplicates(items)) < ExcerptBytes(items)
  {
    if items != [] {
      var n := |items| - 1;
      var front := items[..n];
      assert forall i :: 0 <= i < n ==> IsDuplicate(items, i) == IsDuplicate(front, i);
      assert DropDuplicates(items)[..n] == DropDuplicates(front);
      assert DropDiscovery(items)[..n] == DropDiscovery(front);
      assert items == front + [items[n]];
      assert DropDuplicates(items) == DropDuplicates(front) + [DropDuplicates(items)[n]];
      StagesOnlyRemove(front);
    }
  }

  /** Candidate 0 is everything; 1, 2 and 3 give up one more kind of text each. */
  function Candidate(items: seq<Item>, k: nat): (seq<Item>, Omitted)
    requires k <= 3
  {
    if k == 0 then (items, [])
    else
      StagesOnlyRemove(items);
      var once := DropDuplicates(items);
      var omitted1 := Disclosed([], DuplicateExcerpts, DuplicateBytes(items));
      if k == 1 then (once, omitted1)
      else
        StagesOnlyRemove(once);
        var protected := DropDiscovery(once);
        var omitted2 := Disclosed(omitted1, LowAuthorityExcerpts, DiscoveryBytes(once));
        if k == 2 then (protected, omitted2)
        else (Relabel(protected), Disclosed(omitted2, VerboseDescriptions, LabelBytesSaved(protected)))
  }

  predicate Fits(weigh: Weigh, items: seq<Item>, limit: nat, k: nat)
    requires k <= 3
  {
    var (kept, omitted) := Candidate(items, k);
    Count(weigh(kept, omitted)) <= limit
  }

  /** The least trimming that fits, if any does. */
  function FirstFit(weigh: Weigh, items: seq<Item>, limit: nat): (k: nat)
    ensures k <= 4
    ensures k < 4 ==> Fits(weigh, items, limit, k)
    ensures forall j :: 0 <= j < k && j <= 3 ==> !Fits(weigh, items, limit, j)
  {
    if Fits(weigh, items, limit, 0) then 0
    else if Fits(weigh, items, limit, 1) then 1
    else if Fits(weigh, items, limit, 2) then 2
    else if Fits(weigh, items, limit, 3) then 3
    else 4
  }

  function BuildSorted(weigh: Weigh, items: seq<Item>, limit: nat): Build {
    var k := FirstFit(weigh, items, limit);
    if k == 4 then BudgetExceeded
    else
      var (kept, omitted) := Candidate(items, k);
      Built(Assembled(weigh, kept, omitted, limit))
  }

  predicate Repeats(items: seq<Item>) {
    exists i, j :: 0 <= i < j < |items| && items[i].id == items[j].id
  }

  /** `build_research_packet`, as the least trimming of the sorted evidence. */
  function BuildSpec(weigh: Weigh, evidence: seq<Item>, limit: nat): Build {
    var items := Sort(evidence, ById);
    if Repeats(items) then DuplicateIdentifier else BuildSorted(weigh, items, limit)
  }

  /** `build_research_packet`, as it runs. */
  method BuildResearchPacket(weigh: Weigh, evidence: seq<Item>, limit: nat) returns (b: Build)
    requires limit > 0
    ensures b == BuildSpec(weigh, evidence, limit)
  {
    hide Count, Sort, DropDuplicates, DropDiscovery, Relabel, LabelBytesSaved, ExcerptBytes, Repeats;
    var items := Sort(evidence, ById);
    if Repeats(items) {
      return DuplicateIdentifier;
    }
    var omitted: Omitted := [];
    var packet := Assembled(weigh, items, omitted, limit);
    if packet.count <= limit {
      return Built(packet);
    }
    var trimmed, removed := RemoveDuplicateExcerpts(items);
    if removed > 0 {
      omitted := omitted + [(DuplicateExcerpts, removed)];
      packet := Assembled(weigh, trimmed, omitted, limit);
      if packet.count <= limit {
        return Built(packet);
      }
    }
    ghost var once := trimmed;
    trimmed, removed := RemoveDiscoveryExcerpts(trimmed);
    if removed > 0 {
      omitted := omitted + [(LowAuthorityExcerpts, removed)];
    }
    packet := Assembled(weigh, trimmed, omitted, limit);
    if packet.count <= limit {
      return Built(packet);
    }
    var saved: nat;
    trimmed, saved := ReplaceLabels(trimmed);
    if saved > 0 {
      omitted := omitted + [(VerboseDescriptions, saved)];
    }
    packet := Assembled(weigh, trimmed, omitted, limit);
    if packet.count > limit {
      return BudgetExceeded;
    }
    b := Built(packet);
  }

  // ---- What the result keeps ----

  function BytesOf(omitted: Omitted, section: Section): nat {
    if omitted == [] then 0
    else (if omitted[|omitted| - 1].0 == section then omitted[|omitted| - 1].1 else 0) + BytesOf(omitted[..|omitted| - 1], section)
  }

  lemma DisclosedBytes(omitted: Omitted, section: Section, bytes: nat, other: Section)
    ensures BytesOf(Disclosed(omitted, section, bytes), other)
            == BytesOf(omitted, other) + if section == other then bytes else 0
  {
    assert (omitted + [(section, bytes)])[..|omitted|] == omitted;
  }

  lemma {:induction false} RelabelKeepsExcerpts(items: seq<Item>)
    ensures ExcerptBytes(Relabel(items)) == ExcerptBytes(items)
  {
    if items != [] {
      assert Relabel(items)[..|items| - 1] == Relabel(items[..|items| - 1]);
      RelabelKeepsExcerpts(items[..|items| - 1]);
    }
  }

  /** The disclosures of the stages are read back as they were added. */
  lemma DisclosuresRead(duplicates: nat, discovery: nat, saved: nat)
    ensures var omitted1 := Disclosed([], DuplicateExcerpts, duplicates);
            var omitted2 := Disclosed(omitted1, LowAuthorityExcerpts, discovery);
            var omitted3 := Disclosed(omitted2, VerboseDescriptions, saved);
            && BytesOf(omitted1, DuplicateExcerpts) == duplicates && BytesOf(omitted1, LowAuthorityExcerpts) == 0
            && BytesOf(omitted2, DuplicateExcerpts) == duplicates && BytesOf(omitted2, LowAuthorityExcerpts) == discovery
            && BytesOf(omitted3, DuplicateExcerpts) == duplicates && BytesOf(omitted3, LowAuthorityExcerpts) == discovery
  {
    hide Disclosed, BytesOf;
    var omitted1 := Disclosed([], DuplicateExcerpts, duplicates);
    var omitted2 := Disclosed(omitted1, LowAuthorityExcerpts, discovery);
    NothingDisclosed();
    DisclosedBytes([], DuplicateExcerpts, duplicates, DuplicateExcerpts);
    DisclosedBytes([], DuplicateExcerpts, duplicates, LowAuthorityExcerpts);
    DisclosedBytes(omitted1, LowAuthorityExcerpts, discovery, DuplicateExcerpts);
    DisclosedBytes(omitted1, LowAuthorityExcerpts, discovery, LowAuthorityExcerpts);
    DisclosedBytes(omitted2, VerboseDescriptions, saved, DuplicateExcerpts);
    DisclosedBytes(omitted2, VerboseDescriptions, saved, LowAuthorityExcerpts);
  }

  lemma NothingDisclosed()
    ensures BytesOf([], DuplicateExcerpts) == 0 && BytesOf([], LowAuthorityExcerpts) == 0
  {
  }

  lemma CandidateConserves(items: seq<Item>, k: nat)
    requires k <= 3
    ensures var (kept, omitted) := Candidate(items, k);
            ExcerptBytes(items) == ExcerptBytes(kept) + BytesOf(omitted, DuplicateExcerpts)
                                   + BytesOf(omitted, LowAuthorityExcerpts)
  {
    hide ExcerptBytes, DropDuplicates, DropDiscovery, Relabel, BytesOf, Disclosed, LabelBytesSaved;
    NothingDisclosed();
    if k > 0 {
      var once := DropDuplicates(items);
      var protected := DropDiscovery(once);
      StagesOnlyRemove(items);
      StagesOnlyRemove(once);
      RelabelKeepsExcerpts(protected);
      DisclosuresRead(DuplicateBytes(items), DiscoveryBytes(once), LabelBytesSaved(protected));
    }
  }

  lemma {:induction false} InsertKeepsBytes(x: Item, s: seq<Item>)
    ensures ExcerptBytes(Insert(x, s, ById)) == ExcerptBytes(s) + |x.excerpt|
  {
    hide Less;
    if s != [] && Less(x.id, s[|s| - 1].id) {
      var rest := Insert(x, s[..|s| - 1], ById);
      InsertKeepsBytes(x, s[..|s| - 1]);
      assert (rest + [s[|s| - 1]])[..|rest|] == rest;
    } else {
      assert (s + [x])[..|s|] == s;
    }
  }

  lemma {:induction false} SortKeepsBytes(s: seq<Item>)
    ensures ExcerptBytes(Sort(s, ById)) == ExcerptBytes(s)
  {
    if s != [] {
      SortKeepsBytes(s[..|s| - 1]);
      InsertKeepsBytes(s[|s| - 1], Sort(s[..|s| - 1], ById));
    }
  }

  /** Excerpt bytes are conserved: the evidence given is what is retained plus what is disclosed. */
  lemma ExcerptsAreAccountedFor(weigh: Weigh, evidence: seq<Item>, limit: nat)
    ensures var b := BuildSpec(weigh, evidence, limit);
            b.Built? ==>
              ExcerptBytes(evidence) == ExcerptBytes(b.packet.evidence)
                                        + BytesOf(b.packet.omitted, DuplicateExcerpts)
                                        + BytesOf(b.packet.omitted, LowAuthorityExcerpts)
  {
    hide Candidate, Fits, Count, ExcerptBytes;
    SortKeepsBytes(evidence);
    var k := FirstFit(weigh, Sort(evidence, ById), limit);
    if k <= 3 { CandidateConserves(Sort(evidence, ById), k); }
  }

  /** Only discovery excerpts and citation labels may differ from the evidence given. */
  ghost predicate Trims(item: Item, kept: Item) {
    && kept == item.(excerpt := kept.excerpt, citation := kept.citation)
    && (kept.excerpt == item.excerpt || (kept.excerpt == [] && item.tier >= DISCOVERY_AUTHORITY_TIER))
    && (kept.citation == item.citation || kept.citation == item.id)
  }

  lemma CandidateTrims(items: seq<Item>, k: nat)
    requires k <= 3
    ensures var kept := Candidate(items, k).0;
            |kept| == |items| && forall i :: 0 <= i < |items| ==> Trims(items[i], kept[i])
  {
    hide LabelBytesSaved, ExcerptBytes;
  }

  /** The duplicate stage keeps a copy of every excerpt text, and every non-discovery item whole. */
  lemma {:induction false} EveryTextSurvivesDuplicates(items: seq<Item>, i: nat)
    requires i < |items|
    ensures exists j :: 0 <= j <= i && items[j].excerpt == items[i].excerpt
                        && DropDuplicates(items)[j] == items[j]
  {
    if IsDuplicate(items, i) {
      var j :| 0 <= j < i && items[j].excerpt == items[i].excerpt;
      EveryTextSurvivesDuplicates(items, j);
    }
  }

  lemma {:induction false} CandidateDisclosesOnce(items: seq<Item>, k: nat)
    requires k <= 3
    ensures var omitted := Candidate(items, k).1;
            && (forall i, j :: 0 <= i < j < |omitted| ==> omitted[i].0 != omitted[j].0)
            && forall i :: 0 <= i < |omitted| ==> omitted[i].1 > 0
  {
    hide DropDuplicates, DropDiscovery, Relabel, ExcerptBytes, LabelBytesSaved;
  }

  /** The packet is this stage of the trimming: the first that fits. */
  predicate IsFirstFit(weigh: Weigh, items: seq<Item>, limit: nat, k: nat, packet: Packet) {
    && k <= 3 && Fits(weigh, items, limit, k)
    && (forall j :: 0 <= j < k ==> !Fits(weigh, items, limit, j))
    && (packet.evidence, packet.omitted) == Candidate(items, k)
  }

  /**
   A built packet meets the validator's identity, byte-count and budget equations, is a
   trimming of the sorted evidence, and is not trimmed further than the first stage that fits;
   without repeated identifiers the build fails exactly when no stage fits.
   */
  lemma BuiltPacketIsAccepted(weigh: Weigh, evidence: seq<Item>, limit: nat)
    ensures var b, items := BuildSpec(weigh, evidence, limit), Sort(evidence, ById);
            && (b == DuplicateIdentifier <==> Repeats(items))
            && (b == BudgetExceeded <==> !Repeats(items) && forall k :: 0 <= k <= 3 ==> !Fits(weigh, items, limit, k))
            && (b.Built? ==>
                  && Accepted(weigh, b.packet) && b.packet.limit == limit
                  && |b.packet.evidence| == |items|
                  && (forall i :: 0 <= i < |items| ==> Trims(items[i], b.packet.evidence[i]))
                  && exists k :: IsFirstFit(weigh, items, limit, k, b.packet))
  {
    hide Count, Sort, ExcerptBytes, Fits;
    var b, items := BuildSpec(weigh, evidence, limit), Sort(evidence, ById);
    var k := FirstFit(weigh, items, limit);
    if k <= 3 {
      CandidateTrims(items, k);
      CandidateDisclosesOnce(items, k);
      CountIsLeast(weigh(Candidate(items, k).0, Candidate(items, k).1));
      FitIsCounted(weigh, items, limit, k);
      if b.Built? { assert IsFirstFit(weigh, items, limit, k, b.packet); }
    }
  }

  lemma FitIsCounted(weigh: Weigh, items: seq<Item>, limit: nat, k: nat)
    requires k <= 3
    ensures Fits(weigh, items, limit, k)
            <==> Count(weigh(Candidate(items, k).0, Candidate(items, k).1)) <= limit
  {
    hide Count, Candidate;
  }

  // ---- A change that nothing discloses ----

  /** The build changed the evidence it was given and says that nothing was omitted. */
  predicate ChangesSilently(weigh: Weigh, evidence: seq<Item>, limit: nat) {
    var b := BuildSpec(weigh, evidence, limit);
    b.Built? && b.packet.omitted == [] && b.packet.evidence != Sort(evidence, ById)
  }

  /** Nothing to drop, no label longer than its identifier, and some label that differs from it. */
  predicate OnlyShortLabels(items: seq<Item>) {
    && (forall i :: 0 <= i < |items| && items[i].tier >= DISCOVERY_AUTHORITY_TIER ==> items[i].excerpt == [])
    && (forall i :: 0 <= i < |items| ==> |items[i].citation| <= |items[i].id|)
    && exists i :: 0 <= i < |items| && items[i].citation != items[i].id
  }

  /** The evidence does not fit as it is, and fits once every label is its identifier. */
  predicate FitsRelabelled(weigh: Weigh, items: seq<Item>, limit: nat) {
    Count(weigh(Relabel(items), [])) <= limit < Count(weigh(items, []))
  }

  /**
   A packet is changed with nothing disclosed exactly when its identifiers are distinct, there
   is no discovery excerpt to drop, no label is longer than its identifier, some label differs
   from it, and replacing the labels is what makes the canonical text fit.
   */
  lemma SilentChange(weigh: Weigh, evidence: seq<Item>, limit: nat)
    ensures var items := Sort(evidence, ById);
            ChangesSilently(weigh, evidence, limit)
            <==> !Repeats(items) && OnlyShortLabels(items) && FitsRelabelled(weigh, items, limit)
  {
    var items := Sort(evidence, ById);
    hide Sort, Repeats;
    if ChangesSilently(weigh, evidence, limit) { SilentMeans(weigh, items, limit); }
    if OnlyShortLabels(items) && FitsRelabelled(weigh, items, limit) { ShortBuilds(weigh, items, limit); }
    hide OnlyShortLabels, FitsRelabelled, BuildSorted;
  }

  lemma SilentMeans(weigh: Weigh, items: seq<Item>, limit: nat)
    requires var b := BuildSorted(weigh, items, limit);
             b.Built? && b.packet.omitted == [] && b.packet.evidence != items
    ensures OnlyShortLabels(items) && FitsRelabelled(weigh, items, limit)
  {
    hide Count, DropDuplicates, DropDiscovery, Relabel, LabelBytesSaved, OnlyShortLabels, Fits, Candidate;
    var k := FirstFit(weigh, items, limit);
    SilentCandidate(items, k);
    ShortLabels(items);
    FitIsCounted(weigh, items, limit, 3);
    FitIsCounted(weigh, items, limit, 0);
    ShortCandidates(items);
  }

  lemma ShortBuilds(weigh: Weigh, items: seq<Item>, limit: nat)
    requires OnlyShortLabels(items) && FitsRelabelled(weigh, items, limit)
    ensures var b := BuildSorted(weigh, items, limit);
            b.Built? && b.packet.omitted == [] && b.packet.evidence == Relabel(items) != items
  {
    hide Count, DropDuplicates, DropDiscovery, Relabel, LabelBytesSaved, OnlyShortLabels, Fits, Candidate;
    ShortLabels(items);
    ShortCandidates(items);
    FitIsCounted(weigh, items, limit, 0);
    FitIsCounted(weigh, items, limit, 1);
    FitIsCounted(weigh, items, limit, 2);
    FitIsCounted(weigh, items, limit, 3);
  }

  lemma ShortLabels(items: seq<Item>)
    ensures OnlyShortLabels(items) <==>
              DropDiscovery(items) == items && LabelBytesSaved(items) == 0 && Relabel(items) != items
  {
    hide LabelBytesSaved;
    NothingSaved(items);
    if DropDiscovery(items) == items {
      forall i | 0 <= i < |items| && items[i].tier >= DISCOVERY_AUTHORITY_TIER ensures items[i].excerpt == [] {
        assert DropDiscovery(items)[i] == items[i];
      }
    }
    if Relabel(items) != items {
      var i :| 0 <= i < |items| && Relabel(items)[i] != items[i];
      assert items[i].citation != items[i].id;
    }
    if i :| 0 <= i < |items| && items[i].citation != items[i].id { assert Relabel(items)[i] != items[i]; }
  }

  lemma {:induction false} NothingSaved(items: seq<Item>)
    ensures LabelBytesSaved(items) == 0 <==> forall i :: 0 <= i < |items| ==> |items[i].citation| <= |items[i].id|
  {
    if items != [] { NothingSaved(items[..|items| - 1]); }
  }

  /** With nothing to drop the candidates differ in their labels only. */
  lemma ShortCandidates(items: seq<Item>)
    requires OnlyShortLabels(items)
    ensures Candidate(items, 0) == Candidate(items, 1) == Candidate(items, 2) == (items, [])
    ensures Candidate(items, 3) == (Relabel(items), [])
  {
    ShortLabels(items);
    assert DropDuplicates(items) == items;
    hide LabelBytesSaved, ExcerptBytes, Relabel, DropDuplicates, DropDiscovery, OnlyShortLabels;
  }

  /** The bytes of one UTF-8 byte's share in ASCII-only JSON text. */
  function EscapedByte(b: nat): nat {
    if b == 34 || b == 92 || b == 8 || b == 9 || b == 10 || b == 12 || b == 13 then 2
    else if b < 32 || b == 127 then 6
    else if b < 127 then 1
    else if b < 0xC0 then 0
    else if b < 0xF0 then 6
    else 12
  }

  function Escaped(w: Word): nat {
    if w == [] then 0 else Escaped(w[..|w| - 1]) + EscapedByte(w[|w| - 1])
  }

  function EscapedTexts(items: seq<Item>): nat {
    if items == [] then 0
    else
      var item := items[|items| - 1];
      EscapedTexts(items[..|items| - 1]) + Escaped(item.id) + Escaped(item.excerpt) + Escaped(item.citation)
  }

  /** A canonical text whose size follows the escaping of its texts. */
  const JsonWeigh: Weigh := (items: seq<Item>, omitted: Omitted) => 100 + EscapedTexts(items) + 40 * |omitted|

  /** One item "e1" whose label is the one letter e with an acute accent: two bytes, escaped as six. */
  const Accented: seq<Item> := [Item([101, 49], 1, [], [195, 169], "")]

  /** Such a change happens: 111 bytes do not fit in 110, and 107 bytes with the label replaced do. */
  lemma SilentChangeHappens()
    ensures ChangesSilently(JsonWeigh, Accented, 110)
    ensures BuildSpec(JsonWeigh, Accented, 110).packet.evidence == [Accented[0].(citation := [101, 49])]
  {
    AccentedIsSorted();
    AccentedIsShort();
    AccentedFits();
    hide OnlyShortLabels, FitsRelabelled, Sort, Repeats, BuildSorted, Relabel;
    ShortBuilds(JsonWeigh, Accented, 110);
  }

  lemma AccentedIsSorted()
    ensures Sort(Accented, ById) == Accented && !Repeats(Accented)
  {
    assert Accented[..0] == [];
  }

  lemma AccentedIsShort()
    ensures OnlyShortLabels(Accented)
    ensures Relabel(Accented) == [Accented[0].(citation := [101, 49])]
  {
    assert Accented[0].citation[0] != Accented[0].id[0];
  }

  lemma AccentedFits()
    ensures FitsRelabelled(JsonWeigh, Accented, 110)
  {
    AccentedIsShort();
    AccentedSizes();
    hide EscapedTexts, Count, Relabel, OnlyShortLabels;
    SizeIs(108, 111);
    SizeIs(104, 107);
  }

  lemma AccentedSizes()
    ensures EscapedTexts(Accented) == 8
    ensures EscapedTexts([Accented[0].(citation := [101, 49])]) == 4
  {
    EscapedPair(101, 49);
    EscapedPair(195, 169);
    assert Accented[..0] == [];
  }

  lemma EscapedPair(a: nat, b: nat)
    ensures Escaped([a, b]) == EscapedByte(a) + EscapedByte(b)
  {
    assert [a, b][..1] == [a] && [a][..0] == [];
    assert Escaped([]) == 0;
    assert Escaped([a]) == EscapedByte(a);
  }

  lemma SizeIs(rest: nat, n: nat)
    requires 100 <= rest && n == rest + 3 && n < 1000
    ensures Count(rest) == n
  {
    CountIsLeast(rest);
    ThreeDigits(n);
    assert CountsItself(rest, n);
    ThreeDigits(Count(rest));
  }

  lemma ThreeDigits(n: nat)
    requires 100 <= n < 1000
    ensures Digits(n) == 3
  {
    assert 10 <= n / 10 < 100 && n / 10 / 10 < 10;
    assert |Decimal(n / 10 / 10)| == 1;
    assert |Decimal(n / 10)| == 2;
  }

  /** A stage that discloses nothing changed nothing, unless it replaced labels. */
  lemma SilentCandidate(items: seq<Item>, k: nat)
    requires k <= 3 && Candidate(items, k).1 == []
    ensures k < 3 ==> Candidate(items, k).0 == items
    ensures k == 3 ==> Candidate(items, k).0 == Relabel(items) && DropDiscovery(items) == items && LabelBytesSaved(items) == 0
  {
    hide LabelBytesSaved, ExcerptBytes, DropDuplicates, DropDiscovery, Relabel, Disclosed, Candidate;
    SilentStages(items, k);
    if k > 0 { StagesOnlyRemove(items); }
    if k > 1 { SilentDiscovery(items); }
  }

  /** What a candidate is when it discloses nothing, stage by stage. */
  lemma SilentStages(items: seq<Item>, k: nat)
    requires k <= 3 && Candidate(items, k).1 == []
    ensures k > 0 ==> DuplicateBytes(items) == 0
    ensures k > 1 && DropDuplicates(items) == items ==> DiscoveryBytes(items) == 0
    ensures k == 0 ==> Candidate(items, k).0 == items
    ensures k == 1 ==> Candidate(items, k).0 == DropDuplicates(items)
    ensures k == 2 ==> Candidate(items, k).0 == DropDiscovery(DropDuplicates(items))
    ensures k == 3 ==> var protected := DropDiscovery(DropDuplicates(items));
                       Candidate(items, k).0 == Relabel(protected) && LabelBytesSaved(protected) == 0
  {
    hide LabelBytesSaved, ExcerptBytes, DropDuplicates, DropDiscovery, Relabel;
    if k > 0 { StagesOnlyRemove(items); }
    if k > 1 { StagesOnlyRemove(DropDuplicates(items)); }
  }

  lemma {:induction false} SilentDiscovery(items: seq<Item>)
    ensures ExcerptBytes(DropDiscovery(items)) == ExcerptBytes(items) ==> DropDiscovery(items) == items
  {
    if items != [] {
      var n := |items| - 1;
      assert DropDiscovery(items)[..n] == DropDiscovery(items[..n]);
      StagesOnlyRemove(items[..n]);
      SilentDiscovery(items[..n]);
      assert items == items[..n] + [items[n]];
      assert DropDiscovery(items) == DropDiscovery(items[..n]) + [DropDiscovery(items)[n]];
    }
  }

  lemma RepeatsIgnoresOrder(a: seq<Item>, b: seq<Item>)
    requires multiset(a) == multiset(b)
    ensures Repeats(a) ==> Repeats(b)
  {
    if !Repeats(b) {
      assert DistinctKeys(b, ById);
      DistinctIsMultiset(b, a, ById);
    }
  }

  /** The result does not depend on the order in which evidence is given. */
  lemma EvidenceOrderDoesNotMatter(weigh: Weigh, a: seq<Item>, b: seq<Item>, limit: nat)
    requires multiset(a) == multiset(b)
    ensures BuildSpec(weigh, a, limit) == BuildSpec(weigh, b, limit)
  {
    hide BuildSorted;
    SortSorts(a, ById);
    SortSorts(b, ById);
    RepeatsIgnoresOrder(Sort(a, ById), Sort(b, ById));
    RepeatsIgnoresOrder(Sort(b, ById), Sort(a, ById));
    if !Repeats(Sort(a, ById)) {
      assert DistinctKeys(Sort(a, ById), ById);
      DistinctIsMultiset(Sort(a, ById), a, ById);
      SortIgnoresOrder(a, b, ById);
    }
  }
}
