/**
 The byte stream behind a skill version: every file's path and content, framed by 64-bit
 big-endian lengths and in path order. The stream can be decoded, so it names one bundle.
 */
module SkillBundle {
  import opened Ordering

  /** A byte. Paths are their UTF-8 bytes. */
  type Byte = b: nat | b < 256

  type Bytes = seq<Byte>

  type File = (Bytes, Bytes)

  datatype Refusal = UnsafePath | DuplicatePath | SkillMissing | TooLong

  datatype Result<+T> = Ok(value: T) | Refused(refusal: Refusal)

  // ---- Paths ----

  const SLASH: Byte := 47
  const DOT: Byte := 46
  const BACKSLASH: Byte := 92
  const COLON: Byte := 58
  /** "SKILL.md" */
  const SKILL: Bytes := [83, 75, 73, 76, 76, 46, 109, 100]

  predicate Letter(b: Byte) {
    65 <= b <= 90 || 97 <= b <= 122
  }

  /** No part between slashes is empty, "." or "..". */
  predicate PartsFit(path: Bytes, part: Bytes) {
    if path == [] then part != [] && part != [DOT] && part != [DOT, DOT]
    else if path[0] == SLASH then
      part != [] && part != [DOT] && part != [DOT, DOT] && PartsFit(path[1..], [])
    else PartsFit(path[1..], part + [path[0]])
  }

  /** `validate_logical_path` */
  predicate SafePath(path: Bytes) {
    && path != []
    && BACKSLASH !in path && 0 !in path
    && !(|path| >= 2 && Letter(path[0]) && path[1] == COLON)
    && PartsFit(path, [])
  }

  // ---- 64-bit lengths ----

  /** The last `k` base-256 digits of `n`, most significant first. */
  function BigEndian(n: nat, k: nat): (r: Bytes)
    ensures |r| == k
  {
    if k == 0 then [] else BigEndian(n / 256, k - 1) + [n % 256]
  }

  function Number(bytes: Bytes): nat {
    if bytes == [] then 0 else 256 * Number(bytes[..|bytes| - 1]) + bytes[|bytes| - 1]
  }

  function Power256(k: nat): nat {
    if k == 0 then 1 else 256 * Power256(k - 1)
  }

  lemma {:induction false} NumberOfBigEndian(n: nat, k: nat)
    requires n < Power256(k)
    ensures Number(BigEndian(n, k)) == n
  {
    if k > 0 {
      NumberOfBigEndian(n / 256, k - 1);
      assert BigEndian(n, k)[..k - 1] == BigEndian(n / 256, k - 1);
    }
  }

  const LIMIT: nat := 0x1_0000_0000_0000_0000

  lemma LimitIsEightBytes()
    ensures Power256(8) == LIMIT
  {
    assert Power256(4) == 0x1_0000_0000;
    assert Power256(8) == 256 * 256 * 256 * 256 * Power256(4);
  }

  // ---- The stream ----

  function Frame(bytes: Bytes): Bytes {
    BigEndian(|bytes|, 8) + bytes
  }

  function FileStream(file: File): Bytes {
    Frame(file.0) + Frame(file.1)
  }

  function Stream(files: seq<File>): Bytes {
    if files == [] then [] else Stream(files[..|files| - 1]) + FileStream(files[|files| - 1])
  }

  /** Lengths that fit their frames. */
  predicate Frameable(files: seq<File>) {
    forall i :: 0 <= i < |files| ==> |files[i].0| < LIMIT && |files[i].1| < LIMIT
  }

  // ---- Decoding ----

  /** The first framed block and the rest of the stream. */
  function Unframe(stream: Bytes): Result<(Bytes, Bytes)> {
    if |stream| < 8 || |stream| - 8 < Number(stream[..8]) then Refused(TooLong)
    else
      var n := Number(stream[..8]);
      Ok((stream[8..8 + n], stream[8 + n..]))
  }

  function Decode(stream: Bytes): Result<seq<File>>
    decreases |stream|
  {
    if stream == [] then Ok([])
    else
      var path := Unframe(stream);
      if path.Refused? then Refused(path.refusal)
      else
        var content := Unframe(path.value.1);
        if content.Refused? then Refused(content.refusal)
        else
          var rest := Decode(content.value.1);
          if rest.Refused? then rest else Ok([(path.value.0, content.value.0)] + rest.value)
  }

  lemma UnframeFrame(bytes: Bytes, rest: Bytes)
    requires |bytes| < LIMIT
    ensures Unframe(Frame(bytes) + rest) == Ok((bytes, rest))
  {
    LimitIsEightBytes();
    NumberOfBigEndian(|bytes|, 8);
    assert (Frame(bytes) + rest)[..8] == BigEndian(|bytes|, 8);
  }

  lemma {:induction false} StreamAppend(files: seq<File>, file: File)
    ensures Stream([file] + files) == FileStream(file) + Stream(files)
  {
    hide FileStream;
    if files == [] {
      assert ([file] + files)[..0] == [];
      assert Stream([]) == [];
    } else {
      var front, last := files[..|files| - 1], files[|files| - 1];
      StreamAppend(front, file);
      assert ([file] + files)[..|files|] == [file] + front;
      assert ([file] + files)[|files|] == last;
      Regroups(FileStream(file), Stream(front), FileStream(last));
    }
  }

  lemma Regroups(a: Bytes, b: Bytes, c: Bytes)
    ensures (a + b) + c == a + (b + c)
  {
  }

  /** Decoding the stream gives back exactly the framed files, in order. */
  lemma {:induction false} DecodeStream(files: seq<File>)
    requires Frameable(files)
    ensures Decode(Stream(files)) == Ok(files)
  {
    if files != [] {
      var file, rest := files[0], files[1..];
      assert files == [file] + rest;
      StreamAppend(rest, file);
      Regroups(Frame(file.0), Frame(file.1), Stream(rest));
      UnframeFrame(file.0, Frame(file.1) + Stream(rest));
      UnframeFrame(file.1, Stream(rest));
      DecodeStream(rest);
      hide Unframe, Stream, Frame;
    }
  }

  // ---- The version ----

  function PathOf(file: File): Word {
    file.0
  }

  ghost predicate UniquePaths(files: seq<File>) {
    DistinctKeys(files, PathOf)
  }

  /** What `compute_skill_version` accepts. */
  ghost predicate ValidFiles(files: seq<File>) {
    && UniquePaths(files)
    && (forall i :: 0 <= i < |files| ==> SafePath(files[i].0))
    && (exists i :: 0 <= i < |files| && files[i].0 == SKILL)
    && Frameable(files)
  }

  /** The digest is an injective function of the stream. */
  datatype Version = Sha256(stream: Bytes)

  function VersionOf(files: seq<File>): Version {
    Sha256(Stream(Sort(files, PathOf)))
  }

  lemma FrameableIgnoresOrder(a: seq<File>, b: seq<File>)
    requires multiset(a) == multiset(b) && Frameable(a)
    ensures Frameable(b)
  {
    forall i | 0 <= i < |b| ensures |b[i].0| < LIMIT && |b[i].1| < LIMIT {
      var k := MemberIndex(a, b[i]);
    }
  }

  /** Two valid bundles have the same version exactly when they hold the same files, in any order. */
  lemma VersionNamesTheBundle(a: seq<File>, b: seq<File>)
    requires ValidFiles(a) && ValidFiles(b)
    ensures VersionOf(a) == VersionOf(b) <==> multiset(a) == multiset(b)
  {
    hide Stream, Decode, Sort, SafePath;
    SortSorts(a, PathOf);
    SortSorts(b, PathOf);
    FrameableIgnoresOrder(a, Sort(a, PathOf));
    FrameableIgnoresOrder(b, Sort(b, PathOf));
    DecodeStream(Sort(a, PathOf));
    DecodeStream(Sort(b, PathOf));
    if multiset(a) == multiset(b) { SortIgnoresOrder(a, b, PathOf); }
  }

  ghost predicate AllSafe(files: seq<File>) {
    forall i :: 0 <= i < |files| ==> SafePath(files[i].0)
  }

  ghost predicate HasSkill(files: seq<File>) {
    exists i :: 0 <= i < |files| && files[i].0 == SKILL
  }

  /** The first loop: every path is safe and new, and the skill itself is there. */
  method ValidatePaths(entries: seq<File>) returns (r: Result<()>)
    ensures r.Ok? <==> AllSafe(entries) && UniquePaths(entries) && HasSkill(entries)
    ensures r == Refused(DuplicatePath) ==> !UniquePaths(entries)
    ensures r == Refused(UnsafePath) ==> !AllSafe(entries)
    ensures r != Refused(TooLong)
  {
    hide SafePath;
    var validated: set<Bytes> := {};
    for i := 0 to |entries|
      invariant forall k :: 0 <= k < i ==> SafePath(entries[k].0)
      invariant forall j, k :: 0 <= j < k < i ==> entries[j].0 != entries[k].0
      invariant forall p :: p in validated <==> exists k :: 0 <= k < i && entries[k].0 == p
    {
      var path := entries[i].0;
      if !SafePath(path) {
        return Refused(UnsafePath);
      }
      if path in validated {
        ghost var k :| 0 <= k < i && entries[k].0 == path;
        assert PathOf(entries[k]) == PathOf(entries[i]);
        return Refused(DuplicatePath);
      }
      validated := validated + {path};
    }
    r := if SKILL in validated then Ok(()) else Refused(SkillMissing);
  }

  lemma PrefixStream(files: seq<File>, i: nat)
    requires i < |files|
    ensures Stream(files[..i + 1]) == Stream(files[..i]) + FileStream(files[i])
    ensures Frameable(files[..i + 1]) <==>
              Frameable(files[..i]) && |files[i].0| < LIMIT && |files[i].1| < LIMIT
  {
    assert files[..i + 1] == files[..i] + [files[i]];
  }

  /** The second loop: a length does not always fit its eight bytes. */
  method FeedDigest(files: seq<File>) returns (r: Result<Bytes>)
    ensures r.Ok? <==> Frameable(files)
    ensures r == if r.Ok? then Ok(Stream(files)) else Refused(TooLong)
  {
    hide Stream, BigEndian;
    var stream: Bytes := [];
    assert Stream([]) == [] by { EmptyStream(); }
    for i := 0 to |files|
      invariant stream == Stream(files[..i])
      invariant Frameable(files[..i])
    {
      var (path, content) := files[i];
      PrefixStream(files, i);
      if |path| >= LIMIT || |content| >= LIMIT {
        return Refused(TooLong);
      }
      stream := stream + BigEndian(|path|, 8) + path;
      stream := stream + BigEndian(|content|, 8) + content;
      assert stream == Stream(files[..i]) + FileStream(files[i]);
    }
    assert files[..|files|] == files;
    r := Ok(stream);
  }

  lemma EmptyStream()
    ensures Stream([]) == []
  {
  }

  /** `compute_skill_version`: validate entry by entry, then feed the digest file by file. */
  method ComputeSkillVersion(entries: seq<File>) returns (r: Result<Version>)
    ensures r.Ok? <==> ValidFiles(entries)
    ensures r.Ok? ==> r.value == VersionOf(entries)
    ensures r == Refused(DuplicatePath) ==> !UniquePaths(entries)
    ensures r == Refused(UnsafePath) ==> !AllSafe(entries)
    ensures r == Refused(TooLong) ==> !Frameable(entries)
  {
    hide SafePath, Stream, UniquePaths, Sort, Frameable;
    var valid := ValidatePaths(entries);
    if valid.Refused? {
      return Refused(valid.refusal);
    }
    var sorted := Sort(entries, PathOf);
    SortSorts(entries, PathOf);
    var stream := FeedDigest(sorted);
    if stream.Refused? {
      if Frameable(entries) { FrameableIgnoresOrder(entries, sorted); }
      return Refused(stream.refusal);
    }
    FrameableIgnoresOrder(sorted, entries);
    r := Ok(Sha256(stream.value));
  }
}
