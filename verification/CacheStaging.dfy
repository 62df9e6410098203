/**
 The byte accounting of `Materialize`: download, extract, write the manifest, publish.

 `CacheDirectory` counts the bytes below the cache directory and remembers the highest
 count it ever saw, so that a bound on `peak` is a bound at every single write. What the
 network, the zip reader and the file system do is input: every write says how many of
 its bytes were accepted, and every fallible call says whether it failed.
 */
module CacheStaging {
  import opened Numbers

  newtype uint64 = x: int | 0 <= x < 0x1_0000_0000_0000_0000

  class CacheDirectory {
    var used: nat
    ghost var peak: nat

    constructor (used: nat)
      ensures this.used == used == peak
    {
      this.used, peak := used, used;
    }

    method Grow(n: nat)
      modifies this
      ensures used == old(used) + n && peak == Max(old(peak), used)
    {
      used := used + n;
      peak := Max(peak, used);
    }

    method Shrink(n: nat)
      requires n <= used
      modifies this
      ensures used == old(used) - n && peak == old(peak)
    {
      used := used - n;
    }
  }

  /** One call of `Write`: the bytes offered, and how many of them the file takes. */
  datatype Chunk = Chunk(size: nat, accepted: nat)

  predicate Sound(chunks: seq<Chunk>) {
    forall i | 0 <= i < |chunks| :: chunks[i].accepted <= chunks[i].size
  }

  predicate Complete(chunks: seq<Chunk>) {
    forall i | 0 <= i < |chunks| :: chunks[i].accepted == chunks[i].size
  }

  function TotalSize(chunks: seq<Chunk>): nat {
    if chunks == [] then 0 else TotalSize(chunks[..|chunks| - 1]) + chunks[|chunks| - 1].size
  }

  lemma {:induction false} TotalSizeOfPrefix(chunks: seq<Chunk>, n: nat)
    requires n <= |chunks|
    ensures TotalSize(chunks[..n]) <= TotalSize(chunks)
  {
    if n < |chunks| {
      assert chunks[..|chunks| - 1][..n] == chunks[..n];
      TotalSizeOfPrefix(chunks[..|chunks| - 1], n);
    } else {
      assert chunks[..n] == chunks;
    }
  }

  class BoundedWriter {
    const dir: CacheDirectory
    var left: int
    var exceeded: bool

    constructor (dir: CacheDirectory, left: int)
      ensures this.dir == dir && this.left == left && !exceeded
    {
      this.dir, this.left, exceeded := dir, left, false;
    }

    /** A write that does not fit is refused as a whole; otherwise the budget shrinks by what was accepted. */
    method Write(c: Chunk) returns (n: nat, ok: bool)
      requires c.accepted <= c.size && 0 <= left && dir.used <= dir.peak
      modifies this, dir
      ensures 0 <= left && left == old(left) - n
      ensures if c.size > old(left) then n == 0 && !ok && exceeded
              else n == c.accepted && ok && exceeded == old(exceeded)
      ensures dir.used == old(dir.used) + n
      ensures dir.peak == if n == 0 then old(dir.peak) else Max(old(dir.peak), dir.used)
    {
      if c.size > left {
        exceeded := true;
        return 0, false;
      }
      dir.Grow(c.accepted);
      left := left - c.accepted;
      n, ok := c.accepted, true;
    }
  }

  /******* Extraction *******/

  /** One archive entry: what its header says, and what happens when it is unpacked. */
  datatype Member = Member(
    safeName: bool, folded: string, isDir: bool, declared: uint64,
    chunks: seq<Chunk>, broken: bool, canceled: bool)

  predicate Wellformed(members: seq<Member>) {
    forall i | 0 <= i < |members| :: Sound(members[i].chunks)
  }

  function TotalDeclared(members: seq<Member>): nat {
    if members == [] then 0
    else TotalDeclared(members[..|members| - 1]) + members[|members| - 1].declared as int
  }

  /** The bytes of the files among the entries; directories contribute nothing. */
  function TotalFiles(members: seq<Member>): nat {
    if members == [] then 0
    else TotalFiles(members[..|members| - 1]) + FileSize(members[|members| - 1])
  }

  function FileSize(m: Member): nat {
    if m.isDir then 0 else m.declared as int
  }

  /** The header checks of the whole archive. */
  predicate Admissible(members: seq<Member>, limit: nat, maxFiles: nat) {
    && |members| <= maxFiles
    && (forall i | 0 <= i < |members| :: members[i].safeName)
    && (forall i, j | 0 <= i < j < |members| :: members[i].folded != members[j].folded)
    && TotalDeclared(members) <= limit
  }

  /** The entry unpacks without a fault into exactly the bytes that its header declares. */
  predicate Delivers(m: Member) {
    !m.canceled && !m.broken && (m.isDir || (Complete(m.chunks) && TotalSize(m.chunks) == m.declared as int))
  }

  lemma {:induction false} DeclaredOfPrefix(members: seq<Member>, n: nat)
    requires n <= |members|
    ensures TotalDeclared(members[..n]) <= TotalDeclared(members)
    ensures TotalFiles(members[..n]) <= TotalDeclared(members[..n])
  {
    if n < |members| {
      assert members[..|members| - 1][..n] == members[..n];
      DeclaredOfPrefix(members[..|members| - 1], n);
    } else if n > 0 {
      assert members[..n] == members;
      DeclaredOfPrefix(members[..n - 1], n - 1);
      assert members[..n - 1][..n - 1] == members[..n - 1];
    }
  }

  /** The first loop of `extract`. The types of `total` and of its operands rule out any wrap-around. */
  method CheckHeaders(members: seq<Member>, limit: nat, maxFiles: nat) returns (ok: bool)
    requires limit < 0x1_0000_0000_0000_0000
    ensures ok <==> Admissible(members, limit, maxFiles)
  {
    if |members| > maxFiles {
      return false;
    }
    var names: set<string> := {};
    var total: uint64 := 0;
    for i := 0 to |members|
      invariant names == set j | 0 <= j < i :: members[j].folded
      invariant forall j | 0 <= j < i :: members[j].safeName
      invariant forall j, k | 0 <= j < k < i :: members[j].folded != members[k].folded
      invariant total as int == TotalDeclared(members[..i]) <= limit
    {
      var f := members[i];
      assert members[..i + 1][..i] == members[..i];
      DeclaredOfPrefix(members, i + 1);
      if !f.safeName || f.folded in names {
        return false;
      }
      names := names + {f.folded};
      if f.declared > limit as uint64 - total {
        return false;
      }
      total := total + f.declared;
    }
    assert members[..|members|] == members;
    ok := true;
  }

  /** `io.Copy` into a bounded writer: stops at the first refused or short write. */
  method Copy(dir: CacheDirectory, chunks: seq<Chunk>, limit: nat) returns (n: nat, ok: bool)
    requires Sound(chunks) && dir.used <= dir.peak
    modifies dir
    ensures n <= limit && dir.used == old(dir.used) + n && dir.used <= dir.peak <= Max(old(dir.peak), dir.used)
    ensures ok <==> Complete(chunks) && TotalSize(chunks) <= limit
    ensures ok ==> n == TotalSize(chunks)
  {
    var writer := new BoundedWriter(dir, limit);
    n := 0;
    for i := 0 to |chunks|
      invariant n == TotalSize(chunks[..i]) && Complete(chunks[..i])
      invariant 0 <= writer.left == limit - n && writer.dir == dir
      invariant dir.used == old(dir.used) + n && dir.used <= dir.peak <= Max(old(dir.peak), dir.used)
    {
      assert chunks[..i + 1][..i] == chunks[..i];
      TotalSizeOfPrefix(chunks, i + 1);
      var accepted, fits := writer.Write(chunks[i]);
      n := n + accepted;
      if !fits || accepted < chunks[i].size {
        return n, false;
      }
    }
    assert chunks[..|chunks|] == chunks;
    ok := true;
  }

  /**
   Extraction succeeds exactly when the headers are admissible and every entry delivers what
   it declares. It never writes more than `limit` bytes, and on success the files add up to
   the declared sizes.
   */
  method Extract(dir: CacheDirectory, members: seq<Member>, limit: nat, maxFiles: nat) returns (ok: bool)
    requires Wellformed(members) && limit < 0x1_0000_0000_0000_0000 && dir.used <= dir.peak
    modifies dir
    ensures ok <==> Admissible(members, limit, maxFiles) && forall i | 0 <= i < |members| :: Delivers(members[i])
    ensures old(dir.used) <= dir.used <= old(dir.used) + limit
    ensures dir.used <= dir.peak <= Max(old(dir.peak), dir.used)
    ensures ok ==> dir.used == old(dir.used) + TotalFiles(members)
  {
    var admissible := CheckHeaders(members, limit, maxFiles);
    if !admissible {
      return false;
    }
    var rest := limit;
    for i := 0 to |members|
      invariant forall j | 0 <= j < i :: Delivers(members[j])
      invariant rest == limit - TotalFiles(members[..i])
      invariant dir.used == old(dir.used) + TotalFiles(members[..i]) && TotalFiles(members[..i]) <= limit
      invariant dir.used <= dir.peak <= Max(old(dir.peak), dir.used)
    {
      var f := members[i];
      assert members[..i + 1][..i] == members[..i];
      DeclaredOfPrefix(members, i + 1);
      DeclaredOfPrefix(members, i);
      if f.canceled || f.broken {
        return false;
      }
      if !f.isDir {
        var n, copied := Copy(dir, f.chunks, rest);
        if !copied || n != f.declared as int {
          return false;
        }
        rest := rest - n;
      }
    }
    assert members[..|members|] == members;
    ok := true;
  }

  /******* Staging and publishing *******/

  datatype Config = Config(maxArchive: nat, maxExpanded: nat, maxFiles: nat, maxCache: nat)

  /** The limits that `NewSkillCache` accepts. */
  predicate ValidConfig(c: Config) {
    && 1 <= c.maxArchive <= 0x4000_0000 && 1 <= c.maxExpanded <= 0x1_0000_0000
    && 1 <= c.maxFiles <= 100000 && 1 <= c.maxCache
  }

  /** Everything one staging attempt meets outside, in order. */
  datatype Attempt = Attempt(
    stageFails: bool,
    download: seq<Chunk>, downloadFails: bool,
    zipInvalid: bool, members: seq<Member>,
    documentInvalid: bool, manifestFails: bool, manifest: Chunk,
    closingFails: bool, canceled: bool, renameFails: bool)

  predicate Faultless(a: Attempt) {
    && !a.stageFails && !a.downloadFails && !a.zipInvalid && !a.documentInvalid && !a.manifestFails
    && !a.closingFails && !a.canceled && !a.renameFails
    && Complete(a.download) && a.manifest.accepted == a.manifest.size
    && forall i | 0 <= i < |a.members| :: Delivers(a.members[i])
  }

  /** The archive, its expansion and the manifest fit side by side on top of the bytes in use. */
  predicate Fits(c: Config, used: nat, a: Attempt) {
    var archive := TotalSize(a.download);
    && archive <= c.maxArchive
    && Admissible(a.members, c.maxExpanded, c.maxFiles)
    && used + archive < c.maxCache
    && used + archive + TotalDeclared(a.members) <= c.maxCache
    && used + archive + TotalFiles(a.members) + a.manifest.size <= c.maxCache
  }

  /** `source.Download`: any sequence of writes, whatever the earlier ones returned. */
  method Download(dir: CacheDirectory, chunks: seq<Chunk>, budget: nat) returns (n: nat, exceeded: bool)
    requires Sound(chunks) && dir.used <= dir.peak
    modifies dir
    ensures n <= budget && dir.used == old(dir.used) + n
    ensures dir.used <= dir.peak <= Max(old(dir.peak), dir.used)
    ensures Complete(chunks) ==> (!exceeded <==> TotalSize(chunks) <= budget)
    ensures Complete(chunks) && !exceeded ==> n == TotalSize(chunks)
  {
    var writer := new BoundedWriter(dir, budget);
    n := 0;
    for i := 0 to |chunks|
      invariant 0 <= writer.left == budget - n && writer.dir == dir
      invariant dir.used == old(dir.used) + n && dir.used <= dir.peak <= Max(old(dir.peak), dir.used)
      invariant Complete(chunks) && !writer.exceeded ==> n == TotalSize(chunks[..i])
      invariant Complete(chunks) && writer.exceeded ==> TotalSize(chunks) > budget
    {
      assert chunks[..i + 1][..i] == chunks[..i];
      TotalSizeOfPrefix(chunks, i + 1);
      var accepted, ok := writer.Write(chunks[i]);
      n := n + accepted;
    }
    assert chunks[..|chunks|] == chunks;
    exceeded := writer.exceeded;
  }

  /** The walk of `manifest`: its own limits never reject what `Extract` has let through. */
  method ManifestSize(c: Config, members: seq<Member>) returns (size: nat, ok: bool)
    requires |members| <= c.maxFiles && TotalDeclared(members) <= c.maxExpanded
    ensures ok && size == TotalFiles(members)
  {
    size := 0;
    var files := 0;
    for i := 0 to |members|
      invariant size == TotalFiles(members[..i]) && files <= i
    {
      assert members[..i + 1][..i] == members[..i];
      DeclaredOfPrefix(members, i + 1);
      if !members[i].isDir {
        size := size + members[i].declared as int;
        if size > c.maxExpanded || files >= c.maxFiles {
          return size, false;
        }
        files := files + 1;
      }
    }
    assert members[..|members|] == members;
    ok := true;
  }

  datatype Outcome = Rejected | Published

  /**
   One staging attempt. Whatever happens, the directory never holds more than `maxCache` bytes
   unless it already did; a failure gives back every staged byte; and an attempt without faults
   is published exactly if it fits.
   */
  method Stage(c: Config, dir: CacheDirectory, a: Attempt) returns (outcome: Outcome)
    requires ValidConfig(c) && Sound(a.download) && Wellformed(a.members) && a.manifest.accepted <= a.manifest.size
    requires dir.used <= dir.peak
    modifies dir
    ensures dir.used <= dir.peak <= Max(old(dir.peak), c.maxCache)
    ensures outcome.Rejected? ==> dir.used == old(dir.used)
    ensures outcome.Published? ==>
              dir.used == old(dir.used) + TotalFiles(a.members) + a.manifest.size && dir.used <= c.maxCache
    ensures Faultless(a) ==> (outcome.Published? <==> Fits(c, old(dir.used), a))
    ensures outcome.Published? ==> Admissible(a.members, c.maxExpanded, c.maxFiles)
  {
    var used := dir.used;
    var available := c.maxCache - used;
    if a.stageFails || available <= 0 {
      return Rejected;
    }
    outcome := StageArchive(c, dir, used, a);
    if outcome.Rejected? {
      dir.Shrink(dir.used - used);
    }
  }

  /** The part of `Stage` that leaves cleaning up after a failure to its caller. */
  method StageArchive(c: Config, dir: CacheDirectory, used: nat, a: Attempt) returns (outcome: Outcome)
    requires ValidConfig(c) && Sound(a.download) && Wellformed(a.members) && a.manifest.accepted <= a.manifest.size
    requires dir.used == used < c.maxCache && used <= dir.peak && !a.stageFails
    modifies dir
    ensures used <= dir.used <= dir.peak <= Max(old(dir.peak), c.maxCache)
    ensures outcome.Published? ==>
              dir.used == used + TotalFiles(a.members) + a.manifest.size && dir.used <= c.maxCache
    ensures Faultless(a) ==> (outcome.Published? <==> Fits(c, used, a))
    ensures outcome.Published? ==> Admissible(a.members, c.maxExpanded, c.maxFiles)
  {
    var available := c.maxCache - used;
    DeclaredOfPrefix(a.members, |a.members|);
    assert a.members[..|a.members|] == a.members;
    var archive, exceeded := Download(dir, a.download, Min(c.maxArchive, available));
    if exceeded || a.downloadFails || a.zipInvalid {
      return Rejected;
    }
    var limit := Min(c.maxExpanded, available - archive);
    if limit <= 0 {
      return Rejected;
    }
    var extracted := Extract(dir, a.members, limit, c.maxFiles);
    if !extracted || a.documentInvalid || a.manifestFails {
      return Rejected;
    }
    var size, counted := ManifestSize(c, a.members);
    if !counted || a.manifest.size + used + archive + size > c.maxCache {
      return Rejected;
    }
    dir.Grow(a.manifest.accepted);
    if a.manifest.accepted < a.manifest.size || a.closingFails {
      return Rejected;
    }
    dir.Shrink(archive);
    if a.canceled || a.renameFails {
      return Rejected;
    }
    outcome := Published;
  }

  /******* Loading what was published *******/

  /** What `manifest.json` records: a hash for every file, and the sum of their sizes. */
  datatype Manifest = Manifest(files: map<string, string>, size: nat)

  /** The comparison in `loadCached` accepts a directory exactly if it still has the recorded manifest. */
  method SameManifest(expected: Manifest, actual: Manifest) returns (same: bool)
    requires "" !in actual.files.Values    // a hash is never empty
    ensures same <==> expected == actual
  {
    if expected.size != actual.size || |expected.files| != |actual.files| {
      return false;
    }
    var seen: set<string> := {};
    while seen != actual.files.Keys
      invariant seen <= actual.files.Keys
      invariant forall p <- seen :: p in expected.files && expected.files[p] == actual.files[p]
      decreases actual.files.Keys - seen
    {
      var rest := actual.files.Keys - seen;
      assert seen + rest == actual.files.Keys;
      var p: string :| p in rest;
      var recorded := if p in expected.files then expected.files[p] else "";
      if recorded != actual.files[p] {
        return false;
      }
      seen := seen + {p};
    }
    SubsetOfSameSize(actual.files.Keys, expected.files.Keys);
    same := true;
  }

  lemma {:induction false} SubsetOfSameSize<T>(a: set<T>, b: set<T>)
    requires a <= b && |a| == |b|
    ensures a == b
  {
    assert b == a + (b - a);
    assert |b| == |a| + |b - a|;
  }
}
