/**
 The skill registry and the pin counts of the skill cache, one operation at a time.

 A refresh discovers metadata from local directories and remote sources and then either
 publishes a complete new generation or leaves everything as it was. Discovery itself
 (the file system, the network, cancellation) is an input of the operation. The SHA-256
 cache key is represented by the pair it hashes, so that it is injective.
 */
module SkillRegistry {
  import opened Options
  import opened Text

  datatype RemoteSkill = RemoteSkill(
    name: string, description: string, id: string, version: string, bucket: string, objectKey: string)

  datatype LocalSkill = LocalSkill(name: string, description: string, path: string)

  datatype Key = CacheKey(source: string, skill: RemoteSkill)

  datatype Entry = Local(skill: LocalSkill) | Remote(source: string, remote: RemoteSkill) {
    function Name(): string {
      match this
      case Local(skill) => skill.name
      case Remote(_, remote) => remote.name
    }
  }

  type Entries = map<string, Entry>

  /** Every entry is stored under its own name. */
  predicate WellNamed(entries: Entries) {
    forall n <- entries :: entries[n].Name() == n
  }

  /** The cache keys that a generation or snapshot with these entries has to keep pinned. */
  function KeysOf(entries: Entries): set<Key> {
    set n | n in entries && entries[n].Remote? :: CacheKey(entries[n].source, entries[n].remote)
  }

  /******* Pin counts *******/

  type Pins = map<Key, int>

  function CountOf(pins: Pins, k: Key): int {
    if k in pins then pins[k] else 0
  }

  /** Only positive counts are stored. */
  predicate Positive(pins: Pins) {
    forall k <- pins :: pins[k] > 0
  }

  function Pinned(pins: Pins, k: Key): Pins {
    pins[k := CountOf(pins, k) + 1]
  }

  function Unpinned(pins: Pins, k: Key): Pins {
    if CountOf(pins, k) == 1 then pins - {k} else pins[k := CountOf(pins, k) - 1]
  }

  function One(b: bool): int {
    if b then 1 else 0
  }

  class SkillCache {
    var pins: Pins

    constructor ()
      ensures pins == map[]
    {
      pins := map[];
    }

    method Pin(k: Key)
      modifies this
      ensures pins == Pinned(old(pins), k)
    {
      pins := pins[k := (if k in pins then pins[k] else 0) + 1];
    }

    method Unpin(k: Key)
      modifies this
      ensures pins == Unpinned(old(pins), k)
    {
      pins := pins[k := (if k in pins then pins[k] else 0) - 1];
      if pins[k] == 0 {
        pins := pins - {k};
      }
    }

    /** The loop `for _, e := range entries` that pins every remote entry. */
    method PinAll(entries: Entries)
      requires WellNamed(entries)
      modifies this
      ensures forall k :: CountOf(pins, k) == CountOf(old(pins), k) + One(k in KeysOf(entries))
      ensures Positive(old(pins)) ==> Positive(pins)
    {
      var seen: Entries := map[];
      assert KeysOf(seen) == {};
      hide KeysOf;
      while seen.Keys != entries.Keys
        invariant seen.Keys <= entries.Keys && forall n <- seen :: seen[n] == entries[n]
        invariant forall k :: CountOf(pins, k) == CountOf(old(pins), k) + One(k in KeysOf(seen))
        invariant Positive(old(pins)) ==> Positive(pins)
        decreases entries.Keys - seen.Keys
      {
        var rest := entries.Keys - seen.Keys;
        assert seen.Keys + rest == entries.Keys;
        var n: string :| n in rest;   // the iteration order of a Go map is arbitrary
        KeysAfter(entries, seen, n);
        if entries[n].Remote? {
          Pin(CacheKey(entries[n].source, entries[n].remote));
        }
        ghost var before := seen.Keys;
        seen := seen[n := entries[n]];
        assert n !in before && seen.Keys == before + {n};
      }
      assert seen == entries;
    }

    /** The loop that unpins every remote entry. */
    method UnpinAll(entries: Entries)
      requires WellNamed(entries) && Positive(pins) && forall k <- KeysOf(entries) :: CountOf(pins, k) > 0
      modifies this
      ensures forall k :: CountOf(pins, k) == CountOf(old(pins), k) - One(k in KeysOf(entries))
      ensures Positive(pins)
    {
      var seen: Entries := map[];
      assert KeysOf(seen) == {};
      hide KeysOf;
      while seen.Keys != entries.Keys
        invariant seen.Keys <= entries.Keys && forall n <- seen :: seen[n] == entries[n]
        invariant forall k :: CountOf(pins, k) == CountOf(old(pins), k) - One(k in KeysOf(seen))
        invariant Positive(pins)
        decreases entries.Keys - seen.Keys
      {
        var rest := entries.Keys - seen.Keys;
        assert seen.Keys + rest == entries.Keys;
        var n: string :| n in rest;   // the iteration order of a Go map is arbitrary
        KeysAfter(entries, seen, n);
        if entries[n].Remote? {
          Unpin(CacheKey(entries[n].source, entries[n].remote));
        }
        ghost var before := seen.Keys;
        seen := seen[n := entries[n]];
        assert n !in before && seen.Keys == before + {n};
      }
      assert seen == entries;
    }
  }

  lemma KeysAfter(entries: Entries, seen: Entries, n: string)
    requires WellNamed(entries) && n in entries && n !in seen
    requires seen.Keys <= entries.Keys && forall m <- seen :: seen[m] == entries[m]
    ensures var k := if entries[n].Remote? then {CacheKey(entries[n].source, entries[n].remote)} else {};
            KeysOf(seen[n := entries[n]]) == KeysOf(seen) + k && k !! KeysOf(seen) && k <= KeysOf(entries)
  {
    var seen' := seen[n := entries[n]];
    var k := if entries[n].Remote? then {CacheKey(entries[n].source, entries[n].remote)} else {};
    forall x ensures x in KeysOf(seen') <==> x in KeysOf(seen) + k {
      if x in KeysOf(seen) {
        var m :| m in seen && seen[m].Remote? && x == CacheKey(seen[m].source, seen[m].remote);
        assert m in seen' && seen'[m] == seen[m];
      } else if x in k {
        assert n in seen' && seen'[n] == entries[n];
      }
    }
    assert forall x <- KeysOf(seen) :: x.skill.name in seen;
  }

  /******* Metadata and the first-wins merge *******/

  predicate NameChar(c: char) {
    'a' <= c <= 'z' || '0' <= c <= '9'
  }

  /** The names matched by `^[a-z0-9]+(-[a-z0-9]+)*$`. */
  predicate ValidName(s: string) {
    && s != "" && NameChar(s[0]) && NameChar(s[|s| - 1])
    && (forall i | 0 <= i < |s| :: NameChar(s[i]) || s[i] == '-')
    && (forall i | 1 <= i < |s| :: s[i] == '-' ==> s[i - 1] != '-')
  }

  predicate ValidRemote(d: RemoteSkill) {
    && ValidName(d.name) && ByteLength(d.name) <= 64 && ByteLength(d.description) <= 1024
    && ByteLength(d.id) <= 4096 && ByteLength(d.version) <= 4096
    && ByteLength(d.objectKey) <= 8192 && ByteLength(d.bucket) <= 255
  }

  predicate GoodListing(list: seq<RemoteSkill>) {
    && (forall i | 0 <= i < |list| :: ValidRemote(list[i]))
    && (forall i, j | 0 <= i < j < |list| :: list[i].name != list[j].name)
  }

  method CheckListing(list: seq<RemoteSkill>) returns (good: bool)
    ensures good <==> GoodListing(list)
  {
    var seen: set<string> := {};
    for n := 0 to |list|
      invariant seen == set i | 0 <= i < n :: list[i].name
      invariant GoodListing(list[..n])
    {
      if !ValidRemote(list[n]) || list[n].name in seen {
        return false;
      }
      seen := seen + {list[n].name};
    }
    assert list[..|list|] == list;
    good := true;
  }

  /** The generation that results when every name goes to the first entry that claims it. */
  function FirstWins(offers: seq<Entry>): Entries {
    if offers == [] then map[] else Claimed(FirstWins(offers[..|offers| - 1]), offers[|offers| - 1])
  }

  function Claimed(entries: Entries, e: Entry): Entries {
    if e.Name() in entries then entries else entries[e.Name() := e]
  }

  lemma FirstWinsSnoc(offers: seq<Entry>, e: Entry)
    ensures FirstWins(offers + [e]) == Claimed(FirstWins(offers), e)
  {
    assert (offers + [e])[..|offers|] == offers;
  }

  ghost predicate IsFirst(offers: seq<Entry>, i: int) {
    0 <= i < |offers| && forall j | 0 <= j < i :: offers[j].Name() != offers[i].Name()
  }

  lemma {:induction false} EveryOfferIsClaimed(offers: seq<Entry>, j: nat)
    requires j < |offers|
    ensures offers[j].Name() in FirstWins(offers)
  {
    if j < |offers| - 1 {
      EveryOfferIsClaimed(offers[..|offers| - 1], j);
    }
  }

  lemma {:induction false} Winner(offers: seq<Entry>, n: string) returns (i: int)
    requires n in FirstWins(offers)
    ensures IsFirst(offers, i) && offers[i].Name() == n && FirstWins(offers)[n] == offers[i]
  {
    var front, last := offers[..|offers| - 1], |offers| - 1;
    if n in FirstWins(front) {
      i := Winner(front, n);
    } else {
      i := last;
      forall j | 0 <= j < last ensures offers[j].Name() != n {
        EveryOfferIsClaimed(front, j);
      }
    }
  }

  /** A name is merged if some offer has it, and then it stands for the first offer that does. */
  lemma FirstWinsExactly(offers: seq<Entry>, n: string)
    ensures n in FirstWins(offers) <==> exists j :: 0 <= j < |offers| && offers[j].Name() == n
    ensures forall i :: IsFirst(offers, i) && offers[i].Name() == n ==>
              n in FirstWins(offers) && FirstWins(offers)[n] == offers[i]
  {
    forall j | 0 <= j < |offers| && offers[j].Name() == n ensures n in FirstWins(offers) {
      EveryOfferIsClaimed(offers, j);
    }
    if n in FirstWins(offers) {
      var w := Winner(offers, n);
      forall i | IsFirst(offers, i) && offers[i].Name() == n ensures i == w {
        assert !(w < i) && !(i < w);
      }
    }
  }

  lemma MergeIsWellNamed(offers: seq<Entry>)
    ensures WellNamed(FirstWins(offers))
  {
    forall n <- FirstWins(offers) ensures FirstWins(offers)[n].Name() == n {
      var w := Winner(offers, n);
    }
  }

  /** The loop `if _, ok := next[name]; !ok { next[name] = entry }`. */
  method Merge(entries: Entries, offers: seq<Entry>, ghost before: seq<Entry>) returns (next: Entries)
    requires entries == FirstWins(before)
    ensures next == FirstWins(before + offers)
  {
    hide FirstWins;
    next := entries;
    assert before + offers[..0] == before;
    for n := 0 to |offers|
      invariant next == FirstWins(before + offers[..n])
    {
      FirstWinsSnoc(before + offers[..n], offers[n]);
      assert before + offers[..n + 1] == before + offers[..n] + [offers[n]];
      if offers[n].Name() !in next {
        next := next[offers[n].Name() := offers[n]];
      }
    }
    assert offers[..|offers|] == offers;
  }

  /******* A refresh as a transaction *******/

  datatype Binding = Binding(id: string, optional: bool)

  datatype LocalListing = Broken | Listed(skills: seq<LocalSkill>)

  /** What one source answers: a listing or an error, and whether the context has been canceled by then. */
  datatype Discovery = Discovery(listing: Option<seq<RemoteSkill>>, canceled: bool) {
    predicate Good() {
      listing.Some? && GoodListing(listing.value)
    }
  }

  /** Everything a refresh learns from outside, in the order in which it asks. */
  datatype Input = Input(
    gateCanceled: bool, locals: seq<LocalListing>, found: seq<Discovery>, canceledAtEnd: bool)

  type Listings = map<string, seq<RemoteSkill>>

  /** The fields of a registry. */
  datatype Store = Store(entries: Entries, previous: Listings)

  predicate DistinctIds(bindings: seq<Binding>) {
    && (forall i | 0 <= i < |bindings| :: bindings[i].id != "")
    && (forall i, j | 0 <= i < j < |bindings| :: bindings[i].id != bindings[j].id)
  }

  /** A refresh commits if it is never canceled, every directory is readable and every required source is good. */
  predicate Commits(bindings: seq<Binding>, input: Input)
    requires |input.found| == |bindings|
  {
    && !input.gateCanceled && !input.canceledAtEnd
    && (forall i | 0 <= i < |input.locals| :: input.locals[i].Listed?)
    && (forall i | 0 <= i < |bindings| ::
          !input.found[i].canceled && (input.found[i].Good() || bindings[i].optional))
  }

  /** The listing that a source contributes: its own if good, otherwise the previous one. */
  function Contribution(b: Binding, previous: Listings, d: Discovery): seq<RemoteSkill> {
    if d.Good() then d.listing.value else if b.id in previous then previous[b.id] else []
  }

  function LocalEntries(skills: seq<LocalSkill>): seq<Entry> {
    seq(|skills|, i requires 0 <= i < |skills| => Local(skills[i]))
  }

  function RemoteEntries(id: string, list: seq<RemoteSkill>): seq<Entry> {
    seq(|list|, i requires 0 <= i < |list| => Remote(id, list[i]))
  }

  /** All local skills, directory after directory. */
  function LocalOffers(locals: seq<LocalListing>): seq<Entry>
    requires forall i | 0 <= i < |locals| :: locals[i].Listed?
  {
    if locals == [] then [] else LocalOffers(locals[..|locals| - 1]) + LocalEntries(locals[|locals| - 1].skills)
  }

  /** The contributions of the first `n` sources, in configured order. */
  function RemoteOffers(bindings: seq<Binding>, previous: Listings, found: seq<Discovery>, n: nat): seq<Entry>
    requires n <= |bindings| == |found|
  {
    if n == 0 then []
    else RemoteOffers(bindings, previous, found, n - 1)
         + RemoteEntries(bindings[n - 1].id, Contribution(bindings[n - 1], previous, found[n - 1]))
  }

  function KeptListings(bindings: seq<Binding>, previous: Listings, found: seq<Discovery>, n: nat): Listings
    requires n <= |bindings| == |found|
  {
    if n == 0 then map[]
    else KeptListings(bindings, previous, found, n - 1)
         [bindings[n - 1].id := Contribution(bindings[n - 1], previous, found[n - 1])]
  }

  /** The sources whose failure a committed refresh reports. */
  function Issues(bindings: seq<Binding>, found: seq<Discovery>, n: nat): seq<string>
    requires n <= |bindings| == |found|
  {
    if n == 0 then []
    else Issues(bindings, found, n - 1) + (if found[n - 1].Good() then [] else [bindings[n - 1].id])
  }

  function Refreshed(bindings: seq<Binding>, store: Store, input: Input): Store
    requires |input.found| == |bindings|
  {
    if !Commits(bindings, input) then store
    else Store(
        FirstWins(LocalOffers(input.locals) + RemoteOffers(bindings, store.previous, input.found, |bindings|)),
        KeptListings(bindings, store.previous, input.found, |bindings|))
  }

  datatype Outcome = Failed | Committed(issues: seq<string>)

  method MergeLocals(locals: seq<LocalListing>) returns (next: Option<Entries>)
    ensures next.Some? <==> forall i | 0 <= i < |locals| :: locals[i].Listed?
    ensures next.Some? ==> next.value == FirstWins(LocalOffers(locals))
  {
    var entries: Entries := map[];
    for i := 0 to |locals|
      invariant forall j | 0 <= j < i :: locals[j].Listed?
      invariant entries == FirstWins(LocalOffers(locals[..i]))
    {
      match locals[i]
      case Broken => return None;
      case Listed(list) =>
        assert locals[..i + 1][..i] == locals[..i];
        entries := Merge(entries, LocalEntries(list), LocalOffers(locals[..i]));
    }
    assert locals[..|locals|] == locals;
    next := Some(entries);
  }

  class Registry {
    const bindings: seq<Binding>
    const cache: SkillCache
    var entries: Entries
    var previous: Listings

    constructor (bindings: seq<Binding>, cache: SkillCache)
      ensures this.bindings == bindings && this.cache == cache && Value() == Store(map[], map[])
    {
      this.bindings, this.cache := bindings, cache;
      entries, previous := map[], map[];
    }

    function Value(): Store
      reads this
    {
      Store(entries, previous)
    }

    /** The current generation is pinned. */
    ghost predicate Valid()
      reads this, cache
    {
      && DistinctIds(bindings) && WellNamed(entries) && Positive(cache.pins)
      && forall k <- KeysOf(entries) :: CountOf(cache.pins, k) > 0
    }

    /** The outcome of one source: nothing if it makes the refresh fail, else its contribution. */
    method Consult(b: Binding, found: Discovery) returns (answer: Option<(seq<RemoteSkill>, bool)>)
      ensures answer.Some? <==> !found.canceled && (found.Good() || b.optional)
      ensures answer.Some? ==> answer.value == (Contribution(b, previous, found), found.Good())
    {
      if found.canceled {
        return None;
      }
      if found.listing.Some? {
        var good := CheckListing(found.listing.value);
        if good {
          return Some((found.listing.value, true));
        }
      }
      if !b.optional {
        return None;
      }
      answer := Some((if b.id in previous then previous[b.id] else [], false));
    }

    /** The discovery half of a refresh, which only reads the registry; `None` means that the refresh fails. */
    method Discover(input: Input) returns (plan: Option<(Store, seq<string>)>)
      requires DistinctIds(bindings) && |input.found| == |bindings|
      ensures plan.Some? <==> Commits(bindings, input)
      ensures plan.Some? ==>
                plan.value == (Refreshed(bindings, Value(), input), Issues(bindings, input.found, |bindings|))
    {
      hide GoodListing, FirstWins, LocalOffers, RemoteEntries, Contribution;
      if input.gateCanceled {
        return None;
      }
      var locals := MergeLocals(input.locals);
      if locals.None? {
        return None;
      }
      ghost var fromLocals := LocalOffers(input.locals);
      assert fromLocals + [] == fromLocals;
      var next := locals.value;
      var kept: Listings := map[];
      var issues := [];
      for i := 0 to |bindings|
        invariant forall j | 0 <= j < i :: !input.found[j].canceled && (input.found[j].Good() || bindings[j].optional)
        invariant next == FirstWins(fromLocals + RemoteOffers(bindings, previous, input.found, i))
        invariant kept == KeptListings(bindings, previous, input.found, i)
        invariant issues == Issues(bindings, input.found, i)
      {
        var answer := Consult(bindings[i], input.found[i]);
        if answer.None? {
          return None;
        }
        var (list, good) := answer.value;
        var id := bindings[i].id;
        if !good {
          issues := issues + [id];
        }
        kept := kept[id := list];
        ghost var before := RemoteOffers(bindings, previous, input.found, i);
        next := Merge(next, RemoteEntries(id, list), fromLocals + before);
        assert fromLocals + before + RemoteEntries(id, list) == fromLocals + (before + RemoteEntries(id, list));
      }
      if input.canceledAtEnd {
        return None;
      }
      plan := Some((Store(next, kept), issues));
    }

    /** A failed refresh changes nothing; a committed one replaces the generation and moves the pins with it. */
    method Refresh(input: Input) returns (outcome: Outcome)
      requires Valid() && |input.found| == |bindings|
      modifies this, cache
      ensures Valid()
      ensures outcome.Committed? <==> Commits(bindings, input)
      ensures outcome.Failed? ==> cache.pins == old(cache.pins)
      ensures outcome.Committed? ==> outcome.issues == Issues(bindings, input.found, |bindings|)
      ensures Value() == Refreshed(bindings, old(Value()), input)
      ensures forall k :: CountOf(cache.pins, k) ==
                CountOf(old(cache.pins), k) + One(k in KeysOf(entries)) - One(k in KeysOf(old(entries)))
    {
      var plan := Discover(input);
      match plan
      case None => return Failed;
      case Some((next, issues)) =>
        MergeIsWellNamed(LocalOffers(input.locals) + RemoteOffers(bindings, previous, input.found, |bindings|));
        cache.PinAll(next.entries);
        cache.UnpinAll(entries);
        entries, previous := next.entries, next.previous;
        outcome := Committed(issues);
    }

    method Snapshot() returns (s: SkillSnapshot)
      requires Valid()
      modifies cache
      ensures Valid() && fresh(s) && s.cache == cache && s.entries == entries && !s.closed
      ensures forall k :: CountOf(cache.pins, k) == CountOf(old(cache.pins), k) + One(k in KeysOf(entries))
    {
      s := new SkillSnapshot(entries, cache);
      cache.PinAll(entries);
    }

    method Close()
      requires Valid()
      modifies this, cache
      ensures Valid() && Value() == Store(map[], map[])
      ensures forall k :: CountOf(cache.pins, k) == CountOf(old(cache.pins), k) - One(k in KeysOf(old(entries)))
    {
      cache.UnpinAll(entries);
      entries, previous := map[], map[];
    }
  }

  class SkillSnapshot {
    const cache: SkillCache
    const entries: Entries
    var closed: bool

    constructor (entries: Entries, cache: SkillCache)
      ensures this.entries == entries && this.cache == cache && !closed
    {
      this.entries, this.cache, closed := entries, cache, false;
    }

    /** Only the first `Close` releases the pins. */
    method Close()
      requires WellNamed(entries) && Positive(cache.pins)
      requires !closed ==> forall k <- KeysOf(entries) :: CountOf(cache.pins, k) > 0
      modifies this, cache
      ensures closed && Positive(cache.pins)
      ensures forall k :: CountOf(cache.pins, k) ==
                CountOf(old(cache.pins), k) - One(!old(closed) && k in KeysOf(entries))
    {
      if closed {
        return;
      }
      closed := true;
      cache.UnpinAll(entries);
    }
  }

  /** What `NewRegistry` accepts: a cache for remote sources, and sources that are there and have distinct names. */
  predicate Acceptable(sources: seq<Option<Binding>>, cache: SkillCache?) {
    && (sources != [] ==> cache != null)
    && (forall i | 0 <= i < |sources| :: sources[i].Some?)
    && DistinctIds(BindingsOf(sources))
  }

  function BindingsOf(sources: seq<Option<Binding>>): (bindings: seq<Binding>)
    requires forall i | 0 <= i < |sources| :: sources[i].Some?
  {
    seq(|sources|, i requires 0 <= i < |sources| => sources[i].value)
  }

  /** An absent source is `None`. A registry without sources never pins, so an unused cache stands for no cache. */
  method NewRegistry(sources: seq<Option<Binding>>, cache: SkillCache?) returns (r: Registry?)
    ensures r != null <==> Acceptable(sources, cache)
    ensures r != null ==> fresh(r) && r.bindings == BindingsOf(sources) && r.Value() == Store(map[], map[])
    ensures r != null ==> r.cache == cache || (cache == null && fresh(r.cache))
  {
    if |sources| > 0 && cache == null {
      return null;
    }
    var seen: set<string> := {};
    var bindings: seq<Binding> := [];
    for n := 0 to |sources|
      invariant |bindings| == n && forall i | 0 <= i < n :: sources[i] == Some(bindings[i])
      invariant seen == set i | 0 <= i < n :: bindings[i].id
      invariant DistinctIds(bindings)
    {
      ghost var allThere := forall i | 0 <= i < |sources| :: sources[i].Some?;
      assert allThere ==> BindingsOf(sources)[n] == sources[n].value && BindingsOf(sources)[..n] == bindings;
      if sources[n].None? || sources[n].value.id == "" {
        return null;
      }
      if sources[n].value.id in seen {
        ghost var i :| 0 <= i < n && bindings[i].id == sources[n].value.id;
        assert allThere ==> BindingsOf(sources)[..n][i].id == BindingsOf(sources)[n].id;
        return null;
      }
      seen := seen + {sources[n].value.id};
      bindings := bindings + [sources[n].value];
    }
    assert bindings == BindingsOf(sources);
    if cache == null {
      var unused := new SkillCache();
      r := new Registry(bindings, unused);
    } else {
      r := new Registry(bindings, cache);
    }
  }

  /******* Listings over a whole run *******/

  datatype Operation = Refresh(input: Input) | Close

  predicate FitsBindings(bindings: seq<Binding>, ops: seq<Operation>) {
    forall j | 0 <= j < |ops| :: ops[j].Refresh? ==> |ops[j].input.found| == |bindings|
  }

  /** The fields of a registry after a sequence of operations on a new one. */
  function After(bindings: seq<Binding>, ops: seq<Operation>): Store
    requires FitsBindings(bindings, ops)
  {
    if ops == [] then Store(map[], map[])
    else match ops[|ops| - 1]
      case Refresh(input) => Refreshed(bindings, After(bindings, ops[..|ops| - 1]), input)
      case Close => Store(map[], map[])
  }

  /** Operation `j` committed and got a good listing from source `i`. */
  predicate GoodAt(bindings: seq<Binding>, ops: seq<Operation>, i: nat, j: nat)
    requires FitsBindings(bindings, ops) && i < |bindings| && j < |ops|
  {
    ops[j].Refresh? && Commits(bindings, ops[j].input) && ops[j].input.found[i].Good()
  }

  /** Operation `j` is the last that committed a good listing of source `i`, with no close since. */
  ghost predicate LastGood(bindings: seq<Binding>, ops: seq<Operation>, i: nat, j: nat)
    requires FitsBindings(bindings, ops) && i < |bindings|
  {
    && j < |ops| && GoodAt(bindings, ops, i, j)
    && forall k | j < k < |ops| :: ops[k].Refresh? && !GoodAt(bindings, ops, i, k)
  }

  lemma {:induction false} KeptListing(
    bindings: seq<Binding>, previous: Listings, found: seq<Discovery>, n: nat, i: nat)
    requires DistinctIds(bindings) && i < |bindings| && n <= |bindings| == |found|
    ensures var kept := KeptListings(bindings, previous, found, n);
            if i < n
            then bindings[i].id in kept && kept[bindings[i].id] == Contribution(bindings[i], previous, found[i])
            else bindings[i].id !in kept
  {
    if n > 0 {
      KeptListing(bindings, previous, found, n - 1, i);
    }
  }

  function StoredListing(bindings: seq<Binding>, ops: seq<Operation>, i: nat): seq<RemoteSkill>
    requires FitsBindings(bindings, ops) && i < |bindings|
  {
    var previous := After(bindings, ops).previous;
    if bindings[i].id in previous then previous[bindings[i].id] else []
  }

  ghost predicate IsLastGood(bindings: seq<Binding>, ops: seq<Operation>, i: nat, stored: seq<RemoteSkill>)
    requires FitsBindings(bindings, ops) && i < |bindings|
  {
    && (forall j: nat :: LastGood(bindings, ops, i, j) ==> Some(stored) == ops[j].input.found[i].listing)
    && ((forall j: nat :: !LastGood(bindings, ops, i, j)) ==> stored == [])
  }

  /** What the last operation of a run does to the listing stored for a source. */
  lemma StoredAfterLast(bindings: seq<Binding>, ops: seq<Operation>, i: nat)
    requires DistinctIds(bindings) && FitsBindings(bindings, ops) && i < |bindings| && ops != []
    ensures var front, last := ops[..|ops| - 1], |ops| - 1;
            if ops[last].Close? then StoredListing(bindings, ops, i) == []
            else if GoodAt(bindings, ops, i, last)
            then Some(StoredListing(bindings, ops, i)) == ops[last].input.found[i].listing
            else StoredListing(bindings, ops, i) == StoredListing(bindings, front, i)
  {
    var front, last := ops[..|ops| - 1], |ops| - 1;
    if ops[last].Refresh? && Commits(bindings, ops[last].input) {
      KeptListing(bindings, After(bindings, front).previous, ops[last].input.found, |bindings|, i);
    }
    hide KeptListings, FirstWins, GoodListing, Commits, DistinctIds;
  }

  lemma LastGoodStays(bindings: seq<Binding>, ops: seq<Operation>, i: nat, j: nat)
    requires FitsBindings(bindings, ops) && i < |bindings| && ops != []
    requires ops[|ops| - 1].Refresh? && !GoodAt(bindings, ops, i, |ops| - 1)
    ensures LastGood(bindings, ops, i, j) <==> LastGood(bindings, ops[..|ops| - 1], i, j)
  {
    var front := ops[..|ops| - 1];
    assert forall k: nat | k < |front| ::
        front[k] == ops[k] && (GoodAt(bindings, front, i, k) <==> GoodAt(bindings, ops, i, k));
  }

  lemma NotGoodKeepsLast(bindings: seq<Binding>, ops: seq<Operation>, i: nat, stored: seq<RemoteSkill>)
    requires FitsBindings(bindings, ops) && i < |bindings| && ops != []
    requires ops[|ops| - 1].Refresh? && !GoodAt(bindings, ops, i, |ops| - 1)
    requires IsLastGood(bindings, ops[..|ops| - 1], i, stored)
    ensures IsLastGood(bindings, ops, i, stored)
  {
    var front := ops[..|ops| - 1];
    forall j: nat ensures LastGood(bindings, ops, i, j) <==> LastGood(bindings, front, i, j) {
      LastGoodStays(bindings, ops, i, j);
    }
    forall j: nat | LastGood(bindings, ops, i, j) ensures Some(stored) == ops[j].input.found[i].listing {
      assert LastGood(bindings, front, i, j) && front[j] == ops[j];
    }
  }

  /**
   The listing stored for a source is the one from the last committed refresh in which its
   discovery was good, or empty when there is none since creation or `Close`. It is always
   valid and free of duplicates.
   */
  lemma {:induction false} StoredListingIsLastGood(bindings: seq<Binding>, ops: seq<Operation>, i: nat)
    requires DistinctIds(bindings) && FitsBindings(bindings, ops) && i < |bindings|
    ensures GoodListing(StoredListing(bindings, ops, i))
    ensures IsLastGood(bindings, ops, i, StoredListing(bindings, ops, i))
  {
    if ops != [] {
      var front, last := ops[..|ops| - 1], |ops| - 1;
      StoredListingIsLastGood(bindings, front, i);
      StoredAfterLast(bindings, ops, i);
      hide StoredListing, GoodListing, Commits, DistinctIds;
      if ops[last].Refresh? {
        if GoodAt(bindings, ops, i, last) {
          assert LastGood(bindings, ops, i, last);
        } else {
          NotGoodKeepsLast(bindings, ops, i, StoredListing(bindings, front, i));
        }
      }
    }
  }
}
