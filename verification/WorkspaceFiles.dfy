/**
 The directory tree of a session workspace: what is at each place, how much of it counts
 for the quota, and what `MkdirAll` does to it.

 A place is the list of path components below the workspace. Every directory on the way to
 an entry is an entry itself.
 */
module WorkspaceFiles {
  import opened Options
  import opened Paths

  type Location = seq<Name>

  /** Contents are byte strings, one character for each byte. `Special` is a link, device or socket. */
  datatype Entry = Regular(data: string) | Directory | Special

  type Files = map<Location, Entry>

  function Parent(at: Location): Location
    requires at != []
  {
    at[..|at| - 1]
  }

  /** The tree shape: entries lie in directories. */
  ghost predicate Tree(files: Files) {
    [] !in files && forall at <- files :: |at| > 1 ==> Parent(at) in files && files[Parent(at)].Directory?
  }

  /** The content of a regular file. */
  function FileAt(files: Files, at: Location): Option<string> {
    if at in files && files[at].Regular? then Some(files[at].data) else None
  }

  /******* Sizes *******/

  function EntrySize(e: Entry): nat {
    if e.Regular? then |e.data| else 0
  }

  function SizeAt(files: Files, at: Location): nat {
    if at in files then EntrySize(files[at]) else 0
  }

  ghost function Size(files: Files): nat {
    if files == map[] then 0
    else
      var at :| at in files;
      EntrySize(files[at]) + Size(files - {at})
  }

  lemma {:induction false} SizeWithout(files: Files, at: Location)
    requires at in files
    ensures Size(files) == EntrySize(files[at]) + Size(files - {at})
    decreases |files|
  {
    var first :| first in files && Size(files) == EntrySize(files[first]) + Size(files - {first});
    if first != at {
      SizeWithout(files - {first}, at);
      SizeWithout(files - {at}, first);
      assert files - {first} - {at} == files - {at} - {first};
    }
  }

  lemma SizeWith(files: Files, at: Location, e: Entry)
    ensures Size(files[at := e]) == Size(files) - SizeAt(files, at) + EntrySize(e)
  {
    SizeWithout(files[at := e], at);
    if at in files {
      SizeWithout(files, at);
      assert files[at := e] - {at} == files - {at};
    } else {
      assert files[at := e] - {at} == files;
    }
  }

  /** `workspaceSize` */
  method Measure(files: Files) returns (size: nat)
    ensures size == Size(files)
  {
    size := 0;
    var rest := files;
    while rest != map[]
      invariant Size(files) == size + Size(rest)
      decreases |rest|
    {
      assert rest.Keys != {};
      var at :| at in rest.Keys;
      SizeWithout(rest, at);
      size := size + EntrySize(rest[at]);
      rest := rest - {at};
    }
  }

  /******* Making directories *******/

  /** The directories on the way to a place. */
  function Ancestors(at: Location): (dirs: seq<Location>)
    requires at != []
    ensures |dirs| == |at| - 1 && forall i :: 0 <= i < |dirs| ==> dirs[i] == at[..i + 1]
  {
    seq(|at| - 1, i requires 0 <= i < |at| - 1 => at[..i + 1])
  }

  /** Something that is not a directory stands on the way to a place. */
  predicate Blocked(files: Files, at: Location) {
    exists k :: 0 < k < |at| && at[..k] in files && !files[at[..k]].Directory?
  }

  /** A limit on the number of directories before the system fails; None means that it does not. */
  type Limit = Option<nat>

  function Spent(limit: Limit): Limit {
    if limit.Some? && limit.value > 0 then Some(limit.value - 1) else limit
  }

  /** Make the directories that are missing, in order, until something is in the way or the system fails. */
  function MakeAll(files: Files, dirs: seq<Location>, limit: Limit): (bool, Files)
    decreases |dirs|
  {
    if dirs == [] then (true, files)
    else if limit == Some(0) || (dirs[0] in files && !files[dirs[0]].Directory?) then (false, files)
    else MakeAll(files[dirs[0] := Directory], dirs[1..], Spent(limit))
  }

  /** `files'` is `files` with some of the directories `dirs` added. */
  ghost predicate Adds(files: Files, files': Files, dirs: seq<Location>) {
    && (forall at <- files :: at in files' && files'[at] == files[at])
    && (forall at <- files' :: at in files || (at in dirs && files'[at].Directory?))
  }

  ghost predicate AllFree(files: Files, dirs: seq<Location>) {
    forall d <- dirs :: d in files ==> files[d].Directory?
  }

  /** All directories are there afterwards exactly if nothing is in the way of any and the system does not fail. */
  lemma {:induction false} MakeAllExactly(files: Files, dirs: seq<Location>, limit: Limit)
    ensures var (ok, files') := MakeAll(files, dirs, limit);
            && (ok <==> AllFree(files, dirs) && (limit.Some? ==> |dirs| <= limit.value))
            && Adds(files, files', dirs) && Size(files') == Size(files)
            && (ok ==> forall d <- dirs :: d in files' && files'[d].Directory?)
    decreases |dirs|
  {
    if dirs != [] && limit != Some(0) && (dirs[0] in files ==> files[dirs[0]].Directory?) {
      SizeWith(files, dirs[0], Directory);
      MakeAllExactly(files[dirs[0] := Directory], dirs[1..], Spent(limit));
      hide Size, MakeAll;
      assert forall d <- dirs :: d == dirs[0] || d in dirs[1..];
    } else if dirs != [] {
      assert dirs[0] in dirs;
    }
  }

  /** Making the ancestors of a place succeeds exactly if the place is not blocked. */
  lemma AncestorsFree(files: Files, at: Location)
    requires at != []
    ensures AllFree(files, Ancestors(at)) <==> !Blocked(files, at)
  {
    var dirs := Ancestors(at);
    if AllFree(files, dirs) {
      forall k | 0 < k < |at| ensures at[..k] in files ==> files[at[..k]].Directory? {
        assert dirs[k - 1] in dirs;
      }
    } else {
      var d :| d in dirs && d in files && !files[d].Directory?;
      var i :| 0 <= i < |dirs| && dirs[i] == d;
      assert d == at[..i + 1];
    }
  }

  /** The parent of a directory is there, or the directory before it in the list is its parent. */
  ghost predicate ParentFirst(files: Files, dirs: seq<Location>, i: nat)
    requires i < |dirs|
  {
    |dirs[i]| <= 1 || (i > 0 && Parent(dirs[i]) == dirs[i - 1])
    || (Parent(dirs[i]) in files && files[Parent(dirs[i])].Directory?)
  }

  lemma DirectoryKeepsTree(files: Files, at: Location)
    requires Tree(files) && at != [] && (at in files ==> files[at].Directory?)
    requires |at| > 1 ==> Parent(at) in files && files[Parent(at)].Directory?
    ensures Tree(files[at := Directory])
  {
  }

  /** Making directories, parents first, keeps the tree a tree. */
  lemma {:induction false} MakeAllKeepsTree(files: Files, dirs: seq<Location>, limit: Limit)
    requires Tree(files) && [] !in dirs
    requires forall i: nat :: i < |dirs| ==> ParentFirst(files, dirs, i)
    ensures Tree(MakeAll(files, dirs, limit).1)
    decreases |dirs|
  {
    if dirs != [] && limit != Some(0) && (dirs[0] in files ==> files[dirs[0]].Directory?) {
      var files1, rest := files[dirs[0] := Directory], dirs[1..];
      assert dirs[0] in dirs && forall d <- rest :: d in dirs;
      assert ParentFirst(files, dirs, 0);
      DirectoryKeepsTree(files, dirs[0]);
      hide Tree;
      forall i: nat | i < |rest| ensures ParentFirst(files1, rest, i) {
        assert rest[i] == dirs[i + 1] && ParentFirst(files, dirs, i + 1);
      }
      MakeAllKeepsTree(files1, rest, Spent(limit));
    }
  }

  /** In a tree nothing lies below a place that is not a directory. */
  lemma {:induction false} NothingBelow(files: Files, at: Location, below: Location)
    requires Tree(files) && below in files && at != [] && at < below
    ensures at in files && files[at].Directory?
    decreases |below|
  {
    if Parent(below) != at {
      NothingBelow(files, at, Parent(below));
    }
  }

  /** A regular file in a directory, in place of nothing or of another regular file. */
  lemma StoreKeepsTree(files: Files, at: Location, data: string)
    requires Tree(files) && at != [] && (|at| > 1 ==> Parent(at) in files && files[Parent(at)].Directory?)
    requires at in files ==> files[at].Regular?
    ensures Tree(files[at := Regular(data)])
  {
    forall below <- files | |below| > 1 ensures Parent(below) != at {
      if Parent(below) == at {
        NothingBelow(files, at, below);
      }
    }
  }

  /******* Removal of an expired workspace *******/

  /** What a scan for expired workspaces does to one: nothing, or `RemoveAll`, which gets stuck at some places. */
  datatype Expiry = Unexpired | Expired(stuck: set<Location>)

  /** A directory stays as long as something below it does. */
  predicate Survives(files: Files, expiry: Expiry, at: Location) {
    expiry.Expired? ==> exists k <- expiry.stuck :: k in files && at <= k
  }

  function Left(files: Files, expiry: Expiry): Files {
    files - (set at | at in files && !Survives(files, expiry, at))
  }

  lemma LeftExactly(files: Files, expiry: Expiry, at: Location)
    ensures at in Left(files, expiry) <==> at in files && Survives(files, expiry, at)
    ensures at in Left(files, expiry) ==> Left(files, expiry)[at] == files[at]
    ensures FileAt(Left(files, expiry), at) == if Survives(files, expiry, at) then FileAt(files, at) else None
    ensures expiry.Unexpired? ==> Left(files, expiry) == files
    ensures expiry == Expired({}) ==> Left(files, expiry) == map[]
  {
  }

  /** What is left of a tree is a tree. */
  lemma LeftIsTree(files: Files, expiry: Expiry)
    requires Tree(files)
    ensures Tree(Left(files, expiry))
  {
    var left := Left(files, expiry);
    LeftExactly(files, expiry, []);
    forall at <- left | |at| > 1 ensures Parent(at) in left && left[Parent(at)].Directory? {
      LeftExactly(files, expiry, at);
      LeftExactly(files, expiry, Parent(at));
      if expiry.Expired? {
        var k :| k in expiry.stuck && k in files && at <= k;
        assert Parent(at) <= k;
      }
    }
    hide Left;
  }

  lemma {:induction false} SizeOfLess(files: Files, gone: set<Location>)
    ensures Size(files - gone) <= Size(files)
    decreases |gone|
  {
    if gone == {} {
      assert files - gone == files;
    } else {
      var at :| at in gone;
      SizeOfLess(files, gone - {at});
      var less := files - (gone - {at});
      assert files - gone == less - {at};
      if at in less {
        SizeWithout(less, at);
      } else {
        assert less - {at} == less;
      }
    }
  }

  lemma LeftIsSmaller(files: Files, expiry: Expiry)
    ensures Size(Left(files, expiry)) <= Size(files)
  {
    SizeOfLess(files, set at | at in files && !Survives(files, expiry, at));
    hide Size, Survives;
  }
}
