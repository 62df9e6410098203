/**
 The lexical path cleaners: `resolveToolPath`, `scopedPath` and `cleanScriptPath` of the
 local runtime and `cleanResourcePath` of a skill, with Unix separators.

 `Clean` is a stack of components. It is judged against an independent walk through the
 requested components: `Walk` from the root of a workspace, which fails when it leaves that
 root, and `Land` from any directory of the file system.
 */
module Paths {
  import opened Options
  import opened Text

  type Name = string

  /******* Splitting and joining *******/

  function Join(parts: seq<string>, sep: char): string
    requires parts != []
  {
    if |parts| == 1 then parts[0] else parts[0] + [sep] + Join(parts[1..], sep)
  }

  function Split(s: string, sep: char): (parts: seq<string>)
    ensures parts != [] && Join(parts, sep) == s
    ensures forall p <- parts :: sep !in p
  {
    if s == "" then [""]
    else if s[0] == sep then [""] + Split(s[1..], sep)
    else
      var rest := Split(s[1..], sep);
      [[s[0]] + rest[0]] + rest[1..]
  }

  lemma {:induction false} SplitJoin(parts: seq<string>, sep: char)
    requires parts != [] && forall p <- parts :: sep !in p
    ensures Split(Join(parts, sep), sep) == parts
    decreases |Join(parts, sep)|, |parts|
  {
    if parts[0] == "" {
      if |parts| > 1 {
        assert Join(parts, sep) == [sep] + Join(parts[1..], sep);
        SplitJoin(parts[1..], sep);
      }
    } else {
      var shorter := [parts[0][1..]] + parts[1..];
      assert parts[0] in parts && forall i :: 1 <= i < |shorter| ==> shorter[i] == parts[i];
      var text := Join(parts, sep);
      assert text == [parts[0][0]] + Join(shorter, sep);
      SplitJoin(shorter, sep);
      assert text[1..] == Join(shorter, sep) && text[0] != sep;
      assert [text[0]] + shorter[0] == parts[0];
      assert [[text[0]] + shorter[0]] + shorter[1..] == parts;
    }
  }

  function Slashes(s: string): (r: string)
    ensures |r| == |s| && '\\' !in r
    ensures forall i :: 0 <= i < |s| ==> r[i] == if s[i] == '\\' then '/' else s[i]
  {
    if s == "" then "" else [if s[0] == '\\' then '/' else s[0]] + Slashes(s[1..])
  }

  /******* Cleaning *******/

  function Push(stack: seq<Name>, part: Name): seq<Name> {
    if part == "" || part == "." then stack
    else if part == ".." && stack != [] && stack[|stack| - 1] != ".." then stack[..|stack| - 1]
    else stack + [part]
  }

  /** The stack of components that cleaning a relative path leaves. */
  function Stack(parts: seq<Name>): seq<Name> {
    if parts == [] then [] else Push(Stack(parts[..|parts| - 1]), parts[|parts| - 1])
  }

  /** `filepath.Clean` of a relative path. */
  function Clean(path: string): string {
    var stack := Stack(Split(path, '/'));
    if stack == [] then "." else Join(stack, '/')
  }

  predicate HasWindowsPrefix(path: string) {
    && |path| >= 3 && ('a' <= path[0] <= 'z' || 'A' <= path[0] <= 'Z')
    && path[1] == ':' && path[2] == '/'
  }

  predicate IsRelative(path: string) {
    path != "" && path[0] != '/' && !HasWindowsPrefix(path)
  }

  function Normalized(requested: string): string {
    Slashes(TrimSpace(requested))
  }

  predicate Escapes(cleaned: string) {
    cleaned == "." || cleaned == ".." || "../" <= cleaned
  }

  /** The checks that all four cleaners share, on the normalized path. */
  function CleanRelative(path: string): Option<string> {
    if !IsRelative(path) then None
    else if Escapes(Clean(path)) then None
    else Some(Clean(path))
  }

  function TrimPrefix(s: string, prefix: string): string {
    if prefix <= s then s[|prefix|..] else s
  }

  function CleanResourcePath(requested: string): Option<string> {
    CleanRelative(Normalized(requested))
  }

  function CleanScriptPath(requested: string): Option<string> {
    CleanRelative(TrimPrefix(Normalized(requested), "scripts/"))
  }

  function ScopedPath(scope: Name, requested: string): Option<string> {
    var cleaned := CleanRelative(Normalized(requested));
    if cleaned.None? then None else Some(Clean(scope + "/" + cleaned.value))
  }

  datatype ToolPath =
    | Rejected
    | InWorkspace(path: string)
    | InSkill(path: string, skill: Name, resource: string)

  function ResolveToolPath(requested: string, write: bool, skills: set<Name>): ToolPath {
    var cleaned := CleanRelative(Normalized(requested));
    if cleaned.None? then Rejected
    else
      var parts := Split(cleaned.value, '/');
      if parts[0] != "skills" then InWorkspace(cleaned.value)
      else if write || |parts| < 3 || parts[1] !in skills then Rejected
      else InSkill(cleaned.value, parts[1], Join(parts[2..], '/'))
  }

  /******* Where a path leads *******/

  predicate IsName(part: Name) {
    part != "" && part != "." && part != ".." && '/' !in part
  }

  predicate AreNames(parts: seq<Name>) {
    forall p <- parts :: IsName(p)
  }

  /** Walking below a root; None once the walk has left it. */
  function Walk(parts: seq<Name>): Option<seq<Name>> {
    if parts == [] then Some([])
    else
      var before, part := Walk(parts[..|parts| - 1]), parts[|parts| - 1];
      if before.None? || part == "" || part == "." then before
      else if part != ".." then Some(before.value + [part])
      else if before.value == [] then None
      else Some(before.value[..|before.value| - 1])
  }

  /** One component from a directory of the file system, whose root is its own parent. */
  function Move(at: seq<Name>, part: Name): seq<Name> {
    if part == "" || part == "." then at
    else if part != ".." then at + [part]
    else if at == [] then []
    else at[..|at| - 1]
  }

  function Land(from: seq<Name>, parts: seq<Name>): seq<Name> {
    if parts == [] then from else Move(Land(from, parts[..|parts| - 1]), parts[|parts| - 1])
  }

  /** The stack is where the walk ends, or starts with `..` because the walk left the root. */
  lemma {:induction false} StackIsWalk(parts: seq<Name>)
    requires forall p <- parts :: '/' !in p
    ensures forall p <- Stack(parts) :: IsName(p) || p == ".."
    ensures if Walk(parts).Some? then Stack(parts) == Walk(parts).value && AreNames(Stack(parts))
            else Stack(parts) != [] && Stack(parts)[0] == ".."
  {
    if parts != [] {
      assert parts[|parts| - 1] in parts;
      StackIsWalk(parts[..|parts| - 1]);
      var stack := Stack(parts[..|parts| - 1]);
      assert stack != [] ==> stack[|stack| - 1] in stack;
    }
  }

  lemma PushLandsAlike(from: seq<Name>, stack: seq<Name>, part: Name)
    requires forall p <- stack :: IsName(p) || p == ".."
    ensures Land(from, Push(stack, part)) == Move(Land(from, stack), part)
  {
    if part == ".." && stack != [] && stack[|stack| - 1] != ".." {
      assert stack[|stack| - 1] in stack;
    } else if part != "" && part != "." {
      assert (stack + [part])[..|stack|] == stack;
    }
  }

  /** Cleaning does not change where a path leads, from any directory. */
  lemma {:induction false} StackLandsAlike(from: seq<Name>, parts: seq<Name>)
    requires forall p <- parts :: '/' !in p
    ensures Land(from, Stack(parts)) == Land(from, parts)
  {
    if parts != [] {
      var before, part := parts[..|parts| - 1], parts[|parts| - 1];
      assert part in parts;
      StackLandsAlike(from, before);
      StackIsWalk(before);
      PushLandsAlike(from, Stack(before), part);
    }
  }

  lemma {:induction false} NamesLandBelow(from: seq<Name>, parts: seq<Name>)
    requires AreNames(parts)
    ensures Land(from, parts) == from + parts
    ensures Stack(parts) == parts
  {
    if parts != [] {
      assert parts[|parts| - 1] in parts;
      NamesLandBelow(from, parts[..|parts| - 1]);
      assert parts[..|parts| - 1] + [parts[|parts| - 1]] == parts;
    }
  }

  /** The components of a cleaned path are the stack. */
  lemma CleanSplits(path: string)
    ensures var stack := Stack(Split(path, '/'));
            if stack == [] then Clean(path) == "." else Split(Clean(path), '/') == stack
  {
    StackIsWalk(Split(path, '/'));
    var stack := Stack(Split(path, '/'));
    if stack != [] {
      SplitJoin(stack, '/');
    }
  }

  /** The text of a joined path starts with `..` as a component exactly if its first component is `..`. */
  lemma DotDotFirst(parts: seq<Name>)
    requires parts != [] && forall p <- parts :: '/' !in p
    ensures Join(parts, '/') == ".." || "../" <= Join(parts, '/') <==> parts[0] == ".."
  {
    var text, first := Join(parts, '/'), parts[0];
    assert first in parts;
    assert first <= text && (|first| < |text| ==> text[|first|] == '/');
    if "../" <= text {
      assert text[0] == '.' && text[1] == '.' && text[2] == '/';
      assert forall i :: 0 <= i < |first| ==> first[i] == text[i] && first[i] != '/';
      assert |first| == 2;
    }
  }

  /** The check on the cleaned text finds exactly the paths whose walk leaves the root or ends in it. */
  lemma EscapesExactly(path: string)
    ensures Escapes(Clean(path)) <==> Walk(Split(path, '/')).None? || Walk(Split(path, '/')).value == []
  {
    var stack := Stack(Split(path, '/'));
    StackIsWalk(Split(path, '/'));
    CleanSplits(path);
    if stack != [] {
      assert stack[0] in stack;
      DotDotFirst(stack);
      assert Split(".", '/')[0] == ".";
    }
  }

  /******* What the cleaners accept *******/

  /** The place below a root that a path names, if the path stays below that root. */
  function Place(path: string): Option<seq<Name>> {
    var at := Walk(Split(path, '/'));
    if !IsRelative(path) || at.None? || at.value == [] then None else at
  }

  /** `cleaned` names the same place as `path`, component by component and from every directory. */
  ghost predicate Names(path: string, cleaned: string) {
    && Place(path) == Some(Split(cleaned, '/')) && AreNames(Split(cleaned, '/'))
    && forall root: seq<Name> :: LeadsBelow(root, path, cleaned)
  }

  predicate LeadsBelow(root: seq<Name>, path: string, cleaned: string) {
    Land(root, Split(path, '/')) == Land(root, Split(cleaned, '/')) == root + Split(cleaned, '/')
  }

  /** A path is accepted exactly if it stays strictly below the root, and the result names its place. */
  lemma CleanRelativeExactly(path: string)
    ensures CleanRelative(path).Some? <==> Place(path).Some?
    ensures CleanRelative(path).Some? ==> Names(path, CleanRelative(path).value)
  {
    var parts := Split(path, '/');
    StackIsWalk(parts);
    CleanSplits(path);
    EscapesExactly(path);
    if CleanRelative(path).Some? {
      forall root: seq<Name> ensures LeadsBelow(root, path, Clean(path)) {
        StackLandsAlike(root, parts);
        NamesLandBelow(root, Stack(parts));
      }
    }
  }

  lemma ResourcePathExactly(requested: string)
    ensures CleanResourcePath(requested).Some? <==> Place(Normalized(requested)).Some?
    ensures CleanResourcePath(requested).Some? ==> Names(Normalized(requested), CleanResourcePath(requested).value)
  {
    CleanRelativeExactly(Normalized(requested));
  }

  lemma ScriptPathExactly(requested: string)
    ensures var path := TrimPrefix(Normalized(requested), "scripts/");
            && (CleanScriptPath(requested).Some? <==> Place(path).Some?)
            && (CleanScriptPath(requested).Some? ==> Names(path, CleanScriptPath(requested).value))
  {
    CleanRelativeExactly(TrimPrefix(Normalized(requested), "scripts/"));
  }

  lemma SplitFirst(first: Name, path: string)
    requires '/' !in first
    ensures Split(first + "/" + path, '/') == [first] + Split(path, '/')
  {
    assert first + "/" + path == Join([first] + Split(path, '/'), '/') by {
      assert ([first] + Split(path, '/'))[1..] == Split(path, '/');
    }
    SplitJoin([first] + Split(path, '/'), '/');
  }

  /** A scoped path lies strictly below its scope, at the requested place. */
  lemma ScopedPathExactly(scope: Name, requested: string)
    requires IsName(scope)
    ensures ScopedPath(scope, requested).Some? <==> Place(Normalized(requested)).Some?
    ensures ScopedPath(scope, requested).Some? ==>
              && AreNames(Split(ScopedPath(scope, requested).value, '/'))
              && Split(ScopedPath(scope, requested).value, '/') == [scope] + Place(Normalized(requested)).value
  {
    var path := Normalized(requested);
    CleanRelativeExactly(path);
    if CleanRelative(path).Some? {
      var cleaned := CleanRelative(path).value;
      SplitFirst(scope, cleaned);
      NamesLandBelow([], [scope] + Split(cleaned, '/'));
      CleanSplits(scope + "/" + cleaned);
    }
  }

  /**
   What a tool path may name: anything for reading except outside of a known skill, nothing in
   `skills` for writing.
   */
  predicate MayUse(place: seq<Name>, write: bool, skills: set<Name>)
    requires place != []
  {
    place[0] == "skills" ==> !write && |place| >= 3 && place[1] in skills
  }

  lemma ToolPathExactly(requested: string, write: bool, skills: set<Name>)
    ensures var place := Place(Normalized(requested));
            match ResolveToolPath(requested, write, skills)
            case Rejected => place.None? || !MayUse(place.value, write, skills)
            case InWorkspace(path) =>
              Names(Normalized(requested), path) && MayUse(place.value, write, skills) && place.value[0] != "skills"
            case InSkill(path, skill, resource) =>
              && Names(Normalized(requested), path) && MayUse(place.value, write, skills)
              && place.value == ["skills", skill] + Split(resource, '/')
  {
    CleanRelativeExactly(Normalized(requested));
    var cleaned := CleanRelative(Normalized(requested));
    if cleaned.Some? {
      var parts := Split(cleaned.value, '/');
      if |parts| >= 3 {
        assert forall p <- parts[2..] :: p in parts;
        SplitJoin(parts[2..], '/');
      }
    }
  }

  /**
   However it is written, a path accepted for writing leads strictly below the root and
   neither to `skills` nor below it.
   */
  lemma WritesStayOutOfSkills(requested: string, skills: set<Name>, root: seq<Name>)
    requires !ResolveToolPath(requested, true, skills).Rejected?
    ensures ResolveToolPath(requested, true, skills).InWorkspace?
    ensures var at := Land(root, Split(Normalized(requested), '/'));
            && at == Land(root, Split(ResolveToolPath(requested, true, skills).path, '/'))
            && root < at && !(root + ["skills"] <= at)
  {
    ToolPathExactly(requested, true, skills);
    assert LeadsBelow(root, Normalized(requested), ResolveToolPath(requested, true, skills).path);
    var at := Land(root, Split(Normalized(requested), '/'));
    assert at[|root|] != "skills";
  }

  predicate IsPlain(name: Name) {
    IsName(name) && '\\' !in name && !IsSpace(name[0]) && !IsSpace(name[|name| - 1])
  }

  lemma PlainIsNormal(name: Name)
    requires IsPlain(name)
    ensures Normalized(name) == name
  {
    assert TrimSpace(name) == name;
    assert Slashes(name) == name;
  }

  lemma {:induction false} NamesWalk(parts: seq<Name>)
    requires AreNames(parts)
    ensures Walk(parts) == Some(parts)
  {
    if parts != [] {
      var before, part := parts[..|parts| - 1], parts[|parts| - 1];
      NamesWalk(before);
      assert part in parts && parts == before + [part];
    }
  }

  lemma PlainSplits(name: Name)
    requires IsPlain(name)
    ensures Split(name, '/') == [name]
  {
    assert Join([name], '/') == name;
    hide IsSpace;
    SplitJoin([name], '/');
  }

  lemma PlainPlace(name: Name)
    requires IsPlain(name)
    ensures Place(name) == Some([name])
  {
    assert name[0] in name && (|name| > 2 ==> name[2] in name);
    assert IsRelative(name);
    PlainSplits(name);
    hide IsRelative, IsSpace;
    NamesWalk([name]);
    hide Walk, Split, Join;
  }

  /** A simple file name outside of `skills` can be written under just that name. */
  lemma PlainNameResolves(name: Name, skills: set<Name>)
    requires IsPlain(name) && name != "skills"
    ensures ResolveToolPath(name, true, skills) == InWorkspace(name)
  {
    PlainIsNormal(name);
    PlainPlace(name);
    hide Normalized, Place, IsPlain, ResolveToolPath;
    ToolPathExactly(name, true, skills);
    assert Join([name], '/') == name;
  }
}
