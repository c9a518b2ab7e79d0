/**
 * The working directory: `do_chdir` keeps it as a text and is refined by a machine that keeps the
 * list of directories leading to it.
 */
module Directories {
  import opened CStrings
  import opened Paths
  import opened PathCleanup
  import opened Tarfs

  /** The archive has an entry of that name without contents. */
  predicate IsDirectory(a: seq<char>, name: string) {
    var f := Lookup(a, 0, name);
    f.Some? && f.value + 512 <= |a| && SizeAt(a, f.value) == 0
  }

  /** In a regular archive a directory is a name whose first entry is empty. */
  lemma DirectoryIff(a: seq<char>, entries: seq<Entry>, name: string)
    requires ArchiveAt(a, entries, 0) && Regular(entries)
    ensures IsDirectory(a, name) <==>
      FirstNamed(entries, name) < |entries| && entries[FirstNamed(entries, name)].contents == []
  {
    hide ArchiveAt, Regular, FirstNamed, Lookup, SizeAt;
    SearchThenOpen(a, entries, name);
  }

  /** The directory that a change asks for, as `do_chdir` spells it. */
  function Target(wd: string, dir: string): string { Merged(wd, dir) + "/" }

  /** The working directory after a change is asked for. */
  function Changed(a: seq<char>, wd: string, dir: string): string {
    var t := Target(wd, dir);
    if t == "/" || IsDirectory(a, t[1..]) then t else wd
  }

  function ChangedAll(a: seq<char>, wd: string, dirs: seq<string>): string
    decreases |dirs|
  {
    if dirs == [] then wd else ChangedAll(a, Changed(a, wd, dirs[0]), dirs[1..])
  }

  /** The same on lists of names: go there if it is the top or a directory of the archive. */
  function Moved(a: seq<char>, stack: seq<string>, dir: string): seq<string> {
    var reached := Walk(if "/" <= dir then [] else stack, Components(dir));
    if Joined(Written(stack) + "/", dir) == "/" then stack
    else if reached == [] || IsDirectory(a, (Written(reached) + "/")[1..]) then reached
    else stack
  }

  function MovedAll(a: seq<char>, stack: seq<string>, dirs: seq<string>): seq<string>
    decreases |dirs|
  {
    if dirs == [] then stack else MovedAll(a, Moved(a, stack, dirs[0]), dirs[1..])
  }

  ghost predicate Names(stack: seq<string>) { forall i | 0 <= i < |stack| :: IsName(stack[i]) }

  lemma ReachedNames(stack: seq<string>, dir: string)
    requires Names(stack)
    ensures Names(Walk(if "/" <= dir then [] else stack, Components(dir)))
  {
    forall i | 0 <= i < |Components(dir)| ensures '/' !in Components(dir)[i] {
      ComponentsNoSlash(dir, i);
    }
    WalkNames(if "/" <= dir then [] else stack, Components(dir));
  }

  lemma WrittenTop(stack: seq<string>)
    ensures Written(stack) + "/" == "/" <==> stack == []
  {
    if stack != [] { assert |Written(stack)| > 0; }
  }

  /** A directory spelled with its slash resolves to the names it was spelled from. */
  lemma ResolvedSpelled(stack: seq<string>)
    requires Names(stack)
    ensures Resolved(Written(stack) + "/") == stack
  {
    hide Components, Walk, Written;
    ComponentsAppend(Written(stack), "");
    assert Written(stack) + "/" + "" == Written(stack) + "/";
    WalkAppend([], Components(Written(stack)), [""]);
    ResolvedWritten(stack);
    WalkStay(stack, "");
  }

  /**
   * What a change asks for: the names reached, spelled out, if and only if the joined path is not
   * "/" itself; that one is spelled "//", which is neither the top nor the name of a directory.
   */
  lemma TargetSpells(stack: seq<string>, dir: string)
    requires Names(stack)
    ensures var wd, reached := Written(stack) + "/", Walk(if "/" <= dir then [] else stack, Components(dir));
      Target(wd, dir) == (if Joined(wd, dir) == "/" then "//" else Written(reached) + "/")
  {
    ResolvedSpelled(stack);
    hide Components, Walk, Written, Cleaned, Resolved, Joined;
    MergedWalks(Written(stack) + "/", dir);
  }

  lemma {:induction false} ChangedMoves(a: seq<char>, stack: seq<string>, dir: string)
    requires Names(stack) && !IsDirectory(a, "/")
    ensures Changed(a, Written(stack) + "/", dir) == Written(Moved(a, stack, dir)) + "/"
    ensures Names(Moved(a, stack, dir))
  {
    hide Components, Walk, Written, Joined, IsDirectory, Target, Names;
    var reached := Walk(if "/" <= dir then [] else stack, Components(dir));
    TargetSpells(stack, dir);
    ReachedNames(stack, dir);
    WrittenTop(reached);
    assert "//"[1..] == "/";
  }

  /**
   * Over every run of changes of directory the text is the spelling of the list, in an archive
   * without an entry called "/".
   */
  lemma {:induction false} ChangesTrack(a: seq<char>, stack: seq<string>, dirs: seq<string>)
    requires Names(stack) && !IsDirectory(a, "/")
    ensures ChangedAll(a, Written(stack) + "/", dirs) == Written(MovedAll(a, stack, dirs)) + "/"
    ensures Names(MovedAll(a, stack, dirs))
    decreases |dirs|
  {
    if dirs != [] {
      hide Written, Changed, Moved, IsDirectory, Names;
      ChangedMoves(a, stack, dirs[0]);
      ChangesTrack(a, Moved(a, stack, dirs[0]), dirs[1..]);
    }
  }

  /** Asking for "/" never works, although going up from below the top does. */
  lemma SlashFails(a: seq<char>, stack: seq<string>)
    requires Names(stack) && !IsDirectory(a, "/")
    ensures Changed(a, Written(stack) + "/", "/") == Written(stack) + "/"
    ensures |stack| == 1 ==> Changed(a, Written(stack) + "/", "..") == "/"
  {
    hide Written, IsDirectory, Names, Changed;
    ChangedMoves(a, stack, "/");
    assert Moved(a, stack, "/") == stack;
    if |stack| == 1 {
      ChangedMoves(a, stack, "..");
      ComponentsName("..");
      assert Walk(stack, [".."]) == [];
      assert Moved(a, stack, "..") == [];
      WrittenTop([]);
    }
  }

  method AppendSlash(buffer: array<char>)
    requires Terminated(buffer[..], 0) && |Str(buffer[..], 0)| + 1 < buffer.Length
    modifies buffer
    ensures Terminated(buffer[..], 0) && Str(buffer[..], 0) == old(Str(buffer[..], 0)) + "/"
  {
    hide Str;
    ghost var s := Str(buffer[..], 0);
    var l := KStrLen(buffer[..], 0);
    assert buffer[..l] == s;
    buffer[l] := '/';
    buffer[l + 1] := NUL;
    assert buffer[..l + 1] == s + "/";
    Laid(buffer, s + "/");
  }

  /** The copy of the new directory over the old one, read back. */
  method CopyWithin(a: seq<char>, wd: array<char>)
    requires Terminated(a, 0) && |Str(a, 0)| < 100 && |Str(a, 0)| < wd.Length
    modifies wd
    ensures Terminated(wd[..], 0) && Str(wd[..], 0) == Str(a, 0)
  {
    hide *;
    var n := KStrCpy(wd, 0, a, 0, 100);
    Laid(wd, Str(a, 0));
  }

  /** The test for a directory to change to. */
  method IsTarget(a: seq<char>, path: seq<char>) returns (yes: bool)
    requires Readable(a, 0) && Terminated(path, 0) && Str(path, 0) != ""
    ensures yes <==> Str(path, 0) == "/" || IsDirectory(a, Str(path, 0)[1..])
  {
    hide Str, Readable, Lookup, Terminated;
    NameOf(path);
    Literal("/");
    var top := KStrCmp(path, 0, "/" + [NUL], 0);
    yes := top == 0;
    if !yes {
      yes := SearchForDir(a, path);
    }
  }

  /** `do_chdir`, returning 0 when the directory changes; the texts have to fit their buffers. */
  method DoChdir(a: seq<char>, wd: array<char>, dirname: seq<char>, abspath: array<char>, temp: array<char>) returns (r: nat)
    requires Readable(a, 0) && wd != abspath && abspath != temp && wd != temp
    requires Terminated(wd[..], 0) && Terminated(dirname, 0)
    requires Str(wd[..], 0) != "" && Str(wd[..], 0)[0] == '/'
    requires abspath.Length == temp.Length == 100 && |Joined(Str(wd[..], 0), Str(dirname, 0))| < 100
    requires |Components(Joined(Str(wd[..], 0), Str(dirname, 0)))| <= 14
    requires |Target(Str(wd[..], 0), Str(dirname, 0))| < wd.Length && |Target(Str(wd[..], 0), Str(dirname, 0))| < 100
    modifies wd, abspath, temp
    ensures Terminated(wd[..], 0) && Str(wd[..], 0) == Changed(a, old(Str(wd[..], 0)), Str(dirname, 0))
    ensures var t := Target(old(Str(wd[..], 0)), Str(dirname, 0));
      r == 0 <==> t == "/" || IsDirectory(a, t[1..])
  {
    ghost var w, t := Str(wd[..], 0), Target(Str(wd[..], 0), Str(dirname, 0));
    hide Components, Merged, Str, Joined, Readable, Lookup;
    PathMerge(wd[..], dirname, abspath, 100, temp);
    AppendSlash(abspath);
    var found := IsTarget(a, abspath[..]);
    if found {
      CopyWithin(abspath[..], wd);
      return 0;
    }
    return 1;
  }
}
