/**
 * Path names: the normaliser and the merging of a relative name into the working directory,
 * against a reference that walks the components with a stack of directories.
 */
module Paths {
  import opened CStrings

  /** The components when one more character has been seen. */
  function Extended(cs: seq<string>, c: char): (r: seq<string>)
    requires cs != []
    ensures r != []
  {
    if c == '/' then cs + [""] else cs[..|cs| - 1] + [cs[|cs| - 1] + [c]]
  }

  /** The pieces of a text between slashes. */
  function Components(s: string): (cs: seq<string>)
    ensures |cs| >= 1
  {
    if s == [] then [""] else Extended(Components(s[..|s| - 1]), s[|s| - 1])
  }

  predicate IsName(c: string) { c != "" && c != "." && c != ".." && '/' !in c }

  /** Entering one component: empty and "." stay, ".." goes up and stays at the top. */
  function Enter(stack: seq<string>, c: string): seq<string> {
    if c == "" || c == "." then stack
    else if c == ".." then (if stack == [] then [] else stack[..|stack| - 1])
    else stack + [c]
  }

  function Walk(stack: seq<string>, cs: seq<string>): seq<string>
    decreases |cs|
  {
    if cs == [] then stack else Walk(Enter(stack, cs[0]), cs[1..])
  }

  /** The directories a path leads through. */
  function Resolved(path: string): seq<string> { Walk([], Components(path)) }

  function Written(stack: seq<string>): string {
    if stack == [] then "" else Written(stack[..|stack| - 1]) + "/" + stack[|stack| - 1]
  }

  /** The normal form: "/" is kept, and a longer path that leads to the top becomes empty. */
  function Cleaned(path: string): string { if path == "/" then "/" else Written(Resolved(path)) }

  lemma {:induction false} WalkAppend(stack: seq<string>, a: seq<string>, b: seq<string>)
    ensures Walk(stack, a + b) == Walk(Walk(stack, a), b)
    decreases |a|
  {
    if a == [] {
      assert a + b == b;
    } else {
      assert (a + b)[1..] == a[1..] + b;
      WalkAppend(Enter(stack, a[0]), a[1..], b);
    }
  }

  lemma {:induction false} ComponentsNoSlash(s: string, i: nat)
    requires i < |Components(s)|
    ensures '/' !in Components(s)[i]
  {
    if s != [] {
      var n := |s| - 1;
      var cs := Components(s[..n]);
      if i < |cs| { ComponentsNoSlash(s[..n], i); }
    }
  }

  lemma {:induction false} WalkNames(stack: seq<string>, cs: seq<string>)
    requires forall i | 0 <= i < |stack| :: IsName(stack[i])
    requires forall i | 0 <= i < |cs| :: '/' !in cs[i]
    ensures forall i | 0 <= i < |Walk(stack, cs)| :: IsName(Walk(stack, cs)[i])
    decreases |cs|
  {
    if cs != [] { WalkNames(Enter(stack, cs[0]), cs[1..]); }
  }

  /** A resolved path consists of names only. */
  lemma ResolvedNames(path: string)
    ensures forall i | 0 <= i < |Resolved(path)| :: IsName(Resolved(path)[i])
  {
    forall i | 0 <= i < |Components(path)| ensures '/' !in Components(path)[i] {
      ComponentsNoSlash(path, i);
    }
    WalkNames([], Components(path));
  }

  /** Cutting after a slash separates the components. */
  lemma {:induction false} ComponentsJoin(a: string, b: string)
    requires a != [] && a[|a| - 1] == '/'
    ensures Components(a + b) == Components(a[..|a| - 1]) + Components(b)
    decreases |b|
  {
    hide *;
    if b == [] {
      assert a + b == a;
      ComponentsEnd(a);
      ComponentsEmpty();
    } else {
      var n := |b| - 1;
      assert (a + b)[..|a + b| - 1] == a + b[..n];
      ComponentsJoin(a, b[..n]);
      ComponentsEnd(b);
      ComponentsEnd(a + b);
      ExtendedAppend(Components(a[..|a| - 1]), Components(b[..n]), b[n]);
    }
  }

  lemma ComponentsEmpty()
    ensures Components("") == [""]
  {
  }

  lemma ComponentsEnd(s: string)
    requires s != []
    ensures var (front, last) := (s[..|s| - 1], s[|s| - 1]);
      && Components(s) == Extended(Components(front), last)
      && (last == '/' ==> Components(s) == Components(front) + [""])
  {
  }

  lemma ExtendedAppend(x: seq<string>, cs: seq<string>, c: char)
    requires cs != []
    ensures Extended(x + cs, c) == x + Extended(cs, c)
  {
  }

  lemma {:induction false} ComponentsName(c: string)
    requires '/' !in c
    ensures Components(c) == [c]
  {
    if c != [] {
      var n := |c| - 1;
      ComponentsName(c[..n]);
      assert c == c[..n] + [c[n]];
    }
  }

  lemma ComponentsAppend(w: string, c: string)
    requires '/' !in c
    ensures Components(w + "/" + c) == Components(w) + [c]
  {
    hide *;
    ComponentsName(c);
    ComponentsJoin(w + "/", c);
    assert (w + "/")[..|w + "/"| - 1] == w;
  }

  lemma {:induction false} ComponentsWritten(stack: seq<string>)
    requires forall i | 0 <= i < |stack| :: IsName(stack[i])
    ensures Components(Written(stack)) == [""] + stack
  {
    if stack != [] {
      var n := |stack| - 1;
      assert IsName(stack[n]);
      ComponentsWritten(stack[..n]);
      hide Components;
      ComponentsAppend(Written(stack[..n]), stack[n]);
      assert [""] + stack[..n] + [stack[n]] == [""] + stack;
    }
  }

  lemma {:induction false} WalkOfNames(stack: seq<string>, names: seq<string>)
    requires forall i | 0 <= i < |names| :: IsName(names[i])
    ensures Walk(stack, names) == stack + names
    decreases |names|
  {
    if names != [] {
      WalkOfNames(stack + [names[0]], names[1..]);
      assert stack + [names[0]] + names[1..] == stack + names;
    }
  }

  /** Resolving what was written down gives the same directories back. */
  lemma ResolvedWritten(stack: seq<string>)
    requires forall i | 0 <= i < |stack| :: IsName(stack[i])
    ensures Resolved(Written(stack)) == stack
  {
    ComponentsWritten(stack);
    WalkAppend([], [""], stack);
    assert Walk([], [""]) == [];
    WalkOfNames([], stack);
  }

  /** Cleaning twice is cleaning once, and a clean path leads where the original did. */
  lemma CleanedIdempotent(path: string)
    ensures Cleaned(Cleaned(path)) == Cleaned(path)
    ensures Resolved(Cleaned(path)) == Resolved(path)
  {
    ResolvedNames(path);
    ResolvedWritten(Resolved(path));
    if path != "/" && Resolved(path) != [] {
      var n := |Resolved(path)| - 1;
      assert IsName(Resolved(path)[n]) && |Cleaned(path)| >= 1 + |Resolved(path)[n]|;
    }
  }

  /** What `path_merge` hands to the normaliser. */
  function Joined(base: string, relative: string): string {
    if "/" <= relative then relative
    else if "./" <= relative then base + relative[2..]
    else base + relative
  }

  function Merged(base: string, relative: string): string { Cleaned(Joined(base, relative)) }

  /** A name relative to a directory, written with its slash, is followed from there. */
  lemma ResolvedFrom(base: string, relative: string)
    requires base != "" && base[|base| - 1] == '/'
    ensures Resolved(base + relative) == Walk(Resolved(base), Components(relative))
  {
    var dir := base[..|base| - 1];
    hide Components, Walk;
    ComponentsJoin(base, relative);
    WalkAppend([], Components(dir), Components(relative));
    ComponentsJoin(base, "");
    assert base + "" == base;
    ComponentsName("");
    WalkAppend([], Components(dir), [""]);
    WalkStay(Walk([], Components(dir)), "");
  }

  /** Going into a directory and up again leads back, and the top is its own parent. */
  lemma WalkUp(stack: seq<string>, c: string)
    requires IsName(c)
    ensures Walk(stack, [c]) == stack + [c] && Walk(stack, [c, ".."]) == stack && Walk([], [".."]) == []
  {
    assert [c, ".."][1..] == [".."] && [c][1..] == [] && [".."][1..] == [];
    assert (stack + [c])[..|stack|] == stack;
  }

  lemma WalkStay(stack: seq<string>, c: string)
    requires c == "" || c == "."
    ensures Walk(stack, [c]) == stack
  {
  }

  /** A leading "./" leads nowhere. */
  lemma WalkDotSlash(stack: seq<string>, tail: string)
    ensures Walk(stack, Components("./" + tail)) == Walk(stack, Components(tail))
  {
    hide Components, Walk;
    ComponentsJoin("./", tail);
    assert "./"[..1] == ".";
    ComponentsName(".");
    WalkAppend(stack, ["."], Components(tail));
    WalkStay(stack, ".");
  }

  /**
   * All three branches follow the relative name from the base directory, provided the base ends in
   * a slash; only the path "/" keeps a slash where nothing is left of it.
   */
  lemma MergedWalks(base: string, relative: string)
    requires base != "" && base[|base| - 1] == '/'
    ensures var reached := Walk(if "/" <= relative then [] else Resolved(base), Components(relative));
      && Resolved(Joined(base, relative)) == reached
      && Merged(base, relative) == if Joined(base, relative) == "/" then "/" else Written(reached)
  {
    hide Components, Walk, Written;
    if "/" <= relative {
    } else if "./" <= relative {
      assert relative == "./" + relative[2..];
      ResolvedFrom(base, relative[2..]);
      WalkDotSlash(Resolved(base), relative[2..]);
    } else {
      ResolvedFrom(base, relative);
    }
  }

  /** The branch for "./" agrees with plain joining except for "./" itself in the top directory. */
  lemma MergedDotSlash(base: string, relative: string)
    requires base != "" && base[|base| - 1] == '/' && !("/" <= relative)
    ensures Merged(base, relative) == Cleaned(base + relative) <==> !(base == "/" && relative == "./")
  {
    if base == "/" && relative == "./" {
      assert base + relative == "/./" && base + relative[2..] == "/";
      TopIsEmpty();
    } else if "./" <= relative {
      hide Components, Walk, Written;
      assert base + relative[2..] != "/" by {
        assert relative == "./" + relative[2..];
        assert |base + relative[2..]| == |base| + |relative| - 2;
      }
      MergedWalks(base, relative);
      ResolvedFrom(base, relative);
    }
  }

  lemma TopIsEmpty()
    ensures Cleaned("/./") == ""
  {
    assert "/./"[..2] == "/." && "/."[..1] == "/" && "/"[..0] == "";
  }
}
