/**
 * Reading an open file line by line, and the program that prints a file by reading until nothing
 * is left.
 */
module FileReader {
  import opened CStrings
  import opened Tarfs

  /** The most characters a read of that size takes: `size - 1` on 64 bits. */
  function Limit(size: nat): nat
    requires size < WORD
  {
    if size == 0 then WORD - 1 else size - 1
  }

  /** Up to n characters of the file from position k, not past the end of a line. */
  function Line(file: seq<char>, k: nat, n: nat): (s: seq<char>)
    decreases n
  {
    if n == 0 || k >= |file| then []
    else [file[k]] + if file[k] == '\n' then [] else Line(file, k + 1, n - 1)
  }

  lemma LineStep(file: seq<char>, k: nat, n: nat)
    ensures n == 0 || k >= |file| ==> Line(file, k, n) == []
    ensures n > 0 && k < |file| ==>
      Line(file, k, n) == [file[k]] + if file[k] == '\n' then [] else Line(file, k + 1, n - 1)
  {
  }

  /** A line is a stretch of the file, and it ends at the first of three stops. */
  lemma {:induction false} LineStops(file: seq<char>, k: nat, n: nat)
    requires k <= |file|
    ensures var s := Line(file, k, n);
      && |s| <= n && k + |s| <= |file| && s == file[k..k + |s|]
      && (forall j | 0 <= j < |s| - 1 :: s[j] != '\n')
      && (|s| == n || k + |s| == |file| || (s != [] && s[|s| - 1] == '\n'))
    decreases n
  {
    hide *;
    LineStep(file, k, n);
    if n > 0 && k < |file| && file[k] != '\n' {
      LineStops(file, k + 1, n - 1);
      var s := Line(file, k + 1, n - 1);
      assert file[k..k + 1 + |s|] == [file[k]] + file[k + 1..k + 1 + |s|];
    }
  }

  lemma LineWithin(file: seq<char>, k: nat, n: nat)
    requires k <= |file|
    ensures |Line(file, k, n)| <= n && k + |Line(file, k, n)| <= |file|
  {
    LineStops(file, k, n);
  }

  lemma {:induction false} LineAt(file: seq<char>, k: nat, n: nat, j: nat)
    requires k <= |file| && j <= |Line(file, k, n)|
    requires forall i | 0 <= i < j :: Line(file, k, n)[i] != '\n'
    ensures j < |Line(file, k, n)| <==> j < n && k + j < |file|
    ensures j < |Line(file, k, n)| ==> Line(file, k, n)[j] == file[k + j]
    ensures j < |Line(file, k, n)| && file[k + j] == '\n' ==> |Line(file, k, n)| == j + 1
    decreases n
  {
    hide *;
    LineStep(file, k, n);
    if j > 0 && n > 0 && k < |file| {
      assert Line(file, k, n)[0] == file[k];
      var rest := Line(file, k + 1, n - 1);
      forall i | 0 <= i < j - 1 ensures rest[i] != '\n' {
        assert Line(file, k, n)[i + 1] == rest[i];
      }
      LineAt(file, k + 1, n - 1, j - 1);
    }
  }

  ghost function Contents(a: seq<char>, f: Fd): (s: seq<char>)
    requires f.start + f.size <= |a|
    ensures |s| == f.size
  {
    a[f.start..f.start + f.size]
  }

  lemma ContentsAt(a: seq<char>, f: Fd, k: nat)
    requires f.start + f.size <= |a| && k < f.size
    ensures Contents(a, f)[k] == a[f.start + k]
  {
  }

  /** An entry of a process's file table, through which it is read. */
  class Descriptor {
    var start: nat
    var size: nat
    var offset: nat

    constructor (f: Fd)
      ensures Value() == f
    {
      start, size, offset := f.start, f.size, f.offset;
    }

    function Value(): Fd reads this { Fd(start, size, offset) }
  }

  /** The buffer holds the piece s, terminated; a piece that ends a line is counted without the terminator. */
  predicate Delivered(b: seq<char>, b': seq<char>, s: seq<char>, count: nat) {
    && |s| < |b| && b' == s + [NUL] + b[|s| + 1..]
    && count == |s| + if s != [] && s[|s| - 1] == '\n' then 0 else 1
  }

  lemma DeliveredIs(b: seq<char>, b': seq<char>, s: seq<char>, count: nat)
    requires |s| < |b| == |b'| && b'[|s|] == NUL && forall i | 0 <= i < |s| :: b'[i] == s[i]
    requires forall i | |s| < i < |b| :: b'[i] == b[i]
    requires count == |s| + if s != [] && s[|s| - 1] == '\n' then 0 else 1
    ensures Delivered(b, b', s, count)
  {
  }

  /**
   * What a read delivers: the characters of the file behind the old position, a terminator, and their
   * number, with the terminator counted unless they end a line.
   */
  lemma DeliveredText(a: seq<char>, f: Fd, k: nat, n: nat, b: seq<char>, b': seq<char>, count: nat)
    requires f.start + f.size <= |a| && k < f.size && Delivered(b, b', Line(Contents(a, f), k, n), count)
    ensures var m := |Line(Contents(a, f), k, n)|;
      && m < |b'| && k + m <= f.size && b'[..m] == a[f.start + k..f.start + k + m] && b'[m] == NUL
      && count == if m > 0 && b'[m - 1] == '\n' then m else m + 1
  {
    hide Line;
    var s := Line(Contents(a, f), k, n);
    LineStops(Contents(a, f), k, n);
    SliceOfSlice(a, f.start, f.size, k, |s|);
    assert b'[..|s|] == s;
  }

  /**
   * What a read of some size delivers: up to size - 1 characters, and fewer only at the end of the
   * line or of the file.  A size of 0 is taken for 2^64.
   */
  lemma PieceFits(file: seq<char>, k: nat, size: nat)
    requires k <= |file| && size < WORD
    ensures var s, room := Line(file, k, Limit(size)), (if size > 0 then size else 0x1_0000_0000_0000_0000) - 1;
      |s| <= room && (|s| == room || k + |s| == |file| || (s != [] && s[|s| - 1] == '\n'))
  {
    hide Line;
    LineStops(file, k, Limit(size));
  }

  lemma SliceOfSlice<T>(a: seq<T>, i: nat, n: nat, j: nat, m: nat)
    requires i + n <= |a| && j + m <= n
    ensures a[i..i + n][j..j + m] == a[i + j..i + j + m]
  {
    var b, c := a[i..i + n][j..j + m], a[i + j..i + j + m];
    assert forall x | 0 <= x < m :: b[x] == a[i + j + x] == c[x];
  }

  /**
   * `read_to_buffer`: 0 at the end of the file; otherwise the next piece of it, terminated, and a
   * count that includes the terminator unless the piece ends a line.
   */
  method ReadToBuffer(a: seq<char>, f: Descriptor, buffer: array<char>, size: nat) returns (count: nat)
    requires size < WORD && f.start + f.size <= |a|
    requires |Line(Contents(a, f.Value()), f.offset, Limit(size))| < buffer.Length
    modifies f`offset, buffer
    ensures count == 0 <==> old(f.offset) >= f.size
    ensures count == 0 ==> f.offset == old(f.offset) && buffer[..] == old(buffer[..])
    ensures count > 0 ==>
      var s := Line(Contents(a, old(f.Value())), old(f.offset), Limit(size));
      f.offset == old(f.offset) + |s| && Delivered(old(buffer[..]), buffer[..], s, count)
  {
    hide Line, Limit, Contents, Delivered;
    ghost var file, k, n := Contents(a, f.Value()), f.offset, Limit(size);
    ghost var s := Line(file, k, n);
    var sizeRead := 0;
    if f.offset >= f.size { return 0; }
    LineWithin(file, k, n);
    while sizeRead < Limit(size)
      invariant sizeRead <= |s| && f.offset == k + sizeRead
      invariant forall i | 0 <= i < sizeRead :: s[i] != '\n'
      invariant forall i | 0 <= i < sizeRead :: buffer[i] == s[i]
      invariant forall i | sizeRead <= i < buffer.Length :: buffer[i] == old(buffer[i])
      decreases |s| - sizeRead
    {
      LineAt(file, k, n, sizeRead);
      if f.offset >= f.size {
        buffer[sizeRead] := NUL;
        DeliveredIs(old(buffer[..]), buffer[..], s, sizeRead + 1);
        return sizeRead + 1;
      }
      ContentsAt(a, old(f.Value()), f.offset);
      buffer[sizeRead] := a[f.start + f.offset];
      f.offset := f.offset + 1;
      if buffer[sizeRead] == '\n' {
        buffer[sizeRead + 1] := NUL;
        DeliveredIs(old(buffer[..]), buffer[..], s, sizeRead + 1);
        return sizeRead + 1;
      }
      sizeRead := sizeRead + 1;
    }
    LineAt(file, k, n, sizeRead);
    buffer[sizeRead] := NUL;
    DeliveredIs(old(buffer[..]), buffer[..], s, sizeRead + 1);
    return sizeRead + 1;
  }

  /** Where the file position is after m reads. */
  function After(file: seq<char>, k: nat, n: nat, m: nat): nat
    decreases m
  {
    if m == 0 then k else After(file, k + |Line(file, k, n)|, n, m - 1)
  }

  lemma {:induction false} AfterStays(file: seq<char>, k: nat, m: nat)
    ensures After(file, k, 0, m) == k
    decreases m
  {
    if m > 0 { AfterStays(file, k, m - 1); }
  }

  lemma {:induction false} AfterArrives(file: seq<char>, k: nat, n: nat, m: nat)
    requires n > 0 && k <= |file| <= k + m
    ensures After(file, k, n, m) == |file|
    decreases m
  {
    if m > 0 {
      LineWithin(file, k, n);
      LineStep(file, k, n);
      hide Line;
      AfterArrives(file, k + |Line(file, k, n)|, n, m - 1);
    }
  }

  /** Reading again and again reaches the end of the file if and only if the size is not 1 or it is there already. */
  lemma ReadsArriveIff(file: seq<char>, k: nat, size: nat)
    requires k <= |file| && size < WORD
    ensures (exists m: nat :: After(file, k, Limit(size), m) == |file|) <==> size != 1 || k == |file|
  {
    if size == 1 {
      forall m: nat ensures After(file, k, 0, m) == k { AfterStays(file, k, m); }
      assert After(file, k, Limit(size), 0) == k;
    } else {
      AfterArrives(file, k, Limit(size), |file| - k);
    }
  }

  lemma {:induction false} StrPrefix(a: seq<char>, b: seq<char>, o: nat, n: nat)
    requires o <= n < |a| && n < |b| && a[n] == b[n] == NUL && forall i | 0 <= i < n :: a[i] == b[i]
    ensures Str(a, o) == Str(b, o) && o + |Str(a, o)| <= n
    decreases n - o
  {
    if o < n { StrPrefix(a, b, o + 1, n); }
  }

  /** What is printed of the file from k on, when it is read in pieces of at most n characters. */
  function Shown(file: seq<char>, k: nat, n: nat): (s: string)
    requires n > 0
    ensures NUL !in s
    decreases |file| - k
  {
    if k >= |file| then ""
    else
      var line := Line(file, k, n);
      Str(line + [NUL], 0) + if line == [] then "" else Shown(file, k + |line|, n)
  }

  lemma ShownUnfold(file: seq<char>, k: nat, n: nat)
    requires n > 0
    ensures k >= |file| ==> Shown(file, k, n) == ""
    ensures k < |file| ==> var line := Line(file, k, n);
      Shown(file, k, n) == Str(line + [NUL], 0) + if line == [] then "" else Shown(file, k + |line|, n)
  {
    hide Line, Str;
  }

  lemma ShownStep(file: seq<char>, k: nat, n: nat)
    requires n > 0
    ensures k >= |file| ==> Shown(file, k, n) == ""
    ensures k < |file| ==> var line := Line(file, k, n);
      && line != [] && k + |line| <= |file| && line == file[k..k + |line|]
      && Shown(file, k, n) == Str(line + [NUL], 0) + Shown(file, k + |line|, n)
  {
    hide *;
    ShownUnfold(file, k, n);
    if k < |file| {
      LineStep(file, k, n);
      LineStops(file, k, n);
    }
  }

  lemma {:induction false} ShownAll(file: seq<char>, k: nat, n: nat)
    requires n > 0 && k <= |file| && NUL !in file
    ensures Shown(file, k, n) == file[k..]
    decreases |file| - k
  {
    hide *;
    ShownStep(file, k, n);
    if k < |file| {
      var line := Line(file, k, n);
      ShownAll(file, k + |line|, n);
      assert NUL !in line;
      StrLaid(line + [NUL], 0, line);
      assert file[k..] == line + file[k + |line|..];
    }
  }

  /** Printing a file piece by piece shows exactly the file, if and only if it has no NUL in it. */
  lemma ShownIff(file: seq<char>, n: nat)
    requires n > 0
    ensures Shown(file, 0, n) == file <==> NUL !in file
  {
    if NUL !in file {
      ShownAll(file, 0, n);
    }
  }

  /** `cat`: read until nothing is left, printing the buffer each time. */
  method Cat(a: seq<char>, f: Descriptor, buffer: array<char>, size: nat) returns (output: string)
    requires 2 <= size <= buffer.Length && size < WORD && f.start + f.size <= |a| && f.offset <= f.size
    modifies f`offset, buffer
    ensures output == Shown(Contents(a, old(f.Value())), old(f.offset), size - 1)
    ensures f.offset == f.size
  {
    hide Line, Contents, Shown, Str, Delivered;
    ghost var file, k0 := Contents(a, f.Value()), f.offset;
    output := "";
    while true
      invariant f.offset <= f.size
      invariant output + Shown(file, f.offset, size - 1) == Shown(file, k0, size - 1)
      decreases f.size - f.offset
    {
      ghost var k, before := f.offset, buffer[..];
      SameContents(a, old(f.Value()), f.Value());
      LineWithin(file, k, size - 1);
      ShownStep(file, k, size - 1);
      var i := ReadToBuffer(a, f, buffer, size);
      if i <= 0 { break; }
      ghost var line := Line(file, k, size - 1);
      DeliveredStr(before, buffer[..], line, i);
      var text := Printed(buffer);
      output := output + text;
    }
  }

  lemma SameContents(a: seq<char>, f: Fd, g: Fd)
    requires f.start == g.start && f.size == g.size && f.start + f.size <= |a|
    ensures Contents(a, f) == Contents(a, g)
  {
  }

  lemma DeliveredStr(b: seq<char>, b': seq<char>, s: seq<char>, count: nat)
    requires Delivered(b, b', s, count)
    ensures Terminated(b', 0) && Str(b', 0) == Str(s + [NUL], 0)
  {
    StrPrefix(b', s + [NUL], 0, |s|);
  }

  /** `printf("%s", buffer)` */
  method Printed(buffer: array<char>) returns (text: string)
    requires Terminated(buffer[..], 0)
    ensures text == Str(buffer[..], 0)
  {
    var n := KStrLen(buffer[..], 0);
    text := buffer[..n];
  }

  /**
   * From archive to screen: a name that resolves opens a descriptor through which `cat` prints the
   * contents of the first entry of that name, exactly if these hold no NUL.
   */
  lemma OpenThenCat(a: seq<char>, entries: seq<Entry>, name: string, n: nat)
    requires ArchiveAt(a, entries, 0) && Regular(entries) && n > 0
    ensures FirstNamed(entries, name) < |entries| ==>
      var f, e := Lookup(a, 0, name), entries[FirstNamed(entries, name)];
      && f.Some? && f.value + 512 <= |a| && f.value + 512 + SizeAt(a, f.value) <= |a|
      && (Shown(Contents(a, Fd(f.value + 512, SizeAt(a, f.value), 0)), 0, n) == e.contents <==> NUL !in e.contents)
  {
    hide Regular, ArchiveAt, FirstNamed, Lookup, SizeAt, Shown;
    SearchThenOpen(a, entries, name);
    if FirstNamed(entries, name) < |entries| {
      ShownIff(entries[FirstNamed(entries, name)].contents, n);
    }
  }
}
