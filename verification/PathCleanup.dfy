/**
 * `cleanup_path`: the normaliser as the source runs it, in place on the caller's buffer, on a copy
 * cut into pieces and on an array of pointers to the pieces.  A pointer is an offset into the copy
 * and -1 is NULL.
 */
module PathCleanup {
  import opened CStrings
  import opened Paths

  const NULL := -1

  /** The pointers are in order, their texts do not overlap, and the remaining ones are NULL. */
  ghost predicate Spaced(parts: seq<int>, cs: seq<string>) {
    && |parts| == 15 && |cs| <= 15
    && (forall k | 0 <= k < |cs| :: 0 <= parts[k])
    && (forall k, l | 0 <= k < l < |cs| :: parts[k] + |cs[k]| < parts[l])
    && (forall k | |cs| <= k < 15 :: parts[k] == NULL)
  }

  ghost predicate Piece(temp: seq<char>, p: int, c: string, end: nat) {
    0 <= p && p + |c| <= end <= |temp| && temp[p..p + |c|] == c
  }

  /** Each pointer leads to a terminated piece in the first `end` characters. */
  ghost predicate Pieces(temp: seq<char>, parts: seq<int>, cs: seq<string>, end: nat) {
    Spaced(parts, cs) && forall k | 0 <= k < |cs| ::
      Piece(temp, parts[k], cs[k], end) && Terminated(temp, parts[k]) && Str(temp, parts[k]) == cs[k]
  }

  /** The first i characters of the copy have been cut; the last piece is still open. */
  ghost predicate Cut(temp: seq<char>, parts: seq<int>, cs: seq<string>, i: nat) {
    && Spaced(parts, cs) && cs != []
    && (forall k | 0 <= k < |cs| :: Piece(temp, parts[k], cs[k], i))
    && (forall k | 0 <= k < |cs| - 1 :: parts[k] + |cs[k]| < i && temp[parts[k] + |cs[k]|] == NUL)
    && parts[|cs| - 1] + |cs[|cs| - 1]| == i
  }

  lemma ComponentsSnoc(s: string, i: nat)
    requires i < |s|
    ensures Components(s[..i + 1]) == Extended(Components(s[..i]), s[i])
    ensures |Components(s[..i + 1])| == |Components(s[..i])| + if s[i] == '/' then 1 else 0
  {
    assert s[..i + 1][..i] == s[..i];
  }

  lemma {:induction false} ComponentsGrow(s: string, i: nat)
    requires i <= |s|
    ensures |Components(s[..i])| <= |Components(s)|
    decreases |s| - i
  {
    if i == |s| {
      assert s[..i] == s;
    } else {
      ComponentsSnoc(s, i);
      ComponentsGrow(s, i + 1);
    }
  }

  lemma CutSlash(temp: seq<char>, parts: seq<int>, cs: seq<string>, i: nat)
    requires Cut(temp, parts, cs, i) && i + 1 < |temp| && |cs| < 15
    ensures |parts| == 15 && Cut(temp[i := NUL], parts[|cs| := i + 1], Extended(cs, '/'), i + 1)
  {
    var temp', parts', cs' := temp[i := NUL], parts[|cs| := i + 1], cs + [""];
    forall k | 0 <= k < |cs'| ensures Piece(temp', parts'[k], cs'[k], i + 1) {
      if k < |cs| {
        assert Piece(temp, parts[k], cs[k], i);
        assert temp'[parts[k]..parts[k] + |cs[k]|] == temp[parts[k]..parts[k] + |cs[k]|];
      }
    }
    assert Spaced(parts', cs') by {
      forall k, l | 0 <= k < l < |cs'| ensures parts'[k] + |cs'[k]| < parts'[l] {
        assert Piece(temp, parts[k], cs[k], i);
      }
    }
  }

  lemma CutOther(temp: seq<char>, parts: seq<int>, cs: seq<string>, i: nat)
    requires Cut(temp, parts, cs, i) && i < |temp| && temp[i] != '/'
    ensures Cut(temp, parts, Extended(cs, temp[i]), i + 1)
  {
    var cs', n := Extended(cs, temp[i]), |cs| - 1;
    forall k | 0 <= k < |cs'| ensures Piece(temp, parts[k], cs'[k], i + 1) {
      assert Piece(temp, parts[k], cs[k], i);
      if k == n {
        assert temp[parts[n]..i + 1] == temp[parts[n]..i] + [temp[i]];
      }
    }
  }

  lemma CutPieces(temp: seq<char>, parts: seq<int>, cs: seq<string>, end: nat)
    requires Cut(temp, parts, cs, end) && end < |temp| && temp[end] == NUL && forall k | 0 <= k < |cs| :: NUL !in cs[k]
    ensures Pieces(temp, parts, cs, end)
  {
    hide Str, Terminated;
    assert |cs| <= |parts|;
    forall k | 0 <= k < |cs|
      ensures 0 <= parts[k] && Piece(temp, parts[k], cs[k], end) && Terminated(temp, parts[k]) && Str(temp, parts[k]) == cs[k]
    {
      CutPiece(temp, parts, cs, end, k);
      PieceRead(temp, parts[k], cs[k], end);
    }
  }

  lemma CutPiece(temp: seq<char>, parts: seq<int>, cs: seq<string>, end: nat, k: nat)
    requires Cut(temp, parts, cs, end) && end < |temp| && temp[end] == NUL && k < |cs|
    ensures k < |parts| && Piece(temp, parts[k], cs[k], end) && parts[k] + |cs[k]| < |temp| && temp[parts[k] + |cs[k]|] == NUL
  {
  }

  lemma PieceRead(temp: seq<char>, p: int, c: string, end: nat)
    requires Piece(temp, p, c, end) && p + |c| < |temp| && temp[p + |c|] == NUL && NUL !in c
    ensures Terminated(temp, p) && Str(temp, p) == c
  {
    StrLaid(temp, p, c);
  }

  function Drop<T>(s: seq<T>, i: nat): seq<T>
    requires i < |s|
  {
    s[..i] + s[i + 1..]
  }

  lemma SpacedDrop(parts: seq<int>, cs: seq<string>, i: nat)
    requires Spaced(parts, cs) && i < |cs|
    ensures Spaced(Drop(parts, i) + [NULL], Drop(cs, i))
  {
    var parts', cs' := Drop(parts, i) + [NULL], Drop(cs, i);
    forall k, l | 0 <= k < l < |cs'| ensures parts'[k] + |cs'[k]| < parts'[l] {
      var j, m := if k < i then k else k + 1, if l < i then l else l + 1;
      assert parts[j] + |cs[j]| < parts[m];
    }
  }

  lemma PiecesDrop(temp: seq<char>, parts: seq<int>, cs: seq<string>, i: nat, end: nat)
    requires Pieces(temp, parts, cs, end) && i < |cs|
    ensures Pieces(temp, Drop(parts, i) + [NULL], Drop(cs, i), end)
  {
    SpacedDrop(parts, cs, i);
    var parts', cs' := Drop(parts, i) + [NULL], Drop(cs, i);
    hide Spaced, Piece, Str;
    forall k | 0 <= k < |cs'|
      ensures Piece(temp, parts'[k], cs'[k], end) && Terminated(temp, parts'[k]) && Str(temp, parts'[k]) == cs'[k]
    {
      var j := if k < i then k else k + 1;
      assert parts'[k] == parts[j] && cs'[k] == cs[j] && Piece(temp, parts[j], cs[j], end);
    }
  }

  /** Only an empty piece can stand at the very start. */
  ghost predicate OffStart(parts: seq<int>, cs: seq<string>) {
    |cs| <= |parts| && forall k | 0 <= k < |cs| :: parts[k] == 0 ==> cs[k] == ""
  }

  lemma OffStartDrop(parts: seq<int>, cs: seq<string>, i: nat)
    requires OffStart(parts, cs) && i < |cs|
    ensures OffStart(Drop(parts, i) + [NULL], Drop(cs, i))
  {
    var parts', cs' := Drop(parts, i) + [NULL], Drop(cs, i);
    forall k | 0 <= k < |cs'| ensures parts'[k] == 0 ==> cs'[k] == "" {
      var j := if k < i then k else k + 1;
      assert parts'[k] == parts[j] && cs'[k] == cs[j];
    }
  }

  /** The pointers after the loop that closes the gap of pointer i; the last one stays where it is. */
  function Shifted(parts: seq<int>, i: nat): seq<int>
    requires |parts| == 15 && i < 15
  {
    parts[..i] + parts[i + 1..] + [parts[14]]
  }

  /** The same for pointer i and the one before it. */
  function ShiftedTwice(parts: seq<int>, i: nat): seq<int>
    requires |parts| == 15 && 0 < i < 15
  {
    parts[..i - 1] + parts[i + 1..] + parts[13..]
  }

  /** While pointers are left over at the end, closing the gap drops the pointer. */
  lemma ShiftedDrops(parts: seq<int>, i: nat)
    requires |parts| == 15 && i < 14 && parts[14] == NULL
    ensures Shifted(parts, i) == Drop(parts, i) + [NULL]
    ensures i > 0 && parts[13] == NULL ==> ShiftedTwice(parts, i) == Drop(Drop(parts, i - 1) + [NULL], i - 1) + [NULL]
  {
  }

  /**
   * With 14 slashes all pointers are in use, and closing gaps never frees one: no NULL is left to
   * end the loops, which then run past the array or do not end.
   */
  lemma FullStays(parts: seq<int>, i: nat)
    requires |parts| == 15 && i < 15 && NULL !in parts
    ensures NULL !in Shifted(parts, i) && (i > 0 ==> NULL !in ShiftedTwice(parts, i))
  {
  }

  method ShiftOne(parts: array<int>, i: nat)
    requires parts.Length == 15 && i < 15
    modifies parts
    ensures parts[..] == Shifted(old(parts[..]), i)
  {
    var j := i;
    while j < 14
      invariant i <= j <= 14
      invariant forall k | 0 <= k < 15 :: parts[k] == if i <= k < j then old(parts[k + 1]) else old(parts[k])
    {
      parts[j] := parts[j + 1];
      j := j + 1;
    }
  }

  method ShiftTwo(parts: array<int>, i: nat)
    requires parts.Length == 15 && 0 < i < 15
    modifies parts
    ensures parts[..] == ShiftedTwice(old(parts[..]), i)
  {
    var j := i - 1;
    while j < 13
      invariant i - 1 <= j <= 13
      invariant forall k | 0 <= k < 15 :: parts[k] == if i - 1 <= k < j then old(parts[k + 2]) else old(parts[k])
    {
      parts[j] := parts[j + 2];
      j := j + 1;
    }
  }

  /** The copy of the buffer and its pieces. */
  method SplitPath(buffer: array<char>, size: nat, temp: array<char>, parts: array<int>)
    requires buffer != temp && parts.Length == 15
    requires |Str(buffer[..], 0)| < size <= buffer.Length && size <= temp.Length
    requires |Components(Str(buffer[..], 0))| <= 15
    modifies temp, parts
    ensures Pieces(temp[..], parts[..], Components(Str(buffer[..], 0)), |Str(buffer[..], 0)|)
  {
    hide Cut, Pieces, Components, Extended, Str;
    var i := 0;
    while i < 15
      invariant i <= 15 && forall k | 0 <= k < i :: parts[k] == NULL
    {
      parts[i] := NULL;
      i := i + 1;
    }
    parts[0] := 0;
    var partPointer := 1;
    i := 0;
    while i < size
      invariant i <= size && forall k | 0 <= k < i :: temp[k] == buffer[k]
      modifies temp
    {
      temp[i] := buffer[i];
      i := i + 1;
    }
    CutStarts(temp[..], parts[..]);
    CutParts(buffer, size, temp, parts, partPointer);
  }

  /** The second loop of it: each slash ends a piece and starts the next one. */
  method CutParts(buffer: array<char>, size: nat, temp: array<char>, parts: array<int>, first: nat)
    requires buffer != temp && parts.Length == 15 && first == 1
    requires |Str(buffer[..], 0)| < size <= buffer.Length && size <= temp.Length
    requires |Components(Str(buffer[..], 0))| <= 15
    requires Cut(temp[..], parts[..], Components(""), 0) && forall j | 0 <= j < size :: temp[j] == buffer[j]
    modifies temp, parts
    ensures Pieces(temp[..], parts[..], Components(Str(buffer[..], 0)), |Str(buffer[..], 0)|)
  {
    hide Cut, Pieces, Components, Extended, Str;
    ghost var s := Str(buffer[..], 0);
    var i, partPointer := 0, first;
    OneComponent();
    assert s[..0] == "";
    while i < size && buffer[i] != NUL
      invariant i <= |s| && partPointer == |Components(s[..i])|
      invariant Cut(temp[..], parts[..], Components(s[..i]), i)
      invariant forall j | i <= j < size :: temp[j] == buffer[j]
    {
      StrAt(buffer[..], 0, i);
      ComponentsSnoc(s, i);
      ComponentsGrow(s, i + 1);
      if buffer[i] == '/' {
        CutSlash(temp[..], parts[..], Components(s[..i]), i);
        temp[i] := NUL;
        parts[partPointer] := i + 1;
        partPointer := partPointer + 1;
      } else {
        CutOther(temp[..], parts[..], Components(s[..i]), i);
      }
      i := i + 1;
    }
    StrAt(buffer[..], 0, i);
    assert s[..i] == s;
    CutEnds(temp[..], parts[..], s);
  }

  lemma OneComponent()
    ensures |Components("")| == 1
  {
  }

  lemma CutStarts(temp: seq<char>, parts: seq<int>)
    requires |parts| == 15 && parts[0] == 0 && forall k | 0 < k < 15 :: parts[k] == NULL
    ensures Cut(temp, parts, Components(""), 0) && |Components("")| == 1
  {
    assert temp[0..0] == "";
  }

  lemma {:induction false} ComponentsPart(s: string, c: char)
    requires c !in s
    ensures forall k | 0 <= k < |Components(s)| :: c !in Components(s)[k]
  {
    if s != [] {
      assert s == s[..|s| - 1] + [s[|s| - 1]];
      ComponentsPart(s[..|s| - 1], c);
    }
  }

  lemma CutEnds(temp: seq<char>, parts: seq<int>, s: string)
    requires Cut(temp, parts, Components(s), |s|) && |s| < |temp| && temp[|s|] == NUL && NUL !in s
    ensures Pieces(temp, parts, Components(s), |s|)
  {
    hide *;
    ComponentsPart(s, NUL);
    CutPieces(temp, parts, Components(s), |s|);
  }

  /** A string literal. */
  lemma Literal(s: string)
    requires NUL !in s
    ensures Terminated(s + [NUL], 0) && Str(s + [NUL], 0) == s
  {
    StrLaid(s + [NUL], 0, s);
  }

  /**
   * The state of the loop over the pieces: `done` lies before pointer i and `todo` from there on;
   * following what is left from what is done always ends in the same place.
   */
  ghost predicate Following(temp: seq<char>, parts: seq<int>, cs: seq<string>, end: nat, done: seq<string>, todo: seq<string>) {
    && Pieces(temp, parts, done + todo, end) && OffStart(parts, done + todo)
    && Walk(done, todo) == Walk([], cs)
    && (forall k | 0 <= k < |done| :: done[k] != "")
    && |done| + |todo| <= 14
    && (|done| + |todo| == 14 ==> done == [] && todo[0] == "")
  }

  lemma FollowingReads(temp: seq<char>, parts: seq<int>, cs: seq<string>, end: nat, done: seq<string>, todo: seq<string>)
    requires Following(temp, parts, cs, end, done, todo)
    ensures |parts| == 15 && |done| + |todo| <= 14 && (parts[|done|] == NULL <==> todo == []) && parts[14] == NULL
    ensures |done| > 0 ==> parts[13] == NULL
    ensures todo != [] ==> var p := parts[|done|];
      0 <= p < |temp| && Terminated(temp, p) && Str(temp, p) == todo[0] && (temp[p] == NUL <==> todo[0] == "")
  {
    if todo != [] {
      assert (done + todo)[|done|] == todo[0];
    }
  }

  /** Dropping the piece under consideration, when entering it leads nowhere. */
  lemma FollowingSkip(temp: seq<char>, parts: seq<int>, cs: seq<string>, end: nat, done: seq<string>, todo: seq<string>)
    requires Following(temp, parts, cs, end, done, todo) && todo != [] && Enter(done, todo[0]) == done
    ensures |done| < |parts|
    ensures Following(temp, Drop(parts, |done|) + [NULL], cs, end, done, todo[1..])
  {
    hide Pieces, OffStart;
    FollowingReads(temp, parts, cs, end, done, todo);
    assert Drop(done + todo, |done|) == done + todo[1..];
    PiecesDrop(temp, parts, done + todo, |done|, end);
    OffStartDrop(parts, done + todo, |done|);
  }

  /** Dropping ".." and the name before it. */
  lemma FollowingUp(temp: seq<char>, parts: seq<int>, cs: seq<string>, end: nat, done: seq<string>, todo: seq<string>)
    requires Following(temp, parts, cs, end, done, todo) && todo != [] && todo[0] == ".." && done != []
    ensures |done| < |parts|
    ensures Following(temp, Drop(Drop(parts, |done| - 1) + [NULL], |done| - 1) + [NULL], cs, end, done[..|done| - 1], todo[1..])
  {
    hide Pieces, OffStart;
    var n := |done| - 1;
    FollowingReads(temp, parts, cs, end, done, todo);
    var parts1, all := Drop(parts, n) + [NULL], done[..n] + todo;
    assert Drop(done + todo, n) == all;
    assert Drop(all, n) == done[..n] + todo[1..];
    PiecesDrop(temp, parts, done + todo, n, end);
    OffStartDrop(parts, done + todo, n);
    PiecesDrop(temp, parts1, all, n, end);
    OffStartDrop(parts1, all, n);
  }

  lemma FollowingKeep(temp: seq<char>, parts: seq<int>, cs: seq<string>, end: nat, done: seq<string>, todo: seq<string>)
    requires Following(temp, parts, cs, end, done, todo) && todo != []
    requires todo[0] != "" && todo[0] != "." && todo[0] != ".."
    ensures Following(temp, parts, cs, end, done + [todo[0]], todo[1..])
  {
    hide Pieces, OffStart;
    assert done + [todo[0]] + todo[1..] == done + todo;
  }

  /** The loop that drops "", "." and ".." from the array of pieces, with its index stepping back. */
  method FollowParts(temp: seq<char>, parts: array<int>, ghost cs: seq<string>, ghost end: nat)
    requires parts.Length == 15 && Pieces(temp, parts[..], cs, end) && 0 < |cs| <= 14 && cs[0] == ""
    modifies parts
    ensures Pieces(temp, parts[..], Walk([], cs), end) && OffStart(parts[..], Walk([], cs))
    ensures (forall k | 0 <= k < |Walk([], cs)| :: Walk([], cs)[k] != "") && |Walk([], cs)| <= 14
  {
    hide Pieces, OffStart, Walk, Str;
    ghost var done: seq<string>, todo := [], cs;
    FollowingStarts(temp, parts[..], cs, end);
    FollowingReads(temp, parts[..], cs, end, done, todo);
    var i: int := 0;
    while i < 15 && parts[i] != NULL
      invariant i == |done| && i < 15 && Following(temp, parts[..], cs, end, done, todo)
      decreases |todo|
    {
      FollowingReads(temp, parts[..], cs, end, done, todo);
      var skip := temp[parts[i]] == NUL;
      if !skip {
        Literal(".");
        var dot := KStrCmp(temp, parts[i], "." + [NUL], 0);
        skip := dot == 0;
      }
      if skip {
        FollowingSkip(temp, parts[..], cs, end, done, todo);
        ShiftedDrops(parts[..], i);
        ShiftOne(parts, i);
        todo := todo[1..];
        i := i - 1;
      } else {
        Literal("..");
        var up := KStrCmp(temp, parts[i], ".." + [NUL], 0);
        if up == 0 {
          if i == 0 {
            FollowingSkip(temp, parts[..], cs, end, done, todo);
            ShiftedDrops(parts[..], i);
            ShiftOne(parts, i);
            todo := todo[1..];
            i := i - 1;
          } else {
            FollowingUp(temp, parts[..], cs, end, done, todo);
            ShiftedDrops(parts[..], i);
            ShiftTwo(parts, i);
            done, todo := done[..|done| - 1], todo[1..];
            i := i - 2;
          }
        } else {
          FollowingKeep(temp, parts[..], cs, end, done, todo);
          done, todo := done + [todo[0]], todo[1..];
        }
      }
      i := i + 1;
      FollowingReads(temp, parts[..], cs, end, done, todo);
    }
    FollowingReads(temp, parts[..], cs, end, done, todo);
    FollowingEnds(temp, parts[..], cs, end, done);
  }

  lemma FollowingStarts(temp: seq<char>, parts: seq<int>, cs: seq<string>, end: nat)
    requires Pieces(temp, parts, cs, end) && 0 < |cs| <= 14 && cs[0] == ""
    ensures Following(temp, parts, cs, end, [], cs)
  {
    assert [] + cs == cs;
  }

  lemma FollowingEnds(temp: seq<char>, parts: seq<int>, cs: seq<string>, end: nat, done: seq<string>)
    requires Following(temp, parts, cs, end, done, [])
    ensures done == Walk([], cs) && Pieces(temp, parts, done, end) && OffStart(parts, done)
    ensures (forall k | 0 <= k < |done| :: done[k] != "") && |done| <= 14
  {
    assert done + [] == done;
  }

  lemma WrittenSnoc(cs: seq<string>, k: nat)
    requires k < |cs|
    ensures Written(cs[..k + 1]) == Written(cs[..k]) + "/" + cs[k]
  {
    assert cs[..k + 1][..k] == cs[..k];
  }

  lemma {:induction false} WrittenText(cs: seq<string>)
    requires forall k | 0 <= k < |cs| :: NUL !in cs[k]
    ensures NUL !in Written(cs)
  {
    if cs != [] {
      WrittenText(cs[..|cs| - 1]);
    }
  }

  lemma PiecesRead(temp: seq<char>, parts: seq<int>, cs: seq<string>, end: nat, k: nat)
    requires Pieces(temp, parts, cs, end) && k <= |cs| <= 14
    ensures |parts| == 15 && k < 15 && (parts[k] == NULL <==> k == |cs|)
    ensures k < |cs| ==> 0 <= parts[k] && Terminated(temp, parts[k]) && Str(temp, parts[k]) == cs[k]
    ensures k < |cs| ==> parts[k] + |cs[k]| <= end
    ensures k + 1 < |cs| ==> parts[k] + |cs[k]| < parts[k + 1]
  {
    if k < |cs| { assert Piece(temp, parts[k], cs[k], end); }
  }

  lemma WrittenNone(cs: seq<string>)
    ensures Written(cs[..0]) == ""
  {
  }

  method WritePart(buffer: array<char>, i: nat, temp: seq<char>, part: nat) returns (l: nat)
    requires Terminated(temp, part) && i + |Str(temp, part)| < buffer.Length
    modifies buffer
    ensures l == |Str(temp, part)| && buffer[..i + l + 1] == old(buffer[..i]) + Str(temp, part) + "/"
    ensures Only(buffer, i, i + l + 1)
  {
    hide Str;
    l := KStrLen(temp, part);
    var r := KStrCpy(buffer, i, temp, part, l);
    assert buffer[..i] == old(buffer[..i]);
    buffer[i + l] := '/';
    assert buffer[..i + l + 1] == buffer[..i] + buffer[i..i + l] + "/";
  }

  /** Writes the pieces back, each after a slash; the last slash becomes the terminator. */
  method WriteParts(buffer: array<char>, temp: seq<char>, parts: seq<int>, ghost cs: seq<string>, ghost end: nat)
    requires Pieces(temp, parts, cs, end) && OffStart(parts, cs) && end < buffer.Length && |cs| <= 14
    requires forall k | 0 <= k < |cs| :: cs[k] != ""
    modifies buffer
    ensures Terminated(buffer[..], 0) && Str(buffer[..], 0) == Written(cs)
    ensures Only(buffer, 0, end + 1)
  {
    hide Pieces, OffStart, Spaced, Piece, Terminated, Written, Str;
    var i, part := 1, 0;
    buffer[0] := '/';
    PiecesRead(temp, parts, cs, end, 0);
    OffFirst(parts, cs);
    WrittenNone(cs);
    while parts[part] != NULL
      invariant part <= |cs| && |parts| == 15 && part < 15
      invariant 1 <= i <= end + 1 && (part < |cs| ==> i <= parts[part])
      invariant buffer[..i] == Written(cs[..part]) + "/"
      invariant Only(buffer, 0, end + 1)
      decreases |cs| - part
    {
      PiecesRead(temp, parts, cs, end, part);
      var l := WritePart(buffer, i, temp, parts[part]);
      WrittenSnoc(cs, part);
      i, part := i + l + 1, part + 1;
      PiecesRead(temp, parts, cs, end, part);
    }
    PiecesRead(temp, parts, cs, end, part);
    assert cs[..part] == cs;
    PiecesText(temp, parts, cs, end);
    WrittenText(cs);
    CloseText(buffer, i, Written(cs));
  }

  lemma OffFirst(parts: seq<int>, cs: seq<string>)
    requires OffStart(parts, cs)
    ensures cs != [] && cs[0] != "" ==> parts != [] && parts[0] != 0
  {
  }

  /** The last slash becomes the terminator. */
  method CloseText(buffer: array<char>, i: nat, ghost s: string)
    requires 0 < i <= buffer.Length && buffer[..i] == s + "/" && NUL !in s
    modifies buffer
    ensures Terminated(buffer[..], 0) && Str(buffer[..], 0) == s && Only(buffer, i - 1, i)
  {
    hide Str, Terminated;
    assert |s| == i - 1;
    buffer[i - 1] := NUL;
    Laid(buffer, s);
  }

  lemma PiecesText(temp: seq<char>, parts: seq<int>, cs: seq<string>, end: nat)
    requires Pieces(temp, parts, cs, end)
    ensures forall k | 0 <= k < |cs| :: NUL !in cs[k]
  {
  }

  /**
   * `cleanup_path` on an absolute path with at most 13 slashes: the buffer ends up holding the
   * normal form, and nothing beyond the end of the original path is touched.
   */
  method CleanupPath(buffer: array<char>, size: nat, temp: array<char>)
    requires buffer != temp && |Str(buffer[..], 0)| < size <= buffer.Length && size <= temp.Length
    requires Str(buffer[..], 0) == "" || Str(buffer[..], 0)[0] == '/'
    requires |Components(Str(buffer[..], 0))| <= 14
    modifies buffer, temp
    ensures Terminated(buffer[..], 0) && Str(buffer[..], 0) == Cleaned(old(Str(buffer[..], 0)))
    ensures Only(buffer, 0, |old(Str(buffer[..], 0))| + 1)
  {
    ghost var s := Str(buffer[..], 0);
    hide Pieces, OffStart, Components, Walk, Written, Str;
    Literal("/");
    var top := KStrCmp(buffer[..], 0, "/" + [NUL], 0);
    if top == 0 { return; }
    var parts := new int[15];
    SplitPath(buffer, size, temp, parts);
    FirstEmpty(s);
    FollowParts(temp[..], parts, Components(s), |s|);
    WriteParts(buffer, temp[..], parts[..], Walk([], Components(s)), |s|);
  }

  lemma {:induction false} FirstEmpty(s: string)
    requires s == "" || s[0] == '/'
    ensures Components(s)[0] == ""
  {
    if |s| > 1 {
      FirstEmpty(s[..|s| - 1]);
    }
  }

  /** A copy that fits, read back. */
  method CopyText(a: seq<char>, o: nat, buffer: array<char>, size: nat)
    requires Terminated(a, o) && |Str(a, o)| < size <= buffer.Length
    modifies buffer
    ensures Terminated(buffer[..], 0) && Str(buffer[..], 0) == Str(a, o)
  {
    hide *;
    var n := KStrCpy(buffer, 0, a, o, size);
    Laid(buffer, Str(a, o));
  }

  /** A concatenation, read back. */
  method CatTexts(a: seq<char>, o1: nat, b: seq<char>, o2: nat, buffer: array<char>)
    requires Terminated(a, o1) && Terminated(b, o2) && |Str(a, o1)| + |Str(b, o2)| < buffer.Length
    modifies buffer
    ensures Terminated(buffer[..], 0) && Str(buffer[..], 0) == Str(a, o1) + Str(b, o2)
  {
    hide *;
    KStrCat(a, o1, b, o2, buffer);
    Laid(buffer, Str(a, o1) + Str(b, o2));
  }

  /** `path_merge` up to the normaliser, which all its branches end with. */
  method JoinPaths(base: seq<char>, relative: seq<char>, buffer: array<char>, size: nat)
    requires Terminated(base, 0) && Terminated(relative, 0)
    requires |Joined(Str(base, 0), Str(relative, 0))| < size <= buffer.Length
    modifies buffer
    ensures Terminated(buffer[..], 0) && Str(buffer[..], 0) == Joined(Str(base, 0), Str(relative, 0))
  {
    hide *;
    JoinedIs(Str(base, 0), Str(relative, 0));
    var absolute := IsRooted(relative);
    if absolute {
      CopyText(relative, 0, buffer, size);
      return;
    }
    var here := IsLocal(relative);
    if here {
      JoinedHere(Str(base, 0), relative);
      CatTexts(base, 0, relative, 2, buffer);
      return;
    }
    JoinedLength(Str(base, 0), Str(relative, 0));
    CatTexts(base, 0, relative, 0, buffer);
  }

  lemma JoinedLength(b: string, r: string)
    ensures |b + r| == |b| + |r|
  {
  }

  lemma JoinedHere(b: string, relative: seq<char>)
    requires Terminated(relative, 0) && !Rooted(Str(relative, 0)) && Local(Str(relative, 0))
    ensures Terminated(relative, 2) && Joined(b, Str(relative, 0)) == b + Str(relative, 2)
    ensures |Joined(b, Str(relative, 0))| == |b| + |Str(relative, 2)|
  {
    hide *;
    JoinedIs(b, Str(relative, 0));
    StrTail(relative, 0, 2);
    JoinedLength(b, Str(relative, 2));
  }

  lemma JoinedIs(b: string, r: string)
    ensures Rooted(r) ==> Joined(b, r) == r
    ensures !Rooted(r) && Local(r) ==> 2 <= |r| && Joined(b, r) == b + r[2..]
    ensures !Rooted(r) && !Local(r) ==> Joined(b, r) == b + r
  {
  }

  predicate Rooted(r: string) { "/" <= r }
  predicate Local(r: string) { "./" <= r }

  method IsRooted(a: seq<char>) returns (yes: bool)
    requires Terminated(a, 0)
    ensures yes <==> Rooted(Str(a, 0))
  {
    hide Str, Terminated;
    yes := StartsWith(a, "/");
  }

  method IsLocal(a: seq<char>) returns (yes: bool)
    requires Terminated(a, 0)
    ensures yes <==> Local(Str(a, 0))
  {
    hide Str, Terminated;
    yes := StartsWith(a, "./");
  }

  /** The comparison with the start of a literal. */
  method StartsWith(a: seq<char>, s: string) returns (yes: bool)
    requires Terminated(a, 0) && NUL !in s
    ensures yes <==> s <= Str(a, 0)
  {
    hide *;
    Literal(s);
    yes := KStrStartsWith(a, 0, s + [NUL], 0);
  }

  lemma Laid(buffer: array<char>, s: string)
    requires |s| < buffer.Length && buffer[..|s|] == s && buffer[|s|] == NUL && NUL !in s
    ensures Terminated(buffer[..], 0) && Str(buffer[..], 0) == s
  {
    assert buffer[..][0..0 + |s|] == s;
    StrLaid(buffer[..], 0, s);
  }

  /** `path_merge` into a buffer that holds the joined name, for one that `cleanup_path` accepts. */
  method PathMerge(base: seq<char>, relative: seq<char>, buffer: array<char>, size: nat, temp: array<char>)
    requires Terminated(base, 0) && Terminated(relative, 0) && buffer != temp
    requires Str(base, 0) != "" && Str(base, 0)[0] == '/'
    requires |Joined(Str(base, 0), Str(relative, 0))| < size <= buffer.Length && size <= temp.Length
    requires |Components(Joined(Str(base, 0), Str(relative, 0)))| <= 14
    modifies buffer, temp
    ensures Terminated(buffer[..], 0) && Str(buffer[..], 0) == Merged(Str(base, 0), Str(relative, 0))
  {
    hide Components, Cleaned, Str;
    JoinPaths(base, relative, buffer, size);
    CleanupPath(buffer, size, temp);
  }

  lemma {:induction false} StrTail(a: seq<char>, o: nat, n: nat)
    requires Terminated(a, o) && n <= |Str(a, o)|
    ensures Terminated(a, o + n) && Str(a, o + n) == Str(a, o)[n..]
    decreases n
  {
    if n > 0 { StrTail(a, o + 1, n - 1); }
  }
}
