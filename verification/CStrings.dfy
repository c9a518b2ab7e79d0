/**
 * NUL-terminated strings in character memory.  A string argument is a memory and the offset
 * where the string starts; only the memory that is written is an array.
 */
module CStrings {
  const NUL: char := '\0'

  /** The text from offset o up to the first NUL. */
  function Str(a: seq<char>, o: nat): (s: string)
    ensures NUL !in s
    ensures o <= |a| ==> o + |s| <= |a| && s == a[o..o + |s|]
    ensures o + |s| < |a| ==> a[o + |s|] == NUL
    decreases |a| - o
  {
    if o >= |a| || a[o] == NUL then [] else [a[o]] + Str(a, o + 1)
  }

  predicate Terminated(a: seq<char>, o: nat) { o + |Str(a, o)| < |a| }

  lemma StrAt(a: seq<char>, o: nat, i: nat)
    requires i <= |Str(a, o)| && o + i < |a|
    ensures i < |Str(a, o)| <==> a[o + i] != NUL
    ensures i < |Str(a, o)| ==> a[o + i] == Str(a, o)[i]
  {
    if i < |Str(a, o)| {
      assert Str(a, o)[i] in Str(a, o);
    }
  }

  lemma {:induction false} StrIs(a: seq<char>, o: nat, n: nat)
    requires o + n < |a| && a[o + n] == NUL && forall k | o <= k < o + n :: a[k] != NUL
    ensures Str(a, o) == a[o..o + n] && Terminated(a, o)
    decreases n
  {
    hide Str;
    StrStep(a, o);
    if n == 0 {
      assert a[o..o + n] == [];
    } else {
      assert a[o] != NUL;
      StrIs(a, o + 1, n - 1);
      SliceFirst(a, o, n);
    }
  }

  lemma SliceFirst(a: seq<char>, o: nat, n: nat)
    requires n > 0 && o + n <= |a|
    ensures a[o..o + n] == [a[o]] + a[o + 1..o + n]
  {
  }

  lemma StrStep(a: seq<char>, o: nat)
    requires o < |a|
    ensures Str(a, o) == if a[o] == NUL then [] else [a[o]] + Str(a, o + 1)
  {
  }

  /** A text laid down with its terminator is read back. */
  lemma StrLaid(a: seq<char>, o: nat, s: string)
    requires o + |s| < |a| && a[o..o + |s|] == s && a[o + |s|] == NUL && NUL !in s
    ensures Str(a, o) == s && Terminated(a, o)
  {
    forall k | o <= k < o + |s| ensures a[k] != NUL {
      assert a[k] == s[k - o];
    }
    StrIs(a, o, |s|);
  }

  /** `kstrlen` */
  method KStrLen(a: seq<char>, o: nat) returns (i: nat)
    requires Terminated(a, o)
    ensures i == |Str(a, o)|
  {
    i := 0;
    while a[o + i] != NUL
      invariant i <= |Str(a, o)|
      decreases |Str(a, o)| - i
    {
      assert i < |Str(a, o)|;
      i := i + 1;
    }
    StrAt(a, o, i);
  }

  /** The value of a character; `char` is signed. */
  function Code(c: char): (n: int)
    ensures c as int < 256 ==> -128 <= n < 128 && (n == c as int || n + 256 == c as int)
  {
    if 128 <= c as int < 256 then c as int - 256 else c as int
  }

  lemma CodesDiffer(c: char, d: char)
    ensures Code(c) == Code(d) <==> c == d
    ensures Code(NUL) == 0
  {
  }

  /**
   * `kstrcmp`: 0 exactly for equal texts; texts of one length are compared at the first difference,
   * others by the first character that the longer one has more.
   */
  method KStrCmp(a: seq<char>, o1: nat, b: seq<char>, o2: nat) returns (r: int)
    requires Terminated(a, o1) && Terminated(b, o2)
    ensures r == 0 <==> Str(a, o1) == Str(b, o2)
    ensures |Str(a, o1)| < |Str(b, o2)| ==> r == -Code(Str(b, o2)[|Str(a, o1)|])
    ensures |Str(a, o1)| > |Str(b, o2)| ==> r == Code(Str(a, o1)[|Str(b, o2)|])
    ensures |Str(a, o1)| == |Str(b, o2)| ==> forall k | 0 <= k < |Str(a, o1)| ::
      (Str(a, o1)[..k] == Str(b, o2)[..k] && Str(a, o1)[k] != Str(b, o2)[k] ==> r == Code(Str(a, o1)[k]) - Code(Str(b, o2)[k]))
  {
    hide Code, Str;
    var l1 := KStrLen(a, o1);
    var l2 := KStrLen(b, o2);
    ghost var s, t := Str(a, o1), Str(b, o2);
    if l1 != l2 {
      var l := if l1 < l2 then l1 else l2;
      StrAt(a, o1, l);
      StrAt(b, o2, l);
      CodesDiffer(a[o1 + l], b[o2 + l]);
      return Code(a[o1 + l]) - Code(b[o2 + l]);
    }
    var i := 0;
    while a[o1 + i] != NUL
      invariant i <= l1 && s[..i] == t[..i]
      decreases l1 - i
    {
      StrAt(a, o1, i);
      StrAt(b, o2, i);
      if a[o1 + i] != b[o2 + i] {
        CodesDiffer(a[o1 + i], b[o2 + i]);
        FirstDifference(s, t, i);
        return Code(a[o1 + i]) - Code(b[o2 + i]);
      }
      i := i + 1;
    }
    StrAt(a, o1, i);
    assert s[..i] == s && t[..i] == t;
    return 0;
  }

  lemma FirstDifference(s: string, t: string, i: nat)
    requires |s| == |t| && i < |s| && s[..i] == t[..i] && s[i] != t[i]
    ensures forall k | 0 <= k < |s| && s[..k] == t[..k] && s[k] != t[k] :: k == i
  {
    forall k | 0 <= k < |s| ensures s[..k] == t[..k] && s[k] != t[k] ==> k == i {
      if k < i {
        assert s[..i][k] == t[..i][k];
      } else if i < k {
        assert s[..k][i] == s[i] && t[..k][i] == t[i];
      }
    }
  }

  /** `kstrstartswith` */
  method KStrStartsWith(a: seq<char>, o1: nat, prefix: seq<char>, o2: nat) returns (yes: bool)
    requires Terminated(a, o1) && Terminated(prefix, o2)
    ensures yes <==> Str(prefix, o2) <= Str(a, o1)
  {
    hide Str;
    ghost var s, p := Str(a, o1), Str(prefix, o2);
    var i := 0;
    while prefix[o2 + i] != NUL
      invariant i <= |p| && i <= |s| && s[..i] == p[..i]
      decreases |p| - i
    {
      StrAt(prefix, o2, i);
      StrAt(a, o1, i);
      if a[o1 + i] != prefix[o2 + i] {
        assert i < |s| ==> s[i] != p[i];
        return false;
      }
      i := i + 1;
    }
    StrAt(prefix, o2, i);
    return true;
  }

  /** The memory is unchanged outside [from, to). */
  twostate predicate Only<T>(a: array<T>, from: nat, to: nat)
    reads a
  {
    forall k | 0 <= k < a.Length && !(from <= k < to) :: a[k] == old(a[k])
  }

  /** `kstrcpy`: a text longer than size is cut after size + 1 characters, without a terminator. */
  method KStrCpy(dest: array<char>, d: nat, src: seq<char>, o: nat, size: nat) returns (r: int)
    requires Terminated(src, o)
    requires d + (if |Str(src, o)| <= size then |Str(src, o)| else size) < dest.Length
    modifies dest
    ensures var s := Str(src, o);
      if |s| <= size then
        r == |s| && dest[d..d + |s|] == s && dest[d + |s|] == NUL && Only(dest, d, d + |s| + 1)
      else
        r == -1 && dest[d..d + size + 1] == s[..size + 1] && Only(dest, d, d + size + 1)
  {
    ghost var s := Str(src, o);
    var i := 0;
    while src[o + i] != NUL
      invariant i <= |s| && i <= size && d + i <= dest.Length
      invariant forall k | 0 <= k < i :: dest[d + k] == s[k]
      invariant Only(dest, d, d + i)
      decreases |s| - i
    {
      StrAt(src, o, i);
      dest[d + i] := src[o + i];
      if i >= size { return -1; }
      i := i + 1;
    }
    StrAt(src, o, i);
    dest[d + i] := NUL;
    return i;
  }

  /** `kstrcat`; its size argument is not used */
  method KStrCat(a: seq<char>, o1: nat, b: seq<char>, o2: nat, buffer: array<char>)
    requires Terminated(a, o1) && Terminated(b, o2) && |Str(a, o1)| + |Str(b, o2)| < buffer.Length
    modifies buffer
    ensures var s := Str(a, o1) + Str(b, o2);
      buffer[..|s|] == s && buffer[|s|] == NUL && Only(buffer, 0, |s| + 1)
  {
    ghost var s, t := Str(a, o1), Str(b, o2);
    hide Str;
    var i := 0;
    while a[o1 + i] != NUL
      invariant i <= |s| && (forall k | 0 <= k < i :: buffer[k] == s[k]) && Only(buffer, 0, i)
      decreases |s| - i
    {
      StrAt(a, o1, i);
      buffer[i] := a[o1 + i];
      i := i + 1;
    }
    StrAt(a, o1, i);
    var j := 0;
    while b[o2 + j] != NUL
      invariant j <= |t| && i == |s| + j
      invariant (forall k | 0 <= k < i :: buffer[k] == (s + t)[k]) && Only(buffer, 0, i)
      decreases |t| - j
    {
      StrAt(b, o2, j);
      buffer[i] := b[o2 + j];
      i, j := i + 1, j + 1;
    }
    StrAt(b, o2, j);
    buffer[i] := NUL;
  }
}
