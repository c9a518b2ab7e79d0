/**
 * The tar file system: finding an entry by scanning headers, and opening it.
 * The archive is the memory from `_tar_start` to `_tar_end`; addresses in it are offsets.
 */
module Tarfs {
  import opened CStrings

  datatype Option<T> = None | Some(value: T)

  const WORD: nat := 0x1_0000_0000_0000_0000

  /** What one character of a size field adds. */
  function Digit(c: char): int { Code(c) - 0x30 }

  /** The first n characters of a field, accumulated in 64 bits. */
  function Field(a: seq<char>, o: nat, n: nat): (v: nat)
    requires o + n <= |a|
    ensures v < WORD
  {
    if n == 0 then 0 else (Field(a, o, n - 1) * 8 + Digit(a[o + n - 1])) % WORD
  }

  /** `tar_size` */
  method TarSize(a: seq<char>, o: nat) returns (res: nat)
    requires o + 11 <= |a|
    ensures res == Field(a, o, 11)
  {
    res := 0;
    for i := 0 to 11
      invariant res == Field(a, o, i)
    {
      res := (res * 8 + Digit(a[o + i])) % WORD;
    }
  }

  function Pow8(k: nat): nat { if k == 0 then 1 else 8 * Pow8(k - 1) }

  /** n in k octal digits, as the header stores it. */
  function Octal(n: nat, k: nat): (s: seq<char>)
    ensures |s| == k
  {
    if k == 0 then [] else Octal(n / 8, k - 1) + [(0x30 + n % 8) as char]
  }

  /** Reading a size field gives back the number that was written into it. */
  lemma {:induction false} FieldOctal(a: seq<char>, o: nat, n: nat, k: nat)
    requires o + k <= |a| && a[o..o + k] == Octal(n, k) && n < Pow8(k) <= Pow8(11)
    ensures Field(a, o, k) == n
    decreases k
  {
    if k > 0 {
      var front := a[o..o + k - 1];
      assert front == a[o..o + k][..k - 1] == Octal(n / 8, k - 1);
      assert a[o + k - 1] == a[o..o + k][k - 1] == (0x30 + n % 8) as char;
      FieldOctal(a, o, n / 8, k - 1);
      assert Pow8(11) == 8589934592;
    }
  }

  /** `tar_size_roundup` */
  function Roundup(size: nat): nat { if size == 0 then 0 else 512 - size % 512 }

  /** The space POSIX gives to contents of that size: whole records of 512 bytes. */
  function Records(size: nat): nat { (size + 511) / 512 * 512 }

  /** A size that is a positive multiple of the record size is padded by a record too many. */
  lemma RoundupIff(size: nat)
    ensures size + Roundup(size) == Records(size) <==> size == 0 || size % 512 != 0
    ensures size > 0 && size % 512 == 0 ==> size + Roundup(size) == Records(size) + 512
  {
  }

  /** Where the scan goes from the header at o. */
  function Next(a: seq<char>, o: nat): (n: nat)
    requires o + 512 <= |a|
    ensures n >= o + 512
  {
    var size := Field(a, o + 124, 11);
    o + size + 512 + Roundup(size)
  }

  /** The headers a scan from o looks at before it stops. */
  function Visits(a: seq<char>, o: nat): seq<nat>
    decreases |a| - o
  {
    if o + 512 > |a| || Str(a, o) == "" then [] else [o] + Visits(a, Next(a, o))
  }

  /** Every header the scan reads lies in the archive and has a terminated name. */
  ghost predicate Readable(a: seq<char>, o: nat)
    decreases |a| - o
  {
    o < |a| ==> o + 512 <= |a| && Terminated(a, o) && (Str(a, o) == "" || Readable(a, Next(a, o)))
  }

  /** The first header from o on that carries the name. */
  function Lookup(a: seq<char>, o: nat, name: string): Option<nat>
    decreases |a| - o
  {
    if o + 512 > |a| || Str(a, o) == "" then None
    else if Str(a, o) == name then Some(o)
    else Lookup(a, Next(a, o), name)
  }

  /** A file with the text of its mode field, which follows the name in the header. */
  datatype Entry = Entry(name: string, mode: string, contents: seq<char>) {
    predicate Storable() {
      0 < |name| <= 100 && NUL !in name && |mode| <= 7 && NUL !in mode && |contents| < Pow8(11)
    }

    /** The name that the kernel reads: one that fills its field runs on into the next. */
    function Spelled(): string { if |name| == 100 then name + mode else name }
  }

  /** A name is read as it is if and only if it leaves room for its terminator or the mode is empty. */
  lemma SpelledIff(e: Entry)
    requires e.Storable()
    ensures e.Spelled() == e.name <==> |e.name| < 100 || e.mode == ""
  {
    if |e.name| == 100 { assert |e.Spelled()| == 100 + |e.mode|; }
  }

  /** The header and the contents of an entry, by the ustar interchange format of POSIX.1 pax. */
  ghost predicate EntryAt(a: seq<char>, o: nat, e: Entry) {
    && e.Storable() && o + 512 + |e.contents| <= |a|
    && a[o..o + |e.name|] == e.name && (|e.name| < 100 ==> a[o + |e.name|] == NUL)
    && a[o + 100..o + 100 + |e.mode|] == e.mode && a[o + 100 + |e.mode|] == NUL
    && a[o + 124..o + 135] == Octal(|e.contents|, 11)
    && a[o + 512..o + 512 + |e.contents|] == e.contents
  }

  /** An archive ends with two records of zeros. */
  ghost predicate EndAt(a: seq<char>, o: nat) {
    o + 1024 <= |a| && forall k | o <= k < o + 1024 :: a[k] == NUL
  }

  function After(e: Entry, o: nat): nat { o + 512 + Records(|e.contents|) }

  ghost predicate ArchiveAt(a: seq<char>, entries: seq<Entry>, o: nat)
    decreases |entries|
  {
    if entries == [] then EndAt(a, o)
    else EntryAt(a, o, entries[0]) && ArchiveAt(a, entries[1..], After(entries[0], o))
  }

  /** Where the entries of an archive start. */
  function Offsets(entries: seq<Entry>, o: nat): (os: seq<nat>)
    ensures |os| == |entries|
    decreases |entries|
  {
    if entries == [] then [] else [o] + Offsets(entries[1..], After(entries[0], o))
  }

  /** All entries but the last have a size that the padding rule of the scan gets right. */
  ghost predicate Regular(entries: seq<Entry>) {
    forall i | 0 <= i < |entries| - 1 :: |entries[i].contents| == 0 || |entries[i].contents| % 512 != 0
  }

  lemma EntrySpelled(a: seq<char>, o: nat, e: Entry)
    requires EntryAt(a, o, e)
    ensures Terminated(a, o) && Str(a, o) == e.Spelled() && e.Spelled() != "" && o + 512 <= |a|
  {
    hide Pow8, Octal, Records, Str, Terminated;
    var s := e.Spelled();
    if |e.name| == 100 {
      assert a[o..o + 100] + a[o + 100..o + 100 + |e.mode|] == a[o..o + 100 + |e.mode|];
    }
    StrLaid(a, o, s);
  }

  lemma EndStops(a: seq<char>, o: nat)
    requires EndAt(a, o)
    ensures Visits(a, o) == Visits(a, o + 512) == [] && Readable(a, o) && Readable(a, o + 512)
    ensures forall name :: Lookup(a, o, name) == Lookup(a, o + 512, name) == None
  {
    StrIs(a, o, 0);
    StrIs(a, o + 512, 0);
  }

  /** The step from an entry reaches the next one, or overshoots it by a record. */
  lemma EntryStep(a: seq<char>, o: nat, e: Entry)
    requires EntryAt(a, o, e)
    ensures Field(a, o + 124, 11) == |e.contents|
    ensures Next(a, o) == After(e, o) + if |e.contents| > 0 && |e.contents| % 512 == 0 then 512 else 0
    ensures Visits(a, o) == [o] + Visits(a, Next(a, o)) && (Readable(a, o) <==> Readable(a, Next(a, o)))
    ensures forall name :: Lookup(a, o, name) == if e.Spelled() == name then Some(o) else Lookup(a, Next(a, o), name)
  {
    EntrySpelled(a, o, e);
    FieldOctal(a, o + 124, |e.contents|, 11);
    RoundupIff(|e.contents|);
  }

  lemma ArchiveStep(a: seq<char>, entries: seq<Entry>, o: nat)
    requires ArchiveAt(a, entries, o)
    ensures entries == [] ==> EndAt(a, o) && Offsets(entries, o) == []
    ensures entries != [] ==> var next := After(entries[0], o);
      && EntryAt(a, o, entries[0]) && ArchiveAt(a, entries[1..], next)
      && Offsets(entries, o) == [o] + Offsets(entries[1..], next)
  {
  }

  lemma VisitsHead(a: seq<char>, o: nat)
    ensures Visits(a, o) == [] || Visits(a, o)[0] == o
  {
  }

  lemma ConsEqual(x: nat, s: seq<nat>, t: seq<nat>)
    ensures [x] + s == [x] + t <==> s == t
  {
    assert ([x] + s)[1..] == s && ([x] + t)[1..] == t;
  }

  /**
   * The scan of a well-formed archive visits exactly its entries, in order, if and only if no
   * entry but the last has a size that is a positive multiple of 512.
   */
  lemma {:induction false} VisitsIff(a: seq<char>, entries: seq<Entry>, o: nat)
    requires ArchiveAt(a, entries, o)
    ensures Visits(a, o) == Offsets(entries, o) <==> Regular(entries)
    ensures Regular(entries) ==> Readable(a, o)
    decreases |entries|
  {
    ArchiveStep(a, entries, o);
    if entries == [] {
      EndStops(a, o);
    } else {
      hide *;
      var rest, next := entries[1..], After(entries[0], o);
      EntryStep(a, o, entries[0]);
      VisitsIff(a, rest, next);
      RegularSplit(entries);
      ArchiveStep(a, rest, next);
      ConsEqual(o, Visits(a, Next(a, o)), Offsets(rest, next));
      if rest == [] {
        RegularEmpty();
        EndStops(a, next);
      } else if Next(a, o) != next {
        VisitsHead(a, next + 512);
        assert Offsets(rest, next)[0] == next;
      }
    }
  }

  lemma RegularEmpty()
    ensures Regular([])
  {
  }

  lemma RegularSplit(entries: seq<Entry>)
    requires entries != []
    ensures Regular(entries) <==>
      (|entries| > 1 ==> |entries[0].contents| == 0 || |entries[0].contents| % 512 != 0) && Regular(entries[1..])
  {
    var rest := entries[1..];
    if Regular(rest) {
      forall i | 0 < i < |entries| - 1 ensures |entries[i].contents| == 0 || |entries[i].contents| % 512 != 0 {
        assert entries[i] == rest[i - 1];
      }
    }
  }

  /** The index of the first entry that is read with that name, or the number of entries. */
  function FirstNamed(entries: seq<Entry>, name: string): (i: nat)
    ensures i <= |entries|
    ensures i < |entries| ==> entries[i].Spelled() == name
    ensures forall j | 0 <= j < i :: entries[j].Spelled() != name
    decreases |entries|
  {
    if entries == [] || entries[0].Spelled() == name then 0 else 1 + FirstNamed(entries[1..], name)
  }

  /** A lookup finds the first entry of that name, with its size and contents, or there is none. */
  lemma {:induction false} LookupFirst(a: seq<char>, entries: seq<Entry>, o: nat, name: string)
    requires ArchiveAt(a, entries, o) && Regular(entries)
    ensures var i := FirstNamed(entries, name);
      if i == |entries| then Lookup(a, o, name) == None
      else Lookup(a, o, name) == Some(Offsets(entries, o)[i]) && EntryAt(a, Offsets(entries, o)[i], entries[i])
    decreases |entries|
  {
    hide *;
    ArchiveStep(a, entries, o);
    FirstNamedStep(entries, name);
    if entries == [] {
      EndStops(a, o);
    } else {
      var rest, next := entries[1..], After(entries[0], o);
      EntryStep(a, o, entries[0]);
      if entries[0].Spelled() != name {
        RegularSplit(entries);
        LookupFirst(a, rest, next, name);
        ArchiveStep(a, rest, next);
        if rest == [] {
          EndStops(a, next);
          FirstNamedStep(rest, name);
        } else {
          assert Next(a, o) == next;
          var i := FirstNamed(rest, name);
          if i < |rest| {
            assert entries[i + 1] == rest[i] && Offsets(entries, o)[i + 1] == Offsets(rest, next)[i];
          }
        }
      }
    }
  }

  /**
   * The first entry that is read with the name of entry i is this one if no earlier one is and its
   * name is read as it is; in particular a name of 100 characters with a mode is never found.
   */
  lemma OwnNameIff(a: seq<char>, entries: seq<Entry>, i: nat)
    requires ArchiveAt(a, entries, 0) && Regular(entries) && i < |entries|
    requires forall j | 0 <= j < i :: entries[j].Spelled() != entries[i].name
    ensures Lookup(a, 0, entries[i].name) == Some(Offsets(entries, 0)[i]) <==> |entries[i].name| < 100 || entries[i].mode == ""
  {
    hide *;
    var e, o := entries[i], Offsets(entries, 0)[i];
    EntryNext(a, entries, 0, i);
    EntrySpelled(a, o, e);
    EntryStored(a, o, e);
    SpelledIff(e);
    LookupFirst(a, entries, 0, e.name);
    LookupNamed(a, 0, e.name);
    FirstNamedIs(entries, e.name, i);
  }

  lemma EntryStored(a: seq<char>, o: nat, e: Entry)
    requires EntryAt(a, o, e)
    ensures e.Storable()
  {
  }

  lemma {:induction false} LookupNamed(a: seq<char>, o: nat, name: string)
    ensures Lookup(a, o, name).Some? ==> Str(a, Lookup(a, o, name).value) == name
    decreases |a| - o
  {
    if o + 512 <= |a| && Str(a, o) != "" && Str(a, o) != name {
      LookupNamed(a, Next(a, o), name);
    }
  }

  lemma {:induction false} FirstNamedIs(entries: seq<Entry>, name: string, i: nat)
    requires i < |entries| && forall j | 0 <= j < i :: entries[j].Spelled() != name
    ensures entries[i].Spelled() == name ==> FirstNamed(entries, name) == i
    decreases |entries|
  {
    if i > 0 {
      assert entries[0].Spelled() != name;
      forall j | 0 <= j < i - 1 ensures entries[1..][j].Spelled() != name {
        assert entries[1..][j] == entries[j + 1];
      }
      FirstNamedIs(entries[1..], name, i - 1);
    }
  }

  lemma FirstNamedStep(entries: seq<Entry>, name: string)
    ensures entries == [] ==> FirstNamed(entries, name) == 0
    ensures entries != [] ==>
      FirstNamed(entries, name) == if entries[0].Spelled() == name then 0 else 1 + FirstNamed(entries[1..], name)
  {
  }

  function Zeros(n: nat): (s: seq<char>)
    ensures |s| == n && forall k | 0 <= k < n :: s[k] == NUL
  {
    seq(n, _ => NUL)
  }

  /** One entry as an archiver writes it, with the fields the kernel does not read left zero. */
  function Block(e: Entry): (b: seq<char>)
    requires e.Storable()
  {
    e.name + Zeros(100 - |e.name|) + e.mode + Zeros(24 - |e.mode|) + Octal(|e.contents|, 11) + Zeros(377)
    + e.contents + Zeros(Records(|e.contents|) - |e.contents|)
  }

  function Packed(entries: seq<Entry>): seq<char>
    requires forall i | 0 <= i < |entries| :: entries[i].Storable()
    decreases |entries|
  {
    if entries == [] then Zeros(1024) else Block(entries[0]) + Packed(entries[1..])
  }

  lemma BlockLaid(a: seq<char>, o: nat, e: Entry)
    requires e.Storable() && |Block(e)| == 512 + Records(|e.contents|)
    requires o + 512 + Records(|e.contents|) <= |a| && a[o..o + 512 + Records(|e.contents|)] == Block(e)
    ensures EntryAt(a, o, e)
  {
    hide *;
    var b := Block(e);
    BlockFields(e);
    SliceOf(a, o, b, 0, |e.name|);
    SliceOf(a, o, b, 100, 100 + |e.mode|);
    SliceOf(a, o, b, 124, 135);
    SliceOf(a, o, b, 512, 512 + |e.contents|);
    SliceAt(a, o, b, 100 + |e.mode|);
    if |e.name| < 100 { SliceAt(a, o, b, |e.name|); }
    EntryLaid(a, o, e);
  }

  lemma BlockFields(e: Entry)
    requires e.Storable()
    ensures var b := Block(e);
      && |b| >= 512 + |e.contents| && 0 < |e.name| <= 100 && |e.mode| <= 7
      && b[0..|e.name|] == e.name && (|e.name| < 100 ==> b[|e.name|] == NUL)
      && b[100..100 + |e.mode|] == e.mode && b[100 + |e.mode|] == NUL
      && b[124..135] == Octal(|e.contents|, 11) && b[512..512 + |e.contents|] == e.contents
  {
    hide *;
    BlockIs(e);
    Fields(e.name, Zeros(100 - |e.name|), e.mode, Zeros(24 - |e.mode|), Octal(|e.contents|, 11), Zeros(377), e.contents,
      Zeros(Records(|e.contents|) - |e.contents|));
  }

  lemma BlockIs(e: Entry)
    requires e.Storable()
    ensures 0 < |e.name| <= 100 && |e.mode| <= 7 && Records(|e.contents|) >= |e.contents|
    ensures |Octal(|e.contents|, 11)| == 11
    ensures Block(e) == e.name + Zeros(100 - |e.name|) + e.mode + Zeros(24 - |e.mode|) + Octal(|e.contents|, 11) + Zeros(377)
                        + e.contents + Zeros(Records(|e.contents|) - |e.contents|)
  {
  }

  /** The fields of a header and the contents, each found where it was put. */
  lemma Fields(name: string, z1: string, mode: string, z2: string, size: string, z3: string, c: string, z4: string)
    requires |name| + |z1| == 100 && |mode| + |z2| == 24 && |z2| > 0 && |size| == 11 && |z3| == 377
    requires (forall k | 0 <= k < |z1| :: z1[k] == NUL) && (forall k | 0 <= k < |z2| :: z2[k] == NUL)
    ensures var b := name + z1 + mode + z2 + size + z3 + c + z4;
      && |b| >= 512 + |c| && b[0..|name|] == name && (|name| < 100 ==> b[|name|] == NUL)
      && b[100..100 + |mode|] == mode && b[100 + |mode|] == NUL && b[124..135] == size && b[512..512 + |c|] == c
  {
  }

  lemma SliceOf(a: seq<char>, o: nat, b: seq<char>, i: nat, j: nat)
    requires i <= j <= |b| && o + |b| <= |a| && a[o..o + |b|] == b
    ensures a[o + i..o + j] == b[i..j]
  {
    forall k | i <= k < j ensures a[o + k] == b[k] { SliceAt(a, o, b, k); }
  }

  lemma SliceAt(a: seq<char>, o: nat, b: seq<char>, i: nat)
    requires i < |b| && o + |b| <= |a| && a[o..o + |b|] == b
    ensures a[o + i] == b[i]
  {
    assert a[o..o + |b|][i] == a[o + i];
  }

  lemma EntryLaid(a: seq<char>, o: nat, e: Entry)
    requires e.Storable() && o + 512 + |e.contents| <= |a|
    requires a[o + 0..o + |e.name|] == e.name && (|e.name| < 100 ==> a[o + |e.name|] == NUL)
    requires a[o + 100..o + (100 + |e.mode|)] == e.mode && a[o + (100 + |e.mode|)] == NUL
    requires a[o + 124..o + 135] == Octal(|e.contents|, 11) && a[o + 512..o + (512 + |e.contents|)] == e.contents
    ensures EntryAt(a, o, e)
  {
    assert o + 0 == o && o + (100 + |e.mode|) == o + 100 + |e.mode| && o + (512 + |e.contents|) == o + 512 + |e.contents|;
  }

  /** Packing entries yields an archive of exactly these entries. */
  lemma {:induction false} PackedIsArchive(a: seq<char>, entries: seq<Entry>, o: nat)
    requires forall i | 0 <= i < |entries| :: entries[i].Storable()
    requires o <= |a| && a[o..] == Packed(entries)
    ensures ArchiveAt(a, entries, o)
    decreases |entries|
  {
    if entries == [] {
      assert forall k | o <= k < o + 1024 :: a[k] == a[o..][k - o];
    } else {
      hide *;
      var e := entries[0];
      PackedStep(a, entries, o);
      BlockLaid(a, o, e);
      PackedIsArchive(a, entries[1..], After(e, o));
      ArchiveCons(a, entries, o);
    }
  }

  lemma PackedStep(a: seq<char>, entries: seq<Entry>, o: nat)
    requires entries != [] && forall i | 0 <= i < |entries| :: entries[i].Storable()
    requires o <= |a| && a[o..] == Packed(entries)
    ensures var (e, next) := (entries[0], After(entries[0], o));
      && |Block(e)| == 512 + Records(|e.contents|) && next == o + 512 + Records(|e.contents|) <= |a|
      && a[o..o + 512 + Records(|e.contents|)] == Block(e) && a[next..] == Packed(entries[1..])
  {
    hide *;
    PackedUnfold(entries);
    BlockLength(entries[0]);
    AfterIs(entries[0], o);
    SliceFront(a, o, Block(entries[0]), Packed(entries[1..]));
  }

  lemma PackedUnfold(entries: seq<Entry>)
    requires entries != [] && forall i | 0 <= i < |entries| :: entries[i].Storable()
    ensures forall i | 0 <= i < |entries[1..]| :: entries[1..][i].Storable()
    ensures Packed(entries) == Block(entries[0]) + Packed(entries[1..])
  {
  }

  lemma AfterIs(e: Entry, o: nat)
    ensures After(e, o) == o + 512 + Records(|e.contents|)
  {
  }

  lemma BlockLength(e: Entry)
    requires e.Storable()
    ensures |Block(e)| == 512 + Records(|e.contents|)
  {
  }

  lemma SliceFront(a: seq<char>, o: nat, b: seq<char>, rest: seq<char>)
    requires o <= |a| && a[o..] == b + rest
    ensures o + |b| <= |a| && a[o..o + |b|] == b && a[o + |b|..] == rest
  {
    assert a[o..][..|b|] == b && a[o..][|b|..] == rest;
  }

  lemma ArchiveCons(a: seq<char>, entries: seq<Entry>, o: nat)
    requires entries != [] && EntryAt(a, o, entries[0]) && ArchiveAt(a, entries[1..], After(entries[0], o))
    ensures ArchiveAt(a, entries, o)
  {
  }

  /**
   * The loop that all searches and opens share: the name is what follows the first character of the
   * path, be that a slash or the terminator of an empty path.
   */
  method Scan(a: seq<char>, path: seq<char>) returns (found: Option<nat>)
    requires Readable(a, 0) && Terminated(path, 1)
    ensures found == Lookup(a, 0, Str(path, 1))
  {
    hide *;
    ghost var name := Str(path, 1);
    var offset := 0;
    while offset < |a|
      invariant Readable(a, offset) && Lookup(a, 0, name) == Lookup(a, offset, name)
      decreases |a| - offset
    {
      ScanStep(a, offset, name);
      var size := TarSize(a, offset + 124);
      var length := KStrLen(a, offset);
      if length == 0 { return None; }
      var differs := KStrCmp(a, offset, path, 1);
      if differs == 0 { return Some(offset); }
      offset := offset + size + 512 + Roundup(size);
    }
    ScanEnds(a, offset, name);
    return None;
  }

  lemma ScanStep(a: seq<char>, o: nat, name: string)
    requires Readable(a, o) && o < |a|
    ensures o + 512 <= |a| && Terminated(a, o) && (Str(a, o) != "" ==> Readable(a, Next(a, o)))
    ensures Next(a, o) == o + Field(a, o + 124, 11) + 512 + Roundup(Field(a, o + 124, 11)) > o
    ensures Lookup(a, o, name) ==
      if Str(a, o) == "" then None else if Str(a, o) == name then Some(o) else Lookup(a, Next(a, o), name)
  {
  }

  lemma ScanEnds(a: seq<char>, o: nat, name: string)
    requires o >= |a|
    ensures Lookup(a, o, name) == None
  {
  }

  /** A path that is not empty is searched by its name without the slash. */
  lemma NameOf(path: seq<char>)
    requires Terminated(path, 0) && Str(path, 0) != ""
    ensures Terminated(path, 1) && Str(path, 1) == Str(path, 0)[1..]
  {
  }

  function SizeAt(a: seq<char>, o: nat): nat
    requires o + 512 <= |a|
  {
    Field(a, o + 124, 11)
  }

  lemma {:induction false} LookupInside(a: seq<char>, o: nat, name: string)
    ensures Lookup(a, o, name).Some? ==> Lookup(a, o, name).value + 512 <= |a|
    decreases |a| - o
  {
    if o + 512 <= |a| && Str(a, o) != "" && Str(a, o) != name {
      LookupInside(a, Next(a, o), name);
    }
  }

  /** `search_file_open` */
  method SearchFileOpen(a: seq<char>, path: seq<char>) returns (yes: bool)
    requires Readable(a, 0) && Terminated(path, 1)
    ensures yes <==> var f := Lookup(a, 0, Str(path, 1)); f.Some? && f.value + 512 <= |a| && SizeAt(a, f.value) != 0
  {
    var found := Scan(a, path);
    LookupInside(a, 0, Str(path, 1));
    if found.None? { return false; }
    var size := TarSize(a, found.value + 124);
    return size != 0;
  }

  /** `search_for_dir`: a directory is an entry without contents. */
  method SearchForDir(a: seq<char>, path: seq<char>) returns (yes: bool)
    requires Readable(a, 0) && Terminated(path, 1)
    ensures yes <==> var f := Lookup(a, 0, Str(path, 1)); f.Some? && f.value + 512 <= |a| && SizeAt(a, f.value) == 0
  {
    var found := Scan(a, path);
    LookupInside(a, 0, Str(path, 1));
    if found.None? { return false; }
    var size := TarSize(a, found.value + 124);
    return size == 0;
  }

  /** `check_elf` on the contents starting at o */
  predicate IsElf(a: seq<char>, o: nat)
    requires o + 4 <= |a|
  {
    a[o] == 127 as char && a[o + 1] == 'E' && a[o + 2] == 'L' && a[o + 3] == 'F'
  }

  /** The program image that a name leads to. */
  function ExecImage(a: seq<char>, name: string): Option<nat>
    requires Lookup(a, 0, name).Some? ==> Lookup(a, 0, name).value + 516 <= |a|
  {
    var f := Lookup(a, 0, name);
    if f.Some? && IsElf(a, f.value + 512) then Some(f.value + 512) else None
  }

  /** `search_file_for_exec` */
  method SearchFileForExec(a: seq<char>, path: seq<char>) returns (yes: bool)
    requires Readable(a, 0) && Terminated(path, 1)
    requires var f := Lookup(a, 0, Str(path, 1)); f.Some? ==> f.value + 516 <= |a|
    ensures yes <==> ExecImage(a, Str(path, 1)).Some?
  {
    var found := Scan(a, path);
    return found.Some? && IsElf(a, found.value + 512);
  }

  /** `map_file` up to the image it hands to `map_elf`; with none it returns 0. */
  method MapFile(a: seq<char>, path: seq<char>) returns (image: Option<nat>)
    requires Readable(a, 0) && Terminated(path, 1)
    requires var f := Lookup(a, 0, Str(path, 1)); f.Some? ==> f.value + 516 <= |a|
    ensures image == ExecImage(a, Str(path, 1))
  {
    var found := Scan(a, path);
    if found.Some? && IsElf(a, found.value + 512) { return Some(found.value + 512); }
    return None;
  }

  /** The characters that `check_elf` looks for. */
  const ELF: string := [127 as char, 'E', 'L', 'F']

  /**
   * In a regular archive the four bytes looked at are there.  With at least four characters an
   * entry is an image if its contents say so; a shorter one is judged by what follows it, which
   * for an empty entry is the name of the next one.
   */
  lemma ExecFinds(a: seq<char>, entries: seq<Entry>, name: string)
    requires ArchiveAt(a, entries, 0) && Regular(entries)
    ensures Lookup(a, 0, name).Some? <==> FirstNamed(entries, name) < |entries|
    ensures Lookup(a, 0, name).Some? ==> Lookup(a, 0, name).value + 516 <= |a|
    ensures Lookup(a, 0, name).Some? ==>
      var i, o := FirstNamed(entries, name), Lookup(a, 0, name).value + 512;
      var c := entries[i].contents;
      ExecImage(a, name).Some? <==>
        if |c| >= 4 then ELF <= c
        else if c == [] then i + 1 < |entries| && ELF <= entries[i + 1].name
        else ELF <= c + a[o + |c|..o + 4]
    ensures ExecImage(a, name).Some? ==>
      var i, image := FirstNamed(entries, name), ExecImage(a, name).value;
      && i < |entries| && image == Offsets(entries, 0)[i] + 512
      && image + |entries[i].contents| <= |a| && a[image..image + |entries[i].contents|] == entries[i].contents
  {
    hide *;
    LookupFirst(a, entries, 0, name);
    var i := FirstNamed(entries, name);
    if i < |entries| {
      var o, e := Offsets(entries, 0)[i], entries[i];
      EntryRead(a, o, e);
      RoomAfter(a, entries, 0, i);
      ImageIs(a, name);
      if |e.contents| >= 4 {
        ElfSlice(a, o + 512, e.contents);
      } else if e.contents == [] {
        EmptyEntry(a, entries, i);
      } else {
        ShortEntry(a, o + 512, e.contents);
      }
    }
    ImageFound(a, name);
  }

  lemma ShortEntry(a: seq<char>, o: nat, c: seq<char>)
    requires o + |c| <= |a| && a[o..o + |c|] == c && |c| < 4 && o + 4 <= |a|
    ensures IsElf(a, o) <==> ELF <= c + a[o + |c|..o + 4]
  {
    assert c + a[o + |c|..o + 4] == a[o..o + 4];
  }

  lemma EmptyEntry(a: seq<char>, entries: seq<Entry>, i: nat)
    requires ArchiveAt(a, entries, 0) && i < |entries| && entries[i].contents == []
    ensures var o := Offsets(entries, 0)[i] + 512;
      o + 4 <= |a| && (IsElf(a, o) <==> i + 1 < |entries| && ELF <= entries[i + 1].name)
  {
    hide *;
    var o := Offsets(entries, 0)[i];
    EntryNext(a, entries, 0, i);
    AfterIs(entries[i], o);
    NoRecords();
    if i + 1 < |entries| {
      EntryNext(a, entries, 0, i + 1);
      ElfName(a, o + 512, entries[i + 1]);
    } else {
      ElfEnd(a, o + 512);
    }
  }

  lemma NoRecords()
    ensures Records(0) == 0
  {
  }

  lemma ElfName(a: seq<char>, o: nat, e: Entry)
    requires EntryAt(a, o, e)
    ensures o + 4 <= |a| && (IsElf(a, o) <==> ELF <= e.name)
  {
    hide *;
    EntryName(a, o, e);
    ElfPrefix(a, o, e.name);
  }

  lemma EntryName(a: seq<char>, o: nat, e: Entry)
    requires EntryAt(a, o, e)
    ensures o + 512 <= |a| && |e.name| <= 100 && a[o..o + |e.name|] == e.name && (|e.name| < 100 ==> a[o + |e.name|] == NUL)
  {
  }

  lemma ElfPrefix(a: seq<char>, o: nat, name: string)
    requires o + |name| <= |a| && o + 4 <= |a| && a[o..o + |name|] == name
    requires |name| < 4 ==> a[o + |name|] == NUL
    ensures IsElf(a, o) <==> ELF <= name
  {
    assert forall j | 0 <= j < |name| :: a[o + j] == name[j];
  }

  lemma ElfEnd(a: seq<char>, o: nat)
    requires EndAt(a, o)
    ensures o + 4 <= |a| && !IsElf(a, o)
  {
    assert a[o] == NUL;
  }

  /** Each entry lies at its offset, and the next one or the end after it. */
  lemma {:induction false} EntryNext(a: seq<char>, entries: seq<Entry>, o: nat, i: nat)
    requires ArchiveAt(a, entries, o) && i < |entries|
    ensures EntryAt(a, Offsets(entries, o)[i], entries[i])
    ensures var next := After(entries[i], Offsets(entries, o)[i]);
      if i + 1 < |entries| then Offsets(entries, o)[i + 1] == next else EndAt(a, next)
    decreases |entries|
  {
    hide *;
    ArchiveStep(a, entries, o);
    var rest, next := entries[1..], After(entries[0], o);
    ArchiveStep(a, rest, next);
    if i > 0 {
      EntryNext(a, rest, next, i - 1);
    }
  }

  lemma ImageIs(a: seq<char>, name: string)
    requires Lookup(a, 0, name).Some? && Lookup(a, 0, name).value + 516 <= |a|
    ensures ExecImage(a, name).Some? <==> IsElf(a, Lookup(a, 0, name).value + 512)
    ensures ExecImage(a, name).Some? ==> ExecImage(a, name).value == Lookup(a, 0, name).value + 512
  {
  }

  lemma ImageFound(a: seq<char>, name: string)
    requires Lookup(a, 0, name).Some? ==> Lookup(a, 0, name).value + 516 <= |a|
    ensures ExecImage(a, name).Some? ==> Lookup(a, 0, name).Some?
  {
  }

  lemma ElfSlice(a: seq<char>, o: nat, c: seq<char>)
    requires o + |c| <= |a| && a[o..o + |c|] == c && |c| >= 4
    ensures IsElf(a, o) <==> ELF <= c
  {
    assert c[0] == a[o] && c[1] == a[o + 1] && c[2] == a[o + 2] && c[3] == a[o + 3];
  }

  lemma {:induction false} RoomAfter(a: seq<char>, entries: seq<Entry>, o: nat, i: nat)
    requires ArchiveAt(a, entries, o) && i < |entries|
    ensures Offsets(entries, o)[i] + 512 + 1024 <= |a|
    decreases |entries|
  {
    var rest, next := entries[1..], After(entries[0], o);
    if i > 0 {
      RoomAfter(a, rest, next, i - 1);
    } else if rest != [] {
      RoomAfter(a, rest, next, 0);
    }
  }

  datatype Fd = Fd(start: nat, size: nat, offset: nat)

  /** The open files of a process. */
  class Process {
    const fds: array<Fd>
    var nextFd: nat

    constructor (table: array<Fd>, next: nat)
      ensures fds == table && nextFd == next
    {
      fds, nextFd := table, next;
    }

    method Install(file: Fd) returns (fd: nat)
      requires nextFd < fds.Length
      modifies this, fds
      ensures fd == old(nextFd) && nextFd == fd + 1 && fds[..] == old(fds[..])[fd := file]
    {
      fd := nextFd;
      nextFd := nextFd + 1;
      fds[fd] := file;
    }

    /** `do_open_file` */
    method DoOpenFile(a: seq<char>, path: seq<char>) returns (fd: int)
      requires Readable(a, 0) && Terminated(path, 1) && nextFd < fds.Length
      modifies this, fds
      ensures var f := Lookup(a, 0, Str(path, 1));
        if f.None? then fd == -1 && nextFd == old(nextFd) && fds[..] == old(fds[..])
        else fd == old(nextFd) && nextFd == fd + 1 && f.value + 512 <= |a|
             && fds[..] == old(fds[..])[fd := Fd(f.value + 512, SizeAt(a, f.value), 0)]
    {
      var found := Scan(a, path);
      LookupInside(a, 0, Str(path, 1));
      if found.None? { return -1; }
      var size := TarSize(a, found.value + 124);
      fd := Install(Fd(found.value + 512, size, 0));
    }

    /** `do_open_dir`: the top directory is remembered by the end of the archive. */
    method DoOpenDir(a: seq<char>, path: seq<char>) returns (fd: int)
      requires Readable(a, 0) && Terminated(path, 1) && nextFd < fds.Length
      modifies this, fds
      ensures var f: Option<nat> := if Str(path, 0) == "/" then Some(|a|) else Lookup(a, 0, Str(path, 1));
        if f.None? then fd == -1 && nextFd == old(nextFd) && fds[..] == old(fds[..])
        else fd == old(nextFd) && nextFd == fd + 1 && fds[..] == old(fds[..])[fd := Fd(f.value, 0, 0)]
    {
      StrLaid("/" + [NUL], 0, "/");
      assert path[0] != NUL ==> Str(path, 0) == [path[0]] + Str(path, 1);
      var top := KStrCmp(path, 0, "/" + [NUL], 0);
      if top == 0 {
        fd := Install(Fd(|a|, 0, 0));
        return;
      }
      var found := Scan(a, path);
      if found.None? { return -1; }
      fd := Install(Fd(found.value, 0, 0));
    }
  }

  /**
   * In a regular archive a file search succeeds exactly if the first entry of the name has
   * contents, and then opening that name opens those contents.
   */
  lemma SearchThenOpen(a: seq<char>, entries: seq<Entry>, name: string)
    requires ArchiveAt(a, entries, 0) && Regular(entries)
    ensures var i, f := FirstNamed(entries, name), Lookup(a, 0, name);
      && (f.Some? <==> i < |entries|)
      && (f.Some? ==>
           && f.value + 512 <= |a| && SizeAt(a, f.value) == |entries[i].contents|
           && f.value + 512 + SizeAt(a, f.value) <= |a|
           && a[f.value + 512..f.value + 512 + SizeAt(a, f.value)] == entries[i].contents)
  {
    hide *;
    LookupFirst(a, entries, 0, name);
    var i := FirstNamed(entries, name);
    if i < |entries| {
      EntryRead(a, Offsets(entries, 0)[i], entries[i]);
    }
  }

  lemma EntryRead(a: seq<char>, o: nat, e: Entry)
    requires EntryAt(a, o, e)
    ensures o + 512 + |e.contents| <= |a| && SizeAt(a, o) == |e.contents|
    ensures a[o + 512..o + 512 + |e.contents|] == e.contents
  {
    EntryStep(a, o, e);
  }
}
