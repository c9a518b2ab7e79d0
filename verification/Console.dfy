/**
 * The text console: 23 rows of 80 columns in a flat display memory that holds a character and an
 * attribute for each cell.  The reference is the whole text laid out in rows of 80, of which the
 * screen shows the part from some row on.
 */
module Console {
  import opened CStrings

  const BACKSPACE: char := 8 as char

  /** Everything written, in rows of 80 characters, and the number of rows that have scrolled away. */
  datatype Doc = Doc(text: string, top: nat)

  function Spaces(n: nat): (s: string)
    ensures |s| == n && forall i | 0 <= i < n :: s[i] == ' '
  {
    seq(n, _ => ' ')
  }

  lemma SpacesNone(t: string)
    ensures t + Spaces(0) == t
  {
  }

  lemma SpacesMore(t: string, n: nat)
    ensures t + Spaces(n) + [' '] == t + Spaces(n + 1)
  {
  }

  /** How far a newline or a tab moves from a column. */
  function NewlineGap(n: nat): nat { 80 - n % 80 }
  function TabGap(n: nat): nat { (4 - n % 4) % 4 }

  predicate Plain(v: char) { v != NUL && v != '\n' && v != '\t' && v != BACKSPACE }

  /** Scrolls when the cursor has left the last row. */
  function Fit(d: Doc): Doc { if |d.text| >= 80 * (d.top + 23) then Doc(d.text, d.top + 1) else d }

  /** One character: a backspace erases back to the first cell that is still on the screen. */
  function Write(d: Doc, v: char): Doc {
    if v == NUL then d
    else if v == '\n' then Fit(Doc(d.text + Spaces(NewlineGap(|d.text|)), d.top))
    else if v == '\t' then Fit(Doc(d.text + Spaces(TabGap(|d.text|)), d.top))
    else if v == BACKSPACE then (if |d.text| > 80 * d.top then Doc(d.text[..|d.text| - 1], d.top) else d)
    else Fit(Doc(d.text + [v], d.top))
  }

  /** The character in cell k of the screen. */
  function Cell(d: Doc, k: nat): char { if 80 * d.top + k < |d.text| then d.text[80 * d.top + k] else ' ' }

  function Writes(d: Doc, s: string): Doc {
    if s == [] then d else Write(Writes(d, s[..|s| - 1]), s[|s| - 1])
  }

  /** The end of the text is on the screen. */
  ghost predicate Visible(d: Doc) { 80 * d.top <= |d.text| < 80 * (d.top + 23) }

  /** Whatever is written, the cursor stays within the 23 rows. */
  lemma {:induction false} WritesVisible(d: Doc, s: string)
    requires Visible(d)
    ensures Visible(Writes(d, s))
  {
    if s != [] {
      WritesVisible(d, s[..|s| - 1]);
    }
  }

  /** A backspace takes back the character before it, if and only if that did not make the screen scroll. */
  lemma BackspaceUndoes(d: Doc, v: char)
    requires Visible(d) && Plain(v)
    ensures Write(Write(d, v), BACKSPACE) == d <==> |d.text| + 1 < 80 * (d.top + 23)
  {
    assert (d.text + [v])[..|d.text|] == d.text;
  }

  /** The text alone, when nothing is taken back. */
  function Add(t: string, v: char): string {
    if v == NUL then t
    else if v == '\n' then t + Spaces(NewlineGap(|t|))
    else if v == '\t' then t + Spaces(TabGap(|t|))
    else t + [v]
  }

  /** A newline fills the row with blanks, also one that nothing stands in yet, and ends it. */
  lemma NewlineFills(u: string)
    ensures var t := Add(u, '\n');
      && u <= t && |t| == 80 * (|u| / 80 + 1)
      && forall k | |u| <= k < |t| :: t[k] == ' '
  {
  }

  /** A tab goes on with blanks to the next column that is a multiple of 4, and nowhere from such a column. */
  lemma TabFills(u: string)
    ensures var t := Add(u, '\t');
      && u <= t && |t| < |u| + 4 && |t| % 4 == 0
      && forall k | |u| <= k < |t| :: t[k] == ' '
  {
  }

  function Adds(t: string, s: string): string {
    if s == [] then t else Add(Adds(t, s[..|s| - 1]), s[|s| - 1])
  }

  /** Without backspaces the screen shows the last 23 rows of the text, or all of it while it fits. */
  lemma {:induction false} LastRows(s: string)
    requires BACKSPACE !in s
    ensures var d := Writes(Doc("", 0), s);
      d.text == Adds("", s) && d.top == if |d.text| < 80 * 23 then 0 else |d.text| / 80 - 22
  {
    if s != [] {
      assert s == s[..|s| - 1] + [s[|s| - 1]];
      LastRows(s[..|s| - 1]);
    }
  }

  lemma Remainder80(q: nat, k: nat)
    requires k < 80
    ensures (80 * q + k) % 80 == k
  {
  }

  lemma Remainder4(q: nat, k: nat)
    requires k < 4
    ensures (4 * q + k) % 4 == k
  {
  }

  lemma GapsBelow(n: nat, m: nat)
    requires n % 80 == 0
    ensures NewlineGap(n + m) == NewlineGap(m) && TabGap(n + m) == TabGap(m)
  {
    var q := n / 80;
    assert n + m == 80 * (q + m / 80) + m % 80;
    Remainder80(q + m / 80, m % 80);
    assert n + m == 4 * (20 * q + m / 4) + m % 4;
    Remainder4(20 * q + m / 4, m % 4);
  }

  lemma AddIs(t: string, v: char)
    ensures Add(t, v) == if v == NUL then t else if v == '\n' then t + Spaces(NewlineGap(|t|))
      else if v == '\t' then t + Spaces(TabGap(|t|)) else t + [v]
  {
  }

  lemma AddBelow(t: string, u: string, v: char)
    requires |t| % 80 == 0
    ensures Add(t + u, v) == t + Add(u, v)
  {
    hide *;
    GapsBelow(|t|, |u|);
    AddIs(t + u, v);
    AddIs(u, v);
    assert t + u + [v] == t + (u + [v]);
    assert t + u + Spaces(NewlineGap(|u|)) == t + (u + Spaces(NewlineGap(|u|)));
    assert t + u + Spaces(TabGap(|u|)) == t + (u + Spaces(TabGap(|u|)));
  }

  /** What is written from the start of a row does not depend on what stands above it. */
  lemma {:induction false} AddsBelow(t: string, s: string)
    requires |t| % 80 == 0
    ensures Adds(t, s) == t + Adds("", s)
  {
    if s != [] {
      var front, v := s[..|s| - 1], s[|s| - 1];
      AddsBelow(t, front);
      hide Add;
      AddBelow(t, Adds("", front), v);
    }
  }

  lemma {:induction false} AddsAppend(t: string, a: string, b: string)
    ensures Adds(t, a + b) == Adds(Adds(t, a), b)
    decreases |b|
  {
    if b == [] {
      assert a + b == a;
    } else {
      assert (a + b)[..|a + b| - 1] == a + b[..|b| - 1];
      AddsAppend(t, a, b[..|b| - 1]);
    }
  }

  function LineLength(s: string): (k: nat)
    ensures k <= |s| && '\n' !in s[..k] && (k < |s| ==> s[k] == '\n')
  {
    if s == [] || s[0] == '\n' then 0 else 1 + LineLength(s[1..])
  }

  /** Line by line: each starts a row of its own and is wrapped by the layout in rows of 80. */
  function Page(s: string): string
    decreases |s|
  {
    var k := LineLength(s);
    var line := Adds("", s[..k]);
    if k == |s| then line else line + Spaces(80 - |line| % 80) + Page(s[k + 1..])
  }

  lemma AddsNewline(line: string)
    ensures Adds(line, "\n") == line + Spaces(80 - |line| % 80)
    ensures |line + Spaces(80 - |line| % 80)| % 80 == 0
  {
    assert "\n"[..0] == "";
  }

  /** The character-by-character text is the page, line by line. */
  lemma {:induction false} AddsPage(s: string)
    ensures Adds("", s) == Page(s)
    decreases |s|
  {
    var k := LineLength(s);
    if k == |s| {
      assert s[..k] == s;
    } else {
      var line := Adds("", s[..k]);
      var full := line + Spaces(80 - |line| % 80);
      AddsAppend("", s[..k], "\n");
      AddsNewline(line);
      hide Spaces, Adds, LineLength, NewlineGap;
      assert s == s[..k] + "\n" + s[k + 1..];
      AddsAppend("", s[..k] + "\n", s[k + 1..]);
      AddsBelow(full, s[k + 1..]);
      AddsPage(s[k + 1..]);
    }
  }

  /** A line of plain characters is its own text. */
  lemma {:induction false} AddsPlain(s: string)
    requires forall i | 0 <= i < |s| :: Plain(s[i])
    ensures Adds("", s) == s
  {
    if s != [] {
      AddsPlain(s[..|s| - 1]);
      assert s == s[..|s| - 1] + [s[|s| - 1]];
    }
  }

  /** The test of the tab loop: the column's remainder runs up with the count until it wraps to 0. */
  lemma TabStep(n: nat, top: nat, i: nat, top': nat, row: nat, col: nat)
    requires n + i == 80 * (top' + row) + col && col < 80 && i <= TabGap(n) && i < col % 4 && n < 80 * (top + 23)
    ensures i < TabGap(n) && n + i < 80 * (top + 23)
  {
    TabColumn(n + i, top' + row, col);
  }

  lemma TabEnd(n: nat, i: nat, top: nat, row: nat, col: nat)
    requires n + i == 80 * (top + row) + col && col < 80 && i <= TabGap(n) && i >= col % 4
    ensures i == TabGap(n)
  {
    TabColumn(n + i, top + row, col);
    TabCount(n, i, col % 4);
  }

  lemma TabCount(n: nat, i: nat, c: nat)
    requires (n + i) % 4 == c && i <= TabGap(n) && i >= c
    ensures i == TabGap(n)
  {
    var r := n % 4;
    if r != 0 && i < 4 - r {
      assert n + i == 4 * (n / 4) + (r + i);
      Remainder4(n / 4, r + i);
    }
  }

  lemma TabColumn(n: nat, rows: nat, col: nat)
    requires n == 80 * rows + col
    ensures n % 4 == col % 4
  {
    assert n == 4 * (20 * rows + col / 4) + col % 4;
    Remainder4(20 * rows + col / 4, col % 4);
  }

  /** A character that is shown, written at the cursor. */
  lemma WritePlain(d: Doc, v: char, row: nat, col: nat)
    requires Plain(v) && row <= 22 && col < 80 && |d.text| == 80 * (d.top + row) + col
    ensures Write(d, v) == Fit(Doc(d.text + [v], d.top))
    ensures col + 1 < 80 || row < 22 ==> Fit(Doc(d.text + [v], d.top)) == Doc(d.text + [v], d.top)
  {
  }

  lemma CellLast(d: Doc, v: char, row: nat, col: nat)
    requires |d.text| == 80 * (d.top + row) + col
    ensures Cell(Doc(d.text + [v], d.top), 80 * row + col) == v && 2 * (80 * row + col) == 160 * row + 2 * col
  {
  }

  lemma CellsPlain(s: string, top: nat)
    requires top == 0
    ensures forall k: nat :: Cell(Doc(s, top), k) == if k < |s| then s[k] else ' '
  {
  }

  class Screen {
    const display: array<char>
    var row: nat
    var col: nat
    ghost var doc: Doc

    /** The cursor stands at the end of the text; while a character is written it can be past its row. */
    ghost predicate Placed()
      reads this
    {
      display.Length >= 3840 && row <= 22 && col <= 80 && |doc.text| == 80 * (doc.top + row) + col
    }

    /** The cells show the text and are blank behind it, except perhaps under the cursor. */
    ghost predicate ShowsBut()
      reads this, display
    {
      Placed() && forall k | 0 <= k < 1840 && k != 80 * row + col :: display[2 * k] == Cell(doc, k)
    }

    ghost predicate Valid()
      reads this, display
    {
      Placed() && col < 80 && forall k | 0 <= k < 1840 :: display[2 * k] == Cell(doc, k)
    }

    constructor (memory: array<char>)
      requires memory.Length >= 3840 && forall k | 0 <= k < 1840 :: memory[2 * k] == ' '
      ensures Valid() && display == memory && doc == Doc("", 0)
    {
      display, row, col, doc := memory, 0, 0, Doc("", 0);
    }

    /** Nothing from the status row on is written. */
    twostate predicate StatusKept()
      reads display
    {
      forall k | 3680 <= k < display.Length :: display[k] == old(display[k])
    }

    /** `rollup` */
    method Rollup()
      requires display.Length >= 3840
      modifies display
      ensures StatusKept()
      ensures forall k | 0 <= k < 1840 :: display[2 * k] == if k < 1760 then old(display[2 * (k + 80)]) else ' '
    {
      var temprow := 0;
      while temprow < 22
        invariant temprow <= 22 && StatusKept()
        invariant forall k | 0 <= k < 80 * temprow :: display[2 * k] == old(display[2 * (k + 80)])
        invariant forall k | 80 * temprow <= k < 1840 :: display[2 * k] == old(display[2 * k])
      {
        var tempcol := 0;
        while tempcol < 80
          invariant tempcol <= 80 && StatusKept()
          invariant forall k | 0 <= k < 80 * temprow + tempcol :: display[2 * k] == old(display[2 * (k + 80)])
          invariant forall k | 80 * temprow + tempcol <= k < 1840 :: display[2 * k] == old(display[2 * k])
        {
          ghost var k := 80 * temprow + tempcol;
          assert 160 * temprow + 2 * tempcol == 2 * k && 160 * (temprow + 1) + 2 * tempcol == 2 * (k + 80);
          display[160 * temprow + 2 * tempcol] := display[160 * (temprow + 1) + 2 * tempcol];
          tempcol := tempcol + 1;
        }
        temprow := temprow + 1;
      }
      var tempcol := 0;
      while tempcol < 80
        invariant tempcol <= 80 && StatusKept()
        invariant forall k | 0 <= k < 1760 :: display[2 * k] == old(display[2 * (k + 80)])
        invariant forall k | 1760 <= k < 1760 + tempcol :: display[2 * k] == ' '
      {
        assert 160 * 22 + 2 * tempcol == 2 * (1760 + tempcol);
        display[160 * 22 + 2 * tempcol] := ' ';
        tempcol := tempcol + 1;
      }
    }

    /** Writes a character and a zero attribute under the cursor and moves on. */
    method Put(v: char)
      requires ShowsBut() && col < 80
      modifies this, display
      ensures Placed() && row == old(row) && col == old(col) + 1
      ensures forall k | 0 <= k < 1840 :: display[2 * k] == Cell(doc, k)
      ensures doc == Doc(old(doc).text + [v], old(doc).top) && StatusKept()
    {
      var position := 160 * row + 2 * col;
      assert position == 2 * (80 * row + col);
      display[position] := v;
      display[position + 1] := NUL;
      col := col + 1;
      doc := Doc(doc.text + [v], doc.top);
    }

    /** `do_newline`, also from the column behind the last one */
    method DoNewline()
      requires Placed() && forall k | 0 <= k < 1840 :: display[2 * k] == Cell(doc, k)
      modifies this, display
      ensures Valid() && StatusKept() && doc == Fit(Doc(old(doc).text + Spaces(80 - old(col)), old(doc).top))
      ensures col == 0 && doc.top + row == old(doc.top + row) + 1 && (row == old(row) + 1 || row == 22 == old(row))
    {
      FillRow();
      col := 0;
      row := row + 1;
      if row > 22 {
        Rollup();
        row := 22;
        doc := Doc(doc.text, doc.top + 1);
      }
    }

    /** Blanks the rest of the row. */
    method FillRow()
      requires Placed() && forall k | 0 <= k < 1840 :: display[2 * k] == Cell(doc, k)
      modifies this, display
      ensures Placed() && row == old(row) && col == 80 && StatusKept()
      ensures forall k | 0 <= k < 1840 :: display[2 * k] == Cell(doc, k)
      ensures doc == Doc(old(doc).text + Spaces(80 - old(col)), old(doc).top)
    {
      hide Cell, Spaces;
      SpacesNone(doc.text);
      while col < 80
        invariant Placed() && row == old(row) && old(col) <= col && StatusKept()
        invariant forall k | 0 <= k < 1840 :: display[2 * k] == Cell(doc, k)
        invariant doc == Doc(old(doc).text + Spaces(col - old(col)), old(doc).top)
        decreases 80 - col
      {
        SpacesMore(old(doc).text, col - old(col));
        Put(' ');
      }
    }

    method StepBack()
      requires Placed() && col < 80
      requires forall k | 0 <= k < 1840 :: display[2 * k] == Cell(doc, k)
      modifies this
      ensures ShowsBut() && col < 80
      ensures doc ==
        if |old(doc).text| > 80 * old(doc).top then Doc(old(doc).text[..|old(doc).text| - 1], old(doc).top) else old(doc)
    {
      doc := if |doc.text| > 80 * doc.top then Doc(doc.text[..|doc.text| - 1], doc.top) else doc;
      if col == 0 && row > 0 {
        col := 79;
        row := row - 1;
      } else if col > 0 {
        col := col - 1;
      }
    }

    /** The part of `write_k` for tabs; the bound of the loop moves with the column. */
    method Tab()
      requires Valid()
      modifies this, display
      ensures Valid() && StatusKept() && doc == Write(old(doc), '\t')
      decreases 1
    {
      var i := 0;
      ghost var n := |doc.text|;
      assert doc.text + Spaces(0) == doc.text;
      while i < col % 4
        invariant Valid() && StatusKept() && i <= TabGap(n) && |doc.text| == n + i
        invariant doc == Fit(Doc(old(doc).text + Spaces(i), old(doc).top))
        decreases 4 - i
      {
        TabStep(n, old(doc).top, i, doc.top, row, col);
        assert old(doc).text + Spaces(i) + [' '] == old(doc).text + Spaces(i + 1);
        WriteK(' ');
        i := i + 1;
      }
      TabEnd(n, i, doc.top, row, col);
    }

    /** The part of `write_k` for backspaces */
    method Erase()
      requires Valid()
      modifies this, display
      ensures Valid() && StatusKept() && doc == Write(old(doc), BACKSPACE)
      decreases 1
    {
      StepBack();
      WriteK(' ');
      StepBack();
    }

    /** `write_k` */
    method WriteK(v: char)
      requires ShowsBut() && col < 80 && (Plain(v) || Valid())
      modifies this, display
      ensures Valid() && StatusKept() && doc == Write(old(doc), v)
      ensures v == '\n' ==> col == 0 && doc.top + row == old(doc.top + row) + 1 && (row == old(row) + 1 || row == 22 == old(row))
      ensures Plain(v) && (old(col) < 79 || old(row) < 22) ==>
        && doc.top == old(doc.top) && display[160 * old(row) + 2 * old(col)] == v
        && if old(col) < 79 then row == old(row) && col == old(col) + 1 else row == old(row) + 1 && col == 0
      decreases if Plain(v) then 0 else 2
    {
      if v == NUL { return; }
      if v == '\n' {
        DoNewline();
        return;
      }
      if v == '\t' {
        Tab();
        return;
      }
      if v == BACKSPACE {
        Erase();
        return;
      }
      Character(v);
    }

    /** The part of `write_k` for the characters that are shown */
    method Character(v: char)
      requires ShowsBut() && col < 80 && Plain(v)
      modifies this, display
      ensures Valid() && StatusKept() && doc == Write(old(doc), v)
      ensures old(col) < 79 || old(row) < 22 ==>
        && doc.top == old(doc.top) && display[160 * old(row) + 2 * old(col)] == v
        && if old(col) < 79 then row == old(row) && col == old(col) + 1 else row == old(row) + 1 && col == 0
    {
      hide Cell, Write, Fit, Spaces, Plain;
      WritePlain(doc, v, row, col);
      CellLast(doc, v, row, col);
      Put(v);
      if col >= 80 {
        SpacesNone(doc.text);
        DoNewline();
      }
    }

    /** Plain text on a blank screen that holds it: each character in its cell, blanks behind. */
    lemma PlainShown(s: string)
      requires Valid() && doc == Writes(Doc("", 0), s) && |s| < 1840 && forall i | 0 <= i < |s| :: Plain(s[i])
      ensures forall k | 0 <= k < 1840 :: display[2 * k] == if k < |s| then s[k] else ' '
      ensures 80 * row + col == |s|
    {
      hide Cell, Writes, Adds;
      assert BACKSPACE !in s;
      LastRows(s);
      AddsPlain(s);
      CellsPlain(s, doc.top);
    }

    /** `do_write` to the console: stops at the terminator or after size characters. */
    method DoWrite(str: seq<char>, size: nat) returns (i: nat)
      requires Valid() && (size <= |str| || Terminated(str, 0))
      modifies this, display
      ensures i == (if size < |Str(str, 0)| then size else |Str(str, 0)|) <= |str|
      ensures Valid() && StatusKept() && doc == Writes(old(doc), Str(str, 0)[..i])
    {
      hide Write, Cell, Str;
      i := 0;
      while i < size && str[i] != NUL
        invariant i <= size && i <= |Str(str, 0)|
        invariant Valid() && StatusKept() && doc == Writes(old(doc), str[..i])
      {
        assert str[..i + 1][..i] == str[..i];
        StrAt(str, 0, i);
        WriteK(str[i]);
        i := i + 1;
      }
      if i < size { StrAt(str, 0, i); }
      assert Str(str, 0)[..i] == str[..i];
    }
  }
}
