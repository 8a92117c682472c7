// The big-letter console printer (2/2.py).
//
// A font file is the sequence of strings that successive `readline()` calls
// return (each normally ending in "\n"); past its end `readline()` returns "".
// A cursor move plus text written to the console is a `Draw` value; the colour
// escape codes around it are not modelled.

module FontPrinter {
  import opened Wrappers

  /** `Color`, 2/2.py:3-7. */
  datatype Color = Default | Blue | Green | Red

  /** One `print(f"\033[{row};{col}H" + text)` to the console. */
  datatype Draw = Draw(row: int, col: int, text: string)

  /** What `updateFont` ends in: a parsed table, a missing file, or the "Font file build wrong" exception. */
  datatype FontError = FileMissing | BuiltWrong

  type Font = map<char, seq<string>>

  // ---------------------------------------------------------------------------
  // Reading the font file
  // ---------------------------------------------------------------------------

  /** `readline()` at position `pos`. */
  function ReadAt(lines: seq<string>, pos: nat): (r: string)
    ensures pos >= |lines| ==> r == ""
  {
    if pos < |lines| then lines[pos] else ""
  }

  /** `s[:-1]`: every character but the last ("" stays ""). */
  function DropLast(s: string): (r: string)
    ensures |r| == if s == [] then 0 else |s| - 1
    ensures r == s[..|r|]
  {
    if s == [] then [] else s[..|s| - 1]
  }

  /** Definition of the `n` glyph rows read after a letter line at `from`, each with its last character dropped. */
  function Rows(lines: seq<string>, from: nat, n: nat): (r: seq<string>)
    ensures |r| == n
    ensures forall i :: 0 <= i < n ==> r[i] == DropLast(ReadAt(lines, from + i))
  {
    seq(n, i requires 0 <= i < n => DropLast(ReadAt(lines, from + i)))
  }

  /** Definition of the iteration count of Python's `range(font)`, which is empty for a negative count. */
  function RowCount(size: int): (n: nat)
    ensures size >= 0 ==> n == size
    ensures size < 0 ==> n == 0
  {
    if size < 0 then 0 else size
  }

  /**
   * The `while True` loop of `updateFont` from line `pos`, with the table
   * built so far: an empty line (or the end of the file) stops it; a line of
   * length other than 1 is an error that leaves the table as it is; a letter
   * line maps the letter to the `n` rows after it, overwriting any earlier
   * entry.  The flag is false on the error.
   */
  function ParseFrom(lines: seq<string>, pos: nat, n: nat, acc: Font): (r: (Font, bool))
    decreases |lines| - pos
  {
    var line := DropLast(ReadAt(lines, pos));
    if line == "" then (acc, true)
    else if |line| != 1 then (acc, false)
    else ParseFrom(lines, pos + 1 + n, n, acc[line[0] := Rows(lines, pos + 1, n)])
  }

  // ---------------------------------------------------------------------------
  // Properties of the parser
  // ---------------------------------------------------------------------------

  /** Every letter the parser adds has exactly `n` rows. */
  lemma {:induction false} ParseRowCounts(lines: seq<string>, pos: nat, n: nat, acc: Font)
    requires forall c :: c in acc ==> |acc[c]| == n
    ensures forall c :: c in ParseFrom(lines, pos, n, acc).0 ==> |ParseFrom(lines, pos, n, acc).0[c]| == n
    ensures acc.Keys <= ParseFrom(lines, pos, n, acc).0.Keys
    decreases |lines| - pos
  {
    var line := DropLast(ReadAt(lines, pos));
    if line != "" && |line| == 1 {
      ParseRowCounts(lines, pos + 1 + n, n, acc[line[0] := Rows(lines, pos + 1, n)]);
    }
  }

  /** A font entry: a letter and its glyph rows. */
  datatype Entry = Entry(letter: char, rows: seq<string>)

  /**
   * An entry a font file can hold: `readline()` splits at '\n' and, in text
   * mode, at '\r', so neither the letter nor a row may contain one.
   */
  ghost predicate Writable(e: Entry)
  {
    e.letter != '\n' && e.letter != '\r' && forall row :: row in e.rows ==> '\n' !in row && '\r' !in row
  }

  /**
   * Lines as a font file holds them: the letter line, then one line per row,
   * each ending in a newline.  They are the lines `readline()` returns only
   * for `Writable` entries.
   */
  function Serialize(entries: seq<Entry>): (lines: seq<string>)
  {
    if entries == [] then []
    else Block(entries[0]) + Serialize(entries[1..])
  }

  /** Each row followed by a newline. */
  function Terminated(rows: seq<string>): (r: seq<string>)
    ensures |r| == |rows|
    ensures forall i :: 0 <= i < |rows| ==> r[i] == rows[i] + "\n"
  {
    seq(|rows|, i requires 0 <= i < |rows| => rows[i] + "\n")
  }

  /** The table the entries give when read in order; a later entry for a letter wins. */
  function Table(acc: Font, entries: seq<Entry>): (r: Font)
    ensures r.Keys == acc.Keys + set e | e in entries :: e.letter
    decreases |entries|
  {
    if entries == [] then acc
    else
      var r := Table(acc[entries[0].letter := entries[0].rows], entries[1..]);
      assert forall e :: e in entries ==> e == entries[0] || e in entries[1..];
      r
  }

  /** The parse ignores lines before `pos`, so a prefix can be dropped. */
  lemma {:induction false} ParseShift(pre: seq<string>, lines: seq<string>, pos: nat, n: nat, acc: Font)
    ensures ParseFrom(pre + lines, |pre| + pos, n, acc) == ParseFrom(lines, pos, n, acc)
    decreases |lines| - pos
  {
    assert ReadAt(pre + lines, |pre| + pos) == ReadAt(lines, pos);
    var line := DropLast(ReadAt(lines, pos));
    if line != "" && |line| == 1 {
      var shifted, plain := Rows(pre + lines, |pre| + pos + 1, n), Rows(lines, pos + 1, n);
      assert shifted == plain by {
        forall i | 0 <= i < n ensures shifted[i] == plain[i] {
          assert ReadAt(pre + lines, |pre| + pos + 1 + i) == ReadAt(lines, pos + 1 + i);
        }
      }
      ParseShift(pre, lines, pos + 1 + n, n, acc[line[0] := Rows(lines, pos + 1, n)]);
    }
  }

  /**
   * A file written from entries with `n` rows each, followed by `tail`, parses
   * to the table of those entries, then goes on into `tail`; with no tail the
   * parse succeeds with exactly that table.
   */
  lemma {:induction false} ParseSerialized(entries: seq<Entry>, tail: seq<string>, n: nat, acc: Font)
    requires forall e :: e in entries ==> |e.rows| == n && Writable(e)
    ensures ParseFrom(Serialize(entries) + tail, 0, n, acc) == ParseFrom(tail, 0, n, Table(acc, entries))
    decreases |entries|
  {
    if entries != [] {
      var e := entries[0];
      var rest := Serialize(entries[1..]) + tail;
      assert Serialize(entries) + tail == Block(e) + rest;
      ParseBlock(e, rest, n, acc);
      ParseSerialized(entries[1..], tail, n, acc[e.letter := e.rows]);
    } else {
      assert Serialize(entries) + tail == tail;
    }
  }

  /** The lines of one entry. */
  function Block(e: Entry): (lines: seq<string>)
    ensures |lines| == 1 + |e.rows|
  {
    [[e.letter] + "\n"] + Terminated(e.rows)
  }

  /**
   * A letter that is a line break is not read back: the file "\n\n" holds
   * two empty lines, and the parse stops at the first with nothing loaded.
   */
  lemma LineBreakLetterUnread()
    ensures ParseFrom(["\n", "\n"], 0, 0, map[]) == (map[], true)
  {
    assert DropLast(ReadAt(["\n", "\n"], 0)) == "";
  }

  /** One entry's lines are read as that entry, and the parse goes on after them. */
  lemma ParseBlock(e: Entry, rest: seq<string>, n: nat, acc: Font)
    requires |e.rows| == n
    ensures ParseFrom(Block(e) + rest, 0, n, acc) == ParseFrom(rest, 0, n, acc[e.letter := e.rows])
  {
    var lines := Block(e) + rest;
    assert ReadAt(lines, 0) == [e.letter] + "\n";
    assert DropLast(ReadAt(lines, 0)) == [e.letter];
    assert Rows(lines, 1, n) == e.rows by {
      forall i | 0 <= i < n ensures Rows(lines, 1, n)[i] == e.rows[i] {
        assert ReadAt(lines, 1 + i) == Terminated(e.rows)[i];
      }
    }
    ParseShift(Block(e), rest, 0, n, acc[e.letter := e.rows]);
  }

  /** Reading back a file written from entries of `n` rows gives their table, and no error. */
  lemma FontRoundTrip(entries: seq<Entry>, n: nat)
    requires forall e :: e in entries ==> |e.rows| == n && Writable(e)
    ensures ParseFrom(Serialize(entries), 0, n, map[]) == (Table(map[], entries), true)
  {
    ParseSerialized(entries, [], n, map[]);
    assert Serialize(entries) + [] == Serialize(entries);
  }

  /** A letter line of the wrong length ends the parse with an error, keeping the letters read before it. */
  lemma BadLetterLine(entries: seq<Entry>, bad: string, rest: seq<string>, n: nat)
    requires forall e :: e in entries ==> |e.rows| == n && Writable(e)
    requires |DropLast(bad)| > 1
    ensures ParseFrom(Serialize(entries) + ([bad] + rest), 0, n, map[]) == (Table(map[], entries), false)
  {
    ParseSerialized(entries, [bad] + rest, n, map[]);
  }

  /** The table of entries ending with one for `c` maps `c` to that entry's rows. */
  lemma {:induction false} TableLastWins(acc: Font, entries: seq<Entry>, c: char, rows: seq<string>)
    ensures c in Table(acc, entries + [Entry(c, rows)]) && Table(acc, entries + [Entry(c, rows)])[c] == rows
    decreases |entries|
  {
    var all := entries + [Entry(c, rows)];
    if entries == [] {
      assert all[1..] == [];
    } else {
      assert all[1..] == entries[1..] + [Entry(c, rows)];
      TableLastWins(acc[entries[0].letter := entries[0].rows], entries[1..], c, rows);
    }
  }

  /** A letter read again overwrites whatever the file gave it before. */
  lemma RepeatedLetterOverwrites(entries: seq<Entry>, c: char, rows: seq<string>, n: nat)
    requires forall e :: e in entries ==> |e.rows| == n && Writable(e)
    requires |rows| == n && Writable(Entry(c, rows))
    ensures var font := ParseFrom(Serialize(entries + [Entry(c, rows)]), 0, n, map[]).0;
      c in font && font[c] == rows
  {
    FontRoundTrip(entries + [Entry(c, rows)], n);
    TableLastWins(map[], entries, c, rows);
  }

  // ---------------------------------------------------------------------------
  // Rendering
  // ---------------------------------------------------------------------------

  /**
   * `row.replace('*', symbol)`: with a one-character symbol every '*' becomes
   * that character and every other character stays where it is; no '*' is
   * left unless the symbol brings one, and a row without '*' is unchanged.
   */
  function Replace(row: string, symbol: string): (r: string)
    ensures symbol == "*" ==> r == row
    ensures '*' !in row ==> r == row
    ensures '*' !in symbol ==> '*' !in r
    ensures |symbol| == 1 ==> |r| == |row|
    ensures |symbol| == 1 ==> forall i :: 0 <= i < |row| ==> r[i] == (if row[i] == '*' then symbol[0] else row[i])
  {
    if row == [] then []
    else (if row[0] == '*' then symbol else [row[0]]) + Replace(row[1..], symbol)
  }

  /** Replacing works character by character, so it distributes over concatenation. */
  lemma {:induction false} ReplaceConcat(a: string, b: string, symbol: string)
    ensures Replace(a + b, symbol) == Replace(a, symbol) + Replace(b, symbol)
    decreases |a|
  {
    if a != [] {
      assert (a + b)[0] == a[0] && (a + b)[1..] == a[1..] + b;
      ReplaceConcat(a[1..], b, symbol);
    } else {
      assert a + b == b;
    }
  }

  /** Definition of the draws for one glyph at column `x`: row `i` goes to line `y + i + 1`. */
  function Glyph(rows: seq<string>, x: int, y: int, symbol: string): (r: seq<Draw>)
    ensures |r| == |rows|
    ensures forall i :: 0 <= i < |rows| ==> r[i] == Draw(y + i + 1, x, Replace(rows[i], symbol))
  {
    seq(|rows|, i requires 0 <= i < |rows| => Draw(y + i + 1, x, Replace(rows[i], symbol)))
  }

  /** The number of characters of `text` the font has a glyph for; `RenderAdvance` and `RenderRowsInBand` use it. */
  function Known(font: Font, text: string): (k: nat)
    ensures k <= |text|
  {
    if text == [] then 0 else (if text[0] in font then 1 else 0) + Known(font, text[1..])
  }

  /**
   * The loop of `print`/`setPrint` from column `x`: characters without a
   * glyph are skipped, every other one is drawn and moves the column on by
   * `size + 1`.  The result is the draws and the final column.
   */
  function Render(font: Font, text: string, x: int, y: int, size: int, symbol: string): (r: (seq<Draw>, int))
  {
    if text == [] then ([], x)
    else if text[0] !in font then Render(font, text[1..], x, y, size, symbol)
    else
      var rest := Render(font, text[1..], x + size + 1, y, size, symbol);
      (Glyph(font[text[0]], x, y, symbol) + rest.0, rest.1)
  }

  /** The column ends `size + 1` further on for each known character, and no further. */
  lemma {:induction false} RenderAdvance(font: Font, text: string, x: int, y: int, size: int, symbol: string)
    ensures Render(font, text, x, y, size, symbol).1 == x + (size + 1) * Known(font, text)
    decreases |text|
  {
    if text != [] {
      if text[0] in font {
        RenderAdvance(font, text[1..], x + size + 1, y, size, symbol);
      } else {
        RenderAdvance(font, text[1..], x, y, size, symbol);
      }
    }
  }

  /** Rendering a concatenation renders the second part where the first left the column. */
  lemma {:induction false} RenderConcat(font: Font, a: string, b: string, x: int, y: int, size: int, symbol: string)
    ensures var ra := Render(font, a, x, y, size, symbol);
      var rb := Render(font, b, ra.1, y, size, symbol);
      Render(font, a + b, x, y, size, symbol) == (ra.0 + rb.0, rb.1)
    decreases |a|
  {
    if a == [] {
      assert a + b == b;
      assert [] + Render(font, b, x, y, size, symbol).0 == Render(font, b, x, y, size, symbol).0;
    } else {
      assert (a + b)[0] == a[0] && (a + b)[1..] == a[1..] + b;
      if a[0] in font {
        var x' := x + size + 1;
        RenderConcat(font, a[1..], b, x', y, size, symbol);
        var g := Glyph(font[a[0]], x, y, symbol);
        var ra' := Render(font, a[1..], x', y, size, symbol);
        var rb := Render(font, b, ra'.1, y, size, symbol);
        assert g + (ra'.0 + rb.0) == (g + ra'.0) + rb.0;
      } else {
        RenderConcat(font, a[1..], b, x, y, size, symbol);
      }
    }
  }

  /** Characters without a glyph draw nothing and leave the column alone. */
  lemma {:induction false} UnknownSkipped(font: Font, text: string, x: int, y: int, size: int, symbol: string)
    requires forall i :: 0 <= i < |text| ==> text[i] !in font
    ensures Render(font, text, x, y, size, symbol) == ([], x)
    decreases |text|
  {
    if text != [] {
      UnknownSkipped(font, text[1..], x, y, size, symbol);
    }
  }

  /** A glyph of `n` rows draws on lines `y + 1` to `y + n`. */
  lemma GlyphInBand(rows: seq<string>, x: int, y: int, symbol: string)
    ensures forall d :: d in Glyph(rows, x, y, symbol) ==> y + 1 <= d.row <= y + |rows|
  {
    var g := Glyph(rows, x, y, symbol);
    forall d | d in g ensures y + 1 <= d.row <= y + |rows| {
      var i :| 0 <= i < |g| && g[i] == d;
    }
  }

  /** With every glyph `n` rows tall, every draw lands on lines `y + 1` to `y + n`. */
  lemma {:induction false} RenderRowsInBand(font: Font, text: string, x: int, y: int, size: int, symbol: string, n: nat)
    requires forall c :: c in font ==> |font[c]| == n
    ensures forall d :: d in Render(font, text, x, y, size, symbol).0 ==> y + 1 <= d.row <= y + n
    ensures |Render(font, text, x, y, size, symbol).0| == n * Known(font, text)
    decreases |text|
  {
    if text != [] {
      if text[0] in font {
        RenderRowsInBand(font, text[1..], x + size + 1, y, size, symbol, n);
        var g := Glyph(font[text[0]], x, y, symbol);
        var rest := Render(font, text[1..], x + size + 1, y, size, symbol);
        GlyphInBand(font[text[0]], x, y, symbol);
        assert Render(font, text, x, y, size, symbol).0 == g + rest.0;
      } else {
        RenderRowsInBand(font, text[1..], x, y, size, symbol, n);
      }
    }
  }

  /** The `for i in range(font)` loop of `updateFont`: `n` further lines, each with its last character dropped. */
  method ReadRows(lines: seq<string>, from: nat, n: nat) returns (rows: seq<string>)
    ensures rows == Rows(lines, from, n)
  {
    rows := [];
    var i := 0;
    while i < n
      invariant 0 <= i <= n
      invariant rows == Rows(lines, from, i)
    {
      rows := rows + [DropLast(ReadAt(lines, from + i))];
      i := i + 1;
    }
  }

  /** The character loop that `print` and `setPrint` share, moving the column as it goes. */
  method DrawText(font: Font, text: string, x: int, y: int, size: int, symbol: string)
    returns (draws: seq<Draw>, column: int)
    ensures (draws, column) == Render(font, text, x, y, size, symbol)
  {
    draws, column := [], x;
    var k := 0;
    assert text[0..] == text;
    assert [] + Render(font, text, x, y, size, symbol).0 == Render(font, text, x, y, size, symbol).0;
    while k < |text|
      invariant 0 <= k <= |text|
      invariant var rest := Render(font, text[k..], column, y, size, symbol);
        Render(font, text, x, y, size, symbol) == (draws + rest.0, rest.1)
    {
      assert text[k..][0] == text[k] && text[k..][1..] == text[k + 1..];
      var c := text[k];
      ghost var start := draws;
      if c in font {
        var rows := font[c];
        var i := 0;
        ghost var before := draws;
        while i < |rows|
          invariant 0 <= i <= |rows|
          invariant draws == before + Glyph(rows, column, y, symbol)[..i]
        {
          assert Glyph(rows, column, y, symbol)[..i + 1] == Glyph(rows, column, y, symbol)[..i] + [Draw(y + i + 1, column, Replace(rows[i], symbol))];
          draws := draws + [Draw(y + i + 1, column, Replace(rows[i], symbol))];
          i := i + 1;
        }
        var g := Glyph(rows, column, y, symbol);
        assert g[..i] == g;
        var rest := Render(font, text[k + 1..], column + size + 1, y, size, symbol);
        assert start + (g + rest.0) == (start + g) + rest.0;
        column := column + size + 1;
      }
      k := k + 1;
    }
    assert text[k..] == [] && draws + [] == draws;
  }

  // ---------------------------------------------------------------------------
  // The class-level state and the instances
  // ---------------------------------------------------------------------------

  /** The attributes `Printer` keeps on the class itself: `_font`, and the `xShift` that `setPrint` leaves. */
  class PrinterClass {
    var font: Font
    var xShift: Option<int>

    constructor ()
      ensures font == map[] && xShift == None
    {
      font := map[];
      xShift := None;
    }

    /**
     * `updateFont(size)`, with `file` the contents of `font{size}.txt`
     * (None when it does not exist, and the open fails before anything
     * changes).  Otherwise the table is emptied and refilled by the parse.
     */
    method UpdateFont(size: int, file: Option<seq<string>>) returns (r: Option<FontError>)
      modifies this`font
      ensures file.None? ==> r == Some(FileMissing) && font == old(font)
      ensures file.Some? ==>
        var (parsed, ok) := ParseFrom(file.value, 0, RowCount(size), map[]);
        font == parsed && (r == None <==> ok) && (r.Some? ==> r == Some(BuiltWrong))
    {
      if file.None? {
        return Some(FileMissing);
      }
      var lines := file.value;
      var n := RowCount(size);
      font := map[];
      var pos: nat := 0;
      while true
        invariant ParseFrom(lines, 0, n, map[]) == ParseFrom(lines, pos, n, font)
        decreases |lines| - pos
      {
        var line := DropLast(ReadAt(lines, pos));
        if line == "" {
          break;
        }
        if |line| != 1 {
          return Some(BuiltWrong);
        }
        var rows := ReadRows(lines, pos + 1, n);
        font := font[line[0] := rows];
        pos := pos + 1 + n;
      }
      r := None;
    }

    /**
     * `setPrint`: load the font for `size`, draw `text` from column `x`, and
     * leave the final column in the class's `xShift`.  A failed load
     * raises, so nothing is drawn and `xShift` keeps its value.
     */
    method SetPrint(text: string, color: Color, size: int, x: int, y: int, file: Option<seq<string>>, symbol: string := "*")
      returns (draws: seq<Draw>, r: Option<FontError>)
      modifies this
      ensures file.None? ==> font == old(font)
      ensures file.Some? ==> font == ParseFrom(file.value, 0, RowCount(size), map[]).0
      ensures r.Some? ==> draws == [] && xShift == old(xShift)
      ensures r == None ==> draws == Render(font, text, x, y, size, symbol).0 && xShift == Some(Render(font, text, x, y, size, symbol).1)
      ensures r == None <==> file.Some? && ParseFrom(file.value, 0, RowCount(size), map[]).1
    {
      draws := [];
      r := UpdateFont(size, file);
      if r.Some? {
        return;
      }
      var column;
      draws, column := DrawText(font, text, x, y, size, symbol);
      xShift := Some(column);
    }
  }

  /** A `Printer` instance, 2/2.py:11-16; its font table is the class-level one. */
  class Printer {
    const cls: PrinterClass
    const color: Color
    const size: int
    var xShift: int
    const yShift: int
    const symbol: string

    constructor (cls: PrinterClass, color: Color, size: int, xShift: int, yShift: int, symbol: string := "*")
      ensures this.cls == cls && this.color == color && this.size == size
      ensures this.xShift == xShift && this.yShift == yShift && this.symbol == symbol
    {
      this.cls := cls;
      this.color := color;
      this.size := size;
      this.xShift := xShift;
      this.yShift := yShift;
      this.symbol := symbol;
    }

    /**
     * `print`: load the font for this printer's size, then draw `text` from
     * this printer's column, which ends past the last drawn character.  A
     * failed load raises before anything is drawn.
     */
    method Print(text: string, file: Option<seq<string>>) returns (draws: seq<Draw>, r: Option<FontError>)
      modifies this, cls`font
      ensures file.None? ==> cls.font == old(cls.font)
      ensures file.Some? ==> cls.font == ParseFrom(file.value, 0, RowCount(size), map[]).0
      ensures r == None <==> file.Some? && ParseFrom(file.value, 0, RowCount(size), map[]).1
      ensures r.Some? ==> draws == [] && xShift == old(xShift)
      ensures r == None ==> (draws, xShift) == Render(cls.font, text, old(xShift), yShift, size, symbol)
    {
      draws := [];
      r := cls.UpdateFont(size, file);
      if r.Some? {
        return;
      }
      draws, xShift := DrawText(cls.font, text, xShift, yShift, size, symbol);
    }
  }

  /**
   * The test at the end of 2/2.py (lines 64-66), with the font files given:
   * `setPrint('SAMPLE', ...)` at column 1 with size 7, then a size-5 printer at
   * column 50 printing 'HELLO'.
   */
  method SampleAndHello(font7: Option<seq<string>>, font5: Option<seq<string>>)
  {
    var cls := new PrinterClass();
    var draws, r := cls.SetPrint("SAMPLE", Blue, 7, 1, 1, font7, "#");
    if r == None {
      RenderAdvance(cls.font, "SAMPLE", 1, 1, 7, "#");
      assert cls.xShift == Some(1 + 8 * Known(cls.font, "SAMPLE"));
    }
    var printer := new Printer(cls, Red, 5, 50, 10, "$");
    var draws2, r2 := printer.Print("HELLO", font5);
    if r2 == None {
      RenderAdvance(cls.font, "HELLO", 50, 10, 5, "$");
      assert printer.xShift == 50 + 6 * Known(cls.font, "HELLO");
      RenderRowsInBand(cls.font, "HELLO", 50, 10, 5, "$", 5) by {
        ParseRowCounts(font5.value, 0, 5, map[]);
      }
      assert forall d :: d in draws2 ==> 11 <= d.row <= 15;
    }
  }
}
