// Laws of the page scanner: which tokens it ignores, and that it reads back a
// table it is shown.
module RsviewLaws {
  import opened Common
  import opened AppErrors
  import opened Rsview

  // ---- What normalising a text does ----

  /** `d` is `c` in lower case: the letter at the same place of the other alphabet, or `c` itself. */
  ghost predicate LowersTo(c: char, d: char) {
    if 'A' <= c <= 'Z' then 'a' <= d <= 'z' && d as int - 'a' as int == c as int - 'A' as int else d == c
  }

  ghost predicate IsLowered(s: string, low: string) {
    |low| == |s| && forall i :: 0 <= i < |s| ==> LowersTo(s[i], low[i])
  }

  /** A blank, or one of the five control characters from tab to carriage return. */
  predicate IsWhite(c: char) {
    c == ' ' || '\t' <= c <= '\r'
  }

  ghost predicate AllSpace(s: string) {
    forall c <- s :: IsWhite(c)
  }

  /** No white space at either end. */
  ghost predicate IsTrimmed(s: string) {
    s == "" || (!IsWhite(s[0]) && !IsWhite(s[|s| - 1]))
  }

  ghost predicate NoneAt(s: string, i: nat) {
    i + 4 <= |s| && s[i..i + 4] == "none"
  }

  ghost predicate HasNone(s: string) {
    exists i: nat :: NoneAt(s, i)
  }

  lemma SpaceIsWhite(c: char)
    ensures IsSpace(c) <==> IsWhite(c)
  {
  }

  lemma {:induction false} TrimLeftDrops(l: string, s: string)
    requires AllSpace(l) && (s == "" || !IsWhite(s[0]))
    ensures TrimLeft(l + s) == s
  {
    if l == "" {
      assert l + s == s;
      if s != "" {
        SpaceIsWhite(s[0]);
      }
    } else {
      SpaceIsWhite(l[0]);
      assert (l + s)[1..] == l[1..] + s;
      TrimLeftDrops(l[1..], s);
    }
  }

  lemma {:induction false} TrimRightDrops(s: string, r: string)
    requires AllSpace(r) && (s == "" || !IsWhite(s[|s| - 1]))
    ensures TrimRight(s + r) == s
    decreases |r|
  {
    if r == "" {
      assert s + r == s;
      if s != "" {
        SpaceIsWhite(s[|s| - 1]);
      }
    } else {
      SpaceIsWhite(r[|r| - 1]);
      assert (s + r)[..|s + r| - 1] == s + r[..|r| - 1];
      assert (s + r)[|s + r| - 1] == r[|r| - 1];
      TrimRightDrops(s, r[..|r| - 1]);
    }
  }

  lemma TrimDropsMargins(l: string, core: string, r: string)
    requires AllSpace(l) && AllSpace(r) && IsTrimmed(core)
    ensures TrimRight(TrimLeft(l + core + r)) == core
  {
    if core == "" {
      assert AllSpace(l + r) && l + core + r == l + r + "";
      TrimLeftDrops(l + r, "");
    } else {
      assert l + core + r == l + (core + r);
      TrimLeftDrops(l, core + r);
      TrimRightDrops(core, r);
    }
  }

  lemma LoweredIsLower(s: string, low: string)
    ensures IsLowered(s, low) <==> low == ToLower(s)
  {
    if IsLowered(s, low) {
      forall i | 0 <= i < |s| ensures low[i] == ToLower(s)[i] {
        assert LowersTo(s[i], low[i]);
      }
    }
  }

  lemma {:induction false} NothingToErase(s: string)
    requires !HasNone(s)
    ensures EraseNone(s) == s
  {
    assert !NoneAt(s, 0);
    if s != "" {
      forall i: nat ensures !NoneAt(s[1..], i) {
        assert !NoneAt(s, i + 1);
        assert i + 4 <= |s[1..]| ==> s[1..][i..i + 4] == s[i + 1..i + 1 + 4];
      }
      NothingToErase(s[1..]);
    }
  }

  lemma {:induction false} FirstIsErased(a: string, b: string)
    requires forall i: nat :: i < |a| ==> !NoneAt(a + "none" + b, i)
    ensures EraseNone(a + "none" + b) == a + EraseNone(b)
  {
    var s := a + "none" + b;
    if a == "" {
      assert s[..4] == "none" && s[4..] == b;
      assert a + EraseNone(b) == EraseNone(b);
    } else {
      assert !NoneAt(s, 0);
      var s1 := a[1..] + "none" + b;
      assert s[1..] == s1;
      forall i: nat | i < |a[1..]| ensures !NoneAt(s1, i) {
        assert !NoneAt(s, i + 1);
        assert s1[i..i + 4] == s[i + 1..i + 1 + 4];
      }
      FirstIsErased(a[1..], b);
      assert [s[0]] + (a[1..] + EraseNone(b)) == a + EraseNone(b);
    }
  }

  /** A text with white space around it, whose lower-case form has no "none" in it, is normalised
      to that form, character by character. */
  lemma MarginsAndCaseGo(l: string, core: string, r: string, low: string)
    requires AllSpace(l) && AllSpace(r) && IsTrimmed(core) && IsLowered(core, low) && !HasNone(low)
    ensures Normalise(l + core + r) == low
  {
    TrimDropsMargins(l, core, r);
    LoweredIsLower(core, low);
    NothingToErase(low);
  }

  /** Of a text that has "none" in it the first occurrence goes, and what comes after it is dealt
      with in the same way. */
  lemma FirstNoneGoes(l: string, core: string, r: string, a: string, b: string)
    requires AllSpace(l) && AllSpace(r) && IsTrimmed(core) && IsLowered(core, a + "none" + b)
    requires forall i: nat :: i < |a| ==> !NoneAt(a + "none" + b, i)
    ensures Normalise(l + core + r) == a + EraseNone(b)
    ensures !HasNone(b) ==> Normalise(l + core + r) == a + b
  {
    TrimDropsMargins(l, core, r);
    LoweredIsLower(core, a + "none" + b);
    FirstIsErased(a, b);
    if !HasNone(b) {
      NothingToErase(b);
    }
  }

  lemma NormaliseX()
    ensures Normalise("x") == "x" && !Blank("x")
  {
    assert "" + "x" + "" == "x";
    assert !HasNone("x");
    MarginsAndCaseGo("", "x", "", "x");
  }

  // ---- Noise ----

  /** `ts` ends inside a cell: some result-td start has no td end after it. */
  ghost predicate EndsInCell(ts: seq<Token>) {
    exists i :: 0 <= i < |ts| && IsResultStart(ts[i]) && forall k :: i < k < |ts| ==> !IsCellEnd(ts[k])
  }

  /** The token says nothing new after `before`. */
  ghost predicate Noise(before: seq<Token>, t: Token) {
    match t
    case StartTag(_, _) => !IsResultStart(t) || EndsInCell(before)
    case EndTag(tag) => tag != Td || !EndsInCell(before)
    case Text(raw) => !EndsInCell(before) || Blank(Normalise(raw))
    case OtherToken => true
  }

  lemma {:induction false} ScanSnoc(ts: seq<Token>, t: Token)
    ensures Scan(START, ts + [t]) == Step(Scan(START, ts), t)
  {
    ScanConcat(START, ts, [t]);
  }

  lemma EndsInCellSnoc(init: seq<Token>, t: Token)
    ensures EndsInCell(init + [t]) <==> IsResultStart(t) || (EndsInCell(init) && !IsCellEnd(t))
  {
    var ts, n := init + [t], |init|;
    if IsResultStart(t) {
      assert IsResultStart(ts[n]);
    } else if EndsInCell(init) && !IsCellEnd(t) {
      var i :| 0 <= i < n && IsResultStart(init[i]) && forall k :: i < k < n ==> !IsCellEnd(init[k]);
      assert IsResultStart(ts[i]);
    }
    if EndsInCell(ts) && !IsResultStart(t) {
      var i :| 0 <= i < |ts| && IsResultStart(ts[i]) && forall k :: i < k < |ts| ==> !IsCellEnd(ts[k]);
      assert IsResultStart(init[i]) && !IsCellEnd(ts[n]);
      assert forall k :: i < k < n ==> init[k] == ts[k];
    }
  }

  lemma {:induction false} FlagIsEndsInCell(ts: seq<Token>)
    ensures Scan(START, ts).inCell <==> EndsInCell(ts)
  {
    if ts != [] {
      var init, t := ts[..|ts| - 1], ts[|ts| - 1];
      assert ts == init + [t];
      ScanSnoc(init, t);
      FlagIsEndsInCell(init);
      EndsInCellSnoc(init, t);
    }
  }

  lemma NoiseFixesState(before: seq<Token>, t: Token)
    requires Noise(before, t)
    ensures Step(Scan(START, before), t) == Scan(START, before)
  {
    FlagIsEndsInCell(before);
  }

  /** Inserting noise leaves every page's cells alone. */
  lemma NoiseIsErased(before: seq<Token>, t: Token, after: seq<Token>)
    requires Noise(before, t)
    ensures Cells(before + [t] + after) == Cells(before + after)
  {
    NoiseFixesState(before, t);
    ScanConcat(START, before, after);
    ScanSnoc(before, t);
    ScanConcat(START, before + [t], after);
    ScanIsCells(before + [t] + after);
    ScanIsCells(before + after);
  }

  /** A token that is not noise is noticed, by the stream so far or by one that goes on
      with a text or with a text and a td end. */
  lemma SignalIsNoticed(before: seq<Token>, t: Token) returns (after: seq<Token>)
    requires !Noise(before, t)
    ensures Cells(before + [t] + after) != Cells(before + after)
  {
    FlagIsEndsInCell(before);
    ScanSnoc(before, t);
    var st := Scan(START, before);
    var word := Text("x");
    NormaliseX();
    if IsResultStart(t) || (IsCellEnd(t) && st.textRead) {
      after := [word];
      ScanSnoc(before, word);
      ScanSnoc(before + [t], word);
    } else {
      after := [];
      assert before + [t] + after == before + [t] && before + after == before;
    }
    ScanIsCells(before + [t] + after);
    ScanIsCells(before + after);
    if st.textRead {
      var last := st.buf[|st.buf| - 1];
      forall d: string ensures last + " " + d != last {
        assert |last + " " + d| > |last|;
      }
    }
  }

  /** Exactly the noise tokens can be inserted without changing any page. */
  lemma InsertionIsInvisible(before: seq<Token>, t: Token)
    ensures Noise(before, t) <==> forall after :: Cells(before + [t] + after) == Cells(before + after)
  {
    if Noise(before, t) {
      forall after ensures Cells(before + [t] + after) == Cells(before + after) {
        NoiseIsErased(before, t, after);
      }
    } else {
      var after := SignalIsNoticed(before, t);
      assert Cells(before + [t] + after) != Cells(before + after);
    }
  }

  // ---- Round trip ----

  /** The two classes of result cells. */
  predicate IsResultClass(css: string) {
    css == "result_table2" || css == "popup"
  }

  function RenderCell(css: string, cell: Option<string>): seq<Token> {
    [StartTag(Td, [Attr("class", css)])]
    + (if cell.Some? then [Text(cell.value)] else [])
    + [EndTag(Td)]
  }

  /** A table as rsview shows it: a td of that class for each cell, with no text in it or with one. */
  function Render(css: string, table: seq<Option<string>>): seq<Token> {
    if table == [] then [] else RenderCell(css, table[0]) + Render(css, table[1..])
  }

  /** The cell has no text, or one of which something is left. */
  ghost predicate Legible(cell: Option<string>) {
    cell.Some? ==> !Blank(Normalise(cell.value))
  }

  function ReadBack(cell: string): Option<string> {
    if cell == "NULL" then None else Some(cell)
  }

  function Shown(cell: Option<string>): string {
    if cell.Some? then Normalise(cell.value) else "NULL"
  }

  lemma CellsOfRenderedCell(css: string, cell: Option<string>, rest: seq<Token>)
    requires IsResultClass(css) && Legible(cell)
    ensures Cells(RenderCell(css, cell) + rest) == [Shown(cell)] + Cells(rest)
  {
    hide Normalise;
    var ts := RenderCell(css, cell) + rest;
    CellsUnfold(ts);
    assert IsResultStart(ts[0]);
    var inner := ts[1..];
    CellsInsideUnfold([], inner);
    if cell.Some? {
      var text := Normalise(cell.value);
      assert inner[0] == Text(cell.value);
      assert Texts(inner[..1]) == [text] by {
        assert inner[..1][1..] == [];
        assert inner[..1][0] == Text(cell.value);
      }
      assert [] + [text] == [text];
      CellsInsideUnfold([text], inner[1..]);
      assert IsCellEnd(inner[1..][0]);
      assert inner[1..][1..] == rest;
    } else {
      assert inner[1..] == rest;
    }
  }

  lemma {:induction false} CellsOfRender(css: string, table: seq<Option<string>>)
    requires IsResultClass(css) && forall c <- table :: Legible(c)
    ensures |Cells(Render(css, table))| == |table|
    ensures forall i :: 0 <= i < |table| ==> Cells(Render(css, table))[i] == Shown(table[i])
  {
    hide Normalise;
    if table != [] {
      CellsOfRender(css, table[1..]);
      CellsOfRenderedCell(css, table[0], Render(css, table[1..]));
      assert Cells(Render(css, table)) == [Shown(table[0])] + Cells(Render(css, table[1..]));
    }
  }

  /** A cell as it may stand on a page: empty, or a text in whatever case with white space around it. */
  datatype PageCell = Empty | Filled(left: string, core: string, right: string)

  function TextOf(cell: PageCell): Option<string> {
    if cell.Filled? then Some(cell.left + cell.core + cell.right) else None
  }

  function Display(table: seq<PageCell>): (shown: seq<Option<string>>)
    ensures |shown| == |table| && forall i :: 0 <= i < |table| ==> shown[i] == TextOf(table[i])
  {
    seq(|table|, i requires 0 <= i < |table| => TextOf(table[i]))
  }

  /** There is a text between the margins, and its lower-case form has no "none" in it. */
  ghost predicate Plain(cell: PageCell) {
    cell.Filled? ==>
      && AllSpace(cell.left) && AllSpace(cell.right)
      && cell.core != "" && IsTrimmed(cell.core)
      && forall low :: IsLowered(cell.core, low) ==> !HasNone(low)
  }

  ghost predicate ReadsAs(cell: PageCell, read: Option<string>) {
    if cell.Filled? then read.Some? && IsLowered(cell.core, read.value) else read == None
  }

  lemma PlainIsRead(cell: PageCell)
    requires Plain(cell)
    ensures Legible(TextOf(cell))
    ensures ReadsAs(cell, ReadBack(Shown(TextOf(cell))))
  {
    if cell.Filled? {
      var low := ToLower(cell.core);
      LoweredIsLower(cell.core, low);
      MarginsAndCaseGo(cell.left, cell.core, cell.right, low);
      assert LowersTo(cell.core[0], low[0]);
      assert low[0] != ' ' && low[0] != 'N';
    }
  }

  /** Any table of 18 cells is read back from its own page: an empty cell as empty, and any other as
      its text in lower case, whatever white space stands around it. */
  lemma PaddedPageRoundTrip(css: string, table: seq<PageCell>)
    requires IsResultClass(css) && |table| == CELL_COUNT
    requires forall c <- table :: Plain(c)
    ensures var r := ParsePage(Page(Render(css, Display(table)), Eof));
            r.Ok? && |r.value| == |table| && forall i :: 0 <= i < |table| ==> ReadsAs(table[i], ReadBack(r.value[i]))
  {
    hide Plain, ReadsAs, Legible, Shown;
    forall i | 0 <= i < |table|
      ensures Legible(TextOf(table[i])) && ReadsAs(table[i], ReadBack(Shown(TextOf(table[i]))))
    {
      assert table[i] in table;
      PlainIsRead(table[i]);
    }
    CellsOfRender(css, Display(table));
  }

  /** A cell with no text, or with one that is normalised already. */
  ghost predicate Showable(cell: Option<string>) {
    cell.Some? ==> Normalise(cell.value) == cell.value && !Blank(cell.value)
  }

  lemma NullIsNotNormal()
    ensures Normalise("NULL") != "NULL"
  {
    assert "" + "NULL" + "" == "NULL";
    var low := "null";
    assert LowersTo('N', 'n') && LowersTo('U', 'u') && LowersTo('L', 'l');
    forall i: nat ensures !NoneAt(low, i) {
      if i == 0 {
        assert low[0..4][1] == 'u';
      }
    }
    MarginsAndCaseGo("", "NULL", "", low);
    assert low[0] != "NULL"[0];
  }

  /** Any table of 18 cells whose texts are normalised is read back exactly. */
  lemma PageRoundTrip(css: string, table: seq<Option<string>>)
    requires IsResultClass(css) && |table| == CELL_COUNT
    requires forall c <- table :: Showable(c)
    ensures var r := ParsePage(Page(Render(css, table), Eof));
            r.Ok? && |r.value| == |table| && forall i :: 0 <= i < |table| ==> ReadBack(r.value[i]) == table[i]
  {
    hide Normalise;
    CellsOfRender(css, table);
    NullIsNotNormal();
    forall i | 0 <= i < |table| ensures ReadBack(Cells(Render(css, table))[i]) == table[i] {
      assert table[i] in table;
    }
  }

  /** A page is accepted only when it has exactly 18 cells, none of them empty. */
  lemma AcceptedPageHasNoEmptyCell(page: Page)
    requires ParsePage(page).Ok?
    ensures |ParsePage(page).value| == CELL_COUNT
    ensures forall cell <- ParsePage(page).value :: cell != ""
  {
    CellsAreNonEmpty(page.tokens);
  }

  lemma {:induction false} JoinIsNonEmpty(parts: seq<string>)
    requires parts != [] && forall p <- parts :: p != ""
    ensures Join(parts) != ""
  {
    if |parts| == 1 {
      assert parts[0] in parts;
    } else {
      assert |Join(parts)| > 0;
    }
  }

  lemma {:induction false} TextsAreNonEmpty(ts: seq<Token>)
    ensures forall p <- Texts(ts) :: p != ""
  {
    if ts != [] {
      TextsAreNonEmpty(ts[1..]);
    }
  }

  lemma {:induction false} CellsAreNonEmpty(ts: seq<Token>)
    ensures forall cell <- Cells(ts) :: cell != ""
    decreases |ts|
  {
    hide Texts, Normalise;
    var b := FirstStart(ts);
    if b < |ts| {
      var rest := ts[b + 1..];
      var e := FirstEnd(rest);
      TextsAreNonEmpty(rest[..e]);
      var all := [] + Texts(rest[..e]);
      if all != [] {
        JoinIsNonEmpty(all);
      }
      assert Cells(ts) == CellsInside([], rest);
      if e < |rest| {
        CellsAreNonEmpty(rest[e + 1..]);
      }
    }
  }
}
