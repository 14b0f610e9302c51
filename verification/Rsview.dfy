// The scanner that turns an rsview page, seen as the HTML tokenizer's stream,
// into the cells of its result table.
module Rsview {
  import opened Common
  import opened AppErrors

  datatype Attr = Attr(key: string, val: string)

  datatype Tag = Tr | Td | OtherTag

  /** `OtherToken` stands for comments, doctypes and self-closing tags. */
  datatype Token =
    | StartTag(tag: Tag, attrs: seq<Attr>)
    | EndTag(tag: Tag)
    | Text(raw: string)
    | OtherToken

  datatype StreamEnd = Eof | Broken

  datatype Page = Page(tokens: seq<Token>, end: StreamEnd)

  const CELL_COUNT: nat := 18

  // ---- Text of a cell ----

  predicate IsSpace(c: char) {
    c in {' ', '\t', '\n', '\r', '\U{000B}', '\U{000C}'}
  }

  function TrimLeft(s: string): string {
    if s != [] && IsSpace(s[0]) then TrimLeft(s[1..]) else s
  }

  function TrimRight(s: string): string {
    if s != [] && IsSpace(s[|s| - 1]) then TrimRight(s[..|s| - 1]) else s
  }

  function LowerChar(c: char): char {
    if 'A' <= c <= 'Z' then ((c as int) + 32) as char else c
  }

  function ToLower(s: string): string {
    seq(|s|, i requires 0 <= i < |s| => LowerChar(s[i]))
  }

  function EraseNone(s: string): string {
    if |s| >= 4 && s[..4] == "none" then EraseNone(s[4..])
    else if s == [] then []
    else [s[0]] + EraseNone(s[1..])
  }

  function Normalise(raw: string): string {
    EraseNone(ToLower(TrimRight(TrimLeft(raw))))
  }

  predicate Blank(s: string) {
    s == " " || s == ""
  }

  // ---- What the table's cells are ----

  predicate IsResultAttrs(attrs: seq<Attr>) {
    attrs != [] && attrs[0].key == "class" && (attrs[0].val == "result_table2" || attrs[0].val == "popup")
  }

  predicate IsResultStart(t: Token) {
    t.StartTag? && t.tag == Td && IsResultAttrs(t.attrs)
  }

  predicate IsCellEnd(t: Token) {
    t.EndTag? && t.tag == Td
  }

  function FirstStart(ts: seq<Token>): (i: nat)
    ensures i <= |ts|
    ensures forall k :: 0 <= k < i ==> !IsResultStart(ts[k])
    ensures i < |ts| ==> IsResultStart(ts[i])
  {
    if ts == [] || IsResultStart(ts[0]) then 0 else FirstStart(ts[1..]) + 1
  }

  function FirstEnd(ts: seq<Token>): (i: nat)
    ensures i <= |ts|
    ensures forall k :: 0 <= k < i ==> !IsCellEnd(ts[k])
    ensures i < |ts| ==> IsCellEnd(ts[i])
  {
    if ts == [] || IsCellEnd(ts[0]) then 0 else FirstEnd(ts[1..]) + 1
  }

  /** The nonblank normalised texts of a token sequence, in order. */
  function Texts(ts: seq<Token>): seq<string> {
    if ts == [] then []
    else (if ts[0].Text? && !Blank(Normalise(ts[0].raw)) then [Normalise(ts[0].raw)] else []) + Texts(ts[1..])
  }

  function Join(parts: seq<string>): string
    requires parts != []
  {
    if |parts| == 1 then parts[0] else Join(parts[..|parts| - 1]) + " " + parts[|parts| - 1]
  }

  function Joined(parts: seq<string>): seq<string> {
    if parts == [] then [] else [Join(parts)]
  }

  /** The cells of `ts` when a cell is open and `parts` were read in it. */
  function CellsInside(parts: seq<string>, ts: seq<Token>): seq<string>
    decreases |ts|, 1
  {
    var e := FirstEnd(ts);
    var all := parts + Texts(ts[..e]);
    if e == |ts| then Joined(all)
    else (if all == [] then ["NULL"] else Joined(all)) + Cells(ts[e + 1..])
  }

  /** The cells of a token stream: each runs from a result-td start to the first
      td end after it, holds its nonblank texts joined by a space, and is NULL
      when it has none. A cell that the stream leaves open counts once it has text. */
  function Cells(ts: seq<Token>): seq<string>
    decreases |ts|, 0
  {
    var b := FirstStart(ts);
    if b == |ts| then [] else CellsInside([], ts[b + 1..])
  }

  // ---- The flag-driven scan ----

  datatype ScanState = ScanState(buf: seq<string>, inCell: bool, textRead: bool) {
    predicate Valid() {
      textRead ==> inCell && buf != []
    }
  }

  const START := ScanState([], false, false)

  function Step(st: ScanState, t: Token): (r: ScanState)
    requires st.Valid()
    ensures r.Valid()
  {
    match t
    case StartTag(Td, attrs) => if IsResultAttrs(attrs) then st.(inCell := true) else st
    case EndTag(Td) =>
      if !st.inCell then st
      else ScanState(if st.textRead then st.buf else st.buf + ["NULL"], false, false)
    case Text(raw) =>
      var d := Normalise(raw);
      if !st.inCell || Blank(d) then st
      else if st.textRead then
        var last := |st.buf| - 1;
        st.(buf := st.buf[last := st.buf[last] + " " + d])
      else st.(buf := st.buf + [d], textRead := true)
    case _ => st
  }

  function Scan(st: ScanState, ts: seq<Token>): (r: ScanState)
    requires st.Valid()
    ensures r.Valid()
    decreases |ts|
  {
    if ts == [] then st else Scan(Step(st, ts[0]), ts[1..])
  }

  lemma {:induction false} ScanConcat(st: ScanState, a: seq<Token>, b: seq<Token>)
    requires st.Valid()
    ensures Scan(st, a + b) == Scan(Scan(st, a), b)
    decreases |a|
  {
    if a == [] {
      assert a + b == b;
    } else {
      assert (a + b)[1..] == a[1..] + b;
      ScanConcat(Step(st, a[0]), a[1..], b);
    }
  }

  // ---- The scan computes the cells ----

  lemma {:induction false} JoinSnoc(parts: seq<string>, d: string)
    requires parts != []
    ensures Join(parts + [d]) == Join(parts) + " " + d
  {
    assert (parts + [d])[..|parts|] == parts;
  }

  lemma CellsUnfold(ts: seq<Token>)
    requires ts != []
    ensures IsResultStart(ts[0]) ==> Cells(ts) == CellsInside([], ts[1..])
    ensures !IsResultStart(ts[0]) ==> Cells(ts) == Cells(ts[1..])
  {
    if !IsResultStart(ts[0]) {
      var b := FirstStart(ts[1..]);
      if b < |ts[1..]| {
        assert ts[1..][b + 1..] == ts[FirstStart(ts) + 1..];
      }
    }
  }

  lemma CellsInsideUnfold(parts: seq<string>, ts: seq<Token>)
    requires ts != []
    ensures IsCellEnd(ts[0]) ==>
              CellsInside(parts, ts) == (if parts == [] then ["NULL"] else Joined(parts)) + Cells(ts[1..])
    ensures !IsCellEnd(ts[0]) ==> CellsInside(parts, ts) == CellsInside(parts + Texts(ts[..1]), ts[1..])
  {
    var e := FirstEnd(ts);
    if e == 0 {
      assert parts + Texts(ts[..e]) == parts;
    } else {
      assert ts[..e][1..] == ts[1..][..e - 1];
      assert Texts(ts[..1]) + Texts(ts[1..][..e - 1]) == Texts(ts[..e]) by {
        assert ts[..1][1..] == [];
        assert Texts(ts[..1][1..]) == [];
      }
      assert parts + Texts(ts[..1]) + Texts(ts[1..][..e - 1]) == parts + Texts(ts[..e]);
      if e < |ts| {
        assert ts[1..][e..] == ts[e + 1..];
      }
    }
  }

  lemma CellsInsideEmpty(parts: seq<string>)
    ensures CellsInside(parts, []) == Joined(parts)
  {
    var none: seq<Token> := [];
    assert none[..0] == none && parts + Texts(none[..0]) == parts;
  }

  lemma {:induction false} ScanOutside(st: ScanState, ts: seq<Token>)
    requires st.Valid() && !st.inCell
    ensures Scan(st, ts).buf == st.buf + Cells(ts)
    decreases |ts|
  {
    if ts != [] {
      CellsUnfold(ts);
      if IsResultStart(ts[0]) {
        ScanInside(Step(st, ts[0]), [], ts[1..]);
      } else {
        ScanOutside(Step(st, ts[0]), ts[1..]);
      }
    }
  }

  lemma {:induction false} ScanInside(st: ScanState, parts: seq<string>, ts: seq<Token>)
    requires st.Valid() && st.inCell
    requires st.textRead <==> parts != []
    requires parts != [] ==> st.buf[|st.buf| - 1] == Join(parts)
    ensures Scan(st, ts).buf ==
            (if parts == [] then st.buf else st.buf[..|st.buf| - 1]) + CellsInside(parts, ts)
    decreases |ts|
  {
    hide CellsInside, Cells, Texts, Join, Normalise;
    if ts == [] {
      CellsInsideEmpty(parts);
    } else {
      CellsInsideUnfold(parts, ts);
      var t := ts[0];
      if IsCellEnd(t) {
        ScanOutside(Step(st, t), ts[1..]);
      } else {
        var more := Texts(ts[..1]);
        assert ts[..1] == [t];
        StepInside(st, parts, t, more);
        ScanInside(Step(st, t), parts + more, ts[1..]);
      }
    }
  }

  /** A token that does not end the open cell adds its text, if any, to the parts read so far. */
  lemma StepInside(st: ScanState, parts: seq<string>, t: Token, more: seq<string>)
    requires st.Valid() && st.inCell && !IsCellEnd(t)
    requires st.textRead <==> parts != []
    requires parts != [] ==> st.buf[|st.buf| - 1] == Join(parts)
    requires more == Texts([t])
    ensures var r, all := Step(st, t), parts + more;
            && r.inCell && (r.textRead <==> all != [])
            && (all != [] ==> r.buf != [] && r.buf[|r.buf| - 1] == Join(all))
            && (if all == [] then r.buf else r.buf[..|r.buf| - 1]) == (if parts == [] then st.buf else st.buf[..|st.buf| - 1])
  {
    assert [t][1..] == [];
    assert more == if t.Text? && !Blank(Normalise(t.raw)) then [Normalise(t.raw)] else [];
    if more == [] {
      assert parts + more == parts;
    } else if parts != [] {
      JoinSnoc(parts, more[0]);
    } else {
      assert parts + more == more;
    }
  }

  /** The two boolean flags and the in-place buffer compute exactly the cells. */
  lemma ScanIsCells(ts: seq<Token>)
    ensures Scan(START, ts).buf == Cells(ts)
  {
    ScanOutside(START, ts);
  }

  // ---- Parsing a whole page ----

  function ParsePage(page: Page): Result<seq<string>, ErrorCode> {
    if page.end == Broken then Err(InternalCommonError)
    else
      var cells := Cells(page.tokens);
      if cells == [] then Err(RsviewMacNotFound)
      else if |cells| != CELL_COUNT then Err(RsviewUnknownApi)
      else Ok(cells)
  }

  /** The scanner's loop: one pass over the stream, two flags, cells grown in place. */
  method ParseResponseHtml(page: Page) returns (buf: seq<string>, err: Option<ErrorCode>)
    ensures buf == Cells(page.tokens)
    ensures match ParsePage(page)
            case Ok(cells) => err == None && buf == cells
            case Err(e) => err == Some(e)
  {
    buf := [];
    var trResultCount := 0;
    var tdClassResult, tdTextRead := false, false;
    var i := 0;
    while i < |page.tokens|
      invariant i <= |page.tokens|
      invariant tdTextRead ==> tdClassResult && buf != []
      invariant Scan(ScanState(buf, tdClassResult, tdTextRead), page.tokens[i..]) == Scan(START, page.tokens)
    {
      var token := page.tokens[i];
      ghost var rest := page.tokens[i..];
      assert rest[0] == token && rest[1..] == page.tokens[i + 1..];
      i := i + 1;
      match token {
        case StartTag(Tr, attrs) =>
          for k := 0 to |attrs| {
            if attrs[k] == Attr("class", "result") {
              trResultCount := trResultCount + 1;
              if trResultCount > 3 {
                break;
              }
            }
          }
        case StartTag(Td, attrs) =>
          if |attrs| == 0 {
            continue;
          }
          if attrs[0].key != "class" || (attrs[0].val != "result_table2" && attrs[0].val != "popup") {
            continue;
          }
          tdClassResult := true;
        case EndTag(tag) =>
          if tag != Td || !tdClassResult {
            continue;
          }
          if !tdTextRead {
            buf := buf + ["NULL"];
          }
          tdClassResult := false;
          tdTextRead := false;
        case Text(raw) =>
          if !tdClassResult {
            continue;
          }
          var data := Normalise(raw);
          if data != " " && |data| != 0 {
            if tdTextRead {
              var last := |buf| - 1;
              buf := buf[last := buf[last] + " " + data];
              continue;
            }
            buf := buf + [data];
            tdTextRead := true;
          }
        case _ =>
      }
    }
    ScanIsCells(page.tokens);
    if page.end == Broken {
      return buf, Some(InternalCommonError);
    }
    if |buf| == 0 {
      return buf, Some(RsviewMacNotFound);
    }
    if |buf| != CELL_COUNT {
      return buf, Some(RsviewUnknownApi);
    }
    return buf, None;
  }
}
