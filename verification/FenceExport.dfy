/**
 Fenced blocks in the Markdown export of a conversation.

 `Fence` is chosen longer than every run of backticks in the text.  The reader
 at the other end is the fenced-code-block rule of the CommonMark specification,
 version 0.31.2: section 2.1 for lines and section 4.5 for fences.
 */
module FenceExport {
  import opened Basics

  datatype Item = Item(
    fenced: bool,      // the kind is tool_call, tool_result or tool_error
    title: string,     // heading, and the tool name if there is one
    when: string,      // the formatted time, or nothing
    text: string,
    truncated: bool)

  // ------------------------------------------------------------ the writer

  /** How many copies of `c` the text starts with. */
  function Leading(c: char, text: string): (n: nat)
    ensures n <= |text|
    ensures forall i :: 0 <= i < n ==> text[i] == c
    ensures n < |text| ==> text[n] != c
  {
    if text == "" || text[0] != c then 0 else 1 + Leading(c, text[1..])
  }

  /** The maximal runs of backticks, in order. */
  function TickRuns(text: string): seq<string>
    decreases |text|
  {
    if text == "" then []
    else
      var n := Leading('`', text);
      if n == 0 then TickRuns(text[1..]) else [text[..n]] + TickRuns(text[n..])
  }

  function LongestOf(runs: seq<string>): nat {
    if runs == [] then 0 else Max(|runs[0]|, LongestOf(runs[1..]))
  }

  function FenceLength(text: string): nat {
    Max(3, LongestOf(TickRuns(text)) + 1)
  }

  function Fence(text: string): string {
    Repeat('`', FenceLength(text))
  }

  /** One element of the body. */
  function Printed(item: Item): string {
    "### " + item.title + item.when
    + (if item.fenced then "\n" + Fence(item.text) + "\n" + item.text + "\n" + Fence(item.text) else "\n" + item.text)
    + (if item.truncated then "\n\n_[shortened]_" else "")
  }

  /** The body of the document; a newline follows every element. */
  function Body(items: seq<Item>): string {
    if items == [] then "" else Printed(items[0]) + "\n" + Body(items[1..])
  }

  // ------------------------------------------------------------ the reader

  /** The length of the first line, its ending included (section 2.1). */
  function LineLength(text: string): (n: nat)
    requires text != ""
    ensures 0 < n <= |text|
  {
    if text[0] == '\n' then 1
    else if text[0] == '\r' then (if |text| > 1 && text[1] == '\n' then 2 else 1)
    else if |text| == 1 then 1
    else 1 + LineLength(text[1..])
  }

  function Lines(text: string): seq<string>
    decreases |text|
  {
    if text == "" then [] else [text[..LineLength(text)]] + Lines(text[LineLength(text)..])
  }

  datatype Opening = NoFence | Opening(mark: char, length: nat, indent: nat)

  predicate FenceMark(c: char) { c == '`' || c == '~' }

  /** Whether a line opens a fenced code block (section 4.5). */
  function Opens(line: string): Opening {
    var indent := Leading(' ', line);
    var rest := line[indent..];
    if indent > 3 || rest == "" || !FenceMark(rest[0]) then NoFence
    else
      var n := Leading(rest[0], rest);
      if n < 3 || (rest[0] == '`' && '`' in rest[n..]) then NoFence else Opening(rest[0], n, indent)
  }

  /** Whether a line closes a block opened with `o`: a fence at least as long, then only blanks. */
  predicate Closes(line: string, o: Opening)
    requires o.Opening?
  {
    var indent := Leading(' ', line);
    var rest := line[indent..];
    var n := Leading(o.mark, rest);
    indent <= 3 && n >= o.length && forall c :: c in rest[n..] ==> c in " \t\r\n"
  }

  /** A content line loses as much indentation as the opening fence had. */
  function Dedent(line: string, indent: nat): string {
    var n := Leading(' ', line);
    line[if n < indent then n else indent..]
  }

  /** The literal contents of the fenced blocks; `content` is what the open block holds so far. */
  function Blocks(lines: seq<string>, open: Opening, content: string): seq<string> {
    if lines == [] then (if open.Opening? then [content] else [])
    else if open.NoFence? then Blocks(lines[1..], Opens(lines[0]), "")
    else if Closes(lines[0], open) then [content] + Blocks(lines[1..], NoFence, "")
    else Blocks(lines[1..], open, content + Dedent(lines[0], open.indent))
  }

  function FencedBlocks(document: string): seq<string> {
    Blocks(Lines(document), NoFence, "")
  }

  // ----------------------------------------------- no run exceeds the fence

  lemma {:induction false} NoLongerRun(text: string, i: nat, j: nat)
    requires i <= j <= |text|
    requires forall x :: i <= x < j ==> text[x] == '`'
    ensures j - i <= LongestOf(TickRuns(text))
    decreases |text|
  {
    if text != "" && i < j {
      var n := Leading('`', text);
      var k := if n == 0 then 1 else n;
      if n <= i {
        var tail := text[k..];
        NoLongerRun(tail, i - k, j - k);
      }
    }
  }

  // ------------------------------------------------------- lines of a text

  /** A text that ends with a newline splits independently of what follows. */
  lemma {:induction false} LinesConcat(a: string, b: string)
    requires a == "" || a[|a| - 1] == '\n'
    ensures Lines(a + b) == Lines(a) + Lines(b)
    decreases |a|
  {
    if a == "" {
      assert a + b == b;
    } else {
      LineLengthConcat(a, b);
      var n := LineLength(a);
      assert (a + b)[..n] == a[..n] && (a + b)[n..] == a[n..] + b;
      LinesConcat(a[n..], b);
    }
  }

  lemma {:induction false} LineLengthConcat(a: string, b: string)
    requires a != "" && a[|a| - 1] == '\n'
    ensures LineLength(a + b) == LineLength(a)
  {
    if a[0] != '\n' && a[0] != '\r' {
      assert (a + b)[1..] == a[1..] + b;
      LineLengthConcat(a[1..], b);
    }
  }

  predicate SingleLine(s: string) {
    '\n' !in s && '\r' !in s
  }

  lemma {:induction false} OneLine(s: string)
    requires SingleLine(s)
    ensures Lines(s + "\n") == [s + "\n"]
  {
    OneLineLength(s);
    var t := s + "\n";
    assert t[..|t|] == t && t[|t|..] == "";
  }

  lemma {:induction false} OneLineLength(s: string)
    requires SingleLine(s)
    ensures LineLength(s + "\n") == |s| + 1
  {
    if s != "" {
      assert (s + "\n")[1..] == s[1..] + "\n";
      OneLineLength(s[1..]);
    }
  }

  /** Every line is a slice of the text. */
  lemma {:induction false} LineIsSlice(text: string, k: nat) returns (i: nat)
    requires k < |Lines(text)|
    ensures i + |Lines(text)[k]| <= |text| && Lines(text)[k] == text[i..i + |Lines(text)[k]|]
    decreases |text|
  {
    var n := LineLength(text);
    if k == 0 {
      i := 0;
    } else {
      var j := LineIsSlice(text[n..], k - 1);
      i := n + j;
    }
  }

  lemma {:induction false} LinesJoin(text: string)
    ensures Concatenated(Lines(text)) == text
    decreases |text|
  {
    if text != "" {
      LinesJoin(text[LineLength(text)..]);
    }
  }

  function Concatenated(lines: seq<string>): string {
    if lines == [] then "" else lines[0] + Concatenated(lines[1..])
  }

  // -------------------------------------------------- the text inside a block

  /** No line of the text, printed inside its own fence, closes that fence. */
  lemma NoLineCloses(text: string, k: nat, o: Opening)
    requires k < |Lines(text + "\n")| && o.Opening? && o.mark == '`' && o.length == FenceLength(text)
    ensures !Closes(Lines(text + "\n")[k], o)
  {
    var line := Lines(text + "\n")[k];
    var i := LineIsSlice(text + "\n", k);
    ShortRuns(text, line, i, Leading(' ', line));
  }

  lemma ShortRuns(text: string, line: string, i: nat, indent: nat)
    requires i + |line| <= |text| + 1 && line == (text + "\n")[i..i + |line|] && indent <= |line|
    ensures Leading('`', line[indent..]) < FenceLength(text)
  {
    var n := Leading('`', line[indent..]);
    var a := i + indent;
    if n > 0 {
      forall x | a <= x < a + n ensures (text + "\n")[x] == '`' {
        assert line[indent..][x - a] == '`';
      }
      assert (text + "\n")[a + n - 1] == '`';
      assert a + n <= |text|;
      forall x | a <= x < a + n ensures text[x] == '`' {
        assert (text + "\n")[x] == text[x];
      }
      NoLongerRun(text, a, a + n);
    }
  }

  /** Inside a block, lines that do not close it pile up as content. */
  lemma {:induction false} ContentPilesUp(lines: seq<string>, rest: seq<string>, o: Opening, content: string)
    requires o.Opening? && o.indent == 0
    requires forall k :: 0 <= k < |lines| ==> !Closes(lines[k], o)
    ensures Blocks(lines + rest, o, content) == Blocks(rest, o, content + Concatenated(lines))
  {
    if lines == [] {
      assert lines + rest == rest && content + "" == content;
    } else {
      assert (lines + rest)[1..] == lines[1..] + rest;
      ContentPilesUp(lines[1..], rest, o, content + lines[0]);
      assert content + lines[0] + Concatenated(lines[1..]) == content + Concatenated(lines);
    }
  }

  lemma FenceLineOpens(n: nat)
    requires n >= 3
    ensures Opens(Repeat('`', n) + "\n") == Opening('`', n, 0)
    ensures Closes(Repeat('`', n) + "\n", Opening('`', n, 0))
  {
    var line := Repeat('`', n) + "\n";
    LeadingRepeat('`', n, "\n");
    assert Leading(' ', line) == 0 && line[0..] == line;
    assert line[n..] == "\n";
  }

  lemma {:induction false} LeadingRepeat(c: char, n: nat, rest: string)
    requires rest == "" || rest[0] != c
    ensures Leading(c, Repeat(c, n) + rest) == n
  {
    var s := Repeat(c, n) + rest;
    if n > 0 {
      assert s[1..] == Repeat(c, n - 1) + rest;
      LeadingRepeat(c, n - 1, rest);
    } else {
      assert s == rest;
    }
  }

  // ------------------------------------------------------------ main result

  /** Lines that neither are in a block nor open one. */
  lemma {:induction false} Skipped(lines: seq<string>, rest: seq<string>)
    requires forall k :: 0 <= k < |lines| ==> Opens(lines[k]).NoFence?
    ensures Blocks(lines + rest, NoFence, "") == Blocks(rest, NoFence, "")
  {
    if lines == [] {
      assert lines + rest == rest;
    } else {
      assert (lines + rest)[1..] == lines[1..] + rest;
      Skipped(lines[1..], rest);
    }
  }

  /** A block read line by line: opening fence, content, closing fence. */
  lemma BlockScanned(fence: string, inner: seq<string>, rest: seq<string>, o: Opening)
    requires o.Opening? && o.indent == 0 && Opens(fence) == o && Closes(fence, o)
    requires forall k :: 0 <= k < |inner| ==> !Closes(inner[k], o)
    ensures Blocks([fence] + (inner + ([fence] + rest)), NoFence, "") == [Concatenated(inner)] + Blocks(rest, NoFence, "")
  {
    ContentPilesUp(inner, [fence] + rest, o, "");
    assert "" + Concatenated(inner) == Concatenated(inner);
    assert ([fence] + (inner + ([fence] + rest)))[1..] == inner + ([fence] + rest);
    assert ([fence] + rest)[1..] == rest;
  }

  /** A fence, a text and the same fence read back as that text and its final newline. */
  lemma BlockReadsBack(text: string, rest: seq<string>)
    ensures var fence := Fence(text) + "\n";
      Blocks([fence] + (Lines(text + "\n") + ([fence] + rest)), NoFence, "") == [text + "\n"] + Blocks(rest, NoFence, "")
  {
    var o := Opening('`', FenceLength(text), 0);
    FenceLineOpens(FenceLength(text));
    var inner := Lines(text + "\n");
    forall k | 0 <= k < |inner| ensures !Closes(inner[k], o) {
      NoLineCloses(text, k, o);
    }
    LinesJoin(text + "\n");
    BlockScanned(Fence(text) + "\n", inner, rest, o);
  }

  /** Title and time are on the heading line. */
  predicate Tidy(item: Item) {
    SingleLine(item.title) && SingleLine(item.when)
  }

  /** Whether a block is open after the lines, `open` being open before them. */
  function OpenAfter(lines: seq<string>, open: Opening): Opening {
    if lines == [] then open
    else if open.NoFence? then OpenAfter(lines[1..], Opens(lines[0]))
    else OpenAfter(lines[1..], if Closes(lines[0], open) then NoFence else open)
  }

  /** An unfenced text leaves no block of its own open. */
  predicate LeavesClosed(text: string) {
    OpenAfter(Lines(text + "\n"), NoFence).NoFence?
  }

  /** Behind lines that leave no block open, reading starts afresh. */
  lemma {:induction false} ReadsOn(lines: seq<string>, rest: seq<string>, open: Opening, content: string)
    requires OpenAfter(lines, open).NoFence?
    ensures Blocks(lines + rest, open, content) == Blocks(lines, open, content) + Blocks(rest, NoFence, "")
  {
    if lines == [] {
      assert lines + rest == rest;
      ContentUnused(rest, content);
    } else {
      assert (lines + rest)[1..] == lines[1..] + rest;
      if open.NoFence? {
        ReadsOn(lines[1..], rest, Opens(lines[0]), "");
      } else if Closes(lines[0], open) {
        ReadsOn(lines[1..], rest, NoFence, "");
        CloseFirst(content, Blocks(lines[1..], NoFence, ""), Blocks(rest, NoFence, ""));
      } else {
        ReadsOn(lines[1..], rest, open, content + Dedent(lines[0], open.indent));
      }
    }
  }

  lemma ContentUnused(lines: seq<string>, content: string)
    ensures Blocks(lines, NoFence, content) == Blocks(lines, NoFence, "")
  {
  }

  lemma CloseFirst(content: string, a: seq<string>, b: seq<string>)
    ensures [content] + (a + b) == [content] + a + b
  {
  }

  function Heading(item: Item): string {
    "### " + item.title + item.when
  }

  function Tail(item: Item): seq<string> {
    if item.truncated then ["", SHORTENED] else []
  }

  /** Lines, each followed by a newline. */
  function Ended(lines: seq<string>): seq<string> {
    seq(|lines|, i requires 0 <= i < |lines| => lines[i] + "\n")
  }

  lemma NotAFence(line: string)
    requires line != "" && line[0] != ' ' && !FenceMark(line[0])
    ensures Opens(line).NoFence?
  {
    assert Leading(' ', line) == 0 && line[0..] == line;
  }

  lemma HeadingSkipped(item: Item, rest: seq<string>)
    ensures Blocks([Heading(item) + "\n"] + rest, NoFence, "") == Blocks(rest, NoFence, "")
  {
    assert Heading(item)[0] == '#';
    NotAFence(Heading(item) + "\n");
    assert ([Heading(item) + "\n"] + rest)[1..] == rest;
  }

  lemma TailSkipped(item: Item, rest: seq<string>)
    ensures Blocks(Ended(Tail(item)) + rest, NoFence, "") == Blocks(rest, NoFence, "")
  {
    var lines := Ended(Tail(item));
    forall k | 0 <= k < |lines| ensures Opens(lines[k]).NoFence? {
      assert lines[k] == Tail(item)[k] + "\n";
      NotAFence(lines[k]);
    }
    Skipped(lines, rest);
  }

  /** Splitting a text that starts with one whole line. */
  lemma FirstLine(line: string, rest: string)
    requires SingleLine(line)
    ensures Lines(line + "\n" + rest) == [line + "\n"] + Lines(rest)
  {
    OneLine(line);
    LinesConcat(line + "\n", rest);
  }

  const SHORTENED := "_[shortened]_"

  function TailText(item: Item): string {
    if item.truncated then "" + "\n" + (SHORTENED + "\n") else ""
  }

  lemma ShortenedMark()
    ensures SingleLine(SHORTENED) && Ended(["", SHORTENED]) == ["" + "\n", SHORTENED + "\n"]
  {
  }

  /** What the source appends to a shortened text, with the newline of the body. */
  lemma TailTextIs(item: Item)
    ensures (if item.truncated then "\n\n_[shortened]_" else "") + "\n" == "\n" + TailText(item)
  {
  }

  lemma TwoLines(a: string, b: string, rest: string)
    requires SingleLine(a) && SingleLine(b)
    ensures Lines(a + "\n" + (b + "\n") + rest) == [a + "\n", b + "\n"] + Lines(rest)
  {
    FirstLine(a, b + "\n" + rest);
    FirstLine(b, rest);
    Reassociate(a + "\n", b + "\n", rest);
  }

  lemma Reassociate(a: string, b: string, c: string)
    ensures a + b + c == a + (b + c)
  {
  }

  lemma TailLines(item: Item, rest: string)
    ensures Lines(TailText(item) + rest) == Ended(Tail(item)) + Lines(rest)
  {
    if item.truncated {
      ShortenedMark();
      TwoLines("", SHORTENED, rest);
    } else {
      assert TailText(item) + rest == rest;
      assert Ended(Tail(item)) == [];
    }
  }

  lemma RegroupFenced(h: string, f: string, x: string, s: string, t: string, rest: string)
    requires s + "\n" == "\n" + t
    ensures h + ("\n" + f + "\n" + x + "\n" + f) + s + "\n" + rest
         == h + "\n" + (f + "\n" + (x + "\n" + (f + "\n" + (t + rest))))
  {
    calc {
      h + ("\n" + f + "\n" + x + "\n" + f) + s + "\n" + rest;
      h + ("\n" + f + "\n" + x + "\n" + f) + (s + "\n") + rest;
      h + ("\n" + f + "\n" + x + "\n" + f) + ("\n" + t) + rest;
      h + "\n" + (f + "\n" + (x + "\n" + (f + "\n" + (t + rest))));
    }
  }

  lemma RegroupPlain(h: string, x: string, s: string, t: string, rest: string)
    requires s + "\n" == "\n" + t
    ensures h + ("\n" + x) + s + "\n" + rest == h + "\n" + (x + "\n" + (t + rest))
  {
    calc {
      h + ("\n" + x) + s + "\n" + rest;
      h + ("\n" + x) + (s + "\n") + rest;
      h + ("\n" + x) + ("\n" + t) + rest;
      h + "\n" + (x + "\n" + (t + rest));
    }
  }

  /** A heading line, a fence, a text, the fence again, and what follows. */
  lemma FencedLines(head: string, fence: string, text: string, after: string)
    requires SingleLine(head) && SingleLine(fence)
    ensures Lines(head + "\n" + (fence + "\n" + (text + "\n" + (fence + "\n" + after))))
         == [head + "\n"] + ([fence + "\n"] + (Lines(text + "\n") + ([fence + "\n"] + Lines(after))))
  {
    var last := fence + "\n" + after;
    FirstLine(fence, after);
    var middle := text + "\n" + last;
    LinesConcat(text + "\n", last);
    var first := fence + "\n" + middle;
    FirstLine(fence, middle);
    FirstLine(head, first);
  }

  lemma FencedItemLines(item: Item, rest: string)
    requires Tidy(item) && item.fenced
    ensures var fence := Fence(item.text) + "\n";
      Lines(Printed(item) + "\n" + rest)
      == [Heading(item) + "\n"] + ([fence] + (Lines(item.text + "\n") + ([fence] + (Ended(Tail(item)) + Lines(rest)))))
  {
    var mark := if item.truncated then "\n\n_[shortened]_" else "";
    TailLines(item, rest);
    FencedLines(Heading(item), Fence(item.text), item.text, TailText(item) + rest);
    TailTextIs(item);
    RegroupFenced(Heading(item), Fence(item.text), item.text, mark, TailText(item), rest);
  }

  lemma PlainItemLines(item: Item, rest: string)
    requires Tidy(item) && !item.fenced
    ensures Lines(Printed(item) + "\n" + rest)
      == [Heading(item) + "\n"] + (Lines(item.text + "\n") + (Ended(Tail(item)) + Lines(rest)))
  {
    var mark := if item.truncated then "\n\n_[shortened]_" else "";
    TailLines(item, rest);
    PlainLines(Heading(item), item.text, TailText(item) + rest);
    TailTextIs(item);
    RegroupPlain(Heading(item), item.text, mark, TailText(item), rest);
  }

  /** A heading line, a text, and what follows. */
  lemma PlainLines(head: string, text: string, after: string)
    requires SingleLine(head)
    ensures Lines(head + "\n" + (text + "\n" + after)) == [head + "\n"] + (Lines(text + "\n") + Lines(after))
  {
    LinesConcat(text + "\n", after);
    FirstLine(head, text + "\n" + after);
  }

  /** The contents of an item's blocks: the fenced text and its final newline, or the blocks an unfenced text has itself. */
  function OwnBlocks(item: Item): seq<string> {
    if item.fenced then [item.text + "\n"] else FencedBlocks(item.text + "\n")
  }

  function AllBlocks(items: seq<Item>): seq<string> {
    if items == [] then [] else OwnBlocks(items[0]) + AllBlocks(items[1..])
  }

  /**
   The blocks a reader finds are exactly the fenced texts, whatever they hold
   (backticks, fences of their own, carriage returns or nothing at all), and in
   their places the blocks of the unfenced texts.
   */
  lemma {:induction false} ExportReadsBack(items: seq<Item>)
    requires forall item :: item in items ==> Tidy(item) && (!item.fenced ==> LeavesClosed(item.text))
    ensures FencedBlocks(Body(items)) == AllBlocks(items)
  {
    if items != [] {
      var item, rest := items[0], Body(items[1..]);
      ExportReadsBack(items[1..]);
      ItemReadsBack(item, rest);
    }
  }

  lemma ItemReadsBack(item: Item, rest: string)
    requires Tidy(item) && (!item.fenced ==> LeavesClosed(item.text))
    ensures FencedBlocks(Printed(item) + "\n" + rest) == OwnBlocks(item) + FencedBlocks(rest)
  {
    var tail := Ended(Tail(item)) + Lines(rest);
    TailSkipped(item, Lines(rest));
    if item.fenced {
      var fence := Fence(item.text) + "\n";
      FencedItemLines(item, rest);
      HeadingSkipped(item, [fence] + (Lines(item.text + "\n") + ([fence] + tail)));
      BlockReadsBack(item.text, tail);
    } else {
      PlainItemLines(item, rest);
      HeadingSkipped(item, Lines(item.text + "\n") + tail);
      ReadsOn(Lines(item.text + "\n"), tail, NoFence, "");
    }
  }
}
