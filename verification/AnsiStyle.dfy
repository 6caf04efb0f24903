/**
 Terminal styling and its stripper.

 Text is a sequence of Unicode scalar values, which is also what the source
 counts.  `Markup` is any nesting and concatenation of the styling functions.
 */
module AnsiStyle {
  import opened Basics

  const ESC: char := '\U{1b}'

  datatype RGB = RGB(r: nat, g: nat, b: nat)

  datatype Markup =
    | Text(text: string)
    | Bold(inner: Markup)
    | Dim(inner: Markup)
    | Paint(color: RGB, inner: Markup)
    | Link(url: string, inner: Markup)
    | Both(first: Markup, second: Markup)

  // ---------------------------------------------------------------- printing

  /** An SGR sequence: ESC, an opening bracket, the code and `m`. */
  function Code(code: string): string {
    [ESC] + "[" + code + "m"
  }

  function ColorCode(c: RGB): string {
    "38;2;" + Decimal(c.r) + ";" + Decimal(c.g) + ";" + Decimal(c.b)
  }

  /** An OSC 8 sequence; an empty URL ends the link. */
  function LinkCode(url: string): string {
    [ESC] + "]8;;" + url + [ESC] + "\\"
  }

  /** What the styling functions print. Without `rich`, a link prints its address only. */
  function Render(rich: bool, m: Markup): string {
    match m
    case Text(t) => t
    case Bold(x) => Styled(rich, "1", Render(rich, x))
    case Dim(x) => Styled(rich, "2", Render(rich, x))
    case Paint(c, x) => Styled(rich, ColorCode(c), Render(rich, x))
    case Link(url, x) => if rich then LinkCode(url) + Render(rich, x) + LinkCode("") else url
    case Both(a, b) => Render(rich, a) + Render(rich, b)
  }

  function Styled(rich: bool, code: string, text: string): string {
    if rich then Code(code) + text + Code("0") else text
  }

  /** What the reader sees. */
  function Plain(rich: bool, m: Markup): string {
    match m
    case Text(t) => t
    case Bold(x) => Plain(rich, x)
    case Dim(x) => Plain(rich, x)
    case Paint(_, x) => Plain(rich, x)
    case Link(url, x) => if rich then Plain(rich, x) else url
    case Both(a, b) => Plain(rich, a) + Plain(rich, b)
  }

  // --------------------------------------------------------------- stripping

  predicate CodeChar(c: char) { '0' <= c <= '9' || c == ';' }

  /** How many leading characters satisfy the class of the first pattern, or of the second. */
  function RunOfCode(s: string): (n: nat)
    ensures n <= |s|
  {
    if s != "" && CodeChar(s[0]) then 1 + RunOfCode(s[1..]) else 0
  }

  function RunBeforeEsc(s: string): (n: nat)
    ensures n <= |s|
  {
    if s != "" && s[0] != ESC then 1 + RunBeforeEsc(s[1..]) else 0
  }

  /** The length of a match of the ANSI pattern at the start of `s`, or 0. */
  function MatchAt(s: string): (n: nat)
    ensures n <= |s|
  {
    if |s| >= 2 && s[0] == ESC && s[1] == '[' then
      var k := 2 + RunOfCode(s[2..]);
      if k < |s| && s[k] == 'm' then k + 1 else 0
    else if |s| >= 5 && s[..5] == [ESC] + "]8;;" then
      var k := 5 + RunBeforeEsc(s[5..]);
      if k + 1 < |s| && s[k + 1] == '\\' then k + 2 else 0
    else 0
  }

  /** Replacing every match with nothing, left to right. */
  function Strip(s: string): string
    decreases |s|
  {
    if s == "" then ""
    else if MatchAt(s) > 0 then Strip(s[MatchAt(s)..])
    else [s[0]] + Strip(s[1..])
  }

  function VisibleWidth(s: string): nat {
    |Strip(s)|
  }

  // ------------------------------------------------------ stripping undoes it

  predicate EscFree(s: string) { ESC !in s }

  /** Every text and address comes without escape characters. */
  predicate Clean(m: Markup) {
    match m
    case Text(t) => EscFree(t)
    case Link(url, x) => EscFree(url) && Clean(x)
    case Bold(x) => Clean(x)
    case Dim(x) => Clean(x)
    case Paint(_, x) => Clean(x)
    case Both(a, b) => Clean(a) && Clean(b)
  }

  predicate IsCode(s: string) {
    forall i :: 0 <= i < |s| ==> CodeChar(s[i])
  }

  lemma {:induction false} DecimalIsCode(n: nat)
    ensures IsCode(Decimal(n))
  {
    if n >= 10 {
      DecimalIsCode(n / 10);
    }
  }

  lemma ColorIsCode(c: RGB)
    ensures IsCode(ColorCode(c))
  {
    DecimalIsCode(c.r);
    DecimalIsCode(c.g);
    DecimalIsCode(c.b);
  }

  lemma {:induction false} RunStopsAtM(code: string, rest: string)
    requires IsCode(code)
    ensures RunOfCode(code + "m" + rest) == |code|
  {
    var s := code + "m" + rest;
    if code != "" {
      assert s[1..] == code[1..] + "m" + rest;
      RunStopsAtM(code[1..], rest);
    }
  }

  lemma {:induction false} RunStopsAtEsc(url: string, rest: string)
    requires EscFree(url)
    ensures RunBeforeEsc(url + [ESC] + rest) == |url|
  {
    var s := url + [ESC] + rest;
    if url != "" {
      assert url[0] in url;
      assert s[1..] == url[1..] + [ESC] + rest;
      RunStopsAtEsc(url[1..], rest);
    }
  }

  lemma CodeStripped(code: string, rest: string)
    requires IsCode(code)
    ensures Strip(Code(code) + rest) == Strip(rest)
  {
    var s := Code(code) + rest;
    assert s[2..] == code + "m" + rest;
    RunStopsAtM(code, rest);
    assert MatchAt(s) == |Code(code)|;
    assert s[|Code(code)|..] == rest;
  }

  lemma LinkStripped(url: string, rest: string)
    requires EscFree(url)
    ensures Strip(LinkCode(url) + rest) == Strip(rest)
  {
    var s := LinkCode(url) + rest;
    assert s[..5] == [ESC] + "]8;;";
    assert s[5..] == url + [ESC] + ("\\" + rest);
    RunStopsAtEsc(url, "\\" + rest);
    var k := 5 + |url|;
    assert s[k + 1] == '\\';
    assert MatchAt(s) == |LinkCode(url)|;
    assert s[|LinkCode(url)|..] == rest;
  }

  lemma {:induction false} TextKept(text: string, rest: string)
    requires EscFree(text)
    ensures Strip(text + rest) == text + Strip(rest)
  {
    if text == "" {
      assert text + rest == rest;
    } else {
      assert text[0] in text;
      assert (text + rest)[1..] == text[1..] + rest;
      TextKept(text[1..], rest);
      NoMatchAtText(text + rest);
      Reassociate([text[0]], text[1..], Strip(rest));
      assert [text[0]] + text[1..] == text;
    }
  }

  lemma NoMatchAtText(s: string)
    requires s != "" && s[0] != ESC
    ensures MatchAt(s) == 0 && Strip(s) == [s[0]] + Strip(s[1..])
  {
    assert |s| >= 5 ==> s[..5][0] == s[0] && ([ESC] + "]8;;")[0] == ESC;
  }

  lemma Regroup(a: string, b: string, c: string, d: string)
    ensures a + b + c + d == a + (b + (c + d))
  {
  }

  lemma StyledStripped(code: string, text: string, plain: string, rest: string)
    requires IsCode(code)
    requires Strip(text + (Code("0") + rest)) == plain + Strip(Code("0") + rest)
    ensures Strip(Styled(true, code, text) + rest) == plain + Strip(rest)
  {
    CodeStripped(code, text + (Code("0") + rest));
    CodeStripped("0", rest);
    Regroup(Code(code), text, Code("0"), rest);
  }

  lemma LinkedStripped(url: string, text: string, plain: string, rest: string)
    requires EscFree(url)
    requires Strip(text + (LinkCode("") + rest)) == plain + Strip(LinkCode("") + rest)
    ensures Strip(LinkCode(url) + text + LinkCode("") + rest) == plain + Strip(rest)
  {
    LinkStripped(url, text + (LinkCode("") + rest));
    LinkStripped("", rest);
    Regroup(LinkCode(url), text, LinkCode(""), rest);
  }

  lemma Reassociate(a: string, b: string, c: string)
    ensures a + b + c == a + (b + c)
  {
  }

  lemma BothStripped(a: string, b: string, p: string, q: string, rest: string)
    requires Strip(a + (b + rest)) == p + Strip(b + rest) && Strip(b + rest) == q + Strip(rest)
    ensures Strip(a + b + rest) == p + q + Strip(rest)
  {
    Reassociate(a, b, rest);
    Reassociate(p, q, Strip(rest));
  }

  /** Whatever follows, stripping a rendered markup leaves its plain text. */
  lemma {:induction false} RenderStripped(rich: bool, m: Markup, rest: string)
    requires Clean(m)
    ensures Strip(Render(rich, m) + rest) == Plain(rich, m) + Strip(rest)
    decreases m
  {
    match m
    case Text(t) => TextKept(t, rest);
    case Bold(x) => InnerStripped(rich, "1", m, x, rest);
    case Dim(x) => InnerStripped(rich, "2", m, x, rest);
    case Paint(c, x) =>
      ColorIsCode(c);
      InnerStripped(rich, ColorCode(c), m, x, rest);
    case Link(url, x) =>
      if rich {
        RenderStripped(rich, x, LinkCode("") + rest);
        LinkedStripped(url, Render(rich, x), Plain(rich, x), rest);
      } else {
        TextKept(url, rest);
      }
    case Both(a, b) =>
      RenderStripped(rich, a, Render(rich, b) + rest);
      RenderStripped(rich, b, rest);
      BothStripped(Render(rich, a), Render(rich, b), Plain(rich, a), Plain(rich, b), rest);
  }

  lemma {:induction false} InnerStripped(rich: bool, code: string, m: Markup, x: Markup, rest: string)
    requires IsCode(code) && Clean(x) && x < m
    requires Render(rich, m) == Styled(rich, code, Render(rich, x)) && Plain(rich, m) == Plain(rich, x)
    ensures Strip(Render(rich, m) + rest) == Plain(rich, m) + Strip(rest)
    decreases m, 0
  {
    if rich {
      RenderStripped(rich, x, Code("0") + rest);
      StyledStripped(code, Render(rich, x), Plain(rich, x), rest);
    } else {
      RenderStripped(rich, x, rest);
    }
  }

  /** Main result: removing the matches of the pattern yields exactly the plain text. */
  lemma StripUndoesStyling(rich: bool, m: Markup)
    requires Clean(m)
    ensures Strip(Render(rich, m)) == Plain(rich, m)
    ensures VisibleWidth(Render(rich, m)) == |Plain(rich, m)|
  {
    RenderStripped(rich, m, "");
    assert Render(rich, m) + "" == Render(rich, m) && Plain(rich, m) + "" == Plain(rich, m);
  }

  predicate LinkFree(m: Markup) {
    match m
    case Text(_) => true
    case Link(_, _) => false
    case Bold(x) => LinkFree(x)
    case Dim(x) => LinkFree(x)
    case Paint(_, x) => LinkFree(x)
    case Both(a, b) => LinkFree(a) && LinkFree(b)
  }

  lemma {:induction false} PlainEitherWay(m: Markup)
    requires LinkFree(m)
    ensures Plain(true, m) == Plain(false, m)
  {
    match m
    case Text(_) =>
    case Bold(x) => PlainEitherWay(x);
    case Dim(x) => PlainEitherWay(x);
    case Paint(_, x) => PlainEitherWay(x);
    case Both(a, b) =>
      PlainEitherWay(a);
      PlainEitherWay(b);
  }

  /** Without links, widths do not depend on whether styling is on. */
  lemma WidthWithoutStyling(m: Markup)
    requires Clean(m) && LinkFree(m)
    ensures VisibleWidth(Render(true, m)) == VisibleWidth(Render(false, m))
  {
    StripUndoesStyling(true, m);
    StripUndoesStyling(false, m);
    PlainEitherWay(m);
  }

  /** Widths add up. */
  lemma WidthsAdd(rich: bool, a: Markup, b: Markup)
    requires Clean(a) && Clean(b)
    ensures VisibleWidth(Render(rich, a) + Render(rich, b)) == VisibleWidth(Render(rich, a)) + VisibleWidth(Render(rich, b))
  {
    StripUndoesStyling(rich, a);
    StripUndoesStyling(rich, b);
    StripUndoesStyling(rich, Both(a, b));
  }

  // ------------------------------------------------------------------- card

  function Spread(c: char, n: int): (s: string)
    ensures |s| == if n > 0 then n else 0
    ensures c != ESC ==> EscFree(s)
  {
    seq(if n > 0 then n else 0, _ => c)
  }

  /** A row: two spaces, an edge, content, an edge. */
  function Row(accent: RGB, left: string, content: Markup, right: string): Markup {
    Both(Text("  "), Both(Paint(accent, Text(left)), Both(content, Paint(accent, Text(right)))))
  }

  lemma BothPlain(rich: bool, a: Markup, b: Markup)
    requires Clean(a) && Clean(b)
    ensures Clean(Both(a, b)) && Plain(rich, Both(a, b)) == Plain(rich, a) + Plain(rich, b)
  {
  }

  lemma EdgePlain(rich: bool, accent: RGB, text: string)
    requires EscFree(text)
    ensures Clean(Text(text)) && Plain(rich, Text(text)) == text
    ensures Clean(Paint(accent, Text(text))) && Plain(rich, Paint(accent, Text(text))) == text
  {
  }

  lemma RowShown(rich: bool, accent: RGB, left: string, content: Markup, right: string)
    requires Clean(content) && EscFree(left) && EscFree(right)
    ensures Strip(Render(rich, Row(accent, left, content, right))) == "  " + (left + (Plain(rich, content) + right))
    ensures VisibleWidth(Render(rich, content)) == |Plain(rich, content)|
  {
    var l, r := Paint(accent, Text(left)), Paint(accent, Text(right));
    EdgePlain(rich, accent, left);
    EdgePlain(rich, accent, right);
    EdgePlain(rich, accent, "  ");
    BothPlain(rich, content, r);
    BothPlain(rich, l, Both(content, r));
    BothPlain(rich, Text("  "), Both(l, Both(content, r)));
    StripUndoesStyling(rich, content);
    StripUndoesStyling(rich, Row(accent, left, content, right));
  }

  function WidestLine(rich: bool, start: nat, lines: seq<Markup>): (w: nat)
    ensures w >= start
    ensures forall i :: 0 <= i < |lines| ==> VisibleWidth(Render(rich, lines[i])) <= w
  {
    if lines == [] then start
    else
      var last := |lines| - 1;
      Max(WidestLine(rich, start, lines[..last]), VisibleWidth(Render(rich, lines[last])))
  }

  function Heading(title: Markup): Markup {
    Both(Text(" "), Both(Bold(title), Text(" ")))
  }

  lemma HeadingPlain(rich: bool, title: Markup)
    requires Clean(title)
    ensures Clean(Heading(title)) && |Plain(rich, Heading(title))| == |Plain(rich, title)| + 2
  {
    assert Plain(rich, Bold(title)) == Plain(rich, title) && Clean(Bold(title));
    BothPlain(rich, Bold(title), Text(" "));
    BothPlain(rich, Text(" "), Both(Bold(title), Text(" ")));
  }

  method TopRow(rich: bool, title: Markup, inner: nat, accent: RGB) returns (row: string)
    requires Clean(title) && inner >= |Plain(rich, title)| + 3
    ensures VisibleWidth(row) == inner + 4
  {
    var heading := Heading(title);
    HeadingPlain(rich, title);
    StripUndoesStyling(rich, heading);
    var right := Spread('─', inner - VisibleWidth(Render(rich, heading)) - 1) + "╮";
    RowShown(rich, accent, "╭─", heading, right);
    row := Render(rich, Row(accent, "╭─", heading, right));
  }

  method LineRow(rich: bool, line: Markup, inner: nat, accent: RGB) returns (row: string)
    requires Clean(line) && inner >= 2 + VisibleWidth(Render(rich, line))
    ensures VisibleWidth(row) == inner + 4
    ensures Shows(row, rich, line)
  {
    StripUndoesStyling(rich, line);
    var gap := inner - 2 - VisibleWidth(Render(rich, line));
    var space := Text(Spread(' ', gap));
    EdgePlain(rich, accent, Spread(' ', gap));
    EdgePlain(rich, accent, "  ");
    BothPlain(rich, line, space);
    BothPlain(rich, Text("  "), Both(line, space));
    var content := Both(Text("  "), Both(line, space));
    RowShown(rich, accent, "│", content, "│");
    row := Render(rich, Row(accent, "│", content, "│"));
  }

  /** A row whose content is one character over and over. */
  method RuledRow(rich: bool, left: string, fill: Markup, right: string, inner: nat, accent: RGB) returns (row: string)
    requires |left| == |right| == 1 && EscFree(left) && EscFree(right) && Clean(fill) && |Plain(rich, fill)| == inner
    ensures VisibleWidth(row) == inner + 4
  {
    RowShown(rich, accent, left, fill, right);
    row := Render(rich, Row(accent, left, fill, right));
  }

  /** `row` shows `line` in full between the edges. */
  ghost predicate Shows(row: string, rich: bool, line: Markup) {
    exists pad :: Strip(row) == "  " + ("│" + ("  " + (Plain(rich, line) + Spread(' ', pad)) + "│"))
  }

  method LineRows(rich: bool, lines: seq<Markup>, inner: nat, accent: RGB) returns (rows: seq<string>)
    requires forall m :: m in lines ==> Clean(m)
    requires forall k :: 0 <= k < |lines| ==> inner >= 2 + VisibleWidth(Render(rich, lines[k]))
    ensures |rows| == |lines|
    ensures forall k :: 0 <= k < |rows| ==> VisibleWidth(rows[k]) == inner + 4
    ensures forall k :: 0 <= k < |rows| ==> Shows(rows[k], rich, lines[k])
  {
    rows := [];
    for i := 0 to |lines|
      invariant |rows| == i
      invariant forall k :: 0 <= k < i ==> VisibleWidth(rows[k]) == inner + 4
      invariant forall k :: 0 <= k < i ==> Shows(rows[k], rich, lines[k])
    {
      var row := LineRow(rich, lines[i], inner, accent);
      rows := rows + [row];
    }
  }

  function Framed(top: string, blank: string, middle: seq<string>, bottom: string): seq<string> {
    [top, blank] + middle + [blank, bottom]
  }

  lemma FramedRows(top: string, blank: string, middle: seq<string>, bottom: string, width: nat)
    requires VisibleWidth(top) == VisibleWidth(blank) == VisibleWidth(bottom) == width
    requires forall k :: 0 <= k < |middle| ==> VisibleWidth(middle[k]) == width
    ensures var rows := Framed(top, blank, middle, bottom);
      && |rows| == |middle| + 4
      && (forall k :: 0 <= k < |middle| ==> rows[k + 2] == middle[k])
      && (forall k :: 0 <= k < |rows| ==> VisibleWidth(rows[k]) == width)
  {
    var rows := Framed(top, blank, middle, bottom);
    forall k | 0 <= k < |rows| ensures VisibleWidth(rows[k]) == width {
      assert rows[k] == if k == 0 then top else if k == 1 || k == |middle| + 2 then blank
                        else if k == |middle| + 3 then bottom else middle[k - 2];
    }
  }

  /**
   The card: title edge, blank row, the lines, blank row, bottom edge. All rows
   are equally wide whatever styling the lines carry, and each line is shown
   in full between the edges.
   */
  method Card(rich: bool, title: Markup, lines: seq<Markup>, accent: RGB) returns (rows: seq<string>, width: nat)
    requires Clean(title) && forall m :: m in lines ==> Clean(m)
    ensures |rows| == |lines| + 4
    ensures forall k :: 0 <= k < |rows| ==> VisibleWidth(rows[k]) == width
    ensures forall k :: 0 <= k < |lines| ==> Shows(rows[k + 2], rich, lines[k])
  {
    StripUndoesStyling(rich, title);
    var inner := WidestLine(rich, VisibleWidth(Render(rich, title)) + 4, lines) + 4;
    width := inner + 4;
    EdgePlain(rich, accent, Spread(' ', inner));
    EdgePlain(rich, accent, Spread('─', inner));
    var top := TopRow(rich, title, inner, accent);
    var blank := RuledRow(rich, "│", Text(Spread(' ', inner)), "│", inner, accent);
    var middle := LineRows(rich, lines, inner, accent);
    var bottom := RuledRow(rich, "╰", Paint(accent, Text(Spread('─', inner))), "╯", inner, accent);
    rows := Framed(top, blank, middle, bottom);
    FramedRows(top, blank, middle, bottom, width);
  }
}
