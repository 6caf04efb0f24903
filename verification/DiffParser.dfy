/** The unified-diff parser of the diff viewer. */
module DiffParser {
  import opened Basics

  datatype Kind = Added | Removed | Context | Hunk

  datatype DiffLine = DiffLine(kind: Kind, content: string, lineOld: Option<int>, lineNew: Option<int>)

  // ------------------------------------------------------------ the parser

  /** Text between newlines; there is always at least one line. */
  function SplitLines(text: string): (lines: seq<string>)
    ensures lines != []
  {
    if text == "" then [""]
    else
      var rest := SplitLines(text[1..]);
      if text[0] == '\n' then [""] + rest else [[text[0]] + rest[0]] + rest[1..]
  }

  predicate IsDigit(c: char) { '0' <= c <= '9' }

  function Digits(s: string): (n: nat)
    ensures n <= |s|
    ensures forall i :: 0 <= i < n ==> IsDigit(s[i])
    ensures n < |s| ==> !IsDigit(s[n])
  {
    if s != "" && IsDigit(s[0]) then 1 + Digits(s[1..]) else 0
  }

  function Value(digits: string): nat
    requires forall i :: 0 <= i < |digits| ==> IsDigit(digits[i])
  {
    if digits == "" then 0
    else
      var last := |digits| - 1;
      Value(digits[..last]) * 10 + DigitValue(digits[last])
  }

  function DigitValue(c: char): nat
    requires IsDigit(c)
  {
    c as int - '0' as int
  }

  /** One or more digits, then optionally a comma and more digits. */
  function Range(s: string): Option<(nat, string)> {
    var n := Digits(s);
    if n == 0 then None
    else
      var rest := s[n..];
      var k := if rest != "" && rest[0] == ',' then Digits(rest[1..]) else 0;
      Some((Value(s[..n]), if k > 0 then rest[1 + k..] else rest))
  }

  /** A match of the hunk pattern at the start of `s`. */
  function HeaderAt(s: string): Option<(nat, nat)> {
    if !StartsWith(s, "@@ -") then None
    else
      match Range(s[4..])
      case None => None
      case Some((o, rest)) =>
        if !StartsWith(rest, " +") then None
        else
          match Range(rest[2..])
          case None => None
          case Some((n, tail)) => if StartsWith(tail, " @@") then Some((o, n)) else None
  }

  /** The leftmost match anywhere in the line. */
  function FindHeader(s: string): Option<(nat, nat)> {
    if HeaderAt(s).Some? then HeaderAt(s)
    else if s == "" then None
    else FindHeader(s[1..])
  }

  datatype Counters = Counters(oldLine: int, newLine: int)

  /** What one line adds to the result. */
  function Entry(raw: string, c: Counters): seq<DiffLine> {
    if StartsWith(raw, "@@") then [DiffLine(Hunk, raw, None, None)]
    else if StartsWith(raw, "+") then [DiffLine(Added, raw[1..], None, Some(c.newLine))]
    else if StartsWith(raw, "-") then [DiffLine(Removed, raw[1..], Some(c.oldLine), None)]
    else if StartsWith(raw, " ") || raw == "" then
      [DiffLine(Context, if StartsWith(raw, " ") then raw[1..] else "", Some(c.oldLine), Some(c.newLine))]
    else []
  }

  function Advance(raw: string, c: Counters): Counters {
    if StartsWith(raw, "@@") then
      var m := FindHeader(raw);
      if m.Some? then Counters(m.value.0, m.value.1) else c
    else if StartsWith(raw, "+") then c.(newLine := c.newLine + 1)
    else if StartsWith(raw, "-") then c.(oldLine := c.oldLine + 1)
    else if StartsWith(raw, " ") || raw == "" then Counters(c.oldLine + 1, c.newLine + 1)
    else c
  }

  function Parse(lines: seq<string>, c: Counters): seq<DiffLine> {
    if lines == [] then [] else Entry(lines[0], c) + Parse(lines[1..], Advance(lines[0], c))
  }

  function After(lines: seq<string>, c: Counters): Counters {
    if lines == [] then c else After(lines[1..], Advance(lines[0], c))
  }

  method ParsePatch(patch: string) returns (result: seq<DiffLine>)
    ensures result == Parse(SplitLines(patch), Counters(0, 0))
  {
    var lines := SplitLines(patch);
    result := [];
    var lineOld, lineNew := 0, 0;
    for i := 0 to |lines|
      invariant result + Parse(lines[i..], Counters(lineOld, lineNew)) == Parse(lines, Counters(0, 0))
    {
      var raw := lines[i];
      assert lines[i..][0] == raw && lines[i..][1..] == lines[i + 1..];
      ghost var c, before, later := Counters(lineOld, lineNew), result, Parse(lines[i + 1..], Advance(raw, Counters(lineOld, lineNew)));
      assert before + (Entry(raw, c) + later) == before + Entry(raw, c) + later;
      result, lineOld, lineNew := ReadLine(result, raw, lineOld, lineNew);
    }
  }

  /** The body of the loop. */
  method ReadLine(result: seq<DiffLine>, raw: string, lineOld: int, lineNew: int)
    returns (more: seq<DiffLine>, lineOld1: int, lineNew1: int)
    ensures more == result + Entry(raw, Counters(lineOld, lineNew))
    ensures Counters(lineOld1, lineNew1) == Advance(raw, Counters(lineOld, lineNew))
  {
    more, lineOld1, lineNew1 := result, lineOld, lineNew;
    if StartsWith(raw, "@@") {
      var m := FindHeader(raw);
      if m.Some? {
        lineOld1, lineNew1 := m.value.0, m.value.1;
      }
      more := more + [DiffLine(Hunk, raw, None, None)];
    } else if StartsWith(raw, "+") {
      more := more + [DiffLine(Added, raw[1..], None, Some(lineNew1))];
      lineNew1 := lineNew1 + 1;
    } else if StartsWith(raw, "-") {
      more := more + [DiffLine(Removed, raw[1..], Some(lineOld1), None)];
      lineOld1 := lineOld1 + 1;
    } else if StartsWith(raw, " ") || raw == "" {
      var content := if StartsWith(raw, " ") then raw[1..] else "";
      more := more + [DiffLine(Context, content, Some(lineOld1), Some(lineNew1))];
      lineOld1, lineNew1 := lineOld1 + 1, lineNew1 + 1;
    }
  }

  // --------------------------------------------------------- unified diffs

  datatype Edit = Keep(line: string) | Delete(line: string) | Insert(line: string)

  /** The file an edit script starts from, and the one it leads to. */
  function OldFile(script: seq<Edit>): seq<string> {
    if script == [] then []
    else OldFile(script[..|script| - 1]) + (if script[|script| - 1].Insert? then [] else [script[|script| - 1].line])
  }

  function NewFile(script: seq<Edit>): seq<string> {
    if script == [] then []
    else NewFile(script[..|script| - 1]) + (if script[|script| - 1].Delete? then [] else [script[|script| - 1].line])
  }

  /** A stretch of the script shown as one hunk, with the text after the second `@@`. */
  datatype HunkAt = HunkAt(from: nat, to: nat, section: string)

  predicate HunkOf(h: HunkAt, script: seq<Edit>) {
    h.from <= h.to <= |script|
  }

  /** A start and a length; a length of one is left out, and an empty range starts one line early. */
  function PrintRange(before: nat, length: nat): string {
    Decimal(if length == 0 then before else before + 1) + (if length == 1 then "" else "," + Decimal(length))
  }

  function Header(script: seq<Edit>, h: HunkAt): string
    requires HunkOf(h, script)
  {
    var part := script[h.from..h.to];
    HeaderLine(PrintRange(|OldFile(script[..h.from])|, |OldFile(part)|),
               PrintRange(|NewFile(script[..h.from])|, |NewFile(part)|), h.section)
  }

  function HeaderLine(before: string, after: string, section: string): string {
    "@@ -" + before + " +" + after + " @@" + section
  }

  function PrintEdit(e: Edit): string {
    match e
    case Keep(l) => " " + l
    case Delete(l) => "-" + l
    case Insert(l) => "+" + l
  }

  function PrintEdits(edits: seq<Edit>): seq<string> {
    seq(|edits|, i requires 0 <= i < |edits| => PrintEdit(edits[i]))
  }

  function PrintHunk(script: seq<Edit>, h: HunkAt): seq<string>
    requires HunkOf(h, script)
  {
    [Header(script, h)] + PrintEdits(script[h.from..h.to])
  }

  // -------------------------------------------------- headers read back

  lemma DigitReadsBack(d: nat)
    requires d < 10
    ensures IsDigit(Digit(d)) && DigitValue(Digit(d)) == d
  {
  }

  lemma {:induction false} DecimalReadsBack(n: nat)
    ensures Decimal(n) != "" && forall i :: 0 <= i < |Decimal(n)| ==> IsDigit(Decimal(n)[i])
    ensures Value(Decimal(n)) == n
  {
    DigitReadsBack(n % 10);
    if n < 10 {
      assert Decimal(n)[..0] == "";
      assert Value("") == 0;
    } else {
      DecimalReadsBack(n / 10);
      ValueSnoc(Decimal(n / 10), Digit(n % 10));
    }
  }

  lemma ValueSnoc(digits: string, c: char)
    requires IsDigit(c) && forall i :: 0 <= i < |digits| ==> IsDigit(digits[i])
    ensures Value(digits + [c]) == Value(digits) * 10 + DigitValue(c)
  {
    assert (digits + [c])[..|digits|] == digits;
  }

  lemma {:induction false} DigitsStop(digits: string, rest: string)
    requires forall i :: 0 <= i < |digits| ==> IsDigit(digits[i])
    requires rest == "" || !IsDigit(rest[0])
    ensures Digits(digits + rest) == |digits|
  {
    if digits != "" {
      assert (digits + rest)[1..] == digits[1..] + rest;
      DigitsStop(digits[1..], rest);
    } else {
      assert digits + rest == rest;
    }
  }

  /** A number followed by something else is read up to there. */
  lemma NumberRead(n: nat, rest: string)
    requires rest == "" || !IsDigit(rest[0])
    ensures var s := Decimal(n) + rest; var k := Digits(s);
      k == |Decimal(n)| > 0 && Value(s[..k]) == n && s[k..] == rest
  {
    DecimalReadsBack(n);
    DigitsStop(Decimal(n), rest);
    var s := Decimal(n) + rest;
    assert s[..|Decimal(n)|] == Decimal(n);
  }

  function RangeStart(before: nat, length: nat): nat {
    if length == 0 then before else before + 1
  }

  lemma ShortRange(n: nat, rest: string)
    requires rest != "" && rest[0] == ' '
    ensures Range(Decimal(n) + rest) == Some((n, rest))
  {
    NumberRead(n, rest);
  }

  lemma LongRange(n: nat, length: nat, rest: string)
    requires rest != "" && rest[0] == ' '
    ensures Range(Decimal(n) + ("," + (Decimal(length) + rest))) == Some((n, rest))
  {
    var digits := Decimal(length);
    var tail := "," + (digits + rest);
    NumberRead(n, tail);
    NumberRead(length, rest);
    AfterComma(digits, rest);
  }

  lemma AfterComma(digits: string, rest: string)
    ensures var tail := "," + (digits + rest);
      tail[1..] == digits + rest && tail[1 + |digits|..] == rest
  {
  }

  lemma Reassociate<T>(a: seq<T>, b: seq<T>, c: seq<T>, d: seq<T>)
    ensures a + (b + c) + d == a + (b + (c + d))
  {
  }

  lemma RangeReadsBack(before: nat, length: nat, rest: string)
    requires rest != "" && rest[0] == ' '
    ensures Range(PrintRange(before, length) + rest) == Some((RangeStart(before, length), rest))
  {
    var start := RangeStart(before, length);
    if length == 1 {
      ShortRange(start, rest);
      assert Decimal(start) + "" == Decimal(start);
    } else {
      LongRange(start, length, rest);
      Reassociate(Decimal(start), ",", Decimal(length), rest);
    }
  }

  function Middle(after: string, section: string): string {
    " +" + (after + (" @@" + section))
  }

  lemma HeaderSplits(before: string, after: string, section: string)
    ensures var s := HeaderLine(before, after, section);
      StartsWith(s, "@@") && StartsWith(s, "@@ -") && s[4..] == before + Middle(after, section)
  {
    assert HeaderLine(before, after, section) == "@@ -" + (before + Middle(after, section));
  }

  lemma HeaderFound(before: string, after: string, section: string, o: nat, n: nat)
    requires Range(before + Middle(after, section)) == Some((o, Middle(after, section)))
    requires Range(after + (" @@" + section)) == Some((n, " @@" + section))
    ensures StartsWith(HeaderLine(before, after, section), "@@")
    ensures FindHeader(HeaderLine(before, after, section)) == Some((o, n))
  {
    HeaderSplits(before, after, section);
    assert StartsWith(Middle(after, section), " +") && Middle(after, section)[2..] == after + (" @@" + section);
    assert HeaderAt(HeaderLine(before, after, section)) == Some((o, n));
  }

  lemma HeaderReadsBack(script: seq<Edit>, h: HunkAt)
    requires HunkOf(h, script)
    ensures StartsWith(Header(script, h), "@@")
    ensures var part := script[h.from..h.to];
      FindHeader(Header(script, h)) == Some((RangeStart(|OldFile(script[..h.from])|, |OldFile(part)|),
                                             RangeStart(|NewFile(script[..h.from])|, |NewFile(part)|)))
  {
    var part := script[h.from..h.to];
    var a, b := |OldFile(script[..h.from])|, |NewFile(script[..h.from])|;
    var m, n := |OldFile(part)|, |NewFile(part)|;
    RangeReadsBack(a, m, Middle(PrintRange(b, n), h.section));
    RangeReadsBack(b, n, " @@" + h.section);
    HeaderFound(PrintRange(a, m), PrintRange(b, n), h.section, RangeStart(a, m), RangeStart(b, n));
  }

  // ------------------------------------------------------- the lines of a hunk

  lemma {:induction false} ParseConcat(a: seq<string>, b: seq<string>, c: Counters)
    ensures Parse(a + b, c) == Parse(a, c) + Parse(b, After(a, c))
    ensures After(a + b, c) == After(b, After(a, c))
    decreases |a|
  {
    if a == [] {
      assert a + b == b;
    } else {
      var next := Advance(a[0], c);
      assert (a + b)[1..] == a[1..] + b;
      ParseConcat(a[1..], b, next);
      assert Entry(a[0], c) + (Parse(a[1..], next) + Parse(b, After(a, c))) == Parse(a, c) + Parse(b, After(a, c));
    }
  }

  /** What the viewer should show for the script's line `k`: its own text and its own line numbers. */
  function Label(script: seq<Edit>, k: nat): DiffLine
    requires k < |script|
  {
    var o, n := |OldFile(script[..k])| + 1, |NewFile(script[..k])| + 1;
    match script[k]
    case Keep(l) => DiffLine(Context, l, Some(o), Some(n))
    case Delete(l) => DiffLine(Removed, l, Some(o), None)
    case Insert(l) => DiffLine(Added, l, None, Some(n))
  }

  function Labels(script: seq<Edit>, from: nat, to: nat): seq<DiffLine>
    requires from <= to <= |script|
  {
    seq(to - from, i requires 0 <= i < to - from => Label(script, from + i))
  }

  predicate ShowsOld(edits: seq<Edit>) {
    exists i :: 0 <= i < |edits| && !edits[i].Insert?
  }

  predicate ShowsNew(edits: seq<Edit>) {
    exists i :: 0 <= i < |edits| && !edits[i].Delete?
  }

  lemma {:induction false} EmptySides(edits: seq<Edit>)
    ensures |OldFile(edits)| == 0 <==> !ShowsOld(edits)
    ensures |NewFile(edits)| == 0 <==> !ShowsNew(edits)
  {
    if edits != [] {
      var m := |edits| - 1;
      EmptySides(edits[..m]);
      assert edits == edits[..m] + [edits[m]];
      if ShowsOld(edits[..m]) {
        var i :| 0 <= i < m && !edits[..m][i].Insert?;
        assert !edits[i].Insert?;
      }
      if ShowsNew(edits[..m]) {
        var i :| 0 <= i < m && !edits[..m][i].Delete?;
        assert !edits[i].Delete?;
      }
    }
  }

  /** The counters are right for the sides that the rest of the hunk shows. */
  predicate InStep(script: seq<Edit>, k: nat, to: nat, c: Counters)
    requires k <= to <= |script|
  {
    && (ShowsOld(script[k..to]) ==> c.oldLine == |OldFile(script[..k])| + 1)
    && (ShowsNew(script[k..to]) ==> c.newLine == |NewFile(script[..k])| + 1)
  }

  lemma FirstDiffers(line: string, prefix: string)
    requires prefix != "" && line != "" && line[0] != prefix[0]
    ensures !StartsWith(line, prefix)
  {
  }

  lemma EditRead(e: Edit, c: Counters)
    ensures e.Keep? ==> Entry(PrintEdit(e), c) == [DiffLine(Context, e.line, Some(c.oldLine), Some(c.newLine))]
    ensures e.Delete? ==> Entry(PrintEdit(e), c) == [DiffLine(Removed, e.line, Some(c.oldLine), None)]
    ensures e.Insert? ==> Entry(PrintEdit(e), c) == [DiffLine(Added, e.line, None, Some(c.newLine))]
    ensures Advance(PrintEdit(e), c)
         == Counters(c.oldLine + if e.Insert? then 0 else 1, c.newLine + if e.Delete? then 0 else 1)
  {
    var raw := PrintEdit(e);
    FirstDiffers(raw, "@@");
    if !e.Insert? { FirstDiffers(raw, "+"); }
    if e.Keep? { FirstDiffers(raw, "-"); }
    assert raw[1..] == e.line;
  }

  lemma OneLineLabelled(script: seq<Edit>, k: nat, to: nat, c: Counters)
    requires k < to <= |script| && InStep(script, k, to, c)
    ensures Entry(PrintEdit(script[k]), c) == [Label(script, k)]
    ensures InStep(script, k + 1, to, Advance(PrintEdit(script[k]), c))
  {
    var e, rest, more := script[k], script[k..to], script[k + 1..to];
    EditRead(e, c);
    assert script[..k + 1][..k] == script[..k];
    assert rest[0] == e;
    if ShowsOld(more) {
      var i :| 0 <= i < |more| && !more[i].Insert?;
      assert rest[i + 1] == more[i];
    }
    if ShowsNew(more) {
      var i :| 0 <= i < |more| && !more[i].Delete?;
      assert rest[i + 1] == more[i];
    }
    assert !e.Insert? ==> ShowsOld(rest);
    assert !e.Delete? ==> ShowsNew(rest);
  }

  lemma LabelsCons(script: seq<Edit>, k: nat, to: nat)
    requires k < to <= |script|
    ensures PrintEdits(script[k..to]) == [PrintEdit(script[k])] + PrintEdits(script[k + 1..to])
    ensures Labels(script, k, to) == [Label(script, k)] + Labels(script, k + 1, to)
  {
  }

  lemma {:induction false} LinesLabelled(script: seq<Edit>, k: nat, to: nat, c: Counters)
    requires k <= to <= |script| && InStep(script, k, to, c)
    ensures Parse(PrintEdits(script[k..to]), c) == Labels(script, k, to)
    decreases |script| - k
  {
    if k < to {
      OneLineLabelled(script, k, to, c);
      LabelsCons(script, k, to);
      var raw, rest := PrintEdit(script[k]), PrintEdits(script[k + 1..to]);
      LinesLabelled(script, k + 1, to, Advance(raw, c));
      assert ([raw] + rest)[1..] == rest;
    }
  }

  /**
   A printed hunk is labelled with the true line numbers whatever comes before
   it (file headers read as added or removed lines, other hunks, other files)
   and whatever follows.
   */
  lemma HunkLabelledAnywhere(before: seq<string>, script: seq<Edit>, h: HunkAt, after: seq<string>, c: Counters)
    returns (rest: seq<DiffLine>)
    requires HunkOf(h, script)
    ensures Parse(before + (PrintHunk(script, h) + after), c)
         == Parse(before, c) + ([DiffLine(Hunk, Header(script, h), None, None)] + Labels(script, h.from, h.to) + rest)
  {
    var c1 := After(before, c);
    ParseConcat(before, PrintHunk(script, h) + after, c);
    ParseConcat(PrintHunk(script, h), after, c1);
    HunkLabelled(script, h, c1);
    rest := Parse(after, After(PrintHunk(script, h), c1));
  }

  lemma HunkLabelled(script: seq<Edit>, h: HunkAt, c: Counters)
    requires HunkOf(h, script)
    ensures Parse(PrintHunk(script, h), c) == [DiffLine(Hunk, Header(script, h), None, None)] + Labels(script, h.from, h.to)
  {
    var header, edits := Header(script, h), PrintEdits(script[h.from..h.to]);
    HeaderReadsBack(script, h);
    EmptySides(script[h.from..h.to]);
    LinesLabelled(script, h.from, h.to, Advance(header, c));
    assert PrintHunk(script, h)[1..] == edits;
  }

  // ------------------------------------------- labels point at their own lines

  lemma {:induction false} FilesGrow(script: seq<Edit>, k: nat)
    requires k <= |script|
    ensures OldFile(script[..k]) <= OldFile(script) && NewFile(script[..k]) <= NewFile(script)
    decreases |script|
  {
    if k < |script| {
      var m := |script| - 1;
      FilesGrow(script[..m], k);
      assert script[..m][..k] == script[..k];
    } else {
      assert script[..k] == script;
    }
  }

  /** The line the parser read. */
  function Reprint(d: DiffLine): string {
    match d.kind
    case Hunk => d.content
    case Added => "+" + d.content
    case Removed => "-" + d.content
    case Context => " " + d.content
  }

  /** A label's number is the 1-based position of its text in the file it belongs to, and its prefix gives the line back. */
  lemma LabelIsTrue(script: seq<Edit>, k: nat)
    requires k < |script|
    ensures var d := Label(script, k);
      && (d.lineOld.Some? ==> 1 <= d.lineOld.value <= |OldFile(script)| && OldFile(script)[d.lineOld.value - 1] == d.content)
      && (d.lineNew.Some? ==> 1 <= d.lineNew.value <= |NewFile(script)| && NewFile(script)[d.lineNew.value - 1] == d.content)
      && (d.lineOld.Some? <==> d.kind in {Context, Removed}) && (d.lineNew.Some? <==> d.kind in {Context, Added})
      && Reprint(d) == PrintEdit(script[k])
  {
    FilesGrow(script, k + 1);
    assert script[..k + 1][..k] == script[..k];
  }

  // ------------------------------------------------------------ whole patches

  /** One file of a patch: header lines, and hunks of its edit script. */
  datatype FileDiff = FileDiff(headers: seq<string>, script: seq<Edit>, hunks: seq<HunkAt>)

  predicate HunksOf(hunks: seq<HunkAt>, script: seq<Edit>) {
    forall i :: 0 <= i < |hunks| ==> HunkOf(hunks[i], script)
  }

  predicate FilesOk(files: seq<FileDiff>) {
    forall i :: 0 <= i < |files| ==> HunksOf(files[i].hunks, files[i].script)
  }

  function PrintHunks(script: seq<Edit>, hunks: seq<HunkAt>): seq<string>
    requires HunksOf(hunks, script)
  {
    if hunks == [] then [] else PrintHunk(script, hunks[0]) + PrintHunks(script, hunks[1..])
  }

  function PrintFiles(files: seq<FileDiff>): seq<string>
    requires FilesOk(files)
  {
    if files == [] then []
    else files[0].headers + PrintHunks(files[0].script, files[0].hunks) + PrintFiles(files[1..])
  }

  function JoinLines(lines: seq<string>): string
    requires lines != []
  {
    if |lines| == 1 then lines[0] else lines[0] + "\n" + JoinLines(lines[1..])
  }

  predicate NoNewlines(lines: seq<string>) {
    forall i :: 0 <= i < |lines| ==> '\n' !in lines[i]
  }

  lemma {:induction false} SplitJoined(lines: seq<string>)
    requires lines != [] && NoNewlines(lines)
    ensures SplitLines(JoinLines(lines)) == lines
  {
    var first := lines[0];
    if |lines| == 1 {
      SplitOne(first, "");
      assert first + "" == first;
    } else {
      var rest := JoinLines(lines[1..]);
      SplitJoined(lines[1..]);
      SplitOne(first, "\n" + rest);
      assert first + "\n" + rest == first + ("\n" + rest);
      assert ("\n" + rest)[1..] == rest;
      assert SplitLines("\n" + rest) == [""] + lines[1..];
      assert first + "" == first;
    }
  }

  lemma {:induction false} SplitOne(line: string, rest: string)
    requires '\n' !in line
    ensures var r := SplitLines(rest);
      SplitLines(line + rest) == [line + r[0]] + r[1..]
  {
    var r := SplitLines(rest);
    if line == "" {
      assert line + rest == rest && "" + r[0] == r[0];
    } else {
      assert line[0] in line;
      assert (line + rest)[1..] == line[1..] + rest;
      SplitOne(line[1..], rest);
      assert [line[0]] + (line[1..] + r[0]) == line + r[0];
    }
  }

  /** What the viewer should show for a file's hunks: each header and the labels of its lines. */
  function LabelledHunks(script: seq<Edit>, hunks: seq<HunkAt>): seq<DiffLine>
    requires HunksOf(hunks, script)
  {
    if hunks == [] then []
    else
      var h := hunks[0];
      [DiffLine(Hunk, Header(script, h), None, None)] + Labels(script, h.from, h.to) + LabelledHunks(script, hunks[1..])
  }

  /** What it does show for a patch: file by file, what becomes of the header lines, then the labelled hunks. */
  function Shown(files: seq<FileDiff>, c: Counters): seq<DiffLine>
    requires FilesOk(files)
  {
    if files == [] then []
    else
      var f := files[0];
      Parse(f.headers, c) + LabelledHunks(f.script, f.hunks)
      + Shown(files[1..], After(PrintHunks(f.script, f.hunks), After(f.headers, c)))
  }

  lemma {:induction false} HunksLabelled(script: seq<Edit>, hunks: seq<HunkAt>, c: Counters)
    requires HunksOf(hunks, script)
    ensures Parse(PrintHunks(script, hunks), c) == LabelledHunks(script, hunks)
  {
    if hunks != [] {
      var first, rest := PrintHunk(script, hunks[0]), PrintHunks(script, hunks[1..]);
      ParseConcat(first, rest, c);
      HunkLabelled(script, hunks[0], c);
      HunksLabelled(script, hunks[1..], After(first, c));
    }
  }

  lemma {:induction false} FilesShown(files: seq<FileDiff>, c: Counters)
    requires FilesOk(files)
    ensures Parse(PrintFiles(files), c) == Shown(files, c)
  {
    if files != [] {
      var f := files[0];
      var hunks, rest := PrintHunks(f.script, f.hunks), PrintFiles(files[1..]);
      ParseConcat(f.headers + hunks, rest, c);
      ParseConcat(f.headers, hunks, c);
      HunksLabelled(f.script, f.hunks, After(f.headers, c));
      FilesShown(files[1..], After(hunks, After(f.headers, c)));
    }
  }

  /**
   Main result: the parse of a patch of any number of files and hunks is, file
   by file and in order, what becomes of the header lines and then every hunk
   with its header and its true labels, and nothing else.
   */
  lemma PatchIsLabelled(files: seq<FileDiff>)
    requires FilesOk(files) && NoNewlines(PrintFiles(files)) && PrintFiles(files) != []
    ensures Parse(SplitLines(JoinLines(PrintFiles(files))), Counters(0, 0)) == Shown(files, Counters(0, 0))
  {
    SplitJoined(PrintFiles(files));
    FilesShown(files, Counters(0, 0));
  }

  /** Header lines other than the `---` and `+++` ones are not shown at all. */
  lemma OtherHeadersAreDropped(line: string, c: Counters)
    requires line != "" && line[0] !in "@+- "
    ensures Entry(line, c) == [] && Advance(line, c) == c
  {
    FirstDiffers(line, "@@");
    FirstDiffers(line, "+");
    FirstDiffers(line, "-");
    FirstDiffers(line, " ");
  }

  /** A newline at the end of the patch shows up as one more, empty, context line. */
  lemma TrailingNewlineAddsContext(lines: seq<string>)
    requires lines != [] && NoNewlines(lines)
    ensures var c := After(lines, Counters(0, 0));
      Parse(SplitLines(JoinLines(lines) + "\n"), Counters(0, 0))
      == Parse(lines, Counters(0, 0)) + [DiffLine(Context, "", Some(c.oldLine), Some(c.newLine))]
  {
    JoinTrailing(lines);
    SplitJoined(lines + [""]);
    ParseConcat(lines, [""], Counters(0, 0));
  }

  lemma {:induction false} JoinTrailing(lines: seq<string>)
    requires lines != []
    ensures JoinLines(lines + [""]) == JoinLines(lines) + "\n"
  {
    if |lines| == 1 {
      assert (lines + [""])[1..] == [""];
    } else {
      assert (lines + [""])[1..] == lines[1..] + [""];
      JoinTrailing(lines[1..]);
    }
  }
}
