/** Greedy word wrap of the gateway screen, and its optimality. */
module WordWrap {
  import opened Basics

  // ----------------------------------------------------------- the algorithm

  /** The characters matched by `\s`. */
  predicate IsSpace(c: char) {
    || c in " \t\n\r" || c == '\U{b}' || c == '\U{c}' || c == '\U{a0}' || c == '\U{1680}'
    || '\U{2000}' <= c <= '\U{200a}' || c == '\U{2028}' || c == '\U{2029}'
    || c == '\U{202f}' || c == '\U{205f}' || c == '\U{3000}' || c == '\U{feff}'
  }

  /** How many leading characters are spaces, or are not. */
  function Leading(spaces: bool, text: string): (n: nat)
    ensures n <= |text|
    ensures forall i :: 0 <= i < n ==> IsSpace(text[i]) == spaces
    ensures n < |text| ==> IsSpace(text[n]) != spaces
  {
    if text != "" && IsSpace(text[0]) == spaces then 1 + Leading(spaces, text[1..]) else 0
  }

  /** Splitting at runs of spaces: a leading or trailing run leaves an empty word. */
  function Split(text: string): seq<string>
    decreases |text|
  {
    var n := Leading(false, text);
    if n == |text| then [text]
    else
      var rest := text[n..];
      [text[..n]] + Split(rest[Leading(true, rest)..])
  }

  function WrapWidth(columns: int, indent: nat): int {
    Max(30, columns - indent - 2)
  }

  /** The lines made of an unfinished line and the words to come. */
  function Wrapped(current: string, words: seq<string>, width: int): seq<string>
    decreases |words|
  {
    if words == [] then (if current == "" then [] else [current])
    else if current != "" && |current| + 1 + |words[0]| > width
    then [current] + Wrapped(words[0], words[1..], width)
    else Wrapped(if current != "" then current + " " + words[0] else words[0], words[1..], width)
  }

  function Indented(lines: seq<string>, indent: nat): seq<string> {
    seq(|lines|, i requires 0 <= i < |lines| => seq(indent, _ => ' ') + lines[i])
  }

  method Wrap(text: string, indent: nat, columns: int) returns (lines: seq<string>)
    ensures lines == Indented(Wrapped("", Split(text), WrapWidth(columns, indent)), indent)
  {
    var width := Max(30, columns - indent - 2);
    var words := Split(text);
    var unindented: seq<string> := [];
    var current := "";
    for i := 0 to |words|
      invariant unindented + Wrapped(current, words[i..], width) == Wrapped("", words, width)
    {
      var word := words[i];
      assert words[i..][0] == word && words[i..][1..] == words[i + 1..];
      ghost var after := Wrapped(word, words[i + 1..], width);
      if current != "" && |current| + 1 + |word| > width {
        assert unindented + ([current] + after) == unindented + [current] + after;
        unindented := unindented + [current];
        current := word;
      } else {
        current := if current != "" then current + " " + word else word;
      }
    }
    if current != "" {
      unindented := unindented + [current];
    }
    lines := seq(|unindented|, i requires 0 <= i < |unindented| => seq(indent, _ => ' ') + unindented[i]);
  }

  // ---------------------------------------------------------------- layouts

  function Join(group: seq<string>): string {
    if group == [] then ""
    else if |group| == 1 then group[0]
    else Join(group[..|group| - 1]) + " " + group[|group| - 1]
  }

  function JoinAll(groups: seq<seq<string>>): seq<string> {
    seq(|groups|, i requires 0 <= i < |groups| => Join(groups[i]))
  }

  function Flatten(groups: seq<seq<string>>): seq<string> {
    if groups == [] then [] else groups[0] + Flatten(groups[1..])
  }

  /** A line fits the width, or is a single word that cannot. */
  predicate LegalLine(group: seq<string>, width: int) {
    |group| > 0 && (|Join(group)| <= width || |group| == 1)
  }

  /** A way to lay out the words: consecutive groups of them, each a legal line. */
  ghost predicate Layout(groups: seq<seq<string>>, words: seq<string>, width: int) {
    Flatten(groups) == words && forall i :: 0 <= i < |groups| ==> LegalLine(groups[i], width)
  }

  predicate NonEmpty(words: seq<string>) {
    forall i :: 0 <= i < |words| ==> words[i] != ""
  }

  /** How many words the greedy line takes, starting from `group`. */
  function Taken(group: seq<string>, words: seq<string>, width: int): (n: nat)
    ensures n <= |words|
    decreases |words|
  {
    if words == [] || (group != [] && |Join(group)| + 1 + |words[0]| > width) then 0
    else 1 + Taken(group + [words[0]], words[1..], width)
  }

  /** The greedy layout, word by word, from an unfinished group. */
  function Greedy(group: seq<string>, words: seq<string>, width: int): seq<seq<string>>
    decreases |words|
  {
    if words == [] then (if group == [] then [] else [group])
    else if group != [] && |Join(group)| + 1 + |words[0]| > width
    then [group] + Greedy([words[0]], words[1..], width)
    else Greedy(group + [words[0]], words[1..], width)
  }

  // ------------------------------------------------------- lengths of groups

  lemma JoinSnoc(group: seq<string>, word: string)
    ensures Join(group + [word]) == if group == [] then word else Join(group) + " " + word
  {
    assert (group + [word])[..|group|] == group;
  }

  lemma {:induction false} JoinNonEmpty(group: seq<string>)
    requires group != [] && NonEmpty(group)
    ensures Join(group) != ""
  {
  }

  lemma {:induction false} PrefixShorter(group: seq<string>, n: nat)
    requires n <= |group|
    ensures |Join(group[..n])| <= |Join(group)|
    decreases |group|
  {
    if n < |group| {
      var m := |group| - 1;
      PrefixShorter(group[..m], n);
      assert group[..m][..n] == group[..n] && group == group[..m] + [group[m]];
      JoinSnoc(group[..m], group[m]);
    } else {
      assert group[..n] == group;
    }
  }

  lemma {:induction false} SuffixShorter(group: seq<string>, k: nat)
    requires k <= |group|
    ensures |Join(group[k..])| <= |Join(group)|
    decreases |group|
  {
    if k < |group| {
      var m := |group| - 1;
      SuffixShorter(group[..m], k);
      assert group[k..] == group[..m][k..] + [group[m]] && group == group[..m] + [group[m]];
      JoinSnoc(group[..m][k..], group[m]);
      JoinSnoc(group[..m], group[m]);
    }
  }

  // -------------------------------------------------- the greedy line is long

  predicate Overflows(group: seq<string>, word: string, width: int) {
    group != [] && |Join(group)| + 1 + |word| > width
  }

  lemma GreedyOverflow(group: seq<string>, words: seq<string>, width: int)
    requires words != [] && Overflows(group, words[0], width)
    ensures Taken(group, words, width) == 0
    ensures Greedy(group, words, width) == [group] + Greedy([], words, width)
  {
    assert [] + [words[0]] == [words[0]];
  }

  lemma GreedyFits(group: seq<string>, words: seq<string>, width: int)
    requires words != [] && !Overflows(group, words[0], width)
    ensures Taken(group, words, width) == 1 + Taken(group + [words[0]], words[1..], width)
    ensures Greedy(group, words, width) == Greedy(group + [words[0]], words[1..], width)
  {
  }

  lemma TakeOneMore(group: seq<string>, words: seq<string>, n: nat)
    requires 0 < n <= |words|
    ensures group + words[..n] == group + [words[0]] + words[1..][..n - 1]
    ensures words[n..] == words[1..][n - 1..]
  {
  }

  /** The greedy line is legal. */
  lemma {:induction false} TakenIsLegal(group: seq<string>, words: seq<string>, width: int)
    requires group == [] || LegalLine(group, width)
    requires group + words != []
    ensures LegalLine(group + words[..Taken(group, words, width)], width)
    decreases |words|
  {
    var n := Taken(group, words, width);
    if n > 0 {
      JoinSnoc(group, words[0]);
      TakenIsLegal(group + [words[0]], words[1..], width);
      TakeOneMore(group, words, n);
    } else {
      assert group + words[..0] == group;
    }
  }

  /** No longer line fits. */
  lemma {:induction false} TakenIsLongest(group: seq<string>, words: seq<string>, width: int, m: nat)
    requires m <= |words| && LegalLine(group + words[..m], width)
    ensures m <= Taken(group, words, width)
    decreases |words|
  {
    if m > 0 {
      NextFits(group, words, width, m);
      TakeOneMore(group, words, m);
      GreedyFits(group, words, width);
      TakenIsLongest(group + [words[0]], words[1..], width, m - 1);
    }
  }

  /** If a longer line is legal, the next word fits. */
  lemma NextFits(group: seq<string>, words: seq<string>, width: int, m: nat)
    requires 0 < m <= |words| && LegalLine(group + words[..m], width)
    ensures !Overflows(group, words[0], width)
  {
    if group != [] {
      JoinSnoc(group, words[0]);
      PrefixShorter(group + words[..m], |group| + 1);
      TakeOneMore(group, words, m);
      FrontOf(group + [words[0]], words[1..][..m - 1]);
    }
  }

  lemma FrontOf(front: seq<string>, rest: seq<string>)
    ensures (front + rest)[..|front|] == front
  {
  }

  // ------------------------------------------------------------ main results

  /** The greedy layout starts with the group it can take, and goes on afresh. */
  lemma {:induction false} GreedyTakes(group: seq<string>, words: seq<string>, width: int)
    requires group + words != []
    ensures var n := Taken(group, words, width);
      Greedy(group, words, width) == [group + words[..n]] + Greedy([], words[n..], width)
    decreases |words|
  {
    var n := Taken(group, words, width);
    var line, later := group + words[..n], words[n..];
    if words == [] {
      assert line == group && later == [] && Greedy([], later, width) == [];
    } else if Overflows(group, words[0], width) {
      GreedyOverflow(group, words, width);
      assert line == group && later == words;
    } else {
      var more, rest := group + [words[0]], words[1..];
      GreedyFits(group, words, width);
      GreedyTakes(more, rest, width);
      TakeOneMore(group, words, n);
    }
  }

  lemma TakesOne(words: seq<string>, width: int)
    requires words != []
    ensures Taken([], words, width) > 0
  {
  }

  lemma {:induction false} GreedyIsLayout(words: seq<string>, width: int)
    ensures Layout(Greedy([], words, width), words, width)
    decreases |words|
  {
    if words != [] {
      TakesOne(words, width);
      var n := Taken([], words, width);
      GreedyTakes([], words, width);
      TakenIsLegal([], words, width);
      assert [] + words[..n] == words[..n];
      GreedyIsLayout(words[n..], width);
      assert words == words[..n] + words[n..];
    }
  }

  /** Greedy takes at least what is left of a legal line that has begun. */
  lemma RestOfLineIsTaken(words: seq<string>, width: int, from: nat, k: nat, to: nat)
    requires from <= k < to <= |words| && LegalLine(words[from..to], width)
    ensures Taken([], words[k..], width) >= to - k
  {
    SuffixShorter(words[from..to], k - from);
    assert words[from..to][k - from..] == words[k..to] == [] + words[k..][..to - k];
    TakenIsLongest([], words[k..], width, to - k);
  }

  /** Greedy takes one line, then lays out the rest. */
  lemma LineThenRest(words: seq<string>, width: int, k: nat)
    requires k < |words|
    ensures var n := Taken([], words[k..], width);
      |Greedy([], words[k..], width)| == 1 + |Greedy([], words[k + n..], width)|
  {
    var n := Taken([], words[k..], width);
    GreedyTakes([], words[k..], width);
    assert words[k..][n..] == words[k + n..];
  }

  /** The first line of a layout of the words from `from` on. */
  lemma FirstGroup(groups: seq<seq<string>>, words: seq<string>, width: int, from: nat)
    requires from < |words| && Layout(groups, words[from..], width)
    ensures groups != [] && from + |groups[0]| <= |words|
    ensures LegalLine(words[from..from + |groups[0]|], width)
    ensures Layout(groups[1..], words[from + |groups[0]|..], width)
  {
    var m := |groups[0]|;
    assert words[from..] == groups[0] + Flatten(groups[1..]);
    assert words[from..from + m] == words[from..][..m] == groups[0];
    assert words[from + m..] == words[from..][m..] == Flatten(groups[1..]);
  }

  /** Even with the words before `k` left out, greedy needs no more lines than any layout of the words from `from` on. */
  lemma {:induction false} GreedySuffixIsShort(groups: seq<seq<string>>, words: seq<string>, width: int, from: nat, k: nat)
    requires from <= k <= |words| && Layout(groups, words[from..], width)
    ensures |Greedy([], words[k..], width)| <= |groups|
    decreases |groups|
  {
    if k < |words| {
      FirstGroup(groups, words, width, from);
      var to := from + |groups[0]|;
      if to <= k {
        GreedySuffixIsShort(groups[1..], words, width, to, k);
      } else {
        RestOfLineIsTaken(words, width, from, k, to);
        LineThenRest(words, width, k);
        GreedySuffixIsShort(groups[1..], words, width, to, k + Taken([], words[k..], width));
      }
    }
  }

  lemma JoinAllCons(group: seq<string>, groups: seq<seq<string>>)
    ensures JoinAll([group] + groups) == [Join(group)] + JoinAll(groups)
  {
  }

  /** The loop joins the greedy layout. */
  lemma {:induction false} WrappedIsGreedy(group: seq<string>, words: seq<string>, width: int)
    requires NonEmpty(group) && NonEmpty(words)
    ensures Wrapped(Join(group), words, width) == JoinAll(Greedy(group, words, width))
    decreases |words|
  {
    if group != [] {
      JoinNonEmpty(group);
    }
    if words != [] {
      if group != [] && |Join(group)| + 1 + |words[0]| > width {
        WrappedIsGreedy([words[0]], words[1..], width);
        JoinSnoc([], words[0]);
        assert [] + [words[0]] == [words[0]];
        JoinAllCons(group, Greedy([words[0]], words[1..], width));
      } else {
        JoinSnoc(group, words[0]);
        WrappedIsGreedy(group + [words[0]], words[1..], width);
      }
    }
  }

  /**
   Greedy wrap is optimal: the lines hold all the words in order, each line fits
   or is one overlong word, and no legal layout of the words has fewer lines.
   */
  lemma WrapIsOptimal(words: seq<string>, width: int)
    requires NonEmpty(words)
    ensures Wrapped("", words, width) == JoinAll(Greedy([], words, width))
    ensures Layout(Greedy([], words, width), words, width)
    ensures forall groups :: Layout(groups, words, width) ==> |Wrapped("", words, width)| <= |groups|
  {
    GreedyIsLayout(words, width);
    WrappedIsGreedy([], words, width);
    forall groups | Layout(groups, words, width)
      ensures |Wrapped("", words, width)| <= |groups|
    {
      assert words[0..] == words;
      GreedySuffixIsShort(groups, words, width, 0, 0);
    }
  }

  // ------------------------------------------------- spaces around the text

  /** Without spaces at its ends a text splits into non-empty words. */
  lemma {:induction false} SplitNonEmpty(text: string)
    requires text != "" && !IsSpace(text[0]) && !IsSpace(text[|text| - 1])
    ensures NonEmpty(Split(text))
    decreases |text|
  {
    var n := Leading(false, text);
    if n < |text| {
      var rest := text[n..];
      var k := Leading(true, rest);
      var after := rest[k..];
      assert rest[|rest| - 1] == text[|text| - 1];
      assert k < |rest|;
      assert after[|after| - 1] == text[|text| - 1];
      SplitNonEmpty(after);
    }
  }

  /** An empty word in front changes nothing. */
  lemma LeadingSpaceIgnored(words: seq<string>, width: int)
    ensures Wrapped("", [""] + words, width) == Wrapped("", words, width)
  {
    assert ([""] + words)[1..] == words;
  }

  /** An empty word behind adds at most one space, at the end of the last line. */
  lemma {:induction false} TrailingSpaceKept(current: string, words: seq<string>, width: int)
    ensures var plain, spaced := Wrapped(current, words, width), Wrapped(current, words + [""], width);
      spaced == plain
      || (plain != [] && spaced == plain[..|plain| - 1] + [plain[|plain| - 1] + " "] && |plain[|plain| - 1]| < width)
    decreases |words|
  {
    if words == [] {
      assert words + [""] == [""] && [""][1..] == [];
      assert current + " " + "" == current + " ";
    } else {
      assert (words + [""])[0] == words[0] && (words + [""])[1..] == words[1..] + [""];
      if current != "" && |current| + 1 + |words[0]| > width {
        TrailingSpaceKept(words[0], words[1..], width);
      } else {
        TrailingSpaceKept(if current != "" then current + " " + words[0] else words[0], words[1..], width);
      }
    }
  }

  predicate AllSpaces(s: string) {
    forall i :: 0 <= i < |s| ==> IsSpace(s[i])
  }

  lemma {:induction false} LeadingAppend(spaces: bool, s: string, t: string)
    ensures Leading(spaces, s + t) == if Leading(spaces, s) < |s| then Leading(spaces, s) else |s| + Leading(spaces, t)
  {
    if s == "" {
      assert s + t == t;
    } else {
      assert (s + t)[1..] == s[1..] + t;
      LeadingAppend(spaces, s[1..], t);
    }
  }

  lemma {:induction false} LeadingAll(s: string)
    requires AllSpaces(s)
    ensures Leading(true, s) == |s| && (s != "" ==> Leading(false, s) == 0)
  {
    if s != "" {
      LeadingAll(s[1..]);
    }
  }

  predicate NoSpaces(s: string) {
    forall i :: 0 <= i < |s| ==> !IsSpace(s[i])
  }

  lemma {:induction false} LeadingNone(s: string)
    requires NoSpaces(s)
    ensures Leading(false, s) == |s|
  {
    if s != "" {
      LeadingNone(s[1..]);
    }
  }

  /** The first word of a text, the spaces behind it and the rest. */
  lemma SplitFirst(word: string, gap: string, after: string)
    requires NoSpaces(word) && gap != "" && AllSpaces(gap) && (after == "" || !IsSpace(after[0]))
    ensures Split(word + (gap + after)) == [word] + Split(after)
  {
    var text, rest := word + (gap + after), gap + after;
    LeadingNone(word);
    LeadingAll(gap);
    LeadingAppend(false, word, rest);
    LeadingAppend(false, gap, after);
    LeadingAppend(true, gap, after);
    assert text[..|word|] == word && text[|word|..] == rest && rest[|gap|..] == after;
  }

  /** Spaces behind a text split off an empty word. */
  lemma {:induction false} SplitTrailing(body: string, trail: string)
    requires body != "" && !IsSpace(body[|body| - 1]) && trail != "" && AllSpaces(trail)
    ensures Split(body + trail) == Split(body) + [""]
    decreases |body|
  {
    var n := Leading(false, body);
    if n == |body| {
      SplitFirst(body, trail, "");
      assert trail + "" == trail;
    } else {
      var word, rest := body[..n], body[n..];
      var k := Leading(true, rest);
      assert rest[|rest| - 1] == body[|body| - 1];
      assert k < |rest|;
      var gap, after := rest[..k], rest[k..];
      SplitTrailing(after, trail);
      TrailingStep(word, gap, after, trail);
      Reassembled(body, n, k, trail);
    }
  }

  lemma Reassociate(a: seq<string>, b: seq<string>, c: seq<string>)
    ensures a + (b + c) == a + b + c
  {
  }

  lemma TrailingStep(word: string, gap: string, after: string, trail: string)
    requires NoSpaces(word) && gap != "" && AllSpaces(gap) && after != "" && !IsSpace(after[0])
    requires Split(after + trail) == Split(after) + [""]
    ensures Split(word + (gap + (after + trail))) == Split(word + (gap + after)) + [""]
  {
    SplitFirst(word, gap, after);
    SplitFirst(word, gap, after + trail);
    Reassociate([word], Split(after), [""]);
  }

  lemma Reassembled(body: string, n: nat, k: nat, trail: string)
    requires n + k <= |body|
    ensures var rest := body[n..]; body == body[..n] + (rest[..k] + rest[k..])
    ensures var rest := body[n..]; body + trail == body[..n] + (rest[..k] + (rest[k..] + trail))
  {
  }

  /**
   For any text that is not blank, whatever spaces surround it: it takes as many
   lines as without them, and no legal layout of its words takes fewer.
   */
  lemma TextTakesFewestLines(lead: string, body: string, trail: string, width: int)
    requires AllSpaces(lead) && AllSpaces(trail)
    requires body != "" && !IsSpace(body[0]) && !IsSpace(body[|body| - 1])
    ensures var lines := Wrapped("", Split(lead + (body + trail)), width);
      && |lines| == |Wrapped("", Split(body), width)|
      && forall groups :: Layout(groups, Split(body), width) ==> |lines| <= |groups|
  {
    var text := body + trail;
    if trail == "" {
      assert text == body;
    } else {
      SplitTrailing(body, trail);
      TrailingSpaceKept("", Split(body), width);
    }
    if lead == "" {
      assert lead + text == text;
    } else {
      SplitFirst("", lead, text);
      assert "" + (lead + text) == lead + text;
      LeadingSpaceIgnored(Split(text), width);
    }
    SplitNonEmpty(body);
    WrapIsOptimal(Split(body), width);
  }

  // ------------------------------------------------------------- blank texts

  predicate AllEmpty(words: seq<string>) {
    forall i :: 0 <= i < |words| ==> words[i] == ""
  }

  lemma {:induction false} WrappedEmptyIff(current: string, words: seq<string>, width: int)
    ensures Wrapped(current, words, width) == [] <==> current == "" && AllEmpty(words)
    decreases |words|
  {
    if words != [] {
      var first, rest := words[0], words[1..];
      assert words == [first] + rest;
      assert AllEmpty(words) <==> first == "" && AllEmpty(rest);
      if current != "" && |current| + 1 + |first| > width {
        WrappedEmptyIff(first, rest, width);
      } else {
        WrappedEmptyIff(if current != "" then current + " " + first else first, rest, width);
      }
    }
  }

  lemma AllSpacesConcat(a: string, b: string)
    ensures AllSpaces(a + b) <==> AllSpaces(a) && AllSpaces(b)
  {
    if AllSpaces(a + b) {
      assert forall i :: 0 <= i < |a| ==> a[i] == (a + b)[i];
      assert forall i :: 0 <= i < |b| ==> b[i] == (a + b)[|a| + i];
    }
  }

  /** The words of a text are all empty exactly if the text is blank. */
  lemma {:induction false} SplitBlankIff(text: string)
    ensures AllEmpty(Split(text)) <==> AllSpaces(text)
    decreases |text|
  {
    var n := Leading(false, text);
    var word, rest := text[..n], text[n..];
    assert text == word + rest;
    AllSpacesConcat(word, rest);
    assert AllSpaces(word) <==> n == 0 by {
      if n > 0 { assert !IsSpace(word[0]); }
    }
    if n == |text| {
      assert Split(text) == [text] && [text][0] == text;
    } else {
      var k := Leading(true, rest);
      var gap, after := rest[..k], rest[k..];
      assert rest == gap + after;
      AllSpacesConcat(gap, after);
      SplitBlankIff(after);
      FirstEmpty(word, Split(after));
      assert Split(text) == [word] + Split(after);
    }
  }

  lemma FirstEmpty(word: string, words: seq<string>)
    ensures AllEmpty([word] + words) <==> word == "" && AllEmpty(words)
  {
    var all := [word] + words;
    assert all[0] == word;
    if AllEmpty(all) {
      assert forall i :: 0 <= i < |words| ==> words[i] == all[i + 1];
    }
  }

  /** Wrapping leaves no line exactly if the text is blank. */
  lemma NoLinesIffBlank(text: string, width: int)
    ensures Wrapped("", Split(text), width) == [] <==> AllSpaces(text)
  {
    SplitBlankIff(text);
    WrappedEmptyIff("", Split(text), width);
  }
}
