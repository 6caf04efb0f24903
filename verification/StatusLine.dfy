/** The status line at the bottom of the gateway screen: what is dropped so that it never wraps. */
module StatusLine {
  import opened Basics
  import opened AnsiStyle

  const SEPARATOR := Dim(Text("  \U{b7}  "))

  /** The head and the first `n` extras. */
  function Prefix(head: Markup, extras: seq<Markup>, n: nat): Markup
    requires n <= |extras|
  {
    if n == 0 then Both(Text("  "), head)
    else Both(Prefix(head, extras, n - 1), Both(SEPARATOR, Dim(extras[n - 1])))
  }

  function Width(rich: bool, m: Markup): nat {
    |Plain(rich, m)|
  }

  /** What the hint leaves of the width, with two columns between. */
  function Room(width: int, hint: string): int {
    width - (if hint != "" then |hint| + 2 else 0)
  }

  /** How many extras are kept, starting from `n` of them: the scan stops at the first that does not fit. */
  function Kept(rich: bool, head: Markup, extras: seq<Markup>, room: int, n: nat): (kept: nat)
    requires n <= |extras|
    ensures n <= kept <= |extras|
    decreases |extras| - n
  {
    if n == |extras| || Width(rich, Prefix(head, extras, n + 1)) > room then n
    else Kept(rich, head, extras, room, n + 1)
  }

  function Ended(rich: bool, line: Markup, hint: string, width: int): Markup {
    var gap := width - Width(rich, line) - |hint|;
    if hint != "" && gap >= 2 then WithHint(line, gap, hint) else line
  }

  function Laid(rich: bool, head: Markup, extras: seq<Markup>, hint: string, width: int): Markup {
    Ended(rich, Prefix(head, extras, Kept(rich, head, extras, Room(width, hint), 0)), hint, width)
  }

  function WithHint(line: Markup, gap: int, hint: string): Markup {
    Both(line, Both(Text(Spread(' ', gap)), Dim(Text(hint))))
  }

  lemma HintPlain(rich: bool, line: Markup, gap: int, hint: string)
    ensures Plain(rich, WithHint(line, gap, hint)) == Plain(rich, line) + (Spread(' ', gap) + hint)
    ensures Render(rich, WithHint(line, gap, hint)) == Render(rich, line) + (Spread(' ', gap) + Render(rich, Dim(Text(hint))))
    ensures Clean(line) && EscFree(hint) ==> Clean(WithHint(line, gap, hint))
  {
    var space, dimmed := Text(Spread(' ', gap)), Dim(Text(hint));
    assert Plain(rich, dimmed) == Plain(rich, Text(hint)) == hint && Plain(rich, space) == Spread(' ', gap);
    assert Plain(rich, Both(space, dimmed)) == Spread(' ', gap) + hint;
    assert Render(rich, Both(space, dimmed)) == Render(rich, space) + Render(rich, dimmed);
    assert EscFree(hint) ==> Clean(Text(hint)) && Clean(dimmed) && Clean(space) && Clean(Both(space, dimmed));
  }

  predicate AllClean(head: Markup, extras: seq<Markup>) {
    Clean(head) && forall i :: 0 <= i < |extras| ==> Clean(extras[i])
  }

  lemma {:induction false} PrefixClean(head: Markup, extras: seq<Markup>, n: nat)
    requires AllClean(head, extras) && n <= |extras|
    ensures Clean(Prefix(head, extras, n))
  {
    if n > 0 {
      PrefixClean(head, extras, n - 1);
      assert EscFree("  \U{b7}  ");
    }
  }

  lemma PrefixWidth(rich: bool, head: Markup, extras: seq<Markup>, n: nat)
    requires AllClean(head, extras) && n <= |extras|
    ensures VisibleWidth(Render(rich, Prefix(head, extras, n))) == Width(rich, Prefix(head, extras, n))
  {
    PrefixClean(head, extras, n);
    StripUndoesStyling(rich, Prefix(head, extras, n));
  }

  lemma OneMoreExtra(rich: bool, head: Markup, extras: seq<Markup>, n: nat)
    requires AllClean(head, extras) && n < |extras|
    ensures var next := Render(rich, Prefix(head, extras, n)) + (Render(rich, SEPARATOR) + Render(rich, Dim(extras[n])));
      next == Render(rich, Prefix(head, extras, n + 1)) && VisibleWidth(next) == Width(rich, Prefix(head, extras, n + 1))
  {
    PrefixWidth(rich, head, extras, n + 1);
    assert Prefix(head, extras, n + 1) == Both(Prefix(head, extras, n), Both(SEPARATOR, Dim(extras[n])));
    assert Render(rich, Both(SEPARATOR, Dim(extras[n]))) == Render(rich, SEPARATOR) + Render(rich, Dim(extras[n]));
  }

  /** The loop over the extras. */
  method KeepExtras(rich: bool, head: Markup, extras: seq<Markup>, room: int) returns (line: string)
    requires AllClean(head, extras)
    ensures line == Render(rich, Prefix(head, extras, Kept(rich, head, extras, room, 0)))
  {
    line := Render(rich, Both(Text("  "), head));
    var n := 0;
    while n < |extras|
      invariant n <= |extras| && line == Render(rich, Prefix(head, extras, n))
      invariant Kept(rich, head, extras, room, n) == Kept(rich, head, extras, room, 0)
    {
      var next := line + (Render(rich, SEPARATOR) + Render(rich, Dim(extras[n])));
      OneMoreExtra(rich, head, extras, n);
      if VisibleWidth(next) > room { break; }
      line := next;
      n := n + 1;
    }
  }

  method Compose(rich: bool, head: Markup, extras: seq<Markup>, hint: string, columns: int) returns (line: string)
    requires AllClean(head, extras) && EscFree(hint)
    ensures line == Render(rich, Laid(rich, head, extras, hint, columns - 1))
  {
    var width := columns - 1;
    HintWidth(rich, hint);
    var room := width - (if hint != "" then VisibleWidth(hint) + 2 else 0);
    line := KeepExtras(rich, head, extras, room);
    PrefixWidth(rich, head, extras, Kept(rich, head, extras, room, 0));
    line := AddHint(rich, line, Prefix(head, extras, Kept(rich, head, extras, room, 0)), hint, width);
  }

  lemma HintWidth(rich: bool, hint: string)
    requires EscFree(hint)
    ensures VisibleWidth(hint) == |hint|
  {
    StripUndoesStyling(rich, Text(hint));
  }

  method AddHint(rich: bool, text: string, shown: Markup, hint: string, width: int) returns (line: string)
    requires text == Render(rich, shown) && VisibleWidth(text) == Width(rich, shown) && VisibleWidth(hint) == |hint|
    ensures line == Render(rich, Ended(rich, shown, hint, width))
  {
    line := text;
    if hint != "" {
      var gap := width - VisibleWidth(line) - VisibleWidth(hint);
      if gap >= 2 {
        HintPlain(rich, shown, gap, hint);
        line := line + (Spread(' ', gap) + Render(rich, Dim(Text(hint))));
      }
    }
  }

  lemma {:induction false} PrefixesGrow(rich: bool, head: Markup, extras: seq<Markup>, m: nat, n: nat)
    requires m <= n <= |extras|
    ensures Width(rich, Prefix(head, extras, m)) <= Width(rich, Prefix(head, extras, n))
  {
    if m < n {
      PrefixesGrow(rich, head, extras, m, n - 1);
    }
  }

  /** Either nothing is kept beyond `n`, or what is kept fits; and the next extra would not. */
  lemma {:induction false} KeptFits(rich: bool, head: Markup, extras: seq<Markup>, room: int, n: nat)
    requires n <= |extras|
    ensures var kept := Kept(rich, head, extras, room, n);
      && (kept > n ==> Width(rich, Prefix(head, extras, kept)) <= room)
      && (kept < |extras| ==> Width(rich, Prefix(head, extras, kept + 1)) > room)
    decreases |extras| - n
  {
    if n < |extras| && Width(rich, Prefix(head, extras, n + 1)) <= room {
      KeptFits(rich, head, extras, room, n + 1);
    }
  }

  /** The longest prefix of the extras that leaves room for the hint is the one shown. */
  lemma KeepsAsManyAsFit(rich: bool, head: Markup, extras: seq<Markup>, room: int, m: nat)
    requires 0 < m <= |extras|
    ensures m <= Kept(rich, head, extras, room, 0) <==> Width(rich, Prefix(head, extras, m)) <= room
  {
    var kept := Kept(rich, head, extras, room, 0);
    KeptFits(rich, head, extras, room, 0);
    if m <= kept {
      PrefixesGrow(rich, head, extras, m, kept);
    } else {
      PrefixesGrow(rich, head, extras, kept + 1, m);
    }
  }

  lemma EndsWith(a: string, gap: string, hint: string)
    ensures (a + (gap + hint))[|a| + |gap|..] == hint
  {
  }

  /** A line is ended by the hint, at the right edge, exactly when it leaves room for it. */
  lemma EndedByHint(rich: bool, line: Markup, hint: string, width: int)
    requires hint != "" && Width(rich, line) <= Room(width, hint)
    ensures var ended := Ended(rich, line, hint, width);
      Width(rich, ended) == width && Plain(rich, ended)[width - |hint|..] == hint
  {
    var gap := width - Width(rich, line) - |hint|;
    HintPlain(rich, line, gap, hint);
    EndsWith(Plain(rich, line), Spread(' ', gap), hint);
  }

  /** The hint is shown, in the last columns, exactly when the head alone leaves room for it: it goes before the extras. */
  lemma HintBeforeExtras(rich: bool, head: Markup, extras: seq<Markup>, hint: string, width: int)
    ensures var base, line := Width(rich, Prefix(head, extras, 0)), Laid(rich, head, extras, hint, width);
      if hint != "" && base <= Room(width, hint) then Width(rich, line) == width && Plain(rich, line)[width - |hint|..] == hint
      else line == Prefix(head, extras, Kept(rich, head, extras, Room(width, hint), 0))
  {
    var room := Room(width, hint);
    var kept := Kept(rich, head, extras, room, 0);
    KeptFits(rich, head, extras, room, 0);
    PrefixesGrow(rich, head, extras, 0, kept);
    if hint != "" && Width(rich, Prefix(head, extras, 0)) <= room {
      EndedByHint(rich, Prefix(head, extras, kept), hint, width);
    }
  }

  /** The line fits the terminal exactly when its head alone does: everything else is dropped rather than wrapped. */
  lemma FitsIffHeadFits(rich: bool, head: Markup, extras: seq<Markup>, hint: string, width: int)
    requires AllClean(head, extras) && EscFree(hint)
    ensures VisibleWidth(Render(rich, Laid(rich, head, extras, hint, width))) <= width
       <==> Width(rich, Prefix(head, extras, 0)) <= width
  {
    var room := Room(width, hint);
    var kept := Kept(rich, head, extras, room, 0);
    KeptFits(rich, head, extras, room, 0);
    PrefixesGrow(rich, head, extras, 0, kept);
    PrefixClean(head, extras, kept);
    HintPlain(rich, Prefix(head, extras, kept), width - Width(rich, Prefix(head, extras, kept)) - |hint|, hint);
    StripUndoesStyling(rich, Laid(rich, head, extras, hint, width));
    HintBeforeExtras(rich, head, extras, hint, width);
  }
}
