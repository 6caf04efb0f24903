/** Chains of redirects, whatever leads from one address to the next: when they end, and how soon. */
module RedirectChains {
  import opened Basics

  /** What leads on from an address, which addresses lead to themselves, and the two parts of a measure. */
  datatype System<!T> = System(step: T -> Option<T>, loops: T -> bool, rank: T -> nat, flag: T -> nat)

  /** A step from an address that leads to itself stays there; any other lowers the rank, or keeps it and the flag goes. */
  ghost predicate Burns<T(!new)>(y: System<T>) {
    forall x :: BurnsAt(y, x)
  }

  predicate BurnsAt<T(==)>(y: System<T>, x: T) {
    && y.flag(x) <= 1
    && (y.loops(x) ==> y.step(x) == Some(x))
    && (!y.loops(x) && y.step(x).Some? ==>
         var v := y.step(x).value;
         (y.rank(v) == y.rank(x) && y.flag(v) < y.flag(x)) || (y.rank(v) < y.rank(x) && y.flag(x) == 0))
  }

  /** The address after `n` redirects, if the chain is that long. */
  function Nth<T>(y: System<T>, x: T, n: nat): Option<T>
    decreases n
  {
    if n == 0 then Some(x)
    else if y.step(x).None? then None
    else Nth(y, y.step(x).value, n - 1)
  }

  ghost predicate Ends<T(!new)>(y: System<T>, x: T) {
    exists n: nat :: Nth(y, x, n).None?
  }

  predicate LoopsAfter<T>(y: System<T>, x: T, n: nat) {
    Nth(y, x, n).Some? && y.loops(Nth(y, x, n).value)
  }

  /** Some address reached on the way leads to itself. */
  ghost predicate ReachesLoop<T(!new)>(y: System<T>, x: T) {
    exists n: nat :: LoopsAfter(y, x, n)
  }

  /** Where the chain ends, or the address it never leaves. */
  function Last<T(!new)>(y: System<T>, x: T): T
    requires Burns(y)
    decreases y.rank(x), y.flag(x)
  {
    assert BurnsAt(y, x);
    if y.loops(x) || y.step(x).None? then x else Last(y, y.step(x).value)
  }

  /** How many redirects lead there. */
  function Hops<T(!new)>(y: System<T>, x: T): nat
    requires Burns(y)
    decreases y.rank(x), y.flag(x)
  {
    assert BurnsAt(y, x);
    if y.loops(x) || y.step(x).None? then 0 else 1 + Hops(y, y.step(x).value)
  }

  lemma {:induction false} LoopNeverEnds<T(!new)>(y: System<T>, x: T, n: nat)
    requires y.loops(x) && BurnsAt(y, x)
    ensures Nth(y, x, n) == Some(x)
    decreases n
  {
    if n > 0 {
      LoopNeverEnds(y, x, n - 1);
    }
  }

  /** A chain ends exactly if it reaches no address that leads to itself. */
  lemma {:induction false} EndsIffNoLoop<T(!new)>(y: System<T>, x: T)
    requires Burns(y)
    ensures Ends(y, x) <==> !ReachesLoop(y, x)
    ensures Ends(y, x) <==> !y.loops(Last(y, x))
    decreases y.rank(x), y.flag(x)
  {
    assert BurnsAt(y, x);
    if y.loops(x) {
      forall n: nat ensures Nth(y, x, n).Some? {
        LoopNeverEnds(y, x, n);
      }
      assert LoopsAfter(y, x, 0);
    } else if y.step(x).None? {
      assert Nth(y, x, 1).None?;
    } else {
      EndsIffNoLoop(y, y.step(x).value);
      Shift(y, x);
    }
  }

  lemma Shift<T(!new)>(y: System<T>, x: T)
    requires y.step(x).Some? && !y.loops(x)
    ensures Ends(y, x) <==> Ends(y, y.step(x).value)
    ensures ReachesLoop(y, x) <==> ReachesLoop(y, y.step(x).value)
  {
    var v := y.step(x).value;
    if Ends(y, x) {
      var n: nat :| Nth(y, x, n).None?;
      assert Nth(y, v, n - 1).None?;
    }
    if Ends(y, v) {
      var n: nat :| Nth(y, v, n).None?;
      assert Nth(y, x, n + 1).None?;
    }
    if ReachesLoop(y, x) {
      var n: nat :| LoopsAfter(y, x, n);
      assert LoopsAfter(y, v, n - 1);
    }
    if ReachesLoop(y, v) {
      var n: nat :| LoopsAfter(y, v, n);
      assert LoopsAfter(y, x, n + 1);
    }
  }

  /** A chain gets where it ends, or to where it loops, within the bound that flag and rank give. */
  lemma {:induction false} GetsThereSoon<T(!new)>(y: System<T>, x: T)
    requires Burns(y)
    ensures Hops(y, x) <= y.flag(x) + 2 * y.rank(x)
    ensures Nth(y, x, Hops(y, x)) == Some(Last(y, x))
    ensures y.loops(Last(y, x)) || y.step(Last(y, x)).None?
    decreases y.rank(x), y.flag(x)
  {
    assert BurnsAt(y, x);
    if !y.loops(x) && y.step(x).Some? {
      assert BurnsAt(y, y.step(x).value);
      GetsThereSoon(y, y.step(x).value);
    }
  }
}
