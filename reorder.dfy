/**
 * The two reordering primitives of the TxVM stacks, stated on the sequence of
 * elements, bottom first (the top of the stack is the last element).
 *
 * Depths follow the code's index arithmetic:
 *  - Roll(n) takes the element at index |s| - n, so depth 1 is the top and
 *    depth |s| the bottom;
 *  - Bury(n) pops the top and reinserts it at index (|s| - 1) - n of what is
 *    left, so depth 0 puts it back on top.
 */
module Reorder {

  /** The sequence after Roll(n): the element at depth n moves to the top,
      and the others keep their relative order. */
  function Rolled<T>(s: seq<T>, n: int): (r: seq<T>)
    requires 1 <= n <= |s|
    ensures |r| == |s|
    ensures r[|r| - 1] == s[|s| - n]
    ensures forall j :: 0 <= j < |s| - n ==> r[j] == s[j]
    ensures forall j :: |s| - n <= j < |s| - 1 ==> r[j] == s[j + 1]
  {
    var i := |s| - n;
    s[..i] + s[i + 1..] + [s[i]]
  }

  /** The sequence after Bury(n): the top moves down to depth n of the rest,
      and the others keep their relative order. */
  function Buried<T>(s: seq<T>, n: int): (r: seq<T>)
    requires 1 <= |s| && 0 <= n <= |s| - 1
    ensures |r| == |s|
    ensures r[|s| - 1 - n] == s[|s| - 1]
    ensures forall j :: 0 <= j < |s| - 1 - n ==> r[j] == s[j]
    ensures forall j :: |s| - 1 - n < j < |s| ==> r[j] == s[j - 1]
  {
    var rest := s[..|s| - 1];
    var i := |rest| - n;
    rest[..i] + [s[|s| - 1]] + rest[i..]
  }

  /** Roll(n) neither loses nor duplicates an element. */
  lemma {:induction false} RollPermutes<T>(s: seq<T>, n: int)
    requires 1 <= n <= |s|
    ensures multiset(Rolled(s, n)) == multiset(s)
  {
    MoveToEndPermutes(s, |s| - n);
  }

  /** Bury(n) neither loses nor duplicates an element. */
  lemma {:induction false} BuryPermutes<T>(s: seq<T>, n: int)
    requires 1 <= |s| && 0 <= n <= |s| - 1
    ensures multiset(Buried(s, n)) == multiset(s)
  {
    InsertPermutes(s, |s| - 1 - n);
  }

  lemma {:induction false} MoveToEndPermutes<T>(a: seq<T>, i: int)
    requires 0 <= i < |a|
    ensures multiset(a[..i] + a[i + 1..] + [a[i]]) == multiset(a)
  {
    assert a == a[..i] + [a[i]] + a[i + 1..];
  }

  lemma {:induction false} InsertPermutes<T>(a: seq<T>, i: int)
    requires 0 <= i < |a|
    ensures var rest := a[..|a| - 1];
            multiset(rest[..i] + [a[|a| - 1]] + rest[i..]) == multiset(a)
  {
    var rest := a[..|a| - 1];
    assert a == rest[..i] + rest[i..] + [a[|a| - 1]];
  }

  /** Roll(1) leaves the stack as it was. */
  lemma {:induction false} RollTopIsIdentity<T>(s: seq<T>)
    requires 1 <= |s|
    ensures Rolled(s, 1) == s
  {
    var r := Rolled(s, 1);
    assert forall j :: 0 <= j < |s| ==> r[j] == s[j];
  }

  /** Bury(0) leaves the stack as it was. */
  lemma {:induction false} BuryZeroIsIdentity<T>(s: seq<T>)
    requires 1 <= |s|
    ensures Buried(s, 0) == s
  {
    var r := Buried(s, 0);
    assert forall j :: 0 <= j < |s| ==> r[j] == s[j];
  }

  /** Roll(n) followed by Bury(n - 1) restores the original order. */
  lemma {:induction false} RollThenBuryRestores<T>(s: seq<T>, n: int)
    requires 1 <= n <= |s|
    ensures Buried(Rolled(s, n), n - 1) == s
  {
    var r := Rolled(s, n);
    var b := Buried(r, n - 1);
    forall j | 0 <= j < |s|
      ensures b[j] == s[j]
    {
      if j < |s| - n {
        assert b[j] == r[j] == s[j];
      } else if j == |s| - n {
        assert b[j] == r[|s| - 1] == s[j];
      } else {
        assert b[j] == r[j - 1] == s[j];
      }
    }
  }

  /** Bury(m) followed by Roll(m + 1) restores the original order. */
  lemma {:induction false} BuryThenRollRestores<T>(s: seq<T>, m: int)
    requires 1 <= |s| && 0 <= m <= |s| - 1
    ensures Rolled(Buried(s, m), m + 1) == s
  {
    var b := Buried(s, m);
    var r := Rolled(b, m + 1);
    forall j | 0 <= j < |s|
      ensures r[j] == s[j]
    {
      if j < |s| - 1 - m {
        assert r[j] == b[j] == s[j];
      } else if j < |s| - 1 {
        assert r[j] == b[j + 1] == s[j];
      } else {
        assert r[j] == b[|s| - 1 - m] == s[|s| - 1];
      }
    }
  }

  /**
   * Roll and Bury with the same argument are not inverse: `Roll(n)` moves
   * the element at depth n to the top, and `Bury(n)` then puts it back one
   * place too deep, so on distinct elements the element below it in the
   * result is the one `Roll(n)` took.
   */
  lemma {:induction false} SameArgumentRollThenBuryDoesNotRestore<T>(s: seq<T>, n: int)
    requires 1 <= n <= |s| - 1
    requires forall i, j :: 0 <= i < j < |s| ==> s[i] != s[j]
    ensures Buried(Rolled(s, n), n) != s
  {
    var r := Rolled(s, n);
    var b := Buried(r, n);
    assert b[|s| - 1 - n] == r[|s| - 1] == s[|s| - n];
    assert s[|s| - 1 - n] != s[|s| - n];
  }
}
