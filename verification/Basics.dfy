/** Shared datatypes, and the few facts about remainders that the ring arguments need. */
module Basics {

  datatype Option<+T> = None | Some(value: T)

  datatype Result<+T, +E> = Ok(value: T) | Err(error: E)

  /** `usize::MAX`, the value of a `selected` atomic while no arm has won. */
  const UNSELECTED: nat := 0xFFFF_FFFF_FFFF_FFFF

  /** Zero is the only multiple of `cap` strictly between `-cap` and `cap`. */
  lemma OnlyMultipleIsZero(cap: int, d: int)
    requires 0 < cap
    requires -cap < cap * d < cap
    ensures d == 0
  {
  }

  /** Two tickets that are less than one lap apart use the same slot only if they are equal. */
  lemma SameSlotSameTicket(p: nat, q: nat, cap: nat)
    requires 0 < cap
    requires p % cap == q % cap
    requires p < q + cap && q < p + cap
    ensures p == q
  {
    assert p - q == cap * (p / cap - q / cap);
    OnlyMultipleIsZero(cap, p / cap - q / cap);
  }

  lemma RemainderUnique(x: nat, k: nat, r: nat, cap: nat)
    requires 0 < cap && r < cap
    requires x == cap * k + r
    ensures x % cap == r
  {
    assert x % cap - r == cap * (k - x / cap);
    OnlyMultipleIsZero(cap, k - x / cap);
  }

  /** One lap later a ticket comes back to its slot. */
  lemma NextLap(p: nat, cap: nat)
    requires 0 < cap
    ensures (p + cap) % cap == p % cap
  {
    RemainderUnique(p + cap, p / cap + 1, p % cap, cap);
  }

  /** `retain`: the list without `x`, in the same order. */
  function Without<T(==)>(list: seq<T>, x: T): (r: seq<T>)
    ensures forall y | y in r :: y in list && y != x
    ensures forall y | y in list && y != x :: y in r
    ensures x !in list ==> r == list
  {
    if list == [] then []
    else
      var before := Without(list[..|list| - 1], x);
      if list[|list| - 1] == x then before else before + [list[|list| - 1]]
  }

  lemma {:induction false} WithoutLast<T>(list: seq<T>, x: T, last: T)
    ensures Without(list + [last], x) == if last == x then Without(list, x) else Without(list, x) + [last]
  {
    assert (list + [last])[..|list|] == list;
  }

  // ------------------------------------------------------------------------------------
  // Repeating a step
  // ------------------------------------------------------------------------------------

  function Iterate<S>(f: S -> S, s: S, k: nat): S {
    if k == 0 then s else Iterate(f, f(s), k - 1)
  }

  /** Some number of repetitions of `f` leads from `s` to `r`. */
  ghost predicate Reaches<S>(f: S -> S, s: S, r: S) {
    exists k: nat :: Iterate(f, s, k) == r
  }

  lemma {:induction false} IterateAdd<S>(f: S -> S, s: S, j: nat, k: nat)
    ensures Iterate(f, s, j + k) == Iterate(f, Iterate(f, s, j), k)
    decreases j
  {
    if j != 0 {
      IterateAdd(f, f(s), j - 1, k);
    }
  }

  lemma ReachesSelf<S>(f: S -> S, s: S)
    ensures Reaches(f, s, s)
  {
    assert Iterate(f, s, 0) == s;
  }

  lemma ReachesNext<S>(f: S -> S, s: S, r: S)
    requires Reaches(f, f(s), r)
    ensures Reaches(f, s, r)
  {
    var k: nat :| Iterate(f, f(s), k) == r;
    assert Iterate(f, s, k + 1) == r;
  }

  lemma ReachesThen<S>(f: S -> S, s: S, q: S, r: S)
    requires Reaches(f, s, q) && Reaches(f, q, r)
    ensures Reaches(f, s, r)
  {
    var j: nat :| Iterate(f, s, j) == q;
    var k: nat :| Iterate(f, q, k) == r;
    IterateAdd(f, s, j, k);
  }

  // ------------------------------------------------------------------------------------
  // A state that others change, gap by gap
  // ------------------------------------------------------------------------------------

  /** The place in a list of `total` gaps after `n` more, or the end. */
  function Past(k: nat, n: nat, total: nat): (next: nat)
    requires k <= total
    ensures k <= next <= total && (next == k + n || (next == total && total < k + n))
  {
    if k + n <= total then k + n else total
  }

  /** The states after each number of gaps, from `s` on; `over` says what a gap does. */
  function Trace<S, G>(s: S, gaps: seq<G>, over: (S, G) -> S): (at: seq<S>)
    ensures |at| == |gaps| + 1 && at[0] == s
  {
    if gaps == [] then [s]
    else
      var before := Trace(s, gaps[..|gaps| - 1], over);
      before + [over(before[|gaps| - 1], gaps[|gaps| - 1])]
  }

  ghost predicate GapLeads<S, G>(at: seq<S>, gaps: seq<G>, over: (S, G) -> S, i: nat)
    requires i < |gaps| && i + 1 < |at|
  {
    at[i + 1] == over(at[i], gaps[i])
  }

  ghost predicate Follows<S, G>(at: seq<S>, gaps: seq<G>, over: (S, G) -> S) {
    |at| == |gaps| + 1 && forall i: nat | i < |gaps| :: GapLeads(at, gaps, over, i)
  }

  lemma {:induction false} TraceFollows<S, G>(s: S, gaps: seq<G>, over: (S, G) -> S)
    ensures Follows(Trace(s, gaps, over), gaps, over)
  {
    if gaps != [] {
      var fewer := gaps[..|gaps| - 1];
      TraceFollows(s, fewer, over);
      forall i: nat | i < |gaps| ensures GapLeads(Trace(s, gaps, over), gaps, over, i) {
        if i < |fewer| { assert GapLeads(Trace(s, fewer, over), fewer, over, i); }
      }
    }
  }
}
