/**
 The try phase of `select_impl`, its fairness counter, and the dispatch of the `select!` macro.
 */
module Select {
  import opened Basics

  /** The arm that is `i` places after `start`. */
  function Arm(start: nat, i: nat, n: nat): (arm: nat)
    requires 0 < n
    ensures arm < n
  {
    (start + i) % n
  }

  /** Where the arm `k` places after `start` is, without division. */
  lemma ArmAt(start: nat, k: nat, n: nat)
    requires k < n
    ensures Arm(start, k, n) == if start % n + k < n then start % n + k else start % n + k - n
  {
    var q, r := start / n, start % n;
    assert start == n * q + r;
    if r + k < n {
      RemainderUnique(start + k, q, r + k, n);
    } else {
      assert n * (q + 1) == n * q + n;
      RemainderUnique(start + k, q + 1, r + k - n, n);
    }
  }

  /** Every arm is at exactly one distance below `n` from `start`. */
  lemma ArmIsReached(start: nat, arm: nat, n: nat) returns (i: nat)
    requires arm < n
    ensures i < n && Arm(start, i, n) == arm
    ensures forall k: nat | k < n && Arm(start, k, n) == arm :: k == i
  {
    var r := start % n;
    i := if r <= arm then arm - r else arm - r + n;
    forall k: nat | k < n ensures Arm(start, k, n) == (if r + k < n then r + k else r + k - n) {
      ArmAt(start, k, n);
    }
  }

  /** No arm less than `i` places after `start` is ready. `ready[arm]` is what the arm answers when asked. */
  predicate NoneBefore(ready: seq<bool>, start: nat, i: nat) {
    forall k | 0 <= k < i && k < |ready| :: !ready[Arm(start, k, |ready|)]
  }

  /** Arm `arm` is ready, and no arm that comes earlier in cyclic order from `start` is. */
  predicate FirstReady(ready: seq<bool>, start: nat, arm: nat) {
    && arm < |ready|
    && ready[arm]
    && exists i | 0 <= i < |ready| :: Arm(start, i, |ready|) == arm && NoneBefore(ready, start, i)
  }

  /** At most one arm is the first. */
  lemma FirstReadyUnique(ready: seq<bool>, start: nat, a: nat, b: nat)
    requires FirstReady(ready, start, a) && FirstReady(ready, start, b)
    ensures a == b
  {
    var n := |ready|;
    var i :| 0 <= i < n && Arm(start, i, n) == a && NoneBefore(ready, start, i);
    var k :| 0 <= k < n && Arm(start, k, n) == b && NoneBefore(ready, start, k);
  }

  /** Writing down the answer of the next arm changes nothing about the ones before it. */
  lemma HeardOneMore(ready: seq<bool>, start: nat, i: nat, answer: bool)
    requires i < |ready| && NoneBefore(ready, start, i)
    ensures var heard := ready[Arm(start, i, |ready|) := answer];
            && NoneBefore(heard, start, i)
            && (answer ==> FirstReady(heard, start, Arm(start, i, |ready|)))
            && (!answer ==> NoneBefore(heard, start, i + 1))
  {
    var place := ArmIsReached(start, Arm(start, i, |ready|), |ready|);
    assert place == i;
  }

  lemma NobodyReady(ready: seq<bool>, start: nat)
    requires 0 < |ready| && NoneBefore(ready, start, |ready|)
    ensures forall arm: nat | arm < |ready| :: !ready[arm]
  {
    forall arm: nat | arm < |ready| ensures !ready[arm] {
      var place := ArmIsReached(start, arm, |ready|);
    }
  }

  /** The process-wide `FAIRNESS_CTR`. */
  class FairnessCounter {
    var next: nat

    constructor ()
      ensures next == 0
    {
      next := 0;
    }

    method FetchAdd() returns (before: nat)
      modifies this
      ensures before == old(next) && next == old(next) + 1
    {
      before := next;
      next := next + 1;
    }
  }

  /**
   One sweep of the try phase over `n` arms. It asks the arms in cyclic order from the
   counter, each at most once, and stops at the first that is ready; if none is, it has
   asked every one of them.
   */
  method TryPhase(counter: FairnessCounter, ready: seq<bool>) returns (won: Option<nat>, asked: seq<nat>)
    requires 0 < |ready|
    modifies counter
    ensures counter.next == old(counter.next) + 1
    ensures |asked| <= |ready|
    ensures forall k: nat | k < |asked| :: asked[k] == Arm(old(counter.next), k, |ready|)
    ensures forall k: nat, l: nat | k < l < |asked| :: asked[k] != asked[l]
    ensures won.Some? ==>
              && FirstReady(ready, old(counter.next), won.value)
              && asked != [] && asked[|asked| - 1] == won.value
    ensures won.None? ==> forall arm: nat | arm < |ready| :: !ready[arm] && arm in asked
  {
    var n := |ready|;
    var before := counter.FetchAdd();
    var start := before % n;
    asked := [];
    for i := 0 to n
      invariant counter.next == before + 1
      invariant Asked(asked, before, i, n)
      invariant NoneBefore(ready, before, i)
    {
      var arm := (start + i) % n;
      SameArm(before, i, n);
      asked := asked + [arm];
      AskedOnce(asked, before, i + 1, n);
      if ready[arm] {
        return Some(arm), asked;
      }
    }
    AskedOnce(asked, before, n, n);
    AllAsked(ready, asked, before);
    won := None;
  }

  /** The first `i` arms in cyclic order have been asked, in that order. */
  ghost predicate Asked(asked: seq<nat>, start: nat, i: nat, n: nat)
    requires 0 < n
  {
    |asked| == i && forall k: nat | k < i :: asked[k] == Arm(start, k, n)
  }

  lemma AskedOnce(asked: seq<nat>, start: nat, i: nat, n: nat)
    requires 0 < n && i <= n && Asked(asked, start, i, n)
    ensures forall k: nat, l: nat | k < l < i :: asked[k] != asked[l]
  {
    forall k: nat, l: nat | k < l < i ensures asked[k] != asked[l] {
      var place := ArmIsReached(start, asked[k], n);
    }
  }

  /** A sweep that finds nothing has asked every arm, and none was ready. */
  lemma AllAsked(ready: seq<bool>, asked: seq<nat>, start: nat)
    requires 0 < |ready| && Asked(asked, start, |ready|, |ready|) && NoneBefore(ready, start, |ready|)
    ensures forall arm: nat | arm < |ready| :: !ready[arm] && arm in asked
  {
    forall arm: nat | arm < |ready| ensures !ready[arm] && arm in asked {
      var place := ArmIsReached(start, arm, |ready|);
      assert asked[place] == arm;
    }
  }

  /** Reducing the counter first does not change the arm. */
  lemma SameArm(before: nat, i: nat, n: nat)
    requires 0 < n
    ensures (before % n + i) % n == Arm(before, i, n)
  {
    var p, q, r := before / n, (before % n + i) / n, (before % n + i) % n;
    assert before == n * p + before % n;
    assert before % n + i == n * q + r;
    assert n * (p + q) == n * p + n * q;
    RemainderUnique(before + i, p + q, r, n);
  }

  /** A ready arm at the very start of a sweep is the answer. */
  lemma StartWins(ready: seq<bool>, start: nat, won: nat)
    requires 0 < |ready| && ready[Arm(start, 0, |ready|)] && FirstReady(ready, start, won)
    ensures won == Arm(start, 0, |ready|)
  {
    assert NoneBefore(ready, start, 0);
    FirstReadyUnique(ready, start, won, Arm(start, 0, |ready|));
  }

  lemma AnswerAt(first: nat, ready: seq<bool>, d: nat, won: nat)
    requires 0 < |ready| && ready[Arm(first, d, |ready|)] && FirstReady(ready, first + d, won)
    ensures won == Arm(first, d, |ready|)
  {
    assert Arm(first + d, 0, |ready|) == Arm(first, d, |ready|);
    StartWins(ready, first + d, won);
  }

  /**
   Bounded starvation. Call `c` finds the counter at `first + c` and the arms as `ready[c]`.
   In any `n` consecutive calls, an arm that stays ready is the answer of one of them; and
   every one of these calls answers in its first sweep, so that the counter does advance by
   one a call.
   */
  lemma BoundedStarvation(first: nat, ready: seq<seq<bool>>, won: seq<nat>, arm: nat)
    requires |won| == |ready|
    requires arm < |ready| && StaysReady(ready, arm)
    requires forall c: nat | c < |ready| :: FirstReady(ready[c], first + c, won[c])
    ensures arm in won
  {
    var n := |ready|;
    var c := ArmIsReached(first, arm, n);
    assert Arm(first + c, 0, n) == arm;
    StartWins(ready[c], first + c, won[c]);
    assert won[c] == arm;
  }

  /** A sweep in which some arm is ready always has an answer. */
  lemma {:induction false} SomeReadyIsFound(ready: seq<bool>, start: nat, i: nat) returns (won: nat)
    requires i < |ready| && ready[Arm(start, i, |ready|)]
    ensures FirstReady(ready, start, won)
    decreases i
  {
    if k: nat :| k < i && ready[Arm(start, k, |ready|)] {
      won := SomeReadyIsFound(ready, start, k);
    } else {
      won := Arm(start, i, |ready|);
      assert NoneBefore(ready, start, i);
    }
  }

  /** With all arms always ready, `n` consecutive calls answer with every arm exactly once: round robin. */
  lemma RoundRobin(first: nat, ready: seq<seq<bool>>, won: seq<nat>, arm: nat)
    requires |won| == |ready|
    requires arm < |ready| && AllReady(ready)
    requires forall c: nat | c < |ready| :: FirstReady(ready[c], first + c, won[c])
    ensures ExactlyOnce(won, arm)
  {
    forall d: nat | d < |won| ensures won[d] == Arm(first, d, |won|) {
      assert ready[d][Arm(first, d, |ready|)] in ready[d];
      AnswerAt(first, ready[d], d, won[d]);
    }
    InTurn(first, won, arm);
  }

  lemma InTurn(first: nat, won: seq<nat>, arm: nat)
    requires arm < |won| && forall d: nat | d < |won| :: won[d] == Arm(first, d, |won|)
    ensures ExactlyOnce(won, arm)
  {
    var c := ArmIsReached(first, arm, |won|);
    assert won[c] == arm;
  }

  /**
   Calls one after the other, which find the arms as `ready` says and always find one. Each
   advances the counter by one, and with as many calls as there are arms, an arm that stays
   ready is among the answers.
   */
  method Calls(counter: FairnessCounter, ready: seq<seq<bool>>) returns (won: seq<nat>)
    requires forall c: nat | c < |ready| :: true in ready[c]
    modifies counter
    ensures counter.next == old(counter.next) + |ready| && |won| == |ready|
    ensures forall c: nat | c < |ready| :: FirstReady(ready[c], old(counter.next) + c, won[c])
    ensures forall arm: nat | arm < |ready| && StaysReady(ready, arm) :: arm in won
    ensures AllReady(ready) ==> forall arm: nat | arm < |ready| :: ExactlyOnce(won, arm)
  {
    won := [];
    for c := 0 to |ready|
      invariant counter.next == old(counter.next) + c && |won| == c
      invariant forall d: nat | d < c :: FirstReady(ready[d], old(counter.next) + d, won[d])
    {
      ghost var some: nat :| some < |ready[c]| && ready[c][some];
      var answer, asked := TryPhase(counter, ready[c]);
      won := won + [answer.value];
    }
    forall arm: nat | arm < |ready| && StaysReady(ready, arm) ensures arm in won {
      BoundedStarvation(old(counter.next), ready, won, arm);
    }
    if AllReady(ready) {
      forall arm: nat | arm < |ready| ensures ExactlyOnce(won, arm) {
        RoundRobin(old(counter.next), ready, won, arm);
      }
    }
  }

  /** There are as many calls as arms, and every arm is ready at each of them. */
  ghost predicate AllReady(ready: seq<seq<bool>>) {
    forall c: nat | c < |ready| :: |ready[c]| == |ready| && false !in ready[c]
  }

  /** One of the answers, and only one, is arm `arm`. */
  ghost predicate ExactlyOnce(won: seq<nat>, arm: nat) {
    exists c: nat :: c < |won| && won[c] == arm && forall d: nat | d < |won| && won[d] == arm :: d == c
  }

  /** There are as many calls as arms, and arm `arm` is ready at each of them. */
  predicate StaysReady(ready: seq<seq<bool>>, arm: nat) {
    forall c: nat | c < |ready| :: arm < |ready[c]| == |ready| && ready[c][arm]
  }

  /**
   The `@arm_new` rules of the macro, for arm `k` and the arms after it: run the body of the
   arm whose number is the answer, or reach the `unreachable!` after the last one.
   */
  function Dispatch(index: nat, k: nat, arms: nat): Option<nat>
    requires k < arms
    decreases arms - k
  {
    if index == k then Some(k)
    else if k + 1 < arms then Dispatch(index, k + 1, arms)
    else None
  }

  /** The dispatch from arm zero runs the body of the winning arm, exactly if there is such an arm. */
  lemma {:induction false} DispatchRunsTheWinner(index: nat, k: nat, arms: nat)
    requires k < arms
    ensures Dispatch(index, k, arms) == if k <= index < arms then Some(index) else None
    decreases arms - k
  {
    if index != k && k + 1 < arms {
      DispatchRunsTheWinner(index, k + 1, arms);
    }
  }
}
