/**
 Progress of the ring's retry loops, and what dropping the ring accounts for.
 */
module RingProgress {
  import opened Basics
  import opened Ring
  import opened RingProperties

  // ------------------------------------------------------------------------------------
  // Lock-freedom
  // ------------------------------------------------------------------------------------

  ghost predicate OthersOnly(claims: seq<Tid>, from: nat, to: nat, t: Tid)
    requires to <= |claims|
  {
    forall p: nat | from <= p < to :: claims[p] != t
  }

  /**
   Every loop repetition of thread `t`'s current call is paid for: `since + retries` is at
   most the position that the call works on, and every ticket claimed in between was
   claimed by another thread.
   */
  ghost predicate Paid<V>(s: State<V>, t: Tid)
    requires Shaped(s) && t < |s.pcs|
  {
    match s.pcs[t]
    case PushStart(v) =>
      s.since[t] + s.retries[t] <= s.tail && OthersOnly(s.producer, s.since[t], s.tail, t)
    case PushLoaded(v, pos) =>
      s.since[t] + s.retries[t] <= pos <= s.tail && OthersOnly(s.producer, s.since[t], s.tail, t)
    case PushReady(v, pos) =>
      s.since[t] + s.retries[t] <= pos <= s.tail && OthersOnly(s.producer, s.since[t], s.tail, t)
    case PushClaimed(v, pos) =>
      s.since[t] + s.retries[t] <= pos < s.tail && OthersOnly(s.producer, s.since[t], pos, t)
    case PushWritten(v, pos) =>
      s.since[t] + s.retries[t] <= pos < s.tail && OthersOnly(s.producer, s.since[t], pos, t)
    case PushOk(v, pos) =>
      s.since[t] + s.retries[t] <= pos < s.tail && OthersOnly(s.producer, s.since[t], pos, t)
    case PushErr(v, pos) =>
      s.since[t] + s.retries[t] <= pos <= s.tail && OthersOnly(s.producer, s.since[t], pos, t)
    case PopStart =>
      s.since[t] + s.retries[t] <= s.head && OthersOnly(s.consumer, s.since[t], s.head, t)
    case PopLoaded(pos) =>
      s.since[t] + s.retries[t] <= pos <= s.head && OthersOnly(s.consumer, s.since[t], s.head, t)
    case PopReady(pos) =>
      s.since[t] + s.retries[t] <= pos <= s.head && OthersOnly(s.consumer, s.since[t], s.head, t)
    case PopClaimed(pos) =>
      s.since[t] + s.retries[t] <= pos < s.head && OthersOnly(s.consumer, s.since[t], pos, t)
    case PopRead(pos, v) =>
      s.since[t] + s.retries[t] <= pos < s.head && OthersOnly(s.consumer, s.since[t], pos, t)
    case PopSome(pos, v) =>
      s.since[t] + s.retries[t] <= pos < s.head && OthersOnly(s.consumer, s.since[t], pos, t)
    case PopNone(pos) =>
      s.since[t] + s.retries[t] <= pos <= s.head && OthersOnly(s.consumer, s.since[t], pos, t)
    case _ => true
  }

  /** A repetition that is not a spurious failure means that the loaded position is outdated. */
  lemma RetryMeansOvertaken<V>(s: State<V>, t: Tid)
    requires Inv(s) && t < |s.pcs|
    requires Next(s, Step(t)).retries[t] != s.retries[t]
    ensures s.pcs[t].PushLoaded? || s.pcs[t].PushReady? || s.pcs[t].PopLoaded? || s.pcs[t].PopReady?
    ensures s.pcs[t].PushLoaded? || s.pcs[t].PushReady? ==> s.pcs[t].pos < s.tail
    ensures s.pcs[t].PopLoaded? || s.pcs[t].PopReady? ==> s.pcs[t].pos < s.head
    ensures Next(s, Step(t)).retries[t] == s.retries[t] + 1
  {
    assert ThreadOk(s, t);
    match s.pcs[t]
    case PushLoaded(_, pos) => PassedSlot(s, pos);
    case PopLoaded(pos) => HeadSequence(s);
    case _ =>
  }

  lemma PaidByPushStep<V>(s: State<V>, t: Tid)
    requires Inv(s) && t < |s.pcs| && Paid(s, t)
    ensures Paid(PushStep(s, t), t)
  {
    var r := PushStep(s, t);
    match s.pcs[t]
    case PushLoaded(_, pos) => PassedSlot(s, pos);
    case PushReady(_, pos) =>
      assert forall p: nat | p < s.tail :: r.producer[p] == s.producer[p];
    case _ =>
  }

  lemma PaidByPopStep<V>(s: State<V>, t: Tid)
    requires Inv(s) && t < |s.pcs| && Paid(s, t)
    ensures Paid(PopStep(s, t), t)
  {
    var r := PopStep(s, t);
    match s.pcs[t]
    case PopLoaded(pos) => HeadSequence(s);
    case PopReady(pos) =>
      assert forall p: nat | p < s.head :: r.consumer[p] == s.consumer[p];
    case _ =>
  }

  lemma PaidByOwnStep<V>(s: State<V>, a: Action<V>)
    requires Inv(s) && a.tid < |s.pcs| && Paid(s, a.tid)
    ensures Paid(Next(s, a), a.tid)
  {
    match a
    case Step(t) => PaidByPushStep(s, t); PaidByPopStep(s, t);
    case _ =>
  }

  /** What thread `u` sees of the claims that another thread's step makes. */
  ghost predicate OnlyClaims<V>(s: State<V>, r: State<V>, t: Tid, u: Tid)
    requires Shaped(s) && Shaped(r) && u < |s.pcs| == |r.pcs|
  {
    && r.pcs[u] == s.pcs[u] && r.since[u] == s.since[u] && r.retries[u] == s.retries[u]
    && s.tail <= r.tail && s.head <= r.head
    && (r.producer == s.producer || r.producer == s.producer + [t])
    && (r.consumer == s.consumer || r.consumer == s.consumer + [t])
  }

  lemma OthersOnlyPush<V>(s: State<V>, t: Tid, u: Tid)
    requires Shaped(s) && 0 < s.cap && t < |s.pcs| && u < |s.pcs| && t != u
    ensures OnlyClaims(s, PushStep(s, t), t, u)
  {
  }

  lemma OthersOnlyPop<V>(s: State<V>, t: Tid, u: Tid)
    requires Shaped(s) && 0 < s.cap && t < |s.pcs| && u < |s.pcs| && t != u
    ensures OnlyClaims(s, PopStep(s, t), t, u)
  {
  }

  lemma OthersOnlyClaim<V>(s: State<V>, a: Action<V>, u: Tid)
    requires Shaped(s) && u < |s.pcs| && a.tid != u
    ensures OnlyClaims(s, Next(s, a), a.tid, u)
  {
    if a.Step? && a.tid < |s.pcs| && 0 < s.cap {
      OthersOnlyPush(s, a.tid, u);
      OthersOnlyPop(s, a.tid, u);
    }
  }

  lemma PaidByOthers<V>(s: State<V>, a: Action<V>, u: Tid)
    requires Inv(s) && u < |s.pcs| && a.tid != u && Paid(s, u)
    ensures Paid(Next(s, a), u)
  {
    OthersOnlyClaim(s, a, u);
  }

  /**
   Lock-freedom, over every interleaving: the repetitions of a call, spurious
   compare-exchange failures aside, never outnumber the tickets that other threads claimed
   since the call began.
   */
  lemma {:induction false} RetriesArePaidFor<V>(cap: nat, threads: nat, schedule: seq<Action<V>>, t: Tid)
    requires 2 <= cap && t < threads
    ensures Paid(Exec(Init<V>(cap, threads), schedule), t)
    decreases |schedule|
  {
    if schedule != [] {
      var earlier := schedule[..|schedule| - 1];
      var a := schedule[|schedule| - 1];
      RetriesArePaidFor(cap, threads, earlier, t);
      ReachableInv(cap, threads, earlier);
      if a.tid == t {
        PaidByOwnStep(Exec(Init<V>(cap, threads), earlier), a);
      } else {
        PaidByOthers(Exec(Init<V>(cap, threads), earlier), a, t);
      }
    }
  }

  /** How many more steps a call needs at most if nobody else moves. */
  function Effort<V>(s: State<V>, t: Tid): (steps: nat)
    requires t < |s.pcs|
    ensures steps == 0 <==> AtRest(s.pcs[t])
    ensures steps <= 7
  {
    match s.pcs[t]
    case PushStart(v) => 5
    case PushLoaded(v, pos) => if pos == s.tail then 4 else 7
    case PushReady(v, pos) => if pos == s.tail then 3 else 6
    case PushClaimed(v, pos) => 2
    case PushWritten(v, pos) => 1
    case PopStart => 5
    case PopLoaded(pos) => if pos == s.head then 4 else 7
    case PopReady(pos) => if pos == s.head then 3 else 6
    case PopClaimed(pos) => 2
    case PopRead(pos, v) => 1
    case _ => 0
  }

  lemma StepReducesEffort<V>(s: State<V>, t: Tid)
    requires Inv(s) && t < |s.pcs|
    ensures Effort(s, t) == 0 ==> Effort(Next(s, Step(t)), t) == 0
    ensures Effort(s, t) > 0 ==> Effort(Next(s, Step(t)), t) < Effort(s, t)
  {
    assert ThreadOk(s, t);
    match s.pcs[t]
    case PushLoaded(_, pos) => PassedSlot(s, pos);
    case PopLoaded(pos) => HeadSequence(s);
    case PopClaimed(pos) => OwnerFinds(s, t);
    case _ =>
  }

  lemma EffortAfter<V>(s: State<V>, r: State<V>, t: Tid)
    requires Inv(s) && t < |s.pcs| && r == Next(s, Step(t))
    ensures Inv(r) && Effort(r, t) <= if Effort(s, t) == 0 then 0 else Effort(s, t) - 1
  {
    StepInv(s, Step(t));
    StepReducesEffort(s, t);
  }

  lemma {:induction false} AloneReducesEffort<V>(s: State<V>, t: Tid, k: nat)
    requires Inv(s) && t < |s.pcs|
    ensures Inv(Alone(s, t, k))
    ensures Effort(Alone(s, t, k), t) <= if k < Effort(s, t) then Effort(s, t) - k else 0
    ensures 7 <= k ==> AtRest(Alone(s, t, k).pcs[t])
  {
    if k > 0 {
      AloneReducesEffort(s, t, k - 1);
      EffortAfter(Alone(s, t, k - 1), Alone(s, t, k), t);
    }
  }

  /** From any reachable state, a call that nobody disturbs has finished after seven steps. */
  lemma UndisturbedCallTerminates<V>(cap: nat, threads: nat, schedule: seq<Action<V>>, t: Tid, k: nat)
    requires 2 <= cap && t < threads && 7 <= k
    ensures AtRest(Alone(Exec(Init<V>(cap, threads), schedule), t, k).pcs[t])
  {
    ReachableInv(cap, threads, schedule);
    AloneReducesEffort(Exec(Init<V>(cap, threads), schedule), t, k);
  }

  // ------------------------------------------------------------------------------------
  // Conservation
  // ------------------------------------------------------------------------------------

  /** No thread is inside an operation. */
  ghost predicate Quiet<V>(s: State<V>) {
    forall t: nat | t < |s.pcs| :: AtRest(s.pcs[t])
  }

  /** The values that `Drop` destroys when its loop runs over the positions `lo..hi`. */
  function Dropped<V>(slots: seq<Slot<V>>, lo: nat, hi: nat): seq<V>
    requires 0 < |slots| && lo <= hi
    decreases hi - lo
  {
    if lo == hi then []
    else
      var slot := slots[(hi - 1) % |slots|];
      if slot.sequence == hi && slot.value.Full?
      then Dropped(slots, lo, hi - 1) + [slot.value.val]
      else Dropped(slots, lo, hi - 1)
  }

  lemma {:induction false} DropsTheTail<V>(s: State<V>, hi: nat)
    requires Inv(s) && Quiet(s) && s.head <= hi <= s.tail
    ensures Dropped(s.slots, s.head, hi) == s.log[s.head..hi]
    decreases hi
  {
    if s.head != hi {
      DropsTheTail(s, hi - 1);
      NextLap(hi - 1, s.cap);
      assert SlotOk(s, hi - 1 + s.cap);
    }
  }

  lemma QuietAccounts<V>(s: State<V>)
    requires Inv(s) && Quiet(s)
    ensures Dropped(s.slots, s.head, s.tail) == Items(s)
    ensures Popped(s.taken) + Items(s) == s.log
  {
    ReadsFollowTheLog(s);
    DropsTheTail(s, s.tail);
    assert s.log[..s.head] + s.log[s.head..s.tail] == s.log;
  }

  /**
   When no thread is inside an operation, `Drop` destroys exactly the pushed and unpopped
   values, in order; every accepted value has been popped or is dropped, exactly once.
   */
  lemma DropAccountsForEveryValue<V>(cap: nat, threads: nat, schedule: seq<Action<V>>)
    requires 2 <= cap
    requires Quiet(Exec(Init<V>(cap, threads), schedule))
    ensures var s := Exec(Init<V>(cap, threads), schedule);
            && s.head <= s.tail
            && Popped(s.taken) + Dropped(s.slots, s.head, s.tail) == s.log
            && multiset(s.log) == multiset(Popped(s.taken)) + multiset(Dropped(s.slots, s.head, s.tail))
  {
    ReachableInv(cap, threads, schedule);
    QuietAccounts(Exec(Init<V>(cap, threads), schedule));
  }
}
