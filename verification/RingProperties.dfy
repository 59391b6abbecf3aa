/**
 What the ring promises, stated over all reachable states `Exec(Init(cap, threads), schedule)`:
 it is a linearizable bounded queue, a slot never has two owners, refusals are justified,
 it is lock-free, and dropping it accounts for every value.
 */
module RingProperties {
  import opened Basics
  import opened Ring

  // ------------------------------------------------------------------------------------
  // Refinement of a bounded queue
  // ------------------------------------------------------------------------------------

  /** The queue that the ring stands for: the claimed tickets that no consumer has claimed. */
  ghost function Items<V>(s: State<V>): seq<V>
    requires Shaped(s)
  {
    if s.head <= s.tail then s.log[s.head..s.tail] else []
  }

  ghost predicate Enqueues<V>(s: State<V>, r: State<V>, t: Tid)
    requires t < |s.pcs| == |r.pcs|
  {
    !s.pcs[t].PushClaimed? && r.pcs[t].PushClaimed?
  }

  ghost predicate Dequeues<V>(s: State<V>, r: State<V>, t: Tid)
    requires t < |s.pcs| == |r.pcs|
  {
    !s.pcs[t].PopClaimed? && r.pcs[t].PopClaimed?
  }

  /** What one step does to the queue. */
  ghost predicate QueueStep<V>(s: State<V>, r: State<V>, t: Tid)
    requires Shaped(s) && Shaped(r) && t < |s.pcs| == |r.pcs|
  {
    && s.head <= s.tail && r.head <= r.tail
    && (Enqueues(s, r, t) ==> |Items(s)| < s.cap && Items(r) == Items(s) + [r.pcs[t].v])
    && (Dequeues(s, r, t) ==>
          && 0 < |Items(s)|
          && Items(r) == Items(s)[1..]
          && r.log[r.pcs[t].pos] == Items(s)[0])
    && (!Enqueues(s, r, t) && !Dequeues(s, r, t) ==> Items(r) == Items(s))
  }

  lemma EnqueueStep<V>(s: State<V>, t: Tid)
    requires Inv(s) && t < |s.pcs| && s.pcs[t].PushReady? && s.tail == s.pcs[t].pos
    ensures QueueStep(s, PushStep(s, t), t)
  {
    assert ThreadOk(s, t) && SlotOk(s, s.tail);
    assert Items(PushStep(s, t)) == Items(s) + [s.pcs[t].v];
  }

  lemma DequeueStep<V>(s: State<V>, t: Tid)
    requires Inv(s) && t < |s.pcs| && s.pcs[t].PopReady? && s.head == s.pcs[t].pos
    ensures QueueStep(s, PopStep(s, t), t)
  {
    assert ThreadOk(s, t);
    HeadSlot(s);
    assert Items(PopStep(s, t)) == Items(s)[1..];
  }

  lemma StepOnQueue<V>(s: State<V>, a: Action<V>)
    requires Inv(s) && a.tid < |s.pcs|
    ensures QueueStep(s, Next(s, a), a.tid)
  {
    var t := a.tid;
    var r := Next(s, a);
    if a.Step? && s.pcs[t].PushReady? && s.tail == s.pcs[t].pos {
      EnqueueStep(s, t);
    } else if a.Step? && s.pcs[t].PopReady? && s.head == s.pcs[t].pos {
      DequeueStep(s, t);
    } else {
      assert r.head == s.head && r.tail == s.tail && r.log == s.log;
    }
  }

  /**
   Each action is one operation of a bounded FIFO queue or leaves the queue alone: a push
   takes effect when its compare-exchange on `tail` succeeds, and only if there is room; a
   pop takes effect when its compare-exchange on `head` succeeds, on the front item.
   */
  lemma RefinesBoundedQueue<V>(cap: nat, threads: nat, schedule: seq<Action<V>>, a: Action<V>)
    requires 2 <= cap && a.tid < threads
    ensures QueueStep(Exec(Init<V>(cap, threads), schedule),
                      Exec(Init<V>(cap, threads), schedule + [a]), a.tid)
  {
    assert (schedule + [a])[..|schedule|] == schedule;
    ReachableInv(cap, threads, schedule);
    StepOnQueue(Exec(Init<V>(cap, threads), schedule), a);
  }

  lemma LogGrowsByStep<V>(s: State<V>, a: Action<V>)
    requires Shaped(s)
    ensures s.log <= Next(s, a).log
  {
  }

  /** The history of claimed tickets only grows, so a ticket's value is fixed once and for all. */
  lemma {:induction false} LogGrows<V>(s: State<V>, schedule: seq<Action<V>>)
    requires Shaped(s)
    ensures s.log <= Exec(s, schedule).log
    decreases |schedule|
  {
    if schedule != [] {
      LogGrows(s, schedule[..|schedule| - 1]);
      LogGrowsByStep(Exec(s, schedule[..|schedule| - 1]), schedule[|schedule| - 1]);
    }
  }

  lemma FinishedCall<V>(s: State<V>, t: Tid)
    requires Inv(s) && t < |s.pcs|
    ensures s.pcs[t].PushOk? || s.pcs[t].PopSome? ==>
              s.pcs[t].pos < |s.log| && s.log[s.pcs[t].pos] == s.pcs[t].v
    ensures s.pcs[t].PushOk? ==> s.producer[s.pcs[t].pos] == t
    ensures s.pcs[t].PopSome? ==> s.pcs[t].pos < s.head && s.consumer[s.pcs[t].pos] == t
  {
    assert ThreadOk(s, t);
    if s.pcs[t].PopSome? {
      assert TakenOk(s, s.pcs[t].pos);
    }
  }

  /**
   The pop that claims ticket `p` returns exactly the value of the push that claimed `p`:
   a finished push of `v` at ticket `p` has put `v` in the history at `p`, and a finished
   pop at ticket `p` returns the history's value at `p`. Tickets are never shared.
   */
  lemma PopReturnsThePushedValue<V>(cap: nat, threads: nat, schedule: seq<Action<V>>, t: Tid, u: Tid)
    requires 2 <= cap && t < threads && u < threads
    ensures var s := Exec(Init<V>(cap, threads), schedule);
            && (s.pcs[t].PushOk? ==> s.pcs[t].pos < |s.log| && s.log[s.pcs[t].pos] == s.pcs[t].v)
            && (s.pcs[t].PopSome? ==> s.pcs[t].pos < |s.log| && s.log[s.pcs[t].pos] == s.pcs[t].v)
            && (t != u && s.pcs[t].PushOk? && s.pcs[u].PushOk? ==> s.pcs[t].pos != s.pcs[u].pos)
            && (t != u && s.pcs[t].PopSome? && s.pcs[u].PopSome? ==> s.pcs[t].pos != s.pcs[u].pos)
  {
    ReachableInv(cap, threads, schedule);
    FinishedCall(Exec(Init<V>(cap, threads), schedule), t);
    FinishedCall(Exec(Init<V>(cap, threads), schedule), u);
  }

  /** No thread is inside, or about to return from, a push at ticket `p`, and none can get there. */
  ghost predicate PushSpent<V>(s: State<V>, p: nat) {
    p < s.tail && forall u: nat | u < |s.pcs| :: PushesAt(s.pcs[u]) ==> s.pcs[u].pos != p
  }

  predicate PushesAt<V>(pc: Pc<V>) {
    pc.PushClaimed? || pc.PushWritten? || pc.PushOk?
  }

  ghost predicate PopSpent<V>(s: State<V>, p: nat) {
    p < s.head && forall u: nat | u < |s.pcs| :: PopsAt(s.pcs[u]) ==> s.pcs[u].pos != p
  }

  predicate PopsAt<V>(pc: Pc<V>) {
    pc.PopClaimed? || pc.PopRead? || pc.PopSome?
  }

  /** From `before` to `after`, a thread comes to a ticket only by claiming the next one. */
  ghost predicate FreshTicket<V>(before: Pc<V>, after: Pc<V>, tail: nat, head: nat) {
    && (PushesAt(after) ==> (PushesAt(before) && before.pos == after.pos) || after.pos == tail)
    && (PopsAt(after) ==> (PopsAt(before) && before.pos == after.pos) || after.pos == head)
  }

  lemma FreshByPush<V>(s: State<V>, t: Tid)
    requires Shaped(s) && 0 < s.cap && t < |s.pcs|
    ensures FreshTicket(s.pcs[t], PushStep(s, t).pcs[t], s.tail, s.head)
  {
  }

  lemma FreshByPop<V>(s: State<V>, t: Tid)
    requires Shaped(s) && 0 < s.cap && t < |s.pcs|
    ensures FreshTicket(s.pcs[t], PopStep(s, t).pcs[t], s.tail, s.head)
  {
  }

  lemma OthersStand<V>(s: State<V>, a: Action<V>, u: Tid)
    requires Shaped(s) && u < |s.pcs| && a.tid != u
    ensures Next(s, a).pcs[u] == s.pcs[u]
  {
  }

  lemma OnlyFreshTickets<V>(s: State<V>, a: Action<V>, u: Tid)
    requires Shaped(s) && u < |s.pcs|
    ensures FreshTicket(s.pcs[u], Next(s, a).pcs[u], s.tail, s.head)
  {
    if a.tid != u {
      OthersStand(s, a, u);
    } else if a.Step? && 0 < s.cap {
      FreshByPush(s, u);
      FreshByPop(s, u);
    }
  }

  lemma CursorsStay<V>(s: State<V>, a: Action<V>)
    requires Shaped(s)
    ensures s.tail <= Next(s, a).tail && s.head <= Next(s, a).head
  {
  }

  lemma SpentStep<V>(s: State<V>, r: State<V>, a: Action<V>, p: nat)
    requires Shaped(s) && r == Next(s, a)
    ensures PushSpent(s, p) ==> PushSpent(r, p)
    ensures PopSpent(s, p) ==> PopSpent(r, p)
  {
    CursorsStay(s, a);
    forall u: nat | u < |r.pcs|
      ensures PushSpent(s, p) && PushesAt(r.pcs[u]) ==> r.pcs[u].pos != p
      ensures PopSpent(s, p) && PopsAt(r.pcs[u]) ==> r.pcs[u].pos != p
    {
      OnlyFreshTickets(s, a, u);
    }
  }

  lemma {:induction false} SpentStays<V>(s: State<V>, more: seq<Action<V>>, p: nat)
    requires Shaped(s)
    ensures PushSpent(s, p) ==> PushSpent(Exec(s, more), p)
    ensures PopSpent(s, p) ==> PopSpent(Exec(s, more), p)
    decreases |more|
  {
    if more != [] {
      SpentStays(s, more[..|more| - 1], p);
      SpentStep(Exec(s, more[..|more| - 1]), Exec(s, more), more[|more| - 1], p);
    }
  }

  lemma ReturningSpends<V>(s: State<V>, t: Tid)
    requires Inv(s) && t < |s.pcs| && (s.pcs[t].PushOk? || s.pcs[t].PopSome?)
    ensures s.pcs[t].PushOk? ==> PushSpent(Next(s, Return(t)), s.pcs[t].pos)
    ensures s.pcs[t].PopSome? ==> PopSpent(Next(s, Return(t)), s.pcs[t].pos)
  {
    var r := Next(s, Return(t));
    assert ThreadOk(s, t);
    forall u: nat | u < |r.pcs|
      ensures s.pcs[t].PushOk? && PushesAt(r.pcs[u]) ==> r.pcs[u].pos != s.pcs[t].pos
      ensures s.pcs[t].PopSome? && PopsAt(r.pcs[u]) ==> r.pcs[u].pos != s.pcs[t].pos
    {
      assert ThreadOk(s, u);
    }
  }

  /**
   A ticket is never used again. Once a push (a pop) at a ticket has returned, no call of
   any thread is ever again at that ticket, in any continuation of the run.
   */
  lemma TicketsAreNeverReused<V>(
      cap: nat, threads: nat, schedule: seq<Action<V>>, t: Tid, more: seq<Action<V>>, u: Tid)
    requires 2 <= cap && t < threads && u < threads
    requires var pc := Exec(Init<V>(cap, threads), schedule).pcs[t]; pc.PushOk? || pc.PopSome?
    ensures var s := Exec(Init<V>(cap, threads), schedule);
            var r := Exec(Next(s, Return(t)), more);
            && (s.pcs[t].PushOk? && PushesAt(r.pcs[u]) ==> r.pcs[u].pos != s.pcs[t].pos)
            && (s.pcs[t].PopSome? && PopsAt(r.pcs[u]) ==> r.pcs[u].pos != s.pcs[t].pos)
  {
    var s := Exec(Init<V>(cap, threads), schedule);
    ReachableInv(cap, threads, schedule);
    ReturningSpends(s, t);
    SpentStays(Next(s, Return(t)), more, s.pcs[t].pos);
  }

  /** The values moved out so far, in ticket order. */
  function Popped<V>(taken: seq<Option<V>>): seq<V> {
    if taken == [] then []
    else
      var rest := Popped(taken[..|taken| - 1]);
      var last := taken[|taken| - 1];
      if last.Some? then rest + [last.value] else rest
  }

  lemma {:induction false} PoppedAll<V>(taken: seq<Option<V>>, log: seq<V>)
    requires |taken| <= |log|
    requires forall i | 0 <= i < |taken| :: taken[i] == Some(log[i])
    ensures Popped(taken) == log[..|taken|]
    decreases |taken|
  {
    if taken != [] {
      PoppedAll(taken[..|taken| - 1], log);
    }
  }

  ghost predicate NoReadPending<V>(s: State<V>) {
    forall t: nat | t < |s.pcs| :: !s.pcs[t].PopClaimed?
  }

  lemma ReadsFollowTheLog<V>(s: State<V>)
    requires Inv(s) && NoReadPending(s)
    ensures Popped(s.taken) == s.log[..s.head]
  {
    forall c: nat | c < s.head ensures s.taken[c] == Some(s.log[c]) {
      assert TakenOk(s, c);
    }
    PoppedAll(s.taken, s.log);
  }

  /** FIFO: successful pops in ticket order are a prefix of the accepted pushes in ticket order. */
  lemma PopsAreAPrefixOfPushes<V>(cap: nat, threads: nat, schedule: seq<Action<V>>)
    requires 2 <= cap
    requires NoReadPending(Exec(Init<V>(cap, threads), schedule))
    ensures var s := Exec(Init<V>(cap, threads), schedule);
            s.head <= |s.log| && Popped(s.taken) == s.log[..s.head]
  {
    ReachableInv(cap, threads, schedule);
    ReadsFollowTheLog(Exec(Init<V>(cap, threads), schedule));
  }

  // ------------------------------------------------------------------------------------
  // Exclusive ownership, and the capacity
  // ------------------------------------------------------------------------------------

  lemma OwnerFinds<V>(s: State<V>, t: Tid)
    requires Inv(s) && t < |s.pcs|
    ensures s.pcs[t].PushClaimed? ==> s.slots[s.pcs[t].pos % s.cap].value == Vacant
    ensures s.pcs[t].PopClaimed? ==>
              && s.pcs[t].pos < |s.log|
              && s.slots[s.pcs[t].pos % s.cap].value == Full(s.log[s.pcs[t].pos])
  {
    if Owning(s.pcs[t]) {
      assert ThreadOk(s, t);
      OwnedSlot(s, t);
    }
  }

  lemma SlotsOfOwnersDiffer<V>(s: State<V>, t: Tid, u: Tid)
    requires Inv(s) && t < |s.pcs| && u < |s.pcs| && t != u
    requires Owning(s.pcs[t]) && Owning(s.pcs[u])
    ensures s.pcs[t].pos % s.cap != s.pcs[u].pos % s.cap
  {
    OwnedSlot(s, t);
    OwnedSlot(s, u);
    OtherTickets(s, t, u);
    if s.pcs[t].pos % s.cap == s.pcs[u].pos % s.cap {
      SameSlotSameTicket(s.pcs[t].pos, s.pcs[u].pos, s.cap);
    }
  }

  /**
   Between its compare-exchange and its `sequence` store a thread is the only owner of its
   slot. A producer finds the slot vacant; a consumer finds the value pushed for its ticket.
   */
  lemma ExclusiveOwnership<V>(cap: nat, threads: nat, schedule: seq<Action<V>>, t: Tid, u: Tid)
    requires 2 <= cap && t < threads && u < threads
    ensures var s := Exec(Init<V>(cap, threads), schedule);
            && (Owning(s.pcs[t]) && Owning(s.pcs[u]) && t != u ==> s.pcs[t].pos % cap != s.pcs[u].pos % cap)
            && (s.pcs[t].PushClaimed? ==> s.slots[s.pcs[t].pos % cap].value == Vacant)
            && (s.pcs[t].PopClaimed? ==>
                  && s.pcs[t].pos < |s.log|
                  && s.slots[s.pcs[t].pos % cap].value == Full(s.log[s.pcs[t].pos]))
            && !s.fault
  {
    var s := Exec(Init<V>(cap, threads), schedule);
    ReachableInv(cap, threads, schedule);
    OwnerFinds(s, t);
    if Owning(s.pcs[t]) && Owning(s.pcs[u]) && t != u {
      SlotsOfOwnersDiffer(s, t, u);
    }
  }

  /** At most `cap` tickets are pushed and not popped, at every moment. */
  lemma CapacityBound<V>(cap: nat, threads: nat, schedule: seq<Action<V>>)
    requires 2 <= cap
    ensures var s := Exec(Init<V>(cap, threads), schedule);
            s.head <= s.tail <= s.head + cap
  {
    ReachableInv(cap, threads, schedule);
  }

  /** A ring of capacity zero: nothing was ever claimed, and calls end as they begin. */
  ghost predicate Inert<V>(s: State<V>) {
    && !s.fault && s.tail == s.head == 0 && s.log == []
    && forall t: nat | t < |s.pcs| :: s.pcs[t].Idle? || s.pcs[t].PushErr? || s.pcs[t].PopNone?
  }

  lemma InertStep<V>(s: State<V>, a: Action<V>)
    requires Shaped(s) && s.cap == 0 && Inert(s)
    ensures Inert(Next(s, a))
  {
  }

  /** A ring of capacity zero never moves. */
  lemma {:induction false} ZeroCapacity<V>(threads: nat, schedule: seq<Action<V>>)
    ensures Inert(Exec(Init<V>(0, threads), schedule))
    decreases |schedule|
  {
    if schedule != [] {
      ZeroCapacity(threads, schedule[..|schedule| - 1]);
      InertStep(Exec(Init<V>(0, threads), schedule[..|schedule| - 1]), schedule[|schedule| - 1]);
    }
  }

  /** `k` steps of thread `t` with nobody else moving. */
  function Alone<V>(s: State<V>, t: Tid, k: nat): (r: State<V>)
    requires Shaped(s)
    ensures Shaped(r) && r.cap == s.cap && |r.pcs| == |s.pcs|
  {
    if k == 0 then s else Next(Alone(s, t, k - 1), Step(t))
  }

  function StepsOf<V>(t: Tid, k: nat): seq<Action<V>> {
    seq(k, _ => Step(t))
  }

  lemma {:induction false} AloneIsARun<V>(s: State<V>, t: Tid, k: nat)
    requires Shaped(s)
    ensures Exec(s, StepsOf(t, k)) == Alone(s, t, k)
  {
    if k > 0 {
      AloneIsARun(s, t, k - 1);
      assert StepsOf<V>(t, k)[..k - 1] == StepsOf<V>(t, k - 1);
    }
  }

  /** Running two schedules one after the other. */
  lemma {:induction false} Unroll<V>(s: State<V>, a: seq<Action<V>>, b: seq<Action<V>>)
    requires Shaped(s)
    ensures Exec(s, a + b) == Exec(Exec(s, a), b)
    decreases |b|
  {
    if b == [] {
      assert a + b == a;
    } else {
      Unroll(s, a, b[..|b| - 1]);
      assert (a + b)[..|a + b| - 1] == a + b[..|b| - 1];
    }
  }

  lemma OneAction<V>(s: State<V>, a: Action<V>)
    requires Shaped(s)
    ensures Exec(s, [a]) == Next(s, a)
  {
    assert [a][..0] == [];
    assert Exec(s, []) == s;
  }

  // ------------------------------------------------------------------------------------
  // Justified refusals
  // ------------------------------------------------------------------------------------

  /** At its `sequence` load a push gives up exactly if its ticket's slot is still in use. */
  ghost predicate PushJustified<V>(s: State<V>, t: Tid)
    requires Shaped(s) && t < |s.pcs| && s.pcs[t].PushLoaded?
  {
    var pos := s.pcs[t].pos;
    Next(s, Step(t)).pcs[t].PushErr? <==> s.tail == pos && s.cap <= pos && !Released(s, pos - s.cap)
  }

  /** ... and a pop exactly if its ticket is unpublished. */
  ghost predicate PopJustified<V>(s: State<V>, t: Tid)
    requires Shaped(s) && t < |s.pcs| && s.pcs[t].PopLoaded?
  {
    var pos := s.pcs[t].pos;
    Next(s, Step(t)).pcs[t].PopNone? <==> s.head == pos && !Published(s, pos)
  }

  lemma PushRefusal<V>(s: State<V>, t: Tid)
    requires Inv(s) && t < |s.pcs| && s.pcs[t].PushLoaded?
    ensures PushJustified(s, t)
  {
    assert ThreadOk(s, t);
    PassedSlot(s, s.pcs[t].pos);
  }

  lemma PopRefusal<V>(s: State<V>, t: Tid)
    requires Inv(s) && t < |s.pcs| && s.pcs[t].PopLoaded?
    ensures PopJustified(s, t)
  {
    assert ThreadOk(s, t);
    HeadSequence(s);
    if s.pcs[t].pos < s.head {
      ConsumedSlot(s, s.pcs[t].pos);
    }
  }

  /**
   `try_push` gives up at its `sequence` load exactly when, at that moment, `tail` is still
   the position it loaded and the ticket one lap before has not been released: nobody has
   claimed it for popping, or its consumer is still inside.
   */
  lemma PushRefusalIsJustified<V>(cap: nat, threads: nat, schedule: seq<Action<V>>, t: Tid)
    requires 2 <= cap && t < threads
    requires Exec(Init<V>(cap, threads), schedule).pcs[t].PushLoaded?
    ensures PushJustified(Exec(Init<V>(cap, threads), schedule), t)
  {
    ReachableInv(cap, threads, schedule);
    PushRefusal(Exec(Init<V>(cap, threads), schedule), t);
  }

  /**
   `try_pop` gives up at its `sequence` load exactly when, at that moment, `head` is still
   the position it loaded and that ticket is unpublished: unclaimed, or its producer is
   still inside. (Later tickets may already be published.)
   */
  lemma PopRefusalIsJustified<V>(cap: nat, threads: nat, schedule: seq<Action<V>>, t: Tid)
    requires 2 <= cap && t < threads
    requires Exec(Init<V>(cap, threads), schedule).pcs[t].PopLoaded?
    ensures PopJustified(Exec(Init<V>(cap, threads), schedule), t)
  {
    ReachableInv(cap, threads, schedule);
    PopRefusal(Exec(Init<V>(cap, threads), schedule), t);
  }

  /** The slot of a position that `tail` has reached or passed. */
  lemma PassedSlot<V>(s: State<V>, pos: nat)
    requires Inv(s) && pos <= s.tail
    ensures pos < s.tail ==> pos <= s.slots[pos % s.cap].sequence
    ensures pos == s.tail ==>
              if pos < s.cap || Released(s, pos - s.cap)
              then s.slots[pos % s.cap].sequence == pos
              else s.slots[pos % s.cap].sequence < pos
  {
    var p := Window(s, pos);
    assert SlotOk(s, p);
  }

  /** The slot of a position that `head` has passed holds at least "published". */
  lemma ConsumedSlot<V>(s: State<V>, pos: nat)
    requires Inv(s) && pos < s.head
    ensures pos + 1 <= s.slots[pos % s.cap].sequence
  {
    var p := Window(s, pos);
    assert SlotOk(s, p);
    assert Published(s, pos);
  }

  /** The slot of `head` says exactly whether the head ticket is published. */
  lemma HeadSequence<V>(s: State<V>)
    requires Inv(s)
    ensures Published(s, s.head) <==> s.slots[s.head % s.cap].sequence == s.head + 1
    ensures !Published(s, s.head) ==> s.slots[s.head % s.cap].sequence < s.head + 1
  {
    if s.head < s.tail {
      NextLap(s.head, s.cap);
      assert SlotOk(s, s.head + s.cap);
    } else {
      assert SlotOk(s, s.head);
    }
  }

  /** The next ticket at or after `tail` that uses the slot of `pos`. */
  lemma Window<V>(s: State<V>, pos: nat) returns (p: nat)
    requires Inv(s) && pos <= s.tail
    ensures s.tail <= p < s.tail + s.cap && p % s.cap == pos % s.cap
    ensures pos <= p && (p == pos || pos + s.cap <= p) && (pos < s.tail ==> p != pos)
  {
    p := pos;
    while p < s.tail
      invariant p % s.cap == pos % s.cap
      invariant p < s.tail + s.cap
      invariant p == pos || pos + s.cap <= p
      decreases s.tail - p
    {
      NextLap(p, s.cap);
      p := p + s.cap;
    }
  }
}
