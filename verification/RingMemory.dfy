/**
 `LockFreeBoundedRing` with its real fields, updated in place.

 `TryPush` and `TryPop` are the retry loops of the source. Other threads may move between
 any two atomic accesses: the caller passes, gap by gap, which actions they take, and the
 methods are proved for every such interference. `now` is the state of the transition
 system that the memory stands for.
 */
module RingMemory {
  import opened Basics
  import opened Ring
  import opened RingProperties
  import opened RingProgress
  import RingCalls

  /** What happens between two accesses of a call: what others do, and whether the next weak exchange fails anyway. */
  datatype Gap<+V> = Gap(rivals: seq<Action<V>>, spurious: bool)

  predicate Foreign<V>(gaps: seq<Gap<V>>, t: Tid) {
    forall i | 0 <= i < |gaps| :: ForeignActions(gaps[i].rivals, t)
  }

  predicate ForeignActions<V>(rivals: seq<Action<V>>, t: Tid) {
    forall j | 0 <= j < |rivals| :: rivals[j].tid != t
  }

  /** Nobody else moves, and no exchange fails spuriously. */
  predicate Undisturbed<V>(gaps: seq<Gap<V>>) {
    gaps == []
  }

  /** What others do leaves a thread's control state alone, and only advances the cursors. */
  lemma {:induction false} RivalsKeep<V>(s: State<V>, rivals: seq<Action<V>>, t: Tid)
    requires Shaped(s) && ForeignActions(rivals, t)
    ensures t < |s.pcs| ==> Exec(s, rivals).pcs[t] == s.pcs[t]
    ensures s.tail <= Exec(s, rivals).tail && s.head <= Exec(s, rivals).head
    decreases |rivals|
  {
    if rivals != [] {
      RivalsKeep(s, rivals[..|rivals| - 1], t);
      CursorsStay(Exec(s, rivals[..|rivals| - 1]), rivals[|rivals| - 1]);
      if t < |s.pcs| { OthersStand(Exec(s, rivals[..|rivals| - 1]), rivals[|rivals| - 1], t); }
    }
  }

  /** Only control states, and the bookkeeping of calls, differ. */
  ghost predicate SharedUnchanged<V>(s: State<V>, r: State<V>) {
    r.tail == s.tail && r.head == s.head && r.slots == s.slots && r.log == s.log
  }

  /** An undisturbed push from `s`: not yet decided, or decided as a bounded queue would. */
  ghost predicate AfterPush<V>(s: State<V>, r: State<V>, v: V, done: Option<Result<(), V>>)
    requires Shaped(s) && Shaped(r)
  {
    if done.None? then SharedUnchanged(s, r)
    else
      && (done.value.Ok? <==> |Items(s)| < s.cap)
      && Items(r) == if done.value.Ok? then Items(s) + [v] else Items(s)
  }

  ghost predicate AfterPop<V>(s: State<V>, r: State<V>, done: Option<Option<V>>)
    requires Shaped(s) && Shaped(r)
  {
    if done.None? then SharedUnchanged(s, r)
    else if done.value.None? then Items(s) == [] == Items(r)
    else 0 < |Items(s)| && done.value.value == Items(s)[0] && Items(r) == Items(s)[1..]
  }

  /** The loop of `Drop` has emptied the slots of the unpopped tickets below `i`, and only those. */
  ghost predicate DroppedUpTo<V>(s: State<V>, slots: seq<Slot<V>>, i: nat)
    requires Inv(s)
  {
    && |slots| == s.cap
    && (forall p: nat | s.head <= p < i :: EmptyAt(slots, p))
    && (forall p: nat | i <= p < s.tail :: HoldsTicket(s, slots, p))
  }

  ghost predicate EmptyAt<V>(slots: seq<Slot<V>>, p: nat)
    requires 0 < |slots|
  {
    slots[p % |slots|].value.Vacant?
  }

  ghost predicate HoldsTicket<V>(s: State<V>, slots: seq<Slot<V>>, p: nat)
    requires Inv(s) && |slots| == s.cap && p < s.tail
  {
    slots[p % s.cap] == Slot(p + 1, Full(s.log[p]))
  }

  lemma DropStarts<V>(s: State<V>)
    requires Inv(s) && Quiet(s)
    ensures DroppedUpTo(s, s.slots, s.head)
  {
    forall p: nat | s.head <= p < s.tail ensures HoldsTicket(s, s.slots, p) {
      NextLap(p, s.cap);
      assert SlotOk(s, p + s.cap);
    }
  }

  lemma DropContinues<V>(s: State<V>, slots: seq<Slot<V>>, i: nat)
    requires Inv(s) && Quiet(s) && s.head <= i < s.tail && DroppedUpTo(s, slots, i)
    ensures slots[i % s.cap] == Slot(i + 1, Full(s.log[i]))
    ensures DroppedUpTo(s, slots[i % s.cap := Slot(i + 1, Vacant)], i + 1)
  {
    assert HoldsTicket(s, slots, i);
    var after := slots[i % s.cap := Slot(i + 1, Vacant)];
    forall p: nat | s.head <= p < i + 1 ensures EmptyAt(after, p) {
      if p < i { assert EmptyAt(slots, p); }
    }
    forall p: nat | i + 1 <= p < s.tail ensures HoldsTicket(s, after, p) {
      assert HoldsTicket(s, slots, p);
      if p % s.cap == i % s.cap { SameSlotSameTicket(p, i, s.cap); }
    }
  }

  class LockFreeBoundedRing<V> {
    const cap: nat
    const threads: nat           // how many threads may use the ring
    const slots: array<Slot<V>>
    var tail: nat
    var head: nat
    var pcs: seq<Pc<V>>          // where each thread stands in its call
    ghost var now: State<V>

    /** The fields hold exactly the state `s`. */
    ghost predicate Represents(s: State<V>)
      reads this, slots
    {
      && slots.Length == cap && |pcs| == threads
      && Shaped(s)
      && s.cap == cap && s.tail == tail && s.head == head
      && s.slots == slots[..] && s.pcs == pcs
    }

    ghost predicate Mirrors()
      reads this, slots
    {
      Represents(now)
    }

    ghost predicate Valid()
      reads this, slots
    {
      && Mirrors()
      && (2 <= cap ==> Inv(now))
      && (cap == 0 ==> tail == head == 0)
    }

    constructor (cap: nat, threads: nat)
      ensures Valid() && fresh(slots)
      ensures this.cap == cap && this.threads == threads && now == Init(cap, threads)
    {
      this.cap, this.threads := cap, threads;
      slots := new Slot<V>[cap](i requires 0 <= i => Slot(i, Vacant));
      tail, head := 0, 0;
      pcs := seq(threads, _ => Idle);
      now := Init(cap, threads);
      if 2 <= cap {
        InitInv<V>(cap, threads);
      }
    }

    /** One atomic access of thread `t`'s `try_push`, on the real fields. */
    method AccessPush(t: Tid)
      requires Mirrors() && cap != 0 && t < threads
      modifies this`tail, this`pcs, slots
      ensures Represents(PushStep(now, t))
    {
      match pcs[t]
      case PushStart(v) => pcs := pcs[t := PushLoaded(v, tail)];
      case PushLoaded(v, pos) =>
        var seen := slots[pos % cap].sequence;
        pcs := pcs[t := if seen == pos then PushReady(v, pos)
                        else if seen < pos then PushErr(v, pos) else PushStart(v)];
      case PushReady(v, pos) =>
        if tail == pos {
          tail := pos + 1;
          pcs := pcs[t := PushClaimed(v, pos)];
        } else {
          pcs := pcs[t := PushStart(v)];
        }
      case PushClaimed(v, pos) =>
        slots[pos % cap] := slots[pos % cap].(value := Full(v));
        pcs := pcs[t := PushWritten(v, pos)];
      case PushWritten(v, pos) =>
        slots[pos % cap] := slots[pos % cap].(sequence := pos + 1);
        pcs := pcs[t := PushOk(v, pos)];
      case _ =>
    }

    /** One atomic access of thread `t`'s `try_pop`, on the real fields. */
    method AccessPop(t: Tid)
      requires Mirrors() && cap != 0 && t < threads
      modifies this`head, this`pcs, slots
      ensures Represents(PopStep(now, t))
    {
      match pcs[t]
      case PopStart => pcs := pcs[t := PopLoaded(head)];
      case PopLoaded(pos) =>
        var seen := slots[pos % cap].sequence;
        pcs := pcs[t := if seen == pos + 1 then PopReady(pos)
                        else if seen < pos + 1 then PopNone(pos) else PopStart];
      case PopReady(pos) =>
        if head == pos {
          head := pos + 1;
          pcs := pcs[t := PopClaimed(pos)];
        } else {
          pcs := pcs[t := PopStart];
        }
      case PopClaimed(pos) =>
        if slots[pos % cap].value.Full? {
          pcs := pcs[t := PopRead(pos, slots[pos % cap].value.val)];
          slots[pos % cap] := slots[pos % cap].(value := Vacant);
        }
      case PopRead(pos, v) =>
        slots[pos % cap] := slots[pos % cap].(sequence := pos + cap);
        pcs := pcs[t := PopSome(pos, v)];
      case _ =>
    }

    /** The start, the spurious failure and the end of a call touch no shared memory. */
    method AccessNothing(a: Action<V>)
      requires Mirrors() && a.tid < threads && !a.Step?
      modifies this`pcs
      ensures Represents(Next(now, a))
    {
      match a
      case CallPush(t, v) =>
        if pcs[t].Idle? { pcs := pcs[t := if cap == 0 then PushErr(v, 0) else PushStart(v)]; }
      case CallPop(t) =>
        if pcs[t].Idle? { pcs := pcs[t := if cap == 0 then PopNone(0) else PopStart]; }
      case Spurious(t) =>
        if pcs[t].PushReady? {
          pcs := pcs[t := PushStart(pcs[t].v)];
        } else if pcs[t].PopReady? {
          pcs := pcs[t := PopStart];
        }
      case Return(t) =>
        if AtRest(pcs[t]) { pcs := pcs[t := Idle]; }
    }

    /** One action of any thread, carried out on the memory. */
    method Move(a: Action<V>)
      requires Valid()
      modifies this, slots
      ensures Valid() && now == Next(old(now), a)
    {
      if 2 <= cap {
        StepInv(now, a);
      }
      if a.tid < threads {
        if !a.Step? {
          AccessNothing(a);
        } else if cap != 0 {
          if pcs[a.tid].PopStart? || pcs[a.tid].PopLoaded? || pcs[a.tid].PopReady?
             || pcs[a.tid].PopClaimed? || pcs[a.tid].PopRead? {
            AccessPop(a.tid);
          } else {
            AccessPush(a.tid);
          }
        }
      }
      now := Next(now, a);
    }

    /** The actions of other threads in one gap. */
    method Interfere(rivals: seq<Action<V>>)
      requires Valid()
      modifies this, slots
      ensures Valid() && now == Exec(old(now), rivals)
    {
      if rivals != [] {
        Interfere(rivals[..|rivals| - 1]);
        Move(rivals[|rivals| - 1]);
      }
    }

    /** The `k`-th gap of a call: others move, or nothing happens when the gaps are used up. */
    method Pause(gaps: seq<Gap<V>>, k: nat, t: Tid) returns (next: nat, spurious: bool)
      requires Valid() && 2 <= cap && t < threads && k <= |gaps| && Foreign(gaps, t)
      modifies this, slots
      ensures Valid() && pcs[t] == old(pcs[t])
      ensures old(tail) <= tail && old(head) <= head
      ensures next == Past(k, 1, |gaps|)
      ensures k < |gaps| ==> now == Exec(old(now), gaps[k].rivals) && spurious == gaps[k].spurious
      ensures k == |gaps| ==> now == old(now) && !spurious
    {
      next, spurious := k, false;
      if k < |gaps| {
        RivalsKeep(now, gaps[k].rivals, t);
        Interfere(gaps[k].rivals);
        next, spurious := k + 1, gaps[k].spurious;
      }
    }

    // The atomic accesses of `try_push`, seen from the calling thread.

    method LoadTail(t: Tid, v: V) returns (pos: nat)
      requires Valid() && cap != 0 && t < threads && pcs[t] == PushStart(v)
      modifies this, slots
      ensures Valid()
      ensures pos == tail && pcs[t] == PushLoaded(v, pos)
      ensures SharedUnchanged(old(now), now)
    {
      pos := tail;
      Move(Step(t));
    }

    method LoadSequenceToPush(t: Tid, v: V, pos: nat) returns (seen: nat)
      requires Valid() && cap != 0 && t < threads && pcs[t] == PushLoaded(v, pos)
      modifies this, slots
      ensures Valid()
      ensures seen == old(now).slots[pos % cap].sequence
      ensures pcs[t] == if seen == pos then PushReady(v, pos) else if seen < pos then PushErr(v, pos) else PushStart(v)
      ensures SharedUnchanged(old(now), now)
    {
      seen := slots[pos % cap].sequence;
      Move(Step(t));
    }

    method ExchangeTail(t: Tid, v: V, pos: nat, fails: bool) returns (won: bool)
      requires Valid() && cap != 0 && t < threads && pcs[t] == PushReady(v, pos)
      modifies this, slots
      ensures Valid()
      ensures won == (old(tail) == pos && !fails)
      ensures won ==> && pcs[t] == PushClaimed(v, pos)
                      && tail == pos + 1 && head == old(head) && now.log == old(now.log) + [v]
      ensures !won ==> pcs[t] == PushStart(v) && SharedUnchanged(old(now), now)
    {
      won := tail == pos && !fails;
      Move(if fails then Spurious(t) else Step(t));
    }

    method WriteSlot(t: Tid, v: V, pos: nat)
      requires Valid() && cap != 0 && t < threads && pcs[t] == PushClaimed(v, pos)
      modifies this, slots
      ensures Valid()
      ensures pcs[t] == PushWritten(v, pos)
      ensures tail == old(tail) && head == old(head) && now.log == old(now.log)
    {
      Move(Step(t));
    }

    method StoreSequence(t: Tid, v: V, pos: nat)
      requires Valid() && cap != 0 && t < threads && pcs[t] == PushWritten(v, pos)
      modifies this, slots
      ensures Valid()
      ensures pcs[t] == PushOk(v, pos)
      ensures tail == old(tail) && head == old(head) && now.log == old(now.log)
    {
      Move(Step(t));
    }

    /** The winner writes its value and then publishes the ticket. */
    method Publish(t: Tid, v: V, pos: nat, gaps: seq<Gap<V>>, k: nat)
      requires Valid() && 2 <= cap && t < threads && pcs[t] == PushClaimed(v, pos)
      requires k <= |gaps| && Foreign(gaps, t)
      modifies this, slots
      ensures Valid()
      ensures pcs[t] == PushOk(v, pos) && pos < tail && now.log[pos] == v
      ensures k == |gaps| ==> tail == old(tail) && head == old(head) && now.log == old(now.log)
    {
      var next, fails := Pause(gaps, k, t);
      WriteSlot(t, v, pos);
      next, fails := Pause(gaps, next, t);
      StoreSequence(t, v, pos);
      FinishedCall(now, t);
    }

    /** One round of `try_push`'s loop. Without interference it is also the last one. */
    method PushRound(t: Tid, v: V, gaps: seq<Gap<V>>, k: nat) returns (next: nat, done: Option<Result<(), V>>)
      requires Valid() && 2 <= cap && t < threads && pcs[t] == PushStart(v)
      requires k <= |gaps| && Foreign(gaps, t)
      modifies this, slots
      ensures Valid() && old(tail) <= tail && next <= |gaps|
      ensures done.None? ==> pcs[t] == PushStart(v) && k < next
      ensures done.Some? && done.value.Ok? ==>
                pcs[t].PushOk? && old(tail) <= pcs[t].pos < tail && now.log[pcs[t].pos] == v
      ensures done.Some? && done.value.Err? ==> done.value == Err(v) && pcs[t].PushErr? && pcs[t].v == v
      ensures k == |gaps| ==>
                && done.Some?
                && (done.value.Ok? <==> old(slots[tail % cap].sequence == tail))
                && head == old(head)
                && now.log == if done.value.Ok? then old(now.log) + [v] else old(now.log)
    {
      var fails;
      next, fails := Pause(gaps, k, t);
      var pos := LoadTail(t, v);
      next, fails := Pause(gaps, next, t);
      RingCalls.NotOvertaken(now);
      var seen := LoadSequenceToPush(t, v, pos);
      if seen == pos {
        next, fails := Pause(gaps, next, t);
        var won := ExchangeTail(t, v, pos, fails);
        if won {
          Publish(t, v, pos, gaps, next);
          return next, Some(Ok(()));
        }
      } else if seen < pos {
        return next, Some(Err(v));
      }
      return next, None;
    }

    /**
     `try_push`, under any interference. It terminates. `Ok` means that the value now stands
     in the history at a ticket claimed during this call; `Err` hands the value back. When
     nobody interferes it is the push of a bounded queue.
     */
    method TryPush(t: Tid, v: V, gaps: seq<Gap<V>>) returns (r: Result<(), V>)
      requires Valid() && cap != 1 && t < threads && pcs[t].Idle? && Foreign(gaps, t)
      modifies this, slots
      ensures Valid()
      ensures r.Ok? ==> pcs[t].PushOk? && old(tail) <= pcs[t].pos < tail && now.log[pcs[t].pos] == v
      ensures r.Err? ==> r.error == v && pcs[t].PushErr? && pcs[t].v == v
      ensures Undisturbed(gaps) && Quiet(old(now)) ==>
                && (r.Ok? <==> |Items(old(now))| < cap)
                && Items(now) == if r.Ok? then Items(old(now)) + [v] else Items(old(now))
    {
      if 2 <= cap && Quiet(now) {
        RingCalls.QuietCursors(now);
      }
      Move(CallPush(t, v));
      if cap == 0 {
        return Err(v);
      }
      var k: nat, done: Option<Result<(), V>> := 0, None;
      while done.None?
        invariant Valid() && k <= |gaps| && old(tail) <= tail
        invariant done.None? ==> pcs[t] == PushStart(v)
        invariant done.Some? && done.value.Ok? ==>
                    pcs[t].PushOk? && old(tail) <= pcs[t].pos < tail && now.log[pcs[t].pos] == v
        invariant done.Some? && done.value.Err? ==> done.value == Err(v) && pcs[t].PushErr? && pcs[t].v == v
        invariant Undisturbed(gaps) && Quiet(old(now)) ==> AfterPush(old(now), now, v, done)
        decreases done.None?, |gaps| - k
      {
        k, done := PushRound(t, v, gaps, k);
      }
      r := done.value;
    }

    // The atomic accesses of `try_pop`, seen from the calling thread.

    method LoadHead(t: Tid) returns (pos: nat)
      requires Valid() && cap != 0 && t < threads && pcs[t] == PopStart
      modifies this, slots
      ensures Valid()
      ensures pos == head && pcs[t] == PopLoaded(pos)
      ensures SharedUnchanged(old(now), now)
    {
      pos := head;
      Move(Step(t));
    }

    method LoadSequenceToPop(t: Tid, pos: nat) returns (seen: nat)
      requires Valid() && cap != 0 && t < threads && pcs[t] == PopLoaded(pos)
      modifies this, slots
      ensures Valid()
      ensures seen == old(now).slots[pos % cap].sequence
      ensures pcs[t] == if seen == pos + 1 then PopReady(pos) else if seen < pos + 1 then PopNone(pos) else PopStart
      ensures SharedUnchanged(old(now), now)
    {
      seen := slots[pos % cap].sequence;
      Move(Step(t));
    }

    method ExchangeHead(t: Tid, pos: nat, fails: bool) returns (won: bool)
      requires Valid() && cap != 0 && t < threads && pcs[t] == PopReady(pos)
      modifies this, slots
      ensures Valid()
      ensures won == (old(head) == pos && !fails)
      ensures won ==> && pcs[t] == PopClaimed(pos)
                      && head == pos + 1 && tail == old(tail) && now.log == old(now.log)
      ensures !won ==> pcs[t] == PopStart && SharedUnchanged(old(now), now)
    {
      won := head == pos && !fails;
      Move(if fails then Spurious(t) else Step(t));
    }

    method ReadSlot(t: Tid, pos: nat) returns (x: V)
      requires Valid() && 2 <= cap && t < threads && pcs[t] == PopClaimed(pos)
      modifies this, slots
      ensures Valid()
      ensures pcs[t] == PopRead(pos, x)
      ensures tail == old(tail) && head == old(head) && now.log == old(now.log)
    {
      OwnerFinds(now, t);
      x := slots[pos % cap].value.val;
      Move(Step(t));
    }

    method ReleaseSlot(t: Tid, pos: nat, x: V)
      requires Valid() && cap != 0 && t < threads && pcs[t] == PopRead(pos, x)
      modifies this, slots
      ensures Valid()
      ensures pcs[t] == PopSome(pos, x)
      ensures tail == old(tail) && head == old(head) && now.log == old(now.log)
    {
      Move(Step(t));
    }

    /** The winner moves the value out and then releases the slot for the next lap. */
    method Consume(t: Tid, pos: nat, gaps: seq<Gap<V>>, k: nat) returns (x: V)
      requires Valid() && 2 <= cap && t < threads && pcs[t] == PopClaimed(pos)
      requires k <= |gaps| && Foreign(gaps, t)
      modifies this, slots
      ensures Valid()
      ensures pcs[t] == PopSome(pos, x) && pos < |now.log| && now.log[pos] == x
      ensures old(head) <= head
      ensures k == |gaps| ==> tail == old(tail) && head == old(head) && now.log == old(now.log)
    {
      var next, fails := Pause(gaps, k, t);
      x := ReadSlot(t, pos);
      next, fails := Pause(gaps, next, t);
      ReleaseSlot(t, pos, x);
      FinishedCall(now, t);
    }

    /** One round of `try_pop`'s loop. Without interference it is also the last one. */
    method PopRound(t: Tid, gaps: seq<Gap<V>>, k: nat) returns (next: nat, done: Option<Option<V>>)
      requires Valid() && 2 <= cap && t < threads && pcs[t] == PopStart
      requires k <= |gaps| && Foreign(gaps, t)
      modifies this, slots
      ensures Valid() && old(head) <= head && next <= |gaps|
      ensures done.None? ==> pcs[t] == PopStart && k < next
      ensures done.Some? && done.value.Some? ==>
                && pcs[t].PopSome? && old(head) <= pcs[t].pos < |now.log|
                && now.log[pcs[t].pos] == pcs[t].v == done.value.value
      ensures done.Some? && done.value.None? ==> pcs[t].PopNone?
      ensures k == |gaps| ==>
                && done.Some?
                && (done.value.Some? <==> old(slots[head % cap].sequence == head + 1))
                && tail == old(tail) && now.log == old(now.log)
                && head == (if done.value.Some? then old(head) + 1 else old(head))
                && (done.value.Some? ==> pcs[t].pos == old(head))
    {
      var fails;
      next, fails := Pause(gaps, k, t);
      var pos := LoadHead(t);
      next, fails := Pause(gaps, next, t);
      RingCalls.NotOvertaken(now);
      var seen := LoadSequenceToPop(t, pos);
      if seen == pos + 1 {
        next, done := ClaimHead(t, pos, gaps, next);
        return;
      } else if seen < pos + 1 {
        return next, Some(None);
      }
      return next, None;
    }

    /** The exchange on the head, and if it succeeds the rest of the pop. */
    method ClaimHead(t: Tid, pos: nat, gaps: seq<Gap<V>>, k: nat) returns (next: nat, done: Option<Option<V>>)
      requires Valid() && 2 <= cap && t < threads && pcs[t] == PopReady(pos)
      requires k <= |gaps| && Foreign(gaps, t)
      modifies this, slots
      ensures Valid() && old(head) <= head && next <= |gaps|
      ensures done.None? ==> pcs[t] == PopStart && (k == |gaps| ==> old(head) != pos) && k <= next
      ensures done.Some? ==>
                && done.value.Some? && pcs[t].PopSome? && pos == pcs[t].pos < |now.log|
                && now.log[pos] == pcs[t].v == done.value.value
      ensures k == |gaps| && done.Some? ==> tail == old(tail) && now.log == old(now.log) && head == old(head) + 1
    {
      var fails;
      next, fails := Pause(gaps, k, t);
      var won := ExchangeHead(t, pos, fails);
      if won {
        var x := Consume(t, pos, gaps, next);
        return next, Some(Some(x));
      }
      done := None;
    }

    /**
     `try_pop`, under any interference. It terminates, and a value it returns is the value
     pushed for the ticket it claimed. When nobody interferes it is the pop of a queue.
     */
    method TryPop(t: Tid, gaps: seq<Gap<V>>) returns (r: Option<V>)
      requires Valid() && cap != 1 && t < threads && pcs[t].Idle? && Foreign(gaps, t)
      modifies this, slots
      ensures Valid()
      ensures r.Some? ==> && pcs[t].PopSome? && old(head) <= pcs[t].pos < |now.log|
                          && now.log[pcs[t].pos] == pcs[t].v == r.value
      ensures r.None? ==> pcs[t].PopNone?
      ensures Undisturbed(gaps) && Quiet(old(now)) ==>
                && (r.Some? <==> 0 < |Items(old(now))|)
                && (r.Some? ==> r.value == Items(old(now))[0] && Items(now) == Items(old(now))[1..])
                && (r.None? ==> Items(now) == Items(old(now)))
    {
      if 2 <= cap && Quiet(now) {
        RingCalls.QuietCursors(now);
      }
      Move(CallPop(t));
      if cap == 0 {
        return None;
      }
      var k: nat, done: Option<Option<V>> := 0, None;
      while done.None?
        invariant Valid() && k <= |gaps| && old(head) <= head
        invariant done.None? ==> pcs[t] == PopStart
        invariant done.Some? && done.value.Some? ==>
                    && pcs[t].PopSome? && old(head) <= pcs[t].pos < |now.log|
                    && now.log[pcs[t].pos] == pcs[t].v == done.value.value
        invariant done.Some? && done.value.None? ==> pcs[t].PopNone?
        invariant Undisturbed(gaps) && Quiet(old(now)) ==> AfterPop(old(now), now, done)
        decreases done.None?, |gaps| - k
      {
        k, done := PopRound(t, gaps, k);
      }
      r := done.value;
    }

    /**
     `is_empty`: for a capacity other than one, exactly "the head ticket is not published". Between
     whole calls, for every capacity: the queue is empty, or the ring is stuck.
     */
    method IsEmpty() returns (empty: bool)
      requires Valid()
      ensures cap != 1 ==> (empty <==> !Published(now, head))
      ensures RingCalls.Settled(now) ==> (empty <==> Items(now) == [] || RingCalls.Stuck(cap, |Items(now)|))
    {
      if cap == 0 {
        return true;
      }
      if 2 <= cap { HeadSequence(now); }
      if RingCalls.Settled(now) { RingCalls.LooksEmpty(now); }
      return slots[head % cap].sequence != head + 1;
    }

    /**
     `is_full`, while nobody else moves: as many values are queued as there are slots, or, which
     takes a capacity of one, more. (The subtraction of the source wraps around.)
     */
    method IsFull() returns (full: bool)
      requires Valid()
      ensures cap != 1 ==> (full <==> |Items(now)| == cap)
      ensures RingCalls.Settled(now) ==> (full <==> cap <= |Items(now)|)
    {
      if cap == 0 {
        return true;
      }
      return tail < head || tail - head >= cap;
    }

    /**
     `Drop`: destroys what the loop over `head..tail` finds. No thread is inside an operation,
     since `drop` has exclusive access. For a capacity other than one these are exactly the
     unpopped values, and everything ever accepted has been popped or is destroyed here, exactly
     once. With one slot it is the last pushed value; those it overwrote are never destroyed.
     */
    method Drop() returns (dropped: seq<V>)
      requires Valid() && Quiet(now) && (cap == 1 ==> RingCalls.Settled(now))
      modifies slots
      ensures cap != 1 ==>
                && dropped == Items(now)
                && head <= tail && (0 < cap ==> dropped == Dropped(old(slots[..]), head, tail))
                && Popped(now.taken) + dropped == now.log
      ensures 2 <= cap ==> forall p: nat | head <= p < tail :: EmptyAt(slots[..], p)
      ensures cap == 1 ==> dropped == if Items(now) == [] then [] else [Items(now)[|Items(now)| - 1]]
    {
      dropped := [];
      if cap == 0 {
        return;
      }
      if cap == 1 {
        dropped := DropOne();
        return;
      }
      DropStarts(now);
      for i := head to tail
        invariant head <= i <= tail
        invariant dropped == now.log[head..i]
        invariant DroppedUpTo(now, slots[..], i)
      {
        DropContinues(now, slots[..], i);
        var slot := slots[i % cap];
        if slot.sequence == i + 1 {
          dropped := dropped + [slot.value.val];
          slots[i % cap] := slot.(value := Vacant);
        }
      }
      QuietAccounts(now);
    }

    /** The same loop over a single slot: only the last ticket's number is there. */
    method DropOne() returns (dropped: seq<V>)
      requires Mirrors() && cap == 1 && RingCalls.Settled(now)
      modifies slots
      ensures dropped == if Items(now) == [] then [] else [Items(now)[|Items(now)| - 1]]
    {
      dropped := [];
      for i := head to tail
        invariant head <= i <= tail
        invariant slots[0].sequence == tail
        invariant i < tail ==> dropped == [] && slots[0].value == Full(now.log[tail - 1])
        invariant i == tail ==> dropped == if head == tail then [] else [now.log[tail - 1]]
      {
        assert i % 1 == 0;
        var slot := slots[i % cap];
        if slot.sequence == i + 1 {
          dropped := dropped + [slot.value.val];
          slots[i % cap] := slot.(value := Vacant);
        }
      }
    }
  }
}
