/**
 The bounded MPSC channel as an object, with the list of blocked receivers it really keeps.

 The ring appears as the queue of values pushed and not popped, with the whole pushes and
 pops of module `RingCalls`: for a capacity other than one a bounded queue; with capacity one,
 as in the source, a push is accepted over an unread value, and then a pop never ends.

 Other threads' whole operations take place between any two accesses of `Recv`: the caller
 passes them gap by gap, and `Recv` is proved for every such interference. `park` returns when
 a token is there; a thread that still has none after the last gap sleeps for good. The stacks
 of select waiters are the concern of module `SelectCall`.
 */
module MpscMemory {
  import opened Basics
  import C = RingCalls
  import opened Waiters

  datatype RecvError = Empty | Disconnected

  /** What another thread does. */
  datatype Deed<+V> = Send(v: V) | TryRecv | DropSender | Stray

  type Gap<V> = seq<Deed<V>>

  /** How the channel stands: what is queued and what was received, and how many senders there are. */
  datatype Standing<+V> = Standing(cap: nat, queue: seq<V>, taken: seq<V>, senders: nat)

  /** What a deed does to a channel with a receiver: only a sender can send, and a stuck pop never ends. */
  function After<V>(st: Standing<V>, deed: Deed<V>): Standing<V> {
    match deed
    case Send(v) =>
      if st.senders != 0 && C.Accepts(st.cap, |st.queue|) then st.(queue := st.queue + [v]) else st
    case TryRecv =>
      if st.queue != [] && !C.Stuck(st.cap, |st.queue|)
      then st.(queue := st.queue[1..], taken := st.taken + [st.queue[0]]) else st
    case DropSender => if st.senders != 0 then st.(senders := st.senders - 1) else st
    case Stray => st
  }

  function AfterGap<V>(st: Standing<V>, gap: Gap<V>): Standing<V> {
    if gap == [] then st else After(AfterGap(st, gap[..|gap| - 1]), gap[|gap| - 1])
  }

  lemma OneDeedMore<V>(st: Standing<V>, gap: Gap<V>, i: nat)
    requires i < |gap|
    ensures gap[..i + 1] == gap[..i] + [gap[i]]
    ensures AfterGap(st, gap[..i + 1]) == After(AfterGap(st, gap[..i]), gap[i])
  {
    assert gap[..i + 1][..i] == gap[..i];
  }

  /**
   What `try_pop` and the load of `sender_count` after it find, with a gap before each, from gap `k`
   on: the oldest value, unless the pop never ends; without a value, whether there are senders.
   */
  ghost function LookFinds<V>(at: seq<Standing<V>>, k: nat): Turn<V>
    requires k < |at|
  {
    var st := at[Past(k, 1, |at| - 1)];
    if st.queue != [] then (if C.Stuck(st.cap, |st.queue|) then Spins else Found(Ok(st.queue[0])))
    else if at[Past(k, 2, |at| - 1)].senders == 0 then Found(Err(Disconnected))
    else Again
  }

  /** How the channel stands when a call ends in this way after `end` gaps: a value it found is taken. */
  ghost function Left<V>(at: seq<Standing<V>>, end: nat, turn: Turn<V>): Standing<V>
    requires end < |at|
  {
    if turn.Found? && turn.result.Ok? then After(at[end], TryRecv) else at[end]
  }

  /** The value found is the oldest; a call that spins does so in a stuck ring. */
  ghost predicate Justified<V>(st: Standing<V>, turn: Turn<V>) {
    match turn
    case Found(Ok(v)) => st.queue != [] && v == st.queue[0]
    case Found(Err(e)) => e == Disconnected && st.senders == 0
    case Spins => C.Stuck(st.cap, |st.queue|)
    case Asleep => st.queue == [] && 0 < st.senders
    case Again => true
  }

  class Chan<V> {
    const cap: nat
    var queue: seq<V>
    var senderCount: nat
    var receiverCount: nat
    const recvWaiters: RecvWaiterList
    ghost var sent: seq<V>       // every value ever accepted
    ghost var taken: seq<V>      // every value ever received

    ghost predicate Valid()
      reads this, recvWaiters
    {
      && (cap != 1 ==> |queue| <= cap) && sent == taken + queue
      && forall w | w in recvWaiters.list :: w.caseId == UNSELECTED
    }

    ghost function Stands(): Standing<V>
      reads this
    {
      Standing(cap, queue, taken, senderCount)
    }

    /** Two pushes in a row on a ring of one slot: no pop will ever end. */
    predicate Stuck()
      reads this
    {
      C.Stuck(cap, |queue|)
    }

    constructor (cap: nat)
      ensures Valid() && queue == [] && this.cap == cap && senderCount == receiverCount == 1
      ensures fresh(recvWaiters) && recvWaiters.list == []
    {
      this.cap := cap;
      queue, senderCount, receiverCount, sent, taken := [], 1, 1, [], [];
      recvWaiters := new RecvWaiterList();
    }

    /**
     `send`: refused exactly if there is no receiver or the ring refuses; otherwise the value
     goes to the end, and every thread with an unselected waiter on the list has a token.
     */
    method Send(v: V) returns (r: Result<(), V>)
      requires Valid()
      modifies this`queue, this`sent, set w | w in recvWaiters.list :: w.thread
      ensures Valid()
      ensures r == if receiverCount == 0 || !C.Accepts(cap, |old(queue)|) then Err(v) else Ok(())
      ensures queue == if r.Ok? then old(queue) + [v] else old(queue)
      ensures old(sent) <= sent
      ensures r.Ok? ==> forall w | w in recvWaiters.list && w.selected.value == UNSELECTED :: w.thread.token
      ensures forall w | w in recvWaiters.list :: old(w.thread.token) ==> w.thread.token
    {
      if receiverCount == 0 || !C.Accepts(cap, |queue|) {
        return Err(v);
      }
      queue, sent := queue + [v], sent + [v];
      recvWaiters.WakeAllUnselected();
      r := Ok(());
    }

    /** A sender's `drop`: the last one unparks every listed thread. */
    method DropSender()
      requires Valid() && 0 < senderCount
      modifies this`senderCount, set w | w in recvWaiters.list :: w.thread, set w | w in recvWaiters.list :: w.selected
      ensures Valid() && senderCount == old(senderCount) - 1
      ensures senderCount == 0 ==> forall w | w in recvWaiters.list :: w.thread.token
      ensures forall w | w in recvWaiters.list :: old(w.thread.token) ==> w.thread.token
      ensures forall w | w in recvWaiters.list :: w.selected.value == old(w.selected.value)
    {
      senderCount := senderCount - 1;
      if senderCount == 0 {
        recvWaiters.WakeAll();
      }
    }

    /**
     `try_recv`: the oldest value; without one, `Disconnected` exactly if there are no senders.
     `None` stands for a call that never ends, which happens exactly if the ring is stuck.
     */
    method TryRecv() returns (r: Option<Result<V, RecvError>>)
      requires Valid()
      modifies this`queue, this`taken
      ensures Valid()
      ensures r == None <==> old(Stuck())
      ensures r == None ==> queue == old(queue) && taken == old(taken)
      ensures r.Some? && old(queue) != [] ==>
                && r.value == Ok(old(queue)[0])
                && queue == old(queue)[1..] && taken == old(taken) + [old(queue)[0]]
      ensures r.Some? && old(queue) == [] ==>
                && r.value == Err(if senderCount == 0 then Disconnected else Empty)
                && queue == [] && taken == old(taken)
    {
      if Stuck() {
        return None;
      }
      if queue != [] {
        r := Some(Ok(queue[0]));
        queue, taken := queue[1..], taken + [queue[0]];
        return;
      }
      r := Some(Err(if senderCount == 0 then Disconnected else Empty));
    }

    /** How much the receiver waiting as `w` has re-checked since it registered. */
    ghost predicate Remembered(w: RecvWaiter, queueChecked: bool, countChecked: bool)
      reads this, recvWaiters, w.selected, w.thread
    {
      && w in recvWaiters.list && w.selected.value == UNSELECTED
      && (queueChecked && !w.thread.token ==> queue == [])
      && (countChecked && !w.thread.token ==> 0 < senderCount)
    }

    twostate predicate StillRemembered(w: RecvWaiter?)
      reads this, recvWaiters, if w == null then {} else {w.selected, w.thread}
    {
      w != null ==>
        && (old(Remembered(w, false, false)) ==> Remembered(w, false, false))
        && (old(Remembered(w, true, false)) ==> Remembered(w, true, false))
        && (old(Remembered(w, true, true)) ==> Remembered(w, true, true))
    }

    /**
     One whole operation of another thread. Only senders send, and what is gone stays gone. A
     waiting receiver is not forgotten: what it found missing is still missing, or it has a
     token.
     */
    method Act(deed: Deed<V>, me: Thread, ghost w: RecvWaiter?)
      requires Valid() && 0 < receiverCount
      modifies this`queue, this`senderCount, this`sent, this`taken, me
      modifies set u | u in recvWaiters.list :: u.thread, set u | u in recvWaiters.list :: u.selected
      ensures Valid() && Later()
      ensures old(Stuck()) ==> Stuck()
      ensures StillRemembered(w)
      ensures Stands() == After(old(Stands()), deed) && (old(me.token) || deed.Stray? ==> me.token)
    {
      match deed
      case Send(v) => if senderCount != 0 { var r := Send(v); }
      case TryRecv => var r := TryRecv();
      case DropSender => if senderCount != 0 { DropSender(); }
      case Stray => me.token := true;
    }

    /** One gap. */
    method Interfere(gap: Gap<V>, me: Thread, ghost w: RecvWaiter?)
      requires Valid() && 0 < receiverCount
      modifies this`queue, this`senderCount, this`sent, this`taken, me
      modifies set u | u in recvWaiters.list :: u.thread, set u | u in recvWaiters.list :: u.selected
      ensures Valid() && Later()
      ensures old(Stuck()) ==> Stuck()
      ensures StillRemembered(w)
      ensures Stands() == AfterGap(old(Stands()), gap) && (old(me.token) || Stray in gap ==> me.token)
    {
      for i := 0 to |gap|
        invariant Valid() && Later()
        invariant old(Stuck()) ==> Stuck()
        invariant StillRemembered(w)
        invariant Stands() == AfterGap(old(Stands()), gap[..i])
        invariant old(me.token) || Stray in gap[..i] ==> me.token
      {
        Act(gap[i], me, w);
        OneDeedMore(old(Stands()), gap, i);
      }
      assert gap[..|gap|] == gap;
    }

    /** Before each access the next gap, if any, takes place. */
    method Pause(gaps: seq<Gap<V>>, ghost at: seq<Standing<V>>, k: nat, me: Thread, ghost w: RecvWaiter?)
      returns (next: nat)
      requires Valid() && 0 < receiverCount && k <= |gaps| && Follows(at, gaps, AfterGap) && Stands() == at[k]
      modifies this`queue, this`senderCount, this`sent, this`taken, me
      modifies set u | u in recvWaiters.list :: u.thread, set u | u in recvWaiters.list :: u.selected
      ensures Valid() && Later()
      ensures next == Past(k, 1, |gaps|) && Stands() == at[next]
      ensures old(Stuck()) ==> Stuck()
      ensures StillRemembered(w)
      ensures k == |gaps| ==> me.token == old(me.token)
    {
      next := k;
      if k < |gaps| {
        next := k + 1;
        assert GapLeads(at, gaps, AfterGap, k);
        Interfere(gaps[k], me, w);
      }
    }

    /** Nothing but time passed, as far as these facts go. */
    twostate predicate Later()
      reads this
    {
      && old(sent) <= sent && old(taken) <= taken && senderCount <= old(senderCount)
      && (old(senderCount) == 0 ==> sent == old(sent))
    }

    /** A result that a look at the channel may find, from a state with these values taken. */
    twostate predicate Fair(new result: Result<V, RecvError>)
      reads this
    {
      match result
      case Ok(v) => |old(taken)| < |taken| && taken[|taken| - 1] == v
      case Err(e) => e == Disconnected && senderCount == 0 && (old(senderCount) == 0 ==> taken == sent)
    }

    /**
     `try_pop` and then the load of `sender_count`: the fast path, and again after registering.
     `Again` means that there is nothing yet.
     */
    method Look(gaps: seq<Gap<V>>, ghost at: seq<Standing<V>>, k: nat, me: Thread, ghost w: RecvWaiter?)
      returns (next: nat, found: Turn<V>)
      requires Valid() && 0 < receiverCount && k <= |gaps| && Follows(at, gaps, AfterGap) && Stands() == at[k]
      modifies this`queue, this`senderCount, this`sent, this`taken, me
      modifies set u | u in recvWaiters.list :: u.thread, set u | u in recvWaiters.list :: u.selected
      ensures Valid() && Later() && next <= |gaps|
      ensures next == Past(k, if at[Past(k, 1, |gaps|)].queue != [] then 1 else 2, |gaps|)
      ensures found == LookFinds(at, k) && Justified(at[next], found) && Stands() == Left(at, next, found)
      ensures found.Found? ==> Fair(found.result)
      ensures old(senderCount) == 0 ==> !found.Again?
      ensures w != null && old(Remembered(w, false, false)) && found.Again? ==> Remembered(w, true, true)
      ensures k == |gaps| ==> me.token == old(me.token)
    {
      next := Pause(gaps, at, k, me, w);
      if queue != [] {
        var x := TryRecv();
        return next, if x.Some? then Found(x.value) else Spins;
      }
      next := Pause(gaps, at, next, me, w);
      found := if senderCount == 0 then Found(Err(Disconnected)) else Again;
    }

    /** `park`: until there is a token, which is taken; or for good, when nothing more happens. */
    method Park(gaps: seq<Gap<V>>, ghost at: seq<Standing<V>>, k: nat, me: Thread, ghost w: RecvWaiter)
      returns (next: nat, woken: bool)
      requires Valid() && 0 < receiverCount && k <= |gaps| && Follows(at, gaps, AfterGap) && Stands() == at[k]
      requires w.thread == me && Remembered(w, true, true)
      modifies this`queue, this`senderCount, this`sent, this`taken, me
      modifies set u | u in recvWaiters.list :: u.thread, set u | u in recvWaiters.list :: u.selected
      ensures Valid() && Later() && k <= next <= |gaps| && Stands() == at[next]
      ensures !woken ==> next == |gaps| && !me.token && queue == [] && 0 < senderCount
      ensures k == |gaps| && woken ==> old(me.token) && !me.token
      ensures old(me.token) ==> woken && next == k
    {
      next := k;
      while !me.token && next < |gaps|
        invariant Valid() && Later() && k <= next <= |gaps| && 0 < receiverCount && Remembered(w, true, true)
        invariant Stands() == at[next]
        invariant next == k ==> me.token == old(me.token)
        invariant old(me.token) ==> next == k
        decreases |gaps| - next
      {
        next := Pause(gaps, at, next, me, w);
      }
      woken := me.token;
      me.token := false;
    }

    /** The second half of a turn: the waiter `w` is on the list, and leaves it unless the thread stays for good. */
    method TurnRegistered(gaps: seq<Gap<V>>, ghost at: seq<Standing<V>>, k: nat, me: Thread, w: RecvWaiter,
                          ghost others: seq<RecvWaiter>)
      returns (next: nat, turn: Turn<V>)
      requires Valid() && 0 < receiverCount && k <= |gaps| && Follows(at, gaps, AfterGap) && Stands() == at[k]
      requires recvWaiters.list == others + [w] && w !in others && w.thread == me && Remembered(w, false, false)
      modifies this`queue, this`senderCount, this`sent, this`taken, me, recvWaiters
      modifies set u | u in recvWaiters.list :: u.thread, set u | u in recvWaiters.list :: u.selected
      ensures Valid() && Later() && k <= next <= |gaps| && (k < |gaps| ==> k < next)
      ensures Justified(at[next], turn) && Stands() == Left(at, next, turn)
      ensures turn == LookFinds(at, k) || (LookFinds(at, k).Again? && turn.Asleep?)
      ensures turn.Asleep? ==> next == |gaps| && !me.token
      ensures turn.Found? ==> Fair(turn.result)
      ensures turn.Found? || turn.Again? ==> recvWaiters.list == others
      ensures turn.Again? ==> 0 < old(senderCount)
      ensures k == |gaps| && turn.Again? ==> old(me.token) && !me.token
    {
      next, turn := Look(gaps, at, k, me, w);
      if turn.Spins? {
        return;
      }
      if turn.Again? {
        var woken;
        next, woken := Park(gaps, at, next, me, w);
        if !woken {
          return next, Asleep;
        }
      }
      UnregisterLast(recvWaiters.list, others, w);
      recvWaiters.Unregister(w);
    }

    /** One turn of `recv`'s loop. `Again` goes around again; `Asleep` and `Spins` never end. */
    method OneTurn(gaps: seq<Gap<V>>, ghost at: seq<Standing<V>>, k: nat, me: Thread) returns (next: nat, turn: Turn<V>)
      requires Valid() && 0 < receiverCount && k <= |gaps| && Follows(at, gaps, AfterGap) && Stands() == at[k]
      modifies this`queue, this`senderCount, this`sent, this`taken, me, recvWaiters
      modifies set u | u in recvWaiters.list :: u.thread, set u | u in recvWaiters.list :: u.selected
      ensures Valid() && Later() && k <= next <= |gaps|
      ensures Justified(at[next], turn) && Stands() == Left(at, next, turn)
      ensures if LookFinds(at, k).Again? then Past(k, 3, |gaps|) <= next else turn == LookFinds(at, k)
      ensures turn.Asleep? ==> next == |gaps| && !me.token
      ensures turn.Found? ==> Fair(turn.result)
      ensures turn.Found? || turn.Again? ==> recvWaiters.list == old(recvWaiters.list)
      ensures turn.Again? ==> 0 < old(senderCount) && (k < next || (k == |gaps| && old(me.token) && !me.token))
    {
      next, turn := Look(gaps, at, k, me, null);
      if !turn.Again? {
        return;
      }
      var marker := new Selected();
      var w := new RecvWaiter(UNSELECTED, marker, me);
      recvWaiters.Register(w);
      next, turn := TurnRegistered(gaps, at, next, me, w, recvWaiters.list[..|recvWaiters.list| - 1]);
    }

    /**
     `recv`, in any interference; `end` gaps took place. What its first look finds is the answer. It
     sleeps for good only if there is nothing to wake up for: the queue is empty and there are
     senders. It spins for good only in a stuck ring, which takes a capacity of one. A value it
     returns was the oldest in the queue, and is taken. A call that began without senders
     reports `Disconnected` only if everything ever sent has been taken. And when it returns,
     the waiter list is as it found it.
     */
    method Recv(me: Thread, gaps: seq<Gap<V>>) returns (r: Turn<V>, ghost end: nat)
      requires Valid() && 0 < receiverCount
      modifies this`queue, this`senderCount, this`sent, this`taken, me, recvWaiters
      modifies set u | u in recvWaiters.list :: u.thread, set u | u in recvWaiters.list :: u.selected
      ensures Valid() && Later() && !r.Again? && end <= |gaps|
      ensures var at := Trace(old(Stands()), gaps, AfterGap);
              && Justified(at[end], r) && Stands() == Left(at, end, r)
              && (if LookFinds(at, 0).Again? then Past(0, 3, |gaps|) <= end else r == LookFinds(at, 0))
      ensures r.Asleep? ==> end == |gaps| && !me.token
      ensures r.Spins? ==> cap == 1
      ensures r.Found? ==> Fair(r.result) && recvWaiters.list == old(recvWaiters.list)
      ensures gaps == [] && old(Stuck()) ==> r.Spins?
      ensures gaps == [] && old(queue) != [] && !old(Stuck()) ==>
                r == Found(Ok(old(queue)[0])) && queue == old(queue)[1..]
      ensures old(senderCount) == 0 ==> r.Found? || r.Spins?
    {
      end := 0;
      var k: nat := 0;
      ghost var at := Trace(Stands(), gaps, AfterGap);
      TraceFollows(Stands(), gaps, AfterGap);
      while true
        invariant Valid() && Later() && k <= |gaps| && 0 < receiverCount && Stands() == at[k]
        invariant recvWaiters.list == old(recvWaiters.list)
        invariant if LookFinds(at, 0).Again? then k == 0 || Past(0, 3, |gaps|) <= k else k == 0
        decreases |gaps| - k, if me.token then 1 else 0
      {
        k, r := OneTurn(gaps, at, k, me);
        if !r.Again? {
          return r, k;
        }
      }
    }
  }

  /** Where a turn of `recv`'s loop, or the call, ends up. */
  datatype Turn<+V> = Found(result: Result<V, RecvError>) | Again | Asleep | Spins
}
