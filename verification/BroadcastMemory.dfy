/**
 The broadcast channel with its real fields, updated in place, against the full log of messages,
 with the list of blocked receivers.

 Whole sends are atomic here. Between any two loads of `TryRecv` other threads may send and
 leave: the caller passes, gap by gap, what they do, and the methods are proved for every
 such interference. `park` returns when there is a token; a thread that still has none after
 the last gap sleeps for good. Select waiters are not part of this model.
 */
module BroadcastMemory {
  import opened Basics
  import B = Broadcast
  import opened Waiters

  datatype RecvError = Empty | Disconnected | Lagged(skipped: nat)

  /**
   What others do between two loads: send these messages, then perhaps drop all senders, and
   perhaps leave a stray token.
   */
  datatype Gap<+V> = Gap(messages: seq<V>, leave: bool, stray: bool)

  /** How the channel stands: every message so far, and how many senders there are. */
  datatype Standing<+V> = Standing(log: seq<V>, senders: nat)

  /** Only senders send, and what is gone stays gone. */
  function AfterGap<V>(st: Standing<V>, gap: Gap<V>): Standing<V> {
    Standing(if st.senders == 0 then st.log else st.log + gap.messages, if gap.leave then 0 else st.senders)
  }

  // ------------------------------------------------------------------------------------
  // What receiving means
  // ------------------------------------------------------------------------------------

  datatype Reading<+V> = Reading(result: Result<V, RecvError>, cursor: nat)

  /** An undisturbed receive with cursor `next`, in terms of the full log. */
  function FromLog<V>(log: seq<V>, cap: nat, next: nat, closed: bool): Reading<V>
    requires next <= |log|
  {
    if next == |log| then Reading(Err(if closed then Disconnected else Empty), next)
    else if next + cap < |log| then Reading(Err(Lagged(|log| - cap - next)), |log| - cap)
    else Reading(Ok(log[next]), next + 1)
  }

  /**
   After a lag. The lag brings the cursor to the oldest surviving message. The next receive
   reports a lag again exactly if something was sent in between, and then by as much as was
   sent; otherwise it returns that oldest message.
   */
  lemma LagsAgainExactlyIfSent<V>(log: seq<V>, more: seq<V>, cap: nat, next: nat, closed: bool)
    requires 0 < cap && next + cap < |log|
    ensures var r := FromLog(log, cap, next, closed);
            var after := FromLog(log + more, cap, r.cursor, closed);
            && r == Reading(Err(Lagged(r.cursor - next)), |log| - cap)
            && ((after.result.Err? && after.result.error.Lagged?) <==> more != [])
            && after.result == if more == [] then Ok(log[|log| - cap]) else Err(Lagged(|more|))
  {
    assert (log + more)[|log| - cap] == log[|log| - cap];
  }

  /** What a receiver gets by receiving until there is nothing left: the messages, and the sum of the lags. */
  datatype Haul<+V> = Haul(messages: seq<V>, skipped: nat)

  function Drain<V>(log: seq<V>, cap: nat, next: nat): Haul<V>
    requires 0 < cap && next <= |log|
    decreases |log| - next
  {
    var r := FromLog(log, cap, next, false);
    match r.result
    case Ok(v) => var rest := Drain(log, cap, r.cursor); Haul([v] + rest.messages, rest.skipped)
    case Err(Lagged(skipped)) => var rest := Drain(log, cap, r.cursor); Haul(rest.messages, skipped + rest.skipped)
    case Err(_) => Haul([], 0)
  }

  /** Draining returns exactly the surviving messages from the cursor on; every other one is counted as lag. */
  lemma {:induction false} DrainGetsTheSurvivors<V>(log: seq<V>, cap: nat, next: nat)
    requires 0 < cap && next <= |log|
    ensures Drain(log, cap, next).messages == log[B.Max(next, B.SatSub(|log|, cap))..]
    ensures |Drain(log, cap, next).messages| + Drain(log, cap, next).skipped == |log| - next
    decreases |log| - next
  {
    var r := FromLog(log, cap, next, false);
    if next < |log| {
      DrainGetsTheSurvivors(log, cap, r.cursor);
      if r.result.Ok? {
        assert log[next..] == [log[next]] + log[next + 1..];
      }
    }
  }

  // ------------------------------------------------------------------------------------
  // The memory
  // ------------------------------------------------------------------------------------

  /** The slots hold the last `cap` messages of the log, each under its number; the rest are untouched. */
  ghost predicate Holds<V>(slots: seq<B.Slot<V>>, log: seq<V>) {
    && 0 < |slots|
    && (forall c: nat | c < |log| < c + |slots| + 1 :: HoldsAt(slots, log, c))
    && (forall i: nat | |log| <= i < |slots| :: slots[i] == B.Slot(0, None))
  }

  ghost predicate HoldsAt<V>(slots: seq<B.Slot<V>>, log: seq<V>, c: nat)
    requires 0 < |slots| && c < |log|
  {
    slots[c % |slots|] == B.Slot(c + 1, Some(log[c]))
  }

  /** Publishing the next message in its slot, over the message one lap before. */
  lemma PublishHolds<V>(slots: seq<B.Slot<V>>, log: seq<V>, v: V)
    requires Holds(slots, log)
    ensures Holds(slots[|log| % |slots| := B.Slot(|log| + 1, Some(v))], log + [v])
  {
    var cap := |slots|;
    var after := slots[|log| % cap := B.Slot(|log| + 1, Some(v))];
    forall c: nat | c < |log| + 1 < c + cap + 1 ensures HoldsAt(after, log + [v], c) {
      if c < |log| {
        assert HoldsAt(slots, log, c);
        if c % cap == |log| % cap { SameSlotSameTicket(c, |log|, cap); }
      }
    }
    if |log| < cap { RemainderUnique(|log|, 0, |log|, cap); }
  }

  /** A slot's number tells which ticket it serves: the cursor's own, unless the cursor is lapped. */
  lemma NumberAt<V>(slots: seq<B.Slot<V>>, log: seq<V>, next: nat)
    requires Holds(slots, log) && next < |log|
    ensures next + 1 <= slots[next % |slots|].seqno
    ensures slots[next % |slots|].seqno == next + 1 <==> |log| <= next + |slots|
    ensures |log| <= next + |slots| ==> slots[next % |slots|].value == Some(log[next])
  {
    if |log| <= next + |slots| {
      assert HoldsAt(slots, log, next);
    } else {
      LastOfSlot(|log|, |slots|, next);
      var last :| next + |slots| <= last < |log| <= last + |slots| && last % |slots| == next % |slots|;
      assert HoldsAt(slots, log, last);
    }
  }

  /** Some ticket among the last `cap` uses the slot of the lapped ticket `next`. */
  lemma {:induction false} LastOfSlot(n: nat, cap: nat, next: nat)
    requires 0 < cap && next + cap < n
    ensures exists last: nat :: next + cap <= last < n <= last + cap && last % cap == next % cap
    decreases n - next
  {
    NextLap(next, cap);
    if next + cap + cap < n {
      LastOfSlot(n, cap, next + cap);
    } else {
      assert next + cap <= next + cap < n <= next + cap + cap;
    }
  }

  class Chan<V> {
    const slots: array<B.Slot<V>>
    var writeSeq: nat
    var senderCount: nat
    var receiverCount: nat
    const recvWaiters: RecvWaiterList
    ghost var log: seq<V>

    ghost predicate Valid()
      reads this, slots, recvWaiters
    {
      && |log| == writeSeq && Holds(slots[..], log)
      && forall w | w in recvWaiters.list :: w.caseId == UNSELECTED
    }

    /** `channel(capacity)`, which asserts that the capacity is positive. */
    constructor (capacity: nat)
      requires 0 < capacity
      ensures Valid() && log == [] && senderCount == receiverCount == 1
      ensures slots.Length == capacity && fresh(slots)
      ensures fresh(recvWaiters) && recvWaiters.list == []
    {
      slots := new B.Slot<V>[capacity](_ => B.Slot(0, None));
      writeSeq, senderCount, receiverCount := 0, 1, 1;
      recvWaiters := new RecvWaiterList();
      log := [];
    }

    ghost function Threads(): set<Thread>
      reads recvWaiters
    {
      set w | w in recvWaiters.list :: w.thread
    }

    ghost function Cells(): set<Selected>
      reads recvWaiters
    {
      set w | w in recvWaiters.list :: w.selected
    }

    /**
     `send`: refused without receivers; otherwise the message goes to the end of the log, always,
     and every thread with an unselected waiter on the list has a token.
     */
    method Send(v: V) returns (r: Result<(), V>)
      requires Valid()
      modifies this`writeSeq, this`log, slots, Threads()
      ensures Valid()
      ensures r == (if receiverCount == 0 then Err(v) else Ok(()))
      ensures log == if r.Ok? then old(log) + [v] else old(log)
      ensures r.Ok? ==> forall w | w in recvWaiters.list && w.selected.value == UNSELECTED :: w.thread.token
      ensures forall w | w in recvWaiters.list :: old(w.thread.token) ==> w.thread.token
    {
      if receiverCount == 0 {
        return Err(v);
      }
      var seqno := writeSeq;
      writeSeq := writeSeq + 1;
      PublishHolds(slots[..], log, v);
      slots[seqno % slots.Length] := B.Slot(seqno + 1, Some(v));
      log := log + [v];
      recvWaiters.WakeAllUnselected();
      r := Ok(());
    }

    /** The drop of the last sender: every listed thread has a token. */
    method DropSenders()
      requires Valid()
      modifies this`senderCount, Threads(), Cells()
      ensures Valid() && senderCount == 0
      ensures forall w | w in recvWaiters.list :: w.thread.token
      ensures forall w | w in recvWaiters.list :: w.selected.value == old(w.selected.value)
    {
      senderCount := 0;
      recvWaiters.WakeAll();
    }

    /** What the receiver waiting as `w` with its cursor at `next` has found is still so, or it has a token. */
    ghost predicate Remembered(w: RecvWaiter, next: nat, logChecked: bool, countChecked: bool)
      reads this, recvWaiters, w.selected, w.thread
    {
      && w in recvWaiters.list && w.selected.value == UNSELECTED
      && (logChecked && !w.thread.token ==> |log| == next)
      && (countChecked && !w.thread.token ==> 0 < senderCount)
    }

    twostate predicate StillRemembered(w: RecvWaiter?, next: nat)
      reads this, recvWaiters, if w == null then {} else {w.thread, w.selected}
    {
      w != null ==>
        && (old(Remembered(w, next, false, false)) ==> Remembered(w, next, false, false))
        && (old(Remembered(w, next, true, false)) ==> Remembered(w, next, true, false))
        && (old(Remembered(w, next, true, true)) ==> Remembered(w, next, true, true))
    }

    /** Time passes: the log only grows, and only senders make it grow. */
    twostate predicate Later()
      reads this
    {
      old(log) <= log && (old(senderCount) == 0 ==> senderCount == 0 && log == old(log))
    }

    ghost function Stands(): Standing<V>
      reads this
    {
      Standing(log, senderCount)
    }

    /** The messages of a gap, one whole send after the other. */
    method SendAll(messages: seq<V>, ghost w: RecvWaiter?, ghost next: nat)
      requires Valid() && 0 < receiverCount && senderCount != 0
      modifies this`writeSeq, this`log, slots, Threads()
      ensures Valid() && log == old(log) + messages && StillRemembered(w, next)
    {
      for i := 0 to |messages|
        invariant Valid() && StillRemembered(w, next)
        invariant log == old(log) + messages[..i]
      {
        var r := Send(messages[i]);
        assert messages[..i] + [messages[i]] == messages[..i + 1];
      }
      assert messages[..|messages|] == messages;
    }

    /** What other threads do in a gap. Only senders send, and what is gone stays gone. */
    method Interfere(gap: Gap<V>, me: Thread, ghost w: RecvWaiter?, ghost next: nat)
      requires Valid() && 0 < receiverCount
      modifies this`writeSeq, this`log, this`senderCount, slots, me, Threads(), Cells()
      ensures Valid() && StillRemembered(w, next)
      ensures Stands() == AfterGap(old(Stands()), gap)
      ensures gap.stray ==> me.token
    {
      if senderCount != 0 {
        SendAll(gap.messages, w, next);
      }
      if gap.leave {
        DropSenders();
      }
      if gap.stray {
        me.token := true;
      }
    }

    /** Before each load the next gap, if any, takes place. */
    method Pause(gaps: seq<Gap<V>>, ghost at: seq<Standing<V>>, k: nat, me: Thread, ghost w: RecvWaiter?,
                 ghost cursor: nat)
      returns (next: nat)
      requires Valid() && 0 < receiverCount && k <= |gaps| && Follows(at, gaps, AfterGap) && Stands() == at[k]
      modifies this`writeSeq, this`log, this`senderCount, slots, me, Threads(), Cells()
      ensures Valid() && Later() && StillRemembered(w, cursor)
      ensures next == Past(k, 1, |gaps|) && Stands() == at[next]
      ensures k == |gaps| ==> me.token == old(me.token)
      ensures k < |gaps| && gaps[k].stray ==> me.token
    {
      next := k;
      if k < |gaps| {
        assert GapLeads(at, gaps, AfterGap, k);
        Interfere(gaps[k], me, w, cursor);
        next := k + 1;
      }
    }
  }

  /** How `recv` ends, if it does. */
  datatype Outcome<+V> = Found(result: Result<V, RecvError>) | Asleep

  class Receiver<V> {
    const chan: Chan<V>
    var nextSeq: nat

    ghost predicate Valid()
      reads this, chan, chan.slots, chan.recvWaiters
    {
      chan.Valid() && 0 < chan.receiverCount && nextSeq <= chan.writeSeq
    }

    constructor (chan: Chan<V>, nextSeq: nat)
      ensures this.chan == chan && this.nextSeq == nextSeq
    {
      this.chan := chan;
      this.nextSeq := nextSeq;
    }

    /** `clone`: the new receiver starts at the write position, and sees none of the past. */
    method Clone() returns (copy: Receiver<V>)
      requires Valid()
      modifies chan`receiverCount
      ensures fresh(copy) && copy.chan == chan && copy.Valid() && Valid()
      ensures copy.nextSeq == |chan.log|
      ensures chan.receiverCount == old(chan.receiverCount) + 1
    {
      chan.receiverCount := chan.receiverCount + 1;
      copy := new Receiver(chan, chan.writeSeq);
    }

    /** A result of `try_recv` right after it is found, but for `Empty`. */
    twostate predicate Fair(new r: Result<V, RecvError>)
      reads this, chan
    {
      match r
      case Ok(v) => nextSeq == old(nextSeq) + 1 <= |chan.log| && v == chan.log[old(nextSeq)]
      case Err(Lagged(skipped)) =>
        && 1 <= skipped && nextSeq == old(nextSeq) + skipped
        && nextSeq + chan.slots.Length == |chan.log|
      case Err(Disconnected) =>
        && nextSeq == old(nextSeq) && chan.senderCount == 0
        && (old(chan.senderCount) == 0 ==> nextSeq == |chan.log|)
      case Err(Empty) => nextSeq == old(nextSeq)
    }

    /**
     `try_recv`, in any interference. It passes the top of its loop at most twice. A message
     is the one of the receiver's own ticket. A lag is exactly how far the cursor moves, to
     the oldest message surviving at that moment. `Empty` and `Disconnected` mean that at
     the beginning of the call there was nothing new; and if the receiver is on the list, what
     is new since then has left it a token. Undisturbed, the outcome is `FromLog`.
     */
    method TryRecv(gaps: seq<Gap<V>>, ghost at: seq<Standing<V>>, k0: nat, me: Thread, ghost w: RecvWaiter?)
      returns (r: Result<V, RecvError>, k: nat, rounds: nat)
      requires Valid() && k0 <= |gaps| && Follows(at, gaps, AfterGap) && chan.Stands() == at[k0]
      modifies this, chan`writeSeq, chan`log, chan`senderCount, chan.slots, me, chan.Threads(), chan.Cells()
      ensures Valid() && chan.Later() && Fair(r)
      ensures k0 <= k <= |gaps| && chan.Stands() == at[k] && (k0 < |gaps| ==> k0 < k)
      ensures 1 <= rounds <= 2
      ensures r.Err? && !r.error.Lagged? ==> nextSeq == |old(chan.log)|
      ensures w != null && old(chan.Remembered(w, nextSeq, false, false)) ==>
                chan.Remembered(w, nextSeq, r == Err(Empty), r == Err(Empty))
      ensures k0 == |gaps| ==>
                && me.token == old(me.token)
                && Reading(r, nextSeq) ==
                   FromLog(old(chan.log), chan.slots.Length, old(nextSeq), old(chan.senderCount) == 0)
      ensures old(chan.senderCount) == 0 ==> r != Err(Empty)
    {
      var spins: nat := 0;
      rounds := 0;
      k := k0;
      while true
        invariant Valid() && chan.Later() && k0 <= k <= |gaps| && chan.Stands() == at[k]
        invariant 0 < rounds && k0 < |gaps| ==> k0 < k
        invariant nextSeq == old(nextSeq)
        invariant rounds == spins <= 1
        invariant spins == 1 ==> nextSeq + chan.slots.Length < |chan.log|
        invariant w != null && old(chan.Remembered(w, nextSeq, false, false)) ==>
                    chan.Remembered(w, nextSeq, false, false)
        invariant k0 == |gaps| ==> spins == 0 && me.token == old(me.token)
        decreases 2 - rounds
      {
        var done;
        rounds := rounds + 1;
        k, done := Round(gaps, at, k, me, w);
        if done.Some? {
          return done.value, k, rounds;
        }
        spins := spins + 1;
        if spins > B.MAX_SPIN_RETRIES {
          assert false;
        }
      }
    }

    /** One round of the loop. `None` is a retry: the receiver has been lapped while it read. */
    method Round(gaps: seq<Gap<V>>, ghost at: seq<Standing<V>>, k0: nat, me: Thread, ghost w: RecvWaiter?)
      returns (k: nat, done: Option<Result<V, RecvError>>)
      requires Valid() && k0 <= |gaps| && Follows(at, gaps, AfterGap) && chan.Stands() == at[k0]
      modifies this, chan`writeSeq, chan`log, chan`senderCount, chan.slots, me, chan.Threads(), chan.Cells()
      ensures Valid() && chan.Later()
      ensures k0 <= k <= |gaps| && chan.Stands() == at[k] && (k0 < |gaps| ==> k0 < k)
      ensures done.None? ==> nextSeq == old(nextSeq) && nextSeq + chan.slots.Length < |chan.log|
      ensures done.Some? ==> Fair(done.value)
      ensures old(nextSeq) + chan.slots.Length < |old(chan.log)| ==>
                done.Some? && done.value.Err? && done.value.error.Lagged?
      ensures done.Some? && done.value.Err? && !done.value.error.Lagged? ==>
                nextSeq == |old(chan.log)| && k == Past(k0, 2, |gaps|)
      ensures done.None? || done.value.Ok? ==> k == Past(k0, 4, |gaps|)
      ensures w != null && old(chan.Remembered(w, nextSeq, false, false)) ==>
                chan.Remembered(w, nextSeq, done == Some(Err(Empty)), done == Some(Err(Empty)))
      ensures k0 == |gaps| ==>
                && me.token == old(me.token) && done.Some?
                && Reading(done.value, nextSeq) ==
                   FromLog(old(chan.log), chan.slots.Length, old(nextSeq), old(chan.senderCount) == 0)
      ensures old(chan.senderCount) == 0 ==> done != Some(Err(Empty))
    {
      var cap := chan.slots.Length;
      var next := nextSeq;
      k := chan.Pause(gaps, at, k0, me, w, next);
      var write := chan.writeSeq;
      if write == next {
        k := chan.Pause(gaps, at, k, me, w, next);
        return k, Some(Err(if chan.senderCount == 0 then Disconnected else Empty));
      }
      var oldest := B.SatSub(write, cap);
      if next < oldest {
        nextSeq := oldest;
        return k, Some(Err(Lagged(oldest - next)));
      }
      k, done := ReadSlot(next, gaps, at, k, me, w);
    }

    /** The rest of a round: the two loads of `seq` around the load of the value. `None` is a retry. */
    method ReadSlot(next: nat, gaps: seq<Gap<V>>, ghost at: seq<Standing<V>>, k0: nat, me: Thread, ghost w: RecvWaiter?)
      returns (k: nat, done: Option<Result<V, RecvError>>)
      requires Valid() && next == nextSeq < |chan.log|
      requires k0 <= |gaps| && Follows(at, gaps, AfterGap) && chan.Stands() == at[k0]
      modifies this, chan`writeSeq, chan`log, chan`senderCount, chan.slots, me, chan.Threads(), chan.Cells()
      ensures Valid() && chan.Later() && k <= |gaps| && chan.Stands() == at[k]
      ensures var lapped := next + chan.slots.Length < |at[Past(k0, 1, |gaps|)].log|;
              && k == Past(k0, if lapped then 2 else 3, |gaps|)
              && (lapped ==> done.Some? && done.value.Err?) && (!lapped && done.Some? ==> done.value.Ok?)
      ensures done.None? ==> nextSeq == next && next + chan.slots.Length < |chan.log|
      ensures done.Some? ==> Fair(done.value) && (done.value.Ok? || done.value.error.Lagged?)
      ensures w != null && old(chan.Remembered(w, next, false, false)) ==> chan.Remembered(w, nextSeq, false, false)
      ensures k0 == |gaps| ==> me.token == old(me.token)
      ensures k0 == |gaps| && |old(chan.log)| <= next + chan.slots.Length ==> done.Some? && done.value.Ok?
    {
      var cap := chan.slots.Length;
      k := chan.Pause(gaps, at, k0, me, w, next);
      NumberAt(chan.slots[..], chan.log, next);
      var before := chan.slots[next % cap].seqno;
      if before < next + 1 {
        assert false;
      }
      if before > next + 1 {
        k := chan.Pause(gaps, at, k, me, w, next);
        var oldestNow := B.SatSub(chan.writeSeq, cap);
        nextSeq := oldestNow;
        return k, Some(Err(Lagged(B.Max(B.SatSub(oldestNow, next), 1))));
      }
      k, done := ReadValue(next, gaps, at, k, me, w);
    }

    /** The slot has the number of the ticket: the value is loaded, and then the number again. */
    method ReadValue(next: nat, gaps: seq<Gap<V>>, ghost at: seq<Standing<V>>, k0: nat, me: Thread,
                     ghost w: RecvWaiter?)
      returns (k: nat, done: Option<Result<V, RecvError>>)
      requires Valid() && next == nextSeq < |chan.log|
      requires k0 <= |gaps| && Follows(at, gaps, AfterGap) && chan.Stands() == at[k0]
      modifies this, chan`writeSeq, chan`log, chan`senderCount, chan.slots, me, chan.Threads(), chan.Cells()
      ensures Valid() && chan.Later() && k == Past(k0, 2, |gaps|) && chan.Stands() == at[k]
      ensures done.None? ==> nextSeq == next && next + chan.slots.Length < |chan.log|
      ensures done.Some? ==> done.value.Ok? && Fair(done.value)
      ensures w != null && old(chan.Remembered(w, next, false, false)) ==> chan.Remembered(w, nextSeq, false, false)
      ensures k0 == |gaps| ==> me.token == old(me.token)
      ensures k0 == |gaps| && |old(chan.log)| <= next + chan.slots.Length ==> done.Some?
    {
      var cap := chan.slots.Length;
      k := chan.Pause(gaps, at, k0, me, w, next);
      NumberAt(chan.slots[..], chan.log, next);
      var snapshot := chan.slots[next % cap].value;
      ghost var held := chan.log;
      k := chan.Pause(gaps, at, k, me, w, next);
      NumberAt(chan.slots[..], chan.log, next);
      if chan.slots[next % cap].seqno != next + 1 {
        return k, None;
      }
      assert held[next] == chan.log[next];
      nextSeq := next + 1;
      done := Some(Ok(snapshot.value));
    }

    /**
     A lagging receiver receives, others do something, and it receives again. The second receive
     lags again exactly if a message was sent in between; otherwise it gets the oldest one.
     */
    method RecvAfterLag(between: Gap<V>, me: Thread) returns (first: Result<V, RecvError>, second: Result<V, RecvError>)
      requires Valid() && nextSeq + chan.slots.Length < |chan.log|
      modifies this, chan`writeSeq, chan`log, chan`senderCount, chan.slots, me, chan.Threads(), chan.Cells()
      ensures Valid()
      ensures first == Err(Lagged(|old(chan.log)| - chan.slots.Length - old(nextSeq)))
      ensures var sent := if old(chan.senderCount) == 0 then [] else between.messages;
              && chan.log == old(chan.log) + sent
              && second == (if sent == [] then Ok(old(chan.log)[|old(chan.log)| - chan.slots.Length])
                            else Err(Lagged(|sent|)))
    {
      var k, rounds;
      ghost var log := chan.log;
      ghost var sent := if chan.senderCount == 0 then [] else between.messages;
      first, k, rounds := TryRecv([], [chan.Stands()], 0, me, null);
      chan.Interfere(between, me, null, 0);
      assert chan.log == log + sent;
      LagsAgainExactlyIfSent(log, sent, chan.slots.Length, old(nextSeq), chan.senderCount == 0);
      second, k, rounds := TryRecv([], [chan.Stands()], 0, me, null);
    }

    /** `park`: until there is a token, which is taken; or for good, when nothing more happens. */
    method Park(gaps: seq<Gap<V>>, ghost at: seq<Standing<V>>, k0: nat, me: Thread, ghost w: RecvWaiter)
      returns (k: nat, asleep: bool)
      requires Valid() && k0 <= |gaps| && Follows(at, gaps, AfterGap) && chan.Stands() == at[k0]
      requires w.thread == me && chan.Remembered(w, nextSeq, true, true)
      modifies chan`writeSeq, chan`log, chan`senderCount, chan.slots, me, chan.Threads(), chan.Cells()
      ensures Valid() && chan.Later() && k0 <= k <= |gaps| && chan.Stands() == at[k]
      ensures asleep ==> k == |gaps| && !me.token && nextSeq == |chan.log| && 0 < chan.senderCount
      ensures k0 == |gaps| && !asleep ==> old(me.token) && !me.token
      ensures old(me.token) ==> !asleep && k == k0
    {
      k := k0;
      while !me.token && k < |gaps|
        invariant Valid() && chan.Later() && k0 <= k <= |gaps| && chan.Remembered(w, nextSeq, true, true)
        invariant chan.Stands() == at[k] && (k == k0 ==> me.token == old(me.token))
        invariant old(me.token) ==> k == k0
        decreases |gaps| - k
      {
        k := chan.Pause(gaps, at, k, me, w, nextSeq);
      }
      asleep := !me.token;
      me.token := false;
    }

    /** The slow path of `recv`: register, receive again, and if there still is nothing, park. `None` goes around. */
    method RegisterAndPark(gaps: seq<Gap<V>>, ghost at: seq<Standing<V>>, k0: nat, me: Thread)
      returns (k: nat, out: Option<Outcome<V>>)
      requires Valid() && k0 <= |gaps| && Follows(at, gaps, AfterGap) && chan.Stands() == at[k0]
      modifies this, chan`writeSeq, chan`log, chan`senderCount, chan.slots, me
      modifies chan.recvWaiters, chan.Threads(), chan.Cells()
      ensures Valid() && chan.Later() && k0 <= k <= |gaps| && (k0 < |gaps| ==> k0 < k) && chan.Stands() == at[k]
      ensures out.Some? ==> Ended(out.value, k == |gaps|, me)
      ensures out != Some(Asleep) ==> chan.recvWaiters.list == old(chan.recvWaiters.list)
      ensures out.None? ==> nextSeq == old(nextSeq) && 0 < old(chan.senderCount)
      ensures out.None? && k0 == |gaps| ==> old(me.token) && !me.token
    {
      ghost var others := chan.recvWaiters.list;
      var marker := new Selected();
      var w := new RecvWaiter(UNSELECTED, marker, me);
      chan.recvWaiters.Register(w);
      k, out := TryAndPark(gaps, at, k0, me, w);
      if out != Some(Asleep) {
        UnregisterLast(chan.recvWaiters.list, others, w);
        chan.recvWaiters.Unregister(w);
      }
    }

    /** ... with the waiter on the list. */
    method TryAndPark(gaps: seq<Gap<V>>, ghost at: seq<Standing<V>>, k0: nat, me: Thread, ghost w: RecvWaiter)
      returns (k: nat, out: Option<Outcome<V>>)
      requires Valid() && k0 <= |gaps| && Follows(at, gaps, AfterGap) && chan.Stands() == at[k0]
      requires w.thread == me && chan.Remembered(w, nextSeq, false, false)
      modifies this, chan`writeSeq, chan`log, chan`senderCount, chan.slots, me, chan.Threads(), chan.Cells()
      ensures Valid() && chan.Later() && k0 <= k <= |gaps| && (k0 < |gaps| ==> k0 < k) && chan.Stands() == at[k]
      ensures out.Some? ==> Ended(out.value, k == |gaps|, me)
      ensures out.None? ==> nextSeq == old(nextSeq) && 0 < old(chan.senderCount)
      ensures out.None? && k0 == |gaps| ==> old(me.token) && !me.token
    {
      var r, rounds, asleep;
      r, k, rounds := TryRecv(gaps, at, k0, me, w);
      if r != Err(Empty) {
        return k, Some(Found(r));
      }
      k, asleep := Park(gaps, at, k, me, w);
      out := if asleep then Some(Asleep) else None;
    }

    /** How `recv` ends: with a fair result other than `Empty`, or asleep, with nothing to receive and senders left. */
    twostate predicate Ended(new out: Outcome<V>, new atEnd: bool, new me: Thread)
      reads this, chan, me
    {
      match out
      case Found(r) => r != Err(Empty) && Fair(r)
      case Asleep => atEnd && !me.token && nextSeq == old(nextSeq) == |chan.log| && 0 < chan.senderCount
    }

    /**
     `recv`, in any interference. It sleeps for good only if there is nothing to receive and there
     are senders. `end` gaps took place. Otherwise it returns what a `try_recv` returned, which was not `Empty`; and
     the waiter list is then as it found it.
     */
    method Recv(gaps: seq<Gap<V>>, me: Thread) returns (out: Outcome<V>, ghost end: nat)
      requires Valid()
      modifies this, chan`writeSeq, chan`log, chan`senderCount, chan.slots, me
      modifies chan.recvWaiters, chan.Threads(), chan.Cells()
      ensures Valid() && chan.Later()
      ensures end <= |gaps| && chan.Stands() == Trace(old(chan.Stands()), gaps, AfterGap)[end]
      ensures Ended(out, end == |gaps|, me)
      ensures out.Found? ==> chan.recvWaiters.list == old(chan.recvWaiters.list)
      ensures old(nextSeq) < |old(chan.log)| || old(chan.senderCount) == 0 ==> out.Found?
    {
      var k: nat := 0;
      ghost var at := Trace(chan.Stands(), gaps, AfterGap);
      TraceFollows(chan.Stands(), gaps, AfterGap);
      while true
        invariant Valid() && chan.Later() && k <= |gaps| && nextSeq == old(nextSeq) && chan.Stands() == at[k]
        invariant chan.recvWaiters.list == old(chan.recvWaiters.list)
        decreases |gaps| - k, if me.token then 1 else 0
      {
        var r, rounds;
        r, k, rounds := TryRecv(gaps, at, k, me, null);
        if r != Err(Empty) {
          return Found(r), k;
        }
        var found;
        k, found := RegisterAndPark(gaps, at, k, me);
        if found.Some? {
          return found.value, k;
        }
      }
    }
  }
}
