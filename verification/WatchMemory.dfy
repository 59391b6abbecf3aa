/**
 The watch channel's objects, updated in place, with the list of blocked receivers.

 Between any two loads of a receiver's method other threads may send, mark, and drop senders:
 the caller passes, gap by gap, what they do, and the methods are proved for every such
 interference. `park` returns when there is a token; a thread that still has none after the
 last gap sleeps for good. Select waiters are the concern of module `Watch`.
 */
module WatchMemory {
  import opened Basics
  import opened Waiters

  datatype RecvError = Disconnected

  /** How a blocking call ends, if it does. */
  datatype Outcome<+T> = Found(result: Result<T, RecvError>) | Asleep

  /** What another thread does. */
  datatype Deed<+V> = Send(v: V) | Mark | DropSender | Stray

  type Gap<V> = seq<Deed<V>>

  /** What a receiver can learn of the channel, and whether a sender finds a receiver. */
  datatype Standing<+V> = Standing(version: nat, value: Option<V>, senders: nat, receivers: nat)

  /** What a deed does to it: only a sender can send, and only to a receiver. */
  function After<V>(st: Standing<V>, deed: Deed<V>): Standing<V> {
    match deed
    case Send(v) =>
      if st.senders != 0 && st.receivers != 0 then st.(version := st.version + 1, value := Some(v)) else st
    case Mark => if st.senders != 0 && st.receivers != 0 then st.(version := st.version + 1) else st
    case DropSender => if st.senders != 0 then st.(senders := st.senders - 1) else st
    case Stray => st
  }

  function AfterGap<V>(st: Standing<V>, gap: Gap<V>): Standing<V> {
    if gap == [] then st else After(AfterGap(st, gap[..|gap| - 1]), gap[|gap| - 1])
  }

  /** What two such loads find from gap `k` on: the version, if it is not the baseline; or the end of the senders. */
  ghost function LookFinds<V>(at: seq<Standing<V>>, k: nat, baseline: nat): Option<Result<nat, RecvError>>
    requires k < |at|
  {
    if at[Past(k, 1, |at| - 1)].version != baseline then Some(Ok(at[Past(k, 1, |at| - 1)].version))
    else if at[Past(k, 2, |at| - 1)].senders == 0 then Some(Err(Disconnected))
    else None
  }

  /** Whether a look beginning at gap `k` finds something: no sender, or for an armed cursor another version. */
  ghost predicate Pends<V>(at: seq<Standing<V>>, k: nat, armed: bool, cursor: nat)
    requires k < |at|
  {
    || at[Past(k, 1, |at| - 1)].senders == 0
    || (armed && cursor != at[Past(k, 2, |at| - 1)].version)
  }

  /** What the look with number `i` of a cursor answers: the first look arms it. */
  ghost predicate Answer<V>(at: seq<Standing<V>>, armed: bool, cursor: nat, i: nat)
    requires at != []
  {
    var total := |at| - 1;
    Pends(at, Past(0, 2 * i, total), armed || 0 < i, if armed then cursor else at[Past(0, 2, total)].version)
  }

  /** These are the first look that finds something and those before it, or looks through all the gaps. */
  ghost predicate LooksUntil<V>(at: seq<Standing<V>>, armed: bool, cursor: nat, looks: nat, ready: bool)
    requires at != []
  {
    && 0 < looks && (forall i: nat | i < looks - 1 :: !Answer(at, armed, cursor, i))
    && ready == Answer(at, armed, cursor, looks - 1)
    && (!ready ==> |at| - 1 <= 2 * looks)
  }

  class Chan<V> {
    var version: nat
    var value: Option<V>
    var senderCount: nat
    var receiverCount: nat
    const recvWaiters: RecvWaiterList

    constructor ()
      ensures version == 0 && value == None && senderCount == receiverCount == 1
      ensures fresh(recvWaiters) && recvWaiters.list == []
    {
      version, value, senderCount, receiverCount := 0, None, 1, 1;
      recvWaiters := new RecvWaiterList();
    }

    ghost function Stands(): Standing<V>
      reads this
    {
      Standing(version, value, senderCount, receiverCount)
    }

    ghost function Threads(): set<Thread>
      reads recvWaiters
    {
      set w | w in recvWaiters.list :: w.thread
    }

    ghost function Cells(): set<Selected>
      reads recvWaiters
    {
      set w | w in recvWaiters.list :: w.selected
    }

    /** Every thread on the list has a token. */
    ghost predicate AllSignalled()
      reads recvWaiters, Threads()
    {
      forall w | w in recvWaiters.list :: w.thread.token
    }

    /**
     `send`: refused without receivers, else the value is replaced, the version advances, and
     every blocked receiver has a token.
     */
    method Send(v: V) returns (r: Result<(), V>)
      modifies this`version, this`value, Threads(), Cells()
      ensures r == if receiverCount == 0 then Err(v) else Ok(())
      ensures r.Ok? ==> value == Some(v) && version == old(version) + 1 && AllSignalled()
      ensures r.Err? ==> value == old(value) && version == old(version)
      ensures forall w | w in recvWaiters.list :: old(w.thread.token) ==> w.thread.token
    {
      if receiverCount == 0 {
        return Err(v);
      }
      value := Some(v);
      version := version + 1;
      recvWaiters.WakeAll();
      r := Ok(());
    }

    /** `mark_changed`: as `send`, but the value stays. */
    method MarkChanged() returns (r: Result<(), ()>)
      modifies this`version, Threads(), Cells()
      ensures r == if receiverCount == 0 then Err(()) else Ok(())
      ensures version == if r.Ok? then old(version) + 1 else old(version)
      ensures r.Ok? ==> AllSignalled()
      ensures forall w | w in recvWaiters.list :: old(w.thread.token) ==> w.thread.token
    {
      if receiverCount == 0 {
        return Err(());
      }
      version := version + 1;
      recvWaiters.WakeAll();
      r := Ok(());
    }

    /** A sender's `drop`: the last one unparks every blocked receiver. */
    method DropSender()
      requires 0 < senderCount
      modifies this`senderCount, Threads(), Cells()
      ensures senderCount == old(senderCount) - 1
      ensures senderCount == 0 ==> AllSignalled()
      ensures forall w | w in recvWaiters.list :: old(w.thread.token) ==> w.thread.token
    {
      senderCount := senderCount - 1;
      if senderCount == 0 {
        recvWaiters.WakeAll();
      }
    }

    /** Time passes: versions only advance, senders only leave, and without them nothing changes. */
    twostate predicate Later()
      reads this
    {
      && old(version) <= version && senderCount <= old(senderCount)
      && (version == old(version) ==> value == old(value))
      && (old(senderCount) == 0 ==> version == old(version))
    }

    /** What the thread waiting as `w` has found unchanged is unchanged, or it has a token. */
    ghost predicate Remembered(w: RecvWaiter, baseline: nat, versionChecked: bool, countChecked: bool)
      reads this, recvWaiters, w.thread
    {
      && w in recvWaiters.list
      && (versionChecked && !w.thread.token ==> version == baseline)
      && (countChecked && !w.thread.token ==> 0 < senderCount)
    }

    twostate predicate StillRemembered(w: RecvWaiter?, baseline: nat)
      reads this, recvWaiters, if w == null then {} else {w.thread}
    {
      w != null ==>
        && (old(Remembered(w, baseline, false, false)) ==> Remembered(w, baseline, false, false))
        && (old(Remembered(w, baseline, true, false)) ==> Remembered(w, baseline, true, false))
        && (old(Remembered(w, baseline, true, true)) ==> Remembered(w, baseline, true, true))
    }

    /** One whole operation of another thread. Without senders nobody can act any more. */
    method Act(deed: Deed<V>, me: Thread, ghost w: RecvWaiter?, ghost baseline: nat)
      modifies this`version, this`value, this`senderCount, me, Threads(), Cells()
      ensures Later() && StillRemembered(w, baseline)
      ensures Stands() == After(old(Stands()), deed)
      ensures me !in Threads() ==> me.token == (old(me.token) || deed.Stray?)
      ensures old(me.token) || deed.Stray? ==> me.token
    {
      match deed
      case Stray => me.token := true;
      case Send(v) => if senderCount != 0 { var r := Send(v); }
      case Mark => if senderCount != 0 { var r := MarkChanged(); }
      case DropSender => if senderCount != 0 { DropSender(); }
    }

    /** One gap. */
    method Interfere(gap: Gap<V>, me: Thread, ghost w: RecvWaiter?, ghost baseline: nat)
      modifies this`version, this`value, this`senderCount, me, Threads(), Cells()
      ensures Later() && StillRemembered(w, baseline)
      ensures Stands() == AfterGap(old(Stands()), gap)
      ensures me !in Threads() ==> me.token == (old(me.token) || Stray in gap)
      ensures old(me.token) || Stray in gap ==> me.token
    {
      for i := 0 to |gap|
        invariant Later() && StillRemembered(w, baseline)
        invariant Stands() == AfterGap(old(Stands()), gap[..i])
        invariant me !in Threads() ==> me.token == (old(me.token) || Stray in gap[..i])
        invariant old(me.token) || Stray in gap[..i] ==> me.token
      {
        Act(gap[i], me, w, baseline);
        assert gap[..i + 1] == gap[..i] + [gap[i]];
      }
      assert gap[..|gap|] == gap;
    }

    /** Before each load the next gap, if any, takes place. */
    method Pause(gaps: seq<Gap<V>>, ghost at: seq<Standing<V>>, k: nat, me: Thread, ghost w: RecvWaiter?,
                 ghost baseline: nat)
      returns (next: nat)
      requires k <= |gaps| && Follows(at, gaps, AfterGap) && Stands() == at[k]
      modifies this`version, this`value, this`senderCount, me, Threads(), Cells()
      ensures Later() && StillRemembered(w, baseline)
      ensures next == Past(k, 1, |gaps|) && Stands() == at[next]
      ensures k == |gaps| ==> me.token == old(me.token)
      ensures k < |gaps| && me !in Threads() ==> me.token == (old(me.token) || Stray in gaps[k])
    {
      next := k;
      if k < |gaps| {
        assert GapLeads(at, gaps, AfterGap, k);
        Interfere(gaps[k], me, w, baseline);
        next := k + 1;
      }
    }
  }

  class Receiver<V> {
    const chan: Chan<V>
    var cursorVersion: nat
    var cursorArmed: bool

    predicate Valid()
      reads this, chan
    {
      cursorVersion <= chan.version
    }

    /** Something happened since the cursor was set: a newer version, or the end of the senders. */
    predicate Pending()
      reads this, chan
    {
      cursorVersion < chan.version || chan.senderCount == 0
    }

    constructor (chan: Chan<V>, cursorVersion: nat, cursorArmed: bool)
      ensures this.chan == chan && this.cursorVersion == cursorVersion && this.cursorArmed == cursorArmed
    {
      this.chan, this.cursorVersion, this.cursorArmed := chan, cursorVersion, cursorArmed;
    }

    /** `clone`: an own cursor, standing where the original's stands. */
    method Clone() returns (copy: Receiver<V>)
      requires Valid()
      modifies chan`receiverCount
      ensures fresh(copy) && copy.chan == chan && copy.Valid() && Valid()
      ensures copy.cursorVersion == cursorVersion && copy.cursorArmed == cursorArmed
      ensures chan.receiverCount == old(chan.receiverCount) + 1
    {
      chan.receiverCount := chan.receiverCount + 1;
      copy := new Receiver(chan, cursorVersion, cursorArmed);
    }

    /** `arm_cursor`: an unarmed cursor is set to the live version, which is returned in any case. */
    method ArmCursor() returns (cur: nat)
      requires Valid()
      modifies this
      ensures Valid() && cursorArmed && cur == chan.version
      ensures cursorVersion == if old(cursorArmed) then old(cursorVersion) else cur
    {
      cur := chan.version;
      if !cursorArmed {
        cursorVersion := cur;
        cursorArmed := true;
      }
    }

    /**
     `is_ready`, in any interference: true exactly if one of its two loads finds something. An
     unarmed cursor is armed at the version loaded, and never ready while there are senders.
     */
    method IsReady(gaps: seq<Gap<V>>, ghost at: seq<Standing<V>>, k: nat, me: Thread) returns (ready: bool, next: nat)
      requires Valid() && k <= |gaps| && Follows(at, gaps, AfterGap) && chan.Stands() == at[k]
      modifies this, chan`version, chan`value, chan`senderCount, me, chan.Threads(), chan.Cells()
      ensures Valid() && chan.Later() && next <= |gaps| && chan.Stands() == at[next]
      ensures ready == Pends(at, k, old(cursorArmed), old(cursorVersion))
      ensures ready ==> Pending()
      ensures old(cursorArmed && Pending()) || old(chan.senderCount) == 0 ==> ready
      ensures next == Past(k, if at[Past(k, 1, |gaps|)].senders == 0 then 1 else 2, |gaps|)
      ensures cursorArmed == (old(cursorArmed) || at[Past(k, 1, |gaps|)].senders != 0)
      ensures cursorVersion == if cursorArmed && !old(cursorArmed) then at[next].version else old(cursorVersion)
    {
      next := chan.Pause(gaps, at, k, me, null, 0);
      if chan.senderCount == 0 {
        return true, next;
      }
      next := chan.Pause(gaps, at, next, me, null, 0);
      var cur := ArmCursor();
      ready := cur != cursorVersion;
    }

    /** The two loads at the top of the loop of `await_change_from`. `None`: nothing has changed yet. */
    method Look(baseline: nat, gaps: seq<Gap<V>>, ghost at: seq<Standing<V>>, k: nat, me: Thread)
      returns (next: nat, found: Option<Result<nat, RecvError>>)
      requires Valid() && baseline <= chan.version
      requires k <= |gaps| && Follows(at, gaps, AfterGap) && chan.Stands() == at[k]
      modifies this, chan`version, chan`value, chan`senderCount, me, chan.Threads(), chan.Cells()
      ensures Valid() && chan.Later() && next <= |gaps| && chan.Stands() == at[next]
      ensures found == LookFinds(at, k, baseline)
      ensures found.Some? ==> Reported(baseline, found.value)
      ensures found.None? ==> cursorVersion == old(cursorVersion) && cursorArmed == old(cursorArmed)
      ensures baseline < old(chan.version) ==> found == Some(Ok(cursorVersion))
      ensures baseline == chan.version && old(chan.senderCount) == 0 ==> found == Some(Err(Disconnected))
      ensures next == Past(k, if at[Past(k, 1, |gaps|)].version != baseline then 1 else 2, |gaps|)
      ensures k == |gaps| ==> me.token == old(me.token)
    {
      next := chan.Pause(gaps, at, k, me, null, 0);
      var cur := chan.version;
      if cur != baseline {
        cursorVersion := cur;
        cursorArmed := false;
        return next, Some(Ok(cur));
      }
      next := chan.Pause(gaps, at, next, me, null, 0);
      if chan.senderCount == 0 {
        cursorArmed := false;
        return next, Some(Err(Disconnected));
      }
      found := None;
    }

    /** A report of `await_change_from`, right after it is made: true, and the cursor is set and disarmed. */
    twostate predicate Reported(baseline: nat, new result: Result<nat, RecvError>)
      reads this, chan
    {
      && !cursorArmed
      && match result
         case Ok(cur) => baseline < cur == chan.version == cursorVersion
         case Err(_) => chan.senderCount == 0 && cursorVersion == old(cursorVersion)
    }

    /**
     The rest of a round: register, load both again, and unless something has changed, park.
     `asleep` is for good: then nothing has changed.
     */
    method RegisterAndPark(baseline: nat, gaps: seq<Gap<V>>, ghost at: seq<Standing<V>>, k: nat, me: Thread,
                           sel: Selected)
      returns (next: nat, parked: bool, asleep: bool)
      requires Valid() && baseline <= chan.version
      requires k <= |gaps| && Follows(at, gaps, AfterGap) && chan.Stands() == at[k]
      modifies chan`version, chan`value, chan`senderCount, me, chan.recvWaiters, chan.Threads(), chan.Cells(), sel
      ensures Valid() && chan.Later()
      ensures k <= next <= |gaps| && (k < |gaps| ==> k < next) && chan.Stands() == at[next]
      ensures parked == LookFinds(at, k, baseline).None?
      ensures baseline < old(chan.version) || old(chan.senderCount) == 0 ==> !parked
      ensures asleep ==> parked && next == |gaps| && !me.token && chan.version == baseline && 0 < chan.senderCount
      ensures !asleep ==> chan.recvWaiters.list == old(chan.recvWaiters.list)
      ensures k == |gaps| && parked && !asleep ==> old(me.token) && !me.token
    {
      ghost var others := chan.recvWaiters.list;
      var w := new RecvWaiter(0, sel, me);
      chan.recvWaiters.Register(w);
      next, parked, asleep := LookAndPark(baseline, gaps, at, k, me, w);
      if !asleep {
        UnregisterLast(chan.recvWaiters.list, others, w);
        chan.recvWaiters.Unregister(w);
      }
    }

    /** ... with the waiter on the list. */
    method LookAndPark(baseline: nat, gaps: seq<Gap<V>>, ghost at: seq<Standing<V>>, k: nat, me: Thread,
                       ghost w: RecvWaiter)
      returns (next: nat, parked: bool, asleep: bool)
      requires Valid() && baseline <= chan.version
      requires k <= |gaps| && Follows(at, gaps, AfterGap) && chan.Stands() == at[k]
      requires w in chan.recvWaiters.list && w.thread == me
      modifies chan`version, chan`value, chan`senderCount, me, chan.Threads(), chan.Cells()
      ensures Valid() && chan.Later()
      ensures k <= next <= |gaps| && (k < |gaps| ==> k < next) && chan.Stands() == at[next]
      ensures parked == LookFinds(at, k, baseline).None?
      ensures baseline < old(chan.version) || old(chan.senderCount) == 0 ==> !parked
      ensures asleep ==> parked && next == |gaps| && !me.token && chan.version == baseline && 0 < chan.senderCount
      ensures k == |gaps| && parked && !asleep ==> old(me.token) && !me.token
    {
      parked, asleep := false, false;
      next := chan.Pause(gaps, at, k, me, w, baseline);
      if chan.version == baseline {
        next := chan.Pause(gaps, at, next, me, w, baseline);
        if chan.senderCount != 0 {
          parked := true;
          next, asleep := Park(baseline, gaps, at, next, me, w);
        }
      }
    }

    /** `park`: until there is a token, which is taken; or for good, when nothing more happens. */
    method Park(baseline: nat, gaps: seq<Gap<V>>, ghost at: seq<Standing<V>>, k: nat, me: Thread, ghost w: RecvWaiter)
      returns (next: nat, asleep: bool)
      requires Valid() && k <= |gaps| && w.thread == me && chan.Remembered(w, baseline, true, true)
      requires Follows(at, gaps, AfterGap) && chan.Stands() == at[k]
      modifies chan`version, chan`value, chan`senderCount, me, chan.Threads(), chan.Cells()
      ensures Valid() && chan.Later() && k <= next <= |gaps| && chan.Stands() == at[next]
      ensures asleep ==> next == |gaps| && !me.token && chan.version == baseline && 0 < chan.senderCount
      ensures k == |gaps| && !asleep ==> old(me.token) && !me.token
      ensures old(me.token) ==> !asleep && next == k
    {
      next := k;
      while !me.token && next < |gaps|
        invariant Valid() && chan.Later() && k <= next <= |gaps| && chan.Remembered(w, baseline, true, true)
        invariant chan.Stands() == at[next]
        invariant next == k ==> me.token == old(me.token)
        invariant old(me.token) ==> next == k
        decreases |gaps| - next
      {
        next := chan.Pause(gaps, at, next, me, w, baseline);
      }
      asleep := !me.token;
      me.token := false;
    }

    /**
     `await_change_from`, in any interference. `parks` counts how often it parked, and `end` the
     gaps that took place. It reports exactly a version other than the baseline, or that the
     senders are gone; what the first two loads find is reported without parking; it sleeps for
     good only if there is neither; and when it returns, the waiter list is as it found it.
     */
    method AwaitChangeFrom(baseline: nat, gaps: seq<Gap<V>>, me: Thread)
      returns (r: Outcome<nat>, parks: nat, ghost end: nat)
      requires Valid() && baseline <= chan.version
      modifies this, chan`version, chan`value, chan`senderCount, me, chan.recvWaiters, chan.Threads(), chan.Cells()
      ensures Valid() && chan.Later()
      ensures end <= |gaps| && chan.Stands() == Trace(old(chan.Stands()), gaps, AfterGap)[end]
      ensures r.Found? ==> Reported(baseline, r.result) && chan.recvWaiters.list == old(chan.recvWaiters.list)
      ensures r.Asleep? ==>
                && end == |gaps| && !me.token && chan.version == baseline && 0 < chan.senderCount && 0 < parks
                && cursorVersion == old(cursorVersion) && cursorArmed == old(cursorArmed)
      ensures var first := LookFinds(Trace(old(chan.Stands()), gaps, AfterGap), 0, baseline);
              first.Some? ==> r == Found(first.value) && parks == 0
      ensures baseline < old(chan.version) ==> r == Found(Ok(cursorVersion)) && parks == 0
      ensures baseline == old(chan.version) && old(chan.senderCount) == 0 ==>
                r == Found(Err(Disconnected)) && parks == 0
      ensures gaps == [] && baseline == old(chan.version) && 0 < old(chan.senderCount) ==> r == Asleep
    {
      var sel := new Selected();
      var k: nat := 0;
      parks := 0;
      ghost var at := Trace(chan.Stands(), gaps, AfterGap);
      TraceFollows(chan.Stands(), gaps, AfterGap);
      while true
        invariant Valid() && chan.Later() && k <= |gaps| && chan.Stands() == at[k]
        invariant cursorVersion == old(cursorVersion) && cursorArmed == old(cursorArmed)
        invariant chan.recvWaiters.list == old(chan.recvWaiters.list)
        invariant if k == 0 && parks == 0 then true else LookFinds(at, 0, baseline).None?
        invariant baseline < old(chan.version) || old(chan.senderCount) == 0 ==> parks == 0
        decreases |gaps| - k, if me.token then 1 else 0
      {
        var found, parked, asleep;
        k, found := Look(baseline, gaps, at, k, me);
        if found.Some? {
          return Found(found.value), parks, k;
        }
        k, parked, asleep := RegisterAndPark(baseline, gaps, at, k, me, sel);
        parks := if parked then parks + 1 else parks;
        if asleep {
          return Asleep, parks, k;
        }
      }
    }

    /**
     `changed`: the baseline is the live version when it is loaded, after the gap `before`, even if
     the cursor was armed before. It reports only a change made after that, and sleeps for good
     only if none is made.
     */
    method Changed(before: Gap<V>, gaps: seq<Gap<V>>, me: Thread) returns (r: Outcome<()>, parks: nat, ghost end: nat)
      requires Valid()
      modifies this, chan`version, chan`value, chan`senderCount, me, chan.recvWaiters, chan.Threads(), chan.Cells()
      ensures Valid() && chan.Later()
      ensures old(chan.senderCount) == 0 ==>
                r == Found(Err(Disconnected)) && parks == 0 && !cursorArmed && chan.Stands() == old(chan.Stands())
      ensures 0 < old(chan.senderCount) ==>
                var began := AfterGap(old(chan.Stands()), before);
                && end <= |gaps| && chan.Stands() == Trace(began, gaps, AfterGap)[end]
                && (r == Found(Ok(())) ==> began.version < cursorVersion == chan.version && !cursorArmed)
                && (r.Asleep? ==> end == |gaps| && began.version == chan.version)
      ensures r.Found? && r.result.Err? ==> chan.senderCount == 0 && !cursorArmed
      ensures r.Asleep? ==> !me.token && 0 < parks && 0 < chan.senderCount
    {
      if chan.senderCount == 0 {
        cursorArmed := false;
        return Found(Err(Disconnected)), 0, 0;
      }
      chan.Interfere(before, me, null, 0);
      var current := ArmCursor();
      var seen;
      seen, parks, end := AwaitChangeFrom(current, gaps, me);
      r := Report(seen);
    }

    /** `map(|_| ())` */
    function Report(seen: Outcome<nat>): (r: Outcome<()>)
      ensures r.Asleep? <==> seen.Asleep?
      ensures r.Found? ==> (r.result.Ok? <==> seen.result.Ok?)
    {
      match seen
      case Asleep => Asleep
      case Found(Ok(_)) => Found(Ok(()))
      case Found(Err(e)) => Found(Err(e))
    }

    /** `complete_recv`: what its first two loads find is reported without parking. */
    method CompleteRecv(gaps: seq<Gap<V>>, me: Thread) returns (r: Outcome<()>, parks: nat, ghost end: nat)
      requires Valid()
      modifies this, chan`version, chan`value, chan`senderCount, me, chan.recvWaiters, chan.Threads(), chan.Cells()
      ensures Valid() && chan.Later()
      ensures end <= |gaps| && chan.Stands() == Trace(old(chan.Stands()), gaps, AfterGap)[end]
      ensures var first := LookFinds(Trace(old(chan.Stands()), gaps, AfterGap), 0, old(cursorVersion));
              first.Some? ==> r.Found? && (r.result.Ok? <==> first.value.Ok?) && parks == 0
      ensures old(Pending()) ==> r.Found? && parks == 0
      ensures old(cursorVersion < chan.version) ==> r == Found(Ok(()))
      ensures r == Found(Ok(())) ==> old(cursorVersion) < cursorVersion == chan.version && !cursorArmed
      ensures r.Found? && r.result.Err? ==>
                chan.senderCount == 0 && cursorVersion == old(cursorVersion) && !cursorArmed
      ensures r.Asleep? ==> end == |gaps| && !me.token && cursorVersion == chan.version && 0 < chan.senderCount
    {
      var baseline := cursorVersion;
      var seen;
      seen, parks, end := AwaitChangeFrom(baseline, gaps, me);
      r := Report(seen);
    }

    /** A receiver is asked, look by look, until it is ready. */
    method AskUntilReady(gaps: seq<Gap<V>>, ghost at: seq<Standing<V>>, me: Thread)
      returns (ready: bool, asked: nat, ghost looks: nat)
      requires Valid() && Follows(at, gaps, AfterGap) && chan.Stands() == at[0]
      modifies this, chan`version, chan`value, chan`senderCount, me, chan.Threads(), chan.Cells()
      ensures Valid() && chan.Later() && asked <= |gaps| && chan.Stands() == at[asked]
      ensures LooksUntil(at, old(cursorArmed), old(cursorVersion), looks, ready)
      ensures old(cursorVersion) <= cursorVersion && if ready then Pending() else asked == |gaps|
      ensures Past(0, 2 * looks - 1, |gaps|) <= asked <= Past(0, 2 * looks, |gaps|)
      ensures old(cursorArmed && Pending()) || old(chan.senderCount) == 0 ==> ready
    {
      ghost var armed, cursor := cursorArmed, cursorVersion;
      asked, looks := 0, 1;
      ready, asked := IsReady(gaps, at, asked, me);
      while !ready && asked < |gaps|
        invariant Valid() && chan.Later() && asked <= |gaps| && chan.Stands() == at[asked]
        invariant 0 < looks && forall i: nat | i < looks - 1 :: !Answer(at, armed, cursor, i)
        invariant ready == Answer(at, armed, cursor, looks - 1)
        invariant Past(0, 2 * looks - 1, |gaps|) <= asked <= Past(0, 2 * looks, |gaps|)
        invariant old(cursorVersion) <= cursorVersion && (ready ==> Pending())
        invariant !ready ==> asked == Past(0, 2 * looks, |gaps|) && cursorArmed
        invariant !ready ==> cursorVersion == if armed then cursor else at[Past(0, 2, |gaps|)].version
        invariant (armed && old(Pending())) || old(chan.senderCount) == 0 ==> ready
        decreases |gaps| - asked
      {
        ready, asked := IsReady(gaps, at, asked, me);
        looks := looks + 1;
      }
    }

    /**
     A `select!` whose arm is this receiver, as far as its try phases decide it: a clone is asked
     until it is ready, and then the ORIGINAL completes. Every look but the last finds nothing, and
     the last one does or comes at the end of the gaps. If the clone was ready, then whatever
     others do in between, the completion does not park. `asked` gaps go to the looks, `end` to it.
     */
    method SelectAndComplete(asking: seq<Gap<V>>, gaps: seq<Gap<V>>, me: Thread)
      returns (ready: bool, r: Outcome<()>, parks: nat, ghost looks: nat, ghost asked: nat, ghost end: nat)
      requires Valid()
      modifies this, chan, me, chan.recvWaiters, chan.Threads(), chan.Cells()
      ensures Valid() && chan.Later()
      ensures LooksUntil(AskingTrace(old(chan.Stands()), asking), old(cursorArmed), old(cursorVersion), looks, ready)
      ensures asked <= |asking| && (!ready ==> asked == |asking|)
      ensures var began := AskingTrace(old(chan.Stands()), asking)[asked];
              end <= |gaps| && chan.Stands() == Trace(began, gaps, AfterGap)[end]
      ensures old(cursorArmed && Pending()) || old(chan.senderCount) == 0 ==> ready
      ensures ready ==> r.Found? && parks == 0
      ensures ready && old(cursorVersion < chan.version) ==> r == Found(Ok(()))
      ensures r == Found(Ok(())) ==> old(cursorVersion) < cursorVersion == chan.version && !cursorArmed
      ensures r.Found? && r.result.Err? ==> chan.senderCount == 0 && !cursorArmed
      ensures !ready ==> r == Asleep && cursorVersion == old(cursorVersion) && cursorArmed == old(cursorArmed)
    {
      var copy := Clone();
      ghost var at := AskingTrace(old(chan.Stands()), asking);
      TraceFollows(chan.Stands(), asking, AfterGap);
      ready, asked, looks := copy.AskUntilReady(asking, at, me);
      parks := 0;
      r, end := Asleep, 0;
      if ready {
        r, parks, end := CompleteRecv(gaps, me);
      }
    }
  }

  /** The clone is one receiver more. */
  function AskingTrace<V>(st: Standing<V>, asking: seq<Gap<V>>): (at: seq<Standing<V>>)
    ensures |at| == |asking| + 1
  {
    Trace(st.(receivers := st.receivers + 1), asking, AfterGap)
  }
}
