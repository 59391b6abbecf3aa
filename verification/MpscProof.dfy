/**
 The bounded MPSC channel loses no wakeup, and drains before it reports disconnection.
 */
module MpscProof {
  import opened Basics
  import R = Ring
  import P = RingProperties
  import opened Mpsc

  // ------------------------------------------------------------------------------------
  // What the rest of the channel needs to know about a step of the ring
  // ------------------------------------------------------------------------------------

  /** The ring went from `a` to `b` by actions of thread `t`. */
  ghost predicate RingMoved<V>(a: R.State<V>, b: R.State<V>, t: Tid) {
    && R.Inv(a) && R.Inv(b) && a.cap == b.cap && |a.pcs| == |b.pcs|
    && (forall u: nat | u < |a.pcs| && u != t :: b.pcs[u] == a.pcs[u])
    && a.tail <= b.tail && a.head <= b.head
    && (forall c: nat | c < a.tail :: b.producer[c] == a.producer[c])
    && (forall c: nat | R.Published(a, c) :: R.Published(b, c))
    && (a.tail != b.tail ==> t < |a.pcs| && a.pcs[t].PushReady?)
  }

  /** Ticket `c` got published on the way from `a` to `b`: `t` is its producer, just finished. */
  ghost predicate PublishedNow<V>(a: R.State<V>, b: R.State<V>, t: Tid, c: nat)
    requires R.Shaped(a) && R.Shaped(b) && |a.pcs| == |b.pcs|
  {
    R.Published(b, c) && !R.Published(a, c) ==>
      && t < |a.pcs|
      && a.pcs[t].PushWritten? && b.pcs[t].PushOk?
      && b.producer[c] == t
  }

  lemma ProducersStay<V>(a: R.State<V>, act: R.Action<V>)
    requires R.Inv(a)
    ensures var b := R.Next(a, act);
            && a.tail <= b.tail && a.head <= b.head
            && (forall c: nat | c < a.tail :: b.producer[c] == a.producer[c])
            && (forall u: nat | u < |a.pcs| && u != act.tid :: b.pcs[u] == a.pcs[u])
            && (a.tail != b.tail ==> act.tid < |a.pcs| && a.pcs[act.tid].PushReady?)
  {
  }

  lemma PublishedStays<V>(a: R.State<V>, act: R.Action<V>, c: nat)
    requires R.Inv(a) && R.Published(a, c)
    ensures R.Published(R.Next(a, act), c)
  {
    ProducersStay(a, act);
    if act.tid < |a.pcs| {
      assert R.ThreadOk(a, act.tid);
    }
  }

  lemma RingStep<V>(a: R.State<V>, act: R.Action<V>)
    requires R.Inv(a)
    ensures RingMoved(a, R.Next(a, act), act.tid)
  {
    R.StepInv(a, act);
    ProducersStay(a, act);
    forall c: nat | R.Published(a, c) ensures R.Published(R.Next(a, act), c) {
      PublishedStays(a, act, c);
    }
  }

  lemma RingStepPublishes<V>(a: R.State<V>, act: R.Action<V>, c: nat)
    requires R.Inv(a)
    ensures PublishedNow(a, R.Next(a, act), act.tid, c)
  {
    ProducersStay(a, act);
    if act.tid < |a.pcs| {
      assert R.ThreadOk(a, act.tid);
    }
  }

  /** A step of `t` inside a push or a pop stays inside it or finishes it. */
  lemma CallGoesOn<V>(a: R.State<V>, t: Tid)
    requires R.Inv(a) && t < |a.pcs|
    ensures InPush(a.pcs[t]) ==> var pc := R.Next(a, R.Step(t)).pcs[t]; InPush(pc) || pc.PushOk? || pc.PushErr?
    ensures InPop(a.pcs[t]) ==> var pc := R.Next(a, R.Step(t)).pcs[t]; InPop(pc) || pc.PopSome? || pc.PopNone?
    ensures InPop(a.pcs[t]) && R.Next(a, R.Step(t)).pcs[t].PopNone? ==>
              var b := R.Next(a, R.Step(t));
              b.pcs[t].pos == b.head && !R.Published(b, b.head)
  {
    assert R.ThreadOk(a, t);
    if a.pcs[t].PopLoaded? {
      P.PopRefusal(a, t);
      RingStepPublishes(a, R.Step(t), a.head);
    }
  }

  predicate InPush<V>(pc: R.Pc<V>) {
    pc.PushStart? || pc.PushLoaded? || pc.PushReady? || pc.PushClaimed? || pc.PushWritten?
  }

  predicate InPop<V>(pc: R.Pc<V>) {
    pc.PopStart? || pc.PopLoaded? || pc.PopReady? || pc.PopClaimed? || pc.PopRead?
  }

  /** Between two calls nothing moves except the thread's own control state. */
  lemma StartingAPop<V>(a: R.State<V>, t: Tid)
    requires R.Inv(a) && t < |a.pcs| && R.AtRest(a.pcs[t])
    ensures RingMoved(a, StartPop(a, t), t) && StartPop(a, t).pcs[t].PopStart?
    ensures forall c: nat :: R.Published(StartPop(a, t), c) == R.Published(a, c)
    ensures StartPop(a, t).tail == a.tail && StartPop(a, t).head == a.head
  {
    R.StepInv(a, R.Return(t));
    R.StepInv(R.Next(a, R.Return(t)), R.CallPop(t));
    assert forall c: nat :: R.Producing(StartPop(a, t), c) == R.Producing(a, c);
  }

  lemma StartingAPush<V>(a: R.State<V>, t: Tid, v: V)
    requires R.Inv(a) && t < |a.pcs| && R.AtRest(a.pcs[t])
    ensures RingMoved(a, StartPush(a, t, v), t) && StartPush(a, t, v).pcs[t].PushStart?
    ensures forall c: nat :: R.Published(StartPush(a, t, v), c) == R.Published(a, c)
    ensures StartPush(a, t, v).tail == a.tail && StartPush(a, t, v).head == a.head
  {
    R.StepInv(a, R.Return(t));
    R.StepInv(R.Next(a, R.Return(t)), R.CallPush(t, v));
    assert forall c: nat :: R.Producing(StartPush(a, t, v), c) == R.Producing(a, c);
  }

  // ------------------------------------------------------------------------------------
  // The invariant of the channel
  // ------------------------------------------------------------------------------------

  /** Where a thread stands in its ring call, given where it stands in the channel operation. */
  ghost predicate Fits<V>(op: Op<V>, pc: R.Pc<V>) {
    match op
    case SendPush => InPush(pc)
    case TryPop(_) => InPop(pc)
    case RecvFast(_) => InPop(pc)
    case RecvRecheck(_) => InPop(pc)
    case RecvRecheckCount(_, pos) => pc == R.PopNone(pos)
    case RecvPark(_, pos) => pc == R.PopNone(pos)
    case _ => R.AtRest(pc)
  }

  /** The waiter that an operation has registered. */
  function Guard<V>(op: Op<V>): Option<Wid> {
    match op
    case RecvRecheck(w) => Some(w)
    case RecvRecheckCount(w, _) => Some(w)
    case RecvPark(w, _) => Some(w)
    case RecvUnregister(w, _) => Some(w)
    case RecvWakeSender(guard, _) => guard
    case _ => None
  }

  /** A registered waiter is on the list and belongs to the thread that registered it. */
  ghost predicate Listed<V>(s: State<V>, t: Tid)
    requires Shaped(s) && t < |s.ops|
  {
    var guard := Guard(s.ops[t]);
    guard.Some? ==> && guard.value < |s.waiters|
                    && s.waiters[guard.value].tid == t
                    && guard.value in s.list
  }

  /** This sender will still unpark the thread of waiter `w`, which is on the list. */
  ghost predicate SenderOwes<V>(op: Op<V>, w: Wid) {
    op.SendSnapshot? || ((op.SendLook? || op.SendUnpark?) && w in op.rest)
  }

  ghost predicate DropperOwes<V>(op: Op<V>, w: Wid) {
    op.DropSnapshot? || ((op.DropExchange? || op.DropUnpark?) && w in op.rest)
  }

  /**
   A receiver that found nothing at `pos` after registering: once ticket `pos` is published
   it has a token, or the producer of that very ticket still owes it an unpark.
   */
  ghost predicate OwedBySender<V>(s: State<V>, t: Tid)
    requires Shaped(s) && t < |s.ops|
  {
    s.ops[t].RecvRecheckCount? || s.ops[t].RecvPark? ==>
      var pos := s.ops[t].pos;
      && pos <= s.ring.head
      && (R.Published(s.ring, pos) ==>
            || s.tokens[t]
            || (s.ring.producer[pos] < |s.ops| && SenderOwes(s.ops[s.ring.producer[pos]], s.ops[t].w)))
  }

  /** A receiver about to park, with no senders left, has a token or is owed one by the last dropper. */
  ghost predicate OwedByDropper<V>(s: State<V>, t: Tid)
    requires Shaped(s) && t < |s.ops|
  {
    s.ops[t].RecvPark? && s.senders == 0 ==>
      || s.tokens[t]
      || (s.lastDropper < |s.ops| && DropperOwes(s.ops[s.lastDropper], s.ops[t].w))
  }

  /** A receive that began without senders: when it finds nothing, nothing is left. */
  ghost predicate DrainOk<V>(s: State<V>, t: Tid)
    requires Shaped(s) && t < |s.ops|
  {
    match s.ops[t]
    case TryPop(late) => late ==> s.senders == 0
    case RecvFast(late) => late ==> s.senders == 0
    case TryCount(late) => late ==> s.senders == 0 && s.ring.head == s.ring.tail
    case RecvFastCount(late) => late ==> s.senders == 0 && s.ring.head == s.ring.tail
    case Returned(outcome, late) => late ==>
      s.senders == 0 && (outcome.Disconnected? ==> s.ring.head == s.ring.tail)
    case _ => true
  }

  /** Plain waiters are never selected: their compare-exchange writes what is already there. */
  ghost predicate Plain<V>(s: State<V>) {
    forall w | 0 <= w < |s.waiters| ::
      s.waiters[w].caseId == UNSELECTED && s.waiters[w].selected == UNSELECTED
  }

  ghost predicate Inv<V>(s: State<V>) {
    && Shaped(s)
    && R.Inv(s.ring)
    && Plain(s)
    && (s.senders == 0 ==> NobodySends(s))
    && (forall t: nat | t < |s.ops| :: Fits(s.ops[t], s.ring.pcs[t]))
    && (forall t: nat | t < |s.ops| :: Listed(s, t))
    && (forall t: nat | t < |s.ops| :: OwedBySender(s, t))
    && (forall t: nat | t < |s.ops| :: OwedByDropper(s, t))
    && (forall t: nat | t < |s.ops| :: DrainOk(s, t))
  }

  lemma InitInv<V>(cap: nat, threads: nat)
    requires 2 <= cap
    ensures Inv(Init<V>(cap, threads))
  {
    R.InitInv<V>(cap, threads);
  }

  // ------------------------------------------------------------------------------------
  // Every step keeps the invariant
  // ------------------------------------------------------------------------------------

  /** What an action does to the ring: it is a move of that thread, which publishes only at the end of a push. */
  ghost predicate RingPart<V>(s: State<V>, r: State<V>, t: Tid)
    requires Shaped(s) && Shaped(r) && t < |s.ops| == |r.ops|
  {
    && RingMoved(s.ring, r.ring, t)
    && (forall c: nat | R.Published(r.ring, c) && !R.Published(s.ring, c) ::
          s.ops[t].SendPush? && r.ops[t].SendSnapshot? && r.ring.producer[c] == t)
    && Fits(r.ops[t], r.ring.pcs[t])
    && (r.ring.tail != s.ring.tail ==> s.ops[t].SendPush?)
  }

  lemma RingMovedRefl<V>(a: R.State<V>, t: Tid)
    requires R.Inv(a)
    ensures RingMoved(a, a, t)
  {
  }

  lemma PushOnRing<V>(s: State<V>, t: Tid)
    requires Inv(s) && t < |s.ops| && s.ops[t].SendPush?
    ensures RingPart(s, SendStep(s, t), t)
  {
    RingStep(s.ring, R.Step(t));
    CallGoesOn(s.ring, t);
    forall c: nat { RingStepPublishes(s.ring, R.Step(t), c); }
  }

  lemma SendOnRing<V>(s: State<V>, t: Tid)
    requires Inv(s) && t < |s.ops| && Sending(s.ops[t])
    ensures RingPart(s, SendStep(s, t), t)
  {
    match s.ops[t]
    case SendCheck(v) => RingMovedRefl(s.ring, t); StartingAPush(s.ring, t, v);
    case SendPush => PushOnRing(s, t);
    case _ => RingMovedRefl(s.ring, t);
  }

  lemma PopOnRing<V>(s: State<V>, t: Tid)
    requires Inv(s) && t < |s.ops| && Popping(s.ops[t])
    ensures RingPart(s, PopStep(s, t), t)
    ensures PopStep(s, t).ring.pcs[t].PopNone? ==>
              var b := PopStep(s, t).ring;
              b.pcs[t].pos == b.head && !R.Published(b, b.head)
  {
    RingStep(s.ring, R.Step(t));
    CallGoesOn(s.ring, t);
    forall c: nat { RingStepPublishes(s.ring, R.Step(t), c); }
  }

  lemma UnregisterOnRing<V>(s: State<V>, t: Tid)
    requires Inv(s) && t < |s.ops| && s.ops[t].RecvUnregister?
    ensures RingPart(s, RecvStep(s, t), t)
  {
    RingMovedRefl(s.ring, t);
    if s.ops[t].after.TryAgain? { StartingAPop(s.ring, t); }
  }

  lemma RecvOnRing<V>(s: State<V>, t: Tid)
    requires Inv(s) && t < |s.ops| && Receiving(s.ops[t])
    ensures RingPart(s, RecvStep(s, t), t)
  {
    assert Fits(s.ops[t], s.ring.pcs[t]);
    if Popping(s.ops[t]) {
      PopOnRing(s, t);
    } else if s.ops[t].RecvUnregister? {
      UnregisterOnRing(s, t);
    } else {
      RingMovedRefl(s.ring, t);
      if s.ops[t].RecvRegister? { StartingAPop(s.ring, t); }
    }
  }

  lemma RingSpurious<V>(a: R.State<V>, t: Tid)
    requires R.Inv(a) && t < |a.pcs|
    ensures var b := R.Next(a, R.Spurious(t));
            && RingMoved(a, b, t) && b.tail == a.tail
            && forall c: nat | R.Published(b, c) :: R.Published(a, c)
  {
    RingStep(a, R.Spurious(t));
    forall c: nat { RingStepPublishes(a, R.Spurious(t), c); }
  }

  lemma SpuriousOnRing<V>(s: State<V>, t: Tid)
    requires Inv(s) && t < |s.ops|
    ensures RingPart(s, Next(s, Spurious(t)), t)
  {
    RingMovedRefl(s.ring, t);
    RingSpurious(s.ring, t);
  }

  lemma TryRecvOnRing<V>(s: State<V>, t: Tid)
    requires Inv(s) && t < |s.ops|
    ensures RingPart(s, Next(s, CallTryRecv(t)), t)
  {
    RingMovedRefl(s.ring, t);
    assert Fits(s.ops[t], s.ring.pcs[t]);
    if s.ops[t].Idle? { StartingAPop(s.ring, t); }
  }

  lemma RecvCallOnRing<V>(s: State<V>, t: Tid)
    requires Inv(s) && t < |s.ops|
    ensures RingPart(s, Next(s, CallRecv(t)), t)
  {
    RingMovedRefl(s.ring, t);
    assert Fits(s.ops[t], s.ring.pcs[t]);
    if s.ops[t].Idle? { StartingAPop(s.ring, t); }
  }

  lemma NextOnRing<V>(s: State<V>, a: Action<V>)
    requires Inv(s) && a.tid < |s.ops|
    ensures RingPart(s, Next(s, a), a.tid)
  {
    var t := a.tid;
    if a.Step? && Sending(s.ops[t]) {
      SendOnRing(s, t);
    } else if a.Step? && Receiving(s.ops[t]) {
      RecvOnRing(s, t);
    } else if a.Spurious? {
      SpuriousOnRing(s, t);
    } else if a.CallTryRecv? {
      TryRecvOnRing(s, t);
    } else if a.CallRecv? {
      RecvCallOnRing(s, t);
    } else {
      RingMovedRefl(s.ring, t);
      assert Next(s, a).ring == s.ring;
    }
  }

  /**
   What an action of `t` does outside the ring, seen by the other threads: their operations
   stay, tokens they hold stay, waiters stay plain, a listed waiter stays listed unless `t`
   unregisters its own, and nobody who is owed an unpark by `t` is forgotten.
   */
  ghost predicate Effect<V>(s: State<V>, r: State<V>, t: Tid)
    requires Shaped(s) && Shaped(r) && t < |s.ops| == |r.ops|
  {
    && (forall u: nat | u < |s.ops| && u != t :: r.ops[u] == s.ops[u] && (s.tokens[u] ==> r.tokens[u]))
    && Plain(r)
    && |s.waiters| <= |r.waiters|
    && (forall w: nat | w < |s.waiters| :: r.waiters[w] == s.waiters[w])
    && (forall w: nat | w in s.list && !(s.ops[t].RecvUnregister? && s.ops[t].w == w) :: w in r.list)
    && (forall w: nat | w in s.list && w < |s.waiters| && SenderOwes(s.ops[t], w) ::
          SenderOwes(r.ops[t], w) || r.tokens[s.waiters[w].tid])
    && (forall w: nat | w in s.list && w < |s.waiters| && DropperOwes(s.ops[t], w) ::
          DropperOwes(r.ops[t], w) || r.tokens[s.waiters[w].tid])
  }

  lemma WakingEffect<V>(s: State<V>, t: Tid)
    requires Inv(s) && t < |s.ops| && (s.ops[t].SendLook? || s.ops[t].SendUnpark?)
    ensures Effect(s, SendStep(s, t), t)
  {
    assert KnownWaiters(s, s.ops[t]);
  }

  lemma SendEffect<V>(s: State<V>, t: Tid)
    requires Inv(s) && t < |s.ops| && Sending(s.ops[t])
    ensures Effect(s, SendStep(s, t), t)
  {
    if s.ops[t].SendLook? || s.ops[t].SendUnpark? { WakingEffect(s, t); }
  }

  lemma DropEffect<V>(s: State<V>, t: Tid)
    requires Inv(s) && t < |s.ops| && Dropping(s.ops[t])
    ensures Effect(s, DropStep(s, t), t)
  {
    assert KnownWaiters(s, s.ops[t]);
  }

  /** No list, no waiter is touched, and nobody's debt changes: the operation of `t` was not a wake-up. */
  lemma QuietEffect<V>(s: State<V>, r: State<V>, t: Tid)
    requires Inv(s) && Shaped(r) && t < |s.ops| == |r.ops|
    requires r.list == s.list && r.waiters == s.waiters
    requires r.ops == s.ops[t := r.ops[t]]
    requires r.tokens == s.tokens || r.tokens == s.tokens[t := true]
    requires Sending(s.ops[t]) || Dropping(s.ops[t]) ==> r.ops[t] == s.ops[t]
    ensures Effect(s, r, t)
  {
  }

  lemma RegisterEffect<V>(s: State<V>, t: Tid)
    requires Inv(s) && t < |s.ops| && (s.ops[t].RecvRegister? || s.ops[t].RecvUnregister?)
    ensures Effect(s, RecvStep(s, t), t)
  {
  }

  lemma ParkEffect<V>(s: State<V>, t: Tid)
    requires Inv(s) && t < |s.ops| && s.ops[t].RecvPark?
    ensures Effect(s, RecvStep(s, t), t)
  {
  }

  lemma RecvEffect<V>(s: State<V>, t: Tid)
    requires Inv(s) && t < |s.ops| && Receiving(s.ops[t])
    ensures Effect(s, RecvStep(s, t), t)
  {
    if s.ops[t].RecvRegister? || s.ops[t].RecvUnregister? {
      RegisterEffect(s, t);
    } else if s.ops[t].RecvPark? {
      ParkEffect(s, t);
    } else {
      QuietEffect(s, RecvStep(s, t), t);
    }
  }

  /** Calls, clones, drops, stray tokens and spurious failures. */
  lemma OtherEffect<V>(s: State<V>, a: Action<V>)
    requires Inv(s) && a.tid < |s.ops| && !a.Step?
    ensures Effect(s, Next(s, a), a.tid)
  {
    QuietEffect(s, Next(s, a), a.tid);
  }

  lemma NextEffect<V>(s: State<V>, a: Action<V>)
    requires Inv(s) && a.tid < |s.ops|
    ensures Effect(s, Next(s, a), a.tid)
  {
    var t := a.tid;
    if !a.Step? {
      OtherEffect(s, a);
    } else if Sending(s.ops[t]) {
      SendEffect(s, t);
    } else if Dropping(s.ops[t]) {
      DropEffect(s, t);
    } else if Receiving(s.ops[t]) {
      RecvEffect(s, t);
    } else {
      assert Next(s, a) == s;
    }
  }

  // Other threads' parts of the invariant.

  lemma OthersListed<V>(s: State<V>, r: State<V>, t: Tid, u: Tid)
    requires Inv(s) && Shaped(r) && t < |s.ops| == |r.ops| && u < |s.ops| && u != t
    requires Effect(s, r, t)
    ensures Listed(r, u)
  {
    assert Listed(s, u) && Listed(s, t);
  }

  lemma OthersOwedBySender<V>(s: State<V>, r: State<V>, t: Tid, u: Tid)
    requires Inv(s) && Shaped(r) && t < |s.ops| == |r.ops| && u < |s.ops| && u != t
    requires Effect(s, r, t) && RingPart(s, r, t)
    ensures OwedBySender(r, u)
  {
    assert OwedBySender(s, u) && Listed(s, u);
    if s.ops[u].RecvRecheckCount? || s.ops[u].RecvPark? {
      var pos := s.ops[u].pos;
      if R.Published(s.ring, pos) {
        assert R.Published(r.ring, pos) && r.ring.producer[pos] == s.ring.producer[pos];
      }
    }
  }

  lemma OthersOwedByDropper<V>(s: State<V>, r: State<V>, t: Tid, u: Tid)
    requires Inv(s) && Shaped(r) && t < |s.ops| == |r.ops| && u < |s.ops| && u != t
    requires Effect(s, r, t)
    requires r.senders == 0 ==> if s.senders == 0 then r.lastDropper == s.lastDropper
                                else r.lastDropper == t && r.ops[t].DropSnapshot?
    ensures OwedByDropper(r, u)
  {
    assert OwedByDropper(s, u) && Listed(s, u);
  }

  lemma OthersDrainOk<V>(s: State<V>, r: State<V>, t: Tid, u: Tid)
    requires Inv(s) && Shaped(r) && t < |s.ops| == |r.ops| && u < |s.ops| && u != t
    requires Effect(s, r, t) && RingPart(s, r, t)
    requires s.senders == 0 ==> r.senders == 0
    ensures DrainOk(r, u)
  {
    assert DrainOk(s, u);
    if s.senders == 0 {
      assert NobodySends(s);
      assert r.ring.tail == s.ring.tail;
    }
  }

  // The moving thread's own part.

  /** Without senders in flight every claimed ticket is published. */
  lemma AllPublished<V>(s: State<V>, c: nat)
    requires Inv(s) && NobodySends(s) && c < s.ring.tail
    ensures R.Published(s.ring, c)
  {
    if R.Producing(s.ring, c) {
      var u := s.ring.producer[c];
      assert Fits(s.ops[u], s.ring.pcs[u]);
    }
  }

  lemma OwnPop<V>(s: State<V>, t: Tid)
    requires Inv(s) && t < |s.ops| && Popping(s.ops[t])
    ensures var r := PopStep(s, t);
            Listed(r, t) && OwedBySender(r, t) && OwedByDropper(r, t) && DrainOk(r, t)
  {
    var r := PopStep(s, t);
    assert Listed(s, t) && DrainOk(s, t);
    PopOnRing(s, t);
    if r.ring.pcs[t].PopNone? && s.senders == 0 && s.ring.head < s.ring.tail {
      assert NobodySends(s);
      assert r.ring.tail == s.ring.tail;
      if r.ring.head < r.ring.tail {
        AllPublished(s, r.ring.head);
      }
    }
  }

  lemma OwnRecv<V>(s: State<V>, t: Tid)
    requires Inv(s) && t < |s.ops| && Receiving(s.ops[t])
    ensures var r := RecvStep(s, t);
            Listed(r, t) && OwedBySender(r, t) && OwedByDropper(r, t) && DrainOk(r, t)
  {
    assert Listed(s, t) && OwedBySender(s, t) && OwedByDropper(s, t) && DrainOk(s, t);
    if Popping(s.ops[t]) {
      OwnPop(s, t);
    }
  }

  lemma OwnSendOrDrop<V>(s: State<V>, t: Tid)
    requires Inv(s) && t < |s.ops| && (Sending(s.ops[t]) || Dropping(s.ops[t]))
    ensures var r := if Sending(s.ops[t]) then SendStep(s, t) else DropStep(s, t);
            Listed(r, t) && OwedBySender(r, t) && OwedByDropper(r, t) && DrainOk(r, t)
  {
  }

  ghost predicate OwnPart<V>(r: State<V>, t: Tid)
    requires Shaped(r) && t < |r.ops|
  {
    Listed(r, t) && OwedBySender(r, t) && OwedByDropper(r, t) && DrainOk(r, t)
  }

  /** A thread that starts or finishes a call owes and is owed nothing. */
  lemma CallKeepsOwn<V>(s: State<V>, a: Action<V>)
    requires Inv(s) && a.tid < |s.ops|
    requires a.CallSend? || a.CallTryRecv? || a.CallRecv? || a.Return?
    ensures OwnPart(Next(s, a), a.tid)
  {
    var t := a.tid;
    assert OwnPart(s, t);
    NextOnRing(s, a);
  }

  lemma HandleKeepsOwn<V>(s: State<V>, a: Action<V>)
    requires Inv(s) && a.tid < |s.ops|
    requires a.CloneSender? || a.DropSender? || a.CloneReceiver? || a.DropReceiver? || a.Stray?
    ensures OwnPart(Next(s, a), a.tid)
  {
    assert OwnPart(s, a.tid);
  }

  lemma SpuriousKeepsOwn<V>(s: State<V>, t: Tid)
    requires Inv(s) && t < |s.ops|
    ensures OwnPart(Next(s, Spurious(t)), t)
  {
    assert OwnPart(s, t);
    var r := Next(s, Spurious(t));
    assert r.ring.producer == s.ring.producer && r.ring.tail == s.ring.tail && r.ring.head == s.ring.head;
    SpuriousOnRing(s, t);
  }

  lemma OwnNext<V>(s: State<V>, a: Action<V>)
    requires Inv(s) && a.tid < |s.ops|
    ensures OwnPart(Next(s, a), a.tid)
  {
    var t := a.tid;
    match a
    case Step(_) =>
      if Sending(s.ops[t]) || Dropping(s.ops[t]) {
        OwnSendOrDrop(s, t);
      } else if Receiving(s.ops[t]) {
        OwnRecv(s, t);
      } else {
        assert OwnPart(s, t);
      }
    case Spurious(_) => SpuriousKeepsOwn(s, t);
    case CallSend(_, _) => CallKeepsOwn(s, a);
    case CallTryRecv(_) => CallKeepsOwn(s, a);
    case CallRecv(_) => CallKeepsOwn(s, a);
    case Return(_) => CallKeepsOwn(s, a);
    case _ => HandleKeepsOwn(s, a);
  }

  lemma NobodyStartsToSend<V>(s: State<V>, r: State<V>, t: Tid)
    requires Shaped(s) && Shaped(r) && t < |s.ops| == |r.ops|
    requires NobodySends(s) && r.ops == s.ops[t := r.ops[t]] && !Sending(r.ops[t])
    ensures NobodySends(r)
  {
    forall u: nat | u < |r.ops| ensures !Sending(r.ops[u]) {
      assert !Sending(s.ops[u]);
    }
  }

  /** The sender count reaches zero once, by the step that starts the last drop. */
  ghost predicate CountPart<V>(s: State<V>, r: State<V>, t: Tid)
    requires Shaped(s) && Shaped(r) && t < |s.ops| == |r.ops|
  {
    && (s.senders == 0 ==> r.senders == 0 && r.lastDropper == s.lastDropper)
    && (s.senders != 0 && r.senders == 0 ==> r.lastDropper == t && r.ops[t].DropSnapshot?)
    && (r.senders == 0 ==> NobodySends(r))
  }

  lemma SendCount<V>(s: State<V>, t: Tid)
    requires Inv(s) && t < |s.ops| && Sending(s.ops[t])
    ensures CountPart(s, SendStep(s, t), t)
  {
    assert s.senders != 0;
  }

  lemma DropCount<V>(s: State<V>, t: Tid)
    requires Inv(s) && t < |s.ops| && Dropping(s.ops[t])
    ensures CountPart(s, DropStep(s, t), t)
  {
    if s.senders == 0 { NobodyStartsToSend(s, DropStep(s, t), t); }
  }

  lemma RecvCount<V>(s: State<V>, t: Tid)
    requires Inv(s) && t < |s.ops| && Receiving(s.ops[t])
    ensures CountPart(s, RecvStep(s, t), t)
  {
    if s.senders == 0 { NobodyStartsToSend(s, RecvStep(s, t), t); }
  }

  lemma NextCount<V>(s: State<V>, a: Action<V>)
    requires Inv(s) && a.tid < |s.ops|
    ensures CountPart(s, Next(s, a), a.tid)
  {
    var r := Next(s, a);
    if a.Step? {
      if Sending(s.ops[a.tid]) { SendCount(s, a.tid); }
      else if Dropping(s.ops[a.tid]) { DropCount(s, a.tid); }
      else if Receiving(s.ops[a.tid]) { RecvCount(s, a.tid); }
    } else if r.senders == 0 {
      NobodyStartsToSend(s, r, a.tid);
    }
  }

  lemma NextInv<V>(s: State<V>, a: Action<V>)
    requires Inv(s)
    ensures Inv(Next(s, a))
  {
    if a.tid < |s.ops| {
      var t := a.tid;
      var r := Next(s, a);
      NextOnRing(s, a);
      NextEffect(s, a);
      NextCount(s, a);
      OwnNext(s, a);
      forall u: nat | u < |r.ops|
        ensures Fits(r.ops[u], r.ring.pcs[u]) && Listed(r, u)
        ensures OwedBySender(r, u) && OwedByDropper(r, u) && DrainOk(r, u)
      {
        if u != t {
          assert Fits(s.ops[u], s.ring.pcs[u]);
          OthersListed(s, r, t, u);
          OthersOwedBySender(s, r, t, u);
          OthersOwedByDropper(s, r, t, u);
          OthersDrainOk(s, r, t, u);
        }
      }
    }
  }

  lemma {:induction false} ReachableInv<V>(cap: nat, threads: nat, schedule: seq<Action<V>>)
    requires 2 <= cap
    ensures Inv(Exec(Init<V>(cap, threads), schedule))
    decreases |schedule|
  {
    if schedule == [] {
      InitInv<V>(cap, threads);
    } else {
      ReachableInv(cap, threads, schedule[..|schedule| - 1]);
      NextInv(Exec(Init<V>(cap, threads), schedule[..|schedule| - 1]), schedule[|schedule| - 1]);
    }
  }

  // ------------------------------------------------------------------------------------
  // The theorems
  // ------------------------------------------------------------------------------------

  /** Blocked in `park`: there is no token to return with. */
  predicate Asleep<V>(s: State<V>, t: Tid)
    requires t < |s.ops| == |s.tokens|
  {
    s.ops[t].RecvPark? && !s.tokens[t]
  }

  /** No thread is inside `send`, or inside the drop of the last sender. */
  ghost predicate SendersIdle<V>(s: State<V>) {
    forall u: nat | u < |s.ops| :: !Sending(s.ops[u]) && !Dropping(s.ops[u])
  }

  lemma SleeperHasNothing<V>(s: State<V>, t: Tid)
    requires Inv(s) && t < |s.ops| && SendersIdle(s) && Asleep(s, t)
    ensures s.ring.head == s.ring.tail && 0 < s.senders
  {
    assert OwedBySender(s, t) && OwedByDropper(s, t);
    if s.ring.head < s.ring.tail {
      AllPublished(s, s.ops[t].pos);
      assert false;
    }
  }

  /**
   No lost wakeup. In every reachable state in which no thread is inside `send` or a last
   `drop`, a receiver that is asleep in `recv` has nothing to wake up for: the queue is
   empty, and there still is a sender. Any number of senders and receivers.
   */
  lemma NoLostWakeup<V>(cap: nat, threads: nat, schedule: seq<Action<V>>, t: Tid)
    requires 2 <= cap && t < threads
    requires SendersIdle(Exec(Init<V>(cap, threads), schedule))
    requires Asleep(Exec(Init<V>(cap, threads), schedule), t)
    ensures var s := Exec(Init<V>(cap, threads), schedule);
            s.ring.head == s.ring.tail && 0 < s.senders
  {
    ReachableInv(cap, threads, schedule);
    SleeperHasNothing(Exec(Init<V>(cap, threads), schedule), t);
  }

  /** Some thread inside `send` will unpark the thread of waiter `w`. */
  ghost predicate SomeSenderOwes<V>(s: State<V>, w: Wid) {
    exists u: nat :: u < |s.ops| && SenderOwes(s.ops[u], w)
  }

  ghost predicate SomeDropperOwes<V>(s: State<V>, w: Wid) {
    exists u: nat :: u < |s.ops| && DropperOwes(s.ops[u], w)
  }

  lemma AsleepIsOwed<V>(s: State<V>, t: Tid)
    requires Inv(s) && t < |s.ops| && Asleep(s, t)
    ensures R.Published(s.ring, s.ring.head) ==> SomeSenderOwes(s, s.ops[t].w)
    ensures s.senders == 0 ==> SomeDropperOwes(s, s.ops[t].w)
  {
    assert OwedBySender(s, t) && OwedByDropper(s, t);
    if R.Published(s.ring, s.ring.head) {
      assert R.Published(s.ring, s.ops[t].pos);
    }
  }

  /**
   The inductive form, at every moment: a receiver asleep in front of a published head
   ticket is still owed an unpark by a thread inside `send`, and one asleep with no senders
   left is owed one by the thread inside the last drop.
   */
  lemma AsleepMeansOwed<V>(cap: nat, threads: nat, schedule: seq<Action<V>>, t: Tid)
    requires 2 <= cap && t < threads
    requires Asleep(Exec(Init<V>(cap, threads), schedule), t)
    ensures var s := Exec(Init<V>(cap, threads), schedule);
            && (R.Published(s.ring, s.ring.head) ==> SomeSenderOwes(s, s.ops[t].w))
            && (s.senders == 0 ==> SomeDropperOwes(s, s.ops[t].w))
  {
    ReachableInv(cap, threads, schedule);
    AsleepIsOwed(Exec(Init<V>(cap, threads), schedule), t);
  }

  lemma LateMeansDrained<V>(s: State<V>, t: Tid)
    requires Inv(s) && t < |s.ops| && s.ops[t] == Returned(Disconnected, true)
    ensures s.ring.head == s.ring.tail && s.senders == 0 && NobodySends(s)
  {
    assert DrainOk(s, t);
  }

  /**
   Drain before disconnect: a `try_recv` or `recv` that began when no sender was left
   answers `Disconnected` only if every ticket ever claimed for pushing has been claimed
   for popping.
   */
  lemma DrainBeforeDisconnect<V>(cap: nat, threads: nat, schedule: seq<Action<V>>, t: Tid)
    requires 2 <= cap && t < threads
    requires Exec(Init<V>(cap, threads), schedule).ops[t] == Returned(Disconnected, true)
    ensures var s := Exec(Init<V>(cap, threads), schedule);
            s.ring.head == s.ring.tail && s.senders == 0 && NobodySends(s)
  {
    ReachableInv(cap, threads, schedule);
    LateMeansDrained(Exec(Init<V>(cap, threads), schedule), t);
  }
}
