/**
 What the answers of the bounded MPSC channel mean, at the grain of single accesses; and that
 its ring is a ring as in module `Ring`, so that all of `RingProperties` holds of it.
 */
module MpscAnswers {
  import opened Basics
  import R = Ring
  import P = RingProperties
  import G = RingProgress
  import opened Mpsc
  import opened MpscProof

  // ------------------------------------------------------------------------------------
  // The channel's ring
  // ------------------------------------------------------------------------------------

  /** The actions on the ring that one action of the channel consists of. */
  function RingActs<V>(s: State<V>, a: Action<V>): seq<R.Action<V>>
    requires Shaped(s)
  {
    if |s.ops| <= a.tid then []
    else
      var t := a.tid;
      var pop := [R.Return(t), R.CallPop(t)];
      match a
      case CallTryRecv(_) => if s.ops[t].Idle? && 0 < s.receivers then pop else []
      case CallRecv(_) => if s.ops[t].Idle? && 0 < s.receivers then pop else []
      case Spurious(_) => if s.ops[t].RecvPark? then [] else [R.Spurious(t)]
      case Step(_) =>
        (match s.ops[t]
         case SendCheck(v) => if s.receivers == 0 then [] else [R.Return(t), R.CallPush(t, v)]
         case RecvRegister => pop
         case RecvUnregister(_, after) => if after.TryAgain? then pop else []
         case op => if op.SendPush? || Popping(op) then [R.Step(t)] else [])
      case _ => []
  }

  function RingRun<V>(s: State<V>, schedule: seq<Action<V>>): seq<R.Action<V>>
    requires Shaped(s)
    decreases |schedule|
  {
    if schedule == [] then []
    else
      var earlier := schedule[..|schedule| - 1];
      RingRun(s, earlier) + RingActs(Exec(s, earlier), schedule[|schedule| - 1])
  }

  lemma TwoActions<V>(s: R.State<V>, a: R.Action<V>, b: R.Action<V>)
    requires R.Shaped(s)
    ensures R.Exec(s, [a, b]) == R.Next(R.Next(s, a), b)
  {
    P.OneAction(s, a);
    assert [a, b][..1] == [a];
  }

  lemma RingMoves<V>(s: State<V>, a: Action<V>)
    requires Shaped(s)
    ensures Next(s, a).ring == R.Exec(s.ring, RingActs(s, a))
  {
    var acts := RingActs(s, a);
    if |acts| == 1 {
      P.OneAction(s.ring, acts[0]);
      assert acts == [acts[0]];
    } else if |acts| == 2 {
      TwoActions(s.ring, acts[0], acts[1]);
      assert acts == [acts[0], acts[1]];
    }
  }

  /** Every run of the channel is, for its ring, a run of the ring. */
  lemma {:induction false} TheRingRuns<V>(s: State<V>, schedule: seq<Action<V>>)
    requires Shaped(s)
    ensures Exec(s, schedule).ring == R.Exec(s.ring, RingRun(s, schedule))
    decreases |schedule|
  {
    if schedule != [] {
      var earlier, last := schedule[..|schedule| - 1], schedule[|schedule| - 1];
      TheRingRuns(s, earlier);
      RingMoves(Exec(s, earlier), last);
      P.Unroll(s.ring, RingRun(s, earlier), RingActs(Exec(s, earlier), last));
    }
  }

  // ------------------------------------------------------------------------------------
  // The invariant
  // ------------------------------------------------------------------------------------

  /** What an answer of thread `t` says about its call on the ring, and about the handles. */
  ghost predicate Justified<V>(s: State<V>, t: Tid, outcome: Outcome<V>)
    requires Shaped(s) && t < |s.ops|
  {
    var pc := s.ring.pcs[t];
    match outcome
    case Sent => pc.PushOk? && s.given[t] == Some(pc.v)
    case SendFailed(v) => s.given[t] == Some(v) && (s.receivers == 0 || (pc.PushErr? && pc.v == v))
    case Got(v) => pc.PopSome? && pc.v == v
    case Disconnected => pc.PopNone? && s.senders == 0
    case Empty => pc.PopNone?
  }

  /** ... and what a thread has in hand on its way to an answer. */
  ghost predicate InHand<V>(s: State<V>, t: Tid)
    requires Shaped(s) && t < |s.ops|
  {
    var pc := s.ring.pcs[t];
    match s.ops[t]
    case SendCheck(v) => s.given[t] == Some(v)
    case SendPush => InPush(pc) && s.given[t] == Some(pc.v)
    case RecvFastCount(_) => pc.PopNone?
    case TryCount(_) => pc.PopNone?
    case RecvWakeSender(_, v) => Justified(s, t, Got(v))
    case RecvUnregister(_, after) => after.Finish? ==> (after.outcome.Got? || after.outcome.Disconnected?)
                                                       && Justified(s, t, after.outcome)
    case Returned(outcome, _) => Justified(s, t, outcome)
    case op => Sending(op) ==> Justified(s, t, Sent)
  }

  lemma RingCallGoesOn<V>(a: R.State<V>, t: Tid)
    requires R.Inv(a) && t < |a.pcs|
    ensures InPush(a.pcs[t]) ==>
              var pc := R.Next(a, R.Step(t)).pcs[t];
              (InPush(pc) || pc.PushOk? || pc.PushErr?) && pc.v == a.pcs[t].v
    ensures InPush(a.pcs[t]) ==> var pc := R.Next(a, R.Spurious(t)).pcs[t]; InPush(pc) && pc.v == a.pcs[t].v
    ensures R.AtRest(a.pcs[t]) ==> R.Next(a, R.Spurious(t)) == a
  {
    CallGoesOn(a, t);
  }

  lemma SendKeepsHand<V>(s: State<V>, t: Tid)
    requires Inv(s) && t < |s.ops| && Sending(s.ops[t]) && InHand(s, t)
    ensures InHand(SendStep(s, t), t)
  {
    assert Fits(s.ops[t], s.ring.pcs[t]);
    match s.ops[t]
    case SendCheck(v) => StartingAPush(s.ring, t, v); assert StartPush(s.ring, t, v).pcs[t] == R.PushStart(v);
    case SendPush => RingCallGoesOn(s.ring, t);
    case _ =>
  }

  lemma RecvKeepsHand<V>(s: State<V>, t: Tid)
    requires Inv(s) && t < |s.ops| && Receiving(s.ops[t]) && InHand(s, t)
    ensures InHand(RecvStep(s, t), t)
  {
    if Popping(s.ops[t]) { PopKeepsHand(s, t); }
  }

  lemma PopKeepsHand<V>(s: State<V>, t: Tid)
    requires Inv(s) && t < |s.ops| && Popping(s.ops[t])
    ensures InHand(RecvStep(s, t), t)
  {
    assert Fits(s.ops[t], s.ring.pcs[t]);
    CallGoesOn(s.ring, t);
  }

  /** Calling, returning, and the rest that is not a step. */
  lemma CallKeepsHand<V>(s: State<V>, a: Action<V>)
    requires Inv(s) && a.tid < |s.ops| && !a.Step? && InHand(s, a.tid)
    ensures InHand(Next(s, a), a.tid)
  {
    if a.Spurious? {
      SpuriousKeepsHand(s, a.tid);
    } else {
      assert Fits(s.ops[a.tid], s.ring.pcs[a.tid]);
    }
  }

  lemma SpuriousKeepsHand<V>(s: State<V>, t: Tid)
    requires Inv(s) && t < |s.ops| && InHand(s, t)
    ensures InHand(Next(s, Spurious(t)), t)
  {
    assert Fits(s.ops[t], s.ring.pcs[t]);
    RingCallGoesOn(s.ring, t);
  }

  lemma OwnKeepsHand<V>(s: State<V>, a: Action<V>)
    requires Inv(s) && a.tid < |s.ops| && InHand(s, a.tid)
    ensures InHand(Next(s, a), a.tid)
  {
    var t := a.tid;
    if !a.Step? {
      CallKeepsHand(s, a);
    } else if Sending(s.ops[t]) {
      SendKeepsHand(s, t);
    } else if Receiving(s.ops[t]) {
      RecvKeepsHand(s, t);
    }
  }

  /** Once nobody receives, or nobody sends, it stays so; and a thread's own call is its own. */
  lemma OthersKeepHand<V>(s: State<V>, a: Action<V>, u: Tid)
    requires Inv(s) && a.tid < |s.ops| && u < |s.ops| && u != a.tid && InHand(s, u)
    ensures InHand(Next(s, a), u)
  {
    OthersStand(s, a, u);
    HandIsOwn(s, Next(s, a), u);
  }

  lemma OthersStand<V>(s: State<V>, a: Action<V>, u: Tid)
    requires Inv(s) && a.tid < |s.ops| && u < |s.ops| && u != a.tid
    ensures Alike(s, Next(s, a), u)
  {
    NextOnRing(s, a);
    NextEffect(s, a);
  }

  /** Thread `u` stands where it stood, and what is gone has stayed gone. */
  ghost predicate Alike<V>(s: State<V>, q: State<V>, u: Tid)
    requires Shaped(s) && Shaped(q) && u < |s.ops|
  {
    && |q.ops| == |s.ops| && q.ops[u] == s.ops[u] && q.ring.pcs[u] == s.ring.pcs[u] && q.given[u] == s.given[u]
    && (s.receivers == 0 ==> q.receivers == 0) && (s.senders == 0 ==> q.senders == 0)
  }

  lemma HandIsOwn<V>(s: State<V>, q: State<V>, u: Tid)
    requires Shaped(s) && Shaped(q) && u < |s.ops| && Alike(s, q, u) && InHand(s, u)
    ensures InHand(q, u)
  {
  }

  lemma {:induction false} AlwaysInHand<V>(cap: nat, threads: nat, schedule: seq<Action<V>>, t: Tid)
    requires 2 <= cap && t < threads
    ensures InHand(Exec(Init<V>(cap, threads), schedule), t)
    decreases |schedule|
  {
    if schedule != [] {
      var s, a := Exec(Init<V>(cap, threads), schedule[..|schedule| - 1]), schedule[|schedule| - 1];
      AlwaysInHand(cap, threads, schedule[..|schedule| - 1], t);
      ReachableInv(cap, threads, schedule[..|schedule| - 1]);
      if a.tid == t {
        OwnKeepsHand(s, a);
      } else if a.tid < |s.ops| {
        OthersKeepHand(s, a, t);
      }
    }
  }

  // ------------------------------------------------------------------------------------
  // The theorems
  // ------------------------------------------------------------------------------------

  /** Thread `t` took ticket `p`, with the value `v`, by a pop that began when `head` was not yet past it. */
  ghost predicate Took<V>(ring: R.State<V>, t: Tid, p: nat, v: V)
    requires R.Shaped(ring) && t < |ring.pcs|
  {
    && ring.since[t] <= p < ring.head <= ring.tail
    && ring.consumer[p] == t && ring.taken[p] == Some(v) && ring.log[p] == v
  }

  /** Thread `t` put `v` at ticket `p`, by a push that began when `tail` was not yet past it. */
  ghost predicate Put<V>(ring: R.State<V>, t: Tid, p: nat, v: V)
    requires R.Shaped(ring) && t < |ring.pcs|
  {
    ring.since[t] <= p < ring.tail && ring.producer[p] == t && ring.log[p] == v
  }

  lemma FinishedRingCall<V>(cap: nat, threads: nat, schedule: seq<Action<V>>, t: Tid)
    requires 2 <= cap && t < threads
    ensures var ring := Exec(Init<V>(cap, threads), schedule).ring;
            && (ring.pcs[t].PopSome? ==> Took(ring, t, ring.pcs[t].pos, ring.pcs[t].v))
            && (ring.pcs[t].PushOk? ==> Put(ring, t, ring.pcs[t].pos, ring.pcs[t].v))
  {
    var ring := Exec(Init<V>(cap, threads), schedule).ring;
    ReachableInv(cap, threads, schedule);
    TheRingRuns(Init<V>(cap, threads), schedule);
    G.RetriesArePaidFor(cap, threads, RingRun(Init<V>(cap, threads), schedule), t);
    P.FinishedCall(ring, t);
    assert R.ThreadOk(ring, t);
  }

  /**
   What the answers mean, in every run. A value received is the value of a ticket that this
   call took for itself. `Disconnected` means that there are no senders any more. A value
   sent is the caller's, and stands in the history at a ticket that this call claimed. A
   refused one is handed back, and there are no receivers, or the ring refused it.
   */
  lemma AnswersAreTrue<V>(cap: nat, threads: nat, schedule: seq<Action<V>>, t: Tid)
    requires 2 <= cap && t < threads
    requires Exec(Init<V>(cap, threads), schedule).ops[t].Returned?
    ensures var s := Exec(Init<V>(cap, threads), schedule);
            match s.ops[t].outcome
            case Got(v) => exists p: nat :: Took(s.ring, t, p, v)
            case Disconnected => s.senders == 0
            case Sent => s.given[t].Some? && exists p: nat :: Put(s.ring, t, p, s.given[t].value)
            case SendFailed(v) => s.given[t] == Some(v) && (s.receivers == 0 || s.ring.pcs[t].PushErr?)
            case Empty => s.ring.pcs[t].PopNone?
  {
    AlwaysInHand(cap, threads, schedule, t);
    FinishedRingCall(cap, threads, schedule, t);
  }

  // ------------------------------------------------------------------------------------
  // Who is on the list
  // ------------------------------------------------------------------------------------

  /** Listed waiter `w` is the one that its thread is registered with. */
  ghost predicate InUse<V>(s: State<V>, w: Wid)
    requires Shaped(s)
  {
    w in s.list ==> w < |s.waiters| && Guard(s.ops[s.waiters[w].tid]) == Some(w)
  }

  ghost predicate ListIsExact<V>(s: State<V>) {
    Shaped(s) && forall w: nat :: InUse(s, w)
  }

  /** A step that changes neither the list nor what its thread is registered with. */
  lemma ListStays<V>(s: State<V>, q: State<V>, t: Tid)
    requires ListIsExact(s) && Shaped(q) && t < |s.ops| == |q.ops| && q.list == s.list
    requires Guard(q.ops[t]) == Guard(s.ops[t])
    requires forall u: nat | u < |s.ops| && u != t :: q.ops[u] == s.ops[u]
    requires |q.waiters| == |s.waiters| && forall w: nat | w < |s.waiters| :: q.waiters[w].tid == s.waiters[w].tid
    ensures ListIsExact(q)
  {
    forall w: nat ensures InUse(q, w) { assert InUse(s, w); }
  }

  lemma RegisterIsExact<V>(s: State<V>, t: Tid)
    requires ListIsExact(s) && t < |s.ops| && s.ops[t].RecvRegister?
    ensures ListIsExact(Register(s, t))
  {
    forall w: nat ensures InUse(Register(s, t), w) { assert InUse(s, w); }
  }

  lemma UnregisterIsExact<V>(s: State<V>, t: Tid)
    requires ListIsExact(s) && t < |s.ops| && s.ops[t].RecvUnregister?
    ensures ListIsExact(Unregister(s, t, s.ops[t].w, s.ops[t].after))
  {
    forall w: nat ensures InUse(Unregister(s, t, s.ops[t].w, s.ops[t].after), w) { assert InUse(s, w); }
  }

  lemma StepIsExact<V>(s: State<V>, t: Tid)
    requires ListIsExact(s) && t < |s.ops|
    ensures ListIsExact(Next(s, Step(t)))
  {
    if s.ops[t].RecvRegister? {
      RegisterIsExact(s, t);
    } else if s.ops[t].RecvUnregister? {
      UnregisterIsExact(s, t);
    } else {
      GuardStays(s, t);
      ListStays(s, Next(s, Step(t)), t);
    }
  }

  lemma GuardStays<V>(s: State<V>, t: Tid)
    requires Shaped(s) && t < |s.ops| && !s.ops[t].RecvRegister? && !s.ops[t].RecvUnregister?
    ensures var q := Next(s, Step(t));
            && Guard(q.ops[t]) == Guard(s.ops[t]) && q.list == s.list
            && (forall u: nat | u < |s.ops| && u != t :: q.ops[u] == s.ops[u]) && |q.waiters| == |s.waiters|
            && forall w: nat | w < |s.waiters| :: q.waiters[w].tid == s.waiters[w].tid
  {
    if Popping(s.ops[t]) {
      PopKeepsGuard(s, t);
    } else if Receiving(s.ops[t]) {
      RecvKeepsGuard(s, t);
    }
  }

  lemma RecvKeepsGuard<V>(s: State<V>, t: Tid)
    requires Shaped(s) && t < |s.ops| && Receiving(s.ops[t]) && !Popping(s.ops[t])
    requires !s.ops[t].RecvRegister? && !s.ops[t].RecvUnregister?
    ensures var q := RecvStep(s, t);
            && Guard(q.ops[t]) == Guard(s.ops[t]) && q.list == s.list && q.waiters == s.waiters
            && forall u: nat | u < |s.ops| && u != t :: q.ops[u] == s.ops[u]
  {
  }

  lemma PopKeepsGuard<V>(s: State<V>, t: Tid)
    requires Shaped(s) && t < |s.ops| && Popping(s.ops[t])
    ensures var q := PopStep(s, t);
            && Guard(q.ops[t]) == Guard(s.ops[t]) && q.list == s.list && q.waiters == s.waiters
            && forall u: nat | u < |s.ops| && u != t :: q.ops[u] == s.ops[u]
  {
  }

  lemma NextIsExact<V>(s: State<V>, a: Action<V>)
    requires ListIsExact(s)
    ensures ListIsExact(Next(s, a))
  {
    if a.Step? && a.tid < |s.ops| {
      StepIsExact(s, a.tid);
    } else if a.tid < |s.ops| {
      ListStays(s, Next(s, a), a.tid);
    }
  }

  lemma {:induction false} AlwaysExact<V>(cap: nat, threads: nat, schedule: seq<Action<V>>)
    ensures ListIsExact(Exec(Init<V>(cap, threads), schedule))
    decreases |schedule|
  {
    if schedule != [] {
      AlwaysExact(cap, threads, schedule[..|schedule| - 1]);
      NextIsExact(Exec(Init<V>(cap, threads), schedule[..|schedule| - 1]), schedule[|schedule| - 1]);
    }
  }

  /**
   The list of blocked receivers holds exactly the waiters that some thread is registered with at
   that moment: none is missing, and none stays behind when its call returns.
   */
  lemma ListIsExactlyTheRegistered<V>(cap: nat, threads: nat, schedule: seq<Action<V>>, w: Wid)
    requires 2 <= cap
    ensures var s := Exec(Init<V>(cap, threads), schedule);
            w in s.list <==> w < |s.waiters| && Guard(s.ops[s.waiters[w].tid]) == Some(w)
  {
    AlwaysExact(cap, threads, schedule);
    ReachableInv(cap, threads, schedule);
    var s := Exec(Init<V>(cap, threads), schedule);
    assert InUse(s, w);
    if w < |s.waiters| { assert Listed(s, s.waiters[w].tid); }
  }
}
