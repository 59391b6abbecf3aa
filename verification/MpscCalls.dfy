/**
 Operations of the bounded MPSC channel that nobody disturbs. From every reachable state, a
 sender, a dropper or a receiver that runs alone gets to its end (a receiver perhaps to its
 `park`), and a sleeper that is owed an unpark gets it. Between whole operations these are
 the operations of the object `MpscMemory.Chan`.
 */
module MpscCalls {
  import opened Basics
  import R = Ring
  import P = RingProperties
  import G = RingProgress
  import C = RingCalls
  import opened Mpsc
  import opened MpscProof
  import opened MpscAnswers

  // ------------------------------------------------------------------------------------
  // Running alone
  // ------------------------------------------------------------------------------------

  /** A step of thread `t`. */
  function Mover<V>(t: Tid): State<V> -> State<V> {
    (s: State<V>) => if Shaped(s) then Next(s, Step(t)) else s
  }

  /** If nobody but thread `t` moves, the state will at some time be `r`. */
  ghost predicate Leads<V>(s: State<V>, r: State<V>, t: Tid) {
    Reaches(Mover(t), s, r)
  }

  lemma OneMove<V>(s: State<V>, t: Tid)
    requires Inv(s) && t < |s.ops|
    ensures Leads(s, Next(s, Step(t)), t) && Inv(Next(s, Step(t)))
  {
    NextInv(s, Step(t));
    ReachesSelf(Mover(t), Next(s, Step(t)));
    ReachesNext(Mover(t), s, Next(s, Step(t)));
  }

  lemma SendMoves<V>(s: State<V>, t: Tid)
    requires Inv(s) && t < |s.ops| && Sending(s.ops[t])
    ensures Leads(s, SendStep(s, t), t) && Inv(SendStep(s, t))
  {
    OneMove(s, t);
  }

  lemma DropMoves<V>(s: State<V>, t: Tid)
    requires Inv(s) && t < |s.ops| && Dropping(s.ops[t])
    ensures Leads(s, DropStep(s, t), t) && Inv(DropStep(s, t))
  {
    OneMove(s, t);
  }

  lemma RecvMoves<V>(s: State<V>, t: Tid)
    requires Inv(s) && t < |s.ops| && Receiving(s.ops[t])
    ensures Leads(s, RecvStep(s, t), t) && Inv(RecvStep(s, t))
  {
    OneMove(s, t);
  }

  /** `r` is where thread `t` gets from `q`, which it gets to from `s`. */
  lemma Onwards<V>(s: State<V>, q: State<V>, r: State<V>, t: Tid)
    requires Leads(s, q, t) && Leads(q, r, t)
    ensures Leads(s, r, t)
  {
    ReachesThen(Mover(t), s, q, r);
  }

  // The ring on its own.

  lemma {:induction false} RingFirst<V>(a: R.State<V>, t: Tid, k: nat)
    requires R.Shaped(a)
    ensures P.Alone(a, t, k + 1) == P.Alone(R.Next(a, R.Step(t)), t, k)
  {
    if k == 0 {
      assert P.Alone(a, t, 0) == a;
    } else {
      RingFirst(a, t, k - 1);
    }
  }

  /** Where a ring call that is under way ends when nobody disturbs it. */
  function RingEnd<V>(a: R.State<V>, t: Tid): (r: R.State<V>)
    requires R.Shaped(a)
    ensures R.Shaped(r) && |r.pcs| == |a.pcs|
  {
    P.Alone(a, t, 7)
  }

  lemma RingRests<V>(a: R.State<V>, t: Tid)
    requires R.Inv(a) && t < |a.pcs|
    ensures R.Inv(RingEnd(a, t)) && R.AtRest(RingEnd(a, t).pcs[t])
    ensures RingEnd(R.Next(a, R.Step(t)), t) == RingEnd(a, t)
  {
    G.AloneReducesEffort(a, t, 7);
    RingFirst(a, t, 7);
    C.NoStep(RingEnd(a, t), t);
  }

  lemma {:induction false} RingStays<V>(a: R.State<V>, t: Tid, k: nat)
    requires R.Shaped(a) && t < |a.pcs| && R.AtRest(a.pcs[t])
    ensures P.Alone(a, t, k) == a
  {
    if k != 0 {
      RingStays(a, t, k - 1);
      C.NoStep(a, t);
    }
  }

  // ------------------------------------------------------------------------------------
  // Senders
  // ------------------------------------------------------------------------------------

  /** What follows the end of `ring.try_push`. */
  function AfterPush<V>(s: State<V>, t: Tid, ring: R.State<V>): State<V>
    requires t < |s.ops| && t < |ring.pcs| && (ring.pcs[t].PushOk? || ring.pcs[t].PushErr?)
  {
    At(s, t, if ring.pcs[t].PushOk? then SendSnapshot else Returned(SendFailed(ring.pcs[t].v), false))
      .(ring := ring)
  }

  lemma PushGoesOn<V>(s: State<V>, t: Tid)
    requires Inv(s) && t < |s.ops| && s.ops[t].SendPush?
    ensures var q := SendStep(s, t);
            var pc := q.ring.pcs[t];
            && Leads(s, q, t) && Inv(q)
            && q.ring == R.Next(s.ring, R.Step(t)) && InPush(s.ring.pcs[t])
            && (InPush(pc) || pc.PushOk? || pc.PushErr?) && pc.v == s.ring.pcs[t].v
            && if InPush(pc) then q == s.(ring := q.ring) && G.Effort(q.ring, t) < G.Effort(s.ring, t)
               else q == AfterPush(s, t, q.ring)
  {
    assert Fits(s.ops[t], s.ring.pcs[t]);
    SendMoves(s, t);
    RingCallGoesOn(s.ring, t);
    G.StepReducesEffort(s.ring, t);
    assert At(s, t, s.ops[t]) == s;
  }

  lemma {:induction false} PushRunsOut<V>(s: State<V>, t: Tid)
    requires Inv(s) && t < |s.ops| && s.ops[t].SendPush?
    ensures RingEnd(s.ring, t).pcs[t].PushOk? || RingEnd(s.ring, t).pcs[t].PushErr?
    ensures RingEnd(s.ring, t).pcs[t].v == s.ring.pcs[t].v
    ensures Leads(s, AfterPush(s, t, RingEnd(s.ring, t)), t)
    decreases G.Effort(s.ring, t)
  {
    var q := SendStep(s, t);
    PushGoesOn(s, t);
    RingRests(s.ring, t);
    if InPush(q.ring.pcs[t]) {
      PushRunsOut(q, t);
    } else {
      RingStays(q.ring, t, 7);
      ReachesSelf(Mover(t), q);
    }
    Onwards(s, q, AfterPush(s, t, RingEnd(s.ring, t)), t);
  }

  /** The tokens after the threads of these waiters were unparked. */
  function Woken(tokens: seq<bool>, waiters: seq<Waiter>, rest: seq<Wid>): (r: seq<bool>)
    requires Known(rest, |waiters|)
    ensures |r| == |tokens|
    ensures forall u: nat | u < |tokens| ::
              r[u] <==> (tokens[u] || exists i: nat :: i < |rest| && waiters[rest[i]].tid == u)
  {
    seq(|tokens|, u requires 0 <= u < |tokens| =>
      tokens[u] || exists i: nat :: i < |rest| && waiters[rest[i]].tid == u)
  }

  lemma WokenFirst(tokens: seq<bool>, waiters: seq<Waiter>, rest: seq<Wid>)
    requires Known(rest, |waiters|) && rest != [] && waiters[rest[0]].tid < |tokens|
    ensures Known(rest[1..], |waiters|)
    ensures Woken(tokens[waiters[rest[0]].tid := true], waiters, rest[1..]) == Woken(tokens, waiters, rest)
  {
    var later := Woken(tokens[waiters[rest[0]].tid := true], waiters, rest[1..]);
    forall u: nat | u < |tokens| ensures later[u] == Woken(tokens, waiters, rest)[u] {
      if i: nat :| i < |rest| && waiters[rest[i]].tid == u {
        if i != 0 { assert rest[i] == rest[1..][i - 1]; }
      }
      if i: nat :| i < |rest[1..]| && waiters[rest[1..][i]].tid == u {
        assert rest[1..][i] == rest[i + 1];
      }
    }
  }

  /** The waiters that thread `t` has still to wake. */
  function ToWake<V>(op: Op<V>): seq<Wid>
  {
    if op.SendLook? || op.SendUnpark? || op.DropExchange? || op.DropUnpark? then op.rest else []
  }

  lemma {:induction false} SenderWakes<V>(s: State<V>, t: Tid)
    requires Inv(s) && t < |s.ops| && (s.ops[t].SendLook? || s.ops[t].SendUnpark? || s.ops[t].SendSelect?)
    ensures Known(ToWake(s.ops[t]), |s.waiters|)
    ensures Leads(s, At(s, t, Returned(Sent, false)).(tokens := Woken(s.tokens, s.waiters, ToWake(s.ops[t]))), t)
    decreases |ToWake(s.ops[t])|, s.ops[t].SendLook?
  {
    var q := SendStep(s, t);
    var r := At(s, t, Returned(Sent, false)).(tokens := Woken(s.tokens, s.waiters, ToWake(s.ops[t])));
    SendMoves(s, t);
    assert KnownWaiters(s, s.ops[t]);
    if s.ops[t].SendSelect? {
      assert Woken(s.tokens, s.waiters, []) == s.tokens;
      ReachesSelf(Mover(t), q);
    } else {
      if s.ops[t].SendUnpark? { WokenFirst(s.tokens, s.waiters, s.ops[t].rest); }
      SenderWakes(q, t);
      assert At(q, t, Returned(Sent, false)).(tokens := Woken(q.tokens, q.waiters, ToWake(q.ops[t]))) == r;
    }
    Onwards(s, q, r, t);
  }

  lemma {:induction false} DropperWakes<V>(s: State<V>, t: Tid)
    requires Inv(s) && t < |s.ops| && (s.ops[t].DropExchange? || s.ops[t].DropUnpark? || s.ops[t].DropSelect?)
    ensures Known(ToWake(s.ops[t]), |s.waiters|)
    ensures Leads(s, At(s, t, Idle).(tokens := Woken(s.tokens, s.waiters, ToWake(s.ops[t]))), t)
    decreases |ToWake(s.ops[t])|, s.ops[t].DropExchange?
  {
    var q := DropStep(s, t);
    var r := At(s, t, Idle).(tokens := Woken(s.tokens, s.waiters, ToWake(s.ops[t])));
    DropMoves(s, t);
    assert KnownWaiters(s, s.ops[t]);
    if s.ops[t].DropSelect? {
      assert Woken(s.tokens, s.waiters, []) == s.tokens;
      ReachesSelf(Mover(t), q);
    } else {
      if s.ops[t].DropUnpark? {
        WokenFirst(s.tokens, s.waiters, s.ops[t].rest);
      } else {
        assert q.waiters == s.waiters;
      }
      DropperWakes(q, t);
      assert At(q, t, Idle).(tokens := Woken(q.tokens, q.waiters, ToWake(q.ops[t]))) == r;
    }
    Onwards(s, q, r, t);
  }

  /** The waiters whose threads this operation will unpark: the rest of its snapshot, or the list when it is taken. */
  function Debt<V>(s: State<V>, op: Op<V>): seq<Wid> {
    if op.SendSnapshot? || op.DropSnapshot? then s.list else ToWake(op)
  }

  lemma {:induction false} SenderPaysUp<V>(s: State<V>, t: Tid)
    requires Inv(s) && t < |s.ops| && Sending(s.ops[t]) && !s.ops[t].SendCheck? && !s.ops[t].SendPush?
    ensures Known(Debt(s, s.ops[t]), |s.waiters|)
    ensures Leads(s, At(s, t, Returned(Sent, false)).(tokens := Woken(s.tokens, s.waiters, Debt(s, s.ops[t]))), t)
  {
    if s.ops[t].SendSnapshot? {
      var q := SendStep(s, t);
      SendMoves(s, t);
      assert Woken(s.tokens, s.waiters, []) == s.tokens;
      SenderWakes(q, t);
      var r := At(s, t, Returned(Sent, false)).(tokens := Woken(s.tokens, s.waiters, s.list));
      assert At(q, t, Returned(Sent, false)).(tokens := Woken(q.tokens, q.waiters, ToWake(q.ops[t]))) == r;
      Onwards(s, q, r, t);
    } else {
      SenderWakes(s, t);
    }
  }

  lemma {:induction false} DropperPaysUp<V>(s: State<V>, t: Tid)
    requires Inv(s) && t < |s.ops| && Dropping(s.ops[t])
    ensures Known(Debt(s, s.ops[t]), |s.waiters|)
    ensures Leads(s, At(s, t, Idle).(tokens := Woken(s.tokens, s.waiters, Debt(s, s.ops[t]))), t)
  {
    if s.ops[t].DropSnapshot? {
      var q := DropStep(s, t);
      DropMoves(s, t);
      assert Woken(s.tokens, s.waiters, []) == s.tokens;
      DropperWakes(q, t);
      var r := At(s, t, Idle).(tokens := Woken(s.tokens, s.waiters, s.list));
      assert At(q, t, Idle).(tokens := Woken(q.tokens, q.waiters, ToWake(q.ops[t]))) == r;
      Onwards(s, q, r, t);
    } else {
      DropperWakes(s, t);
    }
  }

  // ------------------------------------------------------------------------------------
  // Receivers
  // ------------------------------------------------------------------------------------

  /** What follows the end of `ring.try_pop`. */
  function AfterPop<V>(s: State<V>, t: Tid, ring: R.State<V>): State<V>
    requires t < |s.ops| && t < |ring.pcs| && Popping(s.ops[t])
  {
    At(s, t, match ring.pcs[t]
             case PopSome(_, v) => RecvWakeSender(if s.ops[t].RecvRecheck? then Some(s.ops[t].w) else None, v)
             case PopNone(pos) => EmptyHanded(s.ops[t], pos)
             case _ => s.ops[t]).(ring := ring)
  }

  lemma PopMoves<V>(s: State<V>, t: Tid)
    requires Inv(s) && t < |s.ops| && Popping(s.ops[t])
    ensures Leads(s, PopStep(s, t), t) && Inv(PopStep(s, t))
  {
    RecvMoves(s, t);
  }

  lemma PopGoesOn<V>(s: State<V>, t: Tid)
    requires Inv(s) && t < |s.ops| && Popping(s.ops[t])
    ensures var q := PopStep(s, t);
            var pc := q.ring.pcs[t];
            && q.ring == R.Next(s.ring, R.Step(t)) && InPop(s.ring.pcs[t])
            && if InPop(pc) then q == s.(ring := q.ring) && G.Effort(q.ring, t) < G.Effort(s.ring, t)
               else (pc.PopSome? || pc.PopNone?) && q == AfterPop(s, t, q.ring)
  {
    assert Fits(s.ops[t], s.ring.pcs[t]);
    CallGoesOn(s.ring, t);
    G.StepReducesEffort(s.ring, t);
    assert At(s, t, s.ops[t]) == s;
  }

  lemma {:induction false} PopRunsOut<V>(s: State<V>, t: Tid)
    requires Inv(s) && t < |s.ops| && Popping(s.ops[t])
    ensures RingEnd(s.ring, t).pcs[t].PopSome? || RingEnd(s.ring, t).pcs[t].PopNone?
    ensures Leads(s, AfterPop(s, t, RingEnd(s.ring, t)), t)
    decreases G.Effort(s.ring, t)
  {
    var q := PopStep(s, t);
    PopGoesOn(s, t);
    PopMoves(s, t);
    RingRests(s.ring, t);
    if InPop(q.ring.pcs[t]) {
      PopRunsOut(q, t);
    } else {
      RingStays(q.ring, t, 7);
      ReachesSelf(Mover(t), q);
    }
    Onwards(s, q, AfterPop(s, t, RingEnd(s.ring, t)), t);
  }

  lemma {:induction false} IteratedInv<V>(s: State<V>, t: Tid, k: nat)
    requires Inv(s)
    ensures Inv(Iterate(Mover(t), s, k))
    decreases k
  {
    if k != 0 {
      NextInv(s, Step(t));
      IteratedInv(Next(s, Step(t)), t, k - 1);
    }
  }

  lemma LeadsInv<V>(s: State<V>, r: State<V>, t: Tid)
    requires Inv(s) && Leads(s, r, t)
    ensures Inv(r)
  {
    var k: nat :| Iterate(Mover(t), s, k) == r;
    IteratedInv(s, t, k);
  }

  /** How far a receive is from its end, or from its `park`. */
  function Stage<V>(op: Op<V>): nat {
    match op
    case RecvUnregister(_, after) => if after.TryAgain? then 9 else 1
    case RecvFast(_) => 8
    case RecvFastCount(_) => 7
    case RecvRegister => 6
    case RecvRecheck(_) => 5
    case RecvRecheckCount(_, _) => 4
    case RecvPark(_, _) => 3
    case RecvWakeSender(_, _) => 2
    case TryPop(_) => 5
    case TryCount(_) => 4
    case _ => 0
  }

  /** The call has ended, or the thread is asleep. */
  ghost predicate Done<V>(s: State<V>, t: Tid)
    requires Shaped(s) && t < |s.ops|
  {
    s.ops[t].Returned? || Asleep(s, t)
  }

  /** From `s` to `q` the receive of thread `t` came closer to its end, or took a token. */
  ghost predicate Closer<V>(s: State<V>, q: State<V>, t: Tid)
    requires Shaped(s) && Shaped(q) && t < |s.ops| == |q.ops|
  {
    && (Receiving(q.ops[t]) || q.ops[t].Returned?)
    && (q.tokens[t] ==> s.tokens[t])
    && ((s.tokens[t] && !q.tokens[t]) || Stage(q.ops[t]) < Stage(s.ops[t]))
  }

  lemma UnregisterIsCloser<V>(s: State<V>, t: Tid)
    requires Inv(s) && t < |s.ops| && s.ops[t].RecvUnregister?
    ensures Closer(s, RecvStep(s, t), t)
  {
  }

  lemma StepIsCloser<V>(s: State<V>, t: Tid)
    requires Inv(s) && t < |s.ops| && Receiving(s.ops[t]) && !Popping(s.ops[t]) && !Done(s, t)
    ensures Closer(s, RecvStep(s, t), t)
  {
    if s.ops[t].RecvUnregister? { UnregisterIsCloser(s, t); }
  }

  lemma PopIsCloser<V>(s: State<V>, t: Tid)
    requires Inv(s) && t < |s.ops| && Popping(s.ops[t])
    ensures Leads(s, AfterPop(s, t, RingEnd(s.ring, t)), t)
    ensures Inv(AfterPop(s, t, RingEnd(s.ring, t))) && Closer(s, AfterPop(s, t, RingEnd(s.ring, t)), t)
  {
    PopRunsOut(s, t);
    LeadsInv(s, AfterPop(s, t, RingEnd(s.ring, t)), t);
  }

  lemma ReceiverMovesOn<V>(s: State<V>, t: Tid) returns (q: State<V>)
    requires Inv(s) && t < |s.ops| && Receiving(s.ops[t]) && !Done(s, t)
    ensures Leads(s, q, t) && Inv(q) && |q.ops| == |s.ops| && Closer(s, q, t)
  {
    if Popping(s.ops[t]) {
      PopIsCloser(s, t);
      q := AfterPop(s, t, RingEnd(s.ring, t));
    } else {
      StepIsCloser(s, t);
      RecvMoves(s, t);
      q := RecvStep(s, t);
    }
  }

  /** From every reachable state a receive that nobody disturbs comes to its end, or falls asleep. */
  lemma {:induction false} ReceiverEnds<V>(s: State<V>, t: Tid) returns (r: State<V>)
    requires Inv(s) && t < |s.ops| && (Receiving(s.ops[t]) || s.ops[t].Returned?)
    ensures Leads(s, r, t) && Inv(r) && |r.ops| == |s.ops| && Done(r, t)
    decreases s.tokens[t], Stage(s.ops[t])
  {
    if Done(s, t) {
      r := s;
      ReachesSelf(Mover(t), s);
    } else {
      var q := ReceiverMovesOn(s, t);
      r := ReceiverEnds(q, t);
      ReachesThen(Mover(t), s, q, r);
    }
  }

  // ------------------------------------------------------------------------------------
  // The theorems
  // ------------------------------------------------------------------------------------

  lemma DebtIsPaid<V>(s: State<V>, t: Tid, u: Tid) returns (r: State<V>)
    requires Inv(s) && t < |s.ops| && u < |s.ops| && Asleep(s, t)
    requires SenderOwes(s.ops[u], s.ops[t].w) || DropperOwes(s.ops[u], s.ops[t].w)
    ensures Leads(s, r, u) && |r.tokens| == |r.ops| == |s.ops| && r.tokens[t] && r.ops[t] == s.ops[t]
  {
    var w := s.ops[t].w;
    assert Listed(s, t);
    var debt := Debt(s, s.ops[u]);
    var i :| 0 <= i < |debt| && debt[i] == w;
    if Sending(s.ops[u]) {
      SenderPaysUp(s, u);
      r := At(s, u, Returned(Sent, false)).(tokens := Woken(s.tokens, s.waiters, debt));
    } else {
      DropperPaysUp(s, u);
      r := At(s, u, Idle).(tokens := Woken(s.tokens, s.waiters, debt));
    }
  }

  /**
   A debt is always paid. Whenever a receiver is asleep in front of a published head ticket, or
   asleep without senders, there is another thread that, if it just goes on, gives it a token.
   */
  lemma SleeperWillBeWoken<V>(cap: nat, threads: nat, schedule: seq<Action<V>>, t: Tid)
      returns (u: Tid, r: State<V>)
    requires 2 <= cap && t < threads
    requires Asleep(Exec(Init<V>(cap, threads), schedule), t)
    requires var s := Exec(Init<V>(cap, threads), schedule); R.Published(s.ring, s.ring.head) || s.senders == 0
    ensures u < threads && u != t
    ensures var s := Exec(Init<V>(cap, threads), schedule);
            Leads(s, r, u) && |r.tokens| == |r.ops| == threads && r.tokens[t] && r.ops[t] == s.ops[t]
  {
    var s := Exec(Init<V>(cap, threads), schedule);
    ReachableInv(cap, threads, schedule);
    AsleepIsOwed(s, t);
    if R.Published(s.ring, s.ring.head) {
      u :| u < |s.ops| && SenderOwes(s.ops[u], s.ops[t].w);
    } else {
      u :| u < |s.ops| && DropperOwes(s.ops[u], s.ops[t].w);
    }
    r := DebtIsPaid(s, t, u);
  }

  /** From every reachable state a receive that nobody disturbs comes to its end, or falls asleep. */
  lemma ReceiverIsNotStuck<V>(cap: nat, threads: nat, schedule: seq<Action<V>>, t: Tid) returns (r: State<V>)
    requires 2 <= cap && t < threads && Receiving(Exec(Init<V>(cap, threads), schedule).ops[t])
    ensures Leads(Exec(Init<V>(cap, threads), schedule), r, t)
    ensures Shaped(r) && |r.ops| == threads && Done(r, t)
  {
    ReachableInv(cap, threads, schedule);
    r := ReceiverEnds(Exec(Init<V>(cap, threads), schedule), t);
  }

  lemma SenderEnds<V>(s: State<V>, t: Tid) returns (r: State<V>)
    requires Inv(s) && t < |s.ops| && Sending(s.ops[t])
    ensures Leads(s, r, t) && |r.ops| == |s.ops| && r.ops[t].Returned?
  {
    if s.ops[t].SendCheck? {
      SendMoves(s, t);
      var q := SendStep(s, t);
      if Sending(q.ops[t]) {
        r := SenderEndsPush(q, t);
        Onwards(s, q, r, t);
      } else {
        r := q;
      }
    } else if s.ops[t].SendPush? {
      r := SenderEndsPush(s, t);
    } else {
      SenderPaysUp(s, t);
      r := At(s, t, Returned(Sent, false)).(tokens := Woken(s.tokens, s.waiters, Debt(s, s.ops[t])));
    }
  }

  lemma SenderEndsPush<V>(s: State<V>, t: Tid) returns (r: State<V>)
    requires Inv(s) && t < |s.ops| && s.ops[t].SendPush?
    ensures Leads(s, r, t) && |r.ops| == |s.ops| && r.ops[t].Returned?
  {
    PushRunsOut(s, t);
    r := AfterPush(s, t, RingEnd(s.ring, t));
    LeadsInv(s, r, t);
    if Sending(r.ops[t]) {
      SenderPaysUp(r, t);
      var q := r;
      r := At(q, t, Returned(Sent, false)).(tokens := Woken(q.tokens, q.waiters, Debt(q, q.ops[t])));
      Onwards(s, q, r, t);
    }
  }

  /** ... and so do a send and a drop. */
  lemma SenderIsNotStuck<V>(cap: nat, threads: nat, schedule: seq<Action<V>>, t: Tid) returns (r: State<V>)
    requires 2 <= cap && t < threads
    requires var op := Exec(Init<V>(cap, threads), schedule).ops[t]; Sending(op) || Dropping(op)
    ensures Leads(Exec(Init<V>(cap, threads), schedule), r, t)
    ensures |r.ops| == threads && (r.ops[t].Returned? || r.ops[t].Idle?)
  {
    var s := Exec(Init<V>(cap, threads), schedule);
    ReachableInv(cap, threads, schedule);
    if Sending(s.ops[t]) {
      r := SenderEnds(s, t);
    } else {
      DropperPaysUp(s, t);
      r := At(s, t, Idle).(tokens := Woken(s.tokens, s.waiters, Debt(s, s.ops[t])));
    }
  }
}
