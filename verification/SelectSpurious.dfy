/**
 The run in which select answers with an arm that is not ready, and the exact condition on how
 calls begin under which that cannot happen.
 */
module SelectSpurious {
  import opened Basics
  import R = Ring
  import opened SelectCall
  import opened SelectCallProof
  import opened SelectReady

  /**
   Thread 1 pushes a value and is about to drain the stack. Thread 0 receives that value,
   then selects on the empty channel and registers its node. Now thread 1 drains the stack and
   claims the node.
   */
  const LATE_WAKE: seq<Action<nat>> :=
    [CallSend(1, 0, 7), Step(1), Step(1), Step(1), Step(1), Step(1),
     Consume(0, R.CallPop(0)), Consume(0, R.Step(0)), Consume(0, R.Step(0)), Consume(0, R.Step(0)),
     Consume(0, R.Step(0)), Consume(0, R.Step(0)),
     Sweep(0), Step(0), Step(0), Step(0), Step(0),
     Step(1), Step(1), Step(1), Step(1), Step(1),
     Step(0), Step(0), Step(0), Step(0), Step(0), Step(0), Step(0)]

  function RingAt(i: nat): R.State<nat> {
    R.State(
      2,
      if i < 4 then 0 else 1,
      if i < 10 then 0 else 1,
      [R.Slot(if i < 6 then 0 else if i < 12 then 1 else 2, if 5 <= i < 11 then R.Full(7) else R.Vacant),
       R.Slot(1, R.Vacant)],
      [if i < 7 then R.Idle
       else if i == 7 then R.PopStart
       else if i == 8 then R.PopLoaded(0)
       else if i == 9 then R.PopReady(0)
       else if i == 10 then R.PopClaimed(0)
       else if i == 11 then R.PopRead(0, 7)
       else R.PopSome(0, 7),
       if i == 0 then R.Idle
       else if i == 1 then R.PushStart(7)
       else if i == 2 then R.PushLoaded(7, 0)
       else if i == 3 then R.PushReady(7, 0)
       else if i == 4 then R.PushClaimed(7, 0)
       else if i == 5 then R.PushWritten(7, 0)
       else R.PushOk(7, 0)],
      if i < 4 then [] else [7],
      if i < 4 then [] else [1],
      if i < 10 then [] else [0],
      if i < 10 then [] else if i == 10 then [None] else [Some(7)],
      [0, 0], [0, 0], false)
  }

  function SelAt(i: nat): SelPc {
    if i < 13 then Outside
    else if i == 13 then Try(0, 0, Head)
    else if i == 14 then Try(0, 0, Sequence(1))
    else if i == 15 then Try(0, 0, Count)
    else if i == 16 then Register(0)
    else if i < 23 then Recheck(0, Head)
    else if i == 23 then Recheck(0, Sequence(1))
    else if i == 24 then Recheck(0, Count)
    else if i == 25 then Look
    else if i == 26 then AbortLoad(0)
    else if i == 27 then AbortMark(0, [])
    else if i == 28 then Final
    else Returned(0)
  }

  function OpAt(i: nat): Op {
    if i == 0 then Idle
    else if i < 6 then Push(0)
    else if i < 18 then Swap(0, false)
    else if i == 18 then Visit(0, false, [0], false)
    else if i == 19 then Exchange(0, false, [0], false)
    else if i == 20 then Unpark(0, false, [], true)
    else if i == 21 then Visit(0, false, [], true)
    else Idle
  }

  /** The state before action `i` of `LATE_WAKE`, around a ring. */
  function StateOf(ring: R.State<nat>, i: nat): (s: State<nat>)
    requires R.Shaped(ring) && |ring.pcs| == 2 && i <= 29
    ensures Shaped(s)
  {
    State([0],
          [Chan(ring, if i == 17 then [0] else [], 1, 0)],
          if i < 17 then [] else [Node(0, 0, false)],
          if i < 16 then [] else if i < 20 then [UNSELECTED] else [0],
          SelAt(i), 21 <= i, [Idle, OpAt(i)],
          if i < 17 then [] else [0],
          if i < 17 then [] else if i < 18 then [0] else [1],
          if i < 16 then [] else if i < 20 then [0] else [1],
          i < 13, if i < 13 then 0 else 1)
  }

  lemma RingShaped(i: nat)
    ensures R.Shaped(RingAt(i)) && |RingAt(i).pcs| == 2
  {
  }

  // The steps of the ring.

  lemma RingBegins()
    ensures R.Next(RingAt(0), R.Return(1)) == RingAt(0)
    ensures R.Next(RingAt(0), R.CallPush(1, 7)) == RingAt(1)
  {
    var a, b := R.Next(RingAt(0), R.CallPush(1, 7)), RingAt(1);
    assert R.Next(RingAt(0), R.Return(1)).pcs == RingAt(0).pcs;
    assert a.pcs == b.pcs && a.since == b.since && a.retries == b.retries;
  }

  lemma RingPushes(i: nat)
    requires 1 <= i < 6
    ensures R.Next(RingAt(i), R.Step(1)) == RingAt(i + 1)
  {
    var a, b := R.Next(RingAt(i), R.Step(1)), RingAt(i + 1);
    assert a.pcs == b.pcs && a.slots == b.slots && a.log == b.log && a.producer == b.producer;
  }

  lemma RingPops(i: nat)
    requires 6 <= i < 12
    ensures R.Next(RingAt(i), if i == 6 then R.CallPop(0) else R.Step(0)) == RingAt(i + 1)
  {
    var a, b := R.Next(RingAt(i), if i == 6 then R.CallPop(0) else R.Step(0)), RingAt(i + 1);
    assert a.pcs == b.pcs && a.slots == b.slots && a.consumer == b.consumer && a.taken == b.taken;
    assert a.since == b.since && a.retries == b.retries;
  }

  // The steps around it.

  /** A ring of two threads in which thread 1 is, or is not yet, done with its push. */
  ghost predicate Pushing(ring: R.State<nat>, done: bool) {
    && R.Shaped(ring) && |ring.pcs| == 2
    && (ring.pcs[1].PushOk? <==> done) && !ring.pcs[1].PushErr?
  }

  lemma Begins(a: R.State<nat>, b: R.State<nat>)
    requires Pushing(a, false) && Pushing(b, false)
    requires R.Next(a, R.Return(1)) == a && R.Next(a, R.CallPush(1, 7)) == b
    ensures Next(StateOf(a, 0), LATE_WAKE[0]) == StateOf(b, 1)
  {
    var s, r := Next(StateOf(a, 0), LATE_WAKE[0]), StateOf(b, 1);
    assert s.chans == r.chans && s.ops == r.ops;
  }

  lemma Pushes(a: R.State<nat>, b: R.State<nat>, i: nat)
    requires 1 <= i < 5 && Pushing(a, false) && Pushing(b, false) && R.Next(a, R.Step(1)) == b
    ensures Next(StateOf(a, i), LATE_WAKE[i]) == StateOf(b, i + 1)
  {
    var s, r := RingStep(StateOf(a, i), 0, R.Step(1)), StateOf(b, i + 1);
    assert s.chans == r.chans;
    assert LATE_WAKE[i] == Step(1) && SenderStep(StateOf(a, i), 1) == s;
  }

  lemma PushEnds(a: R.State<nat>, b: R.State<nat>)
    requires Pushing(a, false) && Pushing(b, true) && R.Next(a, R.Step(1)) == b
    ensures Next(StateOf(a, 5), LATE_WAKE[5]) == StateOf(b, 6)
  {
    var s, r := Next(StateOf(a, 5), LATE_WAKE[5]), StateOf(b, 6);
    assert s.chans == r.chans && s.ops == r.ops;
  }

  lemma Pops(a: R.State<nat>, b: R.State<nat>, act: R.Action<nat>, i: nat)
    requires 6 <= i < 12 && Pushing(a, true) && Pushing(b, true)
    requires act == (if i == 6 then R.CallPop(0) else R.Step(0)) && R.Next(a, act) == b
    ensures Next(StateOf(a, i), LATE_WAKE[i]) == StateOf(b, i + 1)
  {
    var s := StateOf(a, i);
    assert LATE_WAKE[i] == Consume(0, act) && Next(s, LATE_WAKE[i]) == RingStep(s, 0, act);
    assert RingStep(s, 0, act).chans == StateOf(b, i + 1).chans;
  }

  /** The ring while thread 0 selects: one value was pushed and popped. */
  ghost predicate Emptied(ring: R.State<nat>) {
    && R.Shaped(ring) && |ring.pcs| == 2 && R.AtRest(ring.pcs[0])
    && ring.cap == 2 && ring.head == 1 && ring.tail == 1 && ring.slots[1].sequence == 1
  }

  lemma Sweeps(ring: R.State<nat>)
    requires Emptied(ring)
    ensures Next(StateOf(ring, 12), LATE_WAKE[12]) == StateOf(ring, 13)
  {
    var ops := StateOf(ring, 12).ops;
    assert ops[1..] == [Swap(0, false)] && ops[1..][1..] == [];
    assert Busy(ops[1..][1..]) == 0;
    assert Busy(ops[1..]) == 1;
    assert Busy(ops) == 1;
  }

  lemma Tries(ring: R.State<nat>, i: nat)
    requires Emptied(ring) && 13 <= i < 16
    ensures Next(StateOf(ring, i), LATE_WAKE[i]) == StateOf(ring, i + 1)
  {
  }

  lemma Pushed(ring: R.State<nat>)
    requires Emptied(ring)
    ensures RegisterStep(StateOf(ring, 16)) == StateOf(ring, 17)
  {
    assert RegisterStep(StateOf(ring, 16)).chans[0].stack == [0];
  }

  lemma Registers(ring: R.State<nat>)
    requires Emptied(ring)
    ensures Next(StateOf(ring, 16), LATE_WAKE[16]) == StateOf(ring, 17)
  {
    Pushed(ring);
    assert LATE_WAKE[16] == Step(0);
  }

  lemma Takes(ring: R.State<nat>)
    requires Emptied(ring)
    ensures Next(StateOf(ring, 17), LATE_WAKE[17]) == StateOf(ring, 18)
  {
    var s, r := Next(StateOf(ring, 17), LATE_WAKE[17]), StateOf(ring, 18);
    assert s == TakeStack(StateOf(ring, 17), 1, 0, false);
    assert s.ops == r.ops && s.holder == r.holder;
  }

  lemma Wakes(ring: R.State<nat>, i: nat)
    requires Emptied(ring) && 18 <= i < 22
    ensures Next(StateOf(ring, i), LATE_WAKE[i]) == StateOf(ring, i + 1)
  {
    var s, r := Next(StateOf(ring, i), LATE_WAKE[i]), StateOf(ring, i + 1);
    assert s.ops == r.ops && s.cells == r.cells && s.winner == r.winner;
  }

  lemma Returns(ring: R.State<nat>, i: nat)
    requires Emptied(ring) && 22 <= i < 26
    ensures Next(StateOf(ring, i), LATE_WAKE[i]) == StateOf(ring, i + 1)
  {
  }

  lemma Finishes(ring: R.State<nat>, i: nat)
    requires Emptied(ring) && 26 <= i < 29
    ensures Next(StateOf(ring, i), LATE_WAKE[i]) == StateOf(ring, i + 1)
  {
  }

  function StateAt(i: nat): (s: State<nat>)
    requires i <= 29
    ensures Shaped(s)
  {
    RingShaped(i);
    StateOf(RingAt(i), i)
  }

  lemma Selects(i: nat)
    requires 12 <= i < 29
    ensures Next(StateAt(i), LATE_WAKE[i]) == StateAt(i + 1)
  {
    var ring := RingAt(12);
    assert RingAt(i) == ring && RingAt(i + 1) == ring && Emptied(ring);
    if i == 12 { Sweeps(ring); }
    else if i < 16 { Tries(ring, i); }
    else if i == 16 { Registers(ring); }
    else if i == 17 { Takes(ring); }
    else if i < 22 { Wakes(ring, i); }
    else if i < 26 { Returns(ring, i); }
    else { Finishes(ring, i); }
  }

  lemma StepOn(i: nat)
    requires i < 29
    ensures Next(StateAt(i), LATE_WAKE[i]) == StateAt(i + 1)
  {
    RingShaped(i);
    RingShaped(i + 1);
    if i == 0 {
      RingBegins();
      Begins(RingAt(0), RingAt(1));
    } else if i < 6 {
      RingPushes(i);
      if i < 5 { Pushes(RingAt(i), RingAt(i + 1), i); } else { PushEnds(RingAt(5), RingAt(6)); }
    } else if i < 12 {
      RingPops(i);
      Pops(RingAt(i), RingAt(i + 1), if i == 6 then R.CallPop(0) else R.Step(0), i);
    } else {
      Selects(i);
    }
  }

  lemma {:induction false} RunsThrough(init: State<nat>, i: nat)
    requires Shaped(init) && init == StateAt(0) && i <= 29
    ensures Exec(init, LATE_WAKE[..i]) == StateAt(i)
  {
    if i != 0 {
      RunsThrough(init, i - 1);
      assert LATE_WAKE[..i][..i - 1] == LATE_WAKE[..i - 1];
      StepOn(i - 1);
    }
  }

  lemma RunBegins()
    ensures Init<nat>([0], [2], 2) == StateAt(0)
  {
    var ring := R.Init<nat>(2, 2);
    assert ring.slots == RingAt(0).slots && ring.pcs == RingAt(0).pcs;
    assert ring.since == RingAt(0).since && ring.retries == RingAt(0).retries;
    assert Init<nat>([0], [2], 2).ops == StateAt(0).ops;
    assert Init<nat>([0], [2], 2).chans == StateAt(0).chans;
  }

  // ------------------------------------------------------------------------------------
  // The exact condition
  // ------------------------------------------------------------------------------------

  /** Runs in which at most `inFlight` senders are inside an operation when a call begins answer with a ready arm. */
  ghost predicate AnswersReady(inFlight: nat) {
    forall arms: seq<nat>, caps: seq<nat>, threads: nat, schedule: seq<Action<nat>>
      | Caps(caps) && Arms(arms, |caps|) && 0 < threads ::
      AnswerReady(Exec(Init<nat>(arms, caps, threads), schedule), inFlight)
  }

  ghost predicate AnswerReady(s: State<nat>, inFlight: nat) {
    s.busy <= inFlight && s.sel.Returned? ==>
      s.sel.arm < |s.arms| && s.arms[s.sel.arm] < |s.chans| && ArmReady(s, s.sel.arm)
  }

  /** The call began with one sender inside `send`; its answer is an arm with nothing to receive. */
  lemma LateWakeAnswersUnready(inFlight: nat)
    requires 0 < inFlight
    ensures !AnswerReady(Exec(Init<nat>([0], [2], 2), LATE_WAKE), inFlight)
  {
    RunBegins();
    RunsThrough(Init<nat>([0], [2], 2), 29);
    assert LATE_WAKE[..29] == LATE_WAKE;
    EndsUnready(inFlight);
  }

  lemma EndsUnready(inFlight: nat)
    requires 0 < inFlight
    ensures !AnswerReady(StateAt(29), inFlight)
  {
  }

  lemma SelectorKeepsHistory(s: State<nat>)
    requires Shaped(s)
    ensures SelectorStep(s).busy == s.busy && SelectorStep(s).clean == s.clean
  {
  }

  lemma SenderKeepsHistory(s: State<nat>, t: Tid)
    requires Shaped(s) && t < |s.ops|
    ensures SenderStep(s, t).busy == s.busy && SenderStep(s, t).clean == s.clean
  {
  }

  lemma NeverBusyIsClean(s: State<nat>, a: Action<nat>)
    requires Shaped(s) && (s.busy == 0 ==> s.clean)
    ensures Next(s, a).busy == 0 ==> Next(s, a).clean
  {
    if a.Step? {
      SelectorKeepsHistory(s);
      if a.tid < |s.ops| { SenderKeepsHistory(s, a.tid); }
    }
  }

  lemma {:induction false} CleanIfNeverBusy(arms: seq<nat>, caps: seq<nat>, threads: nat, schedule: seq<Action<nat>>)
    requires Caps(caps) && Arms(arms, |caps|) && 0 < threads
    ensures var s := Exec(Init<nat>(arms, caps, threads), schedule); s.busy == 0 ==> s.clean
    decreases |schedule|
  {
    if schedule != [] {
      CleanIfNeverBusy(arms, caps, threads, schedule[..|schedule| - 1]);
      NeverBusyIsClean(Exec(Init<nat>(arms, caps, threads), schedule[..|schedule| - 1]), schedule[|schedule| - 1]);
    }
  }

  lemma CleanAnswers(s: State<nat>)
    requires ReadyInv(s) && (s.busy == 0 ==> s.clean)
    ensures AnswerReady(s, 0)
  {
  }

  /** Every answer, in every run, is an arm that is ready, exactly if calls begin with no sender inside an operation. */
  lemma ReadyExactlyIfCallsBeginClean(inFlight: nat)
    ensures AnswersReady(inFlight) <==> inFlight == 0
  {
    if inFlight == 0 {
      forall arms: seq<nat>, caps: seq<nat>, threads: nat, schedule: seq<Action<nat>>
        | Caps(caps) && Arms(arms, |caps|) && 0 < threads
        ensures AnswerReady(Exec(Init<nat>(arms, caps, threads), schedule), 0)
      {
        CleanIfNeverBusy(arms, caps, threads, schedule);
        ReachableReady(arms, caps, threads, schedule);
        CleanAnswers(Exec(Init<nat>(arms, caps, threads), schedule));
      }
    } else {
      LateWakeAnswersUnready(inFlight);
      assert Caps([2]) && Arms([0], |[2]|);
    }
  }
}
