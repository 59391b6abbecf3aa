/**
 When the broadcast ring delivers the wrong message: the run in which a reader is handed the
 next lap's message under its own ticket's number, and the exact conditions on whole runs
 under which that cannot happen.
 */
module BroadcastTorn {
  import opened Basics
  import opened Broadcast
  import opened BroadcastProof

  /** One whole `send(0)` by thread 0. */
  function SendZero(): seq<Action<nat>> {
    [CallSend(0, 0), SendStep(0), SendStep(0), SendStep(0)]
  }

  function Fill(k: nat): seq<Action<nat>> {
    if k == 0 then [] else Fill(k - 1) + SendZero()
  }

  /** The ring after `k` whole sends of zero. */
  function Filled(cap: nat, k: nat): State<nat>
    requires k <= cap
  {
    State(cap, false, k, seq(cap, i requires 0 <= i < cap => if i < k then Slot(i + 1, Some(0)) else Slot(0, None)),
          1, [Idle], [NewReceiver(0)], seq(k, _ => 0), seq(k, _ => 0),
          seq(cap, i requires 0 <= i < cap => if i < k then i else 0), false)
  }

  lemma ExecOneMore<V>(s: State<V>, schedule: seq<Action<V>>, a: Action<V>)
    requires Shaped(s)
    ensures Exec(s, schedule + [a]) == Next(Exec(s, schedule), a)
  {
    assert (schedule + [a])[..|schedule|] == schedule;
  }

  lemma ExecFourMore<V>(s: State<V>, schedule: seq<Action<V>>, a: Action<V>, b: Action<V>, c: Action<V>, d: Action<V>)
    requires Shaped(s)
    ensures Exec(s, schedule + [a, b, c, d]) == Next(Next(Next(Next(Exec(s, schedule), a), b), c), d)
  {
    ExecOneMore(s, schedule, a);
    ExecOneMore(s, schedule + [a], b);
    ExecOneMore(s, schedule + [a] + [b], c);
    ExecOneMore(s, schedule + [a] + [b] + [c], d);
    assert schedule + [a] + [b] + [c] + [d] == schedule + [a, b, c, d];
  }

  lemma SendZeroFills(cap: nat, k: nat)
    requires k < cap
    ensures var s := Filled(cap, k);
            Next(Next(Next(Next(s, CallSend(0, 0)), SendStep(0)), SendStep(0)), SendStep(0)) == Filled(cap, k + 1)
  {
    var s := Filled(cap, k);
    RemainderUnique(k, 0, k, cap);
    var r := Next(Next(Next(Next(s, CallSend(0, 0)), SendStep(0)), SendStep(0)), SendStep(0));
    assert r.slots == Filled(cap, k + 1).slots;
    assert r.log == Filled(cap, k + 1).log && r.sender == Filled(cap, k + 1).sender;
    assert r.sends == [Idle] && r.last == Filled(cap, k + 1).last;
  }

  lemma SendZeroRun(init: State<nat>, schedule: seq<Action<nat>>, cap: nat, k: nat)
    requires Shaped(init) && k < cap && Exec(init, schedule) == Filled(cap, k)
    ensures Exec(init, schedule + SendZero()) == Filled(cap, k + 1)
  {
    ExecFourMore(init, schedule, CallSend(0, 0), SendStep(0), SendStep(0), SendStep(0));
    SendZeroFills(cap, k);
  }

  lemma {:induction false} FillFills(init: State<nat>, cap: nat, k: nat)
    requires k <= cap && Shaped(init) && init == Filled(cap, 0)
    ensures Exec(init, Fill(k)) == Filled(cap, k)
  {
    if k != 0 {
      FillFills(init, cap, k - 1);
      SendZeroRun(init, Fill(k - 1), cap, k - 1);
    }
  }

  /**
   The steps after `cap` whole sends: the reader finds its number in the slot; the sender
   claims the ticket one lap later and stores its value, but not yet its number; the reader
   loads that value, finds its number unchanged, and returns.
   */
  const TORN: seq<Action<nat>> :=
    [CallRecv(0), RecvStep(0), RecvStep(0), RecvStep(0), CallSend(0, 1), SendStep(0), SendStep(0),
     RecvStep(0), RecvStep(0), RecvStep(0)]

  /** The reader's control state before step `i` of `TORN`. */
  function TornReader(cap: nat, i: nat): Receiver<nat> {
    var rx := NewReceiver<nat>(0).(saw := if i < 3 then 0 else cap);
    match i
    case 0 => rx
    case 1 => rx.(pc := LoadNext(0))
    case 2 => rx.(pc := LoadWrite(0, 0), rounds := 1)
    case 3 => rx.(pc := Before(0, 0), rounds := 1)
    case 8 => rx.(pc := After(0, 0, Some(1)), rounds := 1, source := cap, torn := true)
    case 9 => rx.(pc := Take(0, 1), rounds := 1, source := cap, torn := true)
    case 10 => rx.(cursor := 1, received := 1, pc := Done(Received(1), 0), rounds := 1, source := cap, torn := true)
    case _ => rx.(pc := LoadValue(0, 0), rounds := 1)
  }

  function TornState(cap: nat, i: nat): (s: State<nat>)
    requires 0 < cap
    ensures Shaped(s)
  {
    var s := Filled(cap, cap).(receivers := [TornReader(cap, i)]);
    if i < 5 then s
    else if i == 5 then s.(sends := [Fetch(1)])
    else
      var claimed := s.(write := cap + 1, log := s.log + [1], sender := s.sender + [0], sends := [StoreValue(1, cap)]);
      if i == 6 then claimed
      else claimed.(sends := [StoreSeq(cap)], slots := s.slots[0 := Slot(1, Some(1))], last := s.last[0 := cap])
  }

  lemma TornReads(cap: nat, i: nat)
    requires 0 < cap && (i < 4 || 7 <= i < 10)
    ensures Next(TornState(cap, i), TORN[i]) == TornState(cap, i + 1)
  {
    assert SlotOf(TornState(cap, i), 0).seqno == 1;
    assert |TornState(cap, i).receivers| == 1;
    if i == 7 {
      NextLap(0, cap);
      assert TearsAt(TornState(cap, 7), TornState(cap, 7).sends[0], 0);
    }
  }

  lemma TornSends(cap: nat, i: nat)
    requires 0 < cap && 4 <= i < 7
    ensures Next(TornState(cap, i), TORN[i]) == TornState(cap, i + 1)
  {
    NextLap(0, cap);
    if i == 5 { assert !Sending(TornState(cap, 5), 0); }
  }

  lemma {:induction false} TornRun(init: State<nat>, cap: nat, i: nat)
    requires 0 < cap && Shaped(init) && init == Filled(cap, 0) && i <= 10
    ensures Exec(init, Fill(cap) + TORN[..i]) == TornState(cap, i)
  {
    if i == 0 {
      assert Fill(cap) + TORN[..0] == Fill(cap);
      FillFills(init, cap, cap);
    } else {
      TornRun(init, cap, i - 1);
      ExecOneMore(init, Fill(cap) + TORN[..i - 1], TORN[i - 1]);
      assert Fill(cap) + TORN[..i - 1] + [TORN[i - 1]] == Fill(cap) + TORN[..i];
      if 4 <= i - 1 < 7 { TornSends(cap, i - 1); } else { TornReads(cap, i - 1); }
    }
  }

  lemma TornDeliversWrong(cap: nat)
    requires 0 < cap
    ensures !RunDeliversRight(cap, false, 1, Fill(cap) + TORN[..10])
    ensures Exec(Init<nat>(cap, false, 1), Fill(cap) + TORN[..10]).write == cap + 1
  {
    var init := Init<nat>(cap, false, 1);
    assert init == Filled(cap, 0);
    TornRun(init, cap, 10);
    var s := TornState(cap, 10);
    assert s.receivers[0].pc == Done(Received(1), 0) && s.log[0] == 0;
  }

  /** Every message delivered in the run is the message of the receiver's ticket. */
  ghost predicate RunDeliversRight(cap: nat, fused: bool, threads: nat, schedule: seq<Action<nat>>)
    requires 0 < cap
  {
    var s := Exec(Init<nat>(cap, fused, threads), schedule);
    forall k: nat | k < |s.receivers| && s.receivers[k].pc.Done? && s.receivers[k].pc.outcome.Received? ::
      var pc := s.receivers[k].pc;
      pc.next < s.write && pc.outcome.v == s.log[pc.next]
  }

  ghost predicate DeliversRight(cap: nat, fused: bool)
    requires 0 < cap
  {
    forall threads: nat, schedule: seq<Action<nat>> :: RunDeliversRight(cap, fused, threads, schedule)
  }

  /** Somebody can only be lapped once there are more sends than slots. */
  lemma LappedStep<V>(s: State<V>, a: Action<V>)
    requires Shaped(s) && (s.lapped ==> s.cap < s.write)
    ensures Next(s, a).lapped ==> s.cap < Next(s, a).write
  {
  }

  lemma {:induction false} LappedMeansManySends<V>(cap: nat, fused: bool, threads: nat, schedule: seq<Action<V>>)
    requires 0 < cap
    ensures var s := Exec(Init<V>(cap, fused, threads), schedule); s.lapped ==> cap < s.write
    decreases |schedule|
  {
    if schedule != [] {
      LappedMeansManySends(cap, fused, threads, schedule[..|schedule| - 1]);
      LappedStep(Exec(Init<V>(cap, fused, threads), schedule[..|schedule| - 1]), schedule[|schedule| - 1]);
    }
  }

  lemma RightUnlessLapped(cap: nat, fused: bool, threads: nat, schedule: seq<Action<nat>>)
    requires 0 < cap && (fused || Exec(Init<nat>(cap, fused, threads), schedule).write <= cap)
    ensures RunDeliversRight(cap, fused, threads, schedule)
  {
    var s := Exec(Init<nat>(cap, fused, threads), schedule);
    LappedMeansManySends(cap, fused, threads, schedule);
    forall k: nat | k < |s.receivers| && s.receivers[k].pc.Done? && s.receivers[k].pc.outcome.Received?
      ensures s.receivers[k].pc.next < s.write && s.receivers[k].pc.outcome.v == s.log[s.receivers[k].pc.next]
    {
      DeliveredUnlessLapped(cap, fused, threads, schedule, k);
    }
  }

  /** All runs with at most `sends` claimed tickets deliver right. */
  ghost predicate DeliversRightUpTo(cap: nat, sends: nat)
    requires 0 < cap
  {
    forall threads: nat, schedule: seq<Action<nat>> ::
      Exec(Init<nat>(cap, false, threads), schedule).write <= sends ==>
        RunDeliversRight(cap, false, threads, schedule)
  }

  /**
   For the source as it is, with two stores: every delivered message is the message of the
   receiver's ticket, in all runs with at most `sends` sends, exactly if `sends` is no more
   than the capacity.
   */
  lemma DeliversRightExactlyUpToCapacity(cap: nat, sends: nat)
    requires 0 < cap
    ensures DeliversRightUpTo(cap, sends) <==> sends <= cap
  {
    if sends <= cap {
      forall threads: nat, schedule: seq<Action<nat>>
        | Exec(Init<nat>(cap, false, threads), schedule).write <= sends
        ensures RunDeliversRight(cap, false, threads, schedule)
      {
        RightUnlessLapped(cap, false, threads, schedule);
      }
    } else {
      TornDeliversWrong(cap);
    }
  }

  /**
   The repair: every delivered message is the message of the receiver's ticket, in all runs,
   exactly if the two stores of `send` are one step.
   */
  lemma DeliversRightExactlyWhenFused(cap: nat, fused: bool)
    requires 0 < cap
    ensures DeliversRight(cap, fused) <==> fused
  {
    if fused {
      forall threads: nat, schedule: seq<Action<nat>> ensures RunDeliversRight(cap, true, threads, schedule) {
        RightUnlessLapped(cap, true, threads, schedule);
      }
    } else {
      TornDeliversWrong(cap);
    }
  }
}
