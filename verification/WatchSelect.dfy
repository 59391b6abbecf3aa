/**
 Select arms on a watch channel: what it means that a sender has claimed the call for the arm,
 the run in which it means nothing, and the exact condition.
 */
module WatchSelect {
  import opened Basics
  import opened Watch
  import opened WatchProof

  /**
   If no sender was inside an operation when the arm's node was pushed, a claim of the node means
   that something is pending for the receiver: a newer version, or the end of the senders.
   (`WatchProof.PromisedCompletionNeverParks` then says that the completion does not park.)
   */
  lemma ClaimMeansPending<V>(threads: nat, owner: Tid, schedule: seq<Action<V>>, n: nat)
    requires n < |Exec(Init<V>(threads, owner), schedule).nodes|
    requires var node := Exec(Init<V>(threads, owner), schedule).nodes[n]; node.claimed && node.during == 0
    ensures Due(Exec(Init<V>(threads, owner), schedule), n)
  {
    ReachableInv(threads, owner, schedule);
    assert NodeOk(Exec(Init<V>(threads, owner), schedule), n);
  }

  // ------------------------------------------------------------------------------------
  // The run
  // ------------------------------------------------------------------------------------

  /**
   Thread 1 marks a change and has bumped the version; thread 0 is told of it by `changed`. It
   then selects on a clone, which is not ready, and pushes its node. Now thread 1 drains the
   stack and claims the node. The completion finds nothing new and parks.
   */
  const LATE_CLAIM: seq<Action<nat>> :=
    [CallChanged(0, 0), Step(0), Step(0), CallMark(1), Step(1), Step(0), Return(0),
     CloneReceiver(0, 0, 0), CallReady(0, 1), Step(0), Step(0), Return(0),
     CallRegister(0, 1), Step(0), Step(0), Step(0), Return(0),
     Step(1), Step(1), Step(1), Step(1), Step(1), Return(1), TakeToken(0),
     CallComplete(0, 0), Step(0), Step(0), Step(0), Step(0), Step(0)]

  function ReceiverOp(i: nat): Op<nat> {
    if i == 1 then ChangedCount(0)
    else if i == 2 then ChangedArm(0)
    else if 3 <= i < 6 then AwaitVersion(Wait(0, 0, false))
    else if i == 6 then Finished(Changed(1))
    else if i == 9 then ReadyCount(1)
    else if i == 10 then ReadyVersion(1)
    else if i == 11 then Finished(Answer(false))
    else if i == 13 then RegisterVersion(1)
    else if i == 14 then RegisterCount(1)
    else if i == 15 then RegisterPush(1)
    else if i == 16 then Finished(Pushed(true))
    else if i == 25 then AwaitVersion(Wait(0, 1, false))
    else if i == 26 then AwaitCount(Wait(0, 1, false))
    else if i == 27 then AwaitRegister(Wait(0, 1, false))
    else if i == 28 then AwaitRecheck(Wait(0, 1, false), 0)
    else if i == 29 then AwaitRecheckCount(Wait(0, 1, false), 0)
    else if i == 30 then AwaitPark(Wait(0, 1, false), 0)
    else Idle
  }

  function SenderOp(i: nat): Op<nat> {
    if i == 4 then Bump(0)
    else if 5 <= i < 18 then Snapshot
    else if i == 18 then Unpark([])
    else if i == 19 then SelectSwap
    else if i == 20 then SelectClaim([0])
    else if i == 21 then SelectClaim([])
    else if i == 22 then Finished(Sent)
    else Idle
  }

  function Receivers(i: nat): seq<Receiver> {
    var original := Receiver(if i < 6 then 0 else 1, 3 <= i < 6, 0,
                             if i == 0 then 0 else if i < 25 then 1 else 2, 0, 0, false, if i < 6 then 0 else 1, 0);
    if i < 8 then [original]
    else [original, Receiver(1, 11 <= i, 0, if i < 9 then 0 else if i < 13 then 1 else 2, 0, 1, false, 1, 0)]
  }

  lemma OpsShaped(i: nat)
    ensures OpShaped(ReceiverOp(i), |Receivers(i)|, if i < 28 then 0 else 1, if i < 16 then 0 else 1)
    ensures OpShaped(SenderOp(i), |Receivers(i)|, if i < 28 then 0 else 1, if i < 16 then 0 else 1)
  {
  }

  /** The state before action `i` of `LATE_CLAIM`. */
  function StateAt(i: nat): (s: State<nat>)
    requires i <= 30
    ensures Shaped(s)
  {
    OpsShaped(i);
    State(if i < 5 then 0 else 1, None, 1,
          if i < 28 then [] else [0], if i < 28 then [] else [0],
          [21 <= i < 24, false], [ReceiverOp(i), SenderOp(i)], Receivers(i),
          if i < 16 then [] else [Node(1, 0, false, 21 <= i, 1, 1, 1, true, 0)],
          if 16 <= i < 20 then [0] else [],
          [], if i < 5 then [] else [0], if i < 5 then [] else [1], [if i < 24 then 0 else 1, 0], 0)
  }

  lemma OneIsBusy(ops: seq<Op<nat>>)
    requires |ops| == 2 && !Sending(ops[0]) && Sending(ops[1])
    ensures Busy(ops) == 1
  {
    assert ops[1..] == [ops[1]] && ops[1..][1..] == [];
    assert Busy(ops[1..][1..]) == 0;
    assert Busy(ops[1..]) == 1;
  }

  lemma FieldByField(s: State<nat>, r: State<nat>)
    requires s.version == r.version && s.value == r.value && s.senders == r.senders && s.lastDropper == r.lastDropper
    requires s.ops == r.ops && s.receivers == r.receivers && s.nodes == r.nodes && s.stack == r.stack
    requires s.tokens == r.tokens && s.owners == r.owners && s.list == r.list && s.stored == r.stored
    requires s.stamps == r.stamps && s.bumper == r.bumper && s.takes == r.takes
    ensures s == r
  {
  }

  lemma ChangedBegins(i: nat)
    requires i < 2
    ensures Next(StateAt(i), LATE_CLAIM[i]) == StateAt(i + 1)
  {
    FieldByField(Next(StateAt(i), LATE_CLAIM[i]), StateAt(i + 1));
  }

  lemma ChangedArms(i: nat)
    requires i == 2
    ensures Next(StateAt(i), LATE_CLAIM[i]) == StateAt(i + 1)
  {
    FieldByField(Next(StateAt(i), LATE_CLAIM[i]), StateAt(i + 1));
  }

  lemma MarkCalled(i: nat)
    requires i == 3
    ensures Next(StateAt(i), LATE_CLAIM[i]) == StateAt(i + 1)
  {
    FieldByField(Next(StateAt(i), LATE_CLAIM[i]), StateAt(i + 1));
  }

  lemma Bumps(i: nat)
    requires i == 4
    ensures Next(StateAt(i), LATE_CLAIM[i]) == StateAt(i + 1)
  {
    FieldByField(Next(StateAt(i), LATE_CLAIM[i]), StateAt(i + 1));
  }

  lemma ChangedEnds(i: nat)
    requires 5 <= i < 7
    ensures Next(StateAt(i), LATE_CLAIM[i]) == StateAt(i + 1)
  {
    FieldByField(Next(StateAt(i), LATE_CLAIM[i]), StateAt(i + 1));
  }

  lemma Clones(i: nat)
    requires 7 <= i < 9
    ensures Next(StateAt(i), LATE_CLAIM[i]) == StateAt(i + 1)
  {
    FieldByField(Next(StateAt(i), LATE_CLAIM[i]), StateAt(i + 1));
  }

  lemma AskCalled(i: nat)
    requires i == 9
    ensures Next(StateAt(i), LATE_CLAIM[i]) == StateAt(i + 1)
  {
    FieldByField(Next(StateAt(i), LATE_CLAIM[i]), StateAt(i + 1));
  }

  lemma Asks(i: nat)
    requires i == 10
    ensures Next(StateAt(i), LATE_CLAIM[i]) == StateAt(i + 1)
  {
    FieldByField(Next(StateAt(i), LATE_CLAIM[i]), StateAt(i + 1));
  }

  lemma Answers(i: nat)
    requires i == 11
    ensures Next(StateAt(i), LATE_CLAIM[i]) == StateAt(i + 1)
  {
    FieldByField(Next(StateAt(i), LATE_CLAIM[i]), StateAt(i + 1));
  }

  lemma RegisterCalled(i: nat)
    requires i == 12
    ensures Next(StateAt(i), LATE_CLAIM[i]) == StateAt(i + 1)
  {
    FieldByField(Next(StateAt(i), LATE_CLAIM[i]), StateAt(i + 1));
  }

  lemma RegisterBegins(i: nat)
    requires i == 13
    ensures Next(StateAt(i), LATE_CLAIM[i]) == StateAt(i + 1)
  {
    FieldByField(Next(StateAt(i), LATE_CLAIM[i]), StateAt(i + 1));
  }

  lemma Counts(i: nat)
    requires i == 14
    ensures Next(StateAt(i), LATE_CLAIM[i]) == StateAt(i + 1)
  {
    FieldByField(Next(StateAt(i), LATE_CLAIM[i]), StateAt(i + 1));
  }

  lemma PushesNode(i: nat)
    requires i == 15
    ensures Next(StateAt(i), LATE_CLAIM[i]) == StateAt(i + 1)
  {
    OneIsBusy(StateAt(i).ops);
    FieldByField(Next(StateAt(i), LATE_CLAIM[i]), StateAt(i + 1));
  }

  lemma RegisterEnds(i: nat)
    requires i == 16
    ensures Next(StateAt(i), LATE_CLAIM[i]) == StateAt(i + 1)
  {
    FieldByField(Next(StateAt(i), LATE_CLAIM[i]), StateAt(i + 1));
  }

  lemma Unparks(i: nat)
    requires 17 <= i < 19
    ensures Next(StateAt(i), LATE_CLAIM[i]) == StateAt(i + 1)
  {
    FieldByField(Next(StateAt(i), LATE_CLAIM[i]), StateAt(i + 1));
  }

  lemma Takes(i: nat)
    requires i == 19
    ensures Next(StateAt(i), LATE_CLAIM[i]) == StateAt(i + 1)
  {
    FieldByField(Next(StateAt(i), LATE_CLAIM[i]), StateAt(i + 1));
  }

  lemma Claims(i: nat)
    requires i == 20
    ensures Next(StateAt(i), LATE_CLAIM[i]) == StateAt(i + 1)
  {
    FieldByField(Next(StateAt(i), LATE_CLAIM[i]), StateAt(i + 1));
  }

  lemma SenderFinishes(i: nat)
    requires i == 21
    ensures Next(StateAt(i), LATE_CLAIM[i]) == StateAt(i + 1)
  {
    FieldByField(Next(StateAt(i), LATE_CLAIM[i]), StateAt(i + 1));
  }

  lemma SenderEnds(i: nat)
    requires 22 <= i < 24
    ensures Next(StateAt(i), LATE_CLAIM[i]) == StateAt(i + 1)
  {
    FieldByField(Next(StateAt(i), LATE_CLAIM[i]), StateAt(i + 1));
  }

  lemma CompleteBegins(i: nat)
    requires 24 <= i < 26
    ensures Next(StateAt(i), LATE_CLAIM[i]) == StateAt(i + 1)
  {
    FieldByField(Next(StateAt(i), LATE_CLAIM[i]), StateAt(i + 1));
  }

  lemma CompleteCounts(i: nat)
    requires i == 26
    ensures Next(StateAt(i), LATE_CLAIM[i]) == StateAt(i + 1)
  {
    FieldByField(Next(StateAt(i), LATE_CLAIM[i]), StateAt(i + 1));
  }

  lemma Enlists(i: nat)
    requires i == 27
    ensures Next(StateAt(i), LATE_CLAIM[i]) == StateAt(i + 1)
  {
    FieldByField(Next(StateAt(i), LATE_CLAIM[i]), StateAt(i + 1));
  }

  lemma Rechecks(i: nat)
    requires i == 28
    ensures Next(StateAt(i), LATE_CLAIM[i]) == StateAt(i + 1)
  {
    FieldByField(Next(StateAt(i), LATE_CLAIM[i]), StateAt(i + 1));
  }

  lemma Parks(i: nat)
    requires i == 29
    ensures Next(StateAt(i), LATE_CLAIM[i]) == StateAt(i + 1)
  {
    FieldByField(Next(StateAt(i), LATE_CLAIM[i]), StateAt(i + 1));
  }

  /** A run along these states. */
  lemma {:induction false} RunsAlong(states: seq<State<nat>>, schedule: seq<Action<nat>>)
    requires |states| == |schedule| + 1 && forall k | 0 <= k < |states| :: Shaped(states[k])
    requires forall k | 0 <= k < |schedule| :: Next(states[k], schedule[k]) == states[k + 1]
    ensures Exec(states[0], schedule) == states[|schedule|]
    decreases |schedule|
  {
    if schedule != [] {
      RunsAlong(states[..|schedule|], schedule[..|schedule| - 1]);
    }
  }

  lemma StepOn(i: nat)
    requires i < 30
    ensures Next(StateAt(i), LATE_CLAIM[i]) == StateAt(i + 1)
  {
    if i < 2 {
      ChangedBegins(i);
    } else if i < 3 {
      ChangedArms(i);
    } else if i < 4 {
      MarkCalled(i);
    } else if i < 5 {
      Bumps(i);
    } else if i < 7 {
      ChangedEnds(i);
    } else if i < 9 {
      Clones(i);
    } else if i < 10 {
      AskCalled(i);
    } else if i < 11 {
      Asks(i);
    } else if i < 12 {
      Answers(i);
    } else if i < 13 {
      RegisterCalled(i);
    } else if i < 14 {
      RegisterBegins(i);
    } else if i < 15 {
      Counts(i);
    } else if i < 16 {
      PushesNode(i);
    } else if i < 17 {
      RegisterEnds(i);
    } else if i < 19 {
      Unparks(i);
    } else if i < 20 {
      Takes(i);
    } else if i < 21 {
      Claims(i);
    } else if i < 22 {
      SenderFinishes(i);
    } else if i < 24 {
      SenderEnds(i);
    } else if i < 26 {
      CompleteBegins(i);
    } else if i < 27 {
      CompleteCounts(i);
    } else if i < 28 {
      Enlists(i);
    } else if i < 29 {
      Rechecks(i);
    } else {
      Parks(i);
    }
  }

  lemma Begins(i: nat)
    requires i == 0
    ensures StateAt(i) == Init<nat>(2, 0)
  {
  }

  lemma RunEnds()
    ensures Exec(Init<nat>(2, 0), LATE_CLAIM) == StateAt(30)
  {
    Begins(0);
    var states := seq(31, i requires 0 <= i < 31 => StateAt(i));
    forall k | 0 <= k < 30 ensures Next(states[k], LATE_CLAIM[k]) == states[k + 1] { StepOn(k); }
    RunsAlong(states, LATE_CLAIM);
  }

  /** The node is claimed, nothing is pending, all senders are idle, and the completion on the original is asleep. */
  ghost predicate ClaimedInVain(s: State<nat>) {
    && |s.nodes| == 1 && s.nodes[0].claimed && s.nodes[0].during == 1 && !Due(s, 0)
    && NobodySends(s) && 0 < |s.ops| == |s.tokens| && Asleep(s, 0)
  }

  lemma EndsInVain(i: nat)
    requires i == 30
    ensures ClaimedInVain(StateAt(i))
  {
  }

  lemma LateClaimCompletionSleeps()
    ensures ClaimedInVain(Exec(Init<nat>(2, 0), LATE_CLAIM))
  {
    RunEnds();
    EndsInVain(30);
  }

  // ------------------------------------------------------------------------------------
  // The exact condition
  // ------------------------------------------------------------------------------------

  /** In all runs, claims of nodes pushed with at most `inFlight` senders inside an operation mean something. */
  ghost predicate ClaimsMeanPending(inFlight: nat) {
    forall threads: nat, owner: Tid, schedule: seq<Action<nat>> ::
      RunClaimsMeanPending(Exec(Init<nat>(threads, owner), schedule), inFlight)
  }

  ghost predicate RunClaimsMeanPending(s: State<nat>, inFlight: nat) {
    forall n: nat | n < |s.nodes| && s.nodes[n].claimed && s.nodes[n].during <= inFlight :: Due(s, n)
  }

  /**
   A claim means that something is pending, in all runs, exactly if nodes are pushed with no
   sender inside an operation.
   */
  lemma PendingExactlyIfPushedClean(inFlight: nat)
    ensures ClaimsMeanPending(inFlight) <==> inFlight == 0
  {
    if inFlight == 0 {
      forall threads: nat, owner: Tid, schedule: seq<Action<nat>>
        ensures RunClaimsMeanPending(Exec(Init<nat>(threads, owner), schedule), 0)
      {
        var s := Exec(Init<nat>(threads, owner), schedule);
        forall n: nat | n < |s.nodes| && s.nodes[n].claimed && s.nodes[n].during <= 0 ensures Due(s, n) {
          ClaimMeansPending(threads, owner, schedule, n);
        }
      }
    } else {
      LateClaimCompletionSleeps();
      assert !RunClaimsMeanPending(Exec(Init<nat>(2, 0), LATE_CLAIM), inFlight);
    }
  }
}
