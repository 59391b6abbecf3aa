/**
 Why select needs to be the only consumer of its channels: `wake_select_one` with the nodes of
 two select calls on the stack wakes one call, frees the other's node, and that call is
 forgotten. `Waiters.ForgetsNobodyExactlyForOneCall` gives the exact condition on a stack.
 */
module ForgottenCall {
  import opened Basics
  import opened WaiterStack

  // ------------------------------------------------------------------------------------
  // Forgotten for good
  // ------------------------------------------------------------------------------------

  /** Cell `k` is undecided, and all nodes that refer to it have been freed. */
  ghost predicate Forgotten(s: State, k: Cid)
    requires Shaped(s)
  {
    && k < |s.cells| && s.cells[k].value == UNSELECTED
    && forall n: nat | n < |s.nodes| && s.nodes[n].cell == k :: s.place[n] == Freed
  }

  /** The select call that owns cell `k` does nothing: it is parked. */
  ghost predicate Silent(a: Action, k: Cid) {
    !(a.CallPush? && a.cell == k) && !(a.Recheck? && a.cell == k)
  }

  lemma WakeForgets(s: State, t: Tid, k: Cid)
    requires Inv(s) && t < |s.pcs| && Forgotten(s, k)
    ensures Forgotten(WakeStep(s, t), k)
  {
    assert ThreadOk(s, t);
  }

  lemma PushForgets(s: State, t: Tid, k: Cid)
    requires Inv(s) && t < |s.pcs| && Forgotten(s, k)
    ensures Forgotten(PushStep(s, t), k) && Forgotten(AbortStep(s, t), k)
  {
    assert ThreadOk(s, t);
  }

  lemma StaysForgotten(s: State, a: Action, k: Cid)
    requires Inv(s) && Forgotten(s, k) && Silent(a, k)
    ensures Forgotten(Next(s, a), k)
  {
    if a.Step? && a.tid < |s.pcs| {
      WakeForgets(s, a.tid, k);
      PushForgets(s, a.tid, k);
    }
  }

  /**
   A call that is forgotten while it is parked stays so: whatever the other threads push, abort
   and drain afterwards, nobody ever decides its cell.
   */
  lemma {:induction false} ForgottenForGood(s: State, more: seq<Action>, k: Cid)
    requires Inv(s) && Forgotten(s, k)
    requires forall i | 0 <= i < |more| :: Silent(more[i], k)
    ensures Inv(Exec(s, more)) && Forgotten(Exec(s, more), k)
    decreases |more|
  {
    if more != [] {
      var fewer := more[..|more| - 1];
      ForgottenForGood(s, fewer, k);
      NextInv(Exec(s, fewer), more[|more| - 1]);
      StaysForgotten(Exec(s, fewer), more[|more| - 1], k);
    }
  }

  // ------------------------------------------------------------------------------------
  // The run
  // ------------------------------------------------------------------------------------

  /**
   Threads 0 and 1 each register one arm of a select call of their own on the same stack, and
   park. Thread 2 sends, and drains the stack with `wake_select_one`.
   */
  const TWO_CALLS: seq<Action> :=
    [NewCell(1), NewCell(1),
     CallPush(0, 0, 0, 0), Step(0), Step(0), Step(0),
     CallPush(1, 0, 1, 0), Step(1), Step(1), Step(1),
     CallWake(2, 0, One), Step(2), Step(2), Step(2), Step(2), Step(2), Step(2), Step(2), Step(2)]

  function NodesAt(i: nat): seq<Node> {
    if i < 3 then []
    else if i < 7 then [Node(0, 0, 0, None, false)]
    else [Node(0, 0, 0, None, false), Node(1, 0, 1, if i < 9 then None else Some(0), false)]
  }

  function CellsAt(i: nat): seq<Cell> {
    if i == 0 then []
    else if i == 1 then [Cell(UNSELECTED, 1)]
    else [Cell(UNSELECTED, 1), Cell(if i < 15 then UNSELECTED else 0, 1)]
  }

  function PlaceAt(i: nat): seq<Place> {
    if i < 3 then []
    else if i < 6 then [Private(0)]
    else if i < 7 then [OnStack(0)]
    else if i < 10 then [OnStack(0), Private(1)]
    else if i < 12 then [OnStack(0), OnStack(0)]
    else if i < 16 then [Held(2), Held(2)]
    else if i < 18 then [Held(2), Freed]
    else [Freed, Freed]
  }

  function ChainAt(i: nat): seq<Nid> {
    if i < 6 then [] else if i < 10 then [0] else if i < 12 then [1, 0] else []
  }

  function BatchAt(i: nat): seq<Nid> {
    if i < 12 then [] else if i < 16 then [1, 0] else if i < 18 then [0] else []
  }

  function FreesAt(i: nat): seq<nat> {
    if i < 3 then []
    else if i < 7 then [0]
    else if i < 16 then [0, 0]
    else if i < 18 then [0, 1]
    else [1, 1]
  }

  function PcsAt(i: nat): seq<Pc> {
    [if i == 3 then PushLoad(0, 0)
     else if i == 4 then PushLink(0, 0, None)
     else if i == 5 then PushExchange(0, 0, None)
     else Idle,
     if i == 7 then PushLoad(1, 0)
     else if i == 8 then PushLink(1, 0, Some(0))
     else if i == 9 then PushExchange(1, 0, Some(0))
     else Idle,
     if i == 11 then WakeSwap(0, One)
     else if i == 12 then WakeVisit(Some(1), One, false)
     else if i == 13 then WakeCheck(1, Some(0), One, false)
     else if i == 14 then WakeExchange(1, Some(0), One, false)
     else if i == 15 then WakeUnpark(1, Some(0), One, true)
     else if i == 16 then WakeVisit(Some(0), One, true)
     else if i == 17 then WakeCheck(0, None, One, true)
     else if i == 18 then WakeVisit(None, One, true)
     else Idle]
  }

  /** The state before action `i` of `TWO_CALLS`. */
  function StateAt(i: nat): (s: State)
    requires i <= 19
    ensures Shaped(s)
  {
    State(NodesAt(i), CellsAt(i), [First(ChainAt(i))], [false, 16 <= i, false], PcsAt(i),
          PlaceAt(i), [ChainAt(i)], [[], [], BatchAt(i)], FreesAt(i), false)
  }

  lemma Cells(i: nat)
    requires i < 2
    ensures Next(StateAt(i), TWO_CALLS[i]) == StateAt(i + 1)
  {
    var s, r := Next(StateAt(i), TWO_CALLS[i]), StateAt(i + 1);
    assert s.pcs == r.pcs && s.nodes == r.nodes && s.place == r.place && s.frees == r.frees;
    assert s.chain[0] == r.chain[0] && s.batch[2] == r.batch[2];
    assert s.cells == r.cells && s.tokens == r.tokens && s.heads == r.heads;
  }

  lemma Begin(i: nat)
    requires i == 2
    ensures Next(StateAt(i), TWO_CALLS[i]) == StateAt(i + 1)
  {
    var s, r := Next(StateAt(i), TWO_CALLS[i]), StateAt(i + 1);
    assert s.pcs == r.pcs && s.nodes == r.nodes && s.place == r.place && s.frees == r.frees;
    assert s.chain[0] == r.chain[0] && s.batch[2] == r.batch[2];
    assert s.cells == r.cells && s.tokens == r.tokens && s.heads == r.heads;
  }

  lemma FirstLinks(i: nat)
    requires 3 <= i < 5
    ensures Next(StateAt(i), TWO_CALLS[i]) == StateAt(i + 1)
  {
    var s, r := Next(StateAt(i), TWO_CALLS[i]), StateAt(i + 1);
    assert s.pcs == r.pcs && s.nodes == r.nodes && s.place == r.place && s.frees == r.frees;
    assert s.chain[0] == r.chain[0] && s.batch[2] == r.batch[2];
    assert s.cells == r.cells && s.tokens == r.tokens && s.heads == r.heads;
  }

  lemma FirstPush(i: nat)
    requires i == 5
    ensures Next(StateAt(i), TWO_CALLS[i]) == StateAt(i + 1)
  {
    var s, r := Next(StateAt(i), TWO_CALLS[i]), StateAt(i + 1);
    assert s.pcs == r.pcs && s.nodes == r.nodes && s.place == r.place && s.frees == r.frees;
    assert s.chain[0] == r.chain[0] && s.batch[2] == r.batch[2];
    assert s.cells == r.cells && s.tokens == r.tokens && s.heads == r.heads;
  }

  lemma SecondNode(i: nat)
    requires i == 6
    ensures Next(StateAt(i), TWO_CALLS[i]) == StateAt(i + 1)
  {
    var s, r := Next(StateAt(i), TWO_CALLS[i]), StateAt(i + 1);
    assert s.pcs == r.pcs && s.nodes == r.nodes && s.place == r.place && s.frees == r.frees;
    assert s.chain[0] == r.chain[0] && s.batch[2] == r.batch[2];
    assert s.cells == r.cells && s.tokens == r.tokens && s.heads == r.heads;
  }

  lemma SecondLinks(i: nat)
    requires 7 <= i < 9
    ensures Next(StateAt(i), TWO_CALLS[i]) == StateAt(i + 1)
  {
    var s, r := Next(StateAt(i), TWO_CALLS[i]), StateAt(i + 1);
    assert s.pcs == r.pcs && s.nodes == r.nodes && s.place == r.place && s.frees == r.frees;
    assert s.chain[0] == r.chain[0] && s.batch[2] == r.batch[2];
    assert s.cells == r.cells && s.tokens == r.tokens && s.heads == r.heads;
  }

  lemma SecondPushes(i: nat)
    requires 9 <= i < 10
    ensures Next(StateAt(i), TWO_CALLS[i]) == StateAt(i + 1)
  {
    var s, r := Next(StateAt(i), TWO_CALLS[i]), StateAt(i + 1);
    assert s.pcs == r.pcs && s.nodes == r.nodes && s.place == r.place && s.frees == r.frees;
    assert s.chain[0] == r.chain[0] && s.batch[2] == r.batch[2];
    assert s.cells == r.cells && s.tokens == r.tokens && s.heads == r.heads;
  }

  lemma DrainBegins(i: nat)
    requires 10 <= i < 13
    ensures Next(StateAt(i), TWO_CALLS[i]) == StateAt(i + 1)
  {
    var s, r := Next(StateAt(i), TWO_CALLS[i]), StateAt(i + 1);
    assert s.pcs == r.pcs && s.nodes == r.nodes && s.place == r.place && s.frees == r.frees;
    assert s.chain[0] == r.chain[0] && s.batch[2] == r.batch[2];
    assert s.cells == r.cells && s.tokens == r.tokens && s.heads == r.heads;
  }

  lemma DrainClaims(i: nat)
    requires 13 <= i < 15
    ensures Next(StateAt(i), TWO_CALLS[i]) == StateAt(i + 1)
  {
    var s, r := Next(StateAt(i), TWO_CALLS[i]), StateAt(i + 1);
    assert s.pcs == r.pcs && s.nodes == r.nodes && s.place == r.place && s.frees == r.frees;
    assert s.chain[0] == r.chain[0] && s.batch[2] == r.batch[2];
    assert s.cells == r.cells && s.tokens == r.tokens && s.heads == r.heads;
  }

  lemma DrainWakes(i: nat)
    requires 15 <= i < 17
    ensures Next(StateAt(i), TWO_CALLS[i]) == StateAt(i + 1)
  {
    var s, r := Next(StateAt(i), TWO_CALLS[i]), StateAt(i + 1);
    assert s.pcs == r.pcs && s.nodes == r.nodes && s.place == r.place && s.frees == r.frees;
    assert s.chain[0] == r.chain[0] && s.batch[2] == r.batch[2];
    assert s.cells == r.cells && s.tokens == r.tokens && s.heads == r.heads;
  }

  lemma DrainEnds(i: nat)
    requires 17 <= i < 19
    ensures Next(StateAt(i), TWO_CALLS[i]) == StateAt(i + 1)
  {
    var s, r := Next(StateAt(i), TWO_CALLS[i]), StateAt(i + 1);
    assert s.pcs == r.pcs && s.nodes == r.nodes && s.place == r.place && s.frees == r.frees;
    assert s.chain[0] == r.chain[0] && s.batch[2] == r.batch[2];
    assert s.cells == r.cells && s.tokens == r.tokens && s.heads == r.heads;
  }

  lemma {:induction false} RunsThrough(init: State, i: nat)
    requires Shaped(init) && init == StateAt(0) && i <= 19
    ensures Exec(init, TWO_CALLS[..i]) == StateAt(i)
  {
    if i != 0 {
      RunsThrough(init, i - 1);
      assert TWO_CALLS[..i][..i - 1] == TWO_CALLS[..i - 1];
      if i - 1 < 2 {
        Cells(i - 1);
      } else if i - 1 < 3 {
        Begin(i - 1);
      } else if i - 1 < 5 {
        FirstLinks(i - 1);
      } else if i - 1 < 6 {
        FirstPush(i - 1);
      } else if i - 1 < 7 {
        SecondNode(i - 1);
      } else if i - 1 < 9 {
        SecondLinks(i - 1);
      } else if i - 1 < 10 {
        SecondPushes(i - 1);
      } else if i - 1 < 13 {
        DrainBegins(i - 1);
      } else if i - 1 < 15 {
        DrainClaims(i - 1);
      } else if i - 1 < 17 {
        DrainWakes(i - 1);
      } else {
        DrainEnds(i - 1);
      }
    }
  }

  /**
   After this run, the drain over, thread 1 is awake; thread 0's cell is still unselected, its
   node is freed, and it has no token. No later drain will ever select it.
   */
  lemma SecondCallIsForgotten(more: seq<Action>)
    requires forall i | 0 <= i < |more| :: Silent(more[i], 0)
    ensures var s := Exec(Init(1, 3), TWO_CALLS);
            && s.pcs == [Idle, Idle, Idle] && s.heads == [None] && s.tokens == [false, true, false]
            && s.cells == [Cell(UNSELECTED, 1), Cell(0, 1)]
            && |s.nodes| == 2 && s.nodes[0].cell == 0 && s.frees == [1, 1]
            && var r := Exec(s, more);
               0 < |r.cells| && r.cells[0].value == UNSELECTED
  {
    var init := Init(1, 3);
    assert init == StateAt(0);
    RunsThrough(init, 19);
    assert TWO_CALLS[..19] == TWO_CALLS;
    ReachableInv(1, 3, TWO_CALLS);
    assert Forgotten(StateAt(19), 0);
    ForgottenForGood(StateAt(19), more, 0);
  }
}
