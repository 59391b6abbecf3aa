/**
 The waiter structures as heap objects, used by one thread at a time: the linked stack of
 select waiters and the list of blocked receivers, with the loops that wake them.
 */
module Waiters {
  import opened Basics

  class Selected {
    var value: nat

    constructor ()
      ensures value == UNSELECTED
    {
      value := UNSELECTED;
    }

    /** `compare_exchange(UNSELECTED, caseId)`. */
    method Claim(caseId: nat) returns (won: bool)
      modifies this
      ensures won == (old(value) == UNSELECTED)
      ensures value == if won then caseId else old(value)
    {
      won := value == UNSELECTED;
      if won {
        value := caseId;
      }
    }
  }

  class Thread {
    var token: bool

    constructor ()
      ensures !token
    {
      token := false;
    }
  }

  class SelectWaiter {
    const caseId: nat
    const selected: Selected
    const thread: Thread
    var next: SelectWaiter?
    var aborted: bool

    constructor (caseId: nat, selected: Selected, thread: Thread)
      ensures this.caseId == caseId && this.selected == selected && this.thread == thread
      ensures next == null && !aborted
    {
      this.caseId, this.selected, this.thread := caseId, selected, thread;
      next, aborted := null, false;
    }
  }

  ghost function Aborted(batch: seq<SelectWaiter>): (r: seq<bool>)
    reads batch
    ensures |r| == |batch|
  {
    seq(|batch|, i requires 0 <= i < |batch| reads batch => batch[i].aborted)
  }

  ghost function Cells(batch: seq<SelectWaiter>): set<Selected> {
    set n | n in batch :: n.selected
  }

  ghost function Threads(batch: seq<SelectWaiter>): set<Thread> {
    set n | n in batch :: n.thread
  }

  ghost function Values(batch: seq<SelectWaiter>): (r: seq<nat>)
    reads Cells(batch)
    ensures |r| == |batch|
  {
    seq(|batch|, i requires 0 <= i < |batch| reads Cells(batch) => batch[i].selected.value)
  }

  ghost function Tokens(batch: seq<SelectWaiter>): (r: seq<bool>)
    reads Threads(batch)
    ensures |r| == |batch|
  {
    seq(|batch|, i requires 0 <= i < |batch| reads Threads(batch) => batch[i].thread.token)
  }

  /** The cells' values, as seen from the nodes, after node `i` (if there is one) has won. */
  ghost function ValuesWon(batch: seq<SelectWaiter>, values: seq<nat>, i: nat): (r: seq<nat>)
    requires |values| == |batch|
    ensures |r| == |batch|
  {
    seq(|batch|, j requires 0 <= j < |batch| =>
      if i < |batch| && batch[j].selected == batch[i].selected then batch[i].caseId else values[j])
  }

  /** The threads' tokens, as seen from the nodes, after the thread of node `i` was unparked. */
  ghost function TokensWon(batch: seq<SelectWaiter>, tokens: seq<bool>, i: nat): (r: seq<bool>)
    requires |tokens| == |batch|
    ensures |r| == |batch|
  {
    seq(|batch|, j requires 0 <= j < |batch| =>
      (i < |batch| && batch[j].thread == batch[i].thread) || tokens[j])
  }

  /** What a drain has seen before it: the cells and tokens of the batch, and who was aborted. */
  datatype Before = Before(aborted: seq<bool>, values: seq<nat>, tokens: seq<bool>)

  /** Nothing below `k` may still win: it is aborted, or its cell is decided. */
  ghost predicate NoneOpen(b: Before, k: nat)
    requires |b.aborted| == |b.values| && k <= |b.aborted|
  {
    forall j | 0 <= j < k :: b.aborted[j] || b.values[j] != UNSELECTED
  }

  /** `i` is the first position that may still win, or the length if there is none. */
  ghost predicate IsWinner(b: Before, i: nat)
    requires |b.aborted| == |b.values|
  {
    && i <= |b.aborted| && NoneOpen(b, i)
    && (i < |b.aborted| ==> !b.aborted[i] && b.values[i] == UNSELECTED)
  }

  /** What node `j` sees of a `wake_select_one` that found its winner, node `i`, or none yet. */
  ghost predicate NodeDecided(batch: seq<SelectWaiter>, b: Before, value: nat, token: bool, i: nat, woke: bool, j: nat)
    requires |b.values| == |b.tokens| == |batch| && j < |batch| && (woke ==> i < |batch|)
  {
    && value == (if woke && batch[j].selected == batch[i].selected then batch[i].caseId else b.values[j])
    && token == ((woke && batch[j].thread == batch[i].thread) || b.tokens[j])
  }

  /**
   The first `k` nodes were handled by `wake_select_one`: either none of them was open and
   nothing changed, or the first open one won and only its cell and thread changed.
   */
  ghost predicate OneWoken(batch: seq<SelectWaiter>, b: Before, values: seq<nat>, tokens: seq<bool>,
                           k: nat, woke: bool, winner: nat)
    requires |b.aborted| == |b.values| == |b.tokens| == |values| == |tokens| == |batch| && k <= |batch|
  {
    && (!woke ==> NoneOpen(b, k))
    && (woke ==> winner < k && IsWinner(b, winner))
    && forall j: nat | j < |batch| :: NodeDecided(batch, b, values[j], tokens[j], winner, woke, j)
  }

  /** Node `j` may still be selected: it is not aborted, and its cell is not decided. */
  ghost predicate OpenNode(b: Before, j: nat)
    requires |b.aborted| == |b.values| && j < |b.aborted|
  {
    !b.aborted[j] && b.values[j] == UNSELECTED
  }

  /** All open nodes are of one select call: a condition on the stack before it is drained. */
  ghost predicate OneCall(batch: seq<SelectWaiter>, b: Before)
    requires |b.aborted| == |b.values| == |batch|
  {
    forall i: nat, j: nat | i < |batch| && j < |batch| && OpenNode(b, i) && OpenNode(b, j) ::
      batch[i].selected == batch[j].selected
  }

  /** Every node that was open when the stack was drained has been selected: nobody is forgotten. */
  ghost predicate NobodyForgotten(batch: seq<SelectWaiter>, b: Before, values: seq<nat>)
    requires |b.aborted| == |b.values| == |values| == |batch|
  {
    forall j: nat | j < |batch| && OpenNode(b, j) :: values[j] != UNSELECTED
  }

  /**
   `wake_select_one` frees all nodes and wakes one call. It forgets nobody exactly if all open
   nodes were of one call; with a second call on the stack, that one is freed and not woken.
   */
  lemma ForgetsNobodyExactlyForOneCall(batch: seq<SelectWaiter>, b: Before, values: seq<nat>, tokens: seq<bool>,
                                       woke: bool, winner: nat)
    requires |b.aborted| == |b.values| == |b.tokens| == |values| == |tokens| == |batch|
    requires OneWoken(batch, b, values, tokens, |batch|, woke, winner)
    requires forall n | n in batch :: n.caseId != UNSELECTED
    ensures NobodyForgotten(batch, b, values) <==> OneCall(batch, b)
  {
    forall j: nat | j < |batch| && OpenNode(b, j)
      ensures woke && OpenNode(b, winner)
      ensures values[j] != UNSELECTED <==> batch[j].selected == batch[winner].selected
    {
      assert NodeDecided(batch, b, values[j], tokens[j], winner, woke, j);
    }
  }

  /** Node `i` speaks for the cell of node `j`, and is not aborted. */
  ghost predicate SpeaksFor(batch: seq<SelectWaiter>, aborted: seq<bool>, i: nat, j: nat)
    requires |aborted| == |batch| && i < |batch| && j < |batch|
  {
    !aborted[i] && batch[i].selected == batch[j].selected
  }

  ghost predicate WakesThread(batch: seq<SelectWaiter>, aborted: seq<bool>, i: nat, j: nat)
    requires |aborted| == |batch| && i < |batch| && j < |batch|
  {
    !aborted[i] && batch[i].thread == batch[j].thread
  }

  /** The cell that node `j` sees, once the first `k` nodes were handled. */
  ghost predicate CellWoken(batch: seq<SelectWaiter>, b: Before, value: nat, k: nat, j: nat)
    requires |b.aborted| == |b.values| == |batch| && k <= |batch| && j < |batch|
  {
    && (j < k && !b.aborted[j] ==> value != UNSELECTED)
    && (b.values[j] != UNSELECTED ==> value == b.values[j])
    && (value == b.values[j] || exists i :: 0 <= i < k && SpeaksFor(batch, b.aborted, i, j) && value == batch[i].caseId)
  }

  ghost predicate ThreadWoken(batch: seq<SelectWaiter>, b: Before, token: bool, k: nat, j: nat)
    requires |b.aborted| == |b.tokens| == |batch| && k <= |batch| && j < |batch|
  {
    && (j < k && !b.aborted[j] ==> token)
    && (b.tokens[j] ==> token)
    && (token == b.tokens[j] || exists i :: 0 <= i < k && WakesThread(batch, b.aborted, i, j))
  }

  /**
   The first `k` nodes were handled by `wake_select_all`. Each unaborted one has its cell
   decided and its thread unparked; decided cells and set tokens stay; and a cell or token
   only changed because of an unaborted node that speaks for it.
   */
  ghost predicate AllWoken(batch: seq<SelectWaiter>, b: Before, values: seq<nat>, tokens: seq<bool>, k: nat)
    requires |b.aborted| == |b.values| == |b.tokens| == |values| == |tokens| == |batch| && k <= |batch|
  {
    forall j: nat | j < |batch| :: CellWoken(batch, b, values[j], k, j) && ThreadWoken(batch, b, tokens[j], k, j)
  }

  lemma AllWokenSkips(batch: seq<SelectWaiter>, b: Before, values: seq<nat>, tokens: seq<bool>, k: nat)
    requires |b.aborted| == |b.values| == |b.tokens| == |values| == |tokens| == |batch| && k < |batch|
    requires AllWoken(batch, b, values, tokens, k) && b.aborted[k]
    ensures AllWoken(batch, b, values, tokens, k + 1)
  {
    forall j: nat | j < |batch|
      ensures CellWoken(batch, b, values[j], k + 1, j) && ThreadWoken(batch, b, tokens[j], k + 1, j)
    {
      assert CellWoken(batch, b, values[j], k, j) && ThreadWoken(batch, b, tokens[j], k, j);
    }
  }

  lemma AllWokenContinues(batch: seq<SelectWaiter>, b: Before, values: seq<nat>, tokens: seq<bool>, k: nat)
    requires |b.aborted| == |b.values| == |b.tokens| == |values| == |tokens| == |batch| && k < |batch|
    requires AllWoken(batch, b, values, tokens, k) && !b.aborted[k] && batch[k].caseId != UNSELECTED
    requires forall j | 0 <= j < |batch| && batch[j].selected == batch[k].selected :: values[j] == values[k]
    ensures AllWoken(batch, b, if values[k] == UNSELECTED then ValuesWon(batch, values, k) else values,
                     TokensWon(batch, tokens, k), k + 1)
  {
    var values' := if values[k] == UNSELECTED then ValuesWon(batch, values, k) else values;
    var tokens' := TokensWon(batch, tokens, k);
    forall j: nat | j < |batch|
      ensures CellWoken(batch, b, values'[j], k + 1, j) && ThreadWoken(batch, b, tokens'[j], k + 1, j)
    {
      assert CellWoken(batch, b, values[j], k, j) && ThreadWoken(batch, b, tokens[j], k, j);
      if batch[j].selected == batch[k].selected { assert SpeaksFor(batch, b.aborted, k, j); }
      if batch[j].thread == batch[k].thread { assert WakesThread(batch, b.aborted, k, j); }
    }
  }

  lemma WhomADrainForgets(batch: seq<SelectWaiter>, b: Before, values: seq<nat>, tokens: seq<bool>,
                          woke: bool, winner: nat)
    requires |b.aborted| == |b.values| == |b.tokens| == |values| == |tokens| == |batch|
    requires OneWoken(batch, b, values, tokens, |batch|, woke, winner)
    ensures (forall n | n in batch :: n.caseId != UNSELECTED) ==>
              (NobodyForgotten(batch, b, values) <==> OneCall(batch, b))
  {
    if forall n | n in batch :: n.caseId != UNSELECTED {
      ForgetsNobodyExactlyForOneCall(batch, b, values, tokens, woke, winner);
    }
  }

  class SelectStack {
    var head: SelectWaiter?
    ghost var chain: seq<SelectWaiter>     // the nodes on the stack, top first

    ghost predicate Valid()
      reads this, chain
    {
      && head == (if chain == [] then null else chain[0])
      && Linked(chain)
    }

    constructor ()
      ensures Valid() && chain == []
    {
      head, chain := null, [];
    }

    /** The stack takes over the node. */
    method Push(n: SelectWaiter)
      requires Valid() && n !in chain
      modifies this, n`next
      ensures Valid() && chain == [n] + old(chain)
    {
      n.next := head;
      head := n;
      chain := [n] + chain;
      assert forall i | 1 <= i < |chain| :: chain[i] == old(chain)[i - 1];
    }

    /** Marks exactly the nodes of the select call that owns `selected`. */
    method Abort(selected: Selected)
      requires Valid()
      modifies chain
      ensures Valid() && chain == old(chain)
      ensures forall n | n in chain :: n.aborted == (old(n.aborted) || n.selected == selected)
    {
      var current := head;
      ghost var k := 0;
      while current != null
        invariant 0 <= k <= |chain| && current == NodeAt(chain, k)
        invariant Valid()
        invariant forall i | 0 <= i < |chain| :: chain[i].next == old(chain[i].next)
        invariant forall i | 0 <= i < k :: chain[i].aborted == (old(chain[i].aborted) || chain[i].selected == selected)
        invariant forall i | k <= i < |chain| :: chain[i].aborted == old(chain[i].aborted)
        decreases |chain| - k
      {
        if current.selected == selected {
          current.aborted := true;
        }
        current := current.next;
        k := k + 1;
      }
    }

    /** The body of the drain loops for one unaborted node: claim its cell; unpark if that worked (or always). */
    static method ClaimAndUnpark(node: SelectWaiter, always: bool, ghost batch: seq<SelectWaiter>, ghost k: nat)
      returns (won: bool)
      requires k < |batch| && batch[k] == node
      modifies node.selected, node.thread
      ensures won == (old(Values(batch))[k] == UNSELECTED)
      ensures Values(batch) == if won then ValuesWon(batch, old(Values(batch)), k) else old(Values(batch))
      ensures Tokens(batch) == if won || always then TokensWon(batch, old(Tokens(batch)), k) else old(Tokens(batch))
    {
      won := node.selected.Claim(node.caseId);
      if won || always {
        node.thread.token := true;
      }
    }

    /** One node of `wake_select_one`'s batch: skipped if aborted or if there is a winner already. */
    static method TryToWin(node: SelectWaiter, found: bool, ghost batch: seq<SelectWaiter>, ghost k: nat,
                           ghost b: Before, ghost winner: nat)
      returns (woke: bool, ghost winner': nat)
      requires |b.aborted| == |b.values| == |b.tokens| == |batch| && k < |batch| && batch[k] == node
      requires node.aborted == b.aborted[k]
      requires OneWoken(batch, b, Values(batch), Tokens(batch), k, found, winner)
      modifies node.selected, node.thread
      ensures OneWoken(batch, b, Values(batch), Tokens(batch), k + 1, woke, winner')
    {
      woke, winner' := found, winner;
      assert NodeDecided(batch, b, Values(batch)[k], Tokens(batch)[k], winner, found, k);
      if !node.aborted && !found {
        woke := ClaimAndUnpark(node, false, batch, k);
        if woke { winner' := k; }
      }
    }

    /**
     `wake_select_one`, run alone. The whole stack is emptied and every node is freed, once
     and in stack order. Only the first node that is neither aborted nor already decided
     wins: its cell receives its arm and its thread a token. No other cell and no other
     thread changes, even when several nodes share a cell. So every open node is selected
     exactly if the open nodes were all of one select call.
     */
    method WakeSelectOne() returns (woke: bool, freed: seq<SelectWaiter>, ghost winner: nat)
      requires Valid()
      modifies this, Cells(chain), Threads(chain)
      ensures Valid() && chain == [] && freed == old(chain)
      ensures OneWoken(freed, old(Before(Aborted(chain), Values(chain), Tokens(chain))),
                       Values(freed), Tokens(freed), |freed|, woke, winner)
      ensures (forall n | n in freed :: n.caseId != UNSELECTED) ==>
                (NobodyForgotten(freed, old(Before(Aborted(chain), Values(chain), Tokens(chain))), Values(freed))
                 <==> OneCall(freed, old(Before(Aborted(chain), Values(chain), Tokens(chain)))))
    {
      ghost var batch := chain;
      ghost var b := Before(Aborted(chain), Values(chain), Tokens(chain));
      var current := head;
      head, chain := null, [];
      woke, freed, winner := false, [], |batch|;
      ghost var k := 0;
      while current != null
        invariant k <= |batch| && current == NodeAt(batch, k)
        invariant freed == batch[..k]
        invariant Linked(batch) && head == null && chain == [] && Aborted(batch) == b.aborted
        invariant OneWoken(batch, b, Values(batch), Tokens(batch), k, woke, winner)
        decreases |batch| - k
      {
        var node: SelectWaiter := current;
        current := node.next;
        assert current == NodeAt(batch, k + 1) by { assert batch[k] == node; }
        assert b.aborted[k] == node.aborted;
        woke, winner := TryToWin(node, woke, batch, k, b, winner);
        freed := freed + [node];
        k := k + 1;
      }
      assert freed == batch;
      WhomADrainForgets(batch, b, Values(batch), Tokens(batch), woke, winner);
    }

    /** One node of `wake_select_all`'s batch. */
    static method WakeNode(node: SelectWaiter, ghost batch: seq<SelectWaiter>, ghost k: nat, ghost b: Before)
      requires |b.aborted| == |b.values| == |b.tokens| == |batch| && k < |batch| && batch[k] == node
      requires node.aborted == b.aborted[k] && node.caseId != UNSELECTED
      requires AllWoken(batch, b, Values(batch), Tokens(batch), k)
      modifies node.selected, node.thread
      ensures AllWoken(batch, b, Values(batch), Tokens(batch), k + 1)
    {
      if node.aborted {
        AllWokenSkips(batch, b, Values(batch), Tokens(batch), k);
      } else {
        AllWokenContinues(batch, b, Values(batch), Tokens(batch), k);
        var won := ClaimAndUnpark(node, true, batch, k);
      }
    }

    /**
     `wake_select_all`, run alone: empties the stack, frees every node once and in order,
     decides the cell of every unaborted node and unparks its thread.
     */
    method WakeSelectAll() returns (freed: seq<SelectWaiter>)
      requires Valid() && forall n | n in chain :: n.caseId != UNSELECTED
      modifies this, Cells(chain), Threads(chain)
      ensures Valid() && chain == [] && freed == old(chain)
      ensures AllWoken(freed, old(Before(Aborted(chain), Values(chain), Tokens(chain))),
                       Values(freed), Tokens(freed), |freed|)
    {
      ghost var batch := chain;
      ghost var b := Before(Aborted(chain), Values(chain), Tokens(chain));
      var current := head;
      head, chain := null, [];
      freed := [];
      ghost var k := 0;
      while current != null
        invariant k <= |batch| && current == NodeAt(batch, k)
        invariant freed == batch[..k]
        invariant Linked(batch) && head == null && chain == [] && Aborted(batch) == b.aborted
        invariant AllWoken(batch, b, Values(batch), Tokens(batch), k)
        decreases |batch| - k
      {
        var node: SelectWaiter := current;
        current := node.next;
        assert current == NodeAt(batch, k + 1) by { assert batch[k] == node; }
        assert b.aborted[k] == node.aborted;
        WakeNode(node, batch, k, b);
        freed := freed + [node];
        k := k + 1;
      }
      assert freed == batch;
    }

    /** `drain_select_waiters`: frees every node, wakes nobody. */
    method DrainSelect() returns (freed: seq<SelectWaiter>)
      requires Valid()
      modifies this
      ensures Valid() && chain == [] && freed == old(chain)
    {
      ghost var batch := chain;
      var current := head;
      head, chain := null, [];
      freed := [];
      while current != null
        invariant |freed| <= |batch| && current == NodeAt(batch, |freed|) && freed == batch[..|freed|]
        invariant Linked(batch) && Valid() && chain == []
        decreases |batch| - |freed|
      {
        freed := freed + [current];
        current := current.next;
      }
    }
  }

  ghost predicate Linked(chain: seq<SelectWaiter>)
    reads chain
  {
    && (forall i {:trigger chain[i].next} | 0 <= i < |chain| :: chain[i].next == NodeAt(chain, i + 1))
    && (forall i, j | 0 <= i < j < |chain| :: chain[i] != chain[j])
  }

  ghost function NodeAt(chain: seq<SelectWaiter>, k: nat): SelectWaiter? {
    if k < |chain| then chain[k] else null
  }

  class RecvWaiter {
    const caseId: nat
    const selected: Selected
    const thread: Thread

    constructor (caseId: nat, selected: Selected, thread: Thread)
      ensures this.caseId == caseId && this.selected == selected && this.thread == thread
    {
      this.caseId, this.selected, this.thread := caseId, selected, thread;
    }
  }

  lemma Appended<T>(a: seq<T>, b: seq<T>, x: T)
    ensures a + (b + [x]) == a + b + [x]
  {
  }

  /** A guard that registers a fresh waiter and is dropped later leaves the list as it was. */
  lemma {:induction false} RegisterThenUnregister(list: seq<RecvWaiter>, more: seq<RecvWaiter>, w: RecvWaiter)
    requires w !in list && w !in more
    ensures Without(list + [w] + more, w) == list + more
    decreases |more|
  {
    if more == [] {
      WithoutLast(list, w, w);
      assert list + [w] + more == list + [w];
      assert list + more == list;
    } else {
      var fewer, last := more[..|more| - 1], more[|more| - 1];
      RegisterThenUnregister(list, fewer, w);
      WithoutLast(list + [w] + fewer, w, last);
      assert more == fewer + [last];
      Appended(list + [w], fewer, last);
      Appended(list, fewer, last);
    }
  }

  /** ... in particular, if nobody came after it. */
  lemma UnregisterLast(list: seq<RecvWaiter>, others: seq<RecvWaiter>, w: RecvWaiter)
    requires list == others + [w] && w !in others
    ensures Without(list, w) == others
  {
    RegisterThenUnregister(others, [], w);
    assert others + [w] + [] == list && others + [] == others;
  }

  /** The cell holds the case of a waiter on the list that is not plain. */
  ghost predicate ClaimedBySome(list: seq<RecvWaiter>, cell: Selected)
    reads cell
  {
    exists w :: w in list && w.selected == cell && w.caseId != UNSELECTED && cell.value == w.caseId
  }

  /** The list of receivers blocked in `recv`, under its lock. */
  class RecvWaiterList {
    var list: seq<RecvWaiter>

    constructor ()
      ensures list == []
    {
      list := [];
    }

    /** `RecvWaiterGuard::register`. */
    method Register(w: RecvWaiter)
      modifies this
      ensures list == old(list) + [w]
    {
      list := list + [w];
    }

    /** The guard's `drop`. */
    method Unregister(w: RecvWaiter)
      modifies this
      ensures list == Without(old(list), w)
    {
      var kept := [];
      for i := 0 to |list|
        invariant list == old(list)
        invariant kept == Without(list[..i], w)
      {
        assert list[..i + 1][..i] == list[..i];
        if list[i] != w {
          kept := kept + [list[i]];
        }
      }
      assert list[..|list|] == list;
      list := kept;
    }

    /**
     `wake_all_unselected_recv_waiters`, run alone: unparks exactly the threads that have a
     waiter whose cell is unselected, and decides no cell.
     */
    method WakeAllUnselected()
      modifies set w | w in list :: w.thread
      ensures list == old(list)
      ensures forall i | 0 <= i < |list| ::
                list[i].thread.token ==
                (old(list[i].thread.token)
                 || exists j :: 0 <= j < |list| && list[j].selected.value == UNSELECTED
                                && list[j].thread == list[i].thread)
    {
      var snapshot := list;
      for k := 0 to |snapshot|
        invariant list == old(list) == snapshot
        invariant forall i | 0 <= i < |list| ::
                    list[i].thread.token ==
                    (old(list[i].thread.token)
                     || exists j :: 0 <= j < k && list[j].selected.value == UNSELECTED
                                    && list[j].thread == list[i].thread)
      {
        if snapshot[k].selected.value == UNSELECTED {
          snapshot[k].thread.token := true;
        }
      }
    }

    /**
     `wake_all_recv_waiters`, run alone: unparks the thread of every waiter on the list, whatever
     its cell says. A cell changes only if it was unselected, and then to the case of a waiter
     that is not plain; so a plain waiter's own cell stays.
     */
    method WakeAll()
      modifies set w | w in list :: w.thread, set w | w in list :: w.selected
      ensures list == old(list)
      ensures forall w | w in list :: w.thread.token
      ensures forall w | w in list && w.caseId != UNSELECTED :: w.selected.value != UNSELECTED
      ensures forall w | w in list && w.selected.value != old(w.selected.value) ::
                old(w.selected.value) == UNSELECTED && ClaimedBySome(list, w.selected)
    {
      var snapshot := list;
      for k := 0 to |snapshot|
        invariant list == old(list) == snapshot
        invariant forall i | 0 <= i < k :: list[i].thread.token
        invariant forall i | 0 <= i < k && list[i].caseId != UNSELECTED :: list[i].selected.value != UNSELECTED
        invariant forall w | w in list && w.selected.value != old(w.selected.value) ::
                    old(w.selected.value) == UNSELECTED && ClaimedBySome(list, w.selected)
      {
        assert snapshot[k] in list;
        var won := snapshot[k].selected.Claim(snapshot[k].caseId);
        snapshot[k].thread.token := true;
      }
    }

    /**
     `wake_one_recv_waiter`, run alone: claims the cell of the first waiter whose cell is
     unselected, unparks its thread, and touches no other cell and no other thread.
     */
    method WakeOne() returns (woke: bool, winner: nat)
      modifies set w | w in list :: w.thread, set w | w in list :: w.selected
      ensures list == old(list) && winner <= |list| && woke == (winner < |list|)
      ensures forall i | 0 <= i < winner :: old(list[i].selected.value) != UNSELECTED
      ensures woke ==>
                && old(list[winner].selected.value) == UNSELECTED
                && list[winner].selected.value == list[winner].caseId
                && list[winner].thread.token
      ensures forall w | w in list && !(woke && w.selected == list[winner].selected) ::
                w.selected.value == old(w.selected.value)
      ensures forall w | w in list && !(woke && w.thread == list[winner].thread) ::
                w.thread.token == old(w.thread.token)
    {
      var snapshot := list;
      for k := 0 to |snapshot|
        invariant list == old(list) == snapshot
        invariant forall i | 0 <= i < k :: old(list[i].selected.value) != UNSELECTED
        invariant forall w | w in list ::
                    w.selected.value == old(w.selected.value) && w.thread.token == old(w.thread.token)
      {
        var won := snapshot[k].selected.Claim(snapshot[k].caseId);
        if won {
          snapshot[k].thread.token := true;
          return true, k;
        }
      }
      return false, |snapshot|;
    }

    /** Position `i` is the first whose cell is unselected, cells equal to `skip` left out; or the length. */
    ghost predicate IsFirstOpen(i: nat, skip: Selected?)
      reads this, set w | w in list :: w.selected
    {
      && i <= |list|
      && (forall j | 0 <= j < i :: !(Open(j) && list[j].selected != skip))
      && (i < |list| ==> Open(i) && list[i].selected != skip)
    }

    ghost predicate Open(i: nat)
      requires i < |list|
      reads this, set w | w in list :: w.selected
    {
      list[i].selected.value == UNSELECTED
    }

    /**
     Two single wake-ups in a row, on any list. The first one finds the first open waiter. A
     plain waiter is "claimed" by writing what is already there: the second one then finds the
     same waiter again, and nobody else gets a token. Otherwise it finds the first open
     waiter with another cell. So it reaches another waiter exactly if there is one and the
     first one's case is not `UNSELECTED`.
     */
    method WakeOneTwice() returns (first: nat, second: nat)
      modifies set w | w in list :: w.thread, set w | w in list :: w.selected
      ensures list == old(list) && old(IsFirstOpen(first, null))
      ensures first == |list| ==> second == first
      ensures first < |list| && list[first].caseId == UNSELECTED ==>
                && second == first
                && forall w | w in list && w.thread != list[first].thread :: w.thread.token == old(w.thread.token)
      ensures first < |list| && list[first].caseId != UNSELECTED ==> old(IsFirstOpen(second, list[first].selected))
      ensures first < |list| ==>
                ((second < |list| && second != first)
                 <==> (list[first].caseId != UNSELECTED
                       && exists i: nat :: i < |list| && old(Open(i)) && list[i].selected != list[first].selected))
    {
      var woke;
      woke, first := WakeOne();
      woke, second := WakeOne();
    }
  }
}
