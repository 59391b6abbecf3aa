/**
 The lock-free stacks of select waiters, pointer by pointer.

 Any number of threads push nodes, mark the nodes of a select call aborted, and drain
 stacks with `wake_select_one`, `wake_select_all` or `drain_select_waiters`. Each atomic
 access is one step. A node keeps its identity after it is freed, so that freeing it twice,
 or a drainer touching it after it was freed, can be seen (`fault`).
 */
module WaiterStack {
  import opened Basics

  type Tid = nat
  type Nid = nat
  type Cid = nat

  datatype Node = Node(cell: Cid, caseId: nat, tid: Tid, next: Option<Nid>, aborted: bool)

  /** A `selected` atomic, and how many arms the select call that owns it has. */
  datatype Cell = Cell(value: nat, arms: nat)

  datatype Mode = One | All | Drain

  datatype Place = Private(tid: Tid) | OnStack(stack: nat) | Held(tid: Tid) | Freed

  datatype Pc =
    | Idle
    | PushLoad(n: Nid, stack: nat)                     // about to load the stack's head
    | PushLink(n: Nid, stack: nat, head: Option<Nid>)  // about to store `next`
    | PushExchange(n: Nid, stack: nat, head: Option<Nid>)
    | AbortVisit(cell: Cid, current: Option<Nid>)      // about to mark `current` if it matches
    | AbortNext(cell: Cid, at: Nid)                    // about to load `next`
    | WakeSwap(stack: nat, mode: Mode)                 // about to swap the head with null
    | WakeVisit(current: Option<Nid>, mode: Mode, won: bool)
    | WakeCheck(n: Nid, rest: Option<Nid>, mode: Mode, won: bool)   // about to load `aborted`
    | WakeExchange(n: Nid, rest: Option<Nid>, mode: Mode, won: bool)
    | WakeUnpark(n: Nid, rest: Option<Nid>, mode: Mode, won: bool)

  datatype State = State(
    nodes: seq<Node>,
    cells: seq<Cell>,
    heads: seq<Option<Nid>>,
    tokens: seq<bool>,
    pcs: seq<Pc>,
    // history
    place: seq<Place>,             // per node
    chain: seq<seq<Nid>>,          // per stack: the nodes on it, top first
    batch: seq<seq<Nid>>,          // per thread: the drained nodes it has not freed yet
    frees: seq<nat>,               // per node
    fault: bool
  )

  datatype Action =
    | NewCell(arms: nat)                                      // a select call starts registering
    | CallPush(tid: Tid, stack: nat, cell: Cid, caseId: nat)
    | CallAbort(tid: Tid, stack: nat, cell: Cid)
    | CallWake(tid: Tid, stack: nat, mode: Mode)
    | Recheck(tid: Tid, cell: Cid, caseId: nat)               // the select call itself claims an arm
    | Step(tid: Tid)

  function Init(stacks: nat, threads: nat): State {
    State([], [], seq(stacks, _ => None), seq(threads, _ => false), seq(threads, _ => Idle),
          [], seq(stacks, _ => []), seq(threads, _ => []), [], false)
  }

  function First(chain: seq<Nid>): Option<Nid> {
    if chain == [] then None else Some(chain[0])
  }

  predicate Known(n: Option<Nid>, nodes: nat) {
    n.Some? ==> n.value < nodes
  }

  predicate PcShaped(pc: Pc, nodes: nat, stacks: nat) {
    match pc
    case Idle => true
    case PushLoad(n, c) => n < nodes && c < stacks
    case PushLink(n, c, h) => n < nodes && c < stacks && Known(h, nodes)
    case PushExchange(n, c, h) => n < nodes && c < stacks && Known(h, nodes)
    case AbortVisit(_, current) => Known(current, nodes)
    case AbortNext(_, n) => n < nodes
    case WakeSwap(c, _) => c < stacks
    case WakeVisit(current, _, _) => Known(current, nodes)
    case WakeCheck(n, rest, _, _) => n < nodes && Known(rest, nodes)
    case WakeExchange(n, rest, _, _) => n < nodes && Known(rest, nodes)
    case WakeUnpark(n, rest, _, _) => n < nodes && Known(rest, nodes)
  }

  predicate NodeShaped(node: Node, nodes: nat, cells: nat, threads: nat) {
    node.cell < cells && node.tid < threads && Known(node.next, nodes)
  }

  predicate Shaped(s: State) {
    && |s.place| == |s.frees| == |s.nodes|
    && |s.chain| == |s.heads|
    && |s.tokens| == |s.batch| == |s.pcs|
    && (forall n: nat | n < |s.nodes| :: NodeShaped(s.nodes[n], |s.nodes|, |s.cells|, |s.pcs|))
    && (forall c: nat | c < |s.heads| :: Known(s.heads[c], |s.nodes|))
    && (forall t: nat | t < |s.pcs| :: PcShaped(s.pcs[t], |s.nodes|, |s.heads|))
  }

  function At(s: State, t: Tid, pc: Pc): (r: State)
    requires Shaped(s) && t < |s.pcs| && PcShaped(pc, |s.nodes|, |s.heads|)
    ensures Shaped(r)
  {
    s.(pcs := s.pcs[t := pc])
  }

  /** The end of a drainer's loop body: the `Box` of node `n` goes out of scope. */
  function Free(s: State, t: Tid, n: Nid): (r: State)
    requires Shaped(s) && t < |s.pcs| && n < |s.nodes|
    ensures Shaped(r) && |r.pcs| == |s.pcs| && |r.heads| == |s.heads|
  {
    s.(place := s.place[n := Freed],
       frees := s.frees[n := s.frees[n] + 1],
       batch := s.batch[t := if s.batch[t] == [] then [] else s.batch[t][1..]],
       fault := s.fault || s.place[n] == Freed)
  }

  /** `compare_exchange(UNSELECTED, caseId)` on a `selected` cell. */
  function Claim(s: State, k: Cid, caseId: nat): (r: State)
    requires Shaped(s) && k < |s.cells|
    ensures Shaped(r) && |r.pcs| == |s.pcs| && |r.heads| == |s.heads|
  {
    if s.cells[k].value == UNSELECTED then s.(cells := s.cells[k := s.cells[k].(value := caseId)]) else s
  }

  function Unpark(s: State, n: Nid): (r: State)
    requires Shaped(s) && n < |s.nodes|
    ensures Shaped(r) && |r.pcs| == |s.pcs| && |r.heads| == |s.heads|
  {
    s.(tokens := s.tokens[s.nodes[n].tid := true])
  }

  /** `swap(null)`: the whole stack becomes the batch of thread `t`. */
  function TakeAll(s: State, t: Tid, c: nat): (r: State)
    requires Shaped(s) && t < |s.pcs| && c < |s.heads|
    ensures Shaped(r) && |r.pcs| == |s.pcs| && |r.heads| == |s.heads|
  {
    s.(heads := s.heads[c := None],
       place := seq(|s.place|, n requires 0 <= n < |s.place| =>
                  if s.place[n] == OnStack(c) then Held(t) else s.place[n]),
       chain := s.chain[c := []],
       batch := s.batch[t := s.chain[c]])
  }

  function PushStep(s: State, t: Tid): (r: State)
    requires Shaped(s) && t < |s.pcs| && PcShaped(s.pcs[t], |s.nodes|, |s.heads|)
    ensures Shaped(r) && |r.pcs| == |s.pcs| && |r.heads| == |s.heads|
  {
    match s.pcs[t]
    case PushLoad(n, c) => At(s, t, PushLink(n, c, s.heads[c]))
    case PushLink(n, c, h) =>
      At(s, t, PushExchange(n, c, h)).(nodes := s.nodes[n := s.nodes[n].(next := h)])
    case PushExchange(n, c, h) =>
      if s.heads[c] == h then
        At(s, t, Idle).(heads := s.heads[c := Some(n)],
                        place := s.place[n := OnStack(c)],
                        chain := s.chain[c := [n] + s.chain[c]])
      else At(s, t, PushLoad(n, c))
    case _ => s
  }

  function AbortStep(s: State, t: Tid): (r: State)
    requires Shaped(s) && t < |s.pcs| && PcShaped(s.pcs[t], |s.nodes|, |s.heads|)
    ensures Shaped(r) && |r.pcs| == |s.pcs| && |r.heads| == |s.heads|
  {
    match s.pcs[t]
    case AbortVisit(k, current) =>
      if current.None? then At(s, t, Idle)
      else
        var n := current.value;
        var r := At(s, t, AbortNext(k, n));
        if s.nodes[n].cell == k then r.(nodes := s.nodes[n := s.nodes[n].(aborted := true)]) else r
    case AbortNext(k, n) => At(s, t, AbortVisit(k, s.nodes[n].next))
    case _ => s
  }

  function WakeStep(s: State, t: Tid): (r: State)
    requires Shaped(s) && t < |s.pcs| && PcShaped(s.pcs[t], |s.nodes|, |s.heads|)
    ensures Shaped(r) && |r.pcs| == |s.pcs| && |r.heads| == |s.heads|
  {
    match s.pcs[t]
    case WakeSwap(c, mode) => At(TakeAll(s, t, c), t, WakeVisit(s.heads[c], mode, false))
    case WakeVisit(current, mode, won) =>
      if current.None? then At(s, t, Idle)
      else
        var n := current.value;
        var touched := s.(fault := s.fault || s.place[n] == Freed);
        if mode.Drain? then At(Free(touched, t, n), t, WakeVisit(s.nodes[n].next, mode, won))
        else At(touched, t, WakeCheck(n, s.nodes[n].next, mode, won))
    case WakeCheck(n, rest, mode, won) =>
      if s.nodes[n].aborted || (mode.One? && won) then At(Free(s, t, n), t, WakeVisit(rest, mode, won))
      else At(s, t, WakeExchange(n, rest, mode, won))
    case WakeExchange(n, rest, mode, won) =>
      var k := s.nodes[n].cell;
      var claimed := s.cells[k].value == UNSELECTED;
      var r := Claim(s, k, s.nodes[n].caseId);
      if mode.One? && !claimed then At(Free(r, t, n), t, WakeVisit(rest, mode, false))
      else At(r, t, WakeUnpark(n, rest, mode, won || claimed))
    case WakeUnpark(n, rest, mode, won) =>
      At(Free(Unpark(s, n), t, n), t, WakeVisit(rest, mode, won))
    case _ => s
  }

  function Next(s: State, a: Action): (r: State)
    requires Shaped(s)
    ensures Shaped(r) && |r.pcs| == |s.pcs| && |r.heads| == |s.heads|
  {
    match a
    case NewCell(arms) => if arms <= UNSELECTED then s.(cells := s.cells + [Cell(UNSELECTED, arms)]) else s
    case CallPush(t, c, k, caseId) =>
      if t < |s.pcs| && s.pcs[t].Idle? && c < |s.heads| && k < |s.cells| && caseId < s.cells[k].arms then
        At(s.(nodes := s.nodes + [Node(k, caseId, t, None, false)],
              place := s.place + [Private(t)],
              frees := s.frees + [0]), t, PushLoad(|s.nodes|, c))
      else s
    case CallAbort(t, c, k) =>
      if t < |s.pcs| && s.pcs[t].Idle? && c < |s.heads| then At(s, t, AbortVisit(k, s.heads[c])) else s
    case CallWake(t, c, mode) =>
      if t < |s.pcs| && s.pcs[t].Idle? && c < |s.heads| then At(s, t, WakeSwap(c, mode)) else s
    case Recheck(t, k, caseId) =>
      if t < |s.pcs| && s.pcs[t].Idle? && k < |s.cells| && caseId < s.cells[k].arms then Claim(s, k, caseId) else s
    case Step(t) =>
      if |s.pcs| <= t then s
      else if s.pcs[t].PushLoad? || s.pcs[t].PushLink? || s.pcs[t].PushExchange? then PushStep(s, t)
      else if s.pcs[t].AbortVisit? || s.pcs[t].AbortNext? then AbortStep(s, t)
      else WakeStep(s, t)
  }

  // ------------------------------------------------------------------------------------
  // The invariant
  // ------------------------------------------------------------------------------------

  ghost predicate NextIs(nodes: seq<Node>, chain: seq<Nid>, i: nat)
    requires i < |chain| && chain[i] < |nodes|
  {
    nodes[chain[i]].next == if i + 1 < |chain| then Some(chain[i + 1]) else None
  }

  /** `chain` is what one finds by following `next` from its first node. */
  ghost predicate Linked(nodes: seq<Node>, chain: seq<Nid>) {
    && (forall i | 0 <= i < |chain| :: chain[i] < |nodes|)
    && (forall i | 0 <= i < |chain| :: NextIs(nodes, chain, i))
    && (forall i, j | 0 <= i < j < |chain| :: chain[i] != chain[j])
  }

  /** The nodes at place `p` are exactly those of the chain. */
  ghost predicate AllAt(place: seq<Place>, chain: seq<Nid>, p: Place) {
    forall n: nat | n < |place| :: place[n] == p <==> n in chain
  }

  ghost predicate StackOk(s: State, c: nat)
    requires Shaped(s) && c < |s.heads|
  {
    Linked(s.nodes, s.chain[c]) && s.heads[c] == First(s.chain[c]) && AllAt(s.place, s.chain[c], OnStack(c))
  }

  ghost predicate ThreadOk(s: State, t: Tid)
    requires Shaped(s) && t < |s.pcs|
  {
    && Linked(s.nodes, s.batch[t])
    && AllAt(s.place, s.batch[t], Held(t))
    && match s.pcs[t]
       case PushLoad(n, _) => s.place[n] == Private(t) && s.batch[t] == []
       case PushLink(n, _, _) => s.place[n] == Private(t) && s.batch[t] == []
       case PushExchange(n, _, h) => s.place[n] == Private(t) && s.nodes[n].next == h && s.batch[t] == []
       case WakeVisit(current, _, _) => current == First(s.batch[t])
       case WakeCheck(n, rest, _, _) => s.batch[t] != [] && n == s.batch[t][0] && rest == First(s.batch[t][1..])
       case WakeExchange(n, rest, _, _) => s.batch[t] != [] && n == s.batch[t][0] && rest == First(s.batch[t][1..])
       case WakeUnpark(n, rest, _, _) => s.batch[t] != [] && n == s.batch[t][0] && rest == First(s.batch[t][1..])
       case _ => s.batch[t] == []
  }

  /** A cell is unselected or names an arm; a node's case names an arm of its cell. */
  ghost predicate ArmsOk(s: State)
    requires Shaped(s)
  {
    && (forall k: nat | k < |s.cells| ::
          s.cells[k].arms <= UNSELECTED && (s.cells[k].value == UNSELECTED || s.cells[k].value < s.cells[k].arms))
    && (forall n: nat | n < |s.nodes| ::
          NodeShaped(s.nodes[n], |s.nodes|, |s.cells|, |s.pcs|)
          && s.nodes[n].caseId < s.cells[s.nodes[n].cell].arms)
  }

  ghost predicate FreesOk(s: State)
    requires Shaped(s)
  {
    forall n: nat | n < |s.nodes| :: s.frees[n] == if s.place[n] == Freed then 1 else 0
  }

  ghost predicate Inv(s: State) {
    && Shaped(s)
    && !s.fault
    && (forall c: nat | c < |s.heads| :: StackOk(s, c))
    && (forall t: nat | t < |s.pcs| :: ThreadOk(s, t))
    && ArmsOk(s)
    && FreesOk(s)
  }

  function Exec(s: State, schedule: seq<Action>): (r: State)
    requires Shaped(s)
    ensures Shaped(r) && |r.pcs| == |s.pcs| && |r.heads| == |s.heads|
    decreases |schedule|
  {
    if schedule == [] then s
    else Next(Exec(s, schedule[..|schedule| - 1]), schedule[|schedule| - 1])
  }

  // ------------------------------------------------------------------------------------
  // Every step keeps the invariant
  // ------------------------------------------------------------------------------------

  lemma LinkedFrame(nodes: seq<Node>, after: seq<Node>, chain: seq<Nid>)
    requires Linked(nodes, chain) && |nodes| <= |after|
    requires forall n: nat | n < |nodes| && n in chain :: after[n].next == nodes[n].next
    ensures Linked(after, chain)
  {
    forall i | 0 <= i < |chain| ensures NextIs(after, chain, i) {
      assert NextIs(nodes, chain, i);
    }
  }

  lemma LinkedCons(nodes: seq<Node>, n: Nid, chain: seq<Nid>)
    requires Linked(nodes, chain) && n < |nodes| && n !in chain && nodes[n].next == First(chain)
    ensures Linked(nodes, [n] + chain)
  {
    var longer := [n] + chain;
    forall i | 0 <= i < |longer| ensures longer[i] < |nodes| && NextIs(nodes, longer, i) {
      if i > 0 { assert NextIs(nodes, chain, i - 1); }
    }
  }

  lemma LinkedTail(nodes: seq<Node>, chain: seq<Nid>)
    requires Linked(nodes, chain) && chain != []
    ensures Linked(nodes, chain[1..])
    ensures nodes[chain[0]].next == First(chain[1..])
    ensures chain[0] !in chain[1..]
  {
    var rest := chain[1..];
    assert NextIs(nodes, chain, 0);
    forall i | 0 <= i < |rest| ensures rest[i] < |nodes| && NextIs(nodes, rest, i) {
      assert NextIs(nodes, chain, i + 1);
    }
  }

  /** Steps that move no node: only control states, `aborted` flags, tokens and cells change. */
  lemma NothingMoves(s: State, r: State, t: Tid)
    requires Inv(s) && Shaped(r) && t < |s.pcs| == |r.pcs| && |r.heads| == |s.heads|
    requires r.heads == s.heads && r.place == s.place && r.chain == s.chain && r.batch == s.batch
    requires r.frees == s.frees && !r.fault && |r.nodes| == |s.nodes|
    requires forall n: nat | n < |s.nodes| :: r.nodes[n].next == s.nodes[n].next || s.place[n] == Private(t)
    requires r.pcs == s.pcs[t := r.pcs[t]]
    requires ThreadOk(r, t) && ArmsOk(r)
    ensures Inv(r)
  {
    forall c: nat | c < |r.heads| ensures StackOk(r, c) {
      assert StackOk(s, c);
      LinkedFrame(s.nodes, r.nodes, s.chain[c]);
    }
    forall u: nat | u < |r.pcs| ensures ThreadOk(r, u) {
      assert ThreadOk(s, u);
      if u != t { LinkedFrame(s.nodes, r.nodes, s.batch[u]); }
    }
  }

  /** A successful push: the private node `n` becomes the top of stack `c`. */
  lemma PushLands(s: State, t: Tid)
    requires Inv(s) && t < |s.pcs| && s.pcs[t].PushExchange? && s.heads[s.pcs[t].stack] == s.pcs[t].head
    ensures Inv(PushStep(s, t))
  {
    var n, c := s.pcs[t].n, s.pcs[t].stack;
    var r := PushStep(s, t);
    assert ThreadOk(s, t) && StackOk(s, c);
    assert n !in s.chain[c];
    LinkedCons(s.nodes, n, s.chain[c]);
    forall d: nat | d < |r.heads| ensures StackOk(r, d) {
      assert StackOk(s, d);
    }
    forall u: nat | u < |r.pcs| ensures ThreadOk(r, u) {
      assert ThreadOk(s, u);
    }
  }

  /** A swap: everything on stack `c` becomes the batch of `t`, and nothing else moves. */
  lemma SwapTakesAll(s: State, t: Tid)
    requires Inv(s) && t < |s.pcs| && s.pcs[t].WakeSwap?
    ensures Inv(WakeStep(s, t))
  {
    var c := s.pcs[t].stack;
    var r := WakeStep(s, t);
    assert ThreadOk(s, t) && StackOk(s, c);
    forall d: nat | d < |r.heads| ensures StackOk(r, d) {
      assert StackOk(s, d);
    }
    forall u: nat | u < |r.pcs| ensures ThreadOk(r, u) {
      assert ThreadOk(s, u);
    }
  }

  /** Freeing the first node of the batch. */
  lemma FreeFirst(s: State, t: Tid, mode: Mode, won: bool)
    requires Inv(s) && t < |s.pcs| && s.batch[t] != []
    requires s.pcs[t].WakeVisit? || s.pcs[t].WakeCheck? || s.pcs[t].WakeExchange? || s.pcs[t].WakeUnpark?
    ensures Known(First(s.batch[t][1..]), |s.nodes|) && s.batch[t][0] < |s.nodes|
    ensures s.place[s.batch[t][0]] == Held(t)
    ensures Inv(At(Free(s, t, s.batch[t][0]), t, WakeVisit(First(s.batch[t][1..]), mode, won)))
  {
    assert ThreadOk(s, t);
    var n := s.batch[t][0];
    assert n in s.batch[t];
    LinkedTail(s.nodes, s.batch[t]);
    if |s.batch[t]| > 1 { assert s.batch[t][1] < |s.nodes|; }
    var r := At(Free(s, t, n), t, WakeVisit(First(s.batch[t][1..]), mode, won));
    assert forall x: nat | x < |s.nodes| :: x in s.batch[t] <==> x == n || x in s.batch[t][1..];
    forall d: nat | d < |r.heads| ensures StackOk(r, d) {
      assert StackOk(s, d);
    }
    forall u: nat | u < |r.pcs| ensures ThreadOk(r, u) {
      assert ThreadOk(s, u);
    }
  }

  lemma ClaimKeeps(s: State, k: Cid, caseId: nat)
    requires Inv(s) && k < |s.cells| && caseId < s.cells[k].arms
    ensures Inv(Claim(s, k, caseId))
  {
    var r := Claim(s, k, caseId);
    forall t: nat | t < |r.pcs| ensures ThreadOk(r, t) { assert ThreadOk(s, t); }
    forall c: nat | c < |r.heads| ensures StackOk(r, c) { assert StackOk(s, c); }
  }

  lemma UnparkKeeps(s: State, n: Nid)
    requires Inv(s) && n < |s.nodes|
    ensures Inv(Unpark(s, n))
  {
    var r := Unpark(s, n);
    forall t: nat | t < |r.pcs| ensures ThreadOk(r, t) { assert ThreadOk(s, t); }
    forall c: nat | c < |r.heads| ensures StackOk(r, c) { assert StackOk(s, c); }
  }

  lemma VisitKeeps(s: State, t: Tid)
    requires Inv(s) && t < |s.pcs| && s.pcs[t].WakeVisit?
    ensures Inv(WakeStep(s, t))
  {
    assert ThreadOk(s, t);
    var mode, won := s.pcs[t].mode, s.pcs[t].won;
    if s.batch[t] != [] {
      LinkedTail(s.nodes, s.batch[t]);
      FreeFirst(s, t, mode, won);
    }
    if s.batch[t] == [] || !mode.Drain? {
      NothingMoves(s, WakeStep(s, t), t);
    }
  }

  lemma CheckKeeps(s: State, t: Tid)
    requires Inv(s) && t < |s.pcs| && s.pcs[t].WakeCheck?
    ensures Inv(WakeStep(s, t))
  {
    assert ThreadOk(s, t);
    var n, mode, won := s.pcs[t].n, s.pcs[t].mode, s.pcs[t].won;
    if s.nodes[n].aborted || (mode.One? && won) {
      FreeFirst(s, t, mode, won);
    } else {
      NothingMoves(s, WakeStep(s, t), t);
    }
  }

  lemma ExchangeKeeps(s: State, t: Tid)
    requires Inv(s) && t < |s.pcs| && s.pcs[t].WakeExchange?
    ensures Inv(WakeStep(s, t))
  {
    assert ThreadOk(s, t);
    var n, mode := s.pcs[t].n, s.pcs[t].mode;
    var r := Claim(s, s.nodes[n].cell, s.nodes[n].caseId);
    ClaimKeeps(s, s.nodes[n].cell, s.nodes[n].caseId);
    if mode.One? && s.cells[s.nodes[n].cell].value != UNSELECTED {
      FreeFirst(r, t, mode, false);
    } else {
      NothingMoves(r, WakeStep(s, t), t);
    }
  }

  lemma WakeKeeps(s: State, t: Tid)
    requires Inv(s) && t < |s.pcs|
    ensures Inv(WakeStep(s, t))
  {
    match s.pcs[t]
    case WakeSwap(_, _) => SwapTakesAll(s, t);
    case WakeVisit(_, _, _) => VisitKeeps(s, t);
    case WakeCheck(_, _, _, _) => CheckKeeps(s, t);
    case WakeExchange(_, _, _, _) => ExchangeKeeps(s, t);
    case WakeUnpark(n, _, mode, won) =>
      assert ThreadOk(s, t);
      UnparkKeeps(s, n);
      FreeFirst(Unpark(s, n), t, mode, won);
    case _ =>
  }

  lemma PushKeeps(s: State, t: Tid)
    requires Inv(s) && t < |s.pcs|
    ensures Inv(PushStep(s, t))
  {
    assert ThreadOk(s, t);
    if s.pcs[t].PushExchange? && s.heads[s.pcs[t].stack] == s.pcs[t].head {
      PushLands(s, t);
    } else {
      NothingMoves(s, PushStep(s, t), t);
    }
  }

  lemma AbortKeeps(s: State, t: Tid)
    requires Inv(s) && t < |s.pcs|
    ensures Inv(AbortStep(s, t))
  {
    assert ThreadOk(s, t);
    NothingMoves(s, AbortStep(s, t), t);
  }

  lemma CallPushKeeps(s: State, a: Action)
    requires Inv(s) && a.CallPush?
    ensures Inv(Next(s, a))
  {
    var r := Next(s, a);
    if r != s {
      forall c: nat | c < |r.heads| ensures StackOk(r, c) {
        assert StackOk(s, c);
        LinkedFrame(s.nodes, r.nodes, s.chain[c]);
      }
      forall u: nat | u < |r.pcs| ensures ThreadOk(r, u) {
        assert ThreadOk(s, u);
        LinkedFrame(s.nodes, r.nodes, s.batch[u]);
      }
    }
  }

  lemma OtherKeeps(s: State, a: Action)
    requires Inv(s) && !a.Step? && !a.CallPush?
    ensures Inv(Next(s, a))
  {
    var r := Next(s, a);
    if a.Recheck? && r != s {
      ClaimKeeps(s, a.cell, a.caseId);
    } else {
      forall c: nat | c < |r.heads| ensures StackOk(r, c) { assert StackOk(s, c); }
      forall u: nat | u < |r.pcs| ensures ThreadOk(r, u) { assert ThreadOk(s, u); }
    }
  }

  lemma NextInv(s: State, a: Action)
    requires Inv(s)
    ensures Inv(Next(s, a))
  {
    match a
    case Step(t) =>
      if t < |s.pcs| {
        PushKeeps(s, t);
        AbortKeeps(s, t);
        WakeKeeps(s, t);
      }
    case CallPush(_, _, _, _) => CallPushKeeps(s, a);
    case _ => OtherKeeps(s, a);
  }

  lemma {:induction false} ReachableInv(stacks: nat, threads: nat, schedule: seq<Action>)
    ensures Inv(Exec(Init(stacks, threads), schedule))
    decreases |schedule|
  {
    if schedule != [] {
      ReachableInv(stacks, threads, schedule[..|schedule| - 1]);
      NextInv(Exec(Init(stacks, threads), schedule[..|schedule| - 1]), schedule[|schedule| - 1]);
    }
  }

  // ------------------------------------------------------------------------------------
  // The theorems
  // ------------------------------------------------------------------------------------

  ghost predicate OnSomeStack(s: State, n: Nid)
    requires Shaped(s)
  {
    exists c: nat :: c < |s.heads| && n in s.chain[c]
  }

  ghost predicate HeldBySomeone(s: State, n: Nid)
    requires Shaped(s)
  {
    exists t: nat :: t < |s.pcs| && n in s.batch[t]
  }

  /** What memory says about each stack: following `next` from its head yields `chain`. */
  lemma StacksAreLinked(stacks: nat, threads: nat, schedule: seq<Action>, c: nat)
    requires c < stacks
    ensures var s := Exec(Init(stacks, threads), schedule);
            Linked(s.nodes, s.chain[c]) && s.heads[c] == First(s.chain[c])
  {
    ReachableInv(stacks, threads, schedule);
    assert StackOk(Exec(Init(stacks, threads), schedule), c);
  }

  lemma Exclusive(s: State, n: Nid, c: nat, t: Tid)
    requires Inv(s) && n < |s.nodes|
    ensures c < |s.heads| ==> (n in s.chain[c] <==> s.place[n] == OnStack(c))
    ensures t < |s.pcs| ==> (n in s.batch[t] <==> s.place[n] == Held(t))
  {
    assert c < |s.heads| ==> StackOk(s, c);
    assert t < |s.pcs| ==> ThreadOk(s, t);
  }

  /**
   Single ownership under any interleaving of pushes, aborts and drains. A node is on at
   most one stack or in the hands of at most one drainer, never both; a freed node is in
   neither; no node is freed twice, and no drainer touches a node after it was freed.
   */
  lemma NodesHaveOneOwner(stacks: nat, threads: nat, schedule: seq<Action>, n: Nid, c: nat, d: nat, t: Tid, u: Tid)
    requires c < stacks && d < stacks && t < threads && u < threads
    requires n < |Exec(Init(stacks, threads), schedule).nodes|
    ensures var s := Exec(Init(stacks, threads), schedule);
            && !s.fault && s.frees[n] <= 1
            && (n in s.chain[c] && n in s.chain[d] ==> c == d)
            && (n in s.batch[t] && n in s.batch[u] ==> t == u)
            && !(n in s.chain[c] && n in s.batch[t])
            && (s.frees[n] == 1 ==> n !in s.chain[c] && n !in s.batch[t])
  {
    var s := Exec(Init(stacks, threads), schedule);
    ReachableInv(stacks, threads, schedule);
    Exclusive(s, n, c, t);
    Exclusive(s, n, d, u);
  }

  /** Nothing is lost either: with no push in flight, an unfreed node is on a stack or held by a drainer. */
  lemma UnfreedNodesAreReachable(stacks: nat, threads: nat, schedule: seq<Action>, n: Nid)
    requires n < |Exec(Init(stacks, threads), schedule).nodes|
    requires Exec(Init(stacks, threads), schedule).frees[n] == 0
    requires forall t: nat | t < threads ::
               var pc := Exec(Init(stacks, threads), schedule).pcs[t];
               !pc.PushLoad? && !pc.PushLink? && !pc.PushExchange?
    ensures var s := Exec(Init(stacks, threads), schedule); OnSomeStack(s, n) || HeldBySomeone(s, n)
  {
    ReachableInv(stacks, threads, schedule);
    PlaceIsReal(stacks, threads, schedule, n);
    var s := Exec(Init(stacks, threads), schedule);
    match s.place[n]
    case OnStack(c) => Exclusive(s, n, c, 0);
    case Held(t) => Exclusive(s, n, 0, t);
    case _ =>
  }

  /** A node's place names an existing stack or thread, and a private node is being pushed. */
  ghost predicate PlaceOk(s: State, n: Nid)
    requires Shaped(s) && n < |s.nodes|
  {
    match s.place[n]
    case Private(t) =>
      && t < |s.pcs|
      && (s.pcs[t].PushLoad? || s.pcs[t].PushLink? || s.pcs[t].PushExchange?) && s.pcs[t].n == n
    case OnStack(c) => c < |s.heads|
    case Held(t) => t < |s.pcs|
    case Freed => true
  }

  lemma PlaceKeptByPush(s: State, t: Tid, n: Nid)
    requires Inv(s) && t < |s.pcs| && n < |s.nodes| && PlaceOk(s, n)
    ensures PlaceOk(PushStep(s, t), n) && PlaceOk(AbortStep(s, t), n)
  {
    assert ThreadOk(s, t);
  }

  lemma PlaceKeptByWake(s: State, t: Tid, n: Nid)
    requires Inv(s) && t < |s.pcs| && n < |s.nodes| && PlaceOk(s, n)
    ensures PlaceOk(WakeStep(s, t), n)
  {
    var r := WakeStep(s, t);
    if s.pcs[t].WakeSwap? {
      assert r.place[n] == s.place[n] || r.place[n] == Held(t);
    } else {
      assert r.place[n] == s.place[n] || r.place[n] == Freed;
    }
    if s.place[n].Private? && s.place[n].tid != t {
      assert r.pcs[s.place[n].tid] == s.pcs[s.place[n].tid];
    }
  }

  lemma PlaceKept(s: State, a: Action, n: Nid)
    requires Inv(s) && n < |Next(s, a).nodes|
    requires n < |s.nodes| ==> PlaceOk(s, n)
    ensures PlaceOk(Next(s, a), n)
  {
    if a.Step? && a.tid < |s.pcs| {
      PlaceKeptByPush(s, a.tid, n);
      PlaceKeptByWake(s, a.tid, n);
    }
  }

  lemma {:induction false} PlaceIsReal(stacks: nat, threads: nat, schedule: seq<Action>, n: Nid)
    requires n < |Exec(Init(stacks, threads), schedule).nodes|
    ensures PlaceOk(Exec(Init(stacks, threads), schedule), n)
    decreases |schedule|
  {
    if schedule != [] {
      var earlier := schedule[..|schedule| - 1];
      ReachableInv(stacks, threads, earlier);
      if n < |Exec(Init(stacks, threads), earlier).nodes| {
        PlaceIsReal(stacks, threads, earlier, n);
      }
      PlaceKept(Exec(Init(stacks, threads), earlier), schedule[|schedule| - 1], n);
    }
  }

  lemma SelectedKept(s: State, a: Action, k: Cid)
    requires Inv(s) && k < |s.cells|
    ensures k < |Next(s, a).cells| && Next(s, a).cells[k].arms == s.cells[k].arms
    ensures s.cells[k].value != UNSELECTED ==> Next(s, a).cells[k] == s.cells[k]
  {
  }

  /**
   Select agreement: whatever mix of wakers and re-checks races on it, a `selected` cell
   leaves UNSELECTED at most once and never changes again, and what it then holds is an
   arm of its own call, so the dispatch of the macro always finds it.
   */
  lemma {:induction false} SelectedIsFinal(stacks: nat, threads: nat, schedule: seq<Action>, more: seq<Action>, k: Cid)
    requires k < |Exec(Init(stacks, threads), schedule).cells|
    ensures var s := Exec(Init(stacks, threads), schedule);
            var r := Exec(s, more);
            && k < |r.cells| && r.cells[k].arms == s.cells[k].arms
            && (s.cells[k].value != UNSELECTED ==>
                  s.cells[k].value < s.cells[k].arms && r.cells[k] == s.cells[k])
    decreases |more|
  {
    var s := Exec(Init(stacks, threads), schedule);
    ReachableInv(stacks, threads, schedule);
    if more != [] {
      var earlier := more[..|more| - 1];
      SelectedIsFinal(stacks, threads, schedule, earlier, k);
      StillReachable(s, earlier);
      SelectedKept(Exec(s, earlier), more[|more| - 1], k);
    }
  }

  lemma {:induction false} StillReachable(s: State, more: seq<Action>)
    requires Inv(s)
    ensures Inv(Exec(s, more))
    decreases |more|
  {
    if more != [] {
      StillReachable(s, more[..|more| - 1]);
      NextInv(Exec(s, more[..|more| - 1]), more[|more| - 1]);
    }
  }
}
