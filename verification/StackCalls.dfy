/**
 Operations on the stacks of select waiters that nobody disturbs, from every state in which the
 invariant holds: a whole push, abort and drain of the pointer-by-pointer model do what the
 methods of `Waiters.SelectStack` do.
 */
module StackCalls {
  import opened Basics
  import opened WaiterStack

  // ------------------------------------------------------------------------------------
  // Running alone
  // ------------------------------------------------------------------------------------

  function Mover(t: Tid): State -> State {
    (s: State) => if Shaped(s) then Next(s, Step(t)) else s
  }

  /** If nobody but thread `t` moves, the state will at some time be `r`. */
  ghost predicate Leads(s: State, r: State, t: Tid) {
    Reaches(Mover(t), s, r)
  }

  lemma OneMove(s: State, r: State, t: Tid)
    requires Inv(s) && r == Next(s, Step(t))
    ensures Leads(s, r, t) && Inv(r)
  {
    NextInv(s, Step(t));
    ReachesSelf(Mover(t), r);
    ReachesNext(Mover(t), s, r);
  }

  lemma PushMoves(s: State, t: Tid)
    requires Inv(s) && t < |s.pcs| && (s.pcs[t].PushLoad? || s.pcs[t].PushLink? || s.pcs[t].PushExchange?)
    ensures Leads(s, PushStep(s, t), t) && Inv(PushStep(s, t))
  {
    OneMove(s, PushStep(s, t), t);
  }

  lemma AbortMoves(s: State, t: Tid)
    requires Inv(s) && t < |s.pcs| && (s.pcs[t].AbortVisit? || s.pcs[t].AbortNext?)
    ensures Leads(s, AbortStep(s, t), t) && Inv(AbortStep(s, t))
  {
    OneMove(s, AbortStep(s, t), t);
  }

  predicate Draining(pc: Pc) {
    pc.WakeSwap? || pc.WakeVisit? || pc.WakeCheck? || pc.WakeExchange? || pc.WakeUnpark?
  }

  lemma WakeMoves(s: State, t: Tid)
    requires Inv(s) && t < |s.pcs| && Draining(s.pcs[t])
    ensures Leads(s, WakeStep(s, t), t) && Inv(WakeStep(s, t))
  {
    OneMove(s, WakeStep(s, t), t);
  }

  lemma Onwards(s: State, q: State, r: State, t: Tid)
    requires Leads(s, q, t) && Leads(q, r, t)
    ensures Leads(s, r, t)
  {
    ReachesThen(Mover(t), s, q, r);
  }

  // ------------------------------------------------------------------------------------
  // Push
  // ------------------------------------------------------------------------------------

  /** The private node `n` of thread `t` has landed on top of stack `c`. */
  function Landed(s: State, t: Tid, n: Nid, c: nat): State
    requires Shaped(s) && t < |s.pcs| && n < |s.nodes| && c < |s.heads|
  {
    s.(nodes := s.nodes[n := s.nodes[n].(next := s.heads[c])], heads := s.heads[c := Some(n)],
       place := s.place[n := OnStack(c)], chain := s.chain[c := [n] + s.chain[c]], pcs := s.pcs[t := Idle])
  }

  lemma PushFromLoad(s: State, t: Tid) returns (r: State)
    requires Inv(s) && t < |s.pcs| && s.pcs[t].PushLoad?
    ensures PcShaped(s.pcs[t], |s.nodes|, |s.heads|)
    ensures Leads(s, r, t) && Inv(r) && r == Landed(s, t, s.pcs[t].n, s.pcs[t].stack)
  {
    var n, c := s.pcs[t].n, s.pcs[t].stack;
    PushMoves(s, t);
    var p := PushStep(s, t);
    PushMoves(p, t);
    var q := PushStep(p, t);
    Onwards(s, p, q, t);
    PushMoves(q, t);
    r := PushStep(q, t);
    Onwards(s, q, r, t);
    assert r.pcs == s.pcs[t := Idle];
  }

  /** From wherever it stands, a push that nobody disturbs comes to its end, however stale the head it has loaded. */
  lemma PushEnds(s: State, t: Tid) returns (r: State)
    requires Inv(s) && t < |s.pcs| && (s.pcs[t].PushLoad? || s.pcs[t].PushLink? || s.pcs[t].PushExchange?)
    ensures PcShaped(s.pcs[t], |s.nodes|, |s.heads|)
    ensures Leads(s, r, t) && Inv(r) && r == Landed(s, t, s.pcs[t].n, s.pcs[t].stack)
  {
    if s.pcs[t].PushLoad? {
      r := PushFromLoad(s, t);
    } else if s.pcs[t].PushExchange? {
      r := PushFromExchange(s, t);
    } else {
      PushMoves(s, t);
      var q := PushStep(s, t);
      r := PushFromExchange(q, t);
      Onwards(s, q, r, t);
      assert r.nodes == s.nodes[s.pcs[t].n := r.nodes[s.pcs[t].n]] && r.pcs == s.pcs[t := Idle];
    }
  }

  lemma PushFromExchange(s: State, t: Tid) returns (r: State)
    requires Inv(s) && t < |s.pcs| && s.pcs[t].PushExchange?
    ensures PcShaped(s.pcs[t], |s.nodes|, |s.heads|)
    ensures Leads(s, r, t) && Inv(r) && r == Landed(s, t, s.pcs[t].n, s.pcs[t].stack)
  {
    assert ThreadOk(s, t);
    PushMoves(s, t);
    r := PushStep(s, t);
    if s.heads[s.pcs[t].stack] == s.pcs[t].head {
      assert s.nodes[s.pcs[t].n := s.nodes[s.pcs[t].n]] == s.nodes;
    } else {
      var q := r;
      r := PushFromLoad(q, t);
      Onwards(s, q, r, t);
      assert r.pcs == s.pcs[t := Idle];
    }
  }

  /** A whole push: the new node is on top of the stack, and every other node is where it was. */
  lemma WholePush(s: State, t: Tid, c: nat, k: Cid, caseId: nat) returns (r: State)
    requires Inv(s) && t < |s.pcs| && s.pcs[t].Idle? && c < |s.heads| && k < |s.cells| && caseId < s.cells[k].arms
    ensures Leads(Next(s, CallPush(t, c, k, caseId)), r, t) && Inv(r)
    ensures var n := |s.nodes|;
            r == s.(nodes := s.nodes + [Node(k, caseId, t, s.heads[c], false)], heads := s.heads[c := Some(n)],
                    place := s.place + [OnStack(c)], frees := s.frees + [0],
                    chain := s.chain[c := [n] + s.chain[c]])
  {
    var q := Next(s, CallPush(t, c, k, caseId));
    NextInv(s, CallPush(t, c, k, caseId));
    r := PushFromLoad(q, t);
    assert r.pcs == s.pcs;
    assert r.nodes == s.nodes + [Node(k, caseId, t, s.heads[c], false)];
    assert r.place == s.place + [OnStack(c)];
  }

  // ------------------------------------------------------------------------------------
  // Abort
  // ------------------------------------------------------------------------------------

  /** No step marks a node of another select call: a node becomes aborted only by a visit on behalf of its own cell. */
  lemma OnlyOwnNodesAreAborted(s: State, a: Action, n: Nid)
    requires Shaped(s) && n < |s.nodes| && n < |Next(s, a).nodes|
    requires Next(s, a).nodes[n].aborted != s.nodes[n].aborted
    ensures a.Step? && a.tid < |s.pcs| && s.pcs[a.tid] == AbortVisit(s.nodes[n].cell, Some(n))
    ensures Next(s, a).nodes[n].aborted
  {
  }

  /** The nodes of `chain` that are of cell `k` are marked. */
  function Marked(nodes: seq<Node>, chain: seq<Nid>, k: Cid): (r: seq<Node>)
    ensures |r| == |nodes|
    ensures forall n: nat | n < |nodes| ::
              r[n] == nodes[n].(aborted := nodes[n].aborted || (n in chain && nodes[n].cell == k))
  {
    seq(|nodes|, n requires 0 <= n < |nodes| =>
      nodes[n].(aborted := nodes[n].aborted || (n in chain && nodes[n].cell == k)))
  }

  lemma MarkFirst(nodes: seq<Node>, after: seq<Node>, chain: seq<Nid>, k: Cid)
    requires chain != [] && chain[0] < |nodes| == |after|
    requires var node := nodes[chain[0]];
             after == nodes[chain[0] := node.(aborted := node.aborted || node.cell == k)]
    ensures Marked(after, chain[1..], k) == Marked(nodes, chain, k)
  {
    assert chain == [chain[0]] + chain[1..];
  }

  /** The walk along `chain`, from its first node. */
  lemma {:induction false} AbortRun(s: State, t: Tid, chain: seq<Nid>) returns (r: State)
    requires Inv(s) && t < |s.pcs| && s.pcs[t].AbortVisit? && s.pcs[t].current == First(chain)
    requires Linked(s.nodes, chain)
    ensures Leads(s, r, t) && Inv(r)
    ensures r == s.(nodes := Marked(s.nodes, chain, s.pcs[t].cell), pcs := s.pcs[t := Idle])
    decreases |chain|
  {
    var k := s.pcs[t].cell;
    if chain == [] {
      AbortMoves(s, t);
      r := AbortStep(s, t);
      assert Marked(s.nodes, chain, k) == s.nodes;
    } else {
      LinkedTail(s.nodes, chain);
      var q := AbortOne(s, t, chain);
      LinkedFrame(s.nodes, q.nodes, chain[1..]);
      r := AbortRun(q, t, chain[1..]);
      Onwards(s, q, r, t);
      MarkFirst(s.nodes, q.nodes, chain, k);
      assert r.pcs == s.pcs[t := Idle];
    }
  }

  lemma AbortOne(s: State, t: Tid, chain: seq<Nid>) returns (q: State)
    requires Inv(s) && t < |s.pcs| && chain != [] && chain[0] < |s.nodes|
    requires s.pcs[t].AbortVisit? && s.pcs[t].current == Some(chain[0])
    requires s.nodes[chain[0]].next == First(chain[1..])
    ensures Leads(s, q, t) && Inv(q)
    ensures var k, node := s.pcs[t].cell, s.nodes[chain[0]];
            q == s.(nodes := s.nodes[chain[0] := node.(aborted := node.aborted || node.cell == k)],
                    pcs := s.pcs[t := AbortVisit(k, First(chain[1..]))])
  {
    var node := s.nodes[chain[0]];
    AbortMoves(s, t);
    var p := AbortStep(s, t);
    assert p.nodes == s.nodes[chain[0] := node.(aborted := node.aborted || node.cell == s.pcs[t].cell)];
    AbortMoves(p, t);
    q := AbortStep(p, t);
    Onwards(s, p, q, t);
    assert q.pcs == s.pcs[t := AbortVisit(s.pcs[t].cell, First(chain[1..]))];
  }

  /** A whole abort: exactly the nodes on the stack that are of cell `k` have been marked; nothing else has changed. */
  lemma WholeAbort(s: State, t: Tid, c: nat, k: Cid) returns (r: State)
    requires Inv(s) && t < |s.pcs| && s.pcs[t].Idle? && c < |s.heads|
    ensures Leads(Next(s, CallAbort(t, c, k)), r, t) && Inv(r)
    ensures r == s.(nodes := Marked(s.nodes, s.chain[c], k))
  {
    var q := Next(s, CallAbort(t, c, k));
    NextInv(s, CallAbort(t, c, k));
    assert StackOk(s, c);
    r := AbortRun(q, t, s.chain[c]);
    assert r.pcs == s.pcs;
  }

  // ------------------------------------------------------------------------------------
  // The drains
  // ------------------------------------------------------------------------------------

  /** Thread `t` has freed the nodes of `batch`, which it held. */
  function Freed(s: State, t: Tid, batch: seq<Nid>, cells: seq<Cell>, tokens: seq<bool>): State
    requires Shaped(s) && t < |s.pcs|
  {
    s.(cells := cells, tokens := tokens, pcs := s.pcs[t := Idle], batch := s.batch[t := []],
       place := seq(|s.place|, n requires 0 <= n < |s.place| => if n in batch then Place.Freed else s.place[n]),
       frees := seq(|s.frees|, n requires 0 <= n < |s.frees| => if n in batch then s.frees[n] + 1 else s.frees[n]))
  }

  /** What one node does to the cells and tokens: skipped, claimed, or unparked only. */
  function CellsAfter(s: State, n: Nid, mode: Mode, won: bool): (cells: seq<Cell>)
    requires Shaped(s) && n < |s.nodes|
    ensures |cells| == |s.cells|
  {
    var node := s.nodes[n];
    if mode.Drain? || node.aborted || (mode.One? && won) || s.cells[node.cell].value != UNSELECTED then s.cells
    else s.cells[node.cell := s.cells[node.cell].(value := node.caseId)]
  }

  predicate Unparks(s: State, n: Nid, mode: Mode, won: bool)
    requires Shaped(s) && n < |s.nodes|
  {
    var node := s.nodes[n];
    && !mode.Drain? && !node.aborted
    && (mode.One? ==> !won && s.cells[node.cell].value == UNSELECTED)
  }

  /** Thread `t`, at the first node of its batch, handles and frees it. */
  function OneDone(s: State, t: Tid): (r: State)
    requires Shaped(s) && t < |s.pcs| && s.pcs[t].WakeVisit?
    requires s.batch[t] != [] && s.batch[t][0] < |s.nodes|
  {
    var n, mode, won := s.batch[t][0], s.pcs[t].mode, s.pcs[t].won;
    var claims := Unparks(s, n, mode, won) && s.cells[s.nodes[n].cell].value == UNSELECTED;
    s.(cells := CellsAfter(s, n, mode, won),
       tokens := if Unparks(s, n, mode, won) then s.tokens[s.nodes[n].tid := true] else s.tokens,
       place := s.place[n := Place.Freed], frees := s.frees[n := s.frees[n] + 1],
       batch := s.batch[t := s.batch[t][1..]],
       pcs := s.pcs[t := WakeVisit(First(s.batch[t][1..]), mode, won || claims)])
  }

  /** What is known of a thread in the middle of a drain, with a batch that is not empty. */
  lemma AtFirst(s: State, t: Tid)
    requires Inv(s) && t < |s.pcs| && s.pcs[t].WakeVisit? && s.batch[t] != []
    ensures s.batch[t][0] < |s.nodes| && s.pcs[t].current == Some(s.batch[t][0])
    ensures s.nodes[s.batch[t][0]].next == First(s.batch[t][1..]) && s.place[s.batch[t][0]] == Held(t)
  {
    assert ThreadOk(s, t);
    LinkedTail(s.nodes, s.batch[t]);
    assert s.batch[t][0] in s.batch[t];
  }

  lemma OneNode(s: State, t: Tid) returns (r: State)
    requires Inv(s) && t < |s.pcs| && s.pcs[t].WakeVisit? && s.batch[t] != []
    ensures s.batch[t][0] < |s.nodes|
    ensures Leads(s, r, t) && Inv(r) && r == OneDone(s, t)
  {
    AtFirst(s, t);
    WakeMoves(s, t);
    var p := WakeStep(s, t);
    r := p;
    if !s.pcs[t].mode.Drain? {
      r := Checked(s, p, t);
      Onwards(s, p, r, t);
    }
  }

  /** From the check of `aborted` on. */
  lemma Checked(s: State, p: State, t: Tid) returns (r: State)
    requires Inv(s) && Inv(p) && t < |s.pcs| && s.pcs[t].WakeVisit? && s.batch[t] != [] && !s.pcs[t].mode.Drain?
    requires var n := s.batch[t][0];
             && n < |s.nodes| && s.place[n] == Held(t)
             && p == s.(pcs := s.pcs[t := WakeCheck(n, First(s.batch[t][1..]), s.pcs[t].mode, s.pcs[t].won)])
    ensures Leads(p, r, t) && Inv(r) && r == OneDone(s, t)
  {
    var n, mode, won := s.batch[t][0], s.pcs[t].mode, s.pcs[t].won;
    var rest := First(s.batch[t][1..]);
    WakeMoves(p, t);
    var q := WakeStep(p, t);
    if s.nodes[n].aborted || (mode.One? && won) {
      r := q;
      assert r.pcs == s.pcs[t := WakeVisit(rest, mode, won)];
    } else {
      assert q == s.(pcs := s.pcs[t := WakeExchange(n, rest, mode, won)]);
      r := Exchanged(s, q, t);
      Onwards(p, q, r, t);
    }
  }

  /** From the compare-exchange on `selected` on. */
  lemma Exchanged(s: State, q: State, t: Tid) returns (r: State)
    requires Shaped(s) && Inv(q) && t < |s.pcs| && s.pcs[t].WakeVisit? && s.batch[t] != [] && !s.pcs[t].mode.Drain?
    requires var n, mode, won := s.batch[t][0], s.pcs[t].mode, s.pcs[t].won;
             && n < |s.nodes| && s.place[n] == Held(t) && !s.nodes[n].aborted && !(mode.One? && won)
             && q == s.(pcs := s.pcs[t := WakeExchange(n, First(s.batch[t][1..]), mode, won)])
    ensures Leads(q, r, t) && Inv(r) && r == OneDone(s, t)
  {
    WakeMoves(q, t);
    var u := WakeStep(q, t);
    r := u;
    if u.pcs[t].WakeUnpark? {
      r := Unparked(u, t);
      Onwards(q, u, r, t);
    }
    ExchangeEnds(s, q, u, t);
  }

  /** Where the exchange leads, with the unpark that may come after it. */
  lemma ExchangeEnds(s: State, q: State, u: State, t: Tid)
    requires Shaped(s) && Shaped(q) && t < |s.pcs| && s.pcs[t].WakeVisit? && s.batch[t] != [] && !s.pcs[t].mode.Drain?
    requires var n, mode, won := s.batch[t][0], s.pcs[t].mode, s.pcs[t].won;
             && n < |s.nodes| && s.place[n] == Held(t) && !s.nodes[n].aborted && !(mode.One? && won)
             && q == s.(pcs := s.pcs[t := WakeExchange(n, First(s.batch[t][1..]), mode, won)])
    requires u == WakeStep(q, t)
    ensures if u.pcs[t].WakeUnpark?
            then var w := u.pcs[t];
                 OneDone(s, t) == At(Free(Unpark(u, w.n), t, w.n), t, WakeVisit(w.rest, w.mode, w.won))
            else u == OneDone(s, t)
  {
    var w := u.pcs[t];
    var r := if w.WakeUnpark? then At(Free(Unpark(u, w.n), t, w.n), t, WakeVisit(w.rest, w.mode, w.won)) else u;
    assert r.pcs == OneDone(s, t).pcs && r.cells == OneDone(s, t).cells && r.tokens == OneDone(s, t).tokens;
    assert r.place == OneDone(s, t).place && r.frees == OneDone(s, t).frees && r.batch == OneDone(s, t).batch;
  }

  lemma Unparked(u: State, t: Tid) returns (r: State)
    requires Inv(u) && t < |u.pcs| && u.pcs[t].WakeUnpark?
    ensures Leads(u, r, t) && Inv(r)
    ensures var n := u.pcs[t].n;
            r == At(Free(Unpark(u, n), t, n), t, WakeVisit(u.pcs[t].rest, u.pcs[t].mode, u.pcs[t].won))
  {
    WakeMoves(u, t);
    r := WakeStep(u, t);
  }

  lemma FreedFirst(s: State, q: State, t: Tid, cells: seq<Cell>, tokens: seq<bool>)
    requires Inv(s) && t < |s.pcs| && s.pcs[t].WakeVisit? && s.batch[t] != [] && s.batch[t][0] < |s.nodes|
    requires q == OneDone(s, t) && Shaped(q)
    ensures Freed(q, t, s.batch[t][1..], cells, tokens) == Freed(s, t, s.batch[t], cells, tokens)
  {
    var batch := s.batch[t];
    assert ThreadOk(s, t);
    LinkedTail(s.nodes, batch);
    assert batch == [batch[0]] + batch[1..];
    var a, b := Freed(q, t, batch[1..], cells, tokens), Freed(s, t, batch, cells, tokens);
    assert a.place == b.place && a.frees == b.frees && a.pcs == b.pcs && a.batch == b.batch;
  }

  /** Node `n` may still be selected. */
  predicate Open(s: State, n: Nid)
    requires Shaped(s) && n < |s.nodes|
  {
    !s.nodes[n].aborted && s.cells[s.nodes[n].cell].value == UNSELECTED
  }

  /** `i` is the place of the first open node of the chain, or its length. */
  ghost predicate FirstOpen(s: State, chain: seq<Nid>, i: nat)
    requires Shaped(s) && forall j | 0 <= j < |chain| :: chain[j] < |s.nodes|
  {
    && i <= |chain| && (i < |chain| ==> Open(s, chain[i]))
    && forall j | 0 <= j < i :: !Open(s, chain[j])
  }

  /** The state `r` in which the first open node of the chain, if any, has won, and all nodes are freed. */
  ghost predicate OneWon(s: State, r: State, t: Tid, chain: seq<Nid>, i: nat)
    requires Shaped(s) && t < |s.pcs| && (forall j | 0 <= j < |chain| :: chain[j] < |s.nodes|) && i <= |chain|
  {
    if i == |chain| then r == Freed(s, t, chain, s.cells, s.tokens)
    else
      var node := s.nodes[chain[i]];
      r == Freed(s, t, chain, s.cells[node.cell := s.cells[node.cell].(value := node.caseId)],
                 s.tokens[node.tid := true])
  }

  lemma Finishes(s: State, t: Tid) returns (r: State)
    requires Inv(s) && t < |s.pcs| && s.pcs[t].WakeVisit? && s.batch[t] == []
    ensures Leads(s, r, t) && Inv(r) && r == Freed(s, t, [], s.cells, s.tokens)
  {
    assert ThreadOk(s, t);
    WakeMoves(s, t);
    r := WakeStep(s, t);
    assert Freed(s, t, [], s.cells, s.tokens).place == s.place && Freed(s, t, [], s.cells, s.tokens).frees == s.frees;
    assert s.batch[t := []] == s.batch;
  }

  lemma BatchKnown(s: State, t: Tid)
    requires Inv(s) && t < |s.pcs|
    ensures forall j | 0 <= j < |s.batch[t]| :: s.batch[t][j] < |s.nodes|
  {
    assert ThreadOk(s, t);
  }

  /** A drain that has its winner, or wakes nobody at all, only frees. */
  lemma {:induction false} OnlyFrees(s: State, t: Tid) returns (r: State)
    requires Inv(s) && t < |s.pcs| && s.pcs[t].WakeVisit?
    requires s.pcs[t].mode.Drain? || (s.pcs[t].mode.One? && s.pcs[t].won)
    ensures Leads(s, r, t) && Inv(r) && r == Freed(s, t, s.batch[t], s.cells, s.tokens)
    decreases |s.batch[t]|
  {
    if s.batch[t] == [] {
      r := Finishes(s, t);
    } else {
      var q := OneNode(s, t);
      r := OnlyFrees(q, t);
      Onwards(s, q, r, t);
      FreedFirst(s, q, t, s.cells, s.tokens);
    }
  }

  lemma {:induction false} OneRun(s: State, t: Tid, i: nat) returns (r: State)
    requires Inv(s) && t < |s.pcs| && s.pcs[t].WakeVisit? && s.pcs[t].mode.One? && !s.pcs[t].won
    requires (forall j | 0 <= j < |s.batch[t]| :: s.batch[t][j] < |s.nodes|) && FirstOpen(s, s.batch[t], i)
    ensures Leads(s, r, t) && Inv(r) && OneWon(s, r, t, s.batch[t], i)
    decreases |s.batch[t]|
  {
    if s.batch[t] == [] {
      r := Finishes(s, t);
    } else {
      var q := OneNode(s, t);
      BatchKnown(q, t);
      if i == 0 {
        r := OnlyFrees(q, t);
      } else {
        assert FirstOpen(q, q.batch[t], i - 1);
        r := OneRun(q, t, i - 1);
      }
      Onwards(s, q, r, t);
      FreedFirst(s, q, t, r.cells, r.tokens);
    }
  }

  /** The case of the first unaborted node of cell `k` on the chain. */
  function FirstCase(nodes: seq<Node>, chain: seq<Nid>, k: Cid): Option<nat>
    requires forall j | 0 <= j < |chain| :: chain[j] < |nodes|
  {
    if chain == [] then None
    else if !nodes[chain[0]].aborted && nodes[chain[0]].cell == k then Some(nodes[chain[0]].caseId)
    else FirstCase(nodes, chain[1..], k)
  }

  /** All the cells of unaborted nodes are decided, each for the first of them unless it was decided before. */
  function CellsDecided(s: State, chain: seq<Nid>): (r: seq<Cell>)
    requires Shaped(s) && forall j | 0 <= j < |chain| :: chain[j] < |s.nodes|
    ensures |r| == |s.cells|
  {
    seq(|s.cells|, k requires 0 <= k < |s.cells| =>
      var first := FirstCase(s.nodes, chain, k);
      if s.cells[k].value == UNSELECTED && first.Some? then s.cells[k].(value := first.value) else s.cells[k])
  }

  function TokensGiven(s: State, chain: seq<Nid>): (r: seq<bool>)
    requires Shaped(s) && forall j | 0 <= j < |chain| :: chain[j] < |s.nodes|
    ensures |r| == |s.tokens|
    ensures forall u: nat | u < |s.tokens| ::
              r[u] <==> (s.tokens[u]
                         || exists j: nat :: j < |chain| && !s.nodes[chain[j]].aborted && s.nodes[chain[j]].tid == u)
  {
    seq(|s.tokens|, u requires 0 <= u < |s.tokens| =>
      s.tokens[u] || exists j: nat :: j < |chain| && !s.nodes[chain[j]].aborted && s.nodes[chain[j]].tid == u)
  }

  lemma AllFirst(s: State, q: State, t: Tid)
    requires Inv(s) && t < |s.pcs| && s.pcs[t].WakeVisit? && s.pcs[t].mode.All? && s.batch[t] != []
    requires (forall j | 0 <= j < |s.batch[t]| :: s.batch[t][j] < |s.nodes|) && q == OneDone(s, t) && Shaped(q)
    ensures CellsDecided(q, s.batch[t][1..]) == CellsDecided(s, s.batch[t])
    ensures TokensGiven(q, s.batch[t][1..]) == TokensGiven(s, s.batch[t])
  {
    var batch := s.batch[t];
    var rest := batch[1..];
    assert batch == [batch[0]] + rest;
    forall k: nat | k < |s.cells| ensures CellsDecided(q, rest)[k] == CellsDecided(s, batch)[k] {
      assert s.nodes[batch[0]].caseId < s.cells[s.nodes[batch[0]].cell].arms <= UNSELECTED;
    }
    forall u: nat | u < |s.tokens| ensures TokensGiven(q, rest)[u] == TokensGiven(s, batch)[u] {
      if j: nat :| j < |batch| && !s.nodes[batch[j]].aborted && s.nodes[batch[j]].tid == u {
        if j != 0 { assert batch[j] == rest[j - 1]; }
      }
      if j: nat :| j < |rest| && !s.nodes[rest[j]].aborted && s.nodes[rest[j]].tid == u {
        assert rest[j] == batch[j + 1];
      }
    }
  }

  lemma {:induction false} AllRun(s: State, t: Tid) returns (r: State)
    requires Inv(s) && t < |s.pcs| && s.pcs[t].WakeVisit? && s.pcs[t].mode.All?
    ensures forall j | 0 <= j < |s.batch[t]| :: s.batch[t][j] < |s.nodes|
    ensures Leads(s, r, t) && Inv(r)
    ensures r == Freed(s, t, s.batch[t], CellsDecided(s, s.batch[t]), TokensGiven(s, s.batch[t]))
    decreases |s.batch[t]|
  {
    BatchKnown(s, t);
    if s.batch[t] == [] {
      r := Finishes(s, t);
      assert CellsDecided(s, []) == s.cells && TokensGiven(s, []) == s.tokens;
    } else {
      var q := OneNode(s, t);
      r := AllRun(q, t);
      Onwards(s, q, r, t);
      AllFirst(s, q, t);
      FreedFirst(s, q, t, r.cells, r.tokens);
    }
  }

  // ------------------------------------------------------------------------------------
  // Whole drains
  // ------------------------------------------------------------------------------------

  /** The whole chain of stack `c` comes into the hand of thread `t`. */
  lemma Swaps(s: State, t: Tid, c: nat, mode: Mode) returns (q: State)
    requires Inv(s) && t < |s.pcs| && s.pcs[t].Idle? && c < |s.heads|
    ensures Leads(Next(s, CallWake(t, c, mode)), q, t) && Inv(q)
    ensures forall j | 0 <= j < |s.chain[c]| :: s.chain[c][j] < |s.nodes|
    ensures q == TakeAll(s, t, c).(pcs := s.pcs[t := WakeVisit(First(s.chain[c]), mode, false)])
  {
    var p := Next(s, CallWake(t, c, mode));
    NextInv(s, CallWake(t, c, mode));
    assert StackOk(s, c);
    WakeMoves(p, t);
    q := WakeStep(p, t);
    assert q.pcs == s.pcs[t := WakeVisit(First(s.chain[c]), mode, false)];
  }

  /** Stack `c` is empty, all its nodes are freed, once, and cells and tokens are as given. */
  ghost predicate Drained(s: State, r: State, c: nat, cells: seq<Cell>, tokens: seq<bool>)
    requires Shaped(s) && c < |s.heads|
  {
    && r == s.(cells := cells, tokens := tokens, heads := s.heads[c := None], chain := s.chain[c := []],
               place := r.place, frees := r.frees)
    && |r.place| == |r.frees| == |s.nodes|
    && forall n: nat | n < |s.nodes| ::
         if n in s.chain[c] then r.place[n] == Place.Freed && r.frees[n] == s.frees[n] + 1
         else r.place[n] == s.place[n] && r.frees[n] == s.frees[n]
  }

  lemma DrainedIsFreed(s: State, q: State, r: State, t: Tid, c: nat, mode: Mode, cells: seq<Cell>, tokens: seq<bool>)
    requires Inv(s) && t < |s.pcs| && s.pcs[t].Idle? && c < |s.heads|
    requires q == TakeAll(s, t, c).(pcs := s.pcs[t := WakeVisit(First(s.chain[c]), mode, false)]) && Shaped(q)
    requires r == Freed(q, t, s.chain[c], cells, tokens)
    ensures Drained(s, r, c, cells, tokens)
  {
    assert StackOk(s, c) && ThreadOk(s, t);
    assert r.batch == s.batch && r.pcs == s.pcs;
  }

  /** `wake_select_one`: the first open node of the stack, if any, wins alone. */
  lemma WholeWakeOne(s: State, t: Tid, c: nat) returns (r: State, i: nat)
    requires Inv(s) && t < |s.pcs| && s.pcs[t].Idle? && c < |s.heads|
    ensures Leads(Next(s, CallWake(t, c, One)), r, t) && Inv(r)
    ensures (forall j | 0 <= j < |s.chain[c]| :: s.chain[c][j] < |s.nodes|) && FirstOpen(s, s.chain[c], i)
    ensures i == |s.chain[c]| ==> Drained(s, r, c, s.cells, s.tokens)
    ensures i < |s.chain[c]| ==>
              var node := s.nodes[s.chain[c][i]];
              Drained(s, r, c, s.cells[node.cell := s.cells[node.cell].(value := node.caseId)],
                      s.tokens[node.tid := true])
  {
    var q := Swaps(s, t, c, One);
    i := FindOpen(s, s.chain[c]);
    assert FirstOpen(q, q.batch[t], i);
    r := OneRun(q, t, i);
    Onwards(Next(s, CallWake(t, c, One)), q, r, t);
    DrainedIsFreed(s, q, r, t, c, One, r.cells, r.tokens);
  }

  lemma {:induction false} FindOpen(s: State, chain: seq<Nid>) returns (i: nat)
    requires Shaped(s) && forall j | 0 <= j < |chain| :: chain[j] < |s.nodes|
    ensures FirstOpen(s, chain, i)
    decreases |chain|
  {
    if chain == [] || Open(s, chain[0]) {
      i := 0;
    } else {
      var j := FindOpen(s, chain[1..]);
      i := j + 1;
      assert forall h | 0 < h < |chain| :: chain[h] == chain[1..][h - 1];
    }
  }

  /** `wake_select_all`: every unaborted node's cell is decided and its thread unparked. */
  lemma WholeWakeAll(s: State, t: Tid, c: nat) returns (r: State)
    requires Inv(s) && t < |s.pcs| && s.pcs[t].Idle? && c < |s.heads|
    ensures Leads(Next(s, CallWake(t, c, All)), r, t) && Inv(r)
    ensures forall j | 0 <= j < |s.chain[c]| :: s.chain[c][j] < |s.nodes|
    ensures Drained(s, r, c, CellsDecided(s, s.chain[c]), TokensGiven(s, s.chain[c]))
  {
    var q := Swaps(s, t, c, All);
    r := AllRun(q, t);
    Onwards(Next(s, CallWake(t, c, All)), q, r, t);
    assert CellsDecided(q, s.chain[c]) == CellsDecided(s, s.chain[c]);
    assert TokensGiven(q, s.chain[c]) == TokensGiven(s, s.chain[c]);
    DrainedIsFreed(s, q, r, t, c, All, r.cells, r.tokens);
  }

  /** `drain_select_waiters`: every node is freed, and nobody is woken. */
  lemma WholeDrain(s: State, t: Tid, c: nat) returns (r: State)
    requires Inv(s) && t < |s.pcs| && s.pcs[t].Idle? && c < |s.heads|
    ensures Leads(Next(s, CallWake(t, c, Drain)), r, t) && Inv(r)
    ensures Drained(s, r, c, s.cells, s.tokens)
  {
    var q := Swaps(s, t, c, Drain);
    r := OnlyFrees(q, t);
    Onwards(Next(s, CallWake(t, c, Drain)), q, r, t);
    DrainedIsFreed(s, q, r, t, c, Drain, r.cells, r.tokens);
  }
}
