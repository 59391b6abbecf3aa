/**
 A thread blocked in `select_impl` misses no wakeup, and select answers with one of its arms.
 */
module SelectCallProof {
  import opened Basics
  import R = Ring
  import P = RingProperties
  import M = MpscProof
  import opened SelectCall

  // ------------------------------------------------------------------------------------
  // The invariant
  // ------------------------------------------------------------------------------------

  /** The current cell's nodes are in use and none of them is aborted. */
  predicate Waiting(sel: SelPc) {
    sel.Register? || sel.Recheck? || sel.Claim? || sel.Look? || sel.Park?
  }

  predicate Aborting(sel: SelPc) {
    sel.AbortLoad? || sel.AbortMark?
  }

  /** Thread `t`'s place in the ring of channel `c`. Only thread 0 pops, and only outside `select_impl`. */
  ghost predicate RingFits<V>(s: State<V>, c: nat, t: Tid)
    requires Shaped(s) && c < |s.chans| && t < |s.ops|
  {
    var pc := s.chans[c].ring.pcs[t];
    if t == 0 then !M.InPush(pc) && (!s.sel.Outside? ==> R.AtRest(pc))
    else if s.ops[t] == Push(c) then M.InPush(pc)
    else R.AtRest(pc)
  }

  ghost predicate ChanOk<V>(s: State<V>, c: nat)
    requires Shaped(s) && c < |s.chans|
  {
    && R.Inv(s.chans[c].ring)
    && (s.chans[c].senders == 0 ==> NobodySends(s, c))
  }

  /** A node on the stack of channel `c` belongs to an arm of `c`; if it is live, it is of the current cell. */
  ghost predicate StackedOk<V>(s: State<V>, c: nat, n: Nid)
    requires Shaped(s) && c < |s.chans| && n < |s.nodes|
  {
    n in s.chans[c].stack ==>
      && s.nodes[n].arm < |s.arms| && s.arms[s.nodes[n].arm] == c
      && (!s.nodes[n].aborted ==>
            && (Waiting(s.sel) || Aborting(s.sel))
            && s.nodes[n].cell == Cur(s))
  }

  /** Node `i` of a waker's list can still be claimed: it is not aborted, or was not when looked at. */
  predicate InPlay(op: Op, nodes: seq<Node>, i: nat)
    requires Walking(op) && OpShaped(op, |nodes|, op.chan + 1) && i < |op.rest|
  {
    !nodes[op.rest[i]].aborted || (op.Exchange? && i == 0)
  }

  /** The nodes in play in a waker's list are all of one cell; once it has a winner, that cell is decided. */
  ghost predicate BatchOk<V>(s: State<V>, t: Tid)
    requires Shaped(s) && t < |s.ops|
  {
    Walking(s.ops[t]) ==>
      var op := s.ops[t];
      forall i: nat | i < |op.rest| && InPlay(op, s.nodes, i) ::
        && (op.won && !op.all ==> s.cells[s.nodes[op.rest[i]].cell] != UNSELECTED)
        && (forall j: nat | j < |op.rest| && InPlay(op, s.nodes, j) ::
              s.nodes[op.rest[i]].cell == s.nodes[op.rest[j]].cell)
  }

  ghost predicate InHand<V>(s: State<V>, n: Nid)
    requires Shaped(s) && n < |s.nodes|
  {
    var t := s.holder[n];
    t < |s.ops| && Walking(s.ops[t]) && n in s.ops[t].rest
  }

  /** The node of arm `j`: still on its channel's stack, or in a waker's hand, or the cell is decided. */
  ghost predicate Accounted<V>(s: State<V>, j: nat)
    requires Shaped(s) && Waiting(s.sel) && j < |s.mine| <= |s.arms|
  {
    var n := s.mine[j];
    && n < |s.nodes|
    && s.nodes[n] == Node(Cur(s), j, false)
    && (s.cells[Cur(s)] != UNSELECTED || n in s.chans[s.arms[j]].stack || InHand(s, n))
  }

  /** The head ticket of arm `j`'s channel is unpublished, or its pusher has not drained the stack yet. */
  ghost predicate QuietHead<V>(s: State<V>, j: nat)
    requires Shaped(s) && j < |s.mine| <= |s.arms|
  {
    var c := s.arms[j];
    var ring := s.chans[c].ring;
    R.Published(ring, ring.head) && s.mine[j] in s.chans[c].stack ==>
      ring.producer[ring.head] < |s.ops| && s.ops[ring.producer[ring.head]] == Swap(c, false)
  }

  /** There are senders on arm `j`'s channel, or the last dropper has not drained the stack yet. */
  ghost predicate QuietCount<V>(s: State<V>, j: nat)
    requires Shaped(s) && j < |s.mine| <= |s.arms|
  {
    var c := s.arms[j];
    s.chans[c].senders == 0 && s.mine[j] in s.chans[c].stack ==>
      s.chans[c].lastDropper < |s.ops| && s.ops[s.chans[c].lastDropper] == Swap(c, true)
  }

  /** How many arms have been re-checked since they were registered, as far as ring and count go. */
  function HeadsChecked(sel: SelPc, n: nat): nat {
    match sel
    case Recheck(j, check) => if check.Count? then j + 1 else j
    case Look => n
    case Park => n
    case _ => 0
  }

  function CountsChecked(sel: SelPc, n: nat): nat {
    match sel
    case Recheck(j, _) => j
    case Look => n
    case Park => n
    case _ => 0
  }

  ghost predicate CallOk<V>(s: State<V>)
    requires Shaped(s)
  {
    Waiting(s.sel) ==>
      && |s.mine| == (if s.sel.Register? then s.sel.arm else |s.arms|)
      && (forall j: nat | j < |s.mine| :: Accounted(s, j))
      && ((s.sel.Look? && s.cells[Cur(s)] != UNSELECTED)
          || ((forall j: nat | j < HeadsChecked(s.sel, |s.mine|) && j < |s.mine| :: QuietHead(s, j))
              && (forall j: nat | j < CountsChecked(s.sel, |s.mine|) && j < |s.mine| :: QuietCount(s, j))))
      && (s.sel.Recheck? && s.sel.check.Sequence? ==> s.sel.check.pos == s.chans[s.arms[s.sel.arm]].ring.head)
  }

  /** A parked thread whose cell was decided has a token, or the winner is about to unpark it. */
  ghost predicate WakeupDue<V>(s: State<V>)
    requires Shaped(s)
  {
    s.sel.Park? && s.cells[Cur(s)] != UNSELECTED ==>
      s.token || (s.winner[Cur(s)] < |s.ops| && s.ops[s.winner[Cur(s)]].Unpark?)
  }

  ghost predicate LiveOn<V>(s: State<V>, c: nat, n: Nid)
    requires Shaped(s) && c < |s.chans| && n < |s.nodes|
  {
    n in s.chans[c].stack && !s.nodes[n].aborted
  }

  /** Channel `c` is the channel of an arm from `arm` on. */
  ghost predicate Ahead<V>(s: State<V>, arm: nat, c: nat) {
    exists j: nat :: arm <= j < |s.arms| && s.arms[j] == c
  }

  /** While aborting, a live node is only left on channels of arms still ahead, and within the part still to mark. */
  ghost predicate AbortOk<V>(s: State<V>, c: nat, n: Nid)
    requires Shaped(s) && c < |s.chans| && n < |s.nodes|
  {
    Aborting(s.sel) && LiveOn(s, c, n) ==>
      && Ahead(s, s.sel.arm, c)
      && (s.sel.AbortMark? && s.arms[s.sel.arm] == c ==> n in s.sel.rest)
  }

  /** What `select_impl` may answer. */
  ghost predicate ArmsOk<V>(s: State<V>)
    requires Shaped(s)
  {
    && |s.arms| <= UNSELECTED
    && (forall k: nat | k < |s.cells| :: s.cells[k] == UNSELECTED || s.cells[k] < |s.arms|)
    && (forall n: nat | n < |s.nodes| :: s.nodes[n].arm < |s.arms|)
    && (s.sel.Returned? ==> s.sel.arm < |s.arms|)
  }

  ghost predicate Inv<V>(s: State<V>) {
    && Shaped(s)
    && s.ops[0] == Idle
    && (forall c: nat | c < |s.chans| :: ChanOk(s, c))
    && (forall c: nat, t: nat | c < |s.chans| && t < |s.ops| :: RingFits(s, c, t))
    && (forall c: nat, n: nat | c < |s.chans| && n < |s.nodes| :: StackedOk(s, c, n))
    && (forall c: nat, n: nat | c < |s.chans| && n < |s.nodes| :: AbortOk(s, c, n))
    && (forall t: nat | t < |s.ops| :: BatchOk(s, t))
    && CallOk(s)
    && WakeupDue(s)
    && ArmsOk(s)
  }

  ghost predicate Caps(caps: seq<nat>) {
    forall c: nat | c < |caps| :: 2 <= caps[c]
  }

  ghost predicate Arms(arms: seq<nat>, chans: nat) {
    0 < |arms| <= UNSELECTED && forall j: nat | j < |arms| :: arms[j] < chans
  }

  lemma InitInv<V>(arms: seq<nat>, caps: seq<nat>, threads: nat)
    requires Caps(caps) && Arms(arms, |caps|) && 0 < threads
    ensures Inv(Init<V>(arms, caps, threads))
  {
    forall c: nat | c < |caps| {
      R.InitInv<V>(caps[c], threads);
    }
  }

  // ------------------------------------------------------------------------------------
  // What the senders' steps keep of a call in progress
  // ------------------------------------------------------------------------------------

  /** Other threads' steps leave the selecting thread's own part of the state alone. */
  ghost predicate CallSame<V>(s: State<V>, r: State<V>)
    requires Shaped(s) && Shaped(r)
  {
    && r.sel == s.sel && r.mine == s.mine && r.arms == s.arms && |r.cells| == |s.cells|
    && |r.chans| == |s.chans|
    && (forall c: nat | c < |s.chans| :: r.chans[c].ring.head == s.chans[c].ring.head)
    && (forall k: nat | k < |s.cells| && s.cells[k] != UNSELECTED :: r.cells[k] == s.cells[k])
  }

  ghost predicate ArmKept<V>(s: State<V>, r: State<V>, j: nat)
    requires Shaped(s) && Shaped(r) && CallSame(s, r) && Waiting(s.sel) && j < |s.mine| <= |s.arms|
  {
    && (QuietHead(s, j) ==> QuietHead(r, j))
    && (QuietCount(s, j) ==> QuietCount(r, j))
    && (Accounted(s, j) ==> Accounted(r, j))
  }

  lemma CallKept<V>(s: State<V>, r: State<V>)
    requires Shaped(s) && Shaped(r) && CallSame(s, r) && Waiting(s.sel) && CallOk(s)
    requires forall j: nat | j < |s.mine| :: ArmKept(s, r, j)
    ensures CallOk(r)
  {
    forall j: nat | j < |r.mine|
      ensures Accounted(r, j)
      ensures QuietHead(s, j) ==> QuietHead(r, j)
      ensures QuietCount(s, j) ==> QuietCount(r, j)
    {
      assert ArmKept(s, r, j) && Accounted(s, j);
    }
  }

  // ------------------------------------------------------------------------------------
  // Pushing
  // ------------------------------------------------------------------------------------

  /** Thread `t` moved inside its push on channel `c`, or started or finished it. */
  ghost predicate PushMoved<V>(s: State<V>, r: State<V>, t: Tid, c: nat) {
    && Shaped(s) && Shaped(r)
    && 0 < t < |s.ops| == |r.ops| && c < |s.chans| == |r.chans|
    && (s.ops[t] == Idle || s.ops[t] == Push(c))
    && (r.ops[t] == Idle || r.ops[t] == Push(c) || r.ops[t] == Swap(c, false))
    && 0 < s.chans[c].senders
    && r == s.(chans := s.chans[c := s.chans[c].(ring := r.chans[c].ring)], ops := s.ops[t := r.ops[t]])
    && var a := s.chans[c].ring; var b := r.chans[c].ring;
       && M.RingMoved(a, b, t) && b.head == a.head
       && (if r.ops[t] == Push(c) then M.InPush(b.pcs[t]) else R.AtRest(b.pcs[t]))
       && (R.Published(b, b.head) && !R.Published(a, a.head) ==>
             r.ops[t] == Swap(c, false) && b.producer[b.head] == t)
  }

  lemma PushOnRing<V>(s: State<V>, t: Tid, act: R.Action<V>)
    requires Inv(s) && 0 < t < |s.ops| && s.ops[t].Push?
    requires act == R.Step(t) || act == R.Spurious(t)
    ensures var a := s.chans[s.ops[t].chan].ring;
            var b := R.Next(a, act);
            && M.InPush(a.pcs[t])
            && M.RingMoved(a, b, t) && b.head == a.head
            && (M.InPush(b.pcs[t]) || b.pcs[t].PushOk? || b.pcs[t].PushErr?)
            && (act == R.Spurious(t) ==> M.InPush(b.pcs[t]))
            && (R.Published(b, b.head) && !R.Published(a, a.head) ==>
                  b.pcs[t].PushOk? && b.producer[b.head] == t)
  {
    assert RingFits(s, s.ops[t].chan, t) && ChanOk(s, s.ops[t].chan);
    var a := s.chans[s.ops[t].chan].ring;
    M.RingStep(a, act);
    M.RingStepPublishes(a, act, a.head);
    M.CallGoesOn(a, t);
  }

  lemma PushStepMoves<V>(s: State<V>, t: Tid)
    requires Inv(s) && 0 < t < |s.ops| && s.ops[t].Push?
    ensures PushMoved(s, SenderStep(s, t), t, s.ops[t].chan)
  {
    assert ChanOk(s, s.ops[t].chan);
    PushOnRing(s, t, R.Step(t));
  }

  lemma PushSpuriouslyMoves<V>(s: State<V>, t: Tid)
    requires Inv(s) && 0 < t < |s.ops| && s.ops[t].Push?
    ensures PushMoved(s, Next(s, Spurious(t)), t, s.ops[t].chan)
  {
    assert ChanOk(s, s.ops[t].chan);
    PushOnRing(s, t, R.Spurious(t));
  }

  lemma CallSendMoves<V>(s: State<V>, t: Tid, c: nat, v: V)
    requires Inv(s) && 0 < t < |s.ops| && s.ops[t].Idle? && c < |s.chans| && 0 < s.chans[c].senders
    ensures PushMoved(s, Next(s, CallSend(t, c, v)), t, c)
  {
    assert RingFits(s, c, t) && ChanOk(s, c);
    var a := s.chans[c].ring;
    M.StartingAPush(a, t, v);
    var r := RingStep(RingStep(s, c, R.Return(t)), c, R.CallPush(t, v));
    assert r == s.(chans := s.chans[c := s.chans[c].(ring := R.Next(R.Next(a, R.Return(t)), R.CallPush(t, v)))]);
  }

  lemma PushKeepsFits<V>(s: State<V>, r: State<V>, t: Tid, c: nat, d: nat, u: Tid)
    requires Inv(s) && PushMoved(s, r, t, c) && d < |s.chans| && u < |s.ops|
    ensures RingFits(r, d, u) && ChanOk(r, d)
  {
    assert RingFits(s, d, u) && ChanOk(s, d);
  }

  lemma PushKeepsArm<V>(s: State<V>, r: State<V>, t: Tid, c: nat, j: nat)
    requires Inv(s) && PushMoved(s, r, t, c) && j < |s.mine| <= |s.arms|
    requires Waiting(s.sel)
    ensures ArmKept(s, r, j)
  {
    var d := s.arms[j];
    var head := s.chans[d].ring.head;
    if R.Published(s.chans[d].ring, head) {
      assert r.chans[d].ring.producer[head] == s.chans[d].ring.producer[head];
    }
  }

  lemma PushKeeps<V>(s: State<V>, r: State<V>, t: Tid, c: nat)
    requires Inv(s) && PushMoved(s, r, t, c)
    ensures Inv(r)
  {
    forall d: nat, u: nat | d < |r.chans| && u < |r.ops| ensures RingFits(r, d, u) { PushKeepsFits(s, r, t, c, d, u); }
    forall d: nat | d < |r.chans| ensures ChanOk(r, d) { PushKeepsFits(s, r, t, c, d, 0); }
    forall d: nat, n: nat | d < |r.chans| && n < |r.nodes| ensures StackedOk(r, d, n) && AbortOk(r, d, n) {
      assert StackedOk(s, d, n) && AbortOk(s, d, n);
    }
    forall u: nat | u < |r.ops| ensures BatchOk(r, u) { assert BatchOk(s, u); }
    if Waiting(s.sel) {
      forall j: nat | j < |s.mine| ensures ArmKept(s, r, j) { PushKeepsArm(s, r, t, c, j); }
      CallKept(s, r);
    }
  }

  // ------------------------------------------------------------------------------------
  // Taking a stack
  // ------------------------------------------------------------------------------------

  /** Thread `t` emptied a stack and holds its nodes. */
  ghost predicate StackTaken<V>(s: State<V>, r: State<V>, t: Tid) {
    && Shaped(s) && Shaped(r) && 0 < t < |s.ops| && s.ops[t].Swap?
    && var c := s.ops[t].chan;
       var stack := s.chans[c].stack;
       && r == s.(chans := s.chans[c := s.chans[c].(stack := [])],
                  ops := s.ops[t := Visit(c, s.ops[t].all, stack, false)],
                  holder := r.holder)
       && forall n: nat | n < |s.nodes| :: r.holder[n] == if n in stack then t else s.holder[n]
  }

  lemma SwapTakes<V>(s: State<V>, t: Tid)
    requires Inv(s) && 0 < t < |s.ops| && s.ops[t].Swap?
    ensures StackTaken(s, SenderStep(s, t), t)
  {
  }

  lemma SwapKeepsChan<V>(s: State<V>, r: State<V>, t: Tid, d: nat, u: Tid)
    requires Inv(s) && StackTaken(s, r, t) && d < |s.chans| && u < |s.ops|
    ensures RingFits(r, d, u) && ChanOk(r, d)
  {
    assert RingFits(s, d, u) && ChanOk(s, d);
  }

  lemma SwapKeepsBatch<V>(s: State<V>, r: State<V>, t: Tid, u: Tid)
    requires Inv(s) && StackTaken(s, r, t) && u < |s.ops|
    ensures BatchOk(r, u)
  {
    if u == t {
      var c := s.ops[t].chan;
      var stack := s.chans[c].stack;
      forall i: nat | i < |stack| ensures StackedOk(s, c, stack[i]) && stack[i] in stack { }
    } else {
      assert BatchOk(s, u);
    }
  }

  lemma SwapKeepsArm<V>(s: State<V>, r: State<V>, t: Tid, j: nat)
    requires Inv(s) && StackTaken(s, r, t) && j < |s.mine| <= |s.arms|
    requires Waiting(s.sel)
    ensures ArmKept(s, r, j)
  {
    assert forall d: nat | d < |s.chans| :: r.chans[d].ring == s.chans[d].ring;
    assert forall d: nat | d < |s.chans| && d != s.ops[t].chan :: r.chans[d] == s.chans[d];
    assert r.chans[s.ops[t].chan].stack == [];
  }

  lemma SwapKeeps<V>(s: State<V>, r: State<V>, t: Tid)
    requires Inv(s) && StackTaken(s, r, t)
    ensures Inv(r)
  {
    forall d: nat, u: nat | d < |r.chans| && u < |r.ops| ensures RingFits(r, d, u) { SwapKeepsChan(s, r, t, d, u); }
    forall d: nat | d < |r.chans| ensures ChanOk(r, d) { SwapKeepsChan(s, r, t, d, 0); }
    forall d: nat, n: nat | d < |r.chans| && n < |r.nodes| ensures StackedOk(r, d, n) && AbortOk(r, d, n) {
      assert StackedOk(s, d, n) && AbortOk(s, d, n);
    }
    forall u: nat | u < |r.ops| ensures BatchOk(r, u) { SwapKeepsBatch(s, r, t, u); }
    if Waiting(s.sel) {
      forall j: nat | j < |s.mine| ensures ArmKept(s, r, j) { SwapKeepsArm(s, r, t, j); }
      CallKept(s, r);
    }
  }

  // ------------------------------------------------------------------------------------
  // Walking a drained list
  // ------------------------------------------------------------------------------------

  /** A step of a waker along its list: it may decide a cell, or leave a token. */
  ghost predicate WalkMoved<V>(s: State<V>, r: State<V>, t: Tid) {
    && Shaped(s) && Shaped(r) && 0 < t < |s.ops| == |r.ops|
    && Walking(s.ops[t])
    && (r.ops[t] == Idle || (Walking(r.ops[t]) && r.ops[t].chan == s.ops[t].chan && r.ops[t].all == s.ops[t].all))
    && |r.cells| == |s.cells|
    && r == s.(ops := s.ops[t := r.ops[t]], cells := r.cells, winner := r.winner, token := r.token)
    && (s.token ==> r.token)
    && (forall k: nat | k < |s.cells| && s.cells[k] != UNSELECTED ::
          r.cells[k] == s.cells[k] && r.winner[k] == s.winner[k])
    && (forall k: nat | k < |s.cells| && s.cells[k] == UNSELECTED && r.cells[k] != UNSELECTED ::
          r.winner[k] == t && r.ops[t].Unpark? && r.cells[k] < |s.arms|)
    && (s.ops[t].Unpark? ==> r.token)
    && (forall n: nat | n < |s.nodes| && n in s.ops[t].rest ::
          (Walking(r.ops[t]) && n in r.ops[t].rest) || s.nodes[n].aborted || r.cells[s.nodes[n].cell] != UNSELECTED)
    && BatchOk(r, t)
  }

  /** A waker's own list stays in order when it gets shorter at the front. */
  lemma ShorterBatch<V>(s: State<V>, r: State<V>, t: Tid)
    requires Shaped(s) && Shaped(r) && t < |s.ops| == |r.ops|
    requires Walking(s.ops[t]) && Walking(r.ops[t]) && BatchOk(s, t)
    requires r.nodes == s.nodes && r.ops[t].all == s.ops[t].all
    requires |r.ops[t].rest| <= |s.ops[t].rest| <= |r.ops[t].rest| + 1
    requires r.ops[t].rest == s.ops[t].rest[|s.ops[t].rest| - |r.ops[t].rest|..]
    requires r.ops[t].Exchange? ==>
      s.ops[t].Visit? && r.ops[t].rest == s.ops[t].rest && !s.nodes[s.ops[t].rest[0]].aborted
    requires forall i: nat | i < |r.ops[t].rest| && r.ops[t].won && !r.ops[t].all && InPlay(r.ops[t], r.nodes, i) ::
      r.cells[r.nodes[r.ops[t].rest[i]].cell] != UNSELECTED
    ensures BatchOk(r, t)
  {
    var before, after := s.ops[t], r.ops[t];
    var skipped := |before.rest| - |after.rest|;
    forall i: nat | i < |after.rest| && InPlay(after, r.nodes, i)
      ensures InPlay(before, s.nodes, i + skipped) && before.rest[i + skipped] == after.rest[i]
    {
    }
  }

  lemma VisitKeepsBatch<V>(s: State<V>, t: Tid)
    requires Inv(s) && 0 < t < |s.ops| && (s.ops[t].Visit? || s.ops[t].Unpark?)
    ensures BatchOk(SenderStep(s, t), t)
  {
    var op := s.ops[t];
    var r := SenderStep(s, t);
    assert BatchOk(s, t);
    if Walking(r.ops[t]) {
      forall i: nat | i < |r.ops[t].rest| && r.ops[t].won && !r.ops[t].all && InPlay(r.ops[t], r.nodes, i)
        ensures r.cells[r.nodes[r.ops[t].rest[i]].cell] != UNSELECTED
      {
        var skipped := |op.rest| - |r.ops[t].rest|;
        assert op.rest[i + skipped] == r.ops[t].rest[i];
        assert InPlay(op, s.nodes, i + skipped);
      }
      ShorterBatch(s, r, t);
    }
  }

  /** A node that is passed over is aborted, or its cell is decided. */
  lemma VisitPasses<V>(s: State<V>, t: Tid, n: Nid)
    requires Inv(s) && 0 < t < |s.ops| && (s.ops[t].Visit? || s.ops[t].Unpark?) && n in s.ops[t].rest
    ensures var op := SenderStep(s, t).ops[t];
            (Walking(op) && n in op.rest) || s.nodes[n].aborted || s.cells[s.nodes[n].cell] != UNSELECTED
  {
    var op := s.ops[t];
    assert BatchOk(s, t);
    var i :| 0 <= i < |op.rest| && op.rest[i] == n;
    if i == 0 {
      assert !s.nodes[n].aborted ==> InPlay(op, s.nodes, 0);
    } else {
      assert op.rest[1..][i - 1] == n;
    }
  }

  lemma VisitMoves<V>(s: State<V>, t: Tid)
    requires Inv(s) && 0 < t < |s.ops| && (s.ops[t].Visit? || s.ops[t].Unpark?)
    ensures WalkMoved(s, SenderStep(s, t), t)
  {
    VisitKeepsBatch(s, t);
    forall n: nat | n < |s.nodes| && n in s.ops[t].rest
      ensures var op := SenderStep(s, t).ops[t];
              (Walking(op) && n in op.rest) || s.nodes[n].aborted || s.cells[s.nodes[n].cell] != UNSELECTED
    {
      VisitPasses(s, t, n);
    }
  }

  lemma ExchangeKeepsBatch<V>(s: State<V>, t: Tid)
    requires Inv(s) && 0 < t < |s.ops| && s.ops[t].Exchange?
    ensures BatchOk(SenderStep(s, t), t)
  {
    var op := s.ops[t];
    var r := SenderStep(s, t);
    assert BatchOk(s, t) && InPlay(op, s.nodes, 0);
    assert r.ops[t].rest == op.rest[1..];
    forall i: nat | i < |r.ops[t].rest| && r.ops[t].won && !r.ops[t].all && InPlay(r.ops[t], r.nodes, i)
      ensures r.cells[r.nodes[r.ops[t].rest[i]].cell] != UNSELECTED
    {
      assert InPlay(op, s.nodes, i + 1);
    }
    ShorterBatch(s, r, t);
  }

  lemma ExchangeMoves<V>(s: State<V>, t: Tid)
    requires Inv(s) && 0 < t < |s.ops| && s.ops[t].Exchange?
    ensures WalkMoved(s, SenderStep(s, t), t)
  {
    ExchangeKeepsBatch(s, t);
    assert s.ops[t].rest == [s.ops[t].rest[0]] + s.ops[t].rest[1..];
  }

  lemma WalkKeepsChan<V>(s: State<V>, r: State<V>, t: Tid, d: nat, u: Tid)
    requires Inv(s) && WalkMoved(s, r, t) && d < |s.chans| && u < |s.ops|
    ensures RingFits(r, d, u) && ChanOk(r, d)
  {
    assert RingFits(s, d, u) && ChanOk(s, d);
  }

  lemma WalkKeepsArm<V>(s: State<V>, r: State<V>, t: Tid, j: nat)
    requires Inv(s) && WalkMoved(s, r, t) && j < |s.mine| <= |s.arms|
    requires Waiting(s.sel)
    ensures ArmKept(s, r, j)
  {
  }

  lemma WalkKeeps<V>(s: State<V>, r: State<V>, t: Tid)
    requires Inv(s) && WalkMoved(s, r, t)
    ensures Inv(r)
  {
    forall d: nat, u: nat | d < |r.chans| && u < |r.ops| ensures RingFits(r, d, u) { WalkKeepsChan(s, r, t, d, u); }
    forall d: nat | d < |r.chans| ensures ChanOk(r, d) { WalkKeepsChan(s, r, t, d, 0); }
    forall d: nat, n: nat | d < |r.chans| && n < |r.nodes| ensures StackedOk(r, d, n) && AbortOk(r, d, n) {
      assert StackedOk(s, d, n) && AbortOk(s, d, n);
    }
    forall u: nat | u < |r.ops| ensures BatchOk(r, u) { assert BatchOk(s, u); }
    if Waiting(s.sel) {
      forall j: nat | j < |s.mine| ensures ArmKept(s, r, j) { WalkKeepsArm(s, r, t, j); }
      CallKept(s, r);
    }
  }

  // ------------------------------------------------------------------------------------
  // Sender handles
  // ------------------------------------------------------------------------------------

  /** The sender count of channel `c` moved; reaching zero starts the last drop. */
  ghost predicate CountMoved<V>(s: State<V>, r: State<V>, t: Tid, c: nat) {
    && Shaped(s) && Shaped(r)
    && t < |s.ops| == |r.ops| && c < |s.chans| == |r.chans|
    && r == s.(chans := s.chans[c := s.chans[c].(senders := r.chans[c].senders, lastDropper := r.chans[c].lastDropper)],
               ops := s.ops[t := r.ops[t]])
    && 0 < s.chans[c].senders
    && (0 < r.chans[c].senders ==> r.ops[t] == s.ops[t])
    && (r.chans[c].senders == 0 ==>
          0 < t && NobodySends(s, c) && s.ops[t].Idle? && r.ops[t] == Swap(c, true) && r.chans[c].lastDropper == t)
  }

  lemma CountKeepsChan<V>(s: State<V>, r: State<V>, t: Tid, c: nat, d: nat, u: Tid)
    requires Inv(s) && CountMoved(s, r, t, c) && d < |s.chans| && u < |s.ops|
    ensures RingFits(r, d, u) && ChanOk(r, d)
  {
    assert RingFits(s, d, u) && ChanOk(s, d);
  }

  lemma CountKeepsArm<V>(s: State<V>, r: State<V>, t: Tid, c: nat, j: nat)
    requires Inv(s) && CountMoved(s, r, t, c) && j < |s.mine| <= |s.arms| && Waiting(s.sel)
    ensures ArmKept(s, r, j)
  {
  }

  lemma CountKeeps<V>(s: State<V>, r: State<V>, t: Tid, c: nat)
    requires Inv(s) && CountMoved(s, r, t, c)
    ensures Inv(r)
  {
    forall d: nat, u: nat | d < |r.chans| && u < |r.ops| ensures RingFits(r, d, u) { CountKeepsChan(s, r, t, c, d, u); }
    forall d: nat | d < |r.chans| ensures ChanOk(r, d) { CountKeepsChan(s, r, t, c, d, 0); }
    forall d: nat, n: nat | d < |r.chans| && n < |r.nodes| ensures StackedOk(r, d, n) && AbortOk(r, d, n) {
      assert StackedOk(s, d, n) && AbortOk(s, d, n);
    }
    forall u: nat | u < |r.ops| ensures BatchOk(r, u) { assert BatchOk(s, u); }
    if Waiting(s.sel) {
      forall j: nat | j < |s.mine| ensures ArmKept(s, r, j) { CountKeepsArm(s, r, t, c, j); }
      CallKept(s, r);
    }
  }

  // ------------------------------------------------------------------------------------
  // The selecting thread: steps that move only its own control state and its token
  // ------------------------------------------------------------------------------------

  lemma SelKeeps<V>(s: State<V>, sel: SelPc, token: bool)
    requires Inv(s) && SelShaped(sel, |s.arms|, |s.nodes|, |s.cells|)
    requires s.sel.Outside? && !sel.Outside? ==> forall c: nat | c < |s.chans| :: R.AtRest(s.chans[c].ring.pcs[0])
    requires (Waiting(s.sel) || Aborting(s.sel)) && !Waiting(sel) && !Aborting(sel) ==>
      forall c: nat, n: nat | c < |s.chans| && n < |s.nodes| :: !LiveOn(s, c, n)
    requires forall c: nat, n: nat | c < |s.chans| && n < |s.nodes| :: AbortOk(SetSel(s, sel), c, n)
    requires CallOk(SetSel(s, sel))
    requires WakeupDue(SetSel(s, sel).(token := token))
    requires sel.Returned? ==> sel.arm < |s.arms|
    ensures Inv(SetSel(s, sel).(token := token))
  {
    var r := SetSel(s, sel).(token := token);
    forall d: nat, u: nat | d < |r.chans| && u < |r.ops| ensures RingFits(r, d, u) { assert RingFits(s, d, u); }
    forall d: nat | d < |r.chans| ensures ChanOk(r, d) { assert ChanOk(s, d); }
    forall d: nat, n: nat | d < |r.chans| && n < |r.nodes| ensures StackedOk(r, d, n) && AbortOk(r, d, n) {
      assert StackedOk(s, d, n) && AbortOk(SetSel(s, sel), d, n);
      assert n in s.chans[d].stack && !s.nodes[n].aborted ==> LiveOn(s, d, n);
    }
    forall u: nat | u < |r.ops| ensures BatchOk(r, u) { assert BatchOk(s, u); }
    assert CallOk(r) by { SameCall(SetSel(s, sel), r); }
  }

  /** `CallOk` does not look at the token. */
  lemma SameCall<V>(s: State<V>, r: State<V>)
    requires Shaped(s) && r == s.(token := r.token, clean := r.clean, busy := r.busy) && CallOk(s)
    ensures Shaped(r) && CallOk(r)
  {
    if Waiting(s.sel) {
      forall j: nat | j < |s.mine| ensures ArmKept(s, r, j) { }
      CallKept(s, r);
    }
  }

  /** Between calls, while trying, and on the way out, no node is live and nothing is due. */
  lemma CalmKeeps<V>(s: State<V>, sel: SelPc, token: bool)
    requires Inv(s) && SelShaped(sel, |s.arms|, |s.nodes|, |s.cells|)
    requires !Waiting(s.sel) && !Aborting(s.sel) && !Waiting(sel) && !Aborting(sel)
    requires s.sel.Outside? && !sel.Outside? ==> forall c: nat | c < |s.chans| :: R.AtRest(s.chans[c].ring.pcs[0])
    requires sel.Returned? ==> sel.arm < |s.arms|
    ensures Inv(SetSel(s, sel).(token := token))
  {
    SelKeeps(s, sel, token);
  }

  /** Moving on in the re-check, or to `Park`, needs only that the arms passed are quiet. */
  lemma SelCall<V>(s: State<V>, sel: SelPc)
    requires Inv(s) && Waiting(s.sel) && !s.sel.Register? && SelShaped(sel, |s.arms|, |s.nodes|, |s.cells|)
    requires sel.Recheck? || sel.Claim? || sel.Look? || sel.Park?
    requires forall j: nat | j < HeadsChecked(sel, |s.arms|) && j < |s.arms| :: QuietHead(s, j)
    requires forall j: nat | j < CountsChecked(sel, |s.arms|) && j < |s.arms| :: QuietCount(s, j)
    requires sel.Recheck? && sel.check.Sequence? ==> sel.check.pos == s.chans[s.arms[sel.arm]].ring.head
    ensures CallOk(SetSel(s, sel))
  {
    var r := SetSel(s, sel);
    forall j: nat | j < |r.mine|
      ensures Accounted(r, j)
      ensures QuietHead(s, j) ==> QuietHead(r, j)
      ensures QuietCount(s, j) ==> QuietCount(r, j)
    {
      assert Accounted(s, j);
    }
  }

  /** A published head ticket shows in its slot. */
  lemma PublishedShows<V>(ring: R.State<V>)
    requires R.Inv(ring) && R.Published(ring, ring.head)
    ensures ring.slots[ring.head % ring.cap].sequence == ring.head + 1
  {
    NextLap(ring.head, ring.cap);
    assert R.SlotOk(ring, ring.head + ring.cap);
  }

  lemma SequenceKeepsCall<V>(s: State<V>)
    requires Inv(s) && s.sel.Recheck? && s.sel.check.Sequence?
    ensures CallOk(RecheckStep(s))
  {
    var ring := s.chans[s.arms[s.sel.arm]].ring;
    assert ChanOk(s, s.arms[s.sel.arm]);
    if R.Published(ring, ring.head) { PublishedShows(ring); }
    SelCall(s, RecheckStep(s).sel);
  }

  lemma RecheckKeepsCall<V>(s: State<V>)
    requires Inv(s) && s.sel.Recheck?
    ensures CallOk(RecheckStep(s))
  {
    if s.sel.check.Sequence? {
      SequenceKeepsCall(s);
    } else {
      assert ChanOk(s, s.arms[s.sel.arm]);
      SelCall(s, RecheckStep(s).sel);
    }
  }

  lemma RecheckKeeps<V>(s: State<V>)
    requires Inv(s) && s.sel.Recheck?
    ensures Inv(RecheckStep(s))
  {
    RecheckKeepsCall(s);
    WaitingKeeps(s, RecheckStep(s).sel);
  }

  /** From one waiting state to another: nothing is due, nothing is aborted. */
  lemma WaitingKeeps<V>(s: State<V>, sel: SelPc)
    requires Inv(s) && Waiting(s.sel) && Waiting(sel) && !sel.Park? && SelShaped(sel, |s.arms|, |s.nodes|, |s.cells|)
    requires CallOk(SetSel(s, sel))
    ensures Inv(SetSel(s, sel))
  {
    SelKeeps(s, sel, s.token);
  }

  lemma StartAbort<V>(s: State<V>, c: nat, n: Nid)
    requires Inv(s) && c < |s.chans| && n < |s.nodes| && 0 < |s.cells|
    ensures AbortOk(s.(sel := AbortLoad(0)), c, n)
  {
    assert StackedOk(s, c, n);
    if LiveOn(s, c, n) {
      assert Ahead(s, 0, c);
    }
  }

  lemma LookKeeps<V>(s: State<V>)
    requires Inv(s) && s.sel.Look?
    ensures Inv(SelectorStep(s))
  {
    if s.cells[Cur(s)] == UNSELECTED {
      SelCall(s, Park);
      SelKeeps(s, Park, s.token);
    } else {
      LeaveToAbort(s, s.token);
    }
  }

  lemma LeaveToAbort<V>(s: State<V>, token: bool)
    requires Inv(s) && (s.sel.Look? || s.sel.Park?)
    ensures Inv(SetSel(s, AbortLoad(0)).(token := token))
  {
    forall c: nat, n: nat | c < |s.chans| && n < |s.nodes| ensures AbortOk(SetSel(s, AbortLoad(0)), c, n) {
      StartAbort(s, c, n);
    }
    SelKeeps(s, AbortLoad(0), token);
  }

  // ------------------------------------------------------------------------------------
  // The selecting thread: aborting
  // ------------------------------------------------------------------------------------

  /** Loading the stack of the arm, or leaving an arm whose stack is marked. */
  lemma AbortKeepsNode<V>(s: State<V>, c: nat, n: Nid)
    requires Inv(s) && Aborting(s.sel) && c < |s.chans| && n < |s.nodes|
    requires s.sel.AbortLoad? || s.sel.rest == []
    ensures AbortOk(AbortStep(s), c, n)
    ensures !Aborting(AbortStep(s).sel) ==> !LiveOn(s, c, n)
  {
    assert AbortOk(s, c, n);
    if LiveOn(s, c, n) {
      var j: nat :| s.sel.arm <= j < |s.arms| && s.arms[j] == c;
      if AbortStep(s).sel.AbortLoad? {
        assert Ahead(AbortStep(s), AbortStep(s).sel.arm, c);
      } else if AbortStep(s).sel.AbortMark? {
        assert Ahead(AbortStep(s), s.sel.arm, c);
      }
    }
  }

  lemma AbortMoveKeeps<V>(s: State<V>)
    requires Inv(s) && Aborting(s.sel)
    requires s.sel.AbortLoad? || s.sel.rest == []
    ensures Inv(AbortStep(s))
  {
    var r := AbortStep(s);
    forall c: nat, n: nat | c < |s.chans| && n < |s.nodes|
      ensures AbortOk(r, c, n) && (!Aborting(r.sel) ==> !LiveOn(s, c, n))
    {
      AbortKeepsNode(s, c, n);
    }
    SelKeeps(s, r.sel, s.token);
  }

  lemma MarkKeepsNode<V>(s: State<V>, c: nat, n: Nid)
    requires Inv(s) && s.sel.AbortMark? && s.sel.rest != [] && c < |s.chans| && n < |s.nodes|
    ensures StackedOk(AbortStep(s), c, n) && AbortOk(AbortStep(s), c, n)
  {
    var r := AbortStep(s);
    assert StackedOk(s, c, n) && AbortOk(s, c, n);
    if LiveOn(r, c, n) {
      assert LiveOn(s, c, n);
      var j: nat :| s.sel.arm <= j < |s.arms| && s.arms[j] == c;
      assert Ahead(r, r.sel.arm, c);
    }
  }

  lemma MarkKeepsBatch<V>(s: State<V>, t: Tid)
    requires Inv(s) && s.sel.AbortMark? && s.sel.rest != [] && t < |s.ops|
    ensures BatchOk(AbortStep(s), t)
  {
    var r := AbortStep(s);
    assert BatchOk(s, t);
    if Walking(s.ops[t]) {
      forall i: nat | i < |s.ops[t].rest| && InPlay(r.ops[t], r.nodes, i) ensures InPlay(s.ops[t], s.nodes, i) { }
    }
  }

  lemma MarkKeepsRings<V>(s: State<V>, d: nat, u: Tid)
    requires Inv(s) && s.sel.AbortMark? && s.sel.rest != [] && d < |s.chans| && u < |s.ops|
    ensures RingFits(AbortStep(s), d, u) && ChanOk(AbortStep(s), d)
  {
    assert RingFits(s, d, u) && ChanOk(s, d);
  }

  lemma MarkKeeps<V>(s: State<V>)
    requires Inv(s) && s.sel.AbortMark? && s.sel.rest != []
    ensures Inv(AbortStep(s))
  {
    var r := AbortStep(s);
    forall d: nat, u: nat | d < |r.chans| && u < |r.ops| ensures RingFits(r, d, u) { MarkKeepsRings(s, d, u); }
    forall d: nat | d < |r.chans| ensures ChanOk(r, d) { MarkKeepsRings(s, d, 0); }
    forall d: nat, n: nat | d < |r.chans| && n < |r.nodes| ensures StackedOk(r, d, n) && AbortOk(r, d, n) {
      MarkKeepsNode(s, d, n);
    }
    forall u: nat | u < |r.ops| ensures BatchOk(r, u) { MarkKeepsBatch(s, u); }
  }

  // ------------------------------------------------------------------------------------
  // The selecting thread: a new cell, a new node, and claiming its own cell
  // ------------------------------------------------------------------------------------

  lemma NewCellKeeps<V>(s: State<V>, r: State<V>)
    requires Inv(s) && s.sel.Try?
    requires r == s.(cells := s.cells + [UNSELECTED], winner := s.winner + [0], mine := [], sel := Register(0))
    ensures Inv(r)
  {
    forall d: nat, u: nat | d < |r.chans| && u < |r.ops| ensures RingFits(r, d, u) { assert RingFits(s, d, u); }
    forall d: nat | d < |r.chans| ensures ChanOk(r, d) { assert ChanOk(s, d); }
    forall d: nat, n: nat | d < |r.chans| && n < |r.nodes| ensures StackedOk(r, d, n) && AbortOk(r, d, n) {
      assert StackedOk(s, d, n);
    }
    forall u: nat | u < |r.ops| ensures BatchOk(r, u) { assert BatchOk(s, u); }
  }

  lemma TryKeeps<V>(s: State<V>)
    requires Inv(s) && s.sel.Try?
    ensures Inv(TryStep(s))
  {
    if TryStep(s).sel.Register? {
      NewCellKeeps(s, TryStep(s));
    } else {
      CalmKeeps(s, TryStep(s).sel, s.token);
    }
  }

  lemma RegisterKeepsNode<V>(s: State<V>, c: nat, n: Nid)
    requires Inv(s) && s.sel.Register? && c < |s.chans| && n <= |s.nodes|
    ensures StackedOk(RegisterStep(s), c, n) && AbortOk(RegisterStep(s), c, n)
  {
    assert ChanShaped(s.chans[c], |s.ops|, |s.nodes|);
    if n < |s.nodes| { assert StackedOk(s, c, n); }
  }

  lemma RegisterKeepsCall<V>(s: State<V>)
    requires Inv(s) && s.sel.Register?
    ensures CallOk(RegisterStep(s))
  {
    var r := RegisterStep(s);
    forall j: nat | j < |r.mine| ensures Accounted(r, j) {
      if j < |s.mine| {
        assert Accounted(s, j);
      } else {
        assert r.mine[j] == |s.nodes|;
        assert r.chans[s.arms[j]].stack[0] == |s.nodes|;
      }
    }
  }

  lemma RegisterKeeps<V>(s: State<V>)
    requires Inv(s) && s.sel.Register?
    ensures Inv(RegisterStep(s))
  {
    var r := RegisterStep(s);
    forall d: nat, u: nat | d < |r.chans| && u < |r.ops| ensures RingFits(r, d, u) { assert RingFits(s, d, u); }
    forall d: nat | d < |r.chans| ensures ChanOk(r, d) { assert ChanOk(s, d); }
    forall d: nat, n: nat | d < |r.chans| && n < |r.nodes| ensures StackedOk(r, d, n) && AbortOk(r, d, n) {
      RegisterKeepsNode(s, d, n);
    }
    forall u: nat | u < |r.ops| ensures BatchOk(r, u) { assert BatchOk(s, u); }
    RegisterKeepsCall(s);
  }

  lemma ClaimKeepsParts<V>(s: State<V>, r: State<V>)
    requires Inv(s) && s.sel.Claim? && r == SetSel(ClaimCell(s, Cur(s), s.sel.arm, 0), Look)
    ensures forall d: nat, u: nat | d < |r.chans| && u < |r.ops| :: RingFits(r, d, u)
    ensures forall d: nat | d < |r.chans| :: ChanOk(r, d)
    ensures forall d: nat, n: nat | d < |r.chans| && n < |r.nodes| :: StackedOk(r, d, n) && AbortOk(r, d, n)
  {
    forall d: nat, u: nat | d < |r.chans| && u < |r.ops| ensures RingFits(r, d, u) { assert RingFits(s, d, u); }
    forall d: nat | d < |r.chans| ensures ChanOk(r, d) { assert ChanOk(s, d); }
    forall d: nat, n: nat | d < |r.chans| && n < |r.nodes| ensures StackedOk(r, d, n) && AbortOk(r, d, n) {
      assert StackedOk(s, d, n);
    }
  }

  lemma ClaimKeeps<V>(s: State<V>)
    requires Inv(s) && s.sel.Claim?
    ensures Inv(SelectorStep(s))
  {
    var r := SelectorStep(s);
    ClaimKeepsParts(s, r);
    forall u: nat | u < |r.ops| ensures BatchOk(r, u) { assert BatchOk(s, u); }
    forall j: nat | j < |r.mine| ensures Accounted(r, j) { assert Accounted(s, j); }
  }

  // ------------------------------------------------------------------------------------
  // The selecting thread: receiving between two calls
  // ------------------------------------------------------------------------------------

  lemma ConsumeOnRing<V>(a: R.State<V>, act: R.Action<V>)
    requires R.Inv(a) && act.tid == 0 && 0 < |a.pcs| && !act.CallPush? && !M.InPush(a.pcs[0])
    ensures var b := R.Next(a, act);
            && R.Inv(b) && |b.pcs| == |a.pcs|
            && !M.InPush(b.pcs[0])
            && forall u: nat | 0 < u < |a.pcs| :: b.pcs[u] == a.pcs[u]
  {
    M.RingStep(a, act);
  }

  lemma ConsumeKeeps<V>(s: State<V>, c: nat, act: R.Action<V>)
    requires Inv(s) && s.sel.Outside? && c < |s.chans| && act.tid == 0 && !act.CallPush?
    ensures Inv(RingStep(s, c, act))
  {
    var r := RingStep(s, c, act);
    assert ChanOk(s, c) && RingFits(s, c, 0);
    ConsumeOnRing(s.chans[c].ring, act);
    forall d: nat, u: nat | d < |r.chans| && u < |r.ops| ensures RingFits(r, d, u) { assert RingFits(s, d, u); }
    forall d: nat | d < |r.chans| ensures ChanOk(r, d) { assert ChanOk(s, d); }
    forall d: nat, n: nat | d < |r.chans| && n < |r.nodes| ensures StackedOk(r, d, n) && AbortOk(r, d, n) {
      assert StackedOk(s, d, n) && AbortOk(s, d, n);
    }
    forall u: nat | u < |r.ops| ensures BatchOk(r, u) { assert BatchOk(s, u); }
  }

  // ------------------------------------------------------------------------------------
  // Every step keeps the invariant
  // ------------------------------------------------------------------------------------

  lemma SelectorKeeps<V>(s: State<V>)
    requires Inv(s)
    ensures Inv(SelectorStep(s))
  {
    match s.sel
    case Try(_, _, _) => TryKeeps(s);
    case Register(_) => RegisterKeeps(s);
    case Recheck(_, _) => RecheckKeeps(s);
    case Claim(_) => ClaimKeeps(s);
    case Look => LookKeeps(s);
    case Park => LeaveToAbort(s, false);
    case AbortLoad(_) => AbortMoveKeeps(s);
    case AbortMark(_, rest) => if rest == [] { AbortMoveKeeps(s); } else { MarkKeeps(s); }
    case Final => CalmKeeps(s, SelectorStep(s).sel, s.token);
    case _ =>
  }

  lemma SenderKeeps<V>(s: State<V>, t: Tid)
    requires Inv(s) && 0 < t < |s.ops|
    ensures Inv(SenderStep(s, t))
  {
    match s.ops[t]
    case Idle =>
    case Push(c) => PushStepMoves(s, t); PushKeeps(s, SenderStep(s, t), t, c);
    case Swap(_, _) => SwapTakes(s, t); SwapKeeps(s, SenderStep(s, t), t);
    case Visit(_, _, _, _) => VisitMoves(s, t); WalkKeeps(s, SenderStep(s, t), t);
    case Exchange(_, _, _, _) => ExchangeMoves(s, t); WalkKeeps(s, SenderStep(s, t), t);
    case Unpark(_, _, _, _) => VisitMoves(s, t); WalkKeeps(s, SenderStep(s, t), t);
  }

  /** The token, once set, and the history of how calls began play no part in the invariant. */
  lemma AsideKeeps<V>(s: State<V>, r: State<V>)
    requires Inv(s) && r == s.(token := r.token, clean := r.clean, busy := r.busy) && (s.token ==> r.token)
    ensures Inv(r)
  {
    SameCall(s, r);
    forall d: nat, u: nat | d < |r.chans| && u < |r.ops| ensures RingFits(r, d, u) { assert RingFits(s, d, u); }
    forall d: nat | d < |r.chans| ensures ChanOk(r, d) { assert ChanOk(s, d); }
    forall d: nat, n: nat | d < |r.chans| && n < |r.nodes| ensures StackedOk(r, d, n) && AbortOk(r, d, n) {
      assert StackedOk(s, d, n) && AbortOk(s, d, n);
    }
    forall u: nat | u < |r.ops| ensures BatchOk(r, u) { assert BatchOk(s, u); }
  }

  lemma SweepKeeps<V>(s: State<V>, a: Action<V>)
    requires Inv(s) && a.Sweep?
    ensures Inv(Next(s, a))
  {
    var r := Next(s, a);
    if r != s {
      CalmKeeps(s, r.sel, s.token);
      AsideKeeps(SetSel(s, r.sel), r);
    }
  }

  lemma HandleKeeps<V>(s: State<V>, a: Action<V>)
    requires Inv(s) && (a.CallSend? || a.DropSender? || a.CloneSender?)
    ensures Inv(Next(s, a))
  {
    var r := Next(s, a);
    if a.CallSend? {
      if 0 < a.tid < |s.ops| && s.ops[a.tid].Idle? && a.chan < |s.chans| && 0 < s.chans[a.chan].senders {
        CallSendMoves(s, a.tid, a.chan, a.v);
        PushKeeps(s, r, a.tid, a.chan);
      }
    } else if r != s {
      CountKeeps(s, r, if a.DropSender? then a.tid else 0, a.chan);
    }
  }

  lemma NextInv<V>(s: State<V>, a: Action<V>)
    requires Inv(s)
    ensures Inv(Next(s, a))
  {
    match a
    case Step(t) => if t == 0 { SelectorKeeps(s); } else if t < |s.ops| { SenderKeeps(s, t); }
    case Spurious(t) =>
      if t == 0 && s.sel.Park? { LeaveToAbort(s, s.token); }
      else if 0 < t < |s.ops| && s.ops[t].Push? {
        PushSpuriouslyMoves(s, t);
        PushKeeps(s, Next(s, a), t, s.ops[t].chan);
      }
    case Stray => AsideKeeps(s, Next(s, a));
    case Sweep(_) => SweepKeeps(s, a);
    case Return => if s.sel.Returned? { CalmKeeps(s, Outside, s.token); }
    case Consume(c, act) => if Next(s, a) != s { ConsumeKeeps(s, c, act); }
    case OwnPark(left) => if s.sel.Outside? { CalmKeeps(s, Outside, left); }
    case _ => HandleKeeps(s, a);
  }

  lemma {:induction false} ReachableInv<V>(arms: seq<nat>, caps: seq<nat>, threads: nat, schedule: seq<Action<V>>)
    requires Caps(caps) && Arms(arms, |caps|) && 0 < threads
    ensures Inv(Exec(Init<V>(arms, caps, threads), schedule))
    decreases |schedule|
  {
    if schedule == [] {
      InitInv<V>(arms, caps, threads);
    } else {
      ReachableInv(arms, caps, threads, schedule[..|schedule| - 1]);
      NextInv(Exec(Init<V>(arms, caps, threads), schedule[..|schedule| - 1]), schedule[|schedule| - 1]);
    }
  }

  // ------------------------------------------------------------------------------------
  // The theorems
  // ------------------------------------------------------------------------------------

  predicate Asleep<V>(s: State<V>) {
    s.sel.Park? && !s.token
  }

  predicate SendersIdle<V>(s: State<V>) {
    forall t | 0 <= t < |s.ops| :: s.ops[t].Idle?
  }

  /** What `is_ready` of arm `j` is about: a value is queued, or every sender is gone. */
  predicate ArmReady<V>(s: State<V>, j: nat)
    requires j < |s.arms| && s.arms[j] < |s.chans|
  {
    var ch := s.chans[s.arms[j]];
    ch.ring.head != ch.ring.tail || ch.senders == 0
  }

  lemma PusherIsInside<V>(s: State<V>, c: nat, p: nat)
    requires Inv(s) && c < |s.chans| && R.Producing(s.chans[c].ring, p)
    ensures s.ops[s.chans[c].ring.producer[p]] == Push(c)
  {
    assert ChanOk(s, c) && RingFits(s, c, s.chans[c].ring.producer[p]);
  }

  lemma NothingQueued<V>(s: State<V>, c: nat)
    requires Inv(s) && SendersIdle(s) && c < |s.chans|
    requires !R.Published(s.chans[c].ring, s.chans[c].ring.head)
    ensures s.chans[c].ring.head == s.chans[c].ring.tail
  {
    var ring := s.chans[c].ring;
    assert ChanOk(s, c);
    if ring.head < ring.tail { PusherIsInside(s, c, ring.head); }
  }

  lemma SleeperHasNothing<V>(s: State<V>)
    requires Inv(s) && SendersIdle(s) && Asleep(s)
    ensures s.cells[Cur(s)] == UNSELECTED
    ensures forall j: nat | j < |s.arms| :: !ArmReady(s, j)
  {
    forall j: nat | j < |s.arms| ensures !ArmReady(s, j) {
      assert Accounted(s, j) && QuietHead(s, j) && QuietCount(s, j);
      NothingQueued(s, s.arms[j]);
    }
  }

  /**
   No lost wakeup in select. In every reachable state in which no sender is inside `send` or a
   last `drop`, if the selecting thread is asleep then its cell is still unselected and none
   of its arms is ready: all the channels are empty and still have senders.
   */
  lemma NoLostWakeup<V>(arms: seq<nat>, caps: seq<nat>, threads: nat, schedule: seq<Action<V>>)
    requires Caps(caps) && Arms(arms, |caps|) && 0 < threads
    requires SendersIdle(Exec(Init<V>(arms, caps, threads), schedule))
    requires Asleep(Exec(Init<V>(arms, caps, threads), schedule))
    ensures var s := Exec(Init<V>(arms, caps, threads), schedule);
            && s.cells[Cur(s)] == UNSELECTED
            && forall j: nat | j < |s.arms| :: !ArmReady(s, j)
  {
    ReachableInv(arms, caps, threads, schedule);
    SleeperHasNothing(Exec(Init<V>(arms, caps, threads), schedule));
  }

  /** Asleep, although the cell of the call has been decided. */
  predicate DecidedAsleep<V>(s: State<V>) {
    Asleep(s) && 0 < |s.cells| && s.cells[Cur(s)] != UNSELECTED
  }

  lemma DecidedSleeper<V>(s: State<V>)
    requires Inv(s) && DecidedAsleep(s)
    ensures s.winner[Cur(s)] < |s.ops| && s.ops[s.winner[Cur(s)]].Unpark?
  {
  }

  /**
   At every moment: a sleeper whose cell has been decided is about to be unparked by the
   thread that decided it.
   */
  lemma DecidedSleeperIsUnparked<V>(arms: seq<nat>, caps: seq<nat>, threads: nat, schedule: seq<Action<V>>)
    requires Caps(caps) && Arms(arms, |caps|) && 0 < threads
    requires DecidedAsleep(Exec(Init<V>(arms, caps, threads), schedule))
    ensures var s := Exec(Init<V>(arms, caps, threads), schedule);
            var w := s.winner[Cur(s)];
            w < |s.ops| && s.ops[w].Unpark?
  {
    ReachableInv(arms, caps, threads, schedule);
    DecidedSleeper(Exec(Init<V>(arms, caps, threads), schedule));
  }

  /** The answer of `select_impl` is the index of one of its arms, so the dispatch always finds its branch. */
  lemma AnswerIsAnArm<V>(arms: seq<nat>, caps: seq<nat>, threads: nat, schedule: seq<Action<V>>)
    requires Caps(caps) && Arms(arms, |caps|) && 0 < threads
    requires Exec(Init<V>(arms, caps, threads), schedule).sel.Returned?
    ensures var s := Exec(Init<V>(arms, caps, threads), schedule);
            s.sel.arm < |s.arms|
  {
    ReachableInv(arms, caps, threads, schedule);
  }
}
