/**
 When the answer of select is ready: exactly if no sender was inside an operation when the call
 began. A sender that published before the call may claim one of its nodes, for a value that
 has been received since.
 */
module SelectReady {
  import opened Basics
  import R = Ring
  import M = MpscProof
  import opened SelectCall
  import opened SelectCallProof

  // ------------------------------------------------------------------------------------
  // The invariant
  // ------------------------------------------------------------------------------------

  /** A value has been pushed to channel `c` and not popped. */
  ghost predicate Queued<V>(s: State<V>, c: nat)
    requires c < |s.chans|
  {
    s.chans[c].ring.head < s.chans[c].ring.tail
  }

  /** A waker's channel is ready: for good without senders, and during a clean call after a push. */
  ghost predicate OpReady<V>(s: State<V>, t: Tid)
    requires Shaped(s) && t < |s.ops|
  {
    var op := s.ops[t];
    (op.Swap? || Walking(op)) ==>
      && (op.all ==> s.chans[op.chan].senders == 0)
      && (!op.all && s.clean && !s.sel.Outside? ==> Queued(s, op.chan))
  }

  /** The nodes in a waker's hand are of arms of its channel. */
  ghost predicate BatchArms<V>(s: State<V>, t: Tid)
    requires Shaped(s) && t < |s.ops|
  {
    Walking(s.ops[t]) ==>
      forall n | n in s.ops[t].rest ::
        n < |s.nodes| && s.nodes[n].arm < |s.arms| && s.arms[s.nodes[n].arm] == s.ops[t].chan
  }

  /** What the selecting thread has found ready, or may answer, is ready. */
  ghost predicate AnswerOk<V>(s: State<V>)
    requires Shaped(s)
  {
    && (s.sel.Try? && s.sel.check.Sequence? ==>
          s.sel.check.pos == s.chans[s.arms[(s.sel.start + s.sel.i) % |s.arms|]].ring.head)
    && (s.sel.Claim? ==> ArmReady(s, s.sel.arm))
    && (s.clean && (Waiting(s.sel) || Aborting(s.sel) || s.sel.Final?) && s.cells[Cur(s)] != UNSELECTED ==>
          s.cells[Cur(s)] < |s.arms| && ArmReady(s, s.cells[Cur(s)]))
    && (s.clean && s.sel.Returned? ==> s.sel.arm < |s.arms| && ArmReady(s, s.sel.arm))
  }

  ghost predicate ReadyInv<V>(s: State<V>) {
    && Inv(s)
    && (forall t: nat | t < |s.ops| :: OpReady(s, t))
    && (forall t: nat | t < |s.ops| :: BatchArms(s, t))
    && AnswerOk(s)
  }

  lemma InitReady<V>(arms: seq<nat>, caps: seq<nat>, threads: nat)
    requires Caps(caps) && Arms(arms, |caps|) && 0 < threads
    ensures ReadyInv(Init<V>(arms, caps, threads))
  {
    InitInv<V>(arms, caps, threads);
  }

  // ------------------------------------------------------------------------------------
  // The senders' steps
  // ------------------------------------------------------------------------------------

  /** No value is taken and no sender comes back: what is ready stays ready. */
  ghost predicate Grown<V>(s: State<V>, r: State<V>) {
    && Shaped(s) && Shaped(r)
    && r.arms == s.arms && |r.chans| == |s.chans| && r.clean == s.clean && r.sel == s.sel
    && (forall c: nat | c < |s.chans| ::
          && r.chans[c].ring.head == s.chans[c].ring.head
          && s.chans[c].ring.head <= s.chans[c].ring.tail <= r.chans[c].ring.tail
          && (s.chans[c].senders == 0 ==> r.chans[c].senders == 0))
  }

  lemma StillReady<V>(s: State<V>, r: State<V>, j: nat)
    requires Grown(s, r) && j < |s.arms| && ArmReady(s, j)
    ensures ArmReady(r, j)
  {
  }

  /** Cells are decided by others only, and then for an arm that is ready. */
  lemma GrownAnswers<V>(s: State<V>, r: State<V>)
    requires Grown(s, r) && |r.cells| == |s.cells| && AnswerOk(s)
    requires forall k: nat | k < |s.cells| && r.cells[k] != s.cells[k] && s.clean && !s.sel.Outside? ::
               r.cells[k] < |s.arms| && ArmReady(r, r.cells[k])
    ensures AnswerOk(r)
  {
    forall j: nat | j < |s.arms| ensures ArmReady(s, j) ==> ArmReady(r, j) {
      if ArmReady(s, j) { StillReady(s, r, j); }
    }
  }

  lemma Ordered<V>(s: State<V>)
    requires Inv(s)
    ensures forall c: nat | c < |s.chans| :: s.chans[c].ring.head <= s.chans[c].ring.tail
  {
    forall c: nat | c < |s.chans| ensures s.chans[c].ring.head <= s.chans[c].ring.tail { assert ChanOk(s, c); }
  }

  /** A push that has just finished is not popped yet: nobody pops during a call. */
  lemma PushedIsQueued<V>(s: State<V>, t: Tid)
    requires Inv(s) && 0 < t < |s.ops| && s.ops[t].Push? && SenderStep(s, t).ops[t].Swap?
    ensures Queued(SenderStep(s, t), s.ops[t].chan)
  {
    var a := s.chans[s.ops[t].chan].ring;
    assert RingFits(s, s.ops[t].chan, t) && ChanOk(s, s.ops[t].chan);
    M.RingStep(a, R.Step(t));
    PublishedAbove(a, t);
  }

  lemma PublishedAbove<V>(a: R.State<V>, t: nat)
    requires R.Inv(a) && t < |a.pcs| && M.InPush(a.pcs[t]) && R.Next(a, R.Step(t)).pcs[t].PushOk?
    ensures R.Next(a, R.Step(t)).head < R.Next(a, R.Step(t)).tail
  {
    assert R.ThreadOk(a, t);
    assert R.Producing(a, a.pcs[t].pos);
    assert a.pcs[t].pos < a.head ==> R.Published(a, a.pcs[t].pos);
  }

  lemma PushReady<V>(s: State<V>, r: State<V>, t: Tid, c: nat)
    requires ReadyInv(s) && PushMoved(s, r, t, c)
    requires r.ops[t].Swap? ==> Queued(r, c)
    ensures ReadyInv(r)
  {
    PushKeeps(s, r, t, c);
    Ordered(s);
    forall u: nat | u < |r.ops| ensures OpReady(r, u) && BatchArms(r, u) { assert OpReady(s, u) && BatchArms(s, u); }
    GrownAnswers(s, r);
  }

  lemma SwapReady<V>(s: State<V>, r: State<V>, t: Tid)
    requires ReadyInv(s) && StackTaken(s, r, t)
    ensures ReadyInv(r)
  {
    SwapKeeps(s, r, t);
    Ordered(s);
    var c := s.ops[t].chan;
    forall n | n in s.chans[c].stack ensures n < |s.nodes| && StackedOk(s, c, n) {
      assert ChanShaped(s.chans[c], |s.ops|, |s.nodes|);
    }
    forall u: nat | u < |r.ops| ensures OpReady(r, u) && BatchArms(r, u) { assert OpReady(s, u) && BatchArms(s, u); }
    GrownAnswers(s, r);
  }

  /** A waker's step keeps to its list, and claims a cell for an arm of its channel. */
  ghost predicate WalkStays<V>(s: State<V>, r: State<V>, t: Tid)
    requires Shaped(s) && Shaped(r) && t < |s.ops| == |r.ops| && |r.cells| == |s.cells| && Walking(s.ops[t])
  {
    && (Walking(r.ops[t]) ==> forall n | n in r.ops[t].rest :: n in s.ops[t].rest)
    && (forall k: nat | k < |s.cells| && r.cells[k] != s.cells[k] ::
          r.cells[k] < |s.arms| && s.arms[r.cells[k]] == s.ops[t].chan)
  }

  lemma VisitStays<V>(s: State<V>, r: State<V>, t: Tid)
    requires ReadyInv(s) && 0 < t < |s.ops| && (s.ops[t].Visit? || s.ops[t].Unpark?) && r == SenderStep(s, t)
    ensures WalkStays(s, r, t)
  {
  }

  lemma ExchangeStays<V>(s: State<V>, r: State<V>, t: Tid)
    requires ReadyInv(s) && 0 < t < |s.ops| && s.ops[t].Exchange? && r == SenderStep(s, t)
    ensures WalkStays(s, r, t)
  {
    assert BatchArms(s, t) && s.ops[t].rest[0] in s.ops[t].rest;
  }

  lemma WalkReady<V>(s: State<V>, r: State<V>, t: Tid)
    requires ReadyInv(s) && WalkMoved(s, r, t) && WalkStays(s, r, t)
    ensures ReadyInv(r)
  {
    WalkKeeps(s, r, t);
    Ordered(s);
    assert OpReady(s, t);
    forall u: nat | u < |r.ops| ensures OpReady(r, u) && BatchArms(r, u) { assert OpReady(s, u) && BatchArms(s, u); }
    GrownAnswers(s, r);
  }

  lemma CountReady<V>(s: State<V>, r: State<V>, t: Tid, c: nat)
    requires ReadyInv(s) && CountMoved(s, r, t, c)
    ensures ReadyInv(r)
  {
    CountKeeps(s, r, t, c);
    Ordered(s);
    forall u: nat | u < |r.ops| ensures OpReady(r, u) && BatchArms(r, u) { assert OpReady(s, u) && BatchArms(s, u); }
    GrownAnswers(s, r);
  }

  // ------------------------------------------------------------------------------------
  // The selecting thread
  // ------------------------------------------------------------------------------------

  /** Operations and channels stay; nodes are only added or aborted. */
  ghost predicate SelectorMoved<V>(s: State<V>, r: State<V>) {
    && Shaped(s) && Shaped(r)
    && r.arms == s.arms && r.ops == s.ops && |r.chans| == |s.chans| && r.clean == s.clean && !r.sel.Outside?
    && !s.sel.Outside?
    && (forall c: nat | c < |s.chans| :: r.chans[c].ring == s.chans[c].ring && r.chans[c].senders == s.chans[c].senders)
    && |s.nodes| <= |r.nodes| && (forall n: nat | n < |s.nodes| :: r.nodes[n].arm == s.nodes[n].arm)
  }

  lemma SelectorReady<V>(s: State<V>, r: State<V>)
    requires ReadyInv(s) && Inv(r) && SelectorMoved(s, r) && AnswerOk(r)
    ensures ReadyInv(r)
  {
    forall u: nat | u < |r.ops| ensures OpReady(r, u) && BatchArms(r, u) { assert OpReady(s, u) && BatchArms(s, u); }
  }

  /** A check that says ready is right. */
  lemma ReadyIsReady<V>(s: State<V>, arm: nat, check: Check)
    requires Inv(s) && arm < |s.arms|
    requires check.Sequence? ==> check.pos == s.chans[s.arms[arm]].ring.head
    requires CheckStep(s, arm, check) == Ready
    ensures ArmReady(s, arm)
  {
    assert ChanOk(s, s.arms[arm]);
    if check.Sequence? { R.HeadSlot(s.chans[s.arms[arm]].ring); }
  }

  lemma TryMoves<V>(s: State<V>)
    requires Inv(s) && s.sel.Try?
    ensures SelectorMoved(s, TryStep(s))
  {
  }

  lemma TryAnswers<V>(s: State<V>, r: State<V>)
    requires ReadyInv(s) && s.sel.Try? && r == TryStep(s) && SelectorMoved(s, r)
    ensures AnswerOk(r)
  {
    var arm := (s.sel.start + s.sel.i) % |s.arms|;
    match CheckStep(s, arm, s.sel.check)
    case More(_) =>
    case Ready =>
      ReadyIsReady(s, arm, s.sel.check);
      StaysReady(s, r, arm);
    case NotReady =>
  }

  lemma StaysReady<V>(s: State<V>, r: State<V>, j: nat)
    requires SelectorMoved(s, r) && j < |s.arms|
    ensures ArmReady(r, j) == ArmReady(s, j)
  {
  }

  lemma TryReady<V>(s: State<V>)
    requires ReadyInv(s) && s.sel.Try?
    ensures ReadyInv(TryStep(s))
  {
    TryKeeps(s);
    TryMoves(s);
    TryAnswers(s, TryStep(s));
    SelectorReady(s, TryStep(s));
  }

  lemma RecheckReady<V>(s: State<V>)
    requires ReadyInv(s) && s.sel.Recheck?
    ensures ReadyInv(RecheckStep(s))
  {
    RecheckKeeps(s);
    if CheckStep(s, s.sel.arm, s.sel.check) == Ready { ReadyIsReady(s, s.sel.arm, s.sel.check); }
    SelectorReady(s, RecheckStep(s));
  }

  lemma RegisterReady<V>(s: State<V>)
    requires ReadyInv(s) && s.sel.Register?
    ensures ReadyInv(RegisterStep(s))
  {
    RegisterKeeps(s);
    SelectorReady(s, RegisterStep(s));
  }

  lemma AbortMoves<V>(s: State<V>, r: State<V>)
    requires Inv(s) && Aborting(s.sel) && r == AbortStep(s)
    ensures SelectorMoved(s, r) && r.cells == s.cells
    ensures Aborting(r.sel) || r.sel.Final?
  {
  }

  lemma AbortAnswers<V>(s: State<V>, r: State<V>)
    requires ReadyInv(s) && Aborting(s.sel) && SelectorMoved(s, r) && r.cells == s.cells
    requires Aborting(r.sel) || r.sel.Final?
    ensures AnswerOk(r)
  {
    forall j: nat | j < |s.arms| ensures ArmReady(r, j) == ArmReady(s, j) { StaysReady(s, r, j); }
  }

  lemma AbortReady<V>(s: State<V>)
    requires ReadyInv(s) && Aborting(s.sel)
    ensures ReadyInv(AbortStep(s))
  {
    if s.sel.AbortLoad? || s.sel.rest == [] { AbortMoveKeeps(s); } else { MarkKeeps(s); }
    AbortMoves(s, AbortStep(s));
    AbortAnswers(s, AbortStep(s));
    SelectorReady(s, AbortStep(s));
  }

  lemma OtherSelReady<V>(s: State<V>)
    requires ReadyInv(s) && (s.sel.Claim? || s.sel.Look? || s.sel.Park? || s.sel.Final?)
    ensures ReadyInv(SelectorStep(s))
  {
    SelectorKeeps(s);
    SelectorReady(s, SelectorStep(s));
  }

  lemma SelReady<V>(s: State<V>)
    requires ReadyInv(s)
    ensures ReadyInv(SelectorStep(s))
  {
    match s.sel
    case Try(_, _, _) => TryReady(s);
    case Register(_) => RegisterReady(s);
    case Recheck(_, _) => RecheckReady(s);
    case AbortLoad(_) => AbortReady(s);
    case AbortMark(_, _) => AbortReady(s);
    case Outside =>
    case Again =>
    case Returned(_) =>
    case _ => OtherSelReady(s);
  }

  // ------------------------------------------------------------------------------------
  // Every step
  // ------------------------------------------------------------------------------------

  lemma SenderReady<V>(s: State<V>, t: Tid)
    requires ReadyInv(s) && 0 < t < |s.ops|
    ensures ReadyInv(SenderStep(s, t))
  {
    var r := SenderStep(s, t);
    match s.ops[t]
    case Idle =>
    case Push(c) =>
      PushStepMoves(s, t);
      if r.ops[t].Swap? { PushedIsQueued(s, t); }
      PushReady(s, r, t, c);
    case Swap(_, _) => SwapTakes(s, t); SwapReady(s, r, t);
    case Visit(_, _, _, _) => VisitMoves(s, t); VisitStays(s, r, t); WalkReady(s, r, t);
    case Exchange(_, _, _, _) => ExchangeMoves(s, t); ExchangeStays(s, r, t); WalkReady(s, r, t);
    case Unpark(_, _, _, _) => VisitMoves(s, t); VisitStays(s, r, t); WalkReady(s, r, t);
  }

  lemma {:induction false} NobodyBusy(ops: seq<Op>)
    ensures Busy(ops) == 0 <==> forall t: nat | t < |ops| :: ops[t].Idle?
  {
    if ops != [] {
      NobodyBusy(ops[1..]);
      assert forall t: nat | 0 < t < |ops| :: ops[t] == ops[1..][t - 1];
      if forall t: nat | t < |ops| :: ops[t].Idle? {
        assert forall t: nat | t < |ops[1..]| :: ops[1..][t] == ops[t + 1];
      }
    }
  }

  lemma SweepReady<V>(s: State<V>, a: Action<V>)
    requires ReadyInv(s) && a.Sweep?
    ensures ReadyInv(Next(s, a))
  {
    if Next(s, a) != s {
      SweepKeeps(s, a);
      NobodyBusy(s.ops);
      SweepOps(s, Next(s, a));
    }
  }

  lemma SweepOps<V>(s: State<V>, r: State<V>)
    requires ReadyInv(s) && Shaped(r) && r == s.(sel := r.sel, clean := r.clean, busy := r.busy)
    requires r.clean && !(s.clean && !s.sel.Outside?) ==> forall t: nat | t < |s.ops| :: s.ops[t].Idle?
    ensures forall u: nat | u < |r.ops| :: OpReady(r, u) && BatchArms(r, u)
  {
    forall u: nat | u < |r.ops| ensures OpReady(r, u) && BatchArms(r, u) { assert OpReady(s, u) && BatchArms(s, u); }
  }

  /** Outside of calls, and in steps that touch only the token, little is promised. */
  lemma AsideReady<V>(s: State<V>, r: State<V>)
    requires ReadyInv(s) && Inv(r)
    requires r == s.(sel := r.sel, token := r.token, chans := r.chans)
    requires r.sel == s.sel || r.sel.Outside?
    requires r.chans == s.chans || r.sel.Outside?
    requires |r.chans| == |s.chans| && forall c: nat | c < |s.chans| :: r.chans[c].senders == s.chans[c].senders
    ensures ReadyInv(r)
  {
    forall u: nat | u < |r.ops| ensures OpReady(r, u) && BatchArms(r, u) { assert OpReady(s, u) && BatchArms(s, u); }
  }

  lemma CallSendReady<V>(s: State<V>, t: Tid, c: nat, v: V)
    requires ReadyInv(s)
    ensures ReadyInv(Next(s, CallSend(t, c, v)))
  {
    if 0 < t < |s.ops| && s.ops[t].Idle? && c < |s.chans| && 0 < s.chans[c].senders {
      CallSendMoves(s, t, c, v);
      CallSendNeverSwaps(s, t, c, v);
      PushReady(s, Next(s, CallSend(t, c, v)), t, c);
    }
  }

  lemma CallSendNeverSwaps<V>(s: State<V>, t: Tid, c: nat, v: V)
    requires Inv(s) && 0 < t < |s.ops| && s.ops[t].Idle?
    ensures !Next(s, CallSend(t, c, v)).ops[t].Swap?
  {
  }

  lemma HandleReady<V>(s: State<V>, a: Action<V>)
    requires ReadyInv(s) && (a.DropSender? || a.CloneSender?)
    ensures ReadyInv(Next(s, a))
  {
    var r := Next(s, a);
    if r != s { CountReady(s, r, if a.DropSender? then a.tid else 0, a.chan); }
  }

  lemma SpuriousReady<V>(s: State<V>, t: Tid)
    requires ReadyInv(s)
    ensures ReadyInv(Next(s, Spurious(t)))
  {
    if t == 0 && s.sel.Park? {
      LeaveToAbort(s, s.token);
      SelectorReady(s, Next(s, Spurious(t)));
    } else if 0 < t < |s.ops| && s.ops[t].Push? {
      PushSpuriouslyMoves(s, t);
      PushReady(s, Next(s, Spurious(t)), t, s.ops[t].chan);
    }
  }

  lemma NextReady<V>(s: State<V>, a: Action<V>)
    requires ReadyInv(s)
    ensures ReadyInv(Next(s, a))
  {
    match a
    case Step(t) => if t == 0 { SelReady(s); } else if t < |s.ops| { SenderReady(s, t); }
    case Spurious(t) => SpuriousReady(s, t);
    case Sweep(_) => SweepReady(s, a);
    case CallSend(t, c, v) => CallSendReady(s, t, c, v);
    case DropSender(_, _) => HandleReady(s, a);
    case CloneSender(_) => HandleReady(s, a);
    case _ => NextInv(s, a); AsideReady(s, Next(s, a));
  }

  lemma {:induction false} ReachableReady<V>(arms: seq<nat>, caps: seq<nat>, threads: nat, schedule: seq<Action<V>>)
    requires Caps(caps) && Arms(arms, |caps|) && 0 < threads
    ensures ReadyInv(Exec(Init<V>(arms, caps, threads), schedule))
    decreases |schedule|
  {
    if schedule == [] {
      InitReady<V>(arms, caps, threads);
    } else {
      ReachableReady(arms, caps, threads, schedule[..|schedule| - 1]);
      NextReady(Exec(Init<V>(arms, caps, threads), schedule[..|schedule| - 1]), schedule[|schedule| - 1]);
    }
  }

  /**
   If no sender was inside an operation when the call began, the arm that select answers with is
   ready: a value is queued in its channel, or its senders are gone.
   */
  lemma CleanAnswerIsReady<V>(arms: seq<nat>, caps: seq<nat>, threads: nat, schedule: seq<Action<V>>)
    requires Caps(caps) && Arms(arms, |caps|) && 0 < threads
    requires var s := Exec(Init<V>(arms, caps, threads), schedule); s.sel.Returned? && s.clean
    ensures var s := Exec(Init<V>(arms, caps, threads), schedule);
            s.sel.arm < |s.arms| && ArmReady(s, s.sel.arm)
  {
    ReachableReady(arms, caps, threads, schedule);
  }
}
