/**
 Select waiters on a watch channel are neither lost nor left behind: each is on the stack, in the
 hand of a sender, aborted or claimed; a claim leaves its thread a token; and a select call that
 was registered and then re-checked misses no change.
 */
module WatchWakeup {
  import opened Basics
  import opened Watch
  import opened WatchProof

  // ------------------------------------------------------------------------------------
  // The invariant
  // ------------------------------------------------------------------------------------

  predicate Holds<V>(op: Op<V>, n: nat) {
    op.SelectClaim? && n in op.rest
  }

  ghost predicate HeldBySome<V>(s: State<V>, n: nat) {
    exists u: nat :: u < |s.ops| && Holds(s.ops[u], n)
  }

  /** Some thread has bumped the version, or dropped the last sender, and not yet taken the stack. */
  ghost predicate SomeoneWillTake<V>(s: State<V>) {
    exists u: nat :: u < |s.ops| && PastBump(s.ops[u])
  }

  /** Something has happened since node `n` was pushed. */
  ghost predicate Overdue<V>(s: State<V>, n: nat)
    requires n < |s.nodes|
  {
    s.nodes[n].at < s.version || (s.senders == 0 && s.nodes[n].open)
  }

  /** The thread of node `n` has a token, or has taken one since the mark. */
  ghost predicate Signalled<V>(s: State<V>, n: nat)
    requires Shaped(s) && n < |s.nodes|
  {
    s.tokens[s.nodes[n].tid] || s.nodes[n].mark < s.takes[s.nodes[n].tid]
  }

  ghost predicate Place<V>(s: State<V>, n: nat)
    requires n < |s.nodes|
  {
    s.nodes[n].aborted || s.nodes[n].claimed || n in s.stack || HeldBySome(s, n)
  }

  ghost predicate NodeFacts<V>(s: State<V>, n: nat)
    requires Shaped(s) && n < |s.nodes|
  {
    var node := s.nodes[n];
    var rx := s.receivers[node.r];
    && node.base <= node.at <= s.version && node.base <= rx.cursor && rx.owner == node.tid
    && node.mark <= s.takes[node.tid]
    && (node.open || s.senders == 0)
    && (node.claimed ==> Signalled(s, n))
    && (n < rx.checked && rx.cursor == node.base ==> node.at == node.base && node.open)
    && Place(s, n)
    && (n in s.stack && Overdue(s, n) ==> SomeoneWillTake(s))
  }

  /** Between the two loads of `is_ready` on a receiver, all its nodes were pushed while there were senders. */
  ghost predicate AskOk<V>(s: State<V>, t: Tid)
    requires Shaped(s) && t < |s.ops|
  {
    s.ops[t].ReadyVersion? ==> forall n: nat | n < |s.nodes| && s.nodes[n].r == s.ops[t].r :: s.nodes[n].open
  }

  ghost predicate NodesInv<V>(s: State<V>) {
    && Inv(s)
    && (forall r: nat | r < |s.receivers| :: s.receivers[r].checked <= |s.nodes|)
    && (forall n: nat | n < |s.nodes| :: NodeFacts(s, n))
    && (forall t: nat | t < |s.ops| :: AskOk(s, t))
  }

  lemma InitNodes<V>(threads: nat, owner: Tid)
    ensures NodesInv(Init<V>(threads, owner))
  {
    InitInv<V>(threads, owner);
  }

  // ------------------------------------------------------------------------------------
  // Every step keeps it
  // ------------------------------------------------------------------------------------

  /** What an action of `t` that leaves the select waiters alone does, as far as they are concerned. */
  ghost predicate Aside<V>(s: State<V>, q: State<V>, t: Tid) {
    && Inv(s) && Inv(q) && t < |s.ops| == |q.ops|
    && q.nodes == s.nodes && q.stack == s.stack
    && (forall u: nat | u < |s.ops| && u != t :: q.ops[u] == s.ops[u])
    && s.version <= q.version && (s.senders == 0 ==> q.senders == 0)
    && (forall u: nat | u < |s.ops| :: s.takes[u] <= q.takes[u])
    && (forall u: nat | u < |s.ops| && s.tokens[u] :: q.tokens[u] || s.takes[u] < q.takes[u])
    && (forall n: nat :: Holds(s.ops[t], n) ==> Holds(q.ops[t], n))
    && (PastBump(s.ops[t]) ==> PastBump(q.ops[t]))
    && (s.version < q.version || (s.senders != 0 && q.senders == 0) ==> PastBump(q.ops[t]))
  }

  lemma AsideKeepsPlace<V>(s: State<V>, q: State<V>, t: Tid, n: nat)
    requires Aside(s, q, t) && n < |s.nodes| && Place(s, n)
    ensures Place(q, n)
  {
    if u: nat :| u < |s.ops| && Holds(s.ops[u], n) {
      assert Holds(q.ops[u], n);
    }
  }

  lemma AsideKeepsTaker<V>(s: State<V>, q: State<V>, t: Tid, n: nat)
    requires Aside(s, q, t) && n < |s.nodes|
    requires n in s.stack && Overdue(s, n) ==> SomeoneWillTake(s)
    ensures n in q.stack && Overdue(q, n) ==> SomeoneWillTake(q)
  {
    if n in q.stack && Overdue(q, n) {
      if Overdue(s, n) {
        var u: nat :| u < |s.ops| && PastBump(s.ops[u]);
        assert PastBump(q.ops[u]);
      } else {
        assert PastBump(q.ops[t]);
      }
    }
  }

  /** The cursors only move up, to the version; and a check counts only nodes that it was right about. */
  ghost predicate CursorsMove<V>(s: State<V>, q: State<V>) {
    && Shaped(s) && Shaped(q) && |s.receivers| <= |q.receivers|
    && (forall r: nat | r < |s.receivers| ::
          && s.receivers[r].cursor <= q.receivers[r].cursor
          && q.receivers[r].owner == s.receivers[r].owner
          && q.receivers[r].checked == s.receivers[r].checked)
    && (forall r: nat | |s.receivers| <= r < |q.receivers| :: q.receivers[r].checked == 0)
  }

  lemma AsideKeepsNode<V>(s: State<V>, q: State<V>, t: Tid, n: nat)
    requires Aside(s, q, t) && CursorsMove(s, q) && n < |s.nodes| && NodeFacts(s, n)
    ensures NodeFacts(q, n)
  {
    AsideKeepsPlace(s, q, t, n);
    AsideKeepsTaker(s, q, t, n);
  }

  lemma AsideKeeps<V>(s: State<V>, q: State<V>, t: Tid)
    requires NodesInv(s) && Aside(s, q, t) && CursorsMove(s, q)
    requires q.ops[t].ReadyVersion? ==> q.ops[t] == s.ops[t] || s.senders != 0
    ensures NodesInv(q)
  {
    forall n: nat | n < |q.nodes| ensures NodeFacts(q, n) { AsideKeepsNode(s, q, t, n); }
    forall u: nat | u < |q.ops| ensures AskOk(q, u) {
      assert AskOk(s, u);
      forall n: nat | n < |s.nodes| && s.senders != 0 ensures s.nodes[n].open { assert NodeFacts(s, n); }
    }
  }

  lemma SendAside<V>(s: State<V>, t: Tid)
    requires Inv(s) && t < |s.ops| && Sending(s.ops[t]) && !s.ops[t].SelectSwap? && !s.ops[t].SelectClaim?
    requires Inv(SendStep(s, t))
    ensures Aside(s, SendStep(s, t), t) && CursorsMove(s, SendStep(s, t))
  {
  }

  lemma EnlistedAside<V>(s: State<V>, t: Tid)
    requires Inv(s) && t < |s.ops| && Enlisted(s.ops[t]) && Inv(EnlistedStep(s, t))
    ensures Aside(s, EnlistedStep(s, t), t) && CursorsMove(s, EnlistedStep(s, t))
  {
  }

  lemma AwaitAside<V>(s: State<V>, t: Tid)
    requires Inv(s) && t < |s.ops| && Waiting(s.ops[t]) && !Enlisted(s.ops[t]) && Inv(AwaitStep(s, t))
    ensures Aside(s, AwaitStep(s, t), t) && CursorsMove(s, AwaitStep(s, t))
  {
    assert CursorOk(s, s.ops[t].c.r);
  }

  lemma WaitAside<V>(s: State<V>, t: Tid)
    requires Inv(s) && t < |s.ops| && Waiting(s.ops[t]) && Inv(WaitStep(s, t))
    ensures Aside(s, WaitStep(s, t), t) && CursorsMove(s, WaitStep(s, t))
    ensures !WaitStep(s, t).ops[t].ReadyVersion?
  {
    if Enlisted(s.ops[t]) { EnlistedAside(s, t); } else { AwaitAside(s, t); }
  }

  lemma UseAside<V>(s: State<V>, t: Tid)
    requires Inv(s) && t < |s.ops| && (s.ops[t].ChangedCount? || s.ops[t].ChangedArm?)
    requires Inv(ChangedStep(s, t))
    ensures Aside(s, ChangedStep(s, t), t) && CursorsMove(s, ChangedStep(s, t))
  {
    assert CursorOk(s, s.ops[t].r);
  }

  /** `is_ready`, unless it answers false at its second load. */
  lemma ReadyCountAside<V>(s: State<V>, t: Tid)
    requires Inv(s) && t < |s.ops| && s.ops[t].ReadyCount? && Inv(ReadyStep(s, t))
    ensures Aside(s, ReadyStep(s, t), t) && CursorsMove(s, ReadyStep(s, t))
    ensures ReadyStep(s, t).ops[t].ReadyVersion? ==> s.senders != 0
  {
  }

  lemma ReadyVersionAside<V>(s: State<V>, t: Tid)
    requires Inv(s) && t < |s.ops| && s.ops[t].ReadyVersion? && Inv(ReadyStep(s, t))
    requires ReadyStep(s, t).ops[t] == Finished(Answer(true))
    ensures Aside(s, ReadyStep(s, t), t) && CursorsMove(s, ReadyStep(s, t))
  {
    assert CursorOk(s, s.ops[t].r);
  }

  lemma RegisterAside<V>(s: State<V>, t: Tid)
    requires Inv(s) && t < |s.ops| && (s.ops[t].RegisterVersion? || s.ops[t].RegisterCount?)
    requires Inv(RegisterStep(s, t))
    ensures Aside(s, RegisterStep(s, t), t) && CursorsMove(s, RegisterStep(s, t))
  {
    assert CursorOk(s, s.ops[t].r);
  }

  lemma BorrowAside<V>(s: State<V>, t: Tid)
    requires Inv(s) && t < |s.ops| && s.ops[t].Borrow?
    requires Inv(StepOf(s, t))
    ensures Aside(s, StepOf(s, t), t) && CursorsMove(s, StepOf(s, t))
  {
  }

  /** Calls, returns, clones, drops, tokens: everything but steps and aborts. */
  lemma SenderCallAside<V>(s: State<V>, a: Action<V>)
    requires Inv(s) && (a.CallSend? || a.CallMark? || a.DropSender?) && a.tid < |s.ops| && Inv(Next(s, a))
    ensures Aside(s, Next(s, a), a.tid) && CursorsMove(s, Next(s, a))
    ensures Next(s, a).ops[a.tid].ReadyVersion? ==> Next(s, a).ops[a.tid] == s.ops[a.tid]
  {
  }

  lemma UseCallAside<V>(s: State<V>, a: Action<V>)
    requires a.CallChanged? || a.CallReady? || a.CallComplete? || a.CallBorrow? || a.CallRegister?
    requires Inv(s) && MayUse(s, a.tid, a.r) && Inv(CallOn(s, a))
    ensures Aside(s, CallOn(s, a), a.tid) && CursorsMove(s, CallOn(s, a))
    ensures !CallOn(s, a).ops[a.tid].ReadyVersion?
  {
  }

  lemma CloneAside<V>(s: State<V>, t: Tid, r: Rid, owner: Tid)
    requires Inv(s) && t < |s.ops| && Inv(Next(s, CloneReceiver(t, r, owner)))
    ensures Aside(s, Next(s, CloneReceiver(t, r, owner)), t) && CursorsMove(s, Next(s, CloneReceiver(t, r, owner)))
  {
  }

  lemma ReturnAside<V>(s: State<V>, a: Action<V>)
    requires Inv(s) && (a.Return? || a.Spurious?) && a.tid < |s.ops| && Inv(Next(s, a))
    ensures Aside(s, Next(s, a), a.tid) && CursorsMove(s, Next(s, a))
    ensures Next(s, a).ops[a.tid].ReadyVersion? ==> Next(s, a).ops[a.tid] == s.ops[a.tid]
  {
  }

  lemma TokenAside<V>(s: State<V>, a: Action<V>)
    requires Inv(s) && (a.Stray? || a.TakeToken?) && a.tid < |s.ops| && Inv(Next(s, a))
    ensures Aside(s, Next(s, a), a.tid) && CursorsMove(s, Next(s, a)) && Next(s, a).ops == s.ops
  {
  }

  lemma WinAside<V>(s: State<V>, t: Tid, n: nat)
    requires Inv(s) && t < |s.ops| && Inv(Next(s, Win(t, n)))
    ensures Aside(s, Next(s, Win(t, n)), t) && CursorsMove(s, Next(s, Win(t, n))) && Next(s, Win(t, n)).ops == s.ops
  {
  }

  lemma UseCallKeeps<V>(s: State<V>, a: Action<V>)
    requires a.CallChanged? || a.CallReady? || a.CallComplete? || a.CallBorrow? || a.CallRegister?
    requires NodesInv(s) && a.tid < |s.ops| && Inv(Next(s, a))
    ensures NodesInv(Next(s, a))
  {
    if MayUse(s, a.tid, a.r) {
      assert Next(s, a) == CallOn(s, a);
      UseCallAside(s, a);
      AsideKeeps(s, CallOn(s, a), a.tid);
    }
  }

  lemma CallKeeps<V>(s: State<V>, a: Action<V>)
    requires NodesInv(s) && !a.CloneSender? && !a.Step? && !a.Abort? && a.tid < |s.ops| && Inv(Next(s, a))
    ensures NodesInv(Next(s, a))
  {
    match a
    case CallSend(_, _) => SenderCallAside(s, a); AsideKeeps(s, Next(s, a), a.tid);
    case CallMark(_) => SenderCallAside(s, a); AsideKeeps(s, Next(s, a), a.tid);
    case DropSender(_) => SenderCallAside(s, a); AsideKeeps(s, Next(s, a), a.tid);
    case CloneReceiver(t, r, owner) => CloneAside(s, t, r, owner); AsideKeeps(s, Next(s, a), a.tid);
    case Return(_) => ReturnAside(s, a); AsideKeeps(s, Next(s, a), a.tid);
    case Spurious(_) => ReturnAside(s, a); AsideKeeps(s, Next(s, a), a.tid);
    case Stray(_) => TokenAside(s, a); AsideKeeps(s, Next(s, a), a.tid);
    case TakeToken(_) => TokenAside(s, a); AsideKeeps(s, Next(s, a), a.tid);
    case Win(t, n) => WinAside(s, t, n); AsideKeeps(s, Next(s, a), a.tid);
    case _ => UseCallKeeps(s, a);
  }

  /** `is_ready` answers false: what was pushed for this receiver, with its cursor as it is, is up to date. */
  lemma CheckKeepsNode<V>(s: State<V>, q: State<V>, t: Tid, n: nat)
    requires NodesInv(s) && Inv(q) && t < |s.ops| && s.ops[t].ReadyVersion? && n < |s.nodes|
    requires q == ReadyStep(s, t) && q.ops[t] == Finished(Answer(false))
    ensures NodeFacts(q, n)
  {
    var r := s.ops[t].r;
    assert NodeFacts(s, n) && AskOk(s, t) && CursorOk(s, r);
    assert q == s.(ops := q.ops, receivers := s.receivers[r := q.receivers[r]]);
    assert q.receivers[r].cursor == s.version;
    OwnStepKeepsPlace(s, q, t, n);
  }

  lemma OwnStepKeepsPlace<V>(s: State<V>, q: State<V>, t: Tid, n: nat)
    requires Shaped(s) && Shaped(q) && t < |s.ops| == |q.ops| && n < |s.nodes|
    requires q == s.(ops := s.ops[t := q.ops[t]], receivers := q.receivers)
    requires !s.ops[t].SelectClaim? && !PastBump(s.ops[t])
    ensures Place(s, n) ==> Place(q, n)
    ensures SomeoneWillTake(s) ==> SomeoneWillTake(q)
  {
    if u: nat :| u < |s.ops| && Holds(s.ops[u], n) { assert Holds(q.ops[u], n); }
    if u: nat :| u < |s.ops| && PastBump(s.ops[u]) { assert PastBump(q.ops[u]); }
  }

  lemma CheckKeeps<V>(s: State<V>, t: Tid)
    requires NodesInv(s) && t < |s.ops| && s.ops[t].ReadyVersion?
    requires ReadyStep(s, t).ops[t] == Finished(Answer(false))
    requires Inv(ReadyStep(s, t))
    ensures NodesInv(ReadyStep(s, t))
  {
    var q := ReadyStep(s, t);
    forall n: nat | n < |q.nodes| ensures NodeFacts(q, n) { CheckKeepsNode(s, q, t, n); }
    forall u: nat | u < |q.ops| ensures AskOk(q, u) { assert AskOk(s, u); }
  }

  /** The whole stack comes into the hand of `t`. */
  lemma SwapKeeps<V>(s: State<V>, t: Tid)
    requires NodesInv(s) && t < |s.ops| && s.ops[t].SelectSwap?
    requires Inv(SelectStep(s, t))
    ensures NodesInv(SelectStep(s, t))
  {
    var q := SelectStep(s, t);
    forall n: nat | n < |q.nodes| ensures NodeFacts(q, n) {
      assert NodeFacts(s, n);
      if n in s.stack { assert Holds(q.ops[t], n); }
      if u: nat :| u < |s.ops| && Holds(s.ops[u], n) { assert Holds(q.ops[u], n); }
    }
    forall u: nat | u < |q.ops| ensures AskOk(q, u) { assert AskOk(s, u); }
  }

  /** What the visit of the node in front changes: that node, and its thread's token. */
  lemma ClaimChanges<V>(s: State<V>, q: State<V>, t: Tid)
    requires Shaped(s) && t < |s.ops| && s.ops[t].SelectClaim? && s.ops[t].rest != [] && q == SelectStep(s, t)
    ensures var m := s.ops[t].rest[0];
            var node := s.nodes[m];
            q == if node.aborted then s.(ops := s.ops[t := SelectClaim(s.ops[t].rest[1..])])
                 else s.(ops := s.ops[t := SelectClaim(s.ops[t].rest[1..])], tokens := s.tokens[node.tid := true],
                         nodes := s.nodes[m := node.(claimed := true, mark := s.takes[node.tid])])
  {
  }

  lemma ClaimKeepsPlace<V>(s: State<V>, q: State<V>, t: Tid, n: nat)
    requires Shaped(s) && Shaped(q) && t < |s.ops| == |q.ops| && n < |s.nodes| == |q.nodes|
    requires s.ops[t].SelectClaim? && s.ops[t].rest != [] && q.stack == s.stack
    requires q.ops == s.ops[t := SelectClaim(s.ops[t].rest[1..])]
    requires q.nodes[n].aborted == s.nodes[n].aborted && (s.nodes[n].claimed ==> q.nodes[n].claimed)
    requires n == s.ops[t].rest[0] ==> q.nodes[n].aborted || q.nodes[n].claimed
    ensures Place(s, n) ==> Place(q, n)
    ensures SomeoneWillTake(s) ==> SomeoneWillTake(q)
  {
    var rest := s.ops[t].rest;
    assert rest == [rest[0]] + rest[1..];
    if u: nat :| u < |s.ops| && Holds(s.ops[u], n) {
      if u != t || n != rest[0] { assert Holds(q.ops[u], n); }
    }
    if u: nat :| u < |s.ops| && PastBump(s.ops[u]) { assert PastBump(q.ops[u]); }
  }

  /** The node in front is claimed and its thread unparked, unless it is aborted; the others stay in hand. */
  lemma ClaimKeepsNode<V>(s: State<V>, q: State<V>, t: Tid, n: nat)
    requires NodesInv(s) && t < |s.ops| && s.ops[t].SelectClaim? && s.ops[t].rest != [] && n < |s.nodes|
    requires q == SelectStep(s, t) && Shaped(q)
    ensures NodeFacts(q, n)
  {
    ClaimChanges(s, q, t);
    assert NodeFacts(s, n);
    ClaimKeepsPlace(s, q, t, n);
  }

  lemma ClaimKeeps<V>(s: State<V>, t: Tid)
    requires NodesInv(s) && t < |s.ops| && s.ops[t].SelectClaim?
    requires Inv(SelectStep(s, t))
    ensures NodesInv(SelectStep(s, t))
  {
    var q := SelectStep(s, t);
    forall n: nat | n < |q.nodes| ensures NodeFacts(q, n) {
      if s.ops[t].rest != [] {
        ClaimKeepsNode(s, q, t, n);
      } else {
        assert NodeFacts(s, n);
        if u: nat :| u < |s.ops| && Holds(s.ops[u], n) { assert Holds(q.ops[u], n); }
        if u: nat :| u < |s.ops| && PastBump(s.ops[u]) { assert PastBump(q.ops[u]); }
      }
    }
    forall u: nat | u < |q.ops| ensures AskOk(q, u) { assert AskOk(s, u); }
  }

  lemma PushKeepsNode<V>(s: State<V>, q: State<V>, t: Tid, n: nat)
    requires NodesInv(s) && t < |s.ops| && s.ops[t].RegisterPush? && q == RegisterStep(s, t) && n < |s.nodes|
    ensures NodeFacts(q, n)
  {
    assert NodeFacts(s, n) && q.nodes[n] == s.nodes[n];
    if u: nat :| u < |s.ops| && Holds(s.ops[u], n) { assert Holds(q.ops[u], n); }
    if u: nat :| u < |s.ops| && PastBump(s.ops[u]) { assert PastBump(q.ops[u]); }
  }

  lemma PushedNode<V>(s: State<V>, q: State<V>, t: Tid)
    requires NodesInv(s) && t < |s.ops| && s.ops[t].RegisterPush? && q == RegisterStep(s, t)
    ensures NodeFacts(q, |s.nodes|)
  {
    assert UseOk(s, t) && CursorOk(s, s.ops[t].r);
    assert q.stack[0] == |s.nodes|;
  }

  lemma PushKeepsAsk<V>(s: State<V>, q: State<V>, t: Tid, u: Tid)
    requires NodesInv(s) && t < |s.ops| && s.ops[t].RegisterPush? && q == RegisterStep(s, t) && u < |s.ops|
    ensures AskOk(q, u)
  {
    assert AskOk(s, u);
    if s.ops[u].ReadyVersion? && s.ops[u].r == s.ops[t].r { assert UseOk(s, u) && UseOk(s, t); }
  }

  lemma PushKeeps<V>(s: State<V>, t: Tid)
    requires NodesInv(s) && t < |s.ops| && s.ops[t].RegisterPush?
    requires Inv(RegisterStep(s, t))
    ensures NodesInv(RegisterStep(s, t))
  {
    var q := RegisterStep(s, t);
    PushedNode(s, q, t);
    forall n: nat | n < |s.nodes| ensures NodeFacts(q, n) { PushKeepsNode(s, q, t, n); }
    forall u: nat | u < |q.ops| ensures AskOk(q, u) { PushKeepsAsk(s, q, t, u); }
  }

  lemma AbortKeepsNode<V>(s: State<V>, t: Tid, m: nat, n: nat)
    requires NodesInv(s) && t < |s.ops| && n < |s.nodes|
    ensures NodeFacts(Next(s, Abort(t, m)), n)
  {
    var q := Next(s, Abort(t, m));
    assert NodeFacts(s, n);
    if u: nat :| u < |s.ops| && Holds(s.ops[u], n) { assert Holds(q.ops[u], n); }
    if u: nat :| u < |s.ops| && PastBump(s.ops[u]) { assert PastBump(q.ops[u]); }
  }

  lemma AbortKeeps<V>(s: State<V>, t: Tid, m: nat)
    requires NodesInv(s) && t < |s.ops|
    ensures NodesInv(Next(s, Abort(t, m)))
  {
    var q := Next(s, Abort(t, m));
    NextInv(s, Abort(t, m));
    forall n: nat | n < |q.nodes| ensures NodeFacts(q, n) { AbortKeepsNode(s, t, m, n); }
    forall u: nat | u < |q.ops| ensures AskOk(q, u) { assert AskOk(s, u); }
  }

  lemma MoreSendersKeep<V>(s: State<V>)
    requires NodesInv(s)
    ensures NodesInv(Next(s, CloneSender))
  {
    var q := Next(s, CloneSender);
    NextInv(s, CloneSender);
    forall n: nat | n < |q.nodes| ensures NodeFacts(q, n) {
      assert NodeFacts(s, n);
      if u: nat :| u < |s.ops| && Holds(s.ops[u], n) { assert Holds(q.ops[u], n); }
      if u: nat :| u < |s.ops| && PastBump(s.ops[u]) { assert PastBump(q.ops[u]); }
    }
    forall u: nat | u < |q.ops| ensures AskOk(q, u) { assert AskOk(s, u); }
  }

  lemma RegistersKeep<V>(s: State<V>, t: Tid)
    requires NodesInv(s) && t < |s.ops| && Registering(s.ops[t]) && Inv(RegisterStep(s, t))
    ensures NodesInv(RegisterStep(s, t))
  {
    if s.ops[t].RegisterPush? {
      PushKeeps(s, t);
    } else {
      RegisterAside(s, t);
      AsideKeeps(s, RegisterStep(s, t), t);
    }
  }

  lemma ReadyKeeps<V>(s: State<V>, t: Tid)
    requires NodesInv(s) && t < |s.ops| && (s.ops[t].ReadyCount? || s.ops[t].ReadyVersion?) && Inv(ReadyStep(s, t))
    ensures NodesInv(ReadyStep(s, t))
  {
    if s.ops[t].ReadyCount? {
      ReadyCountAside(s, t);
      AsideKeeps(s, ReadyStep(s, t), t);
    } else if ReadyStep(s, t).ops[t] != Finished(Answer(true)) {
      CheckKeeps(s, t);
    } else {
      ReadyVersionAside(s, t);
      AsideKeeps(s, ReadyStep(s, t), t);
    }
  }

  /** The steps of a call that waits or looks. */
  lemma LooksKeep<V>(s: State<V>, t: Tid)
    requires NodesInv(s) && t < |s.ops| && Inv(StepOf(s, t))
    requires var op := s.ops[t]; Waiting(op) || op.ChangedCount? || op.ChangedArm? || op.Borrow?
    ensures NodesInv(StepOf(s, t))
  {
    if Waiting(s.ops[t]) {
      WaitAside(s, t);
    } else if s.ops[t].Borrow? {
      BorrowAside(s, t);
    } else {
      UseAside(s, t);
    }
    AsideKeeps(s, StepOf(s, t), t);
  }

  lemma StepKeeps<V>(s: State<V>, t: Tid)
    requires NodesInv(s) && t < |s.ops| && Inv(StepOf(s, t))
    ensures NodesInv(StepOf(s, t))
  {
    var op := s.ops[t];
    if op.SelectSwap? {
      SwapKeeps(s, t);
    } else if op.SelectClaim? {
      ClaimKeeps(s, t);
    } else if Sending(op) {
      SendAside(s, t);
      AsideKeeps(s, SendStep(s, t), t);
    } else if Registering(op) {
      RegistersKeep(s, t);
    } else if op.ReadyCount? || op.ReadyVersion? {
      ReadyKeeps(s, t);
    } else if Waiting(op) || op.ChangedCount? || op.ChangedArm? || op.Borrow? {
      LooksKeep(s, t);
    }
  }

  lemma NextKeeps<V>(s: State<V>, a: Action<V>)
    requires NodesInv(s)
    ensures NodesInv(Next(s, a))
  {
    if a.CloneSender? {
      MoreSendersKeep(s);
    } else if a.tid < |s.ops| {
      if a.Step? {
        NextInv(s, a);
        StepKeeps(s, a.tid);
      } else if a.Abort? {
        AbortKeeps(s, a.tid, a.n);
      } else {
        NextInv(s, a);
        CallKeeps(s, a);
      }
    }
  }

  lemma {:induction false} ReachableNodes<V>(threads: nat, owner: Tid, schedule: seq<Action<V>>)
    ensures NodesInv(Exec(Init<V>(threads, owner), schedule))
    decreases |schedule|
  {
    if schedule == [] {
      InitNodes<V>(threads, owner);
    } else {
      ReachableNodes(threads, owner, schedule[..|schedule| - 1]);
      NextKeeps(Exec(Init<V>(threads, owner), schedule[..|schedule| - 1]), schedule[|schedule| - 1]);
    }
  }

  // ------------------------------------------------------------------------------------
  // The theorems
  // ------------------------------------------------------------------------------------

  /** No select waiter is lost: each is on the stack, in the hand of a sender, aborted or claimed. */
  lemma EveryNodeHasItsPlace<V>(threads: nat, owner: Tid, schedule: seq<Action<V>>, n: nat)
    requires n < |Exec(Init<V>(threads, owner), schedule).nodes|
    ensures var s := Exec(Init<V>(threads, owner), schedule);
            s.nodes[n].aborted || s.nodes[n].claimed || n in s.stack || HeldBySome(s, n)
  {
    ReachableNodes(threads, owner, schedule);
    assert NodeFacts(Exec(Init<V>(threads, owner), schedule), n);
  }

  /** A claim leaves a token: the thread of a claimed node has one, or has taken one since the claim. */
  lemma ClaimLeavesAToken<V>(threads: nat, owner: Tid, schedule: seq<Action<V>>, n: nat)
    requires n < |Exec(Init<V>(threads, owner), schedule).nodes|
    requires Exec(Init<V>(threads, owner), schedule).nodes[n].claimed
    ensures Signalled(Exec(Init<V>(threads, owner), schedule), n)
  {
    ReachableNodes(threads, owner, schedule);
    assert NodeFacts(Exec(Init<V>(threads, owner), schedule), n);
  }

  /** With all senders idle, a node that has seen a change, or the end of the senders, is claimed unless aborted. */
  lemma OverdueIsClaimed<V>(threads: nat, owner: Tid, schedule: seq<Action<V>>, n: nat)
    requires n < |Exec(Init<V>(threads, owner), schedule).nodes|
    requires var s := Exec(Init<V>(threads, owner), schedule);
             NobodySends(s) && !s.nodes[n].aborted && Overdue(s, n)
    ensures var s := Exec(Init<V>(threads, owner), schedule);
            s.nodes[n].claimed && Signalled(s, n)
  {
    ReachableNodes(threads, owner, schedule);
    assert NodeFacts(Exec(Init<V>(threads, owner), schedule), n);
  }

  /**
   A select call on the arm of node `n`, blocked: after the node was pushed, `is_ready` has answered
   false on the arm's receiver, which has not been used otherwise; the node is not aborted; and
   its thread has no token, and has taken none since.
   */
  ghost predicate SelectAsleep<V>(s: State<V>, n: nat)
    requires Shaped(s) && n < |s.nodes|
  {
    var rx := s.receivers[s.nodes[n].r];
    n < rx.checked && rx.cursor == s.nodes[n].base && !s.nodes[n].aborted && !Signalled(s, n)
  }

  /**
   No lost wakeup in select. With no thread inside `send`, `mark_changed` or a last drop, a select
   call asleep on a watch arm has nothing to wake up for there: the version is the one its
   cursor stands at, and there are senders.
   */
  lemma SelectSleeperHasNothing<V>(threads: nat, owner: Tid, schedule: seq<Action<V>>, n: nat)
    requires n < |Exec(Init<V>(threads, owner), schedule).nodes|
    requires NobodySends(Exec(Init<V>(threads, owner), schedule))
    requires SelectAsleep(Exec(Init<V>(threads, owner), schedule), n)
    ensures var s := Exec(Init<V>(threads, owner), schedule);
            s.version == s.receivers[s.nodes[n].r].cursor && 0 < s.senders
  {
    var s := Exec(Init<V>(threads, owner), schedule);
    ReachableNodes(threads, owner, schedule);
    assert NodeFacts(s, n);
    if Overdue(s, n) {
      OverdueIsClaimed(threads, owner, schedule, n);
    }
  }

  // ------------------------------------------------------------------------------------
  // Who is on the list of blocked receivers
  // ------------------------------------------------------------------------------------

  /** Listed waiter `w` is the one that its thread is enlisted with. */
  ghost predicate InUse<V>(s: State<V>, w: Wid)
    requires Shaped(s)
  {
    w in s.list ==> w < |s.owners| && Enlisted(s.ops[s.owners[w]]) && s.ops[s.owners[w]].w == w
  }

  ghost predicate ListIsExact<V>(s: State<V>) {
    Shaped(s) && forall w: nat :: InUse(s, w)
  }

  /** A step that changes neither the list nor what its thread is enlisted with. */
  lemma ListStays<V>(s: State<V>, q: State<V>, t: Tid)
    requires ListIsExact(s) && Shaped(q) && t < |s.ops| == |q.ops| && q.list == s.list && q.owners == s.owners
    requires Enlisted(s.ops[t]) ==> Enlisted(q.ops[t]) && q.ops[t].w == s.ops[t].w
    requires forall u: nat | u < |s.ops| && u != t :: q.ops[u] == s.ops[u]
    ensures ListIsExact(q)
  {
    forall w: nat ensures InUse(q, w) { assert InUse(s, w); }
  }

  lemma WaitIsExact<V>(s: State<V>, t: Tid)
    requires ListIsExact(s) && t < |s.ops| && Waiting(s.ops[t])
    ensures ListIsExact(WaitStep(s, t))
  {
    if s.ops[t].AwaitRegister? || s.ops[t].AwaitUnregister? {
      forall w: nat ensures InUse(WaitStep(s, t), w) { assert InUse(s, w); }
    } else {
      ListStays(s, WaitStep(s, t), t);
    }
  }

  /** Nothing about the list, and nothing about who is enlisted, changes. */
  ghost predicate ListAside<V>(s: State<V>, q: State<V>, t: Tid) {
    && t < |s.ops| == |q.ops| && q.list == s.list && q.owners == s.owners
    && (Enlisted(s.ops[t]) ==> Enlisted(q.ops[t]) && q.ops[t].w == s.ops[t].w)
    && forall u: nat | u < |s.ops| && u != t :: q.ops[u] == s.ops[u]
  }

  lemma SendLeavesTheList<V>(s: State<V>, t: Tid)
    requires Shaped(s) && t < |s.ops| && Sending(s.ops[t])
    ensures ListAside(s, SendStep(s, t), t)
  {
  }

  lemma UseLeavesTheList<V>(s: State<V>, t: Tid)
    requires Shaped(s) && t < |s.ops| && !Sending(s.ops[t]) && !Waiting(s.ops[t])
    ensures ListAside(s, StepOf(s, t), t)
  {
  }

  lemma StepLeavesTheList<V>(s: State<V>, t: Tid)
    requires Shaped(s) && t < |s.ops| && !Waiting(s.ops[t])
    ensures ListAside(s, StepOf(s, t), t)
  {
    if Sending(s.ops[t]) { SendLeavesTheList(s, t); } else { UseLeavesTheList(s, t); }
  }

  lemma CallLeavesTheList<V>(s: State<V>, a: Action<V>)
    requires Shaped(s) && !a.CloneSender? && !a.Step? && a.tid < |s.ops|
    ensures ListAside(s, Next(s, a), a.tid)
  {
  }

  lemma NextIsExact<V>(s: State<V>, a: Action<V>)
    requires ListIsExact(s)
    ensures ListIsExact(Next(s, a))
  {
    if a.CloneSender? {
      forall w: nat ensures InUse(Next(s, a), w) { assert InUse(s, w); }
    } else if a.tid < |s.ops| {
      if a.Step? && Waiting(s.ops[a.tid]) {
        WaitIsExact(s, a.tid);
      } else {
        if a.Step? { StepLeavesTheList(s, a.tid); } else { CallLeavesTheList(s, a); }
        ListStays(s, Next(s, a), a.tid);
      }
    }
  }

  lemma {:induction false} AlwaysExact<V>(threads: nat, owner: Tid, schedule: seq<Action<V>>)
    ensures ListIsExact(Exec(Init<V>(threads, owner), schedule))
    decreases |schedule|
  {
    if schedule != [] {
      AlwaysExact(threads, owner, schedule[..|schedule| - 1]);
      NextIsExact(Exec(Init<V>(threads, owner), schedule[..|schedule| - 1]), schedule[|schedule| - 1]);
    }
  }

  /**
   The list holds exactly the waiters that some thread is enlisted with at that moment: none is
   missing, and none stays behind when its call returns.
   */
  lemma ListIsExactlyTheEnlisted<V>(threads: nat, owner: Tid, schedule: seq<Action<V>>, w: Wid)
    ensures var s := Exec(Init<V>(threads, owner), schedule);
            w in s.list <==> w < |s.owners| && Enlisted(s.ops[s.owners[w]]) && s.ops[s.owners[w]].w == w
  {
    AlwaysExact(threads, owner, schedule);
    ReachableInv(threads, owner, schedule);
    var s := Exec(Init<V>(threads, owner), schedule);
    assert InUse(s, w);
    if w < |s.owners| { assert Listed(s, s.owners[w]); }
  }

  // ------------------------------------------------------------------------------------
  // Which nodes are claimed
  // ------------------------------------------------------------------------------------

  predicate InWake<V>(op: Op<V>) {
    PastBump(op) || op.SelectClaim?
  }

  /** If nobody was inside an operation when the node was pushed, those who wake now have announced something since. */
  ghost predicate CleanFacts<V>(s: State<V>, n: nat)
    requires n < |s.nodes|
  {
    s.nodes[n].during == 0 && (s.nodes[n].claimed || exists u: nat :: u < |s.ops| && InWake(s.ops[u])) ==>
      Overdue(s, n)
  }

  ghost predicate AllClean<V>(s: State<V>) {
    forall n: nat | n < |s.nodes| :: CleanFacts(s, n)
  }

  /** What an action of `t` may do to the nodes, as far as claims are concerned. */
  ghost predicate ClaimsAside<V>(s: State<V>, q: State<V>, t: Tid) {
    && t < |s.ops| == |q.ops| && |s.nodes| <= |q.nodes| <= |s.nodes| + 1
    && (forall u: nat | u < |s.ops| && u != t :: q.ops[u] == s.ops[u])
    && s.version <= q.version && (s.senders == 0 ==> q.senders == 0)
    && (InWake(q.ops[t]) ==> InWake(s.ops[t]) || s.version < q.version || (s.senders != 0 && q.senders == 0))
    && (forall n: nat | n < |s.nodes| ::
          && q.nodes[n].at == s.nodes[n].at && q.nodes[n].open == s.nodes[n].open
          && q.nodes[n].during == s.nodes[n].during
          && (q.nodes[n].claimed ==> s.nodes[n].claimed || InWake(s.ops[t])))
    && (|s.nodes| < |q.nodes| ==>
          !q.nodes[|s.nodes|].claimed && q.nodes[|s.nodes|].during == Busy(s.ops) && !InWake(q.ops[t]))
  }

  lemma SendClaims<V>(s: State<V>, t: Tid)
    requires Shaped(s) && t < |s.ops| && Sending(s.ops[t])
    ensures ClaimsAside(s, SendStep(s, t), t)
  {
  }

  lemma WaitClaims<V>(s: State<V>, t: Tid)
    requires Shaped(s) && t < |s.ops| && Waiting(s.ops[t])
    ensures ClaimsAside(s, WaitStep(s, t), t)
  {
  }

  lemma RegisterClaims<V>(s: State<V>, t: Tid)
    requires Shaped(s) && t < |s.ops| && Registering(s.ops[t])
    ensures ClaimsAside(s, RegisterStep(s, t), t)
  {
  }

  lemma UseClaims<V>(s: State<V>, t: Tid)
    requires Shaped(s) && t < |s.ops| && !Sending(s.ops[t]) && !Waiting(s.ops[t])
    ensures ClaimsAside(s, StepOf(s, t), t)
  {
    if Registering(s.ops[t]) { RegisterClaims(s, t); } else { LooksClaim(s, t); }
  }

  lemma ReadyClaims<V>(s: State<V>, t: Tid)
    requires Shaped(s) && t < |s.ops| && (s.ops[t].ReadyCount? || s.ops[t].ReadyVersion?)
    ensures ClaimsAside(s, ReadyStep(s, t), t)
  {
  }

  lemma LooksClaim<V>(s: State<V>, t: Tid)
    requires Shaped(s) && t < |s.ops| && !Sending(s.ops[t]) && !Waiting(s.ops[t]) && !Registering(s.ops[t])
    ensures ClaimsAside(s, StepOf(s, t), t)
  {
    if s.ops[t].ReadyCount? || s.ops[t].ReadyVersion? { ReadyClaims(s, t); }
  }

  lemma CallClaims<V>(s: State<V>, a: Action<V>)
    requires Shaped(s) && !a.CloneSender? && !a.Step? && a.tid < |s.ops|
    ensures ClaimsAside(s, Next(s, a), a.tid)
  {
    if a.CallSend? || a.CallMark? || a.DropSender? || a.Abort? {
      SenderCallClaims(s, a);
    } else if a.Win? || a.CloneReceiver? || a.Return? || a.Stray? {
      HandleClaims(s, a);
    } else {
      OtherCallClaims(s, a);
    }
  }

  lemma SenderCallClaims<V>(s: State<V>, a: Action<V>)
    requires Shaped(s) && (a.CallSend? || a.CallMark? || a.DropSender? || a.Abort?) && a.tid < |s.ops|
    ensures ClaimsAside(s, Next(s, a), a.tid)
  {
  }

  lemma HandleClaims<V>(s: State<V>, a: Action<V>)
    requires Shaped(s) && (a.Win? || a.CloneReceiver? || a.Return? || a.Stray?) && a.tid < |s.ops|
    ensures ClaimsAside(s, Next(s, a), a.tid)
  {
  }

  lemma OtherCallClaims<V>(s: State<V>, a: Action<V>)
    requires Shaped(s) && !a.CallSend? && !a.CallMark? && !a.DropSender? && !a.Abort? && !a.CloneSender? && !a.Step?
    requires !a.Win? && !a.CloneReceiver? && !a.Return? && !a.Stray? && a.tid < |s.ops|
    ensures ClaimsAside(s, Next(s, a), a.tid)
  {
  }

  lemma StepClaims<V>(s: State<V>, t: Tid)
    requires Shaped(s) && t < |s.ops|
    ensures ClaimsAside(s, StepOf(s, t), t)
  {
    if Sending(s.ops[t]) {
      SendClaims(s, t);
    } else if Waiting(s.ops[t]) {
      WaitClaims(s, t);
    } else {
      UseClaims(s, t);
    }
  }

  lemma CleanStays<V>(s: State<V>, q: State<V>, t: Tid, n: nat)
    requires ClaimsAside(s, q, t) && n < |s.nodes| && CleanFacts(s, n)
    requires s.nodes[n].at <= s.version && (s.nodes[n].open || s.senders == 0)
    ensures CleanFacts(q, n)
  {
    if u: nat :| u < |q.ops| && InWake(q.ops[u]) {
      assert u != t ==> InWake(s.ops[u]);
    }
  }

  lemma CleanBegins<V>(s: State<V>, q: State<V>, t: Tid)
    requires ClaimsAside(s, q, t) && |s.nodes| < |q.nodes|
    ensures CleanFacts(q, |s.nodes|)
  {
    NobodyBusy(s.ops);
  }

  lemma CleanKeeps<V>(s: State<V>, q: State<V>, t: Tid)
    requires NodesInv(s) && AllClean(s) && ClaimsAside(s, q, t)
    ensures AllClean(q)
  {
    forall n: nat | n < |s.nodes| ensures CleanFacts(q, n) {
      assert NodeFacts(s, n) && CleanFacts(s, n);
      CleanStays(s, q, t, n);
    }
    if |s.nodes| < |q.nodes| { CleanBegins(s, q, t); }
  }

  lemma NextClean<V>(s: State<V>, a: Action<V>)
    requires NodesInv(s) && AllClean(s)
    ensures AllClean(Next(s, a))
  {
    var q := Next(s, a);
    if a.CloneSender? {
      forall n: nat | n < |q.nodes| ensures CleanFacts(q, n) { assert CleanFacts(s, n); }
    } else if a.tid < |s.ops| {
      if a.Step? { StepClaims(s, a.tid); } else { CallClaims(s, a); }
      CleanKeeps(s, q, a.tid);
    }
  }

  lemma {:induction false} ReachableClean<V>(threads: nat, owner: Tid, schedule: seq<Action<V>>)
    ensures AllClean(Exec(Init<V>(threads, owner), schedule))
    decreases |schedule|
  {
    if schedule != [] {
      ReachableClean(threads, owner, schedule[..|schedule| - 1]);
      ReachableNodes(threads, owner, schedule[..|schedule| - 1]);
      NextClean(Exec(Init<V>(threads, owner), schedule[..|schedule| - 1]), schedule[|schedule| - 1]);
    }
  }

  /**
   With all senders idle, an unaborted node that was pushed with no sender inside an operation is
   claimed if and only if the version has gone up since the push, or the senders left since. It
   is the push that counts, not the version that its receiver's cursor was armed at.
   */
  lemma ClaimedExactlyIfOverdue<V>(threads: nat, owner: Tid, schedule: seq<Action<V>>, n: nat)
    requires n < |Exec(Init<V>(threads, owner), schedule).nodes|
    requires var s := Exec(Init<V>(threads, owner), schedule);
             NobodySends(s) && !s.nodes[n].aborted && s.nodes[n].during == 0
    ensures var s := Exec(Init<V>(threads, owner), schedule);
            s.nodes[n].claimed <==> Overdue(s, n)
  {
    ReachableClean(threads, owner, schedule);
    ReachableNodes(threads, owner, schedule);
    var s := Exec(Init<V>(threads, owner), schedule);
    assert CleanFacts(s, n) && NodeFacts(s, n);
  }
}
