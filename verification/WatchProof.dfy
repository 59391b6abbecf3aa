/**
 The watch channel loses no wakeup, shows a receiver nothing older than what it was told
 about, and completes a select without parking if `is_ready` has said so, or if no sender was
 inside an operation when the arm was registered (module `WatchSelect` has the rest).
 */
module WatchProof {
  import opened Basics
  import opened Watch

  // ------------------------------------------------------------------------------------
  // The invariant
  // ------------------------------------------------------------------------------------

  /** A registered waiter is on the list and belongs to the thread that registered it. */
  ghost predicate Listed<V>(s: State<V>, t: Tid)
    requires Shaped(s) && t < |s.ops|
  {
    Enlisted(s.ops[t]) ==> s.owners[s.ops[t].w] == t && s.ops[t].w in s.list
  }

  /** This thread will still unpark the thread of waiter `w`, which is on the list. */
  ghost predicate Owes<V>(op: Op<V>, w: Wid) {
    op.Snapshot? || (op.Unpark? && w in op.rest)
  }

  ghost predicate OwesAt<V>(s: State<V>, u: Tid, w: Wid) {
    u < |s.ops| && Owes(s.ops[u], w)
  }

  /** About to park, or parked: an outdated baseline, or the end of the senders, is or will be signalled. */
  ghost predicate Owed<V>(s: State<V>, t: Tid)
    requires Shaped(s) && t < |s.ops|
  {
    var op := s.ops[t];
    && (op.AwaitRecheckCount? || op.AwaitPark? ==>
          op.c.baseline < s.version ==> s.tokens[t] || OwesAt(s, s.bumper[op.c.baseline], op.w))
    && (op.AwaitPark? ==> s.senders == 0 ==> s.tokens[t] || OwesAt(s, s.lastDropper, op.w))
  }

  /** A wait is on an own receiver and from a past version; a promised one has something to find. */
  ghost predicate WaitOk<V>(s: State<V>, t: Tid)
    requires Shaped(s) && t < |s.ops|
  {
    Waiting(s.ops[t]) ==>
      var c := s.ops[t].c;
      && c.baseline <= s.version
      && (c.promised ==>
            && (s.ops[t].AwaitVersion? || s.ops[t].AwaitCount?)
            && (c.baseline < s.version || s.senders == 0)
            && (s.ops[t].AwaitCount? ==> s.senders == 0))
  }

  ghost predicate CursorOk<V>(s: State<V>, r: Rid)
    requires Shaped(s) && r < |s.receivers|
  {
    var rx := s.receivers[r];
    var o := s.receivers[rx.origin];
    && rx.cursor <= s.version && rx.seen <= s.version
    && (rx.ready ==> rx.cursor < s.version || s.senders == 0)
    && rx.originEpoch <= o.epoch
    && (rx.originEpoch == o.epoch ==> o.cursor <= rx.cursor)
  }

  predicate Using<V>(op: Op<V>) {
    Waiting(op) || op.ChangedCount? || op.ChangedArm? || op.ReadyCount? || op.ReadyVersion? || Registering(op)
  }

  function ReceiverOf<V>(op: Op<V>): Rid
    requires Using(op)
  {
    if Waiting(op) then op.c.r else op.r
  }

  /** A receiver in use is used by its owner, and no clone of it is from the present epoch. */
  ghost predicate UseOk<V>(s: State<V>, t: Tid)
    requires Shaped(s) && t < |s.ops|
  {
    Using(s.ops[t]) ==>
      var r := ReceiverOf(s.ops[t]);
      && s.receivers[r].owner == t && !s.receivers[r].ready
      && (forall k: nat | k < |s.receivers| && s.receivers[k].origin == r && k != r ::
            s.receivers[k].originEpoch < s.receivers[r].epoch)
  }

  /** Something is pending for the receiver that node `n` was registered for. */
  ghost predicate Due<V>(s: State<V>, n: nat)
    requires n < |s.nodes|
  {
    s.nodes[n].base < s.version || s.senders == 0
  }

  /** A node pushed while no sender was inside an operation is claimed only once something is pending. */
  ghost predicate NodeOk<V>(s: State<V>, n: nat)
    requires n < |s.nodes|
  {
    s.nodes[n].base <= s.version && (s.nodes[n].during == 0 && s.nodes[n].claimed ==> Due(s, n))
  }

  /** Once a sender is past its bump, something is pending for each such node on the stack, or in its hand. */
  ghost predicate HandOk<V>(s: State<V>, t: Tid)
    requires Shaped(s) && t < |s.ops|
  {
    var op := s.ops[t];
    && (op.Snapshot? || op.Unpark? || op.SelectSwap? ==>
          forall n: nat | n in s.stack && s.nodes[n].during == 0 :: Due(s, n))
    && (op.SelectClaim? ==> forall n: nat | n in op.rest && s.nodes[n].during == 0 :: Due(s, n))
  }

  /** Every bump comes after the store it announces. */
  ghost predicate StampsOk<V>(s: State<V>)
    requires Shaped(s)
  {
    && (forall n: nat | n < s.version :: s.stamps[n] <= |s.stored|)
    && (forall t: nat | t < |s.ops| && s.ops[t].Bump? :: s.ops[t].stamp <= |s.stored|)
    && s.value == (if s.stored == [] then None else Some(s.stored[|s.stored| - 1]))
  }

  ghost predicate Inv<V>(s: State<V>) {
    && Shaped(s)
    && (s.senders == 0 ==> forall t: nat | t < |s.ops| :: !s.ops[t].Bump? && !s.ops[t].Store?)
    && StampsOk(s)
    && (forall t: nat | t < |s.ops| :: Listed(s, t))
    && (forall t: nat | t < |s.ops| :: Owed(s, t))
    && (forall t: nat | t < |s.ops| :: WaitOk(s, t))
    && (forall t: nat | t < |s.ops| :: UseOk(s, t))
    && (forall t: nat | t < |s.ops| :: HandOk(s, t))
    && (forall n: nat | n < |s.nodes| :: NodeOk(s, n))
    && (forall r: nat | r < |s.receivers| :: CursorOk(s, r))
  }

  lemma InitInv<V>(threads: nat, owner: Tid)
    ensures Inv(Init<V>(threads, owner))
  {
  }

  // ------------------------------------------------------------------------------------
  // What the others see of a step
  // ------------------------------------------------------------------------------------

  /**
   An action of `t`, seen by the other threads: their operations stay, tokens stay, a listed
   waiter stays listed unless `t` unregisters its own, and nobody who is owed an unpark by
   `t` is forgotten. A bump, and the last drop, leave `t` owing everybody.
   */
  ghost predicate Effect<V>(s: State<V>, q: State<V>, t: Tid) {
    && Shaped(s) && Shaped(q) && t < |s.ops| == |q.ops|
    && (forall u: nat | u < |s.ops| && u != t :: q.ops[u] == s.ops[u] && (s.tokens[u] ==> q.tokens[u]))
    && |s.owners| <= |q.owners|
    && (forall w: nat | w < |s.owners| :: q.owners[w] == s.owners[w])
    && (forall w: nat | w in s.list && !(s.ops[t].AwaitUnregister? && s.ops[t].w == w) :: w in q.list)
    && (forall w: nat | w in s.list && Owes(s.ops[t], w) :: Owes(q.ops[t], w) || q.tokens[s.owners[w]])
    && s.version <= q.version
    && (forall n: nat | n < s.version :: q.bumper[n] == s.bumper[n])
    && (forall n: nat | s.version <= n < q.version :: q.bumper[n] == t && q.ops[t].Snapshot?)
    && (s.senders == 0 ==> q.senders == 0 && q.lastDropper == s.lastDropper)
    && (s.senders != 0 && q.senders == 0 ==> q.lastDropper == t && q.ops[t].Snapshot?)
    && (q.senders == 0 ==> forall u: nat | u < |q.ops| :: !q.ops[u].Bump? && !q.ops[u].Store?)
  }

  lemma OthersListed<V>(s: State<V>, q: State<V>, t: Tid, u: Tid)
    requires Inv(s) && Effect(s, q, t) && u < |s.ops| && u != t
    ensures Listed(q, u)
  {
    assert Listed(s, u) && Listed(s, t);
  }

  lemma OthersOwed<V>(s: State<V>, q: State<V>, t: Tid, u: Tid)
    requires Inv(s) && Effect(s, q, t) && u < |s.ops| && u != t
    ensures Owed(q, u)
  {
    assert Owed(s, u) && Listed(s, u) && WaitOk(s, u);
  }

  lemma OthersWait<V>(s: State<V>, q: State<V>, t: Tid, u: Tid)
    requires Inv(s) && Effect(s, q, t) && u < |s.ops| && u != t
    ensures WaitOk(q, u)
  {
    assert WaitOk(s, u);
  }

  lemma SendEffect<V>(s: State<V>, t: Tid)
    requires Inv(s) && t < |s.ops| && Sending(s.ops[t])
    ensures Effect(s, SendStep(s, t), t) && StampsOk(SendStep(s, t))
  {
    if s.ops[t].Unpark? {
      UnparkEffect(s, t);
    } else if s.ops[t].Snapshot? {
      SnapshotEffect(s, t);
    } else if s.ops[t].SelectSwap? || s.ops[t].SelectClaim? {
      QuietEffect(s, SelectStep(s, t), t);
    } else {
      StoreEffect(s, t);
    }
  }

  lemma StoreEffect<V>(s: State<V>, t: Tid)
    requires Inv(s) && t < |s.ops| && (s.ops[t].Store? || s.ops[t].Bump?)
    ensures Effect(s, SendStep(s, t), t) && StampsOk(SendStep(s, t))
  {
  }

  lemma SnapshotEffect<V>(s: State<V>, t: Tid)
    requires Inv(s) && t < |s.ops| && s.ops[t].Snapshot?
    ensures Effect(s, SendStep(s, t), t) && StampsOk(SendStep(s, t))
  {
  }

  lemma UnparkEffect<V>(s: State<V>, t: Tid)
    requires Inv(s) && t < |s.ops| && s.ops[t].Unpark?
    ensures Effect(s, SendStep(s, t), t) && StampsOk(SendStep(s, t))
  {
    if s.ops[t].rest != [] {
      assert s.ops[t].rest == [s.ops[t].rest[0]] + s.ops[t].rest[1..];
    }
  }

  /** Neither about to store or bump, nor with plain waiters to unpark. */
  predicate Harmless<V>(op: Op<V>) {
    !op.Store? && !op.Bump? && !op.Snapshot? && !op.Unpark?
  }

  /** No list of plain waiters, no count, no version is involved. */
  lemma QuietEffect<V>(s: State<V>, q: State<V>, t: Tid)
    requires Inv(s) && Shaped(q) && t < |s.ops| == |q.ops|
    requires q == s.(ops := s.ops[t := q.ops[t]], receivers := q.receivers, tokens := q.tokens,
                     nodes := q.nodes, stack := q.stack, takes := q.takes)
    requires forall u: nat | u < |s.ops| && u != t && s.tokens[u] :: q.tokens[u]
    requires q.ops[t] == s.ops[t] || (Harmless(s.ops[t]) && Harmless(q.ops[t]))
    ensures Effect(s, q, t) && StampsOk(q)
  {
  }

  lemma CountEffect<V>(s: State<V>, a: Action<V>)
    requires Inv(s) && a.DropSender? && a.tid < |s.ops|
    ensures Effect(s, Next(s, a), a.tid) && StampsOk(Next(s, a))
  {
  }

  lemma CallEffect<V>(s: State<V>, a: Action<V>)
    requires Inv(s) && (a.CallSend? || a.CallMark?) && a.tid < |s.ops|
    ensures Effect(s, Next(s, a), a.tid) && StampsOk(Next(s, a))
  {
  }

  lemma EnlistEffect<V>(s: State<V>, t: Tid)
    requires Inv(s) && t < |s.ops| && s.ops[t].AwaitRegister?
    ensures Effect(s, AwaitStep(s, t), t) && StampsOk(AwaitStep(s, t))
  {
  }

  lemma DelistEffect<V>(s: State<V>, t: Tid)
    requires Inv(s) && t < |s.ops| && s.ops[t].AwaitUnregister?
    ensures Effect(s, EnlistedStep(s, t), t) && StampsOk(EnlistedStep(s, t))
  {
  }

  /** Taking one's own token. */
  lemma ParkEffect<V>(s: State<V>, t: Tid)
    requires Inv(s) && t < |s.ops| && s.ops[t].AwaitPark?
    ensures Effect(s, EnlistedStep(s, t), t) && StampsOk(EnlistedStep(s, t))
  {
  }

  lemma EnlistedEffect<V>(s: State<V>, t: Tid)
    requires Inv(s) && t < |s.ops| && Enlisted(s.ops[t])
    ensures Effect(s, EnlistedStep(s, t), t) && StampsOk(EnlistedStep(s, t))
  {
    if s.ops[t].AwaitUnregister? {
      DelistEffect(s, t);
    } else if s.ops[t].AwaitPark? {
      ParkEffect(s, t);
    } else {
      QuietEffect(s, EnlistedStep(s, t), t);
    }
  }

  lemma WaitEffect<V>(s: State<V>, t: Tid)
    requires Inv(s) && t < |s.ops| && Waiting(s.ops[t])
    ensures Effect(s, WaitStep(s, t), t) && StampsOk(WaitStep(s, t))
  {
    if Enlisted(s.ops[t]) {
      EnlistedEffect(s, t);
    } else if s.ops[t].AwaitRegister? {
      EnlistEffect(s, t);
    } else {
      QuietEffect(s, AwaitStep(s, t), t);
    }
  }

  lemma OtherStepEffect<V>(s: State<V>, t: Tid)
    requires Inv(s) && t < |s.ops| && !Sending(s.ops[t]) && !Waiting(s.ops[t])
    requires !s.ops[t].ReadyCount? && !s.ops[t].ReadyVersion? && !Registering(s.ops[t])
    ensures Effect(s, StepOf(s, t), t) && StampsOk(StepOf(s, t))
  {
    QuietEffect(s, StepOf(s, t), t);
  }

  lemma ReadyEffect<V>(s: State<V>, t: Tid)
    requires Inv(s) && t < |s.ops| && (s.ops[t].ReadyCount? || s.ops[t].ReadyVersion?)
    ensures Effect(s, ReadyStep(s, t), t) && StampsOk(ReadyStep(s, t))
  {
    QuietEffect(s, ReadyStep(s, t), t);
  }

  lemma RegisteringEffect<V>(s: State<V>, t: Tid)
    requires Inv(s) && t < |s.ops| && Registering(s.ops[t])
    ensures Effect(s, RegisterStep(s, t), t) && StampsOk(RegisterStep(s, t))
  {
    QuietEffect(s, RegisterStep(s, t), t);
  }

  lemma StepEffect<V>(s: State<V>, t: Tid)
    requires Inv(s) && t < |s.ops|
    ensures Effect(s, StepOf(s, t), t) && StampsOk(StepOf(s, t))
  {
    if Sending(s.ops[t]) {
      SendEffect(s, t);
    } else if Waiting(s.ops[t]) {
      WaitEffect(s, t);
    } else if s.ops[t].ReadyCount? || s.ops[t].ReadyVersion? {
      ReadyEffect(s, t);
    } else if Registering(s.ops[t]) {
      RegisteringEffect(s, t);
    } else {
      OtherStepEffect(s, t);
    }
  }

  /** Calls on receivers, and clones of them. */
  lemma UseEffect<V>(s: State<V>, a: Action<V>)
    requires Inv(s) && !a.CloneSender? && a.tid < |s.ops|
    requires a.CallChanged? || a.CallReady? || a.CallComplete? || a.CallBorrow? || a.CallRegister? || a.CloneReceiver?
    ensures Effect(s, Next(s, a), a.tid) && StampsOk(Next(s, a))
  {
    QuietEffect(s, Next(s, a), a.tid);
  }

  /** Returns, stray tokens and spurious wakeups, aborts and wins. */
  lemma AsideEffect<V>(s: State<V>, a: Action<V>)
    requires Inv(s) && !a.CloneSender? && a.tid < |s.ops|
    requires a.Return? || a.Stray? || a.Spurious? || a.Abort? || a.TakeToken? || a.Win?
    ensures Effect(s, Next(s, a), a.tid) && StampsOk(Next(s, a))
  {
    QuietEffect(s, Next(s, a), a.tid);
  }

  lemma NextEffect<V>(s: State<V>, a: Action<V>)
    requires Inv(s) && !a.CloneSender? && a.tid < |s.ops|
    ensures Effect(s, Next(s, a), a.tid) && StampsOk(Next(s, a))
  {
    match a
    case CallSend(_, _) => CallEffect(s, a);
    case CallMark(_) => CallEffect(s, a);
    case DropSender(_) => CountEffect(s, a);
    case Step(t) => StepEffect(s, t);
    case Return(_) => AsideEffect(s, a);
    case Stray(_) => AsideEffect(s, a);
    case Spurious(_) => AsideEffect(s, a);
    case Abort(_, _) => AsideEffect(s, a);
    case TakeToken(_) => AsideEffect(s, a);
    case Win(_, _) => AsideEffect(s, a);
    case _ => UseEffect(s, a);
  }

  // ------------------------------------------------------------------------------------
  // The moving thread's own part
  // ------------------------------------------------------------------------------------

  ghost predicate OwnPart<V>(q: State<V>, t: Tid)
    requires Shaped(q) && t < |q.ops|
  {
    Listed(q, t) && Owed(q, t) && WaitOk(q, t)
  }

  lemma OwnEnlisted<V>(s: State<V>, t: Tid)
    requires Inv(s) && t < |s.ops| && Enlisted(s.ops[t])
    ensures OwnPart(EnlistedStep(s, t), t)
  {
    assert Listed(s, t) && Owed(s, t) && WaitOk(s, t);
  }

  lemma OwnAwait<V>(s: State<V>, t: Tid)
    requires Inv(s) && t < |s.ops| && Waiting(s.ops[t]) && !Enlisted(s.ops[t])
    ensures OwnPart(AwaitStep(s, t), t)
  {
    assert WaitOk(s, t);
  }

  lemma OwnWait<V>(s: State<V>, t: Tid)
    requires Inv(s) && t < |s.ops| && Waiting(s.ops[t])
    ensures OwnPart(WaitStep(s, t), t)
  {
    if Enlisted(s.ops[t]) { OwnEnlisted(s, t); } else { OwnAwait(s, t); }
  }

  lemma OwnChanged<V>(s: State<V>, t: Tid)
    requires Inv(s) && t < |s.ops| && (s.ops[t].ChangedCount? || s.ops[t].ChangedArm?)
    ensures OwnPart(ChangedStep(s, t), t)
  {
  }

  /** A thread that is not waiting is owed nothing. */
  lemma NotWaiting<V>(q: State<V>, t: Tid)
    requires Shaped(q) && t < |q.ops| && !Waiting(q.ops[t])
    ensures OwnPart(q, t)
  {
  }

  lemma SendersDoNotWait<V>(s: State<V>, t: Tid)
    requires Inv(s) && t < |s.ops| && Sending(s.ops[t])
    ensures !Waiting(SendStep(s, t).ops[t])
  {
  }

  lemma ReadyDoesNotWait<V>(s: State<V>, t: Tid)
    requires Inv(s) && t < |s.ops| && (s.ops[t].ReadyCount? || s.ops[t].ReadyVersion?)
    ensures !Waiting(ReadyStep(s, t).ops[t])
  {
  }

  lemma RegisterDoesNotWait<V>(s: State<V>, t: Tid)
    requires Inv(s) && t < |s.ops| && Registering(s.ops[t])
    ensures !Waiting(RegisterStep(s, t).ops[t])
  {
  }

  lemma OwnOther<V>(s: State<V>, t: Tid)
    requires Inv(s) && t < |s.ops| && !Waiting(s.ops[t]) && !s.ops[t].ChangedCount? && !s.ops[t].ChangedArm?
    ensures !Waiting(StepOf(s, t).ops[t])
  {
    if Sending(s.ops[t]) {
      SendersDoNotWait(s, t);
    } else if s.ops[t].ReadyCount? || s.ops[t].ReadyVersion? {
      ReadyDoesNotWait(s, t);
    } else if Registering(s.ops[t]) {
      RegisterDoesNotWait(s, t);
    }
  }

  lemma OwnNotWaiting<V>(s: State<V>, t: Tid)
    requires Inv(s) && t < |s.ops| && !Waiting(s.ops[t])
    ensures OwnPart(StepOf(s, t), t)
  {
    if s.ops[t].ChangedCount? || s.ops[t].ChangedArm? {
      OwnChanged(s, t);
    } else {
      OwnOther(s, t);
      NotWaiting(StepOf(s, t), t);
    }
  }

  lemma OwnStep<V>(s: State<V>, t: Tid)
    requires Inv(s) && t < |s.ops|
    ensures OwnPart(StepOf(s, t), t)
  {
    if Waiting(s.ops[t]) { OwnWait(s, t); } else { OwnNotWaiting(s, t); }
  }

  lemma OwnComplete<V>(s: State<V>, t: Tid, r: Rid)
    requires Inv(s) && t < |s.ops|
    ensures OwnPart(Next(s, CallComplete(t, r)), t)
  {
    assert OwnPart(s, t);
    if MayUse(s, t, r) { assert CursorOk(s, r); }
  }

  /** The other calls do not start a wait. */
  lemma OwnOtherCall<V>(s: State<V>, a: Action<V>)
    requires Inv(s) && !a.CloneSender? && !a.Step? && !a.CallComplete? && !a.Spurious? && a.tid < |s.ops|
    ensures OwnPart(Next(s, a), a.tid)
  {
    assert OwnPart(s, a.tid);
    assert Waiting(Next(s, a).ops[a.tid]) ==> Next(s, a).ops[a.tid] == s.ops[a.tid];
  }

  lemma OwnCall<V>(s: State<V>, a: Action<V>)
    requires Inv(s) && !a.CloneSender? && !a.Step? && a.tid < |s.ops|
    ensures OwnPart(Next(s, a), a.tid)
  {
    assert OwnPart(s, a.tid);
    if a.CallComplete? {
      OwnComplete(s, a.tid, a.r);
    } else if a.Spurious? {
      OwnSpurious(s, a.tid);
    } else {
      OwnOtherCall(s, a);
    }
  }

  lemma OwnSpurious<V>(s: State<V>, t: Tid)
    requires Inv(s) && t < |s.ops|
    ensures OwnPart(Next(s, Spurious(t)), t)
  {
    assert OwnPart(s, t);
  }

  // ------------------------------------------------------------------------------------
  // The receivers
  // ------------------------------------------------------------------------------------

  /**
   An action of `t`, seen by the receivers: who owns what and comes from where stays; only
   `t`'s own receivers get used; clones are made of `t`'s receivers only.
   */
  ghost predicate ReceiversMoved<V>(s: State<V>, q: State<V>, t: Tid) {
    && Shaped(s) && Shaped(q) && |s.receivers| <= |q.receivers|
    && (forall k: nat | k < |s.receivers| :: KeptReceiver(s.receivers[k], q.receivers[k], t))
    && (forall k: nat | |s.receivers| <= k < |q.receivers| ::
          q.receivers[k].origin < |s.receivers| && s.receivers[q.receivers[k].origin].owner == t)
  }

  ghost predicate KeptReceiver(a: Receiver, b: Receiver, t: Tid) {
    && b.owner == a.owner && b.origin == a.origin && b.originEpoch == a.originEpoch
    && a.epoch <= b.epoch && (a.owner != t ==> b.epoch == a.epoch)
  }

  /** The receiver invariant after an action: every cursor is in order, and nobody else's use is disturbed. */
  ghost predicate ReceiverPart<V>(s: State<V>, q: State<V>, t: Tid)
    requires Shaped(s) && Shaped(q) && t < |s.ops| == |q.ops|
  {
    && ReceiversMoved(s, q, t)
    && (forall r: nat | r < |q.receivers| :: CursorOk(q, r))
    && (forall u: nat | u < |s.ops| && u != t && Using(s.ops[u]) :: !q.receivers[ReceiverOf(s.ops[u])].ready)
    && UseOk(q, t)
  }

  lemma OthersUse<V>(s: State<V>, q: State<V>, t: Tid, u: Tid)
    requires Inv(s) && Effect(s, q, t) && ReceiverPart(s, q, t) && u < |s.ops| && u != t
    ensures UseOk(q, u)
  {
    assert UseOk(s, u);
    if Using(s.ops[u]) {
      var r := ReceiverOf(s.ops[u]);
      assert KeptReceiver(s.receivers[r], q.receivers[r], t);
      forall k: nat | k < |q.receivers| && q.receivers[k].origin == r && k != r
        ensures q.receivers[k].originEpoch < q.receivers[r].epoch
      {
        if k < |s.receivers| { assert KeptReceiver(s.receivers[k], q.receivers[k], t); }
      }
    }
  }

  /** Nothing happens to the receivers. */
  lemma ReceiversStay<V>(s: State<V>, q: State<V>, t: Tid)
    requires Inv(s) && Shaped(q) && t < |s.ops| == |q.ops|
    requires q.receivers == s.receivers && s.version <= q.version && (s.senders == 0 ==> q.senders == 0)
    requires Using(q.ops[t]) ==> Using(s.ops[t]) && ReceiverOf(q.ops[t]) == ReceiverOf(s.ops[t])
    ensures ReceiverPart(s, q, t)
  {
    forall r: nat | r < |q.receivers| ensures CursorOk(q, r) { assert CursorOk(s, r); }
    UsersAreUnready(s);
    assert UseOk(s, t);
  }

  lemma UsedCursor<V>(s: State<V>, q: State<V>, r: Rid, k: Rid)
    requires Inv(s) && Shaped(q) && r < |s.receivers| && k < |s.receivers|
    requires q.receivers == s.receivers[r := Used(s.receivers[r])] && q.version == s.version && q.senders == s.senders
    ensures CursorOk(q, k)
  {
    assert CursorOk(s, k) && CursorOk(s, r);
  }

  lemma UsersAreUnready<V>(s: State<V>)
    requires Inv(s)
    ensures forall u: nat | u < |s.ops| && Using(s.ops[u]) :: !s.receivers[ReceiverOf(s.ops[u])].ready
  {
    forall u: nat | u < |s.ops| && Using(s.ops[u]) ensures !s.receivers[ReceiverOf(s.ops[u])].ready {
      assert UseOk(s, u);
    }
  }

  /** All clones of the receiver were made in earlier epochs. */
  lemma UseIsFresh<V>(s: State<V>, q: State<V>, t: Tid, r: Rid)
    requires Inv(s) && Shaped(q) && MayUse(s, t, r) && |q.ops| == |s.ops|
    requires q.receivers == s.receivers[r := Used(s.receivers[r])]
    requires Using(q.ops[t]) ==> ReceiverOf(q.ops[t]) == r
    ensures UseOk(q, t)
  {
    forall k: nat | k < |q.receivers| && q.receivers[k].origin == r && k != r
      ensures q.receivers[k].originEpoch < q.receivers[r].epoch
    {
      assert CursorOk(s, k);
    }
  }

  /** A use of receiver `r` begins, and its epoch ends. */
  lemma UseBegins<V>(s: State<V>, q: State<V>, t: Tid, r: Rid)
    requires Inv(s) && Shaped(q) && MayUse(s, t, r) && |q.ops| == |s.ops|
    requires q == s.(receivers := s.receivers[r := Used(s.receivers[r])], ops := s.ops[t := q.ops[t]])
    requires Using(q.ops[t]) ==> ReceiverOf(q.ops[t]) == r
    ensures ReceiverPart(s, q, t)
  {
    forall k: nat | k < |q.receivers| ensures CursorOk(q, k) { UsedCursor(s, q, r, k); }
    UsersAreUnready(s);
    UseIsFresh(s, q, t, r);
  }

  /** A receiver in use is armed, disarmed, or set to the version just seen. */
  lemma UseContinues<V>(s: State<V>, q: State<V>, t: Tid, rx: Receiver)
    requires Inv(s) && Shaped(q) && t < |s.ops| == |q.ops| && Using(s.ops[t])
    requires var r := ReceiverOf(s.ops[t]);
             && q == s.(receivers := s.receivers[r := rx], ops := s.ops[t := q.ops[t]])
             && rx == s.receivers[r].(cursor := rx.cursor, armed := rx.armed, seen := rx.seen, checked := rx.checked)
             && (rx.cursor == s.receivers[r].cursor || rx.cursor == s.version)
             && (rx.seen == s.receivers[r].seen || rx.seen == s.version)
             && (Using(q.ops[t]) ==> ReceiverOf(q.ops[t]) == r)
    ensures ReceiverPart(s, q, t)
  {
    var r := ReceiverOf(s.ops[t]);
    assert UseOk(s, t) && CursorOk(s, r);
    forall k: nat | k < |q.receivers| ensures CursorOk(q, k) { assert CursorOk(s, k); }
    forall u: nat | u < |s.ops| ensures Using(s.ops[u]) ==> !q.receivers[ReceiverOf(s.ops[u])].ready {
      assert UseOk(s, u);
    }
  }

  /** A receiver, and perhaps its original, turn out to be ready; its owner is done with it. */
  lemma TurnsReady<V>(s: State<V>, q: State<V>, t: Tid, r: Rid)
    requires Inv(s) && t < |s.ops| == |q.ops| && r < |s.receivers| && s.receivers[r].owner == t
    requires s.receivers[r].cursor < s.version || s.senders == 0
    requires q == MarkReady(s, r).(ops := s.ops[t := q.ops[t]]) && (q.ops[t].Finished? || q.ops[t].Idle?)
    ensures Shaped(q) && ReceiverPart(s, q, t)
  {
    TurnedCursors(s, q, t, r);
    forall u: nat | u < |s.ops| && u != t ensures Using(s.ops[u]) ==> !q.receivers[ReceiverOf(s.ops[u])].ready {
      assert UseOk(s, u);
    }
  }

  lemma TurnedCursors<V>(s: State<V>, q: State<V>, t: Tid, r: Rid)
    requires Inv(s) && t < |s.ops| == |q.ops| && r < |s.receivers| && s.receivers[r].owner == t
    requires s.receivers[r].cursor < s.version || s.senders == 0
    requires q == MarkReady(s, r).(ops := s.ops[t := q.ops[t]]) && (q.ops[t].Finished? || q.ops[t].Idle?)
    ensures Shaped(q) && forall k: nat | k < |q.receivers| :: CursorOk(q, k)
  {
    assert CursorOk(s, r);
    forall k: nat | k < |q.receivers| ensures CursorOk(q, k) { assert CursorOk(s, k); }
  }

  /** A clone starts where the original stands. */
  lemma CloneKeeps<V>(s: State<V>, t: Tid, r: Rid, owner: Tid)
    requires Inv(s) && MayUse(s, t, r)
    ensures ReceiverPart(s, Next(s, CloneReceiver(t, r, owner)), t)
  {
    var q := Next(s, CloneReceiver(t, r, owner));
    assert CursorOk(s, r);
    forall k: nat | k < |q.receivers| ensures CursorOk(q, k) { if k < |s.receivers| { assert CursorOk(s, k); } }
    UsersAreUnready(s);
  }

  lemma ReadyCountKeeps<V>(s: State<V>, t: Tid)
    requires Inv(s) && t < |s.ops| && s.ops[t].ReadyCount?
    ensures ReceiverPart(s, ReadyStep(s, t), t)
  {
    var q := ReadyStep(s, t);
    assert UseOk(s, t);
    if s.senders == 0 { TurnsReady(s, q, t, s.ops[t].r); } else { ReceiversStay(s, q, t); }
  }

  lemma AnswersTrue<V>(s: State<V>, t: Tid)
    requires Inv(s) && t < |s.ops| && s.ops[t].ReadyVersion?
    requires s.receivers[s.ops[t].r].armed && s.receivers[s.ops[t].r].cursor != s.version
    ensures ReceiverPart(s, ReadyStep(s, t), t)
  {
    var r := s.ops[t].r;
    assert CursorOk(s, r) && UseOk(s, t);
    assert SetReceiver(s, r, s.receivers[r]) == s;
    TurnsReady(s, SetOp(MarkReady(s, r), t, Finished(Answer(true))), t, r);
  }

  lemma AnswersFalse<V>(s: State<V>, t: Tid)
    requires Inv(s) && t < |s.ops| && s.ops[t].ReadyVersion?
    requires !(s.receivers[s.ops[t].r].armed && s.receivers[s.ops[t].r].cursor != s.version)
    ensures ReceiverPart(s, ReadyStep(s, t), t)
  {
    var r := s.ops[t].r;
    var rx := Armed(s.receivers[r], s.version).(checked := |s.nodes|);
    UseContinues(s, SetOp(SetReceiver(s, r, rx), t, Finished(Answer(false))), t, rx);
  }

  lemma ReadyVersionKeeps<V>(s: State<V>, t: Tid)
    requires Inv(s) && t < |s.ops| && s.ops[t].ReadyVersion?
    ensures ReceiverPart(s, ReadyStep(s, t), t)
  {
    var rx := s.receivers[s.ops[t].r];
    if rx.armed && rx.cursor != s.version { AnswersTrue(s, t); } else { AnswersFalse(s, t); }
  }

  lemma ChangedKeeps<V>(s: State<V>, t: Tid)
    requires Inv(s) && t < |s.ops| && (s.ops[t].ChangedCount? || s.ops[t].ChangedArm?)
    ensures ReceiverPart(s, ChangedStep(s, t), t)
  {
    var r := s.ops[t].r;
    UseContinues(s, ChangedStep(s, t), t, ChangedStep(s, t).receivers[r]);
  }

  lemma AwaitKeeps<V>(s: State<V>, t: Tid)
    requires Inv(s) && t < |s.ops| && (s.ops[t].AwaitVersion? || s.ops[t].AwaitCount?)
    ensures ReceiverPart(s, AwaitStep(s, t), t)
  {
    UseContinues(s, AwaitStep(s, t), t, AwaitStep(s, t).receivers[s.ops[t].c.r]);
  }

  lemma WaitKeeps<V>(s: State<V>, t: Tid)
    requires Inv(s) && t < |s.ops| && Waiting(s.ops[t])
    ensures ReceiverPart(s, WaitStep(s, t), t)
  {
    if Enlisted(s.ops[t]) {
      ReceiversStay(s, EnlistedStep(s, t), t);
    } else if s.ops[t].AwaitRegister? {
      ReceiversStay(s, AwaitStep(s, t), t);
    } else {
      AwaitKeeps(s, t);
    }
  }

  lemma RegisterKeeps<V>(s: State<V>, t: Tid)
    requires Inv(s) && t < |s.ops| && Registering(s.ops[t])
    ensures ReceiverPart(s, RegisterStep(s, t), t)
  {
    var q := RegisterStep(s, t);
    if s.ops[t].RegisterVersion? {
      UseContinues(s, q, t, q.receivers[s.ops[t].r]);
    } else {
      ReceiversStay(s, q, t);
    }
  }

  lemma WinKeeps<V>(s: State<V>, t: Tid, n: nat)
    requires Inv(s) && t < |s.ops|
    ensures ReceiverPart(s, Next(s, Win(t, n)), t)
  {
    var q := Next(s, Win(t, n));
    if n < |s.nodes| && MayUse(s, t, s.nodes[n].r) && Promises(s, n) {
      assert NodeOk(s, n);
      assert q.ops == s.ops[t := q.ops[t]];
      TurnsReady(s, q, t, s.nodes[n].r);
    } else {
      ReceiversStay(s, q, t);
    }
  }

  lemma OtherStepKeeps<V>(s: State<V>, t: Tid)
    requires Inv(s) && t < |s.ops| && !Using(s.ops[t])
    ensures ReceiverPart(s, StepOf(s, t), t)
  {
    ReceiversStay(s, StepOf(s, t), t);
  }

  lemma UseStepKeeps<V>(s: State<V>, t: Tid)
    requires Inv(s) && t < |s.ops| && Using(s.ops[t]) && !Waiting(s.ops[t])
    ensures ReceiverPart(s, StepOf(s, t), t)
  {
    var op := s.ops[t];
    if op.ChangedCount? || op.ChangedArm? {
      ChangedKeeps(s, t);
    } else if op.ReadyCount? {
      ReadyCountKeeps(s, t);
    } else if op.ReadyVersion? {
      ReadyVersionKeeps(s, t);
    } else {
      RegisterKeeps(s, t);
    }
  }

  lemma StepKeepsReceivers<V>(s: State<V>, t: Tid)
    requires Inv(s) && t < |s.ops|
    ensures ReceiverPart(s, StepOf(s, t), t)
  {
    if Waiting(s.ops[t]) {
      WaitKeeps(s, t);
    } else if Using(s.ops[t]) {
      UseStepKeeps(s, t);
    } else {
      OtherStepKeeps(s, t);
    }
  }

  lemma CallKeepsReceivers<V>(s: State<V>, a: Action<V>)
    requires Inv(s) && (a.CallChanged? || a.CallReady? || a.CallComplete? || a.CallRegister?) && a.tid < |s.ops|
    ensures ReceiverPart(s, Next(s, a), a.tid)
  {
    if MayUse(s, a.tid, a.r) {
      UseBegins(s, Next(s, a), a.tid, a.r);
    } else {
      ReceiversStay(s, Next(s, a), a.tid);
    }
  }

  lemma CloneKeepsReceivers<V>(s: State<V>, a: Action<V>)
    requires Inv(s) && a.CloneReceiver? && a.tid < |s.ops|
    ensures ReceiverPart(s, Next(s, a), a.tid)
  {
    if MayUse(s, a.tid, a.r) {
      CloneKeeps(s, a.tid, a.r, a.owner);
    } else {
      ReceiversStay(s, Next(s, a), a.tid);
    }
  }

  lemma NextKeepsReceivers<V>(s: State<V>, a: Action<V>)
    requires Inv(s) && !a.CloneSender? && a.tid < |s.ops|
    ensures ReceiverPart(s, Next(s, a), a.tid)
  {
    match a
    case Step(t) => StepKeepsReceivers(s, t);
    case CallChanged(_, _) => CallKeepsReceivers(s, a);
    case CallReady(_, _) => CallKeepsReceivers(s, a);
    case CallComplete(_, _) => CallKeepsReceivers(s, a);
    case CallRegister(_, _) => CallKeepsReceivers(s, a);
    case CloneReceiver(_, _, _) => CloneKeepsReceivers(s, a);
    case Win(t, n) => WinKeeps(s, t, n);
    case _ => AsideKeepsReceivers(s, a);
  }

  /** Other actions leave the receivers alone and begin no use. */
  lemma AsideKeepsReceivers<V>(s: State<V>, a: Action<V>)
    requires Inv(s) && !a.CloneSender? && a.tid < |s.ops|
    requires a.CallSend? || a.CallMark? || a.DropSender? || a.CallBorrow? || a.Abort? || a.Spurious? || a.Stray?
             || a.Return? || a.TakeToken?
    ensures ReceiverPart(s, Next(s, a), a.tid)
  {
    ReceiversStay(s, Next(s, a), a.tid);
  }

  // ------------------------------------------------------------------------------------
  // The select waiters
  // ------------------------------------------------------------------------------------

  lemma {:induction false} NobodyBusy<V>(ops: seq<Op<V>>)
    ensures Busy(ops) == 0 ==> forall t: nat | t < |ops| :: !Sending(ops[t])
  {
    if ops != [] {
      NobodyBusy(ops[1..]);
      assert forall t: nat | 0 < t < |ops| :: ops[t] == ops[1..][t - 1];
    }
  }

  /** Past its bump, and with the stack not yet taken. */
  predicate PastBump<V>(op: Op<V>) {
    op.Snapshot? || op.Unpark? || op.SelectSwap?
  }

  ghost predicate NodePart<V>(q: State<V>)
    requires Shaped(q)
  {
    (forall n: nat | n < |q.nodes| :: NodeOk(q, n)) && (forall t: nat | t < |q.ops| :: HandOk(q, t))
  }

  /** Time passes; the stack stays; only a bump, or the last drop, brings a thread past its bump. */
  lemma NodesStay<V>(s: State<V>, q: State<V>, t: Tid)
    requires Inv(s) && Shaped(q) && t < |s.ops| == |q.ops| && q.ops == s.ops[t := q.ops[t]]
    requires q.nodes == s.nodes && q.stack == s.stack
    requires s.version <= q.version && (s.senders == 0 ==> q.senders == 0)
    requires PastBump(q.ops[t]) ==> PastBump(s.ops[t]) || s.version < q.version || q.senders == 0
    requires q.ops[t].SelectClaim? ==> q.ops[t] == s.ops[t]
    ensures NodePart(q)
  {
    forall n: nat | n < |q.nodes| ensures NodeOk(q, n) { assert NodeOk(s, n); }
    forall u: nat | u < |q.ops| ensures HandOk(q, u) {
      assert HandOk(s, u);
      forall n: nat | n in q.stack ensures s.nodes[n].base <= s.version { assert NodeOk(s, n); }
    }
  }

  lemma ClaimNodes<V>(s: State<V>, t: Tid)
    requires Inv(s) && t < |s.ops| && (s.ops[t].SelectSwap? || s.ops[t].SelectClaim?)
    ensures NodePart(SelectStep(s, t))
  {
    var q := SelectStep(s, t);
    assert HandOk(s, t);
    if s.ops[t].SelectClaim? && s.ops[t].rest != [] {
      assert s.ops[t].rest == [s.ops[t].rest[0]] + s.ops[t].rest[1..];
    }
    forall n: nat | n < |q.nodes| ensures NodeOk(q, n) && (Due(s, n) ==> Due(q, n)) { assert NodeOk(s, n); }
    forall u: nat | u < |q.ops| ensures HandOk(q, u) { assert HandOk(s, u); }
  }

  lemma PushNode<V>(s: State<V>, t: Tid)
    requires Inv(s) && t < |s.ops| && s.ops[t].RegisterPush?
    ensures NodePart(RegisterStep(s, t))
  {
    var q := RegisterStep(s, t);
    NobodyBusy(s.ops);
    assert CursorOk(s, s.ops[t].r);
    forall n: nat | n < |q.nodes| ensures NodeOk(q, n) { if n < |s.nodes| { assert NodeOk(s, n); } }
    forall u: nat | u < |q.ops| ensures HandOk(q, u) { assert HandOk(s, u); }
  }

  lemma AbortNode<V>(s: State<V>, t: Tid, n: nat)
    requires Inv(s) && t < |s.ops|
    ensures NodePart(Next(s, Abort(t, n)))
  {
    var q := Next(s, Abort(t, n));
    forall m: nat | m < |q.nodes| ensures NodeOk(q, m) { assert NodeOk(s, m); }
    forall u: nat | u < |q.ops| ensures HandOk(q, u) { assert HandOk(s, u); }
  }

  lemma SendNodes<V>(s: State<V>, t: Tid)
    requires Inv(s) && t < |s.ops| && Sending(s.ops[t])
    ensures NodePart(SendStep(s, t))
  {
    if s.ops[t].SelectSwap? || s.ops[t].SelectClaim? {
      ClaimNodes(s, t);
    } else {
      NodesStay(s, SendStep(s, t), t);
    }
  }

  lemma WaitNodes<V>(s: State<V>, t: Tid)
    requires Inv(s) && t < |s.ops| && Waiting(s.ops[t])
    ensures NodePart(WaitStep(s, t))
  {
    if Enlisted(s.ops[t]) {
      NodesStay(s, EnlistedStep(s, t), t);
    } else {
      NodesStay(s, AwaitStep(s, t), t);
    }
  }

  lemma UseNodes<V>(s: State<V>, t: Tid)
    requires Inv(s) && t < |s.ops|
    ensures s.ops[t].ChangedCount? || s.ops[t].ChangedArm? ==> NodePart(ChangedStep(s, t))
    ensures s.ops[t].ReadyCount? || s.ops[t].ReadyVersion? ==> NodePart(ReadyStep(s, t))
  {
    if s.ops[t].ChangedCount? || s.ops[t].ChangedArm? { NodesStay(s, ChangedStep(s, t), t); }
    if s.ops[t].ReadyCount? || s.ops[t].ReadyVersion? { NodesStay(s, ReadyStep(s, t), t); }
  }

  lemma RegisterNodes<V>(s: State<V>, t: Tid)
    requires Inv(s) && t < |s.ops| && Registering(s.ops[t])
    ensures NodePart(RegisterStep(s, t))
  {
    if s.ops[t].RegisterPush? { PushNode(s, t); } else { NodesStay(s, RegisterStep(s, t), t); }
  }

  lemma BorrowNodes<V>(s: State<V>, t: Tid)
    requires Inv(s) && t < |s.ops| && s.ops[t].Borrow?
    ensures NodePart(SetOp(s, t, Finished(Borrowed(s.value, |s.stored|))))
  {
    NodesStay(s, SetOp(s, t, Finished(Borrowed(s.value, |s.stored|))), t);
  }

  lemma StepNodes<V>(s: State<V>, t: Tid)
    requires Inv(s) && t < |s.ops|
    ensures NodePart(StepOf(s, t))
  {
    var op := s.ops[t];
    if Sending(op) {
      SendNodes(s, t);
    } else if Waiting(op) {
      WaitNodes(s, t);
    } else if Registering(op) {
      RegisterNodes(s, t);
    } else if op.Borrow? {
      BorrowNodes(s, t);
    } else {
      UseNodes(s, t);
    }
  }

  /** Calls, clones, returns, stray tokens: a call does not start past the bump, except the last drop. */
  lemma CallNodes<V>(s: State<V>, a: Action<V>)
    requires Inv(s) && (a.CallSend? || a.CallMark? || a.DropSender? || a.Return? || a.Spurious? || a.Stray?
             || a.TakeToken?)
    requires a.tid < |s.ops|
    ensures NodePart(Next(s, a))
  {
    NodesStay(s, Next(s, a), a.tid);
  }

  lemma UseCallNodes<V>(s: State<V>, a: Action<V>)
    requires Inv(s) && !a.CloneSender? && a.tid < |s.ops|
    requires a.CallChanged? || a.CallReady? || a.CallComplete? || a.CallBorrow? || a.CallRegister?
             || a.CloneReceiver? || a.Win?
    ensures NodePart(Next(s, a))
  {
    NodesStay(s, Next(s, a), a.tid);
  }

  lemma NextNodes<V>(s: State<V>, a: Action<V>)
    requires Inv(s) && !a.CloneSender? && a.tid < |s.ops|
    ensures NodePart(Next(s, a))
  {
    if a.Step? {
      StepNodes(s, a.tid);
    } else if a.Abort? {
      AbortNode(s, a.tid, a.n);
    } else if a.CallSend? || a.CallMark? || a.DropSender? || a.Return? || a.Spurious? || a.Stray?
              || a.TakeToken? {
      CallNodes(s, a);
    } else {
      UseCallNodes(s, a);
    }
  }

  // ------------------------------------------------------------------------------------
  // Every step keeps the invariant
  // ------------------------------------------------------------------------------------

  lemma CountKeeps<V>(s: State<V>)
    requires Inv(s) && 0 < s.senders
    ensures Inv(s.(senders := s.senders + 1))
  {
    var q := s.(senders := s.senders + 1);
    forall t: nat | t < |q.ops| ensures Listed(q, t) && Owed(q, t) && WaitOk(q, t) && UseOk(q, t) {
      assert Listed(s, t) && Owed(s, t) && WaitOk(s, t) && UseOk(s, t);
    }
    forall r: nat | r < |q.receivers| ensures CursorOk(q, r) { assert CursorOk(s, r); }
    forall n: nat | n < |q.nodes| ensures NodeOk(q, n) { assert NodeOk(s, n); }
    forall t: nat | t < |q.ops| ensures HandOk(q, t) { assert HandOk(s, t); }
  }

  lemma NextInv<V>(s: State<V>, a: Action<V>)
    requires Inv(s)
    ensures Inv(Next(s, a))
  {
    var q := Next(s, a);
    if a.CloneSender? {
      if 0 < s.senders { CountKeeps(s); }
    } else if a.tid < |s.ops| {
      NextEffect(s, a);
      NextKeepsReceivers(s, a);
      NextNodes(s, a);
      if a.Step? { OwnStep(s, a.tid); } else { OwnCall(s, a); }
      Assembled(s, q, a.tid);
    }
  }

  lemma Assembled<V>(s: State<V>, q: State<V>, t: Tid)
    requires Inv(s) && Effect(s, q, t) && StampsOk(q) && ReceiverPart(s, q, t) && OwnPart(q, t) && NodePart(q)
    ensures Inv(q)
  {
    forall u: nat | u < |q.ops| ensures Listed(q, u) && Owed(q, u) && WaitOk(q, u) && UseOk(q, u) {
      if u != t {
        OthersListed(s, q, t, u);
        OthersOwed(s, q, t, u);
        OthersWait(s, q, t, u);
        OthersUse(s, q, t, u);
      }
    }
  }

  lemma {:induction false} ReachableInv<V>(threads: nat, owner: Tid, schedule: seq<Action<V>>)
    ensures Inv(Exec(Init<V>(threads, owner), schedule))
    decreases |schedule|
  {
    if schedule == [] {
      InitInv<V>(threads, owner);
    } else {
      ReachableInv(threads, owner, schedule[..|schedule| - 1]);
      NextInv(Exec(Init<V>(threads, owner), schedule[..|schedule| - 1]), schedule[|schedule| - 1]);
    }
  }

  // ------------------------------------------------------------------------------------
  // The theorems
  // ------------------------------------------------------------------------------------

  predicate Asleep<V>(s: State<V>, t: Tid)
    requires t < |s.ops| == |s.tokens|
  {
    s.ops[t].AwaitPark? && !s.tokens[t]
  }

  lemma SleeperIsOwed<V>(s: State<V>, t: Tid)
    requires Inv(s) && t < |s.ops| && Asleep(s, t)
    ensures s.ops[t].c.baseline <= s.version
    ensures s.ops[t].c.baseline < s.version ==> OwesAt(s, s.bumper[s.ops[t].c.baseline], s.ops[t].w)
    ensures s.senders == 0 ==> OwesAt(s, s.lastDropper, s.ops[t].w)
  {
    assert Owed(s, t) && WaitOk(s, t);
  }

  lemma SleeperHasNothing<V>(s: State<V>, t: Tid)
    requires Inv(s) && t < |s.ops| && NobodySends(s) && Asleep(s, t)
    ensures s.version == s.ops[t].c.baseline && 0 < s.senders
  {
    SleeperIsOwed(s, t);
  }

  /**
   No lost wakeup. In every reachable state in which no thread is inside `send`,
   `mark_changed` or a last drop, a receiver asleep in `await_change_from` has nothing to wake
   up for: the version is still its baseline, and there are senders.
   */
  lemma NoLostWakeup<V>(threads: nat, owner: Tid, schedule: seq<Action<V>>, t: Tid)
    requires t < threads
    requires NobodySends(Exec(Init<V>(threads, owner), schedule))
    requires Asleep(Exec(Init<V>(threads, owner), schedule), t)
    ensures var s := Exec(Init<V>(threads, owner), schedule);
            s.version == s.ops[t].c.baseline && 0 < s.senders
  {
    ReachableInv(threads, owner, schedule);
    SleeperHasNothing(Exec(Init<V>(threads, owner), schedule), t);
  }

  /**
   At every moment: a receiver asleep past a version change is still owed an unpark by the
   thread that made the first change, and one asleep without senders by the last dropper.
   */
  lemma AsleepMeansOwed<V>(threads: nat, owner: Tid, schedule: seq<Action<V>>, t: Tid)
    requires t < threads
    requires Asleep(Exec(Init<V>(threads, owner), schedule), t)
    ensures var s := Exec(Init<V>(threads, owner), schedule);
            var op := s.ops[t];
            && (op.c.baseline < s.version ==> OwesAt(s, s.bumper[op.c.baseline], op.w))
            && (s.senders == 0 ==> OwesAt(s, s.lastDropper, op.w))
  {
    ReachableInv(threads, owner, schedule);
    SleeperIsOwed(Exec(Init<V>(threads, owner), schedule), t);
  }

  /** No cursor is ahead of the version, and what a receiver was told has happened. */
  lemma CursorsAreBehind<V>(threads: nat, owner: Tid, schedule: seq<Action<V>>, r: Rid)
    requires r < |Exec(Init<V>(threads, owner), schedule).receivers|
    ensures var s := Exec(Init<V>(threads, owner), schedule);
            s.receivers[r].cursor <= s.version && s.receivers[r].seen <= s.version
  {
    ReachableInv(threads, owner, schedule);
    assert CursorOk(Exec(Init<V>(threads, owner), schedule), r);
  }

  lemma PromisedSteps<V>(s: State<V>, t: Tid)
    requires Inv(s) && t < |s.ops| && Waiting(s.ops[t]) && s.ops[t].c.promised
    ensures !Enlisted(s.ops[t]) && !s.ops[t].AwaitRegister?
    ensures StepOf(s, t).ops[t].Finished? || StepOf(StepOf(s, t), t).ops[t] == Finished(Disconnected)
  {
    assert WaitOk(s, t);
  }

  /**
   Select completion. After `is_ready` has answered true on a receiver, or on a clone made of
   it since its last use, `complete_recv` on it neither registers a waiter nor parks: it is
   at one of its first two loads, and the second one only if it finds the senders gone.
   */
  lemma PromisedCompletionNeverParks<V>(threads: nat, owner: Tid, schedule: seq<Action<V>>, t: Tid)
    requires t < threads
    requires Waiting(Exec(Init<V>(threads, owner), schedule).ops[t])
    requires Exec(Init<V>(threads, owner), schedule).ops[t].c.promised
    ensures var s := Exec(Init<V>(threads, owner), schedule);
            && !Enlisted(s.ops[t]) && !s.ops[t].AwaitRegister?
            && (StepOf(s, t).ops[t].Finished? || StepOf(StepOf(s, t), t).ops[t] == Finished(Disconnected))
  {
    ReachableInv(threads, owner, schedule);
    PromisedSteps(Exec(Init<V>(threads, owner), schedule), t);
  }

  /** A readiness answer is a promise: it holds until the receiver is used. */
  lemma ReadyStays<V>(threads: nat, owner: Tid, schedule: seq<Action<V>>, r: Rid)
    requires r < |Exec(Init<V>(threads, owner), schedule).receivers|
    requires Exec(Init<V>(threads, owner), schedule).receivers[r].ready
    ensures var s := Exec(Init<V>(threads, owner), schedule);
            s.receivers[r].cursor < s.version || s.senders == 0
  {
    ReachableInv(threads, owner, schedule);
    assert CursorOk(Exec(Init<V>(threads, owner), schedule), r);
  }

  lemma BorrowSees<V>(s: State<V>, t: Tid, n: nat)
    requires Inv(s) && t < |s.ops| && s.ops[t].Borrow? && n < s.receivers[s.ops[t].r].seen
    ensures n < s.version && s.stamps[n] <= |s.stored|
    ensures StepOf(s, t).ops[t] == Finished(Borrowed(s.value, |s.stored|))
    ensures s.value == (if s.stored == [] then None else Some(s.stored[|s.stored| - 1]))
  {
    assert CursorOk(s, s.ops[t].r);
  }

  /**
   Freshness. A receiver that was told of version `seen` has been told of the bumps before it.
   Whatever it borrows from then on is the value stored by any of those sends, or one stored
   later; and it is the latest one.
   */
  lemma BorrowIsFresh<V>(threads: nat, owner: Tid, schedule: seq<Action<V>>, t: Tid, n: nat)
    requires t < threads
    requires var s := Exec(Init<V>(threads, owner), schedule);
             s.ops[t].Borrow? && n < s.receivers[s.ops[t].r].seen
    ensures var s := Exec(Init<V>(threads, owner), schedule);
            && n < s.version
            && s.stamps[n] <= |s.stored|
            && StepOf(s, t).ops[t] == Finished(Borrowed(s.value, |s.stored|))
            && s.value == (if s.stored == [] then None else Some(s.stored[|s.stored| - 1]))
            && (0 < s.stamps[n] ==> s.value.Some?)
  {
    ReachableInv(threads, owner, schedule);
    BorrowSees(Exec(Init<V>(threads, owner), schedule), t, n);
  }
}
