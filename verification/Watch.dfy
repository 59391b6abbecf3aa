/**
 The watch channel, as a transition system.

 Any number of threads send, mark, clone and drop sender handles, or use receivers. A receiver
 is used by one thread, its owner. Every access to the shared fields (`value`, `version`,
 `sender_count`, the waiter list under its lock) and every unpark is one step; a receiver's
 own cursor fields are touched by nobody else and move together with the access next to them.
 The `selected` cell of a plain waiter is written by `wake_all_recv_waiters` and read by nobody,
 so it is left away. Of a select call, this channel's arm is here: its registration, its node
 on the stack of select waiters, and whether a sender has claimed the call for it.

 The fields after `history` are never read by a step, except by other history.
 */
module Watch {
  import opened Basics

  type Tid = nat
  type Wid = nat
  type Rid = nat

  datatype Receiver = Receiver(
    cursor: nat,               // `cursor_version`
    armed: bool,               // `cursor_armed`
    owner: Tid,
    // history
    epoch: nat,                // how often it has been used
    origin: Rid,               // what it was cloned from ...
    originEpoch: nat,          // ... and how often that had been used then
    ready: bool,               // `is_ready`, or select, on it or on a clone made since its last use, has answered
    seen: nat,                 // the newest version a change was reported for
    checked: nat               // how many select waiters there were when `is_ready` last answered false
  )

  /** A select waiter on this channel's stack. `claimed`: a sender has selected the call for this arm. */
  datatype Node = Node(
    r: Rid,
    tid: Tid,
    aborted: bool,
    claimed: bool,
    // history
    base: nat,                 // the cursor of its receiver when it was pushed
    during: nat,               // how many senders were inside an operation then
    at: nat,                   // the version then
    open: bool,                // there were senders then
    mark: nat                  // how many tokens its thread had taken then, or when it was claimed
  )

  datatype Outcome<+V> =
    | Sent
    | Changed(version: nat)
    | Disconnected
    | Answer(ready: bool)
    | Pushed(registered: bool)                 // false if there was no need to register
    | Borrowed(value: Option<V>, index: nat)   // `index`: how many values had been stored (history)

  /** One `await_change_from`: on which receiver, from which version. `promised` is history. */
  datatype Wait = Wait(r: Rid, baseline: nat, promised: bool)

  datatype Op<+V> =
    | Idle
    | Store(v: V)                         // `send`, past the receiver check
    | Bump(stamp: nat)                    // about to bump; `stamp` (history): its own store, 0 for `mark_changed`
    | Snapshot                            // about to copy the waiter list
    | Unpark(rest: seq<Wid>)
    | SelectSwap                          // about to take the stack of select waiters
    | SelectClaim(rest: seq<nat>)         // about to visit its first node
    | ChangedCount(r: Rid)
    | ChangedArm(r: Rid)
    | AwaitVersion(c: Wait)
    | AwaitCount(c: Wait)
    | AwaitRegister(c: Wait)
    | AwaitRecheck(c: Wait, w: Wid)
    | AwaitRecheckCount(c: Wait, w: Wid)
    | AwaitPark(c: Wait, w: Wid)
    | AwaitUnregister(c: Wait, w: Wid)
    | ReadyCount(r: Rid)
    | ReadyVersion(r: Rid)
    | RegisterVersion(r: Rid)
    | RegisterCount(r: Rid)
    | RegisterPush(r: Rid)
    | Borrow(r: Rid)
    | Finished(outcome: Outcome<V>)

  datatype State<V> = State(
    version: nat,
    value: Option<V>,
    senders: nat,
    owners: seq<Tid>,          // of each waiter: the thread to unpark
    list: seq<Wid>,
    tokens: seq<bool>,
    ops: seq<Op<V>>,
    receivers: seq<Receiver>,
    nodes: seq<Node>,
    stack: seq<nat>,           // of select waiters, top first
    // history
    stored: seq<V>,            // all values ever stored
    stamps: seq<nat>,          // of each bump
    bumper: seq<Tid>,          // of each bump
    takes: seq<nat>,           // of each thread: how many tokens it has taken
    lastDropper: Tid
  )

  datatype Action<+V> =
    | CallSend(tid: Tid, v: V)
    | CallMark(tid: Tid)
    | CloneSender
    | DropSender(tid: Tid)
    | CallChanged(tid: Tid, r: Rid)
    | CallReady(tid: Tid, r: Rid)
    | CallComplete(tid: Tid, r: Rid)
    | CallBorrow(tid: Tid, r: Rid)
    | CallRegister(tid: Tid, r: Rid)
    | Abort(tid: Tid, n: nat)           // `abort_select` marks a node
    | TakeToken(tid: Tid)               // the `park` of a select call returns
    | Win(tid: Tid, n: nat)             // select returns with this arm: history only
    | CloneReceiver(tid: Tid, r: Rid, owner: Tid)
    | Step(tid: Tid)
    | Spurious(tid: Tid)       // `park` returns for no reason
    | Stray(tid: Tid)          // an unrelated `unpark`
    | Return(tid: Tid)

  function Init<V>(threads: nat, owner: Tid): State<V> {
    State(0, None, 1, [], [], seq(threads, _ => false), seq(threads, _ => Idle),
          [Receiver(0, false, owner, 0, 0, 0, false, 0, 0)], [], [], [], [], [], seq(threads, _ => 0), 0)
  }

  predicate Waiting<V>(op: Op<V>) {
    op.AwaitVersion? || op.AwaitCount? || op.AwaitRegister? || Enlisted(op)
  }

  predicate Enlisted<V>(op: Op<V>) {
    op.AwaitRecheck? || op.AwaitRecheckCount? || op.AwaitPark? || op.AwaitUnregister?
  }

  predicate Registering<V>(op: Op<V>) {
    op.RegisterVersion? || op.RegisterCount? || op.RegisterPush?
  }

  /** Inside `send`, `mark_changed`, or the drop of the last sender. */
  predicate Sending<V>(op: Op<V>) {
    op.Store? || op.Bump? || op.Snapshot? || op.Unpark? || op.SelectSwap? || op.SelectClaim?
  }

  predicate OpShaped<V>(op: Op<V>, receivers: nat, waiters: nat, nodes: nat) {
    && (Waiting(op) ==> op.c.r < receivers)
    && (op.ChangedCount? || op.ChangedArm? || op.ReadyCount? || op.ReadyVersion? || op.Borrow? ==> op.r < receivers)
    && (Registering(op) ==> op.r < receivers)
    && (op.SelectClaim? ==> forall i | 0 <= i < |op.rest| :: op.rest[i] < nodes)
    && (Enlisted(op) ==> op.w < waiters)
    && (op.Unpark? ==> forall i | 0 <= i < |op.rest| :: op.rest[i] < waiters)
  }

  predicate Shaped<V>(s: State<V>) {
    && |s.tokens| == |s.takes| == |s.ops|
    && |s.stamps| == |s.bumper| == s.version
    && (forall i | 0 <= i < |s.list| :: s.list[i] < |s.owners|)
    && (forall t | 0 <= t < |s.ops| :: OpShaped(s.ops[t], |s.receivers|, |s.owners|, |s.nodes|))
    && (forall w | 0 <= w < |s.owners| :: s.owners[w] < |s.ops|)
    && (forall r | 0 <= r < |s.receivers| :: s.receivers[r].origin < |s.receivers|)
    && (forall i | 0 <= i < |s.stack| :: s.stack[i] < |s.nodes|)
    && (forall n | 0 <= n < |s.nodes| :: s.nodes[n].r < |s.receivers| && s.nodes[n].tid < |s.ops|)
  }

  function SetOp<V>(s: State<V>, t: Tid, op: Op<V>): (r: State<V>)
    requires Shaped(s) && t < |s.ops| && OpShaped(op, |s.receivers|, |s.owners|, |s.nodes|)
    ensures Shaped(r) && |r.ops| == |s.ops|
  {
    s.(ops := s.ops[t := op])
  }

  function SetReceiver<V>(s: State<V>, r: Rid, rx: Receiver): (q: State<V>)
    requires Shaped(s) && r < |s.receivers| && rx.origin == s.receivers[r].origin
    ensures Shaped(q) && |q.ops| == |s.ops|
  {
    s.(receivers := s.receivers[r := rx])
  }

  function SetToken<V>(s: State<V>, t: Tid, token: bool): (r: State<V>)
    requires Shaped(s) && t < |s.ops|
    ensures Shaped(r) && |r.ops| == |s.ops|
  {
    s.(tokens := s.tokens[t := token])
  }

  /** Thread `t` takes its token, if it has one. */
  function TakeOwn<V>(s: State<V>, t: Tid): (r: State<V>)
    requires Shaped(s) && t < |s.ops|
    ensures Shaped(r) && |r.ops| == |s.ops|
  {
    s.(tokens := s.tokens[t := false], takes := s.takes[t := if s.tokens[t] then s.takes[t] + 1 else s.takes[t]])
  }

  function SendStep<V>(s: State<V>, t: Tid): (r: State<V>)
    requires Shaped(s) && t < |s.ops| && Sending(s.ops[t])
    ensures Shaped(r) && |r.ops| == |s.ops|
  {
    match s.ops[t]
    case Store(v) => SetOp(s, t, Bump(|s.stored| + 1)).(value := Some(v), stored := s.stored + [v])
    case Bump(stamp) =>
      SetOp(s, t, Snapshot).(version := s.version + 1, stamps := s.stamps + [stamp], bumper := s.bumper + [t])
    case Snapshot => SetOp(s, t, Unpark(s.list))
    case Unpark(rest) =>
      if rest == [] then SetOp(s, t, SelectSwap)
      else SetOp(SetToken(s, s.owners[rest[0]], true), t, Unpark(rest[1..]))
    case SelectSwap => SelectStep(s, t)
    case SelectClaim(_) => SelectStep(s, t)
    case _ => s
  }

  /** One step of `wake_select_all`. */
  function SelectStep<V>(s: State<V>, t: Tid): (r: State<V>)
    requires Shaped(s) && t < |s.ops| && (s.ops[t].SelectSwap? || s.ops[t].SelectClaim?)
    ensures Shaped(r) && |r.ops| == |s.ops|
  {
    if s.ops[t].SelectSwap? then SetOp(s, t, SelectClaim(s.stack)).(stack := [])
    else
      var rest := s.ops[t].rest;
      if rest == [] then SetOp(s, t, Finished(Sent))
      else SetOp(ClaimNode(s, rest[0]), t, SelectClaim(rest[1..]))
  }

  /** One node of `wake_select_all`: claimed, and its thread unparked, unless it is aborted. */
  function ClaimNode<V>(s: State<V>, n: nat): (r: State<V>)
    requires Shaped(s) && n < |s.nodes|
    ensures Shaped(r) && |r.ops| == |s.ops| && |r.nodes| == |s.nodes| && |r.receivers| == |s.receivers|
    ensures |r.owners| == |s.owners|
  {
    if s.nodes[n].aborted then s
    else
      var claimed := s.nodes[n].(claimed := true, mark := s.takes[s.nodes[n].tid]);
      SetToken(s.(nodes := s.nodes[n := claimed]), s.nodes[n].tid, true)
  }

  /** `arm_cursor`, at the load of `version`. */
  function Armed(rx: Receiver, version: nat): Receiver {
    if rx.armed then rx else rx.(cursor := version, armed := true)
  }

  /** A use of the receiver: clones made before are from an earlier epoch. */
  function Used(rx: Receiver): Receiver {
    rx.(epoch := rx.epoch + 1, ready := false)
  }

  function ChangedStep<V>(s: State<V>, t: Tid): (q: State<V>)
    requires Shaped(s) && t < |s.ops| && (s.ops[t].ChangedCount? || s.ops[t].ChangedArm?)
    ensures Shaped(q) && |q.ops| == |s.ops|
  {
    var r := s.ops[t].r;
    var rx := s.receivers[r];
    if s.ops[t].ChangedCount? then
      if s.senders == 0 then SetOp(SetReceiver(s, r, rx.(armed := false)), t, Finished(Disconnected))
      else SetOp(s, t, ChangedArm(r))
    else SetOp(SetReceiver(s, r, Armed(rx, s.version)), t, AwaitVersion(Wait(r, s.version, false)))
  }

  /** A new plain waiter of thread `t` comes to the end of the list. */
  function Enlist<V>(s: State<V>, t: Tid): (q: State<V>)
    requires Shaped(s) && t < |s.ops|
    ensures Shaped(q) && |q.ops| == |s.ops| && |q.owners| == |s.owners| + 1
    ensures |q.nodes| == |s.nodes| && |q.receivers| == |s.receivers|
  {
    s.(owners := s.owners + [t], list := s.list + [|s.owners|])
  }

  /** `await_change_from`, up to its registration. */
  function AwaitStep<V>(s: State<V>, t: Tid): (q: State<V>)
    requires Shaped(s) && t < |s.ops| && Waiting(s.ops[t])
    ensures Shaped(q) && |q.ops| == |s.ops|
  {
    var c := s.ops[t].c;
    var rx := s.receivers[c.r];
    match s.ops[t]
    case AwaitVersion(_) =>
      if s.version != c.baseline then
        SetOp(SetReceiver(s, c.r, rx.(cursor := s.version, armed := false, seen := s.version)),
              t, Finished(Changed(s.version)))
      else SetOp(s, t, AwaitCount(c))
    case AwaitCount(_) =>
      if s.senders == 0 then SetOp(SetReceiver(s, c.r, rx.(armed := false)), t, Finished(Disconnected))
      else SetOp(s, t, AwaitRegister(c))
    case AwaitRegister(_) => SetOp(Enlist(s, t), t, AwaitRecheck(c, |s.owners|))
    case _ => s
  }

  /** ... and from there on. */
  function EnlistedStep<V>(s: State<V>, t: Tid): (q: State<V>)
    requires Shaped(s) && t < |s.ops| && Enlisted(s.ops[t])
    ensures Shaped(q) && |q.ops| == |s.ops|
  {
    var c := s.ops[t].c;
    match s.ops[t]
    case AwaitRecheck(_, w) =>
      SetOp(s, t, if s.version != c.baseline then AwaitUnregister(c, w) else AwaitRecheckCount(c, w))
    case AwaitRecheckCount(_, w) =>
      SetOp(s, t, if s.senders == 0 then AwaitUnregister(c, w) else AwaitPark(c, w))
    case AwaitPark(_, w) => if s.tokens[t] then SetOp(TakeOwn(s, t), t, AwaitUnregister(c, w)) else s
    case AwaitUnregister(_, w) => SetOp(Delisted(s, w), t, AwaitVersion(c))
    case _ => s
  }

  function WaitStep<V>(s: State<V>, t: Tid): (q: State<V>)
    requires Shaped(s) && t < |s.ops| && Waiting(s.ops[t])
    ensures Shaped(q) && |q.ops| == |s.ops|
  {
    if Enlisted(s.ops[t]) then EnlistedStep(s, t) else AwaitStep(s, t)
  }

  /** `retain` in the drop of the guard. */
  function Delisted<V>(s: State<V>, w: Wid): (r: State<V>)
    requires Shaped(s)
    ensures Shaped(r) && r == s.(list := r.list)
    ensures forall u: nat :: u in r.list <==> u in s.list && u != w
  {
    assert forall i | 0 <= i < |Without(s.list, w)| :: Without(s.list, w)[i] in s.list;
    s.(list := Without(s.list, w))
  }

  function ReadyStep<V>(s: State<V>, t: Tid): (q: State<V>)
    requires Shaped(s) && t < |s.ops| && (s.ops[t].ReadyCount? || s.ops[t].ReadyVersion?)
    ensures Shaped(q) && |q.ops| == |s.ops|
  {
    var r := s.ops[t].r;
    if s.ops[t].ReadyCount? then
      if s.senders == 0 then SetOp(MarkReady(s, r), t, Finished(Answer(true))) else SetOp(s, t, ReadyVersion(r))
    else
      var armed := Armed(s.receivers[r], s.version);
      var ready := s.version != armed.cursor;
      SetOp(if ready then MarkReady(SetReceiver(s, r, armed), r)
            else SetReceiver(s, r, armed.(checked := |s.nodes|)), t, Finished(Answer(ready)))
  }

  /** History: the receiver, and an original that was not used since, have answered that they are ready. */
  function MarkReady<V>(s: State<V>, r: Rid): (q: State<V>)
    requires Shaped(s) && r < |s.receivers|
    ensures Shaped(q) && q == s.(receivers := q.receivers) && |q.receivers| == |s.receivers|
    ensures forall k: nat | k < |s.receivers| ::
              q.receivers[k] == if || k == r
                                   || (k == s.receivers[r].origin
                                       && s.receivers[k].epoch == s.receivers[r].originEpoch)
                                then s.receivers[k].(ready := true) else s.receivers[k]
  {
    var own := SetReceiver(s, r, s.receivers[r].(ready := true));
    var o := s.receivers[r].origin;
    if own.receivers[o].epoch == s.receivers[r].originEpoch then
      SetReceiver(own, o, own.receivers[o].(ready := true))
    else own
  }

  /** `register_select`. A receiver for which something is pending need not be registered. */
  function RegisterStep<V>(s: State<V>, t: Tid): (q: State<V>)
    requires Shaped(s) && t < |s.ops| && Registering(s.ops[t])
    ensures Shaped(q) && |q.ops| == |s.ops|
  {
    var r := s.ops[t].r;
    match s.ops[t]
    case RegisterVersion(_) =>
      var armed := Armed(s.receivers[r], s.version);
      SetOp(SetReceiver(s, r, armed), t,
            if s.version == armed.cursor then RegisterCount(r) else Finished(Pushed(false)))
    case RegisterCount(_) =>
      SetOp(s, t, if s.senders == 0 then Finished(Pushed(false)) else RegisterPush(r))
    case RegisterPush(_) =>
      var n := |s.nodes|;
      SetOp(s.(nodes := s.nodes + [Node(r, t, false, false, s.receivers[r].cursor, Busy(s.ops),
                                          s.version, 0 < s.senders, s.takes[t])],
               stack := [n] + s.stack),
            t, Finished(Pushed(true)))
    case _ => s
  }

  /** How many threads are inside `send`, `mark_changed`, or a last drop. */
  function Busy<V>(ops: seq<Op<V>>): nat {
    if ops == [] then 0 else (if Sending(ops[0]) then 1 else 0) + Busy(ops[1..])
  }

  function StepOf<V>(s: State<V>, t: Tid): (q: State<V>)
    requires Shaped(s) && t < |s.ops|
    ensures Shaped(q) && |q.ops| == |s.ops|
  {
    var op := s.ops[t];
    if Sending(op) then SendStep(s, t)
    else if Waiting(op) then WaitStep(s, t)
    else if op.ChangedCount? || op.ChangedArm? then ChangedStep(s, t)
    else if op.ReadyCount? || op.ReadyVersion? then ReadyStep(s, t)
    else if Registering(op) then RegisterStep(s, t)
    else if op.Borrow? then SetOp(s, t, Finished(Borrowed(s.value, |s.stored|)))
    else s
  }

  /** History: the claim of node `n` says that something is pending for its receiver. */
  predicate Promises<V>(s: State<V>, n: nat)
    requires Shaped(s) && n < |s.nodes|
  {
    var node := s.nodes[n];
    node.claimed && node.during == 0 && s.receivers[node.r].cursor == node.base
  }

  /** Thread `t` is free, and the receiver is its own. */
  predicate MayUse<V>(s: State<V>, t: Tid, r: Rid) {
    t < |s.ops| && s.ops[t].Idle? && r < |s.receivers| && s.receivers[r].owner == t
  }

  /** Thread `t` starts to use its receiver `r`. */
  function Use<V>(s: State<V>, t: Tid, r: Rid, op: Op<V>): (q: State<V>)
    requires Shaped(s) && MayUse(s, t, r) && OpShaped(op, |s.receivers|, |s.owners|, |s.nodes|)
    ensures Shaped(q) && |q.ops| == |s.ops|
  {
    SetOp(SetReceiver(s, r, Used(s.receivers[r])), t, op)
  }

  function Clone<V>(s: State<V>, r: Rid, owner: Tid): (q: State<V>)
    requires Shaped(s) && r < |s.receivers|
    ensures Shaped(q) && |q.ops| == |s.ops|
  {
    var rx := s.receivers[r];
    var copy := rx.(owner := owner, epoch := 0, origin := r, originEpoch := rx.epoch, ready := false, checked := 0);
    s.(receivers := s.receivers + [copy])
  }

  /** A call of thread `t` on its receiver `r`. */
  function CallOn<V>(s: State<V>, a: Action<V>): (q: State<V>)
    requires Shaped(s) && (a.CallChanged? || a.CallReady? || a.CallComplete? || a.CallBorrow? || a.CallRegister?)
    requires MayUse(s, a.tid, a.r)
    ensures Shaped(q) && |q.ops| == |s.ops|
  {
    var rx := s.receivers[a.r];
    if a.CallBorrow? then SetOp(s, a.tid, Borrow(a.r))
    else
      Use(s, a.tid, a.r,
          if a.CallChanged? then ChangedCount(a.r)
          else if a.CallReady? then ReadyCount(a.r)
          else if a.CallRegister? then RegisterVersion(a.r)
          else AwaitVersion(Wait(a.r, rx.cursor, rx.ready)))
  }

  predicate NobodySends<V>(s: State<V>) {
    forall t | 0 <= t < |s.ops| :: !Sending(s.ops[t])
  }

  function Next<V>(s: State<V>, a: Action<V>): (q: State<V>)
    requires Shaped(s)
    ensures Shaped(q) && |q.ops| == |s.ops|
  {
    match a
    case CallSend(t, v) =>
      if t < |s.ops| && s.ops[t].Idle? && 0 < s.senders then SetOp(s, t, Store(v)) else s
    case CallMark(t) =>
      if t < |s.ops| && s.ops[t].Idle? && 0 < s.senders then SetOp(s, t, Bump(0)) else s
    case CloneSender => if 0 < s.senders then s.(senders := s.senders + 1) else s
    case DropSender(t) =>
      if t < |s.ops| && 1 < s.senders then s.(senders := s.senders - 1)
      else if t < |s.ops| && s.senders == 1 && s.ops[t].Idle? && NobodySends(s) then
        SetOp(s, t, Snapshot).(senders := 0, lastDropper := t)
      else s
    case CallChanged(t, r) => if MayUse(s, t, r) then CallOn(s, a) else s
    case CallReady(t, r) => if MayUse(s, t, r) then CallOn(s, a) else s
    case CallComplete(t, r) => if MayUse(s, t, r) then CallOn(s, a) else s
    case CallBorrow(t, r) => if MayUse(s, t, r) then CallOn(s, a) else s
    case CallRegister(t, r) => if MayUse(s, t, r) then CallOn(s, a) else s
    case Abort(t, n) =>
      if t < |s.ops| && n < |s.nodes| && s.nodes[n].tid == t then
        s.(nodes := s.nodes[n := s.nodes[n].(aborted := true)])
      else s
    case TakeToken(t) => if t < |s.ops| && s.ops[t].Idle? then TakeOwn(s, t) else s
    case Win(t, n) =>
      if n < |s.nodes| && MayUse(s, t, s.nodes[n].r) && Promises(s, n) then MarkReady(s, s.nodes[n].r) else s
    case CloneReceiver(t, r, owner) =>
      if MayUse(s, t, r) then Clone(s, r, owner) else s
    case Step(t) => if t < |s.ops| then StepOf(s, t) else s
    case Spurious(t) =>
      if t < |s.ops| && s.ops[t].AwaitPark? then SetOp(s, t, AwaitUnregister(s.ops[t].c, s.ops[t].w)) else s
    case Stray(t) => if t < |s.ops| then SetToken(s, t, true) else s
    case Return(t) => if t < |s.ops| && s.ops[t].Finished? then SetOp(s, t, Idle) else s
  }

  function Exec<V>(s: State<V>, schedule: seq<Action<V>>): (q: State<V>)
    requires Shaped(s)
    ensures Shaped(q) && |q.ops| == |s.ops|
    decreases |schedule|
  {
    if schedule == [] then s
    else Next(Exec(s, schedule[..|schedule| - 1]), schedule[|schedule| - 1])
  }
}
