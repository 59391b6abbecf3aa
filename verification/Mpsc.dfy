/**
 The bounded MPSC channel: the ring of module `Ring`, the list of blocked receivers, the
 handle counts, and one park token per thread, as one transition system.

 Any number of threads send, drop and clone senders, and receive (blocking or not). Every
 atomic access, every section under the list's lock, every `unpark` and every `park` is one
 step. A thread at `RecvPark` without a token is asleep; `park` may also return at any time.
 Select waiters live on stacks of their own, which these steps do not touch.
 */
module Mpsc {
  import opened Basics
  import R = Ring

  type Tid = nat
  type Wid = nat

  /** A `RecvWaiter`; it is identified by its index in the history of all waiters. */
  datatype Waiter = Waiter(tid: Tid, caseId: nat, selected: nat)

  datatype Outcome<+V> = Sent | SendFailed(v: V) | Got(v: V) | Disconnected | Empty

  /** What a blocking receive does after its waiter guard is dropped. */
  datatype After<+V> = TryAgain | Finish(outcome: Outcome<V>)

  datatype Op<+V> =
    | Idle
    // Sender::send
    | SendCheck(v: V)                  // about to load `receiver_count`
    | SendPush                         // inside `ring.try_push`
    | SendSnapshot                     // about to lock and clone the waiter list
    | SendLook(rest: seq<Wid>)         // about to load `selected` of the first waiter
    | SendUnpark(rest: seq<Wid>)       // about to unpark the first waiter's thread
    | SendSelect                       // about to wake a select waiter
    // Sender::drop, after the count went from one to zero
    | DropSnapshot
    | DropExchange(rest: seq<Wid>)     // about to compare-exchange `selected` of the first waiter
    | DropUnpark(rest: seq<Wid>)
    | DropSelect
    // Receiver::try_recv; `late`: the call began when there were no senders any more
    | TryPop(late: bool)               // inside `ring.try_pop`
    | TryCount(late: bool)             // about to load `sender_count`
    // Receiver::recv
    | RecvFast(late: bool)
    | RecvFastCount(late: bool)
    | RecvRegister                     // about to lock the list and push a waiter
    | RecvRecheck(w: Wid)
    | RecvRecheckCount(w: Wid, pos: nat)
    | RecvPark(w: Wid, pos: nat)       // `pos`: the position at which the re-check found nothing
    | RecvWakeSender(guard: Option<Wid>, v: V)
    | RecvUnregister(w: Wid, after: After<V>)
    | Returned(outcome: Outcome<V>, late: bool)

  datatype State<V> = State(
    ring: R.State<V>,
    list: seq<Wid>,
    waiters: seq<Waiter>,
    senders: nat,
    receivers: nat,
    tokens: seq<bool>,
    ops: seq<Op<V>>,
    // history
    given: seq<Option<V>>,     // the value that each thread's latest `send` was called with
    lastDropper: Tid           // who took `sender_count` from one to zero
  )

  datatype Action<+V> =
    | CallSend(tid: Tid, v: V)
    | CallTryRecv(tid: Tid)
    | CallRecv(tid: Tid)
    | CloneSender(tid: Tid)
    | DropSender(tid: Tid)
    | CloneReceiver(tid: Tid)
    | DropReceiver(tid: Tid)
    | Step(tid: Tid)
    | Spurious(tid: Tid)       // a weak exchange fails, or `park` returns without a token
    | Stray(tid: Tid)          // an unrelated `unpark` leaves a token
    | Return(tid: Tid)

  function Init<V>(cap: nat, threads: nat): State<V> {
    State(R.Init(cap, threads), [], [], 1, 1, seq(threads, _ => false), seq(threads, _ => Idle),
          seq(threads, _ => None), 0)
  }

  predicate Sending<V>(op: Op<V>) {
    op.SendCheck? || op.SendPush? || op.SendSnapshot? || op.SendLook? || op.SendUnpark? || op.SendSelect?
  }

  predicate Dropping<V>(op: Op<V>) {
    op.DropSnapshot? || op.DropExchange? || op.DropUnpark? || op.DropSelect?
  }

  predicate Receiving<V>(op: Op<V>) {
    !op.Idle? && !op.Returned? && !Sending(op) && !Dropping(op)
  }

  predicate Shaped<V>(s: State<V>) {
    && R.Shaped(s.ring)
    && |s.ops| == |s.tokens| == |s.ring.pcs| == |s.given|
    && Known(s.list, |s.waiters|)
    && (forall t | 0 <= t < |s.ops| :: KnownWaiters(s, s.ops[t]))
    && (forall w | 0 <= w < |s.waiters| :: s.waiters[w].tid < |s.ops|)
  }

  predicate Known(list: seq<Wid>, waiters: nat) {
    forall i | 0 <= i < |list| :: list[i] < waiters
  }

  /** The waiters that an operation still has to visit exist, and there is a first one. */
  predicate KnownWaiters<V>(s: State<V>, op: Op<V>) {
    op.SendLook? || op.SendUnpark? || op.DropExchange? || op.DropUnpark? ==>
      op.rest != [] && Known(op.rest, |s.waiters|)
  }

  function At<V>(s: State<V>, t: Tid, op: Op<V>): State<V>
    requires t < |s.ops|
  {
    s.(ops := s.ops[t := op])
  }

  /** Thread `t` leaves its finished ring call, if any, and calls `ring.try_pop`. */
  function StartPop<V>(ring: R.State<V>, t: Tid): R.State<V>
    requires R.Shaped(ring)
  {
    R.Next(R.Next(ring, R.Return(t)), R.CallPop(t))
  }

  function StartPush<V>(ring: R.State<V>, t: Tid, v: V): R.State<V>
    requires R.Shaped(ring)
  {
    R.Next(R.Next(ring, R.Return(t)), R.CallPush(t, v))
  }

  function NextLook<V>(rest: seq<Wid>): Op<V> {
    if rest == [] then SendSelect else SendLook(rest)
  }

  function NextExchange<V>(rest: seq<Wid>): Op<V> {
    if rest == [] then DropSelect else DropExchange(rest)
  }

  lemma KnownWithout(list: seq<Wid>, w: Wid, waiters: nat)
    requires Known(list, waiters)
    ensures Known(Without(list, w), waiters)
  {
    var r := Without(list, w);
    forall i: nat | i < |r| ensures r[i] < waiters {
      assert r[i] in r;
    }
  }

  function Unpark<V>(s: State<V>, w: Wid): State<V>
    requires Shaped(s) && w < |s.waiters|
  {
    s.(tokens := s.tokens[s.waiters[w].tid := true])
  }

  /** One step of `Sender::send`. */
  function SendStep<V>(s: State<V>, t: Tid): (r: State<V>)
    requires Shaped(s) && t < |s.ops|
    ensures Shaped(r) && |r.ops| == |s.ops|
  {
    match s.ops[t]
    case SendCheck(v) =>
      if s.receivers == 0 then At(s, t, Returned(SendFailed(v), false))
      else
        var ring := StartPush(s.ring, t, v);
        At(s, t, if ring.pcs[t].PushErr? then Returned(SendFailed(v), false) else SendPush).(ring := ring)
    case SendPush =>
      var ring := R.Next(s.ring, R.Step(t));
      var op := match ring.pcs[t]
                case PushOk(_, _) => SendSnapshot
                case PushErr(v, _) => Returned(SendFailed(v), false)
                case _ => SendPush;
      At(s, t, op).(ring := ring)
    case SendSnapshot => At(s, t, NextLook(s.list))
    case SendLook(rest) =>
      if s.waiters[rest[0]].selected == UNSELECTED then At(s, t, SendUnpark(rest))
      else At(s, t, NextLook(rest[1..]))
    case SendUnpark(rest) => At(Unpark(s, rest[0]), t, NextLook(rest[1..]))
    case SendSelect => At(s, t, Returned(Sent, false))
    case _ => s
  }

  /** One step of the last sender's `drop`. */
  function DropStep<V>(s: State<V>, t: Tid): (r: State<V>)
    requires Shaped(s) && t < |s.ops|
    ensures Shaped(r) && |r.ops| == |s.ops|
  {
    match s.ops[t]
    case DropSnapshot => At(s, t, NextExchange(s.list))
    case DropExchange(rest) =>
      var w := rest[0];
      var waiter := s.waiters[w];
      var seen := if waiter.selected == UNSELECTED then waiter.caseId else waiter.selected;
      At(s, t, DropUnpark(rest)).(waiters := s.waiters[w := waiter.(selected := seen)])
    case DropUnpark(rest) => At(Unpark(s, rest[0]), t, NextExchange(rest[1..]))
    case DropSelect => At(s, t, Idle)
    case _ => s
  }

  /** What follows a `ring.try_pop` that found nothing at position `pos`. */
  function EmptyHanded<V>(op: Op<V>, pos: nat): Op<V> {
    match op
    case TryPop(late) => TryCount(late)
    case RecvFast(late) => RecvFastCount(late)
    case RecvRecheck(w) => RecvRecheckCount(w, pos)
    case _ => op
  }

  predicate Popping<V>(op: Op<V>) {
    op.TryPop? || op.RecvFast? || op.RecvRecheck?
  }

  /** A step of `ring.try_pop`. A value found ends the call; a registered guard is dropped first. */
  function PopStep<V>(s: State<V>, t: Tid): (r: State<V>)
    requires Shaped(s) && t < |s.ops| && Popping(s.ops[t])
    ensures Shaped(r) && |r.ops| == |s.ops|
  {
    var ring := R.Next(s.ring, R.Step(t));
    var op := match ring.pcs[t]
              case PopSome(_, v) => RecvWakeSender(if s.ops[t].RecvRecheck? then Some(s.ops[t].w) else None, v)
              case PopNone(pos) => EmptyHanded(s.ops[t], pos)
              case _ => s.ops[t];
    At(s, t, op).(ring := ring)
  }

  function Register<V>(s: State<V>, t: Tid): (r: State<V>)
    requires Shaped(s) && t < |s.ops|
    ensures Shaped(r) && |r.ops| == |s.ops|
  {
    var w := |s.waiters|;
    At(s, t, RecvRecheck(w))
      .(list := s.list + [w],
        waiters := s.waiters + [Waiter(t, UNSELECTED, UNSELECTED)],
        ring := StartPop(s.ring, t))
  }

  function Unregister<V>(s: State<V>, t: Tid, w: Wid, after: After<V>): (r: State<V>)
    requires Shaped(s) && t < |s.ops|
    ensures Shaped(r) && |r.ops| == |s.ops|
  {
    KnownWithout(s.list, w, |s.waiters|);
    var r := s.(list := Without(s.list, w));
    if after.TryAgain? then At(r, t, RecvFast(false)).(ring := StartPop(s.ring, t))
    else At(r, t, Returned(after.outcome, false))
  }

  /** One step of `Receiver::try_recv` or `Receiver::recv`. */
  function RecvStep<V>(s: State<V>, t: Tid): (r: State<V>)
    requires Shaped(s) && t < |s.ops|
    ensures Shaped(r) && |r.ops| == |s.ops|
  {
    match s.ops[t]
    case TryPop(late) => PopStep(s, t)
    case TryCount(late) =>
      At(s, t, Returned(if s.senders == 0 then Disconnected else Empty, late))
    case RecvFast(late) => PopStep(s, t)
    case RecvFastCount(late) =>
      At(s, t, if s.senders == 0 then Returned(Disconnected, late) else RecvRegister)
    case RecvRegister => Register(s, t)
    case RecvRecheck(w) => PopStep(s, t)
    case RecvRecheckCount(w, pos) =>
      At(s, t, if s.senders == 0 then RecvUnregister(w, Finish(Disconnected)) else RecvPark(w, pos))
    case RecvPark(w, pos) =>
      if s.tokens[t] then At(s, t, RecvUnregister(w, TryAgain)).(tokens := s.tokens[t := false])
      else s
    case RecvWakeSender(guard, v) =>
      At(s, t, if guard.Some? then RecvUnregister(guard.value, Finish(Got(v))) else Returned(Got(v), false))
    case RecvUnregister(w, after) => Unregister(s, t, w, after)
    case _ => s
  }

  predicate NobodySends<V>(s: State<V>) {
    forall u | 0 <= u < |s.ops| :: !Sending(s.ops[u])
  }

  predicate NobodyReceives<V>(s: State<V>) {
    forall u | 0 <= u < |s.ops| :: !Receiving(s.ops[u])
  }

  function Next<V>(s: State<V>, a: Action<V>): (r: State<V>)
    requires Shaped(s)
    ensures Shaped(r) && |r.ops| == |s.ops|
  {
    if |s.ops| <= a.tid then s
    else
      var t := a.tid;
      match a
      case CallSend(_, v) =>
        if s.ops[t].Idle? && 0 < s.senders then At(s, t, SendCheck(v)).(given := s.given[t := Some(v)]) else s
      case CallTryRecv(_) =>
        if s.ops[t].Idle? && 0 < s.receivers then
          At(s, t, TryPop(s.senders == 0)).(ring := StartPop(s.ring, t))
        else s
      case CallRecv(_) =>
        if s.ops[t].Idle? && 0 < s.receivers then
          At(s, t, RecvFast(s.senders == 0)).(ring := StartPop(s.ring, t))
        else s
      case CloneSender(_) => if 0 < s.senders then s.(senders := s.senders + 1) else s
      case DropSender(_) =>
        // a handle that is being dropped is not borrowed by a `send`
        if s.ops[t].Idle? && (2 <= s.senders || (s.senders == 1 && NobodySends(s))) then
          if s.senders == 1 then At(s, t, DropSnapshot).(senders := 0, lastDropper := t)
          else s.(senders := s.senders - 1)
        else s
      case CloneReceiver(_) => if 0 < s.receivers then s.(receivers := s.receivers + 1) else s
      case DropReceiver(_) =>
        if 2 <= s.receivers || (s.receivers == 1 && NobodyReceives(s)) then
          s.(receivers := s.receivers - 1)
        else s
      case Step(_) =>
        if Sending(s.ops[t]) then SendStep(s, t)
        else if Dropping(s.ops[t]) then DropStep(s, t)
        else RecvStep(s, t)
      case Spurious(_) =>
        if s.ops[t].RecvPark? then At(s, t, RecvUnregister(s.ops[t].w, TryAgain))
        else s.(ring := R.Next(s.ring, R.Spurious(t)))
      case Stray(_) => s.(tokens := s.tokens[t := true])
      case Return(_) => if s.ops[t].Returned? then At(s, t, Idle) else s
  }

  function Exec<V>(s: State<V>, schedule: seq<Action<V>>): (r: State<V>)
    requires Shaped(s)
    ensures Shaped(r) && |r.ops| == |s.ops|
    decreases |schedule|
  {
    if schedule == [] then s
    else Next(Exec(s, schedule[..|schedule| - 1]), schedule[|schedule| - 1])
  }
}
