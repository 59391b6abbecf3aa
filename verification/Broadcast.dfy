/**
 The bounded broadcast ring, as a transition system.

 Any number of threads send, and any number of receivers, each used by one thread, receive.
 Every atomic access of `send` and `try_recv` is one step. Two accesses of `send` can be
 looked at in two ways: with `fused` the store of a slot's value and the store of its `seq`
 are one step; without it they are two, as in the source.

 The fields after `history` are never read by a step.
 */
module Broadcast {
  import opened Basics

  type Tid = nat

  const MAX_SPIN_RETRIES: nat := 1024

  datatype Slot<+V> = Slot(seqno: nat, value: Option<V>)

  datatype SendPc<+V> =
    | Idle
    | Fetch(v: V)                  // about to `fetch_add` the write position
    | StoreValue(v: V, ticket: nat)
    | StoreSeq(ticket: nat)

  datatype Outcome<+V> =
    | Received(v: V)
    | Empty
    | Lagged(skipped: nat)
    | Disconnected(inner: bool)    // `inner`: found behind an unpublished slot

  datatype RecvPc<+V> =
    | Resting
    | LoadNext(spins: nat)                      // top of the loop
    | LoadWrite(next: nat, spins: nat)
    | CountEmpty(next: nat)                     // saw `write == next`; about to load `sender_count`
    | Before(next: nat, spins: nat)             // about to load the slot's `seq`
    | CountBehind(next: nat)                    // saw an old `seq`; about to load `sender_count`
    | WriteBehind(next: nat)                    // ... and then the write position
    | WriteNow(next: nat)                       // saw a newer `seq`; about to load the write position
    | Fallback(next: nat)                       // gave up spinning; about to load the write position
    | LoadValue(next: nat, spins: nat)
    | After(next: nat, spins: nat, snapshot: Option<V>)
    | Skip(target: nat, skipped: nat)           // about to store the cursor and report a lag
    | Take(next: nat, v: V)                     // about to store the cursor and return the message
    | Done(outcome: Outcome<V>, next: nat)      // `next`: the cursor with which the last round began

  datatype Receiver<+V> = Receiver(
    cursor: nat,
    pc: RecvPc<V>,
    // history
    start: nat,                // the cursor it was created with
    received: nat,             // messages returned
    skipped: nat,              // sum of the lags reported
    rounds: nat,               // how often the current call has passed the top of its loop
    late: bool,                // the current call began when no sender was left
    source: nat,               // the ticket whose message it loaded last
    torn: bool,                // ... while a sender stood between its two stores into that slot
    saw: nat,                  // the write position it loaded last
    early: bool                // its ticket was still being sent when it last looked at the slot's number first
  )

  datatype State<V> = State(
    cap: nat,
    fused: bool,
    write: nat,
    slots: seq<Slot<V>>,
    senders: nat,
    sends: seq<SendPc<V>>,
    receivers: seq<Receiver<V>>,
    // history
    log: seq<V>,               // the message of each ticket
    sender: seq<Tid>,          // who claimed it
    last: seq<nat>,            // per slot: the ticket whose message was stored there last
    lapped: bool               // a ticket was claimed while the ticket one lap before was unpublished
  )

  datatype Action<+V> =
    | CallSend(tid: Tid, v: V)
    | SendStep(tid: Tid)
    | CloneSender
    | DropSender
    | CallRecv(r: nat)
    | RecvStep(r: nat)
    | Return(r: nat)
    | CloneReceiver

  function Init<V>(cap: nat, fused: bool, threads: nat): State<V> {
    State(cap, fused, 0, seq(cap, _ => Slot(0, None)), 1, seq(threads, _ => Idle), [NewReceiver(0)],
          [], [], seq(cap, _ => 0), false)
  }

  function NewReceiver<V>(at: nat): Receiver<V> {
    Receiver(at, Resting, at, 0, 0, 0, false, 0, false, 0, false)
  }

  predicate Shaped<V>(s: State<V>) {
    && 0 < s.cap == |s.slots| == |s.last|
    && |s.log| == |s.sender| == s.write
  }

  function SatSub(a: nat, b: nat): nat {
    if a < b then 0 else a - b
  }

  function Max(a: nat, b: nat): nat {
    if a < b then b else a
  }

  function SetSend<V>(s: State<V>, t: Tid, pc: SendPc<V>): (r: State<V>)
    requires Shaped(s) && t < |s.sends|
    ensures Shaped(r)
  {
    s.(sends := s.sends[t := pc])
  }

  function SetSlot<V>(s: State<V>, ticket: nat, slot: Slot<V>): (r: State<V>)
    requires Shaped(s)
    ensures Shaped(r)
  {
    s.(slots := s.slots[ticket % s.cap := slot])
  }

  /** The slot that ticket `c` uses. */
  function SlotOf<V>(s: State<V>, c: nat): Slot<V>
    requires Shaped(s)
  {
    s.slots[c % s.cap]
  }

  /** Ticket `c` is claimed, and its sender has not stored `seq = c + 1` yet. */
  predicate Sending<V>(s: State<V>, c: nat)
    requires Shaped(s)
  {
    && c < s.write
    && s.sender[c] < |s.sends|
    && var pc := s.sends[s.sender[c]];
       (pc.StoreValue? || pc.StoreSeq?) && pc.ticket == c
  }

  predicate Published<V>(s: State<V>, c: nat)
    requires Shaped(s)
  {
    c < s.write && !Sending(s, c)
  }

  function Send<V>(s: State<V>, t: Tid): (r: State<V>)
    requires Shaped(s) && t < |s.sends|
    ensures Shaped(r)
    ensures r.cap == s.cap && r.fused == s.fused && |r.sends| == |s.sends|
  {
    match s.sends[t]
    case Idle => s
    case Fetch(v) =>
      SetSend(s, t, StoreValue(v, s.write))
        .(write := s.write + 1, log := s.log + [v], sender := s.sender + [t],
          lapped := s.lapped || (s.cap <= s.write && Sending(s, s.write - s.cap)))
    case StoreValue(v, c) =>
      var r := if s.fused then SetSend(SetSlot(s, c, Slot(c + 1, Some(v))), t, Idle)
               else SetSend(SetSlot(s, c, SlotOf(s, c).(value := Some(v))), t, StoreSeq(c));
      r.(last := r.last[c % r.cap := c])
    case StoreSeq(c) => SetSend(SetSlot(s, c, SlotOf(s, c).(seqno := c + 1)), t, Idle)
  }

  /** A sender of another ticket stands between its two stores into the slot of ticket `c`. */
  predicate Torn<V>(s: State<V>, c: nat)
    requires Shaped(s)
  {
    exists t | 0 <= t < |s.sends| :: TearsAt(s, s.sends[t], c)
  }

  predicate TearsAt<V>(s: State<V>, pc: SendPc<V>, c: nat)
    requires Shaped(s)
  {
    pc.StoreSeq? && pc.ticket != c && pc.ticket % s.cap == c % s.cap
  }

  /** One step of `try_recv`: only the receiver itself changes. */
  function Receive<V>(s: State<V>, rx: Receiver<V>): Receiver<V>
    requires Shaped(s)
  {
    match rx.pc
    case Resting => rx
    case LoadNext(spins) => rx.(pc := LoadWrite(rx.cursor, spins), rounds := rx.rounds + 1)
    case LoadWrite(next, spins) =>
      var oldest := SatSub(s.write, s.cap);
      rx.(saw := s.write,
          pc := if s.write == next then CountEmpty(next)
                else if next < oldest then Skip(oldest, oldest - next)
                else Before(next, spins))
    case CountEmpty(next) => rx.(pc := Done(if s.senders == 0 then Disconnected(false) else Empty, next))
    case Before(next, spins) =>
      var seen := SlotOf(s, next).seqno;
      rx.(early := Sending(s, next),
          pc := if seen < next + 1 then CountBehind(next)
                else if seen > next + 1 then WriteNow(next)
                else LoadValue(next, spins))
    case CountBehind(next) => rx.(pc := if s.senders == 0 then WriteBehind(next) else Done(Empty, next))
    case WriteBehind(next) =>
      rx.(saw := s.write, pc := Done(if s.write == next then Disconnected(true) else Empty, next))
    case WriteNow(next) =>
      var oldest := SatSub(s.write, s.cap);
      rx.(saw := s.write, pc := Skip(oldest, Max(SatSub(oldest, next), 1)))
    case Fallback(next) =>
      var oldest := SatSub(s.write, s.cap);
      rx.(saw := s.write, pc := Skip(oldest, Max(SatSub(oldest, next), 1)))
    case LoadValue(next, spins) =>
      rx.(pc := After(next, spins, SlotOf(s, next).value), source := s.last[next % s.cap], torn := Torn(s, next))
    case After(next, spins, snapshot) =>
      if SlotOf(s, next).seqno != next + 1 then
        rx.(pc := if spins + 1 > MAX_SPIN_RETRIES then Fallback(next) else LoadNext(spins + 1))
      else if snapshot.Some? then rx.(pc := Take(next, snapshot.value))
      else rx.(pc := LoadNext(spins))
    case Skip(target, skipped) =>
      rx.(cursor := target, skipped := rx.skipped + skipped, pc := Done(Lagged(skipped), rx.cursor))
    case Take(next, v) => rx.(cursor := next + 1, received := rx.received + 1, pc := Done(Received(v), next))
    case Done(_, _) => rx
  }

  predicate NobodySends<V>(s: State<V>) {
    forall t | 0 <= t < |s.sends| :: s.sends[t].Idle?
  }

  function Next<V>(s: State<V>, a: Action<V>): (r: State<V>)
    requires Shaped(s)
    ensures Shaped(r)
    ensures r.cap == s.cap && r.fused == s.fused && |r.sends| == |s.sends|
  {
    match a
    case CallSend(t, v) =>
      if t < |s.sends| && s.sends[t].Idle? && 0 < s.senders then SetSend(s, t, Fetch(v)) else s
    case SendStep(t) => if t < |s.sends| then Send(s, t) else s
    case CloneSender => if 0 < s.senders then s.(senders := s.senders + 1) else s
    case DropSender =>
      if 1 < s.senders || (s.senders == 1 && NobodySends(s)) then s.(senders := s.senders - 1) else s
    case CallRecv(r) =>
      if r < |s.receivers| && s.receivers[r].pc.Resting? then
        s.(receivers := s.receivers[r := s.receivers[r].(pc := LoadNext(0), rounds := 0, late := s.senders == 0)])
      else s
    case RecvStep(r) =>
      if r < |s.receivers| then s.(receivers := s.receivers[r := Receive(s, s.receivers[r])]) else s
    case Return(r) =>
      if r < |s.receivers| && s.receivers[r].pc.Done? then
        s.(receivers := s.receivers[r := s.receivers[r].(pc := Resting)])
      else s
    case CloneReceiver => s.(receivers := s.receivers + [NewReceiver(s.write)])
  }

  function Exec<V>(s: State<V>, schedule: seq<Action<V>>): (r: State<V>)
    requires Shaped(s)
    ensures Shaped(r)
    ensures r.cap == s.cap && r.fused == s.fused && |r.sends| == |s.sends|
    decreases |schedule|
  {
    if schedule == [] then s
    else Next(Exec(s, schedule[..|schedule| - 1]), schedule[|schedule| - 1])
  }
}
