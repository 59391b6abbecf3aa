/**
 The bounded ring `LockFreeBoundedRing`, as a transition system.

 Any number of threads run `try_push` and `try_pop`. Every atomic access of the source is
 one step: the load of `tail` (`head`), the load of a slot's `sequence`, the weak
 compare-exchange, the access to the slot's value, and the store of `sequence`.
 `Next` is deterministic; a schedule (a sequence of actions) picks who moves, so
 `Exec(Init(cap, n), schedule)` ranges over all reachable states.

 The fields after the comment `history` are never read by a step. They record who claimed
 which ticket with which value, so that properties can be stated.
 */
module Ring {
  import opened Basics

  type Tid = nat

  /** The `MaybeUninit` value of a slot: `Full` holds an initialised, unconsumed value. */
  datatype Cell<+V> = Vacant | Full(val: V)

  datatype Slot<+V> = Slot(sequence: nat, value: Cell<V>)

  /** What a thread does next. The position is the local variable `pos` of the source. */
  datatype Pc<+V> =
    | Idle
    | PushStart(v: V)              // about to load `tail`
    | PushLoaded(v: V, pos: nat)   // about to load the slot's `sequence`
    | PushReady(v: V, pos: nat)    // saw `sequence == pos`; about to compare-exchange `tail`
    | PushClaimed(v: V, pos: nat)  // owns ticket `pos`; about to write the value
    | PushWritten(v: V, pos: nat)  // about to store `sequence = pos + 1`
    | PushOk(v: V, pos: nat)
    | PushErr(v: V, pos: nat)
    | PopStart                     // about to load `head`
    | PopLoaded(pos: nat)
    | PopReady(pos: nat)           // saw `sequence == pos + 1`
    | PopClaimed(pos: nat)         // owns ticket `pos`; about to move the value out
    | PopRead(pos: nat, v: V)      // about to store `sequence = pos + cap`
    | PopSome(pos: nat, v: V)
    | PopNone(pos: nat)

  datatype State<V> = State(
    cap: nat,
    tail: nat,
    head: nat,
    slots: seq<Slot<V>>,
    pcs: seq<Pc<V>>,
    // history
    log: seq<V>,               // the value pushed by each claimed ticket
    producer: seq<Tid>,        // who claimed a ticket for pushing
    consumer: seq<Tid>,        // who claimed a ticket for popping
    taken: seq<Option<V>>,     // what the consumer of a ticket moved out of its slot
    since: seq<nat>,           // `tail` (`head`) when a thread's call began
    retries: seq<nat>,         // loop repetitions of that call, spurious failures not counted
    fault: bool                // a value was overwritten unread, or an empty slot was read
  )

  datatype Action<+V> =
    | CallPush(tid: Tid, v: V)
    | CallPop(tid: Tid)
    | Step(tid: Tid)
    | Spurious(tid: Tid)       // the weak compare-exchange fails although it could succeed
    | Return(tid: Tid)

  function Init<V>(cap: nat, threads: nat): State<V> {
    State(cap, 0, 0, seq(cap, (i: nat) => Slot(i, Vacant)), seq(threads, _ => Idle),
          [], [], [], [], seq(threads, _ => 0), seq(threads, _ => 0), false)
  }

  /** The shapes that make `Next` well defined. */
  predicate Shaped<V>(s: State<V>) {
    && |s.slots| == s.cap
    && |s.since| == |s.retries| == |s.pcs|
    && |s.log| == |s.producer| == s.tail
    && |s.consumer| == |s.taken| == s.head
    && (forall t | 0 <= t < |s.pcs| && s.pcs[t].PopClaimed? :: s.pcs[t].pos < s.head)
    && (s.cap == 0 ==> forall t | 0 <= t < |s.pcs| :: AtRest(s.pcs[t]))
  }

  /** Outside any operation, or about to return from one. */
  predicate AtRest<V>(pc: Pc<V>) {
    pc.Idle? || pc.PushOk? || pc.PushErr? || pc.PopSome? || pc.PopNone?
  }

  function At<V>(s: State<V>, t: Tid, pc: Pc<V>): State<V>
    requires t < |s.pcs|
  {
    s.(pcs := s.pcs[t := pc])
  }

  function Retry<V>(s: State<V>, t: Tid, pc: Pc<V>): State<V>
    requires t < |s.pcs| == |s.retries|
  {
    s.(pcs := s.pcs[t := pc], retries := s.retries[t := s.retries[t] + 1])
  }

  function SetSlot<V>(s: State<V>, i: nat, slot: Slot<V>): State<V>
    requires i < |s.slots|
  {
    s.(slots := s.slots[i := slot])
  }

  /** One step of `try_push` by thread `t`. */
  function PushStep<V>(s: State<V>, t: Tid): (r: State<V>)
    requires Shaped(s) && 0 < s.cap && t < |s.pcs|
    ensures Shaped(r) && r.cap == s.cap && |r.pcs| == |s.pcs|
  {
    match s.pcs[t]
    case PushStart(v) => At(s, t, PushLoaded(v, s.tail))
    case PushLoaded(v, pos) =>
      var seen := s.slots[pos % s.cap].sequence;
      if seen == pos then At(s, t, PushReady(v, pos))
      else if seen < pos then At(s, t, PushErr(v, pos))
      else Retry(s, t, PushStart(v))
    case PushReady(v, pos) =>
      if s.tail == pos then
        At(s, t, PushClaimed(v, pos))
          .(tail := pos + 1, log := s.log + [v], producer := s.producer + [t])
      else Retry(s, t, PushStart(v))
    case PushClaimed(v, pos) =>
      var slot := s.slots[pos % s.cap];
      At(SetSlot(s, pos % s.cap, slot.(value := Full(v))), t, PushWritten(v, pos))
        .(fault := s.fault || slot.value.Full?)
    case PushWritten(v, pos) =>
      var slot := s.slots[pos % s.cap];
      At(SetSlot(s, pos % s.cap, slot.(sequence := pos + 1)), t, PushOk(v, pos))
    case _ => s
  }

  /** One step of `try_pop` by thread `t`. */
  function PopStep<V>(s: State<V>, t: Tid): (r: State<V>)
    requires Shaped(s) && 0 < s.cap && t < |s.pcs|
    ensures Shaped(r) && r.cap == s.cap && |r.pcs| == |s.pcs|
  {
    match s.pcs[t]
    case PopStart => At(s, t, PopLoaded(s.head))
    case PopLoaded(pos) =>
      var seen := s.slots[pos % s.cap].sequence;
      if seen == pos + 1 then At(s, t, PopReady(pos))
      else if seen < pos + 1 then At(s, t, PopNone(pos))
      else Retry(s, t, PopStart)
    case PopReady(pos) =>
      if s.head == pos then
        At(s, t, PopClaimed(pos))
          .(head := pos + 1, consumer := s.consumer + [t], taken := s.taken + [None])
      else Retry(s, t, PopStart)
    case PopClaimed(pos) =>
      var slot := s.slots[pos % s.cap];
      if slot.value.Vacant? then s.(fault := true)
      else
        At(SetSlot(s, pos % s.cap, slot.(value := Vacant)), t, PopRead(pos, slot.value.val))
          .(taken := s.taken[pos := Some(slot.value.val)])
    case PopRead(pos, v) =>
      var slot := s.slots[pos % s.cap];
      At(SetSlot(s, pos % s.cap, slot.(sequence := pos + s.cap)), t, PopSome(pos, v))
    case _ => s
  }

  /** The transition function. An action that is not possible leaves the state as it is. */
  function Next<V>(s: State<V>, a: Action<V>): (r: State<V>)
    requires Shaped(s)
    ensures Shaped(r) && r.cap == s.cap && |r.pcs| == |s.pcs|
  {
    if |s.pcs| <= a.tid then s
    else
      match a
      case CallPush(t, v) =>
        if !s.pcs[t].Idle? then s
        else if s.cap == 0 then At(s, t, PushErr(v, 0))
        else At(s, t, PushStart(v)).(since := s.since[t := s.tail], retries := s.retries[t := 0])
      case CallPop(t) =>
        if !s.pcs[t].Idle? then s
        else if s.cap == 0 then At(s, t, PopNone(0))
        else At(s, t, PopStart).(since := s.since[t := s.head], retries := s.retries[t := 0])
      case Step(t) =>
        if s.cap == 0 then s
        else if s.pcs[t].PopStart? || s.pcs[t].PopLoaded? || s.pcs[t].PopReady?
                || s.pcs[t].PopClaimed? || s.pcs[t].PopRead? then PopStep(s, t)
        else PushStep(s, t)
      case Spurious(t) =>
        if s.pcs[t].PushReady? then At(s, t, PushStart(s.pcs[t].v))
        else if s.pcs[t].PopReady? then At(s, t, PopStart)
        else s
      case Return(t) =>
        if AtRest(s.pcs[t]) then At(s, t, Idle) else s
  }

  function Exec<V>(s: State<V>, schedule: seq<Action<V>>): (r: State<V>)
    requires Shaped(s)
    ensures Shaped(r) && r.cap == s.cap && |r.pcs| == |s.pcs|
    decreases |schedule|
  {
    if schedule == [] then s
    else Next(Exec(s, schedule[..|schedule| - 1]), schedule[|schedule| - 1])
  }

  // ------------------------------------------------------------------------------------
  // The invariant
  // ------------------------------------------------------------------------------------

  /** Ticket `c` is claimed and its producer has not yet stored `sequence = c + 1`. */
  predicate Producing<V>(s: State<V>, c: nat)
    requires Shaped(s)
  {
    && c < s.tail
    && s.producer[c] < |s.pcs|
    && var pc := s.pcs[s.producer[c]];
       (pc.PushClaimed? || pc.PushWritten?) && pc.pos == c
  }

  /** Ticket `c` is claimed for popping and its consumer has not yet released the slot. */
  predicate Consuming<V>(s: State<V>, c: nat)
    requires Shaped(s)
  {
    && c < s.head
    && s.consumer[c] < |s.pcs|
    && var pc := s.pcs[s.consumer[c]];
       (pc.PopClaimed? || pc.PopRead?) && pc.pos == c
  }

  predicate Published<V>(s: State<V>, c: nat)
    requires Shaped(s)
  {
    c < s.tail && !Producing(s, c)
  }

  predicate Released<V>(s: State<V>, c: nat)
    requires Shaped(s)
  {
    c < s.head && !Consuming(s, c)
  }

  /** What the slot that ticket `p` will use next may hold, for `tail <= p < tail + cap`. */
  ghost predicate SlotOk<V>(s: State<V>, p: nat)
    requires Shaped(s) && 0 < s.cap
  {
    var slot := s.slots[p % s.cap];
    if p < s.cap || Released(s, p - s.cap) then
      slot == Slot(p, Vacant)
    else
      var c := p - s.cap;
      && c < s.tail
      && (Producing(s, c) ==>
            && s.head <= c
            && slot.sequence == c
            && slot.value == (if s.pcs[s.producer[c]].PushClaimed? then Vacant else Full(s.log[c])))
      && (!Producing(s, c) ==>
            && slot.sequence == c + 1
            && slot.value == (if Consuming(s, c) && s.pcs[s.consumer[c]].PopRead?
                              then Vacant else Full(s.log[c])))
  }

  /** What a thread's control state says about the shared state. */
  ghost predicate ThreadOk<V>(s: State<V>, t: Tid)
    requires Shaped(s) && 0 < s.cap && t < |s.pcs|
  {
    match s.pcs[t]
    case PushLoaded(v, pos) => pos <= s.tail
    case PushReady(v, pos) =>
      pos <= s.tail && (pos == s.tail ==> s.slots[pos % s.cap].sequence == pos)
    case PushClaimed(v, pos) => pos < s.tail <= pos + s.cap && s.producer[pos] == t && s.log[pos] == v
    case PushWritten(v, pos) => pos < s.tail <= pos + s.cap && s.producer[pos] == t && s.log[pos] == v
    case PushOk(v, pos) => pos < s.tail && s.producer[pos] == t && s.log[pos] == v
    case PushErr(v, pos) => pos <= s.tail
    case PopLoaded(pos) => pos <= s.head
    case PopReady(pos) =>
      pos <= s.head && (pos == s.head ==> s.slots[pos % s.cap].sequence == pos + 1)
    case PopClaimed(pos) =>
      pos < s.head && s.tail <= pos + s.cap && s.consumer[pos] == t && s.taken[pos] == None
    case PopRead(pos, v) =>
      pos < s.head && s.tail <= pos + s.cap && s.consumer[pos] == t && s.taken[pos] == Some(v)
    case PopSome(pos, v) => pos < s.head && s.consumer[pos] == t && s.taken[pos] == Some(v)
    case PopNone(pos) => pos <= s.head
    case _ => true
  }

  ghost predicate TakenOk<V>(s: State<V>, c: nat)
    requires Shaped(s) && c < s.head <= s.tail
  {
    s.taken[c] == if Consuming(s, c) && s.pcs[s.consumer[c]].PopClaimed? then None else Some(s.log[c])
  }

  ghost predicate Inv<V>(s: State<V>) {
    && Shaped(s)
    && 2 <= s.cap
    && s.head <= s.tail <= s.head + s.cap
    && !s.fault
    && (forall p: nat | s.tail <= p < s.tail + s.cap :: SlotOk(s, p))
    && (forall t: nat | t < |s.pcs| :: ThreadOk(s, t))
    && (forall c: nat | c < s.head :: TakenOk(s, c))
    && (forall c: nat | c < s.head :: Published(s, c))
  }

  lemma InitInv<V>(cap: nat, threads: nat)
    requires 2 <= cap
    ensures Inv(Init<V>(cap, threads))
  {
    var s := Init<V>(cap, threads);
    forall p: nat | s.tail <= p < s.tail + s.cap ensures SlotOk(s, p) {
      RemainderUnique(p, 0, p, cap);
    }
  }

  // ------------------------------------------------------------------------------------
  // Every step keeps the invariant
  // ------------------------------------------------------------------------------------

  predicate Owning<V>(pc: Pc<V>) {
    pc.PushClaimed? || pc.PushWritten? || pc.PopClaimed? || pc.PopRead?
  }

  /** A step that changes no shared memory, and neither takes nor gives up a ticket. */
  lemma LocalStep<V>(s: State<V>, t: Tid, pc: Pc<V>, since: seq<nat>, retries: seq<nat>)
    requires Inv(s) && t < |s.pcs|
    requires |since| == |retries| == |s.pcs|
    requires !Owning(s.pcs[t]) && !Owning(pc)
    requires ThreadOk(At(s, t, pc), t)
    ensures Inv(At(s, t, pc).(since := since, retries := retries))
  {
    var r := At(s, t, pc).(since := since, retries := retries);
    assert forall c: nat :: Producing(r, c) == Producing(s, c);
    assert forall c: nat :: Consuming(r, c) == Consuming(s, c);
    forall p: nat | r.tail <= p < r.tail + r.cap ensures SlotOk(r, p) {
      assert SlotOk(s, p);
    }
    forall u: nat | u < |r.pcs| ensures ThreadOk(r, u) {
      assert ThreadOk(s, u);
    }
    forall c: nat | c < r.head ensures TakenOk(r, c) && Published(r, c) {
      assert TakenOk(s, c) && Published(s, c);
    }
  }

  /** `compare_exchange_weak(tail)` succeeds. */
  ghost predicate ClaimsTail<V>(s: State<V>, t: Tid) {
    Inv(s) && t < |s.pcs| && s.pcs[t].PushReady? && s.tail == s.pcs[t].pos
  }

  lemma ClaimTailOwners<V>(s: State<V>, t: Tid, c: nat)
    requires ClaimsTail(s, t)
    ensures c < s.tail ==> Producing(PushStep(s, t), c) == Producing(s, c)
    ensures c < s.tail ==> PushStep(s, t).log[c] == s.log[c] && PushStep(s, t).producer[c] == s.producer[c]
    ensures Consuming(PushStep(s, t), c) == Consuming(s, c)
    ensures Producing(PushStep(s, t), s.tail)
  {
  }

  lemma ClaimTailSlot<V>(s: State<V>, t: Tid, p: nat)
    requires ClaimsTail(s, t) && s.tail + 1 <= p < s.tail + 1 + s.cap
    ensures SlotOk(PushStep(s, t), p)
  {
    if p < s.tail + s.cap {
      assert SlotOk(s, p);
      if s.cap <= p { ClaimTailOwners(s, t, p - s.cap); }
    } else {
      assert ThreadOk(s, t) && SlotOk(s, s.tail);
      NextLap(s.tail, s.cap);
      ClaimTailOwners(s, t, s.tail);
    }
  }

  lemma ClaimTailThread<V>(s: State<V>, t: Tid, u: Tid)
    requires ClaimsTail(s, t) && u < |s.pcs|
    ensures ThreadOk(PushStep(s, t), u)
  {
    assert ThreadOk(s, u) && ThreadOk(s, t);
    if u != t && Owning(s.pcs[u]) {
      OwnedIsRecent(s, u);
    }
  }

  lemma ClaimTail<V>(s: State<V>, t: Tid)
    requires ClaimsTail(s, t)
    ensures Inv(PushStep(s, t))
  {
    var r := PushStep(s, t);
    assert ThreadOk(s, t) && SlotOk(s, s.tail);
    forall p: nat | r.tail <= p < r.tail + r.cap ensures SlotOk(r, p) {
      ClaimTailSlot(s, t, p);
    }
    forall u: nat | u < |r.pcs| ensures ThreadOk(r, u) {
      ClaimTailThread(s, t, u);
    }
    forall c: nat | c < r.head ensures TakenOk(r, c) && Published(r, c) {
      assert TakenOk(s, c) && Published(s, c);
      ClaimTailOwners(s, t, c);
    }
  }

  /** What the invariant says about the slot of the ticket that `t` owns. */
  lemma OwnedSlot<V>(s: State<V>, t: Tid)
    requires Inv(s) && t < |s.pcs| && Owning(s.pcs[t])
    ensures s.pcs[t].pos < s.tail <= s.pcs[t].pos + s.cap
    ensures (s.pcs[t].pos + s.cap) % s.cap == s.pcs[t].pos % s.cap
    ensures SlotOk(s, s.pcs[t].pos + s.cap) && !Released(s, s.pcs[t].pos)
    ensures s.pcs[t].PushClaimed? || s.pcs[t].PushWritten? ==> Producing(s, s.pcs[t].pos)
    ensures s.pcs[t].PopClaimed? || s.pcs[t].PopRead? ==>
              Consuming(s, s.pcs[t].pos) && !Producing(s, s.pcs[t].pos)
  {
    var pos := s.pcs[t].pos;
    assert ThreadOk(s, t);
    NextLap(pos, s.cap);
    assert SlotOk(s, pos + s.cap);
    if pos < s.head {
      assert Published(s, pos);
    }
  }

  /** Every other slot in the window is a different slot. */
  lemma OtherSlot<V>(s: State<V>, t: Tid, p: nat)
    requires Inv(s) && t < |s.pcs| && Owning(s.pcs[t])
    requires s.tail <= p < s.tail + s.cap
    ensures p % s.cap == s.pcs[t].pos % s.cap <==> p == s.pcs[t].pos + s.cap
  {
    OwnedSlot(s, t);
    if p % s.cap == s.pcs[t].pos % s.cap {
      SameSlotSameTicket(p, s.pcs[t].pos + s.cap, s.cap);
    }
  }

  /** While a thread owns a ticket, the ticket one lap later is not free yet. */
  lemma OwnedIsRecent<V>(s: State<V>, u: Tid)
    requires Inv(s) && u < |s.pcs| && Owning(s.pcs[u])
    requires s.slots[s.tail % s.cap].sequence == s.tail
    ensures s.tail < s.pcs[u].pos + s.cap
  {
    OwnedSlot(s, u);
  }

  /** If the slot at `head` holds `head + 1`, the head ticket is published and untouched. */
  lemma HeadSlot<V>(s: State<V>)
    requires Inv(s)
    requires s.slots[s.head % s.cap].sequence == s.head + 1
    ensures s.head < s.tail && Published(s, s.head)
    ensures (s.head + s.cap) % s.cap == s.head % s.cap
    ensures SlotOk(s, s.head + s.cap)
    ensures s.slots[s.head % s.cap].value == Full(s.log[s.head])
  {
    NextLap(s.head, s.cap);
    assert SlotOk(s, s.tail);
    if s.head < s.tail {
      assert SlotOk(s, s.head + s.cap);
    }
  }

  /**
   The common part of the four steps of a ticket's owner `t`: only its own slot, its own
   control state and its own entry of `taken` may change.
   */
  ghost predicate OwnerStep<V>(s: State<V>, r: State<V>, t: Tid) {
    && Inv(s) && t < |s.pcs| && Owning(s.pcs[t])
    && Shaped(r) && r.cap == s.cap && r.tail == s.tail && r.head == s.head && !r.fault
    && r.producer == s.producer && r.consumer == s.consumer && r.log == s.log
    && |r.pcs| == |s.pcs| && r.pcs == s.pcs[t := r.pcs[t]]
    && (r.pcs[t].PushOk? || r.pcs[t].PopSome? || r.pcs[t].PushWritten? || r.pcs[t].PopRead?)
    && (Owning(r.pcs[t]) ==> r.pcs[t].pos == s.pcs[t].pos && (r.pcs[t].PopRead? == s.pcs[t].PopClaimed?))
    && (forall i: nat | i < s.cap && i != s.pcs[t].pos % s.cap :: r.slots[i] == s.slots[i])
    && (forall c: nat | c < s.head && c != s.pcs[t].pos :: r.taken[c] == s.taken[c])
    && (Owning(r.pcs[t]) ==>
          r.slots[s.pcs[t].pos % s.cap].sequence == s.slots[s.pcs[t].pos % s.cap].sequence)
  }

  lemma OwnersKept<V>(s: State<V>, r: State<V>, t: Tid, c: nat)
    requires OwnerStep(s, r, t)
    requires c != s.pcs[t].pos
    ensures Producing(r, c) == Producing(s, c) && Consuming(r, c) == Consuming(s, c)
  {
  }

  lemma OtherSlotsKept<V>(s: State<V>, r: State<V>, t: Tid, p: nat)
    requires OwnerStep(s, r, t)
    requires s.tail <= p < s.tail + s.cap && p != s.pcs[t].pos + s.cap
    ensures SlotOk(r, p)
  {
    assert SlotOk(s, p);
    OtherSlot(s, t, p);
    if s.cap <= p {
      OwnersKept(s, r, t, p - s.cap);
      if Producing(s, p - s.cap) { assert s.producer[p - s.cap] != t; }
      if Consuming(s, p - s.cap) { assert s.consumer[p - s.cap] != t; }
    }
  }

  /** A free slot at `tail` and a published slot at `head` are not the slot of an owner. */
  lemma SightsKept<V>(s: State<V>, r: State<V>, t: Tid)
    requires OwnerStep(s, r, t)
    ensures s.slots[s.tail % s.cap].sequence == s.tail ==> r.slots[s.tail % s.cap].sequence == s.tail
    ensures s.slots[s.head % s.cap].sequence == s.head + 1 ==> r.slots[s.head % s.cap].sequence == s.head + 1
  {
    OwnedSlot(s, t);
    if s.slots[s.tail % s.cap].sequence == s.tail {
      assert SlotOk(s, s.tail);
      OtherSlot(s, t, s.tail);
    }
    if s.slots[s.head % s.cap].sequence == s.head + 1 {
      HeadSlot(s);
      OtherSlot(s, t, s.head + s.cap);
    }
  }

  /** Two owners hold different tickets. */
  lemma OtherTickets<V>(s: State<V>, t: Tid, u: Tid)
    requires Inv(s) && t < |s.pcs| && u < |s.pcs| && t != u
    requires Owning(s.pcs[t]) && Owning(s.pcs[u])
    ensures s.pcs[t].pos != s.pcs[u].pos
  {
    assert ThreadOk(s, t) && ThreadOk(s, u);
    OwnedSlot(s, t);
    OwnedSlot(s, u);
  }

  lemma OtherThreadKept<V>(s: State<V>, r: State<V>, t: Tid, u: Tid)
    requires OwnerStep(s, r, t) && u < |s.pcs| && u != t
    ensures ThreadOk(r, u)
  {
    assert ThreadOk(s, u) && ThreadOk(s, t);
    OwnedSlot(s, t);
    match s.pcs[u]
    case PushReady(_, _) => SightsKept(s, r, t);
    case PopReady(_) => SightsKept(s, r, t);
    case PushClaimed(_, pos) => OtherTickets(s, t, u);
    case PushWritten(_, pos) => OtherTickets(s, t, u);
    case PopClaimed(pos) => OtherTickets(s, t, u);
    case PopRead(pos, _) => OtherTickets(s, t, u);
    case _ =>
  }

  lemma OwnerStepInv<V>(s: State<V>, r: State<V>, t: Tid)
    requires OwnerStep(s, r, t)
    requires ThreadOk(r, t) && SlotOk(r, s.pcs[t].pos + s.cap)
    requires s.pcs[t].pos < s.head ==> TakenOk(r, s.pcs[t].pos) && Published(r, s.pcs[t].pos)
    ensures Inv(r)
  {
    forall p: nat | r.tail <= p < r.tail + r.cap ensures SlotOk(r, p) {
      if p != s.pcs[t].pos + s.cap { OtherSlotsKept(s, r, t, p); }
    }
    forall u: nat | u < |r.pcs| ensures ThreadOk(r, u) {
      if u != t { OtherThreadKept(s, r, t, u); }
    }
    forall c: nat | c < r.head ensures TakenOk(r, c) && Published(r, c) {
      assert TakenOk(s, c) && Published(s, c);
      if c != s.pcs[t].pos { OwnersKept(s, r, t, c); }
    }
  }

  /** The owner of a ticket writes or reads the value, or stores `sequence`. */
  lemma OwnerMoves<V>(s: State<V>, t: Tid)
    requires Inv(s) && t < |s.pcs| && Owning(s.pcs[t])
    ensures Inv(Next(s, Step(t)))
  {
    var r := Next(s, Step(t));
    var pos := s.pcs[t].pos;
    assert ThreadOk(s, t);
    OwnedSlot(s, t);
    if pos < s.head {
      assert TakenOk(s, pos) && Published(s, pos);
    }
    OwnerStepInv(s, r, t);
  }

  /** `compare_exchange_weak(head)` succeeds. */
  ghost predicate ClaimsHead<V>(s: State<V>, t: Tid) {
    Inv(s) && t < |s.pcs| && s.pcs[t].PopReady? && s.head == s.pcs[t].pos
  }

  lemma ClaimHeadOwners<V>(s: State<V>, t: Tid, c: nat)
    requires ClaimsHead(s, t)
    ensures Producing(PopStep(s, t), c) == Producing(s, c)
    ensures c < s.head ==> Consuming(PopStep(s, t), c) == Consuming(s, c)
    ensures c < s.head ==> PopStep(s, t).consumer[c] == s.consumer[c] && PopStep(s, t).taken[c] == s.taken[c]
    ensures Consuming(PopStep(s, t), s.head)
  {
  }

  lemma ClaimHeadSlot<V>(s: State<V>, t: Tid, p: nat)
    requires ClaimsHead(s, t) && s.tail <= p < s.tail + s.cap
    ensures SlotOk(PopStep(s, t), p)
  {
    assert ThreadOk(s, t) && SlotOk(s, p);
    HeadSlot(s);
    if s.cap <= p { ClaimHeadOwners(s, t, p - s.cap); }
  }

  lemma ClaimHead<V>(s: State<V>, t: Tid)
    requires ClaimsHead(s, t)
    ensures Inv(PopStep(s, t))
  {
    var r := PopStep(s, t);
    assert ThreadOk(s, t);
    HeadSlot(s);
    forall p: nat | r.tail <= p < r.tail + r.cap ensures SlotOk(r, p) {
      ClaimHeadSlot(s, t, p);
    }
    forall u: nat | u < |r.pcs| ensures ThreadOk(r, u) {
      assert ThreadOk(s, u);
    }
    forall c: nat | c < r.head ensures TakenOk(r, c) && Published(r, c) {
      ClaimHeadOwners(s, t, c);
      if c < s.head {
        assert TakenOk(s, c) && Published(s, c);
      }
    }
  }

  /** The steps that change neither shared memory nor ownership: loads, refusals, failed exchanges. */
  lemma PlainPushStep<V>(s: State<V>, t: Tid)
    requires Inv(s) && t < |s.pcs|
    requires s.pcs[t].PushStart? || s.pcs[t].PushLoaded? || (s.pcs[t].PushReady? && s.tail != s.pcs[t].pos)
    ensures Inv(PushStep(s, t))
  {
    assert ThreadOk(s, t);
    var r := PushStep(s, t);
    LocalStep(s, t, r.pcs[t], r.since, r.retries);
  }

  lemma PlainPopStep<V>(s: State<V>, t: Tid)
    requires Inv(s) && t < |s.pcs|
    requires s.pcs[t].PopStart? || s.pcs[t].PopLoaded? || (s.pcs[t].PopReady? && s.head != s.pcs[t].pos)
    ensures Inv(PopStep(s, t))
  {
    assert ThreadOk(s, t);
    var r := PopStep(s, t);
    LocalStep(s, t, r.pcs[t], r.since, r.retries);
  }

  lemma OtherActions<V>(s: State<V>, a: Action<V>)
    requires Inv(s) && a.tid < |s.pcs| && !a.Step?
    ensures Inv(Next(s, a))
  {
    var r := Next(s, a);
    if r != s {
      LocalStep(s, a.tid, r.pcs[a.tid], r.since, r.retries);
    }
  }

  lemma StepInv<V>(s: State<V>, a: Action<V>)
    requires Inv(s)
    ensures Inv(Next(s, a))
  {
    if a.tid < |s.pcs| {
      var t := a.tid;
      if !a.Step? {
        OtherActions(s, a);
      } else {
        match s.pcs[t]
        case PushStart(_) => PlainPushStep(s, t);
        case PushLoaded(_, _) => PlainPushStep(s, t);
        case PushReady(_, pos) => if s.tail == pos { ClaimTail(s, t); } else { PlainPushStep(s, t); }
        case PopStart => PlainPopStep(s, t);
        case PopLoaded(_) => PlainPopStep(s, t);
        case PopReady(pos) => if s.head == pos { ClaimHead(s, t); } else { PlainPopStep(s, t); }
        case PushClaimed(_, _) => OwnerMoves(s, t);
        case PushWritten(_, _) => OwnerMoves(s, t);
        case PopClaimed(_) => OwnerMoves(s, t);
        case PopRead(_, _) => OwnerMoves(s, t);
        case _ =>
      }
    }
  }

  /** The invariant holds in every reachable state. */
  lemma {:induction false} ReachableInv<V>(cap: nat, threads: nat, schedule: seq<Action<V>>)
    requires 2 <= cap
    ensures Inv(Exec(Init<V>(cap, threads), schedule))
    decreases |schedule|
  {
    if schedule == [] {
      InitInv<V>(cap, threads);
    } else {
      ReachableInv(cap, threads, schedule[..|schedule| - 1]);
      StepInv(Exec(Init<V>(cap, threads), schedule[..|schedule| - 1]), schedule[|schedule| - 1]);
    }
  }
}
