/**
 One thread blocked in `select_impl` over receive arms on bounded MPSC channels, against any
 number of senders, as one transition system.

 Thread 0 selects, and is the only consumer of the channels. Every arm names a channel;
 several arms may name the same one. The stacks of select waiters are sequences, top first
 (module `WaiterStack` justifies that step by step); everything else is at the grain of
 single atomic accesses. Each registration makes a node, each round of the loop a new
 `selected` cell; the current cell is the last one.
 */
module SelectCall {
  import opened Basics
  import R = Ring

  type Tid = nat
  type Nid = nat

  datatype Node = Node(cell: nat, arm: nat, aborted: bool)

  datatype Chan<V> = Chan(
    ring: R.State<V>,
    stack: seq<Nid>,
    senders: nat,
    lastDropper: Tid           // history: who took `senders` from one to zero
  )

  /** Where a readiness check stands: before the load of `head`, of `sequence`, of `sender_count`. */
  datatype Check = Head | Sequence(pos: nat) | Count

  datatype SelPc =
    | Outside
    | Try(start: nat, i: nat, check: Check)    // checking arm (start + i) % n
    | Register(arm: nat)
    | Recheck(arm: nat, check: Check)
    | Claim(arm: nat)                          // saw arm ready; about to compare-exchange `selected`
    | Look                                     // about to load `selected`
    | Park
    | AbortLoad(arm: nat)
    | AbortMark(arm: nat, rest: seq<Nid>)
    | Final
    | Again                                    // nothing selected: the loop starts over
    | Returned(arm: nat)

  /** A sender, or a dropper of the last sender (`all`), on channel `chan`. */
  datatype Op =
    | Idle
    | Push(chan: nat)
    | Swap(chan: nat, all: bool)
    | Visit(chan: nat, all: bool, rest: seq<Nid>, won: bool)       // about to look at the first node
    | Exchange(chan: nat, all: bool, rest: seq<Nid>, won: bool)    // about to claim the first node's cell
    | Unpark(chan: nat, all: bool, rest: seq<Nid>, won: bool)      // about to unpark; `rest` comes after it

  datatype State<V> = State(
    arms: seq<nat>,
    chans: seq<Chan<V>>,
    nodes: seq<Node>,
    cells: seq<nat>,
    sel: SelPc,
    token: bool,
    ops: seq<Op>,
    // history
    mine: seq<Nid>,            // the current cell's nodes, by arm
    holder: seq<Tid>,          // per node: who drained it
    winner: seq<Tid>,          // per cell: who claimed it (0 for the selecting thread)
    clean: bool,               // no sender was inside an operation when the current call began
    busy: nat                  // how many senders were, at most, when any call so far began
  )

  datatype Action<+V> =
    | CallSend(tid: Tid, chan: nat, v: V)
    | DropSender(tid: Tid, chan: nat)
    | CloneSender(chan: nat)
    | Step(tid: Tid)
    | Spurious(tid: Tid)                    // a weak exchange fails, or `park` returns for no reason
    | Stray                                 // an unrelated `unpark`
    | Sweep(start: nat)                     // a call, or its loop, loads the fairness counter
    | Return
    | Consume(chan: nat, act: R.Action<V>)  // between two calls the selecting thread receives
    | OwnPark(left: bool)                   // ... and may park there, with or without a token left

  function Init<V>(arms: seq<nat>, caps: seq<nat>, threads: nat): State<V> {
    State(arms, seq(|caps|, c requires 0 <= c < |caps| => Chan(R.Init(caps[c], threads), [], 1, 0)),
          [], [], Outside, false, seq(threads, _ => Idle), [], [], [], true, 0)
  }

  predicate Walking(op: Op) {
    op.Visit? || op.Exchange? || op.Unpark?
  }

  predicate OpShaped(op: Op, nodes: nat, chans: nat) {
    && (op.Idle? || op.chan < chans)
    && (Walking(op) ==> forall i | 0 <= i < |op.rest| :: op.rest[i] < nodes)
    && (op.Exchange? ==> op.rest != [])
  }

  predicate SelShaped(sel: SelPc, arms: nat, nodes: nat, cells: nat) {
    match sel
    case Outside => true
    case Try(_, i, _) => i < arms
    case Register(j) => j < arms && 0 < cells
    case Recheck(j, _) => j < arms && 0 < cells
    case Claim(j) => j < arms && 0 < cells
    case Look => 0 < cells
    case Park => 0 < cells
    case AbortLoad(j) => j < arms && 0 < cells
    case AbortMark(j, rest) => j < arms && 0 < cells && forall i | 0 <= i < |rest| :: rest[i] < nodes
    case Final => 0 < cells
    case Again => true
    case Returned(_) => true
  }

  predicate ChanShaped<V>(ch: Chan<V>, threads: nat, nodes: nat) {
    R.Shaped(ch.ring) && |ch.ring.pcs| == threads && forall i | 0 <= i < |ch.stack| :: ch.stack[i] < nodes
  }

  predicate Shaped<V>(s: State<V>) {
    && 0 < |s.arms| && 0 < |s.ops|
    && (forall j | 0 <= j < |s.arms| :: s.arms[j] < |s.chans|)
    && (forall c | 0 <= c < |s.chans| :: ChanShaped(s.chans[c], |s.ops|, |s.nodes|))
    && (forall n | 0 <= n < |s.nodes| :: s.nodes[n].cell < |s.cells|)
    && (forall t | 0 <= t < |s.ops| :: OpShaped(s.ops[t], |s.nodes|, |s.chans|))
    && SelShaped(s.sel, |s.arms|, |s.nodes|, |s.cells|)
    && |s.holder| == |s.nodes| && |s.winner| == |s.cells|
  }

  function Cur<V>(s: State<V>): nat
    requires 0 < |s.cells|
  {
    |s.cells| - 1
  }

  function SetOp<V>(s: State<V>, t: Tid, op: Op): (r: State<V>)
    requires Shaped(s) && t < |s.ops| && OpShaped(op, |s.nodes|, |s.chans|)
    ensures Shaped(r)
  {
    s.(ops := s.ops[t := op])
  }

  function SetChan<V>(s: State<V>, c: nat, ch: Chan<V>): (r: State<V>)
    requires Shaped(s) && c < |s.chans| && ChanShaped(ch, |s.ops|, |s.nodes|)
    ensures Shaped(r)
  {
    s.(chans := s.chans[c := ch])
  }

  function SetSel<V>(s: State<V>, sel: SelPc): (r: State<V>)
    requires Shaped(s) && SelShaped(sel, |s.arms|, |s.nodes|, |s.cells|)
    ensures Shaped(r)
  {
    s.(sel := sel)
  }

  /** `compare_exchange(UNSELECTED, arm)` by thread `t` on cell `k`. */
  function ClaimCell<V>(s: State<V>, k: nat, arm: nat, t: Tid): (r: State<V>)
    requires Shaped(s) && k < |s.cells|
    ensures Shaped(r)
  {
    if s.cells[k] == UNSELECTED then s.(cells := s.cells[k := arm], winner := s.winner[k := t]) else s
  }

  // ------------------------------------------------------------------------------------
  // The senders
  // ------------------------------------------------------------------------------------

  function RingStep<V>(s: State<V>, c: nat, act: R.Action<V>): (r: State<V>)
    requires Shaped(s) && c < |s.chans|
    ensures Shaped(r)
  {
    SetChan(s, c, s.chans[c].(ring := R.Next(s.chans[c].ring, act)))
  }

  /** `swap(null)` on the channel's stack. */
  function TakeStack<V>(s: State<V>, t: Tid, c: nat, all: bool): (r: State<V>)
    requires Shaped(s) && t < |s.ops| && c < |s.chans|
    ensures Shaped(r)
  {
    var stack := s.chans[c].stack;
    SetOp(SetChan(s, c, s.chans[c].(stack := [])), t, Visit(c, all, stack, false))
      .(holder := seq(|s.holder|, n requires 0 <= n < |s.holder| => if n in stack then t else s.holder[n]))
  }

  function SenderStep<V>(s: State<V>, t: Tid): (r: State<V>)
    requires Shaped(s) && t < |s.ops|
    ensures Shaped(r)
  {
    match s.ops[t]
    case Idle => s
    case Push(c) =>
      var r := RingStep(s, c, R.Step(t));
      var pc := r.chans[c].ring.pcs[t];
      if pc.PushOk? then SetOp(r, t, Swap(c, false))
      else if pc.PushErr? then SetOp(r, t, Idle)
      else r
    case Swap(c, all) => TakeStack(s, t, c, all)
    case Visit(c, all, rest, won) =>
      if rest == [] then SetOp(s, t, Idle)
      else if s.nodes[rest[0]].aborted || (!all && won) then SetOp(s, t, Visit(c, all, rest[1..], won))
      else SetOp(s, t, Exchange(c, all, rest, won))
    case Exchange(c, all, rest, won) =>
      var k := s.nodes[rest[0]].cell;
      var claimed := s.cells[k] == UNSELECTED;
      var r := ClaimCell(s, k, s.nodes[rest[0]].arm, t);
      if claimed || all then SetOp(r, t, Unpark(c, all, rest[1..], won || claimed))
      else SetOp(r, t, Visit(c, all, rest[1..], won))
    case Unpark(c, all, rest, won) => SetOp(s, t, Visit(c, all, rest, won)).(token := true)
  }

  // ------------------------------------------------------------------------------------
  // The selecting thread
  // ------------------------------------------------------------------------------------

  /** One load of `is_ready` on an arm: the next load, or the answer. */
  datatype Answer = More(check: Check) | Ready | NotReady

  function CheckStep<V>(s: State<V>, arm: nat, check: Check): Answer
    requires Shaped(s) && arm < |s.arms|
  {
    var ch := s.chans[s.arms[arm]];
    match check
    case Head => if ch.ring.cap == 0 then More(Count) else More(Sequence(ch.ring.head))
    case Sequence(pos) =>
      if ch.ring.cap != 0 && ch.ring.slots[pos % ch.ring.cap].sequence == pos + 1 then Ready else More(Count)
    case Count => if ch.senders == 0 then Ready else NotReady
  }

  function TryStep<V>(s: State<V>): (r: State<V>)
    requires Shaped(s) && s.sel.Try?
    ensures Shaped(r)
  {
    var n := |s.arms|;
    var arm := (s.sel.start + s.sel.i) % n;
    match CheckStep(s, arm, s.sel.check)
    case More(check) => SetSel(s, Try(s.sel.start, s.sel.i, check))
    case Ready => SetSel(s, Returned(arm))
    case NotReady =>
      if s.sel.i + 1 < n then SetSel(s, Try(s.sel.start, s.sel.i + 1, Head))
      else
        s.(cells := s.cells + [UNSELECTED], winner := s.winner + [0], mine := [], sel := Register(0))
  }

  function RegisterStep<V>(s: State<V>): (r: State<V>)
    requires Shaped(s) && s.sel.Register?
    ensures Shaped(r)
  {
    var arm := s.sel.arm;
    var c := s.arms[arm];
    var n := |s.nodes|;
    var r := s.(nodes := s.nodes + [Node(Cur(s), arm, false)], holder := s.holder + [0], mine := s.mine + [n]);
    SetSel(SetChan(r, c, s.chans[c].(stack := [n] + s.chans[c].stack)),
           if arm + 1 < |s.arms| then Register(arm + 1) else Recheck(0, Head))
  }

  function RecheckStep<V>(s: State<V>): (r: State<V>)
    requires Shaped(s) && s.sel.Recheck?
    ensures Shaped(r)
  {
    var arm := s.sel.arm;
    match CheckStep(s, arm, s.sel.check)
    case More(check) => SetSel(s, Recheck(arm, check))
    case Ready => SetSel(s, Claim(arm))
    case NotReady => SetSel(s, if arm + 1 < |s.arms| then Recheck(arm + 1, Head) else Look)
  }

  function AbortStep<V>(s: State<V>): (r: State<V>)
    requires Shaped(s) && (s.sel.AbortLoad? || s.sel.AbortMark?)
    ensures Shaped(r)
  {
    var arm := s.sel.arm;
    match s.sel
    case AbortLoad(_) => SetSel(s, AbortMark(arm, s.chans[s.arms[arm]].stack))
    case AbortMark(_, rest) =>
      if rest == [] then SetSel(s, if arm + 1 < |s.arms| then AbortLoad(arm + 1) else Final)
      else
        var n := rest[0];
        var r := SetSel(s, AbortMark(arm, rest[1..]));
        if s.nodes[n].cell == Cur(s) then r.(nodes := s.nodes[n := s.nodes[n].(aborted := true)]) else r
    case _ => s
  }

  function SelectorStep<V>(s: State<V>): (r: State<V>)
    requires Shaped(s)
    ensures Shaped(r)
  {
    match s.sel
    case Outside => s
    case Try(_, _, _) => TryStep(s)
    case Register(_) => RegisterStep(s)
    case Recheck(_, _) => RecheckStep(s)
    case Claim(arm) => SetSel(ClaimCell(s, Cur(s), arm, 0), Look)
    case Look => SetSel(s, if s.cells[Cur(s)] == UNSELECTED then Park else AbortLoad(0))
    case Park => if s.token then SetSel(s, AbortLoad(0)).(token := false) else s
    case AbortLoad(_) => AbortStep(s)
    case AbortMark(_, _) => AbortStep(s)
    case Final =>
      SetSel(s, if s.cells[Cur(s)] != UNSELECTED then Returned(s.cells[Cur(s)]) else Again)
    case Again => s
    case Returned(_) => s
  }

  /** How many threads are inside an operation. */
  function Busy(ops: seq<Op>): nat {
    if ops == [] then 0 else (if ops[0].Idle? then 0 else 1) + Busy(ops[1..])
  }

  predicate NobodySends<V>(s: State<V>, c: nat) {
    forall t | 0 <= t < |s.ops| :: s.ops[t] != Push(c) && s.ops[t] != Swap(c, false)
                                   && !(Walking(s.ops[t]) && !s.ops[t].all && s.ops[t].chan == c)
  }

  function Next<V>(s: State<V>, a: Action<V>): (r: State<V>)
    requires Shaped(s)
    ensures Shaped(r)
  {
    match a
    case CallSend(t, c, v) =>
      if 0 < t < |s.ops| && s.ops[t].Idle? && c < |s.chans| && 0 < s.chans[c].senders then
        var r := RingStep(RingStep(s, c, R.Return(t)), c, R.CallPush(t, v));
        if r.chans[c].ring.pcs[t].PushErr? then r else SetOp(r, t, Push(c))
      else s
    case DropSender(t, c) =>
      if 0 < t < |s.ops| && s.ops[t].Idle? && c < |s.chans| && 2 <= s.chans[c].senders then
        SetChan(s, c, s.chans[c].(senders := s.chans[c].senders - 1))
      else if 0 < t < |s.ops| && s.ops[t].Idle? && c < |s.chans| && s.chans[c].senders == 1 && NobodySends(s, c) then
        SetOp(SetChan(s, c, s.chans[c].(senders := 0, lastDropper := t)), t, Swap(c, true))
      else s
    case CloneSender(c) =>
      if c < |s.chans| && 0 < s.chans[c].senders then
        SetChan(s, c, s.chans[c].(senders := s.chans[c].senders + 1))
      else s
    case Step(t) => if t == 0 then SelectorStep(s) else if t < |s.ops| then SenderStep(s, t) else s
    case Spurious(t) =>
      if t == 0 then (if s.sel.Park? then SetSel(s, AbortLoad(0)) else s)
      else if t < |s.ops| && s.ops[t].Push? then RingStep(s, s.ops[t].chan, R.Spurious(t)) else s
    case Stray => s.(token := true)
    case Sweep(start) =>
      if s.sel.Again? then SetSel(s, Try(start % |s.arms|, 0, Head))
      else if s.sel.Outside? && forall c | 0 <= c < |s.chans| :: R.AtRest(s.chans[c].ring.pcs[0]) then
        SetSel(s, Try(start % |s.arms|, 0, Head))
          .(clean := Busy(s.ops) == 0, busy := if s.busy < Busy(s.ops) then Busy(s.ops) else s.busy)
      else s
    case Return => if s.sel.Returned? then SetSel(s, Outside) else s
    case Consume(c, act) =>
      if s.sel.Outside? && c < |s.chans| && act.tid == 0 && !act.CallPush? then RingStep(s, c, act) else s
    case OwnPark(left) => if s.sel.Outside? then s.(token := left) else s
  }

  function Exec<V>(s: State<V>, schedule: seq<Action<V>>): (r: State<V>)
    requires Shaped(s)
    ensures Shaped(r)
    decreases |schedule|
  {
    if schedule == [] then s
    else Next(Exec(s, schedule[..|schedule| - 1]), schedule[|schedule| - 1])
  }
}
