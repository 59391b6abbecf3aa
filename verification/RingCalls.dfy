/**
 What whole calls do to the ring, for every capacity: a call is made between calls, and nobody
 disturbs it. For a capacity other than one they are the calls of a bounded queue. With
 capacity one the number for "full" and the number for "free again" are the same; then every
 push is accepted, and after two of them in a row a pop never ends. One is also the only capacity
 for which the promises of module `RingProperties` fail.
 */
module RingCalls {
  import opened Basics
  import opened Ring
  import opened RingProgress
  import opened RingProperties

  // ------------------------------------------------------------------------------------
  // The specification
  // ------------------------------------------------------------------------------------

  /** Whether a whole push is accepted when `n` values are queued. */
  predicate Accepts(cap: nat, n: nat) {
    n < cap || cap == 1
  }

  /** Whether a whole pop goes round its loop forever when `n` values are queued. */
  predicate Stuck(cap: nat, n: nat) {
    cap == 1 && 2 <= n
  }

  /** Between whole calls. A ring of one slot holds the last pushed value, under the number `tail`. */
  ghost predicate Settled<V>(s: State<V>) {
    && Shaped(s) && Quiet(s) && s.head <= s.tail
    && (2 <= s.cap ==> Inv(s))
    && (s.cap == 1 ==>
          s.slots == [Slot(s.tail, if s.head == s.tail then Vacant else Full(s.log[s.tail - 1]))])
    && (s.cap == 0 ==> s.tail == 0)
  }

  lemma InitSettled<V>(cap: nat, threads: nat)
    ensures Settled(Init<V>(cap, threads))
  {
    if 2 <= cap { InitInv<V>(cap, threads); }
  }

  lemma ReturnSettled<V>(s: State<V>, t: Tid)
    requires Settled(s) && t < |s.pcs|
    ensures Settled(Next(s, Return(t))) && Next(s, Return(t)) == s.(pcs := s.pcs[t := Idle])
  {
    if 2 <= s.cap { StepInv(s, Return(t)); }
  }

  /** In a quiet state the slot of `tail` is free exactly when there is room. */
  lemma QuietCursors<V>(s: State<V>)
    requires Inv(s) && Quiet(s)
    ensures |Items(s)| == s.tail - s.head <= s.cap
    ensures |Items(s)| < s.cap <==> s.slots[s.tail % s.cap].sequence == s.tail
    ensures 0 < |Items(s)| <==> s.slots[s.head % s.cap].sequence == s.head + 1
    ensures 0 < |Items(s)| ==> Items(s)[0] == s.log[s.head]
  {
    assert SlotOk(s, s.tail);
    HeadSequence(s);
  }

  /** A position that is still `tail` (`head`) is not overtaken. */
  lemma NotOvertaken<V>(s: State<V>)
    requires Inv(s)
    ensures s.slots[s.tail % s.cap].sequence <= s.tail
    ensures s.slots[s.head % s.cap].sequence <= s.head + 1
  {
    PassedSlot(s, s.tail);
    HeadSequence(s);
  }

  /** What the slots at the two cursors show between whole calls. */
  lemma SettledSlots<V>(s: State<V>)
    requires Settled(s) && 0 < s.cap
    ensures |Items(s)| == s.tail - s.head
    ensures var seen := s.slots[s.tail % s.cap].sequence;
            if Accepts(s.cap, |Items(s)|) then seen == s.tail else seen < s.tail
    ensures var slot := s.slots[s.head % s.cap];
            if Stuck(s.cap, |Items(s)|) then s.head + 1 < slot.sequence
            else if Items(s) == [] then slot.sequence < s.head + 1
            else slot == Slot(s.head + 1, Full(Items(s)[0]))
  {
    if 2 <= s.cap {
      QuietCursors(s);
      NotOvertaken(s);
      if s.head < s.tail { HeadSlot(s); }
    } else {
      assert s.tail % 1 == 0 && s.head % 1 == 0;
    }
  }

  /** `is_empty` between whole calls: a stuck ring looks empty. */
  lemma LooksEmpty<V>(s: State<V>)
    requires Settled(s) && 0 < s.cap
    ensures s.slots[s.head % s.cap].sequence != s.head + 1 <==>
              Items(s) == [] || Stuck(s.cap, |Items(s)|)
  {
    SettledSlots(s);
  }

  // ------------------------------------------------------------------------------------
  // A whole push
  // ------------------------------------------------------------------------------------

  /** `k` steps into an accepted push by `t`, from `s` to `r`. */
  ghost predicate PushStage<V>(s: State<V>, r: State<V>, t: Tid, v: V, k: nat) {
    && Shaped(s) && Shaped(r) && 0 < s.cap && t < |s.pcs| && k <= 5
    && var i := s.tail % s.cap;
       r == s.(tail := if k < 3 then s.tail else s.tail + 1,
               log := if k < 3 then s.log else s.log + [v],
               producer := if k < 3 then s.producer else s.producer + [t],
               slots := s.slots[i := if k < 4 then s.slots[i]
                                     else if k == 4 then Slot(s.tail, Full(v))
                                     else Slot(s.tail + 1, Full(v))],
               fault := s.fault || (4 <= k && s.slots[i].value.Full?),
               pcs := s.pcs[t := if k == 0 then PushStart(v)
                                 else if k == 1 then PushLoaded(v, s.tail)
                                 else if k == 2 then PushReady(v, s.tail)
                                 else if k == 3 then PushClaimed(v, s.tail)
                                 else if k == 4 then PushWritten(v, s.tail)
                                 else PushOk(v, s.tail)])
  }

  lemma PushStageNext<V>(s: State<V>, r: State<V>, t: Tid, v: V, k: nat)
    requires PushStage(s, r, t, v, k) && s.slots[s.tail % s.cap].sequence == s.tail && k < 5
    ensures PushStage(s, Next(r, Step(t)), t, v, k + 1)
  {
    assert Next(r, Step(t)) == PushStep(r, t);
  }

  lemma {:induction false} PushStages<V>(s: State<V>, t: Tid, v: V, k: nat)
    requires Shaped(s) && 0 < s.cap && t < |s.pcs| && s.pcs[t] == PushStart(v)
    requires s.slots[s.tail % s.cap].sequence == s.tail && k <= 5
    ensures PushStage(s, Alone(s, t, k), t, v, k)
  {
    if k == 0 {
      assert s.slots == s.slots[s.tail % s.cap := s.slots[s.tail % s.cap]];
    } else {
      PushStages(s, t, v, k - 1);
      PushStageNext(s, Alone(s, t, k - 1), t, v, k - 1);
    }
  }

  lemma NoStep<V>(s: State<V>, t: Tid)
    requires Shaped(s) && t < |s.pcs| && AtRest(s.pcs[t])
    ensures Next(s, Step(t)) == s
  {
  }

  lemma FirstSteps<V>(s: State<V>, one: State<V>, t: Tid)
    requires Shaped(s) && Shaped(one) && Next(s, Step(t)) == one
    ensures Alone(s, t, 1) == one
    ensures Alone(s, t, 2) == Next(one, Step(t))
  {
    assert Alone(s, t, 0) == s;
  }

  /** `r` is where `k` steps of thread `t` alone lead, and there it rests. */
  ghost predicate RestsAt<V>(s: State<V>, r: State<V>, t: Tid, k: nat) {
    Shaped(s) && Shaped(r) && t < |r.pcs| && AtRest(r.pcs[t]) && Alone(s, t, k) == r
  }

  lemma OneMoreStep<V>(s: State<V>, r: State<V>, t: Tid, k: nat)
    requires RestsAt(s, r, t, k)
    ensures RestsAt(s, r, t, k + 1)
  {
    NoStep(r, t);
  }

  lemma RestsAfterTwo<V>(s: State<V>, r: State<V>, t: Tid)
    requires RestsAt(s, r, t, 2)
    ensures RestsAt(s, r, t, 5)
  {
    OneMoreStep(s, r, t, 2);
    OneMoreStep(s, r, t, 3);
    OneMoreStep(s, r, t, 4);
  }

  lemma RestsFromTheStart<V>(s: State<V>, t: Tid)
    requires Shaped(s) && t < |s.pcs| && AtRest(s.pcs[t])
    ensures RestsAt(s, s, t, 5)
  {
    OneMoreStep(s, s, t, 0);
    OneMoreStep(s, s, t, 1);
    RestsAfterTwo(s, s, t);
  }

  /** From `s` to `r` only control states and the bookkeeping of calls changed. */
  ghost predicate OnlyStates<V>(s: State<V>, r: State<V>) {
    r == s.(pcs := r.pcs, since := r.since, retries := r.retries)
  }

  lemma PushIsRefused<V>(s: State<V>, t: Tid, v: V)
    requires Shaped(s) && 0 < s.cap && t < |s.pcs| && s.pcs[t] == PushStart(v)
    requires s.slots[s.tail % s.cap].sequence < s.tail
    ensures Alone(s, t, 5) == s.(pcs := s.pcs[t := PushErr(v, s.tail)])
  {
    var one := s.(pcs := s.pcs[t := PushLoaded(v, s.tail)]);
    var two := s.(pcs := s.pcs[t := PushErr(v, s.tail)]);
    assert Next(s, Step(t)) == PushStep(s, t) == one;
    assert Next(one, Step(t)) == PushStep(one, t) == two;
    FirstSteps(s, one, t);
    RestsAfterTwo(s, two, t);
  }

  lemma PushStarts<V>(s: State<V>, t: Tid, v: V)
    requires Settled(s) && t < |s.pcs| && s.pcs[t].Idle? && 0 < s.cap
    ensures var r := Next(s, CallPush(t, v));
            OnlyStates(s, r) && r.pcs == s.pcs[t := PushStart(v)] && (2 <= s.cap ==> Inv(r))
  {
    if 2 <= s.cap { StepInv(s, CallPush(t, v)); }
  }

  lemma StaysSettled<V>(s: State<V>, t: Tid, k: nat)
    requires Inv(s) && t < |s.pcs|
    requires forall u: nat | u < |s.pcs| && u != t :: AtRest(s.pcs[u])
    requires AtRest(Alone(s, t, k).pcs[t]) && Alone(s, t, k).pcs == s.pcs[t := Alone(s, t, k).pcs[t]]
    ensures Settled(Alone(s, t, k))
  {
    AloneReducesEffort(s, t, k);
  }

  /**
   A whole push on a settled ring ends within five steps. It is accepted exactly if there is
   room, or if the capacity is one; then the value is last in the queue. Over an unread
   value that is a fault.
   */
  lemma WholePush<V>(s: State<V>, t: Tid, v: V)
    requires Settled(s) && t < |s.pcs| && s.pcs[t].Idle?
    ensures var r := Alone(Next(s, CallPush(t, v)), t, 5);
            && Settled(r)
            && r.pcs == s.pcs[t := if Accepts(s.cap, |Items(s)|) then PushOk(v, s.tail) else PushErr(v, s.tail)]
            && Items(r) == (if Accepts(s.cap, |Items(s)|) then Items(s) + [v] else Items(s))
            && r.head == s.head
            && (r.fault <==> s.fault || (Accepts(s.cap, |Items(s)|) && s.cap <= |Items(s)|))
  {
    var s0 := Next(s, CallPush(t, v));
    if s.cap == 0 {
      RestsFromTheStart(s0, t);
    } else {
      PushStarts(s, t, v);
      SettledSlots(s);
      if Accepts(s.cap, |Items(s)|) {
        PushStages(s0, t, v, 5);
        PushFills(s, s0, Alone(s0, t, 5), t, v);
      } else {
        PushIsRefused(s0, t, v);
      }
      if 2 <= s.cap { StaysSettled(s0, t, 5); }
    }
  }

  lemma PushFills<V>(s: State<V>, s0: State<V>, r: State<V>, t: Tid, v: V)
    requires Settled(s) && 0 < s.cap && Accepts(s.cap, |Items(s)|) && OnlyStates(s, s0)
    requires PushStage(s0, r, t, v, 5)
    ensures Items(r) == Items(s) + [v]
    ensures r.fault <==> s.fault || s.cap <= |Items(s)|
  {
    SettledSlots(s);
    if 2 <= s.cap {
      assert SlotOk(s, s.tail);
    } else {
      assert s.tail % 1 == 0;
    }
  }

  // ------------------------------------------------------------------------------------
  // A whole pop
  // ------------------------------------------------------------------------------------

  /** `k` steps into a pop by `t` that finds the value `v`. */
  ghost predicate PopStage<V>(s: State<V>, r: State<V>, t: Tid, v: V, k: nat) {
    && Shaped(s) && Shaped(r) && 0 < s.cap && t < |s.pcs| && k <= 5
    && var i := s.head % s.cap;
       && s.slots[i] == Slot(s.head + 1, Full(v))
       && r == s.(head := if k < 3 then s.head else s.head + 1,
                  consumer := if k < 3 then s.consumer else s.consumer + [t],
                  taken := if k < 3 then s.taken else s.taken + [if k == 3 then None else Some(v)],
                  slots := s.slots[i := if k < 4 then s.slots[i]
                                        else if k == 4 then Slot(s.head + 1, Vacant)
                                        else Slot(s.head + s.cap, Vacant)],
                  pcs := s.pcs[t := if k == 0 then PopStart
                                    else if k == 1 then PopLoaded(s.head)
                                    else if k == 2 then PopReady(s.head)
                                    else if k == 3 then PopClaimed(s.head)
                                    else if k == 4 then PopRead(s.head, v)
                                    else PopSome(s.head, v)])
  }

  lemma PopStageNext<V>(s: State<V>, r: State<V>, t: Tid, v: V, k: nat)
    requires PopStage(s, r, t, v, k) && k < 5
    ensures PopStage(s, Next(r, Step(t)), t, v, k + 1)
  {
    assert Next(r, Step(t)) == PopStep(r, t);
  }

  lemma {:induction false} PopStages<V>(s: State<V>, t: Tid, v: V, k: nat)
    requires Shaped(s) && 0 < s.cap && t < |s.pcs| && s.pcs[t] == PopStart && k <= 5
    requires s.slots[s.head % s.cap] == Slot(s.head + 1, Full(v))
    ensures PopStage(s, Alone(s, t, k), t, v, k)
  {
    if k == 0 {
      assert s.slots == s.slots[s.head % s.cap := s.slots[s.head % s.cap]];
    } else {
      PopStages(s, t, v, k - 1);
      PopStageNext(s, Alone(s, t, k - 1), t, v, k - 1);
    }
  }

  lemma PopFindsNothing<V>(s: State<V>, t: Tid)
    requires Shaped(s) && 0 < s.cap && t < |s.pcs| && s.pcs[t] == PopStart
    requires s.slots[s.head % s.cap].sequence < s.head + 1
    ensures Alone(s, t, 5) == s.(pcs := s.pcs[t := PopNone(s.head)])
  {
    var one := s.(pcs := s.pcs[t := PopLoaded(s.head)]);
    var two := s.(pcs := s.pcs[t := PopNone(s.head)]);
    assert Next(s, Step(t)) == PopStep(s, t) == one;
    assert Next(one, Step(t)) == PopStep(one, t) == two;
    FirstSteps(s, one, t);
    RestsAfterTwo(s, two, t);
  }

  /** Going round the loop of `try_pop`: nothing but the thread's own state moves. */
  ghost predicate Spinning<V>(s: State<V>, r: State<V>, t: Tid) {
    && Shaped(s) && Shaped(r) && t < |s.pcs| == |r.pcs|
    && r == s.(pcs := s.pcs[t := r.pcs[t]], retries := r.retries)
    && (r.pcs[t] == PopStart || r.pcs[t] == PopLoaded(s.head))
  }

  lemma {:induction false} SpinsOn<V>(s: State<V>, t: Tid, k: nat)
    requires Shaped(s) && 0 < s.cap && t < |s.pcs| && s.pcs[t] == PopStart
    requires s.head + 1 < s.slots[s.head % s.cap].sequence
    ensures Spinning(s, Alone(s, t, k), t)
  {
    if k != 0 {
      SpinsOn(s, t, k - 1);
      SpinsOnce(s, Alone(s, t, k - 1), t);
    }
  }

  lemma SpinsOnce<V>(s: State<V>, r: State<V>, t: Tid)
    requires Spinning(s, r, t) && 0 < s.cap && s.head + 1 < s.slots[s.head % s.cap].sequence
    ensures Spinning(s, Next(r, Step(t)), t)
  {
    assert Next(r, Step(t)) == PopStep(r, t);
  }

  lemma PopStarts<V>(s: State<V>, t: Tid)
    requires Settled(s) && t < |s.pcs| && s.pcs[t].Idle? && 0 < s.cap
    ensures var r := Next(s, CallPop(t));
            OnlyStates(s, r) && r.pcs == s.pcs[t := PopStart] && (2 <= s.cap ==> Inv(r))
  {
    if 2 <= s.cap { StepInv(s, CallPop(t)); }
  }

  lemma PopTakes<V>(s: State<V>, s0: State<V>, r: State<V>, t: Tid)
    requires Settled(s) && 0 < s.cap && !Stuck(s.cap, |Items(s)|) && Items(s) != [] && OnlyStates(s, s0)
    requires PopStage(s0, r, t, Items(s)[0], 5)
    ensures s.head + 1 <= s.tail && Items(r) == Items(s)[1..] && r.fault == s.fault
    ensures s.cap == 1 ==> r.slots == [Slot(r.tail, Vacant)] && r.head == r.tail
  {
    SettledSlots(s);
    if s.cap == 1 { assert s.head % 1 == 0; }
  }

  lemma PopSettles<V>(s: State<V>, t: Tid)
    requires Settled(s) && 0 < s.cap && t < |s.pcs| && s.pcs[t].Idle? && !Stuck(s.cap, |Items(s)|)
    requires var r := Alone(Next(s, CallPop(t)), t, 5);
             && AtRest(r.pcs[t]) && r.pcs == s.pcs[t := r.pcs[t]] && r.head <= r.tail
             && (s.cap == 1 ==> r.slots == [Slot(r.tail, Vacant)] && r.head == r.tail)
    ensures Settled(Alone(Next(s, CallPop(t)), t, 5))
  {
    PopStarts(s, t);
    if 2 <= s.cap { StaysSettled(Next(s, CallPop(t)), t, 5); }
  }

  /**
   A whole pop on a settled ring, unless it is stuck, ends within five steps. It returns the
   front of the queue, or nothing if the queue is empty.
   */
  lemma WholePop<V>(s: State<V>, t: Tid)
    requires Settled(s) && t < |s.pcs| && s.pcs[t].Idle? && !Stuck(s.cap, |Items(s)|)
    ensures var r := Alone(Next(s, CallPop(t)), t, 5);
            && Settled(r)
            && r.pcs == s.pcs[t := if Items(s) == [] then PopNone(s.head) else PopSome(s.head, Items(s)[0])]
            && Items(r) == (if Items(s) == [] then [] else Items(s)[1..])
            && r.fault == s.fault
  {
    var s0 := Next(s, CallPop(t));
    if s.cap == 0 {
      RestsFromTheStart(s0, t);
    } else {
      PopStarts(s, t);
      SettledSlots(s);
      if Items(s) == [] {
        PopFindsNothing(s0, t);
      } else {
        PopStages(s0, t, Items(s)[0], 5);
        PopTakes(s, s0, Alone(s0, t, 5), t);
      }
      PopSettles(s, t);
    }
  }

  ghost predicate EndsAlone<V>(s: State<V>, t: Tid)
    requires Shaped(s) && t < |s.pcs|
  {
    exists k: nat :: AtRest(Alone(s, t, k).pcs[t])
  }

  /** A whole pop ends exactly if the ring is not stuck; and a stuck one leaves the ring as it is. */
  lemma PopEndsExactlyUnlessStuck<V>(s: State<V>, t: Tid)
    requires Settled(s) && t < |s.pcs| && s.pcs[t].Idle?
    ensures EndsAlone(Next(s, CallPop(t)), t) <==> !Stuck(s.cap, |Items(s)|)
    ensures Stuck(s.cap, |Items(s)|) ==>
              forall k: nat :: OnlyStates(s, Alone(Next(s, CallPop(t)), t, k))
  {
    var s0 := Next(s, CallPop(t));
    if Stuck(s.cap, |Items(s)|) {
      PopStarts(s, t);
      SettledSlots(s);
      forall k: nat ensures !AtRest(Alone(s0, t, k).pcs[t]) && OnlyStates(s, Alone(s0, t, k)) {
        SpinsOn(s0, t, k);
      }
    } else {
      WholePop(s, t);
      assert AtRest(Alone(s0, t, 5).pcs[t]);
    }
  }

  // ------------------------------------------------------------------------------------
  // One is the only such capacity
  // ------------------------------------------------------------------------------------

  /** Thread `t` makes a whole push, and returns from it. */
  function PushAndReturn<V>(t: Tid, v: V): seq<Action<V>> {
    [CallPush(t, v)] + StepsOf(t, 5) + [Return(t)]
  }

  lemma CallAloneIsARun<V>(s: State<V>, a: Action<V>, t: Tid, k: nat)
    requires Shaped(s)
    ensures Exec(s, [a] + StepsOf(t, k)) == Alone(Next(s, a), t, k)
  {
    Unroll(s, [a], StepsOf(t, k));
    OneAction(s, a);
    AloneIsARun(Next(s, a), t, k);
  }

  lemma PushThenReturn<V>(s: State<V>, t: Tid, v: V)
    requires Settled(s) && t < |s.pcs| && s.pcs[t].Idle? && Accepts(s.cap, |Items(s)|)
    ensures var r := Next(Alone(Next(s, CallPush(t, v)), t, 5), Return(t));
            && Settled(r) && r.pcs == s.pcs && Items(r) == Items(s) + [v]
            && (r.fault <==> s.fault || s.cap <= |Items(s)|)
  {
    WholePush(s, t, v);
    var pushed := Alone(Next(s, CallPush(t, v)), t, 5);
    ReturnSettled(pushed, t);
    assert pushed.pcs[t := Idle] == s.pcs;
  }

  lemma PushAndReturnSettles<V>(s: State<V>, t: Tid, v: V)
    requires Settled(s) && t < |s.pcs| && s.pcs[t].Idle? && Accepts(s.cap, |Items(s)|)
    ensures var r := Exec(s, PushAndReturn(t, v));
            && Settled(r) && r.pcs == s.pcs && Items(r) == Items(s) + [v]
            && (r.fault <==> s.fault || s.cap <= |Items(s)|)
  {
    PushThenReturn(s, t, v);
    CallAloneIsARun(s, CallPush(t, v), t, 5);
    Unroll(s, [CallPush(t, v)] + StepsOf(t, 5), [Return(t)]);
    OneAction(Exec(s, [CallPush(t, v)] + StepsOf(t, 5)), Return(t));
  }

  /** Two whole pushes on a fresh ring are both accepted, and the second one overwrites the first. */
  lemma CapacityOneOverwrites<V>(v: V, w: V)
    ensures var s := Exec(Init<V>(1, 1), PushAndReturn(0, v) + PushAndReturn(0, w));
            Settled(s) && s.pcs == [Idle] && Items(s) == [v, w] && s.fault
  {
    var s0 := Init<V>(1, 1);
    InitSettled<V>(1, 1);
    assert s0.pcs == [Idle];
    PushAndReturnSettles(s0, 0, v);
    PushAndReturnSettles(Exec(s0, PushAndReturn(0, v)), 0, w);
    Unroll(s0, PushAndReturn(0, v), PushAndReturn(0, w));
  }

  /** No run of a ring with this capacity overwrites an unread value or reads an empty slot. */
  ghost predicate NeverFaults<V(!new)>(cap: nat) {
    forall threads: nat, schedule: seq<Action<V>> {:trigger Exec(Init<V>(cap, threads), schedule)} ::
      !Exec(Init<V>(cap, threads), schedule).fault
  }

  /** The exact capacities for which no value is ever overwritten or read uninitialised. */
  lemma SafeExactlyUnlessCapacityOne<V(!new)>(cap: nat, v: V)
    ensures NeverFaults<V>(cap) <==> cap != 1
  {
    if cap == 1 {
      CapacityOneOverwrites(v, v);
    } else {
      forall threads: nat, schedule: seq<Action<V>> ensures !Exec(Init<V>(cap, threads), schedule).fault {
        if cap == 0 {
          ZeroCapacity<V>(threads, schedule);
        } else {
          ReachableInv(cap, threads, schedule);
        }
      }
    }
  }

  /** From every reachable state, every call that is then undisturbed comes to an end. */
  ghost predicate CallsEnd<V(!new)>(cap: nat) {
    forall threads: nat, schedule: seq<Action<V>>, t: Tid | t < threads ::
      EndsAlone(Exec(Init<V>(cap, threads), schedule), t)
  }

  /** A whole run after which an undisturbed call of thread 0 does not end. */
  lemma CapacityOneSpins<V>(v: V)
    ensures var schedule := PushAndReturn(0, v) + PushAndReturn(0, v) + [CallPop(0)];
            !EndsAlone(Exec(Init<V>(1, 1), schedule), 0)
  {
    CapacityOneOverwrites(v, v);
    var twice := PushAndReturn(0, v) + PushAndReturn(0, v);
    var s := Exec(Init<V>(1, 1), twice);
    Unroll(Init<V>(1, 1), twice, [CallPop(0)]);
    OneAction(s, CallPop(0));
    PopEndsExactlyUnlessStuck(s, 0);
  }

  /** The exact capacities for which undisturbed calls always end. */
  lemma CallsEndExactlyUnlessCapacityOne<V(!new)>(cap: nat, v: V)
    ensures CallsEnd<V>(cap) <==> cap != 1
  {
    if cap == 1 {
      CapacityOneSpins(v);
    } else {
      forall threads: nat, schedule: seq<Action<V>>, t: Tid | t < threads
        ensures EndsAlone(Exec(Init<V>(cap, threads), schedule), t)
      {
        var s := Exec(Init<V>(cap, threads), schedule);
        if cap == 0 {
          ZeroCapacity<V>(threads, schedule);
          assert AtRest(Alone(s, t, 0).pcs[t]);
        } else {
          UndisturbedCallTerminates(cap, threads, schedule, t, 7);
          assert AtRest(Alone(s, t, 7).pcs[t]);
        }
      }
    }
  }

  /** Every action of every run is an operation of a bounded queue, or leaves the queue alone. */
  ghost predicate IsAQueue<V(!new)>(cap: nat) {
    forall threads: nat, schedule: seq<Action<V>>, a: Action<V> | a.tid < threads ::
      QueueAction(Exec(Init<V>(cap, threads), schedule), a)
  }

  ghost predicate QueueAction<V>(s: State<V>, a: Action<V>)
    requires Shaped(s) && a.tid < |s.pcs|
  {
    QueueStep(s, Next(s, a), a.tid)
  }

  /** A push that claims its ticket although the one slot is taken. */
  lemma CapacityOneOverfills<V>(v: V)
    ensures var schedule := PushAndReturn(0, v) + ([CallPush(0, v)] + StepsOf(0, 2));
            !QueueAction(Exec(Init<V>(1, 1), schedule), Step(0))
  {
    var s0 := Init<V>(1, 1);
    InitSettled<V>(1, 1);
    assert s0.pcs == [Idle];
    PushAndReturnSettles(s0, 0, v);
    var s := Exec(s0, PushAndReturn(0, v));
    Unroll(s0, PushAndReturn(0, v), [CallPush(0, v)] + StepsOf(0, 2));
    CallAloneIsARun(s, CallPush(0, v), 0, 2);
    PushStarts(s, 0, v);
    SettledSlots(s);
    PushStages(Next(s, CallPush(0, v)), 0, v, 2);
    PushStages(Next(s, CallPush(0, v)), 0, v, 3);
  }

  /** The exact capacities for which the ring is a bounded queue. */
  lemma QueueExactlyUnlessCapacityOne<V(!new)>(cap: nat, v: V)
    ensures IsAQueue<V>(cap) <==> cap != 1
  {
    if cap == 1 {
      CapacityOneOverfills(v);
    } else {
      forall threads: nat, schedule: seq<Action<V>>, a: Action<V> | a.tid < threads
        ensures QueueAction(Exec(Init<V>(cap, threads), schedule), a)
      {
        if cap == 0 {
          ZeroCapacity<V>(threads, schedule);
        } else {
          ReachableInv(cap, threads, schedule);
          StepOnQueue(Exec(Init<V>(cap, threads), schedule), a);
        }
      }
    }
  }
}
