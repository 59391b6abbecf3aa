/**
 Whole operations of the bounded MPSC channel, made while all other threads are between
 operations or parked: `send`, `try_recv`, `recv` and the last `drop` of the transition system
 do to the queue, the list and the tokens what the methods of `MpscMemory.Chan` do.
 */
module MpscWhole {
  import opened Basics
  import R = Ring
  import P = RingProperties
  import G = RingProgress
  import C = RingCalls
  import opened Mpsc
  import opened MpscProof
  import opened MpscCalls

  predicate Resting<V>(op: Op<V>) {
    op.Idle? || op.Returned? || op.RecvPark?
  }

  /** Nobody is inside an operation, but receivers may be parked. */
  ghost predicate Calm<V>(s: State<V>) {
    Inv(s) && forall u: nat | u < |s.ops| :: Resting(s.ops[u])
  }

  function Queue<V>(s: State<V>): seq<V>
    requires Shaped(s)
  {
    if s.ring.head <= s.ring.tail then s.ring.log[s.ring.head..s.ring.tail] else []
  }

  lemma CalmRing<V>(s: State<V>)
    requires Calm(s)
    ensures C.Settled(s.ring) && Queue(s) == P.Items(s.ring)
  {
    forall u: nat | u < |s.ops| ensures R.AtRest(s.ring.pcs[u]) { assert Fits(s.ops[u], s.ring.pcs[u]); }
  }

  // ------------------------------------------------------------------------------------
  // The ring's part
  // ------------------------------------------------------------------------------------

  lemma RestsAfterSeven<V>(a: R.State<V>, t: Tid)
    requires R.Shaped(a) && t < |a.pcs| && R.AtRest(P.Alone(a, t, 5).pcs[t])
    ensures RingEnd(a, t) == P.Alone(a, t, 5)
  {
    var r := P.Alone(a, t, 5);
    C.OneMoreStep(a, r, t, 5);
    C.OneMoreStep(a, r, t, 6);
  }

  /** A whole push on the ring of a calm channel. */
  ghost predicate Pushed<V>(a: R.State<V>, b: R.State<V>, t: Tid, v: V)
    requires R.Shaped(a) && R.Shaped(b)
  {
    var ok := C.Accepts(a.cap, |P.Items(a)|);
    && C.Settled(b) && t < |a.pcs|
    && b.pcs == a.pcs[t := if ok then R.PushOk(v, a.tail) else R.PushErr(v, a.tail)]
    && P.Items(b) == if ok then P.Items(a) + [v] else P.Items(a)
  }

  lemma RingPushes<V>(a: R.State<V>, t: Tid, v: V)
    requires C.Settled(a) && t < |a.pcs|
    ensures Pushed(a, RingEnd(StartPush(a, t, v), t), t, v)
  {
    C.ReturnSettled(a, t);
    C.WholePush(R.Next(a, R.Return(t)), t, v);
    RestsAfterSeven(StartPush(a, t, v), t);
  }

  ghost predicate Popped<V>(a: R.State<V>, b: R.State<V>, t: Tid)
    requires R.Shaped(a) && R.Shaped(b)
  {
    var items := P.Items(a);
    && C.Settled(b) && t < |a.pcs|
    && b.pcs == a.pcs[t := if items == [] then R.PopNone(a.head) else R.PopSome(a.head, items[0])]
    && P.Items(b) == if items == [] then [] else items[1..]
  }

  lemma RingPops<V>(a: R.State<V>, t: Tid)
    requires C.Settled(a) && 2 <= a.cap && t < |a.pcs|
    ensures Popped(a, RingEnd(StartPop(a, t), t), t)
  {
    C.ReturnSettled(a, t);
    C.WholePop(R.Next(a, R.Return(t)), t);
    RestsAfterSeven(StartPop(a, t), t);
  }

  // ------------------------------------------------------------------------------------
  // send
  // ------------------------------------------------------------------------------------

  /** `send(v)` by thread `t`, from the calm state `s` to the calm state `r`. */
  ghost predicate SendDone<V>(s: State<V>, r: State<V>, t: Tid, v: V)
    requires Shaped(s) && Shaped(r) && t < |s.ops| == |r.ops|
  {
    var ok := s.receivers != 0 && |Queue(s)| < s.ring.cap;
    && Calm(r)
    && r.ops == s.ops[t := Returned(if ok then Sent else SendFailed(v), false)]
    && Queue(r) == (if ok then Queue(s) + [v] else Queue(s))
    && r.tokens == (if ok then Woken(s.tokens, s.waiters, s.list) else s.tokens)
    && r.list == s.list && r.waiters == s.waiters && r.senders == s.senders && r.receivers == s.receivers
  }

  lemma StillCalm<V>(s: State<V>, r: State<V>, t: Tid)
    requires Calm(s) && Inv(r) && t < |s.ops| == |r.ops| && r.ops == s.ops[t := r.ops[t]] && Resting(r.ops[t])
    ensures Calm(r)
  {
    forall u: nat | u < |r.ops| ensures Resting(r.ops[u]) { assert Resting(s.ops[u]); }
  }

  lemma CallMoves<V>(s: State<V>, a: Action<V>)
    requires Inv(s)
    ensures Inv(Next(s, a))
  {
    NextInv(s, a);
  }

  /** Past the check, and the ring's part is done. */
  lemma SendOnCalm<V>(s: State<V>, c: State<V>, t: Tid, v: V) returns (q: State<V>)
    requires Calm(s) && t < |s.ops| && s.ops[t].Idle? && s.receivers != 0
    requires Inv(c) && c == s.(ops := s.ops[t := SendCheck(v)], given := c.given)
    ensures Leads(c, q, t) && Inv(q) && |q.ops| == |s.ops|
    ensures Pushed(s.ring, q.ring, t, v)
    ensures q == s.(ring := q.ring, given := c.given,
                    ops := s.ops[t := if C.Accepts(s.ring.cap, |P.Items(s.ring)|) then SendSnapshot
                                      else Returned(SendFailed(v), false)])
  {
    CalmRing(s);
    RingPushes(s.ring, t, v);
    SendMoves(c, t);
    var p := SendStep(c, t);
    StartingAPush(s.ring, t, v);
    assert p.ring == StartPush(s.ring, t, v) && p.ops == s.ops[t := SendPush];
    PushRunsOut(p, t);
    q := AfterPush(p, t, RingEnd(p.ring, t));
    Onwards(c, p, q, t);
    LeadsInv(c, q, t);
  }

  /**
   A whole `send`: refused exactly without receivers or if the queue is full, and then nothing
   changes; otherwise the value is last in the queue, and exactly the threads of the listed
   waiters have been unparked.
   */
  lemma WholeSend<V>(s: State<V>, t: Tid, v: V) returns (r: State<V>)
    requires Calm(s) && t < |s.ops| && s.ops[t].Idle? && 0 < s.senders
    ensures Leads(Next(s, CallSend(t, v)), r, t) && Shaped(r) && |r.ops| == |s.ops|
    ensures SendDone(s, r, t, v)
  {
    var c := Next(s, CallSend(t, v));
    CallMoves(s, CallSend(t, v));
    CalmRing(s);
    if s.receivers == 0 {
      SendMoves(c, t);
      r := SendStep(c, t);
    } else {
      var q := SendOnCalm(s, c, t, v);
      r := q;
      if q.ops[t].SendSnapshot? {
        SenderPaysUp(q, t);
        r := At(q, t, Returned(Sent, false)).(tokens := Woken(q.tokens, q.waiters, q.list));
        Onwards(c, q, r, t);
      }
    }
    LeadsInv(c, r, t);
    StillCalm(s, r, t);
    CalmRing(r);
  }

  // ------------------------------------------------------------------------------------
  // The last drop
  // ------------------------------------------------------------------------------------

  /** A whole last `drop`: exactly the threads of the listed waiters have been unparked. */
  lemma WholeDrop<V>(s: State<V>, t: Tid)
    requires Calm(s) && t < |s.ops| && s.ops[t].Idle? && s.senders == 1
    ensures var r := s.(senders := 0, lastDropper := t, tokens := Woken(s.tokens, s.waiters, s.list));
            Leads(Next(s, DropSender(t)), r, t) && Calm(r)
  {
    var c := Next(s, DropSender(t));
    var r := s.(senders := 0, lastDropper := t, tokens := Woken(s.tokens, s.waiters, s.list));
    forall u: nat | u < |s.ops| ensures !Sending(s.ops[u]) { assert Resting(s.ops[u]); }
    CallMoves(s, DropSender(t));
    DropperPaysUp(c, t);
    assert At(c, t, Idle).(tokens := Woken(c.tokens, c.waiters, c.list)) == r;
    LeadsInv(c, r, t);
    StillCalm(s, r, t);
  }

  // ------------------------------------------------------------------------------------
  // try_recv and recv
  // ------------------------------------------------------------------------------------

  /** From a state whose thread `t` has just begun a pop on a settled ring: the pop is done. */
  lemma PopOnSettled<V>(s: State<V>, c: State<V>, t: Tid) returns (q: State<V>)
    requires Inv(c) && t < |c.ops| && Popping(c.ops[t])
    requires R.Inv(s.ring) && C.Settled(s.ring) && c.ring == StartPop(s.ring, t)
    ensures Leads(c, q, t) && Inv(q) && |q.ops| == |c.ops| && Popped(s.ring, q.ring, t)
    ensures q == AfterPop(c, t, q.ring)
  {
    RingPops(s.ring, t);
    PopRunsOut(c, t);
    q := AfterPop(c, t, RingEnd(c.ring, t));
    LeadsInv(c, q, t);
  }

  /** What is left when a receive took the front of the queue, or found nothing. */
  ghost predicate RecvDone<V>(s: State<V>, r: State<V>, t: Tid, outcome: Outcome<V>)
    requires Shaped(s) && Shaped(r) && t < |s.ops| == |r.ops|
  {
    && Calm(r) && (exists late :: r.ops == s.ops[t := Returned(outcome, late)])
    && Queue(r) == (if Queue(s) == [] then [] else Queue(s)[1..])
    && r.waiters == s.waiters && r.senders == s.senders && r.receivers == s.receivers
    && r.list == s.list && r.tokens == s.tokens
  }

  /** Whole `try_recv`: the front of the queue; without one, `Disconnected` exactly if there are no senders. */
  lemma WholeTryRecv<V>(s: State<V>, t: Tid) returns (r: State<V>)
    requires Calm(s) && t < |s.ops| && s.ops[t].Idle? && 0 < s.receivers
    ensures Leads(Next(s, CallTryRecv(t)), r, t) && Shaped(r) && |r.ops| == |s.ops|
    ensures RecvDone(s, r, t, if Queue(s) != [] then Got(Queue(s)[0])
                              else if s.senders == 0 then Disconnected else Empty)
  {
    CalmRing(s);
    var q := TriesPop(s, t);
    r := Answers(q, t);
    Onwards(Next(s, CallTryRecv(t)), q, r, t);
    assert r.ops == s.ops[t := r.ops[t]];
    StillCalm(s, r, t);
    CalmRing(r);
  }

  /** A `try_recv` up to the end of its pop. */
  lemma TriesPop<V>(s: State<V>, t: Tid) returns (q: State<V>)
    requires Calm(s) && t < |s.ops| && s.ops[t].Idle? && 0 < s.receivers
    ensures R.Shaped(s.ring) && Leads(Next(s, CallTryRecv(t)), q, t) && Inv(q) && |q.ops| == |s.ops|
    ensures Popped(s.ring, q.ring, t)
    ensures q == s.(ring := q.ring,
                    ops := s.ops[t := if P.Items(s.ring) != [] then RecvWakeSender(None, P.Items(s.ring)[0])
                                      else TryCount(s.senders == 0)])
  {
    var c := Next(s, CallTryRecv(t));
    CallMoves(s, CallTryRecv(t));
    CalmRing(s);
    q := PopOnSettled(s, c, t);
  }

  /** The last step of a receive on the fast path. */
  lemma Answers<V>(q: State<V>, t: Tid) returns (r: State<V>)
    requires Inv(q) && t < |q.ops|
    requires q.ops[t].TryCount? || (q.ops[t].RecvWakeSender? && q.ops[t].guard == None)
    ensures Leads(q, r, t) && Inv(r) && |r.ops| == |q.ops|
    ensures r == q.(ops := q.ops[t := if q.ops[t].RecvWakeSender? then Returned(Got(q.ops[t].v), false)
                                      else Returned(if q.senders == 0 then Disconnected else Empty, q.ops[t].late)])
  {
    RecvMoves(q, t);
    r := RecvStep(q, t);
  }

  /** ... or, of a blocking one that found nothing, the load of the sender count. */
  lemma Counts<V>(q: State<V>, t: Tid) returns (r: State<V>)
    requires Inv(q) && t < |q.ops| && q.ops[t].RecvFastCount?
    ensures Leads(q, r, t) && Inv(r) && |r.ops| == |q.ops|
    ensures r == q.(ops := q.ops[t := if q.senders == 0 then Returned(Disconnected, q.ops[t].late) else RecvRegister])
  {
    RecvMoves(q, t);
    r := RecvStep(q, t);
  }

  /** A receive at the top of its loop, on a ring that stood as `a` before: how it goes on alone. */
  ghost predicate Looked<V>(a: R.State<V>, c: State<V>, r: State<V>, t: Tid)
    requires R.Shaped(a) && Shaped(c) && Shaped(r) && t < |c.ops| == |r.ops| && c.ops[t].RecvFast?
  {
    var items := P.Items(a);
    && Inv(r) && C.Settled(r.ring) && P.Items(r.ring) == (if items == [] then [] else items[1..])
    && r == c.(ring := r.ring, ops := c.ops[t := r.ops[t]], list := r.list, waiters := r.waiters)
    && if items == [] && c.senders != 0 then
         && r.ops[t].RecvPark? && r.ops[t].w == |c.waiters| && r.list == c.list + [|c.waiters|]
         && r.waiters == c.waiters + [Waiter(t, UNSELECTED, UNSELECTED)]
       else
         && r.list == c.list && r.waiters == c.waiters
         && r.ops[t] == if items == [] then Returned(Disconnected, c.ops[t].late) else Returned(Got(items[0]), false)
  }

  lemma {:induction false} Looks<V>(s: State<V>, c: State<V>, t: Tid) returns (r: State<V>)
    requires Inv(s) && C.Settled(s.ring)
    requires Inv(c) && t < |c.ops| && c.ops[t].RecvFast? && c.ring == StartPop(s.ring, t)
    ensures Leads(c, r, t) && Shaped(r) && |r.ops| == |c.ops| && Looked(s.ring, c, r, t)
  {
    var q := PopOnSettled(s, c, t);
    r := LooksFrom(s.ring, c, q, t);
    Onwards(c, q, r, t);
  }

  lemma LooksFrom<V>(a: R.State<V>, c: State<V>, q: State<V>, t: Tid) returns (r: State<V>)
    requires R.Shaped(a) && Shaped(c) && t < |c.ops| && c.ops[t].RecvFast?
    requires Inv(q) && |q.ops| == |c.ops| && Popped(a, q.ring, t) && q == AfterPop(c, t, q.ring)
    ensures Leads(q, r, t) && Shaped(r) && |r.ops| == |c.ops| && Looked(a, c, r, t)
  {
    if q.ops[t].RecvWakeSender? {
      r := Answers(q, t);
    } else {
      r := FindsNothing(a, q, t);
    }
  }

  lemma FindsNothing<V>(a: R.State<V>, q: State<V>, t: Tid) returns (r: State<V>)
    requires R.Shaped(a) && P.Items(a) == []
    requires Inv(q) && t < |q.ops| && q.ops[t].RecvFastCount? && Popped(a, q.ring, t)
    ensures Leads(q, r, t) && Inv(r) && |r.ops| == |q.ops|
    ensures C.Settled(r.ring) && P.Items(r.ring) == []
    ensures q.senders == 0 ==> r == q.(ops := q.ops[t := Returned(Disconnected, q.ops[t].late)])
    ensures q.senders != 0 ==>
              && r.ops[t].RecvPark? && r.ops[t].w == |q.waiters|
              && r == q.(ring := r.ring, ops := q.ops[t := r.ops[t]], list := q.list + [|q.waiters|],
                         waiters := q.waiters + [Waiter(t, UNSELECTED, UNSELECTED)])
  {
    r := Counts(q, t);
    if q.senders != 0 {
      var p := r;
      r := RegistersAndParks(a, p, t);
      Onwards(q, p, r, t);
    }
  }

  /** The second look, after registering, finds nothing either. */
  lemma RegistersAndParks<V>(a: R.State<V>, p: State<V>, t: Tid) returns (r: State<V>)
    requires R.Shaped(a) && P.Items(a) == []
    requires Inv(p) && t < |p.ops| && p.ops[t].RecvRegister? && p.senders != 0 && Popped(a, p.ring, t)
    ensures Leads(p, r, t) && Inv(r) && |r.ops| == |p.ops|
    ensures C.Settled(r.ring) && P.Items(r.ring) == []
    ensures r.ops[t].RecvPark? && r.ops[t].w == |p.waiters|
    ensures r == p.(ring := r.ring, ops := p.ops[t := r.ops[t]], list := p.list + [|p.waiters|],
                    waiters := p.waiters + [Waiter(t, UNSELECTED, UNSELECTED)])
  {
    var q := LooksAgain(a, p, t);
    r := Parks(q, t);
    Onwards(p, q, r, t);
  }

  lemma LooksAgain<V>(a: R.State<V>, p: State<V>, t: Tid) returns (q: State<V>)
    requires R.Shaped(a) && P.Items(a) == []
    requires Inv(p) && t < |p.ops| && p.ops[t].RecvRegister? && Popped(a, p.ring, t)
    ensures Leads(p, q, t) && Inv(q) && |q.ops| == |p.ops|
    ensures C.Settled(q.ring) && P.Items(q.ring) == []
    ensures q.ops[t].RecvRecheckCount? && q.ops[t].w == |p.waiters|
    ensures q == p.(ring := q.ring, ops := p.ops[t := q.ops[t]], list := p.list + [|p.waiters|],
                    waiters := p.waiters + [Waiter(t, UNSELECTED, UNSELECTED)])
  {
    var c := Registers(p, t);
    q := PopOnSettled(p, c, t);
    Onwards(p, c, q, t);
  }

  lemma Registers<V>(p: State<V>, t: Tid) returns (c: State<V>)
    requires Inv(p) && t < |p.ops| && p.ops[t].RecvRegister?
    ensures Leads(p, c, t) && Inv(c) && |c.ops| == |p.ops|
    ensures c == p.(ring := StartPop(p.ring, t), ops := p.ops[t := RecvRecheck(|p.waiters|)],
                    list := p.list + [|p.waiters|],
                    waiters := p.waiters + [Waiter(t, UNSELECTED, UNSELECTED)])
  {
    RecvMoves(p, t);
    c := RecvStep(p, t);
  }

  lemma Parks<V>(q: State<V>, t: Tid) returns (r: State<V>)
    requires Inv(q) && t < |q.ops| && q.ops[t].RecvRecheckCount? && q.senders != 0
    ensures Leads(q, r, t) && Inv(r) && |r.ops| == |q.ops|
    ensures r == q.(ops := q.ops[t := RecvPark(q.ops[t].w, q.ops[t].pos)])
  {
    RecvMoves(q, t);
    r := RecvStep(q, t);
  }

  /** Parked as waiter `w`, the last on the list `others + [w]`. */
  ghost predicate ParkedOn<V>(r: State<V>, t: Tid, others: seq<Wid>, w: Wid)
    requires Shaped(r) && t < |r.ops|
  {
    r.ops[t].RecvPark? && r.ops[t].w == w && r.list == others + [w] && !r.tokens[t] && Queue(r) == []
  }

  /** How a whole receive ends that began, or was resumed, with the list `others` and no token. */
  ghost predicate Received<V>(s: State<V>, r: State<V>, t: Tid, others: seq<Wid>)
    requires Shaped(s) && Shaped(r) && t < |s.ops| == |r.ops|
  {
    && Calm(r) && r.ops == s.ops[t := r.ops[t]] && r.tokens == s.tokens[t := r.tokens[t]]
    && r.senders == s.senders && r.receivers == s.receivers
    && Queue(r) == (if Queue(s) == [] then [] else Queue(s)[1..])
    && if Queue(s) == [] && s.senders != 0 then exists w: Wid :: |s.waiters| <= w && ParkedOn(r, t, others, w)
       else
         && r.list == others && r.waiters == s.waiters
         && r.ops[t].Returned? && r.ops[t].outcome == if Queue(s) == [] then Disconnected else Got(Queue(s)[0])
  }

  lemma LookedFromCalm<V>(s: State<V>, c: State<V>, r: State<V>, t: Tid)
    requires Calm(s) && t < |s.ops| == |c.ops| == |r.ops| && Shaped(c) && c.ops[t].RecvFast?
    requires Shaped(r) && Looked(s.ring, c, r, t) && c.ops == s.ops[t := c.ops[t]]
    requires c.senders == s.senders && c.receivers == s.receivers && c.waiters == s.waiters
    ensures Calm(r) && r.ops == s.ops[t := r.ops[t]] && Queue(s) == P.Items(s.ring) && Queue(r) == P.Items(r.ring)
  {
    CalmRing(s);
    StillCalm(s, r, t);
    CalmRing(r);
  }

  /**
   A parked receiver that has a token goes on: it takes the token, leaves the list, and
   receives the front of the queue, or finds the senders gone, or parks again.
   */
  lemma WholeResume<V>(s: State<V>, t: Tid) returns (r: State<V>)
    requires Calm(s) && t < |s.ops| && s.ops[t].RecvPark? && s.tokens[t]
    ensures Leads(s, r, t) && Shaped(r) && |r.ops| == |s.ops|
    ensures Received(s, r, t, Without(s.list, s.ops[t].w)) && !r.tokens[t]
  {
    var c := TakesToken(s, t);
    CalmRing(s);
    r := Looks(s, c, t);
    Onwards(s, c, r, t);
    LookedFromCalm(s, c, r, t);
    if Queue(s) == [] && s.senders != 0 {
      assert ParkedOn(r, t, Without(s.list, s.ops[t].w), |s.waiters|);
    }
  }

  lemma TakesToken<V>(s: State<V>, t: Tid) returns (c: State<V>)
    requires Inv(s) && t < |s.ops| && s.ops[t].RecvPark? && s.tokens[t]
    ensures Leads(s, c, t) && Inv(c) && |c.ops| == |s.ops|
    ensures c == s.(ops := s.ops[t := RecvFast(false)], ring := StartPop(s.ring, t),
                    tokens := s.tokens[t := false], list := Without(s.list, s.ops[t].w))
  {
    RecvMoves(s, t);
    var p := RecvStep(s, t);
    assert p == s.(ops := s.ops[t := RecvUnregister(s.ops[t].w, TryAgain)], tokens := s.tokens[t := false]);
    RecvMoves(p, t);
    c := RecvStep(p, t);
    Onwards(s, p, c, t);
  }

  /**
   Whole `recv`: the front of the queue; without one, `Disconnected` exactly if there are no
   senders; otherwise it falls asleep, last on the list, having used up its token if it had one.
   */
  lemma WholeRecv<V>(s: State<V>, t: Tid) returns (r: State<V>)
    requires Calm(s) && t < |s.ops| && s.ops[t].Idle? && 0 < s.receivers
    ensures Leads(Next(s, CallRecv(t)), r, t) && Shaped(r) && |r.ops| == |s.ops|
    ensures Received(s, r, t, s.list)
    ensures r.tokens[t] == (s.tokens[t] && (Queue(s) != [] || s.senders == 0))
  {
    var c := Next(s, CallRecv(t));
    CallMoves(s, CallRecv(t));
    CalmRing(s);
    var p := Looks(s, c, t);
    LookedFromCalm(s, c, p, t);
    r := p;
    if p.ops[t].RecvPark? {
      if s.tokens[t] {
        r := ParksAgain(s, p, t);
        Onwards(c, p, r, t);
      } else {
        assert ParkedOn(p, t, s.list, |s.waiters|);
      }
    }
  }

  /** A token that was there before the call only makes it go round once more. */
  lemma ParksAgain<V>(s: State<V>, p: State<V>, t: Tid) returns (r: State<V>)
    requires Calm(s) && Calm(p) && t < |s.ops| == |p.ops| && p.tokens == s.tokens && s.tokens[t]
    requires p.ops == s.ops[t := p.ops[t]] && p.ops[t].RecvPark? && p.ops[t].w == |s.waiters|
    requires p.list == s.list + [|s.waiters|] && |s.waiters| <= |p.waiters|
    requires p.senders == s.senders && p.senders != 0 && p.receivers == s.receivers && Queue(p) == Queue(s) == []
    ensures Leads(p, r, t) && Shaped(r) && |r.ops| == |s.ops|
    ensures Received(s, r, t, s.list) && !r.tokens[t]
  {
    r := WholeResume(p, t);
    WithoutLast(s.list, |s.waiters|, |s.waiters|);
    assert |s.waiters| !in s.list;
  }

  // ------------------------------------------------------------------------------------
  // From end to end
  // ------------------------------------------------------------------------------------

  lemma ListedIsWoken<V>(s: State<V>, t: Tid)
    requires Calm(s) && t < |s.ops| && s.ops[t].RecvPark?
    ensures Woken(s.tokens, s.waiters, s.list)[t]
  {
    assert Listed(s, t);
    var i :| 0 <= i < |s.list| && s.list[i] == s.ops[t].w;
    assert s.waiters[s.list[i]].tid == t;
  }

  lemma NothingToReceive<V>(s: State<V>, t: Tid)
    requires Calm(s) && t < |s.ops| && Asleep(s, t)
    ensures Queue(s) == [] && 0 < s.senders && 2 <= s.ring.cap
  {
    forall w: nat | w < |s.ops| ensures !Sending(s.ops[w]) && !Dropping(s.ops[w]) { assert Resting(s.ops[w]); }
    SleeperHasNothing(s, t);
  }

  lemma ResumesWith<V>(s: State<V>, t: Tid, x: Outcome<V>) returns (r: State<V>)
    requires Calm(s) && t < |s.ops| && s.ops[t].RecvPark? && s.tokens[t] && (Queue(s) != [] || s.senders == 0)
    requires x == if Queue(s) == [] then Disconnected else Got(Queue(s)[0])
    ensures Leads(s, r, t) && |r.ops| == |s.ops| && r.ops[t].Returned? && r.ops[t].outcome == x
  {
    r := WholeResume(s, t);
  }

  /** A receiver is asleep; another thread sends; the receiver goes on, and returns just that value. */
  lemma SleeperReceivesWhatIsSent<V>(s: State<V>, t: Tid, u: Tid, v: V) returns (sent: State<V>, r: State<V>)
    requires Calm(s) && t < |s.ops| && Asleep(s, t)
    requires u < |s.ops| && s.ops[u].Idle? && 0 < s.senders && 0 < s.receivers
    ensures Leads(Next(s, CallSend(u, v)), sent, u) && Leads(sent, r, t) && |r.ops| == |sent.ops| == |s.ops|
    ensures sent.ops[u] == Returned(Sent, false)
    ensures r.ops[t].Returned? && r.ops[t].outcome == Got(v)
  {
    NothingToReceive(s, t);
    ListedIsWoken(s, t);
    sent := WholeSend(s, u, v);
    r := ResumesWith(sent, t, Got(v));
  }

  /** A receiver is asleep; the last sender is dropped; the receiver goes on, and reports it. */
  lemma SleeperSeesTheEnd<V>(s: State<V>, t: Tid, u: Tid) returns (dropped: State<V>, r: State<V>)
    requires Calm(s) && t < |s.ops| && Asleep(s, t)
    requires u < |s.ops| && s.ops[u].Idle? && s.senders == 1
    ensures Leads(Next(s, DropSender(u)), dropped, u) && Leads(dropped, r, t) && |r.ops| == |dropped.ops| == |s.ops|
    ensures r.ops[t].Returned? && r.ops[t].outcome == Disconnected
  {
    NothingToReceive(s, t);
    ListedIsWoken(s, t);
    WholeDrop(s, u);
    dropped := s.(senders := 0, lastDropper := u, tokens := Woken(s.tokens, s.waiters, s.list));
    r := ResumesWith(dropped, t, Disconnected);
  }

  /** A whole `try_recv` on a queue with something in it, and its return. */
  lemma TakesTheFront<V>(s: State<V>, t: Tid) returns (r: State<V>, q: State<V>)
    requires Calm(s) && t < |s.ops| && s.ops[t].Idle? && 0 < s.receivers && Queue(s) != []
    ensures Shaped(r) && t < |r.ops| && Leads(Next(s, CallTryRecv(t)), r, t)
    ensures r.ops[t].Returned? && r.ops[t].outcome == Got(Queue(s)[0])
    ensures q == Next(r, Return(t)) && Calm(q) && q.ops == s.ops && q.receivers == s.receivers
    ensures Queue(q) == Queue(s)[1..]
  {
    r := WholeTryRecv(s, t);
    NextInv(r, Return(t));
    q := Next(r, Return(t));
    assert q.ops == s.ops;
  }

  /** Of two receives one after the other the first gets the front of the queue, and the second the next value. */
  lemma TakenInOrder<V>(s: State<V>, t: Tid) returns (one: State<V>, two: State<V>)
    requires Calm(s) && t < |s.ops| && s.ops[t].Idle? && 0 < s.receivers && 2 <= |Queue(s)|
    ensures Shaped(one) && Leads(Next(s, CallTryRecv(t)), one, t)
    ensures Leads(Next(Next(one, Return(t)), CallTryRecv(t)), two, t)
    ensures t < |one.ops| && one.ops[t].Returned? && one.ops[t].outcome == Got(Queue(s)[0])
    ensures t < |two.ops| && two.ops[t].Returned? && two.ops[t].outcome == Got(Queue(s)[1])
  {
    var q, p;
    one, q := TakesTheFront(s, t);
    two, p := TakesTheFront(q, t);
  }

  /** A handle that is cloned and dropped again leaves no trace. */
  lemma HandlesComeAndGo<V>(s: State<V>, t: Tid, u: Tid)
    requires Shaped(s) && t < |s.ops| && u < |s.ops|
    ensures 0 < s.senders && s.ops[u].Idle? ==>
              && Next(s, CloneSender(t)).senders == s.senders + 1
              && Next(Next(s, CloneSender(t)), DropSender(u)) == s
    ensures 0 < s.receivers ==>
              && Next(s, CloneReceiver(t)).receivers == s.receivers + 1
              && Next(Next(s, CloneReceiver(t)), DropReceiver(u)) == s
  {
  }
}
