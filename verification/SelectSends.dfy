/**
 Senders on the channels of a select call, when nobody disturbs them: a whole `send`, and a whole last
 `drop`, wake the call through its nodes; and a sleeping call that is sent to answers with an arm of
 that very channel.
 */
module SelectSends {
  import opened Basics
  import R = Ring
  import P = RingProperties
  import G = RingProgress
  import K = RingCalls
  import MP = Mpsc
  import M = MpscProof
  import MC = MpscCalls
  import MW = MpscWhole
  import opened SelectCall
  import opened SelectCallProof
  import opened SelectAlone

  lemma SenderMoves<V>(s: State<V>, q: State<V>, t: Tid)
    requires Inv(s) && 0 < t < |s.ops| && q == SenderStep(s, t)
    ensures Leads(s, q, t) && Inv(q)
  {
    OneNext(s, q, t);
  }

  // ------------------------------------------------------------------------------------
  // The walk along the nodes
  // ------------------------------------------------------------------------------------

  predicate Open<V>(s: State<V>, n: Nid)
    requires Shaped(s) && n < |s.nodes|
  {
    !s.nodes[n].aborted && s.cells[s.nodes[n].cell] == UNSELECTED
  }

  ghost predicate KnownNodes<V>(s: State<V>, rest: seq<Nid>) {
    forall i | 0 <= i < |rest| :: rest[i] < |s.nodes|
  }

  /** `i` is the place of the first open node, or the length. */
  ghost predicate FirstOpen<V>(s: State<V>, rest: seq<Nid>, i: nat)
    requires Shaped(s) && KnownNodes(s, rest)
  {
    && i <= |rest| && (i < |rest| ==> Open(s, rest[i]))
    && forall j | 0 <= j < i :: !Open(s, rest[j])
  }

  /** Thread `t` is done; only cells, with their winners, and the token may differ. */
  ghost predicate Ended<V>(s: State<V>, r: State<V>, t: Tid)
    requires t < |s.ops|
  {
    r == s.(ops := s.ops[t := Idle], cells := r.cells, winner := r.winner, token := r.token)
  }

  /** `wake_select_one` from this node on: the first open one wins alone. */
  ghost predicate OneWon<V>(s: State<V>, r: State<V>, t: Tid, rest: seq<Nid>, i: nat)
    requires Shaped(s) && t < |s.ops| && KnownNodes(s, rest) && i <= |rest|
  {
    && Ended(s, r, t)
    && if i == |rest| then r.cells == s.cells && r.winner == s.winner && r.token == s.token
       else
         var k := s.nodes[rest[i]].cell;
         r.cells == s.cells[k := s.nodes[rest[i]].arm] && r.winner == s.winner[k := t] && r.token
  }

  /** One node of `wake_select_one`, or of `wake_select_all`, is visited, and another one comes next. */
  function Visited<V>(s: State<V>, t: Tid): (q: State<V>)
    requires Shaped(s) && t < |s.ops| && s.ops[t].Visit? && s.ops[t].rest != []
  {
    var n, all, won := s.ops[t].rest[0], s.ops[t].all, s.ops[t].won;
    var looks := !s.nodes[n].aborted && (all || !won);
    var wins := looks && Open(s, n);
    var k := s.nodes[n].cell;
    s.(ops := s.ops[t := Visit(s.ops[t].chan, all, s.ops[t].rest[1..], won || wins)],
       cells := if wins then s.cells[k := s.nodes[n].arm] else s.cells,
       winner := if wins then s.winner[k := t] else s.winner,
       token := s.token || wins || (looks && all))
  }

  lemma VisitsOne<V>(s: State<V>, t: Tid) returns (r: State<V>)
    requires Inv(s) && 0 < t < |s.ops| && s.ops[t].Visit? && s.ops[t].rest != []
    ensures Leads(s, r, t) && Inv(r) && r == Visited(s, t)
  {
    r := SenderStep(s, t);
    SenderMoves(s, r, t);
    if r.ops[t].Exchange? {
      var q := r;
      assert q == s.(ops := s.ops[t := Exchange(s.ops[t].chan, s.ops[t].all, s.ops[t].rest, s.ops[t].won)]);
      r := ExchangesOne(s, q, t);
      Onwards(s, q, r, t);
    }
  }

  lemma ExchangesOne<V>(s: State<V>, q: State<V>, t: Tid) returns (r: State<V>)
    requires Shaped(s) && Inv(q) && 0 < t < |s.ops| && s.ops[t].Visit? && s.ops[t].rest != []
    requires !s.nodes[s.ops[t].rest[0]].aborted && (s.ops[t].all || !s.ops[t].won)
    requires q == s.(ops := s.ops[t := Exchange(s.ops[t].chan, s.ops[t].all, s.ops[t].rest, s.ops[t].won)])
    ensures Leads(q, r, t) && Inv(r) && r == Visited(s, t)
  {
    r := SenderStep(q, t);
    SenderMoves(q, r, t);
    Exchanged(s, q, r, t);
    if r.ops[t].Unpark? {
      var u := r;
      r := UnparksOne(u, t);
      Onwards(q, u, r, t);
      assert u.ops[t := r.ops[t]] == s.ops[t := r.ops[t]];
    }
  }

  /** The exchange has been tried: the thread will be unparked if that worked, or if all are woken. */
  lemma Exchanged<V>(s: State<V>, q: State<V>, u: State<V>, t: Tid)
    requires Shaped(s) && Shaped(q) && 0 < t < |s.ops| && s.ops[t].Visit? && s.ops[t].rest != []
    requires !s.nodes[s.ops[t].rest[0]].aborted && (s.ops[t].all || !s.ops[t].won)
    requires q == s.(ops := s.ops[t := Exchange(s.ops[t].chan, s.ops[t].all, s.ops[t].rest, s.ops[t].won)])
    requires u == SenderStep(q, t)
    ensures var next := Visited(s, t);
            && u.cells == next.cells && u.winner == next.winner && u.token == s.token
            && u == s.(ops := u.ops, cells := u.cells, winner := u.winner)
            && u.ops == s.ops[t := if s.ops[t].all || next.ops[t].won
                                   then Unpark(s.ops[t].chan, s.ops[t].all, s.ops[t].rest[1..], next.ops[t].won)
                                   else next.ops[t]]
  {
  }

  lemma UnparksOne<V>(u: State<V>, t: Tid) returns (r: State<V>)
    requires Inv(u) && 0 < t < |u.ops| && u.ops[t].Unpark?
    ensures Leads(u, r, t) && Inv(r)
    ensures r == u.(ops := u.ops[t := Visit(u.ops[t].chan, u.ops[t].all, u.ops[t].rest, u.ops[t].won)], token := true)
  {
    r := SenderStep(u, t);
    SenderMoves(u, r, t);
  }

  lemma WalkEnds<V>(s: State<V>, t: Tid) returns (r: State<V>)
    requires Inv(s) && 0 < t < |s.ops| && s.ops[t].Visit? && s.ops[t].rest == []
    ensures Leads(s, r, t) && Inv(r) && r == s.(ops := s.ops[t := Idle])
  {
    r := SenderStep(s, t);
    SenderMoves(s, r, t);
  }

  lemma {:induction false} OneRun<V>(s: State<V>, t: Tid, i: nat) returns (r: State<V>)
    requires Inv(s) && 0 < t < |s.ops| && s.ops[t].Visit? && !s.ops[t].all
    requires KnownNodes(s, s.ops[t].rest)
    requires if s.ops[t].won then i == |s.ops[t].rest| else FirstOpen(s, s.ops[t].rest, i)
    ensures Leads(s, r, t) && Inv(r) && OneWon(s, r, t, s.ops[t].rest, i)
    decreases |s.ops[t].rest|
  {
    var rest := s.ops[t].rest;
    if rest == [] {
      r := WalkEnds(s, t);
    } else {
      var q := VisitsOne(s, t);
      assert KnownNodes(q, q.ops[t].rest);
      if !s.ops[t].won && i == 0 {
        r := OneRun(q, t, |rest| - 1);
      } else {
        assert !q.ops[t].won ==> FirstOpen(q, q.ops[t].rest, i - 1);
        r := OneRun(q, t, i - 1);
      }
      Onwards(s, q, r, t);
      assert q.ops[t := Idle] == s.ops[t := Idle];
    }
  }

  /** `wake_select_all` from this node on: every live node's cell is decided, and the thread is unparked. */
  ghost predicate AllWon<V>(s: State<V>, r: State<V>, t: Tid, rest: seq<Nid>)
    requires Shaped(s) && t < |s.ops| && KnownNodes(s, rest)
  {
    && Ended(s, r, t) && |r.cells| == |s.cells|
    && (r.token <==> s.token || exists i :: 0 <= i < |rest| && !s.nodes[rest[i]].aborted)
    && (forall i | 0 <= i < |rest| && !s.nodes[rest[i]].aborted :: r.cells[s.nodes[rest[i]].cell] != UNSELECTED)
    && (forall k: nat | k < |s.cells| && r.cells[k] != s.cells[k] ::
          s.cells[k] == UNSELECTED
          && exists i :: 0 <= i < |rest| && s.nodes[rest[i]].cell == k && r.cells[k] == s.nodes[rest[i]].arm)
  }

  lemma AllWonFirst<V>(s: State<V>, q: State<V>, r: State<V>, t: Tid, rest: seq<Nid>)
    requires Shaped(s) && Shaped(q) && ArmsOk(s) && t < |s.ops| && KnownNodes(s, rest) && rest != []
    requires s.ops[t].Visit? && s.ops[t].all && s.ops[t].rest == rest && q == Visited(s, t)
    requires AllWon(q, r, t, rest[1..])
    ensures AllWon(s, r, t, rest)
  {
    assert q.ops[t := Idle] == s.ops[t := Idle];
    assert forall i | 0 < i < |rest| :: rest[i] == rest[1..][i - 1];
    assert forall i | 0 <= i < |rest[1..]| :: rest[1..][i] == rest[i + 1];
  }

  lemma {:induction false} AllRun<V>(s: State<V>, t: Tid) returns (r: State<V>)
    requires Inv(s) && 0 < t < |s.ops| && s.ops[t].Visit? && s.ops[t].all
    ensures KnownNodes(s, s.ops[t].rest)
    ensures Leads(s, r, t) && Inv(r) && AllWon(s, r, t, s.ops[t].rest)
    decreases |s.ops[t].rest|
  {
    if s.ops[t].rest == [] {
      r := WalkEnds(s, t);
    } else {
      var q := VisitsOne(s, t);
      r := AllRun(q, t);
      Onwards(s, q, r, t);
      AllWonFirst(s, q, r, t, s.ops[t].rest);
    }
  }

  // ------------------------------------------------------------------------------------
  // Push, and take the stack
  // ------------------------------------------------------------------------------------

  /** The ring of channel `c` is `ring`, and thread `t` is about to take the stack, or was refused. */
  function AfterPush<V>(s: State<V>, t: Tid, c: nat, ring: R.State<V>): State<V>
    requires t < |s.ops| && c < |s.chans| && t < |ring.pcs|
  {
    s.(chans := s.chans[c := s.chans[c].(ring := ring)],
       ops := s.ops[t := if ring.pcs[t].PushOk? then Swap(c, false) else Idle])
  }

  lemma PushGoesOn<V>(s: State<V>, t: Tid)
    requires Inv(s) && 0 < t < |s.ops| && s.ops[t].Push?
    ensures var c := s.ops[t].chan;
            var a := s.chans[c].ring;
            var b := R.Next(a, R.Step(t));
            && R.Inv(a) && t < |a.pcs| && M.InPush(a.pcs[t])
            && (M.InPush(b.pcs[t]) || b.pcs[t].PushOk? || b.pcs[t].PushErr?) && |b.pcs| == |a.pcs|
            && SenderStep(s, t) == (if M.InPush(b.pcs[t]) then s.(chans := s.chans[c := s.chans[c].(ring := b)])
                                    else AfterPush(s, t, c, b))
            && G.Effort(b, t) < G.Effort(a, t)
  {
    var c := s.ops[t].chan;
    assert ChanOk(s, c) && RingFits(s, c, t);
    M.CallGoesOn(s.chans[c].ring, t);
    G.StepReducesEffort(s.chans[c].ring, t);
  }

  lemma {:induction false} PushRun<V>(s: State<V>, t: Tid) returns (r: State<V>)
    requires Inv(s) && 0 < t < |s.ops| && s.ops[t].Push?
    ensures var c := s.ops[t].chan;
            && t < |MC.RingEnd(s.chans[c].ring, t).pcs|
            && Leads(s, r, t) && Inv(r) && r == AfterPush(s, t, c, MC.RingEnd(s.chans[c].ring, t))
    decreases G.Effort(s.chans[s.ops[t].chan].ring, t)
  {
    var c := s.ops[t].chan;
    var a := s.chans[c].ring;
    PushGoesOn(s, t);
    MC.RingRests(a, t);
    var q := SenderStep(s, t);
    SenderMoves(s, q, t);
    if M.InPush(q.chans[c].ring.pcs[t]) {
      r := PushRun(q, t);
      Onwards(s, q, r, t);
      assert q.chans[c := r.chans[c]] == s.chans[c := r.chans[c]];
    } else {
      r := q;
      MC.RingStays(q.chans[c].ring, t, 7);
    }
  }

  /** The whole stack comes into the hand of thread `t`. */
  lemma SwapRun<V>(s: State<V>, t: Tid) returns (q: State<V>)
    requires Inv(s) && 0 < t < |s.ops| && s.ops[t].Swap?
    ensures var c := s.ops[t].chan;
            && Leads(s, q, t) && Inv(q) && KnownNodes(s, s.chans[c].stack)
            && q == s.(chans := s.chans[c := s.chans[c].(stack := [])], holder := q.holder,
                       ops := s.ops[t := Visit(c, s.ops[t].all, s.chans[c].stack, false)])
  {
    q := SenderStep(s, t);
    SenderMoves(s, q, t);
    assert ChanShaped(s.chans[s.ops[t].chan], |s.ops|, |s.nodes|);
  }

  lemma {:induction false} FindOpen<V>(s: State<V>, rest: seq<Nid>) returns (i: nat)
    requires Shaped(s) && KnownNodes(s, rest)
    ensures FirstOpen(s, rest, i)
    decreases |rest|
  {
    if rest == [] || Open(s, rest[0]) {
      i := 0;
    } else {
      var j := FindOpen(s, rest[1..]);
      i := j + 1;
      assert forall h | 0 < h < |rest| :: rest[h] == rest[1..][h - 1];
    }
  }

  /** From `s` to `r`, `t` has woken one on channel `c`: the stack is empty, and the first open node has won. */
  ghost predicate WokeOne<V>(s: State<V>, r: State<V>, t: Tid, c: nat, i: nat)
    requires Shaped(s) && t < |s.ops| && c < |s.chans|
  {
    var stack := s.chans[c].stack;
    && KnownNodes(s, stack) && FirstOpen(s, stack, i)
    && r == s.(chans := s.chans[c := s.chans[c].(stack := [])], ops := s.ops[t := Idle],
               holder := r.holder, cells := r.cells, winner := r.winner, token := r.token)
    && if i == |stack| then r.cells == s.cells && r.token == s.token
       else r.cells == s.cells[s.nodes[stack[i]].cell := s.nodes[stack[i]].arm] && r.token
  }

  lemma WakeOneRun<V>(s: State<V>, t: Tid) returns (r: State<V>, i: nat)
    requires Inv(s) && 0 < t < |s.ops| && s.ops[t].Swap? && !s.ops[t].all
    ensures Leads(s, r, t) && Inv(r) && WokeOne(s, r, t, s.ops[t].chan, i)
  {
    var c := s.ops[t].chan;
    var q := SwapRun(s, t);
    i := FindOpen(s, s.chans[c].stack);
    assert FirstOpen(q, q.ops[t].rest, i);
    r := OneRun(q, t, i);
    Onwards(s, q, r, t);
    assert q.ops[t := Idle] == s.ops[t := Idle];
  }

  // ------------------------------------------------------------------------------------
  // send, and the last drop
  // ------------------------------------------------------------------------------------

  /**
   A whole `send` on channel `c`. If the ring takes the value, the stack of select waiters is
   emptied, and its first open node, if any, decides its cell for its arm and leaves a token;
   if the ring refuses it, nobody is woken.
   */
  lemma WholeSend<V>(s: State<V>, t: Tid, c: nat, v: V) returns (q: State<V>, r: State<V>, i: nat)
    requires Inv(s) && 0 < t < |s.ops| && s.ops[t].Idle? && c < |s.chans| && 0 < s.chans[c].senders
    ensures Leads(Next(s, CallSend(t, c, v)), r, t) && Inv(r)
    ensures Shaped(q) && |q.chans| == |s.chans| && |q.ops| == |s.ops| && t < |s.chans[c].ring.pcs|
    ensures q == s.(chans := s.chans[c := s.chans[c].(ring := MC.RingEnd(MP.StartPush(s.chans[c].ring, t, v), t))])
    ensures if q.chans[c].ring.pcs[t].PushOk? then WokeOne(q, r, t, c, i) else r == q
  {
    var p := CallsPush(s, t, c, v);
    var u := PushRun(p, t);
    q := s.(chans := s.chans[c := s.chans[c].(ring := MC.RingEnd(MP.StartPush(s.chans[c].ring, t, v), t))]);
    PushedOnly(s, p, u, q, t, c, MP.StartPush(s.chans[c].ring, t, v));
    if u.ops[t].Swap? {
      r, i := WakeOneRun(u, t);
      Onwards(p, u, r, t);
      WokenAlike(u, q, r, t, c, i);
    } else {
      r, i := u, 0;
    }
  }

  lemma PushedOnly<V>(s: State<V>, p: State<V>, u: State<V>, q: State<V>, t: Tid, c: nat, ring: R.State<V>)
    requires Shaped(s) && t < |s.ops| && s.ops[t].Idle? && c < |s.chans| && Shaped(u)
    requires R.Shaped(ring) && t < |MC.RingEnd(ring, t).pcs|
    requires p == s.(chans := s.chans[c := s.chans[c].(ring := ring)], ops := s.ops[t := Push(c)])
    requires u == AfterPush(p, t, c, MC.RingEnd(ring, t))
    requires q == s.(chans := s.chans[c := s.chans[c].(ring := MC.RingEnd(ring, t))])
    ensures u == q.(ops := q.ops[t := if q.chans[c].ring.pcs[t].PushOk? then Swap(c, false) else Idle])
    ensures Shaped(q) && s.ops[t := Idle] == s.ops
  {
    assert u.chans == q.chans;
    assert u.ops == s.ops[t := u.ops[t]];
  }

  /** Where `t` itself stands makes no difference to whom it wakes. */
  lemma WokenAlike<V>(u: State<V>, q: State<V>, r: State<V>, t: Tid, c: nat, i: nat)
    requires Shaped(u) && Shaped(q) && t < |q.ops| == |u.ops| && c < |q.chans| && u == q.(ops := q.ops[t := u.ops[t]])
    requires WokeOne(u, r, t, c, i)
    ensures WokeOne(q, r, t, c, i)
  {
    assert u.ops[t := Idle] == q.ops[t := Idle];
  }

  lemma CallsPush<V>(s: State<V>, t: Tid, c: nat, v: V) returns (p: State<V>)
    requires Inv(s) && 0 < t < |s.ops| && s.ops[t].Idle? && c < |s.chans| && 0 < s.chans[c].senders
    ensures p == Next(s, CallSend(t, c, v)) && Inv(p) && t < |s.chans[c].ring.pcs|
    ensures p == s.(chans := s.chans[c := s.chans[c].(ring := MP.StartPush(s.chans[c].ring, t, v))],
                    ops := s.ops[t := Push(c)])
  {
    p := Next(s, CallSend(t, c, v));
    NextInv(s, CallSend(t, c, v));
    assert ChanOk(s, c) && RingFits(s, c, t);
    M.StartingAPush(s.chans[c].ring, t, v);
    var one := RingStep(s, c, R.Return(t));
    assert one.chans[c].ring == R.Next(s.chans[c].ring, R.Return(t));
    assert RingStep(one, c, R.CallPush(t, v)).chans
           == s.chans[c := s.chans[c].(ring := MP.StartPush(s.chans[c].ring, t, v))];
  }

  lemma CallsDrop<V>(s: State<V>, t: Tid, c: nat) returns (p: State<V>)
    requires Inv(s) && 0 < t < |s.ops| && s.ops[t].Idle? && c < |s.chans| && s.chans[c].senders == 1
    requires NobodySends(s, c)
    ensures p == Next(s, DropSender(t, c)) && Inv(p)
    ensures p == s.(chans := s.chans[c := s.chans[c].(senders := 0, lastDropper := t)],
                    ops := s.ops[t := Swap(c, true)])
  {
    p := Next(s, DropSender(t, c));
    NextInv(s, DropSender(t, c));
  }

  /** A whole last `drop`: every live node's cell is decided, and if there was one there is a token. */
  lemma WholeDrop<V>(s: State<V>, t: Tid, c: nat) returns (r: State<V>)
    requires Inv(s) && 0 < t < |s.ops| && s.ops[t].Idle? && c < |s.chans| && s.chans[c].senders == 1
    requires NobodySends(s, c)
    ensures Leads(Next(s, DropSender(t, c)), r, t) && Inv(r)
    ensures DroppedAll(s, r, t, c)
  {
    var u;
    var p := CallsDrop(s, t, c);
    u, r := WakeAllRun(p, t);
    DroppedOnly(s, u, r, t, c);
  }

  /** The senders of channel `c` are gone, its stack is empty, and all its nodes' calls are decided. */
  ghost predicate DroppedAll<V>(s: State<V>, r: State<V>, t: Tid, c: nat)
    requires t < |s.ops| && c < |s.chans|
  {
    var q := s.(chans := s.chans[c := s.chans[c].(senders := 0, lastDropper := t, stack := [])], holder := r.holder);
    Shaped(q) && KnownNodes(q, s.chans[c].stack) && AllWon(q, r, t, s.chans[c].stack)
  }

  lemma WakeAllRun<V>(p: State<V>, t: Tid) returns (u: State<V>, r: State<V>)
    requires Inv(p) && 0 < t < |p.ops| && p.ops[t].Swap? && p.ops[t].all
    ensures Leads(p, r, t) && Inv(r) && Shaped(u)
    ensures var c := p.ops[t].chan;
            && u == p.(chans := p.chans[c := p.chans[c].(stack := [])], holder := u.holder,
                       ops := p.ops[t := Visit(c, true, p.chans[c].stack, false)])
            && KnownNodes(u, p.chans[c].stack) && AllWon(u, r, t, p.chans[c].stack)
  {
    u := SwapRun(p, t);
    r := AllRun(u, t);
    Onwards(p, u, r, t);
  }

  lemma DroppedOnly<V>(s: State<V>, u: State<V>, r: State<V>, t: Tid, c: nat)
    requires Shaped(s) && Shaped(u) && t < |s.ops| && c < |s.chans| && KnownNodes(u, s.chans[c].stack)
    requires u == s.(chans := s.chans[c := s.chans[c].(senders := 0, lastDropper := t, stack := [])],
                     holder := u.holder, ops := s.ops[t := Visit(c, true, s.chans[c].stack, false)])
    requires AllWon(u, r, t, s.chans[c].stack)
    ensures DroppedAll(s, r, t, c)
  {
    var q := s.(chans := u.chans, holder := r.holder);
    assert u.ops[t := Idle] == q.ops[t := Idle];
    assert Shaped(q);
  }

  // ------------------------------------------------------------------------------------
  // From end to end
  // ------------------------------------------------------------------------------------

  /** With all senders idle, the rings are between calls; in front of a sleeper they are empty. */
  lemma EmptyRing<V>(s: State<V>, j: nat)
    requires Inv(s) && SendersIdle(s) && Asleep(s) && j < |s.arms|
    ensures var ring := s.chans[s.arms[j]].ring;
            K.Settled(ring) && P.Items(ring) == [] && 2 <= ring.cap
  {
    var c := s.arms[j];
    var ring := s.chans[c].ring;
    assert ChanOk(s, c);
    forall u: nat | u < |ring.pcs| ensures R.AtRest(ring.pcs[u]) { assert RingFits(s, c, u); }
    SleeperHasNothing(s);
    assert !ArmReady(s, j);
  }

  /** The value just sent is taken by the ring, and is the only one there. */
  lemma IsTaken<V>(a: R.State<V>, t: Tid, v: V)
    requires K.Settled(a) && P.Items(a) == [] && 2 <= a.cap && t < |a.pcs|
    ensures var b := MC.RingEnd(MP.StartPush(a, t, v), t);
            t < |b.pcs| && b.pcs[t].PushOk? && P.Items(b) == [v] && b.head < b.tail
  {
    MW.RingPushes(a, t, v);
  }

  /** The sleeper's node for arm `j` is on its channel's stack, and open. */
  lemma NodeIsOpen<V>(s: State<V>, j: nat)
    requires Inv(s) && SendersIdle(s) && Asleep(s) && j < |s.arms|
    ensures j < |s.mine| && s.mine[j] < |s.nodes| && s.mine[j] in s.chans[s.arms[j]].stack && Open(s, s.mine[j])
  {
    SleeperHasNothing(s);
    assert Accounted(s, j);
  }

  /** Any open node on the stack of channel `c` is of the sleeping call, and of an arm of `c`. */
  lemma OpenIsCurrent<V>(s: State<V>, c: nat, n: Nid)
    requires Inv(s) && Asleep(s) && c < |s.chans| && n < |s.nodes| && n in s.chans[c].stack && Open(s, n)
    ensures 0 < |s.cells| && s.nodes[n].cell == Cur(s) && s.nodes[n].arm < |s.arms| && s.arms[s.nodes[n].arm] == c
  {
    assert StackedOk(s, c, n);
  }

  lemma SomeoneWins<V>(s: State<V>, q: State<V>, r: State<V>, t: Tid, j: nat, i: nat)
    requires Inv(s) && SendersIdle(s) && Asleep(s) && j < |s.arms| && t < |s.ops|
    requires Shaped(q) && |q.chans| == |s.chans| && q == s.(chans := q.chans)
    requires q.chans[s.arms[j]].stack == s.chans[s.arms[j]].stack && WokeOne(q, r, t, s.arms[j], i)
    ensures 0 < |s.cells| == |r.cells| && r.token && r.sel.Park? && r.arms == s.arms
    ensures r.cells[Cur(s)] < |s.arms| <= UNSELECTED && s.arms[r.cells[Cur(s)]] == s.arms[j]
  {
    var c := s.arms[j];
    var stack := s.chans[c].stack;
    NodeIsOpen(s, j);
    var h :| 0 <= h < |stack| && stack[h] == s.mine[j];
    assert Open(q, stack[h]);
    OpenIsCurrent(s, c, stack[i]);
  }

  /**
   A select call is asleep; another thread sends on the channel of one of its arms; the selecting
   thread goes on, and answers with an arm of just that channel, where the value now is.
   */
  lemma SleeperAnswers<V>(s: State<V>, t: Tid, j: nat, v: V) returns (sent: State<V>, r: State<V>)
    requires Inv(s) && SendersIdle(s) && Asleep(s) && 0 < t < |s.ops| && j < |s.arms|
    requires 0 < s.chans[s.arms[j]].senders
    ensures Leads(Next(s, CallSend(t, s.arms[j], v)), sent, t) && Leads(sent, r, 0) && Shaped(r)
    ensures r.arms == s.arms && |r.chans| == |s.chans|
    ensures r.sel.Returned? && r.sel.arm < |s.arms| && s.arms[r.sel.arm] == s.arms[j] && ArmReady(r, r.sel.arm)
  {
    sent := SendDecides(s, t, j, v);
    r := Resumes(sent);
  }

  lemma SendDecides<V>(s: State<V>, t: Tid, j: nat, v: V) returns (r: State<V>)
    requires Inv(s) && SendersIdle(s) && Asleep(s) && 0 < t < |s.ops| && j < |s.arms|
    requires 0 < s.chans[s.arms[j]].senders
    ensures Leads(Next(s, CallSend(t, s.arms[j], v)), r, t) && Inv(r)
    ensures 0 < |r.cells| && Cur(r) == Cur(s) && r.token && r.sel.Park? && r.arms == s.arms && |r.chans| == |s.chans|
    ensures r.cells[Cur(s)] < |s.arms| <= UNSELECTED && s.arms[r.cells[Cur(s)]] == s.arms[j]
    ensures var ring := r.chans[s.arms[j]].ring; ring.head < ring.tail
  {
    var c := s.arms[j];
    var q, i;
    EmptyRing(s, j);
    q, r, i := WholeSend(s, t, c, v);
    IsTaken(s.chans[c].ring, t, v);
    SomeoneWins(s, q, r, t, j, i);
  }

  lemma Resumes<V>(s: State<V>) returns (r: State<V>)
    requires Inv(s) && s.sel.Park? && s.token && 0 < |s.cells| && s.cells[Cur(s)] != UNSELECTED
    ensures Leads(s, r, 0) && Inv(r) && r.sel == Returned(s.cells[Cur(s)]) && r.arms == s.arms
    ensures |r.chans| == |s.chans| && forall c: nat | c < |s.chans| :: r.chans[c].ring == s.chans[c].ring
  {
    r := WholeResume(s);
  }
}
