/**
 Operations of the watch channel that nobody disturbs, from every state in which the invariant
 holds: what a whole `send`, `changed`, `is_ready`, `register_select` or `complete_recv` does, and
 that nobody gets stuck on the way.
 */
module WatchCalls {
  import opened Basics
  import opened Watch
  import opened WatchProof

  // ------------------------------------------------------------------------------------
  // Running alone
  // ------------------------------------------------------------------------------------

  /** A step of thread `t`. */
  function Mover<V>(t: Tid): State<V> -> State<V> {
    (s: State<V>) => if Shaped(s) then Next(s, Step(t)) else s
  }

  /** If nobody but thread `t` moves, the state will at some time be `r`. */
  ghost predicate Leads<V>(s: State<V>, r: State<V>, t: Tid) {
    Reaches(Mover(t), s, r)
  }

  lemma OneNext<V>(s: State<V>, q: State<V>, t: Tid)
    requires Inv(s) && q == Next(s, Step(t))
    ensures Leads(s, q, t) && Inv(q)
  {
    NextInv(s, Step(t));
    ReachesSelf(Mover(t), q);
    ReachesNext(Mover(t), s, q);
  }

  lemma NextIsStep<V>(s: State<V>, t: Tid)
    requires Shaped(s) && t < |s.ops|
    ensures Next(s, Step(t)) == StepOf(s, t)
  {
  }

  lemma OneMove<V>(s: State<V>, t: Tid)
    requires Inv(s) && t < |s.ops|
    ensures Leads(s, StepOf(s, t), t) && Inv(StepOf(s, t))
  {
    NextIsStep(s, t);
    OneNext(s, StepOf(s, t), t);
  }

  lemma Onwards<V>(s: State<V>, q: State<V>, r: State<V>, t: Tid)
    requires Leads(s, q, t) && Leads(q, r, t)
    ensures Leads(s, r, t)
  {
    ReachesThen(Mover(t), s, q, r);
  }

  // ------------------------------------------------------------------------------------
  // Senders
  // ------------------------------------------------------------------------------------

  lemma SendMoves<V>(s: State<V>, t: Tid)
    requires Inv(s) && t < |s.ops| && Sending(s.ops[t])
    ensures Leads(s, SendStep(s, t), t) && Inv(SendStep(s, t))
  {
    OneMove(s, t);
  }

  /** The tokens after the threads of these plain waiters were unparked. */
  function Woken(tokens: seq<bool>, owners: seq<Tid>, rest: seq<Wid>): (r: seq<bool>)
    requires forall i | 0 <= i < |rest| :: rest[i] < |owners|
    ensures |r| == |tokens|
    ensures forall u: nat | u < |tokens| ::
              r[u] <==> (tokens[u] || exists i: nat :: i < |rest| && owners[rest[i]] == u)
  {
    seq(|tokens|, u requires 0 <= u < |tokens| =>
      tokens[u] || exists i: nat :: i < |rest| && owners[rest[i]] == u)
  }

  lemma WokenFirst(tokens: seq<bool>, owners: seq<Tid>, rest: seq<Wid>)
    requires (forall i | 0 <= i < |rest| :: rest[i] < |owners|) && rest != [] && owners[rest[0]] < |tokens|
    ensures Woken(tokens[owners[rest[0]] := true], owners, rest[1..]) == Woken(tokens, owners, rest)
  {
    var later := Woken(tokens[owners[rest[0]] := true], owners, rest[1..]);
    forall u: nat | u < |tokens| ensures later[u] == Woken(tokens, owners, rest)[u] {
      if i: nat :| i < |rest| && owners[rest[i]] == u {
        if i != 0 { assert rest[i] == rest[1..][i - 1]; }
      }
      if i: nat :| i < |rest[1..]| && owners[rest[1..][i]] == u {
        assert rest[1..][i] == rest[i + 1];
      }
    }
  }

  /** The select waiters after `wake_select_all` has visited these: claimed, unless aborted. */
  function ClaimedNodes<V>(s: State<V>, rest: seq<nat>): (r: seq<Node>)
    requires Shaped(s)
    ensures |r| == |s.nodes|
    ensures forall n: nat | n < |s.nodes| ::
              r[n] == if n in rest && !s.nodes[n].aborted
                      then s.nodes[n].(claimed := true, mark := s.takes[s.nodes[n].tid]) else s.nodes[n]
  {
    seq(|s.nodes|, n requires 0 <= n < |s.nodes| =>
      if n in rest && !s.nodes[n].aborted
      then s.nodes[n].(claimed := true, mark := s.takes[s.nodes[n].tid]) else s.nodes[n])
  }

  /** ... and their threads unparked. */
  function ClaimedTokens<V>(s: State<V>, rest: seq<nat>): (r: seq<bool>)
    requires Shaped(s)
    ensures |r| == |s.tokens|
    ensures forall u: nat | u < |s.tokens| ::
              r[u] <==> (s.tokens[u]
                         || exists n: nat :: n in rest && n < |s.nodes| && !s.nodes[n].aborted && s.nodes[n].tid == u)
  {
    seq(|s.tokens|, u requires 0 <= u < |s.tokens| =>
      s.tokens[u] || exists n: nat :: n in rest && n < |s.nodes| && !s.nodes[n].aborted && s.nodes[n].tid == u)
  }

  lemma ClaimFirst<V>(s: State<V>, q: State<V>, rest: seq<nat>)
    requires Shaped(s) && Shaped(q) && rest != [] && rest[0] < |s.nodes|
    requires q.nodes == ClaimNode(s, rest[0]).nodes && q.tokens == ClaimNode(s, rest[0]).tokens && q.takes == s.takes
    ensures ClaimedNodes(q, rest[1..]) == ClaimedNodes(s, rest)
    ensures ClaimedTokens(q, rest[1..]) == ClaimedTokens(s, rest)
  {
    assert rest == [rest[0]] + rest[1..];
    ClaimFirstTokens(s, q, rest);
  }

  lemma ClaimFirstTokens<V>(s: State<V>, q: State<V>, rest: seq<nat>)
    requires Shaped(s) && Shaped(q) && rest != [] && rest[0] < |s.nodes|
    requires q.nodes == ClaimNode(s, rest[0]).nodes && q.tokens == ClaimNode(s, rest[0]).tokens
    ensures ClaimedTokens(q, rest[1..]) == ClaimedTokens(s, rest)
  {
    assert rest == [rest[0]] + rest[1..];
    assert forall n: nat | n < |s.nodes| ::
        q.nodes[n].aborted == s.nodes[n].aborted && q.nodes[n].tid == s.nodes[n].tid;
    forall u: nat | u < |s.tokens| ensures ClaimedTokens(q, rest[1..])[u] == ClaimedTokens(s, rest)[u] {
      if n: nat :| n in rest && n < |s.nodes| && !s.nodes[n].aborted && s.nodes[n].tid == u {
        if n !in rest[1..] { assert n == rest[0]; }
      }
    }
  }

  /** What is left for a sender to do, once it is past its bump. */
  ghost predicate SendEnds<V>(s: State<V>, r: State<V>, t: Tid, waiters: seq<Wid>, stack: seq<nat>)
    requires Shaped(s) && t < |s.ops|
    requires forall i | 0 <= i < |waiters| :: waiters[i] < |s.owners|
  {
    && r == s.(ops := s.ops[t := Finished(Sent)], nodes := ClaimedNodes(s, stack), stack := r.stack,
               tokens := ClaimedTokens(s.(tokens := Woken(s.tokens, s.owners, waiters)), stack))
    && r.stack == if s.ops[t].SelectClaim? then s.stack else []
  }

  lemma NobodyToWake<V>(s: State<V>)
    requires Shaped(s)
    ensures s.(tokens := Woken(s.tokens, s.owners, [])) == s
    ensures ClaimedNodes(s, []) == s.nodes && ClaimedTokens(s, []) == s.tokens
  {
    assert Woken(s.tokens, s.owners, []) == s.tokens;
  }

  lemma ClaimOnce<V>(s: State<V>, q: State<V>, t: Tid)
    requires Shaped(s) && t < |s.ops| && s.ops[t].SelectClaim? && s.ops[t].rest != [] && q == SendStep(s, t)
    ensures Shaped(q) && q.ops == s.ops[t := SelectClaim(s.ops[t].rest[1..])] && q.takes == s.takes
    ensures q == s.(ops := q.ops, nodes := q.nodes, tokens := q.tokens)
    ensures q.nodes == ClaimNode(s, s.ops[t].rest[0]).nodes && q.tokens == ClaimNode(s, s.ops[t].rest[0]).tokens
  {
  }

  lemma ClaimFirstEnds<V>(s: State<V>, q: State<V>, r: State<V>, t: Tid)
    requires Shaped(s) && t < |s.ops| && s.ops[t].SelectClaim? && s.ops[t].rest != []
    requires Shaped(q) && q.ops == s.ops[t := SelectClaim(s.ops[t].rest[1..])]
    requires q == s.(ops := q.ops, nodes := q.nodes, tokens := q.tokens)
    requires ClaimedNodes(q, s.ops[t].rest[1..]) == ClaimedNodes(s, s.ops[t].rest)
    requires ClaimedTokens(q, s.ops[t].rest[1..]) == ClaimedTokens(s, s.ops[t].rest)
    requires SendEnds(q, r, t, [], s.ops[t].rest[1..])
    ensures SendEnds(s, r, t, [], s.ops[t].rest)
  {
    NobodyToWake(s);
    NobodyToWake(q);
  }

  lemma {:induction false} ClaimsRun<V>(s: State<V>, t: Tid) returns (r: State<V>)
    requires Inv(s) && t < |s.ops| && s.ops[t].SelectClaim?
    ensures Leads(s, r, t) && Inv(r) && SendEnds(s, r, t, [], s.ops[t].rest)
    decreases |s.ops[t].rest|
  {
    SendMoves(s, t);
    var q := SendStep(s, t);
    if s.ops[t].rest == [] {
      NobodyToWake(s);
      r := q;
    } else {
      ClaimOnce(s, q, t);
      r := ClaimsRun(q, t);
      ClaimFirst(s, q, s.ops[t].rest);
      ClaimFirstEnds(s, q, r, t);
      Onwards(s, q, r, t);
    }
  }

  lemma SwapRun<V>(s: State<V>, t: Tid) returns (r: State<V>)
    requires Inv(s) && t < |s.ops| && s.ops[t].SelectSwap?
    ensures Leads(s, r, t) && Inv(r) && SendEnds(s, r, t, [], s.stack)
  {
    SendMoves(s, t);
    NobodyToWake(s);
    var q := SendStep(s, t);
    NobodyToWake(q);
    r := ClaimsRun(q, t);
    assert ClaimedNodes(q, s.stack) == ClaimedNodes(s, s.stack);
    assert ClaimedTokens(q, s.stack) == ClaimedTokens(s, s.stack);
    Onwards(s, q, r, t);
  }

  lemma {:induction false} UnparksRun<V>(s: State<V>, t: Tid) returns (r: State<V>)
    requires Inv(s) && t < |s.ops| && s.ops[t].Unpark?
    ensures forall i | 0 <= i < |s.ops[t].rest| :: s.ops[t].rest[i] < |s.owners|
    ensures Leads(s, r, t) && Inv(r) && SendEnds(s, r, t, s.ops[t].rest, s.stack)
    decreases |s.ops[t].rest|
  {
    if s.ops[t].rest == [] {
      r := GoesToTheStack(s, t);
    } else {
      SendMoves(s, t);
      var q := SendStep(s, t);
      r := UnparksRun(q, t);
      WokenFirst(s.tokens, s.owners, s.ops[t].rest);
      UnparkFirst(s, q, r, t);
      Onwards(s, q, r, t);
    }
  }

  lemma GoesToTheStack<V>(s: State<V>, t: Tid) returns (r: State<V>)
    requires Inv(s) && t < |s.ops| && s.ops[t].Unpark? && s.ops[t].rest == []
    ensures Leads(s, r, t) && Inv(r) && SendEnds(s, r, t, [], s.stack)
  {
    SendMoves(s, t);
    var q := SendStep(s, t);
    NobodyToWake(s);
    NobodyToWake(q);
    r := SwapRun(q, t);
    assert ClaimedNodes(q, s.stack) == ClaimedNodes(s, s.stack);
    assert ClaimedTokens(q, s.stack) == ClaimedTokens(s, s.stack);
    Onwards(s, q, r, t);
  }

  lemma UnparkFirst<V>(s: State<V>, q: State<V>, r: State<V>, t: Tid)
    requires Shaped(s) && t < |s.ops| && s.ops[t].Unpark? && s.ops[t].rest != []
    requires forall i | 0 <= i < |s.ops[t].rest| :: s.ops[t].rest[i] < |s.owners|
    requires q == s.(ops := s.ops[t := Unpark(s.ops[t].rest[1..])],
                     tokens := s.tokens[s.owners[s.ops[t].rest[0]] := true]) && Shaped(q)
    requires Woken(q.tokens, s.owners, s.ops[t].rest[1..]) == Woken(s.tokens, s.owners, s.ops[t].rest)
    requires SendEnds(q, r, t, s.ops[t].rest[1..], s.stack)
    ensures SendEnds(s, r, t, s.ops[t].rest, s.stack)
  {
    assert ClaimedNodes(q, s.stack) == ClaimedNodes(s, s.stack);
    var a := s.(tokens := Woken(s.tokens, s.owners, s.ops[t].rest));
    var b := q.(tokens := Woken(q.tokens, q.owners, s.ops[t].rest[1..]));
    assert ClaimedTokens(b, s.stack) == ClaimedTokens(a, s.stack);
  }

  /** From `s` to `r`, thread `t` has woken everybody: listed receivers, and select waiters on the stack. */
  ghost predicate WokeAll<V>(s: State<V>, r: State<V>, t: Tid)
    requires Shaped(s) && t < |s.ops|
  {
    r == s.(ops := s.ops[t := Finished(Sent)], stack := [], nodes := ClaimedNodes(s, s.stack),
            tokens := ClaimedTokens(s.(tokens := Woken(s.tokens, s.owners, s.list)), s.stack))
  }

  lemma SnapshotRun<V>(s: State<V>, t: Tid) returns (r: State<V>)
    requires Inv(s) && t < |s.ops| && s.ops[t].Snapshot?
    ensures Leads(s, r, t) && Inv(r) && WokeAll(s, r, t)
  {
    SendMoves(s, t);
    var q := SendStep(s, t);
    r := UnparksRun(q, t);
    Onwards(s, q, r, t);
    SnapshotEnds(s, q, r, t);
  }

  lemma SnapshotEnds<V>(s: State<V>, q: State<V>, r: State<V>, t: Tid)
    requires Shaped(s) && t < |s.ops| && s.ops[t].Snapshot? && Shaped(q)
    requires q == s.(ops := s.ops[t := Unpark(s.list)]) && SendEnds(q, r, t, s.list, s.stack)
    ensures WokeAll(s, r, t)
  {
    assert ClaimedNodes(q, s.stack) == ClaimedNodes(s, s.stack);
    var a := s.(tokens := Woken(s.tokens, s.owners, s.list));
    var b := q.(tokens := Woken(q.tokens, q.owners, s.list));
    assert ClaimedTokens(b, s.stack) == ClaimedTokens(a, s.stack);
  }

  /** The version is one further, by a bump of `t` that announces `stamp`. */
  function Bumped<V>(s: State<V>, t: Tid, stamp: nat): State<V> {
    s.(version := s.version + 1, stamps := s.stamps + [stamp], bumper := s.bumper + [t])
  }

  lemma BumpRun<V>(s: State<V>, t: Tid) returns (r: State<V>)
    requires Inv(s) && t < |s.ops| && s.ops[t].Bump?
    ensures Leads(s, r, t) && Inv(r)
    ensures Shaped(Bumped(s, t, s.ops[t].stamp)) && WokeAll(Bumped(s, t, s.ops[t].stamp), r, t)
  {
    SendMoves(s, t);
    var q := SendStep(s, t);
    var b := Bumped(s, t, s.ops[t].stamp);
    assert q == b.(ops := s.ops[t := Snapshot]);
    r := SnapshotRun(q, t);
    Onwards(s, q, r, t);
    SameWake(b, q, r, t);
  }

  /** Where `t` itself stands makes no difference to whom it wakes. */
  lemma SameWake<V>(a: State<V>, q: State<V>, r: State<V>, t: Tid)
    requires Shaped(q) && t < |a.ops| == |q.ops| && q == a.(ops := a.ops[t := q.ops[t]]) && WokeAll(q, r, t)
    requires OpShaped(a.ops[t], |a.receivers|, |a.owners|, |a.nodes|)
    ensures Shaped(a) && WokeAll(a, r, t)
  {
    assert a.ops == q.ops[t := a.ops[t]];
    assert ClaimedNodes(q, q.stack) == ClaimedNodes(a, a.stack);
    var x := a.(tokens := Woken(a.tokens, a.owners, a.list));
    var y := q.(tokens := Woken(q.tokens, q.owners, q.list));
    assert ClaimedTokens(y, q.stack) == ClaimedTokens(x, a.stack);
  }

  /**
   A whole `send`, whatever others are about: the value is stored, the version goes up by one, the
   thread of every listed receiver is unparked, and every select waiter on the stack that is not
   aborted is claimed and its thread unparked. Nobody else is touched.
   */
  lemma WholeSend<V>(s: State<V>, t: Tid, v: V) returns (r: State<V>)
    requires Inv(s) && t < |s.ops| && s.ops[t].Idle? && 0 < s.senders
    ensures Leads(Next(s, CallSend(t, v)), r, t) && Inv(r)
    ensures var b := Bumped(s, t, |s.stored| + 1).(value := Some(v), stored := s.stored + [v]);
            Shaped(b) && WokeAll(b, r, t)
  {
    var c := SendBegins(s, t, v);
    r := StoreRun(c, t);
    var a := Bumped(c, t, |s.stored| + 1).(value := Some(v), stored := s.stored + [v]);
    var b := Bumped(s, t, |s.stored| + 1).(value := Some(v), stored := s.stored + [v]);
    assert a == b.(ops := b.ops[t := a.ops[t]]);
    SameWake(b, a, r, t);
  }

  lemma SendBegins<V>(s: State<V>, t: Tid, v: V) returns (c: State<V>)
    requires Inv(s) && t < |s.ops| && s.ops[t].Idle? && 0 < s.senders
    ensures Next(s, CallSend(t, v)) == c && Inv(c) && c == s.(ops := s.ops[t := Store(v)])
  {
    NextInv(s, CallSend(t, v));
    c := Next(s, CallSend(t, v));
  }

  lemma StoreRun<V>(c: State<V>, t: Tid) returns (r: State<V>)
    requires Inv(c) && t < |c.ops| && c.ops[t].Store?
    ensures Leads(c, r, t) && Inv(r)
    ensures var v := c.ops[t].v;
            var a := Bumped(c, t, |c.stored| + 1).(value := Some(v), stored := c.stored + [v]);
            Shaped(a) && WokeAll(a, r, t)
  {
    var v := c.ops[t].v;
    SendMoves(c, t);
    var q := SendStep(c, t);
    r := BumpRun(q, t);
    Onwards(c, q, r, t);
    var a := Bumped(c, t, |c.stored| + 1).(value := Some(v), stored := c.stored + [v]);
    var b := Bumped(q, t, |c.stored| + 1);
    assert b == a.(ops := a.ops[t := b.ops[t]]);
    SameWake(a, b, r, t);
  }

  /** A whole `mark_changed`: the same, but the value stays. */
  lemma WholeMark<V>(s: State<V>, t: Tid) returns (r: State<V>)
    requires Inv(s) && t < |s.ops| && s.ops[t].Idle? && 0 < s.senders
    ensures Leads(Next(s, CallMark(t)), r, t) && Inv(r)
    ensures Shaped(Bumped(s, t, 0)) && WokeAll(Bumped(s, t, 0), r, t)
  {
    var c := Next(s, CallMark(t));
    NextInv(s, CallMark(t));
    r := BumpRun(c, t);
    var a, b := Bumped(c, t, 0), Bumped(s, t, 0);
    assert a == b.(ops := b.ops[t := a.ops[t]]);
    SameWake(b, a, r, t);
  }

  /** The whole drop of the last sender: everybody is woken, and the version stays. */
  lemma WholeDrop<V>(s: State<V>, t: Tid) returns (r: State<V>)
    requires Inv(s) && t < |s.ops| && s.ops[t].Idle? && s.senders == 1 && NobodySends(s)
    ensures Leads(Next(s, DropSender(t)), r, t) && Inv(r)
    ensures WokeAll(s.(senders := 0, lastDropper := t), r, t)
  {
    var c := Next(s, DropSender(t));
    NextInv(s, DropSender(t));
    r := SnapshotRun(c, t);
    var a := s.(senders := 0, lastDropper := t);
    assert c == a.(ops := a.ops[t := c.ops[t]]);
    SameWake(a, c, r, t);
  }

  /** From wherever it stands, a sender that nobody disturbs comes to its end. */
  lemma SenderEnds<V>(s: State<V>, t: Tid) returns (r: State<V>)
    requires Inv(s) && t < |s.ops| && Sending(s.ops[t])
    ensures Leads(s, r, t) && Inv(r) && |r.ops| == |s.ops| && r.ops[t] == Finished(Sent)
  {
    match s.ops[t]
    case Store(_) => r := StoreRun(s, t);
    case Bump(_) => r := BumpRun(s, t);
    case Snapshot => r := SnapshotRun(s, t);
    case Unpark(_) => r := UnparksRun(s, t);
    case SelectSwap => r := SwapRun(s, t);
    case SelectClaim(_) => r := ClaimsRun(s, t);
  }

  /** ... and on the way it unparks everybody it owes an unpark. */
  lemma DebtIsPaid<V>(s: State<V>, u: Tid, w: Wid) returns (r: State<V>)
    requires Inv(s) && w in s.list && OwesAt(s, u, w)
    ensures w < |s.owners| && Leads(s, r, u) && |r.ops| == |r.tokens| == |s.ops|
    ensures r.tokens[s.owners[w]] && forall t: nat | t < |s.ops| && t != u :: r.ops[t] == s.ops[t]
  {
    if s.ops[u].Snapshot? {
      r := SnapshotRun(s, u);
      var i :| 0 <= i < |s.list| && s.list[i] == w;
      assert Woken(s.tokens, s.owners, s.list)[s.owners[w]];
    } else {
      r := UnparksRun(s, u);
      var i :| 0 <= i < |s.ops[u].rest| && s.ops[u].rest[i] == w;
      assert Woken(s.tokens, s.owners, s.ops[u].rest)[s.owners[w]];
    }
  }

  // ------------------------------------------------------------------------------------
  // Receivers
  // ------------------------------------------------------------------------------------

  lemma ChangedMoves<V>(s: State<V>, t: Tid)
    requires Inv(s) && t < |s.ops| && (s.ops[t].ChangedCount? || s.ops[t].ChangedArm?)
    ensures Leads(s, ChangedStep(s, t), t) && Inv(ChangedStep(s, t))
  {
    OneMove(s, t);
  }

  lemma ReadyMoves<V>(s: State<V>, t: Tid)
    requires Inv(s) && t < |s.ops| && (s.ops[t].ReadyCount? || s.ops[t].ReadyVersion?)
    ensures Leads(s, ReadyStep(s, t), t) && Inv(ReadyStep(s, t))
  {
    OneMove(s, t);
  }

  lemma AwaitMoves<V>(s: State<V>, t: Tid)
    requires Inv(s) && t < |s.ops| && Waiting(s.ops[t]) && !Enlisted(s.ops[t])
    ensures Leads(s, AwaitStep(s, t), t) && Inv(AwaitStep(s, t))
  {
    OneMove(s, t);
  }

  lemma EnlistedMoves<V>(s: State<V>, t: Tid)
    requires Inv(s) && t < |s.ops| && Enlisted(s.ops[t])
    ensures Leads(s, EnlistedStep(s, t), t) && Inv(EnlistedStep(s, t))
  {
    OneMove(s, t);
  }

  /** The fast path finds nothing: the thread registers. */
  lemma RegistersRun<V>(s: State<V>, t: Tid) returns (r: State<V>)
    requires Inv(s) && t < |s.ops| && s.ops[t].AwaitVersion?
    requires s.version == s.ops[t].c.baseline && s.senders != 0
    ensures Leads(s, r, t) && Inv(r)
    ensures r == s.(owners := s.owners + [t], list := s.list + [|s.owners|],
                    ops := s.ops[t := AwaitRecheck(s.ops[t].c, |s.owners|)])
  {
    AwaitMoves(s, t);
    var p := s.(ops := s.ops[t := AwaitCount(s.ops[t].c)]);
    AwaitMoves(p, t);
    var q := p.(ops := p.ops[t := AwaitRegister(s.ops[t].c)]);
    Onwards(s, p, q, t);
    r := EnlistsRun(q, t);
    Onwards(s, q, r, t);
    assert q.ops[t := r.ops[t]] == s.ops[t := r.ops[t]];
  }

  lemma EnlistsRun<V>(q: State<V>, t: Tid) returns (r: State<V>)
    requires Inv(q) && t < |q.ops| && q.ops[t].AwaitRegister?
    ensures Leads(q, r, t) && Inv(r)
    ensures r == q.(owners := q.owners + [t], list := q.list + [|q.owners|],
                    ops := q.ops[t := AwaitRecheck(q.ops[t].c, |q.owners|)])
  {
    AwaitMoves(q, t);
    r := AwaitStep(q, t);
  }

  /** ... looks again, and is about to park. */
  lemma RechecksRun<V>(s: State<V>, t: Tid) returns (r: State<V>)
    requires Inv(s) && t < |s.ops| && s.ops[t].AwaitRecheck?
    requires s.version == s.ops[t].c.baseline && s.senders != 0
    ensures Leads(s, r, t) && Inv(r)
    ensures r == s.(ops := s.ops[t := AwaitPark(s.ops[t].c, s.ops[t].w)])
  {
    EnlistedMoves(s, t);
    var p := EnlistedStep(s, t);
    EnlistedMoves(p, t);
    r := EnlistedStep(p, t);
    Onwards(s, p, r, t);
  }

  /** A parked thread with a token takes it, and goes to the top of the loop. */
  lemma UnparkedRun<V>(s: State<V>, t: Tid) returns (r: State<V>)
    requires Inv(s) && t < |s.ops| && s.ops[t].AwaitPark? && s.tokens[t]
    ensures Leads(s, r, t) && Inv(r)
    ensures r == TakeOwn(s, t).(list := Without(s.list, s.ops[t].w), ops := s.ops[t := AwaitVersion(s.ops[t].c)])
  {
    var p := TakesToken(s, t);
    r := LeavesList(p, t);
    Onwards(s, p, r, t);
    assert p.ops[t := r.ops[t]] == s.ops[t := r.ops[t]];
  }

  lemma TakesToken<V>(s: State<V>, t: Tid) returns (p: State<V>)
    requires Inv(s) && t < |s.ops| && s.ops[t].AwaitPark? && s.tokens[t]
    ensures Leads(s, p, t) && Inv(p)
    ensures p == TakeOwn(s, t).(ops := s.ops[t := AwaitUnregister(s.ops[t].c, s.ops[t].w)])
  {
    EnlistedMoves(s, t);
    p := EnlistedStep(s, t);
  }

  lemma LeavesList<V>(p: State<V>, t: Tid) returns (r: State<V>)
    requires Inv(p) && t < |p.ops| && p.ops[t].AwaitUnregister?
    ensures Leads(p, r, t) && Inv(r)
    ensures r == p.(list := Without(p.list, p.ops[t].w), ops := p.ops[t := AwaitVersion(p.ops[t].c)])
  {
    EnlistedMoves(p, t);
    r := EnlistedStep(p, t);
  }

  /** Asleep in `await_change_from`, listed after `others`. Of other threads nothing has changed. */
  ghost predicate FellAsleep<V>(s: State<V>, r: State<V>, t: Tid, c: Wait, others: seq<Wid>)
    requires Shaped(s) && t < |s.ops|
  {
    && t < |r.ops| && r.ops[t].AwaitPark? && r.ops[t].c == c && r.list == others + [r.ops[t].w]
    && r == s.(ops := s.ops[t := r.ops[t]], owners := r.owners, list := r.list,
               tokens := s.tokens[t := false], takes := r.takes)
  }

  /** How `await_change_from` goes on alone from the top of its loop. */
  ghost predicate Awaited<V>(s: State<V>, r: State<V>, t: Tid)
    requires Shaped(s) && t < |s.ops| && s.ops[t].AwaitVersion?
  {
    var c := s.ops[t].c;
    var rx := s.receivers[c.r];
    if s.version != c.baseline then
      r == s.(ops := s.ops[t := Finished(Changed(s.version))],
              receivers := s.receivers[c.r := rx.(cursor := s.version, armed := false, seen := s.version)])
    else if s.senders == 0 then
      r == s.(ops := s.ops[t := Finished(Disconnected)], receivers := s.receivers[c.r := rx.(armed := false)])
    else FellAsleep(s, r, t, c, s.list)
  }

  lemma ParksRun<V>(s: State<V>, t: Tid) returns (r: State<V>)
    requires Inv(s) && t < |s.ops| && s.ops[t].AwaitVersion?
    requires s.version == s.ops[t].c.baseline && s.senders != 0
    ensures Leads(s, r, t) && Inv(r)
    ensures r == s.(owners := s.owners + [t], list := s.list + [|s.owners|],
                    ops := s.ops[t := AwaitPark(s.ops[t].c, |s.owners|)])
  {
    var q := RegistersRun(s, t);
    r := RechecksRun(q, t);
    Onwards(s, q, r, t);
  }

  lemma ParksTwice<V>(s: State<V>, t: Tid) returns (r: State<V>)
    requires Inv(s) && t < |s.ops| && s.ops[t].AwaitVersion? && s.tokens[t]
    requires s.version == s.ops[t].c.baseline && s.senders != 0
    ensures Leads(s, r, t) && Inv(r) && FellAsleep(s, r, t, s.ops[t].c, s.list)
  {
    var q := WakesAtOnce(s, t);
    r := ParksRun(q, t);
    Onwards(s, q, r, t);
  }

  /** A token that was there before lets the first park return at once; its waiter has come and gone. */
  lemma WakesAtOnce<V>(s: State<V>, t: Tid) returns (q: State<V>)
    requires Inv(s) && t < |s.ops| && s.ops[t].AwaitVersion? && s.tokens[t]
    requires s.version == s.ops[t].c.baseline && s.senders != 0
    ensures Leads(s, q, t) && Inv(q)
    ensures q == TakeOwn(s, t).(owners := s.owners + [t])
  {
    var p := ParksRun(s, t);
    q := UnparkedRun(p, t);
    Onwards(s, p, q, t);
    CameAndWent(s, p, q, t);
  }

  lemma CameAndWent<V>(s: State<V>, p: State<V>, q: State<V>, t: Tid)
    requires Shaped(s) && t < |s.ops| && s.ops[t].AwaitVersion?
    requires p == s.(owners := s.owners + [t], list := s.list + [|s.owners|],
                     ops := s.ops[t := AwaitPark(s.ops[t].c, |s.owners|)])
    requires q == TakeOwn(p, t).(list := Without(p.list, |s.owners|), ops := p.ops[t := AwaitVersion(s.ops[t].c)])
    ensures q == TakeOwn(s, t).(owners := s.owners + [t])
  {
    LastIsGone(s.list, |s.owners|);
    assert q.ops == s.ops;
  }

  lemma LastIsGone(list: seq<Wid>, w: Wid)
    requires forall i | 0 <= i < |list| :: list[i] < w
    ensures Without(list + [w], w) == list
  {
    WithoutLast(list, w, w);
  }

  lemma AwaitRun<V>(s: State<V>, t: Tid) returns (r: State<V>)
    requires Inv(s) && t < |s.ops| && s.ops[t].AwaitVersion?
    ensures Leads(s, r, t) && Inv(r) && Awaited(s, r, t)
  {
    if s.version == s.ops[t].c.baseline && s.senders != 0 {
      if s.tokens[t] {
        r := ParksTwice(s, t);
      } else {
        r := ParksRun(s, t);
        assert s.tokens == s.tokens[t := false];
      }
    } else {
      r := ReportsRun(s, t);
    }
  }

  /** There is something to report: another version, or the end of the senders. */
  lemma ReportsRun<V>(s: State<V>, t: Tid) returns (r: State<V>)
    requires Inv(s) && t < |s.ops| && s.ops[t].AwaitVersion?
    requires s.version != s.ops[t].c.baseline || s.senders == 0
    ensures Leads(s, r, t) && Inv(r) && Awaited(s, r, t)
  {
    AwaitMoves(s, t);
    r := AwaitStep(s, t);
    if s.version == s.ops[t].c.baseline {
      var p := r;
      AwaitMoves(p, t);
      r := AwaitStep(p, t);
      Onwards(s, p, r, t);
    }
  }

  /** A sleeper that has been given a token goes on. */
  lemma WholeResume<V>(s: State<V>, t: Tid) returns (q: State<V>, r: State<V>)
    requires Inv(s) && t < |s.ops| && s.ops[t].AwaitPark? && s.tokens[t]
    ensures Leads(s, r, t) && Inv(r)
    ensures q == TakeOwn(s, t).(list := Without(s.list, s.ops[t].w), ops := s.ops[t := AwaitVersion(s.ops[t].c)])
    ensures Shaped(q) && Awaited(q, r, t)
  {
    q := UnparkedRun(s, t);
    r := AwaitRun(q, t);
    Onwards(s, q, r, t);
  }

  /** A whole `complete_recv`: it awaits a change from where the cursor stands. */
  lemma WholeComplete<V>(s: State<V>, t: Tid, rid: Rid) returns (r: State<V>)
    requires Inv(s) && MayUse(s, t, rid)
    ensures var c := Next(s, CallComplete(t, rid));
            Leads(c, r, t) && Inv(r) && Awaited(c, r, t) && c.ops[t].c.baseline == s.receivers[rid].cursor
  {
    var c := Next(s, CallComplete(t, rid));
    NextInv(s, CallComplete(t, rid));
    r := AwaitRun(c, t);
  }

  /** Having made use of its receiver, thread `t` awaits a change from `baseline`. */
  function AtAwait<V>(s: State<V>, t: Tid, rx: Receiver, c: Wait): State<V>
    requires Shaped(s) && t < |s.ops| && c.r < |s.receivers|
  {
    s.(ops := s.ops[t := AwaitVersion(c)], receivers := s.receivers[c.r := rx])
  }

  /** A whole `changed`: without senders it ends at once; otherwise it falls asleep at the live version. */
  lemma WholeChanged<V>(s: State<V>, t: Tid, rid: Rid) returns (r: State<V>)
    requires Inv(s) && MayUse(s, t, rid)
    ensures Leads(Next(s, CallChanged(t, rid)), r, t) && Inv(r)
    ensures var rx := Used(s.receivers[rid]);
            if s.senders == 0 then
              r == s.(ops := s.ops[t := Finished(Disconnected)], receivers := s.receivers[rid := rx.(armed := false)])
            else FellAsleep(s.(receivers := s.receivers[rid := Armed(rx, s.version)]), r, t,
                            Wait(rid, s.version, false), s.list)
    ensures var rx := Used(s.receivers[rid]);
            Armed(rx, s.version).armed && Armed(rx, s.version).cursor == if rx.armed then rx.cursor else s.version
  {
    var rx := Used(s.receivers[rid]);
    NextInv(s, CallChanged(t, rid));
    var c := s.(ops := s.ops[t := ChangedCount(rid)], receivers := s.receivers[rid := rx]);
    if s.senders == 0 {
      r := NobodyLeft(c, t);
      assert c.receivers[rid := rx.(armed := false)] == s.receivers[rid := rx.(armed := false)];
    } else {
      r := ChangedRun(c, t);
      assert c.receivers[rid := Armed(rx, s.version)] == s.receivers[rid := Armed(rx, s.version)];
    }
  }

  lemma NobodyLeft<V>(c: State<V>, t: Tid) returns (r: State<V>)
    requires Inv(c) && t < |c.ops| && c.ops[t].ChangedCount? && c.senders == 0
    ensures Leads(c, r, t) && Inv(r)
    ensures var rid := c.ops[t].r;
            r == c.(ops := c.ops[t := Finished(Disconnected)],
                    receivers := c.receivers[rid := c.receivers[rid].(armed := false)])
  {
    ChangedMoves(c, t);
    r := ChangedStep(c, t);
  }

  lemma ChangedRun<V>(c: State<V>, t: Tid) returns (r: State<V>)
    requires Inv(c) && t < |c.ops| && c.ops[t].ChangedCount? && c.senders != 0
    ensures Leads(c, r, t) && Inv(r)
    ensures var rid := c.ops[t].r;
            FellAsleep(c.(receivers := c.receivers[rid := Armed(c.receivers[rid], c.version)]), r, t,
                       Wait(rid, c.version, false), c.list)
  {
    var q := ArmsRun(c, t);
    r := AwaitRun(q, t);
    Onwards(c, q, r, t);
  }

  lemma ArmsRun<V>(c: State<V>, t: Tid) returns (q: State<V>)
    requires Inv(c) && t < |c.ops| && c.ops[t].ChangedCount? && c.senders != 0
    ensures Leads(c, q, t) && Inv(q)
    ensures var rid := c.ops[t].r;
            q == c.(ops := c.ops[t := AwaitVersion(Wait(rid, c.version, false))],
                    receivers := c.receivers[rid := Armed(c.receivers[rid], c.version)])
  {
    ChangedMoves(c, t);
    var p := ChangedStep(c, t);
    ChangedMoves(p, t);
    q := ChangedStep(p, t);
    Onwards(c, p, q, t);
  }

  /** Receivers other than `rid` are as they were, but for what is known of their readiness. */
  ghost predicate OnlyReadiness(a: seq<Receiver>, b: seq<Receiver>, rid: Rid) {
    |a| == |b| && forall k: nat | k < |a| && k != rid :: b[k] == a[k].(ready := b[k].ready)
  }

  /** `is_ready` of thread `t` on receiver `rid`, alone, from `s` to `r`. */
  ghost predicate Asked<V>(s: State<V>, r: State<V>, t: Tid, rid: Rid)
    requires t < |s.ops| && rid < |s.receivers|
  {
    var rx := s.receivers[rid];
    && r == s.(ops := s.ops[t := Finished(Answer(s.senders == 0 || (rx.armed && rx.cursor != s.version)))],
               receivers := r.receivers)
    && OnlyReadiness(s.receivers, r.receivers, rid)
    && if s.senders == 0 then r.receivers[rid].cursor == rx.cursor && r.receivers[rid].armed == rx.armed
       else r.receivers[rid].armed && r.receivers[rid].cursor == if rx.armed then rx.cursor else s.version
  }

  /**
   A whole `is_ready`: true without senders, and otherwise exactly if the cursor was armed at an
   older version; an unarmed cursor is armed at the live one.
   */
  lemma WholeReady<V>(s: State<V>, t: Tid, rid: Rid) returns (r: State<V>)
    requires Inv(s) && MayUse(s, t, rid)
    ensures Leads(Next(s, CallReady(t, rid)), r, t) && Inv(r) && Asked(s, r, t, rid)
  {
    NextInv(s, CallReady(t, rid));
    var c := s.(ops := s.ops[t := ReadyCount(rid)], receivers := s.receivers[rid := Used(s.receivers[rid])]);
    r := ReadyRun(c, t);
    AskedOfUsed(s, c, r, t, rid);
  }

  lemma AskedOfUsed<V>(s: State<V>, c: State<V>, r: State<V>, t: Tid, rid: Rid)
    requires t < |s.ops| && rid < |s.receivers|
    requires c == s.(ops := s.ops[t := ReadyCount(rid)], receivers := s.receivers[rid := Used(s.receivers[rid])])
    requires Asked(c, r, t, rid)
    ensures Asked(s, r, t, rid)
  {
  }

  lemma ReadyRun<V>(c: State<V>, t: Tid) returns (r: State<V>)
    requires Inv(c) && t < |c.ops| && c.ops[t].ReadyCount?
    ensures Leads(c, r, t) && Inv(r) && Asked(c, r, t, c.ops[t].r)
  {
    if c.senders == 0 {
      ReadyMoves(c, t);
      r := ReadyStep(c, t);
      GoneIsReady(c, r, t);
    } else {
      var p := SomeAreThere(c, t);
      ReadyMoves(p, t);
      r := ReadyStep(p, t);
      Onwards(c, p, r, t);
      VersionDecides(p, r, t);
      assert c.ops[t := r.ops[t]] == p.ops[t := r.ops[t]];
    }
  }

  lemma SomeAreThere<V>(c: State<V>, t: Tid) returns (p: State<V>)
    requires Inv(c) && t < |c.ops| && c.ops[t].ReadyCount? && c.senders != 0
    ensures Leads(c, p, t) && Inv(p) && p == c.(ops := c.ops[t := ReadyVersion(c.ops[t].r)])
  {
    ReadyMoves(c, t);
    p := ReadyStep(c, t);
  }

  lemma GoneIsReady<V>(c: State<V>, r: State<V>, t: Tid)
    requires Shaped(c) && t < |c.ops| && c.ops[t].ReadyCount? && c.senders == 0 && r == ReadyStep(c, t)
    ensures Asked(c, r, t, c.ops[t].r)
  {
  }

  lemma VersionDecides<V>(p: State<V>, r: State<V>, t: Tid)
    requires Shaped(p) && t < |p.ops| && p.ops[t].ReadyVersion? && p.senders != 0 && r == ReadyStep(p, t)
    ensures Asked(p, r, t, p.ops[t].r)
  {
  }

  /**
   A whole `register_select`: it pushes a node exactly if there are senders and the cursor, armed
   if it was not, stands at the live version.
   */
  lemma WholeRegister<V>(s: State<V>, t: Tid, rid: Rid) returns (r: State<V>)
    requires Inv(s) && MayUse(s, t, rid)
    ensures Leads(Next(s, CallRegister(t, rid)), r, t) && Inv(r)
    ensures var rx := Armed(Used(s.receivers[rid]), s.version);
            var pushes := s.senders != 0 && rx.cursor == s.version;
            && r.ops == s.ops[t := Finished(Pushed(pushes))]
            && r.receivers == s.receivers[rid := rx]
            && |r.nodes| == (if pushes then |s.nodes| + 1 else |s.nodes|)
            && r.stack == (if pushes then [|s.nodes|] + s.stack else s.stack)
            && (pushes ==> r.nodes[..|s.nodes|] == s.nodes && NewNode(s, r.nodes[|s.nodes|], t, rid))
            && (!pushes ==> r.nodes == s.nodes)
            && r == s.(ops := r.ops, receivers := r.receivers, nodes := r.nodes, stack := r.stack)
  {
    NextInv(s, CallRegister(t, rid));
    var c := s.(ops := s.ops[t := RegisterVersion(rid)], receivers := s.receivers[rid := Used(s.receivers[rid])]);
    r := RegisterRun(c, t);
    assert c.receivers[rid := Armed(Used(s.receivers[rid]), s.version)]
           == s.receivers[rid := Armed(Used(s.receivers[rid]), s.version)];
  }

  ghost predicate NewNode<V>(s: State<V>, node: Node, t: Tid, rid: Rid) {
    node.r == rid && node.tid == t && !node.aborted && !node.claimed && node.base == node.at == s.version && node.open
  }

  lemma RegisterRun<V>(c: State<V>, t: Tid) returns (r: State<V>)
    requires Inv(c) && t < |c.ops| && c.ops[t].RegisterVersion?
    ensures Leads(c, r, t) && Inv(r)
    ensures var rid := c.ops[t].r;
            var rx := Armed(c.receivers[rid], c.version);
            var pushes := c.senders != 0 && rx.cursor == c.version;
            && r.ops == c.ops[t := Finished(Pushed(pushes))] && r.receivers == c.receivers[rid := rx]
            && |r.nodes| == (if pushes then |c.nodes| + 1 else |c.nodes|)
            && r.stack == (if pushes then [|c.nodes|] + c.stack else c.stack)
            && (pushes ==> r.nodes[..|c.nodes|] == c.nodes && NewNode(c, r.nodes[|c.nodes|], t, rid))
            && (!pushes ==> r.nodes == c.nodes)
            && r == c.(ops := r.ops, receivers := r.receivers, nodes := r.nodes, stack := r.stack)
  {
    var p := LoadsVersion(c, t);
    r := p;
    if p.ops[t].RegisterCount? {
      r := CountDecides(p, t);
      Onwards(c, p, r, t);
    }
  }

  /** The rest of `register_select`, with the cursor at the live version. */
  lemma CountDecides<V>(p: State<V>, t: Tid) returns (r: State<V>)
    requires Inv(p) && t < |p.ops| && p.ops[t].RegisterCount? && p.receivers[p.ops[t].r].cursor == p.version
    ensures Leads(p, r, t) && Inv(r) && r.ops == p.ops[t := Finished(Pushed(p.senders != 0))]
    ensures r == p.(ops := r.ops, nodes := r.nodes, stack := r.stack)
    ensures if p.senders == 0 then r.nodes == p.nodes && r.stack == p.stack
            else && |r.nodes| == |p.nodes| + 1 && r.stack == [|p.nodes|] + p.stack
                 && r.nodes[..|p.nodes|] == p.nodes && NewNode(p, r.nodes[|p.nodes|], t, p.ops[t].r)
  {
    r := LoadsCount(p, t);
    if p.senders != 0 {
      var q := r;
      r := PushesNode(q, t);
      Onwards(p, q, r, t);
    }
  }

  lemma LoadsVersion<V>(c: State<V>, t: Tid) returns (p: State<V>)
    requires Inv(c) && t < |c.ops| && c.ops[t].RegisterVersion?
    ensures Leads(c, p, t) && Inv(p)
    ensures var rid := c.ops[t].r;
            var rx := Armed(c.receivers[rid], c.version);
            p == c.(receivers := c.receivers[rid := rx],
                    ops := c.ops[t := if c.version == rx.cursor then RegisterCount(rid) else Finished(Pushed(false))])
  {
    RegisterMoves(c, t);
    p := RegisterStep(c, t);
  }

  lemma LoadsCount<V>(p: State<V>, t: Tid) returns (q: State<V>)
    requires Inv(p) && t < |p.ops| && p.ops[t].RegisterCount?
    ensures Leads(p, q, t) && Inv(q)
    ensures q == p.(ops := p.ops[t := if p.senders == 0 then Finished(Pushed(false)) else RegisterPush(p.ops[t].r)])
  {
    RegisterMoves(p, t);
    q := RegisterStep(p, t);
  }

  lemma PushesNode<V>(q: State<V>, t: Tid) returns (r: State<V>)
    requires Inv(q) && t < |q.ops| && q.ops[t].RegisterPush? && q.senders != 0
    requires q.receivers[q.ops[t].r].cursor == q.version
    ensures Leads(q, r, t) && Inv(r) && |r.nodes| == |q.nodes| + 1
    ensures r == q.(ops := q.ops[t := Finished(Pushed(true))], nodes := r.nodes, stack := [|q.nodes|] + q.stack)
    ensures r.nodes[..|q.nodes|] == q.nodes && NewNode(q, r.nodes[|q.nodes|], t, q.ops[t].r)
  {
    RegisterMoves(q, t);
    r := RegisterStep(q, t);
  }

  lemma RegisterMoves<V>(s: State<V>, t: Tid)
    requires Inv(s) && t < |s.ops| && Registering(s.ops[t])
    ensures Leads(s, RegisterStep(s, t), t) && Inv(RegisterStep(s, t))
  {
    OneMove(s, t);
  }

  // ------------------------------------------------------------------------------------
  // Nobody is stuck, and nobody sleeps for ever
  // ------------------------------------------------------------------------------------

  /**
   A debt is always paid. Whenever a receiver is asleep past a change, or asleep without senders,
   there is another thread that, if it just goes on, gives it a token.
   */
  lemma SleeperWillBeWoken<V>(threads: nat, owner: Tid, schedule: seq<Action<V>>, t: Tid)
      returns (u: Tid, r: State<V>)
    requires t < threads && Asleep(Exec(Init<V>(threads, owner), schedule), t)
    requires var s := Exec(Init<V>(threads, owner), schedule); s.ops[t].c.baseline < s.version || s.senders == 0
    ensures u < threads && u != t
    ensures var s := Exec(Init<V>(threads, owner), schedule);
            Leads(s, r, u) && |r.tokens| == |r.ops| == threads && r.tokens[t] && r.ops[t] == s.ops[t]
  {
    var s := Exec(Init<V>(threads, owner), schedule);
    ReachableInv(threads, owner, schedule);
    SleeperIsOwed(s, t);
    assert Listed(s, t);
    u := if s.ops[t].c.baseline < s.version then s.bumper[s.ops[t].c.baseline] else s.lastDropper;
    r := DebtIsPaid(s, u, s.ops[t].w);
  }

  /** A sleeping receiver is on the list, so everybody who wakes all gives it a token. */
  lemma SleeperIsWoken<V>(b: State<V>, r: State<V>, t: Tid, u: Tid)
    requires Shaped(b) && t < |b.ops| && u < |b.ops| && u != t && b.ops[t].AwaitPark? && Listed(b, t)
    requires WokeAll(b, r, u)
    ensures r.tokens[t] && r.ops[t] == b.ops[t]
  {
    var i :| 0 <= i < |b.list| && b.list[i] == b.ops[t].w;
    assert Woken(b.tokens, b.owners, b.list)[t];
  }

  /** A receiver is asleep; another thread sends; the receiver goes on, and reports that very change. */
  lemma SleeperSeesTheChange<V>(s: State<V>, t: Tid, u: Tid, v: V) returns (sent: State<V>, r: State<V>)
    requires Inv(s) && t < |s.ops| && Asleep(s, t) && u < |s.ops| && s.ops[u].Idle? && 0 < s.senders
    ensures Leads(Next(s, CallSend(u, v)), sent, u) && Leads(sent, r, t) && |sent.ops| == |r.ops| == |s.ops|
    ensures sent.ops[u] == Finished(Sent) && sent.value == r.value == Some(v)
    ensures r.version == s.version + 1 && r.ops[t] == Finished(Changed(r.version))
  {
    assert Listed(s, t) && WaitOk(s, t);
    sent := WholeSend(s, u, v);
    var b := Bumped(s, u, |s.stored| + 1).(value := Some(v), stored := s.stored + [v]);
    SleeperIsWoken(b, sent, t, u);
    var q;
    q, r := WholeResume(sent, t);
  }

  /** A receiver is asleep; the last sender is dropped; the receiver goes on, and reports it if nothing else changed. */
  lemma SleeperSeesTheEnd<V>(s: State<V>, t: Tid, u: Tid) returns (dropped: State<V>, r: State<V>)
    requires Inv(s) && t < |s.ops| && Asleep(s, t)
    requires u < |s.ops| && s.ops[u].Idle? && s.senders == 1 && NobodySends(s)
    ensures Leads(Next(s, DropSender(u)), dropped, u) && Leads(dropped, r, t) && |r.ops| == |s.ops|
    ensures r.ops[t] == Finished(Disconnected)
  {
    assert Listed(s, t);
    SleeperHasNothing(s, t);
    dropped := WholeDrop(s, u);
    SleeperIsWoken(s.(senders := 0, lastDropper := u), dropped, t, u);
    var q;
    q, r := WholeResume(dropped, t);
  }

  /** How far a thread that uses a receiver is from its end, or from its `park`, if nothing changes. */
  function Stage<V>(s: State<V>, t: Tid): nat
    requires t < |s.ops|
  {
    var found := Waiting(s.ops[t]) && (s.version != s.ops[t].c.baseline || s.senders == 0);
    match s.ops[t]
    case ChangedCount(_) => 9
    case ChangedArm(_) => 8
    case AwaitUnregister(_, _) => if found then 3 else 7
    case AwaitVersion(_) => if found then 2 else 6
    case AwaitCount(_) => if s.senders == 0 then 1 else if found then 7 else 5
    case AwaitRegister(_) => if found then 6 else 4
    case AwaitRecheck(_, _) => if found then 5 else 3
    case AwaitRecheckCount(_, _) => if found then 4 else 2
    case ReadyCount(_) => 2
    case ReadyVersion(_) => 1
    case RegisterVersion(_) => 3
    case RegisterCount(_) => 2
    case RegisterPush(_) => 1
    case _ => 0
  }

  /** From `s` to `q` the call of thread `t` came closer to its end, or took a token. */
  ghost predicate Closer<V>(s: State<V>, q: State<V>, t: Tid)
    requires Shaped(s) && Shaped(q) && t < |s.ops| == |q.ops|
  {
    && (Using(q.ops[t]) || q.ops[t].Finished?)
    && (q.tokens[t] ==> s.tokens[t])
    && ((s.tokens[t] && !q.tokens[t]) || Stage(q, t) < Stage(s, t))
  }

  lemma WaitIsCloser<V>(s: State<V>, t: Tid)
    requires Inv(s) && t < |s.ops| && Waiting(s.ops[t]) && !Asleep(s, t)
    ensures Closer(s, WaitStep(s, t), t)
  {
    if Enlisted(s.ops[t]) { EnlistedIsCloser(s, t); } else { AwaitIsCloser(s, t); }
  }

  lemma EnlistedIsCloser<V>(s: State<V>, t: Tid)
    requires Inv(s) && t < |s.ops| && Enlisted(s.ops[t]) && !Asleep(s, t)
    ensures Closer(s, EnlistedStep(s, t), t)
  {
  }

  lemma AwaitIsCloser<V>(s: State<V>, t: Tid)
    requires Inv(s) && t < |s.ops| && Waiting(s.ops[t]) && !Enlisted(s.ops[t])
    ensures Closer(s, AwaitStep(s, t), t)
  {
  }

  lemma ChangedIsCloser<V>(s: State<V>, t: Tid)
    requires Inv(s) && t < |s.ops| && (s.ops[t].ChangedCount? || s.ops[t].ChangedArm?)
    ensures Closer(s, ChangedStep(s, t), t)
  {
  }

  lemma ReadyIsCloser<V>(s: State<V>, t: Tid)
    requires Inv(s) && t < |s.ops| && (s.ops[t].ReadyCount? || s.ops[t].ReadyVersion?)
    ensures Closer(s, ReadyStep(s, t), t)
  {
    if s.ops[t].ReadyVersion? { VersionIsCloser(s, t); }
  }

  lemma VersionIsCloser<V>(s: State<V>, t: Tid)
    requires Inv(s) && t < |s.ops| && s.ops[t].ReadyVersion?
    ensures Closer(s, ReadyStep(s, t), t)
  {
    assert ReadyStep(s, t).ops[t].Finished? && ReadyStep(s, t).tokens == s.tokens;
  }

  lemma RegisterIsCloser<V>(s: State<V>, t: Tid)
    requires Inv(s) && t < |s.ops| && Registering(s.ops[t])
    ensures Closer(s, RegisterStep(s, t), t)
  {
  }

  lemma StepIsCloser<V>(s: State<V>, t: Tid)
    requires Inv(s) && t < |s.ops| && Using(s.ops[t]) && !Asleep(s, t)
    ensures Closer(s, StepOf(s, t), t)
  {
    if Waiting(s.ops[t]) {
      WaitIsCloser(s, t);
    } else if s.ops[t].ChangedCount? || s.ops[t].ChangedArm? {
      ChangedIsCloser(s, t);
    } else if s.ops[t].ReadyCount? || s.ops[t].ReadyVersion? {
      ReadyIsCloser(s, t);
    } else {
      RegisterIsCloser(s, t);
    }
  }

  lemma {:induction false} UseEnds<V>(s: State<V>, t: Tid) returns (r: State<V>)
    requires Inv(s) && t < |s.ops| && (Using(s.ops[t]) || s.ops[t].Finished?)
    ensures Leads(s, r, t) && Shaped(r) && |r.ops| == |s.ops| && (r.ops[t].Finished? || Asleep(r, t))
    decreases s.tokens[t], Stage(s, t)
  {
    if s.ops[t].Finished? || Asleep(s, t) {
      r := s;
      ReachesSelf(Mover(t), s);
    } else {
      OneMove(s, t);
      StepIsCloser(s, t);
      r := UseEnds(StepOf(s, t), t);
      Onwards(s, StepOf(s, t), r, t);
    }
  }

  /** From every reachable state an operation that nobody disturbs comes to its end, or falls asleep. */
  lemma NobodyIsStuck<V>(threads: nat, owner: Tid, schedule: seq<Action<V>>, t: Tid) returns (r: State<V>)
    requires t < threads && !Exec(Init<V>(threads, owner), schedule).ops[t].Idle?
    ensures Leads(Exec(Init<V>(threads, owner), schedule), r, t)
    ensures Shaped(r) && |r.ops| == threads && (r.ops[t].Finished? || Asleep(r, t))
  {
    var s := Exec(Init<V>(threads, owner), schedule);
    ReachableInv(threads, owner, schedule);
    if Sending(s.ops[t]) {
      r := SenderEnds(s, t);
    } else if Using(s.ops[t]) || s.ops[t].Finished? {
      r := UseEnds(s, t);
    } else {
      r := StepOf(s, t);
      OneMove(s, t);
    }
  }

  /** `select!` asks a clone: it answers what the original would have answered, and ends with the same cursor. */
  lemma CloneAnswersLikeTheOriginal<V>(s: State<V>, t: Tid, rid: Rid, u: Tid) returns (own: State<V>, r: State<V>)
    requires Inv(s) && MayUse(s, t, rid) && u < |s.ops| && s.ops[u].Idle?
    ensures Leads(Next(s, CallReady(t, rid)), own, t)
    ensures Leads(Next(Next(s, CloneReceiver(t, rid, u)), CallReady(u, |s.receivers|)), r, u)
    ensures |own.ops| == |r.ops| == |s.ops| && own.ops[t].Finished? && r.ops[u] == own.ops[t]
    ensures |own.receivers| == |s.receivers| && |r.receivers| == |s.receivers| + 1
    ensures r.receivers[|s.receivers|].cursor == own.receivers[rid].cursor
    ensures r.receivers[|s.receivers|].armed == own.receivers[rid].armed
  {
    NextInv(s, CloneReceiver(t, rid, u));
    own := WholeReady(s, t, rid);
    r := WholeReady(Next(s, CloneReceiver(t, rid, u)), u, |s.receivers|);
  }

  /** A sender that is cloned and dropped again leaves no trace. */
  lemma SendersComeAndGo<V>(s: State<V>, t: Tid)
    requires Shaped(s) && t < |s.ops| && 0 < s.senders
    ensures Next(s, CloneSender).senders == s.senders + 1 && Next(Next(s, CloneSender), DropSender(t)) == s
  {
  }

  /**
   A whole `mark_changed` between a registration's loads and its push. The node is pushed with no
   sender inside an operation and at a version behind the live one; yet it is not claimed, and
   if all senders stay idle never will be. It is the re-check that finds the change.
   */
  lemma ChangeBeforeThePush<V>(s: State<V>, t: Tid, u: Tid) returns (r: State<V>, q: State<V>)
    requires Inv(s) && NobodySends(s) && t < |s.ops| && s.ops[t].RegisterPush?
    requires u < |s.ops| && s.ops[u].Idle? && 0 < s.senders
    ensures Leads(Next(s, CallMark(u)), r, u) && Leads(r, q, t) && |q.nodes| == |s.nodes| + 1
    ensures var node := q.nodes[|s.nodes|];
            NobodySends(q) && node.during == 0 && node.base < node.at == q.version && !node.claimed && !node.aborted
  {
    r := WholeMark(s, u);
    MarkedBeforeThePush(s, r, t, u);
    q := PushAlone(r, t);
    CursorIsBehind(s, s.ops[t].r);
  }

  lemma CursorIsBehind<V>(s: State<V>, rid: Rid)
    requires Inv(s) && rid < |s.receivers|
    ensures s.receivers[rid].cursor <= s.version
  {
    assert CursorOk(s, rid);
  }

  lemma MarkedBeforeThePush<V>(s: State<V>, r: State<V>, t: Tid, u: Tid)
    requires Shaped(s) && Shaped(r) && NobodySends(s) && t < |s.ops| && s.ops[t].RegisterPush?
    requires u < |s.ops| && s.ops[u].Idle?
    requires Shaped(Bumped(s, u, 0)) && WokeAll(Bumped(s, u, 0), r, u)
    ensures |r.ops| == |s.ops| && NobodySends(r) && r.ops[t] == s.ops[t]
    ensures |r.nodes| == |s.nodes| && r.receivers == s.receivers && r.version == s.version + 1
  {
  }

  lemma PushAlone<V>(r: State<V>, t: Tid) returns (q: State<V>)
    requires Inv(r) && NobodySends(r) && t < |r.ops| && r.ops[t].RegisterPush?
    ensures Leads(r, q, t)
    ensures var n := |r.nodes|;
            && |q.nodes| == n + 1 && q.version == r.version && NobodySends(q)
            && q.nodes[n].during == 0 && q.nodes[n].base == r.receivers[r.ops[t].r].cursor && q.nodes[n].at == r.version
            && !q.nodes[n].claimed && !q.nodes[n].aborted
  {
    RegisterMoves(r, t);
    q := RegisterStep(r, t);
    NobodyIsBusy(r.ops);
  }

  lemma {:induction false} NobodyIsBusy<V>(ops: seq<Op<V>>)
    requires forall x: nat | x < |ops| :: !Sending(ops[x])
    ensures Busy(ops) == 0
    decreases |ops|
  {
    if ops != [] {
      assert forall x: nat | x < |ops[1..]| :: ops[1..][x] == ops[x + 1];
      NobodyIsBusy(ops[1..]);
    }
  }
}
