/**
 Operations of the broadcast ring that nobody disturbs: a whole `send` from every state, a receiver
 that always comes to its end, and a whole `try_recv` between sends, whose outcome is the one
 read off the log.
 */
module BroadcastCalls {
  import opened Basics
  import opened Broadcast
  import opened BroadcastProof
  import D = BroadcastMemory

  /** Repeating one action. */
  function Mover<V>(a: Action<V>): State<V> -> State<V> {
    (s: State<V>) => if Shaped(s) then Next(s, a) else s
  }

  /** If nothing but the action `a` is taken, the state will at some time be `r`. */
  ghost predicate Leads<V>(s: State<V>, r: State<V>, a: Action<V>) {
    Reaches(Mover(a), s, r)
  }

  lemma OneMove<V>(s: State<V>, r: State<V>, a: Action<V>)
    requires Shaped(s) && r == Next(s, a)
    ensures Leads(s, r, a)
  {
    ReachesSelf(Mover(a), r);
    ReachesNext(Mover(a), s, r);
  }

  lemma Onwards<V>(s: State<V>, q: State<V>, r: State<V>, a: Action<V>)
    requires Leads(s, q, a) && Leads(q, r, a)
    ensures Leads(s, r, a)
  {
    ReachesThen(Mover(a), s, q, r);
  }

  // ------------------------------------------------------------------------------------
  // send
  // ------------------------------------------------------------------------------------

  /** From `s` to `r`, thread `t` has sent `v`: the next ticket, in its slot, under its number. */
  ghost predicate Sent<V>(s: State<V>, r: State<V>, t: Tid, v: V)
    requires Shaped(s)
  {
    r == s.(write := s.write + 1, log := s.log + [v], sender := s.sender + [t],
            slots := s.slots[s.write % s.cap := Slot(s.write + 1, Some(v))], last := s.last[s.write % s.cap := s.write],
            lapped := s.lapped || (s.cap <= s.write && Sending(s, s.write - s.cap)))
  }

  lemma StoreRun<V>(q: State<V>, t: Tid) returns (r: State<V>)
    requires Shaped(q) && t < |q.sends| && q.sends[t].StoreValue?
    ensures Leads(q, r, SendStep(t))
    ensures var c := q.sends[t].ticket;
            r == q.(slots := q.slots[c % q.cap := Slot(c + 1, Some(q.sends[t].v))], last := q.last[c % q.cap := c],
                    sends := q.sends[t := Idle])
  {
    var p := Send(q, t);
    OneMove(q, p, SendStep(t));
    r := p;
    if !q.fused {
      r := Send(p, t);
      OneMove(p, r, SendStep(t));
      Onwards(q, p, r, SendStep(t));
    }
  }

  /**
   A whole `send`, whatever others are about: the message is appended to the log and stands in its
   slot under its number, over whatever was there; no receiver is touched.
   */
  lemma WholeSend<V>(s: State<V>, t: Tid, v: V) returns (r: State<V>)
    requires Shaped(s) && t < |s.sends| && s.sends[t].Idle? && 0 < s.senders
    ensures Leads(Next(s, CallSend(t, v)), r, SendStep(t)) && Sent(s, r, t, v)
  {
    var c := Next(s, CallSend(t, v));
    var q := Send(c, t);
    OneMove(c, q, SendStep(t));
    r := StoreRun(q, t);
    Onwards(c, q, r, SendStep(t));
    assert r.sends == s.sends;
    assert s.cap <= s.write ==> Sending(c, s.write - s.cap) == Sending(s, s.write - s.cap);
  }

  // ------------------------------------------------------------------------------------
  // try_recv
  // ------------------------------------------------------------------------------------

  /** How far a call is from its end. */
  function Stage<V>(pc: RecvPc<V>): nat {
    match pc
    case Resting => 0
    case LoadNext(spins) => if spins == 0 then 20 else 10
    case LoadWrite(_, spins) => if spins == 0 then 19 else 9
    case Before(_, spins) => if spins == 0 then 18 else 8
    case LoadValue(_, _) => 17
    case After(_, _, _) => 16
    case CountBehind(_) => 5
    case WriteBehind(_) => 4
    case WriteNow(_) => 5
    case Fallback(_) => 5
    case CountEmpty(_) => 4
    case Skip(_, _) => 3
    case Take(_, _) => 3
    case Done(_, _) => 0
  }

  function With<V>(s: State<V>, k: nat, rx: Receiver<V>): State<V>
    requires k < |s.receivers|
  {
    s.(receivers := s.receivers[k := rx])
  }

  lemma RecvMoves<V>(s: State<V>, k: nat)
    requires Inv(s) && k < |s.receivers|
    ensures Leads(s, With(s, k, Receive(s, s.receivers[k])), RecvStep(k))
    ensures Inv(With(s, k, Receive(s, s.receivers[k])))
  {
    NextInv(s, RecvStep(k));
    OneMove(s, With(s, k, Receive(s, s.receivers[k])), RecvStep(k));
  }

  lemma StepIsCloser<V>(s: State<V>, rx: Receiver<V>)
    requires Inv(s) && ReceiverOk(s, rx) && !rx.pc.Resting? && !rx.pc.Done?
    ensures !Receive(s, rx).pc.Resting? && Stage(Receive(s, rx).pc) < Stage(rx.pc)
  {
    if rx.pc.Before? {
      LookIsCloser(s, rx);
    } else if rx.pc.After? {
      SecondLookIsCloser(s, rx);
    } else if rx.pc.LoadNext? || rx.pc.LoadWrite? || rx.pc.LoadValue? {
      LoadIsCloser(s, rx);
    } else {
      LeavingIsCloser(s, rx);
    }
  }

  lemma LoadIsCloser<V>(s: State<V>, rx: Receiver<V>)
    requires Shaped(s) && (rx.pc.LoadNext? || rx.pc.LoadWrite? || rx.pc.LoadValue?)
    ensures !Receive(s, rx).pc.Resting? && Stage(Receive(s, rx).pc) < Stage(rx.pc)
  {
  }

  lemma LeavingIsCloser<V>(s: State<V>, rx: Receiver<V>)
    requires Shaped(s) && (rx.pc.CountEmpty? || rx.pc.CountBehind? || rx.pc.WriteBehind? || rx.pc.WriteNow?
                           || rx.pc.Fallback? || rx.pc.Skip? || rx.pc.Take?)
    ensures !Receive(s, rx).pc.Resting? && Stage(Receive(s, rx).pc) < Stage(rx.pc)
  {
  }

  /** The second round does not find its own number in the slot. */
  lemma LookIsCloser<V>(s: State<V>, rx: Receiver<V>)
    requires Inv(s) && ReceiverOk(s, rx) && rx.pc.Before?
    ensures !Receive(s, rx).pc.Resting? && Stage(Receive(s, rx).pc) < Stage(rx.pc)
  {
    assert LookOk(s, rx);
  }

  lemma SecondLookIsCloser<V>(s: State<V>, rx: Receiver<V>)
    requires Inv(s) && ReceiverOk(s, rx) && rx.pc.After?
    ensures !Receive(s, rx).pc.Resting? && Stage(Receive(s, rx).pc) < Stage(rx.pc)
  {
    assert HoldOk(s, rx);
  }

  /** From every reachable state a call that nobody disturbs comes to its end. */
  lemma {:induction false} ReceiverEnds<V>(s: State<V>, k: nat) returns (r: State<V>)
    requires Inv(s) && k < |s.receivers| && !s.receivers[k].pc.Resting?
    ensures Leads(s, r, RecvStep(k)) && |r.receivers| == |s.receivers| && r.receivers[k].pc.Done?
    decreases Stage(s.receivers[k].pc)
  {
    if s.receivers[k].pc.Done? {
      r := s;
      ReachesSelf(Mover(RecvStep(k)), s);
    } else {
      RecvMoves(s, k);
      StepIsCloser(s, s.receivers[k]);
      var q := With(s, k, Receive(s, s.receivers[k]));
      r := ReceiverEnds(q, k);
      Onwards(s, q, r, RecvStep(k));
    }
  }

  lemma NobodyIsStuck<V>(cap: nat, fused: bool, threads: nat, schedule: seq<Action<V>>, k: nat) returns (r: State<V>)
    requires 0 < cap && k < |Exec(Init<V>(cap, fused, threads), schedule).receivers|
    requires !Exec(Init<V>(cap, fused, threads), schedule).receivers[k].pc.Resting?
    ensures Leads(Exec(Init<V>(cap, fused, threads), schedule), r, RecvStep(k))
    ensures k < |r.receivers| && r.receivers[k].pc.Done?
  {
    ReachableInv(cap, fused, threads, schedule);
    r := ReceiverEnds(Exec(Init<V>(cap, fused, threads), schedule), k);
  }

  /** `outcome` and the cursor are those of the reading `reading`. */
  ghost predicate Reads<V>(rx: Receiver<V>, reading: D.Reading<V>) {
    && rx.pc.Done? && rx.cursor == reading.cursor
    && match reading.result
       case Ok(v) => rx.pc.outcome == Received(v)
       case Err(Lagged(skipped)) => rx.pc.outcome == Lagged(skipped)
       case Err(Empty) => rx.pc.outcome == Empty
       case Err(Disconnected) => rx.pc.outcome == Disconnected(false)
  }

  /** One receiver differs, and it has come as far as `pc`. */
  ghost predicate ComesTo<V>(s: State<V>, r: State<V>, k: nat, pc: RecvPc<V>)
    requires k < |s.receivers|
  {
    && k < |r.receivers| && r == With(s, k, r.receivers[k]) && r.receivers[k].pc == pc
    && r.receivers[k].cursor == s.receivers[k].cursor
  }

  lemma Step<V>(s: State<V>, k: nat) returns (r: State<V>)
    requires Inv(s) && k < |s.receivers|
    ensures Leads(s, r, RecvStep(k)) && Inv(r) && k < |r.receivers| && r == With(s, k, r.receivers[k])
    ensures r.receivers[k] == Receive(s, s.receivers[k])
  {
    RecvMoves(s, k);
    r := With(s, k, Receive(s, s.receivers[k]));
  }

  /** The two loads at the top of the loop. */
  lemma TopRun<V>(c: State<V>, k: nat) returns (r: State<V>)
    requires Inv(c) && k < |c.receivers| && c.receivers[k].pc == LoadNext(0)
    ensures Leads(c, r, RecvStep(k)) && Inv(r)
    ensures var next := c.receivers[k].cursor;
            ComesTo(c, r, k, if c.write == next then CountEmpty(next)
                             else if next + c.cap < c.write then Skip(c.write - c.cap, c.write - c.cap - next)
                             else Before(next, 0))
  {
    var p := Step(c, k);
    assert ReceiverOk(c, c.receivers[k]);
    r := Step(p, k);
    Onwards(c, p, r, RecvStep(k));
    assert p.receivers[k := r.receivers[k]] == c.receivers[k := r.receivers[k]];
  }

  /** The slot of a surviving message, when nobody sends and nobody was lapped. */
  ghost predicate Survives<V>(c: State<V>, next: nat)
    requires Shaped(c)
  {
    next < c.write && SlotOf(c, next) == Slot(next + 1, Some(c.log[next]))
  }

  lemma QuietSurvives<V>(c: State<V>, next: nat)
    requires Inv(c) && NobodySends(c) && !c.lapped && next < c.write <= next + c.cap
    ensures Survives(c, next)
  {
    assert !Sending(c, next) && TicketOk(c, next);
  }

  lemma FirstLook<V>(c: State<V>, k: nat, next: nat) returns (p: State<V>)
    requires Inv(c) && Survives(c, next) && k < |c.receivers| && c.receivers[k].pc == Before(next, 0)
    ensures Leads(c, p, RecvStep(k)) && Inv(p) && ComesTo(c, p, k, LoadValue(next, 0))
  {
    p := Step(c, k);
  }

  lemma LoadsIt<V>(c: State<V>, k: nat, next: nat) returns (p: State<V>)
    requires Inv(c) && Survives(c, next) && k < |c.receivers| && c.receivers[k].pc == LoadValue(next, 0)
    ensures Leads(c, p, RecvStep(k)) && Inv(p) && ComesTo(c, p, k, After(next, 0, Some(c.log[next])))
  {
    p := Step(c, k);
  }

  lemma LooksAgain<V>(c: State<V>, k: nat, next: nat) returns (p: State<V>)
    requires Inv(c) && Survives(c, next) && k < |c.receivers|
    requires c.receivers[k].pc == After(next, 0, Some(c.log[next]))
    ensures Leads(c, p, RecvStep(k)) && Inv(p) && ComesTo(c, p, k, Take(next, c.log[next]))
  {
    p := Step(c, k);
  }

  lemma ThenComesTo<V>(c: State<V>, p: State<V>, q: State<V>, k: nat, pc: RecvPc<V>)
    requires k < |c.receivers| && k < |p.receivers| && p == With(c, k, p.receivers[k])
    requires p.receivers[k].cursor == c.receivers[k].cursor && ComesTo(p, q, k, pc)
    ensures ComesTo(c, q, k, pc)
  {
    assert p.receivers[k := q.receivers[k]] == c.receivers[k := q.receivers[k]];
  }

  lemma SlotRun<V>(c: State<V>, k: nat, next: nat) returns (r: State<V>)
    requires Inv(c) && Survives(c, next) && k < |c.receivers| && c.receivers[k].pc == Before(next, 0)
    ensures Leads(c, r, RecvStep(k)) && Inv(r) && ComesTo(c, r, k, Take(next, c.log[next]))
  {
    var p := FirstLook(c, k, next);
    var q := LoadsIt(p, k, next);
    Onwards(c, p, q, RecvStep(k));
    ThenComesTo(c, p, q, k, After(next, 0, Some(c.log[next])));
    r := LooksAgain(q, k, next);
    Onwards(c, q, r, RecvStep(k));
    ThenComesTo(c, q, r, k, Take(next, c.log[next]));
  }

  /** The step that gives the answer. */
  lemma AnswerRun<V>(c: State<V>, q: State<V>, k: nat) returns (r: State<V>)
    requires Inv(q) && k < |c.receivers| && k < |q.receivers| && q == With(c, k, q.receivers[k])
    requires q.receivers[k].pc.CountEmpty? || q.receivers[k].pc.Skip? || q.receivers[k].pc.Take?
    ensures Leads(q, r, RecvStep(k)) && k < |r.receivers| && r == With(c, k, r.receivers[k])
    ensures var rx := r.receivers[k];
            match q.receivers[k].pc
            case CountEmpty(next) =>
              rx.pc == Done(if c.senders == 0 then Disconnected(false) else Empty, next)
              && rx.cursor == q.receivers[k].cursor
            case Skip(target, skipped) => rx.pc.Done? && rx.pc.outcome == Lagged(skipped) && rx.cursor == target
            case Take(next, v) => rx.pc == Done(Received(v), next) && rx.cursor == next + 1
            case _ => true
  {
    r := Step(q, k);
    assert q.receivers[k := r.receivers[k]] == c.receivers[k := r.receivers[k]];
  }

  /**
   A whole `try_recv` while nobody sends, and nobody was lapped: its outcome, and where the cursor
   goes, is what `FromLog` reads off the log; nothing but the receiver changes.
   */
  lemma WholeTryRecv<V>(s: State<V>, k: nat) returns (r: State<V>)
    requires Inv(s) && NobodySends(s) && !s.lapped && k < |s.receivers| && s.receivers[k].pc.Resting?
    ensures Leads(Next(s, CallRecv(k)), r, RecvStep(k)) && k < |r.receivers| && r == With(s, k, r.receivers[k])
    ensures s.receivers[k].cursor <= |s.log|
    ensures Reads(r.receivers[k], D.FromLog(s.log, s.cap, s.receivers[k].cursor, s.senders == 0))
  {
    NextInv(s, CallRecv(k));
    assert ReceiverOk(s, s.receivers[k]);
    var c := With(s, k, s.receivers[k].(pc := LoadNext(0), rounds := 0, late := s.senders == 0));
    r := CallRun(c, k);
    assert c.receivers[k := r.receivers[k]] == s.receivers[k := r.receivers[k]];
  }

  lemma CallRun<V>(c: State<V>, k: nat) returns (r: State<V>)
    requires Inv(c) && NobodySends(c) && !c.lapped && k < |c.receivers| && c.receivers[k].pc == LoadNext(0)
    ensures Leads(c, r, RecvStep(k)) && k < |r.receivers| && r == With(c, k, r.receivers[k])
    ensures c.receivers[k].cursor <= |c.log|
    ensures Reads(r.receivers[k], D.FromLog(c.log, c.cap, c.receivers[k].cursor, c.senders == 0))
  {
    assert ReceiverOk(c, c.receivers[k]);
    var q := TopRun(c, k);
    if q.receivers[k].pc.Before? {
      var p, next := q, c.receivers[k].cursor;
      QuietSurvives(p, next);
      q := SlotRun(p, k, next);
      Onwards(c, p, q, RecvStep(k));
      ThenComesTo(c, p, q, k, Take(next, c.log[next]));
    }
    r := AnswerRun(c, q, k);
    Onwards(c, q, r, RecvStep(k));
  }

  /** A new receiver starts at the end of the log: nothing sent before is ever received, or counted as lag. */
  lemma CloneStartsAtTheEnd<V>(s: State<V>)
    requires Inv(s)
    ensures var r := Next(s, CloneReceiver);
            && |r.receivers| == |s.receivers| + 1 && r.receivers[..|s.receivers|] == s.receivers
            && r.receivers[|s.receivers|].cursor == r.receivers[|s.receivers|].start == |s.log|
  {
  }

  /** After a lag, if nobody sends, the next receive gets the oldest surviving message. */
  lemma OldestAfterALag<V>(s: State<V>, k: nat) returns (lagged: State<V>, r: State<V>)
    requires Inv(s) && NobodySends(s) && !s.lapped && k < |s.receivers| && s.receivers[k].pc.Resting?
    requires s.receivers[k].cursor + s.cap < |s.log|
    ensures Leads(Next(s, CallRecv(k)), lagged, RecvStep(k)) && Shaped(lagged) && k < |lagged.receivers|
    ensures lagged.receivers[k].pc.Done?
    ensures lagged.receivers[k].pc.outcome == Lagged(|s.log| - s.cap - s.receivers[k].cursor)
    ensures Leads(Next(Next(lagged, Return(k)), CallRecv(k)), r, RecvStep(k)) && k < |r.receivers|
    ensures r.receivers[k].pc.Done? && r.receivers[k].pc.outcome == Received(s.log[|s.log| - s.cap])
  {
    lagged := WholeTryRecv(s, k);
    var q := Next(lagged, Return(k));
    StillReachable(s, lagged, k);
    NextInv(lagged, Return(k));
    r := WholeTryRecv(q, k);
  }

  lemma {:induction false} StillInv<V>(s: State<V>, k: nat, n: nat)
    requires Inv(s)
    ensures Inv(Iterate(Mover(RecvStep(k)), s, n))
    decreases n
  {
    if n != 0 {
      NextInv(s, RecvStep(k));
      StillInv(Mover(RecvStep(k))(s), k, n - 1);
    }
  }

  lemma StillReachable<V>(s: State<V>, r: State<V>, k: nat)
    requires Inv(s) && Leads(Next(s, CallRecv(k)), r, RecvStep(k))
    ensures Inv(r)
  {
    NextInv(s, CallRecv(k));
    var n: nat :| Iterate(Mover(RecvStep(k)), Next(s, CallRecv(k)), n) == r;
    StillInv(Next(s, CallRecv(k)), k, n);
  }

  /** A sender that is cloned and dropped again leaves no trace. */
  lemma SendersComeAndGo<V>(s: State<V>)
    requires Shaped(s) && 0 < s.senders
    ensures Next(s, CloneSender).senders == s.senders + 1 && Next(Next(s, CloneSender), DropSender) == s
  {
  }
}
