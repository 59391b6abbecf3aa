/**
 The broadcast ring accounts for every message and retries at most once; and exactly which
 message it delivers.
 */
module BroadcastProof {
  import opened Basics
  import opened Broadcast

  // ------------------------------------------------------------------------------------
  // The invariant
  // ------------------------------------------------------------------------------------

  /** A sender inside `send` owns the ticket it claimed; unless somebody was lapped, it is among the last `cap`. */
  ghost predicate SendOk<V>(s: State<V>, t: Tid)
    requires Shaped(s) && t < |s.sends|
  {
    var pc := s.sends[t];
    && (pc.StoreValue? || pc.StoreSeq? ==>
          && pc.ticket < s.write
          && s.sender[pc.ticket] == t
          && (!s.lapped ==> s.write <= pc.ticket + s.cap))
    && (pc.StoreValue? ==> s.log[pc.ticket] == pc.v)
    && (pc.StoreSeq? ==> !s.fused && SlotOf(s, pc.ticket).value.Some?
                         && (!s.lapped ==> SlotOf(s, pc.ticket).value == Some(s.log[pc.ticket])))
  }

  /** A sequence number in a slot was put there by the sender of that very ticket, which is finished. */
  ghost predicate SlotOk<V>(s: State<V>, i: nat)
    requires Shaped(s) && i < s.cap
  {
    var slot := s.slots[i];
    slot.seqno != 0 ==>
      && (slot.seqno - 1) % s.cap == i
      && Published(s, slot.seqno - 1)
      && (s.fused ==> slot.value == Some(s.log[slot.seqno - 1]))
  }

  /** What the slot of a published ticket may hold. */
  ghost predicate TicketOk<V>(s: State<V>, c: nat)
    requires Shaped(s)
  {
    Published(s, c) ==>
      && SlotOf(s, c).value.Some?
      && (!s.lapped ==> c + 1 <= SlotOf(s, c).seqno)
      && (!s.lapped && s.write <= c + s.cap ==> SlotOf(s, c) == Slot(c + 1, Some(s.log[c])))
  }

  /** The ticket that holds `t`'s two stores apart. */
  ghost predicate BetweenStores<V>(s: State<V>, c: nat)
    requires Shaped(s)
  {
    c < s.write && s.sender[c] < |s.sends| && s.sends[s.sender[c]] == StoreSeq(c)
  }

  /**
   The message in a slot is that of ticket `last`. Unless somebody was lapped, that is the
   ticket of the number in the slot, or the one a lap later, between its two stores; and
   whoever is between its two stores has stored last.
   */
  ghost predicate LastOk<V>(s: State<V>, i: nat)
    requires Shaped(s) && i < s.cap
  {
    var slot := s.slots[i];
    && (slot.value.Some? ==> s.last[i] < s.write && s.last[i] % s.cap == i && slot.value == Some(s.log[s.last[i]]))
    && (!s.lapped && slot.seqno != 0 ==>
          s.last[i] == slot.seqno - 1 || (s.last[i] != slot.seqno - 1 && BetweenStores(s, s.last[i])))
  }

  ghost predicate StoredLast<V>(s: State<V>, t: Tid)
    requires Shaped(s) && t < |s.sends|
  {
    !s.lapped && s.sends[t].StoreSeq? ==> s.last[s.sends[t].ticket % s.cap] == s.sends[t].ticket
  }

  /** Ticket `c` was published, and its slot has been taken over since: it will never show `c + 1` again. */
  ghost predicate Spent<V>(s: State<V>, c: nat)
    requires Shaped(s)
  {
    Published(s, c) && SlotOf(s, c).seqno != c + 1
  }

  /** `v` is the message of ticket `c`, provided the two stores are one, or no one was lapped. */
  ghost predicate Right<V>(s: State<V>, v: V, c: nat)
    requires Shaped(s)
  {
    c < s.write && (s.fused || (!s.lapped && s.write <= c + s.cap) ==> v == s.log[c])
  }

  /** `v` is the message of the loaded ticket; unless a sender was lapped, that is `next` exactly if it was not torn. */
  ghost predicate Sourced<V>(s: State<V>, rx: Receiver<V>, v: V, next: nat)
    requires Shaped(s)
  {
    && rx.source < s.write && rx.source % s.cap == next % s.cap && v == s.log[rx.source]
    && (!s.lapped ==> (rx.source == next <==> !rx.torn))
  }

  /** On the way to a message. */
  ghost predicate LookOk<V>(s: State<V>, rx: Receiver<V>)
    requires Shaped(s)
  {
    match rx.pc
    case LoadNext(spins) => rx.rounds == spins <= 1 && (spins == 1 ==> Spent(s, rx.cursor))
    case LoadWrite(next, spins) => next == rx.cursor && rx.rounds == spins + 1 <= 2 && (spins == 1 ==> Spent(s, next))
    case CountEmpty(next) => next == rx.cursor == rx.saw && (rx.late ==> s.write == next)
    case Before(next, spins) =>
      next == rx.cursor < s.write && rx.rounds == spins + 1 <= 2 && (spins == 1 ==> Spent(s, next))
    case CountBehind(next) => next == rx.cursor < s.write && (!s.lapped ==> rx.early)
    case WriteBehind(next) => next == rx.cursor < s.write && (!s.lapped ==> rx.early)
    case WriteNow(next) => next == rx.cursor && next + s.cap < s.write
    case Fallback(next) => false
    case LoadValue(next, spins) => next == rx.cursor && rx.rounds == 1 && spins == 0 && Published(s, next)
    case Skip(target, skipped) => target == rx.cursor + skipped && target + s.cap == rx.saw && 1 <= skipped
    case _ => true
  }

  /** With a message in hand. */
  ghost predicate HoldOk<V>(s: State<V>, rx: Receiver<V>)
    requires Shaped(s)
  {
    match rx.pc
    case After(next, spins, snapshot) =>
      && next == rx.cursor && rx.rounds == 1 && spins == 0 && Published(s, next)
      && snapshot.Some?
      && (s.fused && SlotOf(s, next).seqno == next + 1 ==> snapshot == Some(s.log[next]))
      && (!s.lapped && s.write <= next + s.cap ==> snapshot == Some(s.log[next]))
      && rx.source < s.write && rx.source % s.cap == next % s.cap && snapshot == Some(s.log[rx.source])
      && (!s.lapped && SlotOf(s, next).seqno == next + 1 ==> (rx.source == next <==> !rx.torn))
    case Take(next, v) => next == rx.cursor && Right(s, v, next) && Sourced(s, rx, v, next)
    case _ => true
  }

  /** What an answer says: about the cursor, the write position loaded last, and the message. */
  ghost predicate DoneOk<V>(s: State<V>, rx: Receiver<V>)
    requires Shaped(s)
  {
    rx.pc.Done? ==>
      var next := rx.pc.next;
      match rx.pc.outcome
      case Received(v) => rx.cursor == next + 1 && Right(s, v, next) && Sourced(s, rx, v, next)
      case Empty => rx.cursor == next && (rx.saw == next || (!s.lapped ==> rx.early))
      case Lagged(skipped) => rx.cursor == next + skipped && rx.cursor + s.cap == rx.saw && 1 <= skipped
      case Disconnected(inner) =>
        rx.cursor == next == rx.saw && !inner && s.senders == 0 && (rx.late ==> s.write == next)
  }

  ghost predicate ReceiverOk<V>(s: State<V>, rx: Receiver<V>)
    requires Shaped(s)
  {
    && rx.cursor == rx.start + rx.received + rx.skipped
    && rx.cursor <= s.write && rx.saw <= s.write
    && rx.rounds <= 2
    && (rx.late ==> s.senders == 0)
    && LookOk(s, rx) && HoldOk(s, rx) && DoneOk(s, rx)
  }

  ghost predicate Inv<V>(s: State<V>) {
    && Shaped(s)
    && (s.senders == 0 ==> NobodySends(s))
    && (forall t: nat | t < |s.sends| :: SendOk(s, t))
    && (forall t: nat | t < |s.sends| :: StoredLast(s, t))
    && (forall i: nat | i < s.cap :: SlotOk(s, i))
    && (forall i: nat | i < s.cap :: LastOk(s, i))
    && (forall c: nat | c < s.write :: TicketOk(s, c))
    && (forall r: nat | r < |s.receivers| :: ReceiverOk(s, s.receivers[r]))
  }

  lemma InitInv<V>(cap: nat, fused: bool, threads: nat)
    requires 0 < cap
    ensures Inv(Init<V>(cap, fused, threads))
  {
  }

  // ------------------------------------------------------------------------------------
  // The senders' steps
  // ------------------------------------------------------------------------------------

  /** What receivers need to know of a sender's step. */
  ghost predicate SendMoved<V>(s: State<V>, r: State<V>) {
    Grown(s, r) && r.receivers == s.receivers
  }

  /** Tickets are only added; what is published, or spent, stays so. */
  ghost predicate Grown<V>(s: State<V>, r: State<V>) {
    && Shaped(s) && Shaped(r)
    && r.cap == s.cap && r.fused == s.fused
    && (s.senders == 0 ==> r.senders == 0 && r.write == s.write)
    && s.write <= r.write && (forall c: nat | c < s.write :: r.log[c] == s.log[c])
    && (s.lapped ==> r.lapped)
    && (forall c: nat | Published(s, c) :: Published(r, c))
    && (forall c: nat | Spent(s, c) :: Spent(r, c))
  }

  lemma ReceiverKept<V>(s: State<V>, r: State<V>, rx: Receiver<V>)
    requires Grown(s, r) && ReceiverOk(s, rx)
    ensures ReceiverOk(r, rx)
  {
    LookKept(s, r, rx);
    HoldKept(s, r, rx);
    AnswerKept(s, r, rx);
  }

  lemma LookKept<V>(s: State<V>, r: State<V>, rx: Receiver<V>)
    requires Grown(s, r) && LookOk(s, rx) && (rx.late ==> s.senders == 0)
    ensures LookOk(r, rx)
  {
  }

  /** A reader between its load of the value and its second look at the number, or after that. */
  lemma HoldKept<V>(s: State<V>, r: State<V>, rx: Receiver<V>)
    requires Grown(s, r) && HoldOk(s, rx)
    ensures HoldOk(r, rx)
  {
    if rx.pc.After? {
      assert Spent(s, rx.pc.next) ==> Spent(r, rx.pc.next);
    }
  }

  lemma AnswerKept<V>(s: State<V>, r: State<V>, rx: Receiver<V>)
    requires Grown(s, r) && DoneOk(s, rx) && (rx.late ==> s.senders == 0)
    ensures DoneOk(r, rx)
  {
  }

  lemma FetchKeeps<V>(s: State<V>, t: Tid)
    requires Inv(s) && t < |s.sends| && s.sends[t].Fetch?
    ensures Inv(Send(s, t))
  {
    var r := Send(s, t);
    assert forall c: nat | c < s.write :: Sending(r, c) == Sending(s, c);
    assert Sending(r, s.write);
    assert SendMoved(s, r);
    forall i: nat | i < r.cap ensures SlotOk(r, i) { assert SlotOk(s, i); }
    forall i: nat | i < r.cap ensures LastOk(r, i) { FetchKeepsLast(s, t, i); }
    forall c: nat | c < r.write ensures TicketOk(r, c) { if c < s.write { assert TicketOk(s, c); } }
    forall u: nat | u < |r.sends| ensures SendOk(r, u) && StoredLast(r, u) { FetchKeepsSender(s, t, u); }
    forall k: nat | k < |r.receivers| ensures ReceiverOk(r, r.receivers[k]) { ReceiverKept(s, r, s.receivers[k]); }
  }

  lemma FetchKeepsLast<V>(s: State<V>, t: Tid, i: nat)
    requires Inv(s) && t < |s.sends| && s.sends[t].Fetch? && i < s.cap
    ensures LastOk(Send(s, t), i)
  {
    assert LastOk(s, i);
    var slot := s.slots[i];
    if slot.seqno != 0 {
      assert SlotOk(s, i) && TicketOk(s, slot.seqno - 1);
    }
  }

  lemma FetchKeepsSender<V>(s: State<V>, t: Tid, u: Tid)
    requires Inv(s) && t < |s.sends| && s.sends[t].Fetch? && u < |s.sends|
    ensures SendOk(Send(s, t), u) && StoredLast(Send(s, t), u)
  {
    assert SendOk(s, u) && StoredLast(s, u);
  }

  /** A store by the sender of ticket `own` into that ticket's slot. */
  ghost predicate Stored<V>(s: State<V>, r: State<V>, t: Tid, own: nat) {
    && Shaped(s) && Shaped(r) && t < |s.sends| == |r.sends|
    && (s.sends[t].StoreValue? || s.sends[t].StoreSeq?) && s.sends[t].ticket == own
    && own < s.write && s.sender[own] == t
    && r == s.(slots := s.slots[own % s.cap := SlotOf(r, own)], sends := s.sends[t := r.sends[t]],
               last := if s.sends[t].StoreValue? then s.last[own % s.cap := own] else s.last)
    && (s.sends[t].StoreSeq? ==> r.sends[t].Idle? && SlotOf(r, own).value == SlotOf(s, own).value)
    && (s.sends[t].StoreValue? ==> SlotOf(r, own).value == Some(s.log[own]))
    && (r.sends[t] == Idle || r.sends[t] == StoreSeq(own))
    && SlotOf(r, own).value.Some?
    && (!s.lapped || s.fused ==> SlotOf(r, own).value == Some(s.log[own]))
    && SlotOf(r, own).seqno == (if r.sends[t].Idle? then own + 1 else SlotOf(s, own).seqno)
    && (r.sends[t].StoreSeq? ==> !s.fused)
  }

  lemma StoreStores<V>(s: State<V>, t: Tid)
    requires Inv(s) && t < |s.sends| && (s.sends[t].StoreValue? || s.sends[t].StoreSeq?)
    ensures Stored(s, Send(s, t), t, s.sends[t].ticket)
  {
    assert SendOk(s, t);
  }

  lemma StoreSending<V>(s: State<V>, r: State<V>, t: Tid, own: nat, c: nat)
    requires Inv(s) && Stored(s, r, t, own)
    ensures Sending(r, c) == (if c == own then r.sends[t].StoreSeq? else Sending(s, c))
  {
    if c < s.write && s.sender[c] == t {
      assert SendOk(s, t);
    }
  }

  lemma StoreMoves<V>(s: State<V>, r: State<V>, t: Tid, own: nat)
    requires Inv(s) && Stored(s, r, t, own)
    ensures SendMoved(s, r)
  {
    forall c: nat | Published(s, c) ensures Published(r, c) && c != own {
      StoreSending(s, r, t, own, c);
    }
  }

  lemma StoreKeepsSlot<V>(s: State<V>, r: State<V>, t: Tid, own: nat, i: nat)
    requires Inv(s) && Stored(s, r, t, own) && i < s.cap
    ensures SlotOk(r, i)
  {
    assert SlotOk(s, i);
    var slot := r.slots[i];
    if slot.seqno != 0 {
      StoreSending(s, r, t, own, slot.seqno - 1);
    }
  }

  lemma StoreKeepsLast<V>(s: State<V>, r: State<V>, t: Tid, own: nat, i: nat)
    requires Inv(s) && Stored(s, r, t, own) && i < s.cap
    ensures LastOk(r, i)
  {
    assert LastOk(s, i) && SlotOk(s, i) && StoredLast(s, t);
    if s.slots[i].seqno != 0 {
      assert TicketOk(s, s.slots[i].seqno - 1);
    }
  }

  lemma StoreKeepsOthersLast<V>(s: State<V>, r: State<V>, t: Tid, own: nat, u: Tid)
    requires Inv(s) && Stored(s, r, t, own) && u < |s.sends|
    ensures StoredLast(r, u)
  {
    assert StoredLast(s, u) && SendOk(s, u) && SendOk(s, t);
    if u != t && s.sends[u].StoreSeq? && s.sends[u].ticket % s.cap == own % s.cap && !s.lapped {
      SameSlotSameTicket(own, s.sends[u].ticket, s.cap);
    }
  }

  lemma StoreKeepsTicket<V>(s: State<V>, r: State<V>, t: Tid, own: nat, c: nat)
    requires Inv(s) && Stored(s, r, t, own) && c < s.write
    ensures TicketOk(r, c)
  {
    StoreSending(s, r, t, own, c);
    assert TicketOk(s, c) && SendOk(s, t);
    if Published(r, c) && c != own && c % s.cap == own % s.cap && !s.lapped {
      if own < c { SameSlotSameTicket(own, c, s.cap); }
      if s.write <= c + s.cap { SameSlotSameTicket(own, c, s.cap); }
    }
  }

  lemma StoreKeepsSender<V>(s: State<V>, r: State<V>, t: Tid, own: nat, u: Tid)
    requires Inv(s) && Stored(s, r, t, own) && u < |s.sends|
    ensures SendOk(r, u)
  {
    assert SendOk(s, u) && SendOk(s, t);
    if u != t && s.sends[u].StoreSeq? && s.sends[u].ticket % s.cap == own % s.cap && !s.lapped {
      SameSlotSameTicket(own, s.sends[u].ticket, s.cap);
    }
  }

  lemma StoreKeeps<V>(s: State<V>, r: State<V>, t: Tid, own: nat)
    requires Inv(s) && Stored(s, r, t, own)
    ensures Inv(r)
  {
    StoreMoves(s, r, t, own);
    forall i: nat | i < r.cap ensures SlotOk(r, i) { StoreKeepsSlot(s, r, t, own, i); }
    forall i: nat | i < r.cap ensures LastOk(r, i) { StoreKeepsLast(s, r, t, own, i); }
    forall u: nat | u < |r.sends| ensures StoredLast(r, u) { StoreKeepsOthersLast(s, r, t, own, u); }
    forall c: nat | c < r.write ensures TicketOk(r, c) { StoreKeepsTicket(s, r, t, own, c); }
    forall u: nat | u < |r.sends| ensures SendOk(r, u) { StoreKeepsSender(s, r, t, own, u); }
    forall k: nat | k < |r.receivers| ensures ReceiverOk(r, r.receivers[k]) { ReceiverKept(s, r, s.receivers[k]); }
  }

  // ------------------------------------------------------------------------------------
  // The receivers' steps
  // ------------------------------------------------------------------------------------

  /** A newer sequence number in the slot: the write position is more than a lap ahead. */
  lemma Overwritten<V>(s: State<V>, next: nat)
    requires Inv(s) && next + 1 < SlotOf(s, next).seqno
    ensures next + s.cap < s.write
  {
    assert SlotOk(s, next % s.cap);
    var c := SlotOf(s, next).seqno - 1;
    if c < next + s.cap {
      SameSlotSameTicket(c, next, s.cap);
    }
  }

  /** The step that reads the slot's `seq` for the first time. */
  lemma BeforeKeeps<V>(s: State<V>, rx: Receiver<V>)
    requires Inv(s) && ReceiverOk(s, rx) && rx.pc.Before?
    ensures ReceiverOk(s, Receive(s, rx))
  {
    var next := rx.pc.next;
    assert SlotOk(s, next % s.cap) && TicketOk(s, next);
    if next + 1 < SlotOf(s, next).seqno { Overwritten(s, next); }
  }

  /** The step that reads the slot's value. */
  lemma LoadValueKeeps<V>(s: State<V>, rx: Receiver<V>)
    requires Inv(s) && ReceiverOk(s, rx) && rx.pc.LoadValue?
    ensures ReceiverOk(s, Receive(s, rx))
  {
    var next := rx.pc.next;
    assert TicketOk(s, next) && SlotOk(s, next % s.cap) && LastOk(s, next % s.cap);
    if !s.lapped && SlotOf(s, next).seqno == next + 1 { TornExactly(s, next); }
  }

  /** In front of its own number, a reader loads another message exactly if the slot is torn. */
  lemma TornExactly<V>(s: State<V>, next: nat)
    requires Inv(s) && !s.lapped && SlotOf(s, next).seqno == next + 1
    ensures s.last[next % s.cap] == next <==> !Torn(s, next)
  {
    var i := next % s.cap;
    assert LastOk(s, i) && SlotOk(s, i) && TicketOk(s, next);
    if s.last[i] != next {
      assert TearsAt(s, s.sends[s.sender[s.last[i]]], next);
    }
    forall t | 0 <= t < |s.sends| && TearsAt(s, s.sends[t], next) ensures s.last[i] != next {
      assert StoredLast(s, t);
    }
  }

  /** The step that reads the slot's `seq` again. */
  lemma AfterKeeps<V>(s: State<V>, rx: Receiver<V>)
    requires Inv(s) && ReceiverOk(s, rx) && rx.pc.After?
    ensures ReceiverOk(s, Receive(s, rx))
  {
  }

  /** The step that reads the write position first. */
  lemma LoadWriteKeeps<V>(s: State<V>, rx: Receiver<V>)
    requires Inv(s) && ReceiverOk(s, rx) && rx.pc.LoadWrite?
    ensures ReceiverOk(s, Receive(s, rx))
  {
  }

  /** The steps that store the cursor. */
  lemma StoreCursorKeeps<V>(s: State<V>, rx: Receiver<V>)
    requires Inv(s) && ReceiverOk(s, rx) && (rx.pc.Skip? || rx.pc.Take?)
    ensures ReceiverOk(s, Receive(s, rx))
  {
  }

  /** The loads of the write position and of the sender count on the way out. */
  lemma LeavingKeeps<V>(s: State<V>, rx: Receiver<V>)
    requires Inv(s) && ReceiverOk(s, rx)
    requires rx.pc.CountEmpty? || rx.pc.CountBehind? || rx.pc.WriteBehind? || rx.pc.WriteNow?
    ensures ReceiverOk(s, Receive(s, rx))
  {
  }

  lemma ReceiveKeeps<V>(s: State<V>, rx: Receiver<V>)
    requires Inv(s) && ReceiverOk(s, rx)
    ensures ReceiverOk(s, Receive(s, rx))
  {
    match rx.pc
    case Resting =>
    case Done(_, _) =>
    case LoadNext(_) =>
    case LoadWrite(_, _) => LoadWriteKeeps(s, rx);
    case Before(_, _) => BeforeKeeps(s, rx);
    case LoadValue(_, _) => LoadValueKeeps(s, rx);
    case After(_, _, _) => AfterKeeps(s, rx);
    case Skip(_, _) => StoreCursorKeeps(s, rx);
    case Take(_, _) => StoreCursorKeeps(s, rx);
    case _ => LeavingKeeps(s, rx);
  }

  lemma SendKeeps<V>(s: State<V>, t: Tid)
    requires Inv(s) && t < |s.sends|
    ensures Inv(Send(s, t))
  {
    if s.sends[t].Fetch? {
      FetchKeeps(s, t);
    } else if s.sends[t].StoreValue? || s.sends[t].StoreSeq? {
      StoreStores(s, t);
      StoreKeeps(s, Send(s, t), t, s.sends[t].ticket);
    }
  }

  lemma RecvStepKeeps<V>(s: State<V>, k: nat)
    requires Inv(s)
    ensures Inv(Next(s, RecvStep(k)))
  {
    if k < |s.receivers| {
      ReceiveKeeps(s, s.receivers[k]);
      OthersKeep(s, s.(receivers := s.receivers[k := Receive(s, s.receivers[k])]));
    }
  }

  lemma NextInv<V>(s: State<V>, a: Action<V>)
    requires Inv(s)
    ensures Inv(Next(s, a))
  {
    match a
    case SendStep(t) => if t < |s.sends| { SendKeeps(s, t); }
    case RecvStep(k) => RecvStepKeeps(s, k);
    case CallSend(t, v) => CallKeeps(s, t, v);
    case DropSender => CountKeeps(s, Next(s, a));
    case CloneSender => CountKeeps(s, Next(s, a));
    case _ => OthersKeep(s, Next(s, a));
  }

  /** The shared state and the senders stay. */
  lemma OthersKeep<V>(s: State<V>, r: State<V>)
    requires Inv(s) && r == s.(receivers := r.receivers)
    requires forall k: nat | k < |r.receivers| :: ReceiverOk(s, r.receivers[k])
    ensures Inv(r)
  {
    forall i: nat | i < r.cap ensures SlotOk(r, i) && LastOk(r, i) { assert SlotOk(s, i) && LastOk(s, i); }
    forall c: nat | c < r.write ensures TicketOk(r, c) { assert TicketOk(s, c); }
    forall u: nat | u < |r.sends| ensures SendOk(r, u) && StoredLast(r, u) { assert SendOk(s, u) && StoredLast(s, u); }
    forall k: nat | k < |r.receivers| ensures ReceiverOk(r, r.receivers[k]) { SameReceiver(s, r, r.receivers[k]); }
  }

  lemma SameReceiver<V>(s: State<V>, r: State<V>, rx: Receiver<V>)
    requires Shaped(s) && r == s.(receivers := r.receivers) && ReceiverOk(s, rx)
    ensures ReceiverOk(r, rx)
  {
    assert Grown(s, r);
    ReceiverKept(s, r, rx);
  }

  lemma CallKeeps<V>(s: State<V>, t: Tid, v: V)
    requires Inv(s)
    ensures Inv(Next(s, CallSend(t, v)))
  {
    var r := Next(s, CallSend(t, v));
    assert forall c: nat :: Sending(r, c) == Sending(s, c);
    forall i: nat | i < r.cap ensures SlotOk(r, i) && LastOk(r, i) { assert SlotOk(s, i) && LastOk(s, i); }
    forall c: nat | c < r.write ensures TicketOk(r, c) { assert TicketOk(s, c); }
    forall u: nat | u < |r.sends| ensures SendOk(r, u) && StoredLast(r, u) { assert SendOk(s, u) && StoredLast(s, u); }
    forall k: nat | k < |r.receivers| ensures ReceiverOk(r, r.receivers[k]) { ReceiverKept(s, r, s.receivers[k]); }
  }

  lemma CountKeeps<V>(s: State<V>, r: State<V>)
    requires Inv(s) && r == s.(senders := r.senders)
    requires s.senders == 0 ==> r.senders == 0
    requires r.senders == 0 ==> NobodySends(s)
    ensures Inv(r)
  {
    forall i: nat | i < r.cap ensures SlotOk(r, i) && LastOk(r, i) { assert SlotOk(s, i) && LastOk(s, i); }
    forall c: nat | c < r.write ensures TicketOk(r, c) { assert TicketOk(s, c); }
    forall u: nat | u < |r.sends| ensures SendOk(r, u) && StoredLast(r, u) { assert SendOk(s, u) && StoredLast(s, u); }
    assert Grown(s, r);
    forall k: nat | k < |r.receivers| ensures ReceiverOk(r, r.receivers[k]) { ReceiverKept(s, r, s.receivers[k]); }
  }

  lemma {:induction false} ReachableInv<V>(cap: nat, fused: bool, threads: nat, schedule: seq<Action<V>>)
    requires 0 < cap
    ensures Inv(Exec(Init<V>(cap, fused, threads), schedule))
    decreases |schedule|
  {
    if schedule == [] {
      InitInv<V>(cap, fused, threads);
    } else {
      ReachableInv(cap, fused, threads, schedule[..|schedule| - 1]);
      NextInv(Exec(Init<V>(cap, fused, threads), schedule[..|schedule| - 1]), schedule[|schedule| - 1]);
    }
  }

  // ------------------------------------------------------------------------------------
  // Accounting
  // ------------------------------------------------------------------------------------

  /**
   A receiver's cursor is where it started, plus the messages it returned, plus all the lag
   it reported; it never passes the write position; and the `max(1)` of the overwritten
   case never changes a count.
   */
  lemma LagAccounting<V>(cap: nat, fused: bool, threads: nat, schedule: seq<Action<V>>, k: nat)
    requires 0 < cap && k < |Exec(Init<V>(cap, fused, threads), schedule).receivers|
    ensures var s := Exec(Init<V>(cap, fused, threads), schedule);
            var rx := s.receivers[k];
            && rx.start <= rx.cursor <= s.write
            && rx.cursor == rx.start + rx.received + rx.skipped
            && (rx.pc.WriteNow? ==> 1 <= SatSub(SatSub(s.write, s.cap), rx.cursor))
  {
    ReachableInv(cap, fused, threads, schedule);
    var s := Exec(Init<V>(cap, fused, threads), schedule);
    assert ReceiverOk(s, s.receivers[k]);
  }

  /**
   Where a lag brings the cursor. The step that decides on one, whether the cursor was found too
   old or the slot was found overwritten, has just loaded the write position, and the cursor
   will go to the oldest message that survives then, by exactly as much as is reported.
   */
  lemma LagGoesToTheOldest<V>(cap: nat, fused: bool, threads: nat, schedule: seq<Action<V>>, k: nat)
    requires 0 < cap && k < |Exec(Init<V>(cap, fused, threads), schedule).receivers|
    requires var s := Exec(Init<V>(cap, fused, threads), schedule);
             var pc := s.receivers[k].pc;
             (pc.LoadWrite? || pc.WriteNow? || pc.Fallback?) && Receive(s, s.receivers[k]).pc.Skip?
    ensures var s := Exec(Init<V>(cap, fused, threads), schedule);
            var rx := s.receivers[k];
            var pc := Receive(s, rx).pc;
            pc.target + cap == s.write && rx.cursor + pc.skipped == pc.target && 1 <= pc.skipped
  {
    ReachableInv(cap, fused, threads, schedule);
    var s := Exec(Init<V>(cap, fused, threads), schedule);
    assert ReceiverOk(s, s.receivers[k]);
    LagIsDecided(s, s.receivers[k]);
  }

  lemma LagIsDecided<V>(s: State<V>, rx: Receiver<V>)
    requires Shaped(s) && LookOk(s, rx) && (rx.pc.LoadWrite? || rx.pc.WriteNow?) && Receive(s, rx).pc.Skip?
    ensures var pc := Receive(s, rx).pc;
            pc.target + s.cap == s.write && rx.cursor + pc.skipped == pc.target && 1 <= pc.skipped
  {
  }

  /**
   What the answers mean. A lag brought the cursor, by as much as it reports, to the oldest message
   that survived when the write position was loaded last. `Empty` and `Disconnected` mean that
   the write position was then the cursor; or, for `Empty`, that the message at the cursor was
   still being sent, unless a sender was lapped; and for `Disconnected`, that there are no senders.
   */
  lemma AnswersAreTrue<V>(cap: nat, fused: bool, threads: nat, schedule: seq<Action<V>>, k: nat)
    requires 0 < cap && k < |Exec(Init<V>(cap, fused, threads), schedule).receivers|
    requires Exec(Init<V>(cap, fused, threads), schedule).receivers[k].pc.Done?
    ensures var s := Exec(Init<V>(cap, fused, threads), schedule);
            var rx := s.receivers[k];
            rx.saw <= s.write &&
            match rx.pc.outcome
            case Received(_) => rx.cursor == rx.pc.next + 1
            case Lagged(skipped) => rx.cursor == rx.pc.next + skipped && rx.cursor + cap == rx.saw && 1 <= skipped
            case Empty => rx.cursor == rx.pc.next && (rx.saw == rx.cursor || rx.early || s.lapped)
            case Disconnected(_) => rx.cursor == rx.pc.next == rx.saw && s.senders == 0
  {
    ReachableInv(cap, fused, threads, schedule);
    var s := Exec(Init<V>(cap, fused, threads), schedule);
    assert ReceiverOk(s, s.receivers[k]);
  }

  lemma CursorStep<V>(s: State<V>, a: Action<V>, k: nat)
    requires Inv(s) && k < |s.receivers|
    ensures k < |Next(s, a).receivers| && s.receivers[k].cursor <= Next(s, a).receivers[k].cursor
  {
    assert ReceiverOk(s, s.receivers[k]);
    if a == RecvStep(k) {
      assert s.receivers[k].cursor <= Receive(s, s.receivers[k]).cursor;
    }
  }

  lemma {:induction false} CursorsGrow<V>(s: State<V>, more: seq<Action<V>>, k: nat)
    requires Inv(s) && k < |s.receivers|
    ensures Inv(Exec(s, more))
    ensures k < |Exec(s, more).receivers| && s.receivers[k].cursor <= Exec(s, more).receivers[k].cursor
    decreases |more|
  {
    if more != [] {
      CursorsGrow(s, more[..|more| - 1], k);
      NextInv(Exec(s, more[..|more| - 1]), more[|more| - 1]);
      CursorStep(Exec(s, more[..|more| - 1]), more[|more| - 1], k);
    }
  }

  /** Nothing is removed: receivers stay, and no cursor ever goes back. */
  lemma CursorsNeverGoBack<V>(
      cap: nat, fused: bool, threads: nat, schedule: seq<Action<V>>, more: seq<Action<V>>, k: nat)
    requires 0 < cap && k < |Exec(Init<V>(cap, fused, threads), schedule).receivers|
    ensures var s := Exec(Init<V>(cap, fused, threads), schedule);
            var r := Exec(s, more);
            k < |r.receivers| && s.receivers[k].cursor <= r.receivers[k].cursor
  {
    ReachableInv(cap, fused, threads, schedule);
    CursorsGrow(Exec(Init<V>(cap, fused, threads), schedule), more, k);
  }

  /**
   One call passes the top of its loop at most twice, so the fall-back of the spinning
   receiver is never taken, and neither is the `Disconnected` behind an unpublished slot.
   */
  lemma AtMostOneRetry<V>(cap: nat, fused: bool, threads: nat, schedule: seq<Action<V>>, k: nat)
    requires 0 < cap && k < |Exec(Init<V>(cap, fused, threads), schedule).receivers|
    ensures var rx := Exec(Init<V>(cap, fused, threads), schedule).receivers[k];
            && rx.rounds <= 2
            && !rx.pc.Fallback?
            && !(rx.pc.Done? && rx.pc.outcome == Disconnected(true))
  {
    ReachableInv(cap, fused, threads, schedule);
    var s := Exec(Init<V>(cap, fused, threads), schedule);
    assert ReceiverOk(s, s.receivers[k]);
  }

  /** A call that began without senders answers `Disconnected` only at the very end of the log. */
  lemma DisconnectedMeansDrained<V>(cap: nat, fused: bool, threads: nat, schedule: seq<Action<V>>, k: nat)
    requires 0 < cap && k < |Exec(Init<V>(cap, fused, threads), schedule).receivers|
    requires var rx := Exec(Init<V>(cap, fused, threads), schedule).receivers[k];
             rx.late && rx.pc.Done? && rx.pc.outcome.Disconnected?
    ensures var s := Exec(Init<V>(cap, fused, threads), schedule);
            s.receivers[k].cursor == s.write == |s.log| && NobodySends(s)
  {
    ReachableInv(cap, fused, threads, schedule);
    var s := Exec(Init<V>(cap, fused, threads), schedule);
    assert ReceiverOk(s, s.receivers[k]);
  }

  /**
   A receiver that finds too old a number in its slot is in front of an unpublished message,
   unless someone was lapped.
   */
  lemma EmptyIsJustified<V>(cap: nat, fused: bool, threads: nat, schedule: seq<Action<V>>, k: nat)
    requires 0 < cap && k < |Exec(Init<V>(cap, fused, threads), schedule).receivers|
    requires var s := Exec(Init<V>(cap, fused, threads), schedule);
             var rx := s.receivers[k];
             !s.lapped && rx.pc.Before? && Receive(s, rx).pc.CountBehind?
    ensures var s := Exec(Init<V>(cap, fused, threads), schedule);
            Sending(s, s.receivers[k].cursor)
  {
    var s := Exec(Init<V>(cap, fused, threads), schedule);
    ReachableInv(cap, fused, threads, schedule);
    assert ReceiverOk(s, s.receivers[k]) && TicketOk(s, s.receivers[k].cursor);
  }

  // ------------------------------------------------------------------------------------
  // The identity of the message
  // ------------------------------------------------------------------------------------

  /** What is delivered at the grain of the source: right, if nobody was lapped, the reader included. */
  lemma DeliveredUnlessLapped<V>(cap: nat, fused: bool, threads: nat, schedule: seq<Action<V>>, k: nat)
    requires 0 < cap && k < |Exec(Init<V>(cap, fused, threads), schedule).receivers|
    requires var rx := Exec(Init<V>(cap, fused, threads), schedule).receivers[k];
             rx.pc.Done? && rx.pc.outcome.Received?
    ensures var s := Exec(Init<V>(cap, fused, threads), schedule);
            var pc := s.receivers[k].pc;
            && pc.next < s.write
            && (fused || (!s.lapped && s.write <= pc.next + cap) ==> pc.outcome.v == s.log[pc.next])
  {
    var s := Exec(Init<V>(cap, fused, threads), schedule);
    ReachableInv(cap, fused, threads, schedule);
    assert ReceiverOk(s, s.receivers[k]);
  }

  /**
   The ticket whose message was delivered, for the two stores as they are. It always is a
   ticket of the reader's slot; and unless a sender was lapped, it is the reader's own exactly
   if at the load of the value no sender of another ticket of that slot stood between its
   two stores.
   */
  lemma DeliveredTicketExactly<V>(cap: nat, fused: bool, threads: nat, schedule: seq<Action<V>>, k: nat)
    requires 0 < cap && k < |Exec(Init<V>(cap, fused, threads), schedule).receivers|
    requires var rx := Exec(Init<V>(cap, fused, threads), schedule).receivers[k];
             rx.pc.Done? && rx.pc.outcome.Received?
    ensures var s := Exec(Init<V>(cap, fused, threads), schedule);
            var rx := s.receivers[k];
            && rx.source < s.write && rx.source % cap == rx.pc.next % cap && rx.pc.outcome.v == s.log[rx.source]
            && (!s.lapped ==> (rx.source == rx.pc.next <==> !rx.torn))
  {
    ReachableInv(cap, fused, threads, schedule);
    SourceOfDone(Exec(Init<V>(cap, fused, threads), schedule), k);
  }

  lemma SourceOfDone<V>(s: State<V>, k: nat)
    requires Inv(s) && k < |s.receivers| && s.receivers[k].pc.Done? && s.receivers[k].pc.outcome.Received?
    ensures Sourced(s, s.receivers[k], s.receivers[k].pc.outcome.v, s.receivers[k].pc.next)
  {
    assert ReceiverOk(s, s.receivers[k]);
  }

  lemma AloneStep<V>(s: State<V>, a: Action<V>)
    requires Shaped(s) && |s.sends| == 1 && !s.lapped
    ensures !Next(s, a).lapped
  {
  }

  /** A single sending thread never laps itself. */
  lemma {:induction false} OneSenderNeverLaps<V>(cap: nat, fused: bool, schedule: seq<Action<V>>)
    requires 0 < cap
    ensures !Exec(Init<V>(cap, fused, 1), schedule).lapped
    decreases |schedule|
  {
    if schedule != [] {
      OneSenderNeverLaps(cap, fused, schedule[..|schedule| - 1]);
      AloneStep(Exec(Init<V>(cap, fused, 1), schedule[..|schedule| - 1]), schedule[|schedule| - 1]);
    }
  }
}
