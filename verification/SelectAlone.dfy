/**
 The selecting thread, and the senders, when nobody disturbs them, from every state in which the
 invariant holds: what a sweep answers, that a call ends or falls asleep, what a whole `send`
 does to a call, and that a sleeping call is woken by one and answers.
 */
module SelectAlone {
  import opened Basics
  import R = Ring
  import P = RingProperties
  import S = Select
  import opened SelectCall
  import opened SelectCallProof

  // ------------------------------------------------------------------------------------
  // Running alone
  // ------------------------------------------------------------------------------------

  function Mover<V>(t: Tid): State<V> -> State<V> {
    (s: State<V>) => if Shaped(s) then Next(s, Step(t)) else s
  }

  /** If nobody but thread `t` moves, the state will at some time be `r`. */
  ghost predicate Leads<V>(s: State<V>, r: State<V>, t: Tid) {
    Reaches(Mover(t), s, r)
  }

  lemma OneNext<V>(s: State<V>, r: State<V>, t: Tid)
    requires Inv(s) && r == Next(s, Step(t))
    ensures Leads(s, r, t) && Inv(r)
  {
    NextInv(s, Step(t));
    ReachesSelf(Mover(t), r);
    ReachesNext(Mover(t), s, r);
  }

  lemma SelMoves<V>(s: State<V>)
    requires Inv(s)
    ensures Leads(s, SelectorStep(s), 0) && Inv(SelectorStep(s))
  {
    OneNext(s, SelectorStep(s), 0);
  }

  lemma Onwards<V>(s: State<V>, q: State<V>, r: State<V>, t: Tid)
    requires Leads(s, q, t) && Leads(q, r, t)
    ensures Leads(s, r, t)
  {
    ReachesThen(Mover(t), s, q, r);
  }

  // ------------------------------------------------------------------------------------
  // One look at one arm
  // ------------------------------------------------------------------------------------

  /** What `is_ready` of arm `j` answers if nothing moves: the head ticket is published, or nobody sends. */
  ghost predicate Answers<V>(s: State<V>, j: nat)
    requires Shaped(s) && j < |s.arms|
  {
    var ch := s.chans[s.arms[j]];
    R.Published(ch.ring, ch.ring.head) || ch.senders == 0
  }

  /** The three loads say together what the arm answers. */
  lemma ThreeLoads<V>(s: State<V>, j: nat)
    requires Inv(s) && j < |s.arms|
    ensures var head := s.chans[s.arms[j]].ring.head;
            && CheckStep(s, j, Head) == More(Sequence(head))
            && (if CheckStep(s, j, Sequence(head)) == Ready then Answers(s, j)
                else CheckStep(s, j, Sequence(head)) == More(Count)
                     && CheckStep(s, j, Count) == if Answers(s, j) then Ready else NotReady)
  {
    assert ChanOk(s, s.arms[j]);
    P.HeadSequence(s.chans[s.arms[j]].ring);
  }

  /** Which arm the sweep asks in place `i`. */
  function ArmOf<V>(s: State<V>, start: nat, i: nat): (arm: nat)
    requires Shaped(s)
    ensures arm < |s.arms|
  {
    (start + i) % |s.arms|
  }

  /** The state after the sweep has found nothing. */
  function NothingFound<V>(s: State<V>): State<V> {
    s.(cells := s.cells + [UNSELECTED], winner := s.winner + [0], mine := [], sel := Register(0))
  }

  lemma TryMoves<V>(s: State<V>, q: State<V>)
    requires Inv(s) && s.sel.Try? && q == TryStep(s)
    ensures Leads(s, q, 0) && Inv(q)
  {
    SelMoves(s);
  }

  /** Where the sweep goes when place `i` has answered. */
  function AfterAsking<V>(s: State<V>, start: nat, i: nat, ready: bool): State<V>
    requires Shaped(s)
  {
    if ready then s.(sel := Returned(ArmOf(s, start, i)))
    else if i + 1 < |s.arms| then s.(sel := Try(start, i + 1, Head))
    else NothingFound(s)
  }

  lemma TriesHead<V>(s: State<V>, start: nat, i: nat) returns (q: State<V>)
    requires Inv(s) && s.sel == Try(start, i, Head)
    ensures Leads(s, q, 0) && Inv(q)
    ensures q == s.(sel := Try(start, i, Sequence(s.chans[s.arms[ArmOf(s, start, i)]].ring.head)))
  {
    ThreeLoads(s, ArmOf(s, start, i));
    q := TryStep(s);
    TryMoves(s, q);
  }

  lemma TriesSequence<V>(s: State<V>, start: nat, i: nat) returns (q: State<V>)
    requires Inv(s) && s.sel == Try(start, i, Sequence(s.chans[s.arms[ArmOf(s, start, i)]].ring.head))
    ensures Leads(s, q, 0) && Inv(q)
    ensures CheckStep(s, ArmOf(s, start, i), s.sel.check) == Ready ==>
              Answers(s, ArmOf(s, start, i)) && q == AfterAsking(s, start, i, true)
    ensures CheckStep(s, ArmOf(s, start, i), s.sel.check) != Ready ==> q == s.(sel := Try(start, i, Count))
  {
    ThreeLoads(s, ArmOf(s, start, i));
    q := TryStep(s);
    TryMoves(s, q);
  }

  lemma TriesCount<V>(s: State<V>, start: nat, i: nat) returns (q: State<V>)
    requires Inv(s) && s.sel == Try(start, i, Count)
    requires CheckStep(s, ArmOf(s, start, i), Count) == if Answers(s, ArmOf(s, start, i)) then Ready else NotReady
    ensures Leads(s, q, 0) && Inv(q)
    ensures q == AfterAsking(s, start, i, Answers(s, ArmOf(s, start, i)))
  {
    q := TryStep(s);
    TryMoves(s, q);
  }

  /** One arm in the try phase. */
  lemma TriesOne<V>(s: State<V>, start: nat, i: nat) returns (r: State<V>)
    requires Inv(s) && s.sel == Try(start, i, Head)
    ensures Leads(s, r, 0) && Inv(r)
    ensures r == AfterAsking(s, start, i, Answers(s, ArmOf(s, start, i)))
  {
    ThreeLoads(s, ArmOf(s, start, i));
    var p := TriesHead(s, start, i);
    r := TriesSequence(p, start, i);
    Onwards(s, p, r, 0);
    if r.sel == Try(start, i, Count) {
      var q := r;
      r := TriesCount(q, start, i);
      Onwards(s, q, r, 0);
    }
  }

  /** What the arms answer depends on the rings and the sender counts only. */
  lemma SameAnswers<V>(s: State<V>, q: State<V>)
    requires Shaped(s) && Shaped(q) && q.arms == s.arms && |q.chans| == |s.chans|
    requires forall c: nat | c < |s.chans| ::
               q.chans[c].ring == s.chans[c].ring && q.chans[c].senders == s.chans[c].senders
    ensures forall j: nat | j < |s.arms| :: Answers(q, j) == Answers(s, j)
  {
  }

  /** How a sweep from place `i` on goes on alone: `first` is the place of the first ready arm, or `n`. */
  ghost predicate Swept<V>(s: State<V>, r: State<V>, start: nat, i: nat, first: nat)
    requires Shaped(s)
  {
    && i <= first <= |s.arms|
    && (forall h: nat | i <= h < first :: !Answers(s, ArmOf(s, start, h)))
    && if first < |s.arms| then Answers(s, ArmOf(s, start, first)) && r == s.(sel := Returned(ArmOf(s, start, first)))
       else r == NothingFound(s)
  }

  lemma SweptFirst<V>(s: State<V>, q: State<V>, r: State<V>, start: nat, i: nat, first: nat)
    requires Shaped(s) && Shaped(q) && q == s.(sel := q.sel) && !Answers(s, ArmOf(s, start, i))
    requires Swept(q, r, start, i + 1, first)
    ensures Swept(s, r, start, i, first)
  {
    SameAnswers(s, q);
    assert forall h: nat :: ArmOf(q, start, h) == ArmOf(s, start, h);
  }

  /**
   The sweep from place `i` on. It answers with the first arm that is ready, in cyclic order from
   `start`; if there is none, every arm has been asked, and the call begins to register.
   */
  lemma {:induction false} SweepRun<V>(s: State<V>, start: nat, i: nat) returns (r: State<V>, first: nat)
    requires Inv(s) && s.sel == Try(start, i, Head)
    ensures Leads(s, r, 0) && Inv(r) && Swept(s, r, start, i, first)
    decreases |s.arms| - i
  {
    var q := TriesOne(s, start, i);
    if Answers(s, ArmOf(s, start, i)) {
      r, first := q, i;
    } else if i + 1 == |s.arms| {
      r, first := q, i + 1;
    } else {
      r, first := SweepRun(q, start, i + 1);
      SweptFirst(s, q, r, start, i, first);
      Onwards(s, q, r, 0);
    }
  }

  // ------------------------------------------------------------------------------------
  // Registering and re-checking
  // ------------------------------------------------------------------------------------

  /** Channels look the same to `is_ready`, and to other threads nothing has happened. */
  ghost predicate SameOutside<V>(s: State<V>, r: State<V>) {
    && r.arms == s.arms && r.ops == s.ops && |r.chans| == |s.chans| && r.token == s.token && r.cells == s.cells
    && forall c: nat | c < |s.chans| :: r.chans[c].ring == s.chans[c].ring && r.chans[c].senders == s.chans[c].senders
  }

  lemma {:induction false} RegisterRun<V>(s: State<V>) returns (r: State<V>)
    requires Inv(s) && s.sel.Register?
    ensures Leads(s, r, 0) && Inv(r) && r.sel == Recheck(0, Head) && SameOutside(s, r)
    decreases |s.arms| - s.sel.arm
  {
    var q := RegisterMoves(s);
    r := q;
    if q.sel.Register? {
      r := RegisterRun(q);
      Onwards(s, q, r, 0);
    }
  }

  lemma RegisterMoves<V>(s: State<V>) returns (q: State<V>)
    requires Inv(s) && s.sel.Register?
    ensures Leads(s, q, 0) && Inv(q) && SameOutside(s, q)
    ensures q.sel == if s.sel.arm + 1 < |s.arms| then Register(s.sel.arm + 1) else Recheck(0, Head)
  {
    q := RegisterStep(s);
    SelMoves(s);
  }

  lemma RecheckMoves<V>(s: State<V>, q: State<V>)
    requires Inv(s) && s.sel.Recheck? && q == RecheckStep(s)
    ensures Leads(s, q, 0) && Inv(q)
  {
    SelMoves(s);
  }

  function AfterRecheck<V>(s: State<V>, j: nat, ready: bool): State<V> {
    s.(sel := if ready then Claim(j) else if j + 1 < |s.arms| then Recheck(j + 1, Head) else Look)
  }

  lemma RechecksHead<V>(s: State<V>, j: nat) returns (q: State<V>)
    requires Inv(s) && s.sel == Recheck(j, Head)
    ensures Leads(s, q, 0) && Inv(q) && q == s.(sel := Recheck(j, Sequence(s.chans[s.arms[j]].ring.head)))
  {
    ThreeLoads(s, j);
    q := RecheckStep(s);
    RecheckMoves(s, q);
  }

  lemma RechecksSequence<V>(s: State<V>, j: nat) returns (q: State<V>)
    requires Inv(s) && j < |s.arms| && s.sel == Recheck(j, Sequence(s.chans[s.arms[j]].ring.head))
    ensures Leads(s, q, 0) && Inv(q)
    ensures CheckStep(s, j, s.sel.check) == Ready ==> Answers(s, j) && q == AfterRecheck(s, j, true)
    ensures CheckStep(s, j, s.sel.check) != Ready ==> q == s.(sel := Recheck(j, Count))
  {
    ThreeLoads(s, j);
    q := RecheckStep(s);
    RecheckMoves(s, q);
  }

  lemma RechecksCount<V>(s: State<V>, j: nat) returns (q: State<V>)
    requires Inv(s) && s.sel == Recheck(j, Count)
    requires CheckStep(s, j, Count) == if Answers(s, j) then Ready else NotReady
    ensures Leads(s, q, 0) && Inv(q) && q == AfterRecheck(s, j, Answers(s, j))
  {
    q := RecheckStep(s);
    RecheckMoves(s, q);
  }

  lemma RechecksOne<V>(s: State<V>, j: nat) returns (r: State<V>)
    requires Inv(s) && s.sel == Recheck(j, Head)
    ensures Leads(s, r, 0) && Inv(r) && r == AfterRecheck(s, j, Answers(s, j))
  {
    ThreeLoads(s, j);
    var p := RechecksHead(s, j);
    r := RechecksSequence(p, j);
    Onwards(s, p, r, 0);
    if r.sel == Recheck(j, Count) {
      var q := r;
      r := RechecksCount(q, j);
      Onwards(s, q, r, 0);
    }
  }

  /** The re-check claims the call for the first arm that is ready, in the order of the arms. */
  lemma {:induction false} RecheckRun<V>(s: State<V>, j: nat) returns (r: State<V>, first: nat)
    requires Inv(s) && s.sel == Recheck(j, Head)
    ensures Leads(s, r, 0) && Inv(r) && j <= first <= |s.arms|
    ensures forall h: nat | j <= h < first :: !Answers(s, h)
    ensures if first < |s.arms| then Answers(s, first) && r == s.(sel := Claim(first)) else r == s.(sel := Look)
    decreases |s.arms| - j
  {
    var q := RechecksOne(s, j);
    if q.sel.Recheck? {
      r, first := RecheckRun(q, j + 1);
      RechecksOn(s, q, r, j, first);
      Onwards(s, q, r, 0);
    } else {
      r := q;
      first := if q.sel.Claim? then j else j + 1;
    }
  }

  lemma RechecksOn<V>(s: State<V>, q: State<V>, r: State<V>, j: nat, first: nat)
    requires Shaped(s) && s.sel == Recheck(j, Head) && q == AfterRecheck(s, j, false) && Shaped(q) && !Answers(s, j)
    requires q.sel.Recheck? && j < first <= |s.arms| && forall h: nat | j < h < first :: !Answers(q, h)
    requires if first < |s.arms| then Answers(q, first) && r == q.(sel := Claim(first)) else r == q.(sel := Look)
    ensures forall h: nat | j <= h < first :: !Answers(s, h)
    ensures if first < |s.arms| then Answers(s, first) && r == s.(sel := Claim(first)) else r == s.(sel := Look)
  {
    SameAnswers(s, q);
  }

  // ------------------------------------------------------------------------------------
  // Aborting
  // ------------------------------------------------------------------------------------

  /** From the abort phase on: the answer is what the cell says. */
  ghost predicate Aborted<V>(s: State<V>, r: State<V>)
    requires 0 < |s.cells|
  {
    && SameOutside(s, r)
    && r.sel == if s.cells[Cur(s)] == UNSELECTED then Again else Returned(s.cells[Cur(s)])
  }

  /** How much of the abort phase is left. */
  function MarksLeft<V>(s: State<V>): nat {
    if s.sel.AbortMark? then |s.sel.rest| else 0
  }

  /** One step of the abort phase comes closer to its end. */
  ghost predicate AbortCloser<V>(s: State<V>, q: State<V>)
    requires Aborting(s.sel)
  {
    q.sel.Final? || (Aborting(q.sel)
                     && (q.sel.arm == s.sel.arm + 1
                         || (q.sel.arm == s.sel.arm && s.sel.AbortLoad? && !q.sel.AbortLoad?)
                         || (q.sel.arm == s.sel.arm && !s.sel.AbortLoad? && !q.sel.AbortLoad?
                             && MarksLeft(q) < MarksLeft(s))))
  }

  lemma AbortMoves<V>(s: State<V>) returns (q: State<V>)
    requires Inv(s) && Aborting(s.sel)
    ensures Leads(s, q, 0) && Inv(q) && SameOutside(s, q) && AbortCloser(s, q)
  {
    AbortIsOutside(s);
    AbortIsCloser(s);
    q := AbortStep(s);
    AbortMove(s, q);
  }

  lemma AbortMove<V>(s: State<V>, q: State<V>)
    requires Inv(s) && Aborting(s.sel) && q == AbortStep(s)
    ensures Leads(s, q, 0) && Inv(q)
  {
    SelMoves(s);
  }

  lemma AbortIsCloser<V>(s: State<V>)
    requires Shaped(s) && Aborting(s.sel)
    ensures AbortCloser(s, AbortStep(s))
  {
  }

  lemma AbortIsOutside<V>(s: State<V>)
    requires Shaped(s) && Aborting(s.sel)
    ensures SameOutside(s, AbortStep(s))
  {
  }

  lemma FinalMoves<V>(s: State<V>) returns (q: State<V>)
    requires Inv(s) && s.sel.Final?
    ensures Leads(s, q, 0) && Inv(q) && Aborted(s, q)
  {
    SelMoves(s);
    q := SelectorStep(s);
  }

  lemma {:induction false} AbortRun<V>(s: State<V>) returns (r: State<V>)
    requires Inv(s) && Aborting(s.sel)
    ensures 0 < |s.cells| && Leads(s, r, 0) && Inv(r) && Aborted(s, r)
    decreases |s.arms| - s.sel.arm, s.sel.AbortLoad?, MarksLeft(s)
  {
    var q := AbortMoves(s);
    if q.sel.Final? {
      r := FinalMoves(q);
    } else {
      r := AbortRun(q);
    }
    AbortedLater(s, q, r);
    Onwards(s, q, r, 0);
  }

  lemma AbortedLater<V>(s: State<V>, q: State<V>, r: State<V>)
    requires Shaped(s) && 0 < |q.cells| && SameOutside(s, q) && Aborted(q, r)
    ensures Aborted(s, r)
  {
  }

  // ------------------------------------------------------------------------------------
  // The whole call
  // ------------------------------------------------------------------------------------

  lemma LookMoves<V>(s: State<V>) returns (q: State<V>)
    requires Inv(s) && s.sel.Look?
    ensures 0 < |s.cells| && Leads(s, q, 0) && Inv(q)
    ensures q == s.(sel := if s.cells[Cur(s)] == UNSELECTED then Park else AbortLoad(0))
  {
    SelMoves(s);
    q := SelectorStep(s);
  }

  lemma ParkMoves<V>(s: State<V>) returns (q: State<V>)
    requires Inv(s) && s.sel.Park? && s.token
    ensures Leads(s, q, 0) && Inv(q) && q == s.(sel := AbortLoad(0), token := false)
  {
    SelMoves(s);
    q := SelectorStep(s);
  }

  lemma ClaimMoves<V>(s: State<V>) returns (q: State<V>)
    requires Inv(s) && s.sel.Claim?
    ensures 0 < |s.cells| == |q.cells| && Leads(s, q, 0) && Inv(q) && q.sel.Look? && q.token == s.token
    ensures q.cells[Cur(s)] == if s.cells[Cur(s)] == UNSELECTED then s.sel.arm else s.cells[Cur(s)]
  {
    SelMoves(s);
    q := SelectorStep(s);
  }

  /** A parked thread that has a token takes it, aborts, and answers what the cell says, or goes round again. */
  lemma WholeResume<V>(s: State<V>) returns (r: State<V>)
    requires Inv(s) && s.sel.Park? && s.token
    ensures 0 < |s.cells| && Leads(s, r, 0) && Inv(r)
    ensures !r.token && r.cells == s.cells && r.ops == s.ops && r.arms == s.arms
    ensures |r.chans| == |s.chans| && forall c: nat | c < |s.chans| ::
              r.chans[c].ring == s.chans[c].ring && r.chans[c].senders == s.chans[c].senders
    ensures r.sel == if s.cells[Cur(s)] == UNSELECTED then Again else Returned(s.cells[Cur(s)])
  {
    var q := ParkMoves(s);
    r := AbortRun(q);
    Onwards(s, q, r, 0);
  }

  /** After a sweep that found nothing: the thread falls asleep, its call open, or uses up its token and goes round. */
  lemma WaitRun<V>(s: State<V>) returns (r: State<V>)
    requires Inv(s) && s.sel == Register(0) && 0 < |s.cells| && s.cells[Cur(s)] == UNSELECTED
    requires forall j: nat | j < |s.arms| :: !Answers(s, j)
    ensures Leads(s, r, 0) && Inv(r) && r.cells == s.cells && !r.token && r.ops == s.ops && r.arms == s.arms
    ensures r.sel == if s.token then Again else Park
  {
    var q := RegistersAndFinds(s);
    r := q;
    if q.token {
      r := WholeResume(q);
      Onwards(s, q, r, 0);
    }
  }

  lemma RegistersAndFinds<V>(s: State<V>) returns (q: State<V>)
    requires Inv(s) && s.sel == Register(0) && 0 < |s.cells| && s.cells[Cur(s)] == UNSELECTED
    requires forall j: nat | j < |s.arms| :: !Answers(s, j)
    ensures Leads(s, q, 0) && Inv(q) && q.sel.Park? && SameOutside(s, q)
  {
    var p := RegisterRun(s);
    SameAnswers(s, p);
    q := FindsNothing(p);
    Onwards(s, p, q, 0);
  }

  /** The re-check finds nothing, and the call is open: the thread is about to park. */
  lemma FindsNothing<V>(p: State<V>) returns (r: State<V>)
    requires Inv(p) && p.sel == Recheck(0, Head) && 0 < |p.cells| && p.cells[Cur(p)] == UNSELECTED
    requires forall j: nat | j < |p.arms| :: !Answers(p, j)
    ensures Leads(p, r, 0) && Inv(r) && r == p.(sel := Park)
  {
    var q, first := RecheckRun(p, 0);
    r := LookMoves(q);
    Onwards(p, q, r, 0);
  }

  /** Every arm has its place in the sweep. */
  lemma NoneAnswers<V>(s: State<V>, start: nat)
    requires Shaped(s) && start < |s.arms|
    requires forall h: nat | h < |s.arms| :: !Answers(s, ArmOf(s, start, h))
    ensures forall j: nat | j < |s.arms| :: !Answers(s, j)
  {
    forall j: nat | j < |s.arms| ensures !Answers(s, j) {
      var place := S.ArmIsReached(start, j, |s.arms|);
      assert ArmOf(s, start, place) == j;
    }
  }

  /**
   A whole call, or one round of its loop, with nobody else moving. It answers with the first arm
   that is ready in cyclic order from where the counter says; if none is, it falls asleep with its
   call open, or, if it had a token, uses that up and goes round again.
   */
  lemma WholeRound<V>(s: State<V>, start: nat) returns (r: State<V>, first: nat)
    requires Inv(s) && (s.sel.Again? || s.sel.Outside?)
    requires forall c: nat | c < |s.chans| :: R.AtRest(s.chans[c].ring.pcs[0])
    ensures Leads(Next(s, Sweep(start)), r, 0) && Inv(r) && first <= |s.arms| && r.arms == s.arms
    ensures forall h: nat | h < first :: !Answers(s, ArmOf(s, start, h))
    ensures first < |s.arms| ==>
              && Answers(s, ArmOf(s, start, first)) && r.sel == Returned(ArmOf(s, start, first))
              && r.token == s.token && r.nodes == s.nodes && r.chans == s.chans
    ensures first == |s.arms| ==>
              && !r.token && r.sel == (if s.token then Again else Park)
              && 0 < |r.cells| && r.cells[Cur(r)] == UNSELECTED
  {
    var from := start % |s.arms|;
    var c := SweepBegins(s, start);
    r, first := SweepRun(c, from, 0);
    FromTheCounter(s, c, r, start, first);
    if first == |s.arms| {
      var q := r;
      r := WaitsFrom(c, q, from);
      Onwards(c, q, r, 0);
    }
  }

  lemma WaitsFrom<V>(c: State<V>, q: State<V>, from: nat) returns (r: State<V>)
    requires Shaped(c) && from < |c.arms| && Inv(q) && Swept(c, q, from, 0, |c.arms|)
    ensures Leads(q, r, 0) && Inv(r) && r.arms == c.arms
    ensures !r.token && r.sel == (if c.token then Again else Park) && 0 < |r.cells| && r.cells[Cur(r)] == UNSELECTED
  {
    NoneAnswers(c, from);
    SameAnswers(c, q);
    r := WaitRun(q);
  }

  /** Reducing the counter first makes no difference. */
  lemma FromTheCounter<V>(s: State<V>, c: State<V>, r: State<V>, start: nat, first: nat)
    requires Shaped(s) && Shaped(c) && c == s.(sel := c.sel, clean := c.clean, busy := c.busy)
    requires Swept(c, r, start % |s.arms|, 0, first)
    ensures forall h: nat | h < first :: !Answers(s, ArmOf(s, start, h))
    ensures first < |s.arms| ==>
              Answers(s, ArmOf(s, start, first)) && r == c.(sel := Returned(ArmOf(s, start, first)))
  {
    SameAnswers(s, c);
    forall h: nat | h <= first ensures ArmOf(c, start % |s.arms|, h) == ArmOf(s, start, h) {
      S.SameArm(start, h, |s.arms|);
    }
  }

  lemma SweepBegins<V>(s: State<V>, start: nat) returns (c: State<V>)
    requires Inv(s) && (s.sel.Again? || s.sel.Outside?)
    requires forall c: nat | c < |s.chans| :: R.AtRest(s.chans[c].ring.pcs[0])
    ensures c == Next(s, Sweep(start)) && Inv(c)
    ensures c == s.(sel := Try(start % |s.arms|, 0, Head), clean := c.clean, busy := c.busy)
  {
    c := Next(s, Sweep(start));
    NextInv(s, Sweep(start));
  }

  /** Where a call that goes on alone ends: an answer, another round, or asleep. */
  predicate Settled<V>(s: State<V>) {
    s.sel.Returned? || s.sel.Again? || Asleep(s)
  }

  /** How far the call is from that. */
  function Phase(sel: SelPc): nat {
    match sel
    case Try(_, _, _) => 9
    case Register(_) => 8
    case Recheck(_, _) => 7
    case Claim(_) => 6
    case Look => 5
    case Park => 4
    case _ => 0
  }

  function LoadsLeft(check: Check): nat {
    match check
    case Head => 2
    case Sequence(_) => 1
    case Count => 0
  }

  function Left<V>(s: State<V>): nat
    requires Shaped(s)
  {
    match s.sel
    case Try(_, i, check) => 3 * (|s.arms| - i) + LoadsLeft(check)
    case Register(j) => |s.arms| - j
    case Recheck(j, check) => 3 * (|s.arms| - j) + LoadsLeft(check)
    case _ => 0
  }

  ghost predicate Closer<V>(s: State<V>, q: State<V>)
    requires Shaped(s) && Shaped(q)
  {
    && !q.sel.Outside?
    && (q.sel.Returned? || Phase(q.sel) < Phase(s.sel) || (Phase(q.sel) == Phase(s.sel) && Left(q) < Left(s)))
  }

  lemma TryMovesOn<V>(s: State<V>) returns (q: State<V>)
    requires Inv(s) && s.sel.Try?
    ensures Leads(s, q, 0) && Inv(q) && Closer(s, q)
  {
    q := TryStep(s);
    TryMoves(s, q);
    TryIsCloser(s);
  }

  lemma TryIsCloser<V>(s: State<V>)
    requires Shaped(s) && s.sel.Try?
    ensures Closer(s, TryStep(s))
  {
  }

  lemma RegisterMovesOn<V>(s: State<V>) returns (q: State<V>)
    requires Inv(s) && s.sel.Register?
    ensures Leads(s, q, 0) && Inv(q) && Closer(s, q)
  {
    SelMoves(s);
    q := RegisterStep(s);
  }

  lemma RecheckMovesOn<V>(s: State<V>) returns (q: State<V>)
    requires Inv(s) && s.sel.Recheck?
    ensures Leads(s, q, 0) && Inv(q) && Closer(s, q)
  {
    q := RecheckStep(s);
    RecheckMoves(s, q);
    RecheckIsCloser(s);
  }

  lemma RecheckIsCloser<V>(s: State<V>)
    requires Shaped(s) && s.sel.Recheck?
    ensures Closer(s, RecheckStep(s))
  {
  }

  /** From every reachable state the selecting thread alone comes to an answer, to another round, or falls asleep. */
  lemma {:induction false} SelectorEnds<V>(s: State<V>) returns (r: State<V>)
    requires Inv(s) && !s.sel.Outside?
    ensures Leads(s, r, 0) && Inv(r) && Settled(r)
    decreases Phase(s.sel), Left(s)
  {
    if Settled(s) {
      r := s;
      ReachesSelf(Mover(0), s);
    } else {
      var q := MovesOn(s);
      r := q;
      if !Settled(q) {
        r := SelectorEnds(q);
        Onwards(s, q, r, 0);
      }
    }
  }

  lemma MovesOn<V>(s: State<V>) returns (q: State<V>)
    requires Inv(s) && !s.sel.Outside? && !Settled(s)
    ensures Leads(s, q, 0) && Inv(q) && (Settled(q) || Closer(s, q))
  {
    if s.sel.Try? {
      q := TryMovesOn(s);
    } else if s.sel.Register? {
      q := RegisterMovesOn(s);
    } else if s.sel.Recheck? {
      q := RecheckMovesOn(s);
    } else if s.sel.Claim? {
      q := ClaimMoves(s);
    } else if s.sel.Look? {
      q := LookMoves(s);
    } else if s.sel.Park? {
      q := ParkMoves(s);
    } else if s.sel.Final? {
      q := FinalMoves(s);
    } else {
      q := AbortRun(s);
    }
  }

  /** Select only chooses: called again with the same counter while nothing was received, it chooses the same arm. */
  lemma SameAnswerAgain<V>(s: State<V>, start: nat) returns (r: State<V>)
    requires Inv(s) && s.sel.Returned? && s.sel.arm < |s.arms| && Chosen(s, start)
    requires forall c: nat | c < |s.chans| :: R.AtRest(s.chans[c].ring.pcs[0])
    ensures Leads(Next(Next(s, Return), Sweep(start)), r, 0) && r.sel == s.sel
  {
    var first;
    var q := CallEnds(s);
    r, first := WholeRound(q, start);
    OneChoice(s, q, start, first);
  }

  /** There is only one first arm that is ready. */
  lemma OneChoice<V>(s: State<V>, q: State<V>, start: nat, first: nat)
    requires Shaped(s) && s.sel.Returned? && Chosen(s, start) && q == s.(sel := Outside) && first <= |s.arms|
    requires forall h: nat | h < first :: !Answers(q, ArmOf(q, start, h))
    requires first < |s.arms| ==> Answers(q, ArmOf(q, start, first))
    ensures first < |s.arms| && ArmOf(q, start, first) == s.sel.arm
  {
    SameAnswers(s, q);
    var place: nat :| ChosenAt(s, start, place);
    assert ArmOf(q, start, place) == ArmOf(s, start, place) && ArmOf(q, start, first) == ArmOf(s, start, first);
  }

  lemma CallEnds<V>(s: State<V>) returns (q: State<V>)
    requires Inv(s) && s.sel.Returned?
    ensures q == Next(s, Return) == s.(sel := Outside) && Inv(q)
  {
    NextInv(s, Return);
    q := Next(s, Return);
  }

  /** The answer is the arm in this place, and no arm before it is ready. */
  ghost predicate ChosenAt<V>(s: State<V>, start: nat, place: nat)
    requires Shaped(s) && s.sel.Returned?
  {
    && place < |s.arms| && s.sel.arm == ArmOf(s, start, place) && Answers(s, s.sel.arm)
    && forall h: nat | h < place :: !Answers(s, ArmOf(s, start, h))
  }

  ghost predicate Chosen<V>(s: State<V>, start: nat)
    requires Shaped(s) && s.sel.Returned?
  {
    exists place: nat :: ChosenAt(s, start, place)
  }
}
