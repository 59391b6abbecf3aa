/**
 `select_impl` as the loop it is, over the channels' real stacks of select waiters.

 One thread selects, as the only consumer of its channels. Other threads' whole operations
 take place between any two phases' steps: the caller passes them gap by gap, and the methods
 are proved for every such interference. `park` returns when there is a token; a thread that
 still has none after the last gap sleeps for good, and `SelectImpl` answers `None`.
 */
module SelectMemory {
  import opened Basics
  import C = RingCalls
  import S = Select
  import opened Waiters

  /** What select sees of a bounded MPSC channel: how many values are queued, and who sends. */
  class Arm {
    const cap: nat
    var queued: nat
    var senders: nat
    const selectWaiters: SelectStack

    /** `is_ready`: a ring of one slot that was pushed twice in a row looks empty. */
    predicate Ready()
      reads this
    {
      (queued != 0 && !C.Stuck(cap, queued)) || senders == 0
    }


    constructor (cap: nat)
      ensures this.cap == cap && queued == 0 && senders == 1
      ensures fresh(selectWaiters) && selectWaiters.Valid() && selectWaiters.chain == []
    {
      this.cap := cap;
      queued, senders := 0, 1;
      selectWaiters := new SelectStack();
    }
  }

  /** Every node is aborted, or is a node of `cell` for thread `me` and one of the given arms. */
  ghost predicate LiveOf(chain: seq<SelectWaiter>, cell: Selected, me: Thread, arms: set<nat>)
    reads chain
  {
    forall w | w in chain :: w.aborted || (w.selected == cell && w.thread == me && w.caseId in arms)
  }

  ghost predicate SomeLive(chain: seq<SelectWaiter>)
    reads chain
  {
    exists w :: w in chain && !w.aborted
  }

  /** What a drain by `wake_select_one` does to the one cell that can be open. */
  lemma OneWokenDecides(batch: seq<SelectWaiter>, b: Before, values: seq<nat>, tokens: seq<bool>,
                        woke: bool, winner: nat, k: nat)
    requires |b.aborted| == |b.values| == |b.tokens| == |values| == |tokens| == |batch|
    requires OneWoken(batch, b, values, tokens, |batch|, woke, winner)
    requires k < |batch|
    ensures || values[k] == b.values[k]
            || (woke && values[k] == batch[winner].caseId && batch[winner].selected == batch[k].selected)
    ensures !b.aborted[k] && b.values[k] == UNSELECTED ==> woke
    ensures woke ==> winner < |batch| && !b.aborted[winner] && b.values[winner] == UNSELECTED
                     && values[winner] == batch[winner].caseId && tokens[winner]
    ensures b.tokens[k] ==> tokens[k]
  {
    assert NodeDecided(batch, b, values[k], tokens[k], winner, woke, k);
    if woke {
      assert NodeDecided(batch, b, values[winner], tokens[winner], winner, woke, winner);
    }
  }

  lemma SomeLiveAt(chain: seq<SelectWaiter>)
    requires SomeLive(chain)
    ensures exists k: nat :: k < |chain| && !Aborted(chain)[k]
  {
    var w :| w in chain && !w.aborted;
    var k :| 0 <= k < |chain| && chain[k] == w;
    assert !Aborted(chain)[k];
  }

  /** What the nodes of a batch see of one cell and one thread, before and after. */
  datatype Seen = Seen(cell: Selected, value: nat, newValue: nat, thread: Thread, token: bool, newToken: bool)

  ghost predicate Agrees(batch: seq<SelectWaiter>, b: Before, values: seq<nat>, tokens: seq<bool>, arms: set<nat>,
                         seen: Seen)
    requires |b.aborted| == |b.values| == |b.tokens| == |values| == |tokens| == |batch|
  {
    && (forall k: nat | k < |batch| && batch[k].selected == seen.cell ::
          b.values[k] == seen.value && values[k] == seen.newValue)
    && (forall k: nat | k < |batch| && batch[k].thread == seen.thread ::
          b.tokens[k] == seen.token && tokens[k] == seen.newToken)
    && (forall k: nat | k < |batch| && !b.aborted[k] ::
          batch[k].selected == seen.cell && batch[k].thread == seen.thread && batch[k].caseId in arms)
    && (seen.newValue != seen.value ==> exists k: nat :: k < |batch| && batch[k].selected == seen.cell)
    && (seen.newToken != seen.token ==> exists k: nat :: k < |batch| && batch[k].thread == seen.thread)
  }

  lemma OneWokenSeen(batch: seq<SelectWaiter>, b: Before, values: seq<nat>, tokens: seq<bool>,
                     woke: bool, winner: nat, arms: set<nat>, seen: Seen)
    requires |b.aborted| == |b.values| == |b.tokens| == |values| == |tokens| == |batch| && UNSELECTED !in arms
    requires OneWoken(batch, b, values, tokens, |batch|, woke, winner)
    requires Agrees(batch, b, values, tokens, arms, seen)
    ensures (exists k: nat :: k < |batch| && !b.aborted[k]) ==> seen.newValue != UNSELECTED
    ensures seen.newValue != seen.value ==> seen.value == UNSELECTED && seen.newValue in arms && seen.newToken
    ensures seen.token ==> seen.newToken
  {
    forall k: nat | k < |batch|
      ensures !b.aborted[k] ==> seen.newValue != UNSELECTED
      ensures values[k] != b.values[k] ==>
                seen.value == UNSELECTED && values[k] == seen.newValue && values[k] in arms && seen.newToken
      ensures b.tokens[k] ==> tokens[k]
    {
      OneWokenDecides(batch, b, values, tokens, woke, winner, k);
    }
  }

  /** A cell or thread that `wake_select_all` changed was changed for an unaborted node. */
  lemma AllWokenChanged(batch: seq<SelectWaiter>, b: Before, values: seq<nat>, tokens: seq<bool>, arms: set<nat>,
                        seen: Seen, k: nat)
    requires |b.aborted| == |b.values| == |b.tokens| == |values| == |tokens| == |batch| && k < |batch|
    requires AllWoken(batch, b, values, tokens, |batch|)
    requires Agrees(batch, b, values, tokens, arms, seen)
    ensures values[k] != b.values[k] ==> b.values[k] == UNSELECTED && values[k] in arms && seen.newToken
    ensures b.tokens[k] ==> tokens[k]
  {
    assert CellWoken(batch, b, values[k], |batch|, k) && ThreadWoken(batch, b, tokens[k], |batch|, k);
    if values[k] != b.values[k] {
      var i :| 0 <= i < |batch| && SpeaksFor(batch, b.aborted, i, k) && values[k] == batch[i].caseId;
      assert ThreadWoken(batch, b, tokens[i], |batch|, i);
    }
  }

  lemma AllWokenSeen(batch: seq<SelectWaiter>, b: Before, values: seq<nat>, tokens: seq<bool>, arms: set<nat>,
                     seen: Seen)
    requires |b.aborted| == |b.values| == |b.tokens| == |values| == |tokens| == |batch| && UNSELECTED !in arms
    requires AllWoken(batch, b, values, tokens, |batch|)
    requires Agrees(batch, b, values, tokens, arms, seen)
    ensures (exists k: nat :: k < |batch| && !b.aborted[k]) ==> seen.newValue != UNSELECTED
    ensures seen.newValue != seen.value ==> seen.value == UNSELECTED && seen.newValue in arms && seen.newToken
    ensures seen.token ==> seen.newToken
  {
    forall k: nat | k < |batch|
      ensures !b.aborted[k] ==> seen.newValue != UNSELECTED
      ensures values[k] != b.values[k] ==> b.values[k] == UNSELECTED && values[k] in arms && seen.newToken
      ensures b.tokens[k] ==> tokens[k]
    {
      assert CellWoken(batch, b, values[k], |batch|, k);
      AllWokenChanged(batch, b, values, tokens, arms, seen, k);
    }
  }

  /** `wake_select_one` on a stack whose live nodes are all of `cell`. */
  method WakeOneOf(stack: SelectStack, cell: Selected, me: Thread, ghost arms: set<nat>)
    requires stack.Valid() && UNSELECTED !in arms
    requires LiveOf(stack.chain, cell, me, arms)
    modifies stack, Cells(stack.chain), Threads(stack.chain)
    ensures stack.Valid() && stack.chain == []
    ensures old(SomeLive(stack.chain)) ==> cell.value != UNSELECTED
    ensures cell.value != old(cell.value) ==> old(cell.value) == UNSELECTED && cell.value in arms && me.token
    ensures old(me.token) ==> me.token
  {
    ghost var batch := stack.chain;
    ghost var b := Before(Aborted(batch), Values(batch), Tokens(batch));
    if SomeLive(batch) { SomeLiveAt(batch); }
    var woke, freed;
    ghost var winner;
    woke, freed, winner := stack.WakeSelectOne();
    ghost var seen := Seen(cell, old(cell.value), cell.value, me, old(me.token), me.token);
    assert cell.value != old(cell.value) ==> cell in Cells(batch);
    assert me.token != old(me.token) ==> me in Threads(batch);
    assert Agrees(batch, b, Values(batch), Tokens(batch), arms, seen);
    OneWokenSeen(batch, b, Values(batch), Tokens(batch), woke, winner, arms, seen);
  }

  /** `wake_select_all` on such a stack. */
  method WakeAllOf(stack: SelectStack, cell: Selected, me: Thread, ghost arms: set<nat>)
    requires stack.Valid() && UNSELECTED !in arms
    requires LiveOf(stack.chain, cell, me, arms) && forall w | w in stack.chain :: w.caseId != UNSELECTED
    modifies stack, Cells(stack.chain), Threads(stack.chain)
    ensures stack.Valid() && stack.chain == []
    ensures old(SomeLive(stack.chain)) ==> cell.value != UNSELECTED
    ensures cell.value != old(cell.value) ==> old(cell.value) == UNSELECTED && cell.value in arms && me.token
    ensures old(me.token) ==> me.token
  {
    ghost var batch := stack.chain;
    ghost var b := Before(Aborted(batch), Values(batch), Tokens(batch));
    if SomeLive(batch) { SomeLiveAt(batch); }
    var freed := stack.WakeSelectAll();
    ghost var seen := Seen(cell, old(cell.value), cell.value, me, old(me.token), me.token);
    assert cell.value != old(cell.value) ==> cell in Cells(batch);
    assert me.token != old(me.token) ==> me in Threads(batch);
    assert Agrees(batch, b, Values(batch), Tokens(batch), arms, seen);
    AllWokenSeen(batch, b, Values(batch), Tokens(batch), arms, seen);
  }

  /** What another thread does: a whole `send`, a sender's whole `drop`, or an unrelated `unpark`. */
  datatype Deed = Send(arm: nat) | DropSender(arm: nat) | Stray

  type Gap = seq<Deed>

  /** What `is_ready` of an arm is about: how many values are queued, and how many senders there are. */
  datatype View = View(queued: nat, senders: nat)

  class Selection {
    const ops: seq<Arm>
    const me: Thread
    ghost var cells: set<Selected>           // every `selected` this thread's nodes refer to
    ghost var nodes: set<SelectWaiter>       // every node on the stacks, and more

    /** `Select::new` and one `recv` for each arm. `cells` and `nodes` are what earlier calls left on the stacks. */
    constructor (ops: seq<Arm>, me: Thread, ghost cells: set<Selected>, ghost nodes: set<SelectWaiter>)
      ensures this.ops == ops && this.me == me && this.cells == cells && this.nodes == nodes
    {
      this.ops, this.me, this.cells, this.nodes := ops, me, cells, nodes;
    }

    /** How the arms stand. */
    ghost function Views(): (r: seq<View>)
      reads Arms()
      ensures |r| == |ops|
    {
      seq(|ops|, j requires 0 <= j < |ops| reads Arms() => View(ops[j].queued, ops[j].senders))
    }

    /** The channel of arm `i` stands at `view`, for each of its arms. */
    ghost function OnChannel(views: seq<View>, i: nat, view: View): (r: seq<View>)
      requires |views| == |ops| && i < |ops|
      ensures |r| == |ops| && forall j: nat | j < |ops| :: r[j] == if ops[j] == ops[i] then view else views[j]
    {
      seq(|ops|, j requires 0 <= j < |ops| => if ops[j] == ops[i] then view else views[j])
    }

    /** What a deed does to the arms. */
    ghost function After(views: seq<View>, deed: Deed): (r: seq<View>)
      requires |views| == |ops|
      ensures |r| == |ops|
    {
      match deed
      case Stray => views
      case Send(i) =>
        if i < |ops| && views[i].senders != 0 && C.Accepts(ops[i].cap, views[i].queued)
        then OnChannel(views, i, View(views[i].queued + 1, views[i].senders)) else views
      case DropSender(i) =>
        if i < |ops| && views[i].senders != 0
        then OnChannel(views, i, View(views[i].queued, views[i].senders - 1)) else views
    }

    ghost function AfterGap(views: seq<View>, gap: Gap): (r: seq<View>)
      requires |views| == |ops|
      ensures |r| == |ops|
      decreases |gap|
    {
      if gap == [] then views else After(AfterGap(views, gap[..|gap| - 1]), gap[|gap| - 1])
    }

    /** How the arms stand after each number of gaps, from `views` on. */
    ghost function Course(views: seq<View>, gaps: seq<Gap>): (at: seq<seq<View>>)
      requires |views| == |ops|
      ensures |at| == |gaps| + 1 && at[0] == views
      ensures forall i | 0 <= i < |at| :: |at[i]| == |ops|
      decreases |gaps|
    {
      if gaps == [] then [views]
      else
        var before := Course(views, gaps[..|gaps| - 1]);
        before + [AfterGap(before[|gaps| - 1], gaps[|gaps| - 1])]
    }

    ghost predicate Leads(at: seq<seq<View>>, gaps: seq<Gap>, i: nat)
      requires i < |gaps| && i + 1 < |at| && |at[i]| == |ops|
    {
      at[i + 1] == AfterGap(at[i], gaps[i])
    }

    ghost predicate OnCourse(at: seq<seq<View>>, gaps: seq<Gap>) {
      && |at| == |gaps| + 1
      && (forall i | 0 <= i < |at| :: |at[i]| == |ops|)
      && forall i: nat | i < |gaps| :: Leads(at, gaps, i)
    }

    lemma {:induction false} CourseHolds(views: seq<View>, gaps: seq<Gap>)
      requires |views| == |ops|
      ensures OnCourse(Course(views, gaps), gaps)
      decreases |gaps|
    {
      if gaps != [] {
        var fewer := gaps[..|gaps| - 1];
        CourseHolds(views, fewer);
        forall i: nat | i < |gaps| ensures Leads(Course(views, gaps), gaps, i) {
          if i < |fewer| { assert Leads(Course(views, fewer), fewer, i); }
        }
      }
    }

    /** What `is_ready` of arm `j` answers when the arms stand at `views`. */
    ghost predicate ReadyIn(views: seq<View>, j: nat)
      requires |views| == |ops| && j < |ops|
    {
      (views[j].queued != 0 && !C.Stuck(ops[j].cap, views[j].queued)) || views[j].senders == 0
    }

    ghost function Arms(): set<Arm> {
      set j | 0 <= j < |ops| :: ops[j]
    }

    ghost function Stacks(): set<SelectStack> {
      set j | 0 <= j < |ops| :: ops[j].selectWaiters
    }

    /** The arms that are on the same channel as arm `j`. */
    ghost function SameChannel(j: nat): set<nat>
      requires j < |ops|
    {
      set c: nat | c < |ops| && ops[c] == ops[j]
    }

    ghost function Chain(j: nat): seq<SelectWaiter>
      requires j < |ops|
      reads ops[j].selectWaiters
    {
      ops[j].selectWaiters.chain
    }

    ghost predicate ChainOk(j: nat)
      requires j < |ops|
      reads this, ops[j].selectWaiters, nodes
    {
      && (forall w | w in Chain(j) :: w in nodes && w.selected in cells && w.thread == me && w.caseId != UNSELECTED)
      && ops[j].selectWaiters.Valid()
    }

    /** Arms may be the same channel; different channels have different stacks without common nodes. */
    ghost predicate Apart(j: nat, i: nat)
      requires j < |ops| && i < |ops|
      reads ops[j].selectWaiters, ops[i].selectWaiters
    {
      ops[j] != ops[i] ==> ops[j].selectWaiters != ops[i].selectWaiters && forall w | w in Chain(j) :: w !in Chain(i)
    }

    ghost predicate Valid()
      reads this, Stacks(), nodes
    {
      && 0 < |ops| <= UNSELECTED
      && (forall j: nat | j < |ops| :: ChainOk(j))
      && (forall j: nat, i: nat | j < |ops| && i < |ops| :: Apart(j, i))
    }

    /** All live nodes are of this call. */
    ghost predicate LiveAreOf(cell: Selected)
      reads this, Stacks(), nodes
      requires Valid()
    {
      forall j: nat | j < |ops| :: ChainOk(j) && LiveOf(Chain(j), cell, me, SameChannel(j))
    }

    /** No arm has a live node: the state between two calls. */
    ghost predicate Dead(j: nat)
      reads this, Stacks(), nodes
      requires Valid() && j < |ops|
    {
      ChainOk(j) && !SomeLive(Chain(j))
    }

    ghost predicate Calm()
      reads this, Stacks(), nodes
      requires Valid()
    {
      forall j: nat | j < |ops| :: Dead(j)
    }

    /** Arm `j` can still wake this call, or the call is decided. */
    ghost predicate Armed(cell: Selected, j: nat)
      reads this, Stacks(), nodes, cell
      requires Valid() && j < |ops|
    {
      ChainOk(j) && (cell.value != UNSELECTED || SomeLive(Chain(j)))
    }

    ghost predicate ArmedUpTo(cell: Selected, i: nat)
      reads this, Stacks(), nodes, cell
      requires Valid() && i <= |ops|
    {
      forall j: nat | j < i :: Armed(cell, j)
    }

    /** Arm `j` was found not ready, and still is not, or the call is decided. */
    ghost predicate Quiet(cell: Selected, j: nat)
      reads this, Stacks(), nodes, cell, Arms()
      requires Valid() && j < |ops|
    {
      Armed(cell, j) && (cell.value != UNSELECTED || !ops[j].Ready())
    }

    /** The cell, once decided, names an arm, and that arm is ready. */
    ghost predicate Announced(cell: Selected)
      reads this, cell, Arms()
    {
      cell.value != UNSELECTED ==> cell.value < |ops| && Answers(cell.value)
    }

    /** Arm `j` may be the answer: it is ready, or it was, and more was sent into its one slot. */
    ghost predicate Answers(j: nat)
      requires j < |ops|
      reads Arms()
    {
      ops[j].Ready() || ops[j].cap == 1
    }

    /** Arm `j` is ready, and sure to stay so as long as nobody receives. */
    ghost predicate Lasting(j: nat)
      requires j < |ops|
      reads Arms()
    {
      ops[j].cap != 1 && ops[j].Ready()
    }

    /** ... and if another thread decided it, there is a token. */
    ghost predicate Signalled(cell: Selected)
      reads this, cell, me, Arms()
    {
      Announced(cell) && (cell.value != UNSELECTED ==> me.token)
    }

    /**
     What another thread's operation keeps of a call in progress. The cell is decided at most
     once, and then there is a token; armed arms stay armed, quiet ones quiet, dead ones dead.
     */
    twostate predicate Kept(cell: Selected)
      reads this, Stacks(), nodes, Arms(), cell, me
    {
      && old(Valid()) && Valid()
      && (cell.value != old(cell.value) ==> old(cell.value) == UNSELECTED && Announced(cell) && me.token)
      && (old(Announced(cell)) ==> Announced(cell))
      && (old(me.token) ==> me.token)
      && (forall j: nat | j < |ops| :: old(Armed(cell, j)) ==> Armed(cell, j))
      && (forall j: nat | j < |ops| :: old(Quiet(cell, j)) ==> Quiet(cell, j))
      && (forall j: nat | j < |ops| :: old(Dead(j)) ==> Dead(j))
      && (forall j: nat | j < |ops| :: old(Lasting(j)) ==> Lasting(j))
    }

    /**
     Another thread wakes one, or all, of the waiters on arm `i`'s stack: if there is a live one,
     the call is decided.
     */
    method Drain(i: nat, cell: Selected, all: bool)
      requires Valid() && LiveAreOf(cell) && i < |ops|
      modifies me, Stacks(), cells
      ensures Valid() && LiveAreOf(cell)
      ensures cell.value != old(cell.value) ==>
                old(cell.value) == UNSELECTED && cell.value in SameChannel(i) && me.token
      ensures old(me.token) ==> me.token
      ensures old(SomeLive(Chain(i))) ==> cell.value != UNSELECTED
      ensures forall j: nat | j < |ops| :: Chain(j) == if ops[j] == ops[i] then [] else old(Chain(j))
      ensures Views() == old(Views())
    {
      assert ChainOk(i);
      assert LiveOf(Chain(i), cell, me, SameChannel(i));
      if all {
        WakeAllOf(ops[i].selectWaiters, cell, me, SameChannel(i));
      } else {
        WakeOneOf(ops[i].selectWaiters, cell, me, SameChannel(i));
      }
      forall j: nat | j < |ops|
        ensures Chain(j) == if ops[j] == ops[i] then [] else old(Chain(j))
        ensures ChainOk(j)
      {
        assert old(Apart(j, i)) && old(ChainOk(j));
      }
      forall j: nat, h: nat | j < |ops| && h < |ops| ensures Apart(j, h) { assert old(Apart(j, h)); }
      forall j: nat | j < |ops| ensures LiveOf(Chain(j), cell, me, SameChannel(j)) {
        assert old(ChainOk(j)) && old(LiveOf(Chain(j), cell, me, SameChannel(j)));
      }
    }

    /** One more value, or the end of the senders, on arm `i`'s channel. */
    method Count(i: nat, queued: nat, senders: nat)
      requires i < |ops|
      requires senders == 0 || (ops[i].queued < queued && senders == ops[i].senders)
      modifies ops[i]
      ensures Views() == OnChannel(old(Views()), i, View(queued, senders))
      ensures forall j: nat | j < |ops| ::
                && (old(Lasting(j)) ==> Lasting(j))
                && (old(Answers(j)) || j in SameChannel(i) ==> Answers(j))
                && (ops[j] != ops[i] ==> ops[j].Ready() == old(ops[j].Ready()))
    {
      ops[i].queued, ops[i].senders := queued, senders;
    }

    /** A drain keeps the armed arms armed, or decides the call. */
    method DrainKeeping(i: nat, cell: Selected, all: bool)
      requires Valid() && LiveAreOf(cell) && i < |ops|
      modifies me, Stacks(), cells
      ensures Valid() && LiveAreOf(cell) && Views() == old(Views())
      ensures cell.value != old(cell.value) ==>
                old(cell.value) == UNSELECTED && cell.value in SameChannel(i) && me.token
      ensures old(me.token) ==> me.token
      ensures forall j: nat | j < |ops| && old(Armed(cell, j)) ::
                Armed(cell, j) && (j in SameChannel(i) ==> cell.value != UNSELECTED)
      ensures forall j: nat | j < |ops| && old(Dead(j)) :: Dead(j)
    {
      Drain(i, cell, all);
      forall j: nat | j < |ops|
        ensures old(Armed(cell, j)) ==> Armed(cell, j) && (j in SameChannel(i) ==> cell.value != UNSELECTED)
        ensures old(Dead(j)) ==> Dead(j)
      {
        assert old(ChainOk(j)) && ChainOk(j);
      }
    }

    /** A drain, with the change of the arm's counters that goes with it. */
    method DrainAndCount(i: nat, cell: Selected, all: bool, queued: nat, senders: nat)
      requires Valid() && LiveAreOf(cell) && i < |ops|
      requires senders == 0 || (ops[i].queued < queued && senders == ops[i].senders)
      modifies me, Arms(), Stacks(), cells
      ensures Kept(cell) && LiveAreOf(cell)
      ensures Views() == OnChannel(old(Views()), i, View(queued, senders))
    {
      DrainKeeping(i, cell, all);
      Count(i, queued, senders);
    }

    /** A whole `send` on arm `i`'s channel. A refused one wakes nobody. */
    method SendOn(i: nat, cell: Selected)
      requires Valid() && LiveAreOf(cell) && i < |ops|
      modifies me, Arms(), Stacks(), cells
      ensures Kept(cell) && LiveAreOf(cell) && Views() == After(old(Views()), Send(i))
    {
      if ops[i].senders != 0 && C.Accepts(ops[i].cap, ops[i].queued) {
        DrainAndCount(i, cell, false, ops[i].queued + 1, ops[i].senders);
      }
    }

    /** The drop of a sender of arm `i`'s channel. */
    method DropOn(i: nat, cell: Selected)
      requires Valid() && LiveAreOf(cell) && i < |ops|
      modifies me, Arms(), Stacks(), cells
      ensures Kept(cell) && LiveAreOf(cell) && Views() == After(old(Views()), DropSender(i))
    {
      if ops[i].senders == 1 {
        DrainAndCount(i, cell, true, ops[i].queued, 0);
      } else if ops[i].senders != 0 {
        ops[i].senders := ops[i].senders - 1;
      }
    }

    /** One whole operation of another thread. */
    method Act(deed: Deed, cell: Selected)
      requires Valid() && LiveAreOf(cell)
      modifies me, Arms(), Stacks(), cells
      ensures Kept(cell) && LiveAreOf(cell)
      ensures Views() == After(old(Views()), deed) && (deed.Stray? ==> me.token)
    {
      match deed
      case Stray => me.token := true;
      case Send(i) => if i < |ops| { SendOn(i, cell); }
      case DropSender(i) => if i < |ops| { DropOn(i, cell); }
    }

    /** The arms are as ready as they were. */
    twostate predicate SameReady()
      reads Arms()
    {
      forall j: nat | j < |ops| :: ops[j].Ready() == old(ops[j].Ready())
    }

    /** Before each step the next gap, if any, takes place. */
    method Pause(gaps: seq<Gap>, ghost at: seq<seq<View>>, k: nat, cell: Selected) returns (next: nat)
      requires Valid() && LiveAreOf(cell) && k <= |gaps| && OnCourse(at, gaps) && Views() == at[k]
      modifies me, Arms(), Stacks(), cells
      ensures Kept(cell) && LiveAreOf(cell)
      ensures next == Past(k, 1, |gaps|) && Views() == at[next]
      ensures k < |gaps| && Stray in gaps[k] ==> me.token
      ensures k == |gaps| ==> me.token == old(me.token) && cell.value == old(cell.value) && SameReady()
    {
      next := k;
      if k < |gaps| {
        next := k + 1;
        var gap := gaps[k];
        for i := 0 to |gap|
          invariant Kept(cell) && LiveAreOf(cell)
          invariant Views() == AfterGap(old(Views()), gap[..i]) && (Stray in gap[..i] ==> me.token)
        {
          Act(gap[i], cell);
          assert gap[..i + 1] == gap[..i] + [gap[i]];
        }
        assert gap[..|gap|] == gap && Leads(at, gaps, k);
      }
    }

    /** Pushing a new node of this call on arm `i`'s stack. */
    method PushNode(i: nat, cell: Selected, node: SelectWaiter)
      requires Valid() && LiveAreOf(cell) && i < |ops| && cell in cells
      requires node in nodes && node.selected == cell && node.thread == me && node.caseId == i && !node.aborted
      requires forall j: nat | j < |ops| :: node !in Chain(j)
      modifies Stacks(), node
      ensures Valid() && LiveAreOf(cell) && Armed(cell, i)
      ensures forall j: nat | j < |ops| :: old(Armed(cell, j)) ==> Armed(cell, j)
    {
      assert ChainOk(i);
      ops[i].selectWaiters.Push(node);
      assert node in Chain(i);
      forall j: nat | j < |ops|
        ensures Chain(j) == if ops[j] == ops[i] then [node] + old(Chain(j)) else old(Chain(j))
      {
        assert old(Apart(j, i));
      }
      forall j: nat | j < |ops| ensures ChainOk(j) && LiveOf(Chain(j), cell, me, SameChannel(j)) {
        assert old(ChainOk(j)) && old(LiveOf(Chain(j), cell, me, SameChannel(j)));
      }
      forall j: nat, h: nat | j < |ops| && h < |ops| ensures Apart(j, h) { assert old(Apart(j, h)) && old(ChainOk(h)); }
    }

    /** `register_select` on one arm. */
    method RegisterArm(i: nat, cell: Selected)
      requires Valid() && LiveAreOf(cell) && i < |ops| && cell in cells
      modifies this`nodes, Stacks()
      ensures Valid() && LiveAreOf(cell) && Armed(cell, i) && Views() == old(Views())
      ensures forall j: nat | j < |ops| :: old(Armed(cell, j)) ==> Armed(cell, j)
      ensures old(nodes) <= nodes && fresh(nodes - old(nodes))
    {
      var node := new SelectWaiter(i, cell, me);
      assert forall j: nat | j < |ops| :: ChainOk(j) && node !in Chain(j);
      nodes := nodes + {node};
      assert forall j: nat | j < |ops| :: old(ChainOk(j)) ==> ChainOk(j);
      assert forall j: nat, h: nat | j < |ops| && h < |ops| :: old(Apart(j, h)) ==> Apart(j, h);
      PushNode(i, cell, node);
    }

    /** The register phase: afterwards every arm is armed. */
    method RegisterAll(cell: Selected, gaps: seq<Gap>, ghost at: seq<seq<View>>, k: nat) returns (next: nat)
      requires Valid() && LiveAreOf(cell) && Signalled(cell) && cell in cells
      requires k <= |gaps| && OnCourse(at, gaps) && Views() == at[k]
      modifies this`nodes, me, Arms(), Stacks(), cells
      ensures Valid() && LiveAreOf(cell) && Signalled(cell)
      ensures old(nodes) <= nodes && fresh(nodes - old(nodes))
      ensures ArmedUpTo(cell, |ops|)
      ensures next == Past(k, |ops|, |gaps|) && Views() == at[next]
      ensures k == |gaps| ==> me.token == old(me.token)
    {
      next := k;
      for i := 0 to |ops|
        invariant Valid() && LiveAreOf(cell) && Signalled(cell)
        invariant old(nodes) <= nodes && fresh(nodes - old(nodes))
        invariant ArmedUpTo(cell, i)
        invariant next == Past(k, i, |gaps|) && Views() == at[next]
        invariant k == |gaps| ==> me.token == old(me.token)
      {
        next := RegisterOne(i, cell, gaps, at, next);
      }
    }

    method RegisterOne(i: nat, cell: Selected, gaps: seq<Gap>, ghost at: seq<seq<View>>, k: nat) returns (next: nat)
      requires Valid() && LiveAreOf(cell) && Signalled(cell) && cell in cells && i < |ops|
      requires ArmedUpTo(cell, i) && k <= |gaps| && OnCourse(at, gaps) && Views() == at[k]
      modifies this`nodes, me, Arms(), Stacks(), cells
      ensures Valid() && LiveAreOf(cell) && Signalled(cell)
      ensures old(nodes) <= nodes && fresh(nodes - old(nodes))
      ensures ArmedUpTo(cell, i + 1)
      ensures next == Past(k, 1, |gaps|) && Views() == at[next]
      ensures k == |gaps| ==> me.token == old(me.token)
    {
      RegisterArm(i, cell);
      next := Pause(gaps, at, k, cell);
    }

    /**
     The re-check, in the order of the arms: `stop` is the first one heard ready, or `n`. It claims the
     call, if that is still open; unless the call is decided now, every arm was found not ready,
     and still is not.
     */
    method RecheckAll(cell: Selected, gaps: seq<Gap>, ghost at: seq<seq<View>>, k: nat)
      returns (next: nat, ghost stop: nat)
      requires Valid() && LiveAreOf(cell) && Signalled(cell) && cell in cells && ArmedUpTo(cell, |ops|)
      requires k <= |gaps| && OnCourse(at, gaps) && Views() == at[k]
      modifies me, Arms(), Stacks(), cells
      ensures Valid() && LiveAreOf(cell)
      ensures Announced(cell)
      ensures stop <= |ops| && next == Past(k, stop, |gaps|) && Views() == at[next]
      ensures forall h: nat | h < stop :: !ReadyIn(at[Past(k, h, |gaps|)], h)
      ensures stop < |ops| ==> ReadyIn(Views(), stop) && cell.value != UNSELECTED
      ensures old(cell.value) != UNSELECTED ==> cell.value == old(cell.value)
      ensures k == |gaps| && old(cell.value) == UNSELECTED && stop < |ops| ==> cell.value == stop
      ensures cell.value == UNSELECTED ==> forall j: nat | j < |ops| :: Quiet(cell, j)
      ensures k == |gaps| ==> me.token == old(me.token)
    {
      next := k;
      for i := 0 to |ops|
        invariant Valid() && LiveAreOf(cell) && Signalled(cell)
        invariant next == Past(k, i, |gaps|) && Views() == at[next]
        invariant forall h: nat | h < i :: !ReadyIn(at[Past(k, h, |gaps|)], h)
        invariant forall j: nat | j < |ops| :: Armed(cell, j)
        invariant forall j: nat | j < i :: Quiet(cell, j)
        invariant old(cell.value) != UNSELECTED ==> cell.value == old(cell.value)
        invariant k == |gaps| ==> me.token == old(me.token) && cell.value == old(cell.value)
      {
        if ops[i].Ready() {
          var won := cell.Claim(i);
          return next, i;
        }
        next := Pause(gaps, at, next, cell);
      }
      stop := |ops|;
    }

    /** `park`, with the call still open: until there is a token, which is taken; or for good. */
    method Park(cell: Selected, gaps: seq<Gap>, ghost at: seq<seq<View>>, k: nat) returns (next: nat, woken: bool)
      requires Valid() && LiveAreOf(cell) && Signalled(cell) && k <= |gaps| && OnCourse(at, gaps) && Views() == at[k]
      requires forall j: nat | j < |ops| :: Quiet(cell, j)
      modifies me, Arms(), Stacks(), cells
      ensures Valid() && LiveAreOf(cell) && k <= next <= |gaps| && Views() == at[next]
      ensures Announced(cell) && !me.token && (old(me.token) ==> woken && next == k && cell.value == old(cell.value))
      ensures !woken ==> next == |gaps| && cell.value == UNSELECTED && forall j: nat | j < |ops| :: !ops[j].Ready()
      ensures k == |gaps| ==> woken == old(me.token) && cell.value == old(cell.value)
    {
      next := k;
      while !me.token && next < |gaps|
        invariant Valid() && LiveAreOf(cell) && Signalled(cell) && k <= next <= |gaps|
        invariant Views() == at[next]
        invariant forall j: nat | j < |ops| :: Quiet(cell, j)
        invariant old(me.token) ==> next == k
        invariant next == k ==> me.token == old(me.token) && cell.value == old(cell.value)
        decreases |gaps| - next
      {
        next := Pause(gaps, at, next, cell);
      }
      woken := me.token;
      if !woken {
        forall j: nat | j < |ops| ensures !ops[j].Ready() { assert Quiet(cell, j); }
      }
      me.token := false;
    }

    /** The re-check, and if the call is still open, the park. */
    method RecheckAndPark(cell: Selected, gaps: seq<Gap>, ghost at: seq<seq<View>>, k: nat)
      returns (next: nat, woken: bool)
      requires Valid() && LiveAreOf(cell) && Signalled(cell) && cell in cells && ArmedUpTo(cell, |ops|)
      requires k <= |gaps| && OnCourse(at, gaps) && Views() == at[k]
      modifies me, Arms(), Stacks(), cells
      ensures Valid() && LiveAreOf(cell) && Announced(cell) && k <= next <= |gaps| && Views() == at[next]
      ensures cell.value == UNSELECTED ==> Past(k, |ops|, |gaps|) <= next
      ensures !woken ==> cell.value == UNSELECTED && Holds(Asleep, next == |gaps|)
      ensures k == |gaps| && !woken ==> !old(me.token)
      ensures k == |gaps| && woken && cell.value == UNSELECTED ==> old(me.token) && !me.token
    {
      ghost var stop;
      next, stop := RecheckAll(cell, gaps, at, k);
      woken := true;
      var open := cell.value == UNSELECTED;
      if open {
        next, woken := Park(cell, gaps, at, next);
      }
    }

    /** `abort_select` on one arm: its nodes of this call die. */
    method AbortArm(i: nat, cell: Selected)
      requires Valid() && LiveAreOf(cell) && i < |ops|
      modifies nodes
      ensures Valid() && LiveAreOf(cell) && Dead(i) && Views() == old(Views())
      ensures forall j: nat | j < |ops| :: old(Dead(j)) ==> Dead(j)
    {
      assert ChainOk(i) && LiveOf(Chain(i), cell, me, SameChannel(i));
      assert forall j: nat | j < |ops| :: ChainOk(j) && LiveOf(Chain(j), cell, me, SameChannel(j));
      ops[i].selectWaiters.Abort(cell);
      forall j: nat | j < |ops| ensures ChainOk(j) && LiveOf(Chain(j), cell, me, SameChannel(j)) {
        assert old(ChainOk(j)) && old(Apart(j, i)) && old(LiveOf(Chain(j), cell, me, SameChannel(j)));
        if ops[j] != ops[i] {
          forall w | w in Chain(j) ensures w !in old(Chain(i)) && w.next == old(w.next) { }
          assert old(ops[j].selectWaiters.Valid());
        }
      }
      forall j: nat, h: nat | j < |ops| && h < |ops| ensures Apart(j, h) { assert old(Apart(j, h)); }
      forall j: nat | j < |ops| && old(Dead(j)) ensures Dead(j) { assert old(Apart(j, i)); }
    }

    ghost predicate DeadUpTo(i: nat)
      reads this, Stacks(), nodes
      requires Valid() && i <= |ops|
    {
      forall j: nat | j < i :: Dead(j)
    }

    method AbortOne(i: nat, cell: Selected, gaps: seq<Gap>, ghost at: seq<seq<View>>, k: nat) returns (next: nat)
      requires Valid() && LiveAreOf(cell) && Announced(cell) && i < |ops| && DeadUpTo(i)
      requires k <= |gaps| && OnCourse(at, gaps) && Views() == at[k]
      modifies nodes, me, Arms(), Stacks(), cells
      ensures Valid() && LiveAreOf(cell) && Announced(cell) && DeadUpTo(i + 1)
      ensures next == Past(k, 1, |gaps|) && Views() == at[next]
      ensures old(cell.value) != UNSELECTED ==> cell.value == old(cell.value)
      ensures k == |gaps| ==> me.token == old(me.token) && cell.value == old(cell.value)
    {
      next := Pause(gaps, at, k, cell);
      AbortArm(i, cell);
    }

    /** The abort phase: afterwards no node of this call is live. */
    method AbortAll(cell: Selected, gaps: seq<Gap>, ghost at: seq<seq<View>>, k: nat) returns (next: nat)
      requires Valid() && LiveAreOf(cell) && Announced(cell) && k <= |gaps| && OnCourse(at, gaps) && Views() == at[k]
      modifies nodes, me, Arms(), Stacks(), cells
      ensures Valid() && Calm() && Announced(cell)
      ensures next == Past(k, |ops|, |gaps|) && Views() == at[next]
      ensures old(cell.value) != UNSELECTED ==> cell.value == old(cell.value)
      ensures k == |gaps| ==> me.token == old(me.token) && cell.value == old(cell.value)
    {
      next := k;
      for i := 0 to |ops|
        invariant Valid() && LiveAreOf(cell) && Announced(cell) && DeadUpTo(i)
        invariant next == Past(k, i, |gaps|) && Views() == at[next]
        invariant old(cell.value) != UNSELECTED ==> cell.value == old(cell.value)
        invariant k == |gaps| ==> me.token == old(me.token) && cell.value == old(cell.value)
      {
        next := AbortOne(i, cell, gaps, at, next);
      }
    }

    /** The next gap, and then `is_ready` on one arm. */
    method Ask(idx: nat, gaps: seq<Gap>, ghost at: seq<seq<View>>, k: nat, spare: Selected)
      returns (next: nat, ready: bool)
      requires Valid() && Calm() && LiveAreOf(spare) && idx < |ops|
      requires k <= |gaps| && OnCourse(at, gaps) && Views() == at[k]
      modifies me, Arms(), Stacks(), cells
      ensures Valid() && Calm() && LiveAreOf(spare) && ready == ops[idx].Ready() == ReadyIn(Views(), idx)
      ensures next == Past(k, 1, |gaps|) && Views() == at[next]
      ensures k == |gaps| ==> me.token == old(me.token)
    {
      assert forall j: nat | j < |ops| :: Dead(j);
      next := Pause(gaps, at, k, spare);
      ready := ops[idx].Ready();
    }

    /**
     What the arm in place `h` of a sweep is heard to answer that began at gap `k`: it is asked after
     `h + 1` gaps.
     */
    ghost predicate Heard(at: seq<seq<View>>, k: nat, start: nat, h: nat)
      requires 0 < |ops| && k < |at|
    {
      var views := at[Past(k, h + 1, |at| - 1)];
      |views| == |ops| && ReadyIn(views, S.Arm(start, h, |ops|))
    }

    /** No arm in a place below `i` is heard ready. */
    ghost predicate Silent(at: seq<seq<View>>, k: nat, start: nat, i: nat)
      requires 0 < |ops| && k < |at|
    {
      forall h: nat | h < i :: !Heard(at, k, start, h)
    }

    /** The answer of a sweep, and how many arms it has asked: up to the first one heard ready. */
    ghost predicate SweptTo(at: seq<seq<View>>, k: nat, start: nat, won: Option<nat>, asked: nat)
      requires 0 < |ops| && k < |at|
    {
      match won
      case Some(arm) =>
        && 0 < asked <= |ops| && arm == S.Arm(start, asked - 1, |ops|)
        && Heard(at, k, start, asked - 1) && Silent(at, k, start, asked - 1)
      case None => asked == |ops| && Silent(at, k, start, |ops|)
    }

    /**
     What each arm answers in such a sweep: when it is asked, or, if it is not asked any more, at
     the beginning.
     */
    ghost function AllHeard(at: seq<seq<View>>, k: nat, start: nat, asked: nat): (heard: seq<bool>)
      requires 0 < |ops| && k < |at| && |at[k]| == |ops|
      ensures |heard| == |ops|
    {
      seq(|ops|, j requires 0 <= j < |ops| =>
        if exists h: nat :: h < asked && h < |ops| && S.Arm(start, h, |ops|) == j
        then exists h: nat :: h < asked && h < |ops| && S.Arm(start, h, |ops|) == j && Heard(at, k, start, h)
        else ReadyIn(at[k], j))
    }

    lemma HeardAt(at: seq<seq<View>>, k: nat, start: nat, asked: nat, h: nat)
      requires 0 < |ops| && k < |at| && |at[k]| == |ops| && h < asked <= |ops|
      ensures AllHeard(at, k, start, asked)[S.Arm(start, h, |ops|)] == Heard(at, k, start, h)
    {
      var place := S.ArmIsReached(start, S.Arm(start, h, |ops|), |ops|);
    }

    /** The answer of a sweep is the first arm, in cyclic order from the counter, that was heard ready. */
    lemma SweepIsFirst(at: seq<seq<View>>, k: nat, start: nat, arm: nat, asked: nat)
      requires 0 < |ops| && k < |at| && |at[k]| == |ops|
      requires SweptTo(at, k, start, Some(arm), asked)
      ensures S.FirstReady(AllHeard(at, k, start, asked), start, arm)
    {
      var heard := AllHeard(at, k, start, asked);
      forall h: nat | h < asked ensures heard[S.Arm(start, h, |ops|)] == Heard(at, k, start, h) {
        HeardAt(at, k, start, asked, h);
      }
      assert S.NoneBefore(heard, start, asked - 1);
    }

    /** An arm of another capacity than one that is ready stays so, whatever others do. */
    ghost predicate LastingIn(views: seq<View>, j: nat)
      requires |views| == |ops| && j < |ops|
    {
      ops[j].cap != 1 && ReadyIn(views, j)
    }

    /** Arms on one channel stand alike. */
    ghost predicate Coherent(views: seq<View>)
      requires |views| == |ops|
    {
      forall i: nat, j: nat | i < |ops| && j < |ops| && ops[i] == ops[j] :: views[i] == views[j]
    }

    lemma {:induction false} LastsInGap(views: seq<View>, gap: Gap, j: nat)
      requires |views| == |ops| && j < |ops| && Coherent(views) && LastingIn(views, j)
      ensures Coherent(AfterGap(views, gap)) && LastingIn(AfterGap(views, gap), j)
      decreases |gap|
    {
      if gap != [] {
        LastsInGap(views, gap[..|gap| - 1], j);
      }
    }

    lemma {:induction false} Lasts(at: seq<seq<View>>, gaps: seq<Gap>, next: nat, j: nat)
      requires OnCourse(at, gaps) && next <= |gaps| && j < |ops| && Coherent(at[0]) && LastingIn(at[0], j)
      ensures Coherent(at[next]) && LastingIn(at[next], j)
      decreases next
    {
      if next != 0 {
        Lasts(at, gaps, next - 1, j);
        assert Leads(at, gaps, next - 1);
        LastsInGap(at[next - 1], gaps[next - 1], j);
      }
    }

    /** The first sweep of a call hears every arm whose readiness lasts. */
    lemma LastingIsHeard(at: seq<seq<View>>, gaps: seq<Gap>, start: nat, asked: nat, j: nat)
      requires OnCourse(at, gaps) && 0 < |ops| && asked <= |ops| && j < |ops|
      requires Coherent(at[0]) && LastingIn(at[0], j)
      ensures AllHeard(at, 0, start, asked)[j] && !Silent(at, 0, start, |ops|)
    {
      var place := S.ArmIsReached(start, j, |ops|);
      Lasts(at, gaps, Past(0, place + 1, |gaps|), j);
      assert Heard(at, 0, start, place);
      if place < asked { HeardAt(at, 0, start, asked, place); }
    }

    /** The arm in place `i` of the sweep is asked. */
    method AskNext(idx: nat, gaps: seq<Gap>, ghost at: seq<seq<View>>, m: nat, spare: Selected, ghost k: nat,
                   ghost start: nat, ghost i: nat)
      returns (next: nat, ready: bool)
      requires Valid() && Calm() && LiveAreOf(spare) && i < |ops| && idx == S.Arm(start, i, |ops|)
      requires k <= |gaps| && m == Past(k, i, |gaps|) && OnCourse(at, gaps) && Views() == at[m]
      modifies me, Arms(), Stacks(), cells
      ensures Valid() && Calm() && LiveAreOf(spare) && ready == ops[idx].Ready() == Heard(at, k, start, i)
      ensures next == Past(k, i + 1, |gaps|) && Views() == at[next]
      ensures m == |gaps| ==> me.token == old(me.token)
    {
      next, ready := Ask(idx, gaps, at, m, spare);
    }

    /**
     The try phase. Each arm is asked in turn, in cyclic order from the counter, with a gap before
     each, and the first one heard ready is the answer; `asked` is how many were asked.
     */
    method Sweep(counter: S.FairnessCounter, gaps: seq<Gap>, ghost at: seq<seq<View>>, k: nat)
      returns (next: nat, won: Option<nat>, ghost asked: nat)
      requires Valid() && Calm() && k <= |gaps| && OnCourse(at, gaps) && Views() == at[k]
      modifies counter, me, Arms(), Stacks(), cells
      ensures Valid() && Calm() && counter.next == old(counter.next) + 1
      ensures SweptTo(at, k, old(counter.next), won, asked)
      ensures next == Past(k, asked, |gaps|) && Views() == at[next]
      ensures won.Some? ==> ops[won.value].Ready()
      ensures k == |gaps| ==> me.token == old(me.token)
    {
      var n := |ops|;
      var before := counter.FetchAdd();
      var start := before % n;
      var spare := Spare();
      next := k;
      for i := 0 to n
        invariant Valid() && Calm() && LiveAreOf(spare) && counter.next == before + 1
        invariant next == Past(k, i, |gaps|) && Views() == at[next]
        invariant Silent(at, k, before, i)
        invariant k == |gaps| ==> me.token == old(me.token)
      {
        var idx, ready := (start + i) % n, false;
        S.SameArm(before, i, n);
        next, ready := AskNext(idx, gaps, at, next, spare, k, before, i);
        if ready {
          return next, Some(idx), i + 1;
        }
      }
      won, asked := None, n;
    }

    /** A cell that no node refers to. */
    method Spare() returns (spare: Selected)
      requires Valid() && Calm()
      ensures fresh(spare) && Valid() && Calm() && LiveAreOf(spare)
    {
      spare := new Selected();
      forall j: nat | j < |ops| ensures ChainOk(j) && LiveOf(Chain(j), spare, me, SameChannel(j)) {
        assert old(ChainOk(j)) && old(Dead(j));
      }
    }

    /** A new `selected`, known to be one of this thread's. */
    method NewCell() returns (cell: Selected)
      requires Valid() && Calm()
      modifies this`cells
      ensures fresh(cell) && cell.value == UNSELECTED && cells == old(cells) + {cell}
      ensures Valid() && LiveAreOf(cell) && Signalled(cell)
    {
      cell := new Selected();
      cells := cells + {cell};
      forall j: nat | j < |ops| ensures ChainOk(j) && LiveOf(Chain(j), cell, me, SameChannel(j)) {
        assert old(ChainOk(j)) && old(Dead(j));
      }
      forall j: nat, h: nat | j < |ops| && h < |ops| ensures Apart(j, h) { assert old(Apart(j, h)); }
    }

    /**
     Register, re-check, park, abort: one turn in which the try phase found nothing. The answer is
     what the new `selected` says in the end.
     */
    method Wait(gaps: seq<Gap>, ghost at: seq<seq<View>>, k: nat)
      returns (next: nat, turn: Turn, ghost selected: Selected)
      requires Valid() && Calm() && k <= |gaps| && OnCourse(at, gaps) && Views() == at[k]
      modifies this`cells, this`nodes, nodes, me, Arms(), Stacks(), cells
      ensures Valid() && Footprint()
      ensures Past(k, 2 * |ops|, |gaps|) <= next <= |gaps| && Views() == at[next]
      ensures if selected.value != UNSELECTED then turn == Won(selected.value) else turn.Again? || turn.Asleep?
      ensures Holds(turn, next == |gaps|)
      ensures k == |gaps| ==> (turn.Again? ==> old(me.token) && !me.token) && (turn.Asleep? ==> !old(me.token))
    {
      var cell := NewCell();
      selected := cell;
      next := RegisterAll(cell, gaps, at, k);
      var woken;
      next, woken := RecheckAndPark(cell, gaps, at, next);
      if !woken {
        return next, Asleep, cell;
      }
      next := AbortAll(cell, gaps, at, next);
      turn := if cell.value != UNSELECTED then Won(cell.value) else Again;
    }

    /**
     What one round hears that begins at gap `k`: the answer of its sweep is the first arm heard
     ready, and if there is none, no answer of its sweep.
     */
    ghost predicate Heeds(at: seq<seq<View>>, k: nat, start: nat, turn: Turn, asked: nat)
      requires 0 < |ops| && k < |at|
    {
      Silent(at, k, start, |ops|) || (turn.Won? && SweptTo(at, k, start, Some(turn.arm), asked))
    }

    /**
     The rounds of a call began at these gaps, the first with the call, and the last one came to this
     end. Every round but the last heard no arm ready, and had the gaps of a whole round.
     */
    ghost predicate Told(at: seq<seq<View>>, first: nat, rounds: seq<nat>, turn: Turn, asked: nat, end: nat)
      requires 0 < |ops|
      decreases |rounds|
    {
      if rounds == [] then turn.Again? && end == 0
      else
        var c := |rounds| - 1;
        && rounds[c] < |at| && Heeds(at, rounds[c], first + c, turn, asked)
        && (turn.Again? ==> Past(rounds[c], 3 * |ops|, |at| - 1) <= end)
        && Told(at, first, rounds[..c], Again, 0, rounds[c])
    }

    /**
     `select_impl` without a deadline, in any interference. `rounds` says at which gap each round of its
     loop began, and `end` where the call ended. Every round takes one from the fairness counter; no
     round but the last hears an arm ready; if the last one does, the answer is the first such arm in
     cyclic order from the counter. It is always an arm, and one that is ready. The call sleeps
     for good only when no arm is ready. And it leaves no live node behind.
     */
    method SelectImpl(counter: S.FairnessCounter, gaps: seq<Gap>)
      returns (r: Turn, ghost rounds: seq<nat>, ghost asked: nat, ghost end: nat)
      requires Valid() && Calm()
      modifies counter, this`cells, this`nodes, nodes, me, Arms(), Stacks(), cells
      ensures Valid() && !r.Again? && Footprint() && counter.next == old(counter.next) + |rounds|
      ensures end <= |gaps| && Views() == Course(old(Views()), gaps)[end]
      ensures Told(Course(old(Views()), gaps), old(counter.next), rounds, r, asked, end)
      ensures Holds(r, end == |gaps|)
    {
      ghost var at := Course(Views(), gaps);
      CourseHolds(Views(), gaps);
      r, rounds, asked, end := Rounds(counter, gaps, at, counter.next);
    }

    /** The loop, with the counter at `first`. */
    method Rounds(counter: S.FairnessCounter, gaps: seq<Gap>, ghost at: seq<seq<View>>, ghost first: nat)
      returns (r: Turn, ghost rounds: seq<nat>, ghost asked: nat, ghost end: nat)
      requires Valid() && Calm() && OnCourse(at, gaps) && Views() == at[0] && first == counter.next
      modifies counter, this`cells, this`nodes, nodes, me, Arms(), Stacks(), cells
      ensures Valid() && !r.Again? && Footprint() && counter.next == first + |rounds|
      ensures end <= |gaps| && Views() == at[end]
      ensures Told(at, first, rounds, r, asked, end)
      ensures Holds(r, end == |gaps|)
    {
      var k: nat := 0;
      rounds := [];
      while true
        invariant Valid() && Calm() && k <= |gaps| && Footprint() && Views() == at[k]
        invariant counter.next == first + |rounds| && Told(at, first, rounds, Again, 0, k)
        decreases |gaps| - k, if me.token then 1 else 0
      {
        k, r, rounds, asked := NextRound(counter, gaps, at, k, first, rounds);
        if !r.Again? {
          return r, rounds, asked, k;
        }
      }
    }

    /** The round after these. */
    method NextRound(counter: S.FairnessCounter, gaps: seq<Gap>, ghost at: seq<seq<View>>, k: nat, ghost first: nat,
                     ghost before: seq<nat>)
      returns (next: nat, turn: Turn, ghost rounds: seq<nat>, ghost asked: nat)
      requires Valid() && Calm() && k <= |gaps| && OnCourse(at, gaps) && Views() == at[k]
      requires counter.next == first + |before| && Told(at, first, before, Again, 0, k)
      modifies counter, this`cells, this`nodes, nodes, me, Arms(), Stacks(), cells
      ensures Valid() && counter.next == first + |rounds| && Footprint()
      ensures k <= next <= |gaps| && Views() == at[next]
      ensures Told(at, first, rounds, turn, asked, next) && (turn.Again? ==> asked == 0)
      ensures Holds(turn, next == |gaps|)
      ensures turn.Again? ==> k < next || (old(me.token) && !me.token)
    {
      next, turn, asked := Round(counter, gaps, at, k);
      rounds := before + [k];
      assert rounds[..|before|] == before;
      if turn.Again? {
        asked := 0;
      }
    }

    /**
     What an answer is worth. An arm is ready, and no live node is left; a sleeper has come to the
     end of the gaps without a token, and no arm is ready.
     */
    ghost predicate Holds(turn: Turn, atEnd: bool)
      reads this, Stacks(), nodes, Arms(), me
      requires Valid()
    {
      match turn
      case Won(arm) => Calm() && arm < |ops| && Answers(arm)
      case Asleep => atEnd && !me.token && forall j: nat | j < |ops| :: !ops[j].Ready()
      case Again => Calm()
    }

    /** One round of the loop: the try phase, and if it finds nothing, a wait. */
    method Round(counter: S.FairnessCounter, gaps: seq<Gap>, ghost at: seq<seq<View>>, k: nat)
      returns (next: nat, turn: Turn, ghost asked: nat)
      requires Valid() && Calm() && k <= |gaps| && OnCourse(at, gaps) && Views() == at[k]
      modifies counter, this`cells, this`nodes, nodes, me, Arms(), Stacks(), cells
      ensures Valid() && counter.next == old(counter.next) + 1 && Footprint()
      ensures k <= next <= |gaps| && Views() == at[next]
      ensures Heeds(at, k, old(counter.next), turn, asked)
      ensures Holds(turn, next == |gaps|)
      ensures turn.Again? ==> Past(k, 3 * |ops|, |gaps|) <= next && (k < next || (old(me.token) && !me.token))
    {
      var won;
      next, won, asked := Sweep(counter, gaps, at, k);
      if won.Some? {
        turn := Won(won.value);
      } else {
        ghost var selected;
        next, turn, selected := Wait(gaps, at, next);
      }
    }

    method SetQueued(i: nat, queued: nat)
      requires Valid() && Calm() && i < |ops|
      modifies ops[i]
      ensures Valid() && Calm()
    {
      ops[i].queued := queued;
      forall j: nat | j < |ops| ensures Dead(j) { assert old(Dead(j)); }
    }

    /** Between two calls the caller receives what it likes, but not from arm `arm`'s channel. */
    method Receive(left: seq<nat>, arm: nat)
      requires Valid() && Calm() && |left| == |ops| && arm < |ops| && Lasting(arm)
      modifies Arms()
      ensures Valid() && Calm() && Lasting(arm)
    {
      for j := 0 to |ops|
        invariant Valid() && Calm() && Lasting(arm)
      {
        if ops[j] != ops[arm] && left[j] < ops[j].queued {
          SetQueued(j, left[j]);
        }
      }
    }

    /** A call while the readiness of arm `arm` lasts: it answers in its first round. */
    method SelectLasting(counter: S.FairnessCounter, gaps: seq<Gap>, ghost arm: nat)
      returns (won: nat, ghost heard: seq<bool>)
      requires Valid() && Calm() && arm < |ops| && Lasting(arm)
      modifies counter, this`cells, this`nodes, nodes, me, Arms(), Stacks(), cells
      ensures Valid() && Calm() && Lasting(arm) && Footprint() && counter.next == old(counter.next) + 1
      ensures |heard| == |ops| && heard[arm] && S.FirstReady(heard, old(counter.next), won)
    {
      ghost var at, first := Course(Views(), gaps), counter.next;
      CourseHolds(Views(), gaps);
      var answer;
      ghost var rounds, asked, end;
      answer, rounds, asked, end := SelectImpl(counter, gaps);
      Lasts(at, gaps, end, arm);
      OnlyOneRound(at, gaps, first, rounds, answer, asked, end, arm);
      won, heard := answer.arm, AllHeard(at, 0, first, asked);
    }

    /** With an arm whose readiness lasts there is only one round, and it hears that arm. */
    lemma OnlyOneRound(at: seq<seq<View>>, gaps: seq<Gap>, first: nat, rounds: seq<nat>, r: Turn, asked: nat, end: nat,
                       arm: nat)
      requires OnCourse(at, gaps) && 0 < |ops| && arm < |ops| && Coherent(at[0]) && LastingIn(at[0], arm)
      requires !r.Again? && Told(at, first, rounds, r, asked, end)
      ensures |rounds| == 1 && r.Won?
      ensures AllHeard(at, 0, first, asked)[arm] && S.FirstReady(AllHeard(at, 0, first, asked), first, r.arm)
    {
      FirstRound(at, first, rounds, r, asked, end);
      LastingIsHeard(at, gaps, first, 0, arm);
      assert |rounds| == 1;
      LastingIsHeard(at, gaps, first, asked, arm);
      SweepIsFirst(at, 0, first, r.arm, asked);
    }

    lemma {:induction false} FirstRound(at: seq<seq<View>>, first: nat, rounds: seq<nat>, r: Turn, asked: nat, end: nat)
      requires 0 < |ops| && rounds != [] && Told(at, first, rounds, r, asked, end)
      ensures rounds[0] == 0 < |at|
      ensures if |rounds| == 1 then Heeds(at, 0, first, r, asked) else Silent(at, 0, first, |ops|)
      decreases |rounds|
    {
      if |rounds| > 1 {
        FirstRound(at, first, rounds[..|rounds| - 1], Again, 0, rounds[|rounds| - 1]);
      }
    }

    /**
     Bounded starvation, on the loop itself: as many calls one after the other as there are arms,
     under any interference, with anything received from other channels in between. An arm
     that is ready all the time, of a capacity other than one, is among the answers.
     */
    method SelectMany(counter: S.FairnessCounter, gaps: seq<seq<Gap>>, left: seq<seq<nat>>, arm: nat)
      returns (won: seq<nat>)
      requires Valid() && Calm() && arm < |ops| == |gaps| == |left| && Lasting(arm)
      requires forall c: nat | c < |left| :: |left[c]| == |ops|
      modifies counter, this`cells, this`nodes, nodes, me, Arms(), Stacks(), cells
      ensures Valid() && Calm() && counter.next == old(counter.next) + |ops|
      ensures |won| == |ops| && arm in won
    {
      won := [];
      ghost var ready: seq<seq<bool>> := [];
      for c := 0 to |ops|
        invariant Valid() && Calm() && Lasting(arm) && Footprint()
        invariant counter.next == old(counter.next) + c && |won| == |ready| == c
        invariant forall d: nat | d < c :: |ready[d]| == |ops| && ready[d][arm]
        invariant forall d: nat | d < c :: S.FirstReady(ready[d], old(counter.next) + d, won[d])
      {
        var answer;
        ghost var heard;
        answer, heard := SelectLasting(counter, gaps[c], arm);
        won, ready := won + [answer], ready + [heard];
        Receive(left[c], arm);
      }
      S.BoundedStarvation(old(counter.next), ready, won, arm);
    }

    /** Cells and nodes are only added, and only new ones. */
    twostate predicate Footprint()
      reads this
    {
      old(nodes) <= nodes && fresh(nodes - old(nodes)) && old(cells) <= cells && fresh(cells - old(cells))
    }
  }

  datatype Turn = Won(arm: nat) | Asleep | Again
}
