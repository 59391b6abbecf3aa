# Verified model of the channel core

This project models the lock-free core of a Rust crate of selectable channels, and proves
what that core is for: the bounded MPMC ring hands every value over exactly once, blocked
receivers and `select!` calls miss no wakeup, the broadcast ring accounts for every message it
loses, and the watch channel shows a receiver nothing older than what it was told about. Where
the code does not keep a promise, it says on which input, and proves the exact condition under
which it does.

`dafny verify dfyconfig.toml` checks everything.

## How it is built

There are two kinds of modules.

**Transition systems.** Each atomic load, compare-exchange, store, swap, lock section and
unpark of the source is one step, for any number of threads. `Next(s, a)` is a deterministic
function of a state and an action; a schedule is a sequence of actions; so a statement about
`Exec(Init(...), schedule)` for every schedule is a statement about every interleaving. An action
that is not possible leaves the state alone. Fields listed after a comment `history` record who
did what; no step reads them to decide anything.

Invariants alone do not say that anything happens. So the modules on undisturbed operations let
one thread run alone, from every state in which the invariant holds, and prove that it gets to
its end, what it has done there, and that a sleeper it woke then goes on and answers. `Leads(s, r, t)`
says that steps of thread `t` alone lead from `s` to `r`.

| module | what it is |
|---|---|
| `Ring`, `RingProperties`, `RingProgress` | the bounded ring: invariant, safety, progress, conservation |
| `RingCalls` | whole calls on the ring, for every capacity, and what is special about one |
| `Mpsc`, `MpscProof`, `MpscAnswers` | the bounded MPSC channel: ring, waiter list, counts, park tokens; what its answers mean |
| `MpscCalls`, `MpscWhole` | its operations when nobody disturbs them: none gets stuck, and what whole ones do |
| `WaiterStack`, `ForgottenCall`, `StackCalls` | the stacks of select waiters, pointer by pointer; whole pushes, aborts and drains |
| `SelectCall`, `SelectCallProof`, `SelectReady`, `SelectSpurious` | one selecting thread over MPSC arms, against any senders |
| `SelectAlone`, `SelectSends` | the selecting thread, and a sender, when nobody disturbs them |
| `Broadcast`, `BroadcastProof`, `BroadcastTorn`, `BroadcastCalls` | the broadcast ring and its private cursors; undisturbed operations |
| `Watch`, `WatchProof`, `WatchSelect`, `WatchWakeup` | the watch channel: version, cursors, waiter list, tokens, select waiters |
| `WatchCalls` | its operations when nobody disturbs them |

**Objects.** Classes with the source's own fields, updated in place by methods with the source's
own loops. Where other threads can move in the middle of a method, they do: the caller passes a
sequence of *gaps* (what the others do between two accesses), and the method is proved for every
such sequence. Loops that wait for others therefore terminate, and a method whose thread would
sleep, or spin, for good says so in its result. What a gap does to the channel is a function, the
states between the gaps are its trace, and the contracts say at which point of the trace an answer
was found.

| module | what it is |
|---|---|
| `RingMemory` | the ring's array and cursors, kept in step with the transition system |
| `Waiters` | the linked stack of select waiters, the list of blocked receivers, and the wake loops |
| `MpscMemory` | the MPSC channel with its waiter list: `send`, `try_recv`, `recv`, `drop` |
| `Select`, `SelectMemory` | the fairness sweep and the macro's dispatch; `select_impl` over real stacks |
| `BroadcastMemory` | the broadcast channel and receiver, against the full log of messages |
| `WatchMemory` | the watch channel and receiver with the waiter list |

Memory is sequentially consistent and counters are unbounded naturals. `park` may return at any
time, and any thread may get a stray token.

## What turned out not to hold

Each of these has a lemma that gives the failing run, and one that gives the exact condition.

* **Capacity one.** In a ring of capacity one the number for "full" and the number for "free
  again" coincide (src/internals.rs:95 and src/internals.rs:124). Every push is then accepted, over
  an unread value if there is one, and after two pushes in a row an undisturbed pop goes round its
  loop forever. One is the only capacity at which the ring is not a bounded queue, loses values, or
  does not return: `RingCalls.QueueExactlyUnlessCapacityOne`,
  `RingCalls.SafeExactlyUnlessCapacityOne`, `RingCalls.CallsEndExactlyUnlessCapacityOne`. The
  theorems about interleaved accesses are stated for two slots and more; the objects behave, with
  one slot, as `RingCalls.WholePush` and `RingCalls.PopEndsExactlyUnlessStuck` say.
* **Delivered messages of the broadcast ring.** `send` stores the value before the sequence number
  (src/bounded_broadcast.rs:175-176). Between the two stores a reader can take the message of the
  next lap under its own ticket's number (`BroadcastTorn.TornDeliversWrong`). A delivery is right
  exactly if, at the load of the value, no sender of another ticket stood between its two stores
  into that slot (`BroadcastProof.DeliveredTicketExactly`); all deliveries are right, in all runs
  with so many sends, exactly up to the capacity
  (`BroadcastTorn.DeliversRightExactlyUpToCapacity`); and one step for both stores would repair it
  (`BroadcastTorn.DeliversRightExactlyWhenFused`).
* **Several selecting threads on one channel.** The comment on `wake_select_one`
  (src/waiter.rs:287-288) says that the nodes freed without being woken belong to a call that
  already has a winner. With the nodes of two calls on the stack, one call is woken and the other's
  node is freed; that call is never selected again (`ForgottenCall.SecondCallIsForgotten`). A drain
  forgets nobody exactly if the open nodes on the stack are all of one call
  (`Waiters.ForgetsNobodyExactlyForOneCall`). Select is therefore proved for a sole consumer.
* **The answer of select need not be ready.** A sender that published before the call may claim one
  of its nodes afterwards, when its value has been received (`SelectSpurious.LateWakeAnswersUnready`).
  All answers are ready exactly if calls begin with no sender inside an operation
  (`SelectSpurious.ReadyExactlyIfCallsBeginClean`).
* **A watch arm that select answers with need not have changed.** In the same way a sender that
  bumped the version earlier may claim a node afterwards, and `complete_recv` then parks
  (`WatchSelect.LateClaimCompletionSleeps`). A claim means that something is pending exactly if
  nodes are pushed with no sender inside an operation
  (`WatchSelect.PendingExactlyIfPushedClean`).
* **A change between a watch registration's loads and its push.** `register_select` loads the version
  before it pushes its node (src/watch.rs:384-390). A whole `send` in between is not seen by the
  loads and finds no node to claim (`WatchCalls.ChangeBeforeThePush`): a node is claimed exactly if
  something happened since its push (`WatchWakeup.ClaimedExactlyIfOverdue`). No wakeup is lost,
  because the call re-checks its arms before it parks (`WatchWakeup.SelectSleeperHasNothing`).
* **Waking one plain receiver.** A plain waiter's case is `UNSELECTED`, so claiming it writes what
  is already there (src/waiter.rs:93, src/waiter.rs:144-150) and a second wake-up finds the same
  waiter again. `Waiters.RecvWaiterList.WakeOneTwice` gives the exact condition. The MPSC channel
  uses the wake-all path, for which no wakeup is lost.
* **A further lag after a lag.** src/bounded_broadcast.rs:18 promises none; there is one exactly if
  something is sent in between (`BroadcastMemory.LagsAgainExactlyIfSent`).
* **A mutex in the watch channel.** src/watch.rs:23 says that there is none; its list of blocked
  receivers has one (src/waiter.rs:78), and it is modelled as such.

## Model

| member | source | states |
|---|---|---|
| `Ring.StepInv` | src/internals.rs:71-132 | every atomic access of `try_push` and `try_pop`, by any thread, keeps the slot protocol: each slot's sequence number and content are exactly what the last ticket that used it says |
| `Ring.ReachableInv` | src/internals.rs:50-132 | the protocol holds after every interleaving of any number of threads, for two slots and more |
| `RingProperties.RefinesBoundedQueue` | src/internals.rs:71-132 | each action of a run is one operation of a bounded FIFO queue or leaves the queue alone; a push takes effect only with room, a pop only on the front item |
| `RingProperties.PopReturnsThePushedValue` | src/internals.rs:86-120 | a finished push has put its value in the history at its ticket, a finished pop returns the history's value at its ticket, and two finished calls of different threads have different tickets |
| `RingProperties.TicketsAreNeverReused` | src/internals.rs:82-120 | once a push (a pop) at a ticket has returned, no call of any thread is ever at that ticket again, in any continuation |
| `RingProperties.PopsAreAPrefixOfPushes` | src/internals.rs:106-132 | popped values in ticket order are a prefix of the accepted values in ticket order |
| `RingProperties.ExclusiveOwnership` | src/internals.rs:82-96 | between compare-exchange and sequence store nobody else owns the slot; a producer finds it vacant, a consumer finds its ticket's value; nothing is overwritten unread or read uninitialised |
| `RingProperties.CapacityBound` | src/internals.rs:145-156 | never more than the capacity is pushed and not popped |
| `RingProperties.ZeroCapacity` | src/internals.rs:72-74 | a ring of capacity zero never changes |
| `RingProperties.PushRefusalIsJustified` | src/internals.rs:77-101 | `try_push` gives up exactly if `tail` is still the loaded position and the ticket one lap before is not released |
| `RingProperties.PopRefusalIsJustified` | src/internals.rs:111-130 | `try_pop` gives up exactly if `head` is still the loaded position and that ticket is unpublished |
| `RingProgress.RetryMeansOvertaken` | src/internals.rs:84-102 | a step of `try_push` or `try_pop` that goes back to the top of its loop does so because its position was overtaken |
| `RingProgress.RetriesArePaidFor` | src/internals.rs:76-131 | in every run the repetitions of a call, also of a refused one, never outnumber the tickets others claimed since it began |
| `RingProgress.UndisturbedCallTerminates` | src/internals.rs:76-131 | with two slots and more, from any reachable state a call that nobody disturbs is finished after seven steps |
| `RingProgress.DropAccountsForEveryValue` | src/internals.rs:159-174 | when nobody is inside an operation, values popped and values dropped together are exactly the values accepted, each once and in order |
| `RingCalls.WholePush` | src/internals.rs:71-103 | a whole push ends within five steps; it is accepted exactly if there is room or there is one slot, and then the value is last in the queue; over an unread value it is a fault |
| `RingCalls.WholePop` | src/internals.rs:106-132 | a whole pop on a ring that is not stuck ends within five steps with the front of the queue, or nothing if that is empty |
| `RingCalls.PopEndsExactlyUnlessStuck` | src/internals.rs:110-131 | a whole pop ends if and only if there is not a single slot with two or more values pushed and not popped; otherwise it changes nothing, forever |
| `RingCalls.LooksEmpty` | src/internals.rs:135-141 | between whole calls `is_empty` is true exactly if the queue is empty or the ring is stuck |
| `RingCalls.CapacityOneOverwrites` | src/internals.rs:95-124 | with capacity one there is a run of two accepted pushes in which the second overwrites the unread first value |
| `RingCalls.CapacityOneSpins` | src/internals.rs:110-131 | with capacity one there is a run after which an undisturbed pop never ends |
| `RingCalls.SafeExactlyUnlessCapacityOne` | src/internals.rs:71-132 | no run overwrites an unread value or reads an empty slot, if and only if the capacity is not one |
| `RingCalls.CallsEndExactlyUnlessCapacityOne` | src/internals.rs:76-131 | from every reachable state every undisturbed call ends, if and only if the capacity is not one |
| `RingCalls.QueueExactlyUnlessCapacityOne` | src/internals.rs:71-132 | every action of every run is a step of a bounded queue, if and only if the capacity is not one |
| `RingMemory.LockFreeBoundedRing.constructor` | src/internals.rs:50-63 | the fresh array and cursors are the initial state |
| `RingMemory.LockFreeBoundedRing.Move` | src/internals.rs:71-132 | the in-place accesses on the array and the cursors carry out exactly the transition system |
| `RingMemory.LockFreeBoundedRing.TryPush` | src/internals.rs:71-103 | under any interference it terminates; success has put the value at a ticket claimed during the call, failure hands it back; undisturbed it is the push of a bounded queue |
| `RingMemory.LockFreeBoundedRing.TryPop` | src/internals.rs:106-132 | under any interference it terminates and returns the value pushed for the ticket it claimed; undisturbed it is the pop of a queue |
| `RingMemory.LockFreeBoundedRing.IsEmpty` | src/internals.rs:135-141 | true exactly if the head ticket is unpublished; with one slot, between whole calls, if the queue is empty or the ring stuck |
| `RingMemory.LockFreeBoundedRing.IsFull` | src/internals.rs:145-156 | while nobody moves, true exactly if the queue has as many items as the capacity; with one slot, as many or more |
| `RingMemory.LockFreeBoundedRing.Drop` | src/internals.rs:159-174 | the loop over `head..tail` destroys exactly the unpopped values, and leaves their slots empty; with one slot, between whole calls, only the last one pushed |
| `MpscProof.NextInv` | src/bounded_mpsc.rs:88-184 | every step of senders, receivers and droppers keeps the invariant that ties tickets, waiter list, senders' snapshots and park tokens together |
| `MpscProof.ReachableInv` | src/bounded_mpsc.rs:88-184 | that invariant holds in every reachable state, for any number of senders and receivers |
| `MpscProof.NoLostWakeup` | src/bounded_mpsc.rs:159-184 | with no sender inside `send` or a last `drop`, a receiver asleep in `recv` faces an empty queue and a live sender |
| `MpscProof.AsleepMeansOwed` | src/waiter.rs:164-187 | at every moment, a receiver asleep in front of a published head is still owed an unpark by a thread inside `send`, and one asleep without senders by the last dropper |
| `MpscProof.DrainBeforeDisconnect` | src/bounded_mpsc.rs:141-184 | a receive that began without senders answers Disconnected only if every claimed ticket has been popped |
| `MpscAnswers.TheRingRuns` | src/bounded_mpsc.rs:88-184 | the ring inside every run of the channel goes through a run of the ring alone, so that everything proved of the ring's runs holds in the channel |
| `MpscAnswers.AnswersAreTrue` | src/bounded_mpsc.rs:88-184 | every answer in every run: a value received is the one pushed for a ticket this call took; Sent means that the caller's own value stands at a ticket it claimed; a failed send hands the caller's own value back, and there is no receiver or the ring refused; Disconnected means that there are no senders |
| `MpscAnswers.ListIsExactlyTheRegistered` | src/waiter.rs:110-130 | in every run the list holds exactly the waiters that some thread is registered with at that moment; none stays behind when a call returns |
| `MpscCalls.SleeperWillBeWoken` | src/waiter.rs:164-187 | whenever a receiver is asleep in front of a published head, or without senders, some thread that just goes on gives it a token |
| `MpscCalls.ReceiverIsNotStuck` | src/bounded_mpsc.rs:141-184 | from every reachable state an undisturbed receive comes to its end or falls asleep |
| `MpscCalls.SenderIsNotStuck` | src/bounded_mpsc.rs:88-124 | from every reachable state an undisturbed send or last drop comes to its end |
| `MpscWhole.WholeSend` | src/bounded_mpsc.rs:88-104 | a whole send: refused exactly without receivers or on a full queue; otherwise the value is last in the queue, and exactly the threads of listed waiters have been unparked |
| `MpscWhole.WholeDrop` | src/bounded_mpsc.rs:114-124 | a whole last drop unparks exactly the threads of listed waiters |
| `MpscWhole.WholeTryRecv` | src/bounded_mpsc.rs:141-152 | a whole `try_recv` takes the front of the queue; without one, Disconnected exactly if there are no senders |
| `MpscWhole.WholeRecv` | src/bounded_mpsc.rs:159-184 | a whole `recv` takes the front of the queue, reports the end, or falls asleep last on the list, a token it had being used up |
| `MpscWhole.WholeResume` | src/waiter.rs:124-130 | a parked receiver with a token takes it, leaves the list, and receives, reports the end, or parks again |
| `MpscWhole.SleeperReceivesWhatIsSent` | src/bounded_mpsc.rs:88-184 | a receiver asleep is sent a value, goes on, and returns just that value |
| `MpscWhole.SleeperSeesTheEnd` | src/bounded_mpsc.rs:114-184 | a receiver asleep sees the last sender dropped, goes on, and reports Disconnected |
| `MpscWhole.TakenInOrder` | src/bounded_mpsc.rs:141-152 | of two receives one after the other the first gets the front of the queue, the second the next value |
| `MpscMemory.Chan.Send` | src/bounded_mpsc.rs:88-104 | refused exactly without receivers or if the ring refuses, which one slot never does; otherwise the value is last in the queue, and every thread with an unselected waiter has a token |
| `MpscMemory.Chan.DropSender` | src/bounded_mpsc.rs:114-124 | the last drop leaves a token with every listed thread and claims no plain waiter |
| `MpscMemory.Chan.TryRecv` | src/bounded_mpsc.rs:141-152 | the oldest value; without one, Disconnected exactly if there are no senders; it never returns exactly if the ring is stuck |
| `MpscMemory.Chan.Recv` | src/bounded_mpsc.rs:159-184 | in any interference: what the first look finds is the answer; a value returned was the oldest in the queue and is taken; asleep for good only on an empty queue with senders, spinning for good only in a stuck ring of one slot; late Disconnected means everything sent was taken; the waiter list is left as found |
| `WaiterStack.NextInv` | src/waiter.rs:254-367 | every atomic access of push, abort and the three drains keeps the ownership of the nodes |
| `WaiterStack.StacksAreLinked` | src/waiter.rs:254-262 | following `next` from a stack's head always yields the nodes pushed and not drained, top first |
| `WaiterStack.NodesHaveOneOwner` | src/waiter.rs:254-367 | a node is on at most one stack or with one drainer, never both; it is freed at most once and not used by a drainer afterwards |
| `WaiterStack.UnfreedNodesAreReachable` | src/waiter.rs:254-367 | no node is lost: unfreed nodes that are not being pushed are on a stack or with a drainer |
| `WaiterStack.SelectedIsFinal` | src/waiter.rs:308-354 | a `selected` cell leaves UNSELECTED at most once, never changes again, and then names an arm of its own call |
| `StackCalls.OnlyOwnNodesAreAborted` | src/waiter.rs:268-280 | no step of any thread marks a node but the visit of an abort on behalf of the node's own cell |
| `StackCalls.WholePush` | src/waiter.rs:254-262 | a whole push puts its node on top and leaves every other where it was |
| `StackCalls.PushEnds` | src/waiter.rs:254-262 | from wherever it stands an undisturbed push comes to its end, however stale the head it loaded |
| `StackCalls.WholeAbort` | src/waiter.rs:268-280 | a whole abort marks exactly the nodes of its cell on the stack, and changes nothing else |
| `StackCalls.WholeWakeOne` | src/waiter.rs:292-326 | a whole drain decides the cell and unparks the thread of the first open node alone, empties the stack and frees every node once |
| `StackCalls.WholeWakeAll` | src/waiter.rs:332-354 | a whole drain decides the cell and unparks the thread of every unaborted node, and frees every node once |
| `StackCalls.WholeDrain` | src/waiter.rs:360-367 | a whole drain frees every node once and wakes nobody |
| `ForgottenCall.ForgottenForGood` | src/waiter.rs:292-326 | a parked call whose nodes are all freed while its cell is unselected is never selected, whatever others push, abort and drain afterwards |
| `ForgottenCall.SecondCallIsForgotten` | src/waiter.rs:286-323 | after a run in which two calls register and one send drains the stack, one call has no token, no node and an unselected cell, in every continuation in which it stays parked |
| `Waiters.SelectStack.Push` | src/waiter.rs:254-262 | the node is on top of the stack |
| `Waiters.SelectStack.Abort` | src/waiter.rs:268-280 | marks exactly the nodes that share the given cell |
| `Waiters.SelectStack.WakeSelectOne` | src/waiter.rs:292-326 | run alone it empties the stack, frees every node once in order, and changes only the cell and the thread of the first node that is neither aborted nor decided, also when nodes share a cell; it selects all open nodes exactly if they were of one call |
| `Waiters.ForgetsNobodyExactlyForOneCall` | src/waiter.rs:286-326 | after a drain by `wake_select_one` every node that was open is decided, if and only if all open nodes had the same cell |
| `Waiters.SelectStack.WakeSelectAll` | src/waiter.rs:332-354 | run alone it empties the stack, frees every node once, decides the cell and unparks the thread of every unaborted node, and changes nothing else |
| `Waiters.SelectStack.DrainSelect` | src/waiter.rs:360-367 | frees every node once in order and wakes nobody |
| `Waiters.RecvWaiterList.Unregister` | src/waiter.rs:124-130 | the guard's drop removes exactly its own waiter |
| `Waiters.RegisterThenUnregister` | src/waiter.rs:110-130 | a guard that comes and goes leaves the list as it was, whatever was registered meanwhile |
| `Waiters.RecvWaiterList.WakeAllUnselected` | src/waiter.rs:180-187 | unparks exactly the threads that have an unselected waiter |
| `Waiters.RecvWaiterList.WakeAll` | src/waiter.rs:164-173 | unparks every listed thread; a cell changes only if it was unselected, and then to the case of a waiter that is not plain |
| `Waiters.RecvWaiterList.WakeOne` | src/waiter.rs:141-154 | claims the first unselected waiter and unparks its thread; no other cell or thread changes |
| `Waiters.RecvWaiterList.WakeOneTwice` | src/waiter.rs:144-150 | on any list, a second single wake-up reaches another waiter if and only if there is an open one with another cell and the first one's case is not UNSELECTED |
| `SelectCallProof.NextInv` | src/select.rs:226-293 | every step of the selecting thread and of any sender keeps the invariant that accounts for each registered node |
| `SelectCallProof.ReachableInv` | src/select.rs:226-293 | that invariant holds in every reachable state, over any arms and any number of senders |
| `SelectCallProof.NoLostWakeup` | src/select.rs:247-279 | with no sender inside an operation, a selecting thread asleep without a token has an unselected cell and no ready arm |
| `SelectCallProof.DecidedSleeperIsUnparked` | src/waiter.rs:309-317 | at every moment, a sleeper whose cell is decided is about to be unparked by the thread that decided it |
| `SelectCallProof.AnswerIsAnArm` | src/select.rs:281-285 | the index that `select_impl` returns is below the number of arms |
| `SelectReady.NextReady` | src/select.rs:226-293 | every step keeps the invariant that ties what wakers hold, and what the call may answer, to the readiness of the arms |
| `SelectReady.CleanAnswerIsReady` | src/select.rs:281-285 | if no sender was inside an operation when the call began, the arm it answers with has a value queued or no senders |
| `SelectSpurious.LateWakeAnswersUnready` | src/waiter.rs:292-317 | a run of one sender and one selecting thread in which select answers with an arm that has nothing to receive |
| `SelectSpurious.ReadyExactlyIfCallsBeginClean` | src/select.rs:226-293 | all answers in all runs are ready, if and only if no sender is inside an operation when a call begins |
| `SelectAlone.WholeRound` | src/select.rs:226-293 | an undisturbed call answers with the first ready arm in cyclic order from the counter; if none is ready it falls asleep with its call open, or uses up a token and goes round |
| `SelectAlone.SameAnswerAgain` | src/select.rs:226-240 | select only chooses: called again with the same counter while nothing was received it chooses the same arm |
| `SelectAlone.SelectorEnds` | src/select.rs:226-293 | wherever the selecting thread stands, undisturbed it comes to an answer, to another round, or falls asleep |
| `SelectAlone.WholeResume` | src/select.rs:269-287 | a parked call with a token takes it, aborts, and answers what its cell says, or goes round if that is open |
| `SelectSends.WholeSend` | src/waiter.rs:292-326 | a whole send on an arm's channel whose value the ring takes empties the stack, and decides the cell of its first open node, for that node's arm, with a token; a refused one wakes nobody |
| `SelectSends.WholeDrop` | src/waiter.rs:332-354 | a whole last drop decides the cell of every unaborted node, and there is a token if there was one |
| `SelectSends.SleeperAnswers` | src/select.rs:226-293 | a call asleep is sent to on one of its arms, goes on, and answers with an arm of that very channel, where the value is |
| `Select.TryPhase` | src/select.rs:232-240 | a sweep asks arms in cyclic order from the counter, none twice, and returns the first ready one; if it finds none it has asked all of them |
| `Select.BoundedStarvation` | src/select.rs:166-240 | of n answers, each the first ready arm from one place further, one is an arm that stays ready |
| `Select.SomeReadyIsFound` | src/select.rs:235-240 | if some arm is ready the sweep has an answer |
| `Select.RoundRobin` | src/select.rs:232-240 | if all arms stay ready, n such answers name every arm exactly once |
| `Select.Calls` | src/select.rs:166-240 | n calls one after the other advance the counter by n, answer an arm that stays ready, and every arm exactly once if all stay ready |
| `Select.DispatchRunsTheWinner` | src/select.rs:513-566 | the macro runs the body of the winning arm exactly if the index is below the number of arms, else it reaches `unreachable!` |
| `SelectMemory.Selection.Sweep` | src/select.rs:232-240 | with others moving before every `is_ready`: the answer is the first arm heard ready in cyclic order from the counter, at the point of the trace where it was asked; if there is none, all were heard not ready |
| `SelectMemory.Selection.Wait` | src/select.rs:247-287 | register, re-check, park and abort, in any interference: it sleeps for good only if no arm is ready, a winner is a ready arm, and no live node stays on a stack |
| `SelectMemory.Selection.SelectImpl` | src/select.rs:226-293 | in any interference: every round takes one from the counter and hears its arms in cyclic order from there; no round but the last hears one ready; if the last does, the first one is the answer; always a ready arm of the call; asleep for good only when no arm is ready |
| `SelectMemory.Selection.SelectMany` | src/select.rs:226-240 | as many calls of `select_impl` as there are arms, under any interference and with receiving in between, answer an arm that stays ready |
| `BroadcastProof.NextInv` | src/bounded_broadcast.rs:162-303 | every atomic access of senders and receivers keeps the invariant on slots, tickets and cursors |
| `BroadcastProof.LagAccounting` | src/bounded_broadcast.rs:225-303 | a cursor is its start plus messages received plus all lag reported, never past the write position; the `max(1)` never changes a count |
| `BroadcastProof.LagGoesToTheOldest` | src/bounded_broadcast.rs:243-272 | the step that decides on a lag, because the cursor is too old or because the slot was overwritten, has just loaded the write position, and sends the cursor to the oldest message surviving then, by what it reports |
| `BroadcastProof.AnswersAreTrue` | src/bounded_broadcast.rs:225-303 | every answer in every run: what a lag, Empty, Disconnected and a message say about the write position loaded last, the senders and the cursor |
| `BroadcastProof.CursorsNeverGoBack` | src/bounded_broadcast.rs:243-300 | no cursor ever goes backwards |
| `BroadcastProof.AtMostOneRetry` | src/bounded_broadcast.rs:230-301 | a call passes the top of its loop at most twice; the spin fall-back and the inner Disconnected are never reached |
| `BroadcastProof.DisconnectedMeansDrained` | src/bounded_broadcast.rs:236-241 | a call that began without senders answers Disconnected only at the end of the log |
| `BroadcastProof.EmptyIsJustified` | src/bounded_broadcast.rs:251-261 | a receiver that finds too old a number faces a message whose sender is still publishing, unless a sender was lapped |
| `BroadcastProof.DeliveredTicketExactly` | src/bounded_broadcast.rs:270-300 | what is delivered is the message of some ticket of the reader's slot; unless a sender was lapped it is the reader's own ticket if and only if no sender of another one stood between its two stores at the load |
| `BroadcastProof.DeliveredUnlessLapped` | src/bounded_broadcast.rs:270-300 | the message delivered is that of the receiver's ticket if neither a sender nor the reader was lapped |
| `BroadcastProof.OneSenderNeverLaps` | src/bounded_broadcast.rs:172-176 | a single sending thread is never lapped, so only the reader can be |
| `BroadcastCalls.WholeSend` | src/bounded_broadcast.rs:172-176 | a whole send, from every state, appends its message to the log and writes it with its number over whatever its slot held |
| `BroadcastCalls.WholeTryRecv` | src/bounded_broadcast.rs:225-303 | a whole `try_recv` between sends has the outcome read off the log, which is the one the object has, and touches nobody else |
| `BroadcastCalls.OldestAfterALag` | src/bounded_broadcast.rs:218-223 | a lapped receiver is told how much it lost, and if nobody sends its next call gets the oldest surviving message |
| `BroadcastCalls.NobodyIsStuck` | src/bounded_broadcast.rs:230-301 | from every reachable state a receive comes to its end, whatever senders have left half done |
| `BroadcastCalls.CloneStartsAtTheEnd` | src/bounded_broadcast.rs:194-203 | a clone starts at the end of the log |
| `BroadcastTorn.TornDeliversWrong` | src/bounded_broadcast.rs:175-176 | for every capacity there is a run of one sender, with one send more than that, and one receiver that delivers the next lap's message |
| `BroadcastTorn.DeliversRightExactlyUpToCapacity` | src/bounded_broadcast.rs:172-300 | for the two stores as they are, all runs with at most so many sends deliver right, if and only if that number is at most the capacity |
| `BroadcastTorn.DeliversRightExactlyWhenFused` | src/bounded_broadcast.rs:172-300 | the repair: all runs deliver right if and only if value and sequence are stored in one step |
| `BroadcastMemory.PublishHolds` | src/bounded_broadcast.rs:172-176 | a whole send keeps the ring equal to the log on its last `cap` messages |
| `BroadcastMemory.NumberAt` | src/bounded_broadcast.rs:248-263 | a slot shows the cursor's own number exactly if the cursor is not lapped, a larger one otherwise |
| `BroadcastMemory.Chan.Send` | src/bounded_broadcast.rs:162-182 | refused exactly without receivers; otherwise the message is appended to the log, however far receivers lag, and every thread with an unselected waiter has a token |
| `BroadcastMemory.Chan.DropSenders` | src/bounded_broadcast.rs:144-153 | the last drop leaves a token with every listed thread and claims no plain waiter |
| `BroadcastMemory.Receiver.Clone` | src/bounded_broadcast.rs:194-203 | a clone's cursor is the end of the log |
| `BroadcastMemory.Receiver.TryRecv` | src/bounded_broadcast.rs:225-303 | with sends between any two loads: at most two rounds, the right message, a lag exactly to the oldest message surviving then, and undisturbed exactly the outcome read off the log |
| `BroadcastMemory.Receiver.Recv` | src/bounded_broadcast.rs:313-336 | in any interference it sleeps for good only if there is nothing to receive and there are senders; otherwise it returns what a receive found, and leaves the waiter list as found |
| `BroadcastMemory.LagsAgainExactlyIfSent` | src/bounded_broadcast.rs:14-18 | the receive after a lag lags again, by as much as was sent, if and only if something was sent in between; otherwise it returns the oldest surviving message |
| `BroadcastMemory.Receiver.RecvAfterLag` | src/bounded_broadcast.rs:218-223 | the same for two calls of `try_recv` on the object |
| `BroadcastMemory.DrainGetsTheSurvivors` | src/bounded_broadcast.rs:243-300 | receiving until empty returns exactly the surviving messages in order, and the lags reported count all others |
| `WatchProof.NextInv` | src/watch.rs:135-403 | every step of senders and receivers keeps the invariant on version, waiter list, tokens, cursors and clones; select waiters have their own in `WatchWakeup` |
| `WatchProof.NoLostWakeup` | src/watch.rs:277-319 | with no sender inside an operation, a receiver asleep in `await_change_from` has its baseline equal to the version and a live sender |
| `WatchProof.AsleepMeansOwed` | src/watch.rs:168-204 | at every moment, a receiver asleep past a change is owed an unpark by the thread that made the first one, and one asleep without senders by the last dropper |
| `WatchProof.BorrowIsFresh` | src/watch.rs:135-142 | what is borrowed after a reported change is the value of any send up to it, or one stored later |
| `WatchProof.CursorsAreBehind` | src/watch.rs:268-275 | no cursor is ever ahead of the version |
| `WatchProof.ReadyStays` | src/watch.rs:369-375 | once a receiver, or a clone made since its last use, has answered that it is ready, or was selected after a clean registration, something is pending for it until it is used |
| `WatchProof.PromisedCompletionNeverParks` | src/watch.rs:400-403 | after such an answer `complete_recv` on the original neither registers nor parks, and ends within two loads |
| `WatchSelect.ClaimMeansPending` | src/watch.rs:378-391 | if no sender was inside an operation when a node was pushed, a claim of it means a newer version than its receiver's cursor, or no senders |
| `WatchSelect.LateClaimCompletionSleeps` | src/watch.rs:189-192 | a run in which a sender that bumped before claims the node, and the completion parks with all senders idle |
| `WatchSelect.PendingExactlyIfPushedClean` | src/watch.rs:378-391 | claims mean that something is pending, in all runs, if and only if nodes are pushed with no sender inside an operation |
| `WatchWakeup.EveryNodeHasItsPlace` | src/waiter.rs:332-354 | no select waiter on a watch channel is lost: each is on the stack, in the hand of a thread that is visiting it, aborted or claimed |
| `WatchWakeup.ClaimLeavesAToken` | src/waiter.rs:332-354 | the thread of a claimed node has a token, or has taken one since |
| `WatchWakeup.OverdueIsClaimed` | src/watch.rs:168-192 | with no sender inside an operation, a node whose channel has seen a newer version since its push, or the end of the senders, is claimed unless aborted |
| `WatchWakeup.ClaimedExactlyIfOverdue` | src/watch.rs:168-192 | with no sender inside an operation now, nor when the node was pushed, an unaborted node is claimed if and only if the version went up since its push or the senders left since |
| `WatchWakeup.SelectSleeperHasNothing` | src/watch.rs:369-391 | with no sender inside an operation, a select call asleep on a watch arm after its re-check has the version at its cursor, and senders |
| `WatchWakeup.ListIsExactlyTheEnlisted` | src/waiter.rs:110-130 | in every run the list holds exactly the waiters that some thread in `await_change_from` is registered with |
| `WatchCalls.WholeSend` | src/watch.rs:135-192 | a whole send stores the value, advances the version by one, unparks every listed receiver, claims every unaborted select waiter and unparks its thread, and touches nobody else |
| `WatchCalls.WholeMark` | src/watch.rs:151-192 | a whole `mark_changed` does the same and leaves the value |
| `WatchCalls.WholeDrop` | src/watch.rs:189-204 | a whole last drop wakes the same and leaves the version |
| `WatchCalls.WholeChanged` | src/watch.rs:349-364 | an undisturbed `changed` ends at once without senders, and otherwise falls asleep at the live version, last on the list |
| `WatchCalls.WholeReady` | src/watch.rs:369-375 | an undisturbed `is_ready` is true exactly without senders or if the cursor was armed at an older version, and arms an unarmed one |
| `WatchCalls.CloneAnswersLikeTheOriginal` | src/watch.rs:242-253 | asked for readiness, a clone answers what the original would, and ends with the same cursor |
| `WatchCalls.WholeRegister` | src/watch.rs:378-391 | an undisturbed `register_select` pushes a node exactly if there are senders and the armed cursor is at the live version |
| `WatchCalls.ChangeBeforeThePush` | src/watch.rs:378-391 | a change made between a registration's loads and its push leaves the node behind the live version and unclaimed, with all senders idle |
| `WatchCalls.WholeComplete` | src/watch.rs:400-403 | an undisturbed `complete_recv` reports the version if the cursor is behind it, the end if there are no senders, and otherwise falls asleep |
| `WatchCalls.WholeResume` | src/watch.rs:277-319 | a sleeper with a token takes it, leaves the list, and reports or falls asleep again |
| `WatchCalls.SleeperWillBeWoken` | src/watch.rs:168-204 | whenever a receiver is asleep past a change, or without senders, some thread that just goes on gives it a token |
| `WatchCalls.SleeperSeesTheChange` | src/watch.rs:135-319 | a receiver asleep is sent a value, goes on, and reports that very version, with that value there |
| `WatchCalls.SleeperSeesTheEnd` | src/watch.rs:195-319 | a receiver asleep sees the last sender dropped, goes on, and reports Disconnected |
| `WatchCalls.NobodyIsStuck` | src/watch.rs:135-403 | from every reachable state an undisturbed operation comes to its end or falls asleep |
| `WatchMemory.Chan.Send` | src/watch.rs:135-142 | refused exactly without receivers; otherwise the value is replaced, the version advances by one, and every blocked receiver has a token |
| `WatchMemory.Chan.MarkChanged` | src/watch.rs:151-157 | as `send`, but the value stays |
| `WatchMemory.Chan.DropSender` | src/watch.rs:195-204 | the last drop leaves a token with every blocked receiver |
| `WatchMemory.Receiver.ArmCursor` | src/watch.rs:268-275 | sets an unarmed cursor to the live version, leaves an armed one, returns the live version |
| `WatchMemory.Receiver.Clone` | src/watch.rs:242-253 | the clone's cursor stands where the original's does |
| `WatchMemory.Receiver.IsReady` | src/watch.rs:369-375 | in any interference true exactly if one of its two loads finds something: no senders, or for an armed cursor another version; an unarmed cursor is armed at the version loaded |
| `WatchMemory.Receiver.AwaitChangeFrom` | src/watch.rs:277-319 | with the waiter list and park tokens: what its first two loads find is reported without parking; reports exactly a newer version or the end of the senders; sleeps for good only if there is neither; leaves the list as found |
| `WatchMemory.Receiver.Changed` | src/watch.rs:349-364 | reports only a change made after the version was loaded, and sleeps for good only if none was made after that |
| `WatchMemory.Receiver.CompleteRecv` | src/watch.rs:400-403 | what its first two loads find, and so anything pending, is reported without parking |
| `WatchMemory.Receiver.SelectAndComplete` | src/select.rs:374-378 | every look of the clone but the last finds nothing, and the last one finds something or ends the gaps; something pending at the start is found; completing on the original then reports without parking, and a newer version as changed |

## Left out

- RingMemory.LockFreeBoundedRing.TryPush: called with a capacity other than one; with one slot whole calls are the subject of `RingCalls`.
- RingMemory.LockFreeBoundedRing.TryPop: called with a capacity other than one, because with one slot it need not return (`RingCalls.CapacityOneSpins`).
- RingMemory.LockFreeBoundedRing.IsEmpty: with one slot, only between whole calls; overlapping calls on one slot have no invariant.
- RingMemory.LockFreeBoundedRing.IsFull: with one slot, only between whole calls, for the same reason.
- RingMemory.LockFreeBoundedRing.Drop: with one slot, only after whole calls, for the same reason.
- RingProgress.UndisturbedCallTerminates: for two slots and more; with one slot an undisturbed pop after two pushes never ends (`RingCalls.CallsEndExactlyUnlessCapacityOne`).
- SelectAlone.WholeRound: the selecting thread's own calls on the rings are finished, as they are whenever it calls select.
- SelectSends.SleeperAnswers: with all senders idle when the send begins, and capacities from two up.
- BroadcastCalls.WholeTryRecv: from states in which no sender was lapped by another one; after that only `BroadcastProof.DeliveredTicketExactly` is known of the slot.
- MpscWhole.WholeSend: from states in which nobody else is inside an operation, but receivers may be parked; so are the other whole operations of `MpscWhole`.
- WatchWakeup.SelectSleeperHasNothing: for a call that has re-checked its arm since it registered there, as every call does before it parks; a change between the registration's load and its push is found by that re-check, not by a claim.
- RingProperties.PopReturnsThePushedValue: compares calls that have not returned yet; over time see `RingProperties.TicketsAreNeverReused`.
- MpscProof.NoLostWakeup: for capacities from two up, and without the select waiters that `send` wakes afterwards, which are the subject of `SelectCallProof`.
- MpscProof.DrainBeforeDisconnect: for capacities from two up, because the slot protocol does not hold with one slot.
- MpscMemory.Chan.Send: wakes the blocked receivers only; the stack of select waiters is in `SelectMemory`.
- MpscMemory.Chan.TryRecv: with one slot, as whole calls behave; overlapping accesses to one slot are not modelled.
- MpscMemory.Chan.Recv: other threads' operations are whole, and the ring appears as the queue of `RingCalls`; single accesses interleave in `Mpsc`.
- SelectCallProof.NoLostWakeup: for one selecting thread that is the only consumer of its arms, all of them receive arms on MPSC channels of two slots and more; with several selecting threads on one channel it fails (`ForgottenCall.SecondCallIsForgotten`).
- SelectCallProof.AnswerIsAnArm: says nothing of readiness; that is `SelectSpurious.ReadyExactlyIfCallsBeginClean`.
- SelectMemory.Selection.Wait: other threads' operations are whole, and one `is_ready` is a single moment; single accesses interleave in `SelectCall`. The winner of an arm with one slot may have been pushed again since, and then looks empty.
- SelectMemory.Selection.SelectImpl: as for `Wait`.
- Select.BoundedStarvation: the counter's places are given; `Select.Calls` and `SelectMemory.Selection.SelectMany` advance the counter themselves. It does not wrap, and no other thread advances it.
- BroadcastProof.DeliveredTicketExactly: after a sender was lapped by another one, only that the message is of a ticket of the same slot.
- BroadcastMemory.Receiver.TryRecv: whole sends are atomic; single accesses interleave in `Broadcast`.
- BroadcastMemory.Receiver.Recv: whole sends are atomic, and select waiters are not in the object.
- WatchMemory.Chan.Send: wakes the blocked receivers only; the stack of select waiters is in `Watch`.
- WatchMemory.Receiver.SelectAndComplete: decided by the try phases only; registration, and a win through a sender's claim, are in `Watch` and `WatchSelect`.
- WatchProof.PromisedCompletionNeverParks: a receiver is used by one thread at a time.
- Weak memory orderings, the wrap-around of `usize` apart from `is_full`, allocation failure and panics.
- The lifetime of nodes while `abort_select_waiters` walks a stack that another thread drains: nodes keep their identity, and only free-at-most-once is proved.
- Deadlines, `try_select`, `select_timeout` and `Instant`; the token matching of the macro apart from its dispatch.
- Send arms of `select!`, and the `send_select_waiters` stacks that `try_recv` wakes.
- Blocking `recv` of the broadcast channel at the grain of single accesses, and its select arms: the same waiter list and stacks as in the MPSC channel.
- The check of `receiver_count` at the start of the broadcast and watch `send` in the transition systems: there is always a receiver. The objects have it.
- The internals of `arc_swap`: each load or store of a shared value is one step.
- `src/bounded_mpmc.rs`, `src/unbounded_mpmc.rs`, `src/unbounded_mpsc.rs`: the same scaffolding over the same ring or an external queue.
- `src/rendezvous.rs`, `src/oneshot.rs`, `src/interval.rs`, `src/error.rs`, logging and the demo.
