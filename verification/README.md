# Verified models of the forwarding workspace

This project models the parts of the workspace whose correctness rests on reasoning that is
hard to do by eye, and proves what they promise. `dafny verify dfyconfig.toml` checks all of it.

**The one-shot channel** (`conlock`) is the core. `Words` holds the status word and its bit
operations, `Memory` a release/acquire memory in which loads may be stale and every access is
checked for races, uninitialised reads, leaks and use after free. `Channel` is the channel as a
transition system over them: one step for each load, compare-and-swap, cell access, futex call
and deallocation, by one sender, one exclusive receiver and any number of threads inside `recv`.
`Invariant` states what holds in every reachable state; `Frames`, `SenderSteps`,
`ReceiverSteps`, `RecvSteps` and `Reachable` prove it step by step. `Tasks` proves
whom an asynchronous wait notifies when polls are made for different tasks, and `Clones` who makes
a clone of a waker, who wakes it and who drops it. `Table` is the transition table of the design
document, row by row, over every run. `Safety` draws the conclusions, `Spec` and `Refinement` relate every run to an atomic channel and every call to its
effect, `Progress` bounds the steps of every call, and `BuildVariants` compares the builds with
and without `async`. `Accesses` lists the status methods of the source with the word and the
orderings of each, and shows which of them each step of the transition system is; `Turns` says
what a call knows between its accesses, whatever the other threads do there; and `InnerCode` is
the loops of the source, with their local snapshots, acting on the word's history and the cells
in place under an infinite schedule of the other threads.

**The RPC session** (`examples/rpc/net`): `Codec` is the wire format and what its two writers
put on a connection, `Session` the two loops over the shared map in both flavours, asynchronous
and blocking, with frames that go out piece by piece; `SessionSafety`, `SessionRouting`,
`SessionStreams`, `SessionIds` and `SessionProgress` prove what every run keeps and that it ends,
`SessionOrder` in which order requests are served and when each loop ends, and `SessionCode` proves the loops and the writers, working in place on queue, map and connection.

**The nested executor** (`examples/rpc/practice.rs`): `Executor` is the walk over forwarding
plans and the blocking worker threads, `Forwarding` its theorems, `JobOrder` the order in which
workers take their jobs and are freed, `Deadlocks` the exact condition for two calls to block each
other, `ExecutorCode` the runtime that carries the calls out, in any
order, and hands their results back.

**The attribute parser** (`forward_macro`): `Attributes` is the expansion of the parser-generating
macro for any list of fields and the grammar it is meant to accept, `AttributeGrammar` the proof
that they agree, `AttributeParser` the generated loop over a token cursor, and `ForwardAttribute`
what each setting of the forwarding attribute is called, what it takes, and where it may stand.

**The fixed-length string** (`const_string`): `ConstString` is the sixteen-byte tagged union over
a heap of blocks, `ConstStringCode` its operations in place.

`Wrappers` and `Octets` hold what these share: optional values, results and bytes.

## Where the code and its documentation differ

- Dropping the receiver on a word with READY clears it first and then closes: 10000 becomes 00000
  and then 01010. The table in `conlock/README.md:25` goes through 01000. The model follows the
  code, so the initial word can recur after a send.
- `forward_macro/src/lib.rs:45` shows `timeout=None`; the parser only takes a number
  (`AttributeGrammar.TimeoutIsANumber`).
- The proxy attribute declares its name as a positional setting, but the parser looks for a path
  before it tries positions, so a string literal is only accepted by name
  (`AttributeGrammar.ProxyIsNamed`).

## What turned out not to hold, and when it does

- A requester can lose its registration to a later request under the same id, and the reply meant
  for it then reaches the other one (`SessionIds.Misrouted`). This happens exactly when a request
  is registered while its id is still in the map (`SessionIds.EvictionExactly`); never, if ids are
  not in flight when they are handed in (`SessionIds.NoEviction`). Ids drawn from the global counter
  are not, exactly as long as no request is handed in whose draw is a multiple of 2^32 away from
  one in flight (`SessionIds.DrawnIsFresh`), which is so when the draws in flight span less than
  2^32 (`SessionIds.NearIsFresh`).
- The blocking session can leave a requester waiting for ever when the peer has gone: exactly when
  its request can still be written (`SessionRouting.BlockingStrands`). In every run of either
  session those left waiting are exactly those about whose id nothing was noted since they were
  registered (`SessionRouting.WaitsIff`, `SessionProgress.WhatIsLeft`); in the asynchronous one
  nobody is (`SessionRouting.NobodyIsLeft`).
- The two writers of the wire format agree exactly on payloads below 2^32 bytes
  (`Codec.WritersAgree`).
- A forwarded call on its own returns exactly when the worker threads its plan enters, hops to the
  current location elided, are pairwise distinct (`Forwarding.ReturnsIff`); otherwise it never
  does, whatever else runs (`Forwarding.RepeatsNeverReturn`).
- Two calls each of which would return on its own can block each other for ever: exactly when their
  plans cross (`Deadlocks.PairDeadlocksIff`), as two workers in opposite orders do
  (`Deadlocks.OppositeOrders`). Plans that enter all workers in one order never do
  (`Forwarding.NoDeadlock`).

## Model

| member | source | states |
|---|---|---|
| Words.BitAlgebra | conlock/src/bit.rs:16-29 | setting, clearing and testing a flag of the record are the bit operations on the 32-bit word |
| Words.EncodeIsInjective | conlock/src/oneshot.rs:34-62 | two flag records are equal exactly when a compare-and-swap would find their words equal |
| Words.WellFormedIsListed | conlock/README.md:8-18 | the constraints between the flags leave exactly the nine patterns of the status table |
| Table.Patterns | conlock/README.md:8-18 | the numbers of the nine words, the first flag of the table being the lowest bit |
| Table.SendColumn | conlock/README.md:22-32 | the column of send in every run: 10000 over 00000, 00100, 00101 and 00111, with release; then all threads are woken for 00100, the clone for 00101, and nobody for the others; with CLOSE the value is taken back |
| Table.DropSenderColumns | conlock/src/oneshot.rs:544-627 | the two columns of the sender's drop in every run: the word tried over each of the nine, its orderings, and what follows when it is installed |
| Table.PollColumn | conlock/src/oneshot.rs:470-542 | the column of await in every run, with the orderings: what a poll tries over each word it can find, which are neither 00100 nor 00111, and what follows |
| Table.DropReceiverColumns | conlock/src/oneshot.rs:629-700 | the two columns of the receiver's drop in every run, likewise |
| Table.RecvColumn | conlock/src/oneshot.rs:419-467 | the column of recv in every run, likewise; recv never finds 00111 |
| Table.LoadsAreRelaxed | conlock/src/oneshot.rs:87-93 | the load an operation begins with tells the thread of nobody else's accesses |
| Table.FailuresAreRelaxed | conlock/src/oneshot.rs:156-207 | nor does a compare-and-swap that fails |
| Reachable.StepKeeps | conlock/src/oneshot.rs:370-700 | every step of every thread, under any stale load and any spurious failure, keeps the invariant |
| Reachable.Always | conlock/src/oneshot.rs:335-700 | every run from a new channel satisfies the invariant |
| Safety.NeverFaults | conlock/src/oneshot.rs:346-386 | no run reads an uninitialised or emptied cell, overwrites or leaks a value or waker, consumes a waker twice, races on a cell or on the free, or touches freed memory |
| Safety.FreedExactlyOnce | conlock/src/oneshot.rs:544-700 | the memory is freed exactly once, by the second handle to go, with no thread left in recv |
| Safety.NothingAfterFree | conlock/src/oneshot.rs:346-350 | after the free no step of any thread touches anything |
| Safety.OnlyListedWords | conlock/README.md:8-18 | every word ever installed is one of the nine listed patterns |
| Safety.ImpossibleEntries | conlock/src/oneshot.rs:491-497 | the table entries marked as impossible never occur: a poll or receiver drop that sees WAITING sees an idle asynchronous wait, recv never sees a poll under way, send never finds a word it has sent in |
| Safety.ValueConserved | conlock/src/oneshot.rs:351-362 | a value handed to send is in exactly one place at every step, unchanged, and handed out once by the time both handles are gone |
| Safety.NoLostWakeUp | conlock/src/oneshot.rs:213-232 | a thread asleep in recv means the word is exactly WAITING or the sender is about to wake everybody; once the sender is gone nobody sleeps |
| Safety.PendingIsWoken | conlock/src/oneshot.rs:470-542 | after a poll returned Pending a waker of the task it polled for is stored, about to be woken, or woken, also when an earlier poll was for another task; once the sender is done, that task has been woken |
| Tasks.Always | conlock/src/oneshot.rs:500-515 | in every run, when a poll is about to release its waker to the sender, the clone in the cell is of the task of that poll, and so is what becomes of it |
| Clones.OnlySenderWakes | conlock/src/oneshot.rs:364-393 | in every run only a step of the sender wakes a clone, and then for the task it was made for; a clone that any other step consumes is dropped; and what became of a clone never changes |
| Clones.ClonedOnlyIfNeeded | conlock/src/oneshot.rs:498-509 | in every run a clone is made exactly by a poll that finds no clone, or one of another task, in the cell, and it is stored there; a clone of the poll's own task stays |
| Safety.WakersLinear | conlock/src/oneshot.rs:364-386 | every cloned waker is in the cell or was woken or dropped, never both, and none is left when both handles are gone |
| Safety.WakerHasOneOwner | conlock/src/oneshot.rs:48-55 | the waker cell is initialised exactly when one identified party is responsible for it |
| Safety.FewSuccesses | conlock/src/oneshot.rs:249-326 | at most four compare-and-swaps succeed in a run, plus two for each poll |
| Spec.Promises | conlock/src/oneshot.rs:709-780 | the atomic channel gives out a value at most once and only what was sent, answers None only after the value was taken or the sender closed unsent, and refuses a send only after the receiver closed |
| Refinement.StepRefines | conlock/src/oneshot.rs:395-700 | in every reachable state each step is a step of the atomic channel, or invisible |
| Refinement.RunRefines | conlock/src/oneshot.rs:395-700 | linearizability: the effects of every run form a history of the atomic channel that ends in the abstraction of the final state |
| Refinement.CallsTakeEffectOnce | conlock/src/oneshot.rs:395-542 | each call takes effect by a step of its own, and when it answers it has had exactly the one effect its answer calls for - none for a poll that stays pending |
| Refinement.CallsAnswer | conlock/src/oneshot.rs:740-770 | no send, poll or recv ends without an answer |
| Accesses.SenderAccess | conlock/src/oneshot.rs:256-300 | each step of the sender does to memory what the status method, cell access or wake-up named by the code at that point does |
| Accesses.ReceiverAccess | conlock/src/oneshot.rs:269-326 | so does each step of a poll and of the receiver's drop |
| Accesses.RecvAccess | conlock/src/oneshot.rs:269-320 | so does each step of a thread inside recv |
| Progress.CallsFinish | conlock/src/oneshot.rs:156-225 | each send, poll, drop and recv ends within 16(4+2p)+13 of its own steps for p polls, plus 14 for each step that was hindered - an attempt that failed spuriously, a futex wait that returned for no reason or was slept through, a load after one that read nothing new although there was something - in every interleaving and however stale the words are that its attempts read |
| Progress.RecvsEndAfterSender | conlock/src/oneshot.rs:419-467 | once the sender is gone no recv sleeps, and every thread inside recv returns within that bound, counting only spurious failures and returns and stale loads |
| BuildVariants.SyncIsAsyncWithoutPolls | conlock/src/oneshot.rs:256-267 | every run of the synchronous build is, state for state, the asynchronous run with its polls left out |
| BuildVariants.SyncIsSafe | conlock/src/oneshot.rs:370-393 | the synchronous build keeps the invariant and never faults either |
| InnerCode.Inner.Send | conlock/src/oneshot.rs:395-416 | send, as its retry loop on the memory in place, returns Ok once the value is installed or the same value back once the receiver closed, and terminates under every schedule that from some point on starts no more polls and makes no attempt fail spuriously |
| InnerCode.Inner.TryWakeAfterReady | conlock/src/oneshot.rs:370-393 | after READY the clone in the cell is woken if the snapshot says that one is stored, and nobody is left asleep if it says that threads wait |
| InnerCode.Inner.DropSender | conlock/src/oneshot.rs:544-627 | the sender's drop loop ends with the sender gone and nobody asleep, under the same schedules as send |
| InnerCode.Inner.CloseAndWake | conlock/src/oneshot.rs:571-619 | closing over a waiting receiver either ends the drop or leaves the loop with a fresh snapshot; once the channel was closed over a pending poll, a clone that nobody had woken or dropped has been woken |
| InnerCode.Inner.LeaveToReceiver | conlock/src/oneshot.rs:547-570 | on a channel the receiver closed the sender frees the memory if the receiver is gone, and otherwise leaves it, unfreed and marked, to the receiver |
| InnerCode.Inner.PollRecv | conlock/src/oneshot.rs:470-542 | a poll returns the sent value, None only when there is nothing to receive, or Pending with the word parked and a waker of the polling task stored; it terminates under every schedule that from some point on no longer makes attempts fail spuriously |
| InnerCode.Inner.StoreWaker | conlock/src/oneshot.rs:491-537 | a poll with nothing to take parks the word with a waker of its own task in the cell, whatever task the clone there was of before, or is back in the loop with the word just read; on a re-poll that answers Pending a clone of the same task stays in the cell, and any other clone it found has been dropped, not woken |
| InnerCode.Inner.SetWaker | conlock/src/oneshot.rs:498-537 | setting the waker ends in Pending, or in taking it back, with the cell empty, and reading the word again; the clone of an earlier poll is kept or dropped in the same way |
| InnerCode.Inner.DropReceiver | conlock/src/oneshot.rs:629-700 | the receiver's drop loop ends with the receiver gone, under the same schedules as a poll |
| InnerCode.Inner.ClearReady | conlock/src/oneshot.rs:632-645 | an unread value is claimed, READY cleared, the cell emptied and the value disposed of, once, or the word is read again |
| InnerCode.Inner.LeaveClosed | conlock/src/oneshot.rs:646-671 | on a channel the sender closed the receiver frees the memory if the sender is gone, and otherwise leaves it, unfreed and marked, to the sender |
| InnerCode.Inner.ClosePending | conlock/src/oneshot.rs:672-693 | cancelling an asynchronous wait drops the clone that was in the cell, and ends the drop or leaves a fresh snapshot |
| InnerCode.Inner.RecvCall | conlock/src/oneshot.rs:419-467 | recv returns the sent value, or None only when there is nothing to receive; it terminates under every schedule that from some point on hinders it no more, unless it is then asleep and the sender alive |
| InnerCode.Inner.PrepareToWait | conlock/src/oneshot.rs:436-464 | on a word with nothing to read, recv returns only because there is nothing to receive, or is about to block on the very word it has made to say that a thread waits, or is back in the loop with the word just read; when it takes over an asynchronous wait it has dropped, not woken, the clone in the cell |
| InnerCode.Inner.WaitReady | conlock/src/oneshot.rs:213-225 | waiting returns with the word read again |
| Codec.FromTag | examples/rpc/message.rs:23-41 | a tag is accepted exactly when some message type has it, and gives that type |
| Codec.TagValues | examples/rpc/message.rs:13-41 | the seven numbers of the types |
| Codec.FrameBytes | examples/rpc/net/async_impl.rs:76-82 | where every byte of a frame is: the id, most significant byte first, the tag, the length in the same way, the payload |
| Codec.PreludeBytes | examples/rpc/net/async_impl.rs:77-79 | what goes out first is the id, most significant byte first, and the tag |
| Codec.DecodeInvertsEncode | examples/rpc/net/async_impl.rs:76-97 | decoding is the inverse of encoding, both ways, whatever follows the frame |
| Codec.TruncatedFrame | examples/rpc/net/async_impl.rs:84-97 | a frame cut short anywhere is rejected |
| Codec.UnknownTag | examples/rpc/message.rs:26-38 | an unknown type is reported, with its number, exactly when the fifth byte is above 6, whatever follows it; every other failure is the end of the stream |
| Codec.StreamRoundTrip | examples/rpc/net/async_impl.rs:65-74 | from any beginning of the frames of a list the reader gets exactly the messages that arrived whole, in order |
| Codec.ReadingIsExact | examples/rpc/net/async_impl.rs:84-97 | whatever bytes arrive, what is read encodes to them, up to something that is no frame |
| Codec.WritersAgree | examples/rpc/net/sync_impl.rs:73-84 | the two writers do the same exactly for payloads the format can carry |
| Codec.Receive | examples/rpc/net/sync_impl.rs:86-99 | reading piece by piece gives what decoding the unread bytes gives, and consumes one frame |
| Codec.ReadU32 | examples/rpc/net/sync_impl.rs:102-122 | four bytes are read as a number, the first being the most significant, or the end of the stream is reported |
| SessionSafety.WaitersConserved | examples/rpc/net/async_impl.rs:47-74 | in every run of either flavour each waiter is in exactly one place: queued, held, registered once, being completed, completed once, or dropped |
| SessionSafety.RegisterConserves | examples/rpc/net/async_impl.rs:57-57 | inserting into the map moves the waiter there and drops exactly the one it replaces; every other waiter stays where it is |
| SessionSafety.WithdrawConserves | examples/rpc/net/async_impl.rs:59-60 | a failed write takes the registration under its id out of the map and drops its waiter, with those still queued; unless the session ends with it every other registration stays, and no waiter is lost or doubled |
| SessionSafety.FailedWriteIsWithdrawn | examples/rpc/net/sync_impl.rs:58-61 | in every run of either flavour, once the sending loop has returned with the error of a write, the requester is registered under no id: it has been dropped, or its reply came first, never both |
| SessionRouting.AlwaysLinked | examples/rpc/net/async_impl.rs:52-74 | the map, the replies and the waiters lost are exactly what the order of registrations, withdrawals and arrivals determines |
| SessionRouting.RepliesAreRouted | examples/rpc/net/async_impl.rs:65-74 | a waiter gets bytes only after it was registered under an id and a frame with that id and those bytes arrived, nothing having happened to the id in between |
| SessionRouting.ArrivalsAreAnswered | examples/rpc/net/async_impl.rs:67-72 | the replies are, in order, all that the arrivals call for |
| SessionRouting.AsyncEndsTogether | examples/rpc/net/async_impl.rs:37-44 | in the asynchronous session the failure of either loop ends both |
| SessionRouting.NobodyIsLeft | examples/rpc/net/async_impl.rs:37-44 | after the session every requester has been completed or has seen its sender dropped, never both |
| SessionRouting.WaitsIff | examples/rpc/net/sync_impl.rs:44-71 | in every run of either flavour a requester is registered exactly if the session is not over and nothing was noted about its id since it was registered |
| SessionRouting.BlockingStrands | examples/rpc/net/sync_impl.rs:34-41 | in the blocking session whose receiving loop has ended, a request handed in is left waiting for ever if and only if it can still be written; otherwise the session is over |
| SessionRouting.DeadPeerStrands | examples/rpc/net/sync_impl.rs:34-41 | against a peer that has gone from the start, that is if and only if its frame is one the connection takes |
| SessionStreams.FramesInOrder | examples/rpc/net/async_impl.rs:65-74 | the arrivals are the frames of the incoming stream, in order and without a gap |
| SessionStreams.PeerReadsRequests | examples/rpc/net/async_impl.rs:52-63 | at every moment the peer reads the registered requests in order, all or all but the last: while a frame goes out piece by piece, when the connection breaks inside it, and when the sender is cancelled between two pieces |
| SessionProgress.WorkIsFinite | examples/rpc/net/async_impl.rs:52-74 | without new requests the two loops, however they take turns, rest after a bounded number of steps |
| SessionProgress.WhatIsLeft | examples/rpc/net/sync_impl.rs:28-42 | when neither loop can go on, each request is completed, dropped or left waiting, and it is left waiting if and only if the session is the blocking one, its channel still open, and nothing was noted about the id since the registration |
| SessionOrder.ServedInOrder | examples/rpc/net/async_impl.rs:47-63 | in every run of either flavour the requests registered, the one held and those queued are, in this order, the requests handed in, each with its own requester; all of them, until the sending loop has ended |
| SessionOrder.TakenIff | examples/rpc/net/async_impl.rs:30-44 | a request is refused only when nobody holds the channel any more or, in the asynchronous session, while 1024 are queued; otherwise it is queued last, or dropped at once when the sending loop has ended |
| SessionOrder.QueueIsBounded | examples/rpc/net/async_impl.rs:30-44 | in every run of the asynchronous session at most 1024 requests are queued |
| SessionOrder.SendEndsIff | examples/rpc/net/sync_impl.rs:44-62 | the sending loop ends well exactly when nothing is queued and all requesters are gone, and fails exactly with a write |
| SessionOrder.RecvEndsIff | examples/rpc/net/sync_impl.rs:64-73 | the receiving loop ends exactly when the stream goes on with no frame |
| SessionOrder.EndsTheOther | examples/rpc/net/async_impl.rs:37-44 | a loop that fails takes the other with it in the asynchronous session and never in the blocking one; one that ends well never does |
| SessionIds.EvictionExactly | examples/rpc/net/async_impl.rs:56-57 | a registration is lost to a later one exactly when the id is still in the map |
| SessionIds.WithdrawsOnlyItsOwn | examples/rpc/net/async_impl.rs:58-61 | a failed write never removes another request's registration |
| SessionIds.NoEviction | examples/rpc/net/async_impl.rs:56-57 | with ids that are not in flight when handed in, no registration is ever lost |
| SessionIds.Misrouted | examples/rpc/net/async_impl.rs:56-72 | two requests under one id: the reply reaches the second one, the first is dropped |
| SessionIds.DrawnIsFresh | examples/rpc/message.rs:7-11 | ids drawn from the global counter, by any number of sessions and handed in in any order, are fresh if and only if no request is handed in a multiple of 2^32 draws away from one in flight |
| SessionIds.NearIsFresh | examples/rpc/message.rs:7-11 | so distinct draws are fresh, in runs of any length, when those in flight span less than 2^32 draws |
| SessionIds.CountedIsFresh | examples/rpc/message.rs:7-11 | in particular the first 2^32 requests of one session that draws in order |
| SessionIds.IdsRecur | examples/rpc/message.rs:7-11 | two draws give the same id exactly when they are a multiple of 2^32 apart |
| SessionIds.DrawsCount | examples/rpc/message.rs:7-11 | the first number drawn is 1, each is one more than the one before, and 0 follows the largest |
| SessionCode.IoSession.RunSend | examples/rpc/net/async_impl.rs:47-63 | the sending loop, in place and under every schedule, stays within the runs of the model, takes no reply back, and ends only hung up with all requests on the connection, failed, or cancelled - also between the pieces of a frame |
| SessionCode.IoSession.SendMessage | examples/rpc/net/async_impl.rs:76-82 | the asynchronous writer leaves exactly the frame, cut where the connection breaks, and fails exactly then or on a payload too long; cancelled between two pieces it leaves some prefix |
| SessionCode.IoSession.SendMessageBlocking | examples/rpc/net/sync_impl.rs:73-84 | the blocking writer leaves the frame, cut where the connection breaks, or nothing of a payload too long, and fails exactly then |
| SessionCode.IoSession.RunRecv | examples/rpc/net/async_impl.rs:65-74 | the receiving loop does the same, and when it fails it has taken every frame of the stream |
| Executor.RunKeeps | examples/rpc/practice.rs:126-250 | every run keeps each call on its plan, its threads to itself, and its place in one queue |
| JobOrder.EntersItsThreads | examples/rpc/practice.rs:144-181 | the workers a plan enters, walked from the client, are its thread hops in order, without those that repeat the hop just before them |
| JobOrder.FirstComeFirstServed | examples/rpc/practice.rs:318-339 | in every run the calls a worker has taken, followed by those still queued at it, are the calls sent to it, in order; both read off the status changes of the calls |
| JobOrder.FreedInnermostFirst | examples/rpc/practice.rs:342-357 | in every run the workers busy for a call are the first ones its plan enters, up to some number, so none is free before those entered after it |
| JobOrder.FreesOne | examples/rpc/practice.rs:342-357 | a step frees at most one worker, the last one entered of those the call is in, and only when its job returns |
| Forwarding.HandlersRunOnce | examples/rpc/practice.rs:126-186 | a handler runs at most once for each call, at its plan's destination; when the call has returned it has run, and what is returned is what it answered |
| Forwarding.NoCycle | examples/rpc/practice.rs:169-181 | with plans ordered by one ranking the wait-for graph is acyclic in every run |
| Forwarding.NoDeadlock | examples/rpc/practice.rs:324-357 | then, as long as a call has not returned, some call can go on |
| Forwarding.WorkIsBounded | examples/rpc/practice.rs:126-186 | calls need a bounded number of actions, whatever their order |
| Forwarding.AllCallsReturn | examples/rpc/practice.rs:126-186 | with ordered plans every run that goes on as long as it can returns all calls, each handler having run and its answer being what its call returned |
| Forwarding.RepeatsNeverReturn | examples/rpc/practice.rs:158-181 | a call whose plan enters a worker twice never runs its handler |
| Forwarding.SelfDeadlock | examples/rpc/practice.rs:144-181 | going back to a worker by way of a remote site is such a plan |
| Forwarding.ReturnsIff | examples/rpc/practice.rs:126-186 | a call on its own returns if and only if the workers it enters are pairwise distinct |
| Deadlocks.PairDeadlocksIff | examples/rpc/practice.rs:169-181 | two calls can block each other for ever if and only if one enters a worker twice or their plans cross: each comes to wait for a worker the other holds by then, and until then they share none |
| Deadlocks.OppositeOrders | examples/rpc/practice.rs:169-181 | two workers entered in opposite orders are such plans, although neither repeats a worker |
| ExecutorCode.Runtime.ExecCursor | examples/rpc/practice.rs:126-186 | one level of the recursion, in place, is one step of the model |
| ExecutorCode.Runtime.TakeCommand | examples/rpc/practice.rs:319-339 | a worker takes the first command of its queue, and the rest stay in their order |
| ExecutorCode.Runtime.SendResult | examples/rpc/practice.rs:342-357 | the end of a job frees the worker the call entered last and no other, and hands its result to the thread that waits |
| ExecutorCode.Runtime.Drive | examples/rpc/practice.rs:318-357 | running whatever can move, in any order of the threads, terminates with nothing left to move, and with ordered plans with every call returned, each with the answer of its own handler |
| ExecutorCode.Runtime.Execute | examples/rpc/practice.rs:94-107 | a call from outside starts at the client with its whole plan ahead, and no other call is touched |
| ExecutorCode.Runtime.ExecuteSync | examples/rpc/practice.rs:94-107 | with ordered plans a call from outside returns what its own handler answered, at the destination of its plan, whatever else is under way |
| AttributeGrammar.ParsesExactlyTheGrammar | forward_macro/src/config/macros.rs:85-121 | for every list of fields and tokens the parser accepts exactly positional settings in order, then distinct named ones, and an optional comma, with each value in its own field |
| AttributeGrammar.ItemSound | forward_macro/src/config/macros.rs:95-111 | what one round of the loop accepts is a setting that may stand there |
| AttributeGrammar.ItemComplete | forward_macro/src/config/macros.rs:95-111 | every setting that may stand there is accepted, with its value |
| AttributeGrammar.ValueSound | forward_macro/src/config/mod.rs:14-30 | what is parsed as a value is a way of writing it |
| AttributeGrammar.ValueComplete | forward_macro/src/config/mod.rs:14-30 | every way of writing a value is parsed as that value |
| AttributeGrammar.NoPositionalText | forward_macro/src/config/macros.rs:96-106 | in every accepted list of every schema a string literal stands only after the name of a text field and an equals sign, so never by position |
| AttributeGrammar.TextIsNoPath | forward_macro/src/config/macros.rs:96-106 | a list that begins with a string literal is refused for want of a path |
| AttributeGrammar.ProxyIsNamed | forward_macro/src/config/mod.rs:32-35 | the proxy attribute accepts nothing but an empty list or a named name |
| AttributeGrammar.TimeoutIsANumber | forward_macro/src/config/mod.rs:37-43 | in every accepted list, wherever the timeout is set, a number follows |
| AttributeGrammar.TimeoutIsNoWord | forward_macro/src/config/mod.rs:37-43 | a list that begins with a word for a timeout is refused for want of a number |
| ForwardAttribute.PathIsSpelled | forward_macro/src/config/mod.rs:14-19 | a path is written as its segments with separators in between, and one in front if it is a leading path |
| ForwardAttribute.ValuesRead | forward_macro/src/config/mod.rs:14-30 | a path alone or with empty parentheses has no selector, one with an expression has it, anything else in parentheses is refused; a text and a number are single tokens |
| ForwardAttribute.SettingsByName | forward_macro/src/config/mod.rs:37-43 | server and thread take a selector, name a text, timeout a number, and each sets what it is called and nothing else |
| ForwardAttribute.FirstIsServer | forward_macro/src/config/mod.rs:37-43 | one value by position is the server, whatever named settings follow |
| ForwardAttribute.SecondIsThread | forward_macro/src/config/mod.rs:37-43 | two values by position are the server and the thread, in this order |
| ForwardAttribute.NoThirdByPosition | forward_macro/src/config/mod.rs:37-43 | a third value by position is refused |
| ForwardAttribute.NoPositionAfterName | forward_macro/src/config/macros.rs:95-111 | for every list of fields, once a setting was named no value is taken by position |
| ForwardAttribute.AllSettings | forward_macro/src/config/mod.rs:37-43 | all four settings together are accepted, two by position and two by name or all by name in the opposite order, and set the same config |
| ForwardAttribute.ErrorsReported | forward_macro/src/config/macros.rs:58-121 | an unknown name, a name given twice, and a missing comma are reported as such |
| ForwardAttribute.WrongKind | forward_macro/src/config/macros.rs:160-182 | a value of the wrong kind is reported as what was expected instead |
| AttributeParser.ParseConfig | forward_macro/src/config/macros.rs:85-121 | the generated loop terminates and accepts exactly the grammar |
| AttributeParser.ParseSettings | forward_macro/src/config/macros.rs:58-121 | the loop computes the parse, and neither the assertion in set_elided nor the unwrap can fail |
| AttributeParser.ParseItem | forward_macro/src/config/macros.rs:95-111 | a round of the loop on the cursor and its fork |
| AttributeParser.ParseStream.ParseNamed | forward_macro/src/config/macros.rs:160-182 | the search for a named setting moves the cursor as the model says |
| AttributeParser.ParseStream.ParseSelector | forward_macro/src/config/mod.rs:14-30 | a path with an optional parenthesised selector is read off the cursor |
| ConstString.StackStrReads | const_string/src/lib.rs:157-192 | inline bytes carry the stack tag, the length and the text |
| ConstString.HeapStrReads | const_string/src/lib.rs:78-91 | a pair of aligned pointer and length carries no stack tag and gives both back |
| ConstString.RefinesStrings | const_string/src/lib.rs:64-133 | any sequence of creation, clone, in-place write and drop behaves like independent byte strings and never reads, writes or frees what it should not, nor with a wrong or zero size |
| ConstString.EachOperationMakes | const_string/src/lib.rs:64-133 | in every run a creation adds its text, a clone the text of the other string, a write sets the byte at its place and leaves every other one, a drop removes one string; and no operation touches another string |
| ConstString.BytesOf | const_string/src/lib.rs:137-192 | the sixteen bytes in every run: twice the length plus one and then the text, if it has at most fifteen bytes; otherwise an even address, at which the text is, and the length, both least significant byte first |
| ConstString.EvenAddressesDo | const_string/src/lib.rs:12-12 | of the allocator only an even address is asked |
| ConstString.TagIdentifiesVariant | const_string/src/lib.rs:78-117 | a string is inline exactly when it has at most fifteen bytes, and its length is that of its text |
| ConstString.NothingLeaks | const_string/src/lib.rs:121-133 | blocks and long strings correspond one to one, and none is left with the last string |
| ConstString.CloneKeeps | const_string/src/impls.rs:121-139 | a clone reads the same and has a block of its own |
| ConstStringCode.Strings.New | const_string/src/lib.rs:65-76 | a new string holds its text and no other string changes |
| ConstStringCode.Strings.Length | const_string/src/lib.rs:94-100 | the length read off the bytes is that of the text |
| ConstStringCode.Strings.AsStr | const_string/src/lib.rs:102-108 | the bytes give back the text |
| ConstStringCode.Strings.SetAt | const_string/src/lib.rs:110-116 | a write through the mutable slice puts the byte at its index, leaves every other byte of the string as it was, and no other string changes |
| ConstStringCode.Strings.Clone | const_string/src/impls.rs:121-139 | a clone adds a string with the same text |
| ConstStringCode.Strings.Drop | const_string/src/lib.rs:121-133 | a drop removes one string and frees its block |

## Left out

- The futex is an atomic compare-and-sleep and a wake-all; the builds of `wait_ready` that spin or use a test scheduler are not modelled separately.
- Values and tasks are numbers: the channel only moves them, and two wakers are the same to `will_wake` when they have the same task.
- Panics in waker clones, waker wake-ups and user handlers, and fairness of the scheduler.
- Progress.CallsFinish: how often a step is hindered is not bounded: a weak compare-and-swap may fail spuriously and a load may read a word it has already seen for as long as the hardware lets it, and a thread sleeps until somebody wakes it.
- InnerCode.Inner.RecvCall: a `recv` that is asleep when the schedule no longer hinders it, with the sender alive, is reported as asleep.
- Sockets, tasks and mpsc channels are a connection that breaks after some number of bytes, a byte stream that ends, and a queue; when a bounded queue is full the submitter waits.
- Codec.Receive: stands for both readers, whose bodies differ only in how they wait; reading a size allocates nothing in the model.
- `IoSession::fetch_next_id` and its counter, which nothing calls.
- Executor: the shutdown command, worker threads that panic, and names the registry does not know, which stop the program; a plan is taken as known when a call starts.
- The service behind the handlers: a result is a number the handler of a call answers, and what it is computed from is not modelled.
- Attributes: paths with generic arguments, spans and the wording of errors; an identifier token is anything a path segment may be, and the inside of parentheses is nothing, one expression, or neither.
- The code generation that uses the parsed settings, and the dispatch crate `forward`.
- ConstString: the big-endian and 32-bit layouts, UTF-8 validity, and the delegating trait implementations; the allocator answers an aligned address of no live block, or the operation does not happen.
- `examples/rpc/lock/spin.rs` is taken as mutual exclusion: each access to the session map is one step.
