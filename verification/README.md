# Verified models of the ring buffer benchmark and the echo servers

This project models, in Dafny, the concurrent parts of the repository and proves what they promise.

Every protocol is a state machine: a datatype for the whole shared state, a datatype of steps (one
per atomic action), `Enabled` and `Apply`. A run is a sequence of steps, and the schedule is
arbitrary: any step that is enabled may come next. What other threads, the kernel and the sockets
answer is a parameter of the step, limited only by the range of results the operation allows. The
theorems are about all runs. Beside each machine stands a class in the form of the C++ code: its
methods are the source's statements in the source's order, other threads may run any number of their
own steps before each shared access, and every method is tied to the machine through `Valid()`, which
says that the object is where its recorded history leads the machine. What the world answers to the
followed thread (what a read, a wait or an accept returns, how far a load is behind, whose turn it is)
is an argument, so that a contract says what is done about each answer.

* **The lock-free ring** (`words`, `fifo`, `spsc_ring*`). Release/acquire is modelled by views. An
  atomic index is the list of the values stored to it, each with what its thread knew at that store.
  A load of the other thread's index returns any store not older than the newest one the loader knows
  of, and adds the knowledge that store carries. A thread's load of its own index is exact, because
  the index has one writer. The slots are plain memory: each access is recorded, and the absence of a
  data race is the theorem that earlier conflicting accesses are always in the accessing thread's
  past (`NoDataRace`); it is what makes it sound to treat slots as plain values. Indices are 64-bit
  words that wrap; the proofs count without bound. A popped slot may be left with any value.
* **The benchmark programs** (`bench_ring*`, `mutex_queue`). Producer, consumer and the `done` flag
  over the ring; the same benchmark over the mutex queue, whose critical sections are single turns.
* **The thread pool** (`thread_pool*`). Mutex, condition variable with spurious wake-ups, task queue,
  `running_`, any number of workers and enqueuers. Locking, testing the predicate, blocking, waking,
  pushing, unlocking, notifying and the two halves of `stop()` are separate steps.
* **The epoll and kqueue servers** (`echo_server*`, `write_loop`). One machine for both flavours: the
  network thread, the embedded pool machine, partial writes, EAGAIN, hard write errors, events with
  the error flag, and descriptors that are reused after `close`, so that a connection has a number of
  its own.
* **The io_uring server** (`io_uring*`). Heap, submission queue, requests in flight, completion queue,
  client descriptors, and the kernel, which may complete anything in flight at any time, also during
  a scan. A `Request*` is a key of a map, because a Dafny reference cannot dangle: freeing twice, use
  after free, queueing a request twice and closing a closed descriptor can all be expressed, set
  `fault`, and are proved not to happen. The allocator may return a freed address again.

Where the code falls short of a plain reading of its promise, the exact condition is proved and a
run, or every run, shows the failure:

* `static_assert((Size & (Size - 1)) == 0)` accepts every power of two and also `Size == 0`
  (`StaticAssertAccepts`); among the accepted sizes zero, and only zero, makes a ring that refuses
  every push for ever (`RefusesForeverExactly`).
* `stop()` clears the flag and notifies without the mutex. It can return without some later wake-up if
  and only if no worker is between its test of the predicate and the wait at that moment
  (`StopReturnsExactly`, `StopCanHang`).
* The epoll and kqueue servers promise that a descriptor is never closed under a worker that still
  writes to it. That each connection's bytes leave in order, that each write reaches its own
  connection, and that each close comes after the last byte: each of the three holds in every run if
  and only if the pool has at most one worker (`OrderExactly`, `TargetExactly`, `CloseExactly`). With
  two, bytes change places (`TwoWorkersCanReorder`), or the close task overtakes the write
  (`CloseOvertakesWrite`) and the byte is sent to the next client on that descriptor
  (`AnotherClientsByte`). With more than one worker all three still hold when a connection is read
  only after its earlier bytes were written (`SpacedReadsEchoInOrder`).
* Those three are about runs whose error events close only connections that are owed nothing. The
  network thread closes on an error event at once, whatever is still to be written; over all runs
  order and target are kept only by a server without workers, and the close after the last byte by
  none (`ErrorEventsBreakExactly`).
* After a hard write error, which is any error but EAGAIN, EINTR included, the task is given up and the
  next one starts. The bytes that leave have no gap if and only if nothing was let out after a task
  was given up with bytes left (`GivingUpLeavesGaps`, `GivingUpLosesByte`).
* `handle_send` ignores the result of the send. The bytes that leave have no gap if and only if no
  send after a short or failed one lets anything out (`ShortSendsLeaveGaps`, `ShortSendLosesByte`).
* A connection of the io_uring server is abandoned, with its descriptor open for ever, if and only if
  at some step its receive returned `-EAGAIN` or its next operation met a full submission queue
  (`AbandonedByExactly`, `AbandonedForGood`, `EagainAbandons`).

The repository's README (line 151) says that `BUF_SIZE` was raised to 16384; the code still has 4096
(`echo_server/flavors/epoll/server.h:28`), and the model follows the code.

`dafny verify dfyconfig.toml` checks the whole project.

## Model

| member | source | states |
|---|---|---|
| Words.StaticAssertAccepts | ring_buffer.cc:8 | The compile-time check holds for exactly the powers of two, and for zero |
| Words.MaskIsRemainder | ring_buffer.cc:31-32 | For a power of two, masking with `Size - 1`, bit by bit, is the remainder modulo `Size` |
| Words.SlotOfWrapped | ring_buffer.cc:32 | For an accepted non-zero size, an index that has wrapped at 2^64 selects the slot of the unbounded index modulo `Size` |
| Words.WrappedDifference | ring_buffer.cc:24-27 | While two counters are less than 2^64 apart, the wrapped difference is the true difference |
| Words.WrappedEqual | ring_buffer.cc:43 | While two counters are less than 2^64 apart, their words are equal only if the counters are |
| Words.SlotsDiffer | ring_buffer.cc:27-35 | Two indices less than `Size` apart never select the same slot |
| Fifo.NothingLostOrReordered | ring_buffer_benchmark.cc:131-136 | Anything that behaves as the bounded queue loses, duplicates and reorders nothing and keeps its bound |
| SpscRingSafety.FullTestExact | ring_buffer.cc:23-29 | The wrapped full test holds exactly when the occupancy the producer saw is `Size`, whichever stale store it read |
| SpscRingSafety.EmptyTestExact | ring_buffer.cc:40-45 | The wrapped empty test holds exactly when the store the consumer saw is the one of the last item popped |
| SpscRingSafety.FillSlotFree | ring_buffer.cc:27-32 | The slot the producer writes is inside the buffer and holds no item still to be popped |
| SpscRingSafety.TakeSlotFull | ring_buffer.cc:43-47 | The slot the consumer reads holds the oldest item pushed and not popped, and no later item shares it |
| SpscRingSafety.StepKeepsInv | ring_buffer.cc:21-50 | Every atomic step of either thread keeps the window of slots, the knowledge of both threads and the stores consistent |
| SpscRingSafety.RunKeepsInv | ring_buffer.cc:21-50 | So does every run, of any length, index wrap-around included |
| SpscRingSafety.StepRefinesFifo | ring_buffer.cc:21-50 | A push takes effect at its store of `write_idx`, a pop at its store of `read_idx`, and no other step changes the abstract queue |
| SpscRingSafety.RunRefinesFifo | ring_buffer.cc:21-50 | Every run from a consistent state shows a behaviour of a bounded queue of capacity `Size` |
| SpscRingSafety.RingRefinesFifo | ring_buffer.cc:6-51 | Every run of a fresh ring shows a behaviour of the bounded queue starting empty, and what was popped is a prefix of what was pushed |
| SpscRingSafety.PushRefusalConservative | ring_buffer.cc:27-29 | A push goes ahead only with room, and refuses only when the occupancy it saw was `Size`; a fresh view refuses only a full ring |
| SpscRingSafety.PopRefusalConservative | ring_buffer.cc:43-45 | A pop goes ahead only with an item there, and refuses only when it saw no push after the last pop; a fresh view refuses only an empty ring |
| SpscRingSafety.RefusesForeverExactly | ring_buffer.cc:8-29 | Among the sizes the compile-time check accepts, no run ever pushes anything if and only if the size is zero |
| SpscRingSafety.FillHasNoRace | ring_buffer.cc:27-35 | Every earlier read of the slot about to be written happened before the write |
| SpscRingSafety.TakeHasNoRace | ring_buffer.cc:43-48 | Every earlier write of the slot about to be read happened before the read |
| SpscRingSafety.SlotsDisjoint | ring_buffer.cc:32-47 | Past their checks the two threads address different slots |
| SpscRingSafety.NoDataRace | ring_buffer.cc:21-50 | The three facts above in every state that any run reaches |
| SpscRingBufferClass.SpscRingBuffer.constructor | ring_buffer.cc:19 | A new ring of an accepted size is the machine's initial state over its own buffer |
| SpscRingBufferClass.SpscRingBuffer.LoadOwnWrite | ring_buffer.cc:23-24 | The relaxed load of the thread's own index is the machine's step |
| SpscRingBufferClass.SpscRingBuffer.CheckFull | ring_buffer.cc:27-29 | The acquire load of `read_idx` and the comparison are the machine's step, for any store that may be read |
| SpscRingBufferClass.SpscRingBuffer.FillSlot | ring_buffer.cc:32 | Writing the array slot is the machine's step; the index is in bounds |
| SpscRingBufferClass.SpscRingBuffer.PublishWrite | ring_buffer.cc:35 | The release store of `write_idx` is the machine's step and the item joins `pushed` |
| SpscRingBufferClass.SpscRingBuffer.LoadOwnRead | ring_buffer.cc:40 | The relaxed load of the thread's own index is the machine's step |
| SpscRingBufferClass.SpscRingBuffer.CheckEmpty | ring_buffer.cc:43-45 | The acquire load of `write_idx` and the comparison are the machine's step, for any store that may be read |
| SpscRingBufferClass.SpscRingBuffer.TakeSlot | ring_buffer_benchmark.cc:125 | Reading, and moving out of, the array slot is the machine's step; the index is in bounds |
| SpscRingBufferClass.SpscRingBuffer.PublishRead | ring_buffer.cc:48 | The release store of `read_idx` is the machine's step and the item joins `popped` |
| SpscRingBufferClass.SpscRingBuffer.Push | ring_buffer_benchmark.cc:113-120 | With the consumer running in between, and the load as far behind as it is told to be: true exactly when the item, and nothing else, was appended, and that is exactly when the occupancy it saw was less than `Size` |
| SpscRingBufferClass.SpscRingBuffer.Pop | ring_buffer_benchmark.cc:122-128 | With the producer running in between, and the load as far behind as it is told to be: true exactly when the oldest item left and was returned, and that is exactly when it saw a push after the last pop |
| BenchRing.RingSizeAccepted | ring_buffer_benchmark.cc:95-106 | 4096 passes the compile-time check |
| BenchRing.StepKeepsInv | ring_buffer_benchmark.cc:176-203 | Every step keeps: message k is pushed k-th, `done` carries the knowledge of every push, a drain knows all of them |
| BenchRing.RunKeepsInv | ring_buffer_benchmark.cc:176-203 | So does every run |
| BenchRing.ConsumerGetsEveryMessage | ring_buffer_benchmark.cc:176-203 | In every run the consumer has popped 0, 1, 2, .. in order, and when it stops, all of them once each, with the ring empty |
| BenchRing.DrainMissesNothing | ring_buffer_benchmark.cc:196-198 | After `done` was seen the drain stops if and only if the ring is empty |
| BenchRing.NextMoveProgresses | ring_buffer_benchmark.cc:180-203 | In every state some step is enabled that brings the end closer by a measure |
| BenchRing.CanAlwaysEnd | ring_buffer_benchmark.cc:180-203 | From every state there is a continuation that ends with every message received: no deadlock |
| BenchRingProgram.Benchmark.ProducerAction | ring_buffer_benchmark.cc:180-189 | The producer thread takes exactly its next atomic action, and nobody else takes one |
| BenchRingProgram.Benchmark.ConsumerPops | ring_buffer_benchmark.cc:191-198 | The consumer inside a pop takes exactly its next atomic action, and nobody else takes one |
| BenchRingProgram.Benchmark.ConsumerAsksDone | ring_buffer_benchmark.cc:196 | The consumer loads `done`, seeing the store if it has been made and the load is not behind it, and nobody else acts |
| BenchRingProgram.RunBenchRing | ring_buffer_benchmark.cc:176-209 | Under any schedule every action is the one the thread whose turn it is takes next; what was popped is a prefix of the messages, and all of them once the consumer ended, and short of that every action asked for was taken |
| MutexQueue.Queue.PushTurn | ring_buffer_benchmark.cc:145-156 | One critical section of push: the bounded queue's enqueue exactly when there is room, else nothing changes |
| MutexQueue.Queue.PopTurn | ring_buffer_benchmark.cc:158-170 | One critical section of pop: the bounded queue's dequeue exactly when there is an item, else nothing changes |
| MutexQueue.RunKeepsInv | ring_buffer_benchmark.cc:218-235 | Produced is popped followed by queued, between any two critical sections of any run |
| MutexQueue.ConsumerGetsEveryMessage | ring_buffer_benchmark.cc:218-235 | The same promise as the ring's: in order, once each, and an empty queue at the end |
| MutexQueue.TurnProgresses | ring_buffer_benchmark.cc:222-235 | A turn either changes nothing or brings the end closer by a measure |
| MutexQueue.StuckExactly | ring_buffer_benchmark.cc:218-235 | No turn of any thread changes anything if and only if the benchmark is over or the queue was built with no capacity |
| MutexQueue.RunRefinesFifo | ring_buffer_benchmark.cc:137-171 | Every run shows a behaviour of the bounded queue the ring refines |
| MutexQueue.RunBenchMutex | ring_buffer_benchmark.cc:218-242 | Under any schedule the queue, the messages popped and the end are those of the turns that the schedule asks for; what was popped is a prefix of the messages, and all of them, with nothing left, at the end |
| ThreadPoolSafety.StepKeepsInv | echo_server/common/thread_pool.cpp:35-111 | Every step of every thread keeps mutual exclusion, the ticket of every task, the tests made under the mutex, the wake-up account and the account of the stop |
| ThreadPoolSafety.RunKeepsInv | echo_server/common/thread_pool.cpp:35-111 | So does every run, for any number of workers and enqueuers |
| ThreadPoolTheorems.EachTaskOnce | echo_server/common/thread_pool.cpp:55-111 | Dequeue order is enqueue order, and every task is in exactly one place: queued, finished, or with exactly one worker, which runs that very task |
| ThreadPoolTheorems.PopsUnderMutex | echo_server/common/thread_pool.cpp:84-105 | A worker that reaches the pop finds a task, and no two threads hold the mutex |
| ThreadPoolTheorems.NoLostWakeup | echo_server/common/thread_pool.cpp:55-61 | While running, a non-empty queue with every worker asleep means an enqueuer still owes a notification, one for each queued task |
| ThreadPoolTheorems.SleepersAreNotNeeded | echo_server/common/thread_pool.cpp:87-104 | While a worker sleeps, the queue is no longer than the notifications owed and the workers about to look |
| ThreadPoolTheorems.FewTasksAfterStop | echo_server/common/thread_pool.cpp:83-105 | After `running_` fell each worker pops at most one more task, so at most as many as there are workers |
| ThreadPoolTheorems.WorkerHeadsForExit | echo_server/common/thread_pool.cpp:82-110 | After `running_` fell every step of a worker not asleep lowers a measure, to its exit or, from the window before the wait, into its sleep; and if it waits for the mutex the holder can move |
| ThreadPoolTheorems.LeavingWorkerExits | echo_server/common/thread_pool.cpp:82-110 | Over any run after `running_` fell, a worker neither asleep nor about to block never sleeps again: others never raise its rank, each of its at most seven steps lowers it, and rank 0 is its exit |
| ThreadPoolTheorems.MissedWorkerStays | echo_server/common/thread_pool.cpp:36-39 | A worker caught between its test and its wait by `notify_all` never exits without a later wake-up |
| ThreadPoolTheorems.AllCanExit | echo_server/common/thread_pool.cpp:35-41 | If no worker was caught there, the workers can all exit without a further wake-up and the joins succeed |
| ThreadPoolTheorems.StopReturnsExactly | echo_server/common/thread_pool.cpp:35-41 | After `notify_all`, stop can return without some later wake-up if and only if no worker is in that window; at most one can be |
| ThreadPoolTheorems.StopCanHang | echo_server/common/thread_pool.cpp:36-39 | A run in which the only worker is in that window, sleeps for good, and stop cannot return |
| ThreadPoolProgram.WorkerPool.WorkerLoop | echo_server/common/thread_pool.cpp:82-111 | With everybody else running in between: the tasks a worker ran are those it popped, each finished, in enqueue order; it exits only after `running_` fell, and short of that it has run as many tasks as were watched for, sleeps, or waits for the mutex |
| ThreadPoolProgram.WorkerPool.WaitOrGiveUp | echo_server/common/thread_pool.cpp:94-97 | The wait is left with the mutex held and the predicate just found true; until then the worker sleeps or waits for the mutex |
| ThreadPoolProgram.WorkerPool.TestPredicate | echo_server/common/thread_pool.cpp:95 | The predicate is true exactly when there is a task or the pool is stopping |
| ThreadPoolProgram.WorkerPool.Decide | echo_server/common/thread_pool.cpp:100 | The worker leaves exactly when the pool is stopping and the queue is empty, and then gives the mutex back |
| ThreadPoolProgram.WorkerPool.Dequeue | echo_server/common/thread_pool.cpp:103-104 | The pop finds a task, takes the oldest, and gives it to this worker |
| ThreadPoolProgram.WorkerPool.RunTask | echo_server/common/thread_pool.cpp:105-109 | The task taken is run to its end with the mutex released |
| ThreadPoolProgram.WorkerPool.Enqueue | echo_server/common/thread_pool.cpp:55-61 | With everybody else running in between, the task enters the queue exactly once, among exactly what the others push meanwhile; while the mutex is held it does not enter |
| ThreadPoolProgram.WorkerPool.NotifyOneWorker | echo_server/common/thread_pool.cpp:60 | Exactly one sleeping worker is woken if there is one, else nobody |
| ThreadPoolProgram.WorkerPool.NotifyAll | echo_server/common/thread_pool.cpp:37 | Exactly the workers asleep at that moment are woken |
| ThreadPoolProgram.WorkerPool.Stop | echo_server/common/thread_pool.cpp:35-41 | The flag is cleared, after that every sleeper is woken, and after that the joins succeed exactly when every worker has left its loop |
| EchoServerSafety.StepKeepsInv | echo_server/flavors/epoll/server.cpp:103-249 | Every step under the discipline, error events included, keeps per connection: written followed by still to be written is read; every unfinished task names a descriptor that stands for its connection; the close task is the last |
| EchoServerSafety.CalmRunKeepsInv | echo_server/flavors/epoll/server.cpp:103-249 | So does every run under the discipline |
| EchoServerSafety.WriteReachesItsConnection | echo_server/flavors/epoll/server.cpp:230-235 | In every state that a run under the discipline reaches, a write reaches the connection its bytes were read from, although descriptors are reused; `TargetExactly` says for how many workers |
| EchoServerSafety.WriteMovesBytes | echo_server/flavors/epoll/server.cpp:233-246 | The bytes a write sends are the first of those the connection is still owed |
| EchoServerTheorems.EchoInOrder | echo_server/flavors/epoll/server.cpp:197-249 | When each pop, and each error event, finds the earlier bytes of its connection written: output is a prefix of input, a connection is closed at most once and only after its last byte, and writes hit the right connection |
| EchoServerTheorems.OneWorkerIsCalm | echo_server/common/thread_pool.cpp:82-111 | With at most one worker every run keeps the discipline on pops |
| EchoServerTheorems.OneWorkerEchoesInOrder | echo_server/flavors/epoll/server.cpp:197-249 | With at most one worker, when error events close only connections that are owed nothing: output is always a prefix of input, and the close comes after the last byte |
| EchoServerTheorems.SpacedRunIsCalm | echo_server/flavors/epoll/server.cpp:201-248 | With any number of workers the discipline is kept if each connection is read, or found in error, only after its earlier bytes were written |
| EchoServerTheorems.SpacedReadsEchoInOrder | echo_server/flavors/epoll/server.cpp:201-248 | And then output is always a prefix of input, the close comes after the last byte, and writes reach their own connection |
| EchoServerTheorems.EarlyPopReorders | echo_server/flavors/epoll/server.cpp:226-248 | A pop of a task that does not start with the byte its connection is owed next breaks the discipline, and three steps then break the prefix |
| EchoServerTheorems.CalmPopStartsWithNextByte | echo_server/flavors/epoll/server.cpp:226-248 | A pop that keeps the discipline yields the task that starts with the byte owed next |
| EchoServerReorder.TwoWorkersCanReorder | echo_server/flavors/epoll/server.cpp:226-248 | For any number of workers from two up, a run in which a client that sent 1 2 has been sent 2 |
| EchoServerReorder.CloseOvertakesWrite | echo_server/flavors/epoll/server.cpp:203-246 | For any number of workers from two up, a run in which a client is closed while a worker is still to write to it |
| EchoServerReorder.ErrorLosesBytes | echo_server/flavors/epoll/server.cpp:121-125 | For any number of workers, a run in which an error event closes a client before its byte is written |
| EchoServerReorder.ErrorStrikesEarly | echo_server/flavors/kqueue/server.cpp:151-155 | For any number of workers from one up, a run in which an error event closes a client under the worker that is to write to it |
| EchoServerReorder.GivingUpLosesByte | echo_server/flavors/epoll/server.cpp:239-245 | For any number of workers from one up, a run in which a write fails and a client that sent 1 2 has been sent 2 |
| EchoServerExact.OrderExactly | echo_server/flavors/epoll/server.cpp:197-249 | Where error events close only connections owed nothing, in every run every output is a prefix of its input if and only if there is at most one worker |
| EchoServerExact.TargetExactly | echo_server/flavors/epoll/server.cpp:203-246 | Where error events close only connections owed nothing, in every run every worker that writes has the descriptor of the connection its bytes were read from, if and only if there is at most one worker |
| EchoServerExact.CloseExactly | echo_server/flavors/epoll/server.cpp:203-246 | Where error events close only connections owed nothing, in every run every connection closed without a write error had all its bytes written, if and only if there is at most one worker |
| EchoServerExact.AnotherClientsByte | echo_server/flavors/epoll/server.cpp:203-246 | For any number of workers from two up, a run in which a byte one client sent is sent to another |
| EchoServerExact.ErrorEventsBreakExactly | echo_server/flavors/epoll/server.cpp:121-125 | With error events at any time, order and target are kept in every run if and only if there is no worker, and the close after the last byte never is |
| EchoServerGiveUps.GivingUpLeavesGaps | echo_server/flavors/epoll/server.cpp:234-247 | Under the discipline, hard write errors included: each byte sent is the input byte at its offset, and the offsets have no gap if and only if nothing was let out after a task was given up with bytes left; then output is a prefix |
| EchoServerGiveUps.OneWorkerLeavesGaps | echo_server/flavors/kqueue/server.cpp:278-291 | The same for at most one worker and any schedule |
| EchoServerAlways.StepKeepsAlways | echo_server/flavors/epoll/server.cpp:103-249 | With no discipline at all every step, error events included, keeps: events name open descriptors, a pending close names its own connection, every connection is open or closed |
| EchoServerAlways.RunKeepsAlways | echo_server/flavors/epoll/server.cpp:103-249 | So does every run, for any number of workers |
| EchoServerAlways.ClosedOnceOrOpen | echo_server/flavors/kqueue/server.cpp:148-265 | Every connection is either open on exactly one descriptor or was closed exactly once, by a close task, an error event or a failed registration |
| EchoServerAlways.EventsNameOpenConnections | echo_server/flavors/epoll/server.cpp:118-133 | `handle_read`, and the close of an error event, are only ever given the descriptor of an open connection, although workers close concurrently |
| EchoServerAlways.CloseReachesItsConnection | echo_server/flavors/epoll/server.cpp:201-215 | A close task closes the connection whose end was read, and no other |
| EchoServerAlways.EveryByteHandedOver | echo_server/flavors/epoll/server.cpp:223-230 | The echo tasks of a connection, in queue order, carry exactly the bytes read from it |
| EchoServerProgram.NetworkThread.HandleRead | echo_server/flavors/epoll/server.cpp:197-249 | Given what `read` returns: data becomes one echo task at the end of the queue, an end or error one close task after the descriptor left the watched set, EAGAIN nothing, whatever the workers do meanwhile; it waits only for the mutex |
| EchoServerProgram.NetworkThread.Submit | echo_server/common/thread_pool.cpp:55-61 | The hand-off appends exactly this task to the queue, and waits only for the mutex |
| EchoServerProgram.NetworkThread.AcceptConnection | echo_server/flavors/kqueue/server.cpp:184-222 | Exactly the clients waiting before `accept` refuses get a connection each, with nothing read, on a descriptor that is open and watched, or closed if it could not be registered; no other connection, task or watch is touched |
| EchoServerProgram.NetworkThread.AcceptClient | echo_server/flavors/kqueue/server.cpp:191-220 | One client: its descriptor is open for the next connection number and watched, or the connection is closed at once |
| EchoServerProgram.NetworkThread.CloseInError | echo_server/flavors/kqueue/server.cpp:151-155 | An event with the error flag closes exactly the listening socket, or exactly the open connection it names, which is no longer watched |
| EchoServerProgram.NetworkThread.Wait | echo_server/flavors/epoll/server.cpp:109-115 | The batch of events is what the wait returns, distinct descriptors that are registered, or empty on a timeout; a failing wait starts none |
| EchoServerProgram.NetworkThread.DispatchEvent | echo_server/flavors/epoll/server.cpp:119-133 | One event is served by the one step that its flags and the answer of its read ask for: closed, accepted on, read, or skipped |
| EchoServerProgram.NetworkThread.DispatchEvents | echo_server/flavors/kqueue/server.cpp:147-164 | The events of a batch are served in order, each by that step and by nothing else; short of that a client more is waiting than was watched for, or the mutex is held |
| EchoServerProgram.NetworkThread.EventLoop | echo_server/flavors/kqueue/server.cpp:132-166 | After any number of turns: every event that a wait returned was served, in order, by what it asks for, and the loop was left only when told to stop or when the wait failed; every byte read was handed over once, in order; nothing was closed twice; with at most one worker, unless an error event closed a connection still owed bytes, every output is a prefix of its input |
| WriteLoop.WriteAll | echo_server/flavors/epoll/server.cpp:230-248 | Whatever the socket answers, what left is exactly the front of the buffer, and the whole buffer left if and only if the room found before the first hard error suffices |
| WriteLoop.StopsExactly | echo_server/flavors/kqueue/server.cpp:274-292 | Where the loop stops decides whether any number of calls could have sufficed |
| WriteLoop.DrainingSocketDelivers | echo_server/flavors/kqueue/server.cpp:274-292 | With finitely many EAGAINs, progress and no hard error, one call a byte and one an EAGAIN deliver the whole buffer |
| WriteLoop.LoopIsMachineRun | echo_server/flavors/epoll/server.cpp:230-248 | The calls of the loop are write steps of the server machine and add exactly the bytes delivered to the connection's output |
| IoUringSafety.StepKeepsInv | echo_server/flavors/iouring/server.cpp:150-306 | Every step of the server and the kernel keeps ownership of requests, the accept flag, descriptors, the conversation of each connection, its stream and the account of the scan |
| IoUringSafety.RunKeepsInv | echo_server/flavors/iouring/server.cpp:150-306 | So does every run |
| IoUringTheorems.EachRequestOnce | echo_server/flavors/iouring/server.cpp:150-306 | Between handlers each live request is in exactly one place once, no freed one is anywhere, and nothing was freed twice, used after being freed, or closed twice |
| IoUringTheorems.LiveRequestsAddUp | echo_server/flavors/iouring/server.cpp:208-232 | One ACCEPT is live exactly when `accept_pending_`, none otherwise, and live requests are receives plus sends plus that one |
| IoUringTheorems.OneRequestPerConnection | echo_server/flavors/iouring/server.cpp:231-306 | A live receive or send has an open descriptor shared with no other, and a connection is closed exactly when its descriptor no longer stands for it |
| IoUringTheorems.EachCompletionHandledOnce | echo_server/flavors/iouring/server.cpp:171-193 | Completions posted are those handled followed by those waiting, and `cq_advance` gives back exactly the handled ones, although the kernel appends during the scan |
| IoUringTheorems.EveryScanServesTheWait | echo_server/flavors/iouring/server.cpp:158-193 | Whenever the ring is advanced, everything that was in it when the wait returned has been handled, and that was at least one completion |
| IoUringTheorems.IterationEndsFlushed | echo_server/flavors/iouring/server.cpp:196-197 | Phase 2 leaves nothing unsubmitted, also after a timeout, and an accept armed if and only if one was or the queue had room |
| IoUringTheorems.NothingWaitsUnsubmitted | echo_server/flavors/iouring/server.cpp:150-199 | Between iterations nothing waits in the submission queue, but for the priming accept before the first |
| IoUringHandlers.ReceivedIsEchoed | echo_server/flavors/iouring/server.cpp:266-273 | Data received is echoed whenever the submission queue has room: one send of exactly the bytes received is prepared on that connection, which stays open and is then level with its input; nothing else changes |
| IoUringHandlers.EndIsClosed | echo_server/flavors/iouring/server.cpp:253-264 | End of file or a hard error closes exactly that connection and frees exactly that request; nothing is prepared |
| IoUringHandlers.DroppedIsLeftOpen | echo_server/flavors/iouring/server.cpp:257-264 | EAGAIN, or data with a full submission queue, frees exactly that request and leaves every connection as it is |
| IoUringHandlers.SentIsReceivedOn | echo_server/flavors/iouring/server.cpp:298-306 | After a send, whatever its result, one receive of a full buffer is prepared on the same connection with the same request, or the request is freed if there is no room |
| IoUringHandlers.AcceptedIsReceivedFrom | echo_server/flavors/iouring/server.cpp:221-232 | An accepted client gets one receive of a full buffer with a request of its own, or none if there is no room; the accept request is freed and another accept may be armed |
| IoUringHandlers.FailedAcceptIsForgotten | echo_server/flavors/iouring/server.cpp:221-229 | A failed accept frees its request and lets another be armed; nothing else changes |
| IoUringTheorems.PreparedFollowsReceived | echo_server/flavors/iouring/server.cpp:253-296 | The payloads of the sends prepared are the chunks received, or all but the last of them |
| IoUringTheorems.FullSendsEcho | echo_server/flavors/iouring/server.cpp:253-306 | If every send completes in full, output is a prefix of input and lags it by at most one buffer |
| IoUringTheorems.ShortSendsLeaveGaps | echo_server/flavors/iouring/server.cpp:298-306 | Each byte sent is the input byte at its offset, and the offsets have no gap if and only if no send after a short or failed one lets anything out |
| IoUringShortSend.ShortSendLosesByte | echo_server/flavors/iouring/server.cpp:298-306 | A run in which a client that sent 1 2 3 has been sent 1 3 |
| IoUringShortSend.EagainAbandons | echo_server/flavors/iouring/server.cpp:256-263 | A run in which a receive returns `-EAGAIN` and its connection is abandoned |
| IoUringConnections.OneState | echo_server/flavors/iouring/server.cpp:208-306 | Every connection is in exactly one of: closed, announced, served by exactly one request, abandoned |
| IoUringConnections.AbandonedExactly | echo_server/flavors/iouring/server.cpp:242-296 | A handler abandons the connection it serves if and only if the receive returned `-EAGAIN` or the next operation met a full submission queue |
| IoUringConnections.StepAbandonsExactly | echo_server/flavors/iouring/server.cpp:150-306 | Of all steps of the server and the kernel, exactly those two branches of its own handler abandon a connection not abandoned yet |
| IoUringConnections.AbandonedByExactly | echo_server/flavors/iouring/server.cpp:150-306 | At the end of any run a connection is abandoned if and only if some step of the run took one of those branches for it |
| IoUringConnections.AbandonedForGood | echo_server/flavors/iouring/server.cpp:242-296 | Nothing more is ever received, sent or closed for an abandoned connection |
| IoUringProgram.IoUringEchoServer.SubmitAccept | echo_server/flavors/iouring/server.cpp:208-219 | Equals the function the theorems speak of: a fresh ACCEPT request is queued and flagged, or freed again if the ring is full |
| IoUringProgram.IoUringEchoServer.HandleAccept | echo_server/flavors/iouring/server.cpp:221-232 | Equals the function the theorems speak of: the flag falls, and a new client gets its first receive |
| IoUringProgram.IoUringEchoServer.SubmitRecv | echo_server/flavors/iouring/server.cpp:242-251 | Equals the function the theorems speak of: the request is queued for a full buffer, or freed if the ring is full |
| IoUringProgram.IoUringEchoServer.HandleRecv | echo_server/flavors/iouring/server.cpp:253-274 | Equals the function the theorems speak of, in all four cases: end, EAGAIN, error, data; what each comes to is stated in `IoUringHandlers` |
| IoUringProgram.IoUringEchoServer.SubmitSend | echo_server/flavors/iouring/server.cpp:289-296 | Equals the function the theorems speak of: exactly `len` bytes are queued, or the request is freed if the ring is full |
| IoUringProgram.IoUringEchoServer.HandleSend | echo_server/flavors/iouring/server.cpp:298-306 | Equals the function the theorems speak of: the request is turned back into a receive |
| IoUringProgram.IoUringEchoServer.HandleCompletion | echo_server/flavors/iouring/server.cpp:174-191 | The completion at the head is handled once; nothing is submitted and no completion is removed meanwhile |
| IoUringProgram.IoUringEchoServer.ProcessCompletions | echo_server/flavors/iouring/server.cpp:171-193 | Everything that was in the queue when the wait returned is handled, in order, and exactly the handled completions are given back; the scan ends although the kernel appends while it goes on |
| IoUringProgram.IoUringEchoServer.WaitCqe | echo_server/flavors/iouring/server.cpp:154-168 | The wait returns what the kernel answers, but never 0 on an empty queue; the loop goes to the scan on 0, to phase 2 on a timeout or a signal, and ends otherwise |
| IoUringProgram.IoUringEchoServer.SubmitPrepared | echo_server/flavors/iouring/server.cpp:196-197 | Everything prepared is in the kernel's hands afterwards, as it was prepared, and the accept is armed if there was room |
| IoUringProgram.IoUringEchoServer.EventLoop | echo_server/flavors/iouring/server.cpp:150-199 | Every turn reaches phase 2, until told to stop or a hard error of the wait, which are the only ways out; after any number of turns: no memory or descriptor fault, every completion handled once or still queued, nothing unsubmitted, and payloads prepared follow chunks received |

## Left out

- Sockets, bind and listen, signal handlers, argument parsing, the `main` functions, Makefiles and scripts: plumbing.
- `bench_client`, timing, percentiles, throughput, `CPU_PAUSE` and cache-line alignment: performance only.
- The `iouring_zc` flavour: its kernel contract differs (a send may post a second notification) and it adds little to the plain loop.
- Real system calls, liburing and TCP: steps with any result in the range of the operation. For io_uring it is assumed that each submission completes exactly once, that `io_uring_submit` takes everything prepared, that `accept` returns a descriptor that is not open, and that a result is not larger than the length asked for; the completion queue has no bound in the model.
- Freeing what is still in flight when the io_uring server shuts down: nothing is claimed about leaks; abandoned connections are characterised instead.
- Fairness. Progress is stated as an enabled step and a measure that falls, or as the existence of a finishing run.
- The loops of the program classes are followed for `patience` turns, any number of them, because they may spin or wait for ever; every invariant and theorem is about all runs and has no such bound.
- The memory model covers what the ring uses: relaxed loads of the thread's own index, acquire loads and release stores. Happens-before is carried by views; a thread's program order is kept as written.
- In the class of the io_uring server the kernel acts between handlers, not inside one: a handler and a completion touch different requests, queues and ends of queues, so a completion inside a handler has the effect of one before or after it.
- `Request` objects are values in a map from addresses, so that dangling pointers can be expressed; two names for one request are two uses of one key.
- `std::function` tasks are data: an echo with its buffer or a close, each with the connection its descriptor stood for when it was made. The worker's call of the task is the steps that carry it out.
- The constructor and destructor of `ThreadPool`: workers exist from the start, and `stop()` is called by whoever wants it.
- `accept` failing on a client other than by EAGAIN, and logging: the same branch as EAGAIN apart from the message.
- MutexQueue.Queue.PushTurn: one critical section is one indivisible turn, because the mutex excludes everybody else; the lock itself is modelled in the thread pool.
- ThreadPoolProgram.WorkerPool.Stop: does not promise that the joins succeed, because they need not; `StopReturnsExactly` says when they can.
- EchoServerTheorems.EchoInOrder: says nothing about the output of a connection after a hard write error; `EchoServerGiveUps.GivingUpLeavesGaps` does.
- EchoServerTheorems.EarlyPopReorders: shows that a pop out of turn can break the order at once, not that it must, because a later write may still come first.
- EchoServerExact.OrderExactly: is about runs whose error events close only connections that are owed nothing, as are `TargetExactly` and `CloseExactly`; `ErrorEventsBreakExactly` is about all runs.
