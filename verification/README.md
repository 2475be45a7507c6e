# A verified model of the event loop, timers, lock and DMA pool

This project models the parts of the target system layer whose correctness is least obvious from
reading the code, and proves what they promise:

- the libev event loop in `third-party/libev`: its timer and periodic heaps, pending queues,
  descriptor table and changes, the poll, select and epoll backends, and the protocol by which other
  threads and signal handlers wake a sleeping loop;
- `src/bf_sal/linux_usr/bf_sys_timer.c`, a client that starts and stops timers from other threads;
- the reader/writer lock of `src/bf_sal/linux_usr/bf_sys_sem.c`, made of a mutex and two condition
  variables;
- the DMA buffer pool of `src/bf_sal/linux_usr/bf_sys_dma_hugepages.c`.

Code that updates structures in place is modelled by classes and methods with loops, each proved
against a specification on plain values. Concurrent code is modelled by interleaved atomic steps of any
number of threads, with an invariant over every run; that a watcher which has been sent is fed, that the
loop comes to rest when no more is sent, that a timer which has been started is called back, and that calls
on the lock and the pool return, is proved over infinite runs in which the loop and the threads go on sooner
or later. Times are exact (`real`).

## How the modules fit together

| modules | subject |
|---|---|
| `Wrappers`, `Arithmetic` | what several modules need |
| `Watchers`, `ArrayGrowth` | the watcher structures, and the growth of dynamic arrays |
| `HeapSpec`, `TimerHeap`, `WatcherHeap` | the 4-heap: order on sequences, the in-place routines, and one heap with its back-indices |
| `PendingSpec`, `PendingQueues`, `PendingLaws` | what pending queues mean, their implementation, and what invoking them guarantees |
| `Expiry`, `Timers`, `Periodics`, `DeadlineOrder`, `LoopTime` | expiry, rescheduling, the order of callbacks, the arithmetic of times and waits |
| `FdLists`, `FdTable`, `Backends`, `PollBackend`, `SelectBackend`, `EpollBackend`, `EpollLoop` | interest in descriptors, from watchers to the kernel and back |
| `OnceLaws`, `Once` | one-shot io-or-timeout callbacks |
| `Wakeup`, `WakeupProgress`, `WakeupRest` | waking the loop: safety over every run, progress and coming to rest over every fair one |
| `CrossThreadTimers`, `EarlyTimers`, `TimerProgress` | timers started and stopped by other threads, when they can be called back, and that they are |
| `RwLock`, `RwLockProgress` | the reader/writer lock: safety over every run, progress over every fair one |
| `DmaRounding`, `DmaPool`, `DmaBuffers`, `DmaGate`, `DmaGateCalls` | rounding, layout, address translation and concurrent allocation |

Callbacks are given by a script: the n-th callback performs the n-th list of actions (feed, clear,
re-enter), so a statement for every script is one for every behaviour of the callbacks. The kernel's
epoll set is an object that answers in every way its contract allows and forgets descriptors at will.

## Promises that do not hold as stated

Each is kept as the code has it, with the exact condition under which it does hold.

- `bf_sys_dma_pool_create` says that no buffer spills over from its page. That is so exactly when the
  pool with its header fits into one page, or the size divides a page, or the buffers end with the
  first page and reach no further than the second (`DmaPool.NoneSpillsIff`, `DmaPool.SpillExample`).
- The pool's size is meant to be rounded up to the alignment. Of the alignments that pass the test for a
  power of two and the assertion, this keeps every buffer as large as asked exactly when the alignment is
  not 0, which passes both and makes every size 0 (`DmaPool.SizeKeptUnlessZero`,
  `DmaRounding.ZeroAlignmentLosesSize`).
- The documentation of libev says that a periodic's time is its offset modulo its interval. At whatever
  time it is asked, periodic_recalc finds the first such time exactly when the interval is at least
  `MIN_INTERVAL` or divides it (`LoopTime.AlwaysFirst`, `LoopTime.ShortIntervalLeavesGrid`).
- A timer is said to fire only after its timeout has passed. `bf_sys_timer_start` counts from the
  loop's last idea of the time, so this is so, of all the ways in which the run can go on, exactly when
  that was current (`EarlyTimers.EarlyUnlessCurrent`). A timer of one second, started ten seconds after
  the loop has gone to sleep, can be called at once (`EarlyTimers.StaleExample`).

## Model

| member | source | states |
|---|---|---|
| ArrayGrowth.NextSize | third-party/libev/ev.c:1792-1811 | terminates with room for what is asked and at least twice the old capacity plus two; apart from the rounding to allocation chunks it is at most twice what is asked, and the rounding is there only beyond one chunk, fills the chunks and adds no more than one |
| ArrayGrowth.RoundedCountGrows | third-party/libev/ev.c:1803-1809 | rounding up to bytes and dividing again never loses an element |
| ArrayGrowth.NeedSize | third-party/libev/ev.c:1823-1830 | every slot in use survives growth, and growth is geometric |
| HeapSpec.HParentIsParent | third-party/libev/ev.c:2103-2105 | the C division makes the root its own parent, which is what ends the way up, and no other |
| HeapSpec.RootIsMin | third-party/libev/ev.c:2970-2983 | heap order makes the root the least entry |
| TimerHeap.FindMinChild | third-party/libev/ev.c:2121-2139 | fast and slow path both find a least child |
| TimerHeap.Downheap | third-party/libev/ev.c:2108-2149 | an entry too large for its place sinks until the whole heap is in order, every back-index and cached time right, no watcher lost or doubled |
| TimerHeap.Upheap | third-party/libev/ev.c:2188-2207 | an entry too small for its place rises until the heap is in order, on the same terms |
| TimerHeap.AdjustHeap | third-party/libev/ev.c:2210-2217 | the one comparison decides rightly which way an entry must go |
| TimerHeap.Reheap | third-party/libev/ev.c:2220-2229 | makes a heap from entries in any order |
| WatcherHeap.Heap.BackIndex | third-party/libev/ev.c:2977-2979 | a member's `active` always leads to its own entry, which caches its time |
| WatcherHeap.Heap.RootIsLeast | third-party/libev/ev.c:2970-2983 | the root's time is no later than any member's |
| WatcherHeap.Heap.Insert | third-party/libev/ev.c:3753-3758 | exactly this watcher joins the members, the heap stays in order |
| WatcherHeap.Heap.Remove | third-party/libev/ev.c:3772-3785 | exactly this watcher leaves, wherever it was, the heap stays in order |
| Timers.TimerLoop.TimerStart | third-party/libev/ev.c:3741-3763 | an inactive timer becomes due its time from now; an active one is left alone |
| Timers.TimerLoop.TimerStop | third-party/libev/ev.c:3765-3793 | the timer leaves the heap and its pending slot is cleared, and nothing else changes for others |
| Timers.TimerLoop.TimerAgain | third-party/libev/ev.c:3795-3820 | due `repeat` from now, or stopped without one, the remaining time of an active timer being kept; what was pending is withdrawn |
| Timers.TimerLoop.TimersReify | third-party/libev/ev.c:3188-3223 | terminates; exactly the timers expired at the start have EV_TIMER fed; one that repeats stays and is due a `repeat` after it was, or at once if that has passed; another one stops, loses what was pending for it and keeps the time it was overdue by; no other timer and no other watcher's events change, and none is expired afterwards |
| Timers.TimerLoop.TimersReschedule | third-party/libev/ev.c:3318-3329 | a common shift of all times leaves the heap in order without rebuilding it |
| Expiry.RunProcesses | third-party/libev/ev.c:3195-3219 | always taking the root collects the expired watchers in order of their times |
| DeadlineOrder.ExpiryEvents | third-party/libev/ev.c:3188-3223 | once the expired have been collected and fed, each has the event pending besides what it had, unless it stopped, and no other watcher's events have changed |
| DeadlineOrder.TimersFireInDeadlineOrder | third-party/libev/ev.c:1872-1885 | timers that expire together are all invoked unless cleared, and those of one priority in the order of their deadlines, whatever the callbacks do |
| LoopTime.EvFloor | third-party/libev/ev.c:1456-1486 | terminates and is the mathematical floor of every number |
| LoopTime.PeriodicRecalc | third-party/libev/ev.c:3227-3249 | the search ends with the time that the closed description gives |
| LoopTime.RecalcIsFirst | third-party/libev/ev.c:3227-3249 | the time found is after now and at most an interval away; from MIN_INTERVAL up it is the first such time congruent to the offset, and at a given time also below when the search starts at a congruent time |
| LoopTime.AlwaysFirst | third-party/libev/ev.c:3227-3249 | for an offset and an interval, it is the first such time at whatever time it is asked for, exactly when the interval is at least MIN_INTERVAL or divides it |
| LoopTime.ShortIntervalLeavesGrid | third-party/libev/ev.c:3227-3249 | a shorter interval for which it does not start there, and the time found is not the first congruent to the offset |
| LoopTime.BlockingTime | third-party/libev/ev.c:3460-3516 | sleep and poll together never go beyond any timer's or periodic's remaining time, save for the configured minima, nor fall short of the nearest; the sleep is all that io_blocktime still asks for as far as the poll keeps its least wait |
| Periodics.PeriodicLoop.PeriodicStart | third-party/libev/ev.c:3829-3857 | due at its callback's time if it has one, whatever its interval, otherwise at the first time congruent to its offset (from MIN_INTERVAL up; below, after now and within an interval), or at its offset without either |
| Periodics.PeriodicLoop.PeriodicStop | third-party/libev/ev.c:3859-3885 | leaves heap and pending queues |
| Periodics.PeriodicLoop.PeriodicAgain | third-party/libev/ev.c:3887-3893 | stopping and starting gives a time by the same rules and withdraws what was pending |
| Periodics.PeriodicLoop.PeriodicsReify | third-party/libev/ev.c:3252-3291 | terminates across any time jump; exactly the expired periodics have EV_PERIODIC fed; one that repeats gets its callback's or its interval's next time, another one stops as it is; no other periodic and no other watcher's events change, and none is expired afterwards |
| Periodics.PeriodicLoop.PeriodicsReschedule | third-party/libev/ev.c:3295-3315 | every repeating periodic gets its callback's or its interval's next time, others keep theirs, none joins or leaves, and the heap is in order again |
| PendingQueues.Pending.PendingIsPosition | third-party/libev/ev.c:2961-2968 | `pending` is nonzero exactly for queued watchers, and then tells the place of their slot |
| PendingQueues.Pending.FeedEvent | third-party/libev/ev.c:1853-1870 | events are added to the watcher's slot if it has one, else it gets one at the end of its priority's queue |
| PendingQueues.Pending.ClearPending | third-party/libev/ev.c:3643-3668 | the slot is left to the dummy and the events that were pending are returned |
| PendingQueues.Pending.FeedReverseDone | third-party/libev/ev.c:1872-1885 | the watcher noted last is fed first |
| PendingQueues.Pending.InvokePending | third-party/libev/ev.c:3142-3160 | with callbacks that feed, clear and re-enter, the last slot of the highest priority is always next, and on return nothing is pending |
| PendingLaws.EventsAreDelivered | third-party/libev/ev.c:3142-3160 | a pending event reaches its watcher's callback unless some callback clears the watcher |
| PendingLaws.FeedExactly | third-party/libev/ev.c:1853-1870 | feeding one watcher adds the events to its own and changes no other's |
| PendingLaws.InvokedEarliestFirst | third-party/libev/ev.c:3142-3160 | a queue whose slots stand latest first is invoked earliest first |
| PendingLaws.HighestFirst | third-party/libev/ev.c:3142-3160 | while callbacks feed nothing, invocations come in order of priority, from the highest pending one down |
| PendingLaws.FedIsDelivered | third-party/libev/ev.c:3142-3160 | an event that any callback feeds in the course of a drain reaches its watcher's callback in the same drain, unless some callback clears the watcher |
| PendingLaws.ClearingWithdraws | third-party/libev/ev.c:3643-3668 | a watcher that a callback clears is not invoked any more unless it is fed again, by that callback or a later one |
| PendingLaws.ReenterDrains | third-party/libev/ev.c:3142-3160 | ev_invoke_pending called from a callback leaves nothing pending either |
| PendingLaws.DrainUses | third-party/libev/ev.c:3142-3160 | each invocation runs its callback, once |
| FdLists.IoLists.Add | third-party/libev/ev.c:3620-3625 | the watcher is put in front of its list, all lists stay linked up |
| FdLists.IoLists.Del | third-party/libev/ev.c:3627-3641 | exactly this watcher is unlinked, from any place |
| FdTable.Table.FdChange | third-party/libev/ev.c:1993-2005 | a descriptor with flags is queued for change exactly once |
| FdTable.Table.IoStart | third-party/libev/ev.c:3696-3719 | the watcher is first in its list and its descriptor queued, with EV__IOFDSET moved from the watcher to the flags; nothing changes for other descriptors, and what is in sync stays so |
| FdTable.Table.IoStop | third-party/libev/ev.c:3722-3739 | the watcher is neither listed nor pending, its descriptor is queued |
| FdTable.Table.FdKill | third-party/libev/ev.c:2008-2018 | every watcher of the descriptor is stopped and fed an error, no other is touched |
| FdTable.FedErrorTells | third-party/libev/ev.c:2008-2018 | each of them then has the error, reading and writing pending, and nothing else; what is pending for others stays |
| FdTable.Table.FdReify | third-party/libev/ev.c:1933-1989 | terminates although descriptors killed on the way are added; afterwards no change is left, each descriptor's events are those that some watcher of it waits for and the backend asks for exactly those; with epoll a descriptor that was flagged as reopened, or whose interest had changed, is registered anew even if the kernel had lost it; a list is complete, or epoll has refused the descriptor and all of the list has been told of an error |
| FdTable.Table.FdEvent | third-party/libev/ev.c:1898-1924 | unless the descriptor is about to change, when nothing is fed, exactly the events that occurred and that a watcher of the descriptor waits for become pending for it |
| FdTable.DeliveredTells | third-party/libev/ev.c:1898-1912 | what is pending for a watcher afterwards is what was before and what it waits for of the events, no more |
| Backends.Backend.Modify | third-party/libev/ev.c:1984-1985 | after backend_modify exactly the new events are asked for, nothing changes for other descriptors, and only epoll gives up a descriptor, only when the kernel refused it |
| PollBackend.PollSet.Modify | third-party/libev/ev_poll.c:51-86 | `polls` and `pollidxs` stay inverse through appending and swap-removal; exactly this descriptor's mask changes |
| PollBackend.Scan | third-party/libev/ev_poll.c:107-126 | the scan that stops at the announced number of results misses none |
| PollBackend.EachReported | third-party/libev/ev_poll.c:107-126 | every result that is not empty is reported with its own descriptor and events, once and in order, and nothing else |
| PollBackend.ReportOf | third-party/libev/ev_poll.c:114-122 | reading is reported exactly for POLLIN, POLLERR or POLLHUP, writing for POLLOUT, POLLERR or POLLHUP, and POLLNVAL has the descriptor killed |
| SelectBackend.SelectSet.Modify | third-party/libev/ev_select.c:106-135 | exactly this descriptor's two bits change, also when the vectors grow |
| SelectBackend.SelectSet.Decode | third-party/libev/ev_select.c:246-269 | words and bits from the top down give the ready descriptors from the highest down |
| SelectBackend.EachReadyOnce | third-party/libev/ev_select.c:246-269 | each ready descriptor is reported once with its own events |
| EpollBackend.EpollSet.Modify | third-party/libev/ev_epoll.c:70-139 | with events wanted the descriptor ends registered for exactly these under the current generation, unless the kernel refused it, and then it is on the always-ready list or to be killed; on that list if the first answer was EPERM; other registrations stay; at most two calls are made, one if the kernel has what is recorded; the generation is new exactly when the registration is, so a registration found to exist with the recorded mask need not be repeated |
| EpollBackend.EpollSet.Check | third-party/libev/ev_epoll.c:164-212 | an event is delivered exactly if it carries the current generation and is wanted or its registration could be corrected; otherwise everything is going to be rebuilt; nothing that is wanted is lost |
| EpollBackend.EpollSet.Sweep | third-party/libev/ev_epoll.c:222-235 | the list keeps exactly the always-ready descriptors that are watched, each reported, no other touched |
| EpollLoop.Poll | third-party/libev/ev_epoll.c:141-235 | what becomes pending is exactly what the reports tell; a reported notification with EPOLLIN, EPOLLERR or EPOLLHUP makes each watcher of the descriptor that waits for reading hear of it, unless a change is waiting, and likewise for writing; a current notification of nothing unwanted is reported; reported are those of the current generation that are wanted or whose registration can be corrected, in order, and then every always-ready descriptor; unless one was of a registration replaced or gone, these are all, and if one was, the interest set is going to be rebuilt; table and kernel stay in sync |
| EpollBackend.Got | third-party/libev/ev_epoll.c:170-171 | reading is reported exactly for EPOLLIN, EPOLLERR or EPOLLHUP, writing exactly for EPOLLOUT, EPOLLERR or EPOLLHUP |
| EpollLoop.ReportsTell | third-party/libev/ev.c:1898-1924 | after fd_event for a row of reports, a watcher has pending what it had and what some report tells it |
| EpollLoop.HandlingDrops | third-party/libev/ev_epoll.c:164-212 | a notification is only ever left out when some notification is of a registration that has been replaced or is gone |
| EpollLoop.VanishKeepsReady | third-party/libev/ev_epoll.c:43-46 | the kernel may forget any descriptor at any time without anything getting out of order |
| EpollLoop.Fork | third-party/libev/ev.c:2058-2070 | all interest is dropped and queued to be asked for afresh |
| EpollLoop.Rebuild | third-party/libev/ev_epoll.c:270-282 | together with fd_reify, every descriptor in which there is interest is armed again |
| Once.Watch.OnceCbIo | third-party/libev/ev.c:4788-4807 | a structure that has not been freed is freed and the user called once, with the io events and what was pending for the timer; no list, heap or pending slot then refers to either watcher |
| Once.Watch.OnceCbTo | third-party/libev/ev.c:4809-4815 | likewise when the timer comes first |
| OnceLaws.CalledOnce | third-party/libev/ev.c:4788-4815 | of two watchers that are pending or come to be, whichever is invoked first withdraws the other: the drain names exactly one of them, once, and the user is told the union of what was pending for both and what callbacks fed them until then, whatever other callbacks feed, clear or re-enter |
| Once.Watch.CalledOnce | third-party/libev/ev.c:3142-3160 | so ev_invoke_pending calls the user back exactly once if either watcher is pending or is fed, and not at all otherwise |
| Once.Watch.EventLeavesGone | third-party/libev/ev.c:1898-1924 | after the call no event of any descriptor makes either watcher pending again |
| Once.Watch.KillLeavesGone | third-party/libev/ev.c:2008-2018 | nor does an error of any descriptor |
| Once.Watch.ExpiryLeavesGone | third-party/libev/ev.c:3188-3223 | nor does any expiry of timers |
| Once.Watch.NotCalledAgain | third-party/libev/ev.c:3142-3160 | and, not being fed, they do not get the user called again |
| PendingLaws.GoneForGood | third-party/libev/ev.c:3142-3160 | a watcher that no slot names is not invoked, whatever the callbacks do |
| Wakeup.StepInv | third-party/libev/ev.c:2294-2407 | every step of a sender or the loop keeps each raised flag and each mark on its way to the loop |
| Wakeup.ReachableInv | third-party/libev/ev.c:3470-3532 | so it is in every state of every run |
| Wakeup.NoLostWakeup | third-party/libev/ev.c:3470-3532 | whenever the loop sleeps with nothing to read although a flag is raised, or a watcher is marked that no sender is about to raise the flag for, some sender is still on its way to the pipe; where other senders are does not matter |
| WakeupProgress.LoopAdvances | third-party/libev/ev.c:2344-2407 | each step of the loop feeds a marked watcher, or brings it nearer, or leaves it where it depends on a sender |
| WakeupProgress.SenderAdvances | third-party/libev/ev.c:2294-2341 | no step of any sender takes a marked watcher further from being fed, and that of the sender it depends on brings it nearer |
| WakeupProgress.SentIsFed | third-party/libev/ev.c:2294-2407 | in every fair interleaving with any number of senders that go on sending, every watcher that is marked is fed later |
| WakeupProgress.NeverStuck | third-party/libev/ev.c:3515-3532 | with a watcher still to be fed the loop can go on without another reason to wake, or some sender can |
| WakeupRest.ReadEmpties | third-party/libev/ev.c:2348-2372 | pipecb resets an eventfd, and takes up to four bytes from a pipe, so that a pipe that is not empty gets shorter |
| WakeupRest.ComesToRest | third-party/libev/ev.c:2294-2407 | when no call begins any more and nothing else keeps the loop from blocking, then in every fair run, wherever senders were and however much was in the pipe, the loop comes to sleep with an empty pipe, no flag raised and no watcher marked |
| WakeupRest.RestsUntilSent | third-party/libev/ev.c:3515-3532 | there it stays until another call begins or something other than the pipe wakes it |
| WakeupRest.WrittenWhenWanted | third-party/libev/ev.c:2306-2337 | the bytes in the pipe and those about to be written become more only around the loop's wait, one at a time |
| WakeupRest.RaisedIsEnough | third-party/libev/ev.c:2294-2300 | a call that finds its flag raised ends at once and has only marked its watcher |
| CrossThreadTimers.StepInv | src/bf_sal/linux_usr/bf_sys_timer.c:78-153 | clients and loop keep the lock exclusive, timers are collected, queued and called back only by the loop with the lock, and a wait that is too long is never left without an alarm |
| CrossThreadTimers.WokenInTime | src/bf_sal/linux_usr/bf_sys_timer.c:78-99 | when no thread has the lock and none is still to wake the loop, the sleeping loop wakes in time for every timer, or at once |
| CrossThreadTimers.SilentOutside | src/bf_sal/linux_usr/bf_sys_timer.c:101-118 | while a thread has the lock no timer is pending or about to be, and no callback is running |
| CrossThreadTimers.StopIsFinal | src/bf_sal/linux_usr/bf_sys_timer.c:101-136 | after stop or delete the timer is not in the heap, no slot names it, it is not noted to be fed, its callback is not running, and it is not called until the timer is started again |
| EarlyTimers.NotBeforeDue | third-party/libev/ev.c:3741-3763 | in no run is a started timer called before its time has passed since the loop last took the time |
| EarlyTimers.CanFireEarly | src/bf_sal/linux_usr/bf_sys_timer.c:91-92 | whenever the loop's time is behind, the run can go on so that the timer is called before its time has passed since the start |
| EarlyTimers.EarlyUnlessCurrent | src/bf_sal/linux_usr/bf_sys_timer.c:91-92 | over all the ways in which the run can go on, the timer is never called too early exactly when the loop's time was current at the start |
| EarlyTimers.StaleExample | src/bf_sal/linux_usr/bf_sys_timer.c:91-92 | a run in which a timer of one second is called less than a second after its start |
| EarlyTimers.ResumesWithRemaining | third-party/libev/ev.c:3741-3793 | a timer that is stopped, or collected for the last time, and started again goes on with what remained, so that its time moves by the loop time that has passed between; a one-shot that has been collected is due at once |
| TimerProgress.LoopNearer | third-party/libev/ev.c:3430-3540 | each step of the loop, collecting, feeding and calling included, brings a timer that is due nearer to being called |
| TimerProgress.StartedIsCalled | src/bf_sal/linux_usr/bf_sys_timer.c:78-99 | in every run in which time passes, threads with the lock go on, and the loop goes on if it can time and again, every started timer is called back unless a thread stops it first, however the lock is contended for |
| RwLock.StepInv | src/bf_sal/linux_usr/bf_sys_sem.c:410-515 | every step, spurious wakeups included, keeps the invariant |
| RwLock.WriterExcludes | src/bf_sal/linux_usr/bf_sys_sem.c:440-467 | a thread with the lock for writing is alone with it |
| RwLock.CountersAreThreads | src/bf_sal/linux_usr/bf_sys_sem.c:410-515 | the four counters are the numbers of holders and waiters |
| RwLock.NoneStranded | src/bf_sal/linux_usr/bf_sys_sem.c:469-515 | a free lock with writers waiting has woken one; without writers no reader is asleep |
| RwLock.NeverAllAsleep | src/bf_sal/linux_usr/bf_sys_sem.c:410-515 | whoever sleeps can count on another thread that holds the lock or is on its way |
| RwLock.NoReaderOvertakes | src/bf_sal/linux_usr/bf_sys_sem.c:422-433 | no reader enters past a writer that holds the lock or waits |
| RwLock.DeletedWhenUnused | src/bf_sal/linux_usr/bf_sys_sem.c:370-396 | deletion goes ahead, rather than reporting busy, exactly when no thread holds the lock or waits |
| RwLockProgress.SomeCallReturns | src/bf_sal/linux_usr/bf_sys_sem.c:370-515 | while a thread is in a call some call returns later, in every run, with any number of spurious wakeups, in which threads that have or want the mutex go on and those that hold the lock give it back |
| DmaRounding.PowerOfTwoTest | src/bf_sal/linux_usr/bf_sys_dma_hugepages.c:354-357 | the bit test accepts exactly the powers of two, besides 0 |
| DmaRounding.ConvertsToNextMultiple | src/bf_sal/linux_usr/bf_sys_dma_hugepages.c:173-179 | the masks find the least multiple that is not below the value |
| DmaRounding.ZeroAlignmentLosesSize | src/bf_sal/linux_usr/bf_sys_dma_hugepages.c:173-179 | alignment 0 passes the test and makes every size 0 |
| DmaPool.SizeRounds | src/bf_sal/linux_usr/bf_sys_dma_hugepages.c:372-373 | a buffer's size is that asked for, rounded up to a multiple of the alignment |
| DmaPool.SizeKeptUnlessZero | src/bf_sal/linux_usr/bf_sys_dma_hugepages.c:354-373 | of the alignments that pass the test and the assertion, exactly the nonzero ones leave every buffer as large as asked |
| DmaPool.BuffersAligned | src/bf_sal/linux_usr/bf_sys_dma_hugepages.c:366-403 | every buffer is aligned as asked |
| DmaPool.BuffersSeparate | src/bf_sal/linux_usr/bf_sys_dma_hugepages.c:181-202 | every buffer, also the only one of its pool, leaves the metadata word alone and lies inside the mapping, and ends before those after it |
| DmaPool.HeaderRounds | src/bf_sal/linux_usr/bf_sys_dma_hugepages.c:386-400 | the first buffer follows the header, or, if the pool needs more than a page, the least multiple of the header's size that is not below a buffer's |
| DmaPool.MappedIsLeast | src/bf_sal/linux_usr/bf_sys_dma_hugepages.c:181-187 | the mapping is the least number of whole pages that holds header and buffers |
| DmaPool.NoneSpillsIff | src/bf_sal/linux_usr/bf_sys_dma_hugepages.c:391-403 | no buffer spills over from its page exactly under a condition on size and count |
| DmaPool.SpillExample | src/bf_sal/linux_usr/bf_sys_dma_hugepages.c:391-403 | a size and count for which one does |
| DmaBuffers.PoolCreate | src/bf_sal/linux_usr/bf_sys_dma_hugepages.c:340-472 | when creation is refused, and otherwise a pool whose page table covers its mapping and whose free list is its buffers in order |
| DmaBuffers.Pool.GetPhyAddr | src/bf_sal/linux_usr/bf_sys_dma_hugepages.c:580-602 | translates by the page that the address is in |
| DmaBuffers.Pool.Dma2Virt | src/bf_sal/linux_usr/bf_sys_dma_hugepages.c:304-332 | translates by the first page that has the bus address, or says that none has |
| DmaBuffers.VirtRoundTrip | src/bf_sal/linux_usr/bf_sys_dma_hugepages.c:304-332 | over pages with disjoint bus addresses every address of the pool comes back |
| DmaBuffers.DmaRoundTrip | src/bf_sal/linux_usr/bf_sys_dma_hugepages.c:580-602 | every bus address that has a virtual one comes back, and the others are in no page |
| DmaBuffers.BufferInOnePiece | src/bf_sal/linux_usr/bf_sys_dma_hugepages.c:391-397 | what the device sees of a buffer that does not spill over is in one piece |
| DmaBuffers.IndexOfBuffer | src/bf_sal/linux_usr/bf_sys_dma_hugepages.c:563-574 | the index inverts the layout, also for pointers into a buffer |
| DmaGate.StepInv | src/bf_sal/linux_usr/bf_sys_dma_hugepages.c:494-529 | every step keeps the gate exclusive and every buffer in one place |
| DmaGate.OneInside | src/bf_sal/linux_usr/bf_sys_dma_hugepages.c:494-529 | no two threads are between closing and opening the gate |
| DmaGate.BuffersConserved | src/bf_sal/linux_usr/bf_sys_dma_hugepages.c:534-558 | free and allocated buffers partition the pool, so none is handed out twice |
| DmaGate.PushNeverFails | src/bf_sal/linux_usr/bf_sys_dma_hugepages.c:511-529 | giving back a buffer that is held never fails |
| DmaGate.NeverOutOfBounds | src/bf_sal/linux_usr/bf_sys_dma_hugepages.c:494-529 | the queue is never indexed beyond its ends |
| DmaGate.Linearizable | src/bf_sal/linux_usr/bf_sys_dma_hugepages.c:494-529 | allocations and releases, in the order in which they take effect, are those of one stack; an allocation fails exactly when it is empty |
| DmaGateCalls.CallTakesEffectOnce | src/bf_sal/linux_usr/bf_sys_dma_hugepages.c:494-529 | a call that returns has taken effect exactly once, as its caller is told: the buffer it then holds is the one popped, no buffer means that none was left, the buffer given back is the one pushed |
| DmaGateCalls.SomeCallReturns | src/bf_sal/linux_usr/bf_sys_dma_hugepages.c:494-529 | while a thread is in a call some call returns and opens the gate, in every run in which threads in calls go on |

## Left out

- Real system calls, hardware fences and weak memory: the kernel's epoll set, the pipe or eventfd, mutexes and condition variables follow small contracts, and shared variables are sequentially consistent.
- Floating-point rounding, the 32-bit wrap-around of epoll generations and int overflow in array_nextsize: times are exact and integers unbounded, so the tests for a time that no longer changes are never met.
- The kqueue, port and win32 backends, inotify, stat, child, embed, fork, idle, prepare, check and cleanup watchers, installation of signal handlers, signalfd, ev_walk and the C++ and libevent wrappers.
- Allocation failure, initialisation, failures of the pthread calls, and the NULL checks of the wrappers.
- What callbacks do besides feeding, clearing and re-entering: within one drain of the pending queues they do not start watchers. The starts and stops themselves are modelled as operations of their own.
- The priority of a watcher does not change, and its events change only when it is started.
- A descriptor's ANFD is split between the list, the table and the epoll backend, and pendings, rfeeds, fdchanges, the select vectors and the epoll list are sequences, so that their reallocation is not visible; polls, pollidxs and the heaps are arrays that are.
- fd_kill is called after epoll_modify has put the generation back, not before; neither depends on the other.
- fd_ebadf, fd_enomem and the delivery of poll's and select's reports: the reports are modelled, and so is what fd_event and fd_kill do.
- The kernel may lose a descriptor between any two operations, but not between two calls within epoll_modify.
- loop_fork's restart of the wakeup pipe, and time_update's detection of time jumps.
- ev_async_start and ev_async_stop while sends are under way: the set of watchers of each channel is fixed.
- Calls of the timer interface from a timer's callback, which would deadlock on the lock, are excluded.
- The pending slot of the async watcher with which timers are started, whose callback does nothing: the queues of the cross-thread timers hold timers only.
- WakeupProgress.SentIsFed: fairness is assumed of the threads' scheduling, and that the kernel reports a pipe that can be read.
- WakeupRest.ComesToRest: the same fairness of the senders; the other reasons not to block, which ev_run looks at before it waits, are taken to be absent from then on.
- RwLockProgress.SomeCallReturns: the mutex is taken to be fair and holders to unlock sooner or later; that a particular thread gets the lock is not promised, as writers have preference and others may overtake.
- DmaGateCalls.SomeCallReturns: a particular spinning thread may be overtaken for ever, since the gate is not fair.
- PendingLaws.HighestFirst: when callbacks feed, what they feed is invoked by its priority from then on; the order is that of Drain, to which PendingQueues.Pending.InvokePending is proved equal.
- Once.Watch.CalledOnce: the other callbacks do not clear the two watchers, to which ev_once gives out no pointers, and do not feed them after the user has been called, when no descriptor's list has them any more.
- TimerProgress.StartedIsCalled: fairness is assumed, as is that callbacks return and that the kernel wait ends at its time, which MAX_BLOCKTIME keeps finite; how soon the call comes is CrossThreadTimers.WokenInTime.
- ev_once itself: it is the two start operations of which the model has each.
- A thread that is about to lock the mutex of a reader/writer lock while another deletes it uses freed memory; the model goes on with the counters.
- LoopTime.RecalcIsFirst: intervals are positive, as the documentation demands.
- CrossThreadTimers.WokenInTime: the wait is any that is in time for the timers, as LoopTime.BlockingTime proves of the one computed.
- DmaGate.BuffersConserved: buffers are numbered; that different numbers are different addresses is DmaPool.BuffersSeparate for sizes above 0.
- Buffer counts of a DMA pool are not negative, and the second attempt at mapping with another page size is not distinguished from the first.
