# libevent, modelled and proved in Dafny

This project models the stateful cores of libevent and proves what each is for.  Every
module is self-contained Dafny; `dafny verify dfyconfig.toml` covers all of them.

* **Chains, EvBuffers, BufferMoves, BufferRuns, Cursors** (`buffer.c`): an evbuffer as a
  list of chains with misalignment, free space and a `last_with_datap`.  Every call keeps
  the representation invariant and refines an operation on one byte string; any run of
  calls on two buffers refines the run on two strings.
* **EpollTable, Interest** (`evmap.c`, `epoll.c`, `epolltable-internal.h`): reference
  counts per fd, the changelist that coalesces changes, and the 512-row table that turns
  them into `epoll_ctl` calls.  Batched and immediate application give the same kernel.
* **MinHeaps** (`minheap-internal.h`), **EventQueues, EventBases, Timeouts,
  TimeoutPasses, EventOps, EventLoops, PassModels, Dispatch** (`event.c`): flags and queues
  of callbacks, counters, the timer heap with the common timeout queues and their internal
  timers, deferred callbacks, finalizers, priorities and the loop.  Every iteration is proved
  to leave what its callbacks, run one after another, make of the state.  The heap appears in
  EventBases as the map from events to deadlines that `MinHeaps.MinHeap` is proved to
  maintain.
* **DnsNames, GetAddrInfo, DnsRequests** (`evdns.c`): name compression and parsing
  (sections 2.3.4 and 4.1.4 of RFC 1035), the getaddrinfo protocol in every interleaving,
  and the request lists with the ring of nameservers.
* **RateLimit** (`bufferevent_ratelim.c`): token buckets in 64-bit arithmetic over 32-bit
  ticks, refills, and groups whose members may be locked by other threads.
* **Pairs** (`bufferevent_pair.c`, `bufferevent.c`): paired bufferevents, built on the
  evbuffers above.
* **Tagging, TagBuffers, RpcGen** (`event_tagging.c`, `event_rpcgen.py`): the tagged wire
  format, over byte strings and over evbuffers, and the codec generated for any schema.

Locked regions of the code are single steps.  Callbacks of the user are arbitrary lists of
calls on the same base.  Clocks, transaction ids, send failures, ready fds and the locks
that `EVLOCK_TRY_LOCK_` fails to take are parameters.

Where a promise does not hold of the code as it stands, the condition under which it does
is stated and proved both ways:

* A vector from a one-vector `evbuffer_reserve_space` is later refused by
  `evbuffer_commit_space` exactly when the last chain with data is passed over although it
  has some room and two or more empty chains follow it
  (`EvBuffers.EvBuffer.ReserveSpace`, `EvBuffers.SingleReserveRefused`).
* A name written by `dnsname_to_labels` is read back by `name_parse` exactly when it has no
  empty label: a trailing dot is dropped, and two dots in a row cut the name
  (`DnsNames.ReadSpan`, `DnsNames.EmptyLabelCuts`).  The end offset is right exactly when no
  empty label was written before the end (`DnsNames.WriteReads`).
* A call made by a callback lets a later callback of the same pass start while one of
  smaller priority number is active exactly when it is a direct activation, of a deferred
  callback or of the finalizer of a bare callback, that precedes the running priority
  (`EventLoops.OpOrder`, `Dispatch.DeferredOvertakes`).
* `evbuffer_commit_space` accepts vectors after which `last_with_datap` is wrong, exactly
  when one of them is filled behind a chain that stays empty
  (`EvBuffers.EvBuffer.CommitSpace`, `EvBuffers.CommitWithGap`).
* `dnsname_to_labels` writes the zero after the labels without looking for room: one byte
  past the buffer, exactly when the last label is written out, is not empty and fills the
  buffer (`DnsNames.WriteRoom`, `DnsNames.OneByteOver`, `DnsNames.ResponseOverrun`).
* `decode_tag_internal` pulls up five bytes and looks at a sixth, exactly when the five all
  say that more follow and the buffer holds more (`TagBuffers.TakeTag`,
  `TagBuffers.LooksBehind`).  The result does not depend on it.
* A user who cancels a getaddrinfo request is told `EVUTIL_EAI_CANCEL` exactly when the timer
  that the first of two callbacks starts does not fire before the second
  (`GetAddrInfo.RunSteps`, `GetAddrInfo.CancelThenTimer`).
* A group bucket stays above minus the largest minimum share set so far, or at it once a
  share of 0 was set (`RateLimit.RunGroup`), but not above minus the present one: lowering
  the share while the bucket is in debt leaves it below, exactly when the debt is not below
  the new share
  (`RateLimit.Group.SetMinShare`, `RateLimit.LowerInDebt`).

The comment at the head of `event_tagging.c` puts the high bits of a tag first; the code
puts the low bits first, and so does the model.

## Model

| member | source | states |
|---|---|---|
| `Chains.ChainNew` | buffer.c:155-192 | evbuffer_chain_new: an empty chain with at least the room asked for and, short of the largest sizes, less than twice that or the minimum |
| `Chains.Chain.Align` | buffer.c:1902-1910 | evbuffer_chain_align moves the data to the front of the chain without changing it |
| `EvBuffers.EvBuffer.Add` | buffer.c:1722-1817 | evbuffer_add: the content grows by exactly the data, or nothing changes when the end is frozen or the length would overflow; the chain invariant holds after |
| `EvBuffers.EvBuffer.AddIntoChains` | buffer.c:1755-1810 | where the bytes go: into the last chain with data exactly when it has the room, behind its data or after a move of less than half its buffer; else the rest into a new chain twice as large, up to a limit |
| `EvBuffers.EvBuffer.Prepend` | buffer.c:1819-1899 | evbuffer_prepend: the data goes in front of the content, through the misalignment of the first chain or a new first chain |
| `EvBuffers.EvBuffer.Drain` | buffer.c:1095-1161 | evbuffer_drain: exactly the first min(len, length) bytes go, or nothing when the start is frozen |
| `EvBuffers.EvBuffer.CopyOut` | buffer.c:1184-1249 | evbuffer_copyout: the first bytes across chains, and the error when the start is frozen |
| `EvBuffers.EvBuffer.Remove` | buffer.c:1164-1176 | evbuffer_remove: what was there is what is returned followed by what is left |
| `EvBuffers.EvBuffer.Pullup` | buffer.c:1344-1454 | evbuffer_pullup: no byte changes, and the first size bytes are contiguous in the first chain; NULL exactly for size 0 or too much |
| `EvBuffers.EvBuffer.ExpandSingle` | buffer.c:1927-2035 | evbuffer_expand_singlechain: no byte changes and one chain has the room asked for; says which chain is picked, and exactly when it is one behind a half-full last chain |
| `EvBuffers.EvBuffer.ExpandFast` | buffer.c:2039-2147 | evbuffer_expand_fast_ with n >= 2: no byte changes and at most n consecutive chains from the last one with data hold the room |
| `EvBuffers.EvBuffer.ReserveSpace` | buffer.c:669-700 | evbuffer_reserve_space: the vectors name free space in order and add up to the size; for one vector, exactly when evbuffer_commit_space will accept it afterwards |
| `EvBuffers.EvBuffer.CommitSpace` | buffer.c:718-786 | evbuffer_commit_space: accepted exactly for vectors in order (or one vector on the last chain); then exactly their space is claimed and the content grows by the bytes written there; last_with_datap stays right if and only if no chain is left empty before one that is filled |
| `EvBuffers.ClaimAll` | buffer.c:766-775 | pass 2: every chain grows by what its vector says, and the last one filled ends the data if and only if there is no gap |
| `EvBuffers.EvBuffer.RunCallbacks` | buffer.c:454-510 | evbuffer_run_callbacks: what the callbacks are told is the exact difference since the counters were cleared; callbacks that are not deferred are told of every change in turn, each time from the length the last one left |
| `EvBuffers.EvBuffer.InvokeCallbacks` | buffer.c:512-530 | evbuffer_invoke_callbacks_: afterwards the callbacks know of every change, or the counters wait for the deferred ones |
| `EvBuffers.EvBuffer.FreeTrailingEmptyChains` | buffer.c:289-305 | evbuffer_free_trailing_empty_chains: frees only empty chains behind the data and keeps content and invariant |
| `EvBuffers.EvBuffer.ChainInsert` | buffer.c:307-326 | evbuffer_chain_insert: the new chain ends the list, and last_with_datap still names the last chain with data |
| `EvBuffers.EvBuffer.AdvanceLastWithData` | buffer.c:702-716 | advance_last_with_data steps over exactly the filled chains |
| `EvBuffers.LastWithDataUnique` | evbuffer-internal.h:86-102 | the invariant on last_with_datap pins down one chain |
| `EvBuffers.ReadSetupVecs` | buffer.c:2213-2247 | evbuffer_read_setup_vecs_: after evbuffer_expand_fast_ the walk never runs off the list and the vectors hold at least the bytes asked for |
| `EvBuffers.SingleCommit` | buffer.c:718-786 | a single vector is accepted exactly on the last chain or on the first chain with space |
| `EvBuffers.SingleReserveRefused` | buffer.c:669-786 | a run of reserve and commit calls on a new buffer that ends with the vector of a one-vector reserve refused |
| `EvBuffers.CommitWithGap` | buffer.c:718-786 | a run of calls on a new buffer whose last commit is accepted and leaves an empty chain before the last chain with data |
| `BufferMoves.AddBuffer` | buffer.c:960-1004 | evbuffer_add_buffer: everything in the source goes to the end of the destination, or nothing moves when frozen |
| `BufferMoves.WholeChains` | buffer.c:1286-1303 | the loop over whole chains stops inside the chain that is cut, and its assertion that the last chain with data is not taken whole holds |
| `BufferMoves.RemoveBuffer` | buffer.c:1254-1342 | evbuffer_remove_buffer: the destination gains exactly the first min(n, length) bytes, the source keeps the rest, both invariants hold |
| `BufferRuns.ReserveWriteCommit` | buffer.c:669-786 | reserving, writing into the vectors in order and committing appends exactly the data |
| `BufferRuns.Run` | buffer.c:1095-1909 | any run of add, prepend, reserve/commit, drain, remove, copyout, pullup, expand and moves between two buffers refines the run on two byte strings, output by output |
| `BufferRuns.PipeConserves` | buffer.c:960-1342 | through two buffers in a row bytes come out in the order they went in, none lost or added |
| `Cursors.PtrSet` | buffer.c:2609-2661 | EVBUFFER_PTR_SET: succeeds exactly within the content, with the canonical chain and offset |
| `Cursors.Walk` | buffer.c:2617-2656 | the walk over the chains ends at the canonical cursor or past the end |
| `Cursors.PtrAdd` | buffer.c:2609-2661 | EVBUFFER_PTR_ADD: the same cursor as EVBUFFER_PTR_SET of the sum |
| `Cursors.PtrSubtract` | buffer.c:2589-2606 | evbuffer_ptr_subtract: the canonical cursor of the difference |
| `Cursors.CanonicalUnique` | buffer.c:2609-2661 | a position has one canonical chain and offset |
| `Cursors.PtrMemcmp` | buffer.c:2665-2699 | evbuffer_ptr_memcmp: the order of the bytes there and the given ones, as memcmp has it, across chains; zero exactly when they occur there |
| `Cursors.MemcmpOrder` | buffer.c:2665-2699 | that order is by the first byte that differs |
| `Cursors.SearchRange` | buffer.c:2707-2769 | evbuffer_search_range: the least occurrence in the range across chain boundaries, or none exists |
| `Cursors.ScanFor` | buffer.c:1466-1535 | evbuffer_strchr and evbuffer_find_eol_char: the first wanted byte at or behind the cursor |
| `Cursors.StrSpn` | buffer.c:1537-1575 | evbuffer_strspn: how many wanted bytes follow |
| `Cursors.SearchEol` | buffer.c:1589-1677 | evbuffer_search_eol: the first line end of each style, with its length, or there is none |
| `Cursors.ReadLn` | buffer.c:1679-1716 | evbuffer_readln: the content splits into line, line end and rest |
| `EpollTable.TableMatches` | epolltable-internal.h:43-85 | all 512 rows of the table, at the index the macro computes, are what the pseudocode asks for |
| `Interest.DesiredIsUnion` | evmap.c:265-343 | the interest derived from the counts is the union of what the registered events want |
| `Interest.ApplyOneChange` | epoll.c:266-353 | epoll_apply_one_change: a change that is not a no-op leaves exactly its target set in the kernel, whatever was there before |
| `Interest.ApplyChanges` | epoll.c:355-371 | epoll_apply_changes: every fd with a change ends at its target, no other fd changes |
| `Interest.CoalesceExact` | evmap.c:854-939 | merging a later add or delete into a pending change moves its target by exactly those interests |
| `Interest.IoBase.Backend` | evmap.c:823-939 | event_changelist_add_ and _del_ queue one change per fd, or the unbatched backend applies it at once |
| `Interest.IoBase.Slot` | evmap.c:200-222 | evmap_make_space and the slot macros: growing the map changes no registration |
| `Interest.ClearFdinfo` | evmap.c:767-787 | event_changelist_remove_all_ resets exactly the entries of the fds it held |
| `Interest.IoBase.IoAdd` | evmap.c:265-343 | evmap_io_add_: refused exactly when a count is full; else the event is registered and changelist, counts and kernel agree; returns 1 exactly when the interests of the fd change |
| `Interest.IoBase.IoDel` | evmap.c:346-409 | evmap_io_del_: the event is unregistered and changelist, counts and kernel agree; returns 1 exactly when the interests of the fd change |
| `Interest.IoBase.Dispatch` | epoll.c:457-458 | applying the changelist leaves the kernel watching exactly what the registered events want |
| `Interest.IoBase.Reinit` | evmap.c:595-653 | event_reinit: on an empty kernel the same events are told to the backend again and the agreement holds |
| `Interest.RunBoth` | evmap.c:265-939 | after any run of adds, deletes, dispatches and reinits the batched and the immediate backend leave the same kernel map, the one the registered events ask for |
| `MinHeaps.RootIsLeast` | event.c:3957-3966 | the heap property makes the root an earliest deadline |
| `MinHeaps.ShiftUp` | minheap-internal.h:149-171 | sifting up restores the heap order, keeps every deadline and every stored index |
| `MinHeaps.ShiftDown` | minheap-internal.h:173-186 | sifting down restores the heap order, keeps every deadline and every stored index |
| `MinHeaps.MinHeap.Top` | minheap-internal.h:69-69 | min_heap_top_: an event with the earliest deadline, none exactly when empty |
| `MinHeaps.MinHeap.Push` | minheap-internal.h:71-77 | min_heap_push_: adds exactly one deadline |
| `MinHeaps.MinHeap.Erase` | minheap-internal.h:96-115 | min_heap_erase_: removes exactly one deadline from anywhere in the heap |
| `MinHeaps.MinHeap.Adjust` | minheap-internal.h:117-131 | min_heap_adjust_: changes exactly one deadline |
| `EventQueues.MembershipsFlip` | event.c:3225-3235 | changing one flag moves the number of memberships of non-internal callbacks by that flag only |
| `EventBases.EventBase.constructor` | event.c:1508-1580 | a base with idle callbacks and an internal timer per common timeout is in order |
| `EventBases.EventBase.RemoveActive` | event.c:3249-3264 | event_queue_remove_active keeps flags, queues and counters in agreement |
| `EventBases.EventBase.InsertActive` | event.c:3390-3408 | event_queue_insert_active appends to the queue of the callback's priority and keeps the agreement |
| `EventBases.EventBase.RemoveLater` | event.c:3265-3279 | event_queue_remove_active_later keeps the agreement |
| `EventBases.EventBase.InsertLater` | event.c:3411-3426 | event_queue_insert_active_later keeps the agreement |
| `EventBases.EventBase.SetInserted` | event.c:3374-3387 | event_queue_insert_inserted and event_queue_remove_inserted keep the agreement |
| `EventBases.EventBase.RemoveTimeout` | event.c:3280-3300 | event_queue_remove_timeout takes the event from the heap or from its common timeout queue |
| `EventBases.EventBase.InsertTimeout` | event.c:3428-3450 | event_queue_insert_timeout puts the event in the heap, or in its common timeout queue in order |
| `EventBases.InsertionPoint` | event.c:3344-3372 | insert_common_timeout_inorder: the search from the end finds the place that keeps the queue sorted |
| `EventBases.CommonInsert` | event.c:3344-3372 | inserting there keeps the queue sorted and holding exactly its events |
| `EventBases.EventBase.Del` | event.c:2827-2912 | event_del_nolock_: on no queue afterwards, nothing else changes, unless the event is finalizing |
| `EventBases.EventBase.Activate` | event.c:2932-2981 | event_active_nolock_: active and not later, results merged, and event_continue set exactly for a callback that was not active and precedes the running priority |
| `EventBases.EventBase.CallbackActivate` | event.c:3019-3047 | event_callback_activate_nolock_: what it does and returns in each state |
| `EventBases.EventBase.CallbackActivateLater` | event.c:3050-3061 | event_callback_activate_later_nolock_: what it does and returns in each state |
| `Timeouts.ScheduleTimer` | event.c:1471-1479 | common_timeout_schedule: afterwards the internal timer is pending at the deadline of the first waiting event, and every timer is in order |
| `Timeouts.Add` | event.c:2613-2774 | event_add_nolock_: the event's new state in every case, the failures without effect, no other event of the user changes, and every common timeout's timer is active or pending no later than its first event |
| `Timeouts.AddedMeans` | event.c:2613-2774 | the same in terms of the flags: registered unless it already is, is active or waits to be; due at the timeout given; an activation by an earlier timeout withdrawn; the period of a persistent event |
| `Timeouts.PlaceTimeout` | event.c:2726-2760 | the insertion wakes the internal timer exactly when needed |
| `Timeouts.DelUser` | event.c:2827-2912 | deleting keeps the internal timers in order |
| `Timeouts.AddTimeout` | event.c:2686-2762 | an earlier timeout and an activation by it are withdrawn before the new one is set |
| `TimeoutPasses.Fire` | event.c:3211-3216 | deleting and activating a due event leaves it active by timeout and the internal timers in order |
| `TimeoutPasses.RunTimer` | event.c:1483-1504 | an internal timer that runs fires its due events and is pending again only for later ones |
| `TimeoutPasses.TimeoutProcess` | event.c:3194-3218 | timeout_process: ends, and fires exactly the events due in the heap |
| `TimeoutPasses.CommonCallback` | event.c:1483-1504 | common_timeout_callback: fires exactly the due events of its queue and reschedules its timer for the next |
| `TimeoutPasses.TimeoutPass` | event.c:3193-3218 | timeout_process and then the timers it activated: exactly the events of the user with a deadline at or before now fire, from heap and common timeouts alike, and no other changes |
| `TimeoutPasses.TimeoutNext` | event.c:3156-3191 | timeout_next: with nothing active, the wait ends by the deadline of every pending event, on whatever queue |
| `TimeoutPasses.HeapCovers` | event.c:1471-1504 | every pending deadline is covered by a heap entry no later than it |
| `EventOps.RunOp` | event.c:2613-3154 | every call a callback can make keeps the base valid and changes its own callback as stated and nothing else |
| `EventOps.Finalize` | event.c:2263-2320 | finalizing leaves the callback active, on no other queue, and FINALIZING |
| `EventOps.ScheduleDeferred` | event.c:3136-3154 | event_deferred_cb_schedule_: active up to the limit, later beyond it, and what is counted |
| `EventOps.ActivateLater` | event.c:2991-3006 | event_active_later_nolock_: results merged, and waiting unless already active or waiting |
| `EventOps.Cancel` | event.c:3082-3110 | event_callback_cancel_nolock_ leaves the callback on no queue, for events and bare callbacks alike |
| `EventLoops.OpOrder` | event.c:2932-3154 | a call leaves the lower queues empty or stops the pass, if and only if it is not a direct activation of a callback before the running priority |
| `Dispatch.DeferredOvertakes` | event.c:1655-1772 | two callbacks of priority 1, the first of which schedules a deferred callback of priority 0: the second starts while that one is active |
| `EventLoops.RunOps` | event.c:2932-3154 | over any list of calls: every callback of the user is exactly as the calls make it one after another; order kept when activations go through event_active_nolock_; deferred callbacks counted and bounded |
| `EventLoops.RunUser` | event.c:1666-1752 | one callback of the user from its queue to its end: taken off, rescheduled if it persists, and its calls made, and no other callback of the user changes |
| `EventLoops.Begin` | event.c:1666-1690 | a callback taken from its queue: persistent and finalizing ones stay registered, others are deleted |
| `EventLoops.PersistClosure` | event.c:1583-1632 | event_persist_closure: after an activation by its deadline the event is due one period after that deadline if this is not before now, else one period after now; after any other activation one period after now; also for a common timeout of length zero; its assertion that timeout and period share their common timeout holds, and goes on holding |
| `EventLoops.RescheduledAt` | event.c:1598-1626 | the new deadline in terms of the old one, the period and the clock, and never in the past |
| `EventLoops.Beats` | event.c:1583-1632 | a periodic event whose callback is late by at most a period each time: after k firings its deadline is the first one plus k periods, so lateness does not add up |
| `Dispatch.RunHead` | event.c:1666-1752 | one callback of a queue: what it makes of every callback of the user, order, counts, and what shrinks when it does nothing |
| `Dispatch.ProcessQueue` | event.c:1655-1772 | event_process_active_single_queue: ends, takes the queue from its head, and leaves exactly what the callbacks it ran make of the state; every one was active when it started; it stops exactly at a break, the limit on callbacks or time, a continue, or the empty queue; nobody active is forgotten; and no callback starts while a smaller priority number is active |
| `Dispatch.ProcessActive` | event.c:1781-1824 | event_process_active: the same over all queues, in the order of the queues, with the callbacks of one queue only but for internal ones; when callbacks do nothing, every queue it has gone through is empty, and it stops at the first queue with a callback of the user or at a limit |
| `PassModels.QuietPass` | event.c:1655-1772 | when callbacks do nothing a queue is left before it is empty only at the limit on callbacks |
| `Dispatch.MakeLaterActive` | event.c:3452-3465 | event_queue_make_later_events_active: every callback waiting becomes active, and those whose closure is still that of a deferred callback are counted |
| `Dispatch.Report` | evmap.c:411-430 | the events reported ready are activated, and no other callback changes |
| `Dispatch.Wake` | event.c:1979-2025 | when event_process_active is called, every callback is as it was found, active if it waited for this iteration or was reported, and fired if it was due in the heap; nothing due is left in the heap |
| `Dispatch.Iterate` | event.c:1978-2034 | one iteration of the loop: every callback is woken as Dispatch.Wake says, then comes the pass of Dispatch.ProcessActive from that state; order of priorities; and the deferred callbacks put on active queues are at most max(33, those carried over) |
| `Dispatch.DueRuns` | event.c:2025-2028 | in an iteration whose callbacks do nothing an event due in the heap runs, or is still active on a queue that was not gone through |
| `Dispatch.TimerRuns` | event.c:1978-2034 | a timeout of 5 added at 0 and an iteration at 10: the event runs once and is no longer pending |
| `Dispatch.Loop` | event.c:1945-2046 | over any run of the loop every state is valid, every iteration does what Dispatch.Iterate says from the state the last one left, callbacks start in order of priority, and no assertion of event_persist_closure fires |
| `Dispatch.LoopFromNew` | event.c:1945-2046 | the same from a new event base on, so that nothing is asked of the state the loop starts in |
| `Dispatch.DrainDeferred` | event.c:1655-1772 | a pass over deferred callbacks that reschedule each other without end ends after at most 33 more than were active, those already waiting running first and in order, and leaves exactly what the callbacks and their calls make of the state |
| `DnsNames.Parse` | evdns.c:959-1013 | name_parse: the joined labels and the end offset exactly when the labels can be read within the pointer limit and fit the output |
| `DnsNames.VisibleIsName` | evdns.c:1599-1663 | the labels up to the first empty one spell the name if and only if it has no empty label |
| `DnsNames.EmptyLabelCuts` | evdns.c:1599-1663 | "a..b" is written as six bytes of which name_parse reads "a" and stops after three |
| `DnsNames.WriteReads` | evdns.c:1599-1663 | a written name reads back from its start; reading ends where writing did exactly when no empty label precedes; every new table entry reads as its suffix through pointers that lead backwards; and the packet stays in its buffer but for one byte, exactly when the last label, not empty and not a reference, fills it |
| `DnsNames.WriteFits` | evdns.c:1588-1663 | writing fails only with -1 for a label over 63 bytes or -2 for want of room; after success the packet is within its buffer or one byte over |
| `DnsNames.WriteRoom` | evdns.c:1634-1660 | at most one byte past the buffer, and that one if and only if the last label is written out, is not empty and ends where the buffer does |
| `DnsNames.OneByteOver` | evdns.c:1655-1660 | "a" written into two bytes takes three |
| `DnsNames.GetPos` | evdns.c:1559-1568 | dnslabel_table_get_pos: the position of the first entry for the name, and nothing exactly when there is none |
| `DnsNames.LookupFinds` | evdns.c:1559-1568 | the search finds a name exactly when the table holds it, and then its first entry |
| `DnsNames.DnsWriter.Emit` | evdns.c:1599-1663 | dnsname_to_labels step by step writes what Write describes, with the same codes, in its buffer but for that byte |
| `DnsNames.DnsWriter.AddRaw` | evdns.c:1890-1960 | other bytes of the packet do not disturb the table |
| `DnsNames.DnsWriter.AddName` | evdns.c:1599-1663 | after success the name reads back, every table entry is still readable, and the packet is in its buffer but for that byte |
| `DnsNames.WriteSize` | evdns.c:1599-1663 | writing succeeds exactly when no label up to the cut is over 63 bytes and there is room, and takes the bytes of the labels before the longest suffix in the table plus two, or those of the whole name |
| `DnsNames.WriteRemembers` | evdns.c:1571-1587 | while the table has room every suffix of a written name is in it, down to the one that was there |
| `DnsNames.SharedSuffix` | evdns.c:1599-1663 | a name written twice in a row takes two bytes the second time, while the table has room |
| `DnsNames.MailAfterWww` | evdns.c:1599-1663 | "www.example.com" and then "mail.example.com" take 17 and 7 bytes |
| `DnsNames.WriteItems` | evdns.c:1890-1960 | any names and raw bytes written into one packet with one table: exactly the packet that writing them in turn gives, or a failure; every name can be read from its start, and to its end if it has no empty label; the packet is at most one byte longer than its buffer |
| `DnsNames.ResponseOverrun` | evdns.c:1890-1960 | a response that takes 1501 bytes of the buffer of 1500 |
| `DnsNames.ReadSpan` | evdns.c:959-1013 | name_parse of a written name gives the name itself if and only if it has no empty label, and then its end offset |
| `GetAddrInfo.Request.constructor` | evdns.c:4718-4748 | an accepted request has a subrequest outstanding |
| `GetAddrInfo.Request.Arrive` | evdns.c:829-864 | a reply schedules the callback of its subrequest and nothing else |
| `GetAddrInfo.Request.CancelSub` | evdns.c:2845-2878 | evdns_cancel_request: the subrequest stays outstanding and its callback runs, a reply that came first is not replaced, the other subrequest is untouched, and a request not answered yet keeps its invariant while the user cancels |
| `GetAddrInfo.Request.TakeError` | evdns.c:4457-4484 | a reply without addresses: held back with the timer started, reported, or overridden by the answer of the other, as the step machine says |
| `GetAddrInfo.Request.TakeAnswer` | evdns.c:4484-4567 | a reply with addresses: kept with the timer started while the other is outstanding, or reported together with what was kept, as the step machine says |
| `GetAddrInfo.Request.GotResolve` | evdns.c:4385-4568 | evdns_getaddrinfo_gotresolve in every state: the reply is added to those seen unless the user was answered or cancelled, and the state is what the step machine says |
| `GetAddrInfo.Request.TimeoutFires` | evdns.c:4319-4369 | evdns_getaddrinfo_timeout_cb: one call of the user, no free, and the branch the code doubts is unreachable |
| `GetAddrInfo.Request.CancelByUser` | evdns.c:4753-4768 | evdns_getaddrinfo_cancel keeps the invariant without calling or freeing; no subrequest is live any more, each outstanding one still is, replies that came first are kept, and the timer is off |
| `GetAddrInfo.RunSteps` | evdns.c:4319-4768 | in every interleaving of replies, callbacks, timer and cancel: the state is that of the step machine after the steps; at most one call, at most one free, never while a subrequest is outstanding, both exactly once when none is; and exactly what the user is told, after a cancel EVUTIL_EAI_CANCEL unless the timer fired, and then the error of the first callback |
| `GetAddrInfo.SeenCame` | evdns.c:4385-4568 | every reply that the call to the user is made from came in the steps |
| `GetAddrInfo.CancelThenTimer` | evdns.c:4319-4484 | a cancel, one callback and the timer: the user who cancelled is told EVUTIL_EAI_FAIL |
| `GetAddrInfo.OneKind` | evdns.c:4268-4278 | a lookup of one kind: what the user is told for an answer, an answer without addresses, a name that does not exist and any other failure |
| `GetAddrInfo.AnswerThenNothing` | evdns.c:4530-4566 | an answer that came first is what the user is told when the other kind does not exist |
| `GetAddrInfo.Settle` | evdns.c:4385-4568 | from any state, the replies and their callbacks bring the request to its single call and free |
| `GetAddrInfo.OutcomeTwo` | evdns.c:4541-4566 | with both replies the user gets every address, the A records first, whichever came first |
| `DnsRequests.DnsBase.Pick` | evdns.c:1334-1367 | nameserver_pick: the first server up from the head of the ring, within one turn, or with none up the next of the ring, and where the head moves |
| `DnsRequests.PickFrom` | evdns.c:1334-1367 | the walk never comes back to its start while a server is up |
| `DnsRequests.PickedWithin` | evdns.c:1334-1367 | a server that is up and j places from the head is picked within j + 1 picks |
| `DnsRequests.DnsBase.Unlink` | evdns.c:648-664 | leaving a list keeps lists and counters in agreement |
| `DnsRequests.DnsBase.Link` | evdns.c:2824-2842 | joining a list keeps lists and counters in agreement |
| `DnsRequests.DnsBase.Swap` | evdns.c:544-553 | request_swap_ns: only the server changes, and its assertion holds |
| `DnsRequests.DnsBase.Failed` | evdns.c:557-614 | nameserver_failed: the count of good servers stays exact, and unsent requests leave a failed server while another is up |
| `DnsRequests.DnsBase.Up` | evdns.c:617-636 | nameserver_up: the server is up, its live probe cancelled with the pump that sets off, all counts exact; nothing that cancelling the probe sets off brings a server up |
| `DnsRequests.DnsBase.Transmit` | evdns.c:2237-2287 | evdns_request_transmit: sent, held back and marked, or failed with its server; its assertion on the transaction id holds, no request changes lists and no server comes up |
| `DnsRequests.DnsBase.TransmitAll` | evdns.c:2345-2366 | evdns_transmit: every marked inflight request is tried once, and the marked ones afterwards are those held back |
| `DnsRequests.DnsBase.Reissue` | evdns.c:714-735 | request_reissue: pointless exactly when the next pick is the same server, else the request counts as unsent and is marked |
| `DnsRequests.DnsBase.Pump` | evdns.c:742-770 | evdns_requests_pump_waiting_queue: first come first served, each promotion with the transaction id picked for it, sent or marked, and followed by a sweep of the marked requests, until no room, no request or no server; while no socket fails the k-th promoted goes to the server of the k-th pick; no server comes up |
| `DnsRequests.DnsBase.PromoteAndSend` | evdns.c:748-768 | one promotion: its id, its server, sent or marked, and what the sweep after it does to the others |
| `DnsRequests.DnsBase.Submit` | evdns.c:2747-2842 | a request goes inflight exactly when there is room and a server, to the server picked, with its transaction id, and is sent at once or marked; otherwise it is last in the queue; other requests change only their server, and only if the socket failed |
| `DnsRequests.DnsBase.Launch` | evdns.c:2824-2842 | request_submit of an assigned request: counted, in its bucket, and sent, marked, or moved from a server whose socket failed |
| `DnsRequests.DnsBase.Finish` | evdns.c:648-706 | request_finished: exactly the request goes, the waiting queue is pumped, and no server comes up |
| `DnsRequests.DnsBase.Probe` | evdns.c:2315-2340 | a probe is inflight whatever the limit, to the server probed, sent or marked, and the ring moves on as if for a request |
| `DnsRequests.DnsBase.AddServer` | evdns.c:2541-2553 | a new server joins the ring and is counted |
| `DnsRequests.DnsBase.SetMax` | evdns.c:3386-3415 | rehashing puts every inflight request in bucket trans_id mod n of the new table |
| `DnsRequests.Rehash` | evdns.c:3401-3408 | the move loop loses and duplicates no request |
| `DnsRequests.Run` | evdns.c:544-770 | over any run of submit, finish, swap, reissue, resend, sweep, pump, failure, recovery, probe, new server and rehash, with any transaction ids that transaction_id_pick can return and any send outcomes in each call, the invariant holds, every assigned request was sent or is marked, no assertion fires, and every call does to requests, queue, servers and ring what is stated for it |
| `DnsRequests.OnePlace` | evdns.c:2683-2842 | each live request is in exactly one list, the inflight ones in bucket trans_id mod n |
| `RateLimit.UpdateLimit` | bufferevent_ratelim.c:88-104 | the overflow-safe update, in 64-bit arithmetic, is min(maximum, limit + ticks * rate) |
| `RateLimit.GapIsElapsed` | bufferevent_ratelim.c:78-86 | the difference of wrapped 32-bit ticks is the number of ticks passed, up to INT_MAX |
| `RateLimit.Window` | bufferevent_ratelim.c:73-258 | in any window of k ticks at most maximum + k * rate bytes pass |
| `RateLimit.RunBucket` | bufferevent_ratelim.c:73-308 | the bucket of a bufferevent follows that arithmetic over any run |
| `RateLimit.Resumes` | bufferevent_ratelim.c:393-439 | one refill of a bucket at -d gives it something to give exactly from ceil((d + 1) / rate) ticks on |
| `RateLimit.Limited.Update` | bufferevent_ratelim.c:73-109 | ev_token_bucket_update_: both directions refilled, or nothing when no tick passed or time went back |
| `RateLimit.Limited.GetMax` | bufferevent_ratelim.c:197-258 | bufferevent_get_rlim_max_ without a group: nothing to give only while suspended |
| `RateLimit.Limited.Decrement` | bufferevent_ratelim.c:272-308 | a charge leaves the direction suspended exactly when its limit is not positive, and the refill pending exactly while one is |
| `RateLimit.Limited.Refill` | bufferevent_ratelim.c:393-439 | bev_refill_callback_: a suspended direction resumes exactly when enough ticks passed, else the refill is pending again |
| `RateLimit.Limited.SetRateLimit` | bufferevent_ratelim.c:559-636 | bufferevent_set_rate_limit: the whole new state for every old and new configuration, and the invariant |
| `RateLimit.RunLimited` | bufferevent_ratelim.c:197-636 | over any run of refills, reads of the allowance, charges and changes of configuration the state is that of a simple machine; the limit gains the ticks credited at the slowest rate set, less what was spent, or is above zero; so a suspended direction resumes with the first refill after ceil((d + 1) / rate) ticks however they are split, and not before |
| `RateLimit.Sweep` | bufferevent_ratelim.c:474-485 | FOREACH_RANDOM_ORDER visits each member exactly once from any start |
| `RateLimit.Group.Suspend` | bufferevent_ratelim.c:349-371 | the members whose lock is free are stopped, and the group is suspended |
| `RateLimit.Group.Unsuspend` | bufferevent_ratelim.c:487-504 | the members whose lock is free are released; a retry is pending exactly when some lock was not |
| `RateLimit.Group.Charge` | bufferevent_ratelim.c:294-305 | a charge leaves the group suspended exactly when its limit is not positive, and says who is stopped or released |
| `RateLimit.Group.GetShare` | bufferevent_ratelim.c:227-253 | the share of a member, and the late stop of one whose lock was busy |
| `RateLimit.Group.Refill` | bufferevent_ratelim.c:528-557 | bev_group_refill_callback_: limits refilled or, with no tick passed or time gone back, unchanged; a gap of two ticks from the floor leaves the group not suspended; a stopped member with a free lock means a group still short of its minimum share |
| `RateLimit.Group.AddBegin` | bufferevent_ratelim.c:735-770 | a member being added takes note of a suspended group under its own lock |
| `RateLimit.Group.AddEnd` | bufferevent_ratelim.c:770-780 | and then stops itself, with no wakeup lost in between |
| `RateLimit.Group.Remove` | bufferevent_ratelim.c:788-810 | a member that leaves carries no stop of the group |
| `RateLimit.Group.SetMinShare` | bufferevent_ratelim.c:703-722 | bufferevent_rate_limit_group_set_min_share: the share within one tick's rate, refused above EV_SSIZE_MAX; a bucket in debt is above the floor of the new share if and only if the debt is below it |
| `RateLimit.Group.Transfer` | bufferevent_ratelim.c:197-305 | a member within its share: exactly the bytes moved are charged, the other direction is untouched, and neither bucket falls below the floor |
| `RateLimit.GroupResumes` | bufferevent_ratelim.c:528-557 | from the floor a bucket is at its minimum share within two ticks |
| `RateLimit.LowerInDebt` | bufferevent_ratelim.c:703-722 | 127 bytes moved at a share of 64, then a share of 1: the debt of 63 is below the new floor |
| `RateLimit.SharesTop` | bufferevent_ratelim.c:703-722 | the floor of a run is set by the largest minimum share of the run, one lower if a share of 0 was among them |
| `RateLimit.RunGroup` | bufferevent_ratelim.c:349-780 | over any run with any locks failing, the state is that of a simple machine; a stopped member implies a suspended group or a pending retry; and while members keep to their shares, the bucket of either direction stays above minus the largest minimum share so far (or at it, once a share of 0 was set) |
| `Pairs.Pipe.Transfer` | bufferevent_pair.c:152-192 | be_pair_transfer: exactly the bytes up to the watermark, or all, go over, and the reader is suspended for its watermark exactly while the input reaches it |
| `Pairs.TransferEnds` | bufferevent_pair.c:152-192 | a transfer ends with nothing waiting or with the input at its watermark, loses no byte, and does not pass the watermark unless told to |
| `Pairs.Pipe.Write` | bufferevent_pair.c:204-221 | a write reaches the reader at once if it is willing |
| `Pairs.Pipe.Read` | bufferevent.c:114-131 | a read gives the first bytes of the input and lets more in when it falls below the watermark |
| `Pairs.Pipe.Talk` | bufferevent_pair.c:194-250 | be_pair_wants_to_talk and be_pair_enable: afterwards nothing is stuck |
| `Pairs.Pipe.SuspendRead` | bufferevent.c:66-76 | bufferevent_suspend_read_ adds its reason |
| `Pairs.Pipe.SuspendWrite` | bufferevent.c:90-100 | bufferevent_suspend_write_ adds its reason |
| `Pairs.Pipe.Disable` | bufferevent.c:550-563 | bufferevent_disable clears its flags |
| `Pairs.Pipe.UnsuspendRead` | bufferevent.c:78-88 | bufferevent_unsuspend_read_: nothing is stuck when the last reason goes |
| `Pairs.Pipe.UnsuspendWrite` | bufferevent.c:102-112 | bufferevent_unsuspend_write_: nothing is stuck when the last reason goes |
| `Pairs.Pipe.EnableRead` | bufferevent.c:459-480 | enabling reading hands over what waits |
| `Pairs.Pipe.EnableWrite` | bufferevent.c:459-480 | enabling writing hands over what waits |
| `Pairs.Pipe.SetHigh` | bufferevent.c:569-615 | bufferevent_setwatermark: the reader is suspended exactly while its input reaches the mark, and nothing is stuck |
| `Pairs.Pipe.Flush` | bufferevent_pair.c:304-337 | be_pair_flush hands over what waits, up to the watermark or past it |
| `Pairs.Run` | bufferevent_pair.c:152-337 | over any run on both sides: each direction is in the state of a simple machine; written is consumed, then input, then pending output, and nothing is stuck |
| `Tagging.TagRoundTrip` | event_tagging.c:177-245 | a 32-bit tag is read back whatever follows it |
| `Tagging.TagPrefix` | event_tagging.c:200-245 | no strict prefix of a tag is a tag |
| `Tagging.EncodeTag` | event_tagging.c:177-198 | evtag_encode_tag writes seven bits a byte, low bits first |
| `Tagging.DecodeTag` | event_tagging.c:200-245 | decode_tag_internal reads what ReadTag describes, rejecting what does not fit 32 bits; it looks at a sixth byte exactly when the first five go on and there is one |
| `Tagging.IntRoundTrip` | event_tagging.c:121-355 | an encoded integer is read back whatever follows it |
| `Tagging.IntPrefix` | event_tagging.c:319-355 | no strict prefix of an encoded integer is one |
| `Tagging.EncodeInt` | event_tagging.c:121-142 | the nibble loop produces the packed digits with their count |
| `Tagging.DecodeInt` | event_tagging.c:319-355 | the nibble loop reads what ReadInt describes |
| `Tagging.RecordRoundTrip` | event_tagging.c:260-484 | a record is read back whatever follows it |
| `Tagging.RecordPrefix` | event_tagging.c:441-455 | every strict prefix of a record is rejected |
| `Tagging.StreamRoundTrip` | event_tagging.c:260-484 | any list of records comes back, leaving nothing |
| `TagBuffers.Marshal` | event_tagging.c:260-267 | evtag_marshal appends exactly the record to the evbuffer |
| `TagBuffers.TakeTag` | event_tagging.c:200-245 | decode_tag_internal on an evbuffer, with draining, and exactly when it looks behind the five bytes it pulled up |
| `TagBuffers.LooksBehind` | event_tagging.c:213-225 | six bytes in a buffer on which the loop looks behind the five it pulled up |
| `TagBuffers.TakeInt` | event_tagging.c:379-386 | evtag_decode_int on an evbuffer |
| `TagBuffers.TakeHeader` | event_tagging.c:441-455 | evtag_unmarshal_header: length and tag, or -1; what is gone from the buffer in every case, also when the record is not all there |
| `TagBuffers.Unmarshal` | event_tagging.c:470-484 | evtag_unmarshal moves exactly the payload and drains exactly the record, or reports -1; a record too long for an int is refused |
| `TagBuffers.UnmarshalAll` | event_tagging.c:470-484 | unmarshalling until the evbuffer is empty gives the records of its content, or fails exactly when one is malformed or too long |
| `TagBuffers.ThroughBuffer` | event_tagging.c:260-484 | any list of records marshalled into an evbuffer comes back from it |
| `RpcGen.ValueRoundTrip` | event_rpcgen.py:224-343 | every complete value of every type comes back from its marshalled form |
| `RpcGen.MessageRoundTrip` | event_rpcgen.py:224-298 | unmarshal(marshal(m)) is m for every complete message of every schema with distinct tags |
| `RpcGen.AcceptsOnlyComplete` | event_rpcgen.py:246-298 | whatever unmarshal accepts is a complete value of the type |
| `RpcGen.RecordsTaken` | event_rpcgen.py:246-281 | every record of an accepted message has a known tag, and every entry has one value for each record with its tag |
| `RpcGen.UnknownTag` | event_rpcgen.py:273-276 | a message with an unknown tag anywhere is rejected |

## Left out

- Allocation failure everywhere; evbuffer and getaddrinfo calls are not all-or-nothing under it.
- Pinned, multicast, reference, file-segment and sendfile chains, `evbuffer_prepend_buffer` and Windows I/O.
- Chains are values in a sequence: their addresses, sharing between buffers and the `last` pointer, which is the end of the sequence, are not modelled.
- EvBuffers.EvBuffer.ReserveSpace: sizes are not negative.
- EventOps.RunOp: absolute timeouts are not given to persistent events; only the library itself adds with them.
- Evbuffer callbacks see exact counters but do not call back into the buffer, except the watermark callback of a paired bufferevent.
- `evbuffer_find_eol_char` reads a chain in one step, not in blocks of 128 bytes.
- Edge-triggered interest, signal events, and fds closed behind the library's back except for the retries of `epoll_apply_one_change`.
- Dispatch.ProcessActive: the reference model of a pass covers the callbacks of the user; of internal timers it states the invariant, the order and the events they fire, not their own flags.
- The set of callbacks of an event base and its common timeouts are fixed when the base is made; `event_assign` on a live base and `event_priority_set` are not modelled.
- Other threads acting on an event base while its loop runs; an internal timer leaves its queue and runs its callback in one step.
- `event_callback_finalize_many_`, `event_base_once`, loop exits and the wait in the backend itself.
- DnsNames.DnsWriter.AddName: packets of at most 16384 bytes, the reach of a compression pointer; the buffers in the code are far smaller.
- Parsing of whole DNS messages, resolv.conf and hosts files, search domains, evdns shutdown and `evdns_base_clear_nameservers_and_suspend`.
- The canonical name and the answer counters of getaddrinfo; a user cancel after the callback, which the documentation forbids.
- Refunds (negative charges) to token buckets, `bufferevent_rate_limit_group_set_cfg`, and failure of `event_add` for a refill.
- Pairs: unlinking and freeing a side, timeouts, and the user's own read and write callbacks.
- Tagging.RecordRoundTrip: payloads of at most INT_MAX bytes, beyond which the code's lengths turn negative.
- `evtag_marshal_timeval`, the accessor functions that event_rpcgen.py generates, and strings with embedded zero bytes.
- Bufferevents over sockets, filters and TLS, evrpc, the other backends, and configuration.
