# IRPMon: verified models of its core

IRPMon watches Windows drivers from the kernel. It replaces the dispatch pointers of
selected drivers by its own routines, turns every intercepted call into a request record,
queues the records, and hands them to a user-mode client. This project models the parts
whose correctness is not visible in one function, in Dafny, and proves what they promise.
`dafny verify dfyconfig.toml` checks all of it.

## The modules

**Event queue.** `EventQueue` is a step relation: any number of threads insert, clear and
connect, one consumer gets. Every region under one lock and every interlocked operation is
one step, so an insert takes its ID, appends, and raises the counters in four separate
steps, and the lists of a run are in general not sorted. `EventQueueInvariants` proves what
every step keeps, `EventQueueFifo` the order that survives the races, `EventQueueCounters`
the length counters, `EventQueueRundown` what a disconnect guarantees, `EventQueueGates`
which requests are turned away. `EventQueueDelivery` and `EventQueueSessions` say that
nothing gets stuck: queued requests can be returned, and sessions can begin and end.
`CompletionProtocol` runs the reference-counted handshake
between the dispatch and the completion path of any number of IRPs on top of that queue;
`CompletionOrder` says when a completion follows its IRP record, `CompletionLiveness` that
both paths of every IRP can come to their end.

**Batches.** `RequestBatch` has the queue as one thread sees it, the getter that fills a
buffer with as many records as fit, and the client's loop that walks the buffer.

**Hook manager.** Driver records and device records reference each other in a cycle.
`HookRecords` states the conservation of references and proves it for every primitive
operation; `HookManager`, `HookExisting` and `HookDrivers` are the routines of the hook
manager, `HookHandles` the two handle tables, `HookServices` and `HookDeviceServices` the
user-mode services, and `DispatchHandlers` what the hook handlers do to the records.
`HookEffects` says what each of these calls does, `HookRuns` has any run of them, and
`HookReached` states that runs do reach. The records are kept in maps by address; a record that is freed
leaves its map. `driverBorrows` and `deviceBorrows` are ghost: the references that callers
and routines in progress own. `DispatchHooks` is the replacement of the dispatch pointers by
one record. `MonitorRuns` puts the slots of all driver objects and the monitoring of all
records into the runs of the services, `MonitorLimits` shows where they go wrong.

**Flat formats.** `Wire` has bytes and buffers, `Snapshot` and `HookedObjects` the two lists
that the driver writes in two passes and the library parses, and the buffer that is doubled
until the list fits.

**Registry.** `MultiString` edits double-NUL-terminated lists in place, `RegistryLens` is the
value whose readers see the driver's filter name and whose stored list does not have it.
`KeyIndex` is the value index of a key, over the table of `StringRefTable`.

**Containers.** `HashTable`, `BootLog` and `DymArray`. `Basics` has three helpers shared by
several modules.

## What the proofs found

Where the code does less than its purpose suggests, the code is modelled as it is, with the
exact condition under which it does what it should.

- A consumer can receive the completion of an IRP whose own record it never gets, although
  nothing was cleared: the IRP record was refused because nobody was connected, then somebody
  connected (`IrpRecordCanBeMissing`). The completion follows its IRP record exactly if that
  record passed the connection test and the remove lock and was not cleared
  (`CompletionFollowsIfTaken`); it does if somebody is connected when the record is published
  and nobody disconnects or clears from then on (`CompletionFollowsWhileConnected`).
- The remove lock stays removed from the start of a disconnect to the next connect. A request
  that is let past the connection test because collecting is on is therefore lost exactly if
  somebody has disconnected since the last connect (`CollectedUnlessDisconnected`); a run that
  loses one is in `CollectedRequestIsLost`.
- A request for records takes them off the queue one by one. If the session ends after the first
  and before the call knows that no more fit, the call fails, and the records it has taken are
  lost to the client (`LostExactly`, `FetchAndHandle`).
- `UnhookDriverObject` looks its table entry up by driver object, so a handle kept over an
  unhook and a second hook of the same driver makes it delete the entry of another record. The
  caller is then left with the reference of that entry, and its own is given back twice: the
  references borrowed are those of before exactly if the entry was the record's own
  (`UnhookDriverObject`). Through such a handle `UMUnhookDriver` can free the record and leave
  the handle naming it (`StaleHandleDangles`, in a state that a run reaches).
- Monitoring can be switched on for a record that is no longer in the driver table, through a
  handle that is still open. If it selects a present routine, the slots are wrong at once, or
  when the last handle is closed and the record freed: only records in the driver table, and
  records that select nothing, may be switched on (`RunsStayRight`, and exactly those:
  `EnableExactly`). Runs in which the hooks outlive every record (`HooksLeftBehind`), or stay
  although all monitoring is off (`HooksPutBack`), are given.
- Two records of one driver object, switched on and off in the same order, leave a hook behind
  exactly if they select a present routine in common (`TwoRecords`); in the reverse order they
  never do (`TwoNested`).
- `HookObjectsEnumerate` moves its cursor on only for a driver with at least one device record;
  the structure of any other driver but the last is overwritten. The library then returns some
  driver in the place of another one, exactly if such a driver exists (`HookedObjects.Retrieve`).
- The buffer of the library is doubled as a 32-bit number: from 512 bytes it reaches the required
  length exactly if that is at most 2 GB; beyond that the size becomes 0 and the loop does not end
  (`DoublingReaches`).
- The comment at `irpmndrv/um-services.c:496` puts a driver's number of devices behind its name;
  the code writes it, and the library reads it, before the length of the name. The model follows
  the code.
- A name put at the end of a list runs together with whatever follows the list in the value's
  data, unless two NULs follow its place (`AppendedList`, `SeenAsShown`, `WriteBack`,
  `ReadAfterWrite`).
- The chain walk of the string table goes on after a match. On an arbitrary chain it unlinks all
  matches exactly if no two neighbours match (`WalkUnlinksAll`). Insertion refuses an equal hash,
  so there is never more than one.

## Model

| member | source | states |
|---|---|---|
| EventQueueInvariants.StepKeepsSound | kbase/req-queue.c:36-113 | any step of any inserting, getting, clearing, connecting or disconnecting thread keeps: each list holds exactly the listed requests of its pool, once; the consumer's and the delivered requests are on no list; no ID is above the last one given out |
| EventQueueInvariants.RunKeepsSound | kbase/req-queue.c:205-312 | the same for every run of every length and interleaving |
| EventQueueFifo.RealTimeFifo | kbase/req-queue.c:280-293 | if a was already accepted when b had no ID yet, then in every continuation that returns b, a was returned before it, or was cleared; and a has the smaller ID. The two may be in different, unsorted lists |
| EventQueueFifo.RunKeepsOrder | kbase/req-queue.c:70-113 | the invariant behind it: nothing with an ID above the bound stands ahead of a in its list or is picked while a is listed, over any run |
| EventQueueFifo.InsertNumbers | kbase/req-queue.c:287-304 | the one step of an insert that numbers its request gives it the next ID; every other ID stays, and every other step leaves all of them |
| EventQueueFifo.RunKeepsIdsExact | kbase/req-queue.c:205-312 | in every state of every run the IDs given out are 1 to the last one, each given to one request |
| EventQueueDelivery.ChosenExactly | kbase/req-queue.c:81-107 | the get gives up exactly if both lists are empty; otherwise it takes a head whose ID is no larger than the head of the other list, from the nonpaged list only if that is strictly smaller or the paged list is empty |
| EventQueueDelivery.GetCanReturn | kbase/req-queue.c:395-431 | a get that holds the lock can return that head by its own steps whenever a list is not empty; the rest of both lists stays |
| EventQueueDelivery.CallCanReturn | kbase/req-queue.c:404-429 | the same for a get called in any state with a connected queue and an intact lock |
| EventQueueDelivery.GetsCanReturnAll | kbase/req-queue.c:395-431 | from every state of a live session, whatever the consumer is doing, gets alone can empty both lists and return every request that was queued; all other requests stay where they are |
| EventQueueDelivery.NothingIsStuck | kbase/req-queue.c:280-431 | after every run that leaves a session up: the same, and a request not inserted yet can be inserted and returned |
| EventQueueCounters.RunKeepsCounters | kbase/req-queue.c:55-63 | in every state each counter is its list's length, less the requests linked and not yet counted, plus those unlinked and not yet discounted |
| EventQueueCounters.CountersExactAtQuiescence | kbase/req-queue.c:482-530 | with no thread between linking and counting, all three counters are the list lengths |
| EventQueueCounters.EveryRequestInOnePlace | kbase/req-queue.c:280-312 | in every state of every run each request is in exactly one place, and in a list or among the delivered ones exactly once |
| EventQueueRundown.SeveredRun | kbase/req-queue.c:260-277 | while the remove lock is removed and nobody holds it, no step but a connect appends to a list or returns a request; what the disconnect has cleared stays empty |
| EventQueueRundown.NothingLinkedAfterDisconnect | kbase/req-queue.c:266-271 | from the moment a disconnect has waited for the lock until the next connect, in every run, lists only lose requests and none is returned; if clearing was on at that moment, they are empty when the disconnect is over and stay so; if it was off, only clearing by hand can empty them |
| EventQueueRundown.EmptiedIs | kbase/req-queue.c:482-530 | clearing a list takes every request off it for freeing, and leaves the other list, the consumer and the session alone |
| EventQueueGates.StepTurnsAway | kbase/req-queue.c:286-293 | a step leaves a request unqueued exactly if it is the connection test or the remove lock and the request fails it there |
| EventQueueGates.NotQueuedBecause | kbase/req-queue.c:286-312 | over any run a request is freed or handed to the callbacks exactly if it failed one of the two tests |
| EventQueueGates.RemovedExactly | kbase/req-queue.c:205-278 | after any run the lock refuses everyone exactly if a disconnect has started since the last connect |
| EventQueueGates.ConnectedExactly | kbase/req-queue.c:205-278 | after any run the queue is connected exactly if a connect has succeeded and no disconnect has finished waiting since |
| EventQueueGates.CollectedUnlessDisconnected | kbase/req-queue.c:286-293 | in every run, a request let past the connection test while nobody is connected is lost exactly if somebody has disconnected since the last connect; otherwise it is queued |
| EventQueueGates.CollectedRequestIsLost | kbase/req-queue.c:260-293 | a run from the initial state, with collecting on, in which such a request is lost |
| EventQueueSessions.WhoHoldsTheLock | kbase/req-queue.c:205-312 | in every state of every run the remove lock is held exactly by a session that is connecting or up, by a get between its acquisition and its release, and by the inserts in between, except those of the connect itself |
| EventQueueSessions.PhaseIs | kbase/req-queue.c:205-278 | which steps change the session, and to what, and that only a change of settings changes the settings |
| EventQueueSessions.SessionNeverSticks | kbase/req-queue.c:205-278 | after every run the queue can still be connected and disconnected: inserts under way return, the get releases the lock, a connect and a disconnect come to their end |
| EventQueueSessions.NothingReturnedUnconnected | kbase/req-queue.c:404-429 | in a run without a successful connect no get passes the connection test and nothing is returned |
| CompletionProtocol.RunKeepsSystem | kbase/hook-handlers.c:1238-1327 | over any interleaving of any number of IRPs with the queue's own threads, every context's count is the number of paths that still use it |
| CompletionProtocol.ContextIsNeverTouchedAfterFree | kbase/hook-handlers.c:1593-1596 | a path about to touch a context finds it allocated; one about to publish the stored completion record finds it stored and never inserted; an IRP record is inserted at most once |
| CompletionProtocol.HandshakeIsExact | kbase/hook-handlers.c:1314-1321 | a context is freed at most once, its completion record is not inserted before the insert of its IRP record returned, and when both paths are done each has happened exactly once |
| CompletionProtocol.CompletionFollowsItsIrp | kbase/hook-handlers.c:1579-1596 | a consumer that got a completion got its IRP record before it exactly if the queue accepted that record and nobody cleared it; then its ID is smaller |
| CompletionProtocol.IrpRecordCanBeMissing | kbase/hook-handlers.c:1330-1365 | a reachable state in which a completion was returned, its IRP record was not, and nothing was cleared |
| CompletionOrder.NotQueuedInRun | kbase/req-queue.c:286-293 | over any run of IRPs and queue threads, a record is not queued exactly if the run has the test at which it was turned away |
| CompletionOrder.CompletionFollowsIfTaken | kbase/hook-handlers.c:1579-1596 | a consumer that got a completion got its IRP record before it exactly if that record failed neither test and was not cleared |
| CompletionOrder.CompletionFollowsWhileConnected | kbase/hook-handlers.c:1579-1596 | if somebody is connected when the IRP record is published, and no disconnect starts and no list is cleared in the rest of the run, the record is queued, and every completion returned follows it with a larger ID |
| CompletionLiveness.InsertCanReturn | kbase/req-queue.c:280-312 | from every reached state an insert once begun can return, whatever all IRPs and the consumer are doing |
| CompletionLiveness.CanFinish | kbase/hook-handlers.c:1238-1327 | from every reached state both paths of every hooked IRP can run to their ends, and the insert of its completion record returns |
| CompletionLiveness.EitherCanBeLast | kbase/hook-handlers.c:1314-1321 | while both paths hold their references, either one can be the one that drops the last |
| CompletionLiveness.HandshakeNeverSticks | kbase/hook-handlers.c:1579-1596 | both together, for the states of all runs: every hooked IRP can end with its context freed once and both its records inserted |
| RequestBatch.MergeKeepsRecords | kbase/req-queue.c:70-113 | the order in which two lists are emptied, by comparing head IDs, is a permutation of both |
| RequestBatch.MergeKeepsOrder | kbase/req-queue.c:70-113 | the records of each list keep their order among those of the other |
| RequestBatch.MergeIsRising | kbase/req-queue.c:87-103 | two lists that rise by ID are emptied in the order of IDs |
| RequestBatch.RequestQueue.Insert | kbase/req-queue.c:36-67 | the record goes to the named end of the list of its pool; the other list and the connection stay |
| RequestBatch.RequestQueue.Remove | kbase/req-queue.c:70-113 | nothing exactly if both lists are empty; otherwise a head whose ID is no larger than the head of either list, the paged one on a tie, and whether any record is left |
| RequestBatch.RequestQueue.Get | kbase/req-queue.c:395-431 | returns and flags the first record if it fits; if it does not, the queue is unchanged and the length needed is reported; the length stays untouched when disconnected, or when the remove lock refuses |
| RequestBatch.RequestQueue.Clear | kbase/req-queue.c:482-530 | every waiting record is freed once, list by list, and afterwards nothing waits |
| RequestBatch.LongestPrefixFits | irpmndrv/um-services.c:415-454 | a prefix of the queue fits the buffer exactly if it is not longer than the one chosen |
| RequestBatch.BatchRecords | irpmndrv/um-services.c:415-454 | the records of a batch are those of the queue, in order, flagged exactly if another one follows |
| RequestBatch.GetRequestRecords | irpmndrv/um-services.c:394-460 | removes exactly the longest prefix that fits, or as much of it as there are gets before the session ends, at any get; lays it out with every record but the last linked and flagged exactly if more was queued, returns its total size and, if the session has ended, an error; leaves queue and buffer alone if it gets nothing, and then says whether nobody is connected or the lock refuses |
| RequestBatch.LostExactly | irpmndrv/um-services.c:433-436 | a failing call has taken records off the queue exactly if the session ends after the first record and before the call has found out that no more fit |
| RequestBatch.LayoutAt | irpmndrv/um-services.c:420-431 | where each record's header lies, and whether its link is NULL |
| RequestBatch.ReadBatch | kbdsample/kbdsample.c:151-192 | the client's walk over such a buffer sees exactly the records of the batch, in order |
| RequestBatch.FetchAndHandle | kbdsample/kbdsample.c:148-193 | the getter followed by the walk: the client handles exactly the longest prefix that fits, in the order of IDs if both lists rise; if the session ends on the way it handles nothing, and what was taken off the queue is gone |
| HookRecords.ReferencedIsLive | kbase/hook.c:380-435 | whoever is referenced is allocated; the driver record of every live device record is |
| HookRecords.LastReferenceMeansNoDevices | kbase/hook.c:366-377 | a driver record that loses its last reference has an empty device table and no device record points at it |
| HookRecords.RefDriverKeeps | kbase/hook.c:502-507 | taking a reference keeps every count equal to tables, live device records, handles and borrowers |
| HookRecords.RefDeviceKeeps | kbase/hook.c:518-523 | the same for a device record |
| HookRecords.UnrefDriverKeeps | kbase/hook.c:510-515 | giving one back keeps the counts, whether or not it frees the record |
| HookRecords.UnrefDeviceKeeps | kbase/hook.c:423-435 | the same for a device record, whose freeing may free its driver record |
| HookRecords.NewDriverKeeps | kbase/hook.c:316-363 | a new driver record starts with the caller's reference |
| HookRecords.NewDeviceKeeps | kbase/hook.c:380-420 | a new device record references its driver record |
| HookRecords.TableDriverKeeps | kbase/hook.c:551-552 | the driver table takes a reference over |
| HookRecords.UntableDriverKeeps | kbase/hook.c:591-604 | and gives it to the caller again |
| HookRecords.TableDeviceKeeps | kbase/hook.c:722-726 | a device table takes a reference over |
| HookRecords.UntableDeviceKeeps | kbase/hook.c:737-742 | and gives it to the caller again |
| HookRecords.DriverHandleKeeps | irpmndrv/um-services.c:32-66 | a handle takes a reference over and gives it up when it is closed |
| HookRecords.DeviceHandleKeeps | irpmndrv/um-services.c:69-103 | the same for device handles |
| HookManager.Manager.Get | kbase/hook.c:616-635 | finds exactly the hooked drivers' records, with a reference for the caller |
| HookManager.Manager.GetDevice | kbase/hook.c:821-839 | finds exactly the records in the device table, with a reference for the caller |
| HookManager.Manager.DeviceValid | kbase/hook.c:991-1006 | an object ID is accepted exactly if it names a live device record the user asked for |
| HookManager.Manager.DriverValid | kbase/hook.c:1009-1024 | an object ID is accepted exactly if it names a record in the driver table |
| HookManager.Manager.MakeDeviceValid | kbase/hook.c:136-147 | the intrusive link of the validation table is never linked twice |
| HookManager.Manager.AddDevice | kbase/hook.c:710-778 | collides exactly if the table has a record for the device that the user asked for; else fails exactly if a proxy is needed and cannot be made; a failed call leaves everything as it was, and a success leaves a record the user asked for, valid once, and the caller a reference: a record made by hooking the driver is promoted |
| HookManager.Manager.DeleteDevice | kbase/hook.c:781-818 | the record in the table goes back to one made by hooking the driver and is no valid ID any more; refused exactly if there is none the user asked for |
| HookManager.DeleteUndoesAdd | kbase/hook.c:710-818 | deleting undoes promoting, once the caller gives its reference back |
| HookManager.Manager.ClearSelectedDevices | kbase/hook.c:600-602 | every device record of the table loses the table's reference and is freed if it was the last; nothing else changes |
| HookManager.Manager.UnhookDriverObject | kbase/hook.c:584-613 | what a successful call changes; the borrowed references are those of before, and the manager at rest, exactly if the entry deleted was the record's own |
| HookManager.Unhooked | kbase/hook.c:584-613 | the same as a statement about states: entry gone, device table empty, validity gone, references conserved |
| HookDrivers.CreateRecords | kbase/hook.c:437-481 | one record for each existing device, each referencing the driver record |
| HookDrivers.TableRecords | kbase/hook.c:553-561 | all of them are put into the device table, each once |
| HookDrivers.ReleaseRecords | kbase/hook.c:484-496 | the references held meanwhile are given back; without the table they are freed |
| HookDrivers.HookDriverObject | kbase/hook.c:534-581 | a driver already hooked collides and nothing changes; otherwise table, records and validity are exactly those of the new record, and at rest again |
| HookDrivers.GivenUp | kbase/hook.c:569-577 | giving up after a collision frees everything without a trace |
| HookHandles.CreateDriverHandle | km-shared/handle-table.c:208-230 | a handle value not in use, with a reference of its own |
| HookHandles.TranslateDriverHandle | km-shared/handle-table.c:233-262 | exactly the open handles translate, to a live record, with a reference for the caller |
| HookHandles.DuplicateDriverHandle | km-shared/handle-table.c:265-293 | a second handle with a reference of its own; nothing happens on an unknown handle |
| HookHandles.CloseDriverHandle | km-shared/handle-table.c:296-325 | the handle and its reference are gone; nothing happens on an unknown handle |
| HookHandles.ClearDriverHandles | km-shared/handle-table.c:195-205 | no handle is left, every handle's reference is given back, and whatever record is left differs in its count only; with `HookRuns.AliveAtRest`, which ones are left |
| HookHandles.DriverHandleComesAndGoes | km-shared/handle-table.c:208-325 | closing a handle undoes making it |
| HookHandles.CreateDeviceHandle | km-shared/handle-table.c:208-230 | the same for the table of device handles |
| HookHandles.TranslateDeviceHandle | km-shared/handle-table.c:233-262 | exactly the open handles translate, with a reference for the caller |
| HookHandles.CloseDeviceHandle | km-shared/handle-table.c:296-325 | the handle and its reference are gone, and with the last one the record |
| HookHandles.ClearDeviceHandles | km-shared/handle-table.c:195-205 | the same for device handles |
| HookHandles.DeviceHandleComesAndGoes | km-shared/handle-table.c:208-325 | closing a device handle undoes making it |
| HookServices.HookDriver | irpmndrv/um-services.c:110-187 | only a success changes anything: a hooked driver whose caller's reference has become the handle's; a result that cannot be copied out is taken back completely |
| HookServices.HookUndone | kbase/hook.c:534-613 | hooking and unhooking a driver and giving the last reference back restores the former state: the whole cycle is freed |
| HookServices.UnhookDriver | irpmndrv/um-services.c:190-224 | on the handle of a record in the table, the driver is unhooked and the handle closed; on a stale handle another record's entry goes, and the handle is left naming a freed record exactly if the record had one reference; otherwise nothing changes |
| HookDeviceServices.AddDevice | irpmndrv/um-services.c:227-354 | each status exactly under its condition; on success a device record and a handle that owns a reference; if the handle cannot be copied out the device is deleted again; on any other failure nothing changes |
| HookDeviceServices.AddUndone | irpmndrv/um-services.c:324-332 | deleting a device just added restores the former state, or leaves a record as made by hooking |
| HookDeviceServices.DeleteDevice | irpmndrv/um-services.c:357-391 | demotes exactly the record in the table for the handle's device object and closes the handle; otherwise nothing changes |
| HookRuns.OpenDriver | irpmndrv/um-services.c:968-1047 | exactly the hooked drivers' records can be opened; only a success leaves a handle |
| HookRuns.OpenDevice | irpmndrv/um-services.c:968-1047 | exactly the live device records the user asked for can be opened |
| HookRuns.AliveAtRest | kbase/hook.c:366-435 | between calls a driver record is alive exactly if it is hooked, has a handle, or owns a device record with a handle; a device record exactly if it is in its table or has a handle |
| HookRuns.NothingLeft | kbase/hook.c:584-613 | with all drivers unhooked and all handles closed every record has been freed |
| DispatchHandlers.UnloadDriver | kbase/hook-handlers.c:1662-1689 | a hooked driver that is unloaded is unhooked, whoever has handles to its record; they keep the record, out of the table and without devices |
| DispatchHandlers.SeeDevice | kbase/hook-handlers.c:81-105 | a device without a record gets one, valid and referenced by its table only, exactly if the driver is hooked, new devices are wanted, and a proxy can be made if one is needed; otherwise nothing changes |
| HookEffects.EffectSettled | kbase/hook.c:366-435 | whatever a call frees was not referenced any more: each of the eleven effects, which say how much every count falls or rises, leaves every count equal to tables, live device records and handles, and the validation tables right |
| HookRuns.Perform | irpmndrv/um-services.c:110-391 | every call has the effect that `HookEffects` states for it, up to the reference counts and the validation tables |
| HookRuns.RunsStayAlive | irpmndrv/um-services.c:110-391 | in every state of every run, by induction over its calls, all counts are right, no caller is left with a reference, and exactly the records that `AliveAtRest` names are allocated |
| HookRuns.Serve | irpmndrv/um-services.c:110-391 | the calls are performed in order, each a step from the state before to the state after it, up to the first unhook through a stale handle |
| HookReached.CanHook | irpmndrv/um-services.c:110-187 | in every state between calls a driver that is not hooked can be, with any unused address and handle value |
| HookReached.CanUnhook | irpmndrv/um-services.c:190-224 | and a record in the table whose device table is empty can be unhooked through its handle |
| HookReached.CanAdd | kbase/hook.c:749-767 | in every state between calls a device of a hooked driver can be added if a proxy can be made where one is needed: an unknown one, and one known from hooking the driver |
| HookReached.StaleHandleDangles | irpmndrv/um-services.c:209-218 | a state reached by a run in which unhooking through a stale handle leaves the handle naming a record that is no longer allocated |
| DispatchHooks.HookingIsRight | kbase/hook.c:182-246 | selected slots hold their hooks, their originals are saved and are no hooks, all other slots are the driver's own |
| DispatchHooks.RestoringUndoesHooking | kbase/hook.c:249-310 | with the same selection, whatever was in the slots is back |
| DispatchHooks.TwoRecords | kbase/hook.c:182-310 | two records of one driver object, on, on, off, off in the same order, restore it exactly if they select no present routine in common |
| DispatchHooks.TwoNested | kbase/hook.c:182-310 | switched off in the reverse order, they restore it whatever they select |
| DispatchHooks.HarmlessSwitch | kbase/hook.c:182-310 | a record that selects no present routine changes no slot, whatever other hooks are in |
| DispatchHooks.NotBothRight | kbase/hook.c:182-246 | of two records that select a present routine one ends up wrong: it has saved a hook, or finds a foreign one in its slot |
| DispatchHooks.RanAlone | kbase/hook.c:638-707 | over every run of requests to a record that alone works on its driver object, the slots are the originals while it is off, and hooked with the originals saved while it is on |
| DispatchHooks.RanLast | kbase/hook.c:638-707 | whatever came before, the last request of a run decides: whether monitoring is on, and which settings are taken over |
| DispatchHooks.SavedElsewhere | kbase/hook.c:182-246 | the saved pointer of a routine that is not selected, or not present, is not touched |
| DispatchHooks.HookRecord.HookTarget | kbase/hook.c:182-246 | the slot-by-slot routine does what the specification of hooking says, to slots and saved pointers |
| DispatchHooks.HookRecord.UnhookTarget | kbase/hook.c:249-310 | the slot-by-slot routine does what the specification of restoring says |
| DispatchHooks.HookRecord.SetSettings | kbase/hook.c:638-660 | while monitoring is off all settings are taken over; while it is on exactly four flags are, and what selects the slots stays; slots and saved pointers stay |
| DispatchHooks.HookRecord.SetEnabled | kbase/hook.c:686-707 | monitoring is then as asked, with the settings as they were; it changes only if it was the other way round; slots without hooks are hooked right; and slots and record are then as specified, whoever else has hooked the driver object |
| DispatchHooks.HookRecord.StopMonitoring | kbase/hook.c:595-598 | unhooking switches monitoring off, with the slots as after disabling |
| DispatchHooks.AloneIsRight | kbase/hook.c:182-310 | what that means slot by slot: off, all are the originals; on, the selected ones are hooked and their originals saved, the rest is the driver's own |
| DispatchHooks.HookRecord.Run | kbase/hook.c:638-707 | any run of settings, enabling, disabling and unhooking leaves slots and record as the specification that `RanAlone` is about |
| MonitorRuns.StepKeepsNeat | irpmndrv/um-services.c:872-904 | any service, any change of settings, and switching monitoring on where it may be or off, keep: only records in the driver table have hooks in the slots, and each driver object has its own routines or that record's hooks |
| MonitorRuns.NeatIsRight | kbase/hook.c:182-310 | then the slots of a driver object are the originals while no record works on it, and hooked right for every record that works |
| MonitorRuns.RunsStayRight | irpmndrv/um-services.c:703-735 | the same in every state of every run of the services over any number of records and driver objects, if monitoring is only switched on for records in the driver table or ones that select nothing; an unhooked driver has its own routines back |
| MonitorRuns.RequestedIs | irpmndrv/um-services.c:703-735 | setting and enabling through a handle concern the record behind the handle and no other, and what they change in it |
| MonitorRuns.ServedIs | irpmndrv/um-services.c:110-224 | a service changes the monitoring of the record it unhooks only, which is then off; a new record is not monitored and has the settings given |
| MonitorLimits.AllowedExactly | kbase/hook.c:366-377 | where that condition does not hold, the slots are wrong as soon as monitoring is on, or once the handles are closed and the record is freed |
| MonitorLimits.EnableExactly | kbase/hook.c:686-707 | after every run that met the condition, the next switching on keeps the slots right exactly if it meets it too |
| MonitorLimits.HooksLeftBehind | irpmndrv/um-services.c:872-904 | a reached state without any record in which all that a freed record selected is still hooked |
| MonitorLimits.HooksPutBack | irpmndrv/um-services.c:872-904 | a reached state in which no record is monitored and the slots are the originals exactly if the two records it had selected no present routine in common |
| Wire.ValueOfBytes | irpmondll/driver-com.cpp:176-181 | a number written in little-endian bytes is read back |
| Wire.LittleEndian | irpmondll/driver-com.cpp:176-181 | the value of four bytes, the one at the lowest address counting least |
| Snapshot.Measure | irpmndrv/um-services.c:486-557 | the measured length is the length of what will be written |
| Snapshot.EnumDriversDevices | irpmndrv/um-services.c:559-633 | succeeds exactly if everything fits, writes exactly the measured bytes from the start of the buffer, and otherwise writes nothing |
| Snapshot.LayoutIs | irpmndrv/um-services.c:594-622 | the number of drivers in the first four bytes, and behind it the drivers one after the other |
| Snapshot.DriverParts | irpmndrv/um-services.c:601-608 | where address, number of devices, length of the name, name and devices of a driver lie |
| Snapshot.DeviceParts | irpmndrv/um-services.c:610-618 | where address, attached device, length of the name and name of a device lie |
| Snapshot.Parse | irpmondll/driver-com.cpp:165-228 | any list of drivers and devices that was encoded comes back |
| Snapshot.SizesFrom512 | irpmondll/driver-com.cpp:1071-1084 | the sequence of 32-bit buffer sizes: 512 doubled 22 times is 2 GB, doubled again 0 for ever |
| Snapshot.DoublingReaches | irpmondll/driver-com.cpp:1075-1084 | some buffer is large enough exactly if at most 2 GB are needed |
| Snapshot.Retrieve | irpmondll/driver-com.cpp:154-239 | the loop ends, the list comes back, and the buffer is the first one or less than twice what is needed |
| HookedObjects.Measure | kbase/hook.c:885-914 | the measured length is that of all structures with their names, and of the user's devices only |
| HookedObjects.Enumerate | kbase/hook.c:914-982 | succeeds exactly if everything fits; counts all drivers and devices, and the structures in the buffer are the survivors', in iteration order |
| HookedObjects.HeaderReads | kbase/hook.c:919-960 | the first two numbers in the buffer count all drivers and all devices the user asked for |
| HookedObjects.DriverReads | kbase/hook.c:930-948 | where each field of a driver lies and what is there, the size of its structure and the number of its devices included |
| HookedObjects.DeviceReads | kbase/hook.c:959-969 | the same for a device |
| HookedObjects.SurvivorsHead | kbase/hook.c:949-975 | which drivers survive, in order: those with a device record, and the last |
| HookedObjects.WhoSurvives | kbase/hook.c:949-975 | every driver survives exactly if all but possibly the last have a device record; otherwise some place has another driver's structure |
| HookedObjects.FirstOfTwoIsLost | kbase/hook.c:949-975 | of two drivers the first of which has no device record only the second survives |
| HookedObjects.Parse | irpmondll/driver-com.cpp:514-624 | whatever the buffer holds, of each whole structure it starts with ID, address, flags, settings and name come back, with as many devices as the user asked for, and of each of those ID, address, settings, flag and name, at the place of its record among them |
| HookedObjects.Retrieve | irpmondll/driver-com.cpp:507-624 | writer, doubling buffer and parser together, for any drivers with distinct IDs: the survivors come back first, in order, field by field with their user-requested devices; every driver survives if all but possibly the last have a device record, and otherwise some entry is another driver's |
| MultiString.BufferIsList | km-shared/multistring.c:13-27 | what lies before the end is the flattened list, and its entries are non-empty and free of NULs |
| MultiString.ListIsBuffer | km-shared/multistring.c:13-27 | a flattened list is read back |
| MultiString.Size | km-shared/multistring.c:13-27 | the size in bytes is exact, for any buffer that ends in two NULs |
| MultiString.Exists | km-shared/multistring.c:30-47 | finds exactly whether an entry equals the name ignoring case, and where the first one stands |
| MultiString.Insert | km-shared/multistring.c:50-72 | nothing if the name is there; otherwise every character of the buffer afterwards, and the new size |
| MultiString.Remove | km-shared/multistring.c:75-95 | the list without its first match and the new size; nothing if there is no match |
| MultiString.PrependedList | km-shared/multistring.c:59-63 | the buffer after inserting at the front is the name and the old list |
| MultiString.AppendedList | km-shared/multistring.c:64 | the buffer after inserting at the end is the old list and the name exactly if two NULs follow the place of the name |
| MultiString.ClosedList | km-shared/multistring.c:83-90 | moving the characters down takes out exactly the first match |
| MultiString.FirstInFront | km-shared/multistring.c:50-95 | removing undoes inserting at the front |
| MultiString.FirstAtEnd | km-shared/multistring.c:50-95 | removing undoes inserting at the end |
| MultiString.RoomToInsert | irpmndrv/pnp-class-watch.c:211-216 | for any data, terminated or not, the three extra characters and the name are enough room |
| MultiString.RoomToRemove | irpmndrv/pnp-class-watch.c:243-248 | for any data, terminated or not, two extra characters are enough |
| MultiString.AppendsToTheEnd | irpmndrv/pnp-class-watch.c:211-216 | with nothing behind the list but the padding, appending works |
| RegistryLens.PaddingIsNothing | irpmndrv/pnp-class-watch.c:211-215 | how much zeroed memory follows the data does not change the list |
| RegistryLens.QueryCallback | irpmndrv/pnp-class-watch.c:201-231 | for any data at all, the list a reader sees, including the name run together with what follows the list |
| RegistryLens.SeenAsShown | irpmndrv/pnp-class-watch.c:211-224 | that is the stored list with the name once at the configured end exactly if the name is there, goes to the front, or two NULs follow its place |
| RegistryLens.AppendedReads | irpmndrv/pnp-class-watch.c:216-223 | the cut buffer reads as the old entries and the name with the two characters behind it |
| RegistryLens.SetCallback | irpmndrv/pnp-class-watch.c:234-263 | the written list without its first match, for any data |
| RegistryLens.ManyFewer | kbase/value-record.c:98-105 | after n callbacks the name is gone exactly if it was written at most n times |
| RegistryLens.CountSplit | irpmndrv/pnp-class-watch.c:234-263 | how often the name is in a list, and the other entries, entry by entry, together with `OneEntry` |
| RegistryLens.OneEntry | irpmndrv/pnp-class-watch.c:234-263 | of a single entry |
| RegistryLens.ShownUndone | irpmndrv/pnp-class-watch.c:201-263 | in what is shown the name stands once, and the other entries are the stored list |
| RegistryLens.ValueRecord.Query | kbase/value-record.c:258-303 | what a reader sees through any number of callbacks, for any data: the first one shows the name, the rest change nothing; and the type |
| RegistryLens.ValueRecord.InvokeSet | kbase/value-record.c:82-124 | one match less for each callback, and the list type; data without a match, and its type, are unchanged |
| RegistryLens.ValueRecord.SetValue | kbase/value-record.c:518-575 | the stored list is free of the name exactly if it was written at most once per callback, and then has the other entries in order; a failed write changes nothing |
| RegistryLens.ValueRecord.WriteBack | kbase/value-record.c:258-303 | what is stored after writing back what was read, through any number of callbacks; that is the list of before exactly if the name goes to the front, or two NULs follow its place, or the one character it runs into is the name again and is taken out too |
| RegistryLens.ValueRecord.ReadAfterWrite | kbase/value-record.c:518-575 | through any number of callbacks a read shows the other entries written, in order, with the name once at the configured end, exactly if that is the front, or the name was written, or two NULs follow its place |
| RegistryLens.ValueRecord.Writes | kbase/value-record.c:518-575 | over any run of writes, each of which may fail, the stored list is the last one written less one name per callback |
| RegistryLens.NeverStored | kbase/value-record.c:518-575 | that list never has the name, if each write has it at most once per callback |
| RegistryLens.NothingMoreSeen | kbase/value-record.c:258-303 | a list with the name in it looks the same through any further callbacks |
| HashTable.TopOfStack | km-shared/hash_table.c:554-579 | the first match in a chain is the newest item under the key |
| HashTable.StackPopped | km-shared/hash_table.c:515-533 | taking it out exposes the next under every equal key and leaves all other keys alone |
| HashTable.Table.Insert | km-shared/hash_table.c:472-487 | the item goes to the front of the bucket its hash gives; so under every key equal to the item's it is on top, and all other keys are unchanged |
| HashTable.Table.Get | km-shared/hash_table.c:554-579 | the newest item under the key, or null |
| HashTable.Table.Delete | km-shared/hash_table.c:503-539 | returns and removes the newest item, under every key |
| HashTable.Table.Clear | km-shared/hash_table.c:685-713 | every item is freed once if freeing is asked for, and the table is empty |
| HashTable.Iterator.GetFirst | km-shared/hash_table.c:760-785 | stands on the first item, or says that there is none |
| HashTable.Iterator.GetNext | km-shared/hash_table.c:809-838 | moves on by exactly one item, over empty buckets, or says that it was the last |
| HashTable.Traverse | km-shared/hash_table.c:760-838 | iterating ends and visits every item exactly once, as many as the table counts |
| HashTable.AllDistinct | km-shared/hash_table.c:472-539 | no item is in two places, and the count is the number of items |
| BootLog.ListHeadMove | kbase/boot-log.c:30-41 | the new head takes over all entries, linked both ways, and the old one is empty |
| BootLog.AddTailList | kbase/boot-log.c:44-55 | two rings become the ring of their concatenation, and the second is empty |
| BootLog.Joined | kbase/boot-log.c:44-55 | which four links join two rings into one |
| BootLog.DrainCache | kbase/boot-log.c:71-82 | the cached requests go to the end of the list, in order |
| BootLog.BootLog.OnRequest | kbase/boot-log.c:486-502 | the request goes behind all that arrived before it, at either level; flushed, listed and cached requests together are the arrivals in order |
| BootLog.BootLog.Flush | kbase/boot-log.c:85-121 | everything that arrived has been flushed once, in order, and the file has the requests that could be written |
| StringRefTable.Table.WalkChain | km-shared/string-ref-table.c:19-43 | on any chain, the links the deleting walk leaves, and that the last match is returned |
| StringRefTable.Last | km-shared/string-ref-table.c:19-43 | which entry is the last match |
| StringRefTable.WalkedIsLinked | km-shared/string-ref-table.c:19-43 | what those links run through: matches are skipped unless the entry before them was |
| StringRefTable.WalkUnlinksAll | km-shared/string-ref-table.c:28-38 | all matches are unlinked exactly if no two neighbours match |
| StringRefTable.OneMatch | km-shared/string-ref-table.c:136-152 | with pairwise distinct hashes exactly one entry is unlinked |
| StringRefTable.Table.Insert | km-shared/string-ref-table.c:110-133 | refused exactly if an entry has an equal hash, which is then returned; otherwise it goes to the front of the bucket its hash gives; so hashes stay pairwise distinct |
| StringRefTable.Table.Delete | km-shared/string-ref-table.c:136-156 | exactly one entry leaves the table, the one with an equal hash; null exactly if there is none |
| StringRefTable.Table.OnlyOne | km-shared/string-ref-table.c:13-43 | no two entries of the table have equal hashes |
| KeyIndex.OneDropped | kbase/key-record.c:242-246 | moving the rest down takes exactly one record out of the array |
| KeyIndex.KeyRecord.Append | kbase/key-record.c:176-193 | the record goes to the end of the array, which grows if it is full; without memory nothing changes |
| KeyIndex.KeyRecord.Add | kbase/key-record.c:161-218 | refused exactly if a record has an equal hash; if memory runs out the table entry is taken back; names and room afterwards are those of the specification |
| KeyIndex.KeyRecord.Drop | kbase/key-record.c:242-254 | exactly the record goes, the order of the rest stays, and an empty array is freed |
| KeyIndex.KeyRecord.Delete | kbase/key-record.c:233-264 | table and array lose the same record, or nothing changes; names and room afterwards are those of the specification |
| KeyIndex.KeyRecord.EnumValue | kbase/key-record.c:457-477 | the record at the index, or no more entries |
| KeyIndex.KeyRecord.EnumerateAll | kbase/key-record.c:457-477 | enumerating from 0 until there are no more yields every record of the table exactly once |
| KeyIndex.KeyRecord.Run | kbase/key-record.c:161-264 | any run of additions and deletions, with memory failing at any time, lists what the calls say one after the other, and array and table agree |
| KeyIndex.RunsAreOrderly | kbase/key-record.c:161-264 | over any such run no two names listed have equal hashes, and the array has room for them |
| KeyIndex.DeleteUndoesAdd | kbase/key-record.c:161-264 | deleting a name just added restores the list of names |
| DymArray.DymArray.Reserve | km-shared/utils-dym-array.c:166-186 | keeps the elements that fit; without memory nothing changes |
| DymArray.DymArray.PushBack | km-shared/utils-dym-array.c:206-225 | appends, growing by a fifth or else by one, unless both attempts fail |
| DymArray.GrowsByAFifth | km-shared/utils-dym-array.c:211-216 | the first attempt asks for a fifth more, rounded down, so that below five elements only the second one helps |
| DymArray.DymArray.PushFront | km-shared/utils-dym-array.c:246-269 | puts the element in front of all others |
| DymArray.DymArray.PopBack | km-shared/utils-dym-array.c:228-243 | undoes appending |
| DymArray.DymArray.PopFront | km-shared/utils-dym-array.c:272-291 | undoes putting in front |
| DymArray.DymArray.PushArray | km-shared/utils-dym-array.c:376-398 | appends all elements, in a buffer of exactly the length needed |
| DymArray.PushAll | km-shared/utils-dym-array.c:206-225 | n single appends onto a new array move at most 8n elements |

## Left out

Weaker than the source in one respect:

- HookRuns.Serve: stops before the first unhook through a stale handle, after which references no longer add up; what that one call does is in `HookServices.UnhookDriver`.
- MonitorRuns.RunsStayRight: no unhook through a stale handle; settings are those of a record, and a driver object stays what it is, so an address that is used again after a driver was unloaded is not modelled.
- HookManager.Manager.Get: the shutdown flag, after which nothing is found, is not modelled.
- HookManager.Manager.AddDevice: a record can always be allocated and named.
- HookDrivers.CreateRecords: every device record can be allocated and named, so the clean-up after half of them is not needed.
- HookDrivers.HookDriverObject: the driver record can be allocated and named.
- HookHandles.CreateDriverHandle: handle values are unbounded, so they are never reused, and a mapping can be allocated; both handle tables are maps, not the hash table of `HashTable`.
- HookHandles.CreateDeviceHandle: the same.
- HookHandles.DuplicateDriverHandle: the new mapping can be allocated.
- HookServices.HookDriver: a handle can always be created, and the input has the right length and can be read.
- HookDeviceServices.AddDevice: the same, and the device object has been looked up.
- HookedObjects.Parse: the length of a name is at least 2, as written; where the source would read behind the buffer, or a shorter name, the parser stops instead. The ghost arguments say which structures to expect and are not read.
- HookedObjects.Retrieve: only for lists of at most 2 GB, as `Snapshot.Retrieve`; drivers have distinct IDs, which are their records' addresses.
- HookedObjects.Enumerate: only for lists shorter than 4 GB, where the 32-bit length does not overflow.
- HookedObjects.Measure: the length is an unbounded number, which the 32-bit sum of the source is not from 4 GB on; the fields of a structure are assigned in a loop over their offsets, where the source assigns them by name, in a slightly different order.
- Snapshot.Measure: the length is an unbounded number, which the 32-bit sum of the source is not from 4 GB on.
- Snapshot.EnumDriversDevices: the same, and the buffer can be mapped.
- Snapshot.Retrieve: only for lists of at most 2 GB; for longer ones the loop does not end, by `Snapshot.DoublingReaches`.
- CompletionProtocol.HandshakeIsExact: assumes that both records and the context could be allocated and that the I/O manager completes a forwarded IRP once; a driver monitored for completions but not for IRPs is not modelled.
- CompletionProtocol.CompletionFollowsItsIrp: its condition is what became of the record; `CompletionOrder` has the tests that decide it.
- EventQueueRundown.SeveredRun: the remove lock is the set of its holders and a flag; a connect is assumed to find no holder when it reinitialises the lock.
- EventQueueFifo.RealTimeFifo: request IDs are unbounded; the 32-bit counter of the source wraps.
- RequestBatch.GetRequestRecords: the size of a record is any number not below the header's and fixed when it is made, and what follows the header is one cell; the queue is used by this thread alone but for the end of the session, which is not mixed with its clearing; buffers at user addresses, their probing, and faults while copying are not modelled.
- MultiString.Exists: comparison ignoring case is character by character through a given function; strings longer than 32766 characters, whose length Windows cuts off, are not treated differently.
- StringRefTable.Table.Insert: the hash of a name can be computed; what the caller does with the entry returned is not modelled.
- StringRefTable.Table.Delete: the hash of a name can be computed.
- KeyIndex.KeyRecord.Add: the value record can be allocated, and reference counts are not modelled.
- RegistryLens.ValueRecord.Query: data is a sequence of 16-bit characters, so an odd number of bytes is not modelled, and allocations succeed.
- DispatchHooks.TwoRecords: one record after the other in one order, `DispatchHooks.TwoNested` in the other; runs of any kind are in `MonitorRuns` and `MonitorLimits`.
- DispatchHooks.HookRecord.HookTarget: the fast I/O routines are one loop over a table of the driver's own; the source names each routine, and tables shared by two driver objects are not modelled.

Not modelled:

- Concurrency in the hook manager: references racing with frees, enabling without a lock. It is modelled for one thread at a time.
- Drivers hooked and enabled in one go by the driver watch (`kbase/pnp-driver-watch.c:85-96`), whose record has just entered the driver table.
- The callback list of the request queue, whose members are counted outside the lock; a request handed over to callbacks ends there.
- Allocation failures, except in `KeyIndex` and `DymArray`; the clean-up paths of the snapshot.
- IRQLs, lock primitives, memory descriptors, probing and structured exceptions. A failed copy to the caller is a parameter.
- Module initialisation and finalisation, including the order in which the validation tables and the records are torn down.
- Reference counts of value and key records, delete callbacks, and the statistics of a key.
- The fast I/O handlers, data loggers, name and process queries, image and process notifications: they only call the system.
- Settings kept in the registry, services, sockets, proxies, user interface and command line.
