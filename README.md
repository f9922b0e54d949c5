# CNC factory line: queues, processor slots and stages

A Dafny model of the scheduling core of a SimPy simulation of a small
manufacturing line. Orders of items enter a supplier-to-cutting transport
stage (AMRs), go through CNC cutting, a cutting-to-inspection transport
stage (AMRs) and inspection by workers; items found defective are sent
back to the cutting stage's queue.

The model covers:

- **Items, orders and customers** (`customers.dfy`, module `Customers`):
  items as objects the stages update in place, with `Item.State()` giving
  their mutable part as one value; orders that create their items with
  ids 1..n; order and customer id counters; the completion check.
- **The item queue and the supplier** (`stores.dfy`, module `Stores`):
  `ItemStore` with tail `Put`, the FRONT/MIDDLE/BACK rework insertion
  `ReworkPut`, `Get` and the `(time, length)` history; the validated
  `ItemSupplier` construction.
- **Processor resources** (`processors.dfy`, module `Processors`):
  Machine, AMR and Worker objects; the resource around each one, with its
  capacity and admission flag chosen by type, the `processing_started`
  latch of `request`/`release`, and the occupant lists of
  `start_item`/`finish_items`. The admission bookkeeping has a value view
  (`Slot`, `RequestSlot`, `ReleaseSlot`) that the lemmas reason about.
- **Stages, special processing and the manager** (`production.dfy`,
  module `Production`): processor registration under
  `Machine_<id>`/`AMR_<id>`/`Worker_<id>` keys, `add_to_queue`, the
  allocation pass `seize_resources` (specified by the pure function
  `Allocate`), the hold `delay_resources` split at its timeout into
  `StartHold` and `FinishHold`, release, forwarding to the successor,
  the cutting and inspection hooks, and the manager that builds and wires
  the four stages and routes orders and rework.
- **Logging** (`logging.dfy`, module `Logging`): the days/hours/minutes
  split of a time in minutes and the event list.

`settings.dfy` holds the configuration values as a datatype passed in by
the caller, `text.dfy` the decimal rendering of ids and ASCII upper-casing,
`wrappers.dfy` `Option` and `Result`.

Simulated time is a `nat` parameter `now`. The cutting stage's random
defect draw is a sequence of booleans, one per item of the batch; the
number of items of an order is a parameter.

Two behaviours of the code are worth stating plainly. FRONT rework
insertion uses as its index the number of rework items anywhere in the
queue (base_Store.py:44), so a queue without rework items gets the new
item at its head (`FrontOnPlainQueue`), and a rework item standing behind
a normal item is overtaken (`FrontCountsScatteredRework`). The hold
issues one request per batch, after the `start_item` loop
(base_Process.py:190-217), so a resource's `count` is the number of
batches it holds, not the number of items (`StartHold`,
`AdmittingSlotTakesMoreThanCapacity`).

## Model

| member | source | states |
|---|---|---|
| Customers.InitialState | base_Customer.py:24-40 | a new item is of type `smartphone`, not completed, not defective and not rework; its histories are empty; its workstation has keys Process, Machine and Worker, all None; every timestamp is None |
| Customers.Item.constructor | base_Customer.py:24-40 | the item carries the customer, order and item ids and the supplier type it was given, in the initial state |
| Customers.Order.constructor | base_Customer.py:59-80 | the order holds `numItems` fresh items with ids 1..n in list order, each in the initial state and carrying the order's customer id, order id and supplier type; the item counter ends at n + 1; times and makespan are unset |
| Customers.Order.NextItemId | base_Customer.py:91-95 | returns the current counter and advances it by one |
| Customers.Order.CreateItemsForOrder | base_Customer.py:82-89 | builds n distinct fresh items whose ids continue the counter in list order, all carrying the given ids; the counter advances by n |
| Customers.Order.CheckCompletion | base_Customer.py:97-101 | sets the completion flag when every item is completed, leaves it otherwise, and always answers false |
| Customers.CustomerIdCounter.constructor | base_Customer.py:114-115 | the class-wide customer counter starts at 1 |
| Customers.Customer.constructor | base_Customer.py:117-126 | a customer takes the shared counter's value as its id, advances the counter, and starts its order counter at 1 |
| Customers.Customer.NextOrderId | base_Customer.py:131-135 | returns the current order counter and advances it by one |
| Customers.TwoCustomers | base_Customer.py:115-123 | two customers built in turn get ids that differ by one, the later one larger |
| Customers.FirstThreeOrderIds | base_Customer.py:126-135 | a new customer's first three order ids are 1, 2 and 3 |
| Stores.InsertAt | base_Store.py:64 | `list.insert`: the new element stands at the index, clamped to the length, with everything before and after it unchanged and in order; the length grows by one |
| Stores.InsertAtPermutes | base_Store.py:34-67 | the queue after a rework insertion is the old queue plus exactly the one new item |
| Stores.FrontAfterReworkBlock | base_Store.py:42-64 | when the queued rework items form a leading block, FRONT inserts the new item right behind that block and ahead of every normal item |
| Stores.FrontIsExact | base_Store.py:42-64 | FRONT's index, the number of queued rework items, is never past the end, so the item lands exactly there |
| Stores.FrontOnPlainQueue | base_Store.py:42-64 | FRONT on `[A, B]` with no rework items gives `[R, A, B]` |
| Stores.FrontBehindEarlierRework | base_Store.py:42-64 | FRONT on `[R1, A, B]` gives `[R1, R2, A, B]` |
| Stores.FrontCountsScatteredRework | base_Store.py:42-64 | FRONT counts rework items anywhere: on `[A, R1]` it gives `[A, R2, R1]` |
| Stores.MiddleBounds | base_Store.py:46-64 | MIDDLE's index lies between `len // 2` and `len // 2` plus the number of rework items; an index past the end appends |
| Stores.MiddleOfFour | base_Store.py:46-64 | MIDDLE on four items with no same-instant lower-id rework item inserts at index 2 |
| Stores.MiddlePastEnd | base_Store.py:46-64 | with two same-instant lower-id rework items queued, MIDDLE's index is 3 on a queue of 2 and the item is appended |
| Stores.BackAppends | base_Store.py:59-64 | BACK always appends, whatever rework items are queued |
| Stores.ItemStore.constructor | base_Store.py:14-17 | a new store is empty, with an empty history and the given name |
| Stores.ItemStore.Put | base_Store.py:19-24 | appends the item at the tail and records `(now, new length)` |
| Stores.ItemStore.ReworkPut | base_Store.py:26-69 | the new queue is the old one with the item inserted at the policy's index computed from the old contents, and `(now, old length + 1)` is recorded |
| Stores.ItemStore.Get | base_Store.py:71-82 | removes the head and records `(now, remaining length)`; on an empty queue it returns nothing and changes nothing |
| Stores.ItemStore.IsEmpty | base_Store.py:84-87 | the queue is empty exactly when its size is 0 |
| Stores.ItemStore.Size | base_Store.py:89-92 | the size is the number of stored items |
| Stores.NewItemSupplier | base_Store.py:105-117 | fails with the invalid type exactly when the upper-cased type is neither LOT nor PALLET; otherwise the supplier has the upper-cased type, the id, and LOT_INVEN_LEVEL or PALLET_INVEN_LEVEL tokens |
| Stores.ItemSupplier.constructor | base_Store.py:119-123 | a supplier starts with as many tokens as its capacity |
| Processors.Processor.Worker | base_Processor.py:20-28 | a Worker has no item capacity and no admission flag |
| Processors.Processor.Machine | base_Processor.py:50-61 | a Machine has the given capacity (default 1) and does not admit items while processing |
| Processors.Processor.Amr | base_Processor.py:77-86 | an AMR has the given capacity and claims to admit items while moving |
| Processors.ResourceCapacity | base_Processor.py:107-136 | a Worker's resource has capacity 1; a Machine's takes `capacity_items`, 1 if absent; an AMR's takes `capacity_items` |
| Processors.ResourceAllows | base_Processor.py:108-133 | a Machine's resource takes the machine's `allows_item_addition_during_processing`, true when the machine has none; Worker and AMR resources never admit while busy, whatever the AMR says |
| Processors.RequestSlot | base_Processor.py:144-161 | a started non-admitting resource refuses and stays as it is; a request on an idle resource sets the latch and is granted; from a valid state a request is granted exactly when the resource is available, and the state stays valid |
| Processors.ReleaseSlot | base_Processor.py:163-171 | release gives back one request, clears the latch when none is left, keeps the invariant, and a resource left with no request is available |
| Processors.RunKeepsInvariant | base_Processor.py:144-190 | no sequence of requests and releases takes the count above the capacity or breaks the latch invariant |
| Processors.NonAdmittingHoldsOneRequest | base_Processor.py:144-171 | a non-admitting resource never holds more than one request, whatever requests and releases follow |
| Processors.BusyNonAdmittingRefuses | base_Processor.py:144-190 | a busy non-admitting resource is unavailable and refuses a request without any change |
| Processors.StartedAllCollects | base_Processor.py:192-204 | starting a batch appends it in order to a Machine's or AMR's current items (and to the AMR's workload); a Worker keeps only the last item |
| Processors.Cleared | base_Processor.py:220-233 | after finishing nothing is held, a Worker has no current item, and an AMR's workload is empty |
| Processors.Released | base_Processor.py:169-178 | release clears the current items only when no request is left |
| Processors.ProcessorResource.constructor | base_Processor.py:103-142 | the resource takes type, id, name and processing time from the processor, capacity and admission flag by type, and starts idle with the latch clear |
| Processors.ProcessorResource.IsAvailable | base_Processor.py:182-190 | not available while a non-admitting resource is processing; otherwise available exactly while `count < capacity` |
| Processors.ProcessorResource.Request | base_Processor.py:144-161 | the resource's count and latch change as `RequestSlot` says |
| Processors.ProcessorResource.Release | base_Processor.py:163-180 | count and latch change as `ReleaseSlot` says; the occupants are cleared only when the count reaches 0 |
| Processors.ProcessorResource.StartItem | base_Processor.py:192-211 | the item joins the occupants by type, and the resource id is written into the item's workstation under the type |
| Processors.ProcessorResource.FinishItems | base_Processor.py:213-233 | returns what was held and leaves the occupants (and an AMR's workload) empty |
| Production.CreateWaitingStep | base_Process.py:294-301 | a waiting step of the stage, open, with no resource, starting at the enqueue time |
| Production.CreateProcessStep | base_Process.py:282-292 | a processing step of the stage, open, naming the resource, starting at the processing start |
| Production.CloseOpenSteps | base_Process.py:194-197 | every open step of the stage gets end `now` and duration `now - start`; every other step is unchanged |
| Production.CloseOpenIdempotent | base_Process.py:194-197 | closing a second time changes nothing |
| Production.OneVisit | base_Process.py:81-257 | one visit of a stage leaves exactly one closed waiting step with the waiting time as duration and one closed processing step with the processing time as duration |
| Production.Cut | specialized_Process.py:19-26 | the defect flag becomes the draw and nothing else changes |
| Production.Inspected | specialized_Process.py:43-61 | a defective item is flagged for rework and enqueued into the rework stage, not completed; any other item is marked completed and nothing else changes |
| Production.AllocateConserves | base_Process.py:149-173 | the batches in order followed by the remaining queue are the original queue: no item lost or duplicated |
| Production.AllocateFits | base_Process.py:149-173 | every batch goes to one of the scanned resources and fits the room it had |
| Production.AllocateNonEmpty | base_Process.py:149-173 | a resource whose take is empty makes no pairing: every batch holds at least one item |
| Production.AllocateWithin | base_Process.py:149-173 | the batches and the remaining queue hold only items of the original queue |
| Production.AllocateDistinct | base_Process.py:149-173 | from a queue without repeats, each batch is without repeats, no two batches share an item, no batch shares an item with the remaining queue, and the remaining queue is without repeats |
| Production.AllocateAmount | base_Process.py:149-173 | the pass hands out min(total room, queue length) items |
| Production.AllocateOneBatchPerSlot | base_Process.py:149-173 | distinct resources get at most one batch each |
| Production.AllocateIdle | base_Process.py:139-143 | with no items or no available resource the pass makes no pairing and leaves the queue |
| Production.PassMatchesAllocate | base_Process.py:149-217 | scanning and then issuing each batch's request leaves the same queue as the allocation over the available resources |
| Production.PassLeavesSlotsBusy | base_Process.py:149-217 | after a pass over non-admitting resources, each is unavailable unless the queue ran dry |
| Production.PassTwiceOnNonAdmitting | base_Process.py:121-217 | a second pass with no arrival and no release changes nothing |
| Production.PassMatchesStage | base_Process.py:121-217 | for distinct resources, `seize_resources` over the available ones followed by each batch's request leaves the queue the slot sweep leaves, and a resource's slot is requested in the sweep exactly when it got a batch |
| Production.PassMatchesLabelled | base_Process.py:149-217 | the same for slots labelled by distinct names: the labels that get a batch are the slots the sweep requested, and the queues left agree |
| Production.RoomsOfAvailable | base_Process.py:129-153 | the rooms of the available resources are the rooms of the available slots, labelled with their resources, in order |
| Production.AdmittingSlotTakesMoreThanCapacity | base_Process.py:149-217 | a resource that admits while busy counts batches, so a capacity-2 slot can be handed a third item by a second pass |
| Production.KeyOfInjective | base_Process.py:66-75 | two processors share a resource key exactly when type and id agree |
| Production.SeriesKeysFresh | base_Process.py:66-75 | the key of processor n + 1 of a series is not among the keys of processors 1..n |
| Production.AvailableOf | base_Process.py:129-130 | every resource kept is one of the registered resources and available, and every available registered resource is kept |
| Production.AvailableOfConcat | base_Process.py:129-130 | the filter keeps order: filtering a concatenation concatenates the filtered parts, and a single resource is kept exactly when available |
| Production.Rooms | base_Process.py:153 | each resource is paired with `capacity - count` |
| Production.FlaggedMembers | specialized_Process.py:48-56 | the items sent to rework are exactly the defective ones of the batch |
| Production.Stage.constructor | base_Process.py:22-38 | a new stage has no processors, an empty queue named after it, no completed items and no successor |
| Production.Stage.Cutting | specialized_Process.py:12-17 | CNC machines 1..n are registered in order, each with its own idle resource under `Machine_<i>` |
| Production.Stage.Inspect | specialized_Process.py:34-41 | inspection workers 1..n are registered in order under `Worker_<i>`, and the manager is stored |
| Production.Stage.AmrStc | specialized_Process.py:68-72 | STC AMRs 1..n are registered in order under `AMR_<i>` |
| Production.Stage.AmrCti | specialized_Process.py:80-84 | CTI AMRs 1..n are registered in order under `AMR_<i>` |
| Production.Stage.RegisterSeries | specialized_Process.py:16-17 | the registration loop leaves processors 1..n in order, each with a resource under its own key |
| Production.Stage.RegisterProcessor | base_Process.py:58-75 | the processor is appended and a fresh idle resource is stored under its key, keeping the key's first-insertion position |
| Production.Stage.ConnectToNextProcess | base_Process.py:51-53 | the successor is set |
| Production.Stage.AddToQueue | base_Process.py:81-96 | waiting starts now, the stage joins the process sequence, one open waiting step is added, and the item is at the queue's tail |
| Production.Stage.SeizeResources | base_Process.py:121-178 | the pairings and the remaining queue are `Allocate` over the available resources and their rooms, and one sample per item taken is recorded; a queue without repeats stays so and gives batches without repeats |
| Production.Stage.AssignAll | base_Process.py:149-173 | the loop over the available resources computes `Allocate` |
| Production.Stage.TakeUpTo | base_Process.py:157-165 | takes min(n, queue length) items from the head, none when n is not positive |
| Production.Stage.StartHold | base_Process.py:189-217 | every item ends its wait, joins the resource's occupants and starts a processing step; then one request is issued for the whole batch |
| Production.Stage.BeginAll | base_Process.py:190-213 | the loop applies `Begun` to each item and `StartedAll` to the occupants |
| Production.Stage.FinishHold | base_Process.py:216-257 | only a granted request that is held reaches the release (a refused one waits forever); after the special processing each item is finished, recorded as completed and forwarded; the resource is released once for the batch, which lowers its count by exactly one; the successor's or the rework stage's queue grows by the forwarded items; without inspection routing a rework queue other than the successor's is untouched |
| Production.Stage.ConcludeBatch | base_Process.py:231-254 | each item is hooked by the special processing, finished and forwarded; the batch joins the completed items; without inspection routing the successor's queue grows by the batch and a rework queue other than the successor's is untouched, and with routing and no successor the rework stage's queue grows by the defective items in order |
| Production.Stage.ApplySpecialProcessing | specialized_Process.py:19-61 | cutting replaces every defect flag by its draw; inspection with an inspection worker reroutes the defective items and completes the others; it returns true; without rerouting, neither the rework queue nor the successor's queue changes |
| Production.Stage.CutAll | specialized_Process.py:19-26 | each item's defect flag becomes its draw |
| Production.Stage.InspectAll | specialized_Process.py:43-61 | each item is inspected, and the cutting stage's queue grows by exactly the defective items, in batch order |
| Production.Stage.InspectOne | specialized_Process.py:48-59 | a defective item is enqueued for rework; any other is marked completed and no queue changes |
| Production.Stage.CompleteBatch | base_Process.py:235-254 | each item's processing ends and its steps of the stage are closed; the batch joins the completed items and the successor's queue, in order; the rework queue is untouched unless it is the successor's queue |
| Production.Stage.CompleteOne | base_Process.py:236-254 | one item is finished, recorded and sent on |
| Production.Stage.SendItemToNext | base_Process.py:303-317 | answers true exactly when there is a successor, and only then enqueues the item there |
| Production.Stage.ReleaseResources | base_Process.py:259-270 | the resource is released once and its occupants are cleared |
| Production.Manager.constructor | manager.py:22-73 | the lists start empty, LOT suppliers 1..n precede PALLET suppliers 1..m, and the stages are chained STC, Cutting, CTI, Inspect, with no successor after inspection and the manager as inspection's rework route; the four stages and their queues are new, the queues start empty and are pairwise different objects, and each stage is ready to run with the processors its line staffing names |
| Production.CreateProcesses | manager.py:54-68 | the four stages are new, named and kinded as in `setup_processes`, chained in line order with no successor after inspection and no manager yet; their queues are new, empty and pairwise different, and each stage holds the processors of its line staffing (kind, variant, name prefix, count, processing time, capacity) and is ready to run |
| Production.StaffedSnoc | manager.py:54-68 | appending a stage ready for its staffing to a staffed line gives a staffed line |
| Production.StaffedAt | manager.py:54-68 | every stage of a staffed line holds the processors of its own staffing entry and is ready to run |
| Production.MakeSuppliers | manager.py:37-46 | n suppliers of one type with ids 1..n, each stocked at that type's level |
| Production.Manager.ReceiveOrder | manager.py:79-97 | the order starts now, its items are added to the processed items in order, the order is recorded once and returned, and its items enter the STC queue |
| Production.Manager.AllocateItemsForProcTransportStc | manager.py:99-106 | every item of the order is enqueued into the STC stage, in list order |
| Production.Manager.AllocateItemForProcDefect | manager.py:108-118 | the item is flagged for rework and appended to the cutting stage's queue by the plain enqueue |
| Production.Manager.GetProcesses | manager.py:119-124 | exactly the cutting and inspection stages, under `cutting` and `inspect` |
| Logging.Split | log_SimPy.py:18-21 | hours are below 24, minutes below 60, and `days * 1440 + hours * 60 + minutes` is the time |
| Logging.SplitSums | log_SimPy.py:19-21 | the three parts computed as the logger does add back up to the time |
| Logging.SplitOfTotal | log_SimPy.py:19-21 | any stamp with hours below 24 and minutes below 60 is the split of the time it stands for |
| Logging.SplitInjective | log_SimPy.py:19-21 | different times give different stamps |
| Logging.Logger.constructor | log_SimPy.py:10-13 | the event list starts empty |
| Logging.Logger.LogEvent | log_SimPy.py:15-27 | with logging on, exactly one entry `(now, type, message)` is appended; with it off, nothing changes |

## Left out

- The SimPy event machinery: `env.event()`/`succeed()` triggers, `env.process`, `yield`, the wait on "item added or resource freed" in `run`, timeouts, and the never-granted event of a refused request (modelled as the `Refused` outcome). Allocation and the hold are sequential methods taking `now`.
- Interleaving within one instant: the per-get emptiness re-check of `seize_resources` is kept, but other flows running between a pass and the requests of its holds are not modelled; `PassSlots` applies each batch's request right after that resource is scanned, which gives the same result because a request touches only its own resource.
- `calculate_processing_time`: no stage defines it, so only the fixed-duration branch exists; the duration itself is the gap between the `now` given to `StartHold` and to `FinishHold`.
- Randomness: the order size and the cutting draw are parameters; the comparison of a float draw with the defect rate is not modelled.
- Queued requests: SimPy's request queue behind a full admitting resource is an outcome (`Queued`) without the later grant; no deployed resource admits while busy, so it does not arise on the line.
- `Production.Stage.FinishHold`: stated for a granted request that is still held; a refused request never reaches it in the source, and a queued one would first have to be granted, which is not modelled.
- `Production.Stage.FinishHold`, `Production.Stage.ConcludeBatch`, `Production.Stage.ApplySpecialProcessing`, `Production.Stage.InspectAll`, `Production.Stage.InspectOne`, `Production.Stage.InspectNext`: an inspection stage without a manager that meets a defective item fails with an `AttributeError` in the source (specialized_Process.py:56); the model requires that this case does not arise and does not model the failure.
- `Stores.NewItemSupplier`, `Stores.ItemSupplier.constructor`, `Production.MakeSuppliers`, `Production.Manager.constructor`: base_Store.py:113 and :115 assign the initial inventory to `self.capacity` of a SimPy `Store`; in SimPy that attribute is a read-only property, so as written the assignment would raise `AttributeError` before any token is stocked, and `Manager.__init__` (manager.py:37-46) with it. SimPy's code is not part of this model; the model follows the documented intent ("capacity (int): initial inventory") and stocks the level as the token count.
- `Text.Upper`, `Stores.ParsePolicy`, `Stores.NewItemSupplier`: upper-casing maps ASCII `a`-`z` only; Python's `str.upper` also maps other letters (for example a dotless `ı` becomes `I`), so a non-ASCII policy or supply type that Python would accept is refused or treated as the default here. The configured names are ASCII.
- `Production.Stage.FinishHold`, `Production.Stage.ConcludeBatch`: that the rework stage's queue is untouched without inspection routing is stated only when it is not the successor's queue; on the line the stage that routes has no successor.
- `Processors.ProcessorResource.constructor`, `Production.Stage.RegisterProcessor`: SimPy's `ValueError` for a capacity that is not positive, and the `AttributeError` of an AMR without `capacity_items`, are not modelled; a positive capacity, and for an AMR a defined one, are required instead.
- `Production.AllocateDistinct`: a batch is proved free of repeats only when the queue it is taken from is; that an item is never in two queues or two batches at once (the whole-line invariant) is not proved.
- `Production.PassMatchesStage`: stated for a resource list without repeats; that a stage's registered resources are distinct objects is not proved.
- `Customer.create_order` and the demo driver: they are timeout-driven generators.
- `Manager.collect_statistics`: it reads attributes that do not exist.
- `ItemSupplier.get_bulk`: a SimPy `AllOf` wrapper; the supplier's inventory is a token count, not a list of placeholder tokens.
- Logging calls inside stages and the manager, and the printed `dd:hh:mm` line of `log_event`: output only.
- main.py, config_SimPy.py and specialized_Processor.py: driver wiring and constants; the constants are passed in as a `Settings.Config`.
- Simulated time is whole minutes (`nat`); the source's float `env.now` is not modelled.
