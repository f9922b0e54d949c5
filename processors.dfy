/** Physical processors and the capacity-limited resource wrapped around each of
    them (base_Processor.py). */
module Processors {
  import opened Wrappers
  import opened Customers

  datatype Kind = Machine | Worker | AMR

  /** The `type_processor` string, also the workstation key of an item. */
  function KindName(k: Kind): string {
    match k
    case Machine => "Machine"
    case Worker => "Worker"
    case AMR => "AMR"
  }

  /** The specialised class a processor was built as, for `isinstance` checks. */
  datatype Variant = Generic | WorkerInspect | MachCnc | MachAmr1 | MachAmr2

  /** A Worker, Machine or AMR object. Attributes a class does not define are
      None: a Worker has no `capacity_items` and no admission flag. */
  class Processor {
    const kind: Kind
    const variant: Variant
    const id: nat
    const name: string
    const nameProcess: string
    const processingTime: nat
    const capacityItems: Option<nat>
    const allowsAdditionDuringProcessing: Option<bool>
    /** The AMR's list of items it is carrying; untouched for other kinds. */
    var workload: seq<Item>

    constructor Worker(idWorker: nat, nameWorker: string, processingTime: nat, variant: Variant := Generic)
      ensures kind == Kind.Worker && this.variant == variant && id == idWorker && name == nameWorker
      ensures this.processingTime == processingTime
      ensures capacityItems == None && allowsAdditionDuringProcessing == None && workload == []
    {
      kind := Kind.Worker;
      this.variant := variant;
      id := idWorker;
      name := nameWorker;
      nameProcess := "";
      this.processingTime := processingTime;
      capacityItems := None;
      allowsAdditionDuringProcessing := None;
      workload := [];
    }

    /** A Machine never admits items while it is processing. */
    constructor Machine(idMachine: nat, nameProcess: string, nameMachine: string, processingTime: nat,
                        capacityItems: nat := 1, variant: Variant := Generic)
      ensures kind == Kind.Machine && this.variant == variant && id == idMachine && name == nameMachine
      ensures this.nameProcess == nameProcess && this.processingTime == processingTime
      ensures this.capacityItems == Some(capacityItems)
      ensures allowsAdditionDuringProcessing == Some(false) && workload == []
    {
      kind := Kind.Machine;
      this.variant := variant;
      id := idMachine;
      name := nameMachine;
      this.nameProcess := nameProcess;
      this.processingTime := processingTime;
      this.capacityItems := Some(capacityItems);
      allowsAdditionDuringProcessing := Some(false);
      workload := [];
    }

    /** An AMR claims it may pick up items while moving; its resource ignores that. */
    constructor Amr(idAmr: nat, nameAmr: string, processingTime: nat, capacityItems: nat := 1,
                    variant: Variant := Generic)
      ensures kind == Kind.AMR && this.variant == variant && id == idAmr && name == nameAmr
      ensures this.processingTime == processingTime && this.capacityItems == Some(capacityItems)
      ensures allowsAdditionDuringProcessing == Some(true) && workload == []
    {
      kind := Kind.AMR;
      this.variant := variant;
      id := idAmr;
      name := nameAmr;
      nameProcess := "";
      this.processingTime := processingTime;
      this.capacityItems := Some(capacityItems);
      allowsAdditionDuringProcessing := Some(true);
      workload := [];
    }
  }

  /** The resource capacity for a processor: a Machine's `capacity_items`
      (1 if it has none), always 1 for a Worker, an AMR's `capacity_items`. */
  function ResourceCapacity(p: Processor): (c: nat)
    ensures p.kind == Worker ==> c == 1
    ensures p.kind == Machine && p.capacityItems.Some? ==> c == p.capacityItems.value
    ensures p.kind == Machine && p.capacityItems.None? ==> c == 1
    ensures p.kind == AMR && p.capacityItems.Some? ==> c == p.capacityItems.value
  {
    match p.kind
    case Machine => p.capacityItems.GetOr(1)
    case Worker => 1
    case AMR => p.capacityItems.GetOr(0)
  }

  /** Whether the resource admits items while busy: a Machine's own flag (true if
      it has none), never for a Worker, never for an AMR. */
  function ResourceAllows(p: Processor): (b: bool)
    ensures p.kind == Machine && p.allowsAdditionDuringProcessing.Some? ==> b == p.allowsAdditionDuringProcessing.value
    ensures p.kind == Machine && p.allowsAdditionDuringProcessing.None? ==> b
    ensures p.kind != Machine ==> !b
  {
    match p.kind
    case Machine => p.allowsAdditionDuringProcessing.GetOr(true)
    case Worker => false
    case AMR => false
  }

  // ----- Admission bookkeeping as a value -----

  /** Capacity, admission flag, number of granted requests and the
      `processing_started` latch of a resource. */
  datatype Slot = Slot(capacity: nat, allows: bool, count: nat, started: bool)

  /** What every reachable slot satisfies: positive capacity, no more granted
      requests than capacity, and the latch set exactly while a request is held. */
  predicate SlotInv(s: Slot) {
    0 < s.capacity && s.count <= s.capacity && (s.started <==> s.count > 0)
  }

  /** `is_available`: not while a non-admitting resource is processing, otherwise
      while requests can still be granted. */
  predicate Available(s: Slot) {
    if s.started && !s.allows then false else s.count < s.capacity
  }

  /** Granted at once; left waiting in SimPy's request queue; or answered with an
      event that never fires. */
  datatype Outcome = Granted | Queued | Refused

  /** The overridden `request()`. */
  function RequestSlot(s: Slot): (r: (Outcome, Slot))
    ensures r.0 == Refused <==> s.started && !s.allows
    ensures r.0 == Refused ==> r.1 == s
    ensures r.0 == Granted ==> r.1.count == s.count + 1
    ensures r.0 == Queued ==> r.1.count == s.count
    ensures r.1.capacity == s.capacity && r.1.allows == s.allows
    ensures !s.started && s.count == 0 && 0 < s.capacity ==> r.0 == Granted && r.1.started
    ensures SlotInv(s) ==> SlotInv(r.1) && (r.0 == Granted <==> Available(s))
  {
    if s.started && !s.allows then (Refused, s)
    else
      var latched := if !s.started && s.count == 0 then true else s.started;
      if s.count < s.capacity then (Granted, s.(count := s.count + 1, started := latched))
      else (Queued, s.(started := latched))
  }

  /** The overridden `release()`: gives back one granted request and drops the
      latch when none is left. */
  function ReleaseSlot(s: Slot): (r: Slot)
    ensures r.count == if s.count > 0 then s.count - 1 else 0
    ensures r.count == 0 ==> !r.started
    ensures r.count > 0 ==> r.started == s.started
    ensures r.capacity == s.capacity && r.allows == s.allows
    ensures SlotInv(s) ==> SlotInv(r)
    ensures SlotInv(s) && r.count == 0 ==> Available(r)
  {
    var c := if s.count > 0 then s.count - 1 else 0;
    if c == 0 then s.(count := c, started := false) else s.(count := c)
  }

  datatype SlotOp = Request | Release

  function Run(s: Slot, ops: seq<SlotOp>): Slot
    decreases |ops|
  {
    if ops == [] then s
    else Run(if ops[0] == Request then RequestSlot(s).1 else ReleaseSlot(s), ops[1..])
  }

  /** No sequence of requests and releases breaks the slot invariant, in
      particular the count never exceeds the capacity. */
  lemma {:induction false} RunKeepsInvariant(s: Slot, ops: seq<SlotOp>)
    requires SlotInv(s)
    ensures SlotInv(Run(s, ops)) && Run(s, ops).count <= s.capacity
    decreases |ops|
  {
    if ops != [] {
      var t := if ops[0] == Request then RequestSlot(s).1 else ReleaseSlot(s);
      RunKeepsInvariant(t, ops[1..]);
    }
  }

  /** A resource that does not admit work while busy never holds more than one
      request, however many are made: once it is taken, requests are refused
      until it is released. */
  lemma {:induction false} NonAdmittingHoldsOneRequest(s: Slot, ops: seq<SlotOp>)
    requires SlotInv(s) && !s.allows && s.count <= 1
    ensures Run(s, ops).count <= 1
    decreases |ops|
  {
    if ops != [] {
      var t := if ops[0] == Request then RequestSlot(s).1 else ReleaseSlot(s);
      NonAdmittingHoldsOneRequest(t, ops[1..]);
    }
  }

  /** A busy resource that does not admit work refuses a request and stays as it is. */
  lemma BusyNonAdmittingRefuses(s: Slot)
    requires SlotInv(s) && !s.allows && s.count > 0
    ensures !Available(s) && RequestSlot(s) == (Refused, s)
  {
  }

  // ----- Occupants as a value -----

  /** `current_items`, the Worker's `current_item` and the AMR's `workload`. */
  datatype Occupancy = Occupancy(currentItems: seq<Item>, currentItem: Option<Item>, workload: seq<Item>)

  /** `start_item` on the occupants. */
  function StartedOne(k: Kind, o: Occupancy, item: Item): Occupancy {
    match k
    case Machine => o.(currentItems := o.currentItems + [item])
    case AMR => o.(currentItems := o.currentItems + [item], workload := o.workload + [item])
    case Worker => o.(currentItem := Some(item), currentItems := [item])
  }

  /** `start_item` for each item of a batch, in order. */
  function StartedAll(k: Kind, o: Occupancy, items: seq<Item>): Occupancy {
    if items == [] then o
    else StartedOne(k, StartedAll(k, o, items[..|items| - 1]), items[|items| - 1])
  }

  /** A Machine or AMR collects the whole batch in order (an AMR also in its
      workload); a Worker keeps the last item of the batch. */
  lemma {:induction false} StartedAllCollects(k: Kind, o: Occupancy, items: seq<Item>)
    ensures k != Worker ==> StartedAll(k, o, items).currentItems == o.currentItems + items
    ensures k == AMR ==> StartedAll(k, o, items).workload == o.workload + items
    ensures k != AMR ==> StartedAll(k, o, items).workload == o.workload
    ensures k == Worker && items != [] ==>
              StartedAll(k, o, items).currentItem == Some(items[|items| - 1])
              && StartedAll(k, o, items).currentItems == [items[|items| - 1]]
    decreases |items|
  {
    if items != [] {
      var init := items[..|items| - 1];
      StartedAllCollects(k, o, init);
      assert init + [items[|items| - 1]] == items;
    }
  }

  /** `get_items`: the list for a Machine or AMR, the single item for a Worker. */
  function Held(k: Kind, o: Occupancy): seq<Item> {
    if k != Worker then o.currentItems
    else if o.currentItem.Some? then [o.currentItem.value] else []
  }

  /** What `finish_items` leaves: nothing held, and an AMR's workload emptied. */
  function Cleared(k: Kind, o: Occupancy): (r: Occupancy)
    ensures Held(k, r) == [] && r.currentItems == []
    ensures k == Worker ==> r.currentItem == None
    ensures k == AMR ==> r.workload == []
    ensures k != AMR ==> r.workload == o.workload
  {
    match k
    case Machine => o.(currentItems := [])
    case AMR => o.(currentItems := [], workload := [])
    case Worker => o.(currentItem := None, currentItems := [])
  }

  /** What `release` leaves when `count` is the number of requests still held:
      the current items are dropped only when none is. */
  function Released(k: Kind, o: Occupancy, count: nat): (r: Occupancy)
    ensures count > 0 ==> r == o
    ensures count == 0 ==> Held(k, r) == [] && r.currentItems == [] && r.workload == o.workload
  {
    if count > 0 then o
    else if k != Worker then o.(currentItems := [])
    else o.(currentItem := None, currentItems := [])
  }

  /** The SimPy resource around one processor. */
  class ProcessorResource {
    const processorType: Kind
    const id: nat
    const name: string
    const allowsAdditionDuringProcessing: bool
    const capacity: nat
    const processor: Processor
    const processingTime: nat
    /** The number of granted requests (SimPy's `count`). */
    var count: nat
    var processingStarted: bool
    var currentItems: seq<Item>
    /** Exists for Workers only in the source; None for the other kinds. */
    var currentItem: Option<Item>

    function SlotOf(): Slot
      reads this
    {
      Slot(capacity, allowsAdditionDuringProcessing, count, processingStarted)
    }

    function OccupancyOf(): Occupancy
      reads this, processor
    {
      Occupancy(currentItems, currentItem, processor.workload)
    }

    ghost predicate Valid()
      reads this
    {
      SlotInv(SlotOf()) && processorType == processor.kind
    }

    /** SimPy refuses a capacity that is not positive; an AMR must define its capacity. */
    constructor (processor: Processor)
      requires processor.kind == AMR ==> processor.capacityItems.Some?
      requires ResourceCapacity(processor) > 0
      ensures Valid() && this.processor == processor
      ensures processorType == processor.kind && id == processor.id && name == processor.name
      ensures capacity == ResourceCapacity(processor)
      ensures allowsAdditionDuringProcessing == ResourceAllows(processor)
      ensures processingTime == processor.processingTime
      ensures count == 0 && !processingStarted && currentItems == [] && currentItem == None
    {
      processorType := processor.kind;
      id := processor.id;
      name := processor.name;
      allowsAdditionDuringProcessing := ResourceAllows(processor);
      currentItems := [];
      currentItem := None;
      capacity := ResourceCapacity(processor);
      this.processor := processor;
      processingTime := processor.processingTime;
      count := 0;
      processingStarted := false;
    }

    /** `is_available`: never while a non-admitting resource is processing,
        otherwise exactly while fewer requests are granted than the capacity. */
    function IsAvailable(): (b: bool)
      reads this
      ensures processingStarted && !allowsAdditionDuringProcessing ==> !b
      ensures !(processingStarted && !allowsAdditionDuringProcessing) ==> (b <==> count < capacity)
    {
      Available(SlotOf())
    }

    method Request() returns (outcome: Outcome)
      modifies this`count, this`processingStarted
      ensures (outcome, SlotOf()) == RequestSlot(old(SlotOf()))
    {
      if processingStarted && !allowsAdditionDuringProcessing {
        return Refused;
      }
      if !processingStarted && count == 0 {
        processingStarted := true;
      }
      if count < capacity {
        count := count + 1;
        outcome := Granted;
      } else {
        outcome := Queued;
      }
    }

    /** Gives back one granted request; clears the occupants when none is left. */
    method Release()
      modifies this`count, this`processingStarted, this`currentItems, this`currentItem
      ensures SlotOf() == ReleaseSlot(old(SlotOf()))
      ensures OccupancyOf() == Released(processorType, old(OccupancyOf()), count)
    {
      if count > 0 {
        count := count - 1;
      }
      if count == 0 {
        processingStarted := false;
        if processorType != Worker {
          currentItems := [];
        } else {
          currentItem := None;
          currentItems := [];
        }
      }
    }

    /** Records the item as an occupant and writes this resource's id into the
        item's workstation under the processor type. */
    method StartItem(item: Item)
      modifies this`currentItems, this`currentItem, processor`workload, item`workstation
      ensures OccupancyOf() == StartedOne(processorType, old(OccupancyOf()), item)
      ensures item.workstation == old(item.workstation)[KindName(processorType) := Some(id)]
    {
      if processorType != Worker {
        currentItems := currentItems + [item];
        if processorType == AMR {
          processor.workload := processor.workload + [item];
        }
      } else {
        currentItem := Some(item);
        currentItems := [item];
      }
      item.workstation := item.workstation[KindName(processorType) := Some(id)];
    }

    /** `get_items`. */
    function GetItems(): seq<Item>
      reads this, processor
    {
      Held(processorType, OccupancyOf())
    }

    /** Hands back the occupants and clears them. */
    method FinishItems() returns (items: seq<Item>)
      modifies this`currentItems, this`currentItem, processor`workload
      ensures items == old(GetItems())
      ensures OccupancyOf() == Cleared(processorType, old(OccupancyOf()))
    {
      items := GetItems();
      if processorType != Worker {
        currentItems := [];
        if processorType == AMR {
          processor.workload := [];
        }
      } else {
        currentItem := None;
        currentItems := [];
      }
    }
  }
}
