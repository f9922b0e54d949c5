/** Items, orders and customers (base_Customer.py). An item is an object that the
    stages update in place; `Item.State()` is its mutable part as one value, so that
    stage operations can be specified as functions from the old state to the new. */
module Customers {
  import opened Wrappers

  /** Who handled a processing step: the processor type, its id and its name. */
  datatype ResourceTag = ResourceTag(resourceType: string, resourceId: nat, resourceName: string)

  /** One entry of an item's waiting or processing history: a waiting step has no
      resource, a processing step has one. `endTime` and `duration` stay None while
      the step is open. */
  datatype Step = Step(
    process: string,
    resource: Option<ResourceTag>,
    startTime: nat,
    endTime: Option<nat>,
    duration: Option<int>)

  /** The mutable attributes of an item. */
  datatype ItemState = ItemState(
    typeItem: string,
    isCompleted: bool,
    isDefect: bool,
    isReprocess: bool,
    workstation: map<string, Option<nat>>,
    timeProcessingStart: Option<nat>,
    timeProcessingEnd: Option<nat>,
    timeWaitingStart: Option<nat>,
    timeWaitingEnd: Option<nat>,
    processingHistory: seq<Step>,
    waitingHistory: seq<Step>,
    processSequence: seq<string>)

  /** The attributes a freshly built item has. */
  function InitialState(): (s: ItemState)
    ensures s.typeItem == "smartphone"
    ensures !s.isCompleted && !s.isDefect && !s.isReprocess
    ensures s.processingHistory == [] && s.waitingHistory == [] && s.processSequence == []
    ensures s.workstation.Keys == {"Process", "Machine", "Worker"}
    ensures forall k :: k in s.workstation ==> s.workstation[k] == None
    ensures s.timeProcessingStart == None && s.timeProcessingEnd == None
    ensures s.timeWaitingStart == None && s.timeWaitingEnd == None
  {
    ItemState("smartphone", false, false, false,
      map["Process" := None, "Machine" := None, "Worker" := None],
      None, None, None, None, [], [], [])
  }

  class Item {
    const idCustomer: nat
    const idOrder: nat
    const idItem: nat
    const isSupplier: string
    var typeItem: string
    var isCompleted: bool
    var isDefect: bool
    var isReprocess: bool
    var workstation: map<string, Option<nat>>
    var timeProcessingStart: Option<nat>
    var timeProcessingEnd: Option<nat>
    var timeWaitingStart: Option<nat>
    var timeWaitingEnd: Option<nat>
    var processingHistory: seq<Step>
    var waitingHistory: seq<Step>
    /** Created by the first enqueue in the source; an empty list before that. */
    var processSequence: seq<string>

    function State(): ItemState
      reads this
    {
      ItemState(typeItem, isCompleted, isDefect, isReprocess, workstation,
        timeProcessingStart, timeProcessingEnd, timeWaitingStart, timeWaitingEnd,
        processingHistory, waitingHistory, processSequence)
    }

    constructor (idCustomer: nat, idOrder: nat, idItem: nat, isSupplier: string)
      ensures this.idCustomer == idCustomer && this.idOrder == idOrder
      ensures this.idItem == idItem && this.isSupplier == isSupplier
      ensures State() == InitialState()
    {
      this.idCustomer := idCustomer;
      this.idOrder := idOrder;
      this.idItem := idItem;
      this.isSupplier := isSupplier;
      typeItem := "smartphone";
      isCompleted := false;
      isDefect := false;
      workstation := map["Process" := None, "Machine" := None, "Worker" := None];
      timeProcessingStart := None;
      timeProcessingEnd := None;
      timeWaitingStart := None;
      timeWaitingEnd := None;
      isReprocess := false;
      processingHistory := [];
      waitingHistory := [];
      processSequence := [];
    }
  }

  /** No item object occurs twice. */
  predicate Distinct(s: seq<Item>) {
    forall i, j :: 0 <= i < j < |s| ==> s[i] != s[j]
  }

  /** An item as `Item(idCustomer, idOrder, idItem, isSupplier)` builds it. */
  ghost predicate Built(it: Item, idCustomer: nat, idOrder: nat, idItem: nat, isSupplier: string)
    reads it
  {
    && it.idCustomer == idCustomer && it.idOrder == idOrder
    && it.idItem == idItem && it.isSupplier == isSupplier
    && it.State() == InitialState()
  }

  /** Every item is marked completed (the `all(...)` of check_completion). */
  predicate AllCompleted(items: seq<Item>)
    reads items
  {
    forall k :: 0 <= k < |items| ==> items[k].isCompleted
  }

  class Order {
    const idCustomer: nat
    const idOrder: nat
    const numItems: nat
    const isSupplier: string
    var listItems: seq<Item>
    var timeStart: Option<nat>
    var timeEnd: Option<nat>
    var itemCounter: nat
    var completedItemCount: nat
    var makespan: Option<nat>
    /** Left unset by the source until check_completion finds every item done;
        the model starts it at false. */
    var isCompleted: bool

    /** The items are distinct objects and all carry this order's ids. */
    ghost predicate Valid()
      reads this
    {
      && Distinct(listItems)
      && forall k :: 0 <= k < |listItems| ==>
           listItems[k].idCustomer == idCustomer && listItems[k].idOrder == idOrder
           && listItems[k].isSupplier == isSupplier
    }

    /** `numItems` is the value NUM_ITEMS_PER_ORDER() draws. */
    constructor (idCustomer: nat, idOrder: nat, orderSupplier: string, numItems: nat)
      ensures this.idCustomer == idCustomer && this.idOrder == idOrder
      ensures this.numItems == numItems && isSupplier == orderSupplier
      ensures Valid()
      ensures |listItems| == numItems && itemCounter == numItems + 1
      ensures forall k :: 0 <= k < numItems ==>
                fresh(listItems[k]) && Built(listItems[k], idCustomer, idOrder, k + 1, orderSupplier)
      ensures timeStart == None && timeEnd == None && makespan == None
      ensures completedItemCount == 0 && !isCompleted
    {
      this.idCustomer := idCustomer;
      this.idOrder := idOrder;
      this.numItems := numItems;
      listItems := [];
      timeStart := None;
      timeEnd := None;
      itemCounter := 1;
      completedItemCount := 0;
      makespan := None;
      isSupplier := orderSupplier;
      isCompleted := false;
      new;
      listItems := CreateItemsForOrder(idCustomer, idOrder, numItems, orderSupplier);
    }

    /** Hands out the current counter value and advances the counter. */
    method NextItemId() returns (id: nat)
      modifies this`itemCounter
      ensures id == old(itemCounter) && itemCounter == old(itemCounter) + 1
    {
      id := itemCounter;
      itemCounter := itemCounter + 1;
    }

    /** Builds `numItems` new items whose ids continue the counter, in list order. */
    method CreateItemsForOrder(idCustomer: nat, idOrder: nat, numItems: nat, isSupplier: string)
      returns (items: seq<Item>)
      modifies this`itemCounter
      ensures |items| == numItems && Distinct(items)
      ensures itemCounter == old(itemCounter) + numItems
      ensures forall k :: 0 <= k < numItems ==>
                fresh(items[k]) && Built(items[k], idCustomer, idOrder, old(itemCounter) + k, isSupplier)
    {
      items := [];
      var n := 0;
      while n < numItems
        invariant 0 <= n <= numItems && |items| == n
        invariant itemCounter == old(itemCounter) + n
        invariant Distinct(items)
        invariant forall k :: 0 <= k < n ==>
                    fresh(items[k]) && Built(items[k], idCustomer, idOrder, old(itemCounter) + k, isSupplier)
      {
        var itemId := NextItemId();
        var item := new Item(idCustomer, idOrder, itemId, isSupplier);
        items := items + [item];
        n := n + 1;
      }
    }

    /** Marks the order completed when every item is; always answers false. */
    method CheckCompletion() returns (r: bool)
      modifies this`isCompleted
      ensures !r
      ensures isCompleted == (old(isCompleted) || AllCompleted(listItems))
    {
      if AllCompleted(listItems) {
        isCompleted := true;
      }
      r := false;
    }
  }

  /** The class-wide counter `Customer._next_customer_id`, as an object all
      customers share. */
  class CustomerIdCounter {
    var nextCustomerId: nat

    constructor ()
      ensures nextCustomerId == 1
    {
      nextCustomerId := 1;
    }
  }

  class Customer {
    const idCustomer: nat
    var orderCounter: nat

    /** Takes the next id from the shared counter; the order-generation process
        the source starts here is not modelled. */
    constructor (ids: CustomerIdCounter)
      modifies ids
      ensures idCustomer == old(ids.nextCustomerId)
      ensures ids.nextCustomerId == old(ids.nextCustomerId) + 1
      ensures orderCounter == 1
    {
      idCustomer := ids.nextCustomerId;
      orderCounter := 1;
      new;
      ids.nextCustomerId := ids.nextCustomerId + 1;
    }

    /** Orders of one customer are numbered 1, 2, 3, ... */
    method NextOrderId() returns (id: nat)
      modifies this`orderCounter
      ensures id == old(orderCounter) && orderCounter == old(orderCounter) + 1
    {
      id := orderCounter;
      orderCounter := orderCounter + 1;
    }
  }

  /** Two customers built one after the other from the same counter get
      increasing ids, and each starts numbering its orders at 1. */
  method TwoCustomers(ids: CustomerIdCounter) returns (first: Customer, second: Customer)
    modifies ids
    ensures first.idCustomer < second.idCustomer
    ensures second.idCustomer == first.idCustomer + 1
    ensures ids.nextCustomerId == old(ids.nextCustomerId) + 2
  {
    first := new Customer(ids);
    second := new Customer(ids);
  }

  /** The orders of a new customer get ids 1, 2, 3. */
  method FirstThreeOrderIds(ids: CustomerIdCounter) returns (c: Customer, a: nat, b: nat, d: nat)
    modifies ids
    ensures a == 1 && b == 2 && d == 3 && c.orderCounter == 4
  {
    c := new Customer(ids);
    a := c.NextOrderId();
    b := c.NextOrderId();
    d := c.NextOrderId();
  }
}
