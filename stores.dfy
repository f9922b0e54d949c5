/** The item queue of a stage and the raw-material supplier (base_Store.py). */
module Stores {
  import opened Wrappers
  import opened Customers
  import Text

  /** What the rework policy looks at in a queued item. */
  datatype Entry = Entry(id: nat, rework: bool, waitStart: Option<nat>)

  function EntryOf(j: Item): Entry
    reads j
  {
    Entry(j.idItem, j.isReprocess, j.timeWaitingStart)
  }

  function Entries(q: seq<Item>): (es: seq<Entry>)
    reads q
    ensures |es| == |q|
    ensures forall k :: 0 <= k < |q| ==> es[k] == EntryOf(q[k])
  {
    if q == [] then [] else [EntryOf(q[0])] + Entries(q[1..])
  }

  datatype Policy = Front | Middle | Back

  /** POLICY_REPROC_INSERT_POSITION, upper-cased; anything but FRONT and MIDDLE means BACK. */
  function ParsePolicy(s: string): Policy {
    var u := Text.Upper(s);
    if u == "FRONT" then Front else if u == "MIDDLE" then Middle else Back
  }

  /** The number of queued rework items, wherever they stand in the queue. */
  function CountRework(q: seq<Entry>): (n: nat)
    ensures n <= |q|
  {
    if q == [] then 0 else (if q[0].rework then 1 else 0) + CountRework(q[1..])
  }

  /** The number of queued rework items that entered the queue at `now` and have
      a lower id than `id` (the MIDDLE tie-break). */
  function CountTies(q: seq<Entry>, id: nat, now: nat): (n: nat)
    ensures n <= CountRework(q)
  {
    if q == [] then 0
    else (if q[0].rework && q[0].waitStart == Some(now) && q[0].id < id then 1 else 0)
         + CountTies(q[1..], id, now)
  }

  /** The index rework_put computes for a new item with id `id`, from the queue
      without that item. */
  function ReworkIndex(p: Policy, q: seq<Entry>, id: nat, now: nat): nat {
    match p
    case Front => CountRework(q)
    case Middle => |q| / 2 + CountTies(q, id, now)
    case Back => |q|
  }

  /** Python's `list.insert(i, x)` for `i >= 0`: an index past the end appends. */
  function InsertAt<T>(s: seq<T>, i: nat, x: T): (r: seq<T>)
    ensures |r| == |s| + 1
    ensures var p := if i < |s| then i else |s|;
              r[p] == x && r[..p] == s[..p] && r[p + 1..] == s[p..]
  {
    var p := if i < |s| then i else |s|;
    s[..p] + [x] + s[p..]
  }

  // ----- Properties of the rework policy -----

  lemma {:induction false} CountReworkAppend(a: seq<Entry>, b: seq<Entry>)
    ensures CountRework(a + b) == CountRework(a) + CountRework(b)
  {
    if a == [] {
      assert a + b == b;
    } else {
      assert (a + b)[1..] == a[1..] + b;
      CountReworkAppend(a[1..], b);
    }
  }

  lemma {:induction false} CountReworkAll(q: seq<Entry>, flag: bool)
    requires forall i :: 0 <= i < |q| ==> q[i].rework == flag
    ensures CountRework(q) == if flag then |q| else 0
  {
    if q != [] {
      CountReworkAll(q[1..], flag);
    }
  }

  /** When the queued rework items form a leading block of length k, FRONT puts
      the new item right behind that block and ahead of every normal item. */
  lemma FrontAfterReworkBlock(q: seq<Entry>, k: nat, x: Entry, now: nat)
    requires k <= |q|
    requires forall i :: 0 <= i < k ==> q[i].rework
    requires forall i :: k <= i < |q| ==> !q[i].rework
    ensures ReworkIndex(Front, q, x.id, now) == k
    ensures InsertAt(q, ReworkIndex(Front, q, x.id, now), x) == q[..k] + [x] + q[k..]
  {
    assert q == q[..k] + q[k..];
    CountReworkAppend(q[..k], q[k..]);
    CountReworkAll(q[..k], true);
    CountReworkAll(q[k..], false);
  }

  /** FRONT's index is never past the end, so the item is inserted exactly there. */
  lemma FrontIsExact(q: seq<Entry>, x: Entry, now: nat)
    ensures var r := InsertAt(q, ReworkIndex(Front, q, x.id, now), x);
              r[CountRework(q)] == x && r[..CountRework(q)] == q[..CountRework(q)]
  {
  }

  /** MIDDLE's index lies between the middle and the middle plus the number of
      rework items; an index past the end appends. */
  lemma MiddleBounds(q: seq<Entry>, x: Entry, now: nat)
    ensures |q| / 2 <= ReworkIndex(Middle, q, x.id, now) <= |q| / 2 + CountRework(q)
    ensures ReworkIndex(Middle, q, x.id, now) >= |q| ==>
              InsertAt(q, ReworkIndex(Middle, q, x.id, now), x) == q + [x]
  {
  }

  /** BACK is a plain append, whatever rework items are queued. */
  lemma BackAppends(q: seq<Entry>, x: Entry, now: nat)
    ensures InsertAt(q, ReworkIndex(Back, q, x.id, now), x) == q + [x]
  {
  }

  /** Inserting adds exactly the one element and keeps every other in its order. */
  lemma InsertAtPermutes<T>(s: seq<T>, i: nat, x: T)
    ensures multiset(InsertAt(s, i, x)) == multiset(s) + multiset{x}
  {
    var p := if i < |s| then i else |s|;
    assert s == s[..p] + s[p..];
    calc {
      multiset(InsertAt(s, i, x));
      multiset(s[..p] + [x] + s[p..]);
      multiset(s[..p]) + multiset{x} + multiset(s[p..]);
      { assert multiset(s) == multiset(s[..p]) + multiset(s[p..]); }
      multiset(s) + multiset{x};
    }
  }

  /** On a queue of normal items only, FRONT puts the new item at the head. */
  lemma FrontOnPlainQueue(a: Entry, b: Entry, r: Entry, now: nat)
    requires !a.rework && !b.rework
    ensures InsertAt([a, b], ReworkIndex(Front, [a, b], r.id, now), r) == [r, a, b]
  {
    FrontAfterReworkBlock([a, b], 0, r, now);
  }

  /** FRONT keeps an earlier rework item ahead of the new one. */
  lemma FrontBehindEarlierRework(r1: Entry, a: Entry, b: Entry, r2: Entry, now: nat)
    requires r1.rework && !a.rework && !b.rework
    ensures InsertAt([r1, a, b], ReworkIndex(Front, [r1, a, b], r2.id, now), r2) == [r1, r2, a, b]
  {
    FrontAfterReworkBlock([r1, a, b], 1, r2, now);
  }

  /** FRONT counts rework items anywhere in the queue: behind a normal item, an
      earlier rework item ends up after the new one. */
  lemma FrontCountsScatteredRework(a: Entry, r1: Entry, r2: Entry, now: nat)
    requires !a.rework && r1.rework
    ensures InsertAt([a, r1], ReworkIndex(Front, [a, r1], r2.id, now), r2) == [a, r2, r1]
  {
    assert CountRework([r1]) == 1 by { assert [r1][1..] == []; }
    assert CountRework([a, r1]) == 1 by { assert [a, r1][1..] == [r1]; }
  }

  /** MIDDLE on four queued items with no same-instant lower-id rework items
      inserts at index 2. */
  lemma MiddleOfFour(q: seq<Entry>, x: Entry, now: nat)
    requires |q| == 4
    requires forall i :: 0 <= i < 4 ==> !(q[i].rework && q[i].waitStart == Some(now) && q[i].id < x.id)
    ensures ReworkIndex(Middle, q, x.id, now) == 2
    ensures InsertAt(q, ReworkIndex(Middle, q, x.id, now), x) == q[..2] + [x] + q[2..]
  {
    assert CountTies(q[3..], x.id, now) == 0 by { assert q[3..][1..] == []; }
    assert CountTies(q[2..], x.id, now) == 0 by { assert q[2..][1..] == q[3..]; }
    assert CountTies(q[1..], x.id, now) == 0 by { assert q[1..][1..] == q[2..]; }
  }

  /** MIDDLE's index can pass the end of the queue; the item is then appended. */
  lemma MiddlePastEnd(r1: Entry, r2: Entry, x: Entry, now: nat)
    requires r1.rework && r1.waitStart == Some(now) && r1.id < x.id
    requires r2.rework && r2.waitStart == Some(now) && r2.id < x.id
    ensures ReworkIndex(Middle, [r1, r2], x.id, now) == 3
    ensures InsertAt([r1, r2], ReworkIndex(Middle, [r1, r2], x.id, now), x) == [r1, r2, x]
  {
    assert CountTies([r2], x.id, now) == 1 by { assert [r2][1..] == []; }
    assert CountTies([r1, r2], x.id, now) == 2 by { assert [r1, r2][1..] == [r2]; }
  }

  /** The `(now, length - 1), ..., (now, length - m)` samples of m successive gets. */
  function Drained(now: nat, length: nat, m: nat): (h: seq<(nat, nat)>)
    requires m <= length
    ensures |h| == m
    ensures forall k :: 0 <= k < m ==> h[k] == (now, length - 1 - k)
  {
    if m == 0 then [] else Drained(now, length, m - 1) + [(now, length - m)]
  }

  /** The `(now, length + 1), ..., (now, length + m)` samples of m successive puts. */
  function Grown(now: nat, length: nat, m: nat): (h: seq<(nat, nat)>)
    ensures |h| == m
    ensures forall k :: 0 <= k < m ==> h[k] == (now, length + 1 + k)
  {
    if m == 0 then [] else Grown(now, length, m - 1) + [(now, length + m)]
  }

  /** The queue of a stage: the stored items in order and the `(time, length)`
      samples taken after each change. */
  class ItemStore {
    const name: string
    var items: seq<Item>
    var queueLengthHistory: seq<(nat, nat)>

    constructor (name: string := "ItemStore")
      ensures this.name == name && items == [] && queueLengthHistory == []
    {
      this.name := name;
      items := [];
      queueLengthHistory := [];
    }

    /** Appends at the tail and samples the new length. */
    method Put(item: Item, now: nat)
      modifies this`items, this`queueLengthHistory
      ensures items == old(items) + [item]
      ensures queueLengthHistory == old(queueLengthHistory) + [(now, |items|)]
    {
      items := items + [item];
      queueLengthHistory := queueLengthHistory + [(now, |items|)];
    }

    /** Puts, takes the new item back off the tail, and inserts it where the
        policy says, computed from the queue as it stands without the new item. */
    method ReworkPut(item: Item, now: nat, policy: string)
      modifies this`items, this`queueLengthHistory
      ensures items == InsertAt(old(items),
                ReworkIndex(ParsePolicy(policy), Entries(old(items)), item.idItem, now), item)
      ensures queueLengthHistory == old(queueLengthHistory) + [(now, |old(items)| + 1)]
    {
      items := items + [item];
      var newItem := items[|items| - 1];
      items := items[..|items| - 1];
      var idx := ReworkIndex(ParsePolicy(policy), Entries(items), newItem.idItem, now);
      items := InsertAt(items, idx, newItem);
      queueLengthHistory := queueLengthHistory + [(now, |items|)];
    }

    /** Takes the head of the queue and samples the remaining length. On an empty
        queue nothing happens (the source's get would wait for a put). */
    method Get(now: nat) returns (got: Option<Item>)
      modifies this`items, this`queueLengthHistory
      ensures old(items) == [] ==> got == None && items == [] && queueLengthHistory == old(queueLengthHistory)
      ensures old(items) != [] ==>
                && got == Some(old(items)[0]) && items == old(items)[1..]
                && queueLengthHistory == old(queueLengthHistory) + [(now, |items|)]
    {
      if items == [] {
        got := None;
      } else {
        got := Some(items[0]);
        items := items[1..];
        queueLengthHistory := queueLengthHistory + [(now, |items|)];
      }
    }

    /** `is_empty`: no item is stored. */
    function IsEmpty(): (b: bool)
      reads this
      ensures b <==> Size() == 0
      ensures b <==> items == []
    {
      |items| == 0
    }

    /** `size`: the number of stored items. */
    function Size(): (n: nat)
      reads this
      ensures n == |items|
    {
      |items|
    }
  }

  datatype SupplyError = InvalidSupplyType(given: string)

  /** The number of tokens a supplier of the given type starts with. */
  function InitialInventory(supplyType: string, lotLevel: nat, palletLevel: nat): Result<nat, SupplyError> {
    var t := Text.Upper(supplyType);
    if t == "LOT" then Success(lotLevel)
    else if t == "PALLET" then Success(palletLevel)
    else Failure(InvalidSupplyType(supplyType))
  }

  /** A raw-material supplier; its inventory of placeholder tokens is a count,
      which no operation of the line draws from. */
  class ItemSupplier {
    const supplyType: string
    const supplierId: nat
    const capacity: nat
    const tokens: nat

    constructor (supplyType: string, supplierId: nat, capacity: nat)
      ensures this.supplyType == supplyType && this.supplierId == supplierId
      ensures this.capacity == capacity && tokens == capacity
    {
      this.supplyType := supplyType;
      this.supplierId := supplierId;
      this.capacity := capacity;
      tokens := capacity;
    }
  }

  /** `ItemSupplier(supply_type, supplier_id)`: an unknown supply type is the
      ValueError of the source. */
  method NewItemSupplier(supplyType: string, supplierId: nat, lotLevel: nat, palletLevel: nat)
    returns (r: Result<ItemSupplier, SupplyError>)
    ensures r.Failure? <==> Text.Upper(supplyType) != "LOT" && Text.Upper(supplyType) != "PALLET"
    ensures r.Failure? ==> r.error == InvalidSupplyType(supplyType)
    ensures r.Success? ==>
              && fresh(r.value)
              && r.value.supplyType == Text.Upper(supplyType) && r.value.supplierId == supplierId
              && r.value.capacity == (if Text.Upper(supplyType) == "LOT" then lotLevel else palletLevel)
              && r.value.tokens == r.value.capacity
  {
    var level := InitialInventory(supplyType, lotLevel, palletLevel);
    if level.Failure? {
      return Failure(level.error);
    }
    var s := new ItemSupplier(Text.Upper(supplyType), supplierId, level.value);
    r := Success(s);
  }
}
