/** Stages of the production line (base_Process.py), the special processing of
    the cutting and inspection stages (specialized_Process.py) and the manager
    that builds and routes between them (manager.py). The three share a module
    because the inspection stage and the manager refer to each other. */
module Production {
  import opened Wrappers
  import opened Customers
  import opened Stores
  import opened Processors
  import Text
  import Settings

  function Min(a: nat, b: nat): nat {
    if a < b then a else b
  }

  // ===== History steps =====

  /** `create_waiting_step`: an open step of the stage starting at the enqueue time. */
  function CreateWaitingStep(stage: string, start: nat): (st: Step)
    ensures IsOpenFor(st, stage) && st.duration == None
    ensures st.resource == None && st.startTime == start
  {
    Step(stage, None, start, None, None)
  }

  /** `create_process_step`: an open step naming the resource, starting at the
      processing start time. */
  function CreateProcessStep(stage: string, tag: ResourceTag, start: nat): (st: Step)
    ensures IsOpenFor(st, stage) && st.duration == None
    ensures st.resource == Some(tag) && st.startTime == start
  {
    Step(stage, Some(tag), start, None, None)
  }

  /** A step of `stage` that has not been closed yet. */
  predicate IsOpenFor(st: Step, stage: string) {
    st.process == stage && st.endTime == None
  }

  function CloseStep(st: Step, stage: string, now: nat): Step {
    if IsOpenFor(st, stage) then st.(endTime := Some(now), duration := Some(now - st.startTime)) else st
  }

  /** The history with every open step of `stage` closed at `now`. */
  function CloseOpen(h: seq<Step>, stage: string, now: nat): (r: seq<Step>)
    ensures |r| == |h|
    ensures forall k :: 0 <= k < |h| ==> r[k] == CloseStep(h[k], stage, now)
  {
    seq(|h|, k requires 0 <= k < |h| => CloseStep(h[k], stage, now))
  }

  /** The loop over a history that closes the open steps of a stage, step by step. */
  method CloseOpenSteps(h: seq<Step>, stage: string, now: nat) returns (r: seq<Step>)
    ensures |r| == |h|
    ensures forall k :: 0 <= k < |h| ==> !IsOpenFor(r[k], stage)
    ensures forall k :: 0 <= k < |h| ==>
              IsOpenFor(h[k], stage) ==> r[k].endTime == Some(now) && r[k].duration == Some(now - h[k].startTime)
    ensures forall k :: 0 <= k < |h| ==> !IsOpenFor(h[k], stage) ==> r[k] == h[k]
    ensures forall k :: 0 <= k < |h| ==>
              r[k].process == h[k].process && r[k].resource == h[k].resource && r[k].startTime == h[k].startTime
    ensures r == CloseOpen(h, stage, now)
  {
    r := h;
    var k := 0;
    while k < |r|
      invariant 0 <= k <= |r| == |h|
      invariant forall i :: 0 <= i < k ==> r[i] == CloseStep(h[i], stage, now)
      invariant forall i :: k <= i < |r| ==> r[i] == h[i]
    {
      if r[k].process == stage && r[k].endTime == None {
        r := r[k := r[k].(endTime := Some(now), duration := Some(now - r[k].startTime))];
      }
      k := k + 1;
    }
  }

  /** Closing is done once: a second pass finds nothing open. */
  lemma CloseOpenIdempotent(h: seq<Step>, stage: string, now: nat, later: nat)
    ensures CloseOpen(CloseOpen(h, stage, now), stage, later) == CloseOpen(h, stage, now)
  {
  }

  lemma CloseOpenAppend(h: seq<Step>, st: Step, stage: string, now: nat)
    ensures CloseOpen(h + [st], stage, now) == CloseOpen(h, stage, now) + [CloseStep(st, stage, now)]
  {
  }

  /** A history with no open step of the stage is left as it is. */
  lemma CloseOpenNothingOpen(h: seq<Step>, stage: string, now: nat)
    requires forall k :: 0 <= k < |h| ==> !IsOpenFor(h[k], stage)
    ensures CloseOpen(h, stage, now) == h
  {
  }

  /** No step of `stage` is open in the history. */
  predicate NoneOpen(h: seq<Step>, stage: string) {
    forall k :: 0 <= k < |h| ==> !IsOpenFor(h[k], stage)
  }

  // ===== What the stage operations do to one item =====

  /** `add_to_queue` on the item: waiting starts now, the stage joins its
      process sequence, an open waiting step is recorded. */
  function Enqueued(s: ItemState, stage: string, now: nat): ItemState {
    s.(timeWaitingStart := Some(now),
       processSequence := s.processSequence + [stage],
       waitingHistory := s.waitingHistory + [CreateWaitingStep(stage, now)])
  }

  /** The first half of `delay_resources` on the item: waiting ends now and the
      stage's waiting steps are closed, the resource is written into the
      workstation, processing starts now with an open processing step. */
  function Begun(s: ItemState, stage: string, tag: ResourceTag, now: nat): ItemState {
    s.(timeWaitingEnd := Some(now),
       waitingHistory := CloseOpen(s.waitingHistory, stage, now),
       workstation := s.workstation[tag.resourceType := Some(tag.resourceId)],
       timeProcessingStart := Some(now),
       processingHistory := s.processingHistory + [CreateProcessStep(stage, tag, now)])
  }

  /** Completion of the item: processing ends now and the stage's processing
      steps are closed. */
  function Finished(s: ItemState, stage: string, now: nat): ItemState {
    s.(timeProcessingEnd := Some(now),
       processingHistory := CloseOpen(s.processingHistory, stage, now))
  }

  /** `send_item_to_next` on the item: enqueued into the successor, if any. */
  function Forwarded(s: ItemState, next: Option<string>, now: nat): ItemState {
    match next
    case Some(n) => Enqueued(s, n, now)
    case None => s
  }

  /** The cutting stage's draw replaces the defect flag. */
  function Cut(s: ItemState, draw: bool): (r: ItemState)
    ensures r.isDefect == draw
    ensures r.(isDefect := s.isDefect) == s
  {
    s.(isDefect := draw)
  }

  /** Inspection: a defective item is flagged for rework and enqueued into the
      rework stage, not completed; any other item is marked completed. */
  function Inspected(s: ItemState, reworkStage: string, now: nat): (r: ItemState)
    ensures r.isDefect == s.isDefect
    ensures s.isDefect ==> r.isReprocess && r.isCompleted == s.isCompleted
                           && r.waitingHistory == s.waitingHistory + [CreateWaitingStep(reworkStage, now)]
    ensures !s.isDefect ==> r == s.(isCompleted := true)
  {
    if s.isDefect then Enqueued(s.(isReprocess := true), reworkStage, now)
    else s.(isCompleted := true)
  }

  /** One visit of a stage, from enqueue to completion, in an item that had no
      open step of that stage: one waiting step closed at the start of processing
      with the waiting time as its duration, one processing step closed at
      completion with the processing time as its duration, and nothing left open. */
  lemma {:induction false} OneVisit(s: ItemState, stage: string, tag: ResourceTag, t0: nat, t1: nat, t2: nat)
    requires NoneOpen(s.waitingHistory, stage) && NoneOpen(s.processingHistory, stage)
    ensures var e := Finished(Begun(Enqueued(s, stage, t0), stage, tag, t1), stage, t2);
              && e.waitingHistory == s.waitingHistory + [Step(stage, None, t0, Some(t1), Some(t1 - t0))]
              && e.processingHistory == s.processingHistory + [Step(stage, Some(tag), t1, Some(t2), Some(t2 - t1))]
              && e.timeWaitingStart == Some(t0) && e.timeWaitingEnd == Some(t1)
              && e.timeProcessingStart == Some(t1) && e.timeProcessingEnd == Some(t2)
              && e.processSequence == s.processSequence + [stage]
              && NoneOpen(e.waitingHistory, stage) && NoneOpen(e.processingHistory, stage)
  {
    CloseOpenAppend(s.waitingHistory, CreateWaitingStep(stage, t0), stage, t1);
    CloseOpenNothingOpen(s.waitingHistory, stage, t1);
    CloseOpenAppend(s.processingHistory, CreateProcessStep(stage, tag, t1), stage, t2);
    CloseOpenNothingOpen(s.processingHistory, stage, t2);
  }

  // ===== The allocation pass =====

  /** The allocation pass on values: each slot, in order, with the room it has,
      takes min(room, remaining) items from the head of the queue; a pairing is
      kept only when it got at least one item. Returns the pairings and what is
      left of the queue. */
  function Allocate<R, T>(slots: seq<(R, nat)>, q: seq<T>): (r: (seq<(R, seq<T>)>, seq<T>))
    ensures |r.0| <= |slots| && |r.1| <= |q|
    decreases |slots|
  {
    if slots == [] then ([], q)
    else
      var n := Min(slots[0].1, |q|);
      var rest := Allocate(slots[1..], q[n..]);
      (if n > 0 then [(slots[0].0, q[..n])] + rest.0 else rest.0, rest.1)
  }

  /** `AllocateUnfold` with the first slot's share and the remaining slots named. */
  lemma AllocateHead<R, T>(slots: seq<(R, nat)>, q: seq<T>, n: nat, tail: seq<(R, nat)>)
    requires slots != [] && n == Min(slots[0].1, |q|) && tail == slots[1..]
    ensures Allocate(slots, q)
            == ((if n > 0 then [(slots[0].0, q[..n])] else []) + Allocate(tail, q[n..]).0, Allocate(tail, q[n..]).1)
  {
    var rest := Allocate(tail, q[n..]);
    if n > 0 {
      assert Allocate(slots, q) == ([(slots[0].0, q[..n])] + rest.0, rest.1);
    } else {
      assert Allocate(slots, q) == (rest.0, rest.1);
      assert [] + rest.0 == rest.0;
    }
  }

  lemma AllocateUnfold<R, T>(slots: seq<(R, nat)>, q: seq<T>)
    requires slots != []
    ensures var n := Min(slots[0].1, |q|);
            var rest := Allocate(slots[1..], q[n..]);
              Allocate(slots, q) == (if n > 0 then [(slots[0].0, q[..n])] + rest.0 else rest.0, rest.1)
  {
  }

  /** Invariant of the allocation loop: the first `i` slots have taken the
      first `taken` items, making the pairings `acc`, and what the remaining
      slots make of the remaining queue completes the pass. */
  ghost predicate Partial<R, T>(slots: seq<(R, nat)>, q: seq<T>, i: nat, taken: nat, acc: seq<(R, seq<T>)>) {
    i <= |slots| && taken <= |q| && Allocate(slots, q) == Glue(acc, Allocate(slots[i..], q[taken..]))
  }

  lemma PartialStart<R, T>(slots: seq<(R, nat)>, q: seq<T>)
    ensures Partial(slots, q, 0, 0, [])
  {
    assert slots[0..] == slots && q[0..] == q;
    assert [] + Allocate(slots, q).0 == Allocate(slots, q).0;
  }

  lemma PartialStep<R, T>(slots: seq<(R, nat)>, q: seq<T>, i: nat, taken: nat, acc: seq<(R, seq<T>)>,
                          batch: seq<T>, next: seq<(R, seq<T>)>)
    requires Partial(slots, q, i, taken, acc) && i < |slots|
    requires Min(slots[i].1, |q[taken..]|) <= |q[taken..]|
    requires batch == q[taken..][..Min(slots[i].1, |q[taken..]|)]
    requires next == if |batch| > 0 then acc + [(slots[i].0, batch)] else acc
    ensures |batch| == Min(slots[i].1, |q| - taken)
    ensures Partial(slots, q, i + 1, taken + |batch|, next)
  {
    var m := Min(slots[i].1, |q| - taken);
    AllocateAdvance(slots, i, q, taken, acc);
    assert q[taken..][m..] == q[taken + m..];
    if |batch| == 0 {
      assert acc + [] == acc;
    }
  }

  lemma PartialEnd<R, T>(slots: seq<(R, nat)>, q: seq<T>, taken: nat, acc: seq<(R, seq<T>)>)
    requires Partial(slots, q, |slots|, taken, acc)
    ensures Allocate(slots, q) == (acc, q[taken..])
  {
    assert slots[|slots|..] == [];
    assert acc + [] == acc;
  }

  /** How many items `range(min(n, size))` takes: none for a negative `n`. */
  function Share(n: int, size: nat): nat {
    if n <= 0 then 0 else Min(n, size)
  }

  function Glue<R, T>(acc: seq<(R, seq<T>)>, r: (seq<(R, seq<T>)>, seq<T>)): (seq<(R, seq<T>)>, seq<T>) {
    (acc + r.0, r.1)
  }

  /** One step of the allocation loop: the pairings made so far, followed by
      what the remaining slots make of the remaining queue, are the pass. */
  lemma AllocateAdvance<R, T>(slots: seq<(R, nat)>, i: nat, q: seq<T>, t: nat, acc: seq<(R, seq<T>)>)
    requires i < |slots| && t <= |q|
    requires Allocate(slots, q) == Glue(acc, Allocate(slots[i..], q[t..]))
    ensures var m := Min(slots[i].1, |q| - t);
              Allocate(slots, q)
              == Glue(acc + (if m > 0 then [(slots[i].0, q[t..][..m])] else []), Allocate(slots[i + 1..], q[t..][m..]))
  {
    var s, u := slots[i..], q[t..];
    var m := Min(slots[i].1, |q| - t);
    assert s[0] == slots[i] && |u| == |q| - t;
    assert s[1..] == slots[i + 1..];
    var rest := Allocate(slots[i + 1..], u[m..]);
    var head: seq<(R, seq<T>)> := if m > 0 then [(slots[i].0, u[..m])] else [];
    AllocateHead(s, u, m, slots[i + 1..]);
    assert Allocate(s, u) == (head + rest.0, rest.1);
    ConcatAssoc(acc, head, rest.0);
  }

  lemma ConcatAssoc<X>(a: seq<X>, b: seq<X>, c: seq<X>)
    ensures a + (b + c) == (a + b) + c
  {
  }

  function Flatten<R, T>(ps: seq<(R, seq<T>)>): seq<T> {
    if ps == [] then [] else ps[0].1 + Flatten(ps[1..])
  }

  function TotalRoom<R>(slots: seq<(R, nat)>): nat {
    if slots == [] then 0 else slots[0].1 + TotalRoom(slots[1..])
  }

  function Firsts<R, X>(s: seq<(R, X)>): (r: seq<R>)
    ensures |r| == |s| && forall k :: 0 <= k < |s| ==> r[k] == s[k].0
  {
    if s == [] then [] else [s[0].0] + Firsts(s[1..])
  }

  predicate NoRepeats<R(==)>(s: seq<R>) {
    forall i, j :: 0 <= i < j < |s| ==> s[i] != s[j]
  }

  /** No item is lost or duplicated: the batches, in order, followed by what is
      left, are the original queue. */
  lemma {:induction false} AllocateConserves<R, T>(slots: seq<(R, nat)>, q: seq<T>)
    ensures Flatten(Allocate(slots, q).0) + Allocate(slots, q).1 == q
    decreases |slots|
  {
    if slots != [] {
      var n := Min(slots[0].1, |q|);
      var rest := Allocate(slots[1..], q[n..]);
      AllocateConserves(slots[1..], q[n..]);
      ConservesStep(slots[0].0, q, n, rest.0, rest.1);
    }
  }

  /** One slot's step of the conservation proof, apart from the allocation itself. */
  lemma ConservesStep<R, T>(r: R, q: seq<T>, n: nat, ps: seq<(R, seq<T>)>, left: seq<T>)
    requires n <= |q| && Flatten(ps) + left == q[n..]
    ensures Flatten(if n > 0 then [(r, q[..n])] + ps else ps) + left == q
  {
    if n > 0 {
      FlattenCons(r, q[..n], ps);
      assert q[..n] + q[n..] == q;
    } else {
      assert q[n..] == q;
    }
  }

  lemma FlattenCons<R, T>(x: R, b: seq<T>, ps: seq<(R, seq<T>)>)
    ensures Flatten([(x, b)] + ps) == b + Flatten(ps)
  {
    assert ([(x, b)] + ps)[1..] == ps;
  }

  /** Every batch goes to one of the slots and fits the room that slot had. */
  lemma {:induction false} AllocateFits<R, T>(slots: seq<(R, nat)>, q: seq<T>)
    ensures forall k :: 0 <= k < |Allocate(slots, q).0| ==>
              exists i :: 0 <= i < |slots| && slots[i].0 == Allocate(slots, q).0[k].0
                          && |Allocate(slots, q).0[k].1| <= slots[i].1
    decreases |slots|
  {
    if slots != [] {
      var n := Min(slots[0].1, |q|);
      var rest := Allocate(slots[1..], q[n..]);
      AllocateFits(slots[1..], q[n..]);
      var ps := Allocate(slots, q).0;
      forall k | 0 <= k < |ps|
        ensures exists i :: 0 <= i < |slots| && slots[i].0 == ps[k].0 && |ps[k].1| <= slots[i].1
      {
        if n > 0 && k == 0 {
          assert slots[0].0 == ps[0].0 && |ps[0].1| <= slots[0].1;
        } else {
          var k' := if n > 0 then k - 1 else k;
          assert ps[k] == rest.0[k'];
          var i :| 0 <= i < |slots[1..]| && slots[1..][i].0 == rest.0[k'].0 && |rest.0[k'].1| <= slots[1..][i].1;
          assert slots[i + 1] == slots[1..][i];
        }
      }
    }
  }

  /** The pass hands out min(total room, queue length) items: when items are left
      over, every slot was filled to its room. */
  lemma {:induction false} AllocateAmount<R, T>(slots: seq<(R, nat)>, q: seq<T>)
    ensures |Flatten(Allocate(slots, q).0)| == Min(TotalRoom(slots), |q|)
    ensures |Allocate(slots, q).1| == |q| - Min(TotalRoom(slots), |q|)
    decreases |slots|
  {
    AllocateConserves(slots, q);
    if slots != [] {
      var n := Min(slots[0].1, |q|);
      var rest := Allocate(slots[1..], q[n..]);
      AllocateAmount(slots[1..], q[n..]);
      AllocateConserves(slots[1..], q[n..]);
      if n > 0 {
        FlattenCons(slots[0].0, q[..n], rest.0);
      }
    }
  }

  /** Distinct slots get at most one batch each. */
  lemma {:induction false} AllocateOneBatchPerSlot<R, T>(slots: seq<(R, nat)>, q: seq<T>)
    requires NoRepeats(Firsts(slots))
    ensures NoRepeats(Firsts(Allocate(slots, q).0))
    decreases |slots|
  {
    if slots != [] {
      var n := Min(slots[0].1, |q|);
      var rest := Allocate(slots[1..], q[n..]);
      assert Firsts(slots[1..]) == Firsts(slots)[1..];
      AllocateOneBatchPerSlot(slots[1..], q[n..]);
      if n > 0 {
        AllocateFits(slots[1..], q[n..]);
        var ps := [(slots[0].0, q[..n])] + rest.0;
        forall k | 1 <= k < |ps| ensures ps[k].0 != ps[0].0 {
          assert ps[k] == rest.0[k - 1];
          var i :| 0 <= i < |slots[1..]| && slots[1..][i].0 == rest.0[k - 1].0;
          assert Firsts(slots)[i + 1] == slots[i + 1].0;
        }
      }
    }
  }

  /** A slot that gets no items makes no pairing: every batch is non-empty. */
  lemma {:induction false} AllocateNonEmpty<R, T>(slots: seq<(R, nat)>, q: seq<T>)
    ensures forall k :: 0 <= k < |Allocate(slots, q).0| ==> |Allocate(slots, q).0[k].1| > 0
    decreases |slots|
  {
    if slots != [] {
      var n := Min(slots[0].1, |q|);
      AllocateNonEmpty(slots[1..], q[n..]);
    }
  }

  /** The batches and what is left over hold only items of the queue. */
  lemma {:induction false} AllocateWithin<R, T>(slots: seq<(R, nat)>, q: seq<T>)
    ensures forall k, x :: 0 <= k < |Allocate(slots, q).0| && x in Allocate(slots, q).0[k].1 ==> x in q
    ensures forall x :: x in Allocate(slots, q).1 ==> x in q
    decreases |slots|
  {
    if slots != [] {
      var n := Min(slots[0].1, |q|);
      var rest := Allocate(slots[1..], q[n..]);
      AllocateWithin(slots[1..], q[n..]);
      var ps := Allocate(slots, q).0;
      assert q == q[..n] + q[n..];
      forall k, x | 0 <= k < |ps| && x in ps[k].1 ensures x in q {
        if n > 0 && k == 0 {
          assert ps[0].1 == q[..n];
        } else {
          assert ps[k] == rest.0[if n > 0 then k - 1 else k];
          assert x in q[n..];
        }
      }
    }
  }

  /** From a queue without repeats, the pass hands no item out twice: each
      batch is without repeats, no two batches share an item, and no batch
      shares an item with what is left in the queue. */
  lemma {:induction false} AllocateDistinct<R, T>(slots: seq<(R, nat)>, q: seq<T>)
    requires NoRepeats(q)
    ensures forall k :: 0 <= k < |Allocate(slots, q).0| ==> NoRepeats(Allocate(slots, q).0[k].1)
    ensures forall k, l, x :: 0 <= k < l < |Allocate(slots, q).0| && x in Allocate(slots, q).0[k].1
              ==> x !in Allocate(slots, q).0[l].1
    ensures forall k, x :: 0 <= k < |Allocate(slots, q).0| && x in Allocate(slots, q).0[k].1
              ==> x !in Allocate(slots, q).1
    ensures NoRepeats(Allocate(slots, q).1)
    decreases |slots|
  {
    if slots != [] {
      var n := Min(slots[0].1, |q|);
      var rest := Allocate(slots[1..], q[n..]);
      SplitNoRepeats(q, n);
      AllocateDistinct(slots[1..], q[n..]);
      AllocateWithin(slots[1..], q[n..]);
      if n > 0 {
        var ps := Allocate(slots, q).0;
        assert ps == [(slots[0].0, q[..n])] + rest.0;
        forall k | 1 <= k < |ps| ensures ps[k] == rest.0[k - 1] {
        }
        forall k, l, x | 0 <= k < l < |ps| && x in ps[k].1 ensures x !in ps[l].1 {
          if k == 0 {
            assert x in q[..n];
          }
        }
      }
    }
  }

  /** Both parts of a queue without repeats are without repeats and share no item. */
  lemma SplitNoRepeats<T>(q: seq<T>, n: nat)
    requires NoRepeats(q) && n <= |q|
    ensures NoRepeats(q[..n]) && NoRepeats(q[n..])
    ensures forall x :: x in q[..n] ==> x !in q[n..]
  {
    forall i, j | 0 <= i < j < |q[n..]| ensures q[n..][i] != q[n..][j] {
      assert q[n..][i] == q[n + i] && q[n..][j] == q[n + j];
    }
    forall i, j | 0 <= i < j < n ensures q[..n][i] != q[..n][j] {
      assert q[..n][i] == q[i] && q[..n][j] == q[j];
    }
    forall x | x in q[..n] ensures x !in q[n..] {
      var i :| 0 <= i < n && q[..n][i] == x;
      forall j | 0 <= j < |q[n..]| ensures q[n..][j] != x {
        assert q[n..][j] == q[n + j] && x == q[i];
      }
    }
  }

  /** `AllocateDistinct` for a queue of items. */
  lemma BatchesDistinct<R>(slots: seq<(R, nat)>, q: seq<Item>)
    requires Distinct(q)
    ensures Distinct(Allocate(slots, q).1)
    ensures forall k :: 0 <= k < |Allocate(slots, q).0| ==> Distinct(Allocate(slots, q).0[k].1)
  {
    AllocateDistinct(slots, q);
  }

  /** Nothing happens without items or without slots. */
  lemma AllocateIdle<R, T>(slots: seq<(R, nat)>, q: seq<T>)
    requires slots == [] || q == []
    ensures Allocate(slots, q) == ([], q)
    decreases |slots|
  {
    if slots != [] {
      AllocateIdle(slots[1..], q);
    }
  }

  // ===== A pass followed by the requests of the holds it starts =====

  /** The pass as the slots see it: each available slot, in order, takes
      min(room, remaining) items, and when it took any, the hold started for it
      issues its request. The scan reads a slot before any request touches it,
      and a request touches only its own slot, so one left-to-right sweep gives
      the same result as scanning everything first. */
  function PassSlots<T>(slots: seq<Slot>, q: seq<T>): (r: (seq<Slot>, seq<T>))
    ensures |r.0| == |slots| && |r.1| <= |q|
    decreases |slots|
  {
    if slots == [] then ([], q)
    else
      var s := slots[0];
      var n := if Available(s) then Min(s.capacity - s.count, |q|) else 0;
      var rest := PassSlots(slots[1..], q[n..]);
      ([if n > 0 then RequestSlot(s).1 else s] + rest.0, rest.1)
  }

  /** The available slots with their indices (counted from `from`) and rooms:
      what the pass hands to `Allocate`. */
  function AvailRooms(slots: seq<Slot>, from: nat): seq<(nat, nat)>
    decreases |slots|
  {
    if slots == [] then []
    else
      var s := slots[0];
      (if Available(s) then [(from, s.capacity - s.count)] else []) + AvailRooms(slots[1..], from + 1)
  }

  /** The sweep leaves exactly the queue that the allocation over the available
      slots leaves. */
  lemma {:induction false} PassMatchesAllocate<T>(slots: seq<Slot>, q: seq<T>, from: nat)
    ensures PassSlots(slots, q).1 == Allocate(AvailRooms(slots, from), q).1
    decreases |slots|
  {
    if slots != [] {
      var s := slots[0];
      var n := if Available(s) then Min(s.capacity - s.count, |q|) else 0;
      PassMatchesAllocate(slots[1..], q[n..], from + 1);
      if Available(s) {
        var a := AvailRooms(slots, from);
        assert a == [(from, s.capacity - s.count)] + AvailRooms(slots[1..], from + 1);
        assert a[1..] == AvailRooms(slots[1..], from + 1);
      } else {
        assert q[n..] == q;
        assert AvailRooms(slots, from) == [] + AvailRooms(slots[1..], from + 1);
        assert [] + AvailRooms(slots[1..], from + 1) == AvailRooms(slots[1..], from + 1);
      }
    }
  }

  lemma {:induction false} PassOnEmptyQueue<T>(slots: seq<Slot>, q: seq<T>)
    requires q == []
    ensures PassSlots(slots, q) == (slots, q)
    decreases |slots|
  {
    if slots != [] {
      var s := slots[0];
      assert q[0..] == q;
      PassOnEmptyQueue(slots[1..], q);
      assert [s] + slots[1..] == slots;
    }
  }

  /** A pass over slots that are all unavailable changes nothing. */
  lemma {:induction false} PassOnBusySlots<T>(slots: seq<Slot>, q: seq<T>)
    requires forall i :: 0 <= i < |slots| ==> !Available(slots[i])
    ensures PassSlots(slots, q) == (slots, q)
    decreases |slots|
  {
    if slots != [] {
      assert q[0..] == q;
      PassOnBusySlots(slots[1..], q);
      assert [slots[0]] + slots[1..] == slots;
    }
  }

  /** Non-admitting slots with their invariant, each busy unless nothing is left to take. */
  predicate Settled<T>(out: seq<Slot>, rest: seq<T>) {
    forall i :: 0 <= i < |out| ==> SlotInv(out[i]) && !out[i].allows && (!Available(out[i]) || rest == [])
  }

  /** After a pass over non-admitting slots, each slot is busy unless the queue
      ran dry; the slots keep their invariant and stay non-admitting. */
  lemma {:induction false} PassLeavesSlotsBusy<T>(slots: seq<Slot>, q: seq<T>)
    requires forall i :: 0 <= i < |slots| ==> SlotInv(slots[i]) && !slots[i].allows
    ensures Settled(PassSlots(slots, q).0, PassSlots(slots, q).1)
    decreases |slots|
  {
    if slots != [] {
      var s := slots[0];
      var n := if Available(s) then Min(s.capacity - s.count, |q|) else 0;
      var rest := PassSlots(slots[1..], q[n..]);
      PassLeavesSlotsBusy(slots[1..], q[n..]);
      var r := PassSlots(slots, q);
      assert r.0 == [if n > 0 then RequestSlot(s).1 else s] + rest.0;
      if Available(s) && n == 0 {
        PassOnEmptyQueue(slots[1..], q[n..]);
      }
      assert r.1 == rest.1;
      forall i | 0 <= i < |slots|
        ensures SlotInv(r.0[i]) && !r.0[i].allows && (!Available(r.0[i]) || r.1 == [])
      {
        if i > 0 {
          assert r.0[i] == rest.0[i - 1];
          assert slots[1..][i - 1] == slots[i];
        } else if n > 0 {
          assert r.0[0] == RequestSlot(s).1;
        } else {
          assert r.0[0] == s;
        }
      }
    }
  }

  /** Run twice with no arrival and no release in between, a pass over
      non-admitting resources changes nothing the second time. */
  lemma PassTwiceOnNonAdmitting<T>(slots: seq<Slot>, q: seq<T>)
    requires forall i :: 0 <= i < |slots| ==> SlotInv(slots[i]) && !slots[i].allows
    ensures PassSlots(PassSlots(slots, q).0, PassSlots(slots, q).1) == PassSlots(slots, q)
  {
    var r := PassSlots(slots, q);
    PassLeavesSlotsBusy(slots, q);
    if r.1 == [] {
      PassOnEmptyQueue(r.0, r.1);
    } else {
      PassOnBusySlots(r.0, r.1);
    }
  }

  /** A resource that admits additions while processing does not have that
      property: its capacity bounds granted requests, not items, so a second pass
      gives a capacity-2 slot one more item after it already took two. */
  lemma AdmittingSlotTakesMoreThanCapacity()
    ensures var s := Slot(2, true, 0, false);
            var r1 := PassSlots([s], [10, 20, 30]);
            var r2 := PassSlots(r1.0, r1.1);
              && r1.1 == [30] && r1.0 == [Slot(2, true, 1, true)]
              && r2.1 == [] && r2.0 == [Slot(2, true, 2, true)]
              && SlotInv(r2.0[0])
  {
    var s := Slot(2, true, 0, false);
    var q: seq<int> := [10, 20, 30];
    assert q[2..] == [30];
    assert [s][1..] == [];
    assert RequestSlot(s).1 == Slot(2, true, 1, true);
    assert PassSlots([s][1..], q[2..]) == ([], [30]);
    assert Available(s) && Min(s.capacity - s.count, |q|) == 2;
    var r1 := PassSlots([s], q);
    assert r1 == ([RequestSlot(s).1] + PassSlots([s][1..], q[2..]).0, PassSlots([s][1..], q[2..]).1);
    assert RequestSlot(Slot(2, true, 1, true)).1 == Slot(2, true, 2, true);
    assert PassSlots([Slot(2, true, 1, true)][1..], [30][1..]) == ([], []);
    assert [30][1..] == [];
    assert [Slot(2, true, 1, true)][1..] == [];
  }

  // ===== Processor keys =====

  function KindPrefix(k: Kind): string {
    match k
    case Machine => "Machine_"
    case AMR => "AMR_"
    case Worker => "Worker_"
  }

  /** The key a processor is registered under: type prefix and decimal id. */
  function KeyOf(k: Kind, id: nat): string {
    KindPrefix(k) + Text.NatToString(id)
  }

  function ProcessorKey(p: Processor): string {
    KeyOf(p.kind, p.id)
  }

  /** Two processors share a key exactly when they have the same type and id, so
      a second registration under a key replaces the first one's resource. */
  lemma KeyOfInjective(k1: Kind, a: nat, k2: Kind, b: nat)
    ensures KeyOf(k1, a) == KeyOf(k2, b) <==> k1 == k2 && a == b
  {
    if KeyOf(k1, a) == KeyOf(k2, b) {
      assert KindPrefix(k1)[0] == KeyOf(k1, a)[0];
      assert KindPrefix(k2)[0] == KeyOf(k2, b)[0];
      Text.PrefixCancel(KindPrefix(k1), Text.NatToString(a), Text.NatToString(b));
      Text.NatToStringInjective(a, b);
    }
  }

  /** The keys of processors of one type numbered 1..n. */
  function SeriesKeys(k: Kind, n: nat): (ks: seq<string>)
    ensures |ks| == n && forall i :: 0 <= i < n ==> ks[i] == KeyOf(k, i + 1)
  {
    if n == 0 then [] else SeriesKeys(k, n - 1) + [KeyOf(k, n)]
  }

  /** The next key of a series is not among the keys before it. */
  lemma {:induction false} SeriesKeysFresh(k: Kind, n: nat)
    ensures KeyOf(k, n + 1) !in SeriesKeys(k, n)
  {
    forall j | 0 <= j < n ensures SeriesKeys(k, n)[j] != KeyOf(k, n + 1) {
      KeyOfInjective(k, j + 1, k, n + 1);
    }
  }

  function Lookup(m: map<string, ProcessorResource>, keys: seq<string>): (rs: seq<ProcessorResource>)
    requires forall i :: 0 <= i < |keys| ==> keys[i] in m
    ensures |rs| == |keys| && forall i :: 0 <= i < |keys| ==> rs[i] == m[keys[i]]
  {
    seq(|keys|, i requires 0 <= i < |keys| => m[keys[i]])
  }

  /** The resources `is_available` keeps, in order. */
  function AvailableOf(rs: seq<ProcessorResource>): (a: seq<ProcessorResource>)
    reads rs
    ensures |a| <= |rs|
    ensures forall i :: 0 <= i < |a| ==> a[i] in rs && a[i].IsAvailable()
    ensures forall i :: 0 <= i < |rs| && rs[i].IsAvailable() ==> rs[i] in a
    decreases |rs|
  {
    if rs == [] then []
    else
      var tail := AvailableOf(rs[1..]);
      assert forall i :: 1 <= i < |rs| ==> rs[i] == rs[1..][i - 1];
      (if rs[0].IsAvailable() then [rs[0]] else []) + tail
  }

  /** The filter keeps order: filtering a concatenation concatenates the
      filtered parts, and a single resource is kept exactly when available. */
  lemma {:induction false} AvailableOfConcat(xs: seq<ProcessorResource>, ys: seq<ProcessorResource>)
    ensures AvailableOf(xs + ys) == AvailableOf(xs) + AvailableOf(ys)
    ensures forall r: ProcessorResource :: AvailableOf([r]) == if r.IsAvailable() then [r] else []
    decreases |xs|
  {
    if xs != [] {
      assert (xs + ys)[1..] == xs[1..] + ys;
      AvailableOfConcat(xs[1..], ys);
    } else {
      assert xs + ys == ys;
    }
    forall r: ProcessorResource ensures AvailableOf([r]) == if r.IsAvailable() then [r] else [] {
      assert [r][1..] == [];
    }
  }

  /** The slot view of each resource, in order. */
  function SlotsOf(rs: seq<ProcessorResource>): (slots: seq<Slot>)
    reads rs
    ensures |slots| == |rs| && forall i :: 0 <= i < |rs| ==> slots[i] == rs[i].SlotOf()
  {
    seq(|rs|, i requires 0 <= i < |rs| reads rs => rs[i].SlotOf())
  }

  /** The stage's pass and the slot sweep agree: `seize_resources` over the
      available resources, followed by the request of every hold it starts,
      leaves the queue `PassSlots` leaves, and the resources that got a batch
      are exactly those whose slot the sweep requested. */
  lemma PassMatchesStage<T>(rs: seq<ProcessorResource>, q: seq<T>)
    requires NoRepeats(rs)
    ensures var a := Allocate(Rooms(AvailableOf(rs)), q);
            var p := PassSlots(SlotsOf(rs), q);
            && p.1 == a.1
            && forall i :: 0 <= i < |rs| ==>
                 p.0[i] == if rs[i] in Firsts(a.0) then RequestSlot(rs[i].SlotOf()).1 else rs[i].SlotOf()
  {
    RoomsOfAvailable(rs);
    PassMatchesLabelled(rs, SlotsOf(rs), q);
  }

  /** The available slots' rooms, each labelled with its resource. */
  function LabelledRooms<R>(rs: seq<R>, ss: seq<Slot>): seq<(R, nat)>
    requires |rs| == |ss|
    decreases |rs|
  {
    if rs == [] then []
    else
      (if Available(ss[0]) then [(rs[0], ss[0].capacity - ss[0].count)] else [])
      + LabelledRooms(rs[1..], ss[1..])
  }

  /** `PassMatchesAllocate` with the slots labelled by distinct resources: the
      labels that get a batch are the slots the sweep requested. */
  lemma {:induction false} PassMatchesLabelled<R, T>(rs: seq<R>, ss: seq<Slot>, q: seq<T>)
    requires |rs| == |ss| && NoRepeats(rs)
    ensures var a := Allocate(LabelledRooms(rs, ss), q);
            var p := PassSlots(ss, q);
            && p.1 == a.1
            && forall i :: 0 <= i < |rs| ==> p.0[i] == if rs[i] in Firsts(a.0) then RequestSlot(ss[i]).1 else ss[i]
    decreases |rs|
  {
    if rs != [] {
      var s := ss[0];
      var n := if Available(s) then Min(s.capacity - s.count, |q|) else 0;
      TailNoRepeats(rs);
      PassMatchesLabelled(rs[1..], ss[1..], q[n..]);
      var a := Allocate(LabelledRooms(rs, ss), q);
      var a' := Allocate(LabelledRooms(rs[1..], ss[1..]), q[n..]);
      BatchOwners(rs, ss, q, n);
      var p' := PassSlots(ss[1..], q[n..]);
      assert PassSlots(ss, q).0 == [if n > 0 then RequestSlot(s).1 else s] + p'.0;
      SweepConsMatches(rs, ss, PassSlots(ss, q).0, p'.0, Firsts(a.0), Firsts(a'.0), n > 0);
    }
  }

  /** The slot-by-slot agreement, one slot in front of an agreement for the rest. */
  lemma SweepConsMatches<R>(rs: seq<R>, ss: seq<Slot>, p: seq<Slot>, p': seq<Slot>, f: seq<R>, f': seq<R>, took: bool)
    requires |rs| == |ss| && rs != [] && rs[0] !in rs[1..]
    requires p == [if took then RequestSlot(ss[0]).1 else ss[0]] + p'
    requires rs[0] !in f'
    requires forall x :: x in f <==> (took && x == rs[0]) || x in f'
    requires |p'| == |rs| - 1
    requires forall j :: 0 <= j < |rs| - 1 ==>
               p'[j] == if rs[1..][j] in f' then RequestSlot(ss[1..][j]).1 else ss[1..][j]
    ensures forall i :: 0 <= i < |rs| ==> p[i] == if rs[i] in f then RequestSlot(ss[i]).1 else ss[i]
  {
    forall i | 0 <= i < |rs| ensures p[i] == if rs[i] in f then RequestSlot(ss[i]).1 else ss[i] {
      if i > 0 {
        assert rs[i] == rs[1..][i - 1] && ss[i] == ss[1..][i - 1] && p[i] == p'[i - 1];
        assert rs[i] != rs[0];
      }
    }
  }

  /** Who gets a batch when the first slot's share is `n`: its label when
      `n > 0`, and otherwise the labels that get one from the rest. */
  lemma BatchOwners<R, T>(rs: seq<R>, ss: seq<Slot>, q: seq<T>, n: nat)
    requires |rs| == |ss| && rs != [] && rs[0] !in rs[1..]
    requires n == if Available(ss[0]) then Min(ss[0].capacity - ss[0].count, |q|) else 0
    ensures var a := Allocate(LabelledRooms(rs, ss), q);
            var a' := Allocate(LabelledRooms(rs[1..], ss[1..]), q[n..]);
            && a.1 == a'.1
            && rs[0] !in Firsts(a'.0)
            && forall x :: x in Firsts(a.0) <==> (n > 0 && x == rs[0]) || x in Firsts(a'.0)
  {
    var tail := LabelledRooms(rs[1..], ss[1..]);
    var a' := Allocate(tail, q[n..]);
    assert rs[0] !in Firsts(a'.0) by {
      LabelledFirsts(rs[1..], ss[1..]);
      NotAmongBatches(rs[0], tail, q[n..]);
    }
    LabelledStep(rs, ss, q, n);
    var a := Allocate(LabelledRooms(rs, ss), q);
    forall x ensures x in Firsts(a.0) <==> (n > 0 && x == rs[0]) || x in Firsts(a'.0) {
      if n > 0 {
        FirstsCons(x, rs[0], q[..n], a'.0);
      } else {
        assert [] + a'.0 == a'.0;
      }
    }
  }

  /** `Allocate` over the labelled rooms takes the first slot's share first. */
  lemma LabelledStep<R, T>(rs: seq<R>, ss: seq<Slot>, q: seq<T>, n: nat)
    requires |rs| == |ss| && rs != []
    requires n == if Available(ss[0]) then Min(ss[0].capacity - ss[0].count, |q|) else 0
    ensures var a' := Allocate(LabelledRooms(rs[1..], ss[1..]), q[n..]);
            Allocate(LabelledRooms(rs, ss), q) == ((if n > 0 then [(rs[0], q[..n])] else []) + a'.0, a'.1)
  {
    if Available(ss[0]) {
      LabelledTake(rs, ss, q, n);
    } else {
      LabelledSkip(rs, ss, q);
    }
  }

  lemma LabelledTake<R, T>(rs: seq<R>, ss: seq<Slot>, q: seq<T>, n: nat)
    requires |rs| == |ss| && rs != [] && Available(ss[0])
    requires n == Min(ss[0].capacity - ss[0].count, |q|)
    ensures var a' := Allocate(LabelledRooms(rs[1..], ss[1..]), q[n..]);
            Allocate(LabelledRooms(rs, ss), q) == ((if n > 0 then [(rs[0], q[..n])] else []) + a'.0, a'.1)
  {
    var slots := LabelledRooms(rs, ss);
    assert slots == [(rs[0], ss[0].capacity - ss[0].count)] + LabelledRooms(rs[1..], ss[1..]);
    assert slots[1..] == LabelledRooms(rs[1..], ss[1..]);
    AllocateHead(slots, q, n, LabelledRooms(rs[1..], ss[1..]));
  }

  lemma LabelledSkip<R, T>(rs: seq<R>, ss: seq<Slot>, q: seq<T>)
    requires |rs| == |ss| && rs != [] && !Available(ss[0])
    ensures Allocate(LabelledRooms(rs, ss), q) == Allocate(LabelledRooms(rs[1..], ss[1..]), q)
  {
    var tail := LabelledRooms(rs[1..], ss[1..]);
    assert LabelledRooms(rs, ss) == tail by {
      assert LabelledRooms(rs, ss) == [] + tail;
      assert [] + tail == tail;
    }
  }

  lemma {:induction false} LabelledFirsts<R>(rs: seq<R>, ss: seq<Slot>)
    requires |rs| == |ss|
    ensures forall x :: x in Firsts(LabelledRooms(rs, ss)) ==> x in rs
    decreases |rs|
  {
    if rs != [] {
      LabelledFirsts(rs[1..], ss[1..]);
      var head := if Available(ss[0]) then [(rs[0], ss[0].capacity - ss[0].count)] else [];
      forall x | x in Firsts(LabelledRooms(rs, ss)) ensures x in rs {
        if head != [] {
          FirstsCons(x, rs[0], ss[0].capacity - ss[0].count, LabelledRooms(rs[1..], ss[1..]));
        } else {
          assert LabelledRooms(rs, ss) == LabelledRooms(rs[1..], ss[1..]);
        }
        if x != rs[0] {
          assert x in rs[1..];
        }
      }
    }
  }

  /** A label outside the slots gets no batch. */
  lemma NotAmongBatches<R, T>(x: R, slots: seq<(R, nat)>, q: seq<T>)
    requires x !in Firsts(slots)
    ensures x !in Firsts(Allocate(slots, q).0)
  {
    var a := Allocate(slots, q);
    AllocateFits(slots, q);
    forall k | 0 <= k < |a.0| ensures a.0[k].0 != x {
      var m :| 0 <= m < |slots| && slots[m].0 == a.0[k].0 && |a.0[k].1| <= slots[m].1;
      assert Firsts(slots)[m] == slots[m].0;
    }
  }

  /** The rooms of the available resources are their slots' labelled rooms. */
  lemma {:induction false} RoomsOfAvailable(rs: seq<ProcessorResource>)
    ensures Rooms(AvailableOf(rs)) == LabelledRooms(rs, SlotsOf(rs))
    decreases |rs|
  {
    var ss := SlotsOf(rs);
    if rs == [] {
      assert Rooms(AvailableOf(rs)) == [];
    } else {
      RoomsOfAvailable(rs[1..]);
      assert ss[1..] == SlotsOf(rs[1..]);
      if rs[0].IsAvailable() {
        RoomsCons(rs);
      } else {
        assert AvailableOf(rs) == [] + AvailableOf(rs[1..]);
        assert LabelledRooms(rs, ss) == [] + LabelledRooms(rs[1..], ss[1..]);
      }
    }
  }

  /** The rooms of the available resources when the first one is available. */
  lemma RoomsCons(rs: seq<ProcessorResource>)
    requires rs != [] && rs[0].IsAvailable()
    ensures Rooms(AvailableOf(rs)) == [(rs[0], rs[0].capacity - rs[0].count)] + Rooms(AvailableOf(rs[1..]))
  {
    var a, a' := AvailableOf(rs), AvailableOf(rs[1..]);
    assert a == [rs[0]] + a';
    var lhs, rhs := Rooms(a), [(rs[0], rs[0].capacity - rs[0].count)] + Rooms(a');
    assert |lhs| == |rhs|;
    forall i | 0 <= i < |lhs| ensures lhs[i] == rhs[i] {
      if i > 0 {
        assert a[i] == a'[i - 1];
        assert rhs[i] == Rooms(a')[i - 1];
      }
    }
  }

  lemma TailNoRepeats<R>(s: seq<R>)
    requires s != [] && NoRepeats(s)
    ensures NoRepeats(s[1..]) && s[0] !in s[1..]
  {
    forall i, j | 0 <= i < j < |s[1..]| ensures s[1..][i] != s[1..][j] {
      assert s[1..][i] == s[i + 1] && s[1..][j] == s[j + 1];
    }
    forall j | 0 <= j < |s[1..]| ensures s[1..][j] != s[0] {
      assert s[1..][j] == s[j + 1];
    }
  }

  lemma FirstsCons<R, X>(x: R, y: R, b: X, ps: seq<(R, X)>)
    ensures x in Firsts([(y, b)] + ps) <==> x == y || x in Firsts(ps)
  {
    var f := Firsts([(y, b)] + ps);
    assert f == [y] + Firsts(ps) by {
      assert ([(y, b)] + ps)[1..] == ps;
    }
  }

  /** `capacity - count` for each resource; a negative difference gives an empty
      `range`, so it takes nothing, as a room of 0 does. */
  function Rooms(rs: seq<ProcessorResource>): (slots: seq<(ProcessorResource, nat)>)
    reads rs
    ensures |slots| == |rs|
    ensures forall i :: 0 <= i < |rs| ==> slots[i] == (rs[i], Room(rs[i]))
  {
    seq(|rs|, i requires 0 <= i < |rs| reads rs => (rs[i], Room(rs[i])))
  }

  function Room(r: ProcessorResource): nat
    reads r
  {
    if r.count <= r.capacity then r.capacity - r.count else 0
  }

  /** The defect flags of a batch, in order. */
  function DefectFlags(items: seq<Item>): (f: seq<bool>)
    reads items
    ensures |f| == |items| && forall k :: 0 <= k < |items| ==> f[k] == items[k].isDefect
  {
    seq(|items|, k requires 0 <= k < |items| reads items => items[k].isDefect)
  }

  /** The elements whose flag is set, in order. */
  function Flagged<T>(xs: seq<T>, flags: seq<bool>): seq<T>
    requires |xs| == |flags|
  {
    if xs == [] then []
    else Flagged(xs[..|xs| - 1], flags[..|flags| - 1]) + (if flags[|flags| - 1] then [xs[|xs| - 1]] else [])
  }

  /** An element is kept exactly when its flag is set, and the kept ones are
      as many as the set flags. */
  lemma {:induction false} FlaggedMembers<T>(xs: seq<T>, flags: seq<bool>, x: T)
    requires |xs| == |flags|
    ensures x in Flagged(xs, flags) <==> exists k :: 0 <= k < |xs| && xs[k] == x && flags[k]
    ensures |Flagged(xs, flags)| <= |xs|
    decreases |xs|
  {
    if xs != [] {
      var n := |xs| - 1;
      FlaggedMembers(xs[..n], flags[..n], x);
      if x in Flagged(xs, flags) && x !in Flagged(xs[..n], flags[..n]) {
        assert xs[n] == x && flags[n];
      }
      if exists k :: 0 <= k < |xs| && xs[k] == x && flags[k] {
        var k :| 0 <= k < |xs| && xs[k] == x && flags[k];
        if k < n {
          assert xs[..n][k] == x && flags[..n][k];
        }
      }
    }
  }

  /** `Flagged` on one more element. */
  lemma FlaggedSnoc<T>(xs: seq<T>, flags: seq<bool>, i: nat)
    requires |xs| == |flags| && i < |xs|
    ensures Flagged(xs[..i + 1], flags[..i + 1]) == Flagged(xs[..i], flags[..i]) + (if flags[i] then [xs[i]] else [])
  {
    assert xs[..i + 1][..i] == xs[..i] && flags[..i + 1][..i] == flags[..i];
  }

  lemma {:induction false} DrainedConcat(now: nat, length: nat, a: nat, b: nat)
    requires a + b <= length
    ensures Drained(now, length, a) + Drained(now, length - a, b) == Drained(now, length, a + b)
    decreases b
  {
    if b > 0 {
      DrainedConcat(now, length, a, b - 1);
    }
  }

  /** A history extended by two successive drains is the history extended by one. */
  lemma DrainedAfter(h: seq<(nat, nat)>, now: nat, length: nat, a: nat, b: nat)
    requires a + b <= length
    ensures (h + Drained(now, length, a)) + Drained(now, length - a, b) == h + Drained(now, length, a + b)
  {
    DrainedConcat(now, length, a, b);
    ConcatAssoc(h, Drained(now, length, a), Drained(now, length - a, b));
  }

  lemma {:induction false} GrownConcat(now: nat, length: nat, a: nat, b: nat)
    ensures Grown(now, length, a) + Grown(now, length + a, b) == Grown(now, length, a + b)
    decreases b
  {
    if b > 0 {
      GrownConcat(now, length, a, b - 1);
    }
  }

  function TagOf(res: ProcessorResource): ResourceTag {
    ResourceTag(KindName(res.processorType), res.id, res.name)
  }

  function StoreOf(st: Stage?): set<object> {
    if st != null then {st.itemStore} else {}
  }

  /** A resource for the processor that holds nothing and was never requested. */
  predicate Idle(r: ProcessorResource, p: Processor)
    reads r
  {
    r.processor == p && r.count == 0 && !r.processingStarted
  }

  function SeriesName(prefix: string, id: nat): string {
    prefix + Text.NatToString(id)
  }

  /** Processors numbered 1, 2, ... in order, all of one type and variant. */
  predicate NumberedSeries(ps: seq<Processor>, k: Kind, variant: Variant, prefix: string, procTime: nat, capacity: nat) {
    forall j :: 0 <= j < |ps| ==> Numbered(ps[j], k, variant, j + 1, SeriesName(prefix, j + 1), procTime, capacity)
  }

  lemma NumberedSeriesSnoc(ps: seq<Processor>, p: Processor, k: Kind, variant: Variant, prefix: string,
                           procTime: nat, capacity: nat)
    requires NumberedSeries(ps, k, variant, prefix, procTime, capacity)
    requires Numbered(p, k, variant, |ps| + 1, SeriesName(prefix, |ps| + 1), procTime, capacity)
    ensures NumberedSeries(ps + [p], k, variant, prefix, procTime, capacity)
  {
  }

  /** Each key is present and maps to the resource of the processor at the same position. */
  predicate ResourcesFor(m: map<string, ProcessorResource>, keys: seq<string>, ps: seq<Processor>) {
    |keys| == |ps| && forall j :: 0 <= j < |keys| ==> keys[j] in m && m[keys[j]].processor == ps[j]
  }

  /** Storing under a new key keeps the resources of the other keys, and adds the new one. */
  lemma ResourcesKept(before: map<string, ProcessorResource>, after: map<string, ProcessorResource>,
                      keys: seq<string>, key: string, ps: seq<Processor>)
    requires ResourcesFor(before, keys, ps) && key !in keys && key in after
    requires after == before[key := after[key]]
    ensures ResourcesFor(after, keys + [key], ps + [after[key].processor])
  {
  }

  predicate Numbered(p: Processor, k: Kind, variant: Variant, id: nat, name: string, procTime: nat, capacity: nat) {
    && p.kind == k && p.variant == variant && p.id == id && p.name == name && p.processingTime == procTime
    && p.capacityItems == (if k == Worker then None else Some(capacity))
  }

  // ===== Stages =====

  datatype StageKind = PlainStage | CuttingStage | InspectStage

  /** A stage of the line: its queue, its registered processors and their
      resources, the items it completed and the stage after it. */
  class Stage {
    const name: string
    const kind: StageKind
    const itemStore: ItemStore
    var listProcessors: seq<Processor>
    /** The keys of `processorResources` in the order they were first inserted,
        which is the order the source's dictionary iterates in. */
    var resourceKeys: seq<string>
    var processorResources: map<string, ProcessorResource>
    var completedItems: seq<Item>
    var next: Stage?
    /** The manager an inspection stage reroutes defective items through. */
    var manager: Manager?

    ghost predicate Valid()
      reads this`resourceKeys, this`processorResources, processorResources.Values
    {
      && NoRepeats(resourceKeys)
      && (forall key :: key in processorResources <==> key in resourceKeys)
      && (forall key :: key in processorResources ==> processorResources[key].Valid())
    }

    /** Every registered key names a resource. */
    ghost predicate Resolved()
      reads this`resourceKeys, this`processorResources
    {
      forall i :: 0 <= i < |resourceKeys| ==> resourceKeys[i] in processorResources
    }

    /** The resources in dictionary order. */
    function Resources(): (rs: seq<ProcessorResource>)
      reads this
      requires Resolved()
      ensures |rs| == |resourceKeys|
    {
      Lookup(processorResources, resourceKeys)
    }

    function NextName(): Option<string>
      reads this`next
    {
      if next != null then Some(next.name) else None
    }

    function NextStores(): set<object>
      reads this`next
    {
      StoreOf(next)
    }

    /** Whether processing with this processor sends defective items back through the manager. */
    function Routes(processor: Processor): bool
      reads this`manager
    {
      kind == InspectStage && processor.variant == WorkerInspect && manager != null
    }

    function ReworkStores(): set<object>
      reads this`manager
    {
      if kind == InspectStage && manager != null then {manager.procCutting.itemStore} else {}
    }

    function ReworkName(): string
      reads this`manager
    {
      if manager != null then manager.procCutting.name else ""
    }

    /** What `apply_special_processing` does to one item, for a stage that has it. */
    function Hooked(processor: Processor, s: ItemState, draw: bool, now: nat): ItemState
      reads this`manager
    {
      match kind
      case PlainStage => s
      case CuttingStage => Cut(s, draw)
      case InspectStage => if processor.variant == WorkerInspect then Inspected(s, ReworkName(), now) else s
    }

    /** A stage with no processors, an empty queue named after it and no successor. */
    constructor (name: string, kind: StageKind := PlainStage)
      ensures this.name == name && this.kind == kind && Valid()
      ensures fresh(itemStore) && itemStore.name == name + "_ItemStore"
      ensures itemStore.items == [] && itemStore.queueLengthHistory == []
      ensures listProcessors == [] && resourceKeys == [] && processorResources == map[]
      ensures completedItems == [] && next == null && manager == null
    {
      this.name := name;
      this.kind := kind;
      itemStore := new ItemStore(name + "_ItemStore");
      listProcessors := [];
      resourceKeys := [];
      processorResources := map[];
      completedItems := [];
      next := null;
      manager := null;
    }

    /** `Proc_Cutting`: CNC machines CNC_1..CNC_n. */
    constructor Cutting(cfg: Settings.Config)
      requires cfg.capacityMachineCutting > 0
      ensures name == "Proc_Cutting" && kind == CuttingStage && Valid()
      ensures fresh(itemStore) && itemStore.name == name + "_ItemStore" && itemStore.items == []
      ensures completedItems == [] && next == null && manager == null
      ensures Registered(Machine, MachCnc, "CNC_", cfg.numMachinesCnc, cfg.procTimeCutting, cfg.capacityMachineCutting)
      ensures forall i :: 0 <= i < |listProcessors| ==> listProcessors[i].nameProcess == "Proc_CNC"
    {
      name := "Proc_Cutting";
      kind := CuttingStage;
      itemStore := new ItemStore("Proc_Cutting_ItemStore");
      listProcessors := [];
      resourceKeys := [];
      processorResources := map[];
      completedItems := [];
      next := null;
      manager := null;
      new;
      RegisterSeries(Machine, MachCnc, "CNC_", "Proc_CNC", cfg.numMachinesCnc, cfg.procTimeCutting, cfg.capacityMachineCutting);
    }

    /** `Proc_Inspect`: inspection workers Inspector_1..Inspector_n. */
    constructor Inspect(manager: Manager?, cfg: Settings.Config)
      ensures name == "Proc_Inspect" && kind == InspectStage && Valid()
      ensures fresh(itemStore) && itemStore.name == name + "_ItemStore" && itemStore.items == []
      ensures completedItems == [] && next == null && this.manager == manager
      ensures Registered(Worker, WorkerInspect, "Inspector_", cfg.numWorkersInInspect, cfg.procTimeInspect, 0)
    {
      name := "Proc_Inspect";
      kind := InspectStage;
      itemStore := new ItemStore("Proc_Inspect_ItemStore");
      listProcessors := [];
      resourceKeys := [];
      processorResources := map[];
      completedItems := [];
      next := null;
      this.manager := manager;
      new;
      RegisterSeries(Worker, WorkerInspect, "Inspector_", "", cfg.numWorkersInInspect, cfg.procTimeInspect, 0);
    }

    /** `Proc_AMR_STC`: supplier-to-cutting AMRs STC_AMR_LOT1..STC_AMR_LOTn. */
    constructor AmrStc(cfg: Settings.Config)
      requires cfg.capacityMachineAmr > 0
      ensures name == "Proc_AMR_STC" && kind == PlainStage && Valid()
      ensures fresh(itemStore) && itemStore.name == name + "_ItemStore" && itemStore.items == []
      ensures completedItems == [] && next == null && manager == null
      ensures Registered(AMR, MachAmr1, "STC_AMR_LOT", cfg.numStcMachinesAmr, cfg.stcProcTimeTransit, cfg.capacityMachineAmr)
    {
      name := "Proc_AMR_STC";
      kind := PlainStage;
      itemStore := new ItemStore("Proc_AMR_STC_ItemStore");
      listProcessors := [];
      resourceKeys := [];
      processorResources := map[];
      completedItems := [];
      next := null;
      manager := null;
      new;
      RegisterSeries(AMR, MachAmr1, "STC_AMR_LOT", "", cfg.numStcMachinesAmr, cfg.stcProcTimeTransit, cfg.capacityMachineAmr);
    }

    /** `Proc_AMR_CTI`: cutting-to-inspection AMRs CTI_AMR_1..CTI_AMR_n. */
    constructor AmrCti(cfg: Settings.Config)
      requires cfg.capacityMachineAmr > 0
      ensures name == "Proc_AMR_CTI" && kind == PlainStage && Valid()
      ensures fresh(itemStore) && itemStore.name == name + "_ItemStore" && itemStore.items == []
      ensures completedItems == [] && next == null && manager == null
      ensures Registered(AMR, MachAmr2, "CTI_AMR_", cfg.numCtiMachinesAmr, cfg.ctiProcTimeTransit, cfg.capacityMachineAmr)
    {
      name := "Proc_AMR_CTI";
      kind := PlainStage;
      itemStore := new ItemStore("Proc_AMR_CTI_ItemStore");
      listProcessors := [];
      resourceKeys := [];
      processorResources := map[];
      completedItems := [];
      next := null;
      manager := null;
      new;
      RegisterSeries(AMR, MachAmr2, "CTI_AMR_", "", cfg.numCtiMachinesAmr, cfg.ctiProcTimeTransit, cfg.capacityMachineAmr);
    }

    /** Processors 1..n of one type and variant are registered, in order, each
        with an idle resource of its own under its key. */
    ghost predicate Registered(k: Kind, variant: Variant, namePrefix: string, n: nat, procTime: nat, capacity: nat)
      reads this`listProcessors, this`resourceKeys, this`processorResources
    {
      && |listProcessors| == n && resourceKeys == SeriesKeys(k, n)
      && NumberedSeries(listProcessors, k, variant, namePrefix, procTime, capacity)
      && ResourcesFor(processorResources, resourceKeys, listProcessors)
    }

    /** A stage ready to run: consistent, every key resolved, and the series registered. */
    ghost predicate Staffs(plan: Staffing)
      reads this`listProcessors, this`resourceKeys, this`processorResources, processorResources.Values
    {
      Valid() && Resolved() && Registered(plan.kind, plan.variant, plan.prefix, plan.count, plan.procTime, plan.capacity)
    }

    /** The first `i` processors of a series are registered. */
    ghost predicate SeriesUpTo(k: Kind, variant: Variant, namePrefix: string, nameProcess: string,
                               i: nat, procTime: nat, capacity: nat)
      reads this, processorResources.Values
    {
      && Valid() && |listProcessors| == i && resourceKeys == SeriesKeys(k, i)
      && NumberedSeries(listProcessors, k, variant, namePrefix, procTime, capacity)
      && ResourcesFor(processorResources, resourceKeys, listProcessors)
      && (k == Machine ==> forall j :: 0 <= j < i ==> listProcessors[j].nameProcess == nameProcess)
    }

    /** The registration loop of the specialised stages' constructors. */
    method RegisterSeries(k: Kind, variant: Variant, namePrefix: string, nameProcess: string,
                          n: nat, procTime: nat, capacity: nat)
      requires k != Worker ==> capacity > 0
      requires listProcessors == [] && resourceKeys == [] && processorResources == map[]
      modifies this`listProcessors, this`resourceKeys, this`processorResources
      ensures Valid() && Registered(k, variant, namePrefix, n, procTime, capacity)
      ensures k == Machine ==> forall i :: 0 <= i < n ==> listProcessors[i].nameProcess == nameProcess
    {
      var i := 0;
      while i < n
        invariant 0 <= i <= n && SeriesUpTo(k, variant, namePrefix, nameProcess, i, procTime, capacity)
      {
        RegisterNext(k, variant, namePrefix, nameProcess, i, procTime, capacity);
        i := i + 1;
      }
    }

    /** The body of the registration loop: registers processor `i + 1`. */
    method RegisterNext(k: Kind, variant: Variant, namePrefix: string, nameProcess: string,
                        i: nat, procTime: nat, capacity: nat)
      requires k != Worker ==> capacity > 0
      requires SeriesUpTo(k, variant, namePrefix, nameProcess, i, procTime, capacity)
      modifies this`listProcessors, this`resourceKeys, this`processorResources
      ensures SeriesUpTo(k, variant, namePrefix, nameProcess, i + 1, procTime, capacity)
    {
      var key := KeyOf(k, i + 1);
      SeriesKeysFresh(k, i);
      ghost var before := processorResources;
      ghost var keysBefore := resourceKeys;
      ghost var listBefore := listProcessors;
      var p := RegisterNumbered(k, variant, namePrefix, nameProcess, i + 1, procTime, capacity);
      assert resourceKeys == keysBefore + [key];
      assert SeriesKeys(k, i + 1) == SeriesKeys(k, i) + [key];
      ResourcesKept(before, processorResources, keysBefore, key, listBefore);
      NumberedSeriesSnoc(listBefore, p, k, variant, namePrefix, procTime, capacity);
    }

    /** One pass of the registration loop: builds processor `id` of the series
        and registers it under a key not yet in use. */
    method RegisterNumbered(k: Kind, variant: Variant, namePrefix: string, nameProcess: string,
                            id: nat, procTime: nat, capacity: nat) returns (p: Processor)
      requires k != Worker ==> capacity > 0
      requires Valid() && KeyOf(k, id) !in processorResources
      modifies this`listProcessors, this`resourceKeys, this`processorResources
      ensures Valid() && fresh(p)
      ensures Numbered(p, k, variant, id, SeriesName(namePrefix, id), procTime, capacity)
      ensures k == Machine ==> p.nameProcess == nameProcess
      ensures listProcessors == old(listProcessors) + [p]
      ensures resourceKeys == old(resourceKeys) + [KeyOf(k, id)]
      ensures processorResources == old(processorResources)[KeyOf(k, id) := processorResources[KeyOf(k, id)]]
      ensures Idle(processorResources[KeyOf(k, id)], p)
    {
      var pname := SeriesName(namePrefix, id);
      if k == Machine {
        p := new Processor.Machine(id, nameProcess, pname, procTime, capacity, variant);
      } else if k == AMR {
        p := new Processor.Amr(id, pname, procTime, capacity, variant);
      } else {
        p := new Processor.Worker(id, pname, procTime, variant);
      }
      RegisterProcessor(p);
    }

    /** `register_processor`: appends the processor and stores a fresh resource
        for it under its key; a key already present keeps its place in the
        dictionary order and gets the new resource. */
    method RegisterProcessor(p: Processor)
      requires p.kind == AMR ==> p.capacityItems.Some?
      requires ResourceCapacity(p) > 0
      requires Valid()
      modifies this`listProcessors, this`resourceKeys, this`processorResources
      ensures Valid()
      ensures listProcessors == old(listProcessors) + [p]
      ensures ProcessorKey(p) in processorResources
      ensures var r := processorResources[ProcessorKey(p)];
                && fresh(r) && r.processor == p && r.capacity == ResourceCapacity(p)
                && r.count == 0 && !r.processingStarted
      ensures processorResources == old(processorResources)[ProcessorKey(p) := processorResources[ProcessorKey(p)]]
      ensures resourceKeys == if ProcessorKey(p) in old(processorResources) then old(resourceKeys)
                              else old(resourceKeys) + [ProcessorKey(p)]
    {
      listProcessors := listProcessors + [p];
      var res := new ProcessorResource(p);
      var key := ProcessorKey(p);
      if key !in processorResources {
        resourceKeys := resourceKeys + [key];
      }
      processorResources := processorResources[key := res];
    }

    method ConnectToNextProcess(nextProcess: Stage)
      modifies this`next
      ensures next == nextProcess
    {
      next := nextProcess;
    }

    /** `add_to_queue`: stamps and records the wait on the item and puts it at
        the tail of the queue. */
    method AddToQueue(item: Item, now: nat)
      modifies item`timeWaitingStart, item`processSequence, item`waitingHistory, itemStore
      ensures item.State() == Enqueued(old(item.State()), name, now)
      ensures itemStore.items == old(itemStore.items) + [item]
      ensures itemStore.queueLengthHistory == old(itemStore.queueLengthHistory) + [(now, |itemStore.items|)]
    {
      item.timeWaitingStart := Some(now);
      item.processSequence := item.processSequence + [name];
      var step := CreateWaitingStep(name, now);
      item.waitingHistory := item.waitingHistory + [step];
      itemStore.Put(item, now);
    }

    /** `seize_resources`: scans the available resources in dictionary order and
        takes min(capacity - count, queue length) items from the head of the
        queue for each; returns the (resource, batch) pairings whose holds are to
        be started, and starts none itself. */
    method SeizeResources(now: nat) returns (assignments: seq<(ProcessorResource, seq<Item>)>)
      requires Resolved()
      modifies itemStore`items, itemStore`queueLengthHistory
      ensures (assignments, itemStore.items) == Allocate(old(Rooms(AvailableOf(Resources()))), old(itemStore.items))
      ensures itemStore.queueLengthHistory == old(itemStore.queueLengthHistory)
                + Drained(now, |old(itemStore.items)|, |old(itemStore.items)| - |itemStore.items|)
      ensures Distinct(old(itemStore.items)) ==>
                Distinct(itemStore.items) && forall k :: 0 <= k < |assignments| ==> Distinct(assignments[k].1)
    {
      if Distinct(itemStore.items) {
        BatchesDistinct(Rooms(AvailableOf(Resources())), itemStore.items);
      }
      var availableProcessors := AvailableOf(Resources());
      if itemStore.IsEmpty() || |availableProcessors| == 0 {
        AllocateIdle(Rooms(availableProcessors), itemStore.items);
        assert itemStore.queueLengthHistory == old(itemStore.queueLengthHistory) + Drained(now, |itemStore.items|, 0);
        return [];
      }
      assignments := AssignAll(availableProcessors, now);
    }

    /** The `for processor_resource in available_processors` loop of
        `seize_resources`: each resource in turn takes its room's worth from
        the head of the queue, and a non-empty take becomes a pairing. */
    method AssignAll(rs: seq<ProcessorResource>, now: nat) returns (assignments: seq<(ProcessorResource, seq<Item>)>)
      modifies itemStore`items, itemStore`queueLengthHistory
      ensures (assignments, itemStore.items) == Allocate(old(Rooms(rs)), old(itemStore.items))
      ensures itemStore.queueLengthHistory == old(itemStore.queueLengthHistory)
                + Drained(now, |old(itemStore.items)|, |old(itemStore.items)| - |itemStore.items|)
    {
      ghost var slots := Rooms(rs);
      ghost var q0 := itemStore.items;
      ghost var h := itemStore.queueLengthHistory;
      ghost var taken: nat := 0;
      assignments := [];
      PartialStart(slots, q0);
      assert h + Drained(now, |q0|, 0) == h;
      var i := 0;
      while i < |rs|
        invariant i <= |rs| == |slots|
        invariant forall j :: 0 <= j < |rs| ==> slots[j] == (rs[j], Room(rs[j]))
        invariant AssignedUpTo(slots, q0, h, now, i, taken, assignments)
      {
        assignments, taken := AssignNext(rs[i], slots, q0, h, now, i, taken, assignments);
        i := i + 1;
      }
      PartialEnd(slots, q0, taken, assignments);
    }

    /** The first `i` resources have taken the first `taken` items of `q0`,
        making the pairings `acc`, and each take is in the history. */
    ghost predicate AssignedUpTo(slots: seq<(ProcessorResource, nat)>, q0: seq<Item>, h: seq<(nat, nat)>, now: nat,
                                 i: nat, taken: nat, acc: seq<(ProcessorResource, seq<Item>)>)
      reads itemStore
    {
      && Partial(slots, q0, i, taken, acc)
      && itemStore.items == q0[taken..]
      && itemStore.queueLengthHistory == h + Drained(now, |q0|, taken)
    }

    /** The body of the loop, for the resource of slot `i`. */
    method AssignNext(res: ProcessorResource, ghost slots: seq<(ProcessorResource, nat)>, ghost q0: seq<Item>,
                      ghost h: seq<(nat, nat)>, now: nat, ghost i: nat, ghost taken: nat,
                      acc: seq<(ProcessorResource, seq<Item>)>)
      returns (acc': seq<(ProcessorResource, seq<Item>)>, ghost taken': nat)
      requires i < |slots| && slots[i] == (res, Room(res))
      requires AssignedUpTo(slots, q0, h, now, i, taken, acc)
      modifies itemStore`items, itemStore`queueLengthHistory
      ensures AssignedUpTo(slots, q0, h, now, i + 1, taken', acc')
    {
      var itemsToAssign := AssignOne(res, slots[i].1, now);
      ghost var next := if |itemsToAssign| > 0 then acc + [(res, itemsToAssign)] else acc;
      PartialStep(slots, q0, i, taken, acc, itemsToAssign, next);
      DrainedAfter(h, now, |q0|, taken, |itemsToAssign|);
      acc' := acc;
      if |itemsToAssign| > 0 {
        acc' := acc + [(res, itemsToAssign)];
      }
      taken' := taken + |itemsToAssign|;
    }

    /** One pass of the loop: `capacity - count` gets from the queue's head,
        which is `room` items or the whole queue, whichever is fewer. */
    method AssignOne(res: ProcessorResource, ghost room: nat, now: nat) returns (batch: seq<Item>)
      requires room == Room(res)
      modifies itemStore`items, itemStore`queueLengthHistory
      ensures Min(room, |old(itemStore.items)|) <= |old(itemStore.items)|
      ensures batch == old(itemStore.items)[..Min(room, |old(itemStore.items)|)]
      ensures itemStore.items == old(itemStore.items)[Min(room, |old(itemStore.items)|)..]
      ensures itemStore.queueLengthHistory
                == old(itemStore.queueLengthHistory) + Drained(now, |old(itemStore.items)|, Min(room, |old(itemStore.items)|))
    {
      var remainingCapacity: int := res.capacity - res.count;
      assert Share(remainingCapacity, |itemStore.items|) == Min(room, |itemStore.items|);
      batch := TakeUpTo(remainingCapacity, now);
    }

    /** The inner loop of `seize_resources`: up to min(n, queue length) gets from
        the head of the queue, none when n is not positive. */
    method TakeUpTo(n: int, now: nat) returns (taken: seq<Item>)
      modifies itemStore`items, itemStore`queueLengthHistory
      ensures Share(n, |old(itemStore.items)|) <= |old(itemStore.items)|
      ensures taken == old(itemStore.items)[..Share(n, |old(itemStore.items)|)]
      ensures itemStore.items == old(itemStore.items)[Share(n, |old(itemStore.items)|)..]
      ensures itemStore.queueLengthHistory
                == old(itemStore.queueLengthHistory) + Drained(now, |old(itemStore.items)|, Share(n, |old(itemStore.items)|))
    {
      ghost var cur := itemStore.items;
      ghost var m := Share(n, |cur|);
      taken := [];
      var bound := if n < itemStore.Size() then n else itemStore.Size();
      var j := 0;
      while j < bound
        invariant 0 <= j <= m <= |cur|
        invariant taken == cur[..j] && itemStore.items == cur[j..]
        invariant itemStore.queueLengthHistory == old(itemStore.queueLengthHistory) + Drained(now, |cur|, j)
      {
        if !itemStore.IsEmpty() {
          var got := itemStore.Get(now);
          taken := taken + [got.value];
          assert cur[..j + 1] == cur[..j] + [cur[j]];
        }
        j := j + 1;
      }
    }

    /** The first half of `delay_resources`, up to its timeout: every item of the
        batch ends its wait, is registered with the resource and starts a
        processing step, and then one request is issued for the whole batch. */
    method StartHold(res: ProcessorResource, items: seq<Item>, now: nat) returns (outcome: Outcome)
      requires Distinct(items)
      modifies items, res, res.processor
      ensures forall k :: 0 <= k < |items| ==> items[k].State() == Begun(old(items[k].State()), name, TagOf(res), now)
      ensures res.OccupancyOf() == StartedAll(res.processorType, old(res.OccupancyOf()), items)
      ensures (outcome, res.SlotOf()) == RequestSlot(old(res.SlotOf()))
    {
      BeginAll(res, items, now);
      outcome := res.Request();
      assert res.OccupancyOf() == Occupancy(res.currentItems, res.currentItem, res.processor.workload);
    }

    /** The loop over the batch. */
    method BeginAll(res: ProcessorResource, items: seq<Item>, now: nat)
      requires Distinct(items)
      modifies items, res`currentItems, res`currentItem, res.processor`workload
      ensures forall k :: 0 <= k < |items| ==> items[k].State() == Begun(old(items[k].State()), name, TagOf(res), now)
      ensures res.OccupancyOf() == StartedAll(res.processorType, old(res.OccupancyOf()), items)
    {
      ghost var st0 := States(items);
      ghost var o0 := res.OccupancyOf();
      assert items[..0] == [];
      for i := 0 to |items|
        invariant BegunUpTo(res, items, st0, o0, i, now)
      {
        BeginNext(res, items, st0, o0, i, now);
      }
      assert items[..|items|] == items;
    }

    /** The first `i` items of the batch have begun on `res`, which holds them,
        and the others are as they were. */
    ghost predicate BegunUpTo(res: ProcessorResource, items: seq<Item>, st0: seq<ItemState>, o0: Occupancy,
                              i: nat, now: nat)
      reads res, res.processor, items
    {
      && |st0| == |items| && i <= |items|
      && (forall k :: 0 <= k < i ==> items[k].State() == Begun(st0[k], name, TagOf(res), now))
      && (forall k :: i <= k < |items| ==> items[k].State() == st0[k])
      && res.OccupancyOf() == StartedAll(res.processorType, o0, items[..i])
    }

    /** The body of the loop, for item `i`. */
    method BeginNext(res: ProcessorResource, items: seq<Item>, ghost st0: seq<ItemState>, ghost o0: Occupancy,
                     i: nat, now: nat)
      requires Distinct(items) && i < |items| && BegunUpTo(res, items, st0, o0, i, now)
      modifies items, res`currentItems, res`currentItem, res.processor`workload
      ensures BegunUpTo(res, items, st0, o0, i + 1, now)
    {
      label before:
      BeginItem(res, items[i], now);
      assert forall k :: 0 <= k < |items| && k != i ==> items[k].State() == old@before(items[k].State());
      assert items[..i + 1][..i] == items[..i];
    }

    /** One pass of that loop, for one item. */
    method BeginItem(res: ProcessorResource, item: Item, now: nat)
      modifies item`timeWaitingEnd, item`waitingHistory, item`workstation, item`timeProcessingStart
      modifies item`processingHistory, res`currentItems, res`currentItem, res.processor`workload
      ensures item.State() == Begun(old(item.State()), name, TagOf(res), now)
      ensures res.OccupancyOf() == StartedOne(res.processorType, old(res.OccupancyOf()), item)
    {
      item.timeWaitingEnd := Some(now);
      var closed := CloseOpenSteps(item.waitingHistory, name, now);
      item.waitingHistory := closed;
      res.StartItem(item);
      item.timeProcessingStart := Some(now);
      var step := CreateProcessStep(name, TagOf(res), item.timeProcessingStart.value);
      item.processingHistory := item.processingHistory + [step];
    }

    // ----- after the processing time: special processing, completion, release -----

    /** The second half of `delay_resources`, from the end of the processing
        time on: the stage's special processing (cutting and inspection stages
        only), completion of every item in order, then the release of the
        resource. `draws` are the cutting stage's defect draws, one per item. */
    method FinishHold(res: ProcessorResource, items: seq<Item>, outcome: Outcome, draws: seq<bool>, now: nat)
      requires outcome == Granted && res.SlotOf().count > 0
      requires Distinct(items) && |draws| == |items|
      requires kind == InspectStage && res.processor.variant == WorkerInspect && manager == null ==>
                 forall k :: 0 <= k < |items| ==> !items[k].isDefect
      modifies items, res, res.processor, this`completedItems, NextStores(), ReworkStores()
      ensures forall k :: 0 <= k < |items| ==>
                items[k].State()
                == Forwarded(Finished(Hooked(res.processor, old(items[k].State()), draws[k], now), name, now), NextName(), now)
      ensures completedItems == old(completedItems) + items
      ensures res.SlotOf() == ReleaseSlot(old(res.SlotOf()))
      ensures res.SlotOf().count == old(res.SlotOf().count) - 1
      ensures res.OccupancyOf() == Cleared(res.processorType, old(res.OccupancyOf()))
      ensures !Routes(res.processor) && ReworkStores() !! NextStores() ==> unchanged(ReworkStores())
      ensures next != null && !Routes(res.processor) ==>
                && next.itemStore.items == old(next.itemStore.items) + items
                && next.itemStore.queueLengthHistory
                   == old(next.itemStore.queueLengthHistory) + Grown(now, |old(next.itemStore.items)|, |items|)
      ensures Routes(res.processor) && next == null ==>
                var store := manager.procCutting.itemStore;
                var defects := Flagged(items, old(DefectFlags(items)));
                && store.items == old(store.items) + defects
                && store.queueLengthHistory == old(store.queueLengthHistory) + Grown(now, |old(store.items)|, |defects|)
    {
      ConcludeBatch(res.processor, items, draws, now);
      ReleaseResources(res);
    }

    /** The part of `FinishHold` before the release: the special processing,
        then the completion and forwarding of every item. */
    method ConcludeBatch(processor: Processor, items: seq<Item>, draws: seq<bool>, now: nat)
      requires Distinct(items) && |draws| == |items|
      requires kind == InspectStage && processor.variant == WorkerInspect && manager == null ==>
                 forall k :: 0 <= k < |items| ==> !items[k].isDefect
      modifies items, this`completedItems, NextStores(), ReworkStores()
      ensures forall k :: 0 <= k < |items| ==>
                items[k].State()
                == Forwarded(Finished(Hooked(processor, old(items[k].State()), draws[k], now), name, now), NextName(), now)
      ensures completedItems == old(completedItems) + items
      ensures !Routes(processor) && ReworkStores() !! NextStores() ==> unchanged(ReworkStores())
      ensures next != null && !Routes(processor) ==>
                && next.itemStore.items == old(next.itemStore.items) + items
                && next.itemStore.queueLengthHistory
                   == old(next.itemStore.queueLengthHistory) + Grown(now, |old(next.itemStore.items)|, |items|)
      ensures Routes(processor) && next == null ==>
                var store := manager.procCutting.itemStore;
                var defects := Flagged(items, old(DefectFlags(items)));
                && store.items == old(store.items) + defects
                && store.queueLengthHistory == old(store.queueLengthHistory) + Grown(now, |old(store.items)|, |defects|)
    {
      if kind != PlainStage {
        var _ := ApplySpecialProcessing(processor, items, draws, now);
      }
      CompleteBatch(items, now);
    }

    /** `apply_special_processing`: the cutting stage draws each item's defect
        flag; the inspection stage, with an inspection worker, reroutes each
        defective item through the manager and completes the others; it
        reports that processing was done. */
    method ApplySpecialProcessing(processor: Processor, items: seq<Item>, draws: seq<bool>, now: nat)
      returns (done: bool)
      requires kind != PlainStage && Distinct(items) && |draws| == |items|
      requires kind == InspectStage && processor.variant == WorkerInspect && manager == null ==>
                 forall k :: 0 <= k < |items| ==> !items[k].isDefect
      modifies items, ReworkStores()
      ensures done
      ensures !Routes(processor) ==> unchanged(ReworkStores()) && unchanged(NextStores())
      ensures forall k :: 0 <= k < |items| ==> items[k].State() == Hooked(processor, old(items[k].State()), draws[k], now)
      ensures Routes(processor) ==>
                var store := manager.procCutting.itemStore;
                var defects := Flagged(items, old(DefectFlags(items)));
                && store.items == old(store.items) + defects
                && store.queueLengthHistory == old(store.queueLengthHistory) + Grown(now, |old(store.items)|, |defects|)
    {
      if kind == CuttingStage {
        CutAll(items, draws);
      } else if processor.variant == WorkerInspect {
        InspectAll(items, now);
      }
      return true;
    }

    /** The cutting stage's loop: each item's defect flag becomes its draw. */
    method CutAll(items: seq<Item>, draws: seq<bool>)
      requires Distinct(items) && |draws| == |items|
      modifies items
      ensures forall k :: 0 <= k < |items| ==> items[k].State() == Cut(old(items[k].State()), draws[k])
    {
      for i := 0 to |items|
        invariant forall k :: 0 <= k < i ==> items[k].State() == Cut(old(items[k].State()), draws[k])
        invariant forall k :: i <= k < |items| ==> items[k].State() == old(items[k].State())
      {
        items[i].isDefect := draws[i];
      }
    }

    /** The inspection stage's loop over a batch. */
    method InspectAll(items: seq<Item>, now: nat)
      requires kind == InspectStage && Distinct(items)
      requires manager == null ==> forall k :: 0 <= k < |items| ==> !items[k].isDefect
      modifies items, ReworkStores()
      ensures forall k :: 0 <= k < |items| ==> items[k].State() == Inspected(old(items[k].State()), ReworkName(), now)
      ensures manager != null ==>
                var store := manager.procCutting.itemStore;
                var defects := Flagged(items, old(DefectFlags(items)));
                && store.items == old(store.items) + defects
                && store.queueLengthHistory == old(store.queueLengthHistory) + Grown(now, |old(store.items)|, |defects|)
    {
      ghost var st0 := States(items);
      ghost var flags := DefectFlags(items);
      ghost var s0 := if manager != null then manager.procCutting.itemStore.items else [];
      ghost var h0 := if manager != null then manager.procCutting.itemStore.queueLengthHistory else [];
      ghost var reworkName := ReworkName();
      ghost var goal := seq(|items|, k requires 0 <= k < |items| => Inspected(st0[k], reworkName, now));
      assert items[..0] == [] && flags[..0] == [] && s0 + [] == s0 && h0 + [] == h0;
      for i := 0 to |items|
        invariant InspectedUpTo(items, st0, goal, flags, s0, h0, i, now)
      {
        InspectNext(items, st0, goal, flags, s0, h0, i, now);
      }
      assert items[..|items|] == items && flags[..|flags|] == flags;
    }

    /** The first `i` items of the batch are inspected, the defective ones
        among them are queued for rework, and the others are as they were. */
    ghost predicate InspectedUpTo(items: seq<Item>, st0: seq<ItemState>, goal: seq<ItemState>, flags: seq<bool>,
                                  s0: seq<Item>, h0: seq<(nat, nat)>, i: nat, now: nat)
      reads this, items, ReworkStores()
    {
      && |st0| == |items| == |flags| == |goal| && i <= |items|
      && (forall k :: 0 <= k < |items| ==> flags[k] == st0[k].isDefect)
      && (forall k :: 0 <= k < |items| ==> goal[k] == Inspected(st0[k], ReworkName(), now))
      && (forall k :: 0 <= k < i ==> items[k].State() == goal[k])
      && (forall k :: i <= k < |items| ==> items[k].State() == st0[k])
      && (kind == InspectStage && manager != null ==>
            && manager.procCutting.itemStore.items == s0 + Flagged(items[..i], flags[..i])
            && manager.procCutting.itemStore.queueLengthHistory
               == h0 + Grown(now, |s0|, |Flagged(items[..i], flags[..i])|))
    }

    /** The body of the inspection loop, for item `i`. */
    method InspectNext(items: seq<Item>, ghost st0: seq<ItemState>, ghost goal: seq<ItemState>, ghost flags: seq<bool>,
                       ghost s0: seq<Item>, ghost h0: seq<(nat, nat)>, i: nat, now: nat)
      requires kind == InspectStage && Distinct(items) && i < |items|
      requires InspectedUpTo(items, st0, goal, flags, s0, h0, i, now)
      requires manager == null ==> !flags[i]
      modifies items, ReworkStores()
      ensures InspectedUpTo(items, st0, goal, flags, s0, h0, i + 1, now)
    {
      ghost var before := Flagged(items[..i], flags[..i]);
      ghost var after := Flagged(items[..i + 1], flags[..i + 1]);
      FlaggedSnoc(items, flags, i);
      assert items[i].State() == st0[i] && flags[i] == items[i].isDefect;
      label pre:
      InspectOne(items[i], now);
      assert items[i].State() == goal[i];
      forall k | 0 <= k < |items| && k != i
        ensures items[k].State() == old@pre(items[k].State())
      {
        assert items[k] != items[i];
      }
      if manager != null {
        GrownSnoc(h0, now, |s0|, |before|);
        assert |after| == |before| + (if flags[i] then 1 else 0);
      }
    }

    /** One inspection: a defective item goes back to the cutting stage through
        the manager, any other item is marked completed. */
    method InspectOne(item: Item, now: nat)
      requires kind == InspectStage && (manager == null ==> !item.isDefect)
      modifies item, ReworkStores()
      ensures item.State() == Inspected(old(item.State()), ReworkName(), now)
      ensures manager != null && old(item.isDefect) ==>
                && manager.procCutting.itemStore.items == old(manager.procCutting.itemStore.items) + [item]
                && manager.procCutting.itemStore.queueLengthHistory
                   == old(manager.procCutting.itemStore.queueLengthHistory) + [(now, |manager.procCutting.itemStore.items|)]
      ensures manager != null && !old(item.isDefect) ==>
                && manager.procCutting.itemStore.items == old(manager.procCutting.itemStore.items)
                && manager.procCutting.itemStore.queueLengthHistory == old(manager.procCutting.itemStore.queueLengthHistory)
    {
      if item.isDefect {
        manager.AllocateItemForProcDefect(item, now);
      } else {
        item.isCompleted := true;
      }
    }

    /** The completion loop of `delay_resources`: each item's processing ends
        now and its open steps of this stage are closed, it joins the completed
        items and is sent to the next stage. */
    method CompleteBatch(items: seq<Item>, now: nat)
      requires Distinct(items)
      modifies items, this`completedItems, NextStores()
      ensures forall k :: 0 <= k < |items| ==>
                items[k].State() == Forwarded(Finished(old(items[k].State()), name, now), NextName(), now)
      ensures completedItems == old(completedItems) + items
      ensures next != null ==>
                && next.itemStore.items == old(next.itemStore.items) + items
                && next.itemStore.queueLengthHistory
                   == old(next.itemStore.queueLengthHistory) + Grown(now, |old(next.itemStore.items)|, |items|)
      ensures ReworkStores() !! NextStores() ==> unchanged(ReworkStores())
    {
      ghost var st0 := States(items);
      ghost var c0 := completedItems;
      ghost var s0 := if next != null then next.itemStore.items else [];
      ghost var h0 := if next != null then next.itemStore.queueLengthHistory else [];
      assert items[..0] == [] && c0 + [] == c0 && s0 + [] == s0 && h0 + [] == h0;
      for i := 0 to |items|
        invariant CompletedUpTo(items, st0, c0, s0, h0, i, now)
      {
        CompleteNext(items, st0, c0, s0, h0, i, now);
      }
      assert items[..|items|] == items;
    }

    /** The first `i` items of the batch are completed and sent on, and the
        others are as they were. */
    ghost predicate CompletedUpTo(items: seq<Item>, st0: seq<ItemState>, c0: seq<Item>, s0: seq<Item>,
                                  h0: seq<(nat, nat)>, i: nat, now: nat)
      reads this, items, NextStores()
    {
      && |st0| == |items| && i <= |items|
      && (forall k :: 0 <= k < i ==> items[k].State() == Forwarded(Finished(st0[k], name, now), NextName(), now))
      && (forall k :: i <= k < |items| ==> items[k].State() == st0[k])
      && completedItems == c0 + items[..i]
      && (next != null ==>
            && next.itemStore.items == s0 + items[..i]
            && next.itemStore.queueLengthHistory == h0 + Grown(now, |s0|, i))
    }

    /** The body of the completion loop, for item `i`. */
    method CompleteNext(items: seq<Item>, ghost st0: seq<ItemState>, ghost c0: seq<Item>, ghost s0: seq<Item>,
                        ghost h0: seq<(nat, nat)>, i: nat, now: nat)
      requires Distinct(items) && i < |items| && CompletedUpTo(items, st0, c0, s0, h0, i, now)
      modifies items, this`completedItems, NextStores()
      ensures CompletedUpTo(items, st0, c0, s0, h0, i + 1, now)
    {
      label before:
      CompleteOne(items[i], now);
      assert forall k :: 0 <= k < |items| && k != i ==> items[k].State() == old@before(items[k].State());
      assert items[..i + 1] == items[..i] + [items[i]];
      if next != null {
        GrownSnoc(h0, now, |s0|, i);
      }
    }

    /** One pass of the completion loop. */
    method CompleteOne(item: Item, now: nat)
      modifies item`timeProcessingEnd, item`processingHistory, item`timeWaitingStart, item`processSequence
      modifies item`waitingHistory, this`completedItems, NextStores()
      ensures item.State() == Forwarded(Finished(old(item.State()), name, now), NextName(), now)
      ensures completedItems == old(completedItems) + [item]
      ensures next != null ==>
                && next.itemStore.items == old(next.itemStore.items) + [item]
                && next.itemStore.queueLengthHistory
                   == old(next.itemStore.queueLengthHistory) + [(now, |next.itemStore.items|)]
    {
      item.timeProcessingEnd := Some(now);
      var closed := CloseOpenSteps(item.processingHistory, name, now);
      item.processingHistory := closed;
      completedItems := completedItems + [item];
      var _ := SendItemToNext(item, now);
    }

    /** `send_item_to_next`: enqueues the item into the next stage, if there is
        one, and reports whether there was. */
    method SendItemToNext(item: Item, now: nat) returns (sent: bool)
      modifies item`timeWaitingStart, item`processSequence, item`waitingHistory, NextStores()
      ensures sent <==> next != null
      ensures item.State() == Forwarded(old(item.State()), NextName(), now)
      ensures next != null ==>
                && next.itemStore.items == old(next.itemStore.items) + [item]
                && next.itemStore.queueLengthHistory
                   == old(next.itemStore.queueLengthHistory) + [(now, |next.itemStore.items|)]
    {
      if next != null {
        next.AddToQueue(item, now);
        return true;
      }
      return false;
    }

    /** `release_resources`: releases the request, then clears what the
        resource holds. */
    method ReleaseResources(res: ProcessorResource)
      modifies res, res.processor
      ensures res.SlotOf() == ReleaseSlot(old(res.SlotOf()))
      ensures res.OccupancyOf() == Cleared(res.processorType, old(res.OccupancyOf()))
    {
      res.Release();
      var _ := res.FinishItems();
    }
  }

  class Manager {
    const suppliersLot: seq<ItemSupplier>
    const suppliersPallet: seq<ItemSupplier>
    const suppliers: seq<ItemSupplier>
    const procTransportStc: Stage
    const procCutting: Stage
    const procTransportCti: Stage
    const procInspect: Stage
    var completedOrders: seq<Order>
    var processedOrders: seq<Order>
    var processedItems: seq<Item>

    /** The line `setup_processes` builds: supply-to-cutting transport, cutting,
        cutting-to-inspection transport, inspection, each feeding the next, the
        last with no successor and this manager as its router. */
    ghost predicate Wired()
      reads this, procTransportStc, procCutting, procTransportCti, procInspect
    {
      && procTransportStc.next == procCutting && procCutting.next == procTransportCti
      && procTransportCti.next == procInspect && procInspect.next == null
      && procInspect.manager == this
      && procTransportStc.name == "Proc_AMR_STC" && procTransportStc.kind == PlainStage
      && procCutting.name == "Proc_Cutting" && procCutting.kind == CuttingStage
      && procTransportCti.name == "Proc_AMR_CTI" && procTransportCti.kind == PlainStage
      && procInspect.name == "Proc_Inspect" && procInspect.kind == InspectStage
    }

    /** Three empty tracking lists, the LOT suppliers numbered from 1 followed
        by the PALLET suppliers numbered from 1, and the wired line. */
    constructor (cfg: Settings.Config)
      requires Settings.Buildable(cfg)
      ensures Wired()
      ensures completedOrders == [] && processedOrders == [] && processedItems == []
      ensures Supplies(suppliersLot, "LOT", cfg.numSupplierLot, cfg.lotInvenLevel)
      ensures Supplies(suppliersPallet, "PALLET", cfg.numSupplierPallet, cfg.palletInvenLevel)
      ensures suppliers == suppliersLot + suppliersPallet
      ensures procTransportStc.itemStore.items == [] && procCutting.itemStore.items == []
      ensures procTransportCti.itemStore.items == [] && procInspect.itemStore.items == []
      ensures fresh(procTransportStc) && fresh(procCutting) && fresh(procTransportCti) && fresh(procInspect)
      ensures fresh(procTransportStc.itemStore) && fresh(procCutting.itemStore)
      ensures fresh(procTransportCti.itemStore) && fresh(procInspect.itemStore)
      ensures Separate(Line())
      ensures Staffed(Line(), LineStaffing(cfg))
    {
      completedOrders := [];
      processedOrders := [];
      processedItems := [];
      var lot := MakeSuppliers("LOT", cfg.numSupplierLot, cfg.lotInvenLevel, cfg.palletInvenLevel);
      var pallet := MakeSuppliers("PALLET", cfg.numSupplierPallet, cfg.lotInvenLevel, cfg.palletInvenLevel);
      suppliersLot := lot;
      suppliersPallet := pallet;
      suppliers := lot + pallet;
      var stc, cutting, cti, inspect := CreateProcesses(cfg);
      procTransportStc, procCutting, procTransportCti, procInspect := stc, cutting, cti, inspect;
      new;
      RouteRework(Line(), LineStaffing(cfg), procInspect, this);
    }

    /** `receive_order`: stamps the order's start, records the order and its
        items, and enqueues the items into the first transport stage. */
    method ReceiveOrder(order: Order, now: nat) returns (r: Order)
      requires Wired() && order.Valid()
      modifies order`timeStart, this`processedItems, this`processedOrders, order.listItems, procTransportStc.itemStore
      ensures r == order && order.timeStart == Some(now)
      ensures processedItems == old(processedItems) + order.listItems
      ensures processedOrders == old(processedOrders) + [order]
      ensures forall k :: 0 <= k < |order.listItems| ==>
                order.listItems[k].State() == Enqueued(old(order.listItems[k].State()), "Proc_AMR_STC", now)
      ensures procTransportStc.itemStore.items == old(procTransportStc.itemStore.items) + order.listItems
      ensures procTransportStc.itemStore.queueLengthHistory
                == old(procTransportStc.itemStore.queueLengthHistory)
                   + Grown(now, |old(procTransportStc.itemStore.items)|, |order.listItems|)
    {
      order.timeStart := Some(now);
      processedItems := processedItems + order.listItems;
      processedOrders := processedOrders + [order];
      AllocateItemsForProcTransportStc(order.listItems, now);
      return order;
    }

    /** `allocate_items_for_proc_transport_stc`: the order's items, in order,
        into the first transport stage's queue. */
    method AllocateItemsForProcTransportStc(items: seq<Item>, now: nat)
      requires Distinct(items)
      modifies items, procTransportStc.itemStore
      ensures forall k :: 0 <= k < |items| ==>
                items[k].State() == Enqueued(old(items[k].State()), procTransportStc.name, now)
      ensures procTransportStc.itemStore.items == old(procTransportStc.itemStore.items) + items
      ensures procTransportStc.itemStore.queueLengthHistory
                == old(procTransportStc.itemStore.queueLengthHistory)
                   + Grown(now, |old(procTransportStc.itemStore.items)|, |items|)
    {
      var store := procTransportStc.itemStore;
      ghost var s0 := store.items;
      ghost var h0 := store.queueLengthHistory;
      for i := 0 to |items|
        invariant forall k :: 0 <= k < i ==> items[k].State() == Enqueued(old(items[k].State()), procTransportStc.name, now)
        invariant forall k :: i <= k < |items| ==> items[k].State() == old(items[k].State())
        invariant store.items == s0 + items[..i]
        invariant store.queueLengthHistory == h0 + Grown(now, |s0|, i)
      {
        procTransportStc.AddToQueue(items[i], now);
        assert items[..i + 1] == items[..i] + [items[i]];
        GrownSnoc(h0, now, |s0|, i);
      }
      assert items[..|items|] == items;
    }

    /** `allocate_item_for_proc_defect`: marks the item for rework and enqueues
        it into the cutting stage. */
    method AllocateItemForProcDefect(item: Item, now: nat)
      modifies item`isReprocess, item`timeWaitingStart, item`processSequence, item`waitingHistory, procCutting.itemStore
      ensures item.State() == Enqueued(old(item.State()).(isReprocess := true), procCutting.name, now)
      ensures procCutting.itemStore.items == old(procCutting.itemStore.items) + [item]
      ensures procCutting.itemStore.queueLengthHistory
                == old(procCutting.itemStore.queueLengthHistory) + [(now, |procCutting.itemStore.items|)]
    {
      item.isReprocess := true;
      procCutting.AddToQueue(item, now);
    }

    /** The four stages in line order. */
    function Line(): seq<Stage> {
      [procTransportStc, procCutting, procTransportCti, procInspect]
    }

    /** `get_processes`: the cutting and inspection stages by their keys. */
    function GetProcesses(): (m: map<string, Stage>)
      reads this
      ensures m.Keys == {"cutting", "inspect"}
      ensures m["cutting"] == procCutting && m["inspect"] == procInspect
    {
      map["cutting" := procCutting, "inspect" := procInspect]
    }
  }

  /** `setup_processes` up to the manager: the four stages, each with its
      registered processors (see the stage constructors) and an empty queue of
      its own, connected in line order, with no manager at inspection yet. */
  method CreateProcesses(cfg: Settings.Config) returns (stc: Stage, cutting: Stage, cti: Stage, inspect: Stage)
    requires Settings.Buildable(cfg)
    ensures fresh(stc) && fresh(cutting) && fresh(cti) && fresh(inspect)
    ensures stc.name == "Proc_AMR_STC" && stc.kind == PlainStage
    ensures cutting.name == "Proc_Cutting" && cutting.kind == CuttingStage
    ensures cti.name == "Proc_AMR_CTI" && cti.kind == PlainStage
    ensures inspect.name == "Proc_Inspect" && inspect.kind == InspectStage
    ensures stc.next == cutting && cutting.next == cti && cti.next == inspect && inspect.next == null
    ensures inspect.manager == null
    ensures fresh(stc.itemStore) && fresh(cutting.itemStore) && fresh(cti.itemStore) && fresh(inspect.itemStore)
    ensures stc.itemStore.items == [] && cutting.itemStore.items == []
    ensures cti.itemStore.items == [] && inspect.itemStore.items == []
    ensures Separate([stc, cutting, cti, inspect])
    ensures Staffed([stc, cutting, cti, inspect], LineStaffing(cfg))
  {
    ghost var line, plan;
    stc, cutting, cti, inspect, line, plan := BuildLine(cfg);
    ConnectLine(stc, cutting, cti, inspect, line, plan);
  }

  /** The four stages of `setup_processes`, each with its registered processors
      (see the stage constructors) and an empty queue of its own, before they
      are connected. */
  method BuildLine(cfg: Settings.Config)
    returns (stc: Stage, cutting: Stage, cti: Stage, inspect: Stage, ghost line: seq<Stage>, ghost plan: seq<Staffing>)
    requires Settings.Buildable(cfg)
    ensures fresh(stc) && fresh(cutting) && fresh(cti) && fresh(inspect)
    ensures stc.name == "Proc_AMR_STC" && stc.kind == PlainStage
    ensures cutting.name == "Proc_Cutting" && cutting.kind == CuttingStage
    ensures cti.name == "Proc_AMR_CTI" && cti.kind == PlainStage
    ensures inspect.name == "Proc_Inspect" && inspect.kind == InspectStage
    ensures inspect.next == null && inspect.manager == null
    ensures fresh(stc.itemStore) && fresh(cutting.itemStore) && fresh(cti.itemStore) && fresh(inspect.itemStore)
    ensures stc.itemStore.items == [] && cutting.itemStore.items == []
    ensures cti.itemStore.items == [] && inspect.itemStore.items == []
    ensures line == [stc, cutting, cti, inspect] && Separate(line)
    ensures plan == LineStaffing(cfg) && Staffed(line, plan)
  {
    line, plan := [], [];
    stc, line, plan := AddStage(cfg, 0, line, plan);
    cutting, line, plan := AddStage(cfg, 1, line, plan);
    cti, line, plan := AddStage(cfg, 2, line, plan);
    inspect, line, plan := AddStage(cfg, 3, line, plan);
    Spelled(line, stc, cutting, cti, inspect);
    Spelled(plan, LineStaffing(cfg)[0], LineStaffing(cfg)[1], LineStaffing(cfg)[2], LineStaffing(cfg)[3]);
    LineStaffingSpelled(cfg);
  }

  /** Stage `k` of `setup_processes`, built by its constructor behind a staffed
      line, which it extends by its own staffing. */
  method AddStage(cfg: Settings.Config, k: nat, ghost line: seq<Stage>, ghost plan: seq<Staffing>)
    returns (s: Stage, ghost line': seq<Stage>, ghost plan': seq<Staffing>)
    requires Settings.Buildable(cfg) && k < 4 && Separate(line) && Staffed(line, plan)
    ensures fresh(s) && fresh(s.itemStore) && s.itemStore.items == []
    ensures s.next == null && s.manager == null
    ensures k == 0 ==> s.name == "Proc_AMR_STC" && s.kind == PlainStage
    ensures k == 1 ==> s.name == "Proc_Cutting" && s.kind == CuttingStage
    ensures k == 2 ==> s.name == "Proc_AMR_CTI" && s.kind == PlainStage
    ensures k == 3 ==> s.name == "Proc_Inspect" && s.kind == InspectStage
    ensures line' == line + [s] && plan' == plan + [LineStaffing(cfg)[k]]
    ensures Separate(line') && Staffed(line', plan')
  {
    var p := LineStaffing(cfg)[k];
    if k == 0 {
      s := new Stage.AmrStc(cfg);
      StaffedSnoc(line, plan, s, p);
    } else if k == 1 {
      s := new Stage.Cutting(cfg);
      StaffedSnoc(line, plan, s, p);
    } else if k == 2 {
      s := new Stage.AmrCti(cfg);
      StaffedSnoc(line, plan, s, p);
    } else {
      s := new Stage.Inspect(null, cfg);
      StaffedSnoc(line, plan, s, p);
    }
    line', plan' := line + [s], plan + [p];
  }

  /** `connect_to_next_process` along four different stages: each hands on
      to the next, and a staffed line stays staffed. */
  method ConnectLine(stc: Stage, cutting: Stage, cti: Stage, inspect: Stage, ghost line: seq<Stage>, ghost plan: seq<Staffing>)
    requires stc != cutting && stc != cti && stc != inspect
    requires cutting != cti && cutting != inspect && cti != inspect
    requires inspect.next == null && Staffed(line, plan)
    modifies stc`next, cutting`next, cti`next
    ensures stc.next == cutting && cutting.next == cti && cti.next == inspect && inspect.next == null
    ensures Staffed(line, plan)
  {
    stc.ConnectToNextProcess(cutting);
    cutting.ConnectToNextProcess(cti);
    cti.ConnectToNextProcess(inspect);
  }

  /** `Proc_Inspect(env, manager)`: the inspection stage of a staffed line
      routes rework through `manager`, and the line stays staffed. */
  method RouteRework(ghost line: seq<Stage>, ghost plan: seq<Staffing>, inspect: Stage, manager: Manager)
    requires Staffed(line, plan)
    modifies inspect`manager
    ensures inspect.manager == manager && Staffed(line, plan)
  {
    inspect.manager := manager;
  }

  /** Four elements appended one by one to the empty sequence form the display of the four. */
  lemma Spelled<T>(s: seq<T>, a: T, b: T, c: T, d: T)
    requires s == [] + [a] + [b] + [c] + [d]
    ensures s == [a, b, c, d]
  {
  }

  /** The staffing of the line, element by element. */
  lemma LineStaffingSpelled(cfg: Settings.Config)
    ensures LineStaffing(cfg) == [LineStaffing(cfg)[0], LineStaffing(cfg)[1], LineStaffing(cfg)[2], LineStaffing(cfg)[3]]
  {
  }

  /** Stages with different queues, and hence different stages. */
  predicate Separate(line: seq<Stage>) {
    forall i, j :: 0 <= i < j < |line| ==> line[i].itemStore != line[j].itemStore
  }

  /** What a specialised stage's constructor registers: the type, variant and
      name prefix of its processors, how many there are, their processing time
      and their item capacity. */
  datatype Staffing = Staffing(kind: Kind, variant: Variant, prefix: string, count: nat, procTime: nat, capacity: nat)

  /** The staffing of the four stages of `setup_processes`, in line order. */
  function LineStaffing(cfg: Settings.Config): seq<Staffing> {
    [ Staffing(AMR, MachAmr1, "STC_AMR_LOT", cfg.numStcMachinesAmr, cfg.stcProcTimeTransit, cfg.capacityMachineAmr),
      Staffing(Machine, MachCnc, "CNC_", cfg.numMachinesCnc, cfg.procTimeCutting, cfg.capacityMachineCutting),
      Staffing(AMR, MachAmr2, "CTI_AMR_", cfg.numCtiMachinesAmr, cfg.ctiProcTimeTransit, cfg.capacityMachineAmr),
      Staffing(Worker, WorkerInspect, "Inspector_", cfg.numWorkersInInspect, cfg.procTimeInspect, 0) ]
  }

  /** Each stage holds the processors its staffing asks for, and is ready to run. */
  ghost predicate Staffed(stages: seq<Stage>, plan: seq<Staffing>)
    reads stages`listProcessors, stages`resourceKeys, stages`processorResources
    reads set i, r | 0 <= i < |stages| && r in stages[i].processorResources.Values :: r
    decreases |stages|
  {
    && |stages| == |plan|
    && (|stages| > 0 ==> stages[0].Staffs(plan[0]) && Staffed(stages[1..], plan[1..]))
  }

  /** A stage ready for its staffing behind a staffed line. */
  lemma {:induction false} StaffedSnoc(stages: seq<Stage>, plan: seq<Staffing>, s: Stage, p: Staffing)
    requires Staffed(stages, plan) && s.Staffs(p)
    ensures Staffed(stages + [s], plan + [p])
    decreases |stages|
  {
    if |stages| > 0 {
      StaffedSnoc(stages[1..], plan[1..], s, p);
      assert (stages + [s])[1..] == stages[1..] + [s];
      assert (plan + [p])[1..] == plan[1..] + [p];
    }
  }

  /** Every stage of a staffed line is ready for its own staffing. */
  lemma {:induction false} StaffedAt(stages: seq<Stage>, plan: seq<Staffing>, i: nat)
    requires Staffed(stages, plan) && i < |stages|
    ensures stages[i].Staffs(plan[i])
    decreases i
  {
    if i > 0 {
      StaffedAt(stages[1..], plan[1..], i - 1);
    }
  }

  /** `n` suppliers of one type, numbered 1 to `n`, each stocked at `level`. */
  predicate Supplies(ss: seq<ItemSupplier>, supplyType: string, n: nat, level: nat)
  {
    && |ss| == n
    && forall i :: 0 <= i < n ==>
         ss[i].supplyType == supplyType && ss[i].supplierId == i + 1
         && ss[i].capacity == level && ss[i].tokens == level
  }

  /** The list comprehension of the manager's constructor for one supply type. */
  method MakeSuppliers(supplyType: string, n: nat, lotLevel: nat, palletLevel: nat) returns (ss: seq<ItemSupplier>)
    requires supplyType == "LOT" || supplyType == "PALLET"
    ensures Supplies(ss, supplyType, n, if supplyType == "LOT" then lotLevel else palletLevel)
    ensures forall i :: 0 <= i < n ==> fresh(ss[i])
  {
    UpperFixed();
    ss := [];
    for idx := 0 to n
      invariant Supplies(ss, supplyType, idx, if supplyType == "LOT" then lotLevel else palletLevel)
      invariant forall i :: 0 <= i < idx ==> fresh(ss[i])
    {
      var r := NewItemSupplier(supplyType, idx + 1, lotLevel, palletLevel);
      ss := ss + [r.value];
    }
  }

  /** The two supply types are already upper case. */
  lemma UpperFixed()
    ensures Text.Upper("LOT") == "LOT" && Text.Upper("PALLET") == "PALLET"
  {
    assert Text.Upper("LOT") == ['L'] + Text.Upper("OT");
    assert Text.Upper("PALLET") == ['P'] + Text.Upper("ALLET");
  }

  /** The states of a batch's items, in order. */
  function States(items: seq<Item>): (st: seq<ItemState>)
    reads items
    ensures |st| == |items| && forall k :: 0 <= k < |items| ==> st[k] == items[k].State()
  {
    seq(|items|, k requires 0 <= k < |items| reads items => items[k].State())
  }

  /** A history grown by one more enqueue. */
  lemma GrownSnoc(h: seq<(nat, nat)>, now: nat, length: nat, i: nat)
    ensures (h + Grown(now, length, i)) + [(now, length + i + 1)] == h + Grown(now, length, i + 1)
  {
    ConcatAssoc(h, Grown(now, length, i), [(now, length + i + 1)]);
  }
}
