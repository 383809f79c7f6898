/** Every step of a consumer keeps the invariant of its sub-queue. */
module QueueConsumers {
  import opened Pointers
  import opened Modular
  import opened Queue
  import opened QueueInvariant
  import Tickets
  import TicketsProof
  import Index = BlockIndex

  // ---------------------------------------------------------------------------------------------
  // What a consumer's step leaves alone
  // ---------------------------------------------------------------------------------------------

  /** Only consumer `i` moves; nothing of the producer's changes. */
  ghost predicate OnlyConsumer<T>(s: State<T>, t: State<T>, i: nat) {
    && Shape(s) && Shape(t) && i < |s.consumers| == |t.consumers|
    && t.consumers == s.consumers[i := t.consumers[i]]
    && t.index.readers == s.index.readers[i := t.index.readers[i]]
    && t.tickets.pcs == s.tickets.pcs[i := t.tickets.pcs[i]]
    && t.tickets.tail == s.tickets.tail && s.tickets.head <= t.tickets.head
    && t.index.blocks == s.index.blocks && t.index.producer == s.index.producer
    && t.blockSize == s.blockSize && t.limit == s.limit && t.leeway == s.leeway
    && t.producer == s.producer && t.items == s.items
    && |t.memory| == |s.memory|
  }

  lemma PendingApart<T>(s: State<T>, counted: set<nat>, i: nat, j: nat, x: nat)
    requires Facts(s) && ConsumersOk(s, counted) && i < |s.consumers| && j < |s.consumers| && i != j
    requires Pending(s, i, x)
    ensures !Pending(s, j, x)
    ensures x < s.tickets.head
  {
    assert ClaimOk(s, counted, i) && ClaimOk(s, counted, j);
    assert InStep(s, i) && InStep(s, j);
    assert if i < j then TicketsProof.Apart(s.tickets.pcs[i], s.tickets.pcs[j])
           else TicketsProof.Apart(s.tickets.pcs[j], s.tickets.pcs[i]);
  }

  lemma OtherClaimKeeps<T>(s: State<T>, t: State<T>, counted: set<nat>, counted': set<nat>, i: nat, j: nat)
    requires OnlyConsumer(s, t, i) && j < |s.consumers| && j != i && ClaimOk(s, counted, j)
    requires forall x: nat :: Pending(s, j, x) ==> x !in counted' && (x in t.got ==> x in s.got)
    requires forall x: nat :: x in s.got ==> x in t.got
    requires InStep(s, j)
    ensures ClaimOk(t, counted', j)
  {
    assert t.consumers[j] == s.consumers[j] && t.tickets.pcs[j] == s.tickets.pcs[j];
    assert forall x: nat :: Pending(t, j, x) <==> Pending(s, j, x);
  }

  lemma OthersKeep<T>(s: State<T>, t: State<T>, counted: set<nat>, counted': set<nat>, i: nat, j: nat)
    requires Facts(s) && ConsumersOk(s, counted) && OnlyConsumer(s, t, i) && j < |s.consumers| && j != i
    requires forall x: nat :: x in counted' && x !in counted ==> Pending(s, i, x)
    requires forall x: nat :: x in t.got && x !in s.got ==> Pending(s, i, x)
    requires forall x: nat :: x in s.got ==> x in t.got
    requires s.index.readers[j].Got? && Live(s, s.index.readers[j].q) ==> Live(t, s.index.readers[j].q)
    ensures InStep(t, j) && ClaimOk(t, counted', j)
  {
    assert InStep(s, j) && ClaimOk(s, counted, j);
    forall x: nat | Pending(s, j, x) ensures x !in counted' && (x in t.got ==> x in s.got) {
      PendingApart(s, counted, j, i, x);
    }
    OtherClaimKeeps(s, t, counted, counted', i, j);
  }

  lemma ConsumersKeep<T>(s: State<T>, t: State<T>, counted: set<nat>, counted': set<nat>, i: nat)
    requires Facts(s) && ConsumersOk(s, counted) && OnlyConsumer(s, t, i)
    requires forall x: nat :: x in counted' && x !in counted ==> Pending(s, i, x)
    requires forall x: nat :: x in t.got && x !in s.got ==> Pending(s, i, x)
    requires forall x: nat :: x in s.got ==> x in t.got
    requires forall j :: 0 <= j < |s.consumers| && j != i && s.index.readers[j].Got? && Live(s, s.index.readers[j].q) ==>
               Live(t, s.index.readers[j].q)
    requires InStep(t, i) && ClaimOk(t, counted', i)
    requires forall j, q: nat :: 0 <= j < |s.consumers| && j != i && Nulls(t, i, q) ==> !Nulls(s, j, q)
    ensures ConsumersOk(t, counted')
  {
    forall j | 0 <= j < |t.consumers| ensures InStep(t, j) && ClaimOk(t, counted', j) {
      if j != i { OthersKeep(s, t, counted, counted', i, j); }
    }
    forall j, k, q: nat | 0 <= j < k < |t.consumers| && Nulls(t, j, q) ensures !Nulls(t, k, q) {
      assert j != i ==> Nulls(s, j, q);
      assert k != i && Nulls(t, k, q) ==> Nulls(s, k, q);
    }
  }

  lemma DeliveredKeep<T>(s: State<T>, t: State<T>, counted: set<nat>, counted': set<nat>, i: nat)
    requires OnlyConsumer(s, t, i) && DeliveredOk(s, counted)
    requires forall x: nat :: Pending(s, i, x) ==> x in counted' || Pending(t, i, x)
    requires forall x: nat :: s.tickets.head <= x < t.tickets.head ==> Pending(t, i, x)
    requires forall x: nat :: x in t.got ==>
               (x in s.got && t.got[x] == s.got[x]) || (x < t.tickets.head && x < |s.items| && t.got[x] == s.items[x])
    requires counted <= counted' && forall x :: x in counted' ==> x in t.got
    ensures DeliveredOk(t, counted')
  {
    forall x: nat | x < t.tickets.head
      ensures x in counted' || exists j :: 0 <= j < |t.consumers| && Pending(t, j, x)
    {
      if x < s.tickets.head {
        if x !in counted {
          var j :| 0 <= j < |s.consumers| && Pending(s, j, x);
          if j != i { assert Pending(t, j, x); }
        }
      } else {
        assert Pending(t, i, x);
      }
    }
  }

  /** A consumer's step that touches no block and keeps every block's standing. */
  ghost predicate Quiet<T>(s: State<T>, t: State<T>, i: nat) {
    && OnlyConsumer(s, t, i)
    && t.got == s.got && t.memory == s.memory && t.owned == s.owned && t.index.retired == s.index.retired
    && !s.consumers[i].Nulling? && !t.consumers[i].Nulling?
    && !s.consumers[i].Freeing? && !t.consumers[i].Freeing?
  }

  lemma QuietFrame<T>(s: State<T>, t: State<T>, counted: set<nat>, i: nat)
    requires Quiet(s, t, i)
    requires CountersOk(s, counted) && ItemsOk(s) && OwnedOk(s) && ProducerOk(s)
    ensures CountersOk(t, counted) && ItemsOk(t) && OwnedOk(t) && ProducerOk(t)
  {
    assert forall c :: BlockOfReason(t, c) == BlockOfReason(s, c);
    CountersFrame(s, t, counted);
    ItemsFrame(s, t);
  }

  lemma QuietKeeps<T>(s: State<T>, t: State<T>, counted: set<nat>, i: nat)
    requires Facts(s) && LinkWith(s, counted) && Quiet(s, t, i)
    requires InStep(t, i) && ClaimOk(t, counted, i)
    requires forall x: nat :: Pending(s, i, x) ==> Pending(t, i, x)
    requires forall x: nat :: s.tickets.head <= x < t.tickets.head ==> Pending(t, i, x)
    ensures Link(t)
  {
    ConsumersKeep(s, t, counted, counted, i);
    DeliveredKeep(s, t, counted, counted, i);
    QuietFrame(s, t, counted, i);
    assert LinkWith(t, counted);
  }

  // ---------------------------------------------------------------------------------------------
  // Consumers: counters and lookups
  // ---------------------------------------------------------------------------------------------

  lemma TicketStepKeeps<T>(s: State<T>, t: State<T>, counted: set<nat>, i: nat, max: nat)
    requires Facts(s) && LinkWith(s, counted) && ConsumerEnabled(s, i, max)
    requires s.consumers[i].Out? && !(s.tickets.pcs[i].Deliver? && s.tickets.pcs[i].count > 0)
    requires t == ConsumerAfter(s, i, max)
    ensures Link(t)
  {
    assert InStep(s, i) && ClaimOk(s, counted, i);
    TicketEffect(s.tickets, t.tickets, i, max);
    QuietKeeps(s, t, counted, i);
  }

  lemma TicketEffect(s: Tickets.State, t: Tickets.State, i: nat, max: nat)
    requires i < |s.pcs| && t == Tickets.After(s, i, max)
    ensures t.pcs == s.pcs[i := t.pcs[i]] && t.tail == s.tail
    ensures if t.pcs[i].Deliver? then s.pcs[i].Claim? && t.pcs[i] == Tickets.Deliver(s.head, t.head - s.head)
            else t.head == s.head
  {
  }

  lemma LastBlock(first: nat, count: nat, b: nat)
    requires b > 0 && count > 0
    ensures Home(first + count - 1, b) == (first + count - 1) / b && Home(first, b) == first / b
    ensures Home(first, b) <= Home(first + count - 1, b)
  {
    HomeIsQuotient(first, b);
    HomeIsQuotient(first + count - 1, b);
    HomeMonotone(first, first + count - 1, b);
  }

  lemma BeginKeeps<T>(s: State<T>, t: State<T>, counted: set<nat>, i: nat, max: nat)
    requires Facts(s) && LinkWith(s, counted) && ConsumerEnabled(s, i, max)
    requires s.consumers[i].Out? && s.tickets.pcs[i].Deliver? && s.tickets.pcs[i].count > 0
    requires t == ConsumerAfter(s, i, max)
    ensures Link(t)
  {
    assert InStep(s, i) && ClaimOk(s, counted, i);
    LastBlock(s.tickets.pcs[i].first, s.tickets.pcs[i].count, s.blockSize);
    forall y: nat | s.tickets.pcs[i].first <= y < s.tickets.pcs[i].first + s.tickets.pcs[i].count
      ensures y !in t.got { assert Pending(s, i, y); }
    QuietKeeps(s, t, counted, i);
  }

  lemma SeekEffect<T>(s: State<T>, t: State<T>, counted: set<nat>, i: nat, max: nat)
    requires ConsumerEnabled(s, i, max) && InStep(s, i) && ClaimOk(s, counted, i)
    requires s.consumers[i].Seek? && !s.index.readers[i].Got? && s.consumers[i].x < s.consumers[i].end
    requires t == ConsumerAfter(s, i, max)
    ensures Quiet(s, t, i) && InStep(t, i) && ClaimOk(t, counted, i)
    ensures t.tickets == s.tickets && t.consumers == s.consumers
  {
  }

  /** A load on the way to a block, or going on to the next slot. */
  lemma SeekKeeps<T>(s: State<T>, t: State<T>, counted: set<nat>, i: nat, max: nat)
    requires Facts(s) && LinkWith(s, counted) && ConsumerEnabled(s, i, max)
    requires s.consumers[i].Seek? && !s.index.readers[i].Got? && s.consumers[i].x < s.consumers[i].end
    requires t == ConsumerAfter(s, i, max)
    ensures Link(t)
  {
    assert InStep(s, i) && ClaimOk(s, counted, i);
    SeekEffect(s, t, counted, i, max);
    QuietKeeps(s, t, counted, i);
  }

  lemma FinishKeeps<T>(s: State<T>, t: State<T>, counted: set<nat>, i: nat, max: nat)
    requires Facts(s) && LinkWith(s, counted) && ConsumerEnabled(s, i, max)
    requires s.consumers[i].Seek? && !s.index.readers[i].Got? && s.consumers[i].x >= s.consumers[i].end
    requires t == ConsumerAfter(s, i, max)
    ensures Link(t)
  {
    assert InStep(s, i) && ClaimOk(s, counted, i);
    QuietKeeps(s, t, counted, i);
  }

  /** The block of an index that is still pending has not retired. */
  lemma PendingIsLive<T>(s: State<T>, counted: set<nat>, i: nat, x: nat)
    requires Facts(s) && LinkWith(s, counted) && i < |s.consumers| && Pending(s, i, x)
    ensures Home(x, s.blockSize) < |s.index.blocks| && Live(s, Home(x, s.blockSize))
  {
    assert ClaimOk(s, counted, i) && InStep(s, i);
    HomeBelowCeiling(x, |s.items|, s.blockSize);
    assert x < s.tickets.head by { if i < |s.consumers| { PendingBelowHead(s, counted, i, x); } }
  }

  lemma PendingBelowHead<T>(s: State<T>, counted: set<nat>, i: nat, x: nat)
    requires Facts(s) && ConsumersOk(s, counted) && i < |s.consumers| && Pending(s, i, x)
    ensures x < s.tickets.head
  {
    assert ClaimOk(s, counted, i) && InStep(s, i);
  }

  lemma StopInBounds(x: nat, end: nat, b: nat)
    requires b > 0 && x < end
    ensures var stop := StopIn(x, end, b);
            && x < stop <= end
            && (forall y: nat :: x <= y < stop ==> Home(y, b) == Home(x, b))
            && Resumes(stop, end, Home(x, b), Home(end - 1, b), b)
  {
    HomeOfNext(x, b);
    var stop := StopIn(x, end, b);
    if stop < end { HomeMonotone(stop, end - 1, b); }
  }

  lemma EnterEffect<T>(s: State<T>, t: State<T>, counted: set<nat>, i: nat, max: nat)
    requires ConsumerEnabled(s, i, max) && InStep(s, i) && ClaimOk(s, counted, i)
    requires s.consumers[i].Seek? && s.index.readers[i].Got?
    requires var r := s.index.readers[i]; r.q < |s.index.blocks| && r.value == At(s.index.blocks[r.q]) && Live(s, r.q)
    requires t == ConsumerAfter(s, i, max)
    ensures Quiet(s, t, i) && InStep(t, i) && ClaimOk(t, counted, i)
    ensures t.tickets == s.tickets && forall x: nat :: Pending(s, i, x) ==> Pending(t, i, x)
  {
    var Seek(x, end) := s.consumers[i];
    StopInBounds(x, end, s.blockSize);
  }

  lemma EnterKeeps<T>(s: State<T>, t: State<T>, counted: set<nat>, i: nat, max: nat)
    requires Facts(s) && LinkWith(s, counted) && ConsumerEnabled(s, i, max)
    requires s.consumers[i].Seek? && s.index.readers[i].Got?
    requires t == ConsumerAfter(s, i, max)
    ensures Link(t)
  {
    assert InStep(s, i) && ClaimOk(s, counted, i);
    assert Pending(s, i, s.consumers[i].x);
    PendingIsLive(s, counted, i, s.consumers[i].x);
    EnterEffect(s, t, counted, i, max);
    QuietKeeps(s, t, counted, i);
  }

  // ---------------------------------------------------------------------------------------------
  // Consumers: moving items out
  // ---------------------------------------------------------------------------------------------

  /** Consumer `i` has moved item `x` of block `q` out. */
  ghost predicate MovedOut<T>(s: State<T>, t: State<T>, i: nat, q: nat, x: nat)
    requires Shape(s)
  {
    && OnlyConsumer(s, t, i) && t.index == s.index && t.tickets == s.tickets && t.owned == s.owned
    && s.consumers[i].Move? && t.consumers[i].Move?
    && Live(s, q) && BlockFor(s, q) < |s.memory| && Home(x, s.blockSize) == q && x < |s.items|
    && (var b := BlockFor(s, q);
        t.memory == s.memory[b := s.memory[b].(slots := s.memory[b].slots[x % s.blockSize := Vacant])])
    && t.got == s.got[x := s.items[x]]
  }

  lemma StillHeld<T>(s: State<T>, t: State<T>, i: nat, q: nat, x: nat, y: nat, item: T)
    requires Shape(s) && MovedOut(s, t, i, q, x) && OwnedOk(s) && HeldAt(s, y, item) && y != x
    ensures HeldAt(t, y, item)
  {
    var p := Home(y, s.blockSize);
    if BlockFor(s, p) == BlockFor(s, q) {
      BlocksDiffer(s, p, q);
      HomeSlotsDiffer(x, y, s.blockSize);
    }
  }

  lemma MovedKeepsItems<T>(s: State<T>, t: State<T>, i: nat, q: nat, x: nat)
    requires Shape(s) && MovedOut(s, t, i, q, x) && OwnedOk(s) && ItemsOk(s)
    ensures ItemsOk(t)
  {
    forall y: nat | y < |t.items| && y !in t.got ensures HeldAt(t, y, t.items[y]) {
      StillHeld(s, t, i, q, x, y, s.items[y]);
    }
    if t.producer.Write? {
      forall k | 0 <= k < t.producer.k && k < |t.producer.xs| ensures HeldAt(t, |t.items| + k, t.producer.xs[k]) {
        StillHeld(s, t, i, q, x, |s.items| + k, s.producer.xs[k]);
      }
    }
  }

  lemma MovedFrame<T>(s: State<T>, t: State<T>, counted: set<nat>, i: nat, q: nat, x: nat)
    requires Shape(s) && MovedOut(s, t, i, q, x) && OwnedOk(s) && CountersOk(s, counted) && ProducerOk(s)
    ensures OwnedOk(t) && CountersOk(t, counted) && ProducerOk(t)
  {
    assert forall c :: BlockOfReason(t, c) == BlockOfReason(s, c);
    CountersFrame(s, t, counted);
  }

  lemma MoveEffect<T>(s: State<T>, t: State<T>, i: nat, max: nat)
    requires ConsumerEnabled(s, i, max) && InStep(s, i)
    requires s.consumers[i].Move? && s.consumers[i].x < s.consumers[i].stop
    requires s.consumers[i].x < |s.items| && HeldAt(s, s.consumers[i].x, s.items[s.consumers[i].x])
    requires t == ConsumerAfter(s, i, max)
    ensures MovedOut(s, t, i, s.index.readers[i].q, s.consumers[i].x)
    ensures var Move(b, start, x, stop, end) := s.consumers[i]; t.consumers[i] == Move(b, start, x + 1, stop, end)
  {
    var Move(_, start, _, _, end) := s.consumers[i];
    StopInBounds(start, end, s.blockSize);
  }

  lemma MoveClaim<T>(s: State<T>, t: State<T>, counted: set<nat>, i: nat)
    requires OnlyConsumer(s, t, i) && InStep(s, i) && ClaimOk(s, counted, i)
    requires t.index == s.index && t.tickets == s.tickets
    requires s.consumers[i].Move? && s.consumers[i].x < s.consumers[i].stop
    requires var Move(b, start, x, stop, end) := s.consumers[i]; t.consumers[i] == Move(b, start, x + 1, stop, end)
    requires t.got.Keys == s.got.Keys + {s.consumers[i].x}
    ensures InStep(t, i) && ClaimOk(t, counted, i)
    ensures forall x: nat :: Pending(s, i, x) <==> Pending(t, i, x)
  {
  }

  lemma MovedKeeps<T>(s: State<T>, t: State<T>, counted: set<nat>, i: nat, q: nat, x: nat)
    requires Facts(s) && LinkWith(s, counted) && MovedOut(s, t, i, q, x) && Pending(s, i, x) && x < s.tickets.head
    requires InStep(t, i) && ClaimOk(t, counted, i)
    requires forall x: nat :: Pending(s, i, x) <==> Pending(t, i, x)
    ensures Link(t)
  {
    ConsumersKeep(s, t, counted, counted, i);
    DeliveredKeep(s, t, counted, counted, i);
    MovedKeepsItems(s, t, i, q, x);
    MovedFrame(s, t, counted, i, q, x);
    assert LinkWith(t, counted);
  }

  lemma MoveKeeps<T>(s: State<T>, t: State<T>, counted: set<nat>, i: nat, max: nat)
    requires Facts(s) && LinkWith(s, counted) && ConsumerEnabled(s, i, max)
    requires s.consumers[i].Move? && s.consumers[i].x < s.consumers[i].stop
    requires t == ConsumerAfter(s, i, max)
    ensures Link(t)
  {
    assert InStep(s, i) && ClaimOk(s, counted, i);
    var x := s.consumers[i].x;
    StopInBounds(s.consumers[i].start, s.consumers[i].end, s.blockSize);
    assert Pending(s, i, x);
    PendingBelowHead(s, counted, i, x);
    assert HeldAt(s, x, s.items[x]);
    MoveEffect(s, t, i, max);
    MoveClaim(s, t, counted, i);
    MovedKeeps(s, t, counted, i, s.index.readers[i].q, x);
  }

  // ---------------------------------------------------------------------------------------------
  // Consumers: counting a block's items, and taking the empty block out
  // ---------------------------------------------------------------------------------------------

  /** Consumer `i` has counted `start .. stop` of block `q`. */
  ghost predicate Counted<T>(s: State<T>, t: State<T>, i: nat, q: nat, start: nat, stop: nat)
    requires Shape(s)
  {
    && OnlyConsumer(s, t, i) && t.tickets == s.tickets && t.owned == s.owned && t.got == s.got
    && t.index.retired == s.index.retired
    && s.consumers[i].Move? && !t.consumers[i].Freeing? && start < stop
    && Live(s, q) && BlockFor(s, q) < |s.memory|
    && (forall y: nat :: start <= y < stop ==> Home(y, s.blockSize) == q)
    && (var b := BlockFor(s, q);
        && t.memory == s.memory[b := s.memory[b].(emptied := s.memory[b].emptied + (stop - start))]
        && (if s.memory[b].emptied + (stop - start) == s.blockSize then Nulls(t, i, q) else !t.consumers[i].Nulling?))
  }

  lemma CountedHere<T>(s: State<T>, t: State<T>, counted: set<nat>, i: nat, q: nat, start: nat, stop: nat)
    requires Shape(s) && Counted(s, t, i, q, start, stop) && CountersOk(s, counted)
    requires forall y: nat :: start <= y < stop ==> y !in counted
    ensures var counted' := counted + TicketsProof.Range(start, stop - start);
            && t.memory[BlockFor(t, q)].emptied == |InBlock(counted', q, t.blockSize)|
            && (AllCounted(counted', q, t.blockSize) <==> exists j :: 0 <= j < |t.consumers| && Nulls(t, j, q))
  {
    CountMore(counted, start, stop, q, s.blockSize);
    FullIffAllCounted(counted + TicketsProof.Range(start, stop - start), q, s.blockSize);
    assert forall j :: 0 <= j < |s.consumers| && j != i && Nulls(t, j, q) ==> Nulls(s, j, q);
    assert !AllCounted(counted, q, s.blockSize) by { assert start !in counted; }
  }

  lemma CountedElsewhere<T>(s: State<T>, t: State<T>, counted: set<nat>, i: nat, q: nat, start: nat, stop: nat, p: nat)
    requires Shape(s) && Counted(s, t, i, q, start, stop) && OwnedOk(s) && CountersOk(s, counted)
    requires forall y: nat :: start <= y < stop ==> y !in counted
    requires Live(s, p) && p != q
    ensures var counted' := counted + TicketsProof.Range(start, stop - start);
            && BlockFor(t, p) < |t.memory|
            && t.memory[BlockFor(t, p)].emptied == |InBlock(counted', p, t.blockSize)|
            && (AllCounted(counted', p, t.blockSize) <==> exists j :: 0 <= j < |t.consumers| && Nulls(t, j, p))
  {
    CountMore(counted, start, stop, q, s.blockSize);
    FullIffAllCounted(counted + TicketsProof.Range(start, stop - start), p, s.blockSize);
    FullIffAllCounted(counted, p, s.blockSize);
    if BlockFor(s, p) == BlockFor(s, q) { BlocksDiffer(s, p, q); }
    NullsElsewhere(s, t, i, q, p);
  }

  lemma NullsElsewhere<T>(s: State<T>, t: State<T>, i: nat, q: nat, p: nat)
    requires OnlyConsumer(s, t, i) && p != q && !Nulls(s, i, p) && !Nulls(t, i, p)
    ensures (exists j :: 0 <= j < |t.consumers| && Nulls(t, j, p)) <==> exists j :: 0 <= j < |s.consumers| && Nulls(s, j, p)
  {
    forall j | 0 <= j < |s.consumers| ensures Nulls(t, j, p) <==> Nulls(s, j, p) {}
  }

  lemma CountedFrame<T>(s: State<T>, t: State<T>, counted: set<nat>, i: nat, q: nat, start: nat, stop: nat)
    requires Shape(s) && Counted(s, t, i, q, start, stop) && OwnedOk(s) && CountersOk(s, counted)
    requires ItemsOk(s) && ProducerOk(s)
    requires forall y: nat :: start <= y < stop ==> y !in counted
    ensures OwnedOk(t) && ItemsOk(t) && ProducerOk(t)
  {
    assert forall c :: BlockOfReason(t, c) == BlockOfReason(s, c);
    if s.producer.Store? {
      assert BlockOfReason(s, Coming) == At(s.producer.block);
      assert BlockOfReason(s, Indexed(q)) == At(BlockFor(s, q));
    }
    ItemsFrame(s, t);
  }

  lemma CountedKeepsCounters<T>(s: State<T>, t: State<T>, counted: set<nat>, i: nat, q: nat, start: nat, stop: nat)
    requires Shape(s) && Counted(s, t, i, q, start, stop) && OwnedOk(s) && CountersOk(s, counted)
    requires forall y: nat :: start <= y < stop ==> y !in counted
    ensures CountersOk(t, counted + TicketsProof.Range(start, stop - start))
    ensures forall j :: 0 <= j < |s.consumers| ==> !Nulls(s, j, q)
  {
    var counted' := counted + TicketsProof.Range(start, stop - start);
    assert !AllCounted(counted, q, s.blockSize) by { assert start !in counted; }
    forall p: nat | Live(t, p)
      ensures BlockFor(t, p) < |t.memory|
        && t.memory[BlockFor(t, p)].emptied == |InBlock(counted', p, t.blockSize)|
        && (AllCounted(counted', p, t.blockSize) <==> exists j :: 0 <= j < |t.consumers| && Nulls(t, j, p))
    {
      if p == q { CountedHere(s, t, counted, i, q, start, stop); }
      else { CountedElsewhere(s, t, counted, i, q, start, stop, p); }
    }
    forall j, p: nat | 0 <= j < |t.consumers| && Nulls(t, j, p) ensures AllCounted(counted', p, t.blockSize) {
      if j != i { assert Nulls(s, j, p); } else { assert Live(t, p); }
    }
  }

  /** It then either nulls the block's entry or goes on. */
  ghost predicate GoesOn<T>(s: State<T>, t: State<T>, i: nat)
    requires OnlyConsumer(s, t, i)
  {
    s.consumers[i].Move? && s.consumers[i].x >= s.consumers[i].stop && s.index.readers[i].Got?
    && var Move(b, _, _, stop, end) := s.consumers[i];
    var r := s.index.readers[i];
    || (t.consumers[i] == Nulling(b, stop, end) && t.index.readers[i] == r)
    || (t.consumers[i] == Seek(stop, end) && t.index.readers[i] == Index.Leaving(r.q, r.last, r.h, r.slot))
  }

  lemma CountEffect<T>(s: State<T>, t: State<T>, i: nat, max: nat)
    requires ConsumerEnabled(s, i, max) && InStep(s, i)
    requires s.consumers[i].Move? && s.consumers[i].x >= s.consumers[i].stop
    requires t == ConsumerAfter(s, i, max)
    ensures Counted(s, t, i, s.index.readers[i].q, s.consumers[i].start, s.consumers[i].stop)
    ensures GoesOn(s, t, i)
  {
    StopInBounds(s.consumers[i].start, s.consumers[i].end, s.blockSize);
  }

  lemma CountClaim<T>(s: State<T>, t: State<T>, counted: set<nat>, i: nat)
    requires OnlyConsumer(s, t, i) && InStep(s, i) && ClaimOk(s, counted, i)
    requires t.got == s.got && t.tickets == s.tickets && t.index.retired == s.index.retired
    requires GoesOn(s, t, i)
    ensures var Move(_, start, _, stop, _) := s.consumers[i];
            && InStep(t, i) && ClaimOk(t, counted + TicketsProof.Range(start, stop - start), i)
           
            && (forall y: nat :: start <= y < stop ==> Pending(s, i, y) && y !in counted && y in s.got)
            && (forall y: nat :: Pending(s, i, y) ==> start <= y < stop || Pending(t, i, y))
  {
    var Move(b, start, x, stop, end) := s.consumers[i];
    StopInBounds(start, end, s.blockSize);
    forall y: nat | start <= y < stop ensures y !in counted && Pending(s, i, y) { assert Pending(s, i, y); }
  }

  lemma CountedConsumers<T>(s: State<T>, t: State<T>, counted: set<nat>, i: nat, q: nat, start: nat, stop: nat)
    requires Facts(s) && ConsumersOk(s, counted) && Counted(s, t, i, q, start, stop) && GoesOn(s, t, i)
    requires s.consumers[i].start == start && s.consumers[i].stop == stop && s.index.readers[i].q == q
    requires forall j :: 0 <= j < |s.consumers| ==> !Nulls(s, j, q)
    ensures ConsumersOk(t, counted + TicketsProof.Range(start, stop - start))
  {
    assert InStep(s, i) && ClaimOk(s, counted, i);
    CountClaim(s, t, counted, i);
    ConsumersKeep(s, t, counted, counted + TicketsProof.Range(start, stop - start), i);
  }

  lemma CountedDelivered<T>(s: State<T>, t: State<T>, counted: set<nat>, i: nat, q: nat, start: nat, stop: nat)
    requires Shape(s) && DeliveredOk(s, counted) && Counted(s, t, i, q, start, stop) && GoesOn(s, t, i)
    requires s.consumers[i].start == start && s.consumers[i].stop == stop
    requires ClaimOk(s, counted, i) && start < stop <= s.consumers[i].end && s.consumers[i].x == stop
    ensures DeliveredOk(t, counted + TicketsProof.Range(start, stop - start))
  {
    DeliveredKeep(s, t, counted, counted + TicketsProof.Range(start, stop - start), i);
  }

  lemma CountKeeps<T>(s: State<T>, t: State<T>, counted: set<nat>, i: nat, max: nat)
    requires Facts(s) && LinkWith(s, counted) && ConsumerEnabled(s, i, max)
    requires s.consumers[i].Move? && s.consumers[i].x >= s.consumers[i].stop
    requires t == ConsumerAfter(s, i, max)
    ensures Link(t)
  {
    assert InStep(s, i) && ClaimOk(s, counted, i);
    var start, stop, q := s.consumers[i].start, s.consumers[i].stop, s.index.readers[i].q;
    CountEffect(s, t, i, max);
    CountedLinks(s, t, counted, i, q, start, stop);
  }

  lemma NotYetCounted<T>(s: State<T>, counted: set<nat>, i: nat)
    requires Shape(s) && i < |s.consumers| && s.consumers[i].Move? && InStep(s, i) && ClaimOk(s, counted, i)
    ensures s.consumers[i].start < s.consumers[i].stop <= s.consumers[i].end
    ensures s.consumers[i].x <= s.consumers[i].stop
    ensures forall y: nat :: s.consumers[i].start <= y < s.consumers[i].stop ==> y !in counted
  {
    StopInBounds(s.consumers[i].start, s.consumers[i].end, s.blockSize);
    forall y: nat | s.consumers[i].start <= y < s.consumers[i].stop ensures y !in counted { assert Pending(s, i, y); }
  }

  lemma CountedLinks<T>(s: State<T>, t: State<T>, counted: set<nat>, i: nat, q: nat, start: nat, stop: nat)
    requires Facts(s) && LinkWith(s, counted) && Counted(s, t, i, q, start, stop) && GoesOn(s, t, i)
    requires s.consumers[i].start == start && s.consumers[i].stop == stop && s.index.readers[i].q == q
    ensures Link(t)
  {
    assert ClaimOk(s, counted, i) && InStep(s, i);
    NotYetCounted(s, counted, i);
    CountedKeepsCounters(s, t, counted, i, q, start, stop);
    CountedFrame(s, t, counted, i, q, start, stop);
    CountedConsumers(s, t, counted, i, q, start, stop);
    CountedDelivered(s, t, counted, i, q, start, stop);
    assert LinkWith(t, counted + TicketsProof.Range(start, stop - start));
  }

  /** Consumer `i` has nulled the entry of block `q`. */
  ghost predicate Retired<T>(s: State<T>, t: State<T>, i: nat, q: nat)
    requires Shape(s)
  {
    && OnlyConsumer(s, t, i) && t.tickets == s.tickets && t.owned == s.owned && t.got == s.got
    && t.memory == s.memory
    && t.index.retired == s.index.retired + {q}
    && Nulls(s, i, q) && t.consumers[i].Freeing? && Live(s, q)
    && t.consumers[i].block == BlockFor(s, q)
  }

  lemma RetiredKeepsItems<T>(s: State<T>, t: State<T>, counted: set<nat>, i: nat, q: nat)
    requires Shape(s) && Retired(s, t, i, q) && CountersOk(s, counted) && DeliveredOk(s, counted) && ItemsOk(s)
    ensures ItemsOk(t)
  {
    assert AllCounted(counted, q, s.blockSize);
    forall x: nat | x < |t.items| && x !in t.got ensures HeldAt(t, x, t.items[x]) {
      assert HeldAt(s, x, s.items[x]);
      RetiredHoldsOthers(s, t, counted, i, q, x, s.items[x]);
    }
    if t.producer.Write? {
      forall k | 0 <= k < t.producer.k && k < |t.producer.xs| ensures HeldAt(t, |t.items| + k, t.producer.xs[k]) {
        assert HeldAt(s, |s.items| + k, s.producer.xs[k]);
        RetiredHoldsOthers(s, t, counted, i, q, |s.items| + k, s.producer.xs[k]);
      }
    }
  }

  lemma RetiredHoldsOthers<T>(s: State<T>, t: State<T>, counted: set<nat>, i: nat, q: nat, x: nat, item: T)
    requires Shape(s) && Retired(s, t, i, q) && AllCounted(counted, q, s.blockSize) && x !in counted && HeldAt(s, x, item)
    ensures Shape(t) && HeldAt(t, x, item)
  {
  }

  lemma RetiredKeepsCounters<T>(s: State<T>, t: State<T>, counted: set<nat>, i: nat, q: nat)
    requires Shape(s) && Retired(s, t, i, q) && CountersOk(s, counted) && ProducerOk(s)
    ensures CountersOk(t, counted) && ProducerOk(t)
  {
    forall p: nat | Live(t, p) && AllCounted(counted, p, t.blockSize)
      ensures exists j :: 0 <= j < |t.consumers| && Nulls(t, j, p)
    {
      assert Live(s, p);
      var j :| 0 <= j < |s.consumers| && Nulls(s, j, p);
      assert Nulls(t, j, p);
    }
    forall j, p: nat | 0 <= j < |t.consumers| && Nulls(t, j, p) ensures AllCounted(counted, p, t.blockSize) {
      assert Nulls(s, j, p);
    }
  }

  /** The block changes hands: what the index held, the consumer now holds. */
  lemma RetiredKeepsOwned<T>(s: State<T>, t: State<T>, i: nat, q: nat)
    requires Shape(s) && Retired(s, t, i, q) && OwnedOk(s)
    ensures OwnedOk(t)
  {
    assert BlockOfReason(s, Indexed(q)) == At(BlockFor(s, q)) == BlockOfReason(t, Leaving(i));
    assert BlockOfReason(t, Indexed(q)) == Null;
    assert forall c :: c != Indexed(q) && c != Leaving(i) ==> BlockOfReason(t, c) == BlockOfReason(s, c);
    forall b | b in t.owned ensures exists c :: BlockOfReason(t, c) == At(b) {
      var c :| BlockOfReason(s, c) == At(b);
      assert BlockOfReason(t, if c == Indexed(q) then Leaving(i) else c) == At(b);
    }
  }

  lemma RetireEffect<T>(s: State<T>, t: State<T>, counted: set<nat>, i: nat, max: nat)
    requires ConsumerEnabled(s, i, max) && InStep(s, i) && ClaimOk(s, counted, i)
    requires s.consumers[i].Nulling?
    requires t == ConsumerAfter(s, i, max)
    ensures Retired(s, t, i, s.index.readers[i].q)
    ensures InStep(t, i) && ClaimOk(t, counted, i)
    ensures forall x: nat :: Pending(s, i, x) <==> Pending(t, i, x)
    ensures forall j :: 0 <= j < |s.consumers| && j != i && s.index.readers[j].Got? ==>
              s.index.readers[j].q != s.index.readers[i].q || s.index.readers[j].q > s.index.readers[j].last
  {
    assert Index.ReaderEnabled(s.index, i, Index.Retire);
    var q := s.index.readers[i].q;
    forall j | 0 <= j < |s.consumers| && j != i && s.index.readers[j].Got?
      ensures s.index.readers[j].q != q || q > s.index.readers[j].last
    {
      assert !Index.Uses(s.index.readers[j], q);
    }
  }

  lemma RetiredKeeps<T>(s: State<T>, t: State<T>, counted: set<nat>, i: nat, q: nat)
    requires Facts(s) && LinkWith(s, counted) && Retired(s, t, i, q)
    requires InStep(t, i) && ClaimOk(t, counted, i)
    requires forall x: nat :: Pending(s, i, x) <==> Pending(t, i, x)
    requires forall j :: 0 <= j < |s.consumers| && j != i && s.index.readers[j].Got? ==> s.index.readers[j].q != q
    ensures Link(t)
  {
    RetiredKeepsItems(s, t, counted, i, q);
    RetiredKeepsCounters(s, t, counted, i, q);
    RetiredKeepsOwned(s, t, i, q);
    ConsumersKeep(s, t, counted, counted, i);
    DeliveredKeep(s, t, counted, counted, i);
    assert LinkWith(t, counted);
  }

  /** What a reader holds is a block of its claim. */
  lemma HeldIsClaimed<T>(s: State<T>, i: nat)
    requires Shape(s) && i < |s.consumers| && InStep(s, i) && s.index.readers[i].Got?
    ensures s.index.readers[i].q <= s.index.readers[i].last
  {
    match s.consumers[i]
    case Seek(x, end) => HomeMonotone(x, end - 1, s.blockSize);
    case Move(_, start, _, _, end) => HomeMonotone(start, end - 1, s.blockSize);
    case _ =>
  }

  lemma RetireKeeps<T>(s: State<T>, t: State<T>, counted: set<nat>, i: nat, max: nat)
    requires Facts(s) && LinkWith(s, counted) && ConsumerEnabled(s, i, max)
    requires s.consumers[i].Nulling?
    requires t == ConsumerAfter(s, i, max)
    ensures Link(t)
  {
    assert InStep(s, i) && ClaimOk(s, counted, i);
    RetireEffect(s, t, counted, i, max);
    forall j | 0 <= j < |s.consumers| && j != i && s.index.readers[j].Got?
      ensures s.index.readers[j].q != s.index.readers[i].q
    {
      assert InStep(s, j);
      HeldIsClaimed(s, j);
    }
    RetiredKeeps(s, t, counted, i, s.index.readers[i].q);
  }

  lemma FreeKeepsOwned<T>(s: State<T>, t: State<T>, i: nat)
    requires OnlyConsumer(s, t, i) && OwnedOk(s) && s.consumers[i].Freeing? && !t.consumers[i].Freeing?
    requires t.index == s.index && t.owned == s.owned - {s.consumers[i].block}
    ensures OwnedOk(t)
  {
    assert BlockOfReason(s, Leaving(i)) == At(s.consumers[i].block);
    assert forall c :: c != Leaving(i) ==> BlockOfReason(t, c) == BlockOfReason(s, c);
  }

  lemma FreeFrame<T>(s: State<T>, t: State<T>, counted: set<nat>, i: nat)
    requires OnlyConsumer(s, t, i) && s.consumers[i].Freeing? && t.consumers[i].Seek?
    requires t.index == s.index && t.memory == s.memory && t.got == s.got && t.tickets == s.tickets
    requires CountersOk(s, counted) && ItemsOk(s) && ProducerOk(s)
    ensures CountersOk(t, counted) && ItemsOk(t) && ProducerOk(t)
  {
    CountersFrame(s, t, counted);
    ItemsFrame(s, t);
  }

  lemma FreeKeeps<T>(s: State<T>, t: State<T>, counted: set<nat>, i: nat, max: nat)
    requires Facts(s) && LinkWith(s, counted) && ConsumerEnabled(s, i, max)
    requires s.consumers[i].Freeing?
    requires t == ConsumerAfter(s, i, max)
    ensures Link(t)
  {
    assert InStep(s, i) && ClaimOk(s, counted, i);
    FreeKeepsOwned(s, t, i);
    FreeFrame(s, t, counted, i);
    ConsumersKeep(s, t, counted, counted, i);
    DeliveredKeep(s, t, counted, counted, i);
    assert LinkWith(t, counted);
  }

  lemma ConsumerStepKeeps<T>(s: State<T>, t: State<T>, counted: set<nat>, i: nat, max: nat)
    requires Facts(s) && LinkWith(s, counted) && ConsumerEnabled(s, i, max)
    requires t == ConsumerAfter(s, i, max)
    ensures Link(t)
  {
    match s.consumers[i]
    case Out =>
      if s.tickets.pcs[i].Deliver? && s.tickets.pcs[i].count > 0 { BeginKeeps(s, t, counted, i, max); }
      else { TicketStepKeeps(s, t, counted, i, max); }
    case Seek(x, end) =>
      if s.index.readers[i].Got? { EnterKeeps(s, t, counted, i, max); }
      else if x < end { SeekKeeps(s, t, counted, i, max); }
      else { FinishKeeps(s, t, counted, i, max); }
    case Move(_, _, x, stop, _) =>
      if x < stop { MoveKeeps(s, t, counted, i, max); } else { CountKeeps(s, t, counted, i, max); }
    case Nulling(_, _, _) => RetireKeeps(s, t, counted, i, max);
    case Freeing(_, _, _) => FreeKeeps(s, t, counted, i, max);
  }
}
