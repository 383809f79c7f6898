/** Every step of the producer keeps the invariant of its sub-queue. */
module QueueProducer {
  import opened Pointers
  import opened Modular
  import opened Queue
  import opened QueueInvariant
  import Tickets
  import TicketsProof
  import Index = BlockIndex

  // ---------------------------------------------------------------------------------------------
  // What a producer's step leaves alone
  // ---------------------------------------------------------------------------------------------

  /** No consumer moves, and what was enqueued stays. */
  ghost predicate OnlyProducer<T>(s: State<T>, t: State<T>) {
    && Shape(s) && Shape(t)
    && t.consumers == s.consumers && t.index.readers == s.index.readers && t.tickets.pcs == s.tickets.pcs
    && t.tickets.head == s.tickets.head && t.got == s.got && t.index.retired == s.index.retired
    && t.blockSize == s.blockSize && t.limit == s.limit && t.leeway == s.leeway
    && s.index.blocks <= t.index.blocks && s.items <= t.items
    && |t.memory| == |s.memory|
  }

  lemma ConsumersStay<T>(s: State<T>, t: State<T>, counted: set<nat>)
    requires OnlyProducer(s, t) && ConsumersOk(s, counted)
    ensures ConsumersOk(t, counted)
  {
    forall i | 0 <= i < |t.consumers| ensures InStep(t, i) && ClaimOk(t, counted, i) {
      assert InStep(s, i) && ClaimOk(s, counted, i);
      assert forall x: nat :: Pending(t, i, x) <==> Pending(s, i, x);
    }
    forall i, j, q: nat | 0 <= i < j < |t.consumers| && Nulls(t, i, q) ensures !Nulls(t, j, q) {
      assert Nulls(s, i, q);
      assert !Nulls(s, j, q);
    }
  }

  lemma DeliveredStays<T>(s: State<T>, t: State<T>, counted: set<nat>)
    requires OnlyProducer(s, t) && DeliveredOk(s, counted) && t.tickets.tail == |t.items|
    ensures DeliveredOk(t, counted)
  {
    forall x: nat | x < t.tickets.head
      ensures x in counted || exists i :: 0 <= i < |t.consumers| && Pending(t, i, x)
    {
      if x !in counted {
        var i :| 0 <= i < |s.consumers| && Pending(s, i, x);
        assert Pending(t, i, x);
      }
    }
  }

  /** The step neither brings nor takes blocks, nor touches them. */
  ghost predicate Passive<T>(s: State<T>, t: State<T>) {
    && OnlyProducer(s, t)
    && t.index.blocks == s.index.blocks && t.index.producer.mine == s.index.producer.mine
    && t.memory == s.memory && t.owned == s.owned && t.items == s.items && t.tickets == s.tickets
    && !s.producer.Reset? && !s.producer.Store? && !t.producer.Reset? && !t.producer.Store?
    && (s.producer.Return? ==> s.producer.j >= |s.producer.mine|) && !t.producer.Return?
    && (t.producer.Write? ==> t.producer.k == 0)
  }

  /** The indices nulling consumers have in hand are the same. */
  lemma SameNulls<T>(s: State<T>, t: State<T>, q: nat)
    requires OnlyProducer(s, t)
    ensures (exists i :: 0 <= i < |t.consumers| && Nulls(t, i, q)) <==> exists i :: 0 <= i < |s.consumers| && Nulls(s, i, q)
  {
    assert forall i :: 0 <= i < |s.consumers| ==> (Nulls(t, i, q) <==> Nulls(s, i, q));
  }

  /** Counters stay right while every live block was live before, with the same memory and counter. */
  lemma CountersStay<T>(s: State<T>, t: State<T>, counted: set<nat>)
    requires OnlyProducer(s, t) && CountersOk(s, counted)
    requires forall q: nat :: Live(t, q) ==>
               Live(s, q) && BlockFor(t, q) == BlockFor(s, q)
               && t.memory[BlockFor(s, q)].emptied == s.memory[BlockFor(s, q)].emptied
    ensures CountersOk(t, counted)
  {
    forall q: nat | Live(t, q) && AllCounted(counted, q, t.blockSize)
      ensures exists i :: 0 <= i < |t.consumers| && Nulls(t, i, q)
    {
      SameNulls(s, t, q);
    }
    forall i, q: nat | 0 <= i < |t.consumers| && Nulls(t, i, q) ensures AllCounted(counted, q, t.blockSize) {
      assert Nulls(s, i, q);
    }
  }

  /** Items stay while the blocks holding them keep their places and their slots. */
  lemma ItemsStay<T>(s: State<T>, t: State<T>)
    requires OnlyProducer(s, t) && ItemsOk(s) && t.items == s.items
    requires forall x: nat, item: T :: x < |s.items| && HeldAt(s, x, item) ==> HeldAt(t, x, item)
    requires t.producer.Write? ==> t.producer.k == 0
    ensures ItemsOk(t)
  {
  }

  lemma PassiveFrame<T>(s: State<T>, t: State<T>, counted: set<nat>)
    requires Passive(s, t) && CountersOk(s, counted) && ItemsOk(s) && OwnedOk(s)
    ensures CountersOk(t, counted) && ItemsOk(t) && OwnedOk(t)
  {
    assert forall c :: BlockOfReason(t, c) == BlockOfReason(s, c);
    CountersStay(s, t, counted);
    ItemsStay(s, t);
  }

  lemma PassiveKeeps<T>(s: State<T>, t: State<T>, counted: set<nat>)
    requires LinkWith(s, counted) && Passive(s, t) && ProducerOk(t)
    ensures Link(t)
  {
    PassiveFrame(s, t, counted);
    ConsumersStay(s, t, counted);
    DeliveredStays(s, t, counted);
    assert LinkWith(t, counted);
  }

  // ---------------------------------------------------------------------------------------------
  // Steps inside the index
  // ---------------------------------------------------------------------------------------------

  predicate InnerStep(x: Index.State, c: Index.Choice) {
    && !(x.producer.Ready? && c.Commit?)
    && !(x.producer.Filling? && c.Obtain?)
    && !(x.producer.Undoing? && x.producer.k >= |x.producer.mine|)
  }

  lemma InnerEffect(x: Index.State, y: Index.State, c: Index.Choice)
    requires Index.ProducerEnabled(x, c) && y == Index.ProducerAfter(x, c) && InnerStep(x, c)
    ensures y.blocks == x.blocks && y.readers == x.readers && y.retired == x.retired && y.blockSize == x.blockSize
    ensures y.producer.mine == x.producer.mine
    ensures x.producer.Ready? && c.GiveUp? ==> y.producer.Undoing?
    ensures x.producer.Ready? && !c.GiveUp? ==> y.producer.Keying? || y.producer.Undoing?
    ensures x.producer.Keying? ==> y.producer.Advancing?
    ensures x.producer.Advancing? ==> y.producer.Filling?
    ensures x.producer.Filling? ==> y.producer.Rewinding?
    ensures x.producer.Rewinding? ==> y.producer.Clearing?
    ensures x.producer.Clearing? ==> y.producer.Undoing?
    ensures x.producer.Undoing? ==> y.producer.UndoRewinding?
    ensures x.producer.UndoRewinding? ==> y.producer.Undoing?
  {
  }

  /** What the producer does next follows from where the index stands. */
  lemma GuardBounds<T>(s: State<T>)
    requires Shape(s) && !IsFull(s.limit, s.leeway, s.blockSize, NextBase(s), s.tickets.head)
    ensures Bounded(s, Total(s) + 1)
  {
    assert (Total(s) + 1) * s.blockSize == NextBase(s) + s.blockSize;
  }

  lemma ReserveKeeps<T>(s: State<T>, t: State<T>, counted: set<nat>, c: Choice<T>)
    requires LinkWith(s, counted) && ProducerEnabled(s, c) && t == ProducerAfter(s, c) && Index.Shape(t.index)
    requires s.producer.Reserve?
    ensures Link(t)
  {
    if UsesIndex(s, c) {
      InnerEffect(s.index, t.index, IndexChoice(s, c));
    } else if |s.index.producer.mine| < NewBlocks(|s.items|, |s.producer.xs|, s.blockSize) {
      GuardBounds(s);
    }
    PassiveKeeps(s, t, counted);
  }

  /** The other steps that only move the producer along. */
  lemma InnerKeeps<T>(s: State<T>, t: State<T>, counted: set<nat>, c: Choice<T>)
    requires LinkWith(s, counted) && ProducerEnabled(s, c) && t == ProducerAfter(s, c) && Index.Shape(t.index)
    requires UsesIndex(s, c) && InnerStep(s.index, IndexChoice(s, c))
    requires s.producer.Guarded? || s.producer.Insert? || s.producer.Undo?
    ensures Link(t)
  {
    InnerIsPassive(s, t, c);
    InnerProducerOk(s, t, c);
    PassiveKeeps(s, t, counted);
  }

  lemma InnerProducerOk<T>(s: State<T>, t: State<T>, c: Choice<T>)
    requires ProducerEnabled(s, c) && t == ProducerAfter(s, c) && Shape(t) && ProducerOk(s)
    requires UsesIndex(s, c) && InnerStep(s.index, IndexChoice(s, c))
    requires s.producer.Guarded? || s.producer.Insert? || s.producer.Undo?
    ensures ProducerOk(t)
  {
    if s.producer.Undo? {
      UndoProducerOk(s, t, c);
    } else {
      InnerEffect(s.index, t.index, IndexChoice(s, c));
    }
  }

  lemma UndoProducerOk<T>(s: State<T>, t: State<T>, c: Choice<T>)
    requires ProducerEnabled(s, c) && t == ProducerAfter(s, c) && Shape(t) && ProducerOk(s)
    requires UsesIndex(s, c) && InnerStep(s.index, IndexChoice(s, c)) && s.producer.Undo?
    ensures ProducerOk(t)
  {
    InnerEffect(s.index, t.index, IndexChoice(s, c));
  }

  lemma InnerIsPassive<T>(s: State<T>, t: State<T>, c: Choice<T>)
    requires ProducerEnabled(s, c) && t == ProducerAfter(s, c) && Index.Shape(t.index)
    requires UsesIndex(s, c) && InnerStep(s.index, IndexChoice(s, c))
    requires s.producer.Guarded? || s.producer.Insert? || s.producer.Undo?
    ensures Shape(t) && Passive(s, t)
  {
    InnerEffect(s.index, t.index, IndexChoice(s, c));
  }

  lemma StartKeeps<T>(s: State<T>, t: State<T>, counted: set<nat>, c: Choice<T>)
    requires LinkWith(s, counted) && ProducerEnabled(s, c) && t == ProducerAfter(s, c)
    requires s.producer.Ready? || (s.producer.Return? && s.producer.at == Null && s.producer.j >= |s.producer.mine|)
    ensures Link(t)
  {
    if s.producer.Ready? { NoNewBlocks(|s.items|, |c.xs|, s.blockSize); }
    PassiveKeeps(s, t, counted);
  }

  lemma NoNewBlocks(tail: nat, count: nat, b: nat)
    requires b > 0
    ensures NewBlocks(tail, count, b) == Ceiling(tail + count, b) - Ceiling(tail, b) >= 0
  {
    QuotientMonotone(tail - 1, tail + count - 1, b);
  }

  // ---------------------------------------------------------------------------------------------
  // Taking a block
  // ---------------------------------------------------------------------------------------------

  /** The block comes from outside: this sub-queue had no reason to own it. */
  lemma ObtainOwned<T>(s: State<T>, t: State<T>, b: Node)
    requires OnlyProducer(s, t) && t.index == s.index && s.producer.Insert?
    requires t.producer.Reset? && t.producer.block == b
    requires t.owned == s.owned + {b} && b !in s.owned && b < |s.memory| && OwnedOk(s)
    ensures OwnedOk(t)
  {
    assert BlockOfReason(t, Coming) == At(b) && BlockOfReason(s, Coming) == Null;
    assert forall c :: c != Coming ==> BlockOfReason(t, c) == BlockOfReason(s, c);
    forall x | x in t.owned ensures exists c :: BlockOfReason(t, c) == At(x) {
      if x != b {
        var c :| BlockOfReason(s, c) == At(x);
        assert BlockOfReason(t, c) == At(x);
      }
    }
  }

  lemma ObtainKeeps<T>(s: State<T>, t: State<T>, counted: set<nat>, c: Choice<T>)
    requires LinkWith(s, counted) && ProducerEnabled(s, c) && t == ProducerAfter(s, c)
    requires s.producer.Insert? && c.Obtain?
    ensures Link(t)
  {
    ObtainOwned(s, t, c.block);
    CountersStay(s, t, counted);
    ItemsStay(s, t);
    ConsumersStay(s, t, counted);
    DeliveredStays(s, t, counted);
    assert LinkWith(t, counted);
  }

  lemma ResetKeeps<T>(s: State<T>, t: State<T>, counted: set<nat>, c: Choice<T>)
    requires LinkWith(s, counted) && ProducerEnabled(s, c) && t == ProducerAfter(s, c)
    requires s.producer.Reset?
    ensures Link(t)
  {
    var b := s.producer.block;
    assert BlockOfReason(s, Coming) == At(b);
    forall q: nat | Live(t, q) ensures Live(s, q) && BlockFor(t, q) == BlockFor(s, q) != b {
      assert BlockOfReason(s, Indexed(q)) == At(BlockFor(s, q));
    }
    assert forall c :: BlockOfReason(t, c) == BlockOfReason(s, c);
    CountersStay(s, t, counted);
    ItemsStay(s, t);
    ConsumersStay(s, t, counted);
    DeliveredStays(s, t, counted);
    assert LinkWith(t, counted);
  }

  /** The producer has put block `b` into the index, behind all others. */
  ghost predicate Stored<T>(s: State<T>, t: State<T>, b: Node) {
    && OnlyProducer(s, t) && t.owned == s.owned && t.items == s.items && t.tickets == s.tickets
    && (forall n :: 0 <= n < |s.memory| ==>
          t.memory[n].slots == s.memory[n].slots && t.memory[n].emptied == s.memory[n].emptied)
    && t.index.blocks == s.index.blocks && t.index.producer.mine == s.index.producer.mine + [b]
    && s.producer.Store? && s.producer.block == b && t.producer.Reserve?
    && b < |s.memory| && s.memory[b].emptied == 0
    && (forall q :: q in s.index.retired ==> q < |s.index.blocks|)
  }

  lemma StoredOwned<T>(s: State<T>, t: State<T>, b: Node)
    requires Stored(s, t, b) && OwnedOk(s)
    ensures OwnedOk(t)
  {
    var q := Total(s);
    assert BlockOfReason(s, Coming) == At(b) == BlockOfReason(t, Indexed(q));
    assert BlockOfReason(t, Coming) == BlockOfReason(s, Indexed(q)) == Null;
    assert forall c :: c != Coming && c != Indexed(q) ==> BlockOfReason(t, c) == BlockOfReason(s, c);
    forall x | x in t.owned ensures exists c :: BlockOfReason(t, c) == At(x) {
      var c :| BlockOfReason(s, c) == At(x);
      assert BlockOfReason(t, if c == Coming then Indexed(q) else c) == At(x);
    }
  }

  /** Nothing of a block that is just being added is counted yet. */
  lemma NewBlockIsEmpty<T>(s: State<T>, counted: set<nat>, q: nat)
    requires Shape(s) && DeliveredOk(s, counted) && q >= Ceiling(|s.items|, s.blockSize)
    ensures InBlock(counted, q, s.blockSize) == {} && !AllCounted(counted, q, s.blockSize)
  {
    forall x | x in counted ensures Home(x, s.blockSize) != q {
      HomeBelowCeiling(x, |s.items|, s.blockSize);
    }
    FullIffAllCounted(counted, q, s.blockSize);
  }

  lemma StoredCounters<T>(s: State<T>, t: State<T>, counted: set<nat>, b: Node)
    requires Stored(s, t, b) && CountersOk(s, counted) && DeliveredOk(s, counted)
    requires |s.index.blocks| == Ceiling(|s.items|, s.blockSize)
    ensures CountersOk(t, counted)
  {
    NewBlockIsEmpty(s, counted, Total(s));
    forall q: nat | Live(t, q) && AllCounted(counted, q, t.blockSize)
      ensures exists i :: 0 <= i < |t.consumers| && Nulls(t, i, q)
    {
      assert Live(s, q);
      SameNulls(s, t, q);
    }
    forall i, q: nat | 0 <= i < |t.consumers| && Nulls(t, i, q) ensures AllCounted(counted, q, t.blockSize) {
      assert Nulls(s, i, q);
    }
    forall q: nat | Live(t, q)
      ensures BlockFor(t, q) < |t.memory|
        && t.memory[BlockFor(t, q)].emptied == |InBlock(counted, q, t.blockSize)|
    {
      assert q == Total(s) || Live(s, q);
    }
  }

  lemma StoreEffect<T>(s: State<T>, t: State<T>, c: Choice<T>)
    requires ProducerEnabled(s, c) && t == ProducerAfter(s, c) && Index.Shape(t.index)
    requires s.producer.Store? && s.index.producer.Filling?
    requires s.producer.block < |s.memory| && s.memory[s.producer.block].emptied == 0
    requires forall q :: q in s.index.retired ==> q < |s.index.blocks|
    ensures Stored(s, t, s.producer.block)
    ensures t.producer == Reserve(s.producer.xs) && t.index.producer.Ready?
  {
  }

  lemma StoredKeeps<T>(s: State<T>, t: State<T>, counted: set<nat>, b: Node)
    requires LinkWith(s, counted) && Stored(s, t, b)
    requires t.producer == Reserve(s.producer.xs) && t.index.producer.Ready?
    ensures Link(t)
  {
    StoredOwned(s, t, b);
    StoredCounters(s, t, counted, b);
    ItemsStay(s, t);
    ConsumersStay(s, t, counted);
    DeliveredStays(s, t, counted);
    assert LinkWith(t, counted);
  }

  lemma StoreKeeps<T>(s: State<T>, t: State<T>, counted: set<nat>, c: Choice<T>)
    requires ProducerEnabled(s, c) && t == ProducerAfter(s, c)
    requires Facts(s) && LinkWith(s, counted)
    requires Index.Shape(t.index) && s.producer.Store?
    ensures Link(t)
  {
    StoreEffect(s, t, c);
    StoredKeeps(s, t, counted, s.producer.block);
  }

  // ---------------------------------------------------------------------------------------------
  // Writing and publishing items
  // ---------------------------------------------------------------------------------------------

  /** The slot for the next item belongs to a block the sub-queue owns. */
  lemma NextSlotIsLive<T>(s: State<T>, counted: set<nat>)
    requires Facts(s) && LinkWith(s, counted) && s.producer.Write? && s.producer.k < |s.producer.xs|
    ensures Live(s, Home(|s.items| + s.producer.k, s.blockSize))
  {
    var Write(xs, k) := s.producer;
    var x := |s.items| + k;
    HomeBelowCeiling(x, |s.items| + |xs|, s.blockSize);
    NoNewBlocks(|s.items|, |xs|, s.blockSize);
    assert !AllCounted(counted, Home(x, s.blockSize), s.blockSize) by {
      assert x !in counted;
    }
  }

  /** The producer has put `item` where index `x` belongs. */
  ghost predicate Written<T>(s: State<T>, t: State<T>, x: nat, item: T) {
    && OnlyProducer(s, t) && t.index == s.index && t.owned == s.owned && t.items == s.items && t.tickets == s.tickets
    && s.producer.Write? && s.producer.k < |s.producer.xs| && x == |s.items| + s.producer.k
    && item == s.producer.xs[s.producer.k] && t.producer == Write(s.producer.xs, s.producer.k + 1)
    && Live(s, Home(x, s.blockSize))
    && (var b := BlockFor(s, Home(x, s.blockSize));
        && b < |s.memory|
        && t.memory == s.memory[b := s.memory[b].(slots := s.memory[b].slots[x % s.blockSize := Full(item)])])
  }

  lemma OtherStays<T>(s: State<T>, t: State<T>, x: nat, item: T, y: nat, other: T)
    requires Written(s, t, x, item) && OwnedOk(s) && HeldAt(s, y, other) && y != x
    ensures HeldAt(t, y, other)
  {
    var p, q := Home(y, s.blockSize), Home(x, s.blockSize);
    if BlockFor(s, p) == BlockFor(s, q) {
      BlocksDiffer(s, p, q);
      HomeSlotsDiffer(x, y, s.blockSize);
    }
  }

  lemma WrittenItems<T>(s: State<T>, t: State<T>, x: nat, item: T)
    requires Written(s, t, x, item) && OwnedOk(s) && ItemsOk(s)
    ensures ItemsOk(t)
  {
    forall y: nat | y < |t.items| && y !in t.got ensures HeldAt(t, y, t.items[y]) {
      OtherStays(s, t, x, item, y, s.items[y]);
    }
    forall k | 0 <= k < t.producer.k && k < |t.producer.xs| ensures HeldAt(t, |t.items| + k, t.producer.xs[k]) {
      if k == s.producer.k { assert HeldAt(t, x, item); }
      else { OtherStays(s, t, x, item, |s.items| + k, s.producer.xs[k]); }
    }
  }

  lemma WriteEffect<T>(s: State<T>, t: State<T>, c: Choice<T>)
    requires Shape(s) && ProducerEnabled(s, c) && t == ProducerAfter(s, c)
    requires s.producer.Write? && s.producer.k < |s.producer.xs|
    requires Live(s, Home(|s.items| + s.producer.k, s.blockSize))
    requires s.tailBlock == At(BlockFor(s, Home(|s.items| + s.producer.k, s.blockSize)))
    ensures Written(s, t, |s.items| + s.producer.k, s.producer.xs[s.producer.k])
  {
    HomeIsQuotient(|s.items| + s.producer.k, s.blockSize);
  }

  lemma WrittenKeeps<T>(s: State<T>, t: State<T>, counted: set<nat>, x: nat, item: T)
    requires LinkWith(s, counted) && Written(s, t, x, item)
    ensures Link(t)
  {
    WrittenItems(s, t, x, item);
    assert forall c :: BlockOfReason(t, c) == BlockOfReason(s, c);
    CountersStay(s, t, counted);
    ConsumersStay(s, t, counted);
    DeliveredStays(s, t, counted);
    assert LinkWith(t, counted);
  }

  lemma WriteKeeps<T>(s: State<T>, t: State<T>, counted: set<nat>, c: Choice<T>)
    requires Facts(s) && LinkWith(s, counted) && TailOk(s) && ProducerEnabled(s, c) && t == ProducerAfter(s, c)
    requires s.producer.Write? && s.producer.k < |s.producer.xs|
    ensures Link(t)
  {
    NextSlotIsLive(s, counted);
    WriteEffect(s, t, c);
    WrittenKeeps(s, t, counted, |s.items| + s.producer.k, s.producer.xs[s.producer.k]);
  }

  /** All of `xs` became visible at once. */
  ghost predicate Published<T>(s: State<T>, t: State<T>) {
    && OnlyProducer(s, t) && t.memory == s.memory && t.owned == s.owned
    && s.producer.Write? && s.producer.k >= |s.producer.xs| && t.producer.Ready?
    && t.items == s.items + s.producer.xs && t.tickets.tail == s.tickets.tail + |s.producer.xs|
    && t.index.blocks == s.index.blocks + s.index.producer.mine && t.index.producer == Index.Ready([])
  }

  lemma PublishedBlocks<T>(s: State<T>, t: State<T>)
    requires Published(s, t)
    ensures forall q: nat :: Live(t, q) <==> Live(s, q)
    ensures forall q: nat :: q < Total(s) ==> BlockFor(t, q) == BlockFor(s, q)
  {
  }

  lemma PublishedItems<T>(s: State<T>, t: State<T>)
    requires Published(s, t) && ItemsOk(s)
    ensures ItemsOk(t)
  {
    PublishedBlocks(s, t);
    forall x: nat | x < |t.items| && x !in t.got ensures HeldAt(t, x, t.items[x]) {
      if x < |s.items| {
        assert HeldAt(s, x, s.items[x]);
      } else {
        var k := x - |s.items|;
        assert HeldAt(s, |s.items| + k, s.producer.xs[k]);
      }
    }
  }

  lemma PublishKeeps<T>(s: State<T>, t: State<T>, counted: set<nat>, c: Choice<T>)
    requires LinkWith(s, counted) && ProducerEnabled(s, c) && t == ProducerAfter(s, c)
    requires Index.Shape(t.index) && s.producer.Write? && s.producer.k >= |s.producer.xs|
    ensures Link(t)
  {
    NoNewBlocks(|s.items|, |s.producer.xs|, s.blockSize);
    assert Published(s, t);
    PublishedBlocks(s, t);
    PublishedItems(s, t);
    assert forall c :: BlockOfReason(t, c) == BlockOfReason(s, c);
    CountersStay(s, t, counted);
    ConsumersStay(s, t, counted);
    DeliveredStays(s, t, counted);
    assert LinkWith(t, counted);
  }

  // ---------------------------------------------------------------------------------------------
  // Giving blocks back
  // ---------------------------------------------------------------------------------------------

  /** The index no longer holds the producer's blocks; it goes on to free them. */
  ghost predicate Withdrawn<T>(s: State<T>, t: State<T>) {
    && OnlyProducer(s, t) && t.memory == s.memory && t.owned == s.owned && t.items == s.items
    && t.tickets == s.tickets
    && s.producer.Undo? && t.producer == Return(s.firstBlock, s.index.producer.mine, 0)
    && t.index.blocks == s.index.blocks && t.index.producer == Index.Ready([])
    && (forall q :: q in s.index.retired ==> q < |s.index.blocks|)
  }

  /** For what reason a block now being given back was owned before. */
  ghost function Formerly(n: nat, c: Reason): Reason {
    if c.Returning? then Indexed(n + c.j) else c
  }

  lemma WithdrawnReason<T>(s: State<T>, t: State<T>, c: Reason)
    requires Withdrawn(s, t)
    ensures BlockOfReason(t, c).At? ==> BlockOfReason(t, c) == BlockOfReason(s, Formerly(|s.index.blocks|, c))
    ensures BlockOfReason(t, c).At? && c.Indexed? ==> c.q < |s.index.blocks|
    ensures BlockOfReason(s, c).At? && !(c.Indexed? && c.q >= |s.index.blocks|) ==>
              BlockOfReason(t, c) == BlockOfReason(s, c)
    ensures BlockOfReason(s, c).At? && c.Indexed? && c.q >= |s.index.blocks| ==>
              BlockOfReason(t, Returning(c.q - |s.index.blocks|)) == BlockOfReason(s, c)
  {
  }

  lemma WithdrawnOwned<T>(s: State<T>, t: State<T>)
    requires Withdrawn(s, t) && OwnedOk(s)
    ensures OwnedOk(t)
  {
    var n := |s.index.blocks|;
    forall c | BlockOfReason(t, c).At?
      ensures BlockOfReason(t, c).node in t.owned && BlockOfReason(t, c).node < |t.memory|
    {
      WithdrawnReason(s, t, c);
    }
    forall c, d | BlockOfReason(t, c).At? && BlockOfReason(t, c) == BlockOfReason(t, d) ensures c == d {
      WithdrawnReason(s, t, c);
      WithdrawnReason(s, t, d);
      assert Formerly(n, c) == Formerly(n, d);
    }
    forall x | x in t.owned ensures exists c :: BlockOfReason(t, c) == At(x) {
      var c :| BlockOfReason(s, c) == At(x);
      WithdrawnReason(s, t, c);
    }
  }

  lemma WithdrawnItems<T>(s: State<T>, t: State<T>)
    requires Withdrawn(s, t) && ItemsOk(s) && |s.index.blocks| == Ceiling(|s.items|, s.blockSize)
    ensures ItemsOk(t)
  {
    forall x: nat | x < |t.items| && x !in t.got ensures HeldAt(t, x, t.items[x]) {
      assert HeldAt(s, x, s.items[x]);
      HomeBelowCeiling(x, |s.items|, s.blockSize);
    }
  }

  lemma BoundedLess<T>(s: State<T>, t: State<T>, m: nat, n: nat)
    requires Bounded(s, m) && n <= m
    requires t.blockSize == s.blockSize && t.limit == s.limit && t.leeway == s.leeway && s.tickets.head <= t.tickets.head
    ensures Bounded(t, n)
  {
    assert m * s.blockSize == n * s.blockSize + (m - n) * s.blockSize;
    MulBounds(m - n, s.blockSize);
  }

  lemma WithdrawKeeps<T>(s: State<T>, t: State<T>, counted: set<nat>, c: Choice<T>)
    requires Facts(s) && LinkWith(s, counted) && ProducerEnabled(s, c) && t == ProducerAfter(s, c)
    requires Index.Shape(t.index) && s.producer.Undo?
    requires s.index.producer.Undoing? && s.index.producer.k >= |s.index.producer.mine|
    requires s.producer.at == Null
    ensures Link(t)
  {
    assert Withdrawn(s, t);
    WithdrawnOwned(s, t);
    WithdrawnItems(s, t);
    BoundedLess(s, t, Total(s), Total(t));
    CountersStay(s, t, counted);
    ConsumersStay(s, t, counted);
    DeliveredStays(s, t, counted);
    assert LinkWith(t, counted);
  }

  lemma ReturnOwned<T>(s: State<T>, t: State<T>)
    requires OnlyProducer(s, t) && t.index == s.index && OwnedOk(s)
    requires s.producer.Return? && s.producer.j < |s.producer.mine|
    requires t.producer.Return? && t.producer.mine == s.producer.mine && t.producer.j == s.producer.j + 1
    requires t.owned == s.owned - {s.producer.mine[s.producer.j]}
    ensures OwnedOk(t)
  {
    var j := s.producer.j;
    assert BlockOfReason(s, Returning(j)) == At(s.producer.mine[j]) && BlockOfReason(t, Returning(j)) == Null;
    assert forall c :: c != Returning(j) ==> BlockOfReason(t, c) == BlockOfReason(s, c);
  }

  lemma ReturnKeeps<T>(s: State<T>, t: State<T>, counted: set<nat>, c: Choice<T>)
    requires LinkWith(s, counted) && ProducerEnabled(s, c) && t == ProducerAfter(s, c)
    requires s.producer.Return? && s.producer.j < |s.producer.mine| && s.producer.at == At(s.producer.mine[s.producer.j])
    ensures Link(t)
  {
    ReturnOwned(s, t);
    CountersStay(s, t, counted);
    ItemsStay(s, t);
    ConsumersStay(s, t, counted);
    DeliveredStays(s, t, counted);
    assert LinkWith(t, counted);
  }

  // ---------------------------------------------------------------------------------------------
  // Every step, and the other sub-queues'
  // ---------------------------------------------------------------------------------------------

  lemma ProducerStepKeeps<T>(s: State<T>, t: State<T>, counted: set<nat>, c: Choice<T>)
    requires Facts(s) && LinkWith(s, counted) && TailOk(s) && ProducerEnabled(s, c) && t == ProducerAfter(s, c)
    requires Index.Shape(t.index)
    ensures Link(t)
  {
    match s.producer
    case Ready => StartKeeps(s, t, counted, c);
    case Reserve(_) => ReserveKeeps(s, t, counted, c);
    case Guarded(_) => InnerKeeps(s, t, counted, c);
    case Insert(_) => if c.Obtain? { ObtainKeeps(s, t, counted, c); } else { InnerKeeps(s, t, counted, c); }
    case Reset(_, _) => ResetKeeps(s, t, counted, c);
    case Store(_, _) => StoreKeeps(s, t, counted, c);
    case Write(xs, k) => if k < |xs| { WriteKeeps(s, t, counted, c); } else { PublishKeeps(s, t, counted, c); }
    case Undo(_) =>
      var p := s.index.producer;
      if p.Undoing? && p.k >= |p.mine| { WithdrawKeeps(s, t, counted, c); } else { InnerKeeps(s, t, counted, c); }
    case Return(_, mine, j) => if j < |mine| { ReturnKeeps(s, t, counted, c); } else { StartKeeps(s, t, counted, c); }
  }

  /** Blocks this sub-queue owns are left alone by the others. */
  lemma OwnedUntouched<T>(s: State<T>, t: State<T>, memory: seq<Block<T>>)
    requires Shape(s) && OwnedOk(s) && OthersEnabled(s, memory) && t == s.(memory := memory)
    ensures OwnedOk(t)
    ensures forall q: nat :: Live(s, q) ==>
              BlockFor(s, q) < |s.memory| && t.memory[BlockFor(s, q)] == s.memory[BlockFor(s, q)]
    ensures s.producer.Store? ==>
              s.producer.block < |s.memory| && t.memory[s.producer.block] == s.memory[s.producer.block]
  {
    forall q: nat | Live(s, q)
      ensures BlockFor(s, q) < |s.memory| && t.memory[BlockFor(s, q)] == s.memory[BlockFor(s, q)]
    {
      assert BlockOfReason(s, Indexed(q)) == At(BlockFor(s, q));
    }
    if s.producer.Store? { assert BlockOfReason(s, Coming) == At(s.producer.block); }
    assert forall c :: BlockOfReason(t, c) == BlockOfReason(s, c);
  }

  lemma OthersLeaveConsumers<T>(s: State<T>, t: State<T>, counted: set<nat>)
    requires Shape(s) && Shape(t) && t == s.(memory := t.memory)
    requires ConsumersOk(s, counted) && DeliveredOk(s, counted)
    ensures ConsumersOk(t, counted) && DeliveredOk(t, counted)
  {
    forall i | 0 <= i < |t.consumers| ensures InStep(t, i) && ClaimOk(t, counted, i) {
      assert InStep(s, i) && ClaimOk(s, counted, i);
      assert forall x: nat :: Pending(t, i, x) <==> Pending(s, i, x);
    }
    forall i, j, q: nat | 0 <= i < j < |t.consumers| && Nulls(t, i, q) ensures !Nulls(t, j, q) {
      assert Nulls(s, i, q);
      assert !Nulls(s, j, q);
    }
    forall x: nat | x < t.tickets.head
      ensures x in counted || exists i :: 0 <= i < |t.consumers| && Pending(t, i, x)
    {
      if x !in counted {
        var i :| 0 <= i < |s.consumers| && Pending(s, i, x);
        assert Pending(t, i, x);
      }
    }
  }

  lemma OthersLeaveCounters<T>(s: State<T>, t: State<T>, counted: set<nat>)
    requires Shape(s) && Shape(t) && t == s.(memory := t.memory) && |s.memory| <= |t.memory|
    requires forall q: nat :: Live(s, q) ==>
               BlockFor(s, q) < |s.memory| && t.memory[BlockFor(s, q)] == s.memory[BlockFor(s, q)]
    requires CountersOk(s, counted)
    ensures CountersOk(t, counted)
  {
    assert forall q: nat :: Live(t, q) <==> Live(s, q);
    forall q: nat | Live(t, q) && AllCounted(counted, q, t.blockSize)
      ensures exists i :: 0 <= i < |t.consumers| && Nulls(t, i, q)
    {
      var i :| 0 <= i < |s.consumers| && Nulls(s, i, q);
      assert Nulls(t, i, q);
    }
    forall i, q: nat | 0 <= i < |t.consumers| && Nulls(t, i, q) ensures AllCounted(counted, q, t.blockSize) {
      assert Nulls(s, i, q);
    }
  }

  lemma OthersLeaveItems<T>(s: State<T>, t: State<T>)
    requires Shape(s) && Shape(t) && t == s.(memory := t.memory) && |s.memory| <= |t.memory|
    requires forall q: nat :: Live(s, q) ==>
               BlockFor(s, q) < |s.memory| && t.memory[BlockFor(s, q)] == s.memory[BlockFor(s, q)]
    requires ItemsOk(s)
    ensures ItemsOk(t)
  {
    assert forall x: nat, item: T :: HeldAt(s, x, item) ==> HeldAt(t, x, item);
  }

  lemma OthersKeep<T>(s: State<T>, t: State<T>, counted: set<nat>, memory: seq<Block<T>>)
    requires LinkWith(s, counted) && OthersEnabled(s, memory) && t == s.(memory := memory)
    ensures Link(t)
  {
    OwnedUntouched(s, t, memory);
    OthersLeaveConsumers(s, t, counted);
    OthersLeaveCounters(s, t, counted);
    OthersLeaveItems(s, t);
    assert LinkWith(t, counted);
  }
}
