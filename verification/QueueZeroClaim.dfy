/** A bulk dequeue may be called with a maximum of zero.  It then claims no item and looks up the block of the
    index it claimed nothing from: when that goes well, and a run in which it does not. */
module QueueZeroClaim {
  import opened Pointers
  import opened Modular
  import opened Queue
  import opened QueueInvariant
  import opened QueueProof
  import QueueDelivery
  import Tickets
  import Index = BlockIndex
  import IndexProof = BlockIndexProof

  // ---------------------------------------------------------------------------------------------
  // When the block is there
  // ---------------------------------------------------------------------------------------------

  /** The block of the head is in use if an item of it is not dequeued yet, or not enqueued yet. */
  lemma HeadBlockIsUsed<T>(s: State<T>, counted: set<nat>)
    requires Facts(s) && LinkWith(s, counted)
    requires s.tickets.head < s.tickets.tail || s.tickets.head % s.blockSize != 0
    ensures var q := Home(s.tickets.head, s.blockSize);
            && Live(s, q) && q < |s.index.blocks| && BlockFor(s, q) < |s.memory|
            && s.memory[BlockFor(s, q)].emptied != s.blockSize
  {
    var head, b := s.tickets.head, s.blockSize;
    var q := Home(head, b);
    if head < s.tickets.tail {
      HomeBelowCeiling(head, |s.items|, b);
    } else {
      SameBlockBefore(head, b);
      HomeBelowCeiling(head - 1, |s.items|, b);
    }
    assert head !in counted;
    assert !AllCounted(counted, q, b);
    FullIffAllCounted(counted, q, b);
  }

  lemma SameBlockBefore(x: nat, b: nat)
    requires b > 0 && x % b != 0
    ensures x > 0 && Home(x - 1, b) == Home(x, b)
  {
    if x == 0 { ModSmall(0, b); }
    HomeIsQuotient(x, b);
    HomeIsQuotient(x - 1, b);
    QuotientBounds(x, b);
    QuotientIs(x - 1, x / b, b);
  }

  lemma FindsUsedBlock<T>(s: State<T>, x: nat, q: nat)
    requires Shape(s) && IndexProof.Inv(s.index) && q == x / s.blockSize
    requires q < |s.index.blocks| && q !in s.index.retired && BlockFor(s, q) < |s.memory|
    requires s.memory[BlockFor(s, q)].emptied != s.blockSize
    ensures FindsBlock(s, x)
  {
    IndexProof.CurrentLookupIsRight(s.index, q);
  }

  lemma FindsNoUnusedBlock<T>(s: State<T>, x: nat, q: nat)
    requires Shape(s) && IndexProof.Inv(s.index) && s.index.producer == Index.Ready([])
    requires q == x / s.blockSize && q >= |s.index.blocks|
    ensures !FindsBlock(s, x)
  {
    if s.index.headers != [] { NoEntryBeyond(s.index, q); }
  }

  lemma NoEntryBeyond(x: Index.State, q: nat)
    requires IndexProof.Inv(x) && x.producer == Index.Ready([]) && x.headers != [] && q >= |x.blocks|
    ensures Index.Shape(x)
    ensures var h := x.headers[Index.Current(x)];
            forall p :: 0 <= p < |h.index| ==>
              !(x.entries[h.index[p]].key == q * x.blockSize && x.entries[h.index[p]].value != Null)
  {
    IndexProof.IdleIndexIsExact(x);
    IndexProof.BaseIsValid(q, x.blockSize);
    forall p: nat | p < |x.blocks| ensures p * x.blockSize != q * x.blockSize { BasesDiffer(p, q, x.blockSize); }
  }

  lemma BasesDiffer(p: nat, q: nat, b: nat)
    requires b > 0 && p < q
    ensures p * b != q * b
  {
    MulBounds(q - p - 1, b);
    assert q * b == p * b + (q - p - 1) * b + b;
  }

  /** Between enqueues, a dequeue that claimed nothing goes on well exactly if there is an item to dequeue, or
      the last block with items has room for another. */
  lemma ZeroClaimFindsBlock<T>(s: State<T>, i: nat, max: nat)
    requires Inv(s) && i < |s.consumers| && ClaimsNothing(s, i)
    requires s.tickets.pcs[i].first == s.tickets.head && s.producer.Ready?
    ensures Shape(s)
    ensures ConsumerEnabled(s, i, max) <==> s.tickets.head < s.tickets.tail || s.tickets.head % s.blockSize != 0
  {
    FactsHold(s);
    ConsumerNeverStuck(s, i, max);
    var counted :| LinkWith(s, counted);
    var head, b := s.tickets.head, s.blockSize;
    HomeIsQuotient(head, b);
    if head < s.tickets.tail || head % b != 0 {
      HeadBlockIsUsed(s, counted);
      FindsUsedBlock(s, head, head / b);
    } else {
      QuotientBounds(head, b);
      CeilingIsQuotient(head, b);
      FindsNoUnusedBlock(s, head, head / b);
    }
  }

  lemma CeilingIsQuotient(x: nat, b: nat)
    requires b > 0 && x % b == 0
    ensures Ceiling(x, b) == x / b
  {
    QuotientBounds(x, b);
    QuotientIs(x - 1, x / b - 1, b);
    assert x - 1 == (x / b - 1) * b + (b - 1);
  }

  // ---------------------------------------------------------------------------------------------
  // A run in which it is not
  // ---------------------------------------------------------------------------------------------

  // The sub-queue has blocks of two slots, two consumers, one block of memory and an index of one entry.

  function OneEntry(key: nat, value: Ptr, blocks: seq<Node>, producer: Index.Producer): Index.State {
    Index.State(2, [Index.Entry(key, value)], [Index.Header(1, 0, [0])], 2, blocks, {}, producer,
                [Index.Resting, Index.Resting])
  }

  function Counters(tail: nat, head: nat, taken: nat, pc0: Tickets.PC, pc1: Tickets.PC): Tickets.State {
    Tickets.State(tail, head, taken, 0, [pc0, pc1])
  }

  /** While its first enqueue, of `xs`, has no block yet. */
  function Starting<T>(index: Index.State, owned: set<Node>, p: Producer<T>): State<T> {
    State(2, NoLimit, 8, index, Counters(0, 0, 0, Tickets.Idle, Tickets.Idle), [Block([Vacant, Vacant], 0, Null)],
          owned, Null, Null, Null, Null, false, p, [Out, Out], [], map[])
  }

  /** When it has one. */
  function Filled<T>(index: Index.State, slots: seq<Slot<T>>, p: Producer<T>): State<T> {
    State(2, NoLimit, 8, index, Counters(0, 0, 0, Tickets.Idle, Tickets.Idle), [Block(slots, 0, Null)], {0},
          At(0), Null, At(0), At(0), false, p, [Out, Out], [], map[])
  }

  /** When its items are there. */
  function Enqueued<T>(x: T, y: T, tickets: Tickets.State): State<T> {
    State(2, NoLimit, 8, OneEntry(0, At(0), [0], Index.Ready([])), tickets, [Block([Full(x), Full(y)], 0, Null)], {0},
          At(0), Null, At(0), At(0), true, Ready, [Out, Out], [x, y], map[])
  }

  lemma Produces<T(!new)>(s: State<T>, c: Choice<T>, t: State<T>)
    requires Reachable(s) && ProducerEnabled(s, c) && t == ProducerAfter(s, c)
    ensures Reachable(t)
  {
    ReachStep(s, Produce(c), t);
  }

  lemma Consumes<T(!new)>(x: T, y: T, s: Tickets.State, i: nat, max: nat, t: Tickets.State)
    requires Reachable(Enqueued(x, y, s)) && |s.pcs| == 2 && i < 2 && !s.pcs[i].Deliver? && t == Tickets.After(s, i, max)
    ensures Reachable(Enqueued(x, y, t))
  {
    ReachStep(Enqueued(x, y, s), Consume(i, max), Enqueued(x, y, t));
  }

  /** The constructor has made the index. */
  lemma IndexStarts()
    ensures Index.Init(OneEntry(1, Null, [], Index.Ready([])))
  {
    var e := Index.State(2, [], [], 1, [], {}, Index.Ready([]), [Index.Resting, Index.Resting]);
    assert Index.NewHeader(e).index == [0];
    assert Index.Empty(e) && OneEntry(1, Null, [], Index.Ready([])) == Index.Grow(e, [Null]);
  }

  lemma StartIsReachable<T(!new)>()
    ensures Reachable<T>(Starting(OneEntry(1, Null, [], Index.Ready([])), {}, Ready))
  {
    var s: State<T> := Starting(OneEntry(1, Null, [], Index.Ready([])), {}, Ready);
    IndexStarts();
    assert Run([s], []);
  }

  lemma GuardIsReachable<T(!new)>(xs: seq<T>)
    requires |xs| == 2
    ensures Reachable(Starting(OneEntry(1, Null, [], Index.Ready([])), {}, Guarded(xs)))
  {
    StartIsReachable<T>();
    var bare := OneEntry(1, Null, [], Index.Ready([]));
    Produces(Starting(bare, {}, Ready), Call(xs), Starting(bare, {}, Reserve(xs)));
    Produces(Starting(bare, {}, Reserve(xs)), Go, Starting(bare, {}, Guarded(xs)));
  }

  predicate IndexStep(i: Index.State, c: Index.Choice, j: Index.State) {
    Index.ProducerEnabled(i, c) && j == Index.ProducerAfter(i, c) && i.blockSize == 2 && |i.readers| == 2
  }

  lemma IndexKeys()
    ensures IndexStep(OneEntry(1, Null, [], Index.Keying([], 0)), Index.Insert, OneEntry(0, Null, [], Index.Advancing([], 0)))
  {
    assert [Index.Entry(1, Null)][0 := Index.Entry(0, Null)] == [Index.Entry(0, Null)];
  }

  lemma IndexAdvances()
    ensures IndexStep(OneEntry(0, Null, [], Index.Advancing([], 0)), Index.Insert, OneEntry(0, Null, [], Index.Filling([], 0)))
  {
    assert [Index.Header(1, 0, [0])][0 := Index.Header(1, 0, [0])] == [Index.Header(1, 0, [0])];
  }

  lemma IndexFills()
    ensures IndexStep(OneEntry(0, Null, [], Index.Filling([], 0)), Index.Obtain(0), OneEntry(0, At(0), [], Index.Ready([0])))
  {
    var mine: seq<Node> := [0];
    assert [] + mine == mine;
    assert [Index.Entry(0, Null)][0 := Index.Entry(0, At(0))] == [Index.Entry(0, At(0))];
  }

  lemma IndexCommits()
    ensures IndexStep(OneEntry(0, At(0), [], Index.Ready([0])), Index.Commit, OneEntry(0, At(0), [0], Index.Ready([])))
  {
    var mine: seq<Node> := [0];
    assert [] + mine == mine;
  }

  lemma InsertStep<T(!new)>(xs: seq<T>, i: Index.State, j: Index.State)
    requires Reachable(Starting(i, {}, Insert(xs))) && IndexStep(i, Index.Insert, j) && !i.producer.Filling?
    ensures Reachable(Starting(j, {}, Insert(xs)))
  {
    Produces(Starting(i, {}, Insert(xs)), Go, Starting(j, {}, Insert(xs)));
  }

  lemma KeyingIsReachable<T(!new)>(xs: seq<T>)
    requires |xs| == 2
    ensures Reachable(Starting(OneEntry(1, Null, [], Index.Keying([], 0)), {}, Insert(xs)))
  {
    GuardIsReachable(xs);
    Produces(Starting(OneEntry(1, Null, [], Index.Ready([])), {}, Guarded(xs)), Go,
             Starting(OneEntry(1, Null, [], Index.Keying([], 0)), {}, Insert(xs)));
  }

  lemma FillingIsReachable<T(!new)>(xs: seq<T>)
    requires |xs| == 2
    ensures Reachable(Starting(OneEntry(0, Null, [], Index.Filling([], 0)), {}, Insert(xs)))
  {
    KeyingIsReachable(xs);
    IndexKeys();
    InsertStep(xs, OneEntry(1, Null, [], Index.Keying([], 0)), OneEntry(0, Null, [], Index.Advancing([], 0)));
    IndexAdvances();
    InsertStep(xs, OneEntry(0, Null, [], Index.Advancing([], 0)), OneEntry(0, Null, [], Index.Filling([], 0)));
  }

  lemma StoreIsReachable<T(!new)>(xs: seq<T>)
    requires |xs| == 2
    ensures Reachable(Starting(OneEntry(0, Null, [], Index.Filling([], 0)), {0}, Store(xs, 0)))
  {
    FillingIsReachable(xs);
    var filling := OneEntry(0, Null, [], Index.Filling([], 0));
    Produces(Starting(filling, {}, Insert(xs)), Obtain(0), Starting(filling, {0}, Reset(xs, 0)));
    Produces(Starting(filling, {0}, Reset(xs, 0)), Go, Starting(filling, {0}, Store(xs, 0)));
  }

  lemma StoreStep<T(!new)>(xs: seq<T>, i: Index.State, j: Index.State)
    requires Reachable(Starting(i, {0}, Store(xs, 0))) && IndexStep(i, Index.Obtain(0), j)
    ensures Reachable(Filled(j, [Vacant, Vacant], Reserve(xs)))
  {
    Produces(Starting(i, {0}, Store(xs, 0)), Go, Filled(j, [Vacant, Vacant], Reserve(xs)));
  }

  lemma WriteStep<T(!new)>(xs: seq<T>, i: Index.State, slots: seq<Slot<T>>, k: nat, written: seq<Slot<T>>)
    requires Reachable(Filled(i, slots, Write(xs, k))) && |xs| == 2 && k < 2
    requires |slots| == 2 && Index.Shape(i) && i.blockSize == 2 && |i.readers| == 2
    requires written == slots[k := Full(xs[k])]
    ensures Reachable(Filled(i, written, Write(xs, k + 1)))
  {
    ModSmall(k, 2);
    Produces(Filled(i, slots, Write(xs, k)), Go, Filled(i, written, Write(xs, k + 1)));
  }

  lemma ReserveStep<T(!new)>(xs: seq<T>, i: Index.State)
    requires Reachable(Filled(i, [Vacant, Vacant], Reserve(xs))) && |xs| == 2
    requires Index.Shape(i) && i.blockSize == 2 && |i.readers| == 2 && i.producer == Index.Ready([0])
    ensures Reachable(Filled(i, [Vacant, Vacant], Write(xs, 0)))
  {
    Produces(Filled(i, [Vacant, Vacant], Reserve(xs)), Go, Filled(i, [Vacant, Vacant], Write(xs, 0)));
  }

  lemma WritingIsReachable<T(!new)>(xs: seq<T>)
    requires |xs| == 2
    ensures Reachable(Filled(OneEntry(0, At(0), [], Index.Ready([0])), [Vacant, Vacant], Write(xs, 0)))
  {
    StoreIsReachable(xs);
    var i, j := OneEntry(0, Null, [], Index.Filling([], 0)), OneEntry(0, At(0), [], Index.Ready([0]));
    IndexFills();
    StoreStep(xs, i, j);
    ReserveStep(xs, j);
  }

  lemma HalfWrittenIsReachable<T(!new)>(xs: seq<T>)
    requires |xs| == 2
    ensures Reachable(Filled(OneEntry(0, At(0), [], Index.Ready([0])), [Full(xs[0]), Vacant], Write(xs, 1)))
  {
    WritingIsReachable(xs);
    IndexCommits();
    WriteStep(xs, OneEntry(0, At(0), [], Index.Ready([0])), [Vacant, Vacant], 0, [Full(xs[0]), Vacant]);
  }

  lemma WrittenIsReachable<T(!new)>(xs: seq<T>)
    requires |xs| == 2
    ensures Reachable(Filled(OneEntry(0, At(0), [], Index.Ready([0])), [Full(xs[0]), Full(xs[1])], Write(xs, 2)))
  {
    HalfWrittenIsReachable(xs);
    IndexCommits();
    WriteStep(xs, OneEntry(0, At(0), [], Index.Ready([0])), [Full(xs[0]), Vacant], 1, [Full(xs[0]), Full(xs[1])]);
  }

  lemma EnqueuedIsReachable<T(!new)>(x: T, y: T)
    ensures Reachable(Enqueued(x, y, Counters(2, 0, 0, Tickets.Idle, Tickets.Idle)))
  {
    WrittenIsReachable([x, y]);
    var i, j := OneEntry(0, At(0), [], Index.Ready([0])), OneEntry(0, At(0), [0], Index.Ready([]));
    IndexCommits();
    CommitStep(x, y, i, j);
  }

  lemma CommitStep<T(!new)>(x: T, y: T, i: Index.State, j: Index.State)
    requires Reachable(Filled(i, [Full(x), Full(y)], Write([x, y], 2))) && IndexStep(i, Index.Commit, j)
    requires j == OneEntry(0, At(0), [0], Index.Ready([]))
    ensures Reachable(Enqueued(x, y, Counters(2, 0, 0, Tickets.Idle, Tickets.Idle)))
  {
    Produces(Filled(i, [Full(x), Full(y)], Write([x, y], 2)), Go,
             Enqueued(x, y, Counters(2, 0, 0, Tickets.Idle, Tickets.Idle)));
  }

  /** Consumer 0, asking for no item, comes to its claim while there are two. */
  lemma ZeroIsReachable<T(!new)>(x: T, y: T)
    ensures Reachable(Enqueued(x, y, Counters(2, 0, 0, Tickets.Claim(0), Tickets.Idle)))
  {
    EnqueuedIsReachable(x, y);
    var idle := Tickets.Idle;
    Consumes(x, y, Counters(2, 0, 0, idle, idle), 0, 0, Counters(2, 0, 0, Tickets.LoadOvercommit(0, 2), idle));
    Consumes(x, y, Counters(2, 0, 0, Tickets.LoadOvercommit(0, 2), idle), 0, 0, Counters(2, 0, 0, Tickets.LoadOptimistic(0, 2, 0), idle));
    Consumes(x, y, Counters(2, 0, 0, Tickets.LoadOptimistic(0, 2, 0), idle), 0, 0, Counters(2, 0, 0, Tickets.TakeTickets(0, 0), idle));
    Consumes(x, y, Counters(2, 0, 0, Tickets.TakeTickets(0, 0), idle), 0, 0, Counters(2, 0, 0, Tickets.Recheck(0, 0, 0), idle));
    Consumes(x, y, Counters(2, 0, 0, Tickets.Recheck(0, 0, 0), idle), 0, 0, Counters(2, 0, 0, Tickets.Claim(0), idle));
  }

  /** Meanwhile consumer 1 takes two tickets. */
  lemma TakenIsReachable<T(!new)>(x: T, y: T)
    ensures Reachable(Enqueued(x, y, Counters(2, 0, 2, Tickets.Claim(0), Tickets.Recheck(2, 0, 0))))
  {
    ZeroIsReachable(x, y);
    var zero := Tickets.Claim(0);
    Consumes(x, y, Counters(2, 0, 0, zero, Tickets.Idle), 1, 2, Counters(2, 0, 0, zero, Tickets.LoadOvercommit(2, 2)));
    Consumes(x, y, Counters(2, 0, 0, zero, Tickets.LoadOvercommit(2, 2)), 1, 2, Counters(2, 0, 0, zero, Tickets.LoadOptimistic(2, 2, 0)));
    Consumes(x, y, Counters(2, 0, 0, zero, Tickets.LoadOptimistic(2, 2, 0)), 1, 2, Counters(2, 0, 0, zero, Tickets.TakeTickets(2, 0)));
    Consumes(x, y, Counters(2, 0, 0, zero, Tickets.TakeTickets(2, 0)), 1, 2, Counters(2, 0, 2, zero, Tickets.Recheck(2, 0, 0)));
  }

  /** It claims both items. */
  lemma ClaimedIsReachable<T(!new)>(x: T, y: T)
    ensures Reachable(Enqueued(x, y, Counters(2, 2, 2, Tickets.Claim(0), Tickets.Deliver(0, 2))))
  {
    TakenIsReachable(x, y);
    var zero := Tickets.Claim(0);
    Consumes(x, y, Counters(2, 0, 2, zero, Tickets.Recheck(2, 0, 0)), 1, 2, Counters(2, 0, 2, zero, Tickets.Claim(2)));
    Consumes(x, y, Counters(2, 0, 2, zero, Tickets.Claim(2)), 1, 2, Counters(2, 2, 2, zero, Tickets.Deliver(0, 2)));
  }

  /** Two consumers and one block of two items: by the time the consumer that asks for none claims them, the other
      has claimed both, and the block to look up is not there. */
  lemma ZeroClaimGetsStuck<T(!new)>(x: T, y: T)
    ensures exists s: State<T> ::
              && Reachable(s) && Shape(s) && s.consumers != [] && ClaimsNothing(s, 0) && s.tickets.pcs[0].first == s.tickets.head
              && s.producer.Ready? && forall max: nat :: !ConsumerEnabled(s, 0, max)
  {
    ClaimedIsReachable(x, y);
    var t := Counters(2, 2, 2, Tickets.Deliver(2, 0), Tickets.Deliver(0, 2));
    Consumes(x, y, Counters(2, 2, 2, Tickets.Claim(0), Tickets.Deliver(0, 2)), 0, 0, t);
    IsStuck(Enqueued(x, y, t));
  }

  lemma IsStuck<T(!new)>(s: State<T>)
    requires Reachable(s) && s.consumers != [] && s.tickets.pcs != [] && ClaimsNothing(s, 0) && s.producer.Ready?
    requires s.tickets.pcs[0].first == s.tickets.head == s.tickets.tail == 2 == s.blockSize
    ensures Shape(s) && forall max: nat :: !ConsumerEnabled(s, 0, max)
  {
    Reached(s);
    forall max: nat ensures !ConsumerEnabled(s, 0, max) { ZeroClaimFindsBlock(s, 0, max); }
  }
}
