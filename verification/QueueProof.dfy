/** Every reachable state of a sub-queue keeps its invariant, and in none is anybody stuck. */
module QueueProof {
  import opened Pointers
  import opened Modular
  import opened Queue
  import opened QueueInvariant
  import QueueConsumers
  import QueueProducer
  import QueueTail
  import Tickets
  import TicketsProof
  import Index = BlockIndex
  import IndexProof = BlockIndexProof

  // ---------------------------------------------------------------------------------------------
  // Every reachable state
  // ---------------------------------------------------------------------------------------------

  lemma ProduceKeepsParts<T>(s: State<T>, t: State<T>, c: Choice<T>)
    requires Shape(s) && IndexProof.Inv(s.index) && TicketsProof.Inv(s.tickets)
    requires ProducerEnabled(s, c) && t == ProducerAfter(s, c)
    ensures IndexProof.Inv(t.index) && TicketsProof.Inv(t.tickets)
  {
    IndexOfStep(s, t, c);
    TicketsOfStep(s, t, c);
    if UsesIndex(s, c) {
      IndexProof.StepKeeps(s.index, Index.Produce(IndexChoice(s, c)));
      assert IndexProof.Inv(Index.ProducerAfter(s.index, IndexChoice(s, c)));
    }
    if s.producer.Write? { TicketsProof.PublishKeeps(s.tickets, |s.producer.xs|); }
  }

  lemma IndexOfStep<T>(s: State<T>, t: State<T>, c: Choice<T>)
    requires ProducerEnabled(s, c) && t == ProducerAfter(s, c)
    ensures t.index == if UsesIndex(s, c) then Index.ProducerAfter(s.index, IndexChoice(s, c)) else s.index
  {
  }

  lemma TicketsOfStep<T>(s: State<T>, t: State<T>, c: Choice<T>)
    requires ProducerEnabled(s, c) && t == ProducerAfter(s, c)
    ensures t.tickets == s.tickets || (s.producer.Write? && t.tickets == Tickets.Publish(s.tickets, |s.producer.xs|))
  {
  }

  lemma ProduceKeepsLink<T>(s: State<T>, t: State<T>, c: Choice<T>)
    requires ProducerEnabled(s, c) && t == ProducerAfter(s, c)
    requires Facts(s) && Link(s) && TailOk(s) && Index.Shape(t.index)
    ensures Link(t) && TailOk(t)
  {
    var counted :| LinkWith(s, counted);
    QueueProducer.ProducerStepKeeps(s, t, counted, c);
    QueueTail.ProducerKeepsTail(s, t, counted, c);
  }

  lemma ProduceKeeps<T>(s: State<T>, t: State<T>, c: Choice<T>)
    requires Inv(s) && ProducerEnabled(s, c) && t == ProducerAfter(s, c)
    ensures Inv(t)
  {
    FactsHold(s);
    ProduceKeepsParts(s, t, c);
    IndexShape(t.index);
    ProduceKeepsLink(s, t, c);
    LinkHasShape(t);
  }

  lemma LinkHasShape<T>(s: State<T>)
    requires Link(s)
    ensures Shape(s)
  {
    var counted :| LinkWith(s, counted);
  }

  lemma IndexShape(s: Index.State)
    requires IndexProof.Inv(s)
    ensures Index.Shape(s)
  {
    var a :| IndexProof.InvWith(s, a);
  }

  lemma ConsumeKeepsParts<T>(s: State<T>, t: State<T>, i: nat, max: nat)
    requires Shape(s) && IndexProof.Inv(s.index) && TicketsProof.Inv(s.tickets)
    requires ConsumerEnabled(s, i, max) && t == ConsumerAfter(s, i, max)
    ensures IndexProof.Inv(t.index) && TicketsProof.Inv(t.tickets)
  {
    IndexOfConsumer(s, t, i, max);
    TicketsOfConsumer(s, t, i, max);
    if StepsIndex(s, i) {
      IndexProof.StepKeeps(s.index, Index.Consume(i, IndexUse(s, i)));
      assert IndexProof.Inv(Index.ReaderAfter(s.index, i, IndexUse(s, i)));
    }
    TicketsProof.StepKeeps(s.tickets, i, max);
  }

  lemma IndexOfConsumer<T>(s: State<T>, t: State<T>, i: nat, max: nat)
    requires ConsumerEnabled(s, i, max) && t == ConsumerAfter(s, i, max)
    ensures t.index == if StepsIndex(s, i) then Index.ReaderAfter(s.index, i, IndexUse(s, i)) else s.index
  {
  }

  lemma TicketsOfConsumer<T>(s: State<T>, t: State<T>, i: nat, max: nat)
    requires ConsumerEnabled(s, i, max) && t == ConsumerAfter(s, i, max)
    ensures t.tickets == s.tickets || t.tickets == Tickets.After(s.tickets, i, max)
  {
  }

  lemma ConsumeKeeps<T>(s: State<T>, t: State<T>, i: nat, max: nat)
    requires Inv(s) && ConsumerEnabled(s, i, max) && t == ConsumerAfter(s, i, max)
    ensures Inv(t)
  {
    FactsHold(s);
    ConsumeKeepsParts(s, t, i, max);
    var counted :| LinkWith(s, counted);
    QueueConsumers.ConsumerStepKeeps(s, t, counted, i, max);
    QueueTail.ConsumerKeepsTail(s, t, i, max);
  }

  lemma StepKeeps<T>(s: State<T>, a: Action<T>)
    requires Inv(s) && Enabled(s, a)
    ensures Inv(After(s, a))
  {
    match a
    case Produce(c) => ProduceKeeps(s, After(s, a), c);
    case Consume(i, max) => ConsumeKeeps(s, After(s, a), i, max);
    case Others(memory) =>
      var counted :| LinkWith(s, counted);
      QueueProducer.OthersKeep(s, After(s, a), counted, memory);
      FactsHold(s);
      QueueTail.OthersKeepTail(s, After(s, a), counted, memory);
  }

  lemma InitHolds<T>(s: State<T>)
    requires Init(s)
    ensures Inv(s)
  {
    IndexProof.InitHolds(s.index);
    TicketsProof.InitHolds(s.tickets);
    NothingYet(s);
    NothingLinks(s);
  }

  lemma NothingYet<T>(s: State<T>)
    requires Init(s)
    ensures s.index.blocks == [] && s.index.producer == Index.Ready([]) && s.index.retired == {}
    ensures forall i :: 0 <= i < |s.index.readers| ==> s.index.readers[i] == Index.Resting
  {
  }

  lemma NothingLinks<T>(s: State<T>)
    requires Shape(s) && s.index.blocks == [] && s.index.producer == Index.Ready([]) && s.index.retired == {}
    requires forall i :: 0 <= i < |s.index.readers| ==> s.index.readers[i] == Index.Resting
    requires forall i :: 0 <= i < |s.consumers| ==> s.consumers[i] == Out && s.tickets.pcs[i] == Tickets.Idle
    requires s.tickets.head == s.tickets.tail == 0 && s.items == [] && s.got == map[] && s.owned == {}
    requires s.producer == Ready && (s.limit.AtMost? ==> s.limit.size % s.blockSize == 0)
    ensures Link(s)
  {
    QuotientIs(-1, -1, s.blockSize);
    assert forall c :: BlockOfReason(s, c) == Null;
    assert OwnedOk(s) && ProducerOk(s) && CountersOk(s, {});
    assert LinkWith(s, {});
  }

  lemma {:induction false} RunHolds<T>(r: seq<State<T>>, acts: seq<Action<T>>, k: nat)
    requires Run(r, acts) && k < |r|
    ensures Inv(r[k]) && Shape(r[k])
  {
    if k == 0 {
      InitHolds(r[0]);
    } else {
      RunHolds(r, acts, k - 1);
      StepKeeps(r[k - 1], acts[k - 1]);
    }
  }

  ghost predicate Reachable<T(!new)>(s: State<T>) {
    exists r: seq<State<T>>, acts: seq<Action<T>> :: Run(r, acts) && r[|acts|] == s
  }

  lemma ReachStep<T(!new)>(s: State<T>, a: Action<T>, t: State<T>)
    requires Reachable(s) && Step(s, a, t)
    ensures Reachable(t)
  {
    var r: seq<State<T>>, acts: seq<Action<T>> :| Run(r, acts) && r[|acts|] == s;
    var r1, acts1 := r + [t], acts + [a];
    forall k {:trigger acts1[k]} | 0 <= k < |acts1| ensures Step(r1[k], acts1[k], r1[k + 1]) {
      if k < |acts| { assert acts1[k] == acts[k]; }
    }
    assert Run(r1, acts1) && r1[|acts1|] == t;
  }

  lemma Reached<T(!new)>(s: State<T>)
    requires Reachable(s)
    ensures Inv(s) && Shape(s)
  {
    var r: seq<State<T>>, acts: seq<Action<T>> :| Run(r, acts) && r[|acts|] == s;
    RunHolds(r, acts, |acts|);
  }

  // ---------------------------------------------------------------------------------------------
  // Nobody gets stuck: every assertion and every dereference on the way succeeds
  // ---------------------------------------------------------------------------------------------

  /** Some index in `x .. end` lies in block `q`. */
  lemma HomeCovers(x: nat, end: nat, q: nat, b: nat) returns (y: nat)
    requires b > 0 && x < end && Home(x, b) <= q <= Home(end - 1, b)
    ensures x <= y < end && Home(y, b) == q
  {
    if Home(x, b) == q {
      y := x;
    } else {
      MulBounds(q, b);
      y := q * b;
      HomeIsQuotient(y, b);
      QuotientIs(y, q, b);
      if y <= x { HomeMonotone(y, x, b); }
      if y >= end { HomeMonotone(end - 1, y, b); HomeBounds(end - 1, b); }
    }
  }

  /** A block a consumer is still going to use holds an index of its claim that is not counted. */
  lemma UsedIsPending<T>(s: State<T>, j: nat, q: nat) returns (y: nat)
    requires Shape(s) && j < |s.consumers| && InStep(s, j) && Index.Uses(s.index.readers[j], q) && !Nulls(s, j, q)
    ensures Pending(s, j, y) && Home(y, s.blockSize) == q
  {
    match s.consumers[j]
    case Seek(x, end) => y := HomeCovers(x, end, q, s.blockSize);
    case Move(_, start, _, _, end) => y := HomeCovers(start, end, q, s.blockSize);
    case Nulling(_, stop, end) => y := HomeCovers(stop, end, q, s.blockSize);
    case Freeing(_, stop, end) => y := HomeCovers(stop, end, q, s.blockSize);
  }

  /** When a consumer nulls the entry of a block, nobody else is going to use that block. */
  lemma NobodyUsesEmptied<T>(s: State<T>, counted: set<nat>, i: nat)
    requires Shape(s) && ConsumersOk(s, counted) && CountersOk(s, counted)
    requires i < |s.consumers| && s.consumers[i].Nulling?
    ensures s.index.readers[i].Got?
    ensures forall j :: 0 <= j < |s.consumers| && j != i ==> !Index.Uses(s.index.readers[j], s.index.readers[i].q)
  {
    assert InStep(s, i);
    var q := s.index.readers[i].q;
    assert Nulls(s, i, q);
    forall j | 0 <= j < |s.consumers| && j != i ensures !Index.Uses(s.index.readers[j], q) {
      if Index.Uses(s.index.readers[j], q) {
        assert InStep(s, j) && ClaimOk(s, counted, j);
        assert !Nulls(s, j, q);
        var y := UsedIsPending(s, j, q);
      }
    }
  }

  /** The blocks of a fresh claim are all still in the index. */
  lemma ClaimedBlocksAreLive<T>(s: State<T>, counted: set<nat>, i: nat)
    requires Facts(s) && LinkWith(s, counted) && i < |s.consumers|
    requires s.consumers[i].Out? && s.tickets.pcs[i].Deliver? && s.tickets.pcs[i].count > 0
    ensures var pc := s.tickets.pcs[i];
            var last := Home(pc.first + pc.count - 1, s.blockSize);
            && last < |s.index.blocks|
            && forall q: nat :: Home(pc.first, s.blockSize) <= q <= last ==> q !in s.index.retired
  {
    var pc := s.tickets.pcs[i];
    assert ClaimOk(s, counted, i);
    HomeBelowCeiling(pc.first + pc.count - 1, |s.items|, s.blockSize);
    forall q: nat | Home(pc.first, s.blockSize) <= q <= Home(pc.first + pc.count - 1, s.blockSize)
      ensures q !in s.index.retired
    {
      var y := HomeCovers(pc.first, pc.first + pc.count, q, s.blockSize);
      assert Pending(s, i, y);
    }
  }

  lemma MoveIsEnabled<T>(s: State<T>, counted: set<nat>, i: nat)
    requires Facts(s) && LinkWith(s, counted) && i < |s.consumers| && s.consumers[i].Move?
    ensures var Move(b, start, x, stop, _) := s.consumers[i];
            && b < |s.memory| && start <= stop && s.index.readers[i].Got?
            && (x < stop ==> s.memory[b].slots[x % s.blockSize].Full?)
  {
    assert InStep(s, i) && ClaimOk(s, counted, i);
    var Move(b, start, x, stop, end) := s.consumers[i];
    QueueConsumers.StopInBounds(start, end, s.blockSize);
    if x < stop {
      assert Pending(s, i, x);
      QueueConsumers.PendingBelowHead(s, counted, i, x);
      assert HeldAt(s, x, s.items[x]);
    }
  }

  lemma BeginIsEnabled<T>(s: State<T>, counted: set<nat>, i: nat)
    requires Facts(s) && LinkWith(s, counted) && i < |s.consumers|
    requires s.consumers[i].Out? && s.tickets.pcs[i].Deliver? && s.tickets.pcs[i].count > 0
    ensures Index.ReaderEnabled(s.index, i, IndexUse(s, i))
  {
    assert InStep(s, i);
    QueueConsumers.LastBlock(s.tickets.pcs[i].first, s.tickets.pcs[i].count, s.blockSize);
    ClaimedBlocksAreLive(s, counted, i);
  }

  /** A consumer's next step is well-defined, its lookup finds an entry, the entry has a block, the item is there,
      and an entry it nulls is used by nobody else, unless it has claimed nothing, and looks up a block that is
      not there. */
  lemma ConsumerNeverStuck<T>(s: State<T>, i: nat, max: nat)
    requires Inv(s) && i < |s.consumers|
    ensures ConsumerEnabled(s, i, max) <==> (ClaimsNothing(s, i) ==> FindsBlock(s, s.tickets.pcs[i].first))
  {
    FactsHold(s);
    var counted :| LinkWith(s, counted);
    if s.consumers[i].Out? { OutIsEnabled(s, counted, i, max); } else { InsideIsEnabled(s, counted, i, max); }
  }

  lemma OutIsEnabled<T>(s: State<T>, counted: set<nat>, i: nat, max: nat)
    requires Facts(s) && LinkWith(s, counted) && i < |s.consumers| && s.consumers[i].Out?
    ensures ConsumerEnabled(s, i, max) <==> (ClaimsNothing(s, i) ==> FindsBlock(s, s.tickets.pcs[i].first))
  {
    if s.tickets.pcs[i].Deliver? && s.tickets.pcs[i].count > 0 { BeginIsEnabled(s, counted, i); }
  }

  lemma InsideIsEnabled<T>(s: State<T>, counted: set<nat>, i: nat, max: nat)
    requires Facts(s) && LinkWith(s, counted) && i < |s.consumers| && !s.consumers[i].Out?
    ensures ConsumerEnabled(s, i, max)
  {
    assert InStep(s, i);
    match s.consumers[i]
    case Seek(_, _) =>
    case Move(_, _, _, _, _) => MoveIsEnabled(s, counted, i);
    case Nulling(_, _, _) => NobodyUsesEmptied(s, counted, i);
    case Freeing(_, _, _) =>
  }

  /** Whatever the rest of the program offers, the producer's next step is well-defined: no pointer it follows is
      null, no lookup fails, and what it asserts holds. */
  lemma ProducerNeverStuck<T>(s: State<T>)
    requires Inv(s)
    ensures PointersSound(s)
    ensures forall c :: Offered(s, c) ==> ProducerEnabled(s, c)
    ensures exists c :: Offered(s, c)
  {
    FactsHold(s);
    var counted :| LinkWith(s, counted);
    QueueTail.ProducerPointers(s, counted);
    if s.producer.Reset? { assert BlockOfReason(s, Coming) == At(s.producer.block); }
    UndoInRange(s.index);
    assert PointersSound(s);
    forall c | Offered(s, c) ensures ProducerEnabled(s, c) { OfferedIsEnabled(s, c); }
    SomethingIsOffered(s);
  }

  lemma UndoInRange(x: Index.State)
    requires IndexProof.Inv(x)
    ensures x.producer.UndoRewinding? ==> x.producer.k < |x.producer.mine|
  {
    var a :| IndexProof.InvWith(x, a);
  }

  lemma OfferedIsEnabled<T>(s: State<T>, c: Choice<T>)
    requires Shape(s) && ProducerOk(s) && PointersSound(s) && Offered(s, c)
    ensures ProducerEnabled(s, c)
  {
  }

  lemma SomethingIsOffered<T>(s: State<T>)
    requires Shape(s)
    ensures exists c :: Offered(s, c)
  {
    var c: Choice<T> := if s.producer.Ready? then Call([])
                        else if s.producer.Insert? && s.index.producer.Filling? then Fail
                        else Go;
    assert Offered(s, c);
  }

  // ---------------------------------------------------------------------------------------------
  // Who asks for at least one item claims at least one
  // ---------------------------------------------------------------------------------------------

  /** A consumer at `pc` is not in a call with a maximum of zero. */
  predicate Positive(pc: Tickets.PC) {
    match pc
    case LoadOvercommit(m, _) => m > 0
    case LoadOptimistic(m, _, _) => m > 0
    case TakeTickets(want, _) => want > 0
    case Recheck(want, _, _) => want > 0
    case Claim(count) => count > 0
    case Deliver(_, count) => count > 0
    case _ => true
  }

  lemma StaysPositive<T>(s: State<T>, a: Action<T>, t: State<T>, i: nat)
    requires Step(s, a, t) && i < |s.tickets.pcs| && Positive(s.tickets.pcs[i])
    requires a.Consume? && a.i == i ==> a.max > 0
    ensures i < |t.tickets.pcs| && Positive(t.tickets.pcs[i])
  {
    match a
    case Produce(c) => TicketsOfStep(s, t, c);
    case Consume(j, max) => TicketsOfConsumer(s, t, j, max);
    case Others(_) =>
  }

  lemma {:induction false} AsksForItems<T>(r: seq<State<T>>, acts: seq<Action<T>>, k: nat, i: nat)
    requires Run(r, acts) && k < |r| && i < |r[0].consumers|
    requires forall j :: 0 <= j < k && acts[j].Consume? && acts[j].i == i ==> acts[j].max > 0
    ensures i < |r[k].tickets.pcs| && Positive(r[k].tickets.pcs[i])
  {
    if k > 0 {
      AsksForItems(r, acts, k - 1, i);
      StaysPositive(r[k - 1], acts[k - 1], r[k], i);
    }
  }

  /** A consumer that never passes a maximum of zero never gets stuck, whatever the others pass. */
  lemma NeverStuckIfItAsks<T>(r: seq<State<T>>, acts: seq<Action<T>>, k: nat, i: nat, max: nat)
    requires Run(r, acts) && k < |r| && i < |r[0].consumers| && i < |r[k].consumers|
    requires forall j :: 0 <= j < k && acts[j].Consume? && acts[j].i == i ==> acts[j].max > 0
    ensures ConsumerEnabled(r[k], i, max)
  {
    RunHolds(r, acts, k);
    AsksForItems(r, acts, k, i);
    ConsumerNeverStuck(r[k], i, max);
  }
}
