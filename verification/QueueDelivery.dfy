/** What a sub-queue is for: every item enqueued is delivered once and in order, every emptied block is freed
    once, and an enqueue is all or nothing. */
module QueueDelivery {
  import opened Pointers
  import opened Modular
  import opened Queue
  import opened QueueInvariant
  import opened QueueProof
  import QueueConsumers
  import QueueProducer
  import TicketsProof
  import Index = BlockIndex
  import IndexProof = BlockIndexProof

  // ---------------------------------------------------------------------------------------------
  // Single steps
  // ---------------------------------------------------------------------------------------------

  lemma RunStep<T>(r: seq<State<T>>, acts: seq<Action<T>>, k: nat)
    requires Run(r, acts) && k < |acts|
    ensures Inv(r[k]) && Enabled(r[k], acts[k]) && r[k + 1] == After(r[k], acts[k])
  {
    RunHolds(r, acts, k);
  }

  lemma RunStepTo<T>(r: seq<State<T>>, acts: seq<Action<T>>, k: nat)
    requires Run(r, acts) && 0 < k < |r|
    ensures Inv(r[k - 1]) && Shape(r[k - 1]) && Enabled(r[k - 1], acts[k - 1]) && r[k] == After(r[k - 1], acts[k - 1])
  {
    RunStep(r, acts, k - 1);
  }

  lemma RunStarts<T>(r: seq<State<T>>, acts: seq<Action<T>>)
    requires Run(r, acts)
    ensures r[0].got == map[] && r[0].index.retired == {}
  {
    NothingYet(r[0]);
  }

  /** What holds in a state holds in the next. */
  ghost predicate Passes(holds: seq<bool>, m: nat)
    requires m + 1 < |holds|
  {
    holds[m] ==> holds[m + 1]
  }

  lemma {:induction false} Persists(holds: seq<bool>, j: nat, k: nat)
    requires j <= k < |holds| && holds[j] && forall m: nat :: j <= m < k ==> Passes(holds, m)
    ensures holds[k]
    decreases k
  {
    if j < k {
      Persists(holds, j, k - 1);
      assert Passes(holds, k - 1);
    }
  }

  lemma IndexKeepsRetired(x: Index.State, c: Index.Choice)
    requires Index.ProducerEnabled(x, c)
    ensures Index.ProducerAfter(x, c).retired == x.retired
    ensures !c.Commit? ==> Index.ProducerAfter(x, c).blocks == x.blocks
  {
  }

  lemma ProducerEffect<T>(s: State<T>, t: State<T>, c: Choice<T>)
    requires ProducerEnabled(s, c) && t == ProducerAfter(s, c)
    ensures t.got == s.got && t.index.retired == s.index.retired && t.consumers == s.consumers
    ensures !(s.producer.Write? && s.producer.k >= |s.producer.xs|) ==>
              t.items == s.items && t.index.blocks == s.index.blocks
    ensures s.producer.Write? && s.producer.k >= |s.producer.xs| ==>
              t.items == s.items + s.producer.xs && t.producer.Ready?
  {
    ProducerIndex(s, t, c);
    ProducerItems(s, t, c);
  }

  lemma ProducerItems<T>(s: State<T>, t: State<T>, c: Choice<T>)
    requires ProducerEnabled(s, c) && t == ProducerAfter(s, c)
    ensures t.got == s.got && t.consumers == s.consumers
    ensures if s.producer.Write? && s.producer.k >= |s.producer.xs| then t.items == s.items + s.producer.xs && t.producer.Ready?
            else t.items == s.items
  {
    match s.producer
    case Write(_, _) => WriterItems(s, t, c);
    case Store(_, _) => StorerItems(s, t, c);
    case _ =>
  }

  lemma WriterItems<T>(s: State<T>, t: State<T>, c: Choice<T>)
    requires ProducerEnabled(s, c) && t == ProducerAfter(s, c) && s.producer.Write?
    ensures t.got == s.got && t.consumers == s.consumers
    ensures if s.producer.k >= |s.producer.xs| then t.items == s.items + s.producer.xs && t.producer.Ready?
            else t.items == s.items
  {
  }

  lemma StorerItems<T>(s: State<T>, t: State<T>, c: Choice<T>)
    requires ProducerEnabled(s, c) && t == ProducerAfter(s, c) && s.producer.Store?
    ensures t.got == s.got && t.consumers == s.consumers && t.items == s.items
  {
  }

  lemma ProducerIndex<T>(s: State<T>, t: State<T>, c: Choice<T>)
    requires ProducerEnabled(s, c) && t == ProducerAfter(s, c)
    ensures t.index.retired == s.index.retired
    ensures !(s.producer.Write? && s.producer.k >= |s.producer.xs|) ==> t.index.blocks == s.index.blocks
  {
    IndexOfStep(s, t, c);
    if UsesIndex(s, c) { IndexKeepsRetired(s.index, IndexChoice(s, c)); }
  }

  predicate Moves<T>(s: State<T>, a: Action<T>, x: nat) {
    && a.Consume? && a.i < |s.consumers|
    && var c := s.consumers[a.i];
       c.Move? && c.x == x < c.stop
  }

  lemma ConsumerEffect<T>(s: State<T>, t: State<T>, i: nat, max: nat)
    requires ConsumerEnabled(s, i, max) && t == ConsumerAfter(s, i, max)
    ensures t.items == s.items && t.index.blocks == s.index.blocks && t.producer == s.producer
    ensures if s.consumers[i].Move? && s.consumers[i].x < s.consumers[i].stop
            then t.got.Keys == s.got.Keys + {s.consumers[i].x} && forall y :: y in s.got && y != s.consumers[i].x ==> t.got[y] == s.got[y]
            else t.got == s.got
    ensures t.index.retired == if s.consumers[i].Nulling? && s.index.readers[i].Got?
                               then s.index.retired + {s.index.readers[i].q}
                               else s.index.retired
  {
    IndexOfConsumer(s, t, i, max);
    ConsumerItems(s, t, i, max);
  }

  lemma ConsumerItems<T>(s: State<T>, t: State<T>, i: nat, max: nat)
    requires ConsumerEnabled(s, i, max) && t == ConsumerAfter(s, i, max)
    ensures t.items == s.items && t.producer == s.producer
    ensures if s.consumers[i].Move? && s.consumers[i].x < s.consumers[i].stop
            then t.got.Keys == s.got.Keys + {s.consumers[i].x} && forall y :: y in s.got && y != s.consumers[i].x ==> t.got[y] == s.got[y]
            else t.got == s.got
  {
  }

  lemma ConstantsOfConsumer<T>(s: State<T>, t: State<T>, i: nat, max: nat)
    requires ConsumerEnabled(s, i, max) && t == ConsumerAfter(s, i, max)
    ensures t.blockSize == s.blockSize && t.limit == s.limit && t.leeway == s.leeway
  {
  }

  lemma ConstantsOfWriter<T>(s: State<T>, t: State<T>, c: Choice<T>)
    requires ProducerEnabled(s, c) && t == ProducerAfter(s, c) && (s.producer.Write? || s.producer.Store?)
    ensures t.blockSize == s.blockSize && t.limit == s.limit && t.leeway == s.leeway
  {
  }

  lemma ConstantsOfProducer<T>(s: State<T>, t: State<T>, c: Choice<T>)
    requires ProducerEnabled(s, c) && t == ProducerAfter(s, c)
    ensures t.blockSize == s.blockSize && t.limit == s.limit && t.leeway == s.leeway
  {
    if s.producer.Write? || s.producer.Store? { ConstantsOfWriter(s, t, c); }
  }

  /** What a sub-queue is configured with never changes. */
  lemma ConstantsStay<T>(s: State<T>, a: Action<T>, t: State<T>)
    requires Step(s, a, t)
    ensures t.blockSize == s.blockSize && t.limit == s.limit && t.leeway == s.leeway
  {
    match a
    case Produce(c) => ConstantsOfProducer(s, t, c);
    case Consume(i, max) => ConstantsOfConsumer(s, t, i, max);
    case Others(_) =>
  }

  lemma CountersGrow<T>(s: State<T>, a: Action<T>, t: State<T>)
    requires Step(s, a, t)
    ensures s.tickets.head <= t.tickets.head && s.tickets.tail <= t.tickets.tail
  {
    match a
    case Produce(c) => TicketsOfStep(s, t, c);
    case Consume(i, max) => TicketsOfConsumer(s, t, i, max);
    case Others(_) =>
  }

  lemma CountersGrowAt<T>(r: seq<State<T>>, acts: seq<Action<T>>, k: nat)
    requires Run(r, acts) && 0 < k < |r|
    ensures r[k - 1].tickets.head <= r[k].tickets.head && r[k - 1].tickets.tail <= r[k].tickets.tail
    ensures r[k].blockSize == r[k - 1].blockSize && r[k].limit == r[k - 1].limit && r[k].leeway == r[k - 1].leeway
  {
    CountersGrow(r[k - 1], acts[k - 1], r[k]);
    ConstantsStay(r[k - 1], acts[k - 1], r[k]);
  }

  /** Over any run head and tail only grow, and what a sub-queue is configured with stays. */
  lemma {:induction false} CountersGrowOn<T>(r: seq<State<T>>, acts: seq<Action<T>>, j: nat, k: nat)
    requires Run(r, acts) && j <= k < |r|
    ensures r[j].tickets.head <= r[k].tickets.head && r[j].tickets.tail <= r[k].tickets.tail
    ensures r[k].blockSize == r[j].blockSize && r[k].limit == r[j].limit && r[k].leeway == r[j].leeway
    decreases k
  {
    if j < k {
      CountersGrowOn(r, acts, j, k - 1);
      CountersGrowAt(r, acts, k);
    }
  }

  // ---------------------------------------------------------------------------------------------
  // What is delivered
  // ---------------------------------------------------------------------------------------------

  /** What was moved out to a consumer as index `x` is the item that was enqueued as number `x`. */
  lemma DeliveredIsEnqueued<T>(s: State<T>, x: nat)
    requires Inv(s) && x in s.got
    ensures x < s.tickets.head <= s.tickets.tail == |s.items| && s.got[x] == s.items[x]
  {
    FactsHold(s);
    var counted :| LinkWith(s, counted);
  }

  predicate Quiescent<T>(s: State<T>) {
    && |s.consumers| == |s.tickets.pcs|
    && (forall i :: 0 <= i < |s.consumers| ==> s.consumers[i] == Out && s.tickets.pcs[i].Idle?)
  }

  /** With no dequeue in progress, what was delivered are exactly the first `head` items enqueued: none is
      lost, none invented, none overtaken. */
  lemma QuiescentIsFifo<T>(s: State<T>)
    requires Inv(s) && Quiescent(s)
    ensures s.tickets.head <= |s.items|
    ensures forall x: nat :: x in s.got <==> x < s.tickets.head
    ensures forall x: nat :: x < s.tickets.head ==> s.got[x] == s.items[x]
  {
    FactsHold(s);
    var counted :| LinkWith(s, counted);
    assert forall i, x: nat :: 0 <= i < |s.consumers| ==> !Pending(s, i, x);
  }

  /** Step `k` of the run moves item `x` out. */
  ghost predicate MovedAt<T>(r: seq<State<T>>, acts: seq<Action<T>>, k: nat, x: nat) {
    k < |acts| && k < |r| && Moves(r[k], acts[k], x)
  }

  /** A step moves an item out that nobody had, and what was moved out stays as it is. */
  lemma MoveIsNew<T>(s: State<T>, t: State<T>, a: Action<T>, x: nat)
    requires Inv(s) && Enabled(s, a) && t == After(s, a)
    ensures x in s.got ==> x in t.got && t.got[x] == s.got[x] && !Moves(s, a, x)
    ensures x !in s.got ==> (x in t.got <==> Moves(s, a, x))
  {
    match a
    case Produce(c) => ProducerEffect(s, t, c);
    case Consume(i, max) =>
      ConsumerEffect(s, t, i, max);
      if s.consumers[i].Move? && s.consumers[i].x < s.consumers[i].stop { MovedIsPending(s, i); }
    case Others(_) =>
  }

  lemma MovedIsPending<T>(s: State<T>, i: nat)
    requires Inv(s) && i < |s.consumers| && s.consumers[i].Move? && s.consumers[i].x < s.consumers[i].stop
    ensures s.consumers[i].x !in s.got
  {
    var counted :| LinkWith(s, counted);
    assert ClaimOk(s, counted, i) && InStep(s, i);
    var Move(_, start, _, _, end) := s.consumers[i];
    QueueConsumers.StopInBounds(start, end, s.blockSize);
  }

  lemma MoveIsNewAt<T>(r: seq<State<T>>, acts: seq<Action<T>>, k: nat, x: nat)
    requires Run(r, acts) && k < |acts|
    ensures x in r[k].got ==> x in r[k + 1].got && r[k + 1].got[x] == r[k].got[x] && !MovedAt(r, acts, k, x)
    ensures x !in r[k].got ==> (x in r[k + 1].got <==> MovedAt(r, acts, k, x))
  {
    RunStep(r, acts, k);
    MoveIsNew(r[k], r[k + 1], acts[k], x);
  }

  lemma DeliveredStays<T>(r: seq<State<T>>, acts: seq<Action<T>>, j: nat, k: nat, x: nat)
    requires Run(r, acts) && j <= k < |r| && x in r[j].got
    ensures x in r[k].got
  {
    var holds := seq(|r|, m requires 0 <= m < |r| => x in r[m].got);
    forall m: nat | j <= m < k ensures Passes(holds, m) { MoveIsNewAt(r, acts, m, x); }
    Persists(holds, j, k);
  }

  lemma {:induction false} MovedSomewhere<T>(r: seq<State<T>>, acts: seq<Action<T>>, n: nat, x: nat) returns (k: nat)
    requires Run(r, acts) && n < |r| && x in r[n].got
    ensures k < n && MovedAt(r, acts, k, x)
  {
    RunStarts(r, acts);
    MoveIsNewAt(r, acts, n - 1, x);
    if x in r[n - 1].got {
      k := MovedSomewhere(r, acts, n - 1, x);
    } else {
      k := n - 1;
    }
  }

  /** Over any run each delivered item was moved out by exactly one step of one consumer. */
  lemma EachItemMovedOnce<T>(r: seq<State<T>>, acts: seq<Action<T>>, x: nat)
    requires Run(r, acts)
    ensures (exists k: nat :: MovedAt(r, acts, k, x)) <==> x in r[|acts|].got
    ensures forall j: nat, k: nat :: MovedAt(r, acts, j, x) && MovedAt(r, acts, k, x) ==> j == k
  {
    forall k: nat | MovedAt(r, acts, k, x) ensures x in r[|acts|].got {
      MoveIsNewAt(r, acts, k, x);
      DeliveredStays(r, acts, k + 1, |acts|, x);
    }
    forall j: nat, k: nat | MovedAt(r, acts, j, x) && MovedAt(r, acts, k, x) ensures j == k {
      MoveIsNewAt(r, acts, j, x);
      MoveIsNewAt(r, acts, k, x);
      if j < k { DeliveredStays(r, acts, j + 1, k, x); }
      if k < j { DeliveredStays(r, acts, k + 1, j, x); }
    }
    if x in r[|acts|].got { var k := MovedSomewhere(r, acts, |acts|, x); }
  }

  // ---------------------------------------------------------------------------------------------
  // Emptied blocks
  // ---------------------------------------------------------------------------------------------

  /** A block's counter never exceeds the block size, and the consumer whose count reaches it finds every
      item of the block moved out. */
  lemma CountIsSound<T>(s: State<T>, i: nat)
    requires Inv(s) && i < |s.consumers| && s.consumers[i].Move? && s.consumers[i].x >= s.consumers[i].stop
    ensures Shape(s)
    ensures var Move(b, start, _, stop, _) := s.consumers[i];
            && b < |s.memory| && start < stop
            && s.memory[b].emptied + (stop - start) <= s.blockSize
            && (s.memory[b].emptied + (stop - start) == s.blockSize ==>
                  forall y: nat :: Home(y, s.blockSize) == Home(start, s.blockSize) ==> y in s.got)
  {
    FactsHold(s);
    var counted :| LinkWith(s, counted);
    CountedIsSound(s, counted, i);
  }

  lemma CountedIsSound<T>(s: State<T>, counted: set<nat>, i: nat)
    requires Facts(s) && LinkWith(s, counted)
    requires i < |s.consumers| && s.consumers[i].Move? && s.consumers[i].x >= s.consumers[i].stop
    ensures var Move(b, start, _, stop, _) := s.consumers[i];
            && b < |s.memory| && start < stop
            && s.memory[b].emptied + (stop - start) <= s.blockSize
            && (s.memory[b].emptied + (stop - start) == s.blockSize ==>
                  forall y: nat :: Home(y, s.blockSize) == Home(start, s.blockSize) ==> y in s.got)
  {
    assert InStep(s, i) && ClaimOk(s, counted, i);
    var Move(b, start, x, stop, end) := s.consumers[i];
    var q := Home(start, s.blockSize);
    QueueConsumers.StopInBounds(start, end, s.blockSize);
    QueueConsumers.NotYetCounted(s, counted, i);
    CountMore(counted, start, stop, q, s.blockSize);
    FullIffAllCounted(counted + TicketsProof.Range(start, stop - start), q, s.blockSize);
  }

  /** Consumers in one block at the same time take disjoint slots of it. */
  lemma SlotsAreDisjoint<T>(s: State<T>, i: nat, j: nat)
    requires Inv(s) && i < |s.consumers| && j < |s.consumers| && i != j
    requires s.consumers[i].Move? && s.consumers[j].Move? && s.consumers[i].block == s.consumers[j].block
    ensures s.blockSize > 0
    ensures forall x: nat, y: nat ::
              (s.consumers[i].start <= x < s.consumers[i].stop && s.consumers[j].start <= y < s.consumers[j].stop)
              ==> x % s.blockSize != y % s.blockSize
  {
    FactsHold(s);
    var counted :| LinkWith(s, counted);
    assert InStep(s, i) && InStep(s, j);
    BlocksDiffer(s, s.index.readers[i].q, s.index.readers[j].q);
    SpanOf(s, i);
    SpanOf(s, j);
    forall x: nat, y: nat | s.consumers[i].start <= x < s.consumers[i].stop && s.consumers[j].start <= y < s.consumers[j].stop
      ensures x % s.blockSize != y % s.blockSize
    {
      QueueConsumers.PendingApart(s, counted, i, j, x);
      HomeSlotsDiffer(x, y, s.blockSize);
    }
  }

  lemma SpanOf<T>(s: State<T>, i: nat)
    requires Shape(s) && i < |s.consumers| && s.consumers[i].Move? && InStep(s, i)
    ensures forall x: nat :: s.consumers[i].start <= x < s.consumers[i].stop ==>
              Pending(s, i, x) && Home(x, s.blockSize) == s.index.readers[i].q
  {
    var Move(_, start, _, _, end) := s.consumers[i];
    QueueConsumers.StopInBounds(start, end, s.blockSize);
  }

  /** The step takes block `q` out of the index, to free it. */
  ghost predicate Retires<T>(s: State<T>, a: Action<T>, q: nat) {
    a.Consume? && Shape(s) && a.i < |s.consumers| && Nulls(s, a.i, q)
  }

  ghost predicate RetiredAt<T>(r: seq<State<T>>, acts: seq<Action<T>>, k: nat, q: nat) {
    k < |acts| && k < |r| && Retires(r[k], acts[k], q)
  }

  lemma RetireIsNew<T>(s: State<T>, t: State<T>, a: Action<T>, q: nat)
    requires Inv(s) && Enabled(s, a) && t == After(s, a)
    ensures q in s.index.retired ==> q in t.index.retired && !Retires(s, a, q)
    ensures q !in s.index.retired ==> (q in t.index.retired <==> Retires(s, a, q))
  {
    match a
    case Produce(c) => ProducerEffect(s, t, c);
    case Consume(i, max) =>
      ConsumerEffect(s, t, i, max);
      if s.consumers[i].Nulling? { NulledIsLive(s, i); }
    case Others(_) =>
  }

  lemma NulledIsLive<T>(s: State<T>, i: nat)
    requires Inv(s) && i < |s.consumers| && s.consumers[i].Nulling?
    ensures s.index.readers[i].Got? && s.index.readers[i].q !in s.index.retired
  {
    var counted :| LinkWith(s, counted);
    assert InStep(s, i);
  }

  lemma RetireIsNewAt<T>(r: seq<State<T>>, acts: seq<Action<T>>, k: nat, q: nat)
    requires Run(r, acts) && k < |acts|
    ensures q in r[k].index.retired ==> q in r[k + 1].index.retired && !RetiredAt(r, acts, k, q)
    ensures q !in r[k].index.retired ==> (q in r[k + 1].index.retired <==> RetiredAt(r, acts, k, q))
  {
    RunStep(r, acts, k);
    RetireIsNew(r[k], r[k + 1], acts[k], q);
  }

  lemma RetiredStays<T>(r: seq<State<T>>, acts: seq<Action<T>>, j: nat, k: nat, q: nat)
    requires Run(r, acts) && j <= k < |r| && q in r[j].index.retired
    ensures q in r[k].index.retired
  {
    var holds := seq(|r|, m requires 0 <= m < |r| => q in r[m].index.retired);
    forall m: nat | j <= m < k ensures Passes(holds, m) { RetireIsNewAt(r, acts, m, q); }
    Persists(holds, j, k);
  }

  lemma {:induction false} RetiredSomewhere<T>(r: seq<State<T>>, acts: seq<Action<T>>, n: nat, q: nat) returns (k: nat)
    requires Run(r, acts) && n < |r| && q in r[n].index.retired
    ensures k < n && RetiredAt(r, acts, k, q)
  {
    RunStarts(r, acts);
    RetireIsNewAt(r, acts, n - 1, q);
    if q in r[n - 1].index.retired {
      k := RetiredSomewhere(r, acts, n - 1, q);
    } else {
      k := n - 1;
    }
  }

  /** Over any run each block that left the index was taken out by exactly one step of one consumer. */
  lemma EachBlockRetiredOnce<T>(r: seq<State<T>>, acts: seq<Action<T>>, q: nat)
    requires Run(r, acts)
    ensures (exists k: nat :: RetiredAt(r, acts, k, q)) <==> q in r[|acts|].index.retired
    ensures forall j: nat, k: nat :: RetiredAt(r, acts, j, q) && RetiredAt(r, acts, k, q) ==> j == k
  {
    forall k: nat | RetiredAt(r, acts, k, q) ensures q in r[|acts|].index.retired {
      RetireIsNewAt(r, acts, k, q);
      RetiredStays(r, acts, k + 1, |acts|, q);
    }
    forall j: nat, k: nat | RetiredAt(r, acts, j, q) && RetiredAt(r, acts, k, q) ensures j == k {
      RetireIsNewAt(r, acts, j, q);
      RetireIsNewAt(r, acts, k, q);
      if j < k { RetiredStays(r, acts, j + 1, k, q); }
      if k < j { RetiredStays(r, acts, k + 1, j, q); }
    }
    if q in r[|acts|].index.retired { var k := RetiredSomewhere(r, acts, |acts|, q); }
  }

  /** A block being freed is owned, is not in the index any more, and no other consumer is in it. */
  lemma FreedByOne<T>(s: State<T>, i: nat)
    requires Inv(s) && i < |s.consumers| && s.consumers[i].Freeing?
    ensures Shape(s)
    ensures s.consumers[i].block in s.owned
    ensures forall q: nat :: Live(s, q) ==> BlockFor(s, q) != s.consumers[i].block
    ensures forall j :: 0 <= j < |s.consumers| && j != i && !s.consumers[j].Out? && !s.consumers[j].Seek? ==>
              s.consumers[j].block != s.consumers[i].block
  {
    var counted :| LinkWith(s, counted);
    var b := s.consumers[i].block;
    assert BlockOfReason(s, Leaving(i)) == At(b);
    forall q: nat | Live(s, q) ensures BlockFor(s, q) != b {
      assert BlockOfReason(s, Indexed(q)) == At(BlockFor(s, q));
    }
    forall j | 0 <= j < |s.consumers| && j != i && !s.consumers[j].Out? && !s.consumers[j].Seek?
      ensures s.consumers[j].block != b
    {
      assert InStep(s, j);
      if s.consumers[j].Freeing? { assert BlockOfReason(s, Leaving(j)) == At(s.consumers[j].block); }
    }
  }

  /** With no dequeue in progress, the blocks taken out of the index are those below `head`. */
  lemma QuiescentRetired<T>(s: State<T>, q: nat)
    requires Inv(s) && Quiescent(s)
    ensures Shape(s)
    ensures q in s.index.retired <==> (q + 1) * s.blockSize <= s.tickets.head
  {
    FactsHold(s);
    var counted :| LinkWith(s, counted);
    assert forall i, x: nat :: 0 <= i < |s.consumers| ==> !Pending(s, i, x);
    var b := s.blockSize;
    MulBounds(q, b);
    assert q * b + b == (q + 1) * b;
    var last := q * b + b - 1;
    QuotientIs(last, q, b);
    HomeIsQuotient(last, b);
    forall x: nat | Home(x, b) == q ensures x <= last { HomeBounds(x, b); }
    if last < s.tickets.head {
      HomeBelowCeiling(last, |s.items|, b);
      assert AllCounted(counted, q, b);
      assert !exists i :: 0 <= i < |s.consumers| && Nulls(s, i, q);
      assert !Live(s, q);
    }
  }

  /** With nothing in progress, the sub-queue owns exactly the blocks that hold, or had held, part of what
      is still to be dequeued, and those the last enqueue left room in. */
  lemma QuiescentOwnership<T>(s: State<T>, b: Node)
    requires Inv(s) && Quiescent(s) && s.producer.Ready?
    ensures Shape(s) && |s.index.blocks| == Ceiling(|s.items|, s.blockSize)
    ensures b in s.owned <==>
              exists q: nat :: q < |s.index.blocks| && s.tickets.head < (q + 1) * s.blockSize && s.index.blocks[q] == b
  {
    var counted :| LinkWith(s, counted);
    if b in s.owned {
      var c :| BlockOfReason(s, c) == At(b);
      QuiescentRetired(s, c.q);
      assert c.q < |s.index.blocks| && s.index.blocks[c.q] == b;
    }
    forall q: nat | q < |s.index.blocks| && s.tickets.head < (q + 1) * s.blockSize ensures s.index.blocks[q] in s.owned {
      QuiescentRetired(s, q);
      assert BlockOfReason(s, Indexed(q)) == At(s.index.blocks[q]);
    }
  }

  // ---------------------------------------------------------------------------------------------
  // Enqueueing
  // ---------------------------------------------------------------------------------------------

  /** The distance between tail and head stays within the limit and within what wrapped counters can tell
      apart, although both are checked only at block boundaries, against a head that may be stale. */
  lemma DistanceIsBounded<T>(s: State<T>)
    requires Inv(s) && s.items != []
    ensures s.tickets.head <= s.tickets.tail == |s.items|
    ensures s.tickets.tail - s.tickets.head < s.leeway
    ensures s.limit.AtMost? ==> s.tickets.tail - s.tickets.head <= s.limit.size
  {
    FactsHold(s);
    var counted :| LinkWith(s, counted);
    CeilingBounds(|s.items|, s.blockSize);
    QueueProducer.BoundedLess(s, s, Total(s), |s.index.blocks|);
  }

  /** The assertion before a new block is taken: the head has not passed its base. */
  lemma HeadBelowNextBase<T>(s: State<T>)
    requires Inv(s)
    ensures s.tickets.head <= NextBase(s)
  {
    FactsHold(s);
    BlocksCoverItems(s);
    CeilingBounds(|s.items|, s.blockSize);
    MoreBlocks(|s.index.blocks|, |s.index.producer.mine|, s.blockSize);
  }

  /** The base of the next block, which the model counts in blocks, is the number the code computes from the tail
      index: in `enqueue_bulk`, and in `enqueue` at the end of a block. */
  lemma NextBaseIsCurrentTail<T>(s: State<T>)
    requires Inv(s)
    ensures Shape(s)
    ensures var tail, mine := s.tickets.tail, |s.index.producer.mine|;
            && NextBase(s) == (tail - 1) - (tail - 1) % s.blockSize + (mine + 1) * s.blockSize
            && (tail % s.blockSize == 0 && mine == 0 ==> NextBase(s) == tail)
  {
    BlocksCoverItems(s);
    BaseOfNext(s.tickets.tail, |s.index.producer.mine|, s.blockSize);
  }

  lemma BaseOfNext(tail: nat, mine: nat, b: nat)
    requires b > 0
    ensures (Ceiling(tail, b) + mine) * b == (tail - 1) - (tail - 1) % b + (mine + 1) * b
    ensures tail % b == 0 && mine == 0 ==> (Ceiling(tail, b) + mine) * b == tail
  {
    var q := (tail - 1) / b;
    QuotientBounds(tail - 1, b);
    assert (q + 1 + mine) * b == q * b + (mine + 1) * b;
    if tail % b == 0 {
      QuotientBounds(tail, b);
      var p := tail / b;
      assert tail - 1 == (p - 1) * b + (b - 1);
      QuotientIs(tail - 1, p - 1, b);
    }
  }

  lemma MoreBlocks(n: nat, m: nat, b: nat)
    ensures n * b <= (n + m) * b
  {
    MulBounds(m, b);
    assert (n + m) * b == n * b + m * b;
  }

  lemma BlocksCoverItems<T>(s: State<T>)
    requires Inv(s)
    ensures Shape(s) && |s.index.blocks| == Ceiling(|s.items|, s.blockSize) && s.tickets.tail == |s.items|
  {
    var counted :| LinkWith(s, counted);
  }

  /** One more whole block fits, within the limit and within what wrapped counters can tell apart. */
  predicate HasRoom<T>(s: State<T>) {
    var filled := (|s.index.blocks| + |s.index.producer.mine| + 1) * s.blockSize - s.tickets.head;
    filled < s.leeway && (s.limit.AtMost? ==> filled <= s.limit.size)
  }

  /** The producer's step has one of the three reasons to give up: another block does not fit, the index is missing or
      all in use and no larger one is made, or there is no memory for a block. */
  ghost predicate GivesUp<T>(s: State<T>, c: Choice<T>)
    requires s.blockSize > 0
  {
    match s.producer
    case Reserve(xs) => |s.index.producer.mine| < NewBlocks(|s.items|, |xs|, s.blockSize) && !HasRoom(s)
    case Guarded(_) => s.index.headers == [] || (IndexProof.TurnIsUp(s.index) && !c.Build?)
    case Insert(_) => s.index.producer.Filling? && c.Fail?
    case _ => false
  }

  /** The guard refuses a block exactly if it does not fit. */
  lemma FullIsExact<T>(s: State<T>)
    requires Inv(s)
    ensures IsFull(s.limit, s.leeway, s.blockSize, NextBase(s), s.tickets.head) <==> !HasRoom(s)
  {
    HeadBelowNextBase(s);
    BlocksCoverItems(s);
    NextBlockEnds(|s.index.blocks| + |s.index.producer.mine|, s.blockSize);
  }

  lemma NextBlockEnds(n: nat, b: nat)
    ensures (n + 1) * b == n * b + b
  {
  }

  /** An enqueue turns to undoing what it did exactly when there is a reason. */
  lemma FailureHasReason<T>(s: State<T>, t: State<T>, c: Choice<T>)
    requires Inv(s) && ProducerEnabled(s, c) && t == ProducerAfter(s, c) && !s.producer.Undo?
    ensures t.producer.Undo? <==> GivesUp(s, c)
  {
    var counted :| LinkWith(s, counted);
    FullIsExact(s);
    if s.producer.Guarded? { IndexProof.InsertsExactly(s.index, IndexChoice(s, c)); }
    GivingUp(s, t, c);
  }

  lemma GivingUp<T>(s: State<T>, t: State<T>, c: Choice<T>)
    requires ProducerEnabled(s, c) && t == ProducerAfter(s, c) && !s.producer.Undo?
    requires IsFull(s.limit, s.leeway, s.blockSize, NextBase(s), s.tickets.head) <==> !HasRoom(s)
    requires s.producer.Guarded? ==>
               (Index.ProducerAfter(s.index, IndexChoice(s, c)).producer.Keying?
                <==> s.index.headers != [] && (!IndexProof.TurnIsUp(s.index) || c.Build?))
    ensures t.producer.Undo? <==> GivesUp(s, c)
  {
  }

  predicate IsUndone<T>(p: Producer<T>) {
    p.Undo? || p.Return?
  }

  /** What the producer is enqueueing, unless it is already giving up. */
  predicate Carries<T(==)>(p: Producer<T>, xs: seq<T>) {
    match p
    case Ready => false
    case Undo(_) => true
    case Return(_, _, _) => true
    case _ => p.xs == xs
  }

  /** Step `n` of the run gives the enqueue up. */
  ghost predicate GivesUpAt<T>(r: seq<State<T>>, acts: seq<Action<T>>, n: nat) {
    n < |acts| && n < |r| && acts[n].Produce? && r[n].blockSize > 0 && GivesUp(r[n], acts[n].c)
  }

  /** Some step from `j` on, before state `m`, gives it up. */
  ghost predicate GivesUpIn<T>(r: seq<State<T>>, acts: seq<Action<T>>, j: nat, m: nat) {
    exists n: nat :: j <= n < m && GivesUpAt(r, acts, n)
  }

  lemma GivesUpOrLast<T>(r: seq<State<T>>, acts: seq<Action<T>>, j: nat, m: nat)
    requires j < m
    ensures GivesUpIn(r, acts, j, m) <==> GivesUpIn(r, acts, j, m - 1) || GivesUpAt(r, acts, m - 1)
  {
  }

  lemma NothingShowsAt<T>(r: seq<State<T>>, acts: seq<Action<T>>, k: nat, xs: seq<T>)
    requires Run(r, acts) && 0 < k < |r|
    requires if r[k - 1].producer.Ready? then acts[k - 1] == Produce(Call(xs)) else Carries(r[k - 1].producer, xs)
    requires !r[k].producer.Ready?
    ensures Carries(r[k].producer, xs)
    ensures r[k].items == r[k - 1].items && r[k].index.blocks == r[k - 1].index.blocks
    ensures IsUndone(r[k].producer) <==> IsUndone(r[k - 1].producer) || GivesUpAt(r, acts, k - 1)
  {
    RunStepTo(r, acts, k);
    NothingShowsStep(r[k - 1], r[k], acts[k - 1], xs);
    TurnsBackAt(r, acts, k);
  }

  lemma TurnsBackAt<T>(r: seq<State<T>>, acts: seq<Action<T>>, k: nat)
    requires Run(r, acts) && 0 < k < |r| && !r[k].producer.Ready?
    ensures IsUndone(r[k].producer) <==> IsUndone(r[k - 1].producer) || GivesUpAt(r, acts, k - 1)
  {
    RunStepTo(r, acts, k);
    TurnsBack(r[k - 1], r[k], acts[k - 1]);
  }

  /** Nothing of an enqueue shows before its last step, and it is being undone if some step gave it up. */
  lemma {:induction false} NothingShows<T>(r: seq<State<T>>, acts: seq<Action<T>>, j: nat, m: nat, xs: seq<T>)
    requires Run(r, acts) && j < m < |r|
    requires r[j].producer.Ready? && acts[j] == Produce(Call(xs))
    requires forall n :: j < n <= m ==> !r[n].producer.Ready?
    ensures Carries(r[m].producer, xs)
    ensures r[m].items == r[j].items && r[m].index.blocks == r[j].index.blocks
    ensures IsUndone(r[m].producer) <==> GivesUpIn(r, acts, j, m)
    decreases m
  {
    if m > j + 1 {
      NothingShows(r, acts, j, m - 1, xs);
    } else {
      assert !GivesUpIn(r, acts, j, j);
    }
    NothingShowsAt(r, acts, m, xs);
    GivesUpOrLast(r, acts, j, m);
  }

  lemma NothingShowsStep<T>(s: State<T>, t: State<T>, a: Action<T>, xs: seq<T>)
    requires Enabled(s, a) && t == After(s, a)
    requires if s.producer.Ready? then a == Produce(Call(xs)) else Carries(s.producer, xs)
    requires !t.producer.Ready?
    ensures Carries(t.producer, xs) && t.items == s.items && t.index.blocks == s.index.blocks
  {
    match a
    case Produce(c) =>
      ProducerEffect(s, t, c);
      CarriesOn(s, t, c, xs);
    case Consume(i, max) => ConsumerEffect(s, t, i, max);
    case Others(_) =>
  }

  lemma CarriesOn<T>(s: State<T>, t: State<T>, c: Choice<T>, xs: seq<T>)
    requires ProducerEnabled(s, c) && t == ProducerAfter(s, c) && !t.producer.Ready?
    requires if s.producer.Ready? then c == Call(xs) else Carries(s.producer, xs)
    ensures Carries(t.producer, xs)
  {
  }

  lemma TurnsBack<T>(s: State<T>, t: State<T>, a: Action<T>)
    requires Inv(s) && Enabled(s, a) && t == After(s, a) && !t.producer.Ready?
    ensures IsUndone(t.producer) <==> IsUndone(s.producer) || (a.Produce? && GivesUp(s, a.c))
  {
    match a
    case Produce(c) => ProducerTurnsBack(s, t, c);
    case Consume(i, max) => ConsumerItems(s, t, i, max);
    case Others(_) =>
  }

  lemma ProducerTurnsBack<T>(s: State<T>, t: State<T>, c: Choice<T>)
    requires Inv(s) && ProducerEnabled(s, c) && t == ProducerAfter(s, c) && !t.producer.Ready?
    ensures IsUndone(t.producer) <==> IsUndone(s.producer) || GivesUp(s, c)
  {
    if !s.producer.Undo? { FailureHasReason(s, t, c); }
    StaysUndone(s, t, c);
  }

  lemma StaysUndone<T>(s: State<T>, t: State<T>, c: Choice<T>)
    requires ProducerEnabled(s, c) && t == ProducerAfter(s, c) && !t.producer.Ready?
    ensures IsUndone(s.producer) ==> IsUndone(t.producer)
    ensures !IsUndone(s.producer) ==> !t.producer.Return?
    ensures IsUndone(s.producer) ==> !GivesUp(s, c)
  {
  }

  lemma LastStepAt<T>(r: seq<State<T>>, acts: seq<Action<T>>, k: nat, xs: seq<T>)
    requires Run(r, acts) && 0 < k < |r| && Carries(r[k - 1].producer, xs) && r[k].producer.Ready?
    ensures if r[k].succeeded then r[k].items == r[k - 1].items + xs
            else r[k].items == r[k - 1].items && r[k].index.blocks == r[k - 1].index.blocks
    ensures r[k].succeeded <==> !IsUndone(r[k - 1].producer)
    ensures !GivesUpAt(r, acts, k - 1)
    ensures OwnsWhatItUses(r[k])
  {
    RunStepTo(r, acts, k);
    LastStep(r[k - 1], r[k], acts[k - 1], xs);
    RunHolds(r, acts, k);
    ReadyOwnership(r[k]);
  }

  /** An enqueue of any number of items is all or nothing: if it succeeds it appends exactly its items, and if not
      it leaves the items and the published blocks of the sub-queue as they were, and the blocks it took are no
      longer owned: all owned ones are in the index, or being freed by a consumer that emptied them.  It fails
      exactly if one of its steps gave it up. */
  lemma EnqueueIsAtomic<T>(r: seq<State<T>>, acts: seq<Action<T>>, j: nat, k: nat, xs: seq<T>)
    requires Run(r, acts) && j + 1 < k < |r|
    requires r[j].producer.Ready? && acts[j] == Produce(Call(xs))
    requires r[k].producer.Ready? && forall n :: j < n < k ==> !r[n].producer.Ready?
    ensures if r[k].succeeded then r[k].items == r[j].items + xs
            else r[k].items == r[j].items && r[k].index.blocks == r[j].index.blocks
    ensures r[k].succeeded <==> !GivesUpIn(r, acts, j, k)
    ensures OwnsWhatItUses(r[k])
  {
    NothingShows(r, acts, j, k - 1, xs);
    LastStepAt(r, acts, k, xs);
    GivesUpOrLast(r, acts, j, k);
  }

  lemma LastStep<T>(s: State<T>, t: State<T>, a: Action<T>, xs: seq<T>)
    requires Enabled(s, a) && t == After(s, a) && Carries(s.producer, xs) && t.producer.Ready?
    ensures if t.succeeded then t.items == s.items + xs
            else t.items == s.items && t.index.blocks == s.index.blocks
    ensures t.succeeded <==> !IsUndone(s.producer)
    ensures a.Produce? && (s.producer.Write? || s.producer.Return?)
  {
    match a
    case Produce(c) =>
      ProducerEffect(s, t, c);
      ProducerSucceeds(s, t, c);
    case Consume(i, max) => ConsumerEffect(s, t, i, max);
    case Others(_) =>
  }

  lemma ProducerSucceeds<T>(s: State<T>, t: State<T>, c: Choice<T>)
    requires ProducerEnabled(s, c) && t == ProducerAfter(s, c) && !s.producer.Ready? && t.producer.Ready?
    ensures s.producer.Return? || (s.producer.Write? && s.producer.k >= |s.producer.xs|)
    ensures t.succeeded <==> s.producer.Write?
  {
  }

  /** There are just as many blocks as the items need; a block is owned exactly when it is in the index or a
      consumer that emptied it is about to free it. */
  ghost predicate OwnsWhatItUses<T>(s: State<T>) {
    && s.blockSize > 0
    && s.index.producer == Index.Ready([])
    && |s.index.blocks| == Ceiling(|s.items|, s.blockSize)
    && (forall b :: b in s.owned <==>
          || (exists q: nat :: q < |s.index.blocks| && q !in s.index.retired && s.index.blocks[q] == b)
          || exists i :: 0 <= i < |s.consumers| && s.consumers[i].Freeing? && s.consumers[i].block == b)
  }

  lemma ReadyOwnership<T>(s: State<T>)
    requires Inv(s) && s.producer.Ready?
    ensures OwnsWhatItUses(s)
  {
    var counted :| LinkWith(s, counted);
    forall b | b in s.owned
      ensures || (exists q: nat :: q < |s.index.blocks| && q !in s.index.retired && s.index.blocks[q] == b)
              || exists i :: 0 <= i < |s.consumers| && s.consumers[i].Freeing? && s.consumers[i].block == b
    {
      var c :| BlockOfReason(s, c) == At(b);
      match c
      case Indexed(q) => assert s.index.blocks[q] == b;
      case Leaving(i) => assert s.consumers[i].block == b;
      case _ =>
    }
    forall q: nat | q < |s.index.blocks| && q !in s.index.retired ensures s.index.blocks[q] in s.owned {
      assert BlockOfReason(s, Indexed(q)) == At(s.index.blocks[q]);
    }
    forall i | 0 <= i < |s.consumers| && s.consumers[i].Freeing? ensures s.consumers[i].block in s.owned {
      assert BlockOfReason(s, Leaving(i)) == At(s.consumers[i].block);
    }
  }
}
