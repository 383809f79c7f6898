/** A sub-queue on the machine's counters: its consumers test wrapped distances, its producer tests wrapped bases
    against a wrapped head, and both do what module Queue says, through any number of wrap-arounds. */
module WrappedQueue {
  import opened Modular
  import opened Circular
  import opened WrappedCounters
  import Tickets
  import TicketsProof
  import Index = BlockIndex
  import IndexProof = BlockIndexProof
  import Queue
  import QueueInvariant
  import QueueProof
  import QueueDelivery
  import opened Pointers

  // ---------------------------------------------------------------------------------------------
  // The machine
  // ---------------------------------------------------------------------------------------------

  /** Index words have `indexBits` bits, sizes `sizeBits`, and a block `2^blockBits` slots. */
  datatype Machine = Machine(indexBits: nat, sizeBits: nat, blockBits: nat)

  predicate Proper(m: Machine) {
    m.blockBits < m.sizeBits <= m.indexBits
  }

  /** How many values an index word has. */
  function Turns(m: Machine): (n: nat)
    ensures n > 0
  {
    Pow2(m.indexBits)
  }

  function BlockSize(m: Machine): (b: nat)
    ensures b > 0
  {
    Pow2(m.blockBits)
  }

  /** A bulk dequeue tests distances as sizes, a single one as index words. */
  function Test(m: Machine, bulk: bool): nat
    requires Proper(m)
  {
    if bulk then Half(m.sizeBits) else Half(m.indexBits)
  }

  /** The sub-queue is one of this machine: its leeway is half a turn. */
  predicate On<T>(m: Machine, s: Queue.State<T>) {
    && Proper(m)
    && s.blockSize == BlockSize(m)
    && s.leeway == Half(m.indexBits)
    && (s.limit.AtMost? ==> s.limit.size < Pow2(m.sizeBits))
  }

  // ---------------------------------------------------------------------------------------------
  // The producer's guard
  // ---------------------------------------------------------------------------------------------

  /** The test before a new block is taken, on the machine's counters. */
  predicate WrappedIsFull(limit: Queue.Limit, half: nat, blockSize: nat, base: nat, head: nat)
    requires half > 0
  {
    var m := 2 * half;
    || !CircularLess(head, Wrap(base + blockSize, m), half)
    || (limit.AtMost? && (limit.size == 0 || Wrap(limit.size - blockSize, m) < Wrap(base - head, m)))
  }

  /** In every reachable state of a sub-queue whose leeway is half a turn, head and tail are less than half a
      turn apart, and the machine's guard and its assertion decide as the ones of module Queue do: so the guard
      keeps up, through any number of wrap-arounds, what it relies on itself. */
  lemma GuardIsRight<T>(s: Queue.State<T>, half: nat)
    requires QueueInvariant.Inv(s) && s.leeway == half && 0 < s.blockSize <= half
    requires s.limit.AtMost? ==> s.limit.size < 2 * half
    ensures s.tickets.head <= s.tickets.tail < s.tickets.head + half
    ensures var m := 2 * half;
            var base, head := Queue.NextBase(s), s.tickets.head;
            && (WrappedIsFull(s.limit, half, s.blockSize, Wrap(base, m), Wrap(head, m))
                <==> Queue.IsFull(s.limit, s.leeway, s.blockSize, base, head))
            && !CircularLess(Wrap(base, m), Wrap(head, m), half)
  {
    var base, head := Queue.NextBase(s), s.tickets.head;
    QueueDelivery.HeadBelowNextBase(s);
    BaseIsNear(s);
    CircularLessIsLess(base, head, half);
    WholeLimit(s);
    GuardAgrees(s.limit, half, s.blockSize, base, head);
  }

  lemma BaseIsNear<T>(s: Queue.State<T>)
    requires QueueInvariant.Inv(s) && s.leeway > 0
    ensures Queue.NextBase(s) < s.tickets.head + s.leeway
    ensures s.tickets.head <= s.tickets.tail < s.tickets.head + s.leeway
  {
    QueueInvariant.FactsHold(s);
    var counted :| QueueInvariant.LinkWith(s, counted);
    assert QueueInvariant.Bounded(s, QueueInvariant.Total(s));
    if s.items != [] { QueueDelivery.DistanceIsBounded(s); }
  }

  lemma WholeLimit<T>(s: Queue.State<T>)
    requires QueueInvariant.Inv(s)
    ensures s.limit.AtMost? && s.limit.size > 0 ==> s.limit.size >= s.blockSize
  {
    var counted :| QueueInvariant.LinkWith(s, counted);
    if s.limit.AtMost? && 0 < s.limit.size < s.blockSize { ModSmall(s.limit.size, s.blockSize); }
  }

  lemma GuardAgrees(limit: Queue.Limit, half: nat, b: nat, base: nat, head: nat)
    requires 0 < b <= half && head <= base < head + half
    requires limit.AtMost? ==> limit.size < 2 * half && (limit.size == 0 || limit.size >= b)
    ensures WrappedIsFull(limit, half, b, Wrap(base, 2 * half), Wrap(head, 2 * half))
      <==> Queue.IsFull(limit, half, b, base, head)
  {
    var m := 2 * half;
    WrapAdd(base, b, m);
    if base + b - head < m { CircularLessIsLess(head, base + b, half); }
    WrapDifference(base, head, m);
    WrapNear(base - head, m);
    if limit.AtMost? && limit.size > 0 { WrapNear(limit.size - b, m); }
  }

  // ---------------------------------------------------------------------------------------------
  // The producer's decisions
  // ---------------------------------------------------------------------------------------------

  /** The base of the block behind the `mine` taken so far. */
  function WordBase(m: Machine, tail: nat, mine: nat): nat
    requires BlockSize(m) <= Turns(m)
  {
    WrappedBase(tail, mine, BlockSize(m), Turns(m))
  }

  /** Some block is still to be taken: `blockBaseDiff`, less one block size for each taken, is not zero. */
  predicate WordNeeds(m: Machine, tail: nat, count: nat, mine: nat)
    requires BlockSize(m) <= Turns(m)
  {
    WrappedDiff(tail, count, BlockSize(m), Turns(m), Pow2(m.sizeBits)) > mine * BlockSize(m)
  }

  /** What the producer does with its counters in hand: take another block, give up, or start writing. */
  ghost function WordReserve<T>(m: Machine, s: Queue.State<T>, w: Tickets.State): Queue.State<T>
    requires Proper(m) && BlockSize(m) <= Turns(m) && s.producer.Reserve?
    requires Index.ProducerEnabled(s.index, Index.GiveUp)
  {
    var xs, mine := s.producer.xs, |s.index.producer.mine|;
    if WordNeeds(m, w.tail, |xs|, mine) then
      if WrappedIsFull(s.limit, Half(m.indexBits), BlockSize(m), WordBase(m, w.tail, mine), w.head) then
        s.(index := Index.ProducerAfter(s.index, Index.GiveUp), producer := Queue.Undo(s.firstBlock))
      else s.(producer := Queue.Guarded(xs))
    else
      var fromFirst := And(w.tail, BlockSize(m) - 1) == 0 && s.firstBlock != Null;
      s.(producer := Queue.Write(xs, 0), tailBlock := if fromFirst then s.firstBlock else s.startBlock)
  }

  lemma BaseAgrees<T>(m: Machine, s: Queue.State<T>)
    requires QueueInvariant.Inv(s) && On(m, s)
    ensures BlockSize(m) <= Turns(m)
    ensures WordBase(m, Wrap(s.tickets.tail, Turns(m)), |s.index.producer.mine|) == Wrap(Queue.NextBase(s), Turns(m))
  {
    QueueDelivery.NextBaseIsCurrentTail(s);
    BaseOfWords(s.tickets.tail, |s.index.producer.mine|, m.blockBits, m.indexBits);
  }

  lemma MoreLess(x: int, y: int, b: nat)
    requires b > 0
    ensures b * x > y * b <==> x > y
  {
    MulBounds(x - y, b);
    assert (x - y) * b == b * x - y * b;
  }

  lemma NeedsAgrees(m: Machine, tail: nat, count: nat, mine: nat)
    requires Proper(m) && count + BlockSize(m) <= Pow2(m.sizeBits)
    ensures BlockSize(m) <= Turns(m)
    ensures WordNeeds(m, Wrap(tail, Turns(m)), count, mine) <==> mine < Queue.NewBlocks(tail, count, BlockSize(m))
  {
    var b := BlockSize(m);
    BlockBaseDiff(tail, count, m.blockBits, m.indexBits, m.sizeBits);
    StartsFit(tail, count, b, Pow2(m.sizeBits));
    DiffOfWords(tail, count, b, Turns(m), Pow2(m.sizeBits));
    StartsCounted(tail, count, b);
    MoreLess(|Starts(tail, count, b)|, mine, b);
  }

  lemma SlotOfTail(m: Machine, tail: nat)
    requires Proper(m)
    ensures And(Wrap(tail, Turns(m)), BlockSize(m) - 1) == tail % BlockSize(m)
  {
    LowMask(Wrap(tail, Turns(m)), m.blockBits);
    PowersDivide(m.blockBits, m.indexBits);
    CutToRing(tail, Turns(m), BlockSize(m));
  }

  lemma IndexIsReady<T>(s: Queue.State<T>)
    requires QueueInvariant.Inv(s) && s.producer.Reserve?
    ensures Queue.Shape(s) && s.index.producer.Ready? && s.tickets.tail == |s.items|
  {
    var counted :| QueueInvariant.LinkWith(s, counted);
  }

  lemma FullAgrees<T>(m: Machine, s: Queue.State<T>, w: Tickets.State)
    requires QueueInvariant.Inv(s) && On(m, s)
    requires w.tail == Wrap(s.tickets.tail, Turns(m)) && w.head == Wrap(s.tickets.head, Turns(m))
    ensures BlockSize(m) <= Turns(m)
    ensures WrappedIsFull(s.limit, Half(m.indexBits), BlockSize(m), WordBase(m, w.tail, |s.index.producer.mine|), w.head)
      <==> Queue.IsFull(s.limit, s.leeway, s.blockSize, Queue.NextBase(s), s.tickets.head)
  {
    BaseAgrees(m, s);
    Pow2Grows(m.blockBits, m.indexBits - 1);
    Pow2Grows(m.sizeBits, m.indexBits);
    GuardIsRight(s, Half(m.indexBits));
  }

  /** On words, the producer finds the same number of blocks to take, the same bases, and decides alike. */
  lemma DecisionsAgree<T>(m: Machine, s: Queue.State<T>, w: Tickets.State)
    requires QueueInvariant.Inv(s) && On(m, s) && s.producer.Reserve?
    requires w.tail == Wrap(s.tickets.tail, Turns(m)) && w.head == Wrap(s.tickets.head, Turns(m))
    requires |s.producer.xs| + BlockSize(m) <= Pow2(m.sizeBits)
    ensures BlockSize(m) <= Turns(m) && Index.ProducerEnabled(s.index, Index.GiveUp)
    ensures Queue.ProducerEnabled(s, Queue.Go) && WordReserve(m, s, w) == Queue.ProducerAfter(s, Queue.Go)
  {
    IndexIsReady(s);
    NeedsAgrees(m, s.tickets.tail, |s.producer.xs|, |s.index.producer.mine|);
    FullAgrees(m, s, w);
    SlotOfTail(m, s.tickets.tail);
    ReserveOfDecisions(m, s, w);
  }

  lemma ReserveOfDecisions<T>(m: Machine, s: Queue.State<T>, w: Tickets.State)
    requires Queue.Shape(s) && s.producer.Reserve? && s.index.producer.Ready? && On(m, s) && BlockSize(m) <= Turns(m)
    requires var mine := |s.index.producer.mine|;
             && (WordNeeds(m, w.tail, |s.producer.xs|, mine) <==> mine < Queue.NewBlocks(|s.items|, |s.producer.xs|, s.blockSize))
             && (WrappedIsFull(s.limit, Half(m.indexBits), BlockSize(m), WordBase(m, w.tail, mine), w.head)
                 <==> Queue.IsFull(s.limit, s.leeway, s.blockSize, Queue.NextBase(s), s.tickets.head))
    requires And(w.tail, BlockSize(m) - 1) == |s.items| % s.blockSize
    ensures Queue.ProducerEnabled(s, Queue.Go) && WordReserve(m, s, w) == Queue.ProducerAfter(s, Queue.Go)
  {
  }

  // ---------------------------------------------------------------------------------------------
  // Steps
  // ---------------------------------------------------------------------------------------------

  /** Consumer `i`'s step is one on the counters. */
  predicate StepsCounters<T>(s: Queue.State<T>, i: nat)
    requires Queue.Shape(s) && i < |s.consumers|
  {
    match s.consumers[i]
    case Out => !(s.tickets.pcs[i].Deliver? && s.tickets.pcs[i].count > 0)
    case Seek(x, end) => !s.index.readers[i].Got? && x >= end
    case _ => false
  }

  predicate Publishes<T>(p: Queue.Producer<T>) {
    p.Write? && p.k >= |p.xs|
  }

  /** Consumer `i` is about to compare counters. */
  predicate Compares<T>(s: Queue.State<T>, i: nat)
    requires Queue.Shape(s) && i < |s.consumers|
  {
    s.consumers[i].Out? && (s.tickets.pcs[i].LoadOptimistic? || s.tickets.pcs[i].Recheck?)
  }

  /** The decision a consumer made on words, with the overcommit it had loaded. */
  function Decided(decision: Tickets.PC, was: Tickets.PC): Tickets.PC {
    match decision
    case TakeTickets(want, _) => if was.LoadOptimistic? then Tickets.TakeTickets(want, was.over) else decision
    case _ => decision
  }

  /** A step of the sub-queue whose counters are the words of `w`: whatever compares counters compares words, and
      the step goes on accordingly.  `s` and `t` also keep count without wrapping around. */
  ghost predicate WordStep<T>(m: Machine, bulk: bool, s: Queue.State<T>, w: Tickets.State, a: Queue.Action<T>,
                              t: Queue.State<T>, v: Tickets.State)
    requires Proper(m)
  {
    && Queue.Shape(s) && |w.pcs| == |s.consumers| && BlockSize(m) <= Turns(m)
    && match a
       case Produce(c) =>
         if s.producer.Reserve? then
           c.Go? && v == w && Index.ProducerEnabled(s.index, Index.GiveUp) && t == WordReserve(m, s, w)
         else
           && Queue.Step(s, a, t)
           && v == (if Publishes(s.producer) then WrappedPublish(w, |s.producer.xs|, Half(m.indexBits)) else w)
       case Consume(i, max) =>
         && i < |s.consumers|
         && v == (if StepsCounters(s, i) then WrappedAfter(w, i, max, Half(m.indexBits), Test(m, bulk)) else w)
         && if Compares(s, i) then
              t == s.(tickets := Tickets.Goto(s.tickets, i, Decided(v.pcs[i], s.tickets.pcs[i])))
            else Queue.Step(s, a, t)
       case Others(_) => Queue.Step(s, a, t) && v == w
  }

  /** A consumer is not suspended too long between its loads and its tests, and no enqueue is of so many items that
      a size cannot count them in whole blocks. */
  ghost predicate WithinBounds<T>(m: Machine, bulk: bool, s: Queue.State<T>, a: Queue.Action<T>)
    requires Proper(m)
  {
    match a
    case Produce(_) => s.producer.Reserve? ==> |s.producer.xs| + BlockSize(m) <= Pow2(m.sizeBits)
    case Consume(i, _) =>
      i < |s.tickets.pcs| && i < |s.consumers| && s.consumers[i].Out? ==>
        Recent(s.tickets, s.tickets.pcs[i], Test(m, bulk))
    case Others(_) => true
  }

  lemma CountersOfConsumer<T>(s: Queue.State<T>, t: Queue.State<T>, i: nat, max: nat)
    requires Queue.ConsumerEnabled(s, i, max) && t == Queue.ConsumerAfter(s, i, max)
    ensures t.tickets == if StepsCounters(s, i) then Tickets.After(s.tickets, i, max) else s.tickets
  {
  }

  lemma CountersOfProducer<T>(s: Queue.State<T>, t: Queue.State<T>, c: Queue.Choice<T>)
    requires Queue.ProducerEnabled(s, c) && t == Queue.ProducerAfter(s, c)
    ensures t.tickets == if Publishes(s.producer) then Tickets.Publish(s.tickets, |s.producer.xs|) else s.tickets
  {
  }

  lemma TestsAreWords(m: Machine, bulk: bool)
    requires Proper(m)
    ensures TestsWords(Half(m.indexBits), Test(m, bulk))
  {
    PowersDivide(m.sizeBits, m.indexBits);
    PowersDivide(m.indexBits, m.indexBits);
  }

  lemma ConsumerAgrees<T>(m: Machine, bulk: bool, s: Queue.State<T>, i: nat, max: nat)
    requires TicketsProof.Inv(s.tickets) && On(m, s) && i < |s.tickets.pcs|
    requires Recent(s.tickets, s.tickets.pcs[i], Test(m, bulk))
    ensures WrappedAfter(WrapState(s.tickets, Turns(m)), i, max, Half(m.indexBits), Test(m, bulk))
         == WrapState(Tickets.After(s.tickets, i, max), Turns(m))
  {
    TestsAreWords(m, bulk);
    RecentIsTimely(s.tickets, i, Test(m, bulk));
    StepAgrees(s.tickets, i, max, Half(m.indexBits), Test(m, bulk));
  }

  /** A decision made on words that agree is the one made on unbounded counters. */
  lemma DecidedAlike(s: Tickets.State, i: nat, max: nat, n: nat)
    requires i < |s.pcs| && (s.pcs[i].LoadOptimistic? || s.pcs[i].Recheck?) && n > 0
    ensures Tickets.Goto(s, i, Decided(WrapState(Tickets.After(s, i, max), n).pcs[i], s.pcs[i])) == Tickets.After(s, i, max)
  {
  }

  lemma ComparesIsStep<T>(s: Queue.State<T>, i: nat, max: nat, t: Queue.State<T>)
    requires Queue.Shape(s) && i < |s.consumers| && Compares(s, i)
    requires t == s.(tickets := Tickets.After(s.tickets, i, max))
    ensures Queue.Step(s, Queue.Consume(i, max), t)
  {
  }

  lemma InsideIsDelivering<T>(s: Queue.State<T>, i: nat)
    requires QueueInvariant.Inv(s) && i < |s.consumers|
    ensures Queue.Shape(s) && (!s.consumers[i].Out? ==> s.tickets.pcs[i].Deliver?)
  {
    var counted :| QueueInvariant.LinkWith(s, counted);
    assert QueueInvariant.ClaimOk(s, counted, i);
  }

  /** A step on words within the bounds is a step of module Queue, and leaves the words of its counters. */
  lemma WordStepIsStep<T>(m: Machine, bulk: bool, s: Queue.State<T>, w: Tickets.State, a: Queue.Action<T>,
                          t: Queue.State<T>, v: Tickets.State)
    requires QueueInvariant.Inv(s) && On(m, s) && w == WrapState(s.tickets, Turns(m))
    requires WordStep(m, bulk, s, w, a, t, v) && WithinBounds(m, bulk, s, a)
    ensures Queue.Step(s, a, t) && v == WrapState(t.tickets, Turns(m))
  {
    match a
    case Produce(c) =>
      if s.producer.Reserve? { DecisionsAgree(m, s, w); }
      CountersOfProducer(s, t, c);
      if Publishes(s.producer) { WrapAdd(s.tickets.tail, |s.producer.xs|, Turns(m)); }
    case Consume(i, max) =>
      InsideIsDelivering(s, i);
      if StepsCounters(s, i) { ConsumerAgrees(m, bulk, s, i, max); }
      if Compares(s, i) {
        DecidedAlike(s.tickets, i, max, Turns(m));
        ComparesIsStep(s, i, max, t);
      }
      CountersOfConsumer(s, t, i, max);
    case Others(_) =>
  }

  // ---------------------------------------------------------------------------------------------
  // Runs
  // ---------------------------------------------------------------------------------------------

  ghost predicate WordRun<T>(m: Machine, bulk: seq<bool>, r: seq<Queue.State<T>>, w: seq<Tickets.State>,
                             acts: seq<Queue.Action<T>>) {
    && |r| == |w| == |acts| + 1 && |bulk| == |acts|
    && Queue.Init(r[0]) && On(m, r[0])
    && w[0] == WrapState(r[0].tickets, Turns(m))
    && (forall k {:trigger acts[k]} :: 0 <= k < |acts| ==>
          WordStep(m, bulk[k], r[k], w[k], acts[k], r[k + 1], w[k + 1]) && WithinBounds(m, bulk[k], r[k], acts[k]))
  }

  lemma WordRunAt<T>(m: Machine, bulk: seq<bool>, r: seq<Queue.State<T>>, w: seq<Tickets.State>,
                     acts: seq<Queue.Action<T>>, k: nat)
    requires WordRun(m, bulk, r, w, acts) && k < |acts|
    ensures WordStep(m, bulk[k], r[k], w[k], acts[k], r[k + 1], w[k + 1]) && WithinBounds(m, bulk[k], r[k], acts[k])
  {
  }

  lemma WordStepKeeps<T>(m: Machine, bulk: bool, s: Queue.State<T>, w: Tickets.State, a: Queue.Action<T>,
                         t: Queue.State<T>, v: Tickets.State)
    requires QueueInvariant.Inv(s) && On(m, s) && w == WrapState(s.tickets, Turns(m))
    requires WordStep(m, bulk, s, w, a, t, v) && WithinBounds(m, bulk, s, a)
    ensures Queue.Step(s, a, t) && QueueInvariant.Inv(t) && On(m, t) && v == WrapState(t.tickets, Turns(m))
  {
    WordStepIsStep(m, bulk, s, w, a, t, v);
    QueueProof.StepKeeps(s, a);
    QueueDelivery.ConstantsStay(s, a, t);
  }

  lemma {:induction false} WordRunHolds<T>(m: Machine, bulk: seq<bool>, r: seq<Queue.State<T>>, w: seq<Tickets.State>,
                                           acts: seq<Queue.Action<T>>, k: nat)
    requires WordRun(m, bulk, r, w, acts) && k < |r|
    ensures QueueInvariant.Inv(r[k]) && On(m, r[k]) && w[k] == WrapState(r[k].tickets, Turns(m))
  {
    if k == 0 {
      QueueProof.InitHolds(r[0]);
    } else {
      WordRunHolds(m, bulk, r, w, acts, k - 1);
      WordRunAt(m, bulk, r, w, acts, k - 1);
      WordStepKeeps(m, bulk[k - 1], r[k - 1], w[k - 1], acts[k - 1], r[k], w[k]);
    }
  }

  lemma WordRunSteps<T>(m: Machine, bulk: seq<bool>, r: seq<Queue.State<T>>, w: seq<Tickets.State>,
                        acts: seq<Queue.Action<T>>, k: nat)
    requires WordRun(m, bulk, r, w, acts) && k < |acts|
    ensures Queue.Step(r[k], acts[k], r[k + 1])
  {
    WordRunHolds(m, bulk, r, w, acts, k);
    WordRunAt(m, bulk, r, w, acts, k);
    WordStepIsStep(m, bulk[k], r[k], w[k], acts[k], r[k + 1], w[k + 1]);
  }

  /** A run on the machine's words is a run of the sub-queue with unbounded counters, seen through wrapping. */
  lemma WordRunRefines<T>(m: Machine, bulk: seq<bool>, r: seq<Queue.State<T>>, w: seq<Tickets.State>,
                          acts: seq<Queue.Action<T>>)
    requires WordRun(m, bulk, r, w, acts)
    ensures Queue.Run(r, acts)
    ensures forall k :: 0 <= k < |r| ==> w[k] == WrapState(r[k].tickets, Turns(m))
  {
    forall k {:trigger acts[k]} | 0 <= k < |acts| ensures Queue.Step(r[k], acts[k], r[k + 1]) {
      WordRunSteps(m, bulk, r, w, acts, k);
    }
    forall k | 0 <= k < |r| ensures w[k] == WrapState(r[k].tickets, Turns(m)) {
      WordRunHolds(m, bulk, r, w, acts, k);
    }
  }

  /** In a sub-queue of limited size, constant bounds do: loads and tickets in flight together at most half a turn
      behind, and fewer tickets taken since a consumer's own than half a turn less the limit. */
  lemma LimitedIsRecent<T>(s: Queue.State<T>, i: nat, test: nat)
    requires QueueInvariant.Inv(s) && i < |s.tickets.pcs| && s.limit.AtMost? && test > 0
    requires var pc := s.tickets.pcs[i];
             match pc
             case LoadOptimistic(_, tail, over) =>
               && s.limit.size < test
               && (s.tickets.tail - tail) + (s.tickets.overcommit - over) + InFlight(s.tickets) <= test
             case Recheck(_, over, ticket) =>
               && s.limit.size + (s.tickets.optimistic - ticket) < test
               && (s.tickets.overcommit - over) + InFlight(s.tickets) <= test
             case _ => true
    ensures Recent(s.tickets, s.tickets.pcs[i], test)
  {
    SizeWithinLimit(s);
    BoundedIsRecent(s.tickets, i, s.limit.size, test);
  }

  lemma SizeWithinLimit<T>(s: Queue.State<T>)
    requires QueueInvariant.Inv(s)
    ensures s.limit.AtMost? ==> s.tickets.tail - s.tickets.head <= s.limit.size
  {
    QueueInvariant.FactsHold(s);
    var counted :| QueueInvariant.LinkWith(s, counted);
    if s.items != [] { QueueDelivery.DistanceIsBounded(s); }
  }

  // ---------------------------------------------------------------------------------------------
  // Inside the blocks
  // ---------------------------------------------------------------------------------------------

  /** Nobody asks for, or has claimed, more than half a turn of items. */
  predicate Short(pc: Tickets.PC, half: nat) {
    match pc
    case TakeTickets(want, _) => want <= half
    case Recheck(want, _, _) => want <= half
    case Refund(_, claim) => claim <= half
    case Claim(count) => count <= half
    case Deliver(_, count) => count <= half
    case _ => true
  }

  lemma StaysShort(s: Tickets.State, i: nat, max: nat, half: nat, test: nat)
    requires i < |s.pcs| && test <= half && Short(s.pcs[i], half) && Timely(s, s.pcs[i], test)
    ensures Short(Tickets.After(s, i, max).pcs[i], half)
  {
  }

  lemma ConsumerStaysShort<T>(m: Machine, bulk: bool, s: Queue.State<T>, t: Queue.State<T>, i: nat, max: nat)
    requires Queue.ConsumerEnabled(s, i, max) && t == Queue.ConsumerAfter(s, i, max) && Proper(m)
    requires Timely(s.tickets, s.tickets.pcs[i], Test(m, bulk)) && Short(s.tickets.pcs[i], Half(m.indexBits))
    ensures i < |t.tickets.pcs| && Short(t.tickets.pcs[i], Half(m.indexBits))
  {
    CountersOfConsumer(s, t, i, max);
    Pow2Grows(m.sizeBits - 1, m.indexBits - 1);
    StaysShort(s.tickets, i, max, Half(m.indexBits), Test(m, bulk));
  }

  lemma StepStaysShort<T>(m: Machine, bulk: bool, s: Queue.State<T>, a: Queue.Action<T>, t: Queue.State<T>, i: nat)
    requires Queue.Step(s, a, t) && Proper(m)
    requires i < |s.tickets.pcs| && Short(s.tickets.pcs[i], Half(m.indexBits))
    requires a.Consume? && a.i == i ==> Timely(s.tickets, s.tickets.pcs[i], Test(m, bulk))
    ensures i < |t.tickets.pcs| && Short(t.tickets.pcs[i], Half(m.indexBits))
  {
    match a
    case Produce(c) => CountersOfProducer(s, t, c);
    case Consume(j, max) =>
      CountersOfConsumer(s, t, j, max);
      if j == i { ConsumerStaysShort(m, bulk, s, t, i, max); }
    case Others(_) =>
  }

  lemma TimelyWithin<T>(m: Machine, bulk: bool, s: Queue.State<T>, a: Queue.Action<T>)
    requires QueueInvariant.Inv(s) && Proper(m) && WithinBounds(m, bulk, s, a)
    ensures a.Consume? && a.i < |s.tickets.pcs| ==> Timely(s.tickets, s.tickets.pcs[a.i], Test(m, bulk))
  {
    if a.Consume? && a.i < |s.tickets.pcs| {
      InsideIsDelivering(s, a.i);
      RecentIsTimely(s.tickets, a.i, Test(m, bulk));
    }
  }

  lemma StaysShortAt<T>(m: Machine, bulk: seq<bool>, r: seq<Queue.State<T>>, w: seq<Tickets.State>,
                        acts: seq<Queue.Action<T>>, k: nat, i: nat)
    requires WordRun(m, bulk, r, w, acts) && k < |acts|
    requires i < |r[k].tickets.pcs| && Short(r[k].tickets.pcs[i], Half(m.indexBits))
    ensures i < |r[k + 1].tickets.pcs| && Short(r[k + 1].tickets.pcs[i], Half(m.indexBits))
  {
    WordRunHolds(m, bulk, r, w, acts, k);
    WordRunSteps(m, bulk, r, w, acts, k);
    WordRunAt(m, bulk, r, w, acts, k);
    TimelyWithin(m, bulk[k], r[k], acts[k]);
    StepStaysShort(m, bulk[k], r[k], acts[k], r[k + 1], i);
  }

  lemma {:induction false} ClaimsAreShort<T>(m: Machine, bulk: seq<bool>, r: seq<Queue.State<T>>, w: seq<Tickets.State>,
                                             acts: seq<Queue.Action<T>>, k: nat, i: nat)
    requires WordRun(m, bulk, r, w, acts) && k < |r| && i < |r[0].tickets.pcs|
    ensures i < |r[k].tickets.pcs| && Short(r[k].tickets.pcs[i], Half(m.indexBits))
  {
    if k > 0 {
      ClaimsAreShort(m, bulk, r, w, acts, k - 1, i);
      StaysShortAt(m, bulk, r, w, acts, k - 1, i);
    }
  }

  /** Where the part of a claim that lies in one block ends, in index words. */
  function WrappedStop(x: nat, end: nat, b: nat, half: nat): nat
    requires 0 < b <= half
  {
    var next := Wrap(And(x, 2 * half - b) + b, 2 * half);
    if CircularLess(end, next, half) then end else next
  }

  function WordStop(m: Machine, x: nat, end: nat): nat
    requires Proper(m) && BlockSize(m) <= Half(m.indexBits)
  {
    WrappedStop(x, end, BlockSize(m), Half(m.indexBits))
  }

  lemma StopFrom(base: nat, end: nat, b: nat, half: nat)
    requires 0 < b <= half && base < end <= base + b + half
    ensures var next, turn := base + b, 2 * half;
            (if CircularLess(Wrap(end, turn), Wrap(Wrap(base, turn) + b, turn), half) then Wrap(end, turn)
             else Wrap(Wrap(base, turn) + b, turn))
            == Wrap(if end < next then end else next, turn)
  {
    WrapAdd(base, b, 2 * half);
    CircularLessIsLess(end, base + b, half);
  }

  lemma StopOfWords(x: nat, end: nat, b: nat, half: nat)
    requires 0 < b <= half && x < end <= x + half
    requires And(Wrap(x, 2 * half), 2 * half - b) == Wrap(x - x % b, 2 * half)
    ensures WrappedStop(Wrap(x, 2 * half), Wrap(end, 2 * half), b, half) == Wrap(Queue.StopIn(x, end, b), 2 * half)
  {
    FloorBounds(x, b);
    StopFrom(x - x % b, end, b, half);
  }

  lemma StopIsRight(m: Machine, x: nat, end: nat)
    requires Proper(m) && x < end <= x + Half(m.indexBits)
    ensures BlockSize(m) <= Half(m.indexBits)
    ensures WordStop(m, Wrap(x, Turns(m)), Wrap(end, Turns(m))) == Wrap(Queue.StopIn(x, end, BlockSize(m)), Turns(m))
  {
    BaseWraps(x, m.blockBits, m.indexBits);
    Pow2Grows(m.blockBits, m.indexBits - 1);
    StopOfWords(x, end, BlockSize(m), Half(m.indexBits));
  }

  /** A consumer on words leaves each block where one on unbounded counters does. */
  lemma StopsAgree<T>(m: Machine, bulk: seq<bool>, r: seq<Queue.State<T>>, w: seq<Tickets.State>,
                      acts: seq<Queue.Action<T>>, k: nat, i: nat)
    requires WordRun(m, bulk, r, w, acts) && k < |r| && i < |r[k].consumers| && i < |r[0].tickets.pcs|
    requires r[k].consumers[i].Seek? && r[k].consumers[i].x < r[k].consumers[i].end
    ensures BlockSize(m) <= Half(m.indexBits)
    ensures var x, end := r[k].consumers[i].x, r[k].consumers[i].end;
            WordStop(m, Wrap(x, Turns(m)), Wrap(end, Turns(m))) == Wrap(Queue.StopIn(x, end, BlockSize(m)), Turns(m))
  {
    ClaimsAreShort(m, bulk, r, w, acts, k, i);
    WordRunHolds(m, bulk, r, w, acts, k);
    ClaimSpan(r[k], i);
    StopIsRight(m, r[k].consumers[i].x, r[k].consumers[i].end);
  }

  lemma ClaimSpan<T>(s: Queue.State<T>, i: nat)
    requires QueueInvariant.Inv(s) && i < |s.consumers| && s.consumers[i].Seek?
    ensures i < |s.tickets.pcs| && s.tickets.pcs[i].Deliver? && s.consumers[i].end <= s.consumers[i].x + s.tickets.pcs[i].count
  {
    var counted :| QueueInvariant.LinkWith(s, counted);
    assert QueueInvariant.ClaimOk(s, counted, i);
  }

  // ---------------------------------------------------------------------------------------------
  // The approximate size
  // ---------------------------------------------------------------------------------------------

  /** The approximate size, from a tail and a head loaded one after the other. */
  function WordSize(m: Machine, tail: nat, head: nat): nat
    requires Proper(m)
  {
    if CircularLess(head, tail, Half(m.indexBits)) then Wrap(Wrap(tail - head, Turns(m)), Pow2(m.sizeBits)) else 0
  }

  /** Over any run, with the tail loaded in state `j` and the head in a later state `k`, it is their distance (as a
      size), or zero if consumers have meanwhile passed the loaded tail, unless by more than half a turn; so it
      exceeds neither the size there was nor the size there is. */
  lemma SizeApproxIsRight<T>(m: Machine, r: seq<Queue.State<T>>, acts: seq<Queue.Action<T>>, j: nat, k: nat)
    requires Queue.Run(r, acts) && j <= k < |r| && Proper(m) && r[0].leeway == Half(m.indexBits)
    requires r[k].tickets.head <= r[j].tickets.tail + Half(m.indexBits)
    ensures var tail, head := r[j].tickets.tail, r[k].tickets.head;
            var size := if head < tail then tail - head else 0;
            && WordSize(m, Wrap(tail, Turns(m)), Wrap(head, Turns(m))) == Wrap(size, Pow2(m.sizeBits))
            && 0 <= size <= r[j].tickets.tail - r[j].tickets.head
            && size <= r[k].tickets.tail - r[k].tickets.head
  {
    QueueDelivery.CountersGrowOn(r, acts, 0, j);
    QueueDelivery.CountersGrowOn(r, acts, j, k);
    QueueProof.RunHolds(r, acts, j);
    QueueProof.RunHolds(r, acts, k);
    BaseIsNear(r[j]);
    BaseIsNear(r[k]);
    SizeOfWords(m, r[j].tickets.tail, r[k].tickets.head);
  }

  lemma SizeOfWords(m: Machine, tail: nat, head: nat)
    requires Proper(m) && head <= tail + Half(m.indexBits) && tail < head + Half(m.indexBits)
    ensures WordSize(m, Wrap(tail, Turns(m)), Wrap(head, Turns(m)))
         == Wrap(if head < tail then tail - head else 0, Pow2(m.sizeBits))
  {
    CircularLessIsLess(head, tail, Half(m.indexBits));
    WrapDifference(tail, head, Turns(m));
    WrapNear(tail - head, Turns(m));
    ModSmall(0, Pow2(m.sizeBits));
  }
}
