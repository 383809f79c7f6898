/** What a call of a sub-queue comes to: an enqueue for which there is room and memory succeeds, and every call ends
    within a bounded number of its own steps, whatever others do. */
module QueueCalls {
  import opened Pointers
  import opened Modular
  import opened Queue
  import opened QueueInvariant
  import opened QueueProof
  import opened QueueDelivery
  import QueueConsumers
  import QueueProducer
  import QueueTail
  import Tickets
  import Index = BlockIndex
  import IndexProof = BlockIndexProof

  // ---------------------------------------------------------------------------------------------
  // Success
  // ---------------------------------------------------------------------------------------------

  /** The blocks that `xs` needs fit, within the limit and within what wrapped counters can tell apart, or `xs` needs
      none. */
  predicate Fits<T>(s: State<T>, xs: seq<T>)
    requires s.blockSize > 0
  {
    var all := Ceiling(|s.items| + |xs|, s.blockSize);
    var filled := all * s.blockSize - s.tickets.head;
    || all == Ceiling(|s.items|, s.blockSize)
    || (filled < s.leeway && (s.limit.AtMost? ==> filled <= s.limit.size))
  }

  /** There is an index, memory for a larger one if it is all in use, and memory for a block. */
  ghost predicate Supplies<T>(s: State<T>, c: Choice<T>) {
    match s.producer
    case Guarded(_) => s.index.headers != [] && (IndexProof.TurnIsUp(s.index) ==> c.Build?)
    case Insert(_) => !c.Fail?
    case _ => true
  }

  lemma BlocksInAll(tail: nat, count: nat, mine: nat, b: nat)
    requires b > 0 && mine < NewBlocks(tail, count, b)
    ensures Ceiling(tail, b) + mine + 1 <= Ceiling(tail + count, b)
    ensures (Ceiling(tail, b) + mine + 1) * b <= Ceiling(tail + count, b) * b
  {
    MulBounds(Ceiling(tail + count, b) - (Ceiling(tail, b) + mine + 1), b);
    var d := Ceiling(tail + count, b) - (Ceiling(tail, b) + mine + 1);
    assert d * b == Ceiling(tail + count, b) * b - (Ceiling(tail, b) + mine + 1) * b;
    if d > 0 { assert d * b >= b; }
  }

  /** What fits at the start of an enqueue fits, block by block, during it. */
  lemma RoomStays<T>(s: State<T>, u: State<T>, xs: seq<T>)
    requires Inv(u) && s.blockSize == u.blockSize > 0 && u.items == s.items && s.tickets.head <= u.tickets.head
    requires u.limit == s.limit && u.leeway == s.leeway && Fits(s, xs)
    requires u.producer.Reserve? && |u.index.producer.mine| < NewBlocks(|u.items|, |xs|, u.blockSize)
    ensures HasRoom(u)
  {
    BlocksCoverItems(u);
    BlocksInAll(|u.items|, |xs|, |u.index.producer.mine|, u.blockSize);
  }

  lemma NeverGivesUp<T>(r: seq<State<T>>, acts: seq<Action<T>>, j: nat, n: nat, xs: seq<T>)
    requires Run(r, acts) && j < n < |acts|
    requires r[j].producer.Ready? && acts[j] == Produce(Call(xs))
    requires forall m :: j < m <= n ==> !r[m].producer.Ready?
    requires r[j].blockSize > 0 && Fits(r[j], xs) && (acts[n].Produce? ==> Supplies(r[n], acts[n].c))
    ensures !GivesUpAt(r, acts, n)
  {
    NothingShows(r, acts, j, n, xs);
    CountersGrowOn(r, acts, j, n);
    RunHolds(r, acts, n);
    if r[n].producer.Reserve? && |r[n].index.producer.mine| < NewBlocks(|r[n].items|, |xs|, r[n].blockSize) {
      RoomStays(r[j], r[n], xs);
    }
  }

  /** An enqueue whose blocks fit when it starts, and that gets the memory it asks for, succeeds and appends its items,
      whatever consumers do meanwhile. */
  lemma EnqueueSucceeds<T>(r: seq<State<T>>, acts: seq<Action<T>>, j: nat, k: nat, xs: seq<T>)
    requires Run(r, acts) && j + 1 < k < |r|
    requires r[j].producer.Ready? && acts[j] == Produce(Call(xs))
    requires r[k].producer.Ready? && forall n :: j < n < k ==> !r[n].producer.Ready?
    requires r[j].blockSize > 0 && Fits(r[j], xs)
    requires forall n {:trigger acts[n]} :: j < n < k && acts[n].Produce? ==> Supplies(r[n], acts[n].c)
    ensures r[k].succeeded && r[k].items == r[j].items + xs
  {
    EnqueueIsAtomic(r, acts, j, k, xs);
    forall n: nat | j <= n < k ensures !GivesUpAt(r, acts, n) {
      if n > j { NeverGivesUp(r, acts, j, n, xs); }
    }
  }

  /** So a sub-queue whose head is at the start of a block can be filled to exactly its limit. */
  lemma FitsToTheLimit<T>(s: State<T>, xs: seq<T>)
    requires Inv(s) && s.limit.AtMost? && s.limit.size < s.leeway
    requires s.blockSize > 0 && s.tickets.head % s.blockSize == 0
    requires |s.items| + |xs| == s.tickets.head + s.limit.size
    ensures Fits(s, xs)
  {
    var counted :| LinkWith(s, counted);
    WholeBlocks(s.tickets.head, s.limit.size, s.blockSize);
  }

  lemma WholeBlocks(head: nat, size: nat, b: nat)
    requires b > 0 && head % b == 0 && size % b == 0
    ensures Ceiling(head + size, b) * b == head + size
  {
    QuotientBounds(head, b);
    QuotientBounds(size, b);
    var q := head / b + size / b;
    assert q * b == (head / b) * b + (size / b) * b;
    assert head + size - 1 == (q - 1) * b + (b - 1);
    QuotientIs(head + size - 1, q - 1, b);
  }

  // ---------------------------------------------------------------------------------------------
  // Every enqueue ends
  // ---------------------------------------------------------------------------------------------

  /** How many steps the index can still take to undo what was inserted. */
  function UndoRank(p: Index.Producer): int {
    match p
    case Rewinding(mine, _) => 3 * |mine| + 6
    case Clearing(mine, _) => 3 * |mine| + 5
    case Undoing(mine, k) => 3 * |mine| - 2 * k + 4
    case UndoRewinding(mine, k) => 3 * |mine| - 2 * k + 3
    case _ => 0
  }

  /** How far the index is with an insertion. */
  function InsertRank(p: Index.Producer): nat {
    match p
    case Keying(_, _) => 10
    case Advancing(_, _) => 9
    case _ => 8
  }

  /** What is left of an enqueue of `count` items, with `mine` of all the blocks it needs taken: seven steps for each
      block to come, and three to undo each, one for each item, and a few more. */
  function Rest(blocks: int, mine: nat, count: nat): int {
    7 * (blocks - mine) + 3 * blocks + count
  }

  /** A bound on the steps the producer can still take in this call. */
  function Rank<T>(s: State<T>): int
    requires s.blockSize > 0
  {
    var mine := |s.index.producer.mine|;
    match s.producer
    case Ready => 0
    case Reserve(xs) => Rest(NewBlocks(|s.items|, |xs|, s.blockSize), mine, |xs|) + 12
    case Guarded(xs) => Rest(NewBlocks(|s.items|, |xs|, s.blockSize), mine, |xs|) + 11
    case Insert(xs) => Rest(NewBlocks(|s.items|, |xs|, s.blockSize), mine, |xs|) + InsertRank(s.index.producer)
    case Reset(xs, _) => Rest(NewBlocks(|s.items|, |xs|, s.blockSize), mine, |xs|) + 7
    case Store(xs, _) => Rest(NewBlocks(|s.items|, |xs|, s.blockSize), mine, |xs|) + 6
    case Write(xs, k) => |xs| - k + 1
    case Undo(_) => UndoRank(s.index.producer)
    case Return(_, mine, j) => |mine| - j + 1
  }

  lemma IndexAdvances(x: Index.State, y: Index.State, c: Index.Choice)
    requires Index.ProducerEnabled(x, c) && y == Index.ProducerAfter(x, c)
    ensures x.producer.Ready? && (c.Insert? || c.Build?) ==> y.producer.Keying? || UndoRank(y.producer) <= 3 * |x.producer.mine| + 6
    ensures x.producer.Ready? && c.GiveUp? ==> y.producer == Index.Undoing(x.producer.mine, 0)
    ensures x.producer.Keying? ==> y.producer.Advancing?
    ensures x.producer.Advancing? ==> y.producer.Filling?
    ensures x.producer.Filling? && c.GiveUp? ==> UndoRank(y.producer) <= 3 * |x.producer.mine| + 6
    ensures x.producer.Filling? && c.Obtain? ==> y.producer == Index.Ready(x.producer.mine + [c.block])
    ensures (x.producer.Rewinding? || x.producer.Clearing? || x.producer.UndoRewinding?
             || (x.producer.Undoing? && x.producer.k < |x.producer.mine|)) ==>
              UndoRank(y.producer) < UndoRank(x.producer)
    ensures (x.producer.Keying? || x.producer.Advancing?) ==> y.producer.mine == x.producer.mine
    ensures x.producer.Ready? && y.producer.Keying? ==> y.producer.mine == x.producer.mine
  {
  }

  lemma TakingAdvances<T>(s: State<T>, t: State<T>, c: Choice<T>)
    requires ProducerEnabled(s, c) && t == ProducerAfter(s, c) && ProducerOk(s)
    requires s.producer.Reserve? || s.producer.Guarded? || s.producer.Insert?
    ensures t.blockSize == s.blockSize && Rank(t) < Rank(s)
  {
    if UsesIndex(s, c) { IndexAdvances(s.index, Index.ProducerAfter(s.index, IndexChoice(s, c)), IndexChoice(s, c)); }
  }

  lemma StoringAdvances<T>(s: State<T>, t: State<T>, c: Choice<T>)
    requires ProducerEnabled(s, c) && t == ProducerAfter(s, c) && ProducerOk(s)
    requires s.producer.Reset? || s.producer.Store?
    ensures t.blockSize == s.blockSize && Rank(t) < Rank(s)
  {
    if UsesIndex(s, c) { IndexAdvances(s.index, Index.ProducerAfter(s.index, IndexChoice(s, c)), IndexChoice(s, c)); }
  }

  lemma WritingAdvances<T>(s: State<T>, t: State<T>, c: Choice<T>)
    requires ProducerEnabled(s, c) && t == ProducerAfter(s, c) && ProducerOk(s) && s.producer.Write?
    ensures t.blockSize == s.blockSize && Rank(t) < Rank(s)
  {
  }

  lemma UndoingAdvances<T>(s: State<T>, t: State<T>, c: Choice<T>)
    requires ProducerEnabled(s, c) && t == ProducerAfter(s, c) && ProducerOk(s) && TailOk(s)
    requires s.producer.Undo? || s.producer.Return?
    requires s.index.producer.Undoing? ==> s.index.producer.k <= |s.index.producer.mine|
    ensures t.blockSize == s.blockSize && Rank(t) < Rank(s)
  {
    if UsesIndex(s, c) { IndexAdvances(s.index, Index.ProducerAfter(s.index, IndexChoice(s, c)), IndexChoice(s, c)); }
  }

  /** Every step of the producer inside a call brings it nearer to its end, and no other step takes it away from it. */
  lemma ProducerAdvances<T>(s: State<T>, a: Action<T>, t: State<T>)
    requires Inv(s) && Step(s, a, t)
    ensures t.blockSize == s.blockSize > 0
    ensures a.Produce? && !s.producer.Ready? ==> Rank(t) < Rank(s)
    ensures !a.Produce? ==> Rank(t) == Rank(s)
  {
    match a
    case Produce(c) =>
      FactsHold(s);
      var counted :| LinkWith(s, counted);
      QueueDelivery.ConstantsOfProducer(s, t, c);
      match s.producer {
        case Ready =>
        case Reserve(_) => TakingAdvances(s, t, c);
        case Guarded(_) => TakingAdvances(s, t, c);
        case Insert(_) => TakingAdvances(s, t, c);
        case Write(_, _) => WritingAdvances(s, t, c);
        case Undo(_) => UndoingAdvances(s, t, c);
        case Return(_, _, _) => UndoingAdvances(s, t, c);
        case _ => StoringAdvances(s, t, c);
      }
    case Consume(i, max) =>
      ConstantsOfConsumer(s, t, i, max);
      QueueTail.ConsumerLeavesFields(s, t, i, max);
    case Others(_) =>
  }

  lemma RankIsPositive<T>(s: State<T>)
    requires Inv(s)
    ensures s.blockSize > 0 && Rank(s) >= 0
  {
    FactsHold(s);
    var counted :| LinkWith(s, counted);
    UndoInRange(s.index);
  }

  lemma CallRank<T>(s: State<T>, t: State<T>, xs: seq<T>)
    requires Inv(s) && Step(s, Produce(Call(xs)), t) && s.producer.Ready?
    ensures t.blockSize == s.blockSize > 0
    ensures Rank(t) == 10 * NewBlocks(|s.items|, |xs|, s.blockSize) + |xs| + 12
  {
    var counted :| LinkWith(s, counted);
  }

  /** How many of `own[j..k]` are true. */
  function Count(own: seq<bool>, j: nat, k: nat): nat
    requires k <= |own|
    decreases k
  {
    if k <= j then 0 else Count(own, j, k - 1) + (if own[k - 1] then 1 else 0)
  }

  /** A rank goes down with the `m`-th step if that is an own one, and not up if not. */
  ghost predicate GoesDown(ranks: seq<int>, own: seq<bool>, m: nat)
    requires m + 1 < |ranks| && m < |own|
  {
    ranks[m + 1] <= ranks[m] - (if own[m] then 1 else 0)
  }

  lemma {:induction false} Descends(ranks: seq<int>, own: seq<bool>, j: nat, k: nat)
    requires j <= k < |ranks| && k <= |own| && forall m: nat :: j <= m < k ==> GoesDown(ranks, own, m)
    ensures Count(own, j, k) + ranks[k] <= ranks[j]
    decreases k
  {
    if j < k {
      Descends(ranks, own, j, k - 1);
      assert GoesDown(ranks, own, k - 1);
    }
  }

  /** The steps of the run that are the producer's. */
  function OwnSteps<T>(acts: seq<Action<T>>): (own: seq<bool>)
    ensures |own| == |acts|
  {
    seq(|acts|, m requires 0 <= m < |acts| => acts[m].Produce?)
  }

  function RankOr0<T>(s: State<T>): int {
    if s.blockSize > 0 then Rank(s) else 0
  }

  /** An enqueue is wait-free: within ten steps for each block it needs, one for each item and twelve more, all of them
      the producer's own, it is over, whatever consumers do meanwhile and whether it succeeds or fails. */
  lemma EnqueueEnds<T>(r: seq<State<T>>, acts: seq<Action<T>>, j: nat, k: nat, xs: seq<T>)
    requires Run(r, acts) && j < k < |r|
    requires r[j].producer.Ready? && acts[j] == Produce(Call(xs)) && forall n :: j < n < k ==> !r[n].producer.Ready?
    ensures r[j].blockSize > 0
    ensures Count(OwnSteps(acts), j + 1, k) <= 10 * NewBlocks(|r[j].items|, |xs|, r[j].blockSize) + |xs| + 12
  {
    EnqueueStartsAt(r, acts, j, xs);
    forall m: nat | j + 1 <= m < k ensures GoesDown(Ranks(r), OwnSteps(acts), m) { GoesDownAt(r, acts, m); }
    Descends(Ranks(r), OwnSteps(acts), j + 1, k);
    RankAtEnd(r, acts, k);
  }

  function Ranks<T>(r: seq<State<T>>): (ranks: seq<int>)
    ensures |ranks| == |r|
  {
    seq(|r|, m requires 0 <= m < |r| => RankOr0(r[m]))
  }

  lemma GoesDownAt<T>(r: seq<State<T>>, acts: seq<Action<T>>, m: nat)
    requires Run(r, acts) && m < |acts| && !r[m].producer.Ready?
    ensures GoesDown(Ranks(r), OwnSteps(acts), m)
  {
    AdvancesAt(r, acts, m + 1);
  }

  lemma RankAtEnd<T>(r: seq<State<T>>, acts: seq<Action<T>>, k: nat)
    requires Run(r, acts) && k < |r|
    ensures RankOr0(r[k]) >= 0
  {
    RunHolds(r, acts, k);
    RankIsPositive(r[k]);
  }

  lemma EnqueueStartsAt<T>(r: seq<State<T>>, acts: seq<Action<T>>, j: nat, xs: seq<T>)
    requires Run(r, acts) && j < |acts| && r[j].producer.Ready? && acts[j] == Produce(Call(xs))
    ensures r[j].blockSize > 0 && RankOr0(r[j + 1]) == 10 * NewBlocks(|r[j].items|, |xs|, r[j].blockSize) + |xs| + 12
  {
    RunStep(r, acts, j);
    CallRank(r[j], r[j + 1], xs);
  }

  lemma AdvancesAt<T>(r: seq<State<T>>, acts: seq<Action<T>>, k: nat)
    requires Run(r, acts) && 0 < k < |r|
    ensures !r[k - 1].producer.Ready? ==> RankOr0(r[k]) <= RankOr0(r[k - 1]) - (if acts[k - 1].Produce? then 1 else 0)
  {
    RunStepTo(r, acts, k);
    ProducerAdvances(r[k - 1], acts[k - 1], r[k]);
  }

  // ---------------------------------------------------------------------------------------------
  // Every dequeue ends
  // ---------------------------------------------------------------------------------------------

  /** A bound on the steps on the counters, and those that follow them: eight for each index asked for or claimed, and a
      few more. */
  function TicketRank(pc: Tickets.PC): nat {
    match pc
    case Idle => 0
    case LoadOvercommit(max, _) => 8 * max + 13
    case LoadOptimistic(max, _, _) => 8 * max + 12
    case TakeTickets(want, _) => 8 * want + 11
    case Recheck(want, _, _) => 8 * want + 10
    case Refund(_, claim) => 8 * claim + 9
    case Claim(count) => 8 * count + 8
    case Deliver(_, count) => 8 * count + 7
  }

  function LookupRank(r: Index.Reader): nat {
    match r
    case Want(_, _) => 6
    case GotHeader(_, _, _) => 5
    case GotTail(_, _, _, _) => 4
    case GotSlot(_, _, _, _) => 3
    case Got(_, _, _, _, _) => 2
    case _ => 4
  }

  /** A bound on the steps consumer `i` can still take in this call. */
  function CallRankOf<T>(s: State<T>, i: nat): int
    requires i < |s.consumers| && i < |s.tickets.pcs| && i < |s.index.readers|
  {
    match s.consumers[i]
    case Out => TicketRank(s.tickets.pcs[i])
    case Seek(x, end) => 8 * (end - x) + LookupRank(s.index.readers[i])
    case Move(_, start, x, _, end) => 8 * (end - x) + (if x == start then 1 else 7)
    case Nulling(_, stop, end) => 8 * (end - stop) + 6
    case Freeing(_, stop, end) => 8 * (end - stop) + 5
  }

  predicate AtRest<T>(s: State<T>, i: nat)
    requires i < |s.consumers| && i < |s.tickets.pcs|
  {
    s.consumers[i].Out? && s.tickets.pcs[i].Idle?
  }

  lemma TicketAdvances(s: Tickets.State, i: nat, max: nat)
    requires i < |s.pcs| && !s.pcs[i].Idle?
    ensures TicketRank(Tickets.After(s, i, max).pcs[i]) < TicketRank(s.pcs[i])
  {
  }

  lemma ReaderAdvances(x: Index.State, i: nat, u: Index.Use)
    requires Index.ReaderEnabled(x, i, u) && !x.readers[i].Resting?
    ensures var r, t := x.readers[i], Index.ReaderAfter(x, i, u).readers[i];
            && (r.Got? ==> t.Leaving?)
            && (r.Leaving? ==> if r.q < r.last then t.GotSlot? else t.Resting?)
            && (!r.Got? && !r.Leaving? ==> !t.Resting? && LookupRank(t) < LookupRank(r))
  {
  }

  lemma OutAdvances<T>(s: State<T>, t: State<T>, i: nat, max: nat)
    requires ConsumerEnabled(s, i, max) && t == ConsumerAfter(s, i, max) && s.consumers[i].Out? && !AtRest(s, i)
    requires InStep(s, i)
    ensures Shape(t) ==> CallRankOf(t, i) < CallRankOf(s, i)
  {
    TicketAdvances(s.tickets, i, max);
  }

  lemma SeekAdvances<T>(s: State<T>, t: State<T>, i: nat, max: nat)
    requires ConsumerEnabled(s, i, max) && t == ConsumerAfter(s, i, max) && s.consumers[i].Seek?
    requires InStep(s, i) && s.tickets.pcs[i].Deliver?
    ensures Shape(t) ==> CallRankOf(t, i) < CallRankOf(s, i)
  {
    if !s.index.readers[i].Got? { ReaderAdvances(s.index, i, IndexUse(s, i)); }
  }

  lemma InsideAdvances<T>(s: State<T>, t: State<T>, i: nat, max: nat)
    requires ConsumerEnabled(s, i, max) && t == ConsumerAfter(s, i, max) && !s.consumers[i].Out? && !s.consumers[i].Seek?
    requires InStep(s, i)
    ensures Shape(t) ==> CallRankOf(t, i) < CallRankOf(s, i)
  {
    match s.consumers[i]
    case Move(_, _, _, _, _) => MoveAdvances(s, t, i, max);
    case Nulling(_, _, _) => ReaderAdvances(s.index, i, IndexUse(s, i));
    case _ =>
  }

  lemma MoveAdvances<T>(s: State<T>, t: State<T>, i: nat, max: nat)
    requires ConsumerEnabled(s, i, max) && t == ConsumerAfter(s, i, max) && s.consumers[i].Move? && InStep(s, i)
    ensures Shape(t) ==> CallRankOf(t, i) < CallRankOf(s, i)
  {
    if s.consumers[i].x >= s.consumers[i].stop && StepsIndex(s, i) { ReaderAdvances(s.index, i, IndexUse(s, i)); }
  }

  lemma ConsumerAdvances<T>(s: State<T>, t: State<T>, i: nat, max: nat)
    requires Inv(s) && ConsumerEnabled(s, i, max) && t == ConsumerAfter(s, i, max) && Shape(t)
    requires !AtRest(s, i)
    ensures i < |t.consumers| && CallRankOf(t, i) < CallRankOf(s, i)
  {
    var counted :| LinkWith(s, counted);
    assert InStep(s, i) && ClaimOk(s, counted, i);
    match s.consumers[i]
    case Out => OutAdvances(s, t, i, max);
    case Seek(_, _) => SeekAdvances(s, t, i, max);
    case _ => InsideAdvances(s, t, i, max);
  }

  lemma ProducerLeavesConsumers<T>(s: State<T>, t: State<T>, c: Choice<T>)
    requires ProducerEnabled(s, c) && t == ProducerAfter(s, c)
    ensures t.consumers == s.consumers && t.tickets.pcs == s.tickets.pcs && t.index.readers == s.index.readers
  {
    ProducerItems(s, t, c);
    TicketsOfStep(s, t, c);
    IndexOfStep(s, t, c);
    if UsesIndex(s, c) { IndexLeavesReaders(s.index, IndexChoice(s, c)); }
  }

  lemma IndexLeavesReaders(x: Index.State, c: Index.Choice)
    requires Index.ProducerEnabled(x, c)
    ensures Index.ProducerAfter(x, c).readers == x.readers
  {
  }

  lemma ConsumersStay<T>(s: State<T>, a: Action<T>, t: State<T>)
    requires Step(s, a, t)
    ensures |t.consumers| == |s.consumers|
  {
    match a
    case Produce(c) => ProducerItems(s, t, c);
    case Consume(i, max) => OnlyOneConsumer(s, t, i, max);
    case Others(_) =>
  }

  lemma OnlyOneConsumer<T>(s: State<T>, t: State<T>, i: nat, max: nat)
    requires ConsumerEnabled(s, i, max) && t == ConsumerAfter(s, i, max)
    ensures |t.consumers| == |s.consumers| && t.consumers == s.consumers[i := t.consumers[i]]
  {
  }

  lemma ConsumerLeavesOthers<T>(s: State<T>, t: State<T>, i: nat, max: nat, j: nat)
    requires ConsumerEnabled(s, i, max) && t == ConsumerAfter(s, i, max) && j < |s.consumers| && j != i
    ensures |t.consumers| == |s.consumers| && |t.tickets.pcs| == |s.tickets.pcs| && |t.index.readers| == |s.index.readers|
    ensures t.consumers[j] == s.consumers[j] && t.tickets.pcs[j] == s.tickets.pcs[j] && t.index.readers[j] == s.index.readers[j]
  {
    OnlyOneConsumer(s, t, i, max);
    TicketsOfConsumer(s, t, i, max);
    IndexOfConsumer(s, t, i, max);
  }

  /** A step of anybody else takes a consumer no nearer to its end, nor away from it. */
  lemma OthersLeaveRank<T>(s: State<T>, a: Action<T>, t: State<T>, i: nat)
    requires Step(s, a, t) && Shape(s) && Shape(t) && i < |s.consumers| && !(a.Consume? && a.i == i)
    ensures i < |t.consumers| && CallRankOf(t, i) == CallRankOf(s, i) && (AtRest(t, i) <==> AtRest(s, i))
  {
    match a
    case Produce(c) => ProducerLeavesConsumers(s, t, c);
    case Consume(j, max) => ConsumerLeavesOthers(s, t, j, max, i);
    case Others(_) =>
  }

  lemma CallRankIsPositive<T>(s: State<T>, i: nat)
    requires Inv(s) && Shape(s) && i < |s.consumers|
    ensures CallRankOf(s, i) >= 0
  {
    var counted :| LinkWith(s, counted);
    assert InStep(s, i);
    if s.consumers[i].Move? { QueueConsumers.StopInBounds(s.consumers[i].start, s.consumers[i].end, s.blockSize); }
  }

  /** Consumer `i` is inside a call. */
  ghost predicate Busy<T>(s: State<T>, i: nat) {
    match i < |s.consumers|
    case true => Shape(s) && !AtRest(s, i)
    case false => false
  }

  lemma ConsumerAdvancesAt<T>(r: seq<State<T>>, acts: seq<Action<T>>, i: nat, k: nat)
    requires Run(r, acts) && 0 < k < |r| && Busy(r[k - 1], i)
    ensures Shape(r[k]) && i < |r[k].consumers|
    ensures 0 <= CallRankOf(r[k], i) <= CallRankOf(r[k - 1], i) - (if acts[k - 1].Consume? && acts[k - 1].i == i then 1 else 0)
  {
    RunStepTo(r, acts, k);
    RunHolds(r, acts, k);
    ConsumersStay(r[k - 1], acts[k - 1], r[k]);
    CallRankIsPositive(r[k], i);
    if acts[k - 1].Consume? && acts[k - 1].i == i {
      ConsumerAdvances(r[k - 1], r[k], i, acts[k - 1].max);
    } else {
      OthersLeaveRank(r[k - 1], acts[k - 1], r[k], i);
    }
  }

  lemma DequeueStarts<T>(s: State<T>, t: State<T>, i: nat, max: nat)
    requires Shape(s) && Shape(t) && Step(s, Consume(i, max), t) && i < |s.consumers| && AtRest(s, i)
    ensures i < |t.consumers| && CallRankOf(t, i) == 8 * max + 13
  {
  }

  lemma DequeueStartsAt<T>(r: seq<State<T>>, acts: seq<Action<T>>, i: nat, max: nat, k: nat)
    requires Run(r, acts) && 0 < k < |r| && acts[k - 1] == Consume(i, max)
    requires Shape(r[k - 1]) && i < |r[k - 1].consumers| && AtRest(r[k - 1], i)
    ensures CallRanks(r, i)[k] == 8 * max + 13
  {
    RunStepTo(r, acts, k);
    RunHolds(r, acts, k);
    DequeueStarts(r[k - 1], r[k], i, max);
  }

  /** A dequeue is wait-free too: within eight steps for each item asked for and thirteen more it is over, whatever the
      producer and other consumers do meanwhile. */
  lemma DequeueEnds<T>(r: seq<State<T>>, acts: seq<Action<T>>, i: nat, max: nat, j: nat, k: nat)
    requires Run(r, acts) && j < k < |r| && acts[j] == Consume(i, max)
    requires Shape(r[j]) && i < |r[j].consumers| && AtRest(r[j], i)
    requires forall n :: j < n < k ==> Busy(r[n], i)
    ensures Count(StepsOf(acts, i), j + 1, k) <= 8 * max + 13
  {
    DequeueStartsAt(r, acts, i, max, j + 1);
    forall m: nat | j + 1 <= m < k ensures GoesDown(CallRanks(r, i), StepsOf(acts, i), m) { CallGoesDownAt(r, acts, i, m); }
    Descends(CallRanks(r, i), StepsOf(acts, i), j + 1, k);
    if k > j + 1 { CallGoesDownAt(r, acts, i, k - 1); }
  }

  function CallRanks<T>(r: seq<State<T>>, i: nat): (ranks: seq<int>)
    ensures |ranks| == |r|
  {
    seq(|r|, m requires 0 <= m < |r| => CallRankOr0(r[m], i))
  }

  lemma CallGoesDownAt<T>(r: seq<State<T>>, acts: seq<Action<T>>, i: nat, m: nat)
    requires Run(r, acts) && m < |acts| && Busy(r[m], i)
    ensures GoesDown(CallRanks(r, i), StepsOf(acts, i), m) && CallRanks(r, i)[m + 1] >= 0
  {
    ConsumerAdvancesAt(r, acts, i, m + 1);
  }

  /** The steps of the run that are consumer `i`'s. */
  function StepsOf<T>(acts: seq<Action<T>>, i: nat): (own: seq<bool>)
    ensures |own| == |acts|
  {
    seq(|acts|, m requires 0 <= m < |acts| => acts[m].Consume? && acts[m].i == i)
  }

  function CallRankOr0<T>(s: State<T>, i: nat): int {
    if i < |s.consumers| && i < |s.tickets.pcs| && i < |s.index.readers| then CallRankOf(s, i) else 0
  }
}
