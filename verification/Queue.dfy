/** One implicit sub-queue as a whole: the counters of module Tickets, the index of module BlockIndex, and
    the blocks themselves, with one producer running `enqueue` and `enqueue_bulk` and any number of
    consumers running `dequeue` and `dequeue_bulk`.  A single enqueue takes the steps of a bulk one of one
    item; a single dequeue those of a bulk one with `max == 1`. */
module Queue {
  import opened Pointers
  import Tickets
  import Index = BlockIndex

  datatype Slot<T> = Vacant | Full(item: T)

  /** `emptied` is `elementsCompletelyDequeued`. */
  datatype Block<T> = Block(slots: seq<Slot<T>>, emptied: nat, next: Ptr)

  /** `MAX_SUBQUEUE_SIZE`, rounded up to whole blocks; the largest value of its type means no limit. */
  datatype Limit = NoLimit | AtMost(size: nat)

  /** What the producer of an implicit sub-queue is at.  `at` is where it stands in the chain of the blocks it
      took; `mine` and `j` of `Return` record which these are, and how many are given back. */
  datatype Producer<T> =
    | Ready
    | Reserve(xs: seq<T>)
    | Guarded(xs: seq<T>)
    | Insert(xs: seq<T>)
    | Reset(xs: seq<T>, block: Node)
    | Store(xs: seq<T>, block: Node)
    | Write(xs: seq<T>, k: nat)
    | Undo(at: Ptr)
    | Return(at: Ptr, mine: seq<Node>, j: nat)

  /** A consumer outside the blocks, looking for the block of index `x`, moving items `start .. stop` out of
      a block, or releasing a block it was told is empty; `end` is the end of its claim. */
  datatype Consumer =
    | Out
    | Seek(x: nat, end: nat)
    | Move(block: Node, start: nat, x: nat, stop: nat, end: nat)
    | Nulling(block: Node, stop: nat, end: nat)
    | Freeing(block: Node, stop: nat, end: nat)

  /** `memory` are all blocks there are, of every sub-queue; `owned` are those of this one.  The producer keeps
      the block it writes to, and while it enqueues, the one it started from, the first and the last it took;
      `succeeded` is what the last enqueue returned.
      History: `items` is everything enqueued so far, `got` what was moved out to a consumer, by index. */
  datatype State<T> = State(
    blockSize: nat,
    limit: Limit,
    leeway: nat,
    index: Index.State,
    tickets: Tickets.State,
    memory: seq<Block<T>>,
    owned: set<Node>,
    tailBlock: Ptr,
    startBlock: Ptr,
    firstBlock: Ptr,
    endBlock: Ptr,
    succeeded: bool,
    producer: Producer<T>,
    consumers: seq<Consumer>,
    items: seq<T>,
    got: map<nat, T>)

  predicate Shape<T>(s: State<T>) {
    && s.blockSize == s.index.blockSize > 1
    && Index.Shape(s.index)
    && |s.consumers| == |s.index.readers| == |s.tickets.pcs|
    && (forall b :: 0 <= b < |s.memory| ==> |s.memory[b].slots| == s.blockSize)
  }

  // ---------------------------------------------------------------------------------------------
  // The producer
  // ---------------------------------------------------------------------------------------------

  /** How many blocks `count` items starting at index `tail` lie in, beyond those up to `tail`. */
  function NewBlocks(tail: nat, count: nat, blockSize: nat): int
    requires blockSize > 0
  {
    (tail + count - 1) / blockSize - (tail - 1) / blockSize
  }

  /** The test before a new block is taken: with `base` its first index, the distance to the head must stay
      below what wrapped counters can tell apart, and within the limit. */
  predicate IsFull(limit: Limit, leeway: nat, blockSize: nat, base: nat, head: nat) {
    || !(0 < base + blockSize - head < leeway)
    || (limit.AtMost? && (limit.size == 0 || limit.size - blockSize < base - head))
  }

  function NextBase<T>(s: State<T>): nat {
    (|s.index.blocks| + |s.index.producer.mine|) * s.blockSize
  }

  function BlockFor<T>(s: State<T>, q: nat): Node
    requires q < |s.index.blocks| + |s.index.producer.mine|
  {
    if q < |s.index.blocks| then s.index.blocks[q] else s.index.producer.mine[q - |s.index.blocks|]
  }

  function SetMemory<T>(s: State<T>, b: Node, block: Block<T>): State<T>
    requires b < |s.memory|
  {
    s.(memory := s.memory[b := block])
  }

  datatype Choice<T> = Go | Call(xs: seq<T>) | Fail | Build(junk: seq<Ptr>) | Obtain(block: Node)

  /** The choice a producer's step passes on to the index. */
  function IndexChoice<T>(s: State<T>, c: Choice<T>): Index.Choice {
    match s.producer
    case Reserve(_) => Index.GiveUp
    case Guarded(_) => if c.Build? then Index.Build(c.junk) else Index.Insert
    case Insert(_) => if c.Fail? then Index.GiveUp else Index.Insert
    case Store(_, b) => Index.Obtain(b)
    case Write(_, _) => Index.Commit
    case _ => Index.Insert
  }

  predicate UsesIndex<T>(s: State<T>, c: Choice<T>)
    requires s.blockSize > 0
  {
    match s.producer
    case Reserve(xs) =>
      && |s.index.producer.mine| < NewBlocks(|s.items|, |xs|, s.blockSize)
      && IsFull(s.limit, s.leeway, s.blockSize, NextBase(s), s.tickets.head)
    case Guarded(_) => true
    case Insert(_) => !c.Obtain?
    case Store(_, _) => true
    case Write(xs, k) => k >= |xs|
    case Undo(_) => true
    case _ => false
  }

  /** A new block is linked behind the tail block, unless that may not be the sub-queue's own any more. */
  predicate LinksBehind<T>(s: State<T>)
    requires s.blockSize > 0
  {
    |s.items| % s.blockSize != 0 || s.firstBlock != Null
  }

  /** The pointer is not null. */
  predicate Leads<T>(s: State<T>, p: Ptr) {
    p.At? && p.node < |s.memory|
  }

  /** What the rest of the program may do at a producer's step: call it, have memory for an index or not, have a
      block or not, and then any that this sub-queue does not own. */
  predicate Offered<T>(s: State<T>, c: Choice<T>) {
    match s.producer
    case Ready => c.Call?
    case Guarded(_) => c.Go? || (c.Build? && |c.junk| == Index.EntryCount(s.index))
    case Insert(_) =>
      if s.index.producer.Filling? then c.Fail? || (c.Obtain? && c.block !in s.owned && c.block < |s.memory|)
      else c.Go?
    case _ => c.Go?
  }

  /** What the producer relies on without testing it: the pointers it follows lead to blocks, and where it asserts
      something, this holds. */
  predicate PointersSound<T>(s: State<T>)
    requires s.blockSize > 0
  {
    match s.producer
    case Reset(_, b) => b < |s.memory|
    case Store(_, _) => LinksBehind(s) ==> Leads(s, s.tailBlock)
    case Write(xs, k) => if k < |xs| then Leads(s, s.tailBlock) else s.tailBlock == s.endBlock
    case Undo(at) =>
      && (s.index.producer.Undoing? ==> (at == Null <==> s.index.producer.k >= |s.index.producer.mine|))
      && (s.index.producer.UndoRewinding? ==> Leads(s, at))
    case Return(at, _, _) => at != Null ==> Leads(s, at)
    case _ => true
  }

  predicate ProducerEnabled<T>(s: State<T>, c: Choice<T>) {
    && Shape(s)
    && Offered(s, c)
    && (UsesIndex(s, c) ==> Index.ProducerEnabled(s.index, IndexChoice(s, c)))
    && PointersSound(s)
  }

  function StepIndex<T>(s: State<T>, c: Choice<T>): State<T>
    requires ProducerEnabled(s, c) && UsesIndex(s, c)
  {
    s.(index := Index.ProducerAfter(s.index, IndexChoice(s, c)))
  }

  /** The new block becomes the tail block. */
  function LinkBlock<T>(s: State<T>, b: Node): State<T>
    requires s.blockSize > 0 && (LinksBehind(s) ==> Leads(s, s.tailBlock))
  {
    var t := if LinksBehind(s) then SetMemory(s, s.tailBlock.node, s.memory[s.tailBlock.node].(next := At(b))) else s;
    t.(tailBlock := At(b), endBlock := At(b), firstBlock := if s.firstBlock == Null then At(b) else s.firstBlock)
  }

  /** Writing item `k`; at the end of a block that is not the last one taken, the producer goes on to the next. */
  function WriteItem<T>(s: State<T>, xs: seq<T>, k: nat): State<T>
    requires Shape(s) && k < |xs| && Leads(s, s.tailBlock)
  {
    var x := |s.items| + k;
    var b := s.tailBlock.node;
    var t := SetMemory(s, b, s.memory[b].(slots := s.memory[b].slots[x % s.blockSize := Full(xs[k])]));
    var stops := (x + 1) % s.blockSize == 0 || k + 1 == |xs|;
    t.(tailBlock := if stops && s.tailBlock != s.endBlock then s.memory[b].next else s.tailBlock,
       producer := Write(xs, k + 1))
  }

  function ProducerAfter<T>(s: State<T>, c: Choice<T>): State<T>
    requires ProducerEnabled(s, c)
  {
    match s.producer
    case Ready => s.(producer := Reserve(c.xs), startBlock := s.tailBlock, firstBlock := Null, endBlock := s.tailBlock)
    case Reserve(xs) =>
      if UsesIndex(s, c) then StepIndex(s, c).(producer := Undo(s.firstBlock))
      else if |s.index.producer.mine| < NewBlocks(|s.items|, |xs|, s.blockSize) then s.(producer := Guarded(xs))
      else
        var fromFirst := |s.items| % s.blockSize == 0 && s.firstBlock != Null;
        s.(producer := Write(xs, 0), tailBlock := if fromFirst then s.firstBlock else s.startBlock)
    case Guarded(xs) =>
      var t := StepIndex(s, c);
      t.(producer := if t.index.producer.Keying? then Insert(xs) else Undo(s.firstBlock))
    case Insert(xs) =>
      if c.Obtain? then s.(owned := s.owned + {c.block}, producer := Reset(xs, c.block))
      else if c.Fail? then StepIndex(s, c).(producer := Undo(s.firstBlock))
      else StepIndex(s, c)
    case Reset(xs, b) => SetMemory(s, b, s.memory[b].(emptied := 0, next := Null)).(producer := Store(xs, b))
    case Store(xs, b) => LinkBlock(StepIndex(s, c), b).(producer := Reserve(xs))
    case Write(xs, k) =>
      if k < |xs| then WriteItem(s, xs, k)
      else
        StepIndex(s, c).(tickets := Tickets.Publish(s.tickets, |xs|), items := s.items + xs,
                            producer := Ready, succeeded := true)
    case Undo(at) =>
      var undone := s.index.producer;
      if undone.Undoing? && at == Null then
        StepIndex(s, c).(producer := Return(s.firstBlock, undone.mine, 0), tailBlock := s.startBlock)
      else
        StepIndex(s, c).(producer := Undo(if undone.UndoRewinding? then s.memory[at.node].next else at))
    case Return(at, mine, j) =>
      if at != Null then s.(owned := s.owned - {at.node}, producer := Return(s.memory[at.node].next, mine, j + 1))
      else s.(producer := Ready, succeeded := false)
  }

  // ---------------------------------------------------------------------------------------------
  // Consumers
  // ---------------------------------------------------------------------------------------------

  function SetConsumer<T>(s: State<T>, i: nat, c: Consumer): State<T>
    requires i < |s.consumers|
  {
    s.(consumers := s.consumers[i := c])
  }

  /** Where the part of a claim that lies in the block of `x` ends. */
  function StopIn(x: nat, end: nat, blockSize: nat): nat
    requires blockSize > 0
  {
    var next := x - x % blockSize + blockSize;
    if end < next then end else next
  }

  /** Which use of the index a consumer's step makes. */
  function IndexUse<T>(s: State<T>, i: nat): Index.Use
    requires Shape(s) && i < |s.consumers|
  {
    match s.consumers[i]
    case Out =>
      var pc := s.tickets.pcs[i];
      if pc.Deliver? && pc.count > 0 then Index.Begin(pc.first / s.blockSize, (pc.first + pc.count - 1) / s.blockSize)
      else Index.Proceed
    case Nulling(_, _, _) => Index.Retire
    case _ => Index.Proceed
  }

  predicate StepsIndex<T>(s: State<T>, i: nat)
    requires Shape(s) && i < |s.consumers|
  {
    match s.consumers[i]
    case Out => s.tickets.pcs[i].Deliver? && s.tickets.pcs[i].count > 0
    case Seek(_, _) => !s.index.readers[i].Got?
    case Move(b, start, x, stop, _) =>
      x >= stop && (b < |s.memory| ==> s.memory[b].emptied + (stop - start) != s.blockSize)
    case Nulling(_, _, _) => true
    case Freeing(_, _, _) => false
  }

  /** A bulk dequeue with a maximum of zero comes as far as claiming no index at all. */
  predicate ClaimsNothing<T>(s: State<T>, i: nat)
    requires i < |s.consumers| && i < |s.tickets.pcs|
  {
    s.consumers[i].Out? && s.tickets.pcs[i].Deliver? && s.tickets.pcs[i].count == 0
  }

  /** It looks up the block of the index `x` it claimed nothing from all the same, and adds zero to the block's
      counter.  This goes well only where the assertions of the lookup hold, and the counter does not make it
      look as if the block had just become empty. */
  predicate FindsBlock<T>(s: State<T>, x: nat)
    requires Shape(s)
  {
    && s.index.headers != []
    && var h := s.index.headers[Index.Current(s.index)];
    var tailKey := s.index.entries[h.index[h.tail]].key;
    && tailKey != Index.INVALID_BLOCK_BASE
    && var e := s.index.entries[h.index[Index.SlotFromTail(h, h.tail, tailKey, x / s.blockSize, s.blockSize)]];
    && e.key == x / s.blockSize * s.blockSize && Leads(s, e.value)
    && s.memory[e.value.node].emptied != s.blockSize
  }

  predicate ConsumerEnabled<T>(s: State<T>, i: nat, max: nat) {
    && Shape(s)
    && i < |s.consumers|
    && (StepsIndex(s, i) ==> Index.ReaderEnabled(s.index, i, IndexUse(s, i)))
    && match s.consumers[i]
       case Out => ClaimsNothing(s, i) ==> FindsBlock(s, s.tickets.pcs[i].first)
       case Seek(_, _) => s.index.readers[i].Got? ==> s.index.readers[i].value.At?
       case Move(b, start, x, stop, _) =>
         && b < |s.memory| && start <= stop
         && (x < stop ==> s.memory[b].slots[x % s.blockSize].Full?)
       case _ => true
  }

  function StepReader<T>(s: State<T>, i: nat): State<T>
    requires Shape(s) && i < |s.consumers| && Index.ReaderEnabled(s.index, i, IndexUse(s, i))
  {
    s.(index := Index.ReaderAfter(s.index, i, IndexUse(s, i)))
  }

  function ConsumerAfter<T>(s: State<T>, i: nat, max: nat): State<T>
    requires ConsumerEnabled(s, i, max)
  {
    match s.consumers[i]
    case Out =>
      var pc := s.tickets.pcs[i];
      if pc.Deliver? && pc.count > 0 then SetConsumer(StepReader(s, i), i, Seek(pc.first, pc.first + pc.count))
      else s.(tickets := Tickets.After(s.tickets, i, max))
    case Seek(x, end) =>
      if s.index.readers[i].Got? then
        SetConsumer(s, i, Move(s.index.readers[i].value.node, x, x, StopIn(x, end, s.blockSize), end))
      else if x < end then StepReader(s, i)
      else SetConsumer(StepReader(s, i), i, Out).(tickets := Tickets.After(s.tickets, i, max))
    case Move(b, start, x, stop, end) =>
      var block := s.memory[b];
      if x < stop then
        var slot := x % s.blockSize;
        SetConsumer(SetMemory(s, b, block.(slots := block.slots[slot := Vacant])), i, Move(b, start, x + 1, stop, end))
          .(got := s.got[x := block.slots[slot].item])
      else
        var t := SetMemory(s, b, block.(emptied := block.emptied + (stop - start)));
        if block.emptied + (stop - start) == s.blockSize then SetConsumer(t, i, Nulling(b, stop, end))
        else SetConsumer(t, i, Seek(stop, end)).(index := Index.ReaderAfter(s.index, i, Index.Proceed))
    case Nulling(b, stop, end) => SetConsumer(StepReader(s, i), i, Freeing(b, stop, end))
    case Freeing(b, stop, end) => SetConsumer(s, i, Seek(stop, end)).(owned := s.owned - {b})
  }

  // ---------------------------------------------------------------------------------------------
  // Runs
  // ---------------------------------------------------------------------------------------------

  /** Other sub-queues change blocks they own, and new blocks are allocated. */
  ghost predicate OthersEnabled<T>(s: State<T>, memory: seq<Block<T>>) {
    && |s.memory| <= |memory|
    && (forall b :: 0 <= b < |memory| ==> |memory[b].slots| == s.blockSize)
    && (forall b :: 0 <= b < |s.memory| && b in s.owned ==> memory[b] == s.memory[b])
  }

  datatype Action<T> = Produce(c: Choice<T>) | Consume(i: nat, max: nat) | Others(memory: seq<Block<T>>)

  ghost predicate Enabled<T>(s: State<T>, a: Action<T>) {
    match a
    case Produce(c) => ProducerEnabled(s, c)
    case Consume(i, max) => ConsumerEnabled(s, i, max)
    case Others(memory) => OthersEnabled(s, memory)
  }

  ghost function After<T>(s: State<T>, a: Action<T>): State<T>
    requires Enabled(s, a)
  {
    match a
    case Produce(c) => ProducerAfter(s, c)
    case Consume(i, max) => ConsumerAfter(s, i, max)
    case Others(memory) => s.(memory := memory)
  }

  ghost predicate Init<T>(s: State<T>) {
    && Shape(s)
    && Index.Init(s.index)
    && Tickets.Init(s.tickets)
    && (s.limit.AtMost? ==> s.limit.size % s.blockSize == 0)
    && s.owned == {} && s.tailBlock == Null
    && s.producer == Ready
    && (forall i :: 0 <= i < |s.consumers| ==> s.consumers[i] == Out)
    && s.items == []
    && s.got == map[]
  }

  ghost predicate Step<T>(s: State<T>, a: Action<T>, t: State<T>) {
    Enabled(s, a) && t == After(s, a)
  }

  ghost predicate Run<T>(r: seq<State<T>>, acts: seq<Action<T>>) {
    && |r| == |acts| + 1
    && Init(r[0])
    && (forall k {:trigger acts[k]} :: 0 <= k < |acts| ==> Step(r[k], acts[k], r[k + 1]))
  }
}
