/** The invariant of a sub-queue: how its counters, its index and its blocks belong together. */
module QueueInvariant {
  import opened Pointers
  import opened Modular
  import opened Queue
  import Threads
  import Tickets
  import TicketsProof
  import Index = BlockIndex
  import IndexProof = BlockIndexProof

  // ---------------------------------------------------------------------------------------------
  // What the parts contribute
  // ---------------------------------------------------------------------------------------------

  /** The consequences, for this state, of the invariants of the counters and of the index. */
  ghost predicate Facts<T>(s: State<T>) {
    && Shape(s)
    && (forall i :: 0 <= i < |s.index.readers| && s.index.readers[i].Got? ==>
          s.index.readers[i].q < |s.index.blocks|
          && s.index.readers[i].value == At(s.index.blocks[s.index.readers[i].q]))
    && (forall q :: q in s.index.retired ==> q < |s.index.blocks|)
    && (s.index.headers == [] ==> s.index.blocks == [] && s.index.producer.mine == [])
    && (s.index.producer.Undoing? ==> s.index.producer.k <= |s.index.producer.mine|)
    && s.tickets.head <= s.tickets.tail
    && (forall i :: 0 <= i < |s.tickets.pcs| && s.tickets.pcs[i].Claim? ==>
          s.tickets.head + s.tickets.pcs[i].count <= s.tickets.tail)
    && (forall i :: 0 <= i < |s.tickets.pcs| && s.tickets.pcs[i].Deliver? ==>
          s.tickets.pcs[i].first + s.tickets.pcs[i].count <= s.tickets.head)
    && (forall i, j :: 0 <= i < j < |s.tickets.pcs| ==> TicketsProof.Apart(s.tickets.pcs[i], s.tickets.pcs[j]))
  }

  lemma FactsHold<T>(s: State<T>)
    requires Shape(s) && IndexProof.Inv(s.index) && TicketsProof.Inv(s.tickets)
    ensures Facts(s)
  {
    TicketsProof.ClaimsStayBelowTail(s.tickets);
    var a :| IndexProof.InvWith(s.index, a);
    forall i | 0 <= i < |s.index.readers| && s.index.readers[i].Got?
      ensures s.index.readers[i].q < |s.index.blocks|
        && s.index.readers[i].value == At(s.index.blocks[s.index.readers[i].q])
    {
      IndexProof.LoadedBlockIsRight(s.index, i);
    }
    TicketFacts(s.tickets);
  }

  lemma TicketFacts(s: Tickets.State)
    requires TicketsProof.Inv(s)
    ensures forall i :: 0 <= i < |s.pcs| && s.pcs[i].Deliver? ==> s.pcs[i].first + s.pcs[i].count <= s.head
    ensures forall i, j :: 0 <= i < j < |s.pcs| ==> TicketsProof.Apart(s.pcs[i], s.pcs[j])
  {
    var passed: set<nat>, failed: set<nat> :| TicketsProof.InvWith(s, passed, failed);
    forall i | 0 <= i < |s.pcs| && s.pcs[i].Deliver? ensures s.pcs[i].first + s.pcs[i].count <= s.head {
      assert TicketsProof.ThreadOk(s, passed, failed, s.pcs[i]);
    }
  }

  // ---------------------------------------------------------------------------------------------
  // The invariant that links them
  // ---------------------------------------------------------------------------------------------

  /** Index `x` is part of consumer `i`'s claim and not yet counted as emptied. */
  ghost predicate Pending<T>(s: State<T>, i: nat, x: nat)
    requires Shape(s) && i < |s.consumers|
  {
    match s.consumers[i]
    case Out =>
      var pc := s.tickets.pcs[i];
      pc.Deliver? && pc.first <= x < pc.first + pc.count
    case Seek(from, end) => from <= x < end
    case Move(_, start, _, _, end) => start <= x < end
    case Nulling(_, stop, end) => stop <= x < end
    case Freeing(_, stop, end) => stop <= x < end
  }

  ghost function InBlock(counted: set<nat>, q: nat, b: nat): set<nat>
    requires b > 0
  {
    set x | x in counted && Home(x, b) == q
  }

  /** Every index of block `q` is counted. */
  ghost predicate AllCounted(counted: set<nat>, q: nat, b: nat)
    requires b > 0
  {
    forall x: nat :: Home(x, b) == q ==> x in counted
  }

  /** Consumer `i` was told that block `q` is empty and is about to null its entry. */
  ghost predicate Nulls<T>(s: State<T>, i: nat, q: nat)
    requires Shape(s) && i < |s.consumers|
  {
    s.consumers[i].Nulling? && s.index.readers[i].Got? && s.index.readers[i].q == q
  }

  /** The blocks that hold the items enqueued so far, and those the producer is adding. */
  ghost function Total<T>(s: State<T>): nat {
    |s.index.blocks| + |s.index.producer.mine|
  }

  /** Block `q` is in the index. */
  ghost predicate Live<T>(s: State<T>, q: nat) {
    q < Total(s) && q !in s.index.retired
  }

  /** A consumer that is past position `x` of its claim goes on with a new block there, or is done. */
  ghost predicate Resumes(x: nat, end: nat, q: nat, last: nat, b: nat)
    requires b > 0
  {
    && x <= end && 0 < end && last == Home(end - 1, b)
    && (x < end ==> x % b == 0 && Home(x, b) == q + 1 <= last)
    && (x == end ==> q == last)
  }

  /** What consumer `i` is doing in the blocks matches what it is doing in the index. */
  ghost predicate InStep<T>(s: State<T>, i: nat)
    requires Shape(s) && i < |s.consumers|
  {
    var b := s.blockSize;
    var r := s.index.readers[i];
    match s.consumers[i]
    case Out => r.Resting?
    case Seek(x, end) =>
      if r.Leaving? then Resumes(x, end, r.q, r.last, b)
      else !r.Resting? && x < end && r.q == Home(x, b) && r.last == Home(end - 1, b)
    case Move(block, start, x, stop, end) =>
      && start <= x <= stop && start < stop && stop == StopIn(start, end, b)
      && start < end
      && r.Got? && r.q == Home(start, b) && r.last == Home(end - 1, b)
      && Live(s, r.q) && r.q < |s.index.blocks| && block == s.index.blocks[r.q]
    case Nulling(block, stop, end) =>
      && r.Got? && Resumes(stop, end, r.q, r.last, b)
      && Live(s, r.q) && r.q < |s.index.blocks| && block == s.index.blocks[r.q]
    case Freeing(block, stop, end) => r.Leaving? && Resumes(stop, end, r.q, r.last, b)
  }

  /** The claim behind it, and how much of it is moved out and counted. */
  ghost predicate ClaimOk<T>(s: State<T>, counted: set<nat>, i: nat)
    requires Shape(s) && i < |s.consumers|
  {
    var pc := s.tickets.pcs[i];
    && (forall x: nat :: Pending(s, i, x) ==> x !in counted)
    && (!s.consumers[i].Out? ==> pc.Deliver?)
    && (match s.consumers[i]
        case Out => forall x: nat :: Pending(s, i, x) ==> x !in s.got
        case Seek(x, end) =>
          pc.first <= x && end == pc.first + pc.count && (forall y: nat :: x <= y < end ==> y !in s.got)
        case Move(_, start, x, stop, end) =>
          && pc.first <= start && end == pc.first + pc.count
          && (forall y: nat :: start <= y < x ==> y in s.got)
          && (forall y: nat :: x <= y < end ==> y !in s.got)
        case Nulling(_, stop, end) =>
          pc.first <= stop && end == pc.first + pc.count && (forall y: nat :: stop <= y < end ==> y !in s.got)
        case Freeing(_, stop, end) =>
          pc.first <= stop && end == pc.first + pc.count && (forall y: nat :: stop <= y < end ==> y !in s.got))
  }

  ghost predicate ConsumersOk<T>(s: State<T>, counted: set<nat>)
    requires Shape(s)
  {
    && (forall i :: 0 <= i < |s.consumers| ==> InStep(s, i))
    && (forall i :: 0 <= i < |s.consumers| ==> ClaimOk(s, counted, i))
    && (forall i, j, q: nat :: 0 <= i < j < |s.consumers| && Nulls(s, i, q) ==> !Nulls(s, j, q))
  }

  /** What was moved out is what was enqueued, and whatever is claimed is pending or counted. */
  ghost predicate DeliveredOk<T>(s: State<T>, counted: set<nat>)
    requires Shape(s)
  {
    && s.tickets.tail == |s.items|
    && (forall x :: x in s.got ==> x < s.tickets.head && x < |s.items| && s.got[x] == s.items[x])
    && (forall x :: x in counted ==> x in s.got)
    && (forall x: nat :: x < s.tickets.head ==> x in counted || exists i :: 0 <= i < |s.consumers| && Pending(s, i, x))
  }

  /** A block's counter counts its emptied items; the block retires after the last of them. */
  ghost predicate CountersOk<T>(s: State<T>, counted: set<nat>)
    requires Shape(s)
  {
    && (forall q :: q in s.index.retired ==> AllCounted(counted, q, s.blockSize))
    && (forall q: nat :: Live(s, q) ==>
          BlockFor(s, q) < |s.memory|
          && s.memory[BlockFor(s, q)].emptied == |InBlock(counted, q, s.blockSize)|)
    && (forall i, q: nat :: 0 <= i < |s.consumers| && Nulls(s, i, q) ==> AllCounted(counted, q, s.blockSize))
    && (forall q: nat :: Live(s, q) && AllCounted(counted, q, s.blockSize) ==>
          exists i :: 0 <= i < |s.consumers| && Nulls(s, i, q))
  }

  /** Every item not moved out yet is where index arithmetic puts it. */
  ghost predicate ItemsOk<T>(s: State<T>)
    requires Shape(s)
  {
    && (forall x: nat :: x < |s.items| && x !in s.got ==> HeldAt(s, x, s.items[x]))
    && (s.producer.Write? ==> forall k :: 0 <= k < s.producer.k && k < |s.producer.xs| ==>
          HeldAt(s, |s.items| + k, s.producer.xs[k]))
  }

  ghost predicate HeldAt<T>(s: State<T>, x: nat, item: T)
    requires Shape(s)
  {
    var q := Home(x, s.blockSize);
    && Live(s, q) && BlockFor(s, q) < |s.memory|
    && s.memory[BlockFor(s, q)].slots[x % s.blockSize] == Full(item)
  }

  /** The reasons for which this sub-queue owns a block. */
  datatype Reason = Indexed(q: nat) | Coming | Leaving(i: nat) | Returning(j: nat)

  ghost function BlockOfReason<T>(s: State<T>, c: Reason): Ptr {
    match c
    case Indexed(q) => if Live(s, q) then At(BlockFor(s, q)) else Null
    case Coming => if s.producer.Reset? || s.producer.Store? then At(s.producer.block) else Null
    case Leaving(i) => if i < |s.consumers| && s.consumers[i].Freeing? then At(s.consumers[i].block) else Null
    case Returning(j) =>
      if s.producer.Return? && s.producer.j <= j < |s.producer.mine| then At(s.producer.mine[j]) else Null
  }

  /** Each owned block is owned for exactly one reason. */
  ghost predicate OwnedOk<T>(s: State<T>) {
    && (forall c :: BlockOfReason(s, c).At? ==> BlockOfReason(s, c).node in s.owned && BlockOfReason(s, c).node < |s.memory|)
    && (forall c, d :: BlockOfReason(s, c).At? && BlockOfReason(s, c) == BlockOfReason(s, d) ==> c == d)
    && (forall b :: b in s.owned ==> exists c :: BlockOfReason(s, c) == At(b))
  }

  /** The distance to the head that filling `n` blocks can lead to. */
  ghost predicate Bounded<T>(s: State<T>, n: nat) {
    n * s.blockSize > 0 ==>
      && n * s.blockSize - s.tickets.head < s.leeway
      && (s.limit.AtMost? ==> n * s.blockSize - s.tickets.head <= s.limit.size)
  }

  ghost predicate ProducerOk<T>(s: State<T>)
    requires Shape(s)
  {
    var p := s.index.producer;
    && |s.index.blocks| == Ceiling(|s.items|, s.blockSize)
    && (s.limit.AtMost? ==> s.limit.size % s.blockSize == 0)
    && Bounded(s, Total(s))
    && (match s.producer
        case Ready => p == Index.Ready([])
        case Reserve(xs) => p.Ready? && |p.mine| <= NewBlocks(|s.items|, |xs|, s.blockSize)
        case Guarded(xs) =>
          p.Ready? && |p.mine| < NewBlocks(|s.items|, |xs|, s.blockSize) && Bounded(s, Total(s) + 1)
        case Insert(xs) =>
          (p.Keying? || p.Advancing? || p.Filling?) && |p.mine| < NewBlocks(|s.items|, |xs|, s.blockSize)
          && Bounded(s, Total(s) + 1)
        case Reset(xs, _) =>
          p.Filling? && |p.mine| < NewBlocks(|s.items|, |xs|, s.blockSize) && Bounded(s, Total(s) + 1)
        case Store(xs, b) =>
          p.Filling? && |p.mine| < NewBlocks(|s.items|, |xs|, s.blockSize) && Bounded(s, Total(s) + 1)
          && b < |s.memory| && s.memory[b].emptied == 0
        case Write(xs, k) => p.Ready? && |p.mine| == NewBlocks(|s.items|, |xs|, s.blockSize) && k <= |xs|
        case Undo(_) => p.Rewinding? || p.Clearing? || p.Undoing? || p.UndoRewinding?
        case Return(_, mine, j) => p == Index.Ready([]) && j <= |mine|)
  }

  ghost predicate LinkWith<T>(s: State<T>, counted: set<nat>) {
    && Shape(s)
    && ConsumersOk(s, counted)
    && DeliveredOk(s, counted)
    && CountersOk(s, counted)
    && ItemsOk(s)
    && OwnedOk(s)
    && ProducerOk(s)
  }

  ghost predicate Link<T>(s: State<T>) {
    exists counted :: LinkWith(s, counted)
  }

  // ---------------------------------------------------------------------------------------------
  // Where the producer stands
  // ---------------------------------------------------------------------------------------------

  ghost function LastPublished<T>(s: State<T>): Ptr {
    if s.index.blocks == [] then Null else At(s.index.blocks[|s.index.blocks| - 1])
  }

  ghost function BlockAt<T>(s: State<T>, q: nat): Ptr {
    if q < Total(s) then At(BlockFor(s, q)) else Null
  }

  ghost function Nth(list: seq<Node>, i: nat): Ptr {
    if i < |list| then At(list[i]) else Null
  }

  ghost predicate NextIs<T>(memory: seq<Block<T>>, block: Ptr, next: Ptr) {
    block.At? && block.node < |memory| && memory[block.node].next == next
  }

  /** From its `j`-th block on, `list` is a chain that ends with null. */
  ghost predicate Chained<T>(memory: seq<Block<T>>, list: seq<Node>, j: nat) {
    forall i: nat :: j <= i < |list| ==> NextIs(memory, Nth(list, i), Nth(list, i + 1))
  }

  /** The blocks taken so far are chained, behind the block the enqueue started from if that has room left. */
  ghost predicate Took<T>(s: State<T>)
    requires s.blockSize > 0
  {
    var mine := s.index.producer.mine;
    && s.startBlock == LastPublished(s)
    && s.firstBlock == Nth(mine, 0)
    && s.endBlock == (if mine == [] then s.startBlock else At(mine[|mine| - 1]))
    && Chained(s.memory, mine, 0)
    && (Turn(|s.items|, s.blockSize) != 0 && mine != [] ==> NextIs(s.memory, s.startBlock, At(mine[0])))
  }

  ghost predicate TailOk<T>(s: State<T>) {
    s.blockSize > 0 &&
    var p := s.index.producer;
    match s.producer
    case Ready => s.tailBlock == LastPublished(s)
    case Store(_, b) => Took(s) && s.tailBlock == s.endBlock && NextIs(s.memory, At(b), Null)
    case Write(xs, k) =>
      && Took(s)
      && s.tailBlock == (if k < |xs| then BlockAt(s, Home(|s.items| + k, s.blockSize)) else s.endBlock)
    case Undo(at) =>
      && Took(s)
      && at == Nth(p.mine, if p.Undoing? || p.UndoRewinding? then p.k else 0)
    case Return(at, mine, j) =>
      && s.tailBlock == LastPublished(s) && Chained(s.memory, mine, j) && at == Nth(mine, j)
    case _ => Took(s) && s.tailBlock == s.endBlock
  }

  ghost predicate Inv<T>(s: State<T>) {
    Shape(s) && IndexProof.Inv(s.index) && TicketsProof.Inv(s.tickets) && Link(s) && TailOk(s)
  }

  // ---------------------------------------------------------------------------------------------
  // Counting a block's emptied items
  // ---------------------------------------------------------------------------------------------

  lemma FullIffAllCounted(counted: set<nat>, q: nat, b: nat)
    requires b > 0
    ensures |InBlock(counted, q, b)| <= b
    ensures |InBlock(counted, q, b)| == b <==> AllCounted(counted, q, b)
  {
    var inside := InBlock(counted, q, b);
    MulBounds(q, b);
    var range := TicketsProof.Range(q * b, b);
    forall x: nat ensures Home(x, b) == q <==> x in range {
      HomeIsQuotient(x, b);
      if x in range { QuotientIs(x, q, b); } else if Home(x, b) == q { QuotientBounds(x, b); }
    }
    Threads.SubsetSize(inside, range);
    if |inside| == b {
      assert inside == range by { SubsetEqual(inside, range); }
    }
    if AllCounted(counted, q, b) {
      assert inside == range;
    }
  }

  lemma SubsetEqual<A>(a: set<A>, b: set<A>)
    requires a <= b && |a| == |b|
    ensures a == b
  {
    if a != b {
      var x :| x in b && x !in a;
      Threads.SubsetSize(a, b - {x});
    }
  }

  /** Counting `start .. stop`, all in block `q`, adds their number there and nothing elsewhere. */
  lemma CountMore(counted: set<nat>, start: nat, stop: nat, q: nat, b: nat)
    requires b > 0 && start <= stop
    requires forall x: nat :: start <= x < stop ==> Home(x, b) == q && x !in counted
    ensures |InBlock(counted + TicketsProof.Range(start, stop - start), q, b)| == |InBlock(counted, q, b)| + stop - start
    ensures forall p: nat :: p != q ==>
              InBlock(counted + TicketsProof.Range(start, stop - start), p, b) == InBlock(counted, p, b)
  {
    var more := TicketsProof.Range(start, stop - start);
    assert InBlock(counted + more, q, b) == InBlock(counted, q, b) + more;
    forall p: nat | p != q ensures InBlock(counted + more, p, b) == InBlock(counted, p, b) {
      assert forall x :: x in InBlock(counted + more, p, b) <==> x in InBlock(counted, p, b);
    }
  }

  // ---------------------------------------------------------------------------------------------
  // Frames
  // ---------------------------------------------------------------------------------------------

  /** Two live blocks with the same memory are the same block. */
  lemma BlocksDiffer<T>(s: State<T>, p: nat, q: nat)
    requires OwnedOk(s) && Live(s, p) && Live(s, q) && BlockFor(s, p) == BlockFor(s, q)
    ensures p == q
  {
    assert BlockOfReason(s, Indexed(p)) == BlockOfReason(s, Indexed(q));
  }

  /** Items stay where they are while no slot changes and no block comes or goes. */
  lemma ItemsFrame<T>(s: State<T>, t: State<T>)
    requires Shape(s) && Shape(t) && ItemsOk(s) && t.blockSize == s.blockSize
    requires t.items == s.items && t.producer == s.producer && t.got == s.got
    requires t.index.blocks == s.index.blocks && t.index.producer == s.index.producer
    requires t.index.retired == s.index.retired
    requires |t.memory| == |s.memory| && forall b :: 0 <= b < |s.memory| ==> t.memory[b].slots == s.memory[b].slots
    ensures ItemsOk(t)
  {
    forall x: nat | x < |t.items| && x !in t.got ensures HeldAt(t, x, t.items[x]) {
      assert HeldAt(s, x, s.items[x]);
    }
    if t.producer.Write? {
      forall k | 0 <= k < t.producer.k && k < |t.producer.xs| ensures HeldAt(t, |t.items| + k, t.producer.xs[k]) {
        assert HeldAt(s, |s.items| + k, s.producer.xs[k]);
      }
    }
  }

  /** Counters stay right while none changes, no block comes or goes, and the same consumers null entries. */
  lemma CountersFrame<T>(s: State<T>, t: State<T>, counted: set<nat>)
    requires Shape(s) && Shape(t) && CountersOk(s, counted)
    requires t.blockSize == s.blockSize && |t.consumers| == |s.consumers|
    requires t.index.blocks == s.index.blocks && t.index.producer == s.index.producer
    requires t.index.retired == s.index.retired
    requires forall j, p: nat :: 0 <= j < |s.consumers| ==> (Nulls(t, j, p) <==> Nulls(s, j, p))
    requires |t.memory| == |s.memory| && forall b :: 0 <= b < |s.memory| ==> t.memory[b].emptied == s.memory[b].emptied
    ensures CountersOk(t, counted)
  {
    assert forall q: nat :: Live(t, q) <==> Live(s, q);
    forall q: nat | Live(t, q) && AllCounted(counted, q, t.blockSize)
      ensures exists j :: 0 <= j < |t.consumers| && Nulls(t, j, q)
    {
      var j :| 0 <= j < |s.consumers| && Nulls(s, j, q);
      assert Nulls(t, j, q);
    }
  }
}
