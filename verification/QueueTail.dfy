/** The producer's own pointers: the block it writes to is the one index arithmetic gives, also across the blocks of
    a bulk enqueue, and the chain it follows to give blocks back is the chain of the blocks it took. */
module QueueTail {
  import opened Pointers
  import opened Modular
  import opened Queue
  import opened QueueInvariant
  import QueueProducer
  import Tickets
  import Index = BlockIndex

  // ---------------------------------------------------------------------------------------------
  // Steps of others
  // ---------------------------------------------------------------------------------------------

  /** Nothing the producer keeps changes. */
  ghost predicate SameTail<T>(s: State<T>, t: State<T>) {
    && s.blockSize == t.blockSize > 0 && t.items == s.items && t.producer == s.producer
    && t.index.blocks == s.index.blocks && t.index.producer == s.index.producer
    && t.tailBlock == s.tailBlock && t.startBlock == s.startBlock
    && t.firstBlock == s.firstBlock && t.endBlock == s.endBlock
  }

  ghost predicate SameNext<T>(s: State<T>, t: State<T>, b: Ptr) {
    b.At? && b.node < |s.memory| ==> b.node < |t.memory| && t.memory[b.node].next == s.memory[b.node].next
  }

  lemma ChainedStays<T>(s: State<T>, t: State<T>, list: seq<Node>, j: nat)
    requires Chained(s.memory, list, j)
    requires forall i: nat :: j <= i < |list| ==> SameNext(s, t, Nth(list, i))
    ensures Chained(t.memory, list, j)
  {
    forall i: nat | j <= i < |list| ensures NextIs(t.memory, Nth(list, i), Nth(list, i + 1)) {
      assert NextIs(s.memory, Nth(list, i), Nth(list, i + 1));
      assert SameNext(s, t, Nth(list, i));
    }
  }

  /** The blocks whose `next` the producer relies on. */
  ghost predicate Needs<T>(s: State<T>, b: Ptr)
    requires s.blockSize > 0
  {
    || (s.producer.Store? && b == At(s.producer.block))
    || (s.producer.Return? && exists i: nat :: s.producer.j <= i < |s.producer.mine| && b == Nth(s.producer.mine, i))
    || (!s.producer.Ready? && !s.producer.Return?
        && (|| (exists i: nat :: i < |s.index.producer.mine| && b == Nth(s.index.producer.mine, i))
            || (Turn(|s.items|, s.blockSize) != 0 && b == s.startBlock)))
  }

  lemma TailStays<T>(s: State<T>, t: State<T>)
    requires SameTail(s, t) && TailOk(s)
    requires forall b :: Needs(s, b) ==> SameNext(s, t, b)
    ensures TailOk(t)
  {
    if s.producer.Return? {
      var Return(_, mine, j) := s.producer;
      assert forall i: nat :: j <= i < |mine| ==> Needs(s, Nth(mine, i));
      ChainedStays(s, t, mine, j);
    } else if !s.producer.Ready? {
      TookStaysToo(s, t);
      assert s.producer.Store? ==> Needs(s, At(s.producer.block));
    }
  }

  lemma TookStaysToo<T>(s: State<T>, t: State<T>)
    requires SameTail(s, t) && Took(s) && !s.producer.Ready? && !s.producer.Return?
    requires forall b :: Needs(s, b) ==> SameNext(s, t, b)
    ensures Took(t)
  {
    var mine := s.index.producer.mine;
    assert forall i: nat :: i < |mine| ==> Needs(s, Nth(mine, i));
    ChainedStays(s, t, mine, 0);
    assert Turn(|s.items|, s.blockSize) != 0 ==> Needs(s, s.startBlock);
  }

  lemma ConsumerKeepsTail<T>(s: State<T>, t: State<T>, i: nat, max: nat)
    requires Shape(s) && TailOk(s) && ConsumerEnabled(s, i, max) && t == ConsumerAfter(s, i, max)
    ensures TailOk(t)
  {
    ConsumerLeavesTail(s, t, i, max);
    TailStays(s, t);
  }

  lemma ConsumerLeavesTail<T>(s: State<T>, t: State<T>, i: nat, max: nat)
    requires ConsumerEnabled(s, i, max) && t == ConsumerAfter(s, i, max)
    ensures SameTail(s, t) && forall b :: SameNext(s, t, b)
  {
    ConsumerLeavesFields(s, t, i, max);
    ConsumerLeavesNext(s, t, i, max);
  }

  lemma ConsumerLeavesFields<T>(s: State<T>, t: State<T>, i: nat, max: nat)
    requires ConsumerEnabled(s, i, max) && t == ConsumerAfter(s, i, max)
    ensures SameTail(s, t)
  {
    IndexLeavesProducer(s, i);
    assert s.blockSize > 0;
    assert t.index.blocks == s.index.blocks && t.index.producer == s.index.producer;
  }

  lemma IndexLeavesProducer<T>(s: State<T>, i: nat)
    requires Shape(s) && i < |s.consumers|
    ensures forall u: Index.Use :: Index.ReaderEnabled(s.index, i, u) ==>
              var x := Index.ReaderAfter(s.index, i, u);
              x.blocks == s.index.blocks && x.producer == s.index.producer
  {
  }

  lemma ConsumerLeavesNext<T>(s: State<T>, t: State<T>, i: nat, max: nat)
    requires ConsumerEnabled(s, i, max) && t == ConsumerAfter(s, i, max)
    ensures forall b :: SameNext(s, t, b)
  {
  }

  /** The block an enqueue starts from, if it has room left, is still the sub-queue's own. */
  lemma StartIsOwned<T>(s: State<T>, counted: set<nat>)
    requires Facts(s) && LinkWith(s, counted) && Turn(|s.items|, s.blockSize) != 0
    ensures |s.index.blocks| > 0 && Live(s, |s.index.blocks| - 1)
    ensures Home(|s.items|, s.blockSize) == |s.index.blocks| - 1
    ensures LastPublished(s).node in s.owned && LastPublished(s).node < |s.memory|
  {
    var n, b := |s.items|, s.blockSize;
    RoomLeft(n, b);
    assert !AllCounted(counted, Home(n, b), b) by { assert n !in counted; }
    assert BlockOfReason(s, Indexed(|s.index.blocks| - 1)) == LastPublished(s);
  }

  lemma RoomLeft(n: nat, b: nat)
    requires b > 0 && Turn(n, b) != 0
    ensures n > 0 && Home(n, b) == Ceiling(n, b) - 1
  {
    TurnIsMod(n, b);
    HomeIsQuotient(n, b);
    QuotientBounds(n, b);
    QuotientIs(n - 1, n / b, b);
    if n == 0 { ModSmall(0, b); }
  }

  lemma NoRoomLeft(n: nat, b: nat)
    requires b > 0 && Turn(n, b) == 0
    ensures Home(n, b) == Ceiling(n, b)
  {
    TurnIsMod(n, b);
    HomeIsQuotient(n, b);
    QuotientBounds(n, b);
    var q := n / b;
    assert n - 1 == (q - 1) * b + (b - 1);
    QuotientIs(n - 1, q - 1, b);
  }

  lemma MineIsOwned<T>(s: State<T>, counted: set<nat>, i: nat)
    requires Facts(s) && LinkWith(s, counted) && i < |s.index.producer.mine|
    ensures Live(s, |s.index.blocks| + i)
    ensures s.index.producer.mine[i] in s.owned && s.index.producer.mine[i] < |s.memory|
  {
    assert BlockOfReason(s, Indexed(|s.index.blocks| + i)) == At(s.index.producer.mine[i]);
  }

  /** The producer relies on blocks the sub-queue owns only. */
  lemma NeededIsOwned<T>(s: State<T>, counted: set<nat>, b: Ptr)
    requires Facts(s) && LinkWith(s, counted) && TailOk(s) && Needs(s, b)
    ensures b.At? && b.node in s.owned
  {
    if s.producer.Store? && b == At(s.producer.block) {
      assert BlockOfReason(s, Coming) == b;
    } else if s.producer.Return? {
      var i: nat :| s.producer.j <= i < |s.producer.mine| && b == Nth(s.producer.mine, i);
      assert BlockOfReason(s, Returning(i)) == b;
    } else if exists i: nat :: i < |s.index.producer.mine| && b == Nth(s.index.producer.mine, i) {
      var i: nat :| i < |s.index.producer.mine| && b == Nth(s.index.producer.mine, i);
      MineIsOwned(s, counted, i);
    } else {
      StartIsOwned(s, counted);
    }
  }

  lemma OthersKeepTail<T>(s: State<T>, t: State<T>, counted: set<nat>, memory: seq<Block<T>>)
    requires Facts(s) && LinkWith(s, counted) && TailOk(s) && OthersEnabled(s, memory) && t == s.(memory := memory)
    ensures TailOk(t)
  {
    forall b | Needs(s, b) ensures SameNext(s, t, b) { NeededIsOwned(s, counted, b); }
    TailStays(s, t);
  }

  // ---------------------------------------------------------------------------------------------
  // Steps of the producer
  // ---------------------------------------------------------------------------------------------

  /** Only the place in the program, or in the index, changes. */
  ghost predicate OnlyPlace<T>(s: State<T>, t: State<T>) {
    && s.blockSize == t.blockSize > 0 && t.items == s.items && t.memory == s.memory
    && t.index.blocks == s.index.blocks && t.index.producer.mine == s.index.producer.mine
    && t.startBlock == s.startBlock && t.firstBlock == s.firstBlock && t.endBlock == s.endBlock
  }

  lemma TookStays<T>(s: State<T>, t: State<T>)
    requires OnlyPlace(s, t) && Took(s)
    ensures Took(t)
  {
  }

  lemma CallKeepsTail<T>(s: State<T>, t: State<T>, c: Choice<T>)
    requires Shape(s) && TailOk(s) && ProducerEnabled(s, c) && t == ProducerAfter(s, c)
    requires s.producer.Ready? && s.index.producer.mine == []
    ensures TailOk(t)
  {
  }

  /** Steps on the way to a block, and giving up. */
  lemma InnerKeepsTail<T>(s: State<T>, t: State<T>, c: Choice<T>)
    requires Shape(s) && TailOk(s) && ProducerEnabled(s, c) && t == ProducerAfter(s, c)
    requires UsesIndex(s, c) && QueueProducer.InnerStep(s.index, IndexChoice(s, c))
    requires match s.producer
             case Reserve(_) => s.index.producer.Ready?
             case Guarded(_) => s.index.producer.Ready?
             case Insert(_) => s.index.producer.Keying? || s.index.producer.Advancing? || s.index.producer.Filling?
             case _ => false
    ensures TailOk(t)
  {
    QueueProducer.InnerEffect(s.index, t.index, IndexChoice(s, c));
    TookStays(s, t);
    UndoStartsAtFirst(s.index, t.index, IndexChoice(s, c));
  }

  /** An undo begins with the first block. */
  lemma UndoStartsAtFirst(x: Index.State, y: Index.State, c: Index.Choice)
    requires Index.ProducerEnabled(x, c) && y == Index.ProducerAfter(x, c)
    requires x.producer.Ready? || x.producer.Keying? || x.producer.Advancing? || x.producer.Filling?
    ensures y.producer.Undoing? ==> y.producer.k == 0
    ensures !y.producer.UndoRewinding?
  {
  }

  lemma UndoStep(x: Index.State, y: Index.State, c: Index.Choice)
    requires Index.ProducerEnabled(x, c) && y == Index.ProducerAfter(x, c)
    requires x.producer.Rewinding? || x.producer.Clearing? || x.producer.UndoRewinding?
      || (x.producer.Undoing? && x.producer.k < |x.producer.mine|)
    ensures x.producer.Rewinding? ==> y.producer.Clearing?
    ensures x.producer.Clearing? ==> y.producer.Undoing? && y.producer.k == 0
    ensures x.producer.Undoing? ==> y.producer.UndoRewinding? && y.producer.k == x.producer.k
    ensures x.producer.UndoRewinding? ==> y.producer.Undoing? && y.producer.k == x.producer.k + 1
  {
  }

  lemma UndoKeepsTail<T>(s: State<T>, t: State<T>, c: Choice<T>)
    requires Shape(s) && TailOk(s) && ProducerEnabled(s, c) && t == ProducerAfter(s, c)
    requires s.producer.Undo? && !(s.index.producer.Undoing? && s.producer.at == Null)
    requires var p := s.index.producer;
             || p.Rewinding? || p.Clearing? || (p.Undoing? && p.k <= |p.mine|) || (p.UndoRewinding? && p.k < |p.mine|)
    ensures TailOk(t)
  {
    var p := s.index.producer;
    QueueProducer.InnerEffect(s.index, t.index, IndexChoice(s, c));
    UndoStep(s.index, t.index, IndexChoice(s, c));
    TookStays(s, t);
    if p.UndoRewinding? { assert NextIs(s.memory, Nth(p.mine, p.k), Nth(p.mine, p.k + 1)); }
  }

  lemma WithdrawKeepsTail<T>(s: State<T>, t: State<T>, c: Choice<T>)
    requires Shape(s) && TailOk(s) && ProducerEnabled(s, c) && t == ProducerAfter(s, c)
    requires s.producer.Undo? && s.index.producer.Undoing? && s.producer.at == Null
    ensures TailOk(t)
  {
  }

  lemma ReturnKeepsTail<T>(s: State<T>, t: State<T>, c: Choice<T>)
    requires Shape(s) && TailOk(s) && ProducerEnabled(s, c) && t == ProducerAfter(s, c) && s.producer.Return?
    ensures TailOk(t)
  {
    var Return(at, mine, j) := s.producer;
    if at != Null { assert NextIs(s.memory, Nth(mine, j), Nth(mine, j + 1)); }
  }

  /** Starting to write: at the first block taken if the enqueue starts at a block boundary, where the last one
      ended otherwise. */
  lemma WriteStartKeepsTail<T>(s: State<T>, t: State<T>, c: Choice<T>)
    requires Shape(s) && TailOk(s) && ProducerEnabled(s, c) && t == ProducerAfter(s, c)
    requires s.producer.Reserve? && !UsesIndex(s, c) && t.producer.Write?
    requires |s.index.producer.mine| == NewBlocks(|s.items|, |s.producer.xs|, s.blockSize)
    requires |s.index.blocks| == Ceiling(|s.items|, s.blockSize)
    ensures TailOk(t)
  {
    var n, xs, b := |s.items|, s.producer.xs, s.blockSize;
    TookStays(s, t);
    TurnIsMod(n, b);
    QueueProducer.NoNewBlocks(n, |xs|, b);
    if xs != [] {
      HomeBelowCeiling(n, n + |xs|, b);
      if Turn(n, b) == 0 { NoRoomLeft(n, b); } else { RoomLeft(n, b); }
    } else {
      assert s.index.producer.mine == [];
    }
  }

  // ---------------------------------------------------------------------------------------------
  // Taking a block
  // ---------------------------------------------------------------------------------------------

  /** Different blocks of the sub-queue lie in different memory. */
  lemma TwoBlocks<T>(s: State<T>, p: nat, q: nat)
    requires OwnedOk(s) && Live(s, p) && Live(s, q) && p != q
    ensures BlockAt(s, p) != BlockAt(s, q)
  {
    if BlockFor(s, p) == BlockFor(s, q) { BlocksDiffer(s, p, q); }
  }

  lemma ComingIsNew<T>(s: State<T>, q: nat)
    requires OwnedOk(s) && Live(s, q) && (s.producer.Reset? || s.producer.Store?)
    ensures BlockFor(s, q) != s.producer.block && s.producer.block < |s.memory|
  {
    assert BlockOfReason(s, Coming) == At(s.producer.block);
    assert BlockOfReason(s, Indexed(q)) == At(BlockFor(s, q));
  }

  lemma ResetKeepsTail<T>(s: State<T>, t: State<T>, counted: set<nat>, c: Choice<T>)
    requires Facts(s) && LinkWith(s, counted) && TailOk(s) && ProducerEnabled(s, c) && t == ProducerAfter(s, c)
    requires s.producer.Reset?
    ensures TailOk(t)
  {
    var mine := s.index.producer.mine;
    forall i: nat | i < |mine| ensures SameNext(s, t, Nth(mine, i)) {
      MineIsOwned(s, counted, i);
      ComingIsNew(s, |s.index.blocks| + i);
    }
    ChainedStays(s, t, mine, 0);
    if Turn(|s.items|, s.blockSize) != 0 && mine != [] {
      StartIsOwned(s, counted);
      ComingIsNew(s, |s.index.blocks| - 1);
    }
    assert BlockOfReason(s, Coming) == At(s.producer.block);
  }

  /** What linking a block writes, and where. */
  ghost predicate LinkedIn<T>(s: State<T>, t: State<T>, b: Node) {
    && s.blockSize == t.blockSize > 0 && t.items == s.items && t.index.blocks == s.index.blocks
    && t.index.producer.mine == s.index.producer.mine + [b]
    && t.tailBlock == t.endBlock == At(b) && t.startBlock == s.startBlock
    && t.firstBlock == (if s.firstBlock == Null then At(b) else s.firstBlock)
    && |t.memory| == |s.memory|
    && (forall n :: 0 <= n < |s.memory| ==>
          t.memory[n].next == if LinksBehind(s) && s.tailBlock == At(n) then At(b) else s.memory[n].next)
  }

  lemma StoreEffect<T>(s: State<T>, t: State<T>, c: Choice<T>)
    requires ProducerEnabled(s, c) && t == ProducerAfter(s, c) && s.producer.Store? && s.index.producer.Filling?
    ensures LinkedIn(s, t, s.producer.block) && t.producer.Reserve?
  {
  }

  lemma LinkLeavesLink<T>(s: State<T>, t: State<T>, counted: set<nat>, b: Node, i: nat)
    requires Facts(s) && LinkWith(s, counted) && Took(s) && LinkedIn(s, t, b) && i < |s.index.producer.mine|
    requires s.producer.Store? && s.producer.block == b && s.tailBlock == s.endBlock
    ensures NextIs(t.memory, Nth(t.index.producer.mine, i), Nth(t.index.producer.mine, i + 1))
  {
    assert NextIs(s.memory, Nth(s.index.producer.mine, i), Nth(s.index.producer.mine, i + 1));
    if i + 1 < |s.index.producer.mine| { NotTheEnd(s, counted, i); }
  }

  lemma NotTheEnd<T>(s: State<T>, counted: set<nat>, i: nat)
    requires Facts(s) && LinkWith(s, counted) && i + 1 < |s.index.producer.mine|
    ensures var mine := s.index.producer.mine;
            mine[i] < |s.memory| && mine[|mine| - 1] < |s.memory| && mine[i] != mine[|mine| - 1]
  {
    var mine := s.index.producer.mine;
    MineIsOwned(s, counted, i);
    MineIsOwned(s, counted, |mine| - 1);
    TwoBlocks(s, |s.index.blocks| + i, |s.index.blocks| + |mine| - 1);
  }

  lemma LinkKeepsChain<T>(s: State<T>, t: State<T>, counted: set<nat>, b: Node)
    requires Facts(s) && LinkWith(s, counted) && Took(s) && LinkedIn(s, t, b)
    requires s.producer.Store? && s.producer.block == b && s.tailBlock == s.endBlock && NextIs(s.memory, At(b), Null)
    ensures Chained(t.memory, t.index.producer.mine, 0)
  {
    var mine, more := s.index.producer.mine, t.index.producer.mine;
    forall i: nat | i < |more| ensures NextIs(t.memory, Nth(more, i), Nth(more, i + 1)) {
      if i < |mine| {
        LinkLeavesLink(s, t, counted, b, i);
      } else {
        NewTailUnlinked(s, t, counted, b);
      }
    }
  }

  /** The block being linked in is not the one it is linked behind. */
  lemma NewTailUnlinked<T>(s: State<T>, t: State<T>, counted: set<nat>, b: Node)
    requires Facts(s) && LinkWith(s, counted) && Took(s) && LinkedIn(s, t, b)
    requires s.producer.Store? && s.producer.block == b && s.tailBlock == s.endBlock && NextIs(s.memory, At(b), Null)
    ensures NextIs(t.memory, At(b), Null)
  {
    var mine := s.index.producer.mine;
    if LinksBehind(s) {
      if mine != [] {
        MineIsOwned(s, counted, |mine| - 1);
        ComingIsNew(s, |s.index.blocks| + |mine| - 1);
      } else {
        TurnIsMod(|s.items|, s.blockSize);
        StartIsOwned(s, counted);
        ComingIsNew(s, |s.index.blocks| - 1);
      }
    }
  }

  lemma LinkKeepsStart<T>(s: State<T>, t: State<T>, counted: set<nat>, b: Node)
    requires Facts(s) && LinkWith(s, counted) && Took(s) && LinkedIn(s, t, b)
    requires s.tailBlock == s.endBlock && Turn(|s.items|, s.blockSize) != 0
    ensures NextIs(t.memory, t.startBlock, At(t.index.producer.mine[0]))
  {
    var mine := s.index.producer.mine;
    StartIsOwned(s, counted);
    TurnIsMod(|s.items|, s.blockSize);
    if mine != [] {
      MineIsOwned(s, counted, |mine| - 1);
      TwoBlocks(s, |s.index.blocks| - 1, |s.index.blocks| + |mine| - 1);
    }
  }

  lemma StoreKeepsTail<T>(s: State<T>, t: State<T>, counted: set<nat>, c: Choice<T>)
    requires Facts(s) && LinkWith(s, counted) && TailOk(s) && ProducerEnabled(s, c) && t == ProducerAfter(s, c)
    requires s.producer.Store?
    ensures TailOk(t)
  {
    var b := s.producer.block;
    StoreEffect(s, t, c);
    LinkKeepsChain(s, t, counted, b);
    if Turn(|s.items|, s.blockSize) != 0 { LinkKeepsStart(s, t, counted, b); }
  }

  // ---------------------------------------------------------------------------------------------
  // Writing
  // ---------------------------------------------------------------------------------------------

  /** The last block taken holds the last item. */
  lemma EndIsLast<T>(s: State<T>)
    requires s.blockSize > 0 && Took(s)
    ensures Total(s) > 0 ==> s.endBlock == BlockAt(s, Total(s) - 1)
  {
  }

  /** Past the end of a block that is not the last one, `next` leads to the block of the next item. */
  lemma NextHoldsNext<T>(s: State<T>, counted: set<nat>, q: nat)
    requires Facts(s) && LinkWith(s, counted) && Took(s) && q + 1 < Total(s) && |s.index.blocks| <= q + 1
    requires q < |s.index.blocks| ==> Turn(|s.items|, s.blockSize) != 0
    ensures NextIs(s.memory, BlockAt(s, q), BlockAt(s, q + 1))
  {
    var mine := s.index.producer.mine;
    if q >= |s.index.blocks| {
      var i: nat := q - |s.index.blocks|;
      assert NextIs(s.memory, Nth(mine, i), Nth(mine, i + 1));
    }
  }

  /** Where the next item goes. */
  lemma NextItem(x: nat, b: nat)
    requires b > 0
    ensures Home(x + 1, b) == (if (x + 1) % b == 0 then Home(x, b) + 1 else Home(x, b))
  {
    HomeIsQuotient(x, b);
    HomeIsQuotient(x + 1, b);
    QuotientBounds(x + 1, b);
    var q := (x + 1) / b;
    if (x + 1) % b == 0 {
      assert x == (q - 1) * b + (b - 1);
      QuotientIs(x, q - 1, b);
    } else {
      QuotientIs(x, q, b);
    }
  }

  lemma WriteLeavesChain<T>(s: State<T>, t: State<T>)
    requires Shape(s) && Took(s) && s.producer.Write? && s.producer.k < |s.producer.xs| && Leads(s, s.tailBlock)
    requires t == WriteItem(s, s.producer.xs, s.producer.k)
    ensures Took(t)
    ensures t.tailBlock == s.tailBlock || t.tailBlock == s.memory[s.tailBlock.node].next
  {
    assert forall b :: SameNext(s, t, b);
    ChainedStays(s, t, s.index.producer.mine, 0);
  }

  /** Item `x` is in the last block exactly when there are no more blocks to go on to. */
  lemma LastItemIsInEnd<T>(s: State<T>, counted: set<nat>)
    requires Facts(s) && LinkWith(s, counted) && TailOk(s) && s.producer.Write? && s.producer.k < |s.producer.xs|
    ensures var Write(xs, k) := s.producer;
            var q := Home(|s.items| + k, s.blockSize);
            && q < Total(s) && Live(s, q) && Live(s, Total(s) - 1)
            && (s.tailBlock == s.endBlock <==> q == Total(s) - 1)
            && (k + 1 == |xs| ==> q == Total(s) - 1)
            && |s.index.blocks| <= q + 1
            && (q < |s.index.blocks| ==> Turn(|s.items|, s.blockSize) != 0)
  {
    var Write(xs, k) := s.producer;
    var n, b := |s.items|, s.blockSize;
    var q := Home(n + k, b);
    WrittenBlockIsLive(s, counted);
    EndIsLast(s);
    if q != Total(s) - 1 { TwoBlocks(s, q, Total(s) - 1); }
  }

  lemma WrittenBlockIsLive<T>(s: State<T>, counted: set<nat>)
    requires Facts(s) && LinkWith(s, counted) && s.producer.Write? && s.producer.k < |s.producer.xs|
    ensures var Write(xs, k) := s.producer;
            var q := Home(|s.items| + k, s.blockSize);
            && q < Total(s) && Live(s, q) && Live(s, Total(s) - 1)
            && (k + 1 == |xs| ==> q == Total(s) - 1)
            && |s.index.blocks| <= q + 1
            && (q < |s.index.blocks| ==> Turn(|s.items|, s.blockSize) != 0)
  {
    var Write(xs, k) := s.producer;
    var n, b := |s.items|, s.blockSize;
    QueueProducer.NextSlotIsLive(s, counted);
    QueueProducer.NoNewBlocks(n, |xs|, b);
    LastBlockOf(n + |xs|, b);
    HomeMonotone(n, n + k, b);
    if Turn(n, b) == 0 { NoRoomLeft(n, b); } else { RoomLeft(n, b); StartIsOwned(s, counted); }
  }

  lemma LastBlockOf(n: nat, b: nat)
    requires b > 0 && n > 0
    ensures Home(n - 1, b) == Ceiling(n, b) - 1
  {
    HomeIsQuotient(n - 1, b);
  }

  /** Where the producer stands after writing item `k`. */
  lemma WriteMoves<T>(s: State<T>, t: State<T>, counted: set<nat>)
    requires Facts(s) && LinkWith(s, counted) && TailOk(s) && s.producer.Write? && s.producer.k < |s.producer.xs|
    requires Leads(s, s.tailBlock) && t == WriteItem(s, s.producer.xs, s.producer.k)
    ensures var Write(xs, k) := s.producer;
            t.tailBlock == (if k + 1 < |xs| then BlockAt(s, Home(|s.items| + k + 1, s.blockSize)) else s.endBlock)
  {
    var Write(xs, k) := s.producer;
    var x := |s.items| + k;
    LastItemIsInEnd(s, counted);
    NextItem(x, s.blockSize);
    if k + 1 < |xs| && (x + 1) % s.blockSize == 0 { NextBlockHoldsNext(s, counted); }
  }

  lemma NextBlockHoldsNext<T>(s: State<T>, counted: set<nat>)
    requires Facts(s) && LinkWith(s, counted) && TailOk(s) && s.producer.Write? && s.producer.k + 1 < |s.producer.xs|
    requires (|s.items| + s.producer.k + 1) % s.blockSize == 0
    ensures var q := Home(|s.items| + s.producer.k, s.blockSize);
            q + 1 < Total(s) && NextIs(s.memory, BlockAt(s, q), BlockAt(s, q + 1))
  {
    var Write(xs, k) := s.producer;
    var x := |s.items| + k;
    LastItemIsInEnd(s, counted);
    NextItem(x, s.blockSize);
    HomeBelowCeiling(x + 1, |s.items| + |xs|, s.blockSize);
    QueueProducer.NoNewBlocks(|s.items|, |xs|, s.blockSize);
    NextHoldsNext(s, counted, Home(x, s.blockSize));
  }

  lemma WriteKeepsTail<T>(s: State<T>, t: State<T>, counted: set<nat>, c: Choice<T>)
    requires Facts(s) && LinkWith(s, counted) && TailOk(s) && ProducerEnabled(s, c) && t == ProducerAfter(s, c)
    requires s.producer.Write? && s.producer.k < |s.producer.xs|
    ensures TailOk(t)
  {
    WriteMoves(s, t, counted);
    WriteLeavesChain(s, t);
  }

  lemma PublishKeepsTail<T>(s: State<T>, t: State<T>, c: Choice<T>)
    requires Shape(s) && TailOk(s) && ProducerEnabled(s, c) && t == ProducerAfter(s, c)
    requires s.producer.Write? && s.producer.k >= |s.producer.xs| && s.index.producer.Ready?
    ensures TailOk(t)
  {
  }

  // ---------------------------------------------------------------------------------------------
  // Every step of the producer; and it always has one
  // ---------------------------------------------------------------------------------------------

  lemma ProducerKeepsTail<T>(s: State<T>, t: State<T>, counted: set<nat>, c: Choice<T>)
    requires ProducerEnabled(s, c) && t == ProducerAfter(s, c)
    requires Facts(s) && LinkWith(s, counted) && TailOk(s)
    ensures TailOk(t)
  {
    match s.producer
    case Ready => CallKeepsTail(s, t, c);
    case Reserve(_) => ReserveKeepsTail(s, t, counted, c);
    case Guarded(_) => InnerKeepsTail(s, t, c);
    case Insert(_) => if c.Obtain? { TookStays(s, t); } else { InnerKeepsTail(s, t, c); }
    case Reset(_, _) => ResetKeepsTail(s, t, counted, c);
    case Store(_, _) => StoreKeepsTail(s, t, counted, c);
    case Write(xs, k) => if k < |xs| { WriteKeepsTail(s, t, counted, c); } else { PublishKeepsTail(s, t, c); }
    case _ => UndoneKeepsTail(s, t, counted, c);
  }

  lemma ReserveKeepsTail<T>(s: State<T>, t: State<T>, counted: set<nat>, c: Choice<T>)
    requires ProducerEnabled(s, c) && t == ProducerAfter(s, c) && s.producer.Reserve?
    requires Facts(s) && LinkWith(s, counted) && TailOk(s)
    ensures TailOk(t)
  {
    if UsesIndex(s, c) {
      InnerKeepsTail(s, t, c);
    } else if t.producer.Guarded? {
      TookStays(s, t);
    } else {
      WriteStartKeepsTail(s, t, c);
    }
  }

  lemma UndoneKeepsTail<T>(s: State<T>, t: State<T>, counted: set<nat>, c: Choice<T>)
    requires ProducerEnabled(s, c) && t == ProducerAfter(s, c) && (s.producer.Undo? || s.producer.Return?)
    requires Facts(s) && LinkWith(s, counted) && TailOk(s)
    ensures TailOk(t)
  {
    match s.producer
    case Undo(at) =>
      if s.index.producer.Undoing? && at == Null { WithdrawKeepsTail(s, t, c); } else { UndoKeepsTail(s, t, c); }
    case Return(_, _, _) => ReturnKeepsTail(s, t, c);
  }

  /** Every pointer the producer is about to follow leads to a block, the assertion before linking (the tail block
      is not null) and the one at the end of writing (the last block is reached with the last item) among them. */
  lemma ProducerPointers<T>(s: State<T>, counted: set<nat>)
    requires Facts(s) && LinkWith(s, counted) && TailOk(s)
    ensures s.producer.Store? && LinksBehind(s) ==> Leads(s, s.tailBlock)
    ensures s.producer.Write? ==>
              if s.producer.k < |s.producer.xs| then Leads(s, s.tailBlock) else s.tailBlock == s.endBlock
    ensures s.producer.Undo? && s.index.producer.Undoing? ==>
              (s.producer.at == Null <==> s.index.producer.k >= |s.index.producer.mine|)
    ensures s.producer.Undo? && s.index.producer.UndoRewinding? && s.index.producer.k < |s.index.producer.mine| ==>
              Leads(s, s.producer.at)
    ensures s.producer.Return? && s.producer.at != Null ==> Leads(s, s.producer.at)
  {
    var mine := s.index.producer.mine;
    match s.producer
    case Store(_, _) =>
      if LinksBehind(s) {
        TurnIsMod(|s.items|, s.blockSize);
        if mine != [] { MineIsOwned(s, counted, |mine| - 1); } else { StartIsOwned(s, counted); }
      }
    case Write(xs, k) => if k < |xs| { LastItemIsInEnd(s, counted); }
    case Undo(_) =>
      if s.index.producer.UndoRewinding? && s.index.producer.k < |mine| { MineIsOwned(s, counted, s.index.producer.k); }
    case Return(_, rest, j) => if j < |rest| { assert NextIs(s.memory, Nth(rest, j), Nth(rest, j + 1)); }
    case _ =>
  }
}
