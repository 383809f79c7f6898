/** All sub-queues of a queue, with the one free list they take their blocks from and give them back to: the list
    never hands a sub-queue a block that another owns, so each goes through a run of module Queue. */
module SharedBlocks {
  import opened Pointers
  import opened Modular
  import Q = Queue
  import QI = QueueInvariant
  import opened QueueProof
  import QueueProducer
  import QueueTail
  import QueueDelivery
  import Index = BlockIndex
  import FL = FreeList
  import FreeListProof

  // ---------------------------------------------------------------------------------------------
  // What a sub-queue's step does to blocks
  // ---------------------------------------------------------------------------------------------

  /** The block a step writes to. */
  ghost function Wrote<T>(s: Q.State<T>, a: Q.Action<T>): Ptr
    requires Q.Shape(s)
  {
    match a
    case Produce(_) =>
      (match s.producer
       case Reset(_, b) => At(b)
       case Store(_, _) => if Q.LinksBehind(s) then s.tailBlock else Null
       case Write(xs, k) => if k < |xs| then s.tailBlock else Null
       case _ => Null)
    case Consume(i, _) => if i < |s.consumers| && s.consumers[i].Move? then At(s.consumers[i].block) else Null
    case Others(_) => Null
  }

  /** The producer waits for a block. */
  predicate WantsBlock<T>(s: Q.State<T>) {
    s.producer.Insert? && s.index.producer.Filling?
  }

  /** The block a step gives back. */
  function GaveUp<T>(s: Q.State<T>, a: Q.Action<T>): Ptr {
    match a
    case Produce(_) => if s.producer.Return? then s.producer.at else Null
    case Consume(i, _) => if i < |s.consumers| && s.consumers[i].Freeing? then At(s.consumers[i].block) else Null
    case Others(_) => Null
  }

  /** A step of the sub-queue's own that gets no block. */
  predicate Own<T>(s: Q.State<T>, a: Q.Action<T>) {
    match a
    case Produce(c) => !(s.producer.Insert? && c.Obtain?)
    case Consume(_, _) => true
    case Others(_) => false
  }

  ghost predicate OnlyWrites<T>(was: seq<Q.Block<T>>, memory: seq<Q.Block<T>>, p: Ptr) {
    && |memory| == |was|
    && (forall b :: 0 <= b < |was| ==> |memory[b].slots| == |was[b].slots|)
    && (forall b: nat :: b < |was| && p != At(b) ==> memory[b] == was[b])
  }

  lemma WriterWrites<T>(s: Q.State<T>, t: Q.State<T>, c: Q.Choice<T>)
    requires Q.ProducerEnabled(s, c) && t == Q.ProducerAfter(s, c) && s.producer.Write?
    ensures OnlyWrites(s.memory, t.memory, Wrote(s, Q.Produce(c)))
  {
  }

  lemma StorerWrites<T>(s: Q.State<T>, t: Q.State<T>, c: Q.Choice<T>)
    requires Q.ProducerEnabled(s, c) && t == Q.ProducerAfter(s, c) && s.producer.Store?
    ensures OnlyWrites(s.memory, t.memory, Wrote(s, Q.Produce(c)))
  {
  }

  lemma ProducerWrites<T>(s: Q.State<T>, t: Q.State<T>, c: Q.Choice<T>)
    requires Q.ProducerEnabled(s, c) && t == Q.ProducerAfter(s, c)
    ensures OnlyWrites(s.memory, t.memory, Wrote(s, Q.Produce(c)))
  {
    match s.producer
    case Write(_, _) => WriterWrites(s, t, c);
    case Store(_, _) => StorerWrites(s, t, c);
    case _ =>
  }

  lemma ProducerOwns<T>(s: Q.State<T>, t: Q.State<T>, c: Q.Choice<T>)
    requires Q.ProducerEnabled(s, c) && t == Q.ProducerAfter(s, c) && Own(s, Q.Produce(c))
    ensures t.owned == if GaveUp(s, Q.Produce(c)).At? then s.owned - {GaveUp(s, Q.Produce(c)).node} else s.owned
    ensures GaveUp(s, Q.Produce(c)).At? ==> Wrote(s, Q.Produce(c)) == Null
  {
  }

  lemma ConsumerWrites<T>(s: Q.State<T>, t: Q.State<T>, i: nat, max: nat)
    requires Q.ConsumerEnabled(s, i, max) && t == Q.ConsumerAfter(s, i, max)
    ensures OnlyWrites(s.memory, t.memory, Wrote(s, Q.Consume(i, max)))
  {
  }

  lemma ConsumerOwns<T>(s: Q.State<T>, t: Q.State<T>, i: nat, max: nat)
    requires Q.ConsumerEnabled(s, i, max) && t == Q.ConsumerAfter(s, i, max)
    ensures t.owned == if GaveUp(s, Q.Consume(i, max)).At? then s.owned - {GaveUp(s, Q.Consume(i, max)).node} else s.owned
    ensures GaveUp(s, Q.Consume(i, max)).At? ==> Wrote(s, Q.Consume(i, max)) == Null
  {
  }

  lemma WritesItsOwn<T>(s: Q.State<T>, counted: set<nat>, a: Q.Action<T>)
    requires QI.Facts(s) && QI.LinkWith(s, counted) && QI.TailOk(s)
    requires Wrote(s, a).At?
    ensures Wrote(s, a).node in s.owned
  {
    match a
    case Produce(_) => ProducerWritesItsOwn(s, counted);
    case Consume(i, _) =>
      assert QI.InStep(s, i);
      assert QI.BlockOfReason(s, QI.Indexed(s.index.readers[i].q)) == At(s.consumers[i].block);
    case Others(_) =>
  }

  lemma ProducerWritesItsOwn<T>(s: Q.State<T>, counted: set<nat>)
    requires QI.Facts(s) && QI.LinkWith(s, counted) && QI.TailOk(s)
    ensures s.producer.Reset? ==> s.producer.block in s.owned
    ensures s.producer.Store? && Q.LinksBehind(s) && s.tailBlock.At? ==> s.tailBlock.node in s.owned
    ensures s.producer.Write? && s.producer.k < |s.producer.xs| && s.tailBlock.At? ==> s.tailBlock.node in s.owned
  {
    var mine := s.index.producer.mine;
    match s.producer
    case Reset(_, b) => assert QI.BlockOfReason(s, QI.Coming) == At(b);
    case Store(_, _) =>
      if Q.LinksBehind(s) {
        TurnIsMod(|s.items|, s.blockSize);
        if mine != [] { QueueTail.MineIsOwned(s, counted, |mine| - 1); } else { QueueTail.StartIsOwned(s, counted); }
      }
    case Write(xs, k) =>
      if k < |xs| {
        QueueProducer.NextSlotIsLive(s, counted);
        assert QI.BlockOfReason(s, QI.Indexed(Home(|s.items| + k, s.blockSize))) == s.tailBlock;
      }
    case _ =>
  }

  lemma GivesUpItsOwn<T>(s: Q.State<T>, counted: set<nat>, a: Q.Action<T>)
    requires QI.Facts(s) && QI.LinkWith(s, counted) && QI.TailOk(s)
    requires GaveUp(s, a).At?
    ensures GaveUp(s, a).node in s.owned
  {
    match a
    case Produce(_) => assert QI.BlockOfReason(s, QI.Returning(s.producer.j)) == s.producer.at;
    case Consume(i, _) => assert QI.BlockOfReason(s, QI.Leaving(i)) == At(s.consumers[i].block);
    case Others(_) =>
  }

  lemma StepEffect<T>(s: Q.State<T>, a: Q.Action<T>, t: Q.State<T>)
    requires Q.Step(s, a, t) && Own(s, a)
    ensures Q.Shape(s) && OnlyWrites(s.memory, t.memory, Wrote(s, a))
    ensures GaveUp(s, a).At? ==> Wrote(s, a) == Null
    ensures t.owned == if GaveUp(s, a).At? then s.owned - {GaveUp(s, a).node} else s.owned
  {
    match a {
      case Produce(c) =>
        ProducerWrites(s, t, c);
        ProducerOwns(s, t, c);
      case Consume(i, max) =>
        ConsumerWrites(s, t, i, max);
        ConsumerOwns(s, t, i, max);
      case Others(_) =>
    }
  }

  lemma TouchesItsOwn<T>(s: Q.State<T>, a: Q.Action<T>)
    requires QI.Inv(s)
    ensures Q.Shape(s)
    ensures Wrote(s, a).At? ==> Wrote(s, a).node in s.owned
    ensures GaveUp(s, a).At? ==> GaveUp(s, a).node in s.owned
  {
    QI.FactsHold(s);
    var counted :| QI.LinkWith(s, counted);
    if Wrote(s, a).At? { WritesItsOwn(s, counted, a); }
    if GaveUp(s, a).At? { GivesUpItsOwn(s, counted, a); }
  }

  /** What a sub-queue's own step leaves alone: blocks it does not own. */
  ghost predicate LeavesOthers<T>(s: Q.State<T>, memory: seq<Q.Block<T>>) {
    && |memory| == |s.memory|
    && (forall b :: 0 <= b < |s.memory| ==> |memory[b].slots| == |s.memory[b].slots|)
    && (forall b: nat :: b < |s.memory| && b !in s.owned ==> memory[b] == s.memory[b])
  }

  /** A sub-queue's own step writes only to a block it owns, and gives back only a block it owns, which it leaves as
      it is. */
  lemma OwnStep<T>(s: Q.State<T>, a: Q.Action<T>, t: Q.State<T>)
    requires QI.Inv(s) && Q.Step(s, a, t) && Own(s, a)
    ensures LeavesOthers(s, t.memory)
    ensures GaveUp(s, a).At? ==> GaveUp(s, a).node in s.owned && t.memory == s.memory
    ensures t.owned == if GaveUp(s, a).At? then s.owned - {GaveUp(s, a).node} else s.owned
  {
    TouchesItsOwn(s, a);
    StepEffect(s, a, t);
    if GaveUp(s, a).At? { assert t.memory == s.memory; }
  }

  // ---------------------------------------------------------------------------------------------
  // The sub-queues and the list
  // ---------------------------------------------------------------------------------------------

  /** `memory` are all blocks there are; every sub-queue's view of it is the same.  `outside` are the blocks that
      belong to the sub-queues of explicit producers. */
  datatype State<T> = State(
    blockSize: nat,
    list: FL.State,
    memory: seq<Q.Block<T>>,
    queues: seq<Q.State<T>>,
    outside: set<Node>)

  /** What anybody does: a sub-queue's own step; a step inside the list; a step that ends a requisition, for sub-queue
      `q` or an explicit producer, with `added` what an allocated block holds; a step of sub-queue `q` that gives a
      block back, or an explicit producer's giving one back; explicit producers writing to their blocks. */
  datatype Action<T> =
    | Work(q: nat, a: Q.Action<T>)
    | Inside(i: nat, c: FL.Choice)
    | Take(q: nat, i: nat, c: FL.Choice, added: Q.Block<T>)
    | Free(q: nat, a: Q.Action<T>, i: nat)
    | TakeOutside(i: nat, c: FL.Choice, added: Q.Block<T>)
    | FreeOutside(n: Node, i: nat)
    | WriteOutside(memory: seq<Q.Block<T>>)

  function Viewed<T>(q: Q.State<T>, memory: seq<Q.Block<T>>): Q.State<T> {
    q.(memory := memory)
  }

  function Share<T>(s: State<T>, memory: seq<Q.Block<T>>): (t: State<T>)
    ensures |t.queues| == |s.queues|
  {
    s.(memory := memory, queues := seq(|s.queues|, q requires 0 <= q < |s.queues| => Viewed(s.queues[q], memory)))
  }

  function SetQueue<T>(s: State<T>, q: nat, queue: Q.State<T>): State<T>
    requires q < |s.queues|
  {
    s.(queues := s.queues[q := queue])
  }

  /** The memory, with the block that an allocation adds. */
  function Extended<T>(s: State<T>, list: FL.State, added: Q.Block<T>): seq<Q.Block<T>> {
    if |list.refs| > |s.list.refs| then s.memory + [added] else s.memory
  }

  function Took<T>(q: Q.State<T>, b: Node): Q.State<T>
    requires q.producer.Insert?
  {
    q.(owned := q.owned + {b}, producer := Q.Reset(q.producer.xs, b))
  }

  /** Thread `i` starts to add `n`; that its caller owns it is not required here. */
  function StartAdd(list: FL.State, i: nat, n: Node): FL.State
    requires i < |list.pcs|
  {
    FL.Goto(list, i, FL.AddFlag(n)).(owned := list.owned - {n})
  }

  ghost predicate Step<T>(s: State<T>, a: Action<T>, t: State<T>) {
    match a
    case Work(q, b) =>
      && q < |s.queues| && Own(s.queues[q], b) && GaveUp(s.queues[q], b).Null? && Q.Enabled(s.queues[q], b)
      && var u := Q.After(s.queues[q], b);
      t == SetQueue(Share(s, u.memory), q, u)
    case Inside(i, c) =>
      && FL.Enabled(s.list, i, c) && FL.Returned(s.list, i, c).Null? && FL.Given(s.list, i, c).Null?
      && t == s.(list := FL.After(s.list, i, c))
    case Take(q, i, c, added) =>
      && q < |s.queues| && WantsBlock(s.queues[q]) && |added.slots| == s.blockSize
      && FL.Enabled(s.list, i, c) && FL.Returned(s.list, i, c).At?
      && var list := FL.After(s.list, i, c);
      var memory := Extended(s, list, added);
      t == SetQueue(Share(s, memory), q, Took(Viewed(s.queues[q], memory), FL.Returned(s.list, i, c).node)).(list := list)
    case Free(q, b, i) =>
      && q < |s.queues| && Own(s.queues[q], b) && GaveUp(s.queues[q], b).At? && Q.Enabled(s.queues[q], b)
      && i < |s.list.pcs| && s.list.pcs[i].Idle?
      && t == SetQueue(s, q, Q.After(s.queues[q], b)).(list := StartAdd(s.list, i, GaveUp(s.queues[q], b).node))
    case TakeOutside(i, c, added) =>
      && |added.slots| == s.blockSize
      && FL.Enabled(s.list, i, c) && FL.Returned(s.list, i, c).At?
      && var list := FL.After(s.list, i, c);
      t == Share(s, Extended(s, list, added)).(list := list, outside := s.outside + {FL.Returned(s.list, i, c).node})
    case FreeOutside(n, i) =>
      && n in s.outside && i < |s.list.pcs| && s.list.pcs[i].Idle?
      && t == s.(list := StartAdd(s.list, i, n), outside := s.outside - {n})
    case WriteOutside(memory) =>
      && |memory| == |s.memory|
      && (forall b :: 0 <= b < |memory| ==> |memory[b].slots| == s.blockSize)
      && (forall b: nat :: b < |memory| && b !in s.outside ==> memory[b] == s.memory[b])
      && t == Share(s, memory)
  }

  ghost predicate Init<T>(s: State<T>) {
    && FL.Init(s.list) && |s.memory| == |s.list.refs| && s.outside == {}
    && (forall b :: 0 <= b < |s.memory| ==> |s.memory[b].slots| == s.blockSize)
    && (forall q :: 0 <= q < |s.queues| ==> Q.Init(s.queues[q]) && ViewOk(s, q))
  }

  ghost predicate Run<T>(r: seq<State<T>>, acts: seq<Action<T>>) {
    && |r| == |acts| + 1
    && Init(r[0])
    && (forall k {:trigger acts[k]} :: 0 <= k < |acts| ==> Step(r[k], acts[k], r[k + 1]))
  }

  // ---------------------------------------------------------------------------------------------
  // The invariant
  // ---------------------------------------------------------------------------------------------

  ghost predicate ViewOk<T>(s: State<T>, q: nat)
    requires q < |s.queues|
  {
    s.queues[q].memory == s.memory && s.queues[q].blockSize == s.blockSize
  }

  ghost predicate ListReachable(list: FL.State) {
    exists r: seq<FL.State>, acts: seq<FL.Action> :: FL.Run(r, acts) && r[|acts|] == list
  }

  /** Who owns block `b`: an explicit producer, or sub-queue `q`. */
  ghost predicate Owns<T>(s: State<T>, q: int, b: Node) {
    if q < 0 then q == -1 && b in s.outside else q < |s.queues| && b in s.queues[q].owned
  }

  /** Every block that left the list has exactly one owner. */
  ghost predicate OwnersOk<T>(s: State<T>) {
    && (forall b :: b in s.list.owned <==> exists q :: Owns(s, q, b))
    && (forall p, q, b :: Owns(s, p, b) && Owns(s, q, b) ==> p == q)
  }

  ghost predicate MemoryOk<T>(s: State<T>) {
    && |s.memory| == |s.list.refs|
    && (forall b :: 0 <= b < |s.memory| ==> |s.memory[b].slots| == s.blockSize)
  }

  ghost predicate Inv<T(!new)>(s: State<T>) {
    && ListReachable(s.list)
    && MemoryOk(s)
    && OwnersOk(s)
    && (forall q :: 0 <= q < |s.queues| ==> ViewOk(s, q) && Reachable(s.queues[q]))
  }

  // ---------------------------------------------------------------------------------------------
  // Every step keeps it
  // ---------------------------------------------------------------------------------------------

  lemma ListReachStep(list: FL.State, i: nat, c: FL.Choice)
    requires ListReachable(list) && FL.Enabled(list, i, c)
    ensures ListReachable(FL.After(list, i, c))
  {
    var r: seq<FL.State>, acts: seq<FL.Action> :| FL.Run(r, acts) && r[|acts|] == list;
    var r1, acts1 := r + [FL.After(list, i, c)], acts + [FL.Action(i, c)];
    assert FL.Run(r1, acts1) && r1[|acts1|] == FL.After(list, i, c);
  }

  lemma ListHolds(list: FL.State)
    requires ListReachable(list)
    ensures FreeListProof.Inv(list) && FL.Shape(list) && forall b :: b in list.owned ==> b < |list.refs|
  {
    var r: seq<FL.State>, acts: seq<FL.Action> :| FL.Run(r, acts) && r[|acts|] == list;
    FreeListProof.RunHolds(r, acts, |acts|);
    var nodes: seq<Node>, place: seq<FreeListProof.Place> :| FreeListProof.InvWith(list, nodes, place);
  }

  /** A sub-queue does not notice what happens to blocks it does not own. */
  lemma ViewKeeps<T(!new)>(q: Q.State<T>, memory: seq<Q.Block<T>>)
    requires Reachable(q) && |q.memory| <= |memory|
    requires forall b :: 0 <= b < |memory| ==> |memory[b].slots| == q.blockSize
    requires forall b: nat :: b < |q.memory| && b in q.owned ==> memory[b] == q.memory[b]
    ensures Reachable(Viewed(q, memory))
  {
    assert Q.OthersEnabled(q, memory);
    ReachStep(q, Q.Others(memory), Viewed(q, memory));
  }

  /** Nor do all but one notice what happens to blocks that one owns. */
  lemma ShareKeeps<T(!new)>(s: State<T>, memory: seq<Q.Block<T>>, q: int)
    requires Inv(s) && |s.memory| <= |memory|
    requires forall b :: 0 <= b < |memory| ==> |memory[b].slots| == s.blockSize
    requires forall b: nat :: b < |s.memory| && !Owns(s, q, b) ==> memory[b] == s.memory[b]
    ensures forall p :: 0 <= p < |s.queues| && p != q ==> Reachable(Viewed(s.queues[p], memory))
  {
    forall p | 0 <= p < |s.queues| && p != q ensures Reachable(Viewed(s.queues[p], memory)) {
      assert ViewOk(s, p) && Reachable(s.queues[p]);
      forall b: nat | b < |s.memory| && b in s.queues[p].owned ensures memory[b] == s.memory[b] {
        assert Owns(s, p, b);
      }
      ViewKeeps(s.queues[p], memory);
    }
  }

  lemma OwnersStay<T>(s: State<T>, t: State<T>)
    requires OwnersOk(s) && t.list.owned == s.list.owned && t.outside == s.outside && |t.queues| == |s.queues|
    requires forall q :: 0 <= q < |s.queues| ==> t.queues[q].owned == s.queues[q].owned
    ensures OwnersOk(t)
  {
    assert forall q, b :: Owns(t, q, b) <==> Owns(s, q, b);
  }

  lemma QueueGoesOn<T(!new)>(x: Q.State<T>, a: Q.Action<T>, u: Q.State<T>)
    requires Reachable(x) && Own(x, a) && Q.Enabled(x, a) && u == Q.After(x, a)
    ensures Reachable(u) && u.blockSize == x.blockSize && LeavesOthers(x, u.memory)
    ensures GaveUp(x, a).At? ==> GaveUp(x, a).node in x.owned && u.memory == x.memory
    ensures u.owned == if GaveUp(x, a).At? then x.owned - {GaveUp(x, a).node} else x.owned
  {
    Reached(x);
    assert Q.Step(x, a, u);
    OwnStep(x, a, u);
    QueueDelivery.ConstantsStay(x, a, u);
    ReachStep(x, a, u);
  }

  lemma WorkKeeps<T(!new)>(s: State<T>, q: nat, a: Q.Action<T>, t: State<T>)
    requires Inv(s) && Step(s, Work(q, a), t)
    ensures Inv(t)
  {
    assert ViewOk(s, q) && Reachable(s.queues[q]);
    QueueGoesOn(s.queues[q], a, t.queues[q]);
    WorkedKeeps(s, q, t);
  }

  lemma WorkedKeeps<T(!new)>(s: State<T>, q: nat, t: State<T>)
    requires Inv(s) && q < |s.queues| == |t.queues| && LeavesOthers(s.queues[q], t.queues[q].memory)
    requires t == SetQueue(Share(s, t.queues[q].memory), q, t.queues[q])
    requires Reachable(t.queues[q]) && t.queues[q].blockSize == s.blockSize && t.queues[q].owned == s.queues[q].owned
    ensures Inv(t)
  {
    assert ViewOk(s, q);
    forall b: nat | b < |s.memory| && !Owns(s, q, b) ensures t.memory[b] == s.memory[b] {
      assert b !in s.queues[q].owned;
    }
    ShareKeeps(s, t.memory, q);
    OwnersStay(s, t);
    assert forall p :: 0 <= p < |s.queues| ==> ViewOk(s, p);
  }

  lemma InsideKeeps<T(!new)>(s: State<T>, i: nat, c: FL.Choice, t: State<T>)
    requires Inv(s) && Step(s, Inside(i, c), t)
    ensures Inv(t)
  {
    ListReachStep(s.list, i, c);
    InsideOwns(s.list, i, c);
    OwnersStay(s, t);
    assert forall q :: 0 <= q < |s.queues| ==> ViewOk(s, q) && Reachable(s.queues[q]);
    assert forall q :: 0 <= q < |t.queues| ==> ViewOk(t, q);
  }

  lemma InsideOwns(list: FL.State, i: nat, c: FL.Choice)
    requires FL.Enabled(list, i, c) && FL.Returned(list, i, c).Null? && FL.Given(list, i, c).Null?
    ensures FL.After(list, i, c).owned == list.owned && |FL.After(list, i, c).refs| == |list.refs|
  {
  }

  /** What ends a requisition: a block that nobody owned. */
  lemma Requisitioned(list: FL.State, i: nat, c: FL.Choice)
    requires ListReachable(list) && FL.Enabled(list, i, c) && FL.Returned(list, i, c).At?
    ensures var b, after := FL.Returned(list, i, c).node, FL.After(list, i, c);
            && ListReachable(after) && b !in list.owned && after.owned == list.owned + {b} && b < |after.refs|
            && |list.refs| <= |after.refs| <= |list.refs| + 1
  {
    ListHolds(list);
    FreeListProof.ReturnedWasFree(list, i, c);
    ListReachStep(list, i, c);
    ListHolds(FL.After(list, i, c));
    AddsAtMostOne(list, i, c);
  }

  lemma AddsAtMostOne(list: FL.State, i: nat, c: FL.Choice)
    requires FL.Enabled(list, i, c)
    ensures |list.refs| <= |FL.After(list, i, c).refs| <= |list.refs| + 1
  {
  }

  lemma OwnersGain<T>(s: State<T>, t: State<T>, q: int, b: Node)
    requires OwnersOk(s) && b !in s.list.owned && t.list.owned == s.list.owned + {b} && Owns(t, q, b)
    requires forall p, n :: Owns(t, p, n) <==> Owns(s, p, n) || (p == q && n == b)
    ensures OwnersOk(t)
  {
    assert forall p :: !Owns(s, p, b);
  }

  lemma OwnersLose<T>(s: State<T>, t: State<T>, q: int, b: Node)
    requires OwnersOk(s) && Owns(s, q, b) && t.list.owned == s.list.owned - {b}
    requires forall p, n :: Owns(t, p, n) <==> Owns(s, p, n) && n != b
    ensures OwnersOk(t)
  {
  }

  /** A requisition's block is one the sub-queue may take: its next step is the one of module Queue. */
  lemma TakeIsLegal<T(!new)>(x: Q.State<T>, b: Node)
    requires Reachable(x) && WantsBlock(x) && b !in x.owned && b < |x.memory|
    ensures Reachable(Took(x, b))
  {
    Reached(x);
    ReachStep(x, Q.Produce(Q.Obtain(b)), Took(x, b));
  }

  lemma TakeKeeps<T(!new)>(s: State<T>, q: nat, i: nat, c: FL.Choice, added: Q.Block<T>, t: State<T>)
    requires Inv(s) && Step(s, Take(q, i, c, added), t)
    ensures Inv(t)
  {
    Requisitioned(s.list, i, c);
    TakenKeeps(s, q, FL.Returned(s.list, i, c).node, t);
  }

  lemma TakenKeeps<T(!new)>(s: State<T>, q: nat, b: Node, t: State<T>)
    requires Inv(s) && q < |s.queues| && WantsBlock(s.queues[q]) && ListReachable(t.list)
    requires b !in s.list.owned && t.list.owned == s.list.owned + {b} && b < |t.memory|
    requires MemoryOk(t) && s.memory <= t.memory && t.blockSize == s.blockSize && t.outside == s.outside
    requires t.queues == SetQueue(Share(s, t.memory), q, Took(Viewed(s.queues[q], t.memory), b)).queues
    ensures Inv(t)
  {
    ShareKeeps(s, t.memory, -2);
    assert ViewOk(s, q) && !Owns(s, q, b);
    TakeIsLegal(Viewed(s.queues[q], t.memory), b);
    TakenOwners(s, q, b, t);
    assert forall p :: 0 <= p < |s.queues| ==> ViewOk(s, p);
  }

  lemma TakenOwners<T>(s: State<T>, q: nat, b: Node, t: State<T>)
    requires OwnersOk(s) && q < |s.queues| && s.queues[q].producer.Insert?
    requires b !in s.list.owned && t.list.owned == s.list.owned + {b} && t.outside == s.outside
    requires t.queues == SetQueue(Share(s, t.memory), q, Took(Viewed(s.queues[q], t.memory), b)).queues
    ensures OwnersOk(t)
  {
    OwnersGain(s, t, q, b);
  }

  lemma TakeOutsideKeeps<T(!new)>(s: State<T>, i: nat, c: FL.Choice, added: Q.Block<T>, t: State<T>)
    requires Inv(s) && Step(s, TakeOutside(i, c, added), t)
    ensures Inv(t)
  {
    Requisitioned(s.list, i, c);
    ShareKeeps(s, t.memory, -2);
    OwnersGain(s, t, -1, FL.Returned(s.list, i, c).node);
    assert forall p :: 0 <= p < |s.queues| ==> ViewOk(s, p);
  }

  /** Only what somebody owns is given back: the next step is the one of module FreeList. */
  lemma AddIsLegal(list: FL.State, i: nat, n: Node)
    requires ListReachable(list) && i < |list.pcs| && list.pcs[i].Idle? && n in list.owned
    ensures ListReachable(StartAdd(list, i, n))
  {
    ListHolds(list);
    assert FL.Enabled(list, i, FL.Add(n)) && FL.After(list, i, FL.Add(n)) == StartAdd(list, i, n);
    ListReachStep(list, i, FL.Add(n));
  }

  lemma FreeKeeps<T(!new)>(s: State<T>, q: nat, a: Q.Action<T>, i: nat, t: State<T>)
    requires Inv(s) && Step(s, Free(q, a, i), t)
    ensures Inv(t)
  {
    assert ViewOk(s, q) && Reachable(s.queues[q]);
    QueueGoesOn(s.queues[q], a, t.queues[q]);
    FreedKeeps(s, q, GaveUp(s.queues[q], a).node, i, t);
  }

  lemma FreedKeeps<T(!new)>(s: State<T>, q: nat, n: Node, i: nat, t: State<T>)
    requires Inv(s) && q < |s.queues| == |t.queues| && i < |s.list.pcs| && s.list.pcs[i].Idle?
    requires t == SetQueue(s, q, t.queues[q]).(list := StartAdd(s.list, i, n))
    requires Reachable(t.queues[q]) && t.queues[q].blockSize == s.blockSize && t.queues[q].memory == s.memory
    requires n in s.queues[q].owned && t.queues[q].owned == s.queues[q].owned - {n}
    ensures Inv(t)
  {
    assert Owns(s, q, n);
    AddIsLegal(s.list, i, n);
    FreedOwners(s, q, n, t);
    assert forall p :: 0 <= p < |s.queues| ==> ViewOk(s, p) && Reachable(s.queues[p]);
  }

  lemma FreedOwners<T>(s: State<T>, q: nat, n: Node, t: State<T>)
    requires OwnersOk(s) && Owns(s, q, n) && t.list.owned == s.list.owned - {n} && t.outside == s.outside
    requires |t.queues| == |s.queues| && t.queues == s.queues[q := t.queues[q]]
    requires t.queues[q].owned == s.queues[q].owned - {n}
    ensures OwnersOk(t)
  {
    forall p, b ensures Owns(t, p, b) <==> Owns(s, p, b) && b != n {
      if Owns(s, p, n) { assert p == q; }
    }
    OwnersLose(s, t, q, n);
  }

  lemma FreeOutsideKeeps<T(!new)>(s: State<T>, n: Node, i: nat, t: State<T>)
    requires Inv(s) && Step(s, FreeOutside(n, i), t)
    ensures Inv(t)
  {
    assert Owns(s, -1, n);
    AddIsLegal(s.list, i, n);
    forall p, b ensures Owns(t, p, b) <==> Owns(s, p, b) && b != n {
      if Owns(s, p, n) { assert p == -1; }
    }
    OwnersLose(s, t, -1, n);
    assert forall p :: 0 <= p < |s.queues| ==> ViewOk(s, p) && Reachable(s.queues[p]);
    assert forall p :: 0 <= p < |t.queues| ==> ViewOk(t, p);
  }

  lemma WriteOutsideKeeps<T(!new)>(s: State<T>, memory: seq<Q.Block<T>>, t: State<T>)
    requires Inv(s) && Step(s, WriteOutside(memory), t)
    ensures Inv(t)
  {
    ShareKeeps(s, memory, -1);
    OwnersStay(s, t);
    assert forall p :: 0 <= p < |s.queues| ==> ViewOk(s, p);
  }

  /** Whatever the sub-queues, the explicit producers and the threads inside the list do, each sub-queue goes on with a
      run of module Queue and the list with a run of module FreeList, and no block has two owners. */
  lemma StepKeeps<T(!new)>(s: State<T>, a: Action<T>, t: State<T>)
    requires Inv(s) && Step(s, a, t)
    ensures Inv(t)
  {
    match a
    case Work(q, b) => WorkKeeps(s, q, b, t);
    case Inside(i, c) => InsideKeeps(s, i, c, t);
    case Take(q, i, c, added) => TakeKeeps(s, q, i, c, added, t);
    case Free(q, b, i) => FreeKeeps(s, q, b, i, t);
    case TakeOutside(i, c, added) => TakeOutsideKeeps(s, i, c, added, t);
    case FreeOutside(n, i) => FreeOutsideKeeps(s, n, i, t);
    case WriteOutside(memory) => WriteOutsideKeeps(s, memory, t);
  }

  lemma StartReachable<T(!new)>(q: Q.State<T>)
    requires Q.Init(q)
    ensures Reachable(q)
  {
    assert Q.Run([q], []);
  }

  lemma InitHolds<T(!new)>(s: State<T>)
    requires Init(s)
    ensures Inv(s)
  {
    assert FL.Run([s.list], []);
    forall q | 0 <= q < |s.queues| ensures Reachable(s.queues[q]) && s.queues[q].owned == {} {
      StartReachable(s.queues[q]);
    }
    assert forall q, b :: !Owns(s, q, b);
  }

  lemma {:induction false} RunHolds<T(!new)>(r: seq<State<T>>, acts: seq<Action<T>>, k: nat)
    requires Run(r, acts) && k < |r|
    ensures Inv(r[k])
  {
    if k == 0 {
      InitHolds(r[0]);
    } else {
      RunHolds(r, acts, k - 1);
      StepKeeps(r[k - 1], acts[k - 1], r[k]);
    }
  }

  /** In every state that any run of the whole reaches, each sub-queue is in a state that module Queue reaches, and so
      is the list; a block is owned by one sub-queue, or one explicit producer, or it is in the pool, on the list, or
      in the hands of the threads inside it. */
  lemma EachIsReachable<T(!new)>(r: seq<State<T>>, acts: seq<Action<T>>, k: nat, b: Node)
    requires Run(r, acts) && k < |r| && b < |r[k].memory|
    ensures ListReachable(r[k].list) && b < |r[k].list.refs|
    ensures forall q :: 0 <= q < |r[k].queues| ==> Reachable(r[k].queues[q]) && r[k].queues[q].memory == r[k].memory
    ensures (exists q :: Owns(r[k], q, b)) <==>
              !(|| FreeListProof.InPool(r[k].list, b) || FreeListProof.OnList(r[k].list, b)
                || FreeListProof.Handled(r[k].list, b) || FreeListProof.Waits(r[k].list, b))
    ensures forall p, q :: Owns(r[k], p, b) && Owns(r[k], q, b) ==> p == q
  {
    RunHolds(r, acts, k);
    ListHolds(r[k].list);
    FreeListProof.ExactlyOnePlace(r[k].list, b);
    assert forall q :: 0 <= q < |r[k].queues| ==> ViewOk(r[k], q);
  }
}
