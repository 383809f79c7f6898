/** The sub-queue of an explicit producer: enqueueing one item at a time over a ring of blocks that is reused in
    place, and consumers that look blocks up through any header and front they have loaded.

    Operations are atomic here; which consumer claims which index is the matter of module Tickets. */
module ExplicitQueue {
  import opened Pointers
  import opened Modular
  import opened ExplicitProducer
  import Queue

  /** What never changes: the block size, `MAX_SUBQUEUE_SIZE` in whole blocks, and the largest distance that
      wrapped counters can tell apart. */
  datatype Config = Config(blockSize: nat, limit: Queue.Limit, leeway: nat)

  /** The fields of an explicit producer.  `front` is the slot for the next block, `headerFront` the one
      consumers start from; `older` are the indexes replaced, oldest first. */
  datatype State<T> = State(
    tail: nat,
    head: nat,
    tailBlock: Ptr,
    next: map<Node, Node>,
    slots: map<Node, seq<Queue.Slot<T>>>,
    flags: map<Node, seq<bool>>,
    hasIndex: bool,
    size: nat,
    used: nat,
    front: nat,
    headerFront: int,
    entries: seq<Entry>,
    older: seq<Header>)

  predicate SizesFit<T>(c: Config, s: State<T>) {
    && c.blockSize > 1
    && s.size > 0 && s.used <= s.size && s.front < s.size
    && (s.hasIndex ==> |s.entries| == s.size)
    && (!s.hasIndex ==> s.used == 0)
  }

  /** What the operations need to find in the fields. */
  predicate Fit<T>(c: Config, s: State<T>) {
    match s.tailBlock
    case Null => SizesFit(c, s)
    case At(n) =>
      && SizesFit(c, s) && s.hasIndex
      && n in s.next && n in s.slots && |s.slots[n]| == c.blockSize
      && s.next[n] in s.flags && |s.flags[s.next[n]]| == c.blockSize
      && s.next[n] in s.slots && |s.slots[s.next[n]]| == c.blockSize
  }

  // ---------------------------------------------------------------------------------------------
  // What the operations compute
  // ---------------------------------------------------------------------------------------------

  predicate AllSet(flags: seq<bool>) {
    forall j :: 0 <= j < |flags| ==> flags[j]
  }

  /** The block ahead of the tail can be reused. */
  predicate EmptyAhead<T>(c: Config, s: State<T>)
    requires Fit(c, s)
  {
    s.tailBlock.At? && AllSet(s.flags[s.next[s.tailBlock.node]])
  }

  ghost function Indexed<T>(s: State<T>): State<T>
    requires s.front < |s.entries| && s.tailBlock.At?
  {
    s.(entries := s.entries[s.front := Entry(s.tail, s.tailBlock.node)],
       headerFront := s.front,
       front := Turn(s.front + 1, |s.entries|))
  }

  ghost function Reused<T>(c: Config, s: State<T>): State<T>
    requires s.tailBlock.At? && s.tailBlock.node in s.next
  {
    var ahead := s.next[s.tailBlock.node];
    s.(tailBlock := At(ahead), flags := s.flags[ahead := seq(c.blockSize, _ => false)])
  }

  /** The index twice as large, with the ring's entries copied to its beginning. */
  ghost function Copied<T>(s: State<T>): (larger: seq<Entry>)
    requires s.size > 0 && (if s.hasIndex then s.used <= s.size == |s.entries| else s.used == 0)
    ensures |larger| == 2 * s.size
  {
    seq(2 * s.size, p requires 0 <= p < 2 * s.size =>
      if p < s.used then s.entries[Turn(s.front - s.used + p, s.size)] else Entry(0, 0))
  }

  ghost function Grown<T>(c: Config, s: State<T>): State<T>
    requires SizesFit(c, s)
  {
    s.(size := 2 * s.size,
       entries := Copied(s),
       older := if s.hasIndex then s.older + [Header(s.entries)] else s.older,
       front := s.used,
       headerFront := s.used - 1,
       hasIndex := true)
  }

  /** Any item a new block held before is of no interest. */
  ghost function WithBlock<T>(c: Config, s: State<T>, block: Node): State<T>
    requires s.tailBlock.At? ==> s.tailBlock.node in s.next
  {
    s.(next := Linked(s.next, s.tailBlock, block),
       slots := s.slots[block := seq(c.blockSize, _ => Queue.Vacant)],
       flags := s.flags[block := seq(c.blockSize, _ => false)],
       tailBlock := At(block),
       used := s.used + 1)
  }

  predicate NeedsIndex<T>(s: State<T>) {
    !s.hasIndex || s.used == s.size
  }

  predicate Refuses<T>(c: Config, s: State<T>) {
    Queue.IsFull(c.limit, c.leeway, c.blockSize, s.tail, s.head)
  }

  ghost function Written<T>(c: Config, s: State<T>, item: T): State<T>
    requires c.blockSize > 0 && s.tailBlock.At? && s.tailBlock.node in s.slots
    requires |s.slots[s.tailBlock.node]| == c.blockSize
  {
    var n := s.tailBlock.node;
    s.(slots := s.slots[n := s.slots[n][Turn(s.tail, c.blockSize) := Queue.Full(item)]], tail := s.tail + 1)
  }

  // ---------------------------------------------------------------------------------------------
  // The invariant
  // ---------------------------------------------------------------------------------------------

  /** History: all blocks started, all items enqueued, the indices completely dequeued, and the spans of the
      index in use and of those replaced. */
  datatype Past<T> = Past(blocks: seq<Node>, items: seq<T>, done: set<nat>, span: Span, spans: seq<Span>)

  ghost function Live<T>(s: State<T>, h: Past<T>): nat {
    if s.used <= |h.blocks| then |h.blocks| - s.used else 0
  }

  ghost function Blocks<T>(s: State<T>, h: Past<T>): Store<T> {
    Store(h.blocks[Live(s, h)..], Live(s, h), s.slots, s.flags)
  }

  ghost predicate IndexesOk<T>(c: Config, s: State<T>, h: Past<T>) {
    match h
    case Past(blocks, _, _, span, spans) =>
      && s.size > 0 && s.used <= |blocks| && (s.used == 0 <==> blocks == [])
      && OlderOk(s.older, spans, blocks, Live(s, h), c.blockSize)
      && (if s.hasIndex then
            |s.entries| == s.size && CurrentOk(s.entries, span, blocks, s.used, c.blockSize, s.front, s.headerFront)
          else blocks == [] && s.front == 0)
  }

  ghost predicate StoreOk<T>(c: Config, s: State<T>, h: Past<T>) {
    match h
    case Past(_, items, done, _, _) =>
      && s.tail == |items|
      && RingOk(Blocks(s, h).ring, s.next, s.tailBlock)
      && ItemsOk(Blocks(s, h), c.blockSize, s.head, items, done)
  }

  /** `extra` blocks are started that hold no item yet. */
  ghost predicate InvWith<T>(c: Config, s: State<T>, h: Past<T>, extra: nat) {
    match h
    case Past(blocks, items, _, _, _) =>
      && c.blockSize > 1
      && |blocks| == Occupied(|items|, c.blockSize) + extra
      && IndexesOk(c, s, h)
      && StoreOk(c, s, h)
  }

  ghost predicate Inv<T>(c: Config, s: State<T>, h: Past<T>) {
    InvWith(c, s, h, 0)
  }

  lemma InvIsFit<T>(c: Config, s: State<T>, h: Past<T>, extra: nat)
    requires InvWith(c, s, h, extra)
    ensures Fit(c, s)
  {
    var ring := Blocks(s, h).ring;
    if s.tailBlock.At? {
      assert s.tailBlock.node == ring[|ring| - 1];
      assert Sized(Blocks(s, h), c.blockSize, ring[0]) && Sized(Blocks(s, h), c.blockSize, ring[|ring| - 1]);
    }
  }

  // ---------------------------------------------------------------------------------------------
  // The operations keep it
  // ---------------------------------------------------------------------------------------------

  lemma AtBoundary(n: nat, b: nat)
    requires b > 0 && Turn(n, b) == 0
    ensures Home(n, b) == Occupied(n, b) && Occupied(n + 1, b) == Occupied(n, b) + 1 && Base(Occupied(n, b), b) == n
  {
    TurnIsMod(n, b);
    HomeIsQuotient(n, b);
    QuotientBounds(n, b);
    var q := n / b;
    assert n - 1 == (q - 1) * b + (b - 1);
    QuotientIs(n - 1, q - 1, b);
    if n > 0 { HomeIsQuotient(n - 1, b); }
    BaseIsProduct(q, b);
  }

  lemma InsideBlock(n: nat, b: nat)
    requires b > 0 && Turn(n, b) != 0
    ensures Home(n, b) == Occupied(n, b) - 1 && Occupied(n + 1, b) == Occupied(n, b)
  {
    TurnIsMod(n, b);
    HomeIsQuotient(n, b);
    QuotientBounds(n, b);
    QuotientIs(n - 1, n / b, b);
    if n > 0 { HomeIsQuotient(n - 1, b); }
  }

  /** The past after a block was started. */
  ghost function Begun<T>(h: Past<T>, block: Node): Past<T> {
    h.(blocks := h.blocks + [block], span := h.span.(limit := |h.blocks| + 1))
  }

  lemma ReuseKeepsIndexes<T>(c: Config, s: State<T>, h: Past<T>)
    requires Fit(c, s) && IndexesOk(c, s, h) && s.hasIndex && s.tailBlock.At? && s.used > 0
    requires s.tail == Base(|h.blocks|, c.blockSize)
    ensures var ahead := s.next[s.tailBlock.node];
            IndexesOk(c, Indexed(Reused(c, s)), Begun(h, ahead))
  {
    var ahead := s.next[s.tailBlock.node];
    NextKeepsCurrent(s.entries, h.span, h.blocks, s.used, c.blockSize, s.front, s.headerFront, ahead, s.used);
    OlderStays(s.older, h.spans, h.blocks, Live(s, h), c.blockSize, ahead, Live(s, h) + 1);
  }

  lemma ReuseKeepsItems<T>(c: Config, s: State<T>, h: Past<T>)
    requires StoreOk(c, s, h) && Fit(c, s) && EmptyAhead(c, s) && 0 < s.used <= |h.blocks|
    requires Encloses(Blocks(s, h), c.blockSize, |h.items|)
    ensures StoreOk(c, Reused(c, s), Begun(h, s.next[s.tailBlock.node]))
  {
    var m := Blocks(s, h);
    ReuseKeepsRing(m.ring, s.next, s.tailBlock);
    ReusedBlocks(c, s, h, m.ring[0]);
    ReuseKeepsStore(m, Blocks(Reused(c, s), Begun(h, m.ring[0])), s.next, s.tailBlock, c.blockSize, s.head, h.items, h.done);
  }

  lemma ReusedBlocks<T>(c: Config, s: State<T>, h: Past<T>, ahead: Node)
    requires s.tailBlock.At? && s.tailBlock.node in s.next && s.next[s.tailBlock.node] == ahead
    requires 0 < s.used <= |h.blocks| && Blocks(s, h).ring[0] == ahead
    ensures var m, t := Blocks(s, h), Blocks(Reused(c, s), Begun(h, ahead));
            && t.ring == m.ring[1..] + [ahead] && t.first == m.first + 1 && t.slots == m.slots
            && t.flags == m.flags[ahead := seq(c.blockSize, _ => false)]
  {
  }

  lemma IndexingKeepsStore<T>(c: Config, s: State<T>, h: Past<T>)
    requires StoreOk(c, s, h) && s.front < |s.entries| && s.tailBlock.At?
    ensures StoreOk(c, Indexed(s), h)
  {
  }

  /** A block is reset only when nothing in it is still to be dequeued. */
  lemma ResetBlockIsDone<T>(c: Config, s: State<T>, h: Past<T>)
    requires Inv(c, s, h) && Fit(c, s) && EmptyAhead(c, s)
    ensures Live(s, h) < |h.blocks| && h.blocks[Live(s, h)] == s.next[s.tailBlock.node]
    ensures forall x: nat :: Home(x, c.blockSize) == Live(s, h) ==> x in h.done
  {
    var m := Blocks(s, h);
    ReuseKeepsRing(m.ring, s.next, s.tailBlock);
    EmptyIsDone(m, c.blockSize, s.head, h.items, h.done);
  }

  /** Everything in the oldest block of the ring is completely dequeued. */
  ghost predicate OldestDone<T>(c: Config, s: State<T>, h: Past<T>) {
    c.blockSize > 0 && h.blocks != [] && forall x: nat :: Home(x, c.blockSize) == Live(s, h) ==> x in h.done
  }

  /** The block ahead counts as empty exactly if a block has been started and everything in the oldest is completely
      dequeued: also if that is the tail block itself. */
  lemma EmptyIffDone<T>(c: Config, s: State<T>, h: Past<T>)
    requires Inv(c, s, h)
    ensures Fit(c, s) && (EmptyAhead(c, s) <==> OldestDone(c, s, h))
  {
    InvIsFit(c, s, h, 0);
    if s.tailBlock.At? {
      var m := Blocks(s, h);
      ReuseKeepsRing(m.ring, s.next, s.tailBlock);
      if EmptyAhead(c, s) { EmptyIsDone(m, c.blockSize, s.head, h.items, h.done); }
      if OldestDone(c, s, h) { DoneIsEmpty(m, c.blockSize, s.head, h.items, h.done); }
    }
  }

  /** Reusing the block ahead. */
  lemma ReuseKeeps<T>(c: Config, s: State<T>, h: Past<T>)
    requires Inv(c, s, h) && Turn(s.tail, c.blockSize) == 0 && Fit(c, s) && EmptyAhead(c, s)
    ensures var ahead := s.next[s.tailBlock.node];
            InvWith(c, Indexed(Reused(c, s)), Begun(h, ahead), 1)
  {
    AtBoundary(s.tail, c.blockSize);
    OccupiedEncloses(Blocks(s, h), c.blockSize, |h.items|);
    ReuseKeepsIndexes(c, s, h);
    ReuseKeepsItems(c, s, h);
    IndexingKeepsStore(c, Reused(c, s), Begun(h, s.next[s.tailBlock.node]));
  }

  /** The past after the index was replaced. */
  ghost function Replaced<T>(s: State<T>, h: Past<T>): Past<T> {
    var first := Live(s, h);
    h.(span := Span(first, first, |h.blocks|), spans := if s.hasIndex then h.spans + [h.span] else h.spans)
  }

  /** Replacing the index. */
  lemma GrowKeepsIndexes<T>(c: Config, s: State<T>, h: Past<T>)
    requires IndexesOk(c, s, h) && Fit(c, s)
    ensures IndexesOk(c, Grown(c, s), Replaced(s, h))
  {
    var larger := Copied(s);
    if s.hasIndex {
      forall p | 0 <= p < s.used ensures larger[p] == s.entries[Turn(s.front - s.used + p, |s.entries|)] {
      }
      CopyKeepsCurrent(s.entries, h.span, h.blocks, s.used, c.blockSize, s.front, s.headerFront, larger);
      ReplaceKeepsOlder(s.older, h.spans, h.blocks, Live(s, h), c.blockSize, s.entries, h.span);
    } else {
      EmptyCurrent(larger, c.blockSize);
    }
  }

  lemma GrowKeeps<T>(c: Config, s: State<T>, h: Past<T>)
    requires Inv(c, s, h) && Fit(c, s)
    ensures Inv(c, Grown(c, s), Replaced(s, h))
  {
    GrowKeepsIndexes(c, s, h);
    GrowKeepsStore(c, s, h);
  }

  lemma GrowKeepsStore<T>(c: Config, s: State<T>, h: Past<T>)
    requires StoreOk(c, s, h) && Fit(c, s)
    ensures StoreOk(c, Grown(c, s), Replaced(s, h))
  {
    assert Blocks(Grown(c, s), Replaced(s, h)) == Blocks(s, h);
  }

  lemma LinkKeepsIndexes<T>(c: Config, s: State<T>, h: Past<T>, block: Node)
    requires Fit(c, s) && IndexesOk(c, s, h) && s.hasIndex && s.used < s.size
    requires s.tail == Base(|h.blocks|, c.blockSize)
    ensures IndexesOk(c, Indexed(WithBlock(c, s, block)), Begun(h, block))
  {
    NextKeepsCurrent(s.entries, h.span, h.blocks, s.used, c.blockSize, s.front, s.headerFront, block, s.used + 1);
    OlderStays(s.older, h.spans, h.blocks, Live(s, h), c.blockSize, block, Live(s, h));
  }

  lemma LinkKeepsItems<T>(c: Config, s: State<T>, h: Past<T>, block: Node)
    requires StoreOk(c, s, h) && Fit(c, s) && s.used <= |h.blocks| && block !in s.next
    requires Encloses(Blocks(s, h), c.blockSize, |h.items|)
    ensures StoreOk(c, WithBlock(c, s, block), Begun(h, block))
  {
    var m := Blocks(s, h);
    var t := Blocks(WithBlock(c, s, block), Begun(h, block));
    assert t.ring == m.ring + [block];
    LinkKeepsStore(m, t, s.next, s.tailBlock, block, c.blockSize, s.head, h.items, h.done);
  }

  /** Linking in a new block. */
  lemma LinkKeeps<T>(c: Config, s: State<T>, h: Past<T>, block: Node)
    requires Inv(c, s, h) && Turn(s.tail, c.blockSize) == 0 && Fit(c, s) && s.hasIndex && s.used < s.size && block !in s.next
    ensures InvWith(c, Indexed(WithBlock(c, s, block)), Begun(h, block), 1)
  {
    AtBoundary(s.tail, c.blockSize);
    OccupiedEncloses(Blocks(s, h), c.blockSize, |h.items|);
    LinkKeepsIndexes(c, s, h, block);
    LinkKeepsItems(c, s, h, block);
    IndexingKeepsStore(c, WithBlock(c, s, block), Begun(h, block));
  }

  /** The next item lies in the tail block. */
  lemma TailIsInTailBlock<T>(c: Config, s: State<T>, h: Past<T>, extra: nat)
    requires InvWith(c, s, h, extra) && extra == (if Turn(s.tail, c.blockSize) == 0 then 1 else 0)
    ensures s.tailBlock.At? && InRing(Blocks(s, h), c.blockSize, s.tail)
    ensures BlockOf(Blocks(s, h), c.blockSize, s.tail) == s.tailBlock.node
    ensures |h.blocks| == Occupied(s.tail + 1, c.blockSize)
  {
    TailIsLast(s.tail, c.blockSize, extra);
    var m := Blocks(s, h);
    assert m.first + |m.ring| == |h.blocks|;
  }

  lemma TailIsLast(n: nat, b: nat, extra: nat)
    requires b > 0 && extra == (if Turn(n, b) == 0 then 1 else 0)
    ensures Home(n, b) + 1 == Occupied(n, b) + extra == Occupied(n + 1, b)
  {
    if extra == 1 { AtBoundary(n, b); } else { InsideBlock(n, b); }
  }

  lemma WriteKeeps<T>(c: Config, s: State<T>, h: Past<T>, extra: nat, item: T)
    requires InvWith(c, s, h, extra) && extra == (if Turn(s.tail, c.blockSize) == 0 then 1 else 0)
    ensures s.tailBlock.At? && s.tailBlock.node in s.slots && |s.slots[s.tailBlock.node]| == c.blockSize
    ensures Inv(c, Written(c, s, item), h.(items := h.items + [item]))
  {
    TailIsInTailBlock(c, s, h, extra);
    WriteKeepsItems(Blocks(s, h), c.blockSize, s.head, h.items, h.done, item);
  }

  // ---------------------------------------------------------------------------------------------
  // Enqueueing
  // ---------------------------------------------------------------------------------------------

  datatype Outcome<T> = Outcome(ok: bool, state: State<T>)

  /** Taking a new block: `granted` tells whether memory for a larger index is to be had, `block` is what the
      request for a block returned. */
  ghost function Extended<T>(c: Config, s: State<T>, granted: bool, block: Ptr): Outcome<T>
    requires Fit(c, s) && Turn(s.tail, c.blockSize) == 0
  {
    if Refuses(c, s) || (NeedsIndex(s) && !granted) then Outcome(false, s)
    else
      var t := if NeedsIndex(s) then Grown(c, s) else s;
      if block.Null? then Outcome(false, t) else Outcome(true, Indexed(WithBlock(c, t, block.node)))
  }

  ghost function Prepared<T>(c: Config, s: State<T>, granted: bool, block: Ptr): Outcome<T>
    requires Fit(c, s)
  {
    if Turn(s.tail, c.blockSize) != 0 then Outcome(true, s)
    else if EmptyAhead(c, s) then Outcome(true, Indexed(Reused(c, s)))
    else Extended(c, s, granted, block)
  }

  /** The number of a header is how many were replaced before it. */
  ghost predicate Covers<T>(s: State<T>, h: Past<T>, header: nat, f: nat, n: nat) {
    if header < |s.older| then header < |h.spans| && Serves(|s.older[header].entries|, h.spans[header], f, n)
    else header == |s.older| && s.hasIndex && Serves(s.size, h.span, f, n)
  }

  /** The history goes on: nothing enqueued or dequeued, and whatever a consumer may have loaded keeps serving,
      however often the index is replaced. */
  ghost predicate Continues<T>(s: State<T>, h: Past<T>, t: State<T>, k: Past<T>) {
    && h.blocks <= k.blocks && k.done == h.done && k.items == h.items
    && forall header: nat, f: nat, n: nat :: Covers(s, h, header, f, n) ==> Covers(t, k, header, f, n)
  }

  ghost predicate CanContinue<T(!new)>(c: Config, s: State<T>, h: Past<T>, t: State<T>, extra: nat) {
    exists k: Past<T> :: InvWith(c, t, k, extra) && Continues(s, h, t, k)
  }

  lemma BegunContinues<T>(s: State<T>, h: Past<T>, t: State<T>, block: Node)
    requires t.older == s.older && t.hasIndex == s.hasIndex && t.size == s.size && h.span.limit <= |h.blocks| + 1
    ensures Continues(s, h, t, Begun(h, block))
  {
    ServesOn(s.size, h.span, |h.blocks| + 1);
  }

  lemma ReplacedContinues<T>(c: Config, s: State<T>, h: Past<T>)
    requires Fit(c, s) && |h.spans| == |s.older|
    ensures Continues(s, h, Grown(c, s), Replaced(s, h))
  {
  }

  lemma ContinuesOn<T>(s: State<T>, h: Past<T>, t: State<T>, k: Past<T>, u: State<T>, l: Past<T>)
    requires Continues(s, h, t, k) && Continues(t, k, u, l)
    ensures Continues(s, h, u, l)
  {
  }

  lemma ReuseContinues<T(!new)>(c: Config, s: State<T>, h: Past<T>)
    requires Inv(c, s, h) && Fit(c, s) && Turn(s.tail, c.blockSize) == 0 && EmptyAhead(c, s)
    ensures CanContinue(c, s, h, Indexed(Reused(c, s)), 1)
  {
    ReuseKeeps(c, s, h);
    BegunContinues(s, h, Indexed(Reused(c, s)), s.next[s.tailBlock.node]);
  }

  lemma GrowContinues<T(!new)>(c: Config, s: State<T>, h: Past<T>)
    requires Inv(c, s, h) && Fit(c, s)
    ensures CanContinue(c, s, h, Grown(c, s), 0)
  {
    GrowKeeps(c, s, h);
    ReplacedContinues(c, s, h);
  }

  lemma LinkContinues<T(!new)>(c: Config, s: State<T>, h: Past<T>, block: Node)
    requires Inv(c, s, h) && Fit(c, s) && Turn(s.tail, c.blockSize) == 0 && s.hasIndex && s.used < s.size && block !in s.next
    ensures CanContinue(c, s, h, Indexed(WithBlock(c, s, block)), 1)
  {
    LinkKeeps(c, s, h, block);
    BegunContinues(s, h, Indexed(WithBlock(c, s, block)), block);
  }

  lemma GrowLinkContinues<T(!new)>(c: Config, s: State<T>, h: Past<T>, block: Node)
    requires Inv(c, s, h) && Fit(c, s) && Turn(s.tail, c.blockSize) == 0 && block !in s.next
    ensures Fit(c, Grown(c, s))
    ensures CanContinue(c, s, h, Indexed(WithBlock(c, Grown(c, s), block)), 1)
  {
    var t, k := Grown(c, s), Replaced(s, h);
    GrowKeeps(c, s, h);
    ReplacedContinues(c, s, h);
    GrownIsFit(c, s, h);
    LinkContinues(c, t, k, block);
    var l: Past<T> :| InvWith(c, Indexed(WithBlock(c, t, block)), l, 1) && Continues(t, k, Indexed(WithBlock(c, t, block)), l);
    ContinuesOn(s, h, t, k, Indexed(WithBlock(c, t, block)), l);
  }

  lemma GrownIsFit<T>(c: Config, s: State<T>, h: Past<T>)
    requires Inv(c, s, h) && Fit(c, s)
    ensures Fit(c, Grown(c, s)) && Grown(c, s).used < Grown(c, s).size
  {
  }

  lemma NothingContinues<T(!new)>(c: Config, s: State<T>, h: Past<T>)
    requires Inv(c, s, h)
    ensures CanContinue(c, s, h, s, 0)
  {
    assert Continues(s, h, s, h);
  }

  /** The three ways to get a block at a boundary. */
  lemma PreparedCases<T>(c: Config, s: State<T>, granted: bool, block: Ptr)
    requires Fit(c, s)
    ensures var out := Prepared(c, s, granted, block);
            if Turn(s.tail, c.blockSize) != 0 then out == Outcome(true, s)
            else if EmptyAhead(c, s) then out == Outcome(true, Indexed(Reused(c, s)))
            else
              || out == Outcome(false, s)
              || (NeedsIndex(s) && block.Null? && out == Outcome(false, Grown(c, s)))
              || (NeedsIndex(s) && block.At? && out == Outcome(true, Indexed(WithBlock(c, Grown(c, s), block.node))))
              || (!NeedsIndex(s) && block.At? && out == Outcome(true, Indexed(WithBlock(c, s, block.node))))
  {
  }

  lemma PreparedContinues<T(!new)>(c: Config, s: State<T>, h: Past<T>, granted: bool, block: Ptr)
    requires Inv(c, s, h) && Fit(c, s) && (block.At? ==> block.node !in s.next)
    ensures var out := Prepared(c, s, granted, block);
            CanContinue(c, s, h, out.state, if out.ok && Turn(s.tail, c.blockSize) == 0 then 1 else 0)
  {
    var out := Prepared(c, s, granted, block);
    PreparedCases(c, s, granted, block);
    if Turn(s.tail, c.blockSize) != 0 {
      NothingContinues(c, s, h);
    } else if EmptyAhead(c, s) {
      ReuseContinues(c, s, h);
    } else if out == Outcome(false, s) {
      NothingContinues(c, s, h);
    } else if !NeedsIndex(s) {
      LinkContinues(c, s, h, block.node);
    } else if block.Null? {
      GrowContinues(c, s, h);
    } else {
      GrowLinkContinues(c, s, h, block.node);
    }
  }

  lemma PreparedOutcome<T>(c: Config, s: State<T>, granted: bool, block: Ptr)
    requires Fit(c, s)
    ensures Prepared(c, s, granted, block).state.tail == s.tail
    ensures Prepared(c, s, granted, block).ok <==>
              || Turn(s.tail, c.blockSize) != 0
              || EmptyAhead(c, s)
              || (!Refuses(c, s) && (NeedsIndex(s) ==> granted) && block.At?)
  {
  }

  lemma PreparedSizes<T>(c: Config, s: State<T>, granted: bool, block: Ptr)
    requires Fit(c, s)
    ensures var out := Prepared(c, s, granted, block);
            var more := Turn(s.tail, c.blockSize) == 0 && !EmptyAhead(c, s) && !Refuses(c, s);
            && out.state.used == (if more && (NeedsIndex(s) ==> granted) && block.At? then s.used + 1 else s.used)
            && out.state.size == (if more && NeedsIndex(s) && granted then 2 * s.size else s.size)
  {
  }

  /** A whole block more fits, within the limit and within what wrapped counters can tell apart. */
  predicate HasRoom<T>(c: Config, s: State<T>) {
    && s.tail + c.blockSize - s.head < c.leeway
    && (c.limit.AtMost? ==> s.tail + c.blockSize - s.head <= c.limit.size)
  }

  /** There is no index, or each of its entries belongs to a block of the ring. */
  ghost predicate IndexIsFull<T>(s: State<T>, h: Past<T>) {
    !s.hasIndex || |Blocks(s, h).ring| == |s.entries|
  }

  /** The enqueue starts a block that is not in the ring yet, unless memory is refused. */
  ghost predicate StartsNew<T>(c: Config, s: State<T>, h: Past<T>) {
    c.blockSize > 0 && s.tail % c.blockSize == 0 && !OldestDone(c, s, h) && HasRoom(c, s)
  }

  /** There is room in the tail block; or the oldest block can be used again; or a new one fits, and memory is to be had
      for it, and for a larger index if that is full. */
  ghost predicate Succeeds<T>(c: Config, s: State<T>, h: Past<T>, granted: bool, block: Ptr) {
    || (c.blockSize > 0 && s.tail % c.blockSize != 0)
    || OldestDone(c, s, h)
    || (HasRoom(c, s) && (IndexIsFull(s, h) ==> granted) && block.At?)
  }

  lemma RefusesIsExact<T>(c: Config, s: State<T>, h: Past<T>)
    requires Inv(c, s, h)
    ensures Refuses(c, s) <==> !HasRoom(c, s)
    ensures NeedsIndex(s) <==> IndexIsFull(s, h)
    ensures c.blockSize > 0 && s.tail % c.blockSize == Turn(s.tail, c.blockSize)
  {
    TurnIsMod(s.tail, c.blockSize);
  }

  ghost function Enqueued<T>(c: Config, s: State<T>, item: T, granted: bool, block: Ptr): Outcome<T>
    requires Fit(c, s)
  {
    var out := Prepared(c, s, granted, block);
    if out.ok && CanWrite(c, out.state) then Outcome(true, Written(c, out.state, item)) else Outcome(false, out.state)
  }

  predicate CanWrite<T>(c: Config, s: State<T>) {
    c.blockSize > 0 && s.tailBlock.At? && s.tailBlock.node in s.slots && |s.slots[s.tailBlock.node]| == c.blockSize
  }

  lemma EnqueuedOutcome<T>(c: Config, s: State<T>, item: T, granted: bool, block: Ptr)
    requires Fit(c, s)
    requires var out := Prepared(c, s, granted, block); out.ok ==> CanWrite(c, out.state)
    ensures var out := Prepared(c, s, granted, block);
            Enqueued(c, s, item, granted, block)
            == if out.ok then Outcome(true, Written(c, out.state, item)) else Outcome(false, out.state)
  {
  }

  /** The sub-queue goes on from `s` in `t`, with `items` enqueued so far, and nothing dequeued meanwhile. */
  ghost predicate GoesOn<T(!new)>(c: Config, s: State<T>, h: Past<T>, t: State<T>, items: seq<T>) {
    exists k: Past<T> :: Inv(c, t, k) && k.items == items && Continues(s, h, t, k.(items := h.items))
  }

  lemma WriteGoesOn<T(!new)>(c: Config, s: State<T>, h: Past<T>, t: State<T>, extra: nat, item: T)
    requires CanContinue(c, s, h, t, extra) && extra == (if Turn(t.tail, c.blockSize) == 0 then 1 else 0)
    ensures CanWrite(c, t) && GoesOn(c, s, h, Written(c, t, item), h.items + [item])
  {
    var k: Past<T> :| InvWith(c, t, k, extra) && Continues(s, h, t, k);
    WriteKeeps(c, t, k, extra, item);
    WrittenContinues(c, s, h, t, k, item);
    var l := k.(items := k.items + [item]);
    assert l.items == h.items + [item];
  }

  lemma WrittenContinues<T>(c: Config, s: State<T>, h: Past<T>, t: State<T>, k: Past<T>, item: T)
    requires CanWrite(c, t) && Continues(s, h, t, k)
    ensures var l := k.(items := k.items + [item]);
            Continues(s, h, Written(c, t, item), l.(items := h.items))
  {
    var u, l := Written(c, t, item), k.(items := h.items);
    assert l == k && u.older == t.older && u.hasIndex == t.hasIndex && u.size == t.size;
    forall header: nat, f: nat, n: nat | Covers(s, h, header, f, n) ensures Covers(u, l, header, f, n) {
      assert Covers(t, k, header, f, n);
    }
  }

  lemma FailGoesOn<T(!new)>(c: Config, s: State<T>, h: Past<T>, t: State<T>)
    requires CanContinue(c, s, h, t, 0)
    ensures GoesOn(c, s, h, t, h.items)
  {
    var k: Past<T> :| InvWith(c, t, k, 0) && Continues(s, h, t, k);
    assert k.(items := h.items) == k;
  }

  lemma EnqueueCanWrite<T(!new)>(c: Config, s: State<T>, h: Past<T>, granted: bool, block: Ptr)
    requires Inv(c, s, h) && Fit(c, s) && (block.At? ==> block.node !in s.next)
    ensures var out := Prepared(c, s, granted, block); out.ok ==> CanWrite(c, out.state)
  {
    PreparedContinues(c, s, h, granted, block);
    PreparedOutcome(c, s, granted, block);
    var out := Prepared(c, s, granted, block);
    if out.ok && h.items != [] {
      WriteGoesOn(c, s, h, out.state, if Turn(s.tail, c.blockSize) == 0 then 1 else 0, h.items[0]);
    }
  }

  lemma EnqueueGoesOn<T(!new)>(c: Config, s: State<T>, h: Past<T>, item: T, granted: bool, block: Ptr)
    requires Inv(c, s, h) && Fit(c, s) && (block.At? ==> block.node !in s.next)
    ensures var out := Enqueued(c, s, item, granted, block);
            && out.ok == Prepared(c, s, granted, block).ok
            && GoesOn(c, s, h, out.state, if out.ok then h.items + [item] else h.items)
            && out.state.used == Prepared(c, s, granted, block).state.used
            && out.state.size == Prepared(c, s, granted, block).state.size
  {
    PreparedContinues(c, s, h, granted, block);
    PreparedOutcome(c, s, granted, block);
    var out := Prepared(c, s, granted, block);
    if out.ok {
      WriteGoesOn(c, s, h, out.state, if Turn(s.tail, c.blockSize) == 0 then 1 else 0, item);
    } else {
      FailGoesOn(c, s, h, out.state);
    }
    EnqueuedOutcome(c, s, item, granted, block);
  }

  /** Enqueueing appends exactly the item, or fails and changes nothing but, perhaps, the size of the index.  It
      succeeds exactly if there is room in the tail block, or the oldest block can be used again, which takes no memory
      and is done whenever it can be, or a new block fits and there is memory.  The ring grows exactly by that block,
      and the index is doubled exactly if it is full when a new block is started.  Whatever consumers have loaded keeps
      serving them. */
  lemma EnqueueKeeps<T(!new)>(c: Config, s: State<T>, h: Past<T>, item: T, granted: bool, block: Ptr)
    requires Inv(c, s, h) && (block.At? ==> block.node !in s.next)
    ensures Fit(c, s)
    ensures var out := Enqueued(c, s, item, granted, block);
            && GoesOn(c, s, h, out.state, if out.ok then h.items + [item] else h.items)
            && (out.ok <==> Succeeds(c, s, h, granted, block))
            && out.state.used == (if out.ok && StartsNew(c, s, h) then s.used + 1 else s.used)
            && out.state.size == (if StartsNew(c, s, h) && IndexIsFull(s, h) && granted then 2 * s.size else s.size)
  {
    EmptyIffDone(c, s, h);
    RefusesIsExact(c, s, h);
    PreparedOutcome(c, s, granted, block);
    PreparedSizes(c, s, granted, block);
    EnqueueGoesOn(c, s, h, item, granted, block);
  }

  /** What an enqueue needs to find. */
  ghost predicate FitsFor<T>(c: Config, s: State<T>, granted: bool, block: Ptr) {
    match Fit(c, s)
    case true => Prepared(c, s, granted, block).ok ==> CanWrite(c, Prepared(c, s, granted, block).state)
    case false => false
  }

  lemma EnqueueIsFit<T(!new)>(c: Config, s: State<T>, h: Past<T>, granted: bool, block: Ptr)
    requires Inv(c, s, h) && (block.At? ==> block.node !in s.next)
    ensures FitsFor(c, s, granted, block) && Fit(c, s)
  {
    InvIsFit(c, s, h, 0);
    EnqueueCanWrite(c, s, h, granted, block);
  }

  lemma EnqueueMeans<T(!new)>(c: Config, s: State<T>, h: Past<T>, item: T, granted: bool, block: Ptr, ok: bool, t: State<T>)
    requires Inv(c, s, h) && Fit(c, s) && (block.At? ==> block.node !in s.next)
    requires Outcome(ok, t) == Enqueued(c, s, item, granted, block)
    ensures GoesOn(c, s, h, t, if ok then h.items + [item] else h.items)
    ensures ok <==> Succeeds(c, s, h, granted, block)
    ensures t.used == if ok && StartsNew(c, s, h) then s.used + 1 else s.used
  {
    EnqueueKeeps(c, s, h, item, granted, block);
  }

  // ---------------------------------------------------------------------------------------------
  // Consumers
  // ---------------------------------------------------------------------------------------------

  /** The header and front now published serve for all blocks started so far. */
  lemma PublishedCovers<T>(c: Config, s: State<T>, h: Past<T>)
    requires Inv(c, s, h) && h.blocks != []
    ensures s.hasIndex && s.headerFront >= 0 && Covers(s, h, |s.older|, s.headerFront, |h.blocks|)
  {
    assert s.headerFront == Place(h.span, |h.blocks| - 1, s.size);
  }

  predicate Has<T>(c: Config, s: State<T>, block: Node) {
    && c.blockSize > 0
    && block in s.slots && |s.slots[block]| == c.blockSize && block in s.flags && |s.flags[block]| == c.blockSize
  }

  ghost predicate Holds<T>(c: Config, s: State<T>, block: Node, x: nat, item: T) {
    Has(c, s, block) && s.slots[block][Turn(x, c.blockSize)] == Queue.Full(item)
  }

  function EntriesOf<T>(s: State<T>, header: nat): seq<Entry> {
    if header < |s.older| then s.older[header].entries else s.entries
  }

  /** Through any header and front that a consumer may have loaded, the index of an item that is not completely
      dequeued leads to the block that holds the item. */
  lemma LookupIsRight<T>(c: Config, s: State<T>, h: Past<T>, header: nat, f: nat, n: nat, x: nat)
    requires Inv(c, s, h) && Covers(s, h, header, f, n)
    requires x < s.tail && x !in h.done && Home(x, c.blockSize) < n
    ensures var entries := EntriesOf(s, header);
            && f < |entries| && c.blockSize > 0
            && var block := entries[SlotFromFront(entries, f, Base(Home(x, c.blockSize), c.blockSize), c.blockSize)].block;
            && block == BlockHolding(s, h, c.blockSize, x)
            && Holds(c, s, block, x, h.items[x])
  {
    var b := c.blockSize;
    assert Held(Blocks(s, h), b, x, h.items[x]);
    if header < |s.older| {
      var span := h.spans[header];
      var k: nat :| span.lo <= k < span.limit && f == Place(span, k, |s.older[header].entries|);
      FrontLeadsToBlock(s.older[header].entries, span, h.blocks, Live(s, h), b, k, Home(x, b));
    } else {
      var k: nat :| h.span.lo <= k < h.span.limit && f == Place(h.span, k, s.size);
      FrontLeadsToBlock(s.entries, h.span, h.blocks, Live(s, h), b, k, Home(x, b));
    }
  }

  ghost function BlockHolding<T>(s: State<T>, h: Past<T>, b: nat, x: nat): Node
    requires b > 0
  {
    if InRing(Blocks(s, h), b, x) then BlockOf(Blocks(s, h), b, x) else 0
  }

  /** Moving item `x` out of `block` and setting its flag. */
  ghost function Taken<T>(c: Config, s: State<T>, block: Node, x: nat): State<T>
    requires Has(c, s, block)
  {
    s.(slots := s.slots[block := s.slots[block][Turn(x, c.blockSize) := Queue.Vacant]],
       flags := s.flags[block := s.flags[block][c.blockSize - 1 - Turn(x, c.blockSize) := true]])
  }

  /** A claimed item is there, its flag is not set yet, and taking it makes it done. */
  lemma TakeKeeps<T>(c: Config, s: State<T>, h: Past<T>, x: nat)
    requires Inv(c, s, h) && x < s.head && x !in h.done
    ensures var block := BlockHolding(s, h, c.blockSize, x);
            && Holds(c, s, block, x, h.items[x])
            && !s.flags[block][c.blockSize - 1 - Turn(x, c.blockSize)]
            && Inv(c, Taken(c, s, block, x), h.(done := h.done + {x}))
  {
    TakeKeepsItems(Blocks(s, h), c.blockSize, s.head, h.items, h.done, x);
    TakenBlocks(c, s, h, x);
  }

  lemma TakenBlocks<T>(c: Config, s: State<T>, h: Past<T>, x: nat)
    requires c.blockSize > 0 && InRing(Blocks(s, h), c.blockSize, x)
    requires Has(c, s, BlockHolding(s, h, c.blockSize, x))
    ensures Blocks(Taken(c, s, BlockHolding(s, h, c.blockSize, x), x), h.(done := h.done + {x}))
         == Without(Blocks(s, h), c.blockSize, x)
  {
  }

  /** A consumer takes the next index. */
  lemma ClaimKeeps<T>(c: Config, s: State<T>, h: Past<T>)
    requires Inv(c, s, h) && s.head < s.tail
    ensures Inv(c, s.(head := s.head + 1), h)
    ensures s.head !in h.done
  {
  }

  /** The entries of the index that belong to the ring are the ring, in order from the block ahead of the tail to
      the tail block, with bases one block size apart, ending at the slot published. */
  lemma IndexIsRing<T>(c: Config, s: State<T>, h: Past<T>, j: nat)
    requires Inv(c, s, h) && j < s.used
    ensures s.tailBlock.At? && s.tailBlock.node in s.next && s.size > 0 && |s.entries| == s.size
    ensures s.entries[Turn(s.headerFront + 1 - s.used + j, s.size)]
         == Entry(Base(|h.blocks| - s.used + j, c.blockSize), Follow(s.next, s.next[s.tailBlock.node], j))
  {
    var ring := Blocks(s, h).ring;
    var q := |h.blocks| - s.used + j;
    RingFromTail(ring, s.next, s.tailBlock, j);
    assert ring[j] == h.blocks[q];
    IndexAt(s, h.span, h.blocks, c.blockSize, j);
  }

  lemma IndexAt<T>(s: State<T>, span: Span, blocks: seq<Node>, b: nat, j: nat)
    requires |s.entries| == s.size > 0 && CurrentOk(s.entries, span, blocks, s.used, b, s.front, s.headerFront)
    requires j < s.used && blocks != []
    ensures s.entries[Turn(s.headerFront + 1 - s.used + j, s.size)]
         == Entry(Base(|blocks| - s.used + j, b), blocks[|blocks| - s.used + j])
  {
    var q := |blocks| - s.used + j;
    TurnAgain(|blocks| - 1 - span.phase, 1 - s.used + j, s.size);
    assert Turn(s.headerFront + (1 - s.used + j), s.size) == Place(span, q, s.size);
    assert HasBlock(s.entries, span, q, blocks) && HasBase(s.entries, span, q, b);
  }
}
