/** The explicit producer: its blocks form a circular list that is reused in place, found by consumers through
    a circular index that is replaced by a larger one when it is full. */
module ExplicitProducer {
  import opened Pointers
  import opened Modular
  import Queue

  datatype Entry = Entry(base: nat, block: Node)

  /** An index that was replaced.  Nobody writes to it any more, but consumers may still be using it. */
  datatype Header = Header(entries: seq<Entry>)

  /** History of an index: it keeps block number `k` in slot `(k - phase) % size`; the blocks `lo .. limit`
      were put into it. */
  datatype Span = Span(phase: int, lo: nat, limit: nat)

  // ---------------------------------------------------------------------------------------------
  // One index
  // ---------------------------------------------------------------------------------------------

  ghost function Place(span: Span, k: int, size: nat): (p: nat)
    requires size > 0
    ensures p < size
  {
    Turn(k - span.phase, size)
  }

  /** Blocks are numbered in the order they were started; `live` is the oldest one still in the ring. */
  ghost predicate IndexOk(entries: seq<Entry>, span: Span, blocks: seq<Node>, live: nat, b: nat) {
    && |entries| > 0 && span.lo <= span.limit <= |blocks|
    && (forall k: nat :: span.lo <= k < span.limit && span.limit - |entries| <= k ==> HasBase(entries, span, k, b))
    && (forall q: nat :: live <= q < span.limit ==> HasBlock(entries, span, q, blocks))
  }

  ghost predicate HasBase(entries: seq<Entry>, span: Span, k: nat, b: nat)
    requires |entries| > 0
  {
    entries[Place(span, k, |entries|)].base == Base(k, b)
  }

  ghost predicate HasBlock(entries: seq<Entry>, span: Span, q: nat, blocks: seq<Node>)
    requires |entries| > 0 && q < |blocks|
  {
    && span.lo <= q && span.limit - |entries| <= q
    && entries[Place(span, q, |entries|)].block == blocks[q]
  }

  /** The slot a consumer computes for the block with base `base` from the front `f` it has loaded. */
  function SlotFromFront(entries: seq<Entry>, f: nat, base: int, b: nat): (p: nat)
    requires f < |entries| && b > 0
    ensures p < |entries|
  {
    (f + (base - entries[f].base) / b) % |entries|
  }

  /** The latest block that went into the same slot as block `k`. */
  lemma {:induction false} Latest(span: Span, k: nat, size: nat) returns (latest: nat)
    requires size > 0 && k < span.limit
    ensures k <= latest < span.limit && span.limit - size <= latest
    ensures Place(span, latest, size) == Place(span, k, size)
    decreases span.limit - k
  {
    if k < span.limit - size {
      latest := Latest(span, k + size, size);
      TurnShift(k + size - span.phase, size);
    } else {
      latest := k;
    }
  }

  lemma BlocksApart(p: nat, q: nat, b: nat)
    requires b > 0
    ensures (Base(q, b) - Base(p, b)) / b == q - p
  {
    BaseDifference(p, q, b);
    Quotient(Base(q, b) - Base(p, b), q - p, b);
  }

  lemma BaseDifference(p: nat, q: nat, b: nat)
    ensures Base(q, b) - Base(p, b) == (q - p) * b
  {
    BaseIsProduct(p, b);
    BaseIsProduct(q, b);
  }

  lemma Quotient(x: int, d: int, b: nat)
    requires b > 0 && x == d * b
    ensures x / b == d
  {
    DivExact(d, b);
  }

  /** Whatever front a consumer has loaded from an index, however long ago, it finds every live block that the
      index ever held. */
  lemma FrontLeadsToBlock(entries: seq<Entry>, span: Span, blocks: seq<Node>, live: nat, b: nat, k: nat, q: nat)
    requires IndexOk(entries, span, blocks, live, b) && b > 0
    requires span.lo <= k < span.limit && live <= q < span.limit
    ensures var f := Place(span, k, |entries|);
            entries[SlotFromFront(entries, f, Base(q, b), b)] == Entry(Base(q, b), blocks[q])
  {
    var size := |entries|;
    var latest := Latest(span, k, size);
    var f := Place(span, k, size);
    assert HasBase(entries, span, latest, b);
    assert HasBlock(entries, span, q, blocks) && HasBase(entries, span, q, b);
    BlocksApart(latest, q, b);
    TurnStep(latest - span.phase, q - latest, size);
    assert SlotFromFront(entries, f, Base(q, b), b) == Place(span, q, size);
  }

  /** Blocks started later, and blocks that left the ring, do not disturb an index. */
  lemma IndexStays(entries: seq<Entry>, span: Span, blocks: seq<Node>, live: nat, b: nat, more: seq<Node>, live': nat)
    requires IndexOk(entries, span, blocks, live, b) && live <= live'
    ensures IndexOk(entries, span, blocks + more, live', b)
  {
    forall q: nat | live' <= q < span.limit ensures HasBlock(entries, span, q, blocks + more) {
      assert HasBlock(entries, span, q, blocks);
    }
  }

  /** The next block goes into the next slot, where it overwrites none that is still in the ring. */
  lemma InsertKeepsIndex(entries: seq<Entry>, span: Span, blocks: seq<Node>, live: nat, b: nat, block: Node, live': nat)
    requires IndexOk(entries, span, blocks, live, b) && span.limit == |blocks|
    requires live <= live' && |blocks| + 1 - |entries| <= live' <= |blocks|
    ensures IndexOk(entries[Place(span, |blocks|, |entries|) := Entry(Base(|blocks|, b), block)],
                    span.(limit := |blocks| + 1), blocks + [block], live', b)
  {
    var size, n := |entries|, |blocks|;
    var after := entries[Place(span, n, size) := Entry(Base(n, b), block)];
    var span' := span.(limit := n + 1);
    forall k: nat | span.lo <= k <= n && n + 1 - size <= k ensures HasBase(after, span', k, b) {
      if k < n {
        assert HasBase(entries, span, k, b);
        TurnDistinct(k - span.phase, n - span.phase, size);
      }
    }
    forall q: nat | live' <= q <= n ensures HasBlock(after, span', q, blocks + [block]) {
      if q < n {
        assert HasBlock(entries, span, q, blocks);
        TurnDistinct(q - span.phase, n - span.phase, size);
      }
    }
  }

  /** An array twice as large, with the ring's entries in order from slot 0. */
  lemma GrowKeepsIndex(entries: seq<Entry>, span: Span, blocks: seq<Node>, used: nat, b: nat, larger: seq<Entry>)
    requires used <= |blocks| && used < |larger|
    requires |entries| > 0
    requires used > 0 ==> IndexOk(entries, span, blocks, |blocks| - used, b) && span.limit == |blocks|
    requires forall j :: 0 <= j < used ==> larger[j] == entries[Place(span, |blocks| - used + j, |entries|)]
    ensures IndexOk(larger, Span(|blocks| - used, |blocks| - used, |blocks|), blocks, |blocks| - used, b)
    ensures Place(Span(|blocks| - used, |blocks| - used, |blocks|), |blocks|, |larger|) == used
  {
    var first := |blocks| - used;
    var span' := Span(first, first, |blocks|);
    forall k: nat | first <= k < |blocks| ensures HasBase(larger, span', k, b) && HasBlock(larger, span', k, blocks) {
      assert Place(span', k, |larger|) == k - first;
      assert HasBlock(entries, span, k, blocks) && HasBase(entries, span, k, b);
    }
  }

  /** Front `f` of an index serves for all blocks below number `n`. */
  ghost predicate Serves(size: nat, span: Span, f: nat, n: nat) {
    size > 0 && n <= span.limit && exists k: nat :: span.lo <= k < span.limit && f == Place(span, k, size)
  }

  lemma ServesOn(size: nat, span: Span, limit: nat)
    requires span.limit <= limit
    ensures forall f: nat, n: nat :: Serves(size, span, f, n) ==> Serves(size, span.(limit := limit), f, n)
  {
    forall f: nat, n: nat | Serves(size, span, f, n) ensures Serves(size, span.(limit := limit), f, n) {
      var k: nat :| span.lo <= k < span.limit && f == Place(span, k, size);
      assert f == Place(span.(limit := limit), k, size);
    }
  }

  /** The index in use: `front` is the slot for the next block, `headerFront` that of the last one. */
  ghost predicate CurrentOk(entries: seq<Entry>, span: Span, blocks: seq<Node>, used: nat, b: nat, front: nat, headerFront: int) {
    && used <= |blocks| == span.limit && used <= |entries|
    && IndexOk(entries, span, blocks, |blocks| - used, b)
    && front == Place(span, |blocks|, |entries|)
    && (blocks != [] ==> headerFront == Place(span, |blocks| - 1, |entries|) && span.lo < |blocks|)
  }

  ghost predicate OlderOk(older: seq<Header>, spans: seq<Span>, blocks: seq<Node>, live: nat, b: nat) {
    && |spans| == |older|
    && forall h :: 0 <= h < |older| ==> IndexOk(older[h].entries, spans[h], blocks, live, b)
  }

  lemma OlderStays(older: seq<Header>, spans: seq<Span>, blocks: seq<Node>, live: nat, b: nat, block: Node, live': nat)
    requires OlderOk(older, spans, blocks, live, b) && live <= live'
    ensures OlderOk(older, spans, blocks + [block], live', b)
  {
    forall h | 0 <= h < |older| ensures IndexOk(older[h].entries, spans[h], blocks + [block], live', b) {
      IndexStays(older[h].entries, spans[h], blocks, live, b, [block], live');
    }
  }

  lemma ReplaceKeepsOlder(older: seq<Header>, spans: seq<Span>, blocks: seq<Node>, live: nat, b: nat,
                          entries: seq<Entry>, span: Span)
    requires OlderOk(older, spans, blocks, live, b) && IndexOk(entries, span, blocks, live, b)
    ensures OlderOk(older + [Header(entries)], spans + [span], blocks, live, b)
  {
  }

  lemma EmptyCurrent(larger: seq<Entry>, b: nat)
    requires |larger| > 0
    ensures CurrentOk(larger, Span(0, 0, 0), [], 0, b, 0, -1)
  {
  }

  /** The next block goes into the slot `front`, and `front` moves on by one. */
  lemma NextKeepsCurrent(entries: seq<Entry>, span: Span, blocks: seq<Node>, used: nat, b: nat, front: nat, headerFront: int,
                         block: Node, used': nat)
    requires CurrentOk(entries, span, blocks, used, b, front, headerFront)
    requires 0 < used' <= used + 1 && used' <= |entries|
    ensures CurrentOk(entries[front := Entry(Base(|blocks|, b), block)], span.(limit := |blocks| + 1), blocks + [block],
                      used', b, Turn(front + 1, |entries|), front)
  {
    InsertKeepsIndex(entries, span, blocks, |blocks| - used, b, block, |blocks| + 1 - used');
    TurnAgain(|blocks| - span.phase, 1, |entries|);
  }

  /** The entries of the ring, copied from where the oldest one is. */
  lemma CopyKeepsCurrent(entries: seq<Entry>, span: Span, blocks: seq<Node>, used: nat, b: nat, front: nat, headerFront: int,
                         larger: seq<Entry>)
    requires CurrentOk(entries, span, blocks, used, b, front, headerFront) && used < |larger|
    requires blocks != [] ==> used > 0
    requires forall p :: 0 <= p < used ==> larger[p] == entries[Turn(front - used + p, |entries|)]
    ensures CurrentOk(larger, Span(|blocks| - used, |blocks| - used, |blocks|), blocks, used, b, used, used - 1)
  {
    forall p | 0 <= p < used ensures larger[p] == entries[Place(span, |blocks| - used + p, |entries|)] {
      TurnAgain(|blocks| - span.phase, p - used, |entries|);
      assert larger[p] == entries[Turn(front - used + p, |entries|)];
    }
    GrowKeepsIndex(entries, span, blocks, used, b, larger);
  }

  // ---------------------------------------------------------------------------------------------
  // The ring
  // ---------------------------------------------------------------------------------------------

  /** The blocks of `ring` are linked in a circle, in order, with the tail block last. */
  ghost predicate RingOk(ring: seq<Node>, next: map<Node, Node>, tailBlock: Ptr) {
    && (tailBlock == if ring == [] then Null else At(ring[|ring| - 1]))
    && (forall p, q :: 0 <= p < q < |ring| ==> ring[p] != ring[q])
    && (forall n :: n in next <==> n in ring)
    && (forall p :: 0 <= p < |ring| - 1 ==> LeadsOn(ring, next, p))
    && (ring != [] ==> next[ring[|ring| - 1]] == ring[0])
  }

  ghost predicate LeadsOn(ring: seq<Node>, next: map<Node, Node>, p: nat)
    requires p + 1 < |ring|
  {
    ring[p] in next && next[ring[p]] == ring[p + 1]
  }

  /** Going on to the block ahead turns the ring by one. */
  lemma ReuseKeepsRing(ring: seq<Node>, next: map<Node, Node>, tailBlock: Ptr)
    requires RingOk(ring, next, tailBlock) && tailBlock.At?
    ensures tailBlock.node in next && next[tailBlock.node] == ring[0]
    ensures RingOk(ring[1..] + [ring[0]], next, At(ring[0]))
  {
    var turned := ring[1..] + [ring[0]];
    if |ring| > 1 { assert LeadsOn(ring, next, 0); }
    forall p | 0 <= p < |turned| - 1 ensures LeadsOn(turned, next, p) {
      if p + 2 < |ring| { assert LeadsOn(ring, next, p + 1); }
    }
  }

  /** Linking a new block in behind the tail. */
  function Linked(next: map<Node, Node>, tailBlock: Ptr, block: Node): map<Node, Node>
    requires tailBlock.At? ==> tailBlock.node in next
  {
    if tailBlock.Null? then next[block := block] else next[block := next[tailBlock.node]][tailBlock.node := block]
  }

  lemma LinkKeepsRing(ring: seq<Node>, next: map<Node, Node>, tailBlock: Ptr, block: Node)
    requires RingOk(ring, next, tailBlock) && block !in next
    ensures tailBlock.At? ==> tailBlock.node in next
    ensures RingOk(ring + [block], Linked(next, tailBlock, block), At(block))
  {
    var longer := ring + [block];
    forall p | 0 <= p < |longer| - 1 ensures LeadsOn(longer, Linked(next, tailBlock, block), p) {
      if p + 1 < |ring| { assert LeadsOn(ring, next, p); }
    }
  }

  /** Going `j` times to the next block. */
  function Follow(next: map<Node, Node>, block: Node, j: nat): Node
    decreases j
  {
    if j == 0 || block !in next then block else Follow(next, next[block], j - 1)
  }

  /** From the tail's next block on, following the links goes through the ring in order. */
  lemma {:induction false} RingInOrder(ring: seq<Node>, next: map<Node, Node>, tailBlock: Ptr, p: nat, j: nat)
    requires RingOk(ring, next, tailBlock) && p + j < |ring|
    ensures Follow(next, ring[p], j) == ring[p + j]
    decreases j
  {
    if j > 0 {
      assert LeadsOn(ring, next, p);
      RingInOrder(ring, next, tailBlock, p + 1, j - 1);
    }
  }

  lemma RingFromTail(ring: seq<Node>, next: map<Node, Node>, tailBlock: Ptr, j: nat)
    requires RingOk(ring, next, tailBlock) && j < |ring|
    ensures tailBlock.At? && tailBlock.node in next && Follow(next, next[tailBlock.node], j) == ring[j]
  {
    RingInOrder(ring, next, tailBlock, 0, j);
  }

  // ---------------------------------------------------------------------------------------------
  // The items
  // ---------------------------------------------------------------------------------------------

  /** The blocks of the ring; `first` is the number of the oldest one.  The flags of a block are kept from the
      last slot to the first. */
  datatype Store<T> = Store(
    ring: seq<Node>,
    first: nat,
    slots: map<Node, seq<Queue.Slot<T>>>,
    flags: map<Node, seq<bool>>)

  ghost predicate InRing<T>(m: Store<T>, b: nat, x: nat)
    requires b > 0
  {
    m.first <= Home(x, b) < m.first + |m.ring|
  }

  ghost function BlockOf<T>(m: Store<T>, b: nat, x: nat): Node
    requires b > 0 && InRing(m, b, x)
  {
    m.ring[Home(x, b) - m.first]
  }

  ghost predicate Sized<T>(m: Store<T>, b: nat, n: Node) {
    n in m.slots && n in m.flags && |m.slots[n]| == |m.flags[n]| == b
  }

  ghost predicate Held<T>(m: Store<T>, b: nat, x: nat, item: T)
    requires b > 0
  {
    InRing(m, b, x) && Sized(m, b, BlockOf(m, b, x)) && m.slots[BlockOf(m, b, x)][Turn(x, b)] == Queue.Full(item)
  }

  ghost predicate Flagged<T>(m: Store<T>, b: nat, x: nat)
    requires b > 0 && InRing(m, b, x)
  {
    Sized(m, b, BlockOf(m, b, x)) && m.flags[BlockOf(m, b, x)][b - 1 - Turn(x, b)]
  }

  /** `done` are the indices of items completely dequeued.  Every other item is in its slot, and the flags say
      which are done. */
  ghost predicate ItemsOk<T>(m: Store<T>, b: nat, head: nat, items: seq<T>, done: set<nat>) {
    && b > 0
    && head <= |items| && (forall x :: x in done ==> x < head)
    && (forall n :: n in m.ring ==> Sized(m, b, n))
    && (forall p, q :: 0 <= p < q < |m.ring| ==> m.ring[p] != m.ring[q])
    && (forall x: nat :: x < |items| && x !in done ==> Held(m, b, x, items[x]))
    && (forall x: nat :: InRing(m, b, x) ==> (Flagged(m, b, x) <==> x in done))
  }

  /** A block whose flags are all set holds nothing that is not completely dequeued. */
  lemma EmptyIsDone<T>(m: Store<T>, b: nat, head: nat, items: seq<T>, done: set<nat>)
    requires ItemsOk(m, b, head, items, done) && m.ring != []
    requires m.ring[0] in m.flags && |m.flags[m.ring[0]]| == b && forall j :: 0 <= j < b ==> m.flags[m.ring[0]][j]
    ensures forall x: nat :: Home(x, b) == m.first ==> x in done
  {
    forall x: nat | Home(x, b) == m.first ensures x in done {
      assert Flagged(m, b, x);
    }
  }

  /** And a block in which everything is completely dequeued has all its flags set. */
  lemma DoneIsEmpty<T>(m: Store<T>, b: nat, head: nat, items: seq<T>, done: set<nat>)
    requires ItemsOk(m, b, head, items, done) && m.ring != []
    requires m.ring[0] in m.flags && |m.flags[m.ring[0]]| == b
    requires forall x: nat :: Home(x, b) == m.first ==> x in done
    ensures forall j :: 0 <= j < b ==> m.flags[m.ring[0]][j]
  {
    forall j | 0 <= j < b ensures m.flags[m.ring[0]][j] {
      var x := SlotNumber(m.first, b - 1 - j, b);
      assert Flagged(m, b, x);
    }
  }

  /** The index of slot `k` of block `q`. */
  lemma SlotNumber(q: nat, k: nat, b: nat) returns (x: nat)
    requires k < b
    ensures Home(x, b) == q && Turn(x, b) == k
  {
    MulBounds(q, b);
    x := q * b + k;
    HomeIsQuotient(x, b);
    QuotientIs(x, q, b);
    TurnIsMod(x, b);
    ModTurns(k, q, b);
    ModSmall(k, b);
  }

  /** The blocks both rings have are the same; the new ring has one more at its end, with no flag set, and may
      lack the oldest one, if that is empty. */
  ghost predicate Started<T>(m: Store<T>, t: Store<T>, b: nat, done: set<nat>) {
    match t
    case Store(ring, first, slots, flags) =>
      && ring != [] && m.first <= first <= m.first + 1 && first <= m.first + |m.ring|
      && ring[..|ring| - 1] == m.ring[first - m.first..]
      && (first > m.first ==> forall x: nat :: b > 0 && Home(x, b) == m.first ==> x in done)
      && (forall p, q :: 0 <= p < q < |ring| ==> ring[p] != ring[q])
      && (var last := ring[|ring| - 1];
          && Sized(t, b, last) && (forall j :: 0 <= j < b ==> !flags[last][j])
          && forall n :: n in m.ring && n != last && Sized(m, b, n) ==>
               Sized(t, b, n) && slots[n] == m.slots[n] && flags[n] == m.flags[n])
  }

  lemma StartedBlock<T>(m: Store<T>, t: Store<T>, b: nat, done: set<nat>, x: nat)
    requires b > 0 && Started(m, t, b, done) && InRing(m, b, x) && InRing(t, b, x) && Sized(m, b, BlockOf(m, b, x))
    ensures BlockOf(t, b, x) == BlockOf(m, b, x) && Sized(t, b, BlockOf(t, b, x))
    ensures t.slots[BlockOf(t, b, x)] == m.slots[BlockOf(m, b, x)]
    ensures t.flags[BlockOf(t, b, x)] == m.flags[BlockOf(m, b, x)]
  {
    var q := Home(x, b);
    assert t.ring[..|t.ring| - 1][q - t.first] == m.ring[t.first - m.first..][q - t.first];
  }

  lemma StartKeepsFlag<T>(m: Store<T>, t: Store<T>, b: nat, done: set<nat>, x: nat)
    requires b > 0 && Started(m, t, b, done) && InRing(m, b, x) && InRing(t, b, x) && Sized(m, b, BlockOf(m, b, x))
    ensures Flagged(t, b, x) <==> Flagged(m, b, x)
  {
    StartedBlock(m, t, b, done, x);
  }

  lemma StartedLast<T>(m: Store<T>, t: Store<T>, b: nat, done: set<nat>, x: nat)
    requires b > 0 && Started(m, t, b, done) && InRing(t, b, x) && !InRing(m, b, x)
    ensures Home(x, b) == t.first + |t.ring| - 1 == m.first + |m.ring|
  {
    assert |t.ring[..|t.ring| - 1]| == |m.ring[t.first - m.first..]|;
  }

  lemma FreshFlag<T>(m: Store<T>, t: Store<T>, b: nat, done: set<nat>, x: nat)
    requires b > 0 && Started(m, t, b, done) && InRing(t, b, x) && Home(x, b) == t.first + |t.ring| - 1
    ensures !Flagged(t, b, x)
  {
    assert BlockOf(t, b, x) == t.ring[|t.ring| - 1];
  }

  lemma StartKeepsSizes<T>(m: Store<T>, t: Store<T>, b: nat, done: set<nat>)
    requires Started(m, t, b, done) && (forall n :: n in m.ring ==> Sized(m, b, n))
    ensures forall n :: n in t.ring ==> Sized(t, b, n)
  {
    forall n | n in t.ring ensures Sized(t, b, n) {
      if n != t.ring[|t.ring| - 1] { assert n in t.ring[..|t.ring| - 1]; }
    }
  }

  lemma StartKeepsHeld<T>(m: Store<T>, t: Store<T>, b: nat, done: set<nat>, x: nat, item: T)
    requires b > 0 && Started(m, t, b, done) && Held(m, b, x, item) && x !in done
    ensures Held(t, b, x, item)
  {
    assert InRing(t, b, x);
    StartedBlock(m, t, b, done, x);
  }

  lemma StartKeepsFlags<T>(m: Store<T>, t: Store<T>, b: nat, head: nat, items: seq<T>, done: set<nat>, x: nat)
    requires ItemsOk(m, b, head, items, done) && Started(m, t, b, done) && InRing(t, b, x)
    requires x < |items| ==> Home(x, b) < m.first + |m.ring|
    ensures Flagged(t, b, x) <==> x in done
  {
    if InRing(m, b, x) {
      assert Sized(m, b, BlockOf(m, b, x));
      StartKeepsFlag(m, t, b, done, x);
    } else {
      StartedLast(m, t, b, done, x);
      FreshFlag(m, t, b, done, x);
    }
  }

  /** No item lies beyond the ring. */
  ghost predicate Encloses<T>(m: Store<T>, b: nat, n: nat)
    requires b > 0
  {
    forall x: nat :: x < n ==> Home(x, b) < m.first + |m.ring|
  }

  lemma OccupiedEncloses<T>(m: Store<T>, b: nat, n: nat)
    requires b > 0 && m.first + |m.ring| == Occupied(n, b)
    ensures Encloses(m, b, n)
  {
    forall x: nat | x < n ensures Home(x, b) < m.first + |m.ring| { HomeMonotone(x, n - 1, b); }
  }

  lemma StartKeepsItems<T>(m: Store<T>, t: Store<T>, b: nat, head: nat, items: seq<T>, done: set<nat>)
    requires ItemsOk(m, b, head, items, done) && Started(m, t, b, done) && Encloses(m, b, |items|)
    ensures ItemsOk(t, b, head, items, done)
  {
    StartKeepsSizes(m, t, b, done);
    forall x: nat | x < |items| && x !in done ensures Held(t, b, x, items[x]) {
      assert Held(m, b, x, items[x]);
      StartKeepsHeld(m, t, b, done, x, items[x]);
    }
    forall x: nat | InRing(t, b, x) ensures Flagged(t, b, x) <==> x in done {
      StartKeepsFlags(m, t, b, head, items, done, x);
    }
  }

  lemma ReuseStarts<T>(m: Store<T>, t: Store<T>, b: nat, done: set<nat>)
    requires m.ring != [] && b > 0 && Sized(m, b, m.ring[0])
    requires forall x: nat :: Home(x, b) == m.first ==> x in done
    requires t.ring == m.ring[1..] + [m.ring[0]] && t.first == m.first + 1 && t.slots == m.slots
    requires t.flags == m.flags[m.ring[0] := seq(b, _ => false)]
    requires forall p, q :: 0 <= p < q < |t.ring| ==> t.ring[p] != t.ring[q]
    ensures Started(m, t, b, done)
  {
    assert t.ring[..|t.ring| - 1] == m.ring[1..];
  }

  /** The store after the oldest block was emptied, reset, and moved to the end. */
  lemma ReuseKeepsStore<T>(m: Store<T>, t: Store<T>, next: map<Node, Node>, tailBlock: Ptr,
                           b: nat, head: nat, items: seq<T>, done: set<nat>)
    requires RingOk(m.ring, next, tailBlock) && tailBlock.At? && ItemsOk(m, b, head, items, done)
    requires Encloses(m, b, |items|)
    requires m.ring[0] in m.flags && |m.flags[m.ring[0]]| == b && forall j :: 0 <= j < b ==> m.flags[m.ring[0]][j]
    requires t.ring == m.ring[1..] + [m.ring[0]] && t.first == m.first + 1 && t.slots == m.slots
    requires t.flags == m.flags[m.ring[0] := seq(b, _ => false)]
    ensures RingOk(t.ring, next, At(m.ring[0])) && ItemsOk(t, b, head, items, done)
  {
    ReuseKeepsRing(m.ring, next, tailBlock);
    assert Sized(m, b, m.ring[0]);
    EmptyIsDone(m, b, head, items, done);
    ReuseStarts(m, t, b, done);
    StartKeepsItems(m, t, b, head, items, done);
  }

  lemma LinkStarts<T>(m: Store<T>, t: Store<T>, block: Node, b: nat, done: set<nat>)
    requires b > 0 && block !in m.ring
    requires t.ring == m.ring + [block] && t.first == m.first
    requires t.slots == m.slots[block := seq(b, _ => Queue.Vacant)] && t.flags == m.flags[block := seq(b, _ => false)]
    requires forall p, q :: 0 <= p < q < |m.ring| ==> m.ring[p] != m.ring[q]
    ensures Started(m, t, b, done)
  {
    assert t.ring[..|t.ring| - 1] == m.ring;
  }

  /** The store after a new block was linked in at the end. */
  lemma LinkKeepsStore<T>(m: Store<T>, t: Store<T>, next: map<Node, Node>, tailBlock: Ptr, block: Node,
                          b: nat, head: nat, items: seq<T>, done: set<nat>)
    requires RingOk(m.ring, next, tailBlock) && ItemsOk(m, b, head, items, done) && block !in next
    requires Encloses(m, b, |items|)
    requires t.ring == m.ring + [block] && t.first == m.first
    requires t.slots == m.slots[block := seq(b, _ => Queue.Vacant)] && t.flags == m.flags[block := seq(b, _ => false)]
    ensures tailBlock.At? ==> tailBlock.node in next
    ensures RingOk(t.ring, Linked(next, tailBlock, block), At(block)) && ItemsOk(t, b, head, items, done)
  {
    LinkKeepsRing(m.ring, next, tailBlock, block);
    LinkStarts(m, t, block, b, done);
    StartKeepsItems(m, t, b, head, items, done);
  }

  /** Writing the next item. */
  lemma WriteKeepsItems<T>(m: Store<T>, b: nat, head: nat, items: seq<T>, done: set<nat>, item: T)
    requires ItemsOk(m, b, head, items, done) && InRing(m, b, |items|)
    ensures var n := BlockOf(m, b, |items|);
            && Sized(m, b, n)
            && ItemsOk(m.(slots := m.slots[n := m.slots[n][Turn(|items|, b) := Queue.Full(item)]]), b, head, items + [item], done)
  {
    var n := BlockOf(m, b, |items|);
    var t := m.(slots := m.slots[n := m.slots[n][Turn(|items|, b) := Queue.Full(item)]]);
    forall x: nat | x < |items + [item]| && x !in done ensures Held(t, b, x, (items + [item])[x]) {
      if x < |items| {
        assert Held(m, b, x, items[x]);
        if Home(x, b) == Home(|items|, b) { HomeTurnsDiffer(x, |items|, b); }
      }
    }
    forall x: nat | InRing(t, b, x) ensures Flagged(t, b, x) <==> x in done {
      assert Flagged(m, b, x) <==> x in done;
    }
  }

  /** The store after index `x` was moved out and its flag set. */
  ghost function Without<T>(m: Store<T>, b: nat, x: nat): Store<T>
    requires b > 0 && InRing(m, b, x) && Sized(m, b, BlockOf(m, b, x))
  {
    var n := BlockOf(m, b, x);
    m.(slots := m.slots[n := m.slots[n][Turn(x, b) := Queue.Vacant]],
       flags := m.flags[n := m.flags[n][b - 1 - Turn(x, b) := true]])
  }

  lemma TakeKeepsOther<T>(m: Store<T>, b: nat, x: nat, y: nat)
    requires b > 0 && InRing(m, b, x) && InRing(m, b, y) && (forall n :: n in m.ring ==> Sized(m, b, n))
    requires forall p, q :: 0 <= p < q < |m.ring| ==> m.ring[p] != m.ring[q]
    requires x != y
    ensures forall item :: Held(m, b, y, item) ==> Held(Without(m, b, x), b, y, item)
    ensures Flagged(Without(m, b, x), b, y) <==> Flagged(m, b, y)
  {
    if Home(y, b) == Home(x, b) { HomeTurnsDiffer(x, y, b); }
  }

  /** Moving an item out and setting its flag. */
  lemma TakeKeepsItems<T>(m: Store<T>, b: nat, head: nat, items: seq<T>, done: set<nat>, x: nat)
    requires ItemsOk(m, b, head, items, done) && x < head && x !in done
    ensures InRing(m, b, x) && Held(m, b, x, items[x]) && !Flagged(m, b, x)
    ensures ItemsOk(Without(m, b, x), b, head, items, done + {x})
  {
    assert Held(m, b, x, items[x]);
    var t := Without(m, b, x);
    forall y: nat | y < |items| && y !in done + {x} ensures Held(t, b, y, items[y]) {
      assert Held(m, b, y, items[y]);
      TakeKeepsOther(m, b, x, y);
    }
    forall y: nat | InRing(t, b, y) ensures Flagged(t, b, y) <==> y in done + {x} {
      if y != x {
        TakeKeepsOther(m, b, x, y);
        assert Flagged(m, b, y) <==> y in done;
      }
    }
  }
}
