/** The block index of one implicit producer: a circular array of pointers to shared entries, replaced by
    a larger one when it is full while consumers may still be using any earlier one.

    Blocks are numbered by their position in the sub-queue: block `q` holds the items with indices
    `[q * blockSize, (q + 1) * blockSize)`, and `q * blockSize` is its base.  The producer inserts, fills,
    rewinds and grows; consumers look blocks up and null the entries of blocks they emptied.  Each load or
    store of a field that both sides use is one step. */
module BlockIndex {
  import opened Pointers

  // Block sizes are even, so the number 1 is the base of no block.
  const INVALID_BLOCK_BASE: nat := 1

  datatype Entry = Entry(key: nat, value: Ptr)

  datatype Header = Header(capacity: nat, tail: nat, index: seq<nat>)

  /** The producer between and inside the insertions of one enqueue; `mine` are the blocks it has put into
      the index so far, not yet published. */
  datatype Producer =
    | Ready(mine: seq<Node>)
    | Keying(mine: seq<Node>, slot: nat)
    | Advancing(mine: seq<Node>, slot: nat)
    | Filling(mine: seq<Node>, slot: nat)
    | Rewinding(mine: seq<Node>, slot: nat)
    | Clearing(mine: seq<Node>, slot: nat)
    | Undoing(mine: seq<Node>, k: nat)
    | UndoRewinding(mine: seq<Node>, k: nat)

  /** A consumer looking up the blocks `q .. last`, one after the other, through the header `h` it loaded. */
  datatype Reader =
    | Resting
    | Want(q: nat, last: nat)
    | GotHeader(q: nat, last: nat, h: nat)
    | GotTail(q: nat, last: nat, h: nat, tail: nat)
    | GotSlot(q: nat, last: nat, h: nat, slot: nat)
    | Got(q: nat, last: nat, h: nat, slot: nat, value: Ptr)
    | Leaving(q: nat, last: nat, h: nat, slot: nat)

  /** `headers` are all headers ever published, the current one last.  Two fields record history: `blocks`
      is the memory of every block whose items consumers may ask for, in order, and `retired` collects the
      numbers of those whose entry a consumer has nulled. */
  datatype State = State(
    blockSize: nat,
    entries: seq<Entry>,
    headers: seq<Header>,
    nextCapacity: nat,
    blocks: seq<Node>,
    retired: set<nat>,
    producer: Producer,
    readers: seq<Reader>)

  function Current(s: State): nat
    requires s.headers != []
  {
    |s.headers| - 1
  }

  predicate HeaderShape(h: Header, entries: seq<Entry>) {
    && h.capacity > 0
    && |h.index| == h.capacity
    && h.tail < h.capacity
    && (forall p :: 0 <= p < |h.index| ==> h.index[p] < |entries|)
  }

  predicate ReaderShape(s: State, r: Reader) {
    match r
    case GotHeader(_, _, h) => h < |s.headers|
    case GotTail(_, _, h, t) => h < |s.headers| && t < s.headers[h].capacity
    case GotSlot(_, _, h, p) => h < |s.headers| && p < s.headers[h].capacity
    case Got(_, _, h, p, _) => h < |s.headers| && p < s.headers[h].capacity
    case Leaving(_, _, h, p) => h < |s.headers| && p < s.headers[h].capacity
    case Want(_, _) => s.headers != []
    case Resting => true
  }

  predicate ProducerShape(s: State) {
    match s.producer
    case Ready(_) => true
    case Undoing(f, k) => k < |f| ==> s.headers != []
    case UndoRewinding(f, k) => s.headers != []
    case _ => s.headers != [] && s.producer.slot < s.headers[Current(s)].capacity
  }

  predicate Shape(s: State) {
    && s.blockSize > 1
    && s.nextCapacity > 0
    && (forall h :: 0 <= h < |s.headers| ==> HeaderShape(s.headers[h], s.entries))
    && (s.headers != [] ==> s.nextCapacity == 2 * s.headers[Current(s)].capacity)
    && (forall i :: 0 <= i < |s.readers| ==> ReaderShape(s, s.readers[i]))
    && ProducerShape(s)
  }

  // ---------------------------------------------------------------------------------------------
  // The pieces of the program
  // ---------------------------------------------------------------------------------------------

  /** The array index reached from the tail's slot by the signed distance in blocks. */
  function SlotFromTail(h: Header, tail: nat, tailKey: nat, q: nat, blockSize: nat): nat
    requires h.capacity > 0 && blockSize > 0
  {
    (tail + (q * blockSize - tailKey) / blockSize) % h.capacity
  }

  /** The old entry pointers, oldest first. */
  function Unrolled(h: Header): (index: seq<nat>)
    requires h.capacity > 0 && |h.index| == h.capacity
    ensures |index| == h.capacity
  {
    seq(h.capacity, i requires 0 <= i < h.capacity => h.index[(h.tail + 1 + i) % h.capacity])
  }

  function PreviousCapacity(s: State): nat {
    if s.headers == [] then 0 else s.headers[Current(s)].capacity
  }

  /** How many entries a new header brings along. */
  function EntryCount(s: State): nat {
    if s.headers == [] then s.nextCapacity else PreviousCapacity(s)
  }

  /** The header `new_block_index` makes: the old entries, oldest first, and as many new ones behind them. */
  function NewHeader(s: State): Header
    requires Shape(s)
  {
    var prior := if s.headers == [] then [] else Unrolled(s.headers[Current(s)]);
    Header(s.nextCapacity,
           (PreviousCapacity(s) - 1) % s.nextCapacity,
           prior + seq(EntryCount(s), i => |s.entries| + i))
  }

  /** Publishing it; the values of the new entries are whatever the memory held. */
  function Grow(s: State, junk: seq<Ptr>): State
    requires Shape(s) && |junk| == EntryCount(s)
  {
    var added := seq(|junk|, i requires 0 <= i < |junk| => Entry(INVALID_BLOCK_BASE, junk[i]));
    s.(entries := s.entries + added,
       headers := s.headers + [NewHeader(s)],
       nextCapacity := 2 * s.nextCapacity)
  }

  function SetTail(s: State, tail: nat): State
    requires s.headers != []
  {
    s.(headers := s.headers[Current(s) := s.headers[Current(s)].(tail := tail)])
  }

  function SetKey(s: State, e: nat, key: nat): State
    requires e < |s.entries|
  {
    s.(entries := s.entries[e := s.entries[e].(key := key)])
  }

  function SetValue(s: State, e: nat, value: Ptr): State
    requires e < |s.entries|
  {
    s.(entries := s.entries[e := s.entries[e].(value := value)])
  }

  function BehindTail(h: Header): nat
    requires h.capacity > 0
  {
    (h.tail + 1) % h.capacity
  }

  function NextSlot(s: State): nat
    requires Shape(s) && s.headers != []
  {
    BehindTail(s.headers[Current(s)])
  }

  function Rewound(s: State): nat
    requires Shape(s) && s.headers != []
  {
    var h := s.headers[Current(s)];
    (h.tail - 1) % h.capacity
  }

  /** The slot the producer itself computes for block `q` when it undoes an insertion. */
  function OwnSlot(s: State, q: nat): nat
    requires Shape(s) && s.headers != []
  {
    var h := s.headers[Current(s)];
    SlotFromTail(h, h.tail, s.entries[h.index[h.tail]].key, q, s.blockSize)
  }

  // ---------------------------------------------------------------------------------------------
  // Steps
  // ---------------------------------------------------------------------------------------------

  /** What is open at a producer's step: whether the enqueue goes on, gives up (sub-queue full or no memory)
      or is complete; the memory a new index lands in; the block obtained. */
  datatype Choice = Insert | GiveUp | Commit | Build(junk: seq<Ptr>) | Obtain(block: Node)

  predicate ProducerEnabled(s: State, c: Choice) {
    && Shape(s)
    && match s.producer
       case Ready(_) => c.Insert? || c.GiveUp? || c.Commit? || (c.Build? && |c.junk| == EntryCount(s))
       case Filling(_, _) => c.GiveUp? || c.Obtain?
       case _ => c.Insert?
  }

  function ProducerAfter(s: State, c: Choice): State
    requires ProducerEnabled(s, c)
  {
    match s.producer
    case Ready(f) =>
      if c.Commit? then s.(blocks := s.blocks + f, producer := Ready([]))
      else if c.GiveUp? || s.headers == [] then s.(producer := Undoing(f, 0))
      else
        var entry := s.entries[s.headers[Current(s)].index[NextSlot(s)]];
        if entry.key == INVALID_BLOCK_BASE || entry.value == Null then s.(producer := Keying(f, NextSlot(s)))
        else if c.Build? then Grow(s, c.junk).(producer := Keying(f, BehindTail(NewHeader(s))))
        else s.(producer := Undoing(f, 0))
    case Keying(f, p) =>
      SetKey(s, s.headers[Current(s)].index[p], (|s.blocks| + |f|) * s.blockSize).(producer := Advancing(f, p))
    case Advancing(f, p) => SetTail(s, p).(producer := Filling(f, p))
    case Filling(f, p) =>
      if c.Obtain? then
        SetValue(s, s.headers[Current(s)].index[p], At(c.block)).(producer := Ready(f + [c.block]))
      else s.(producer := Rewinding(f, p))
    case Rewinding(f, p) => SetTail(s, Rewound(s)).(producer := Clearing(f, p))
    case Clearing(f, p) =>
      SetValue(s, s.headers[Current(s)].index[p], Null).(producer := Undoing(f, 0))
    case Undoing(f, k) =>
      if k < |f| then
        SetValue(s, s.headers[Current(s)].index[OwnSlot(s, |s.blocks| + k)], Null).(producer := UndoRewinding(f, k))
      else s.(producer := Ready([]))
    case UndoRewinding(f, k) => SetTail(s, Rewound(s)).(producer := Undoing(f, k + 1))
  }

  /** The blocks a consumer is still going to use. */
  predicate Uses(r: Reader, q: nat) {
    match r
    case Resting => false
    case Leaving(from, last, _, _) => from < q <= last
    case _ => r.q <= q <= r.last
  }

  /** A consumer starts with blocks that hold items it claimed; having a block, it may null its entry, which
      it does only when no other consumer uses the block; then it leaves the block. */
  datatype Use = Begin(q: nat, last: nat) | Proceed | Retire

  predicate ReaderEnabled(s: State, i: nat, u: Use) {
    && Shape(s)
    && i < |s.readers|
    && match s.readers[i]
       case Resting =>
         && u.Begin? && u.q <= u.last < |s.blocks| && s.headers != []
         && (forall q :: u.q <= q <= u.last ==> q !in s.retired)
       case Got(q, _, _, _, _) =>
         u.Proceed? || (u.Retire? && forall j :: 0 <= j < |s.readers| && j != i ==> !Uses(s.readers[j], q))
       case _ => u.Proceed?
  }

  function SetReader(s: State, i: nat, r: Reader): State
    requires i < |s.readers|
  {
    s.(readers := s.readers[i := r])
  }

  function ReaderAfter(s: State, i: nat, u: Use): State
    requires ReaderEnabled(s, i, u)
  {
    match s.readers[i]
    case Resting => SetReader(s, i, Want(u.q, u.last))
    case Want(q, last) => SetReader(s, i, GotHeader(q, last, Current(s)))
    case GotHeader(q, last, h) => SetReader(s, i, GotTail(q, last, h, s.headers[h].tail))
    case GotTail(q, last, h, t) =>
      var key := s.entries[s.headers[h].index[t]].key;
      SetReader(s, i, GotSlot(q, last, h, SlotFromTail(s.headers[h], t, key, q, s.blockSize)))
    case GotSlot(q, last, h, p) =>
      SetReader(s, i, Got(q, last, h, p, s.entries[s.headers[h].index[p]].value))
    case Got(q, last, h, p, v) =>
      var t := SetReader(s, i, Leaving(q, last, h, p));
      if u.Retire? then SetValue(t, s.headers[h].index[p], Null).(retired := s.retired + {q}) else t
    case Leaving(q, last, h, p) =>
      if q < last then SetReader(s, i, GotSlot(q + 1, last, h, (p + 1) % s.headers[h].capacity))
      else SetReader(s, i, Resting)
  }

  datatype Action = Produce(c: Choice) | Consume(i: nat, u: Use)

  predicate Enabled(s: State, a: Action) {
    match a
    case Produce(c) => ProducerEnabled(s, c)
    case Consume(i, u) => ReaderEnabled(s, i, u)
  }

  function After(s: State, a: Action): State
    requires Enabled(s, a)
  {
    match a
    case Produce(c) => ProducerAfter(s, c)
    case Consume(i, u) => ReaderAfter(s, i, u)
  }

  predicate Empty(s: State) {
    && s.blockSize > 1
    && s.nextCapacity > 0
    && s.entries == [] && s.headers == []
    && s.blocks == []
    && s.retired == {}
    && s.producer == Ready([])
    && (forall i :: 0 <= i < |s.readers| ==> s.readers[i] == Resting)
  }

  /** The constructor calls `new_block_index`, which may fail and leave no header at all. */
  ghost predicate Init(s: State) {
    || Empty(s)
    || exists e, junk :: Empty(e) && |junk| == e.nextCapacity && s == Grow(e, junk)
  }

  ghost predicate Run(r: seq<State>, acts: seq<Action>) {
    && |r| == |acts| + 1
    && Init(r[0])
    && (forall k :: 0 <= k < |acts| ==> Enabled(r[k], acts[k]) && r[k + 1] == After(r[k], acts[k]))
  }
}
