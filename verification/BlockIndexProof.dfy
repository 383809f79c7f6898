/** Looking a block up through any header, however old, finds the block: for every interleaving of
    insertion, growth, rewinding and consumers nulling entries. */
module BlockIndexProof {
  import opened Pointers
  import opened Modular
  import opened BlockIndex

  // ---------------------------------------------------------------------------------------------
  // The invariant
  // ---------------------------------------------------------------------------------------------

  /** History the program does not store.  Header `h` keeps block `q` in slot `(q - phase[h]) % capacity`;
      `limit[h]` is the number of blocks inserted when a larger header replaced it.  In the current header
      the keys of the blocks `lo .. keyed` are in place, as far as they have not been overwritten. */
  datatype Aux = Aux(phase: seq<int>, limit: seq<nat>, lo: int, keyed: int)

  ghost predicate Sized(s: State, a: Aux) {
    && Shape(s)
    && |a.phase| == |a.limit| == |s.headers|
  }

  ghost function Capacity(s: State, h: nat): (c: nat)
    requires Shape(s) && h < |s.headers|
    ensures c > 0
  {
    s.headers[h].capacity
  }

  ghost function Slot(s: State, a: Aux, h: nat, q: int): (p: nat)
    requires Sized(s, a) && h < |s.headers|
    ensures p < s.headers[h].capacity
  {
    Turn(q - a.phase[h], s.headers[h].capacity)
  }

  /** The entry that an array and its phase assign to block `q`. */
  ghost function Place(index: seq<nat>, phase: int, q: int): nat
    requires |index| > 0
  {
    index[Turn(q - phase, |index|)]
  }

  ghost function EntryAt(s: State, a: Aux, h: nat, q: int): (e: nat)
    requires Sized(s, a) && h < |s.headers|
    ensures e < |s.entries|
  {
    Place(s.headers[h].index, a.phase[h], q)
  }

  /** What the entry of a block must hold: the block's memory, null, or anything while it is being filled. */
  datatype Content = Holds(block: Node) | Cleared | Unset

  function Midway(p: Producer): bool {
    p.Advancing? || p.Filling? || p.Rewinding? || p.Clearing?
  }

  /** How many of its own blocks a failing enqueue has taken out of the index again. */
  function Undone(p: Producer): nat {
    match p
    case Undoing(_, k) => k
    case UndoRewinding(_, k) => k + 1
    case _ => 0
  }

  ghost function ContentOf(s: State, q: int): Content
  {
    if q < 0 then Cleared
    else if q < |s.blocks| then (if (q as nat) in s.retired then Cleared else Holds(s.blocks[q]))
    else
      var j: nat := q - |s.blocks|;
      if j < |s.producer.mine| then (if j < Undone(s.producer) then Cleared else Holds(s.producer.mine[j]))
      else if j == |s.producer.mine| && Midway(s.producer) then Unset
      else Cleared
  }

  /** How many blocks the tail of the current header accounts for. */
  function Inserted(s: State): int {
    var all := |s.blocks| + |s.producer.mine|;
    match s.producer
    case Filling(_, _) => all + 1
    case Rewinding(_, _) => all + 1
    case Undoing(_, k) => all - k
    case UndoRewinding(_, k) => all - k
    case _ => all
  }

  ghost predicate Fits(value: Ptr, c: Content) {
    match c
    case Holds(b) => value == At(b)
    case Cleared => value == Null
    case Unset => true
  }

  /** The key of block `q` is in the current header. */
  ghost predicate InWindow(s: State, a: Aux, q: int)
    requires Shape(s) && s.headers != []
  {
    a.lo <= q && a.keyed - Capacity(s, Current(s)) <= q < a.keyed
  }

  ghost predicate EntryOk(s: State, a: Aux, q: int)
    requires Sized(s, a) && s.headers != []
  {
    var e := s.entries[EntryAt(s, a, Current(s), q)];
    if q < a.lo then e.key == INVALID_BLOCK_BASE
    else e.key == q * s.blockSize && Fits(e.value, ContentOf(s, q))
  }

  ghost predicate RingOk(s: State, a: Aux)
    requires Sized(s, a) && s.headers != []
  {
    && s.headers[Current(s)].tail == Slot(s, a, Current(s), Inserted(s) - 1)
    && a.lo <= |s.blocks|
    && (forall q :: a.keyed - Capacity(s, Current(s)) <= q < a.keyed ==> EntryOk(s, a, q))
    && (forall q: int :: ContentOf(s, q).Holds? ==> InWindow(s, a, q))
    && a.keyed - Capacity(s, Current(s)) <= |s.blocks|
    && |s.blocks| + |s.producer.mine| <= a.keyed
  }

  ghost predicate Distinct(index: seq<nat>) {
    forall p, r :: 0 <= p < r < |index| ==> index[p] != index[r]
  }

  /** A key in slot `p` is the base of a block that belongs there. */
  ghost predicate KeyOk(s: State, a: Aux, h: nat, p: nat)
    requires Sized(s, a) && h < |s.headers| && p < |s.headers[h].index|
  {
    var key := s.entries[s.headers[h].index[p]].key;
    key != INVALID_BLOCK_BASE ==> key == (key / s.blockSize) * s.blockSize && Slot(s, a, h, key / s.blockSize) == p
  }

  ghost predicate Multiple(m: nat, c: nat) {
    exists k: nat :: k > 0 && m == k * c
  }

  /** An entry that both a replaced header and the current one point to is in corresponding slots. */
  ghost predicate Shared(s: State, a: Aux, h: nat, p: nat, r: nat)
    requires Sized(s, a) && h < |s.headers| && p < |s.headers[h].index| && r < |s.headers[Current(s)].index|
  {
    s.headers[h].index[p] == s.headers[Current(s)].index[r] ==>
      (p + a.phase[h]) % Capacity(s, h) == (r + a.phase[Current(s)]) % Capacity(s, h)
  }

  /** Block `q` may still be looked up, or inserted (again). */
  ghost predicate Relevant(s: State, q: int) {
    0 <= q && (q >= |s.blocks| || q !in s.retired)
  }

  ghost predicate ReplacedOk(s: State, a: Aux, h: nat)
    requires Sized(s, a) && h < |s.headers|
  {
    && a.limit[h] <= a.keyed
    && Multiple(Capacity(s, Current(s)), Capacity(s, h))
    && (forall p :: 0 <= p < |s.headers[h].index| ==> s.entries[s.headers[h].index[p]].key != INVALID_BLOCK_BASE)
    && (forall p, r :: 0 <= p < |s.headers[h].index| && 0 <= r < |s.headers[Current(s)].index| ==> Shared(s, a, h, p, r))
    && (forall q :: Relevant(s, q) && q < a.limit[h] ==> EntryAt(s, a, h, q) == EntryAt(s, a, Current(s), q))
  }

  ghost predicate ProducerOk(s: State, a: Aux)
    requires Sized(s, a) && s.headers != []
  {
    var q := |s.blocks| + |s.producer.mine|;
    match s.producer
    case Ready(_) => true
    case Keying(_, p) =>
      && p == Slot(s, a, Current(s), q)
      && (q == a.keyed ==> !ContentOf(s, a.keyed - Capacity(s, Current(s))).Holds?)
    case Undoing(f, k) => k <= |f|
    case UndoRewinding(f, k) => k < |f|
    case _ => s.producer.slot == Slot(s, a, Current(s), q) && q < a.keyed
  }

  ghost predicate ReaderOk(s: State, a: Aux, r: Reader)
    requires Sized(s, a)
  {
    && (forall q: nat :: Uses(r, q) ==> q < |s.blocks| && q !in s.retired)
    && ReaderShape(s, r)
    && (match r
        case Resting => true
        case Want(_, _) => true
        case _ => r.h < Current(s) ==> r.last < a.limit[r.h])
    && (match r
        case GotTail(_, _, h, t) => s.entries[s.headers[h].index[t]].key != INVALID_BLOCK_BASE
        case GotSlot(q, _, h, p) => p == Slot(s, a, h, q)
        case Got(q, _, h, p, v) => p == Slot(s, a, h, q) && q < |s.blocks| && v == At(s.blocks[q])
        case Leaving(q, _, h, p) => p == Slot(s, a, h, q)
        case _ => true)
    && (r.Resting? || r.q <= r.last < |s.blocks|)
  }

  /** Before the first header there is nothing to look up. */
  ghost predicate Bare(s: State) {
    && s.blocks == []
    && (s.producer == Ready([]) || s.producer == Undoing([], 0))
    && (forall i :: 0 <= i < |s.readers| ==> s.readers[i].Resting?)
  }

  ghost predicate HeadersOk(s: State, a: Aux)
    requires Sized(s, a)
  {
    && (forall h :: 0 <= h < |s.headers| ==> Distinct(s.headers[h].index))
    && (forall h, p :: 0 <= h < |s.headers| && 0 <= p < |s.headers[h].index| ==> KeyOk(s, a, h, p))
    && (forall h :: 0 <= h < |s.headers| - 1 ==> ReplacedOk(s, a, h))
  }

  ghost predicate InvWith(s: State, a: Aux) {
    && Sized(s, a)
    && (forall q :: q in s.retired ==> q < |s.blocks|)
    && (s.headers == [] ==> Bare(s))
    && (s.headers != [] ==> RingOk(s, a) && HeadersOk(s, a) && ProducerOk(s, a))
    && (forall i :: 0 <= i < |s.readers| ==> ReaderOk(s, a, s.readers[i]))
  }

  ghost predicate Inv(s: State) {
    exists a :: InvWith(s, a)
  }

  // ---------------------------------------------------------------------------------------------
  // Slots
  // ---------------------------------------------------------------------------------------------

  lemma SlotsDiffer(s: State, a: Aux, h: nat, q: int, r: int)
    requires Sized(s, a) && h < |s.headers| && Distinct(s.headers[h].index)
    requires q < r < q + Capacity(s, h)
    ensures Slot(s, a, h, q) != Slot(s, a, h, r)
    ensures EntryAt(s, a, h, q) != EntryAt(s, a, h, r)
  {
    TurnDistinct(q - a.phase[h], r - a.phase[h], Capacity(s, h));
  }

  lemma SlotStep(s: State, a: Aux, h: nat, q: int, d: int)
    requires Sized(s, a) && h < |s.headers|
    ensures (Slot(s, a, h, q) + d) % Capacity(s, h) == Slot(s, a, h, q + d)
  {
    TurnStep(q - a.phase[h], d, Capacity(s, h));
    assert q - a.phase[h] + d == q + d - a.phase[h];
  }

  /** The computation every lookup performs: from a slot and the key found there, the slot of block `q`. */
  lemma LookupSlot(s: State, a: Aux, h: nat, tail: nat, q: nat)
    requires Sized(s, a) && h < |s.headers| && tail < |s.headers[h].index| && KeyOk(s, a, h, tail)
    requires s.entries[s.headers[h].index[tail]].key != INVALID_BLOCK_BASE
    ensures SlotFromTail(s.headers[h], tail, s.entries[s.headers[h].index[tail]].key, q, s.blockSize)
            == Slot(s, a, h, q)
  {
    var key := s.entries[s.headers[h].index[tail]].key;
    var k := key / s.blockSize;
    assert q * s.blockSize - k * s.blockSize == (q - k) * s.blockSize;
    DivExact(q - k, s.blockSize);
    SlotStep(s, a, h, k, q - k);
  }

  // ---------------------------------------------------------------------------------------------
  // Steps that store no key and publish no header
  // ---------------------------------------------------------------------------------------------

  /** Headers keep their arrays; only the current tail may move. */
  ghost predicate SameArrays(s: State, t: State) {
    && t.blockSize == s.blockSize && t.nextCapacity == s.nextCapacity
    && |t.headers| == |s.headers|
    && (forall h :: 0 <= h < |s.headers| ==>
          t.headers[h].index == s.headers[h].index && t.headers[h].capacity == s.headers[h].capacity)
  }

  /** The step changes at most the value of the entry of block `q0`, to what `q0` must now hold. */
  ghost predicate ValueStep(s: State, t: State, a: Aux, b: Aux, q0: int)
    requires Sized(s, a) && s.headers != []
  {
    && SameArrays(s, t) && Sized(t, b)
    && b.phase == a.phase && b.limit == a.limit && b.lo == a.lo && b.keyed == a.keyed
    && |t.entries| == |s.entries|
    && (forall e :: 0 <= e < |s.entries| ==> t.entries[e].key == s.entries[e].key)
    && (|| (t.entries == s.entries && ContentOf(t, q0) == ContentOf(s, q0))
        || (&& InWindow(s, a, q0)
            && Fits(t.entries[EntryAt(s, a, Current(s), q0)].value, ContentOf(t, q0))
            && (forall e :: 0 <= e < |s.entries| && e != EntryAt(s, a, Current(s), q0) ==> t.entries[e] == s.entries[e])))
    && (forall q :: q != q0 ==> ContentOf(t, q) == ContentOf(s, q))
  }

  lemma ValueKeepsRing(s: State, t: State, a: Aux, b: Aux, q0: int)
    requires Sized(s, a) && s.headers != [] && RingOk(s, a) && Distinct(s.headers[Current(s)].index)
    requires ValueStep(s, t, a, b, q0)
    requires t.headers[Current(t)].tail == Slot(t, b, Current(t), Inserted(t) - 1)
    requires s.blocks <= t.blocks && |t.blocks| + |t.producer.mine| <= a.keyed
    ensures RingOk(t, b)
  {
    var c := Current(s);
    forall q | b.keyed - Capacity(t, c) <= q < b.keyed ensures EntryOk(t, b, q) {
      assert EntryOk(s, a, q);
      assert EntryAt(t, b, c, q) == EntryAt(s, a, c, q);
      if q < q0 < a.keyed { SlotsDiffer(s, a, c, q, q0); }
      if a.keyed - Capacity(s, c) <= q0 < q { SlotsDiffer(s, a, c, q0, q); }
    }
    forall q: int | ContentOf(t, q).Holds? ensures InWindow(t, b, q) {
      assert ContentOf(s, q).Holds? ==> InWindow(s, a, q);
    }
  }

  lemma ValueKeepsHeaders(s: State, t: State, a: Aux, b: Aux, q0: int)
    requires Sized(s, a) && s.headers != [] && HeadersOk(s, a)
    requires ValueStep(s, t, a, b, q0)
    requires forall q :: Relevant(t, q) ==> Relevant(s, q)
    ensures HeadersOk(t, b)
  {
    var c := Current(s);
    forall h, p | 0 <= h < |t.headers| && 0 <= p < |t.headers[h].index| ensures KeyOk(t, b, h, p) {
      assert KeyOk(s, a, h, p);
    }
    forall h | 0 <= h < |t.headers| - 1 ensures ReplacedOk(t, b, h) {
      assert ReplacedOk(s, a, h);
      forall p, r | 0 <= p < |t.headers[h].index| && 0 <= r < |t.headers[c].index| ensures Shared(t, b, h, p, r) {
        assert Shared(s, a, h, p, r);
      }
      forall q | Relevant(t, q) && q < b.limit[h] ensures EntryAt(t, b, h, q) == EntryAt(t, b, c, q) {
        assert EntryAt(s, a, h, q) == EntryAt(s, a, c, q);
      }
    }
  }

  lemma ReadersKeep(s: State, t: State, a: Aux, b: Aux)
    requires Sized(s, a) && Sized(t, b) && SameArrays(s, t) && t.readers == s.readers
    requires t.retired == s.retired && s.blocks <= t.blocks
    requires b.phase == a.phase && b.limit == a.limit
    requires |t.entries| == |s.entries|
    requires forall e :: 0 <= e < |s.entries| && s.entries[e].key != INVALID_BLOCK_BASE ==>
               t.entries[e].key != INVALID_BLOCK_BASE
    requires forall i :: 0 <= i < |s.readers| ==> ReaderOk(s, a, s.readers[i])
    ensures forall i :: 0 <= i < |t.readers| ==> ReaderOk(t, b, t.readers[i])
  {
    forall i | 0 <= i < |t.readers| ensures ReaderOk(t, b, t.readers[i]) {
      assert ReaderOk(s, a, s.readers[i]);
    }
  }

  /** A producer's step other than storing a key, growing, or finding no header. */
  lemma ProducerKeeps(s: State, t: State, a: Aux, b: Aux, q0: int)
    requires InvWith(s, a) && s.headers != []
    requires ValueStep(s, t, a, b, q0)
    requires t.readers == s.readers && t.retired == s.retired
    requires s.blocks <= t.blocks
    requires t.headers[Current(t)].tail == Slot(t, b, Current(t), Inserted(t) - 1)
    requires |t.blocks| + |t.producer.mine| <= a.keyed
    requires ProducerOk(t, b)
    ensures Inv(t)
  {
    ValueKeepsRing(s, t, a, b, q0);
    ValueKeepsHeaders(s, t, a, b, q0);
    ReadersKeep(s, t, a, b);
    assert InvWith(t, b);
  }

  // ---------------------------------------------------------------------------------------------
  // The producer's steps
  // ---------------------------------------------------------------------------------------------

  lemma CommitKeeps(s: State, t: State, a: Aux, c: Choice)
    requires InvWith(s, a) && s.headers != [] && ProducerEnabled(s, c) && s.producer.Ready? && c.Commit?
    requires t == ProducerAfter(s, c)
    ensures Inv(t)
  {
    ProducerKeeps(s, t, a, a, -1);
  }

  /** The producer moves without touching the index. */
  lemma MoveKeeps(s: State, t: State, a: Aux)
    requires InvWith(s, a) && s.headers != []
    requires t == s.(producer := t.producer) && ProducerShape(t)
    requires t.producer.mine == s.producer.mine || (t.producer.mine == [] && Undone(s.producer) == |s.producer.mine|)
    requires !Midway(t.producer) && !Midway(s.producer)
    requires t.producer.mine == s.producer.mine ==> Undone(t.producer) == Undone(s.producer)
    requires Inserted(t) == Inserted(s)
    requires ProducerOk(t, a)
    ensures Inv(t)
  {
    ProducerKeeps(s, t, a, a, -1);
  }

  /** The slot behind the tail may take the next block: it was never used or its block has retired. */
  lemma NextSlotIsFree(s: State, a: Aux)
    requires InvWith(s, a) && s.headers != [] && s.producer.Ready?
    ensures NextSlot(s) == Slot(s, a, Current(s), Inserted(s))
    ensures Inserted(s) == a.keyed ==>
              EntryOk(s, a, a.keyed - Capacity(s, Current(s)))
              && EntryAt(s, a, Current(s), a.keyed - Capacity(s, Current(s))) == s.headers[Current(s)].index[NextSlot(s)]
    ensures Inserted(s) < a.keyed ==> s.entries[s.headers[Current(s)].index[NextSlot(s)]].value == Null
  {
    var q, cur := Inserted(s), Current(s);
    SlotStep(s, a, cur, q - 1, 1);
    TurnShift(q - a.phase[cur], Capacity(s, cur));
    if q < a.keyed {
      assert EntryOk(s, a, q);
    }
  }

  lemma DecideKeeps(s: State, t: State, a: Aux, c: Choice)
    requires InvWith(s, a) && s.headers != [] && ProducerEnabled(s, c) && s.producer.Ready? && !c.Commit?
    requires t == ProducerAfter(s, c) && |t.headers| == |s.headers|
    ensures Inv(t)
  {
    NextSlotIsFree(s, a);
    if t.producer.Keying? {
      if Inserted(s) == a.keyed {
        var q := a.keyed - Capacity(s, Current(s));
        BaseIsValid(q, s.blockSize);
        assert ContentOf(t, q) == ContentOf(s, q);
      }
    }
    MoveKeeps(s, t, a);
  }

  lemma BaseIsValid(q: int, b: nat)
    requires b > 1
    ensures q * b != INVALID_BLOCK_BASE
  {
    MulBounds(q, b);
  }

  lemma AdvanceKeeps(s: State, t: State, a: Aux, c: Choice)
    requires InvWith(s, a) && s.headers != [] && ProducerEnabled(s, c) && s.producer.Advancing?
    requires t == ProducerAfter(s, c)
    ensures Inv(t)
  {
    ProducerKeeps(s, t, a, a, -1);
  }

  lemma FillKeeps(s: State, t: State, a: Aux, c: Choice)
    requires InvWith(s, a) && s.headers != [] && ProducerEnabled(s, c) && s.producer.Filling?
    requires t == ProducerAfter(s, c)
    ensures Inv(t)
  {
    var q := |s.blocks| + |s.producer.mine|;
    ProducerKeeps(s, t, a, a, q);
  }

  lemma RewindKeeps(s: State, t: State, a: Aux, c: Choice)
    requires InvWith(s, a) && s.headers != [] && ProducerEnabled(s, c)
    requires s.producer.Rewinding? || s.producer.UndoRewinding?
    requires t == ProducerAfter(s, c)
    ensures Inv(t)
  {
    SlotStep(s, a, Current(s), Inserted(s) - 1, -1);
    ProducerKeeps(s, t, a, a, -1);
  }

  lemma ClearKeeps(s: State, t: State, a: Aux, c: Choice)
    requires InvWith(s, a) && s.headers != [] && ProducerEnabled(s, c) && s.producer.Clearing?
    requires t == ProducerAfter(s, c)
    ensures Inv(t)
  {
    var q := |s.blocks| + |s.producer.mine|;
    ProducerKeeps(s, t, a, a, q);
  }

  lemma UndoKeeps(s: State, t: State, a: Aux, c: Choice)
    requires InvWith(s, a) && s.headers != [] && ProducerEnabled(s, c) && s.producer.Undoing?
    requires t == ProducerAfter(s, c)
    ensures Inv(t)
  {
    var f, k := s.producer.mine, s.producer.k;
    if k < |f| {
      UndoLookup(s, a);
      UndoOneKeeps(s, t, a, |s.blocks| + k);
    } else {
      MoveKeeps(s, t, a);
    }
  }

  lemma UndoOneKeeps(s: State, t: State, a: Aux, q: nat)
    requires InvWith(s, a) && s.headers != [] && s.producer.Undoing? && s.producer.k < |s.producer.mine|
    requires q == |s.blocks| + s.producer.k && InWindow(s, a, q)
    requires t == SetValue(s, EntryAt(s, a, Current(s), q), Null).(producer := UndoRewinding(s.producer.mine, s.producer.k))
    ensures Inv(t)
  {
    ProducerKeeps(s, t, a, a, q);
  }

  /** The producer's own lookup while it undoes, with the tail already partly rewound. */
  lemma UndoLookup(s: State, a: Aux)
    requires InvWith(s, a) && s.headers != [] && s.producer.Undoing? && s.producer.k < |s.producer.mine|
    ensures var q := |s.blocks| + s.producer.k;
            && InWindow(s, a, q) && ContentOf(s, q) == Holds(s.producer.mine[s.producer.k])
            && OwnSlot(s, q) == Slot(s, a, Current(s), q)
  {
    var cur := Current(s);
    var q := |s.blocks| + s.producer.k;
    var last := Inserted(s) - 1;
    assert InWindow(s, a, last) && InWindow(s, a, q);
    assert EntryOk(s, a, last);
    assert KeyOk(s, a, cur, s.headers[cur].tail);
    BaseIsValid(last, s.blockSize);
    LookupSlot(s, a, cur, s.headers[cur].tail, q);
  }

  // ---------------------------------------------------------------------------------------------
  // Storing a key
  // ---------------------------------------------------------------------------------------------

  /** An entry that a replaced header points to sits there where its next block belongs. */
  lemma SharedSlot(s: State, a: Aux, h: nat, p: nat, q: int)
    requires Sized(s, a) && h < |s.headers| && p < |s.headers[h].index|
    requires Multiple(Capacity(s, Current(s)), Capacity(s, h))
    requires s.headers[h].index[p] == EntryAt(s, a, Current(s), q)
    requires Shared(s, a, h, p, Slot(s, a, Current(s), q))
    ensures Slot(s, a, h, q) == p
  {
    var c := Current(s);
    var k: nat :| k > 0 && Capacity(s, c) == k * Capacity(s, h);
    TurnInSmaller(q - a.phase[c], a.phase[c], Capacity(s, h), k);
    ModShift(p + a.phase[h], q, -a.phase[h], Capacity(s, h));
    ModSmall(p, Capacity(s, h));
    TurnIsMod(q - a.phase[h], Capacity(s, h));
  }

  ghost predicate KeyStep(s: State, t: State, a: Aux)
    requires Sized(s, a) && s.headers != []
  {
    && s.producer.Keying?
    && |s.blocks| + |s.producer.mine| == a.keyed
    && t == SetKey(s, EntryAt(s, a, Current(s), a.keyed), a.keyed * s.blockSize).(
              producer := Advancing(s.producer.mine, s.producer.slot))
  }

  lemma KeyKeepsRing(s: State, t: State, a: Aux)
    requires InvWith(s, a) && s.headers != [] && KeyStep(s, t, a)
    ensures RingOk(t, a.(keyed := a.keyed + 1))
  {
    var b := a.(keyed := a.keyed + 1);
    var c := Current(s);
    var first := a.keyed - Capacity(s, c);
    assert !ContentOf(s, first).Holds?;
    assert s.producer.mine != [] ==> ContentOf(s, |s.blocks|).Holds?;
    forall q | b.keyed - Capacity(t, c) <= q < b.keyed ensures EntryOk(t, b, q) {
      assert EntryAt(t, b, c, q) == EntryAt(s, a, c, q);
      if q < a.keyed {
        assert EntryOk(s, a, q);
        SlotsDiffer(s, a, c, q, a.keyed);
        assert ContentOf(t, q) == ContentOf(s, q);
      }
    }
    forall q: int | ContentOf(t, q).Holds? ensures InWindow(t, b, q) {
      assert ContentOf(s, q).Holds?;
    }
  }

  lemma KeyKeepsHeaders(s: State, t: State, a: Aux)
    requires InvWith(s, a) && s.headers != [] && KeyStep(s, t, a)
    ensures HeadersOk(t, a.(keyed := a.keyed + 1))
  {
    var b := a.(keyed := a.keyed + 1);
    var c := Current(s);
    var e := EntryAt(s, a, c, a.keyed);
    BaseIsValid(a.keyed, s.blockSize);
    DivExact(a.keyed, s.blockSize);
    forall h, p | 0 <= h < |t.headers| && 0 <= p < |t.headers[h].index| ensures KeyOk(t, b, h, p) {
      assert KeyOk(s, a, h, p);
      assert Slot(t, b, h, a.keyed) == Slot(s, a, h, a.keyed);
      if s.headers[h].index[p] == e && h < c {
        assert ReplacedOk(s, a, h);
        SharedSlot(s, a, h, p, a.keyed);
      }
    }
    forall h | 0 <= h < |t.headers| - 1 ensures ReplacedOk(t, b, h) {
      assert ReplacedOk(s, a, h);
      forall p, r | 0 <= p < |t.headers[h].index| && 0 <= r < |t.headers[c].index| ensures Shared(t, b, h, p, r) {
        assert Shared(s, a, h, p, r);
      }
      forall q | Relevant(t, q) && q < b.limit[h] ensures EntryAt(t, b, h, q) == EntryAt(t, b, c, q) {
        assert Relevant(s, q);
        assert EntryAt(s, a, h, q) == EntryAt(s, a, c, q);
      }
    }
  }

  lemma KeyKeeps(s: State, t: State, a: Aux, c: Choice)
    requires InvWith(s, a) && s.headers != [] && ProducerEnabled(s, c) && s.producer.Keying?
    requires t == ProducerAfter(s, c)
    ensures Inv(t)
  {
    var q := |s.blocks| + |s.producer.mine|;
    if q < a.keyed {
      assert EntryOk(s, a, q);
      assert t.entries == s.entries;
      ProducerKeeps(s, t, a, a, q);
    } else {
      var b := a.(keyed := a.keyed + 1);
      KeyKeepsRing(s, t, a);
      KeyKeepsHeaders(s, t, a);
      BaseIsValid(a.keyed, s.blockSize);
      ReadersKeep(s, t, a, b);
      assert InvWith(t, b);
    }
  }

  // ---------------------------------------------------------------------------------------------
  // Growing
  // ---------------------------------------------------------------------------------------------

  ghost predicate NewPlaces(s: State, a: Aux, lo: int, h: Header)
    requires Sized(s, a) && s.headers != []
  {
    var c := Current(s);
    var cap := Capacity(s, c);
    && h.capacity == |h.index| == 2 * cap && h.tail == cap - 1
    && (forall i :: 0 <= i < cap ==> h.index[i] == EntryAt(s, a, c, lo + i))
    && (forall i :: cap <= i < 2 * cap ==> h.index[i] == |s.entries| + i - cap)
  }

  /** What growing does, with slots translated to blocks: the new header starts with the blocks of the last
      turn, oldest first, and continues with unused entries. */
  ghost predicate Grown(s: State, t: State, a: Aux, b: Aux)
    requires Sized(s, a) && s.headers != []
  {
    var c := Current(s);
    var cap := Capacity(s, c);
    var n := |s.entries|;
    && Sized(t, b)
    && t.blockSize == s.blockSize && t.blocks == s.blocks && t.retired == s.retired && t.readers == s.readers
    && |t.headers| == |s.headers| + 1
    && (forall h :: 0 <= h <= c ==> t.headers[h] == s.headers[h])
    && NewPlaces(s, a, b.lo, t.headers[|s.headers|])
    && |t.entries| == n + cap
    && (forall e :: 0 <= e < n ==> t.entries[e] == s.entries[e])
    && (forall e :: n <= e < n + cap ==> t.entries[e].key == INVALID_BLOCK_BASE)
    && s.producer.Ready? && t.producer == Keying(s.producer.mine, cap)
    && a.keyed >= 0 && Inserted(s) == a.keyed
    && ContentOf(s, a.keyed - cap).Holds?
    && b == a.(phase := a.phase + [a.keyed - cap], limit := a.limit[c := a.keyed] + [0], lo := a.keyed - cap)
  }

  lemma NewHeaderPlaces(s: State, a: Aux, lo: int)
    requires Sized(s, a) && s.headers != []
    requires s.headers[Current(s)].tail == Slot(s, a, Current(s), lo + Capacity(s, Current(s)) - 1)
    ensures NewPlaces(s, a, lo, NewHeader(s))
  {
    var c := Current(s);
    var cap := Capacity(s, c);
    ModSmall(cap - 1, 2 * cap);
    forall i | 0 <= i < cap ensures NewHeader(s).index[i] == EntryAt(s, a, c, lo + i) {
      SlotStep(s, a, c, lo + cap - 1, 1 + i);
      TurnShift(lo + cap + i - a.phase[c], cap);
      assert NewHeader(s).index[i] == Unrolled(s.headers[c])[i];
    }
  }

  lemma GrowIsGrown(s: State, t: State, a: Aux, b: Aux, junk: seq<Ptr>)
    requires Sized(s, a) && s.headers != [] && s.producer.Ready? && |junk| == EntryCount(s) && Shape(t)
    requires NewPlaces(s, a, b.lo, NewHeader(s))
    requires t == Grow(s, junk).(producer := Keying(s.producer.mine, PreviousCapacity(s)))
    requires a.keyed >= 0 && Inserted(s) == a.keyed && ContentOf(s, a.keyed - PreviousCapacity(s)).Holds?
    requires b == a.(phase := a.phase + [a.keyed - PreviousCapacity(s)],
                     limit := a.limit[Current(s) := a.keyed] + [0], lo := a.keyed - PreviousCapacity(s))
    ensures Grown(s, t, a, b)
  {
    assert t.headers[|s.headers|] == NewHeader(s);
  }

  /** Within the last turn, every block keeps its entry. */
  lemma GrownPlace(s: State, t: State, a: Aux, b: Aux, q: int)
    requires Sized(s, a) && s.headers != [] && Grown(s, t, a, b) && b.lo <= q < a.keyed
    ensures Slot(t, b, Current(t), q) == q - b.lo
    ensures EntryAt(t, b, Current(t), q) == EntryAt(s, a, Current(s), q)
  {
    assert t.headers[Current(t)].index[q - b.lo] == EntryAt(s, a, Current(s), b.lo + (q - b.lo));
  }

  lemma GrownRing(s: State, t: State, a: Aux, b: Aux)
    requires InvWith(s, a) && s.headers != [] && Grown(s, t, a, b)
    ensures RingOk(t, b)
  {
    forall q | b.keyed - Capacity(t, Current(t)) <= q < b.keyed ensures EntryOk(t, b, q) {
      if b.lo <= q {
        GrownPlace(s, t, a, b, q);
        assert EntryOk(s, a, q);
        assert ContentOf(t, q) == ContentOf(s, q);
      }
    }
    forall q: int | ContentOf(t, q).Holds? ensures InWindow(t, b, q) {
      assert ContentOf(s, q).Holds?;
    }
  }

  lemma GrownDistinct(s: State, t: State, a: Aux, b: Aux)
    requires InvWith(s, a) && s.headers != [] && Grown(s, t, a, b)
    ensures Distinct(t.headers[Current(t)].index)
  {
    var index := t.headers[Current(t)].index;
    forall p, r | 0 <= p < r < |index| ensures index[p] != index[r] {
      if r < Capacity(s, Current(s)) {
        SlotsDiffer(s, a, Current(s), b.lo + p, b.lo + r);
      }
    }
  }

  lemma GrownKeys(s: State, t: State, a: Aux, b: Aux, h: nat, p: nat)
    requires InvWith(s, a) && s.headers != [] && Grown(s, t, a, b)
    requires h < |t.headers| && p < |t.headers[h].index|
    ensures KeyOk(t, b, h, p)
  {
    if h <= Current(s) {
      assert KeyOk(s, a, h, p);
    } else if p < Capacity(s, Current(s)) {
      GrownPlace(s, t, a, b, b.lo + p);
      assert EntryOk(s, a, b.lo + p);
      DivExact(b.lo + p, s.blockSize);
    }
  }

  lemma DoubleMultiple(m: nat, c: nat) returns (k: nat)
    requires Multiple(m, c)
    ensures k > 0 && m == k * c
    ensures Multiple(2 * m, c)
  {
    k :| k > 0 && m == k * c;
    assert 2 * m == (2 * k) * c;
  }

  /** Headers replaced earlier stay in step with the new one. */
  lemma GrownOlder(s: State, t: State, a: Aux, b: Aux, h: nat)
    requires InvWith(s, a) && s.headers != [] && Grown(s, t, a, b) && h < Current(s)
    ensures ReplacedOk(t, b, h)
  {
    var c := Current(s);
    assert ReplacedOk(s, a, h);
    var k := DoubleMultiple(Capacity(s, c), Capacity(s, h));
    forall p, r | 0 <= p < |t.headers[h].index| && 0 <= r < |t.headers[c + 1].index| ensures Shared(t, b, h, p, r) {
      GrownOlderShared(s, t, a, b, h, k, p, r);
    }
    forall q | Relevant(t, q) && q < b.limit[h] ensures EntryAt(t, b, h, q) == EntryAt(t, b, c + 1, q) {
      assert EntryAt(s, a, h, q) == EntryAt(s, a, c, q);
      GrownRelevant(s, t, a, b, q);
    }
  }

  /** A block that may still be looked up belongs to the last turn. */
  lemma GrownRelevant(s: State, t: State, a: Aux, b: Aux, q: int)
    requires InvWith(s, a) && s.headers != [] && Grown(s, t, a, b) && Relevant(s, q) && q < a.keyed
    ensures EntryAt(t, b, Current(t), q) == EntryAt(s, a, Current(s), q)
  {
    assert q < |s.blocks| ==> ContentOf(s, q).Holds?;
    GrownPlace(s, t, a, b, q);
  }

  lemma GrownOlderShared(s: State, t: State, a: Aux, b: Aux, h: nat, k: nat, p: nat, r: nat)
    requires InvWith(s, a) && s.headers != [] && Grown(s, t, a, b) && h < Current(s)
    requires k > 0 && Capacity(s, Current(s)) == k * Capacity(s, h)
    requires p < |t.headers[h].index| && r < |t.headers[Current(t)].index|
    ensures Shared(t, b, h, p, r)
  {
    var c := Current(s);
    if r < Capacity(s, c) && s.headers[h].index[p] == EntryAt(s, a, c, b.lo + r) {
      assert ReplacedOk(s, a, h) && Shared(s, a, h, p, Slot(s, a, c, b.lo + r));
      SlotInOlder(s, a, c, b.lo + r, Capacity(s, h), k);
    }
  }

  lemma SlotInOlder(s: State, a: Aux, c: nat, q: int, cap: nat, k: nat)
    requires Sized(s, a) && c < |s.headers| && cap > 0 && k > 0 && Capacity(s, c) == k * cap
    ensures (Slot(s, a, c, q) + a.phase[c]) % cap == q % cap
  {
    TurnInSmaller(q - a.phase[c], a.phase[c], cap, k);
  }

  /** An index that is replaced has no unused entry left. */
  lemma GrownFullKeys(s: State, t: State, a: Aux, b: Aux)
    requires InvWith(s, a) && s.headers != [] && Grown(s, t, a, b)
    ensures var index := s.headers[Current(s)].index;
            forall p :: 0 <= p < |index| ==> s.entries[index[p]].key != INVALID_BLOCK_BASE
  {
    var c := Current(s);
    var cap := Capacity(s, c);
    forall p | 0 <= p < cap ensures s.entries[s.headers[c].index[p]].key != INVALID_BLOCK_BASE {
      var q := ModSurjects(p, a.phase[c], b.lo, cap);
      TurnIsMod(q - a.phase[c], cap);
      assert EntryOk(s, a, q);
      BaseIsValid(q, s.blockSize);
    }
  }

  lemma GrownShared(s: State, t: State, a: Aux, b: Aux, p: nat, r: nat)
    requires InvWith(s, a) && s.headers != [] && Grown(s, t, a, b)
    requires p < Capacity(s, Current(s)) && r < 2 * Capacity(s, Current(s))
    ensures Shared(t, b, Current(s), p, r)
  {
    var c := Current(s);
    var cap := Capacity(s, c);
    if r < cap && s.headers[c].index[p] == EntryAt(s, a, c, b.lo + r) {
      assert p == Slot(s, a, c, b.lo + r);
      TurnStep(b.lo + r - a.phase[c], a.phase[c], cap);
      TurnIsMod(b.lo + r, cap);
    }
  }

  /** The header just replaced is in step with the new one, and all its keys are in place. */
  lemma GrownReplaced(s: State, t: State, a: Aux, b: Aux)
    requires InvWith(s, a) && s.headers != [] && Grown(s, t, a, b)
    ensures ReplacedOk(t, b, Current(s))
  {
    var c := Current(s);
    var cap := Capacity(s, c);
    assert Capacity(t, c + 1) == 2 * Capacity(t, c);
    GrownFullKeys(s, t, a, b);
    forall p, r | 0 <= p < cap && 0 <= r < 2 * cap ensures Shared(t, b, c, p, r) {
      GrownShared(s, t, a, b, p, r);
    }
    forall q | Relevant(t, q) && q < b.limit[c] ensures EntryAt(t, b, c, q) == EntryAt(t, b, c + 1, q) {
      GrownRelevant(s, t, a, b, q);
    }
  }

  lemma GrownKeeps(s: State, t: State, a: Aux, b: Aux)
    requires InvWith(s, a) && s.headers != [] && Grown(s, t, a, b)
    ensures Inv(t)
  {
    GrownRing(s, t, a, b);
    GrownDistinct(s, t, a, b);
    forall h, p | 0 <= h < |t.headers| && 0 <= p < |t.headers[h].index| ensures KeyOk(t, b, h, p) {
      GrownKeys(s, t, a, b, h, p);
    }
    forall h | 0 <= h < |t.headers| - 1 ensures ReplacedOk(t, b, h) {
      if h < Current(s) { GrownOlder(s, t, a, b, h); } else { GrownReplaced(s, t, a, b); }
    }
    forall i | 0 <= i < |t.readers| ensures ReaderOk(t, b, t.readers[i]) {
      assert ReaderOk(s, a, s.readers[i]);
    }
    assert InvWith(t, b);
  }

  lemma GrowShape(s: State, t: State, junk: seq<Ptr>)
    requires Shape(s) && s.headers != [] && |junk| == EntryCount(s)
    requires t == Grow(s, junk).(producer := Keying(s.producer.mine, PreviousCapacity(s)))
    ensures Shape(t)
  {
    forall h | 0 <= h < |t.headers| ensures HeaderShape(t.headers[h], t.entries) {
      if h < |s.headers| { assert HeaderShape(s.headers[h], s.entries); }
    }
  }

  lemma GrowTaken(s: State, t: State, c: Choice)
    requires ProducerEnabled(s, c) && s.headers != [] && s.producer.Ready?
    requires t == ProducerAfter(s, c) && |t.headers| != |s.headers|
    ensures c.Build? && |c.junk| == EntryCount(s)
    ensures t == Grow(s, c.junk).(producer := Keying(s.producer.mine, PreviousCapacity(s)))
  {
    GrowSlot(s);
  }

  /** A new header is built only when the next slot is taken. */
  lemma SlotIsTaken(s: State, t: State, c: Choice)
    requires ProducerEnabled(s, c) && s.headers != [] && s.producer.Ready?
    requires t == ProducerAfter(s, c) && |t.headers| != |s.headers|
    ensures var entry := s.entries[s.headers[Current(s)].index[NextSlot(s)]];
            entry.key != INVALID_BLOCK_BASE && entry.value != Null
  {
  }

  /** Then the block a full turn back still uses it. */
  lemma OldestHolds(s: State, a: Aux)
    requires InvWith(s, a) && s.headers != [] && s.producer.Ready?
    requires var entry := s.entries[s.headers[Current(s)].index[NextSlot(s)]];
             entry.key != INVALID_BLOCK_BASE && entry.value != Null
    ensures Inserted(s) == a.keyed && ContentOf(s, a.keyed - PreviousCapacity(s)).Holds?
  {
    NextSlotIsFree(s, a);
  }

  lemma GrowSlot(s: State)
    requires Shape(s) && s.headers != []
    ensures BehindTail(NewHeader(s)) == PreviousCapacity(s)
  {
    ModSmall(PreviousCapacity(s) - 1, s.nextCapacity);
    ModSmall(PreviousCapacity(s), s.nextCapacity);
  }

  lemma BuiltIsGrown(s: State, t: State, a: Aux, junk: seq<Ptr>) returns (b: Aux)
    requires Sized(s, a) && s.headers != [] && s.producer.Ready? && |junk| == EntryCount(s) && Shape(t)
    requires s.headers[Current(s)].tail == Slot(s, a, Current(s), a.keyed - 1)
    requires t == Grow(s, junk).(producer := Keying(s.producer.mine, PreviousCapacity(s)))
    requires Inserted(s) == a.keyed && ContentOf(s, a.keyed - PreviousCapacity(s)).Holds?
    ensures Grown(s, t, a, b)
  {
    var lo := a.keyed - PreviousCapacity(s);
    b := a.(phase := a.phase + [lo], limit := a.limit[Current(s) := a.keyed] + [0], lo := lo);
    NewHeaderPlaces(s, a, lo);
    GrowIsGrown(s, t, a, b, junk);
  }

  lemma GrowKeeps(s: State, t: State, a: Aux, c: Choice)
    requires InvWith(s, a) && s.headers != [] && ProducerEnabled(s, c) && s.producer.Ready?
    requires t == ProducerAfter(s, c) && |t.headers| != |s.headers|
    ensures Inv(t)
  {
    GrowTaken(s, t, c);
    GrowShape(s, t, c.junk);
    SlotIsTaken(s, t, c);
    OldestHolds(s, a);
    var b := BuiltIsGrown(s, t, a, c.junk);
    GrownKeeps(s, t, a, b);
  }

  // ---------------------------------------------------------------------------------------------
  // Consumers
  // ---------------------------------------------------------------------------------------------

  /** A consumer's step that leaves the index alone. */
  lemma ReaderMoveKeeps(s: State, t: State, a: Aux, i: nat)
    requires InvWith(s, a) && i < |s.readers| == |t.readers|
    requires t == SetReader(s, i, t.readers[i]) && ReaderOk(s, a, t.readers[i])
    requires s.headers != []
    ensures Inv(t)
  {
    OtherReadersKeep(s, t, a, i);
    ValueKeepsRing(s, t, a, a, -1);
    ValueKeepsHeaders(s, t, a, a, -1);
    assert InvWith(t, a);
  }

  lemma OtherReadersKeep(s: State, t: State, a: Aux, i: nat)
    requires InvWith(s, a) && i < |s.readers| == |t.readers|
    requires t == SetReader(s, i, t.readers[i]) && ReaderOk(s, a, t.readers[i])
    ensures Sized(t, a) && forall j :: 0 <= j < |t.readers| ==> ReaderOk(t, a, t.readers[j])
  {
    forall j | 0 <= j < |t.readers| ensures ReaderOk(t, a, t.readers[j]) {
      assert ReaderOk(s, a, s.readers[j]);
    }
  }

  /** The tail a consumer loads has a key: some block is in use, so the index is not empty. */
  lemma TailHasKey(s: State, a: Aux, h: nat, q: nat)
    requires InvWith(s, a) && s.headers != [] && h < |s.headers| && q < |s.blocks| && q !in s.retired
    ensures s.entries[s.headers[h].index[s.headers[h].tail]].key != INVALID_BLOCK_BASE
  {
    if h < Current(s) {
      assert ReplacedOk(s, a, h);
    } else {
      assert ContentOf(s, q).Holds?;
      assert EntryOk(s, a, Inserted(s) - 1);
      BaseIsValid(Inserted(s) - 1, s.blockSize);
    }
  }

  /** Through any header that still covers it, a block in use is found under its own key with its memory. */
  lemma FoundEntry(s: State, a: Aux, h: nat, q: nat)
    requires InvWith(s, a) && s.headers != [] && h < |s.headers| && q < |s.blocks| && q !in s.retired
    requires h < Current(s) ==> q < a.limit[h]
    ensures EntryAt(s, a, h, q) == EntryAt(s, a, Current(s), q) && InWindow(s, a, q)
    ensures s.entries[EntryAt(s, a, h, q)] == Entry(q * s.blockSize, At(s.blocks[q]))
  {
    assert ContentOf(s, q).Holds?;
    assert EntryOk(s, a, q);
    if h < Current(s) {
      assert ReplacedOk(s, a, h);
      assert Relevant(s, q);
    }
  }

  lemma LoadTailOk(s: State, a: Aux, q: nat, last: nat, h: nat)
    requires InvWith(s, a) && s.headers != [] && ReaderOk(s, a, GotHeader(q, last, h))
    ensures ReaderOk(s, a, GotTail(q, last, h, s.headers[h].tail))
  {
    assert Uses(GotHeader(q, last, h), q);
    TailHasKey(s, a, h, q);
    forall r: nat | Uses(GotTail(q, last, h, s.headers[h].tail), r) ensures Uses(GotHeader(q, last, h), r) {}
  }

  /** The slot a consumer computes is the block's slot in the header it holds. */
  lemma ComputeSlotOk(s: State, a: Aux, q: nat, last: nat, h: nat, tail: nat)
    requires InvWith(s, a) && s.headers != [] && ReaderOk(s, a, GotTail(q, last, h, tail))
    ensures ReaderOk(s, a, GotSlot(q, last, h,
              SlotFromTail(s.headers[h], tail, s.entries[s.headers[h].index[tail]].key, q, s.blockSize)))
  {
    assert KeyOk(s, a, h, tail);
    LookupSlot(s, a, h, tail, q);
    forall r: nat | Uses(GotSlot(q, last, h, Slot(s, a, h, q)), r) ensures Uses(GotTail(q, last, h, tail), r) {}
  }

  lemma LoadValueOk(s: State, a: Aux, q: nat, last: nat, h: nat, p: nat)
    requires InvWith(s, a) && s.headers != [] && ReaderOk(s, a, GotSlot(q, last, h, p))
    ensures ReaderOk(s, a, Got(q, last, h, p, s.entries[s.headers[h].index[p]].value))
  {
    assert Uses(GotSlot(q, last, h, p), q);
    FoundEntry(s, a, h, q);
    forall r: nat | Uses(Got(q, last, h, p, s.entries[s.headers[h].index[p]].value), r)
      ensures Uses(GotSlot(q, last, h, p), r) {}
  }

  lemma NextBlockOk(s: State, a: Aux, q: nat, last: nat, h: nat, p: nat)
    requires InvWith(s, a) && s.headers != [] && ReaderOk(s, a, Leaving(q, last, h, p)) && q < last
    ensures ReaderOk(s, a, GotSlot(q + 1, last, h, (p + 1) % s.headers[h].capacity))
  {
    SlotStep(s, a, h, q, 1);
    forall r: nat | Uses(GotSlot(q + 1, last, h, (p + 1) % s.headers[h].capacity), r)
      ensures Uses(Leaving(q, last, h, p), r) {}
  }

  lemma ReaderStepOk(s: State, a: Aux, i: nat, u: Use)
    requires InvWith(s, a) && ReaderEnabled(s, i, u) && !u.Retire? && s.headers != []
    ensures ReaderOk(s, a, ReaderAfter(s, i, u).readers[i])
  {
    assert ReaderOk(s, a, s.readers[i]);
    match s.readers[i]
    case GotHeader(q, last, h) => LoadTailOk(s, a, q, last, h);
    case GotTail(q, last, h, tail) => ComputeSlotOk(s, a, q, last, h, tail);
    case GotSlot(q, last, h, p) => LoadValueOk(s, a, q, last, h, p);
    case Leaving(q, last, h, p) => if q < last { NextBlockOk(s, a, q, last, h, p); }
    case _ =>
  }

  ghost predicate RetireStep(s: State, t: State, a: Aux, i: nat, q: nat)
    requires Sized(s, a) && s.headers != []
  {
    && i < |s.readers| == |t.readers|
    && t == SetValue(SetReader(s, i, t.readers[i]), EntryAt(s, a, Current(s), q), Null).(retired := s.retired + {q})
    && (forall j :: 0 <= j < |t.readers| ==> !Uses(t.readers[j], q) && !(t.readers[j].Got? && t.readers[j].q == q))
  }

  lemma RetireKeepsReaders(s: State, t: State, a: Aux, i: nat, q: nat)
    requires InvWith(s, a) && s.headers != [] && RetireStep(s, t, a, i, q) && Shape(t)
    requires ReaderOk(s, a, t.readers[i])
    ensures forall j :: 0 <= j < |t.readers| ==> ReaderOk(t, a, t.readers[j])
  {
    forall j | 0 <= j < |t.readers| ensures ReaderOk(t, a, t.readers[j]) {
      assert ReaderOk(s, a, t.readers[j]) by {
        if j != i { assert ReaderOk(s, a, s.readers[j]); }
      }
    }
  }

  lemma RetireKeepsIndex(s: State, t: State, a: Aux, i: nat, q: nat)
    requires InvWith(s, a) && s.headers != [] && RetireStep(s, t, a, i, q) && Shape(t)
    requires q < |s.blocks| && InWindow(s, a, q)
    ensures Sized(t, a) && RingOk(t, a) && HeadersOk(t, a)
  {
    ValueKeepsRing(s, t, a, a, q);
    ValueKeepsHeaders(s, t, a, a, q);
  }

  lemma RetireKeeps(s: State, t: State, a: Aux, i: nat, q: nat)
    requires InvWith(s, a) && s.headers != [] && RetireStep(s, t, a, i, q) && Shape(t)
    requires q < |s.blocks| && InWindow(s, a, q)
    requires ReaderOk(s, a, t.readers[i])
    ensures Inv(t)
  {
    RetireKeepsIndex(s, t, a, i, q);
    RetireKeepsReaders(s, t, a, i, q);
    assert InvWith(t, a);
  }

  // ---------------------------------------------------------------------------------------------
  // Every reachable state
  // ---------------------------------------------------------------------------------------------

  lemma ProducerStepKeeps(s: State, t: State, a: Aux, c: Choice)
    requires InvWith(s, a) && ProducerEnabled(s, c) && t == ProducerAfter(s, c)
    ensures Inv(t)
  {
    if s.headers == [] {
      assert InvWith(t, a);
    } else {
      match s.producer
      case Ready(_) =>
        if c.Commit? { CommitKeeps(s, t, a, c); }
        else if |t.headers| == |s.headers| { DecideKeeps(s, t, a, c); }
        else { GrowKeeps(s, t, a, c); }
      case Keying(_, _) => KeyKeeps(s, t, a, c);
      case Advancing(_, _) => AdvanceKeeps(s, t, a, c);
      case Filling(_, _) => FillKeeps(s, t, a, c);
      case Rewinding(_, _) => RewindKeeps(s, t, a, c);
      case Clearing(_, _) => ClearKeeps(s, t, a, c);
      case Undoing(_, _) => UndoKeeps(s, t, a, c);
      case UndoRewinding(_, _) => RewindKeeps(s, t, a, c);
    }
  }

  lemma StepKeeps(s: State, act: Action)
    requires Inv(s) && Enabled(s, act)
    ensures Inv(After(s, act))
  {
    var a :| InvWith(s, a);
    var t := After(s, act);
    match act
    case Produce(c) => ProducerStepKeeps(s, t, a, c);
    case Consume(i, u) =>
      assert ReaderOk(s, a, s.readers[i]);
      if u.Retire? && s.readers[i].Got? {
        FoundEntry(s, a, s.readers[i].h, s.readers[i].q);
        RetireKeeps(s, t, a, i, s.readers[i].q);
      } else {
        ReaderStepOk(s, a, i, u);
        ReaderMoveKeeps(s, t, a, i);
      }
  }

  lemma FirstHeaderHolds(e: State, s: State, junk: seq<Ptr>)
    requires Empty(e) && |junk| == e.nextCapacity && s == Grow(e, junk)
    ensures Inv(s)
  {
    ModTurns(-1, 1, e.nextCapacity);
    ModSmall(e.nextCapacity - 1, e.nextCapacity);
    assert InvWith(s, Aux([0], [0], 0, 0));
  }

  lemma InitHolds(s: State)
    requires Init(s)
    ensures Inv(s)
  {
    if Empty(s) {
      assert InvWith(s, Aux([], [], 0, 0));
    } else {
      var e, junk :| Empty(e) && |junk| == e.nextCapacity && s == Grow(e, junk);
      FirstHeaderHolds(e, s, junk);
    }
  }

  lemma {:induction false} RunHolds(r: seq<State>, acts: seq<Action>, k: nat)
    requires Run(r, acts) && k < |r|
    ensures Inv(r[k])
  {
    if k == 0 {
      InitHolds(r[0]);
    } else {
      RunHolds(r, acts, k - 1);
      StepKeeps(r[k - 1], acts[k - 1]);
    }
  }

  // ---------------------------------------------------------------------------------------------
  // What it means
  // ---------------------------------------------------------------------------------------------

  /** A consumer that has loaded any published header `h`, and from it a tail, however long ago, computes
      the slot whose entry carries the base of its block and points to the memory of that block: the
      assertions in the lookup never fail and the right block is found. */
  lemma LookupIsRight(s: State, i: nat)
    requires Inv(s) && i < |s.readers| && s.readers[i].GotTail?
    ensures var GotTail(q, _, h, tail) := s.readers[i];
            && h < |s.headers| && tail < |s.headers[h].index| && q < |s.blocks|
            && s.headers[h].index[tail] < |s.entries|
            && var key := s.entries[s.headers[h].index[tail]].key;
            && key != INVALID_BLOCK_BASE
            && var p := SlotFromTail(s.headers[h], tail, key, q, s.blockSize);
            && p < |s.headers[h].index|
            && s.entries[s.headers[h].index[p]] == Entry(q * s.blockSize, At(s.blocks[q]))
  {
    var a :| InvWith(s, a);
    var GotTail(q, last, h, tail) := s.readers[i];
    assert ReaderOk(s, a, s.readers[i]);
    assert Uses(s.readers[i], q);
    ComputeSlotOk(s, a, q, last, h, tail);
    FoundEntry(s, a, h, q);
  }

  /** Through the current index and its current tail, every block in use is found at once. */
  lemma CurrentLookupIsRight(s: State, q: nat)
    requires Inv(s) && q < |s.blocks| && q !in s.retired
    ensures Shape(s) && s.headers != []
    ensures var h := s.headers[Current(s)];
            var key := s.entries[h.index[h.tail]].key;
            && key != INVALID_BLOCK_BASE
            && s.entries[h.index[SlotFromTail(h, h.tail, key, q, s.blockSize)]] == Entry(q * s.blockSize, At(s.blocks[q]))
  {
    var a :| InvWith(s, a);
    var c := Current(s);
    TailHasKey(s, a, c, q);
    assert KeyOk(s, a, c, s.headers[c].tail);
    LookupSlot(s, a, c, s.headers[c].tail, q);
    FoundEntry(s, a, c, q);
  }

  /** The value a consumer loads, in a single or a bulk dequeue, is the memory of the block it asked for. */
  lemma LoadedBlockIsRight(s: State, i: nat)
    requires Inv(s) && i < |s.readers| && s.readers[i].Got?
    ensures s.readers[i].q < |s.blocks| && s.readers[i].value == At(s.blocks[s.readers[i].q])
  {
    var a :| InvWith(s, a);
    assert ReaderOk(s, a, s.readers[i]);
  }

  /** While the producer takes its blocks out again, with the tail already partly rewound and possibly in a
      header built half-way, its own lookups find exactly those blocks. */
  lemma UndoFindsOwnBlocks(s: State)
    requires Inv(s) && s.producer.Undoing? && s.producer.k < |s.producer.mine|
    ensures Shape(s) && s.headers != []
    ensures var q := |s.blocks| + s.producer.k;
            s.entries[s.headers[Current(s)].index[OwnSlot(s, q)]]
            == Entry(q * s.blockSize, At(s.producer.mine[s.producer.k]))
  {
    var a :| InvWith(s, a);
    UndoLookup(s, a);
    assert EntryOk(s, a, |s.blocks| + s.producer.k);
  }

  /** The assertion after growing: the slot behind the new tail was never used. */
  lemma GrownSlotIsUnused(s: State, c: Choice)
    requires Inv(s) && ProducerEnabled(s, c) && s.headers != [] && s.producer.Ready?
    requires |ProducerAfter(s, c).headers| != |s.headers|
    ensures var t := ProducerAfter(s, c);
            && t.producer.Keying? && t.producer.slot < |t.headers[Current(t)].index|
            && t.headers[Current(t)].index[t.producer.slot] < |t.entries|
            && t.entries[t.headers[Current(t)].index[t.producer.slot]].key == INVALID_BLOCK_BASE
  {
    var a :| InvWith(s, a);
    var t := ProducerAfter(s, c);
    GrowTaken(s, t, c);
    GrowShape(s, t, c.junk);
    SlotIsTaken(s, t, c);
    OldestHolds(s, a);
    var b := BuiltIsGrown(s, t, a, c.junk);
  }

  /** The block one whole turn of the index before the next one is still in use: published and not emptied, or taken
      by this very enqueue. */
  ghost predicate TurnIsUp(s: State) {
    && s.headers != []
    && var q := |s.blocks| + |s.producer.mine| - s.headers[Current(s)].capacity;
    q >= 0 && (q < |s.blocks| ==> (q as nat) !in s.retired)
  }

  lemma SlotIsTakenIff(s: State, a: Aux)
    requires InvWith(s, a) && s.headers != [] && s.producer.Ready?
    ensures var entry := s.entries[s.headers[Current(s)].index[NextSlot(s)]];
            entry.key != INVALID_BLOCK_BASE && entry.value != Null <==> TurnIsUp(s)
  {
    var q := |s.blocks| + |s.producer.mine| - Capacity(s, Current(s));
    NextSlotIsFree(s, a);
    assert TurnIsUp(s) <==> ContentOf(s, q).Holds?;
    if ContentOf(s, q).Holds? {
      assert InWindow(s, a, q) && EntryOk(s, a, q);
      BaseIsValid(q, s.blockSize);
    } else {
      var entry := s.entries[s.headers[Current(s)].index[NextSlot(s)]];
      if entry.key != INVALID_BLOCK_BASE && entry.value != Null { OldestHolds(s, a); }
    }
  }

  /** An insertion finds a slot exactly unless the block a whole turn before is still in use, or there is no index; and
      exactly then the index is replaced, if memory for a larger one is to be had, and the insertion fails, if not. */
  lemma InsertsExactly(s: State, c: Choice)
    requires Inv(s) && ProducerEnabled(s, c) && s.producer.Ready? && (c.Insert? || c.Build?)
    ensures var t := ProducerAfter(s, c);
            && (t.producer.Keying? <==> s.headers != [] && (!TurnIsUp(s) || c.Build?))
            && (t.producer.Undoing? <==> s.headers == [] || (TurnIsUp(s) && c.Insert?))
            && (|t.headers| == |s.headers| + 1 <==> TurnIsUp(s) && c.Build?)
            && (t.headers == s.headers || |t.headers| == |s.headers| + 1)
  {
    var a :| InvWith(s, a);
    if s.headers != [] { SlotIsTakenIff(s, a); }
  }

  /** Between enqueues, whether the last one succeeded, gave up, or undid part of its work, the current index
      holds the blocks in use and no others: every other entry is unused or null.  The tail is at the last
      published block. */
  lemma IdleIndexIsExact(s: State)
    requires Inv(s) && s.headers != [] && s.producer == Ready([])
    ensures Shape(s)
    ensures var h := s.headers[Current(s)];
            && (forall p :: 0 <= p < |h.index| ==>
                  var e := s.entries[h.index[p]];
                  || e.key == INVALID_BLOCK_BASE
                  || e.value == Null
                  || exists q: nat :: q < |s.blocks| && q !in s.retired && e == Entry(q * s.blockSize, At(s.blocks[q])))
            && (forall q: nat :: q < |s.blocks| && q !in s.retired ==>
                  exists p :: 0 <= p < |h.index| && s.entries[h.index[p]] == Entry(q * s.blockSize, At(s.blocks[q])))
  {
    var a :| InvWith(s, a);
    var c := Current(s);
    var h := s.headers[c];
    forall p | 0 <= p < |h.index|
      ensures var e := s.entries[h.index[p]];
              || e.key == INVALID_BLOCK_BASE
              || e.value == Null
              || exists q: nat :: q < |s.blocks| && q !in s.retired && e == Entry(q * s.blockSize, At(s.blocks[q]))
    {
      var q := ModSurjects(p, a.phase[c], a.keyed - h.capacity, h.capacity);
      TurnIsMod(q - a.phase[c], h.capacity);
      assert EntryOk(s, a, q);
    }
    forall q: nat | q < |s.blocks| && q !in s.retired
      ensures exists p :: 0 <= p < |h.index| && s.entries[h.index[p]] == Entry(q * s.blockSize, At(s.blocks[q]))
    {
      FoundEntry(s, a, c, q);
      assert h.index[Slot(s, a, c, q)] == EntryAt(s, a, c, q);
    }
  }

  lemma IdleTailIsLastBlock(s: State)
    requires Inv(s) && s.headers != [] && s.producer == Ready([]) && s.blocks != []
    requires |s.blocks| - 1 !in s.retired
    ensures Shape(s)
    ensures var h := s.headers[Current(s)];
            s.entries[h.index[h.tail]].key == (|s.blocks| - 1) * s.blockSize
  {
    var a :| InvWith(s, a);
    FoundEntry(s, a, Current(s), |s.blocks| - 1);
  }
}
