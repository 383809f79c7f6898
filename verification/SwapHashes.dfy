/** Swapping two queues exchanges their implicit producer hash tables, although the oldest table of each is part
    of the queue object itself and cannot be moved. */
module SwapHashes {
  import opened ProducerHash

  class HashTable {
    var entries: array<Entry>
    var prev: HashTable?

    constructor (capacity: nat)
      ensures fresh(entries) && entries.Length == capacity && prev == null
      ensures entries[..] == EmptyTable(capacity, None).entries
    {
      entries := new Entry[capacity](_ => Entry(Free, Unset));
      prev := null;
    }
  }

  /** `initial` is embedded in the queue; its slots are the first of the queue's own. */
  class Queue {
    const initial: HashTable
    var hash: HashTable
    var count: int

    constructor (capacity: nat)
      ensures fresh(initial) && ChainOk(this, [initial])
      ensures Contents([initial]) == [EmptyTable(capacity, None).entries] && count == 0
    {
      initial := new HashTable(capacity);
      hash := initial;
      count := 0;
    }
  }

  ghost predicate Linked(chain: seq<HashTable>, j: nat)
    requires j + 1 < |chain|
    reads chain[j]
  {
    chain[j].prev == chain[j + 1]
  }

  ghost predicate AllLinked(chain: seq<HashTable>)
    reads chain
  {
    forall j :: 0 <= j < |chain| - 1 ==> Linked(chain, j)
  }

  ghost predicate Distinct(chain: seq<HashTable>)
    reads chain
  {
    forall j, k :: 0 <= j < k < |chain| ==> chain[j] != chain[k] && chain[j].entries != chain[k].entries
  }

  /** The tables of a queue, the current one first, the embedded one last. */
  ghost predicate ChainOk(q: Queue, chain: seq<HashTable>)
    reads q, chain
  {
    && chain != [] && q.hash == chain[0] && chain[|chain| - 1] == q.initial && q.initial.prev == null
    && AllLinked(chain) && Distinct(chain)
  }

  ghost predicate Apart(a: seq<HashTable>, b: seq<HashTable>)
    reads a, b
  {
    forall j, k :: 0 <= j < |a| && 0 <= k < |b| ==> a[j] != b[k] && a[j].entries != b[k].entries
  }

  /** What a lookup goes through, table by table. */
  ghost function Contents(chain: seq<HashTable>): seq<seq<Entry>>
    reads chain, set j | 0 <= j < |chain| :: chain[j].entries
  {
    seq(|chain|, j requires 0 <= j < |chain|
                   reads chain, set k | 0 <= k < |chain| :: chain[k].entries
                   => chain[j].entries[..])
  }

  /** The tables of the other queue, with one's own embedded table in place of its. */
  ghost function Taken(chain: seq<HashTable>, initial: HashTable): seq<HashTable>
    requires chain != []
  {
    chain[..|chain| - 1] + [initial]
  }

  method SwapEntries(x: array<Entry>, y: array<Entry>)
    requires x != y && x.Length == y.Length
    modifies x, y
    ensures x[..] == old(y[..]) && y[..] == old(x[..])
  {
    for i := 0 to x.Length
      invariant forall j :: 0 <= j < i ==> x[j] == old(y[j]) && y[j] == old(x[j])
      invariant forall j :: i <= j < x.Length ==> x[j] == old(x[j]) && y[j] == old(y[j])
    {
      x[i], y[i] := y[i], x[i];
    }
  }

  /** Makes the chain a queue has taken over end at its own embedded table. */
  method Repoint(q: Queue, other: HashTable, ghost chain: seq<HashTable>)
    requires chain != [] && q.hash == chain[0] && chain[|chain| - 1] == other
    requires AllLinked(chain) && (forall j, k :: 0 <= j < k < |chain| ==> chain[j] != chain[k])
    requires q.initial !in chain
    modifies q`hash, (set j | 0 <= j < |chain| - 1 :: chain[j])`prev
    ensures q.hash == Taken(chain, q.initial)[0] && AllLinked(Taken(chain, q.initial))
  {
    ghost var mine := Taken(chain, q.initial);
    if q.hash == other {
      q.hash := q.initial;
    } else {
      var h := q.hash;
      ghost var k := 0;
      assert Linked(chain, 0);
      while h.prev != other
        invariant 0 <= k < |chain| - 1 && h == chain[k] && Linked(chain, k)
        decreases |chain| - k
      {
        h := h.prev;
        k := k + 1;
        assert Linked(chain, k);
      }
      h.prev := q.initial;
      forall j | 0 <= j < |mine| - 1 ensures Linked(mine, j) {
        assert old(Linked(chain, j));
      }
    }
  }

  lemma TakenIsDistinct(chain: seq<HashTable>, initial: HashTable, others: seq<HashTable>)
    requires chain != [] && Distinct(chain) && Apart(others, chain) && initial in others
    ensures Distinct(Taken(chain, initial)) && initial !in chain
  {
  }

  twostate lemma SameContents(chain: seq<HashTable>)
    requires forall j :: 0 <= j < |chain| ==> allocated(chain[j]) && old(allocated(chain[j]))
    requires forall j :: 0 <= j < |chain| ==> chain[j].entries == old(chain[j].entries)
    requires forall j :: 0 <= j < |chain| ==> chain[j].entries[..] == old(chain[j].entries[..])
    ensures Contents(chain) == old(Contents(chain))
  {
  }

  /** Exchanges the pointers and makes each chain end at the right table. */
  method SwapPointers(a: Queue, b: Queue, ghost chainA: seq<HashTable>, ghost chainB: seq<HashTable>)
    requires a != b && ChainOk(a, chainA) && ChainOk(b, chainB) && Apart(chainA, chainB)
    modifies a`hash, b`hash
    modifies (set j | 0 <= j < |chainA| - 1 :: chainA[j])`prev, (set j | 0 <= j < |chainB| - 1 :: chainB[j])`prev
    ensures a.hash == Taken(chainB, a.initial)[0] && AllLinked(Taken(chainB, a.initial))
    ensures b.hash == Taken(chainA, b.initial)[0] && AllLinked(Taken(chainA, b.initial))
    ensures a.initial.prev == null && b.initial.prev == null
  {
    a.hash, b.hash := b.hash, a.hash;
    Repoint(a, b.initial, chainB);
    ghost var mine := Taken(chainB, a.initial);
    assert forall j :: 0 <= j < |mine| - 1 ==> mine[j] == chainB[j];
    label L:
    assert AllLinked(mine);
    Repoint(b, a.initial, chainA);
    forall j | 0 <= j < |mine| - 1 ensures Linked(mine, j) {
      assert old@L(Linked(mine, j));
    }
  }

  method SwapChains(a: Queue, b: Queue, ghost chainA: seq<HashTable>, ghost chainB: seq<HashTable>)
    requires a != b && ChainOk(a, chainA) && ChainOk(b, chainB) && Apart(chainA, chainB)
    modifies a`hash, b`hash
    modifies (set j | 0 <= j < |chainA| - 1 :: chainA[j])`prev, (set j | 0 <= j < |chainB| - 1 :: chainB[j])`prev
    ensures ChainOk(a, Taken(chainB, a.initial)) && ChainOk(b, Taken(chainA, b.initial))
    ensures Contents(Taken(chainB, a.initial)) == old(Contents(Taken(chainB, a.initial)))
    ensures Contents(Taken(chainA, b.initial)) == old(Contents(Taken(chainA, b.initial)))
  {
    TakenIsDistinct(chainB, a.initial, chainA);
    TakenIsDistinct(chainA, b.initial, chainB);
    SwapPointers(a, b, chainA, chainB);
    SameContents(Taken(chainB, a.initial));
    SameContents(Taken(chainA, b.initial));
  }

  /** Exchanges what is in the embedded tables. */
  method SwapInitialTables(a: Queue, b: Queue, ghost chainA: seq<HashTable>, ghost chainB: seq<HashTable>)
    requires a != b && ChainOk(a, chainA) && ChainOk(b, chainB) && Apart(chainA, chainB)
    requires a.initial.entries.Length == b.initial.entries.Length
    modifies a.initial.entries, b.initial.entries
    ensures Contents(Taken(chainB, a.initial)) == old(Contents(chainB))
    ensures Contents(Taken(chainA, b.initial)) == old(Contents(chainA))
  {
    SwapEntries(a.initial.entries, b.initial.entries);
    ghost var mine, theirs := Taken(chainB, a.initial), Taken(chainA, b.initial);
    assert forall j :: 0 <= j < |chainB| ==> mine[j].entries[..] == old(chainB[j].entries[..]);
    assert forall j :: 0 <= j < |chainA| ==> theirs[j].entries[..] == old(chainA[j].entries[..]);
  }

  /** Each queue then has the chain the other had, up to the embedded table, and what is in it. */
  method SwapImplicitProducerHashes(a: Queue, b: Queue, ghost chainA: seq<HashTable>, ghost chainB: seq<HashTable>)
    requires a != b && ChainOk(a, chainA) && ChainOk(b, chainB) && Apart(chainA, chainB)
    requires a.initial.entries.Length == b.initial.entries.Length
    modifies a, b, a.initial.entries, b.initial.entries
    modifies (set j | 0 <= j < |chainA| - 1 :: chainA[j])`prev, (set j | 0 <= j < |chainB| - 1 :: chainB[j])`prev
    ensures ChainOk(a, Taken(chainB, a.initial)) && ChainOk(b, Taken(chainA, b.initial))
    ensures Contents(Taken(chainB, a.initial)) == old(Contents(chainB))
    ensures Contents(Taken(chainA, b.initial)) == old(Contents(chainA))
    ensures a.count == old(b.count) && b.count == old(a.count)
  {
    SwapInitialTables(a, b, chainA, chainB);
    SwapChains(a, b, chainA, chainB);
    a.count, b.count := b.count, a.count;
  }
}
