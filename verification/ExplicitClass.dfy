/** The explicit producer's code: its fields, updated in place as module ExplicitQueue says. */
module ExplicitClass {
  import opened Pointers
  import opened Modular
  import opened ExplicitProducer
  import opened ExplicitQueue
  import Queue

  class Producer<T(!new)> {
    const config: Config

    var tail: nat
    var head: nat
    var tailBlock: Ptr
    var next: map<Node, Node>
    var slots: map<Node, seq<Queue.Slot<T>>>
    var flags: map<Node, seq<bool>>
    var hasIndex: bool
    var size: nat
    var used: nat
    var front: nat
    var headerFront: int
    var entries: array<Entry>
    var older: seq<Header>

    ghost function Fields(): State<T>
      reads this, entries
    {
      State(tail, head, tailBlock, next, slots, flags, hasIndex, size, used, front, headerFront,
            if hasIndex then entries[..] else [], older)
    }

    /** A producer with nothing enqueued; making the first index may fail. */
    constructor (c: Config, halfSize: nat, granted: bool)
      requires c.blockSize > 1 && halfSize > 0
      ensures config == c && fresh(entries)
      ensures Inv(c, Fields(), Past([], [], {}, Span(0, 0, 0), []))
    {
      config := c;
      tail, head, used, front := 0, 0, 0, 0;
      headerFront := -1;
      tailBlock := Null;
      next, slots, flags := map[], map[], map[];
      older := [];
      hasIndex := granted;
      size := if granted then 2 * halfSize else halfSize;
      entries := new Entry[2 * halfSize](_ => Entry(0, 0));
      new;
      if granted { EmptyCurrent(entries[..], c.blockSize); }
      assert Blocks(Fields(), Past([], [], {}, Span(0, 0, 0), [])).ring == [];
    }

    // -------------------------------------------------------------------------------------------
    // The empty flags of a block
    // -------------------------------------------------------------------------------------------

    method IsEmpty(n: Node) returns (empty: bool)
      requires n in flags && |flags[n]| == config.blockSize
      ensures empty == AllSet(flags[n])
    {
      for i := 0 to config.blockSize
        invariant forall j :: 0 <= j < i ==> flags[n][j]
      {
        if !flags[n][i] {
          return false;
        }
      }
      return true;
    }

    method ResetEmpty(n: Node)
      requires n in flags && |flags[n]| == config.blockSize
      modifies this`flags
      ensures flags == old(flags)[n := seq(config.blockSize, _ => false)]
    {
      for i := 0 to config.blockSize
        invariant n in flags && |flags[n]| == config.blockSize
        invariant forall j :: 0 <= j < i ==> !flags[n][j]
        invariant flags == old(flags)[n := flags[n]]
      {
        flags := flags[n := flags[n][i := false]];
      }
      assert flags[n] == seq(config.blockSize, _ => false);
    }

    // -------------------------------------------------------------------------------------------
    // The index
    // -------------------------------------------------------------------------------------------

    /** Copies the entries of the ring, oldest first, to the beginning of `larger`. */
    method CopyEntries(larger: array<Entry>) returns (j: nat)
      requires size > 0 && used <= size && used < larger.Length && front < size
      requires used > 0 ==> entries.Length == size && entries != larger
      modifies larger
      ensures j == used
      ensures forall p :: 0 <= p < used ==> larger[p] == entries[Turn(front - used + p, size)]
      ensures forall p :: used <= p < larger.Length ==> larger[p] == old(larger[p])
    {
      j := 0;
      if used != 0 {
        var i := (front - used) % size;
        TurnIsMod(front - used, size);
        ghost var from := front - used;
        assert Turn(front, size) == front by { TurnIsMod(front, size); }
        while j == 0 || i != front
          invariant j <= used && i < size && i == Turn(from + j, size)
          invariant forall p :: 0 <= p < j ==> larger[p] == entries[Turn(from + p, size)]
          invariant forall p :: j <= p < larger.Length ==> larger[p] == old(larger[p])
          decreases used - j
        {
          assert j < used;
          larger[j] := entries[i];
          TurnStep(from + j, 1, size);
          i := (i + 1) % size;
          j := j + 1;
        }
        if j < used { TurnDistinct(from + j, front, size); }
      }
    }

    method LargerIndex() returns (larger: array<Entry>, j: nat)
      requires SizesFit(config, Fields())
      ensures fresh(larger) && larger[..] == Copied(Fields()) && j == used
    {
      larger := new Entry[2 * size](_ => Entry(0, 0));
      j := CopyEntries(larger);
    }

    /** Replaces the index by one twice as large; the replaced one stays for the consumers that use it. */
    method NewBlockIndex(granted: bool) returns (ok: bool)
      requires SizesFit(config, Fields())
      modifies this`size, this`front, this`headerFront, this`entries, this`hasIndex, this`older
      ensures ok == granted
      ensures Fields() == if ok then Grown(config, old(Fields())) else old(Fields())
      ensures ok ==> fresh(entries)
      ensures !ok ==> entries == old(entries)
    {
      if !granted {
        return false;
      }
      var larger, j := LargerIndex();
      if hasIndex {
        older := older + [Header(entries[..])];
      }
      size := 2 * size;
      headerFront := used - 1;
      front := j;
      entries := larger;
      hasIndex := true;
      return true;
    }

    /** Puts the tail block into the next slot of the index. */
    method AddToIndex()
      requires hasIndex && front < size == entries.Length && tailBlock.At?
      modifies this`front, this`headerFront, entries
      ensures Fields() == Indexed(old(Fields()))
    {
      entries[front] := Entry(tail, tailBlock.node);
      headerFront := front;
      TurnIsMod(front + 1, size);
      front := (front + 1) % size;
    }

    // -------------------------------------------------------------------------------------------
    // Enqueueing
    // -------------------------------------------------------------------------------------------

    method IsAheadEmpty() returns (empty: bool)
      requires Fit(config, Fields())
      ensures empty == EmptyAhead(config, Fields())
    {
      if tailBlock.Null? {
        return false;
      }
      empty := IsEmpty(next[tailBlock.node]);
    }

    method Reuse()
      requires hasIndex && front < size == entries.Length
      requires tailBlock.At? && tailBlock.node in next
      requires next[tailBlock.node] in flags && |flags[next[tailBlock.node]]| == config.blockSize
      modifies this`tailBlock, this`flags, this`front, this`headerFront, entries
      ensures Fields() == Indexed(Reused(config, old(Fields())))
    {
      tailBlock := At(next[tailBlock.node]);
      ResetEmpty(tailBlock.node);
      AddToIndex();
    }

    /** Links `block` in behind the tail. */
    method Link(block: Node)
      requires hasIndex && front < size == entries.Length
      requires tailBlock.At? ==> tailBlock.node in next
      modifies this`tailBlock, this`next, this`slots, this`flags, this`used, this`front, this`headerFront, entries
      ensures Fields() == Indexed(WithBlock(config, old(Fields()), block))
    {
      slots := slots[block := seq(config.blockSize, _ => Queue.Vacant)];
      flags := flags[block := seq(config.blockSize, _ => false)];
      if tailBlock.Null? {
        next := next[block := block];
      } else {
        next := next[block := next[tailBlock.node]];
        next := next[tailBlock.node := block];
      }
      tailBlock := At(block);
      used := used + 1;
      AddToIndex();
    }

    /** Takes a new block, and a larger index first if the present one is full: `granted` tells whether memory
        for it is to be had, `block` is what the request for a block returns. */
    method Extend(granted: bool, block: Ptr) returns (ok: bool)
      requires Fit(config, Fields()) && Turn(tail, config.blockSize) == 0
      modifies this, entries
      ensures Outcome(ok, Fields()) == Extended(config, old(Fields()), granted, block)
      ensures entries == old(entries) || fresh(entries)
    {
      if Queue.IsFull(config.limit, config.leeway, config.blockSize, tail, head) {
        return false;
      }
      if !hasIndex || used == size {
        ok := NewBlockIndex(granted);
        if !ok {
          return false;
        }
      }
      if block.Null? {
        return false;
      }
      Link(block.node);
      return true;
    }

    /** At the end of a block, gets hold of the next one. */
    method Prepare(granted: bool, block: Ptr) returns (ok: bool)
      requires Fit(config, Fields())
      modifies this, entries
      ensures Outcome(ok, Fields()) == Prepared(config, old(Fields()), granted, block)
      ensures entries == old(entries) || fresh(entries)
    {
      TurnIsMod(tail, config.blockSize);
      if tail % config.blockSize != 0 {
        return true;
      }
      var empty := IsAheadEmpty();
      if empty {
        Reuse();
        return true;
      }
      ok := Extend(granted, block);
    }

    method Write(item: T)
      requires CanWrite(config, Fields())
      modifies this`slots, this`tail
      ensures Fields() == Written(config, old(Fields()), item)
    {
      TurnIsMod(tail, config.blockSize);
      var n := tailBlock.node;
      slots := slots[n := slots[n][tail % config.blockSize := Queue.Full(item)]];
      tail := tail + 1;
    }

    method Append(item: T, granted: bool, block: Ptr) returns (ok: bool)
      requires FitsFor(config, Fields(), granted, block)
      modifies this, entries
      ensures Outcome(ok, Fields()) == Enqueued(config, old(Fields()), item, granted, block)
      ensures entries == old(entries) || fresh(entries)
    {
      EnqueuedOutcome(config, Fields(), item, granted, block);
      ok := Prepare(granted, block);
      if ok {
        Write(item);
      }
    }

    /** Enqueues one item, if there is room and memory: the producer goes on with the item behind those it had, or
        with just those, and whatever a consumer has loaded keeps serving it. */
    method Enqueue(item: T, granted: bool, block: Ptr, ghost h: Past<T>) returns (ok: bool)
      requires Inv(config, Fields(), h) && (block.At? ==> block.node !in next)
      modifies this, entries
      ensures GoesOn(config, old(Fields()), h, Fields(), if ok then h.items + [item] else h.items)
      ensures old(Fit(config, Fields()))
      ensures ok <==> Succeeds(config, old(Fields()), h, granted, block)
      ensures used == (if ok && StartsNew(config, old(Fields()), h) then old(used) + 1 else old(used))
      ensures Outcome(ok, Fields()) == Enqueued(config, old(Fields()), item, granted, block)
      ensures entries == old(entries) || fresh(entries)
    {
      ghost var s := Fields();
      EnqueueIsFit(config, s, h, granted, block);
      ok := Append(item, granted, block);
      ghost var t := Fields();
      EnqueueMeans(config, s, h, item, granted, block, ok, t);
    }

    // -------------------------------------------------------------------------------------------
    // Consumers
    // -------------------------------------------------------------------------------------------

    /** What a consumer loads: the number of the current header, and the slot of the last block. */
    method Load(ghost h: Past<T>) returns (header: nat, f: nat)
      requires Inv(config, Fields(), h) && tail > 0
      ensures Covers(Fields(), h, header, f, |h.blocks|) && Home(tail - 1, config.blockSize) < |h.blocks|
    {
      PublishedCovers(config, Fields(), h);
      header, f := |older|, headerFront;
    }

    /** The block of item `x`, through a header and front loaded some time ago. */
    method Find(header: nat, f: nat, x: nat, ghost h: Past<T>, ghost n: nat) returns (block: Node)
      requires Inv(config, Fields(), h) && Covers(Fields(), h, header, f, n)
      requires x < tail && x !in h.done && Home(x, config.blockSize) < n
      ensures Holds(config, Fields(), block, x, h.items[x])
      ensures block == BlockHolding(Fields(), h, config.blockSize, x)
    {
      LookupIsRight(config, Fields(), h, header, f, n, x);
      BaseIsMasked(x, config.blockSize);
      var base := x - x % config.blockSize;
      if header < |older| {
        block := older[header].entries[SlotFromFront(older[header].entries, f, base, config.blockSize)].block;
      } else {
        block := entries[(f + (base - entries[f].base) / config.blockSize) % entries.Length].block;
      }
    }

    /** Takes the next index. */
    method Claim(ghost h: Past<T>) returns (x: nat)
      requires Inv(config, Fields(), h) && head < tail
      modifies this`head
      ensures x == old(head) && x !in h.done
      ensures Fields() == old(Fields()).(head := x + 1) && Inv(config, Fields(), h)
    {
      ClaimKeeps(config, Fields(), h);
      x := head;
      head := head + 1;
    }

    /** Moves item `x` out of its block and sets its flag, which is not set yet. */
    method Take(block: Node, x: nat, ghost h: Past<T>) returns (item: T)
      requires Inv(config, Fields(), h) && x < head && x !in h.done
      requires block == BlockHolding(Fields(), h, config.blockSize, x)
      modifies this`slots, this`flags
      ensures item == h.items[x]
      ensures Has(config, old(Fields()), block) && Fields() == Taken(config, old(Fields()), block, x)
      ensures Inv(config, Fields(), h.(done := h.done + {x}))
    {
      TakeKeeps(config, Fields(), h, x);
      TurnIsMod(x, config.blockSize);
      var slot := x % config.blockSize;
      item := slots[block][slot].item;
      slots := slots[block := slots[block][slot := Queue.Vacant]];
      assert !flags[block][config.blockSize - 1 - slot];
      flags := flags[block := flags[block][config.blockSize - 1 - slot := true]];
    }
  }
}
