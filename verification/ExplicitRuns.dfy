/** An explicit producer's sub-queue over whole runs: any number of consumers run `dequeue`, each of their loads and
    updates a step, while the producer enqueues; every item is delivered once and in order. */
module ExplicitRuns {
  import opened Pointers
  import opened Modular
  import opened ExplicitProducer
  import opened ExplicitQueue
  import Tickets
  import TicketsProof
  import Queue

  // ---------------------------------------------------------------------------------------------
  // The machine
  // ---------------------------------------------------------------------------------------------

  /** A consumer outside the blocks; having claimed index `x` it loads the header, then the front of that header,
      then looks the block up, and takes the item. */
  datatype Consumer =
    | Out
    | Want(x: nat)
    | GotHeader(x: nat, header: nat)
    | GotFront(x: nat, header: nat, f: nat)
    | GotBlock(x: nat, block: Node)

  /** `fronts` are the fronts that replaced headers were left with.
      History: `items` is everything enqueued so far, `got` what was moved out to a consumer, by index. */
  datatype System<T> = System(
    fields: State<T>,
    fronts: seq<int>,
    tickets: Tickets.State,
    consumers: seq<Consumer>,
    items: seq<T>,
    got: map<nat, T>)

  /** The producer enqueues `item`, where `granted` tells whether there is memory for a larger index, and `block` is
      what a request for a block returns; consumer `i` steps. */
  datatype Action<T> = Produce(item: T, granted: bool, block: Ptr) | Consume(i: nat)

  predicate Shape<T>(s: System<T>) {
    |s.consumers| == |s.tickets.pcs|
  }

  /** The front of a header, at the time it is loaded. */
  function FrontOf<T>(s: System<T>, header: nat): int {
    if header < |s.fronts| then s.fronts[header] else s.fields.headerFront
  }

  predicate CanLook<T>(c: Config, s: State<T>, header: nat, f: nat) {
    c.blockSize > 0 && f < |EntriesOf(s, header)|
  }

  predicate CanTake<T>(c: Config, s: State<T>, block: Node, x: nat) {
    Has(c, s, block) && s.slots[block][x % c.blockSize].Full?
  }

  /** What the operations rely on without testing it. */
  ghost predicate Enabled<T>(c: Config, s: System<T>, a: Action<T>) {
    match a
    case Produce(_, _, block) => Fit(c, s.fields) && (block.At? ==> block.node !in s.fields.next)
    case Consume(i) =>
      && Shape(s) && i < |s.consumers|
      && match s.consumers[i]
         case Want(_) => s.fields.hasIndex
         case GotHeader(_, header) => FrontOf(s, header) >= 0
         case GotFront(_, header, f) => CanLook(c, s.fields, header, f)
         case GotBlock(x, block) => CanTake(c, s.fields, block, x)
         case Out => true
  }

  function SetConsumer<T>(s: System<T>, i: nat, c: Consumer): System<T>
    requires i < |s.consumers|
  {
    s.(consumers := s.consumers[i := c])
  }

  function StepTickets<T>(s: System<T>, i: nat): System<T>
    requires i < |s.tickets.pcs|
  {
    var tickets := Tickets.After(s.tickets, i, 1);
    s.(tickets := tickets, fields := s.fields.(head := tickets.head))
  }

  function Lookup<T>(c: Config, s: State<T>, header: nat, f: nat, x: nat): Node
    requires CanLook(c, s, header, f)
  {
    var entries := EntriesOf(s, header);
    entries[SlotFromFront(entries, f, x - x % c.blockSize, c.blockSize)].block
  }

  ghost function After<T>(c: Config, s: System<T>, a: Action<T>): System<T>
    requires Enabled(c, s, a)
  {
    match a
    case Produce(item, granted, block) =>
      var out := Enqueued(c, s.fields, item, granted, block);
      var t := s.(fields := out.state,
                  fronts := if |out.state.older| > |s.fields.older| then s.fronts + [s.fields.headerFront] else s.fronts);
      if out.ok then t.(tickets := Tickets.Publish(s.tickets, 1), items := s.items + [item]) else t
    case Consume(i) =>
      match s.consumers[i]
      case Out =>
        var pc := s.tickets.pcs[i];
        if pc.Deliver? && pc.count > 0 then SetConsumer(s, i, Want(pc.first)) else StepTickets(s, i)
      case Want(x) => SetConsumer(s, i, GotHeader(x, |s.fields.older|))
      case GotHeader(x, header) => SetConsumer(s, i, GotFront(x, header, FrontOf(s, header)))
      case GotFront(x, header, f) => SetConsumer(s, i, GotBlock(x, Lookup(c, s.fields, header, f, x)))
      case GotBlock(x, block) =>
        var t := StepTickets(SetConsumer(s, i, Out), i);
        t.(fields := Taken(c, s.fields, block, x), got := s.got[x := s.fields.slots[block][x % c.blockSize].item])
  }

  ghost predicate Init<T>(c: Config, s: System<T>) {
    && Inv(c, s.fields, Past([], [], {}, Span(0, 0, 0), []))
    && s.fields.older == [] && s.fields.head == 0 && s.fronts == []
    && Tickets.Init(s.tickets) && Shape(s)
    && (forall i :: 0 <= i < |s.consumers| ==> s.consumers[i] == Out)
    && s.items == [] && s.got == map[]
  }

  ghost predicate Step<T>(c: Config, s: System<T>, a: Action<T>, t: System<T>) {
    Enabled(c, s, a) && t == After(c, s, a)
  }

  ghost predicate Run<T>(c: Config, r: seq<System<T>>, acts: seq<Action<T>>) {
    && |r| == |acts| + 1
    && Init(c, r[0])
    && (forall k {:trigger acts[k]} :: 0 <= k < |acts| ==> Step(c, r[k], acts[k], r[k + 1]))
  }

  // ---------------------------------------------------------------------------------------------
  // The invariant
  // ---------------------------------------------------------------------------------------------

  /** Index `x` is part of consumer `i`'s claim. */
  ghost predicate Pending<T>(s: System<T>, i: nat, x: nat)
    requires Shape(s) && i < |s.consumers|
  {
    var pc := s.tickets.pcs[i];
    pc.Deliver? && pc.first <= x < pc.first + pc.count
  }

  /** How many blocks header `header` can lead to: those that were there when it was replaced. */
  ghost function Reach<T>(h: Past<T>, limits: seq<nat>, header: nat): nat {
    if header < |limits| then limits[header] else |h.blocks|
  }

  ghost predicate ConsumerOk<T>(c: Config, s: System<T>, h: Past<T>, limits: seq<nat>, i: nat)
    requires Shape(s) && i < |s.consumers| && c.blockSize > 0
  {
    var pc := s.tickets.pcs[i];
    && (forall x: nat :: Pending(s, i, x) ==> x !in s.got)
    && (match s.consumers[i]
        case Out => true
        case Want(x) => pc == Tickets.Deliver(x, 1)
        case GotHeader(x, header) =>
          pc == Tickets.Deliver(x, 1) && header <= |limits| && Home(x, c.blockSize) < Reach(h, limits, header)
        case GotFront(x, header, f) =>
          pc == Tickets.Deliver(x, 1) && Covers(s.fields, h, header, f, Home(x, c.blockSize) + 1)
        case GotBlock(x, block) => pc == Tickets.Deliver(x, 1) && block == BlockHolding(s.fields, h, c.blockSize, x))
  }

  /** A single dequeue asks for one item at each point of its way. */
  predicate AsksForOne(pc: Tickets.PC) {
    match pc
    case LoadOvercommit(m, _) => m == 1
    case LoadOptimistic(m, _, _) => m == 1
    case TakeTickets(want, _) => want == 1
    case Recheck(want, _, _) => want == 1
    case Refund(excess, claim) => claim == 0
    case Claim(count) => count == 1
    case Deliver(_, count) => count == 1
    case _ => true
  }

  /** Whatever is claimed is pending or moved out. */
  ghost predicate Accounted<T>(s: System<T>, y: nat)
    requires Shape(s)
  {
    y in s.got || exists j :: 0 <= j < |s.consumers| && Pending(s, j, y)
  }

  ghost predicate CountsOk<T>(s: System<T>, h: Past<T>)
    requires Shape(s)
  {
    && TicketsProof.Inv(s.tickets)
    && s.tickets.tail == |s.items| && h.items == s.items && s.fields.head == s.tickets.head
    && (forall x :: x in h.done <==> x in s.got)
    && (forall x :: x in s.got ==> x < s.tickets.head && x < |s.items| && s.got[x] == s.items[x])
    && (forall x: nat :: x < s.tickets.head ==> Accounted(s, x))
    && (forall i :: 0 <= i < |s.tickets.pcs| ==> AsksForOne(s.tickets.pcs[i]))
  }

  /** Replaced headers keep leading to the blocks they led to. */
  ghost predicate FrontsOk<T>(s: System<T>, h: Past<T>, limits: seq<nat>) {
    && |s.fronts| == |limits| == |s.fields.older|
    && (forall k :: 0 <= k < |limits| ==>
          s.fronts[k] >= 0 && limits[k] <= |h.blocks| && Covers(s.fields, h, k, s.fronts[k], limits[k]))
  }

  ghost predicate RunInvWith<T>(c: Config, s: System<T>, h: Past<T>, limits: seq<nat>) {
    && Shape(s) && c.blockSize > 0
    && Inv(c, s.fields, h)
    && CountsOk(s, h)
    && FrontsOk(s, h, limits)
    && (forall i :: 0 <= i < |s.consumers| ==> ConsumerOk(c, s, h, limits, i))
  }

  ghost predicate RunInv<T(!new)>(c: Config, s: System<T>) {
    exists h: Past<T>, limits: seq<nat> :: RunInvWith(c, s, h, limits)
  }

  // ---------------------------------------------------------------------------------------------
  // Consumers
  // ---------------------------------------------------------------------------------------------

  lemma PendingBelowTail<T>(s: System<T>, i: nat, x: nat)
    requires Shape(s) && TicketsProof.Inv(s.tickets) && i < |s.consumers| && Pending(s, i, x)
    ensures x < s.tickets.head <= s.tickets.tail
    ensures forall j :: 0 <= j < |s.consumers| && j != i ==> !Pending(s, j, x)
  {
    TicketsProof.ClaimsStayBelowTail(s.tickets);
    var passed: set<nat>, failed: set<nat> :| TicketsProof.InvWith(s.tickets, passed, failed);
    assert TicketsProof.ThreadOk(s.tickets, passed, failed, s.tickets.pcs[i]);
    forall j | 0 <= j < |s.consumers| && j != i ensures !Pending(s, j, x) {
      assert if i < j then TicketsProof.Apart(s.tickets.pcs[i], s.tickets.pcs[j])
             else TicketsProof.Apart(s.tickets.pcs[j], s.tickets.pcs[i]);
    }
  }

  /** The blocks started so far include that of every item enqueued. */
  lemma StartedBefore<T>(c: Config, s: State<T>, h: Past<T>, x: nat)
    requires Inv(c, s, h) && x < s.tail
    ensures Home(x, c.blockSize) < |h.blocks| && h.blocks != []
  {
    HomeMonotone(x, |h.items| - 1, c.blockSize);
  }

  lemma LookupIsSlot<T>(c: Config, s: State<T>, header: nat, f: nat, x: nat)
    requires CanLook(c, s, header, f)
    ensures var entries := EntriesOf(s, header);
            Lookup(c, s, header, f, x)
            == entries[SlotFromFront(entries, f, Base(Home(x, c.blockSize), c.blockSize), c.blockSize)].block
  {
    BaseIsMasked(x, c.blockSize);
  }

  lemma LookupFinds<T>(c: Config, s: State<T>, h: Past<T>, header: nat, f: nat, x: nat)
    requires Inv(c, s, h) && Covers(s, h, header, f, Home(x, c.blockSize) + 1) && x < s.tail && x !in h.done
    ensures CanLook(c, s, header, f) && Lookup(c, s, header, f, x) == BlockHolding(s, h, c.blockSize, x)
  {
    LookupIsRight(c, s, h, header, f, Home(x, c.blockSize) + 1, x);
    LookupIsSlot(c, s, header, f, x);
  }

  lemma TakeFinds<T>(c: Config, s: State<T>, h: Past<T>, x: nat)
    requires Inv(c, s, h) && x < s.head && x !in h.done
    ensures var block := BlockHolding(s, h, c.blockSize, x);
            && CanTake(c, s, block, x) && s.slots[block][x % c.blockSize] == Queue.Full(h.items[x])
            && Inv(c, Taken(c, s, block, x), h.(done := h.done + {x}))
  {
    TakeKeeps(c, s, h, x);
    TurnIsMod(x, c.blockSize);
  }

  /** A consumer is still right about a state in which the index and the blocks led to are the same. */
  ghost predicate SameIndex<T>(c: Config, s: System<T>, h: Past<T>, t: System<T>, k: Past<T>)
    requires c.blockSize > 0
  {
    && t.fields.older == s.fields.older && t.fields.hasIndex == s.fields.hasIndex && t.fields.size == s.fields.size
    && t.fields.headerFront == s.fields.headerFront && t.fronts == s.fronts
    && k.blocks == h.blocks && k.span == h.span && k.spans == h.spans
    && (forall x: nat :: BlockHolding(t.fields, k, c.blockSize, x) == BlockHolding(s.fields, h, c.blockSize, x))
  }

  lemma FrontsStay<T>(c: Config, s: System<T>, h: Past<T>, t: System<T>, k: Past<T>, limits: seq<nat>)
    requires c.blockSize > 0 && SameIndex(c, s, h, t, k) && FrontsOk(s, h, limits)
    ensures FrontsOk(t, k, limits)
  {
    forall j | 0 <= j < |limits| ensures Covers(t.fields, k, j, t.fronts[j], limits[j]) {
      assert Covers(s.fields, h, j, s.fronts[j], limits[j]);
    }
  }

  lemma OtherStaysOk<T>(c: Config, s: System<T>, h: Past<T>, t: System<T>, k: Past<T>, limits: seq<nat>, j: nat)
    requires Shape(s) && Shape(t) && c.blockSize > 0 && SameIndex(c, s, h, t, k)
    requires j < |s.consumers| == |t.consumers| && t.consumers[j] == s.consumers[j] && t.tickets.pcs[j] == s.tickets.pcs[j]
    requires ConsumerOk(c, s, h, limits, j)
    requires forall x: nat :: Pending(s, j, x) ==> (x in t.got <==> x in s.got)
    ensures ConsumerOk(c, t, k, limits, j)
  {
    assert forall x: nat :: Pending(t, j, x) <==> Pending(s, j, x);
  }

  /** Steps of a consumer that only load something. */
  lemma LoadKeeps<T(!new)>(c: Config, s: System<T>, h: Past<T>, limits: seq<nat>, i: nat, t: System<T>)
    requires RunInvWith(c, s, h, limits) && i < |s.consumers| && |t.consumers| == |s.consumers|
    requires t == SetConsumer(s, i, t.consumers[i]) && ConsumerOk(c, t, h, limits, i)
    ensures RunInv(c, t)
  {
    assert SameIndex(c, s, h, t, h);
    forall j | 0 <= j < |t.consumers| ensures ConsumerOk(c, t, h, limits, j) {
      if j != i { OtherStaysOk(c, s, h, t, h, limits, j); }
    }
    FrontsStay(c, s, h, t, h, limits);
    SameCounts(s, h, t);
    assert RunInvWith(c, t, h, limits);
  }

  lemma SameCounts<T>(s: System<T>, h: Past<T>, t: System<T>)
    requires Shape(s) && CountsOk(s, h) && |t.consumers| == |s.consumers| && t == s.(consumers := t.consumers)
    ensures Shape(t) && CountsOk(t, h)
  {
    forall x: nat | Accounted(s, x) ensures Accounted(t, x) {
      if x !in s.got {
        var j :| 0 <= j < |s.consumers| && Pending(s, j, x);
        assert Pending(t, j, x);
      }
    }
  }

  lemma BeginKeeps<T(!new)>(c: Config, s: System<T>, h: Past<T>, limits: seq<nat>, i: nat, t: System<T>)
    requires RunInvWith(c, s, h, limits) && i < |s.consumers| && s.consumers[i].Out?
    requires s.tickets.pcs[i].Deliver? && t == SetConsumer(s, i, Want(s.tickets.pcs[i].first))
    ensures RunInv(c, t)
  {
    assert ConsumerOk(c, s, h, limits, i);
    LoadKeeps(c, s, h, limits, i, t);
  }

  lemma HeaderKeeps<T(!new)>(c: Config, s: System<T>, h: Past<T>, limits: seq<nat>, i: nat, t: System<T>)
    requires RunInvWith(c, s, h, limits) && i < |s.consumers| && s.consumers[i].Want?
    requires t == SetConsumer(s, i, GotHeader(s.consumers[i].x, |s.fields.older|))
    ensures RunInv(c, t)
  {
    assert ConsumerOk(c, s, h, limits, i) && Pending(s, i, s.consumers[i].x);
    PendingBelowTail(s, i, s.consumers[i].x);
    StartedBefore(c, s.fields, h, s.consumers[i].x);
    LoadKeeps(c, s, h, limits, i, t);
  }

  lemma FrontIsRight<T>(c: Config, s: System<T>, h: Past<T>, limits: seq<nat>, i: nat)
    requires RunInvWith(c, s, h, limits) && i < |s.consumers| && s.consumers[i].GotHeader?
    ensures var GotHeader(x, header) := s.consumers[i];
            && FrontOf(s, header) >= 0
            && Covers(s.fields, h, header, FrontOf(s, header), Home(x, c.blockSize) + 1)
  {
    var GotHeader(x, header) := s.consumers[i];
    assert ConsumerOk(c, s, h, limits, i) && Pending(s, i, x);
    PendingBelowTail(s, i, x);
    StartedBefore(c, s.fields, h, x);
    if header < |limits| {
      assert Covers(s.fields, h, header, s.fronts[header], limits[header]);
    } else {
      PublishedCovers(c, s.fields, h);
    }
  }

  lemma FrontKeeps<T(!new)>(c: Config, s: System<T>, h: Past<T>, limits: seq<nat>, i: nat, t: System<T>)
    requires RunInvWith(c, s, h, limits) && i < |s.consumers| && s.consumers[i].GotHeader?
    requires FrontOf(s, s.consumers[i].header) >= 0
    requires t == SetConsumer(s, i, GotFront(s.consumers[i].x, s.consumers[i].header, FrontOf(s, s.consumers[i].header)))
    ensures RunInv(c, t)
  {
    FrontIsRight(c, s, h, limits, i);
    assert ConsumerOk(c, s, h, limits, i);
    LoadKeeps(c, s, h, limits, i, t);
  }

  lemma BlockIsRight<T>(c: Config, s: System<T>, h: Past<T>, limits: seq<nat>, i: nat)
    requires RunInvWith(c, s, h, limits) && i < |s.consumers| && s.consumers[i].GotFront?
    ensures var GotFront(x, header, f) := s.consumers[i];
            && CanLook(c, s.fields, header, f)
            && Lookup(c, s.fields, header, f, x) == BlockHolding(s.fields, h, c.blockSize, x)
  {
    var GotFront(x, header, f) := s.consumers[i];
    assert ConsumerOk(c, s, h, limits, i) && Pending(s, i, x);
    PendingBelowTail(s, i, x);
    LookupFinds(c, s.fields, h, header, f, x);
  }

  lemma LookKeeps<T(!new)>(c: Config, s: System<T>, h: Past<T>, limits: seq<nat>, i: nat, t: System<T>)
    requires RunInvWith(c, s, h, limits) && i < |s.consumers| && s.consumers[i].GotFront?
    requires CanLook(c, s.fields, s.consumers[i].header, s.consumers[i].f)
    requires var GotFront(x, header, f) := s.consumers[i];
             t == SetConsumer(s, i, GotBlock(x, Lookup(c, s.fields, header, f, x)))
    ensures RunInv(c, t)
  {
    BlockIsRight(c, s, h, limits, i);
    assert ConsumerOk(c, s, h, limits, i);
    LoadKeeps(c, s, h, limits, i, t);
  }

  // ---------------------------------------------------------------------------------------------
  // Consumers' steps on the counters, and on the items
  // ---------------------------------------------------------------------------------------------

  /** What a step of a single dequeue does to the counters. */
  lemma CounterStep(s: Tickets.State, i: nat)
    requires i < |s.pcs| && AsksForOne(s.pcs[i]) && !s.pcs[i].Deliver?
    ensures var t := Tickets.After(s, i, 1);
            && t.tail == s.tail && |t.pcs| == |s.pcs| && AsksForOne(t.pcs[i])
            && (forall j :: 0 <= j < |s.pcs| && j != i ==> t.pcs[j] == s.pcs[j])
            && t.head == (if s.pcs[i].Claim? then s.head + 1 else s.head)
            && (if s.pcs[i].Claim? then t.pcs[i] == Tickets.Deliver(s.head, 1) else !t.pcs[i].Deliver?)
  {
  }

  lemma ClaimedFields<T>(c: Config, s: System<T>, h: Past<T>, i: nat)
    requires Shape(s) && Inv(c, s.fields, h) && CountsOk(s, h) && i < |s.tickets.pcs| && !s.tickets.pcs[i].Deliver?
    ensures Inv(c, s.fields.(head := Tickets.After(s.tickets, i, 1).head), h)
  {
    CounterStep(s.tickets, i);
    TicketsProof.ClaimsStayBelowTail(s.tickets);
    if s.tickets.pcs[i].Claim? { ClaimKeeps(c, s.fields, h); }
  }

  lemma CountsStay<T>(s: System<T>, h: Past<T>, i: nat, t: System<T>)
    requires Shape(s) && CountsOk(s, h) && i < |s.consumers| && !s.tickets.pcs[i].Deliver? && t == StepTickets(s, i)
    ensures Shape(t) && CountsOk(t, h)
    ensures forall x: nat :: Pending(t, i, x) ==> x !in t.got
  {
    CounterStep(s.tickets, i);
    TicketsProof.StepKeeps(s.tickets, i, 1);
    forall x: nat | x < t.tickets.head ensures Accounted(t, x) {
      if x == s.tickets.head {
        assert Pending(t, i, x);
      } else if x !in s.got {
        assert Accounted(s, x);
        var j :| 0 <= j < |s.consumers| && Pending(s, j, x);
        assert Pending(t, j, x);
      }
    }
  }

  lemma TicketStepKeeps<T(!new)>(c: Config, s: System<T>, h: Past<T>, limits: seq<nat>, i: nat, t: System<T>)
    requires RunInvWith(c, s, h, limits) && i < |s.consumers| && s.consumers[i].Out? && !s.tickets.pcs[i].Deliver?
    requires t == StepTickets(s, i)
    ensures RunInv(c, t)
  {
    CounterStep(s.tickets, i);
    ClaimedFields(c, s, h, i);
    CountsStay(s, h, i, t);
    assert SameIndex(c, s, h, t, h);
    FrontsStay(c, s, h, t, h, limits);
    forall j | 0 <= j < |t.consumers| ensures ConsumerOk(c, t, h, limits, j) {
      if j != i { OtherStaysOk(c, s, h, t, h, limits, j); }
    }
    assert RunInvWith(c, t, h, limits);
  }

  /** What taking item `x` changes. */
  ghost predicate TakenFrom<T>(c: Config, s: System<T>, i: nat, x: nat, t: System<T>)
    requires Shape(s)
  {
    && i < |s.consumers| && s.tickets.pcs[i] == Tickets.Deliver(x, 1)
    && t.tickets == Tickets.After(s.tickets, i, 1) && t.consumers == s.consumers[i := Out]
    && t.items == s.items && t.fronts == s.fronts
    && x < |s.items| && t.got == s.got[x := s.items[x]]
  }

  lemma TakenCounts<T>(c: Config, s: System<T>, h: Past<T>, i: nat, x: nat, t: System<T>)
    requires Shape(s) && CountsOk(s, h) && TakenFrom(c, s, i, x, t) && t.fields.head == s.fields.head
    ensures Shape(t) && CountsOk(t, h.(done := h.done + {x}))
  {
    TicketsProof.StepKeeps(s.tickets, i, 1);
    assert Pending(s, i, x);
    PendingBelowTail(s, i, x);
    forall y: nat | y < t.tickets.head ensures Accounted(t, y) {
      assert Accounted(s, y);
      if y !in s.got && y != x { StillPending(c, s, i, x, t, y); }
    }
  }

  lemma StillPending<T>(c: Config, s: System<T>, i: nat, x: nat, t: System<T>, y: nat)
    requires Shape(s) && TakenFrom(c, s, i, x, t) && y != x
    requires exists j :: 0 <= j < |s.consumers| && Pending(s, j, y)
    ensures Shape(t) && exists j :: 0 <= j < |t.consumers| && Pending(t, j, y)
  {
    var j :| 0 <= j < |s.consumers| && Pending(s, j, y);
    assert Pending(t, j, y);
  }

  lemma TakenBlocksStay<T>(c: Config, s: State<T>, h: Past<T>, block: Node, x: nat)
    requires Has(c, s, block)
    ensures forall y: nat :: BlockHolding(Taken(c, s, block, x), h.(done := h.done + {x}), c.blockSize, y)
                          == BlockHolding(s, h, c.blockSize, y)
  {
  }

  lemma TakeRunKeeps<T(!new)>(c: Config, s: System<T>, h: Past<T>, limits: seq<nat>, i: nat, x: nat, block: Node, t: System<T>)
    requires RunInvWith(c, s, h, limits) && TakenFrom(c, s, i, x, t) && Has(c, s.fields, block)
    requires t.fields == Taken(c, s.fields, block, x) && Inv(c, t.fields, h.(done := h.done + {x}))
    ensures RunInv(c, t)
  {
    var k := h.(done := h.done + {x});
    TakenBlocksStay(c, s.fields, h, block, x);
    TakenCounts(c, s, h, i, x, t);
    assert SameIndex(c, s, h, t, k);
    FrontsStay(c, s, h, t, k, limits);
    forall j | 0 <= j < |t.consumers| ensures ConsumerOk(c, t, k, limits, j) {
      TakenConsumer(c, s, h, limits, i, x, t, k, j);
    }
    assert RunInvWith(c, t, k, limits);
  }

  lemma TakenConsumer<T>(c: Config, s: System<T>, h: Past<T>, limits: seq<nat>, i: nat, x: nat, t: System<T>, k: Past<T>, j: nat)
    requires Shape(s) && Shape(t) && c.blockSize > 0 && TicketsProof.Inv(s.tickets) && TakenFrom(c, s, i, x, t)
    requires SameIndex(c, s, h, t, k) && j < |s.consumers| && ConsumerOk(c, s, h, limits, j)
    ensures ConsumerOk(c, t, k, limits, j)
  {
    assert Pending(s, i, x);
    PendingBelowTail(s, i, x);
    if j != i { OtherStaysOk(c, s, h, t, k, limits, j); }
  }

  /** The item is there, and taking it moves it out. */
  lemma ItemIsThere<T>(c: Config, s: System<T>, h: Past<T>, limits: seq<nat>, i: nat)
    requires RunInvWith(c, s, h, limits) && i < |s.consumers| && s.consumers[i].GotBlock?
    ensures var GotBlock(x, block) := s.consumers[i];
            && CanTake(c, s.fields, block, x) && x < |s.items| && s.tickets.pcs[i] == Tickets.Deliver(x, 1)
            && s.fields.slots[block][x % c.blockSize] == Queue.Full(s.items[x])
            && Inv(c, Taken(c, s.fields, block, x), h.(done := h.done + {x}))
  {
    var GotBlock(x, block) := s.consumers[i];
    assert ConsumerOk(c, s, h, limits, i) && Pending(s, i, x);
    PendingBelowTail(s, i, x);
    TakeFinds(c, s.fields, h, x);
  }

  lemma TakeStepKeeps<T(!new)>(c: Config, s: System<T>, h: Past<T>, limits: seq<nat>, i: nat, t: System<T>)
    requires RunInvWith(c, s, h, limits) && i < |s.consumers| && s.consumers[i].GotBlock?
    requires Enabled(c, s, Consume(i)) && t == After(c, s, Consume(i))
    ensures RunInv(c, t)
  {
    ItemIsThere(c, s, h, limits, i);
    TakeRunKeeps(c, s, h, limits, i, s.consumers[i].x, s.consumers[i].block, t);
  }

  lemma ConsumerKeeps<T(!new)>(c: Config, s: System<T>, h: Past<T>, limits: seq<nat>, i: nat, t: System<T>)
    requires RunInvWith(c, s, h, limits) && Enabled(c, s, Consume(i)) && t == After(c, s, Consume(i))
    ensures RunInv(c, t)
  {
    match s.consumers[i]
    case Out =>
      if s.tickets.pcs[i].Deliver? { BeginKeeps(c, s, h, limits, i, t); } else { TicketStepKeeps(c, s, h, limits, i, t); }
    case Want(_) => HeaderKeeps(c, s, h, limits, i, t);
    case GotHeader(_, _) => FrontKeeps(c, s, h, limits, i, t);
    case GotFront(_, _, _) => LookKeeps(c, s, h, limits, i, t);
    case GotBlock(_, _) => TakeStepKeeps(c, s, h, limits, i, t);
  }

  // ---------------------------------------------------------------------------------------------
  // The producer
  // ---------------------------------------------------------------------------------------------

  /** An enqueue replaces the index at most once, and only one that is full. */
  lemma EnqueueReplaces<T>(c: Config, s: State<T>, item: T, granted: bool, block: Ptr)
    requires Fit(c, s)
    ensures var t := Enqueued(c, s, item, granted, block).state;
            && t.head == s.head
            && (t.older == s.older || (s.hasIndex && s.used == s.size && t.older == s.older + [Header(s.entries)]))
  {
    PreparedCases(c, s, granted, block);
  }

  lemma HoldingStays<T>(c: Config, s: State<T>, h: Past<T>, t: State<T>, k: Past<T>, x: nat)
    requires Inv(c, s, h) && Inv(c, t, k) && h.blocks <= k.blocks && h.items <= k.items && k.done == h.done
    requires x < |h.items| && x !in h.done
    ensures BlockHolding(t, k, c.blockSize, x) == BlockHolding(s, h, c.blockSize, x)
  {
    assert Held(Blocks(s, h), c.blockSize, x, h.items[x]);
    assert Held(Blocks(t, k), c.blockSize, x, k.items[x]);
  }

  /** The producer went on, and left its old front behind if it replaced the index. */
  ghost predicate WentOn<T>(c: Config, s: System<T>, h: Past<T>, limits: seq<nat>, t: System<T>, k: Past<T>, more: seq<nat>) {
    && c.blockSize > 0
    && h.blocks <= k.blocks && h.items <= k.items && k.done == h.done
    && (forall header: nat, f: nat, n: nat :: Covers(s.fields, h, header, f, n) ==> Covers(t.fields, k, header, f, n))
    && t.consumers == s.consumers && t.got == s.got && t.tickets.pcs == s.tickets.pcs
    && (if |t.fields.older| > |s.fields.older| then
          && t.fronts == s.fronts + [s.fields.headerFront] && more == limits + [|h.blocks|] && h.blocks != []
          && |t.fields.older| == |s.fields.older| + 1
        else t.fronts == s.fronts && more == limits && |t.fields.older| == |s.fields.older|)
  }

  lemma ProducedFronts<T>(c: Config, s: System<T>, h: Past<T>, limits: seq<nat>, t: System<T>, k: Past<T>, more: seq<nat>)
    requires Inv(c, s.fields, h) && WentOn(c, s, h, limits, t, k, more) && FrontsOk(s, h, limits)
    ensures FrontsOk(t, k, more)
  {
    if h.blocks != [] { PublishedCovers(c, s.fields, h); }
    forall j | 0 <= j < |more|
      ensures t.fronts[j] >= 0 && more[j] <= |k.blocks| && Covers(t.fields, k, j, t.fronts[j], more[j])
    {
      if j < |limits| { assert Covers(s.fields, h, j, s.fronts[j], limits[j]); }
    }
  }

  lemma ProducedConsumer<T>(c: Config, s: System<T>, h: Past<T>, limits: seq<nat>, t: System<T>, k: Past<T>, more: seq<nat>, i: nat)
    requires Inv(c, s.fields, h) && Inv(c, t.fields, k)
    requires Shape(s) && Shape(t) && WentOn(c, s, h, limits, t, k, more) && FrontsOk(s, h, limits)
    requires CountsOk(s, h) && i < |s.consumers| && ConsumerOk(c, s, h, limits, i)
    ensures ConsumerOk(c, t, k, more, i)
  {
    assert forall x: nat :: Pending(t, i, x) <==> Pending(s, i, x);
    if s.consumers[i].GotBlock? {
      assert Pending(s, i, s.consumers[i].x);
      PendingBelowTail(s, i, s.consumers[i].x);
      HoldingStays(c, s.fields, h, t.fields, k, s.consumers[i].x);
    }
  }

  lemma ProducedCounts<T>(s: System<T>, h: Past<T>, t: System<T>, k: Past<T>, ok: bool, item: T)
    requires Shape(s) && CountsOk(s, h) && Produced(s, t, ok, item) && k.items == t.items && k.done == h.done
    ensures Shape(t) && CountsOk(t, k)
  {
    TicketsProof.PublishKeeps(s.tickets, 1);
    forall x: nat | x < t.tickets.head && x !in t.got ensures Accounted(t, x) {
      assert Accounted(s, x);
      var j :| 0 <= j < |s.consumers| && Pending(s, j, x);
      assert Pending(t, j, x);
    }
  }

  lemma WentOnKeeps<T(!new)>(c: Config, s: System<T>, h: Past<T>, limits: seq<nat>, t: System<T>, k: Past<T>, more: seq<nat>)
    requires RunInvWith(c, s, h, limits) && WentOn(c, s, h, limits, t, k, more)
    requires Inv(c, t.fields, k) && Shape(t) && CountsOk(t, k)
    ensures RunInv(c, t)
  {
    ProducedFronts(c, s, h, limits, t, k, more);
    forall i | 0 <= i < |t.consumers| ensures ConsumerOk(c, t, k, more, i) {
      ProducedConsumer(c, s, h, limits, t, k, more, i);
    }
    assert RunInvWith(c, t, k, more);
  }

  /** What an enqueue of `item` that ends with `ok` does beside the fields. */
  ghost predicate Produced<T>(s: System<T>, t: System<T>, ok: bool, item: T) {
    && t.consumers == s.consumers && t.got == s.got && t.fields.head == s.fields.head
    && t.fronts == (if |t.fields.older| > |s.fields.older| then s.fronts + [s.fields.headerFront] else s.fronts)
    && t.tickets == (if ok then Tickets.Publish(s.tickets, 1) else s.tickets)
    && t.items == (if ok then s.items + [item] else s.items)
    && (|| t.fields.older == s.fields.older
        || (s.fields.hasIndex && s.fields.used == s.fields.size && t.fields.older == s.fields.older + [Header(s.fields.entries)]))
  }

  lemma ProduceEffect<T>(c: Config, s: System<T>, item: T, granted: bool, block: Ptr, t: System<T>)
    requires Enabled(c, s, Produce(item, granted, block)) && t == After(c, s, Produce(item, granted, block))
    ensures var out := Enqueued(c, s.fields, item, granted, block);
            t.fields == out.state && Produced(s, t, out.ok, item)
  {
    EnqueueReplaces(c, s.fields, item, granted, block);
  }

  lemma ProducerKeeps<T(!new)>(c: Config, s: System<T>, h: Past<T>, limits: seq<nat>, item: T, granted: bool, block: Ptr, t: System<T>)
    requires RunInvWith(c, s, h, limits)
    requires Enabled(c, s, Produce(item, granted, block)) && t == After(c, s, Produce(item, granted, block))
    ensures RunInv(c, t)
  {
    var ok, k := ProducedPast(c, s, h, item, granted, block, t);
    ProducedKeeps(c, s, h, limits, ok, item, t, k);
  }

  lemma ProducedPast<T(!new)>(c: Config, s: System<T>, h: Past<T>, item: T, granted: bool, block: Ptr, t: System<T>)
    returns (ok: bool, k: Past<T>)
    requires Inv(c, s.fields, h)
    requires Enabled(c, s, Produce(item, granted, block)) && t == After(c, s, Produce(item, granted, block))
    ensures Produced(s, t, ok, item) && Inv(c, t.fields, k)
    ensures k.items == (if ok then h.items + [item] else h.items) && Continues(s.fields, h, t.fields, k.(items := h.items))
  {
    ok := Enqueued(c, s.fields, item, granted, block).ok;
    ProduceEffect(c, s, item, granted, block, t);
    EnqueueKeeps(c, s.fields, h, item, granted, block);
    k :| Inv(c, t.fields, k) && k.items == (if ok then h.items + [item] else h.items)
         && Continues(s.fields, h, t.fields, k.(items := h.items));
  }

  lemma ProducedKeeps<T(!new)>(c: Config, s: System<T>, h: Past<T>, limits: seq<nat>, ok: bool, item: T, t: System<T>, k: Past<T>)
    requires RunInvWith(c, s, h, limits) && Produced(s, t, ok, item) && Inv(c, t.fields, k)
    requires k.items == (if ok then h.items + [item] else h.items) && Continues(s.fields, h, t.fields, k.(items := h.items))
    ensures RunInv(c, t)
  {
    ProducedCounts(s, h, t, k, ok, item);
    var more := ProducedWentOn(c, s, h, limits, t, k, ok, item);
    WentOnKeeps(c, s, h, limits, t, k, more);
  }

  lemma ProducedWentOn<T>(c: Config, s: System<T>, h: Past<T>, limits: seq<nat>, t: System<T>, k: Past<T>, ok: bool, item: T)
    returns (more: seq<nat>)
    requires Inv(c, s.fields, h) && h.items <= k.items && Produced(s, t, ok, item)
    requires Continues(s.fields, h, t.fields, k.(items := h.items))
    ensures WentOn(c, s, h, limits, t, k, more)
  {
    more := if |t.fields.older| > |s.fields.older| then limits + [|h.blocks|] else limits;
    CoversAnyItems(s.fields, h, t.fields, k);
    FullHasBlocks(c, s.fields, h);
  }

  lemma FullHasBlocks<T>(c: Config, s: State<T>, h: Past<T>)
    requires Inv(c, s, h)
    ensures c.blockSize > 0 && (s.used == s.size ==> h.blocks != [])
  {
  }

  lemma CoversAnyItems<T>(s: State<T>, h: Past<T>, t: State<T>, k: Past<T>)
    requires Continues(s, h, t, k.(items := h.items))
    ensures forall header: nat, f: nat, n: nat :: Covers(s, h, header, f, n) ==> Covers(t, k, header, f, n)
  {
    forall header: nat, f: nat, n: nat | Covers(s, h, header, f, n) ensures Covers(t, k, header, f, n) {
      assert Covers(t, k.(items := h.items), header, f, n);
    }
  }

  // ---------------------------------------------------------------------------------------------
  // Every reachable state
  // ---------------------------------------------------------------------------------------------

  lemma StepKeeps<T(!new)>(c: Config, s: System<T>, a: Action<T>, t: System<T>)
    requires RunInv(c, s) && Step(c, s, a, t)
    ensures RunInv(c, t)
  {
    var h: Past<T>, limits: seq<nat> :| RunInvWith(c, s, h, limits);
    match a
    case Produce(item, granted, block) => ProducerKeeps(c, s, h, limits, item, granted, block, t);
    case Consume(i) => ConsumerKeeps(c, s, h, limits, i, t);
  }

  lemma InitHolds<T(!new)>(c: Config, s: System<T>)
    requires Init(c, s)
    ensures RunInv(c, s)
  {
    TicketsProof.InitHolds(s.tickets);
    StartHolds(c, s, Past([], [], {}, Span(0, 0, 0), []));
  }

  lemma StartHolds<T(!new)>(c: Config, s: System<T>, h: Past<T>)
    requires Inv(c, s.fields, h) && h.items == [] && h.done == {}
    requires s.fields.older == [] && s.fields.head == 0 && s.fronts == []
    requires TicketsProof.Inv(s.tickets) && s.tickets.tail == s.tickets.head == 0 && Shape(s)
    requires forall i :: 0 <= i < |s.consumers| ==> s.consumers[i] == Out && s.tickets.pcs[i] == Tickets.Idle
    requires s.items == [] && s.got == map[]
    ensures RunInv(c, s)
  {
    assert CountsOk(s, h) && FrontsOk(s, h, []);
    assert RunInvWith(c, s, h, []);
  }

  lemma {:induction false} RunHolds<T(!new)>(c: Config, r: seq<System<T>>, acts: seq<Action<T>>, k: nat)
    requires Run(c, r, acts) && k < |r|
    ensures RunInv(c, r[k])
  {
    if k == 0 {
      RunStarts(c, r, acts);
    } else {
      RunHolds(c, r, acts, k - 1);
      RunGoesOn(c, r, acts, k);
    }
  }

  lemma RunStarts<T(!new)>(c: Config, r: seq<System<T>>, acts: seq<Action<T>>)
    requires Run(c, r, acts)
    ensures RunInv(c, r[0])
  {
    InitHolds(c, r[0]);
  }

  lemma RunGoesOn<T(!new)>(c: Config, r: seq<System<T>>, acts: seq<Action<T>>, k: nat)
    requires Run(c, r, acts) && 0 < k < |r| && RunInv(c, r[k - 1])
    ensures RunInv(c, r[k])
  {
    StepKeeps(c, r[k - 1], acts[k - 1], r[k]);
  }

  /** Nobody gets stuck: whatever a consumer loaded, however long ago and however often the index was replaced or a
      block reused since, its next step finds what it needs; and the producer's pointers lead to blocks. */
  lemma NeverStuck<T(!new)>(c: Config, s: System<T>, a: Action<T>)
    requires RunInv(c, s)
    requires match a
             case Produce(_, _, block) => block.At? ==> block.node !in s.fields.next
             case Consume(i) => i < |s.consumers|
    ensures Enabled(c, s, a)
  {
    var h: Past<T>, limits: seq<nat> :| RunInvWith(c, s, h, limits);
    match a
    case Produce(_, _, _) => InvIsFit(c, s.fields, h, 0);
    case Consume(i) =>
      assert ConsumerOk(c, s, h, limits, i);
      match s.consumers[i]
      case Out =>
      case Want(x) =>
        assert Pending(s, i, x);
        PendingBelowTail(s, i, x);
        StartedBefore(c, s.fields, h, x);
        PublishedCovers(c, s.fields, h);
      case GotHeader(_, _) => FrontIsRight(c, s, h, limits, i);
      case GotFront(_, _, _) => BlockIsRight(c, s, h, limits, i);
      case GotBlock(_, _) => ItemIsThere(c, s, h, limits, i);
  }

  // ---------------------------------------------------------------------------------------------
  // What is delivered
  // ---------------------------------------------------------------------------------------------

  lemma DeliveredIsEnqueued<T(!new)>(c: Config, s: System<T>, x: nat)
    requires RunInv(c, s) && x in s.got
    ensures x < s.tickets.head <= s.tickets.tail == |s.items| && s.got[x] == s.items[x]
  {
    var h: Past<T>, limits: seq<nat> :| RunInvWith(c, s, h, limits);
    TicketsProof.ClaimsStayBelowTail(s.tickets);
  }

  /** With no dequeue in progress, what was delivered are exactly the first `head` items enqueued. */
  lemma QuiescentIsFifo<T(!new)>(c: Config, s: System<T>)
    requires RunInv(c, s) && forall i :: 0 <= i < |s.tickets.pcs| ==> s.tickets.pcs[i].Idle?
    ensures s.tickets.head <= |s.items|
    ensures forall x: nat :: x in s.got <==> x < s.tickets.head
    ensures forall x: nat :: x < s.tickets.head ==> s.got[x] == s.items[x]
  {
    var h: Past<T>, limits: seq<nat> :| RunInvWith(c, s, h, limits);
    TicketsProof.ClaimsStayBelowTail(s.tickets);
    forall x: nat | x < s.tickets.head ensures x in s.got { assert Accounted(s, x); }
  }

  predicate Moves<T>(s: System<T>, a: Action<T>, x: nat) {
    a.Consume? && a.i < |s.consumers| && s.consumers[a.i].GotBlock? && s.consumers[a.i].x == x
  }

  ghost predicate MovedAt<T>(r: seq<System<T>>, acts: seq<Action<T>>, k: nat, x: nat) {
    k < |acts| && k < |r| && Moves(r[k], acts[k], x)
  }

  /** A step moves an item out that nobody had. */
  lemma MoveIsNew<T(!new)>(c: Config, s: System<T>, a: Action<T>, t: System<T>, x: nat)
    requires RunInv(c, s) && Step(c, s, a, t)
    ensures x in s.got ==> x in t.got && !Moves(s, a, x)
    ensures x !in s.got ==> (x in t.got <==> Moves(s, a, x))
  {
    GotEffect(c, s, a, t);
    if a.Consume? && a.i < |s.consumers| && s.consumers[a.i].GotBlock? { TakesNew(c, s, a.i); }
  }

  lemma TakesNew<T(!new)>(c: Config, s: System<T>, i: nat)
    requires RunInv(c, s) && i < |s.consumers| && s.consumers[i].GotBlock?
    ensures s.consumers[i].x !in s.got
  {
    var h: Past<T>, limits: seq<nat> :| RunInvWith(c, s, h, limits);
    assert ConsumerOk(c, s, h, limits, i) && Pending(s, i, s.consumers[i].x);
  }

  lemma GotEffect<T>(c: Config, s: System<T>, a: Action<T>, t: System<T>)
    requires Step(c, s, a, t)
    ensures t.got.Keys == if a.Consume? && s.consumers[a.i].GotBlock? then s.got.Keys + {s.consumers[a.i].x} else s.got.Keys
  {
  }

  lemma {:induction false} GotStays<T(!new)>(c: Config, r: seq<System<T>>, acts: seq<Action<T>>, j: nat, k: nat, x: nat)
    requires Run(c, r, acts) && j <= k < |r| && x in r[j].got
    ensures x in r[k].got
    decreases k
  {
    if j < k {
      GotStays(c, r, acts, j, k - 1, x);
      MoveIsNewAt(c, r, acts, k - 1, x);
    }
  }

  lemma MoveIsNewAt<T(!new)>(c: Config, r: seq<System<T>>, acts: seq<Action<T>>, k: nat, x: nat)
    requires Run(c, r, acts) && k < |acts|
    ensures x in r[k].got ==> x in r[k + 1].got && !MovedAt(r, acts, k, x)
    ensures x !in r[k].got ==> (x in r[k + 1].got <==> MovedAt(r, acts, k, x))
  {
    RunHolds(c, r, acts, k);
    MoveIsNew(c, r[k], acts[k], r[k + 1], x);
  }

  lemma NothingGot<T>(c: Config, r: seq<System<T>>, acts: seq<Action<T>>)
    requires Run(c, r, acts)
    ensures r[0].got == map[]
  {
  }

  lemma {:induction false} MovedSomewhere<T(!new)>(c: Config, r: seq<System<T>>, acts: seq<Action<T>>, n: nat, x: nat) returns (k: nat)
    requires Run(c, r, acts) && n < |r| && x in r[n].got
    ensures k < n && MovedAt(r, acts, k, x)
  {
    NothingGot(c, r, acts);
    MoveIsNewAt(c, r, acts, n - 1, x);
    if x in r[n - 1].got {
      k := MovedSomewhere(c, r, acts, n - 1, x);
    } else {
      k := n - 1;
    }
  }

  /** Over any run each delivered item was moved out by exactly one step of one consumer. */
  lemma EachItemMovedOnce<T(!new)>(c: Config, r: seq<System<T>>, acts: seq<Action<T>>, x: nat)
    requires Run(c, r, acts)
    ensures (exists k: nat :: MovedAt(r, acts, k, x)) <==> x in r[|acts|].got
    ensures forall j: nat, k: nat :: MovedAt(r, acts, j, x) && MovedAt(r, acts, k, x) ==> j == k
  {
    forall k: nat | MovedAt(r, acts, k, x) ensures x in r[|acts|].got {
      MoveIsNewAt(c, r, acts, k, x);
      GotStays(c, r, acts, k + 1, |acts|, x);
    }
    forall j: nat, k: nat | MovedAt(r, acts, j, x) && MovedAt(r, acts, k, x) ensures j == k {
      MoveIsNewAt(c, r, acts, j, x);
      MoveIsNewAt(c, r, acts, k, x);
      if j < k { GotStays(c, r, acts, j + 1, k, x); }
      if k < j { GotStays(c, r, acts, k + 1, j, x); }
    }
    if x in r[|acts|].got { var k := MovedSomewhere(c, r, acts, |acts|, x); }
  }

  // ---------------------------------------------------------------------------------------------
  // Every dequeue ends
  // ---------------------------------------------------------------------------------------------

  /** A bound on the steps consumer `i` can still take in its call. */
  function Rank<T>(s: System<T>, i: nat): (rank: nat)
    requires Shape(s) && i < |s.consumers|
    ensures rank <= 10
  {
    match s.consumers[i]
    case Want(_) => 4
    case GotHeader(_, _) => 3
    case GotFront(_, _, _) => 2
    case GotBlock(_, _) => 1
    case Out =>
      match s.tickets.pcs[i]
      case Idle => 0
      case LoadOvercommit(_, _) => 10
      case LoadOptimistic(_, _, _) => 9
      case TakeTickets(_, _) => 8
      case Recheck(_, _, _) => 7
      case Deliver(_, _) => 5
      case _ => 6
  }

  lemma TicketAdvances<T>(s: System<T>, i: nat)
    requires Shape(s) && i < |s.consumers| && s.consumers[i].Out? && AsksForOne(s.tickets.pcs[i])
    requires !s.tickets.pcs[i].Idle? && !s.tickets.pcs[i].Deliver?
    ensures Shape(StepTickets(s, i)) && Rank(StepTickets(s, i), i) < Rank(s, i)
  {
  }

  lemma AdvancesWith<T>(c: Config, s: System<T>, i: nat, t: System<T>)
    requires Shape(s) && Step(c, s, Consume(i), t) && AsksForOne(s.tickets.pcs[i])
    requires !s.consumers[i].Out? ==> s.tickets.pcs[i].Deliver?
    requires s.consumers[i].Out? ==> !s.tickets.pcs[i].Idle?
    ensures Shape(t) && i < |t.consumers| && Rank(t, i) < Rank(s, i)
  {
    if s.consumers[i].Out? && !s.tickets.pcs[i].Deliver? { TicketAdvances(s, i); }
  }

  /** Each step of a consumer inside a call brings it nearer to its end, which is at most ten steps away: `dequeue` is
      wait-free. */
  lemma DequeueAdvances<T(!new)>(c: Config, s: System<T>, i: nat, t: System<T>)
    requires RunInv(c, s) && Step(c, s, Consume(i), t)
    requires s.consumers[i].Out? ==> i < |s.tickets.pcs| && !s.tickets.pcs[i].Idle?
    ensures Shape(s) && Shape(t) && i < |t.consumers| && Rank(t, i) < Rank(s, i) <= 10
  {
    var h: Past<T>, limits: seq<nat> :| RunInvWith(c, s, h, limits);
    assert ConsumerOk(c, s, h, limits, i);
    AdvancesWith(c, s, i, t);
  }
}
