/** The machine's counters against unbounded ones: counters of `2 * half` values take the same steps as those of
    module Tickets, through any number of wrap-arounds, as long as no consumer tests too large a distance. */
module WrappedCounters {
  import opened Modular
  import opened Circular
  import opened Tickets
  import TicketsProof
  import Threads
  import BlockIndex

  // ---------------------------------------------------------------------------------------------
  // The machine
  // ---------------------------------------------------------------------------------------------

  /** A distance is tested as a number of `2 * test` values: as the index word it is, in a single dequeue, and cut
      down to a size, in a bulk one. */
  ghost predicate TestsWords(half: nat, test: nat) {
    test > 0 && Multiple(2 * half, 2 * test)
  }

  /** The distance from the net number of tickets taken to the tail. */
  function WrappedDistance(tail: nat, taken: nat, over: nat, half: nat, test: nat): nat
    requires half > 0 && test > 0
  {
    var m := 2 * half;
    Wrap(Wrap(tail - Wrap(taken - over, m), m), 2 * test)
  }

  /** The tickets `want` from `ticket` on, against the tail: tests and differences are the wrapped ones. */
  function WrappedSettle(want: nat, over: nat, ticket: nat, tail: nat, half: nat, test: nat): PC
    requires half > 0 && test > 0
  {
    var actual := WrappedDistance(tail, ticket, over, half, test);
    if CircularLess(0, actual, test) then
      var claim := Min(want, actual);
      ClaimOrFail(claim, want - claim)
    else Refund(want, 0)
  }

  function WrappedAfter(s: State, i: nat, max: nat, half: nat, test: nat): State
    requires i < |s.pcs| && half > 0 && test > 0
  {
    var m := 2 * half;
    match s.pcs[i]
    case Idle => Goto(s, i, LoadOvercommit(max, s.tail))
    case LoadOvercommit(n, tail) => Goto(s, i, LoadOptimistic(n, tail, s.overcommit))
    case LoadOptimistic(n, tail, over) =>
      var desired := WrappedDistance(tail, s.optimistic, over, half, test);
      Goto(s, i, if CircularLess(0, desired, test) then TakeTickets(Min(desired, n), over) else Idle)
    case TakeTickets(want, over) =>
      Goto(s, i, Recheck(want, over, s.optimistic)).(optimistic := Wrap(s.optimistic + want, m))
    case Recheck(want, over, ticket) => Goto(s, i, WrappedSettle(want, over, ticket, s.tail, half, test))
    case Refund(excess, claim) =>
      Goto(s, i, if claim > 0 then Claim(claim) else Idle).(overcommit := Wrap(s.overcommit + excess, m))
    case Claim(count) => Goto(s, i, Deliver(s.head, count)).(head := Wrap(s.head + count, m))
    case Deliver(_, _) => Goto(s, i, Idle)
  }

  function WrappedPublish(s: State, count: nat, half: nat): State
    requires half > 0
  {
    s.(tail := Wrap(s.tail + count, 2 * half))
  }

  /** What the machine stores of an unbounded state. */
  function WrapPC(pc: PC, m: nat): PC
    requires m > 0
  {
    match pc
    case LoadOvercommit(max, tail) => LoadOvercommit(max, Wrap(tail, m))
    case LoadOptimistic(max, tail, over) => LoadOptimistic(max, Wrap(tail, m), Wrap(over, m))
    case TakeTickets(want, over) => TakeTickets(want, Wrap(over, m))
    case Recheck(want, over, ticket) => Recheck(want, Wrap(over, m), Wrap(ticket, m))
    case Deliver(first, count) => Deliver(Wrap(first, m), count)
    case _ => pc
  }

  function WrapState(s: State, m: nat): (w: State)
    requires m > 0
    ensures |w.pcs| == |s.pcs|
  {
    State(Wrap(s.tail, m), Wrap(s.head, m), Wrap(s.optimistic, m), Wrap(s.overcommit, m),
          seq(|s.pcs|, i requires 0 <= i < |s.pcs| => WrapPC(s.pcs[i], m)))
  }

  // ---------------------------------------------------------------------------------------------
  // When a step agrees
  // ---------------------------------------------------------------------------------------------

  /** The distance a consumer is about to test, if any. */
  function Tested(s: State, pc: PC): int {
    match pc
    case LoadOptimistic(_, tail, over) => tail - (s.optimistic - over)
    case Recheck(_, over, ticket) => s.tail - (ticket - over)
    case _ => 0
  }

  /** It is within half a turn of what the test can tell apart. */
  predicate Timely(s: State, pc: PC, test: nat) {
    0 <= Tested(s, pc) + test && Tested(s, pc) < test
  }

  lemma WrapGoto(s: State, i: nat, pc: PC, m: nat)
    requires i < |s.pcs| && m > 0
    ensures WrapState(Goto(s, i, pc), m) == Goto(WrapState(s, m), i, WrapPC(pc, m))
  {
    assert WrapState(Goto(s, i, pc), m).pcs == WrapState(s, m).pcs[i := WrapPC(pc, m)];
  }

  lemma DistanceOfWords(tail: nat, x: nat, over: nat, m: nat)
    requires m > 0
    ensures Wrap(Wrap(tail, m) - Wrap(Wrap(x, m) - Wrap(over, m), m), m) == Wrap(tail - (x - over), m)
  {
    WrapDifference(x, over, m);
    WrapDifference(tail, x - over, m);
  }

  lemma DistanceWraps(tail: nat, x: nat, over: nat, half: nat, test: nat)
    requires half > 0 && TestsWords(half, test)
    ensures WrappedDistance(Wrap(tail, 2 * half), Wrap(x, 2 * half), Wrap(over, 2 * half), half, test)
         == Wrap(tail - (x - over), 2 * test)
  {
    DistanceOfWords(tail, x, over, 2 * half);
    CutToRing(tail - (x - over), 2 * half, 2 * test);
  }

  /** The wrapped test of a distance less than a turn is right exactly within half a turn. */
  lemma TestIsExact(d: int, test: nat)
    requires test > 0 && 0 < d + 2 * test && d < 2 * test
    ensures (CircularLess(0, Wrap(d, 2 * test), test) <==> 0 < d) <==> 0 <= d + test && d < test
  {
    WrapNear(d, 2 * test);
    WrapMinus(0, d, 2 * test);
    WrapNear(0 - d, 2 * test);
  }

  /** Whether a distance tests as positive decides between claiming and giving up, which never look alike. */
  lemma DecisionsDiffer(want: nat, actual: nat)
    requires actual > 0
    ensures ClaimOrFail(Min(want, actual), want - Min(want, actual)) != Refund(want, 0)
  {
  }

  lemma SettleOfWords(want: nat, over: nat, ticket: nat, tail: nat, half: nat, test: nat)
    requires half > 0 && TestsWords(half, test)
    ensures var m := 2 * half;
            var actual := Wrap(tail - (ticket - over), 2 * test);
            WrappedSettle(want, Wrap(over, m), Wrap(ticket, m), Wrap(tail, m), half, test)
              == if CircularLess(0, actual, test) then ClaimOrFail(Min(want, actual), want - Min(want, actual))
                 else Refund(want, 0)
  {
    DistanceWraps(tail, ticket, over, half, test);
  }

  lemma SettleAgrees(s: State, want: nat, over: nat, ticket: nat, half: nat, test: nat)
    requires half > 0 && TestsWords(half, test)
    requires var d := s.tail - (ticket - over); 0 < d + 2 * test && d < 2 * test
    ensures var d := s.tail - (ticket - over);
            WrappedSettle(want, Wrap(over, 2 * half), Wrap(ticket, 2 * half), Wrap(s.tail, 2 * half), half, test)
              == Settle(want, over, ticket, s.tail)
            <==> 0 <= d + test && d < test
  {
    var d := s.tail - (ticket - over);
    var actual := Wrap(d, 2 * test);
    SettleOfWords(want, over, ticket, s.tail, half, test);
    TestIsExact(d, test);
    if 0 <= d + test && d < test {
      DistanceIsRight(d, test);
    } else {
      WrapNear(d, 2 * test);
      DecisionsDiffer(want, actual);
      if d > 0 { DecisionsDiffer(want, d); }
    }
  }

  lemma LookAgrees(s: State, i: nat, max: nat, half: nat, test: nat)
    requires i < |s.pcs| && s.pcs[i].LoadOptimistic? && half > 0 && TestsWords(half, test)
    requires 0 < Tested(s, s.pcs[i]) + 2 * test && Tested(s, s.pcs[i]) < 2 * test
    ensures WrappedAfter(WrapState(s, 2 * half), i, max, half, test) == WrapState(After(s, i, max), 2 * half)
      <==> Timely(s, s.pcs[i], test)
  {
    var m := 2 * half;
    var LoadOptimistic(n, tail, over) := s.pcs[i];
    var d := tail - (s.optimistic - over);
    DistanceWraps(tail, s.optimistic, over, half, test);
    TestIsExact(d, test);
    if Timely(s, s.pcs[i], test) { DistanceIsRight(d, test); }
    WrapGoto(s, i, if 0 < d then TakeTickets(Min(d, n), over) else Idle, m);
    StepDiffers(WrappedAfter(WrapState(s, m), i, max, half, test), WrapState(After(s, i, max), m), i);
  }

  lemma RecheckAgrees(s: State, i: nat, max: nat, half: nat, test: nat)
    requires i < |s.pcs| && s.pcs[i].Recheck? && half > 0 && TestsWords(half, test)
    requires 0 < Tested(s, s.pcs[i]) + 2 * test && Tested(s, s.pcs[i]) < 2 * test
    ensures WrappedAfter(WrapState(s, 2 * half), i, max, half, test) == WrapState(After(s, i, max), 2 * half)
      <==> Timely(s, s.pcs[i], test)
  {
    var m := 2 * half;
    var Recheck(want, over, ticket) := s.pcs[i];
    SettleAgrees(s, want, over, ticket, half, test);
    WrapGoto(s, i, Settle(want, over, ticket, s.tail), m);
    WrapSettle(want, over, ticket, s.tail, m);
    StepDiffers(WrappedAfter(WrapState(s, m), i, max, half, test), WrapState(After(s, i, max), m), i);
  }

  lemma WrapSettle(want: nat, over: nat, ticket: nat, tail: nat, m: nat)
    requires m > 0
    ensures WrapPC(Settle(want, over, ticket, tail), m) == Settle(want, over, ticket, tail)
  {
  }

  lemma StepDiffers(s: State, t: State, i: nat)
    requires i < |s.pcs| == |t.pcs|
    ensures s.pcs[i] != t.pcs[i] ==> s != t
  {
  }

  lemma OtherStepAgrees(s: State, i: nat, max: nat, half: nat, test: nat)
    requires i < |s.pcs| && half > 0 && test > 0 && !s.pcs[i].LoadOptimistic? && !s.pcs[i].Recheck?
    ensures WrappedAfter(WrapState(s, 2 * half), i, max, half, test) == WrapState(After(s, i, max), 2 * half)
  {
    var m := 2 * half;
    WrapGoto(s, i, After(s, i, max).pcs[i], m);
    match s.pcs[i]
    case TakeTickets(want, _) => WrapAdd(s.optimistic, want, m);
    case Refund(excess, _) => WrapAdd(s.overcommit, excess, m);
    case Claim(count) => WrapAdd(s.head, count, m);
    case _ =>
  }

  /** A consumer's step on the machine's counters is its step on unbounded ones if what it tests is within half a
      turn, and, of the distances less than a turn, for no others. */
  lemma StepAgrees(s: State, i: nat, max: nat, half: nat, test: nat)
    requires i < |s.pcs| && half > 0 && TestsWords(half, test)
    ensures var agrees := WrappedAfter(WrapState(s, 2 * half), i, max, half, test) == WrapState(After(s, i, max), 2 * half);
            && (Timely(s, s.pcs[i], test) ==> agrees)
            && (agrees && 0 < Tested(s, s.pcs[i]) + 2 * test && Tested(s, s.pcs[i]) < 2 * test ==> Timely(s, s.pcs[i], test))
  {
    match s.pcs[i]
    case LoadOptimistic(_, _, _) =>
      if 0 < Tested(s, s.pcs[i]) + 2 * test && Tested(s, s.pcs[i]) < 2 * test { LookAgrees(s, i, max, half, test); }
    case Recheck(_, _, _) =>
      if 0 < Tested(s, s.pcs[i]) + 2 * test && Tested(s, s.pcs[i]) < 2 * test { RecheckAgrees(s, i, max, half, test); }
    case _ => OtherStepAgrees(s, i, max, half, test);
  }

  // ---------------------------------------------------------------------------------------------
  // How old a consumer's loads may be
  // ---------------------------------------------------------------------------------------------

  /** Tickets taken whose fate no counter shows yet. */
  function InFlight(s: State): nat {
    Threads.Sum(s.pcs, TicketsProof.InFlight())
  }

  /** The tail and the overcommit were loaded not too long ago, and not too many tickets are in flight; and, before
      the second look, not too many were taken since the consumer's own. */
  predicate Recent(s: State, pc: PC, test: nat) {
    var size := s.tail - s.head;
    match pc
    case LoadOptimistic(_, tail, over) =>
      var stale := (s.tail - tail) + (s.overcommit - over) + InFlight(s);
      stale <= test + size && size < test + stale
    case Recheck(_, over, ticket) =>
      var stale := (s.overcommit - over) + InFlight(s);
      var since := s.optimistic - ticket;
      stale <= test + size + since && size + since < test + stale
    case _ => true
  }

  /** That is exactly what it takes to be in time. */
  lemma RecentIsTimely(s: State, i: nat, test: nat)
    requires TicketsProof.Inv(s) && i < |s.pcs| && test > 0
    ensures Timely(s, s.pcs[i], test) <==> Recent(s, s.pcs[i], test)
  {
    TicketsProof.TicketsAreConserved(s);
    TicketsProof.InFlightIsAll(s.pcs);
  }

  /** Where distances are tested as index words, and the tail is less than half a turn ahead of the head, the first
      look is in time unless the consumer's own two loads, and the tickets in flight, are together more than half
      a turn behind. */
  lemma FirstLookIsTimely(s: State, i: nat, half: nat)
    requires TicketsProof.Inv(s) && i < |s.pcs| && s.pcs[i].LoadOptimistic? && half > 0
    requires s.tail < s.head + half
    ensures var pc := s.pcs[i];
            Timely(s, pc, half) <==>
              (s.tail - pc.tail) + (s.overcommit - pc.over) + InFlight(s) <= half + (s.tail - s.head)
  {
    RecentIsTimely(s, i, half);
    LoadsAreOld(s, i);
  }

  /** No load is ahead of its counter by more than the tickets in flight. */
  lemma LoadsAreOld(s: State, i: nat)
    requires TicketsProof.Inv(s) && i < |s.pcs|
    ensures s.pcs[i].LoadOptimistic? ==> s.pcs[i].tail <= s.tail && s.pcs[i].over <= s.overcommit + InFlight(s)
    ensures s.pcs[i].Recheck? ==> s.pcs[i].over <= s.overcommit + InFlight(s) && s.pcs[i].ticket <= s.optimistic
  {
    TicketsProof.InFlightIsAll(s.pcs);
    var passed: set<nat>, failed: set<nat> :| TicketsProof.InvWith(s, passed, failed);
    assert TicketsProof.ThreadOk(s, passed, failed, s.pcs[i]);
    if s.pcs[i].Recheck? { Threads.SubsetSize(TicketsProof.Below(failed, s.pcs[i].ticket), failed); }
  }

  /** Bounds that do for every state: at most `most` items in the sub-queue, tickets in flight and loads at most
      half a turn old together, and fewer than `test - most` tickets taken since the consumer's own. */
  lemma BoundedIsRecent(s: State, i: nat, most: nat, test: nat)
    requires TicketsProof.Inv(s) && i < |s.pcs| && test > 0 && s.tail - s.head <= most
    requires var pc := s.pcs[i];
             match pc
             case LoadOptimistic(_, tail, over) =>
               most < test && (s.tail - tail) + (s.overcommit - over) + InFlight(s) <= test
             case Recheck(_, over, ticket) =>
               most + (s.optimistic - ticket) < test && (s.overcommit - over) + InFlight(s) <= test
             case _ => true
    ensures Recent(s, s.pcs[i], test)
  {
    LoadsAreOld(s, i);
    TicketsProof.ClaimsStayBelowTail(s);
  }

  /** A single dequeue compares the difference with the tail; a bulk one tests the distance, cut down to a size.  For
      a distance less than a turn of sizes the two agree exactly when it is within half of it; if index words are
      sizes, they always agree. */
  lemma SingleTestIsBulkTest(a: nat, tail: nat, half: nat, test: nat)
    requires half > 0 && TestsWords(half, test) && a < 2 * half && tail < 2 * half
    requires var d := Signed(Wrap(tail - a, 2 * half), half); 0 < d + 2 * test && d < 2 * test
    ensures var d := Signed(Wrap(tail - a, 2 * half), half);
            (CircularLess(a, tail, half) <==> CircularLess(0, Wrap(Wrap(tail - a, 2 * half), 2 * test), test))
            <==> 0 <= d + test && d < test
    ensures test == half ==>
              var d := Signed(Wrap(tail - a, 2 * half), half); 0 <= d + test && d < test
  {
    var m := 2 * half;
    var d := Signed(Wrap(tail - a, m), half);
    SignedIsSame(tail - a, half);
    CutToRing(tail - a, m, 2 * test);
    CutToRing(d, m, 2 * test);
    WrapMinus(0, tail - a, m);
    WrapMinus(0, d, m);
    WrapNear(0 - d, m);
    TestIsExact(d, test);
  }

  lemma SignedIsSame(x: int, half: nat)
    requires half > 0
    ensures var d := Signed(Wrap(x, 2 * half), half); Wrap(d, 2 * half) == Wrap(x, 2 * half) && 0 <= d + half && d < half
  {
    var y := Wrap(x, 2 * half);
    ModSmall(y, 2 * half);
    ModTurns(y, -1, 2 * half);
  }

  // ---------------------------------------------------------------------------------------------
  // Slots, and an assertion
  // ---------------------------------------------------------------------------------------------

  /** The slot of block `q` counted from a tail entry that carries the base of block `r`, as the program computes it
      from wrapped bases, is the one of module BlockIndex. */
  lemma LookupSlotIsRight(h: BlockIndex.Header, tail: nat, q: nat, r: nat, bBits: nat, nBits: nat, w: nat, sizeBits: nat)
    requires h.capacity == Pow2(nBits)
    requires 0 < sizeBits <= w && nBits + bBits <= w && nBits <= sizeBits
    ensures BlockIndex.SlotFromTail(h, tail, r * Pow2(bBits), q, Pow2(bBits))
         == WrappedSlot(tail, Wrap(q * Pow2(bBits), Pow2(w)), Wrap(r * Pow2(bBits), Pow2(w)),
                        Pow2(bBits), Pow2(nBits), Half(w), Pow2(sizeBits))
  {
    SlotIsRight(tail, q, r, bBits, nBits, w, sizeBits);
    SlotCountsBlocks(h, tail, q, r, Pow2(bBits));
  }

  lemma SlotCountsBlocks(h: BlockIndex.Header, tail: nat, q: nat, r: nat, b: nat)
    requires h.capacity > 0 && b > 0
    ensures BlockIndex.SlotFromTail(h, tail, r * b, q, b) == (tail + (q - r)) % h.capacity
  {
    assert q * b - r * b == (q - r) * b;
    DivExact(q - r, b);
  }

  // ---------------------------------------------------------------------------------------------
  // An assertion
  // ---------------------------------------------------------------------------------------------

  /** The debug assertion after taking tickets, `overcommit <= myDequeueCount`, on the machine's counters. */
  predicate Asserted(pc: PC, m: nat)
    requires pc.Recheck? && m > 0
  {
    Wrap(pc.over, m) <= Wrap(pc.ticket, m)
  }

  /** It holds exactly when going on from the overcommit by the net number of tickets does not wrap around; for
      counters less than a turn apart, when both have wrapped around equally often; so until ticket numbers do. */
  lemma AssertionIsExact(s: State, i: nat, m: nat)
    requires TicketsProof.Inv(s) && i < |s.pcs| && s.pcs[i].Recheck? && m > 0
    ensures var pc := s.pcs[i];
            && pc.over <= pc.ticket
            && (Asserted(pc, m) <==> Wrap(pc.over, m) + Wrap(pc.ticket - pc.over, m) < m)
            && (pc.ticket < pc.over + m ==> (Asserted(pc, m) <==> pc.ticket / m == pc.over / m))
            && (pc.ticket < m ==> Asserted(pc, m))
  {
    TicketsProof.OvercommitBelowTickets(s, i);
    NoCarry(s.pcs[i].over, s.pcs[i].ticket - s.pcs[i].over, m);
    if s.pcs[i].ticket < m {
      ModSmall(s.pcs[i].over, m);
      ModSmall(s.pcs[i].ticket, m);
    }
    if s.pcs[i].ticket < s.pcs[i].over + m { SameTurns(s.pcs[i].over, s.pcs[i].ticket, m); }
  }

  lemma NoCarry(x: nat, d: nat, m: nat)
    requires m > 0
    ensures Wrap(x, m) <= Wrap(x + d, m) <==> Wrap(x, m) + Wrap(d, m) < m
  {
    WrapAdd(x, d, m);
    var sum := Wrap(x, m) + Wrap(d, m);
    WrapAdd(d, Wrap(x, m), m);
    assert Wrap(x + d, m) == Wrap(sum, m);
    if sum < m {
      ModSmall(sum, m);
    } else {
      ModTurns(sum, -1, m);
      ModSmall(sum - m, m);
    }
  }

  lemma SameTurns(x: nat, y: nat, m: nat)
    requires m > 0 && x <= y < x + m
    ensures Wrap(x, m) <= Wrap(y, m) <==> y / m == x / m
  {
    QuotientBounds(x, m);
    QuotientBounds(y, m);
    var k := y / m - x / m;
    assert k * m == (y / m) * m - (x / m) * m;
    MulBounds(k, m);
    MulBounds(k - 1, m);
    assert (k - 1) * m == k * m - m;
  }

  // A run in which it fails: two consumers race for one item, so that one of them has to give a ticket back; from
  // then on they take one item at a time, until the ticket number wraps around.

  ghost predicate Reachable(s: State) {
    exists r: seq<State>, acts: seq<Action> :: Run(r, acts) && r[|acts|] == s
  }

  lemma ReachStep(s: State, a: Action, t: State)
    requires Reachable(s) && Enabled(s, a) && t == Do(s, a)
    ensures Reachable(t)
  {
    var r: seq<State>, acts: seq<Action> :| Run(r, acts) && r[|acts|] == s;
    var r1, acts1 := r + [t], acts + [a];
    assert Run(r1, acts1) && r1[|acts1|] == t;
  }

  function Two(tail: nat, head: nat, taken: nat, over: nat, pc0: PC, pc1: PC): State {
    State(tail, head, taken, over, [pc0, pc1])
  }

  lemma Steps(s: State, i: nat, t: State)
    requires Reachable(s) && i < |s.pcs| && t == After(s, i, 1)
    ensures Reachable(t)
  {
    ReachStep(s, Consume(i, 1), t);
  }

  lemma OneItemIsReachable()
    ensures Reachable(Two(1, 0, 0, 0, Idle, Idle))
  {
    var start := Two(0, 0, 0, 0, Idle, Idle);
    assert Run([start], []);
    ReachStep(start, Produce(1), Two(1, 0, 0, 0, Idle, Idle));
  }

  /** Both consumers see the one item. */
  lemma SeenIsReachable()
    ensures Reachable(Two(1, 0, 0, 0, TakeTickets(1, 0), TakeTickets(1, 0)))
  {
    OneItemIsReachable();
    var look, see, take := LoadOvercommit(1, 1), LoadOptimistic(1, 1, 0), TakeTickets(1, 0);
    Steps(Two(1, 0, 0, 0, Idle, Idle), 0, Two(1, 0, 0, 0, look, Idle));
    Steps(Two(1, 0, 0, 0, look, Idle), 0, Two(1, 0, 0, 0, see, Idle));
    Steps(Two(1, 0, 0, 0, see, Idle), 0, Two(1, 0, 0, 0, take, Idle));
    Steps(Two(1, 0, 0, 0, take, Idle), 1, Two(1, 0, 0, 0, take, look));
    Steps(Two(1, 0, 0, 0, take, look), 1, Two(1, 0, 0, 0, take, see));
    Steps(Two(1, 0, 0, 0, take, see), 1, Two(1, 0, 0, 0, take, take));
  }

  /** Both take a ticket for it. */
  lemma RaceIsReachable()
    ensures Reachable(Two(1, 0, 2, 0, Recheck(1, 0, 0), Recheck(1, 0, 1)))
  {
    SeenIsReachable();
    var take := TakeTickets(1, 0);
    Steps(Two(1, 0, 0, 0, take, take), 0, Two(1, 0, 1, 0, Recheck(1, 0, 0), take));
    Steps(Two(1, 0, 1, 0, Recheck(1, 0, 0), take), 1, Two(1, 0, 2, 0, Recheck(1, 0, 0), Recheck(1, 0, 1)));
  }

  /** One gets the item, the other gives its ticket back. */
  lemma RefundIsReachable()
    ensures Reachable(Two(1, 1, 2, 1, Idle, Idle))
  {
    RaceIsReachable();
    Steps(Two(1, 0, 2, 0, Recheck(1, 0, 0), Recheck(1, 0, 1)), 0, Two(1, 0, 2, 0, Claim(1), Recheck(1, 0, 1)));
    Steps(Two(1, 0, 2, 0, Claim(1), Recheck(1, 0, 1)), 1, Two(1, 0, 2, 0, Claim(1), Refund(1, 0)));
    Steps(Two(1, 0, 2, 0, Claim(1), Refund(1, 0)), 1, Two(1, 0, 2, 1, Claim(1), Idle));
    Steps(Two(1, 0, 2, 1, Claim(1), Idle), 0, Two(1, 1, 2, 1, Deliver(0, 1), Idle));
    Steps(Two(1, 1, 2, 1, Deliver(0, 1), Idle), 0, Two(1, 1, 2, 1, Idle, Idle));
  }

  /** With one more item, consumer 0 takes the next ticket. */
  lemma NextTicket(n: nat)
    requires n > 0 && Reachable(Two(n, n, n + 1, 1, Idle, Idle))
    ensures Reachable(Two(n + 1, n, n + 2, 1, Recheck(1, 1, n + 1), Idle))
  {
    var look, see, take := LoadOvercommit(1, n + 1), LoadOptimistic(1, n + 1, 1), TakeTickets(1, 1);
    ReachStep(Two(n, n, n + 1, 1, Idle, Idle), Produce(1), Two(n + 1, n, n + 1, 1, Idle, Idle));
    Steps(Two(n + 1, n, n + 1, 1, Idle, Idle), 0, Two(n + 1, n, n + 1, 1, look, Idle));
    Steps(Two(n + 1, n, n + 1, 1, look, Idle), 0, Two(n + 1, n, n + 1, 1, see, Idle));
    Steps(Two(n + 1, n, n + 1, 1, see, Idle), 0, Two(n + 1, n, n + 1, 1, take, Idle));
    Steps(Two(n + 1, n, n + 1, 1, take, Idle), 0, Two(n + 1, n, n + 2, 1, Recheck(1, 1, n + 1), Idle));
  }

  lemma NextItem(n: nat)
    requires n > 0 && Reachable(Two(n + 1, n, n + 2, 1, Recheck(1, 1, n + 1), Idle))
    ensures Reachable(Two(n + 1, n + 1, n + 2, 1, Idle, Idle))
  {
    Steps(Two(n + 1, n, n + 2, 1, Recheck(1, 1, n + 1), Idle), 0, Two(n + 1, n, n + 2, 1, Claim(1), Idle));
    Steps(Two(n + 1, n, n + 2, 1, Claim(1), Idle), 0, Two(n + 1, n + 1, n + 2, 1, Deliver(n, 1), Idle));
    Steps(Two(n + 1, n + 1, n + 2, 1, Deliver(n, 1), Idle), 0, Two(n + 1, n + 1, n + 2, 1, Idle, Idle));
  }

  lemma {:induction false} CountingOn(n: nat)
    requires n > 0
    ensures Reachable(Two(n, n, n + 1, 1, Idle, Idle))
  {
    if n == 1 {
      RefundIsReachable();
    } else {
      CountingOn(n - 1);
      NextTicket(n - 1);
      NextItem(n - 1);
    }
  }

  /** With counters of any width, the assertion fails in some run. */
  lemma AssertionFails(m: nat)
    requires m > 1
    ensures exists s: State :: Reachable(s) && s.pcs != [] && s.pcs[0].Recheck? && !Asserted(s.pcs[0], m)
  {
    CountingOn(m - 1);
    NextTicket(m - 1);
    var s := Two(m, m - 1, m + 1, 1, Recheck(1, 1, m), Idle);
    assert Reachable(s);
    ModSmall(1, m);
    ModTurns(0, 1, m);
    assert !Asserted(s.pcs[0], m);
  }
}
