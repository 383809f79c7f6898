/** Consumers never overrun the producer, tickets are conserved, and every index is claimed once. */
module TicketsProof {
  import opened Threads
  import opened Tickets

  // ---------------------------------------------------------------------------------------------
  // Sets of ticket numbers
  // ---------------------------------------------------------------------------------------------

  ghost function Range(first: nat, count: nat): (r: set<nat>)
    ensures forall d :: d in r <==> first <= d < first + count
    ensures |r| == count
  {
    if count == 0 then {} else Range(first, count - 1) + {first + count - 1}
  }

  ghost function Below(tickets: set<nat>, d: nat): set<nat> {
    set x | x in tickets && x < d
  }

  // ---------------------------------------------------------------------------------------------
  // The invariant
  // ---------------------------------------------------------------------------------------------

  /** Tickets taken and not yet settled. */
  function Pending(): PC -> nat {
    (pc: PC) => if pc.Recheck? then pc.want else 0
  }

  /** Tickets that passed the second look at the tail and have not moved `head` yet. */
  function Passing(): PC -> nat {
    (pc: PC) => if pc.Refund? then pc.claim else if pc.Claim? then pc.count else 0
  }

  /** Tickets that failed it and are not booked in `overcommit` yet. */
  function Failing(): PC -> nat {
    (pc: PC) => if pc.Refund? then pc.excess else 0
  }

  ghost predicate ThreadOk(s: State, passed: set<nat>, failed: set<nat>, pc: PC) {
    match pc
    case LoadOvercommit(_, tail) => tail <= s.tail
    case LoadOptimistic(_, tail, over) => tail <= s.tail && over <= |failed|
    case TakeTickets(_, over) => over <= |failed|
    case Recheck(want, over, ticket) =>
      && ticket + want <= s.optimistic
      && over <= |Below(failed, ticket)|
      && (forall d :: d in passed ==> !(ticket <= d < ticket + want))
      && (forall d :: d in failed ==> !(ticket <= d < ticket + want))
    case Deliver(first, count) => first + count <= s.head
    case _ => true
  }

  /** Ranges of tickets, and ranges of claimed indices, of different consumers are disjoint. */
  predicate Apart(p: PC, q: PC) {
    && (p.Recheck? && q.Recheck? ==> p.ticket + p.want <= q.ticket || q.ticket + q.want <= p.ticket)
    && (p.Deliver? && q.Deliver? ==> p.first + p.count <= q.first || q.first + q.count <= p.first)
  }

  /** Every ticket below `optimistic` has passed, has failed, or is pending; a passed ticket, less the
      failed ones below it, is covered by the tail. */
  ghost predicate InvWith(s: State, passed: set<nat>, failed: set<nat>) {
    && (forall d :: d in passed ==> d < s.optimistic)
    && (forall d :: d in failed ==> d < s.optimistic)
    && passed !! failed
    && |passed| == s.head + Sum(s.pcs, Passing())
    && |failed| == s.overcommit + Sum(s.pcs, Failing())
    && s.optimistic == |passed| + |failed| + Sum(s.pcs, Pending())
    && (forall d :: d in passed ==> d + 1 <= s.tail + |Below(failed, d)|)
    && (forall i :: 0 <= i < |s.pcs| ==> ThreadOk(s, passed, failed, s.pcs[i]))
    && (forall i, j :: 0 <= i < j < |s.pcs| ==> Apart(s.pcs[i], s.pcs[j]))
  }

  ghost predicate Inv(s: State) {
    exists passed, failed :: InvWith(s, passed, failed)
  }

  // ---------------------------------------------------------------------------------------------
  // Every step keeps it
  // ---------------------------------------------------------------------------------------------

  lemma SumsUpdate(pcs: seq<PC>, i: nat, pc: PC)
    requires i < |pcs|
    ensures Sum(pcs[i := pc], Passing()) + Passing()(pcs[i]) == Sum(pcs, Passing()) + Passing()(pc)
    ensures Sum(pcs[i := pc], Failing()) + Failing()(pcs[i]) == Sum(pcs, Failing()) + Failing()(pc)
    ensures Sum(pcs[i := pc], Pending()) + Pending()(pcs[i]) == Sum(pcs, Pending()) + Pending()(pc)
  {
    SumUpdate(pcs, Passing(), i, pc);
    SumUpdate(pcs, Failing(), i, pc);
    SumUpdate(pcs, Pending(), i, pc);
  }

  /** Consumers other than `i` are undisturbed when counters only grow and newly settled tickets were
      pending at `i`. */
  lemma OthersStayOk(s: State, t: State, passed: set<nat>, failed: set<nat>,
                     passed': set<nat>, failed': set<nat>, i: nat)
    requires InvWith(s, passed, failed) && i < |s.pcs| == |t.pcs|
    requires t.pcs == s.pcs[i := t.pcs[i]]
    requires s.tail <= t.tail && s.head <= t.head && s.optimistic <= t.optimistic
    requires passed <= passed' && failed <= failed'
    requires forall d :: (d in passed' && d !in passed) || (d in failed' && d !in failed) ==>
               s.pcs[i].Recheck? && s.pcs[i].ticket <= d < s.pcs[i].ticket + s.pcs[i].want
    requires ThreadOk(t, passed', failed', t.pcs[i])
    requires t.pcs[i].Recheck? ==> t.pcs[i].ticket >= s.optimistic
    requires t.pcs[i].Deliver? ==> t.pcs[i].first >= s.head
    ensures forall j :: 0 <= j < |t.pcs| ==> ThreadOk(t, passed', failed', t.pcs[j])
    ensures forall j, k :: 0 <= j < k < |t.pcs| ==> Apart(t.pcs[j], t.pcs[k])
  {
    SubsetSize(failed, failed');
    forall j | 0 <= j < |t.pcs| && j != i ensures ThreadOk(t, passed', failed', t.pcs[j]) {
      assert ThreadOk(s, passed, failed, s.pcs[j]);
      assert if i < j then Apart(s.pcs[i], s.pcs[j]) else Apart(s.pcs[j], s.pcs[i]);
      if s.pcs[j].Recheck? {
        SubsetSize(Below(failed, s.pcs[j].ticket), Below(failed', s.pcs[j].ticket));
      }
    }
    forall j, k | 0 <= j < k < |t.pcs| ensures Apart(t.pcs[j], t.pcs[k]) {
      assert Apart(s.pcs[j], s.pcs[k]);
      assert ThreadOk(s, passed, failed, s.pcs[j]) && ThreadOk(s, passed, failed, s.pcs[k]);
    }
  }

  /** A consumer's step that settles no ticket. */
  lemma QuietKeeps(s: State, passed: set<nat>, failed: set<nat>, i: nat, max: nat)
    requires InvWith(s, passed, failed) && i < |s.pcs| && !s.pcs[i].Recheck?
    ensures Inv(After(s, i, max))
  {
    var t := After(s, i, max);
    SumsUpdate(s.pcs, i, t.pcs[i]);
    assert ThreadOk(s, passed, failed, s.pcs[i]);
    assert Below(failed, s.optimistic) == failed;
    OthersStayOk(s, t, passed, failed, passed, failed, i);
    assert InvWith(t, passed, failed);
  }

  /** The consumer's tickets split into `gain`, which pass, and `loss`, which fail. */
  lemma SplitKeeps(s: State, t: State, passed: set<nat>, failed: set<nat>, i: nat, gain: set<nat>, loss: set<nat>)
    requires InvWith(s, passed, failed) && i < |s.pcs| == |t.pcs| && s.pcs[i].Recheck?
    requires t == Goto(s, i, t.pcs[i]) && (t.pcs[i].Refund? || t.pcs[i].Claim?)
    requires gain !! loss
    requires forall d :: d in gain || d in loss ==> s.pcs[i].ticket <= d < s.pcs[i].ticket + s.pcs[i].want
    requires |gain| == Passing()(t.pcs[i]) && |loss| == Failing()(t.pcs[i])
    requires |gain| + |loss| == s.pcs[i].want
    requires forall d :: d in gain ==> d < s.tail + s.pcs[i].over
    ensures Inv(t)
  {
    var ticket := s.pcs[i].ticket;
    assert ThreadOk(s, passed, failed, s.pcs[i]);
    SumsUpdate(s.pcs, i, t.pcs[i]);
    forall d | d in passed + gain ensures d + 1 <= t.tail + |Below(failed + loss, d)| {
      SubsetSize(Below(failed, d), Below(failed + loss, d));
      if d in gain {
        SubsetSize(Below(failed, ticket), Below(failed, d));
      }
    }
    OthersStayOk(s, t, passed, failed, passed + gain, failed + loss, i);
    assert InvWith(t, passed + gain, failed + loss);
  }

  /** The second look at the tail passes the first tickets of the interval and fails the others. */
  lemma SettleKeeps(s: State, passed: set<nat>, failed: set<nat>, i: nat, max: nat)
    requires InvWith(s, passed, failed) && i < |s.pcs| && s.pcs[i].Recheck?
    ensures Inv(After(s, i, max))
  {
    var Recheck(want, over, ticket) := s.pcs[i];
    var actual := s.tail - (ticket - over);
    var claim: nat := if 0 < actual then Min(want, actual) else 0;
    SplitKeeps(s, After(s, i, max), passed, failed, i, Range(ticket, claim), Range(ticket + claim, want - claim));
  }

  lemma PublishKeeps(s: State, count: nat)
    requires Inv(s)
    ensures Inv(Publish(s, count))
  {
    var passed: set<nat>, failed: set<nat> :| InvWith(s, passed, failed);
    var t := Publish(s, count);
    forall j | 0 <= j < |t.pcs| ensures ThreadOk(t, passed, failed, t.pcs[j]) {
      assert ThreadOk(s, passed, failed, s.pcs[j]);
    }
    assert InvWith(t, passed, failed);
  }

  lemma StepKeeps(s: State, i: nat, max: nat)
    requires Inv(s) && i < |s.pcs|
    ensures Inv(After(s, i, max))
  {
    var passed: set<nat>, failed: set<nat> :| InvWith(s, passed, failed);
    if s.pcs[i].Recheck? {
      SettleKeeps(s, passed, failed, i, max);
    } else {
      QuietKeeps(s, passed, failed, i, max);
    }
  }

  lemma InitHolds(s: State)
    requires Init(s)
    ensures Inv(s)
  {
    SumZero(s.pcs, Passing());
    SumZero(s.pcs, Failing());
    SumZero(s.pcs, Pending());
    assert InvWith(s, {}, {});
  }

  lemma {:induction false} RunHolds(r: seq<State>, acts: seq<Action>, k: nat)
    requires Run(r, acts) && k < |r|
    ensures Inv(r[k])
  {
    if k == 0 {
      InitHolds(r[0]);
    } else {
      RunHolds(r, acts, k - 1);
      match acts[k - 1]
      case Consume(i, max) => StepKeeps(r[k - 1], i, max);
      case Produce(count) => PublishKeeps(r[k - 1], count);
    }
  }

  // ---------------------------------------------------------------------------------------------
  // What it means
  // ---------------------------------------------------------------------------------------------

  lemma {:induction false} MaxExists(tickets: set<nat>) returns (m: nat)
    requires tickets != {}
    ensures m in tickets && forall d :: d in tickets ==> d <= m
  {
    var x :| x in tickets;
    if tickets == {x} {
      m := x;
    } else {
      m := MaxExists(tickets - {x});
      assert forall d :: d in tickets ==> d == x || d in tickets - {x};
      m := if m < x then x else m;
    }
  }

  /** Consumers never overrun the producer: what has been claimed, and what consumers that passed the
      second look are still about to claim, lies below the tail. */
  lemma ClaimsStayBelowTail(s: State)
    requires Inv(s)
    ensures s.head + Sum(s.pcs, Passing()) <= s.tail
    ensures forall i :: 0 <= i < |s.pcs| && s.pcs[i].Claim? ==> s.head + s.pcs[i].count <= s.tail
  {
    var passed: set<nat>, failed: set<nat> :| InvWith(s, passed, failed);
    if passed != {} {
      var top := MaxExists(passed);
      var lower := Below(failed, top);
      SubsetSize(passed + lower, Range(0, top + 1));
      assert |passed + lower| == |passed| + |lower|;
    }
    forall i | 0 <= i < |s.pcs| && s.pcs[i].Claim? ensures s.head + s.pcs[i].count <= s.tail {
      SumAtLeast(s.pcs, Passing(), i);
    }
  }

  function InFlight(): PC -> nat {
    (pc: PC) => match pc
      case Recheck(want, _, _) => want
      case Refund(excess, claim) => excess + claim
      case Claim(count) => count
      case _ => 0
  }

  lemma {:induction false} InFlightIsAll(pcs: seq<PC>)
    ensures Sum(pcs, InFlight()) == Sum(pcs, Passing()) + Sum(pcs, Failing()) + Sum(pcs, Pending())
  {
    if pcs != [] {
      InFlightIsAll(pcs[1..]);
    }
  }

  /** Tickets are conserved: each one has advanced `head`, or is booked, or is in flight. */
  lemma TicketsAreConserved(s: State)
    requires Inv(s)
    ensures s.optimistic == s.head + s.overcommit + Sum(s.pcs, InFlight())
  {
    InFlightIsAll(s.pcs);
  }

  /** The assertion after taking tickets, and the same for the first look. */
  lemma OvercommitBelowTickets(s: State, i: nat)
    requires Inv(s) && i < |s.pcs|
    ensures s.pcs[i].Recheck? ==> s.pcs[i].over <= s.pcs[i].ticket
    ensures s.pcs[i].LoadOptimistic? ==> s.pcs[i].over <= s.optimistic
  {
    var passed: set<nat>, failed: set<nat> :| InvWith(s, passed, failed);
    assert ThreadOk(s, passed, failed, s.pcs[i]);
    if s.pcs[i].Recheck? {
      SubsetSize(Below(failed, s.pcs[i].ticket), Range(0, s.pcs[i].ticket));
    }
  }

  /** Index ranges being delivered to different consumers do not overlap, and have been claimed. */
  lemma DeliveriesAreDisjoint(s: State, i: nat, j: nat)
    requires Inv(s) && i < |s.pcs| && j < |s.pcs| && i != j && s.pcs[i].Deliver? && s.pcs[j].Deliver?
    ensures Range(s.pcs[i].first, s.pcs[i].count) !! Range(s.pcs[j].first, s.pcs[j].count)
    ensures Range(s.pcs[i].first, s.pcs[i].count) <= Range(0, s.head)
  {
    var passed: set<nat>, failed: set<nat> :| InvWith(s, passed, failed);
    assert ThreadOk(s, passed, failed, s.pcs[i]);
    assert if i < j then Apart(s.pcs[i], s.pcs[j]) else Apart(s.pcs[j], s.pcs[i]);
  }

  /** `n` consecutive steps of consumer `i`, with nobody else moving. */
  function Alone(s: State, i: nat, max: nat, n: nat): (t: State)
    requires i < |s.pcs|
    ensures |t.pcs| == |s.pcs|
  {
    if n == 0 then s else After(Alone(s, i, max, n - 1), i, max)
  }

  predicate Quiescent(s: State) {
    forall i :: 0 <= i < |s.pcs| ==> s.pcs[i].Idle?
  }

  /** With no dequeue in progress the two counters differ by exactly `head`. */
  lemma QuiescentIsExact(s: State)
    requires Inv(s) && Quiescent(s)
    ensures s.optimistic - s.overcommit == s.head <= s.tail
  {
    SumZero(s.pcs, InFlight());
    TicketsAreConserved(s);
    ClaimsStayBelowTail(s);
  }

  /** `n` are as many as are there, or as many as are wanted, whichever comes first. */
  predicate AsManyAs(n: nat, wanted: nat, there: int) {
    n <= wanted && n <= there && (n == wanted || n == there)
  }

  /** A dequeue that then runs alone fails, changing nothing, exactly when the sub-queue is empty; otherwise it claims
      from `head` all items that are there, or `max` of them if there are more. */
  lemma AloneIsExact(s: State, i: nat, max: nat)
    requires Inv(s) && Quiescent(s) && i < |s.pcs|
    ensures s.head == s.tail ==> Alone(s, i, max, 3) == s
    ensures s.head < s.tail ==>
              exists n: nat ::
                && AsManyAs(n, max, s.tail - s.head)
                && Alone(s, i, max, 6)
                   == s.(head := s.head + n, optimistic := s.optimistic + n, pcs := s.pcs[i := Deliver(s.head, n)])
  {
    QuiescentIsExact(s);
    var t1 := Alone(s, i, max, 1);
    assert t1 == After(Alone(s, i, max, 0), i, max);
    var t2 := Alone(s, i, max, 2);
    var t3 := Alone(s, i, max, 3);
    assert t3 == After(t2, i, max);
    assert s.pcs[i := Idle] == s.pcs;
    if s.head < s.tail {
      var t4 := Alone(s, i, max, 4);
      assert t4 == After(t3, i, max);
      var t5 := Alone(s, i, max, 5);
      assert t5 == After(t4, i, max);
      var t6 := Alone(s, i, max, 6);
      assert t6 == After(t5, i, max);
      assert AsManyAs(Min(max, s.tail - s.head), max, s.tail - s.head);
    }
  }

  /** Whatever others do, the first look sees the items that are there, less those that came since it loaded the tail,
      and less the tickets in flight and those given back since it loaded the overcommit: the dequeue gives up
      exactly if none is left, and otherwise asks for as many as are left, or `max`. */
  lemma FirstLookIsExact(s: State, i: nat, n: nat)
    requires Inv(s) && i < |s.pcs| && s.pcs[i].LoadOptimistic?
    ensures var LoadOptimistic(max, tail, over) := s.pcs[i];
            var there := (s.tail - s.head) - (s.tail - tail) - (s.overcommit - over) - Sum(s.pcs, InFlight());
            var pc := After(s, i, n).pcs[i];
            && (there <= 0 <==> pc == Idle)
            && (there > 0 ==> exists want: nat :: AsManyAs(want, max, there) && pc == TakeTickets(want, over))
  {
    TicketsAreConserved(s);
    var LoadOptimistic(max, tail, over) := s.pcs[i];
    var there := (s.tail - s.head) - (s.tail - tail) - (s.overcommit - over) - Sum(s.pcs, InFlight());
    assert there == tail - (s.optimistic - over);
    if there > 0 { assert AsManyAs(Min(there, max), max, there); }
  }

  /** A consumer keeps `claim` of its `want` tickets, and gives back the rest, if any. */
  predicate Keeps(pc: PC, claim: nat, want: nat) {
    match pc
    case Claim(count) => count == claim == want
    case Refund(excess, kept) => kept == claim < want && excess == want - claim
    case _ => false
  }

  /** The second look sees the items that are there, and those that tickets from its own on stand for, less the tickets
      in flight and those given back since it loaded the overcommit: the dequeue gives all its tickets back exactly if
      none is left, and otherwise keeps as many as are left, or all, and gives back the rest. */
  lemma SecondLookIsExact(s: State, i: nat, n: nat)
    requires Inv(s) && i < |s.pcs| && s.pcs[i].Recheck?
    ensures var Recheck(want, over, ticket) := s.pcs[i];
            var there := (s.tail - s.head) + (s.optimistic - ticket) - (s.overcommit - over) - Sum(s.pcs, InFlight());
            var pc := After(s, i, n).pcs[i];
            && (there <= 0 ==> pc == Refund(want, 0))
            && (there > 0 ==>
                  exists claim: nat :: AsManyAs(claim, want, there) && Keeps(pc, claim, want))
  {
    TicketsAreConserved(s);
    var Recheck(want, over, ticket) := s.pcs[i];
    var there := (s.tail - s.head) + (s.optimistic - ticket) - (s.overcommit - over) - Sum(s.pcs, InFlight());
    assert there == s.tail - (ticket - over);
    if there > 0 {
      var claim: nat := Min(want, there);
      assert AsManyAs(claim, want, there);
      assert Keeps(After(s, i, n).pcs[i], claim, want);
    }
  }

  /** Step `k` of the run claims index `x`. */
  ghost predicate ClaimedAt(r: seq<State>, acts: seq<Action>, k: nat, x: nat)
    requires Run(r, acts)
  {
    && k < |acts| && acts[k].Consume?
    && var pc := r[k].pcs[acts[k].i];
       pc.Claim? && r[k].head <= x < r[k].head + pc.count
  }

  lemma {:induction false} HeadGrows(r: seq<State>, acts: seq<Action>, a: nat, b: nat)
    requires Run(r, acts) && a <= b < |r|
    ensures r[a].head <= r[b].head
    decreases b
  {
    if a < b {
      HeadGrows(r, acts, a, b - 1);
    }
  }

  /** Over any run, each index below `head` is claimed by exactly one step, and no other index is. */
  lemma {:induction false} EachIndexClaimedOnce(r: seq<State>, acts: seq<Action>, x: nat)
    requires Run(r, acts)
    ensures (exists k: nat :: ClaimedAt(r, acts, k, x)) <==> x < r[|acts|].head
    ensures forall j: nat, k: nat :: ClaimedAt(r, acts, j, x) && ClaimedAt(r, acts, k, x) ==> j == k
  {
    forall k: nat | ClaimedAt(r, acts, k, x) ensures x < r[k + 1].head <= r[|acts|].head {
      HeadGrows(r, acts, k + 1, |acts|);
    }
    forall j: nat, k: nat | ClaimedAt(r, acts, j, x) && ClaimedAt(r, acts, k, x) ensures j == k {
      if j < k { HeadGrows(r, acts, j + 1, k); }
      if k < j { HeadGrows(r, acts, k + 1, j); }
    }
    if x < r[|acts|].head {
      var k := ClaimStep(r, acts, x, |acts|);
    }
  }

  lemma {:induction false} ClaimStep(r: seq<State>, acts: seq<Action>, x: nat, n: nat) returns (k: nat)
    requires Run(r, acts) && n < |r| && x < r[n].head
    ensures ClaimedAt(r, acts, k, x)
  {
    if x < r[n - 1].head {
      k := ClaimStep(r, acts, x, n - 1);
    } else {
      k := n - 1;
    }
  }
}
