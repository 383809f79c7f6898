/** The counters of one sub-queue: a single producer advances `tail`; any number of consumers run
    `dequeue` or `dequeue_bulk`, which take tickets from `optimistic`, look at the tail again, and then
    either claim indices from `head` or book the tickets as `overcommit`.

    `dequeue` loads and updates the counters exactly as `dequeue_bulk` with `max == 1` does.  Counters
    are unbounded here; module WrappedCounters relates them to the machine's. */
module Tickets {

  datatype PC =
    | Idle
    | LoadOvercommit(max: nat, tail: nat)
    | LoadOptimistic(max: nat, tail: nat, over: nat)
    | TakeTickets(want: nat, over: nat)
    | Recheck(want: nat, over: nat, ticket: nat)
    | Refund(excess: nat, claim: nat)
    | Claim(count: nat)
    | Deliver(first: nat, count: nat)

  datatype State = State(tail: nat, head: nat, optimistic: nat, overcommit: nat, pcs: seq<PC>)

  function Min(a: int, b: int): int {
    if a < b then a else b
  }

  function Goto(s: State, i: nat, pc: PC): State
    requires i < |s.pcs|
  {
    s.(pcs := s.pcs[i := pc])
  }

  /** What a consumer does after its refund, and when it owes none: claim, or report failure. */
  function ClaimOrFail(claim: nat, excess: nat): PC {
    if excess > 0 then Refund(excess, claim) else Claim(claim)
  }

  /** The second look at the tail: how many of the tickets `[ticket, ticket + want)` are covered by it. */
  function Settle(want: nat, over: nat, ticket: nat, tail: nat): PC {
    var actual := tail - (ticket - over);
    if 0 < actual then
      var claim := Min(want, actual);
      ClaimOrFail(claim, want - claim)
    else Refund(want, 0)
  }

  /** One atomic step of consumer `i`; `max` is what an idle consumer asks for. */
  function After(s: State, i: nat, max: nat): State
    requires i < |s.pcs|
  {
    match s.pcs[i]
    case Idle => Goto(s, i, LoadOvercommit(max, s.tail))
    case LoadOvercommit(m, tail) => Goto(s, i, LoadOptimistic(m, tail, s.overcommit))
    case LoadOptimistic(m, tail, over) =>
      var desired := tail - (s.optimistic - over);
      Goto(s, i, if 0 < desired then TakeTickets(Min(desired, m), over) else Idle)
    case TakeTickets(want, over) =>
      Goto(s, i, Recheck(want, over, s.optimistic)).(optimistic := s.optimistic + want)
    case Recheck(want, over, ticket) =>
      Goto(s, i, Settle(want, over, ticket, s.tail))
    case Refund(excess, claim) =>
      Goto(s, i, if claim > 0 then Claim(claim) else Idle).(overcommit := s.overcommit + excess)
    case Claim(count) =>
      Goto(s, i, Deliver(s.head, count)).(head := s.head + count)
    case Deliver(_, _) => Goto(s, i, Idle)
  }

  /** The producer makes `count` more items visible. */
  function Publish(s: State, count: nat): State {
    s.(tail := s.tail + count)
  }

  predicate Init(s: State) {
    && s.tail == s.head == s.optimistic == s.overcommit == 0
    && forall i :: 0 <= i < |s.pcs| ==> s.pcs[i] == Idle
  }

  datatype Action = Consume(i: nat, max: nat) | Produce(count: nat)

  predicate Enabled(s: State, a: Action) {
    a.Consume? ==> a.i < |s.pcs|
  }

  function Do(s: State, a: Action): State
    requires Enabled(s, a)
  {
    match a
    case Consume(i, max) => After(s, i, max)
    case Produce(count) => Publish(s, count)
  }

  ghost predicate Run(r: seq<State>, acts: seq<Action>) {
    && |r| == |acts| + 1
    && Init(r[0])
    && (forall k :: 0 <= k < |acts| ==> Enabled(r[k], acts[k]) && r[k + 1] == Do(r[k], acts[k]))
  }
}
