/** What a call of the hash table comes to: who has a producer gets it back, who has none gets one if there is memory,
    and a call that is not held up ends. */
module ProducerHashCalls {
  import opened ProducerHash
  import opened ProducerHashProof
  import opened Circular
  import opened Threads

  // ---------------------------------------------------------------------------------------------
  // Any interleaving
  // ---------------------------------------------------------------------------------------------

  /** The thread looks its producer up, or puts it into the current table. */
  predicate OnTheWay(pc: PC) {
    pc.Probe? || pc.Put? || pc.PutKey? || pc.PutValue?
  }

  lemma ThreadIsOk(s: State, i: nat)
    requires Inv(s) && i < |s.pcs|
    ensures i in s.given ==> s.pcs[i].Idle? || OnTheWay(s.pcs[i]) || s.pcs[i] == Return(s.given[i])
  {
    var tickets :| InvWith(s, tickets);
    assert ThreadOk(s, tickets, i);
  }

  /** The thread is between giving its call up and its end. */
  predicate Failing(pc: PC) {
    pc.Refuse? || pc.Unlock? || pc.GiveUp?
  }

  lemma WhatEnds(s: State, i: nat, ok: bool)
    requires Shape(s) && i < |s.pcs|
    ensures After(s, i, ok).pcs[i].Idle? <==> s.pcs[i].Return? || s.pcs[i].Unlock? || s.pcs[i].GiveUp?
  {
  }

  lemma WhatFails(s: State, i: nat, ok: bool)
    requires Shape(s) && i < |s.pcs|
    ensures Failing(After(s, i, ok).pcs[i]) ==> s.pcs[i].Refuse? || (!ok && (s.pcs[i].Allocate? || s.pcs[i].Create?))
  {
    match s.pcs[i]
    case Probe(_, _, _) => ProbeStep(s, i, ok, After(s, i, ok));
    case Put(_, _, _) => PutStep(s, i, ok, After(s, i, ok));
    case PutKey(_, _, _) => PutStep(s, i, ok, After(s, i, ok));
    case _ =>
  }

  lemma OthersStand(s: State, i: nat, ok: bool, t: State, j: nat)
    requires Step(s, i, ok, t) && j < |t.pcs|
    ensures j < |s.pcs| && (j != i ==> t.pcs[j] == s.pcs[j])
  {
    match s.pcs[i]
    case Probe(_, _, _) => ProbeStep(s, i, ok, t);
    case Put(_, _, _) => PutStep(s, i, ok, t);
    case PutKey(_, _, _) => PutStep(s, i, ok, t);
    case _ =>
  }

  predicate ProbedTo(s: State, p: PC, q: PC)
    requires p.Probe?
  {
    match q
    case Probe(main, t, k) =>
      && main == p.main
      && ((t == p.table && k == p.k + 1) || (k == 0 && p.table < |s.tables| && s.tables[p.table].prev == Older(t)))
    case Put(main, k, _) => main == p.main && k == 0
    case Bump(main) => main == p.main
    case Return(_) => true
    case _ => false
  }

  lemma ProbeStep(s: State, i: nat, ok: bool, t: State)
    requires Step(s, i, ok, t) && s.pcs[i].Probe?
    ensures |t.pcs| == |s.pcs| && t == Goto(s, i, t.pcs[i]) && ProbedTo(s, s.pcs[i], t.pcs[i])
  {
  }

  lemma PutStep(s: State, i: nat, ok: bool, t: State)
    requires Step(s, i, ok, t) && (s.pcs[i].Put? || s.pcs[i].PutKey?)
    ensures |t.pcs| == |s.pcs| && t.pcs == s.pcs[i := t.pcs[i]] && t.resizing == s.resizing
    ensures |t.tables| == |s.tables| && forall u :: 0 <= u < |s.tables| ==> t.tables[u].capacity == s.tables[u].capacity
    ensures var p, q := s.pcs[i], t.pcs[i];
            || q == Put(p.main, p.k + 1, p.value)
            || (p.Put? && q == PutKey(p.main, p.k, p.value)) || (p.PutKey? && q == PutValue(p.main, p.k, p.value))
  {
  }

  lemma InvHasShape(s: State)
    requires Inv(s)
    ensures Shape(s)
  {
    var tickets :| InvWith(s, tickets);
  }

  /** A call of a thread that has a producer never asks for another or for memory, and ends only by returning it. */
  lemma GivenIsReturned(s: State, i: nat, ok: bool)
    requires Inv(s) && i < |s.pcs| && i in s.given && !s.pcs[i].Idle? && !s.pcs[i].Return?
    ensures Shape(s)
    ensures OnTheWay(After(s, i, ok).pcs[i]) || After(s, i, ok).pcs[i] == Return(s.given[i])
  {
    InvHasShape(s);
    var t := After(s, i, ok);
    StepKeeps(s, t, i, ok);
    GivenStaysOnce(s, t, i, ok, i);
    ThreadIsOk(s, i);
    ThreadIsOk(t, i);
    WhatEnds(s, i, ok);
  }

  /** Step `k` of the run is one of thread `i` that memory is refused for: for a larger table, or for a producer. */
  ghost predicate RefusedAt(r: seq<State>, acts: seq<Action>, i: nat, k: nat) {
    && k < |acts| && k < |r| && i < |r[k].pcs| && acts[k].i == i && !acts[k].ok
    && (r[k].pcs[i].Allocate? || r[k].pcs[i].Create?)
  }

  ghost predicate RefusedIn(r: seq<State>, acts: seq<Action>, i: nat, a: nat, b: nat) {
    exists k: nat :: a <= k < b && RefusedAt(r, acts, i, k)
  }

  lemma FailingStep(s: State, i: nat, ok: bool, t: State, j: nat)
    requires Step(s, i, ok, t) && j < |t.pcs| && Failing(t.pcs[j])
    ensures j < |s.pcs|
    ensures Failing(s.pcs[j]) || (i == j && !ok && (s.pcs[j].Allocate? || s.pcs[j].Create?))
  {
    OthersStand(s, i, ok, t, j);
    WhatFails(s, i, ok);
  }

  lemma {:induction false} FailingWasRefused(r: seq<State>, acts: seq<Action>, i: nat, a: nat, k: nat)
    requires Run(r, acts) && a <= k < |r| && i < |r[a].pcs| && !Failing(r[a].pcs[i])
    requires i < |r[k].pcs| && Failing(r[k].pcs[i])
    ensures RefusedIn(r, acts, i, a, k)
    decreases k
  {
    FailingStep(r[k - 1], acts[k - 1].i, acts[k - 1].ok, r[k], i);
    if Failing(r[k - 1].pcs[i]) {
      FailingWasRefused(r, acts, i, a, k - 1);
      var n: nat :| a <= n < k - 1 && RefusedAt(r, acts, i, n);
    } else {
      assert RefusedAt(r, acts, i, k - 1);
    }
  }

  lemma LastStep(s: State, i: nat, ok: bool, t: State, j: nat)
    requires Step(s, i, ok, t) && j < |s.pcs| && !s.pcs[j].Idle? && j < |t.pcs| && t.pcs[j].Idle?
    ensures i == j && (s.pcs[j].Return? || Failing(s.pcs[j]))
  {
    OthersStand(s, i, ok, t, j);
    WhatEnds(s, i, ok);
  }

  /** Over any run, a call of thread `i` from its start in state `a` to its end in state `b` returns the thread's
      producer, or memory was refused to one of its own steps; and if the thread had a producer when it called, it
      returns that one, memory or not. */
  lemma CallReturns(r: seq<State>, acts: seq<Action>, i: nat, a: nat, b: nat)
    requires Run(r, acts) && a < b < |r| && i < |r[a].pcs| && i < |r[b - 1].pcs| && i < |r[b].pcs|
    requires r[a].pcs[i].Idle? && !r[b - 1].pcs[i].Idle? && r[b].pcs[i].Idle?
    ensures (i in r[b].given && r[b - 1].pcs[i] == Return(r[b].given[i])) || RefusedIn(r, acts, i, a, b)
    ensures i in r[a].given ==> r[b - 1].pcs[i] == Return(r[a].given[i])
  {
    LastStep(r[b - 1], acts[b - 1].i, acts[b - 1].ok, r[b], i);
    RunHolds(r, acts, b - 1);
    ThreadIsOk(r[b - 1], i);
    if r[b - 1].pcs[i].Return? {
      ReturnsItsProducer(r[b - 1], i);
      GivenStays(r, acts, b - 1, b, i);
    } else {
      FailingWasRefused(r, acts, i, a, b - 1);
      var k: nat :| a <= k < b - 1 && RefusedAt(r, acts, i, k);
    }
    if i in r[a].given { GivenStays(r, acts, a, b - 1, i); }
  }

  // ---------------------------------------------------------------------------------------------
  // Alone
  // ---------------------------------------------------------------------------------------------

  /** `n` consecutive steps of thread `i`, with memory to be had, and nobody else moving. */
  function Alone(s: State, i: nat, n: nat): State
    decreases n
  {
    if n == 0 || !Shape(s) || i >= |s.pcs| then s else Alone(After(s, i, true), i, n - 1)
  }

  /** Nobody else holds the resize lock, and the thread is not giving up. */
  ghost predicate Going(s: State, i: nat) {
    && Inv(s) && Shape(s) && i < |s.pcs|
    && !Failing(s.pcs[i])
    && (s.resizing ==> Locks(s.pcs[i]))
    && (s.pcs[i].Clear? ==> s.pcs[i].n < ThreeQuarters(s.tables[s.pcs[i].main].capacity))
  }

  predicate RoomThere(s: State, pc: PC)
    requires pc.Room?
  {
    pc.main < |s.tables| && pc.n < ThreeQuarters(s.tables[pc.main].capacity)
  }

  function Phase(s: State, pc: PC): nat {
    match pc
    case Return(_) => 0
    case PutValue(_, _, _) => 1
    case PutKey(_, _, _) => 2
    case Put(_, _, _) => 2
    case Create(_, _) => 3
    case Room(_, _) => if RoomThere(s, pc) then 4 else 9
    case Clear(_, _) => 5
    case Allocate(_, _) => 6
    case Reload(_) => 7
    case Check(_, _) => 8
    case Bump(_) => 10
    case Probe(_, _, _) => 11
    case _ => 12
  }

  function TableOf(pc: PC): nat {
    if pc.Probe? then pc.table else 0
  }

  /** How much of a table is left to probe. */
  function Left(s: State, pc: PC): int {
    match pc
    case Probe(_, t, k) => if t < |s.tables| then s.tables[t].capacity - k else 0
    case Put(main, k, _) => if main < |s.tables| then 2 * (s.tables[main].capacity - k) + 1 else 0
    case PutKey(main, k, _) => if main < |s.tables| then 2 * (s.tables[main].capacity - k) else 0
    case _ => 0
  }

  lemma LockIsOwn(s: State, i: nat)
    requires Inv(s) && i < |s.pcs| && Locks(s.pcs[i])
    ensures s.resizing
  {
    var tickets :| InvWith(s, tickets);
  }

  lemma ChainGoesDown(s: State, t: nat)
    requires Inv(s) && t < |s.tables|
    ensures s.tables[t].prev.Older? ==> s.tables[t].prev.table < t
  {
    var tickets :| InvWith(s, tickets);
  }

  lemma LockAfter(s: State, i: nat)
    requires Shape(s) && i < |s.pcs| && !s.pcs[i].Return? && !Failing(s.pcs[i])
    requires s.resizing <==> Locks(s.pcs[i])
    ensures var t := After(s, i, true); t.resizing ==> i < |t.pcs| && Locks(t.pcs[i])
  {
  }

  lemma ClearAfter(s: State, i: nat)
    requires Shape(s) && i < |s.pcs| && i < |After(s, i, true).pcs| && After(s, i, true).pcs[i].Clear?
    ensures s.pcs[i].Reload? || s.pcs[i].Allocate?
  {
    match s.pcs[i]
    case Probe(_, _, _) => ProbeStep(s, i, true, After(s, i, true));
    case Put(_, _, _) => PutStep(s, i, true, After(s, i, true));
    case PutKey(_, _, _) => PutStep(s, i, true, After(s, i, true));
    case _ =>
  }

  lemma RoomAfter(s: State, i: nat, t: State)
    requires Inv(s) && Step(s, i, true, t) && i < |t.pcs| && t.pcs[i].Clear?
    ensures t.pcs[i].main < |t.tables| && t.pcs[i].n < ThreeQuarters(t.tables[t.pcs[i].main].capacity)
  {
    ClearAfter(s, i);
    RoomAfterResize(s, i, true);
  }

  lemma GoesOn(s: State, i: nat)
    requires Going(s, i) && !s.pcs[i].Return?
    ensures Going(After(s, i, true), i)
  {
    var t := After(s, i, true);
    StepKeeps(s, t, i, true);
    InvHasShape(t);
    WhatFails(s, i, true);
    if Locks(s.pcs[i]) { LockIsOwn(s, i); }
    LockAfter(s, i);
    if t.pcs[i].Clear? { RoomAfter(s, i, t); }
  }

  /** The call has come nearer to its end. */
  predicate Nearer(s: State, p: PC, t: State, q: PC) {
    || Phase(t, q) < Phase(s, p)
    || (Phase(t, q) == Phase(s, p) && TableOf(q) < TableOf(p))
    || (Phase(t, q) == Phase(s, p) && TableOf(q) == TableOf(p) && 0 <= Left(t, q) < Left(s, p))
  }

  lemma ProbeGetsNearer(s: State, t: State, i: nat)
    requires Inv(s) && Inv(t) && i < |s.pcs| == |t.pcs| && s.pcs[i].Probe?
    requires t == Goto(s, i, t.pcs[i]) && ProbedTo(s, s.pcs[i], t.pcs[i])
    ensures Nearer(s, s.pcs[i], t, t.pcs[i])
  {
    ProbesEnd(t, i);
    ProbesEnd(s, i);
    ChainGoesDown(s, s.pcs[i].table);
  }

  lemma PutGetsNearer(s: State, t: State, i: nat)
    requires Inv(s) && Inv(t) && i < |s.pcs| == |t.pcs| && (s.pcs[i].Put? || s.pcs[i].PutKey?)
    requires |t.tables| == |s.tables| && forall u :: 0 <= u < |s.tables| ==> t.tables[u].capacity == s.tables[u].capacity
    requires var p, q := s.pcs[i], t.pcs[i];
             || q == Put(p.main, p.k + 1, p.value)
             || (p.Put? && q == PutKey(p.main, p.k, p.value)) || (p.PutKey? && q == PutValue(p.main, p.k, p.value))
    ensures Nearer(s, s.pcs[i], t, t.pcs[i])
  {
    ProbesEnd(t, i);
    ProbesEnd(s, i);
  }

  lemma OtherGetsNearer(s: State, i: nat)
    requires Shape(s) && i < |s.pcs| && !Failing(s.pcs[i]) && (s.resizing ==> Locks(s.pcs[i]))
    requires s.pcs[i].Clear? ==> s.pcs[i].n < ThreeQuarters(s.tables[s.pcs[i].main].capacity)
    requires !s.pcs[i].Probe? && !s.pcs[i].Put? && !s.pcs[i].PutKey? && !s.pcs[i].Return?
    ensures i < |After(s, i, true).pcs| && Phase(After(s, i, true), After(s, i, true).pcs[i]) < Phase(s, s.pcs[i])
  {
  }

  lemma GetsNearer(s: State, i: nat)
    requires Going(s, i) && !s.pcs[i].Return?
    ensures i < |After(s, i, true).pcs| && Nearer(s, s.pcs[i], After(s, i, true), After(s, i, true).pcs[i])
  {
    var t := After(s, i, true);
    StepKeeps(s, t, i, true);
    match s.pcs[i]
    case Probe(_, _, _) =>
      ProbeStep(s, i, true, t);
      ProbeGetsNearer(s, t, i);
    case Put(_, _, _) =>
      PutStep(s, i, true, t);
      PutGetsNearer(s, t, i);
    case PutKey(_, _, _) =>
      PutStep(s, i, true, t);
      PutGetsNearer(s, t, i);
    case _ => OtherGetsNearer(s, i);
  }

  /** A call that is not held up by another thread under the resize lock, and gets the memory it asks for, returns the
      thread's producer, wherever the other threads have stopped. */
  lemma {:induction false} AloneReturns(s: State, i: nat) returns (n: nat)
    requires Going(s, i)
    ensures i < |Alone(s, i, n).pcs| && i in Alone(s, i, n).given
    ensures Alone(s, i, n).pcs[i] == Return(Alone(s, i, n).given[i])
    decreases Phase(s, s.pcs[i]), TableOf(s.pcs[i]), if Left(s, s.pcs[i]) < 0 then 0 else Left(s, s.pcs[i])
  {
    if s.pcs[i].Return? {
      n := 0;
      ReturnsItsProducer(s, i);
    } else {
      var t := After(s, i, true);
      GoesOn(s, i);
      GetsNearer(s, i);
      var m := AloneReturns(t, i);
      n := m + 1;
      assert Alone(s, i, n) == Alone(t, i, m);
    }
  }

  // ---------------------------------------------------------------------------------------------
  // Resizing
  // ---------------------------------------------------------------------------------------------

  /** What a thread that has counted itself in as number `n` comes to with two steps of its own: if the table it looks at
      is half full and nobody is resizing, it resizes, asking for memory only if the table that is current by then is
      half full too; otherwise it goes on to make its producer, also while another thread resizes, unless three quarters
      of the table are accounted for: only then does it wait. */
  lemma TwoStepsOn(s: State, i: nat, ok: bool, t: State, also: bool, u: State)
    requires Inv(s) && Step(s, i, ok, t) && s.pcs[i].Check? && Step(t, i, also, u)
    ensures i < |u.pcs| && s.main < |s.tables|
    ensures var Check(main, n) := s.pcs[i];
            var cap, now := s.tables[main].capacity, s.tables[s.main].capacity;
            if n >= cap / 2 && (forall j :: 0 <= j < |s.pcs| ==> !Locks(s.pcs[j])) then
              u.pcs[i] == if n >= now / 2 then Allocate(s.main, n) else Clear(s.main, n)
            else u.pcs[i] == if n < cap / 2 + cap / 4 then Create(main, n) else Check(s.main, n)
  {
    ChainIsLinear(s, 0);
    CheckStep(s, i, ok, t);
    DecidedStep(t, i, also, u);
  }

  lemma CheckStep(s: State, i: nat, ok: bool, t: State)
    requires Step(s, i, ok, t) && s.pcs[i].Check?
    ensures t.tables == s.tables && t.main == s.main && |t.pcs| == |s.pcs|
    ensures var Check(main, n) := s.pcs[i];
            t.pcs[i] == if n >= s.tables[main].capacity / 2 && !s.resizing then Reload(n) else Room(main, n)
  {
  }

  lemma DecidedStep(t: State, i: nat, ok: bool, u: State)
    requires Step(t, i, ok, u) && (t.pcs[i].Reload? || t.pcs[i].Room?)
    ensures i < |u.pcs|
    ensures t.pcs[i].Reload? ==>
              u.pcs[i] == if t.pcs[i].n >= t.tables[t.main].capacity / 2 then Allocate(t.main, t.pcs[i].n) else Clear(t.main, t.pcs[i].n)
    ensures t.pcs[i].Room? ==>
              var Room(main, n) := t.pcs[i];
              var cap := t.tables[main].capacity;
              u.pcs[i] == if n < cap / 2 + cap / 4 then Create(main, n) else Check(t.main, n)
  {
  }

  lemma {:induction false} EnoughIsDoubled(capacity: nat, n: int) returns (k: nat)
    requires capacity > 0
    ensures k > 0 && Enough(capacity, n) == Pow2(k) * capacity
    decreases n - capacity
  {
    if n >= 2 * capacity / 2 {
      var j := EnoughIsDoubled(2 * capacity, n);
      k := j + 1;
      assert Pow2(j) * (2 * capacity) == (2 * Pow2(j)) * capacity;
    } else {
      k := 1;
      assert Pow2(1) == 2 * Pow2(0);
    }
  }

  ghost predicate IsPower(c: nat) {
    exists m: nat :: c == Pow2(m)
  }

  ghost predicate PowersOnly(s: State) {
    forall t :: 0 <= t < |s.tables| ==> IsPower(s.tables[t].capacity)
  }

  lemma EnoughIsPower(capacity: nat, n: int)
    requires capacity > 0 && IsPower(capacity)
    ensures IsPower(Enough(capacity, n))
  {
    var m: nat :| capacity == Pow2(m);
    var k := EnoughIsDoubled(capacity, n);
    Pow2Split(k, m);
  }

  lemma TablesAfter(s: State, i: nat, ok: bool, t: State)
    requires Step(s, i, ok, t)
    ensures |s.tables| <= |t.tables| <= |s.tables| + 1
    ensures forall u :: 0 <= u < |s.tables| ==> t.tables[u].capacity == s.tables[u].capacity
    ensures |t.tables| > |s.tables| ==>
              s.pcs[i].Allocate? && t.tables[|s.tables|].capacity == Enough(s.tables[s.pcs[i].main].capacity, s.pcs[i].n)
  {
  }

  /** If the first table's capacity is a power of two, so are all. */
  lemma {:induction false} CapacitiesArePowers(r: seq<State>, acts: seq<Action>, k: nat)
    requires Run(r, acts) && k < |r| && PowersOnly(r[0])
    ensures PowersOnly(r[k])
  {
    if k > 0 {
      CapacitiesArePowers(r, acts, k - 1);
      var s, i := r[k - 1], acts[k - 1].i;
      TablesAfter(s, i, acts[k - 1].ok, r[k]);
      if s.pcs[i].Allocate? { EnoughIsPower(s.tables[s.pcs[i].main].capacity, s.pcs[i].n); }
    }
  }

  /** So the slots that a thread probes are those that masking gives. */
  lemma SlotIsMasked(r: seq<State>, acts: seq<Action>, k: nat, i: nat, t: nat, n: nat)
    requires Run(r, acts) && k < |r| && PowersOnly(r[0]) && i < |r[k].pcs| && t < |r[k].tables|
    ensures Shape(r[k]) && SlotAt(r[k], i, t, n) == And(r[k].hash[i] + n, r[k].tables[t].capacity - 1)
  {
    RunHolds(r, acts, k);
    InvHasShape(r[k]);
    CapacitiesArePowers(r, acts, k);
    var m: nat :| r[k].tables[t].capacity == Pow2(m);
    LowMask(r[k].hash[i] + n, m);
  }

  /** The count a thread got, while it has one in hand. */
  function CountOf(pc: PC): int {
    match pc
    case Check(_, n) => n
    case Reload(n) => n
    case Allocate(_, n) => n
    case Clear(_, n) => n
    case Room(_, n) => n
    case Create(_, n) => n
    case _ => 0
  }

  /** No thread's count exceeds the number of threads; memory for a larger table is asked for only when half of the
      current one is accounted for; and no table but the first, of `first` slots, is more than four times as large as
      there are threads (and three more, which a power of two cannot have). */
  ghost predicate Modest(s: State, first: nat) {
    && Shape(s)
    && (forall i :: 0 <= i < |s.pcs| ==> CountOf(s.pcs[i]) <= |s.pcs|)
    && (forall i :: 0 <= i < |s.pcs| && s.pcs[i].Allocate? ==>
          s.pcs[i].n >= s.tables[s.pcs[i].main].capacity / 2)
    && (forall t :: 0 <= t < |s.tables| ==> s.tables[t].capacity <= first || s.tables[t].capacity <= 4 * |s.pcs| + 3)
  }

  ghost function Numbers(n: nat): (r: set<nat>)
    ensures forall d :: d in r <==> 0 <= d < n
    ensures |r| == n
  {
    if n == 0 then {} else Numbers(n - 1) + {n - 1}
  }

  lemma CountsInThreads(s: State, i: nat)
    requires Inv(s) && i < |s.pcs| && s.pcs[i].Bump?
    ensures s.count + 1 <= |s.pcs|
  {
    var tickets :| InvWith(s, tickets);
    assert ThreadOk(s, tickets, i);
    SubsetSize(tickets.Keys, Numbers(|s.pcs|) - {i});
  }

  lemma OwnCountAfter(s: State, i: nat, ok: bool, t: State)
    requires Step(s, i, ok, t) && i < |t.pcs|
    ensures CountOf(t.pcs[i]) <= 0 || CountOf(t.pcs[i]) == CountOf(s.pcs[i])
            || (s.pcs[i].Bump? && CountOf(t.pcs[i]) == s.count + 1)
    ensures t.pcs[i].Allocate? ==> t.pcs[i].n >= s.tables[s.main].capacity / 2 && t.pcs[i].main == s.main
  {
    match s.pcs[i]
    case Probe(_, _, _) => ProbeStep(s, i, ok, t);
    case Put(_, _, _) => PutStep(s, i, ok, t);
    case PutKey(_, _, _) => PutStep(s, i, ok, t);
    case _ =>
  }

  lemma CountsStayModest(s: State, i: nat, ok: bool, t: State, j: nat)
    requires Inv(s) && Step(s, i, ok, t) && |t.pcs| == |s.pcs| && j < |t.pcs| && CountOf(s.pcs[j]) <= |s.pcs|
    ensures CountOf(t.pcs[j]) <= |t.pcs|
  {
    OthersStand(s, i, ok, t, j);
    if i == j {
      OwnCountAfter(s, i, ok, t);
      if s.pcs[i].Bump? { CountsInThreads(s, i); }
    }
  }

  lemma HalfFullStays(s: State, i: nat, ok: bool, t: State, j: nat)
    requires Step(s, i, ok, t) && Shape(t) && j < |s.pcs| == |t.pcs| && t.pcs[j].Allocate?
    requires s.pcs[j].Allocate? ==> s.pcs[j].n >= s.tables[s.pcs[j].main].capacity / 2
    ensures t.pcs[j].n >= t.tables[t.pcs[j].main].capacity / 2
  {
    OthersStand(s, i, ok, t, j);
    TablesAfter(s, i, ok, t);
    if i == j { OwnCountAfter(s, i, ok, t); }
  }

  lemma TablesStayModest(s: State, i: nat, ok: bool, t: State, first: nat, u: nat)
    requires Step(s, i, ok, t) && Modest(s, first) && |t.pcs| == |s.pcs| && u < |t.tables|
    ensures t.tables[u].capacity <= first || t.tables[u].capacity <= 4 * |t.pcs| + 3
  {
    TablesAfter(s, i, ok, t);
    if u == |s.tables| { assert CountOf(s.pcs[i]) <= |s.pcs|; }
  }

  lemma StaysModest(s: State, i: nat, ok: bool, t: State, first: nat)
    requires Inv(s) && Step(s, i, ok, t) && Modest(s, first) && Shape(t)
    ensures Modest(t, first)
  {
    SamePcs(s, i, ok, t);
    forall j | 0 <= j < |t.pcs|
      ensures CountOf(t.pcs[j]) <= |t.pcs|
      ensures t.pcs[j].Allocate? ==> t.pcs[j].n >= t.tables[t.pcs[j].main].capacity / 2
    {
      CountsStayModest(s, i, ok, t, j);
      if t.pcs[j].Allocate? { HalfFullStays(s, i, ok, t, j); }
    }
    forall u | 0 <= u < |t.tables| ensures t.tables[u].capacity <= first || t.tables[u].capacity <= 4 * |t.pcs| + 3 {
      TablesStayModest(s, i, ok, t, first, u);
    }
  }

  /** Over any run, tables are replaced only when they are half full, and none gets larger than the number of threads
      can ever call for. */
  lemma {:induction false} TablesAreModest(r: seq<State>, acts: seq<Action>, k: nat)
    requires Run(r, acts) && k < |r| && r[0].tables != []
    ensures Modest(r[k], r[0].tables[0].capacity)
  {
    if k > 0 {
      TablesAreModest(r, acts, k - 1);
      RunHolds(r, acts, k - 1);
      RunHolds(r, acts, k);
      InvHasShape(r[k]);
      StaysModest(r[k - 1], acts[k - 1].i, acts[k - 1].ok, r[k], r[0].tables[0].capacity);
    }
  }

  // ---------------------------------------------------------------------------------------------
  // Copying
  // ---------------------------------------------------------------------------------------------

  /** The thread works with table `m` or a later one, and if it is done, its id is in such a table. */
  ghost predicate Current(s: State, i: nat, m: nat)
    requires i < |s.pcs|
  {
    s.main >= m &&
    match s.pcs[i]
    case Probe(main, _, _) => main >= m
    case Bump(main) => main >= m
    case Check(main, _) => main >= m
    case Allocate(main, _) => main >= m
    case Clear(main, _) => main >= m
    case Room(main, _) => main >= m
    case Create(main, _) => main >= m
    case Put(main, _, _) => main >= m
    case PutKey(main, _, _) => main >= m
    case PutValue(main, _, _) => main >= m && PresentAt(s, main, i)
    case Return(_) => exists u: nat :: u >= m && PresentAt(s, u, i)
    case _ => true
  }

  lemma PresentStays(s: State, i: nat, ok: bool, t: State, u: nat, j: nat)
    requires Step(s, i, ok, t) && PresentAt(s, u, j)
    ensures PresentAt(t, u, j)
  {
    var p :| 0 <= p < |s.tables[u].entries| && s.tables[u].entries[p].key == Of(j);
    KeyStays(s, i, ok, t, u, p);
  }

  lemma KeyStays(s: State, i: nat, ok: bool, t: State, u: nat, p: nat)
    requires Step(s, i, ok, t) && u < |s.tables| && p < |s.tables[u].entries| && s.tables[u].entries[p].key != Free
    ensures u < |t.tables| && p < |t.tables[u].entries| && t.tables[u].entries[p].key == s.tables[u].entries[p].key
  {
    match s.pcs[i]
    case PutKey(_, _, _) => StoredKeyStays(s, i, ok, t, u, p);
    case PutValue(_, _, _) => StoredKeyStays(s, i, ok, t, u, p);
    case _ => UnstoredStay(s, i, ok, t);
  }

  lemma StoredKeyStays(s: State, i: nat, ok: bool, t: State, u: nat, p: nat)
    requires Step(s, i, ok, t) && u < |s.tables| && p < |s.tables[u].entries| && s.tables[u].entries[p].key != Free
    requires s.pcs[i].PutKey? || s.pcs[i].PutValue?
    ensures u < |t.tables| && p < |t.tables[u].entries| && t.tables[u].entries[p].key == s.tables[u].entries[p].key
  {
  }

  lemma UnstoredStay(s: State, i: nat, ok: bool, t: State)
    requires Step(s, i, ok, t) && !s.pcs[i].PutKey? && !s.pcs[i].PutValue?
    ensures s.tables <= t.tables
  {
  }

  lemma MainAfter(s: State, i: nat, ok: bool, t: State)
    requires Step(s, i, ok, t)
    ensures t.main == s.main || (s.pcs[i].Allocate? && t.main == |s.tables| > s.main)
  {
  }

  lemma FoundIsPresent(s: State, i: nat, ok: bool, t: State)
    requires Step(s, i, ok, t) && s.pcs[i].Probe? && t.pcs[i].Return?
    ensures PresentAt(t, s.pcs[i].main, i)
  {
    var Probe(main, u, k) := s.pcs[i];
    assert s.tables[main].entries[SlotAt(s, i, main, k)].key == Of(i);
  }

  lemma PutIsPresent(s: State, i: nat, ok: bool, t: State)
    requires Step(s, i, ok, t) && s.pcs[i].PutKey? && t.pcs[i].PutValue?
    ensures t.pcs[i].main == s.pcs[i].main && PresentAt(t, s.pcs[i].main, i)
  {
    var PutKey(main, k, _) := s.pcs[i];
    assert t.tables[main].entries[SlotAt(s, i, main, k)].key == Of(i);
  }

  lemma OwnStaysCurrent(s: State, i: nat, ok: bool, t: State, m: nat)
    requires Step(s, i, ok, t) && i < |t.pcs| && Current(s, i, m) && !s.pcs[i].Idle?
    ensures Current(t, i, m)
  {
    MainAfter(s, i, ok, t);
    match s.pcs[i]
    case Probe(_, _, _) =>
      ProbeStep(s, i, ok, t);
      if t.pcs[i].Return? { FoundIsPresent(s, i, ok, t); }
    case Put(_, _, _) => PutStep(s, i, ok, t);
    case PutKey(_, _, _) =>
      PutStep(s, i, ok, t);
      if t.pcs[i].PutValue? { PutIsPresent(s, i, ok, t); }
    case PutValue(main, _, _) =>
      PresentStays(s, i, ok, t, main, i);
      ReturnsAfterPut(s, i, ok, t);
    case _ => PlainStaysCurrent(s, i, ok, t, m);
  }

  lemma ReturnsAfterPut(s: State, i: nat, ok: bool, t: State)
    requires Step(s, i, ok, t) && s.pcs[i].PutValue?
    ensures i < |t.pcs| && t.pcs[i] == Return(s.pcs[i].value)
  {
  }

  lemma PlainStaysCurrent(s: State, i: nat, ok: bool, t: State, m: nat)
    requires Step(s, i, ok, t) && i < |t.pcs| && Current(s, i, m) && !s.pcs[i].Idle?
    requires !s.pcs[i].Probe? && !s.pcs[i].Put? && !s.pcs[i].PutKey? && !s.pcs[i].PutValue?
    ensures Current(t, i, m)
  {
  }

  lemma StaysCurrent(s: State, i: nat, ok: bool, t: State, j: nat, m: nat)
    requires Step(s, i, ok, t) && j < |s.pcs| && j < |t.pcs| && Current(s, j, m) && !s.pcs[j].Idle?
    ensures Current(t, j, m)
  {
    if i == j {
      OwnStaysCurrent(s, i, ok, t, m);
    } else {
      OthersStand(s, i, ok, t, j);
      MainAfter(s, i, ok, t);
      if s.pcs[j].PutValue? { PresentStays(s, i, ok, t, s.pcs[j].main, j); }
      if s.pcs[j].Return? {
        var u: nat :| u >= m && PresentAt(s, u, j);
        PresentStays(s, i, ok, t, u, j);
      }
    }
  }

  lemma {:induction false} CurrentDuringCall(r: seq<State>, acts: seq<Action>, i: nat, a: nat, b: nat)
    requires Run(r, acts) && a < b < |r| && i < |r[a].pcs| && r[a].pcs[i].Idle? && acts[a].i == i
    requires forall n :: a < n < b ==> i < |r[n].pcs| && !r[n].pcs[i].Idle?
    ensures i < |r[b].pcs| && Current(r[b], i, r[a].main)
    decreases b
  {
    if b > a + 1 {
      CurrentDuringCall(r, acts, i, a, b - 1);
      SamePcs(r[b - 1], acts[b - 1].i, acts[b - 1].ok, r[b]);
      StaysCurrent(r[b - 1], acts[b - 1].i, acts[b - 1].ok, r[b], i, r[a].main);
    }
  }

  lemma SamePcs(s: State, i: nat, ok: bool, t: State)
    requires Step(s, i, ok, t)
    ensures |t.pcs| == |s.pcs|
  {
    match s.pcs[i]
    case Probe(_, _, _) => ProbeStep(s, i, ok, t);
    case Put(_, _, _) => PutStep(s, i, ok, t);
    case PutKey(_, _, _) => PutStep(s, i, ok, t);
    case _ =>
  }

  /** A call leaves the thread's id in the table that was current when it started, or a later one: what it found in an
      older table it has copied, so that the next lookup need not go back. */
  lemma CallCopies(r: seq<State>, acts: seq<Action>, i: nat, a: nat, b: nat)
    requires Run(r, acts) && a < b < |r| && i < |r[a].pcs| && r[a].pcs[i].Idle? && acts[a].i == i
    requires forall n :: a < n <= b ==> i < |r[n].pcs| && !r[n].pcs[i].Idle?
    requires r[b].pcs[i].Return?
    ensures exists u: nat :: u >= r[a].main && PresentAt(r[b], u, i)
  {
    CurrentDuringCall(r, acts, i, a, b);
  }
}
