/** The hash table is a stable injective map from threads to producers, and never gets so full that a probe
    could go on for ever. */
module ProducerHashProof {
  import opened Modular
  import opened Threads
  import opened ProducerHash

  // ---------------------------------------------------------------------------------------------
  // One table
  // ---------------------------------------------------------------------------------------------

  /** The `k`-th slot probed from hash `h`; `SlotAt` in the form proofs use. */
  ghost function Spot(entries: seq<Entry>, h: nat, k: nat): (p: nat)
    requires |entries| > 0
    ensures p < |entries|
  {
    Turn(h + k, |entries|)
  }

  ghost predicate Present(entries: seq<Entry>, i: nat) {
    exists p :: 0 <= p < |entries| && entries[p].key == Of(i)
  }

  /** The first `k` slots probed from hash `h` are taken. */
  ghost predicate Path(entries: seq<Entry>, h: nat, k: nat)
    requires |entries| > 0
  {
    forall j: nat :: j < k ==> entries[Spot(entries, h, j)].key != Free
  }

  ghost predicate Reached(entries: seq<Entry>, h: nat, p: nat)
    requires |entries| > 0
  {
    exists k: nat :: Spot(entries, h, k) == p && Path(entries, h, k)
  }

  ghost predicate KeysDiffer(entries: seq<Entry>) {
    forall p, q :: 0 <= p < q < |entries| && entries[p].key == entries[q].key ==> entries[p].key == Free
  }

  // ---------------------------------------------------------------------------------------------
  // The invariant
  // ---------------------------------------------------------------------------------------------

  ghost function Entries(s: State, t: nat): (entries: seq<Entry>)
    requires Shape(s) && t < |s.tables|
    ensures |entries| > 0
  {
    s.tables[t].entries
  }

  ghost predicate PresentAt(s: State, t: nat, i: nat) {
    t < |s.tables| && Present(s.tables[t].entries, i)
  }

  /** Thread `i` has put its key into the slot and is about to put its producer there. */
  ghost predicate Storing(s: State, i: nat, t: nat, p: nat)
    requires Shape(s) && i < |s.pcs| && t < |s.tables|
  {
    s.pcs[i].PutValue? && s.pcs[i].main == t && Spot(Entries(s, t), s.hash[i], s.pcs[i].k) == p
  }

  /** `tickets[i]` is the count thread `i` got and has not given back. */
  ghost predicate EntryOk(s: State, tickets: map<nat, int>, t: nat, p: nat)
    requires Shape(s) && t < |s.tables| && p < |Entries(s, t)|
  {
    var e := Entries(s, t)[p];
    e.key.Of? ==>
      var i := e.key.id;
      && i < |s.pcs| && i in s.given && i in tickets
      && tickets[i] < ThreeQuarters(s.tables[t].capacity)
      && Reached(Entries(s, t), s.hash[i], p)
      && (e.value == Is(s.given[i]) || Storing(s, i, t, p))
  }

  ghost predicate EntriesOk(s: State, tickets: map<nat, int>)
    requires Shape(s)
  {
    && (forall t, p :: 0 <= t < |s.tables| && 0 <= p < |Entries(s, t)| ==> EntryOk(s, tickets, t, p))
    && (forall t :: 0 <= t < |s.tables| ==> KeysDiffer(Entries(s, t)))
  }

  ghost predicate ChainOk(s: State)
    requires Shape(s)
  {
    && s.main == |s.tables| - 1
    && (forall t :: 0 <= t < |s.tables| ==> s.tables[t].prev == if t == 0 then None else Older(t - 1))
    && (forall t, u :: 0 <= t < u < |s.tables| ==> s.tables[t].capacity <= s.tables[u].capacity)
  }

  /** The thread has counted itself in. */
  predicate InFlight(pc: PC) {
    || pc.Check? || pc.Reload? || pc.Allocate? || pc.Refuse? || pc.Clear? || pc.Room? || pc.Create? || pc.GiveUp?
  }

  ghost function UpTo(tickets: map<nat, int>, k: int): set<nat> {
    set i | i in tickets && tickets[i] <= k
  }

  ghost predicate CountOk(s: State, tickets: map<nat, int>) {
    && s.count == |tickets.Keys|
    && (forall i: nat :: i in tickets <==> i < |s.pcs| && (i in s.given || InFlight(s.pcs[i])))
    && (forall k: nat :: |UpTo(tickets, k)| <= k)
    && (forall i :: i in tickets ==> tickets[i] > 0)
  }

  ghost predicate GivenOk(s: State) {
    && (forall i :: i in s.given ==> i < |s.pcs| && s.given[i] < s.created)
    && (forall i, j :: i in s.given && j in s.given && s.given[i] == s.given[j] ==> i == j)
  }

  predicate Locks(pc: PC) {
    pc.Reload? || pc.Allocate? || pc.Refuse? || pc.Unlock? || pc.Clear?
  }

  ghost predicate LockOk(s: State) {
    && (forall i, j :: 0 <= i < j < |s.pcs| && Locks(s.pcs[i]) ==> !Locks(s.pcs[j]))
    && (s.resizing <==> exists i :: 0 <= i < |s.pcs| && Locks(s.pcs[i]))
  }

  ghost predicate Somewhere(s: State, i: nat) {
    i in s.given ==> exists t: nat :: PresentAt(s, t, i)
  }

  ghost predicate ProbeOk(s: State, i: nat, t: nat, k: nat)
    requires Shape(s) && i < |s.pcs| && t < |s.tables|
  {
    && Path(Entries(s, t), s.hash[i], k)
    && (forall j: nat :: j < k ==> Entries(s, t)[Spot(Entries(s, t), s.hash[i], j)].key != Of(i))
    && (forall u: nat :: t < u ==> !PresentAt(s, u, i))
  }

  ghost predicate PutOk(s: State, tickets: map<nat, int>, i: nat, main: nat, k: nat, v: nat)
    requires Shape(s) && i < |s.pcs| && main < |s.tables|
  {
    && i in s.given && s.given[i] == v
    && i in tickets && tickets[i] < ThreeQuarters(s.tables[main].capacity)
    && !PresentAt(s, main, i)
    && Path(Entries(s, main), s.hash[i], k)
  }

  ghost predicate ThreadOk(s: State, tickets: map<nat, int>, i: nat)
    requires Shape(s) && i < |s.pcs|
  {
    match s.pcs[i]
    case Idle => Somewhere(s, i)
    case Probe(main, t, k) => Somewhere(s, i) && t <= main && ProbeOk(s, i, t, k)
    case Bump(_) => i !in s.given
    case Check(_, n) => i !in s.given && i in tickets && tickets[i] == n
    case Reload(n) => i !in s.given && i in tickets && tickets[i] == n
    case Allocate(main, n) => i !in s.given && i in tickets && tickets[i] == n && main == s.main
    case Refuse => i !in s.given
    case Unlock => i !in s.given
    case Clear(_, n) => i !in s.given && i in tickets && tickets[i] == n
    case Room(_, n) => i !in s.given && i in tickets && tickets[i] == n
    case Create(main, n) =>
      i !in s.given && i in tickets && tickets[i] == n && n < ThreeQuarters(s.tables[main].capacity)
    case GiveUp => i !in s.given
    case Put(main, k, v) => PutOk(s, tickets, i, main, k, v)
    case PutKey(main, k, v) => PutOk(s, tickets, i, main, k, v)
    case PutValue(main, k, v) =>
      && i in s.given && s.given[i] == v
      && Entries(s, main)[Spot(Entries(s, main), s.hash[i], k)].key == Of(i)
    case Return(v) => i in s.given && s.given[i] == v && Somewhere(s, i)
  }

  ghost predicate ThreadsOk(s: State, tickets: map<nat, int>)
    requires Shape(s)
  {
    forall i :: 0 <= i < |s.pcs| ==> ThreadOk(s, tickets, i)
  }

  ghost predicate InvWith(s: State, tickets: map<nat, int>) {
    && Shape(s)
    && ChainOk(s)
    && EntriesOk(s, tickets)
    && CountOk(s, tickets)
    && GivenOk(s)
    && LockOk(s)
    && ThreadsOk(s, tickets)
  }

  ghost predicate Inv(s: State) {
    exists tickets :: InvWith(s, tickets)
  }

  // ---------------------------------------------------------------------------------------------
  // What a step leaves alone
  // ---------------------------------------------------------------------------------------------

  lemma SlotIsSpot(s: State, i: nat, t: nat, k: nat)
    requires Shape(s) && i < |s.pcs| && t < |s.tables|
    ensures SlotAt(s, i, t, k) == Spot(Entries(s, t), s.hash[i], k)
  {
    TurnIsMod(s.hash[i] + k, s.tables[t].capacity);
  }

  /** A table whose keys only become more. */
  ghost predicate Fuller(before: seq<Entry>, after: seq<Entry>) {
    && |after| == |before|
    && (forall p :: 0 <= p < |before| && before[p].key != Free ==> after[p].key == before[p].key)
  }

  /** Thread `i` moves: keys only become more, and the new ones, like new tickets and new producers, are its
      own; the current table changes only under the lock. */
  ghost predicate Moves(s: State, t: State, tickets: map<nat, int>, tickets': map<nat, int>, i: nat) {
    && Shape(s) && Shape(t) && i < |s.pcs| == |t.pcs|
    && t.pcs == s.pcs[i := t.pcs[i]] && t.hash == s.hash
    && |s.tables| <= |t.tables|
    && (forall u :: 0 <= u < |s.tables| ==> Fuller(s.tables[u].entries, t.tables[u].entries))
    && (forall j: nat, u: nat :: j != i && PresentAt(t, u, j) ==> PresentAt(s, u, j))
    && (forall j :: j != i ==> (j in t.given <==> j in s.given) && (j in s.given ==> t.given[j] == s.given[j]))
    && (forall j :: j != i && j in tickets ==> j in tickets' && tickets'[j] == tickets[j])
    && (t.main == s.main || Locks(s.pcs[i]))
  }

  lemma PathStays(before: seq<Entry>, after: seq<Entry>, h: nat, k: nat)
    requires |before| > 0 && Fuller(before, after) && Path(before, h, k)
    ensures Path(after, h, k)
    ensures forall j: nat :: j < k ==> after[Spot(after, h, j)].key == before[Spot(before, h, j)].key
  {
    forall j: nat | j < k ensures after[Spot(after, h, j)].key == before[Spot(before, h, j)].key != Free {
      assert before[Spot(before, h, j)].key != Free;
    }
  }

  lemma OtherStays(s: State, t: State, tickets: map<nat, int>, tickets': map<nat, int>, i: nat, j: nat)
    requires Moves(s, t, tickets, tickets', i) && LockOk(s) && j < |s.pcs| && j != i && ThreadOk(s, tickets, j)
    ensures ThreadOk(t, tickets', j)
  {
    assert t.pcs[j] == s.pcs[j];
    match s.pcs[j]
    case Idle => SomewhereStays(s, t, tickets, tickets', i, j);
    case Return(_) => SomewhereStays(s, t, tickets, tickets', i, j);
    case Probe(main, u, k) =>
      PathStays(Entries(s, u), Entries(t, u), s.hash[j], k);
      SomewhereStays(s, t, tickets, tickets', i, j);
    case Create(main, n) => assert Fuller(s.tables[main].entries, t.tables[main].entries);
    case Put(main, k, v) => PathStays(Entries(s, main), Entries(t, main), s.hash[j], k);
    case PutKey(main, k, v) => PathStays(Entries(s, main), Entries(t, main), s.hash[j], k);
    case PutValue(main, k, v) => assert Fuller(Entries(s, main), Entries(t, main));
    case Allocate(main, n) => assert !Locks(s.pcs[i]);
    case _ =>
  }

  lemma SomewhereStays(s: State, t: State, tickets: map<nat, int>, tickets': map<nat, int>, i: nat, j: nat)
    requires Moves(s, t, tickets, tickets', i) && j < |s.pcs| && j != i && Somewhere(s, j)
    ensures Somewhere(t, j)
  {
    if j in s.given {
      var u: nat :| PresentAt(s, u, j);
      assert Fuller(s.tables[u].entries, t.tables[u].entries);
      assert PresentAt(t, u, j);
    }
  }

  lemma ThreadsStay(s: State, t: State, tickets: map<nat, int>, tickets': map<nat, int>, i: nat)
    requires Moves(s, t, tickets, tickets', i) && LockOk(s) && ThreadsOk(s, tickets) && ThreadOk(t, tickets', i)
    ensures ThreadsOk(t, tickets')
  {
    forall j | 0 <= j < |t.pcs| ensures ThreadOk(t, tickets', j) {
      if j != i { OtherStays(s, t, tickets, tickets', i, j); }
    }
  }

  /** Entries stay right in a table whose keys stay, while the values being stored are stored. */
  lemma EntriesStay(s: State, t: State, tickets: map<nat, int>, tickets': map<nat, int>, i: nat)
    requires Shape(s) && Shape(t) && i < |s.pcs| == |t.pcs| && t.hash == s.hash && t.tables == s.tables
    requires t.pcs == s.pcs[i := t.pcs[i]] && !s.pcs[i].PutValue?
    requires EntriesOk(s, tickets)
    requires forall j :: j in s.given ==> j in t.given && t.given[j] == s.given[j]
    requires forall j :: j in s.given && j in tickets ==> j in tickets' && tickets'[j] == tickets[j]
    ensures EntriesOk(t, tickets')
  {
    forall u, p | 0 <= u < |t.tables| && 0 <= p < |Entries(t, u)| ensures EntryOk(t, tickets', u, p) {
      assert EntryOk(s, tickets, u, p);
    }
    forall u | 0 <= u < |t.tables| ensures KeysDiffer(Entries(t, u)) {
      assert KeysDiffer(Entries(s, u));
    }
  }

  // ---------------------------------------------------------------------------------------------
  // The lock and the count
  // ---------------------------------------------------------------------------------------------

  lemma LockStays(s: State, t: State, i: nat)
    requires LockOk(s) && i < |s.pcs| == |t.pcs| && t.pcs == s.pcs[i := t.pcs[i]]
    requires Locks(t.pcs[i]) && !Locks(s.pcs[i]) ==> !s.resizing
    requires t.resizing == (if Locks(t.pcs[i]) then true else if Locks(s.pcs[i]) then false else s.resizing)
    ensures LockOk(t)
  {
    if t.resizing && !Locks(t.pcs[i]) {
      var j :| 0 <= j < |s.pcs| && Locks(s.pcs[j]);
      assert Locks(t.pcs[j]);
    }
    forall j, k | 0 <= j < k < |t.pcs| && Locks(t.pcs[j]) ensures !Locks(t.pcs[k]) {
    }
  }

  lemma CountStays(s: State, t: State, tickets: map<nat, int>, i: nat)
    requires CountOk(s, tickets) && i < |s.pcs| == |t.pcs| && t.pcs == s.pcs[i := t.pcs[i]]
    requires t.count == s.count
    requires forall j :: j != i ==> (j in t.given <==> j in s.given)
    requires i in s.given || InFlight(s.pcs[i]) <==> i in t.given || InFlight(t.pcs[i])
    ensures CountOk(t, tickets)
  {
  }

  ghost function With(tickets: map<nat, int>, i: nat, n: int): (more: map<nat, int>)
    ensures more.Keys == tickets.Keys + {i} && more[i] == n
    ensures forall j :: j in tickets && j != i ==> more[j] == tickets[j]
  {
    tickets[i := n]
  }

  /** Counting in: the new ticket is larger than the number of tickets before it. */
  lemma BumpCount(s: State, t: State, tickets: map<nat, int>, i: nat)
    requires CountOk(s, tickets) && i < |s.pcs| == |t.pcs| && t.pcs == s.pcs[i := t.pcs[i]]
    requires i !in s.given && !InFlight(s.pcs[i]) && InFlight(t.pcs[i])
    requires t.count == s.count + 1 && t.given == s.given
    ensures CountOk(t, With(tickets, i, s.count + 1))
  {
    var tickets' := With(tickets, i, s.count + 1);
    assert i !in tickets;
    OneMoreTicket(tickets, i, s.count + 1);
    forall k: nat ensures |UpTo(tickets', k)| <= k { BumpUpTo(tickets, i, k); }
    assert forall j :: j in tickets' ==> tickets'[j] > 0;
  }

  lemma OneMoreTicket(tickets: map<nat, int>, i: nat, n: int)
    requires i !in tickets
    ensures |With(tickets, i, n).Keys| == |tickets.Keys| + 1
  {
    assert With(tickets, i, n).Keys == tickets.Keys + {i};
  }

  lemma BumpUpTo(tickets: map<nat, int>, i: nat, k: nat)
    requires i !in tickets && |UpTo(tickets, k)| <= k
    ensures |UpTo(With(tickets, i, |tickets.Keys| + 1), k)| <= k
  {
    var tickets' := With(tickets, i, |tickets.Keys| + 1);
    if k <= |tickets.Keys| {
      assert UpTo(tickets', k) == UpTo(tickets, k);
    } else {
      SubsetSize(UpTo(tickets', k), tickets'.Keys);
    }
  }

  ghost function Without(tickets: map<nat, int>, i: nat): (fewer: map<nat, int>)
    ensures fewer.Keys == tickets.Keys - {i}
    ensures forall j :: j in fewer ==> fewer[j] == tickets[j]
  {
    map j | j in tickets && j != i :: tickets[j]
  }

  lemma DropCount(s: State, t: State, tickets: map<nat, int>, i: nat)
    requires CountOk(s, tickets) && i < |s.pcs| == |t.pcs| && t.pcs == s.pcs[i := t.pcs[i]]
    requires i !in s.given && InFlight(s.pcs[i]) && !InFlight(t.pcs[i])
    requires t.count == s.count - 1 && t.given == s.given
    ensures CountOk(t, Without(tickets, i))
  {
    var tickets' := Without(tickets, i);
    forall k: nat ensures |UpTo(tickets', k)| <= k {
      SubsetSize(UpTo(tickets', k), UpTo(tickets, k));
    }
  }

  // ---------------------------------------------------------------------------------------------
  // Steps that leave the tables alone
  // ---------------------------------------------------------------------------------------------

  /** The step changes neither tables nor producers nor the count. */
  ghost predicate Quiet(s: State, t: State, i: nat) {
    && Shape(s) && Shape(t) && i < |s.pcs| == |t.pcs|
    && t == s.(pcs := s.pcs[i := t.pcs[i]], resizing := t.resizing)
    && !s.pcs[i].PutValue? && (InFlight(s.pcs[i]) <==> InFlight(t.pcs[i]))
    && (Locks(t.pcs[i]) && !Locks(s.pcs[i]) ==> !s.resizing)
    && t.resizing == (if Locks(t.pcs[i]) then true else if Locks(s.pcs[i]) then false else s.resizing)
  }

  lemma QuietKeeps(s: State, t: State, tickets: map<nat, int>, i: nat)
    requires InvWith(s, tickets) && Quiet(s, t, i) && ThreadOk(t, tickets, i)
    ensures Inv(t)
  {
    assert Moves(s, t, tickets, tickets, i);
    ThreadsStay(s, t, tickets, tickets, i);
    EntriesStay(s, t, tickets, tickets, i);
    LockStays(s, t, i);
    CountStays(s, t, tickets, i);
    assert InvWith(t, tickets);
  }

  /** A probe goes on past a slot that is taken by somebody else. */
  lemma PathExtends(entries: seq<Entry>, h: nat, k: nat)
    requires |entries| > 0 && Path(entries, h, k) && entries[Spot(entries, h, k)].key != Free
    ensures Path(entries, h, k + 1)
  {
  }

  /** A free slot ends the search: behind it, the thread's key cannot be. */
  lemma FreeEndsSearch(s: State, tickets: map<nat, int>, i: nat, t: nat, k: nat)
    requires Shape(s) && EntriesOk(s, tickets) && i < |s.pcs| && t < |s.tables| && ProbeOk(s, i, t, k)
    requires Entries(s, t)[Spot(Entries(s, t), s.hash[i], k)].key == Free
    ensures !PresentAt(s, t, i)
  {
    var entries, h := Entries(s, t), s.hash[i];
    forall p | 0 <= p < |entries| ensures entries[p].key != Of(i) {
      assert EntryOk(s, tickets, t, p);
    }
  }

  lemma ProbeKeeps(s: State, t: State, tickets: map<nat, int>, i: nat, ok: bool)
    requires InvWith(s, tickets) && i < |s.pcs| && s.pcs[i].Probe? && t == After(s, i, ok)
    ensures Inv(t)
  {
    var Probe(main, u, k) := s.pcs[i];
    var entries, h := Entries(s, u), s.hash[i];
    var p := Spot(entries, h, k);
    assert ThreadOk(s, tickets, i);
    SlotIsSpot(s, i, u, k);
    if entries[p].key == Of(i) {
      assert EntryOk(s, tickets, u, p);
      FoundOk(s, t, tickets, i, main, u, k);
    } else if entries[p].key == Free {
      FreeEndsSearch(s, tickets, i, u, k);
      ChainStep(s, t, tickets, i, main, u);
    } else {
      PathExtends(entries, h, k);
      PassOk(s, t, tickets, i, main, u, k);
    }
    QuietKeeps(s, t, tickets, i);
  }

  lemma FoundOk(s: State, t: State, tickets: map<nat, int>, i: nat, main: nat, u: nat, k: nat)
    requires InvWith(s, tickets) && i < |s.pcs| && s.pcs[i] == Probe(main, u, k) && t == After(s, i, true)
    requires SlotAt(s, i, u, k) == Spot(Entries(s, u), s.hash[i], k)
    requires Entries(s, u)[Spot(Entries(s, u), s.hash[i], k)].key == Of(i)
    ensures ThreadOk(t, tickets, i) && Quiet(s, t, i)
  {
    var p := Spot(Entries(s, u), s.hash[i], k);
    assert EntryOk(s, tickets, u, p) && ThreadOk(s, tickets, i);
    assert Entries(s, u)[p].value == Is(s.given[i]);
    if u == main {
      assert PresentAt(s, u, i) && PresentAt(t, u, i);
    } else {
      assert !PresentAt(s, main, i);
      assert !PresentAt(t, main, i);
      assert s.tables[u].capacity <= s.tables[main].capacity;
    }
  }

  lemma PassOk(s: State, t: State, tickets: map<nat, int>, i: nat, main: nat, u: nat, k: nat)
    requires InvWith(s, tickets) && i < |s.pcs| && s.pcs[i] == Probe(main, u, k)
    requires t == Goto(s, i, Probe(main, u, k + 1))
    requires Path(Entries(s, u), s.hash[i], k + 1) && Entries(s, u)[Spot(Entries(s, u), s.hash[i], k)].key != Of(i)
    ensures ThreadOk(t, tickets, i) && Quiet(s, t, i)
  {
    assert ThreadOk(s, tickets, i);
    assert forall j: nat, v: nat :: PresentAt(t, v, j) <==> PresentAt(s, v, j);
  }

  /** On to the next older table, or, when there is none, to counting oneself in. */
  lemma ChainStep(s: State, t: State, tickets: map<nat, int>, i: nat, main: nat, u: nat)
    requires InvWith(s, tickets) && i < |s.pcs| && s.pcs[i].Probe? && s.pcs[i].table == u && s.pcs[i].main == main
    requires t == Goto(s, i, if s.tables[u].prev.None? then Bump(main) else Probe(main, s.tables[u].prev.table, 0))
    requires !PresentAt(s, u, i)
    ensures ThreadOk(t, tickets, i) && Quiet(s, t, i)
  {
    assert ThreadOk(s, tickets, i);
    assert forall j: nat, v: nat :: PresentAt(t, v, j) <==> PresentAt(s, v, j);
    assert forall v: nat :: u <= v ==> !PresentAt(s, v, i);
  }

  predicate Plain(pc: PC, ok: bool) {
    match pc
    case Idle => true
    case Check(_, _) => true
    case Reload(_) => true
    case Unlock => true
    case Clear(_, _) => true
    case Room(_, _) => true
    case Return(_) => true
    case Allocate(_, _) => !ok
    case Create(_, _) => !ok
    case _ => false
  }

  lemma PlainQuiet(s: State, t: State, tickets: map<nat, int>, i: nat, ok: bool)
    requires Shape(s) && i < |s.pcs| && Plain(s.pcs[i], ok) && t == After(s, i, ok)
    requires LockOk(s)
    ensures Quiet(s, t, i)
  {
  }

  lemma PlainThread(s: State, t: State, tickets: map<nat, int>, i: nat, ok: bool)
    requires Shape(s) && i < |s.pcs| && Plain(s.pcs[i], ok) && t == After(s, i, ok)
    requires ThreadOk(s, tickets, i) && s.main == |s.tables| - 1
    requires Shape(t) && t.tables == s.tables && t.main == s.main && t.given == s.given && t.hash == s.hash
    ensures ThreadOk(t, tickets, i)
  {
    assert forall j: nat, v: nat :: PresentAt(t, v, j) <==> PresentAt(s, v, j);
  }

  /** The remaining steps that only move the thread along. */
  lemma PlainKeeps(s: State, t: State, tickets: map<nat, int>, i: nat, ok: bool)
    requires InvWith(s, tickets) && i < |s.pcs| && Plain(s.pcs[i], ok) && t == After(s, i, ok)
    ensures Inv(t)
  {
    assert ThreadOk(s, tickets, i);
    PlainQuiet(s, t, tickets, i, ok);
    PlainThread(s, t, tickets, i, ok);
    QuietKeeps(s, t, tickets, i);
  }

  lemma PutMovesKeeps(s: State, t: State, tickets: map<nat, int>, i: nat, ok: bool)
    requires InvWith(s, tickets) && i < |s.pcs| && t == After(s, i, ok)
    requires s.pcs[i].Put? || (s.pcs[i].PutKey? && t.tables == s.tables)
    ensures Inv(t)
  {
    var main, k, v := s.pcs[i].main, s.pcs[i].k, s.pcs[i].value;
    assert ThreadOk(s, tickets, i);
    SlotIsSpot(s, i, main, k);
    SamePresent(s, t);
    if t.pcs[i].Put? { PutPasses(s, t, i, main, k, v); }
    QuietKeeps(s, t, tickets, i);
  }

  lemma SamePresent(s: State, t: State)
    requires t.tables == s.tables
    ensures forall j: nat, v: nat :: PresentAt(t, v, j) <==> PresentAt(s, v, j)
  {
  }

  lemma PutPasses(s: State, t: State, i: nat, main: nat, k: nat, v: nat)
    requires Shape(s) && i < |s.pcs| == |t.pcs| && main < |s.tables|
    requires t.pcs[i] == Put(main, k + 1, v) && Path(Entries(s, main), s.hash[i], k)
    requires Entries(s, main)[Spot(Entries(s, main), s.hash[i], k)].key != Free
    ensures Path(Entries(s, main), s.hash[i], k + 1)
  {
    PathExtends(Entries(s, main), s.hash[i], k);
  }

  // ---------------------------------------------------------------------------------------------
  // Counting in and out, and making producers
  // ---------------------------------------------------------------------------------------------

  /** Thread `i`, which has no producer, changes its count. */
  ghost predicate Recounts(s: State, t: State, tickets: map<nat, int>, tickets': map<nat, int>, i: nat) {
    && Shape(s) && Shape(t) && i < |s.pcs| == |t.pcs| && i !in s.given
    && t == s.(pcs := s.pcs[i := t.pcs[i]], count := t.count, resizing := t.resizing)
    && !s.pcs[i].PutValue?
    && (forall j :: j != i && j in tickets ==> j in tickets' && tickets'[j] == tickets[j])
  }

  lemma RecountKeeps(s: State, t: State, tickets: map<nat, int>, tickets': map<nat, int>, i: nat)
    requires Shape(s) && EntriesOk(s, tickets) && LockOk(s) && ThreadsOk(s, tickets)
    requires Recounts(s, t, tickets, tickets', i) && ThreadOk(t, tickets', i)
    ensures EntriesOk(t, tickets') && ThreadsOk(t, tickets')
  {
    assert forall j: nat, v: nat :: PresentAt(t, v, j) <==> PresentAt(s, v, j);
    assert Moves(s, t, tickets, tickets', i);
    ThreadsStay(s, t, tickets, tickets', i);
    EntriesStay(s, t, tickets, tickets', i);
  }

  lemma BumpEffect(s: State, t: State, i: nat, ok: bool)
    requires Shape(s) && i < |s.pcs| && s.pcs[i].Bump? && t == After(s, i, ok)
    ensures Shape(t) && t == s.(pcs := s.pcs[i := t.pcs[i]], count := s.count + 1) && |t.pcs| == |s.pcs|
    ensures t.pcs[i] == Check(s.pcs[i].main, s.count + 1)
  {
  }

  lemma BumpThread(s: State, t: State, tickets: map<nat, int>, i: nat, ok: bool)
    requires Shape(s) && i < |s.pcs| && s.pcs[i].Bump? && t == After(s, i, ok) && ThreadOk(s, tickets, i)
    ensures Recounts(s, t, tickets, With(tickets, i, s.count + 1), i)
    ensures ThreadOk(t, With(tickets, i, s.count + 1), i)
    ensures t.count == s.count + 1 && InFlight(t.pcs[i]) && !Locks(t.pcs[i]) && t.resizing == s.resizing
  {
    BumpEffect(s, t, i, ok);
  }

  lemma BumpKeeps(s: State, t: State, tickets: map<nat, int>, i: nat, ok: bool)
    requires InvWith(s, tickets) && i < |s.pcs| && s.pcs[i].Bump? && t == After(s, i, ok)
    ensures Inv(t)
  {
    var tickets' := With(tickets, i, s.count + 1);
    assert ThreadOk(s, tickets, i);
    BumpThread(s, t, tickets, i, ok);
    RecountKeeps(s, t, tickets, tickets', i);
    LockStays(s, t, i);
    BumpCount(s, t, tickets, i);
    assert InvWith(t, tickets');
  }

  lemma DropEffect(s: State, t: State, i: nat, ok: bool)
    requires Shape(s) && i < |s.pcs| && (s.pcs[i].Refuse? || s.pcs[i].GiveUp?) && t == After(s, i, ok)
    ensures Shape(t) && t == s.(pcs := s.pcs[i := t.pcs[i]], count := s.count - 1) && |t.pcs| == |s.pcs|
    ensures t.pcs[i] == if s.pcs[i].Refuse? then Unlock else Idle
  {
  }

  lemma DropKeeps(s: State, t: State, tickets: map<nat, int>, i: nat, ok: bool)
    requires InvWith(s, tickets) && i < |s.pcs| && (s.pcs[i].Refuse? || s.pcs[i].GiveUp?) && t == After(s, i, ok)
    ensures Inv(t)
  {
    var tickets' := Without(tickets, i);
    assert ThreadOk(s, tickets, i);
    DropEffect(s, t, i, ok);
    assert Recounts(s, t, tickets, tickets', i);
    RecountKeeps(s, t, tickets, tickets', i);
    if s.pcs[i].Refuse? { LockHeld(s, i); }
    LockStays(s, t, i);
    DropCount(s, t, tickets, i);
    assert InvWith(t, tickets');
  }

  lemma LockHeld(s: State, i: nat)
    requires LockOk(s) && i < |s.pcs| && Locks(s.pcs[i])
    ensures s.resizing
  {
  }

  lemma CreateKeeps(s: State, t: State, tickets: map<nat, int>, i: nat)
    requires InvWith(s, tickets) && i < |s.pcs| && s.pcs[i].Create? && t == After(s, i, true)
    ensures Inv(t)
  {
    assert ThreadOk(s, tickets, i);
    NotGivenNowhere(s, tickets, i);
    assert forall j: nat, v: nat :: PresentAt(t, v, j) <==> PresentAt(s, v, j);
    ThreadsStay(s, t, tickets, tickets, i);
    EntriesStay(s, t, tickets, tickets, i);
    LockStays(s, t, i);
    CountStays(s, t, tickets, i);
    assert InvWith(t, tickets);
  }

  lemma NotGivenNowhere(s: State, tickets: map<nat, int>, i: nat)
    requires Shape(s) && EntriesOk(s, tickets) && i !in s.given
    ensures forall v: nat :: !PresentAt(s, v, i)
  {
    forall v: nat | v < |s.tables| ensures !PresentAt(s, v, i) {
      forall p | 0 <= p < |Entries(s, v)| ensures Entries(s, v)[p].key != Of(i) {
        assert EntryOk(s, tickets, v, p);
      }
      assert !Present(Entries(s, v), i);
    }
  }

  // ---------------------------------------------------------------------------------------------
  // Publishing a larger table, and filling in a slot
  // ---------------------------------------------------------------------------------------------

  lemma PublishEntries(s: State, t: State, tickets: map<nat, int>, i: nat, larger: Table)
    requires Shape(s) && Shape(t) && EntriesOk(s, tickets) && i < |s.pcs| == |t.pcs| && !s.pcs[i].PutValue?
    requires t.pcs == s.pcs[i := t.pcs[i]] && t.hash == s.hash && t.given == s.given
    requires t.tables == s.tables + [larger]
    requires forall p :: 0 <= p < |larger.entries| ==> larger.entries[p].key == Free
    ensures EntriesOk(t, tickets)
    ensures forall j: nat, v: nat :: PresentAt(t, v, j) <==> PresentAt(s, v, j)
  {
    forall u, p | 0 <= u < |t.tables| && 0 <= p < |Entries(t, u)| ensures EntryOk(t, tickets, u, p) {
      if u < |s.tables| {
        assert Entries(t, u) == Entries(s, u);
        assert EntryOk(s, tickets, u, p);
      }
    }
    forall u | 0 <= u < |t.tables| ensures KeysDiffer(Entries(t, u)) {
      if u < |s.tables| { assert KeysDiffer(Entries(s, u)); } else { assert Entries(t, u) == larger.entries; }
    }
  }

  lemma PublishEffect(s: State, t: State, i: nat)
    requires Shape(s) && ChainOk(s) && i < |s.pcs| && s.pcs[i].Allocate? && s.pcs[i].main == s.main
    requires t == After(s, i, true)
    ensures Shape(t) && ChainOk(t) && |t.tables| == |s.tables| + 1
    ensures t.tables == s.tables + [t.tables[|s.tables|]]
    ensures forall p :: 0 <= p < |t.tables[|s.tables|].entries| ==> t.tables[|s.tables|].entries[p].key == Free
    ensures t.pcs == s.pcs[i := t.pcs[i]] && t.pcs[i] == Clear(|s.tables|, s.pcs[i].n)
    ensures t == s.(pcs := t.pcs, tables := t.tables, main := t.main)
  {
  }

  lemma PublishKeeps(s: State, t: State, tickets: map<nat, int>, i: nat)
    requires InvWith(s, tickets) && i < |s.pcs| && s.pcs[i].Allocate? && t == After(s, i, true)
    ensures Inv(t)
  {
    assert ThreadOk(s, tickets, i);
    PublishEffect(s, t, i);
    PublishEntries(s, t, tickets, i, t.tables[|s.tables|]);
    ThreadsStay(s, t, tickets, tickets, i);
    LockStays(s, t, i);
    CountStays(s, t, tickets, i);
    assert InvWith(t, tickets);
  }

  /** Only slot `p` of table `u` changes. */
  ghost predicate Fills(s: State, t: State, i: nat, u: nat, p: nat) {
    && Shape(s) && Shape(t) && i < |s.pcs| == |t.pcs| && u < |s.tables| == |t.tables| && p < |Entries(s, u)|
    && t.pcs == s.pcs[i := t.pcs[i]]
    && t == s.(pcs := t.pcs, tables := t.tables)
    && (forall v :: 0 <= v < |s.tables| && v != u ==> t.tables[v] == s.tables[v])
    && t.tables[u].capacity == s.tables[u].capacity && t.tables[u].prev == s.tables[u].prev
    && Entries(t, u) == Entries(s, u)[p := Entries(t, u)[p]]
    && Fuller(Entries(s, u), Entries(t, u))
  }

  /** The other entries stay right. */
  lemma FillsKeepsEntry(s: State, t: State, tickets: map<nat, int>, i: nat, u: nat, p: nat, v: nat, q: nat)
    requires Fills(s, t, i, u, p) && EntriesOk(s, tickets) && v < |s.tables| && q < |Entries(s, v)|
    requires !(v == u && q == p) && !Storing(s, i, v, q)
    ensures EntryOk(t, tickets, v, q)
  {
    assert EntryOk(s, tickets, v, q);
    if Entries(s, v)[q].key.Of? && v == u {
      var h := s.hash[Entries(s, v)[q].key.id];
      var k: nat :| Spot(Entries(s, v), h, k) == q && Path(Entries(s, v), h, k);
      PathStays(Entries(s, v), Entries(t, v), h, k);
      assert Spot(Entries(t, v), h, k) == q;
    }
  }

  lemma PutKeyKeeps(s: State, t: State, tickets: map<nat, int>, i: nat, p: nat)
    requires InvWith(s, tickets) && i < |s.pcs| && s.pcs[i].PutKey? && Fills(s, t, i, s.pcs[i].main, p)
    requires p == Spot(Entries(s, s.pcs[i].main), s.hash[i], s.pcs[i].k)
    requires t.pcs[i] == PutValue(s.pcs[i].main, s.pcs[i].k, s.pcs[i].value)
    requires Entries(s, s.pcs[i].main)[p].key == Free && Entries(t, s.pcs[i].main)[p].key == Of(i)
    ensures Inv(t)
  {
    var main, k := s.pcs[i].main, s.pcs[i].k;
    var before, after := Entries(s, main), Entries(t, main);
    assert ThreadOk(s, tickets, i);
    forall v, q | 0 <= v < |t.tables| && 0 <= q < |Entries(t, v)| ensures EntryOk(t, tickets, v, q) {
      if v == main && q == p {
        PathStays(before, after, s.hash[i], k);
        assert Spot(after, s.hash[i], k) == p;
      } else {
        FillsKeepsEntry(s, t, tickets, i, main, p, v, q);
      }
    }
    forall v | 0 <= v < |t.tables| ensures KeysDiffer(Entries(t, v)) {
      assert KeysDiffer(Entries(s, v));
      if v == main { KeyIsNew(before, after, p, i); }
    }
    OthersPresent(s, t, i, main, p);
    ThreadsStay(s, t, tickets, tickets, i);
    LockStays(s, t, i);
    CountStays(s, t, tickets, i);
    assert InvWith(t, tickets);
  }

  lemma KeyIsNew(before: seq<Entry>, after: seq<Entry>, p: nat, i: nat)
    requires KeysDiffer(before) && p < |before| == |after| && after == before[p := after[p]] && after[p].key == Of(i)
    requires !Present(before, i)
    ensures KeysDiffer(after)
  {
    assert forall q :: 0 <= q < |before| ==> before[q].key != Of(i);
  }

  lemma OthersPresent(s: State, t: State, i: nat, u: nat, p: nat)
    requires Fills(s, t, i, u, p)
    requires Entries(t, u)[p].key == Entries(s, u)[p].key || Entries(t, u)[p].key == Of(i)
    ensures Moves(s, t, map[], map[], i)
  {
    forall j: nat, v: nat | j != i && PresentAt(t, v, j) ensures PresentAt(s, v, j) {
      var q :| 0 <= q < |t.tables[v].entries| && t.tables[v].entries[q].key == Of(j);
      assert v != u ==> t.tables[v] == s.tables[v];
      assert |s.tables[v].entries| == |t.tables[v].entries|;
      assert s.tables[v].entries[q].key == Of(j);
    }
  }

  lemma PutValueKeeps(s: State, t: State, tickets: map<nat, int>, i: nat, p: nat)
    requires InvWith(s, tickets) && i < |s.pcs| && s.pcs[i].PutValue? && Fills(s, t, i, s.pcs[i].main, p)
    requires p == Spot(Entries(s, s.pcs[i].main), s.hash[i], s.pcs[i].k)
    requires t.pcs[i] == Return(s.pcs[i].value)
    requires Entries(t, s.pcs[i].main)[p] == Entries(s, s.pcs[i].main)[p].(value := Is(s.pcs[i].value))
    ensures Inv(t)
  {
    var main, k := s.pcs[i].main, s.pcs[i].k;
    var before, after := Entries(s, main), Entries(t, main);
    assert ThreadOk(s, tickets, i) && EntryOk(s, tickets, main, p);
    forall v, q | 0 <= v < |t.tables| && 0 <= q < |Entries(t, v)| ensures EntryOk(t, tickets, v, q) {
      if v == main && q == p {
        var j: nat :| Spot(before, s.hash[i], j) == p && Path(before, s.hash[i], j);
        PathStays(before, after, s.hash[i], j);
        assert Spot(after, s.hash[i], j) == p;
      } else {
        FillsKeepsEntry(s, t, tickets, i, main, p, v, q);
      }
    }
    forall v | 0 <= v < |t.tables| ensures KeysDiffer(Entries(t, v)) {
      assert KeysDiffer(Entries(s, v));
    }
    OthersPresent(s, t, i, main, p);
    assert PresentAt(t, main, i);
    ThreadsStay(s, t, tickets, tickets, i);
    LockStays(s, t, i);
    CountStays(s, t, tickets, i);
    assert InvWith(t, tickets);
  }

  // ---------------------------------------------------------------------------------------------
  // Every reachable state
  // ---------------------------------------------------------------------------------------------

  lemma PutKeyEffect(s: State, t: State, i: nat, ok: bool)
    requires Shape(s) && i < |s.pcs| && s.pcs[i].PutKey? && t == After(s, i, ok)
    requires s.tables[s.pcs[i].main].entries[SlotAt(s, i, s.pcs[i].main, s.pcs[i].k)].key == Free
    ensures var PutKey(main, k, v) := s.pcs[i];
            var p := SlotAt(s, i, main, k);
            && p == Spot(Entries(s, main), s.hash[i], k)
            && Fills(s, t, i, main, p) && t.pcs[i] == PutValue(main, k, v) && Entries(t, main)[p].key == Of(i)
  {
    SlotIsSpot(s, i, s.pcs[i].main, s.pcs[i].k);
  }

  lemma PutValueEffect(s: State, t: State, i: nat, ok: bool)
    requires Shape(s) && i < |s.pcs| && s.pcs[i].PutValue? && t == After(s, i, ok)
    ensures var PutValue(main, k, v) := s.pcs[i];
            var p := SlotAt(s, i, main, k);
            && p == Spot(Entries(s, main), s.hash[i], k)
            && Fills(s, t, i, main, p) && t.pcs[i] == Return(v)
            && Entries(t, main)[p] == Entries(s, main)[p].(value := Is(v))
  {
    SlotIsSpot(s, i, s.pcs[i].main, s.pcs[i].k);
  }

  lemma StepKeeps(s: State, t: State, i: nat, ok: bool)
    requires Inv(s) && i < |s.pcs| && t == After(s, i, ok)
    ensures Inv(t)
  {
    var tickets :| InvWith(s, tickets);
    match s.pcs[i]
    case Probe(_, _, _) => ProbeKeeps(s, t, tickets, i, ok);
    case Bump(_) => BumpKeeps(s, t, tickets, i, ok);
    case Refuse => DropKeeps(s, t, tickets, i, ok);
    case GiveUp => DropKeeps(s, t, tickets, i, ok);
    case Allocate(_, _) => if ok { PublishKeeps(s, t, tickets, i); } else { PlainKeeps(s, t, tickets, i, ok); }
    case Create(_, _) => if ok { CreateKeeps(s, t, tickets, i); } else { PlainKeeps(s, t, tickets, i, ok); }
    case Put(_, _, _) => PutMovesKeeps(s, t, tickets, i, ok);
    case PutKey(main, k, v) =>
      if s.tables[main].entries[SlotAt(s, i, main, k)].key == Free {
        PutKeyEffect(s, t, i, ok);
        PutKeyKeeps(s, t, tickets, i, SlotAt(s, i, main, k));
      } else {
        PutMovesKeeps(s, t, tickets, i, ok);
      }
    case PutValue(main, k, v) =>
      PutValueEffect(s, t, i, ok);
      PutValueKeeps(s, t, tickets, i, SlotAt(s, i, main, k));
    case _ => PlainKeeps(s, t, tickets, i, ok);
  }

  lemma InitHolds(s: State)
    requires Init(s)
    ensures Inv(s)
  {
    var tickets: map<nat, int> := map[];
    forall k: nat ensures |UpTo(tickets, k)| <= k { assert UpTo(tickets, k) == {}; }
    assert InvWith(s, tickets);
  }

  lemma {:induction false} RunHolds(r: seq<State>, acts: seq<Action>, k: nat)
    requires Run(r, acts) && k < |r|
    ensures Inv(r[k])
  {
    if k == 0 {
      InitHolds(r[0]);
    } else {
      RunHolds(r, acts, k - 1);
      var a := acts[k - 1];
      StepKeeps(r[k - 1], r[k], a.i, a.ok);
    }
  }

  // ---------------------------------------------------------------------------------------------
  // A stable injective map
  // ---------------------------------------------------------------------------------------------

  /** A call returns the producer made for its thread. */
  lemma ReturnsItsProducer(s: State, i: nat)
    requires Inv(s) && i < |s.pcs| && s.pcs[i].Return?
    ensures i in s.given && s.given[i] == s.pcs[i].value
  {
    var tickets :| InvWith(s, tickets);
    assert ThreadOk(s, tickets, i);
  }

  /** Producers are made at most once for a thread. */
  lemma GivenStaysOnce(s: State, t: State, i: nat, ok: bool, j: nat)
    requires Inv(s) && i < |s.pcs| && t == After(s, i, ok) && j in s.given
    ensures j in t.given && t.given[j] == s.given[j]
  {
    var tickets :| InvWith(s, tickets);
    assert ThreadOk(s, tickets, i);
  }

  lemma {:induction false} GivenStays(r: seq<State>, acts: seq<Action>, a: nat, b: nat, j: nat)
    requires Run(r, acts) && a <= b < |r| && j in r[a].given
    ensures j in r[b].given && r[b].given[j] == r[a].given[j]
    decreases b
  {
    if a < b {
      GivenStays(r, acts, a, b - 1, j);
      RunHolds(r, acts, b - 1);
      var act := acts[b - 1];
      GivenStaysOnce(r[b - 1], r[b], act.i, act.ok, j);
    }
  }

  /** Over any run, whatever is resized or copied meanwhile, two calls return the same producer exactly when
      they were made by the same thread. */
  lemma OneProducerEach(r: seq<State>, acts: seq<Action>, a: nat, b: nat, i: nat, j: nat)
    requires Run(r, acts) && a <= b < |r| && i < |r[a].pcs| && j < |r[b].pcs|
    requires r[a].pcs[i].Return? && r[b].pcs[j].Return?
    ensures r[a].pcs[i].value == r[b].pcs[j].value <==> i == j
  {
    RunHolds(r, acts, a);
    RunHolds(r, acts, b);
    ReturnsItsProducer(r[a], i);
    ReturnsItsProducer(r[b], j);
    GivenStays(r, acts, a, b, i);
    var tickets :| InvWith(r[b], tickets);
  }

  // ---------------------------------------------------------------------------------------------
  // Room, and the end of probes
  // ---------------------------------------------------------------------------------------------

  ghost function Ids(s: State, t: nat): set<nat>
    requires Shape(s) && t < |s.tables|
  {
    set i | 0 <= i < |s.pcs| && PresentAt(s, t, i)
  }

  lemma IdsHaveTickets(s: State, tickets: map<nat, int>, t: nat)
    requires InvWith(s, tickets) && t < |s.tables|
    ensures Ids(s, t) <= UpTo(tickets, ThreeQuarters(s.tables[t].capacity) - 1)
  {
    forall i | i in Ids(s, t) ensures i in UpTo(tickets, ThreeQuarters(s.tables[t].capacity) - 1) {
      var p :| 0 <= p < |Entries(s, t)| && Entries(s, t)[p].key == Of(i);
      assert EntryOk(s, tickets, t, p);
    }
  }

  /** A table never holds three quarters as many ids as it has slots, even though older tables are copied into
      it and failing calls give their counts back.  (A table of one slot holds none at all.) */
  lemma TablesHaveRoom(s: State, t: nat)
    requires Inv(s) && t < |s.tables|
    ensures Shape(s)
    ensures |Ids(s, t)| < ThreeQuarters(s.tables[t].capacity) || (s.tables[t].capacity == 1 && Ids(s, t) == {})
    ensures |Ids(s, t)| < s.tables[t].capacity
  {
    var tickets :| InvWith(s, tickets);
    var most := ThreeQuarters(s.tables[t].capacity) - 1;
    IdsHaveTickets(s, tickets, t);
    SubsetSize(Ids(s, t), UpTo(tickets, most));
    if most < 0 { assert UpTo(tickets, most) == {}; }
  }

  /** The ids met on a path are all different. */
  lemma {:induction false} PathIds(entries: seq<Entry>, h: nat, k: nat) returns (ids: set<nat>)
    requires 0 < |entries| && k <= |entries| && KeysDiffer(entries) && Path(entries, h, k)
    ensures |ids| == k
    ensures forall i :: i in ids ==> exists j: nat :: j < k && entries[Spot(entries, h, j)].key == Of(i)
  {
    if k == 0 {
      ids := {};
    } else {
      var fewer := PathIds(entries, h, k - 1);
      var key := entries[Spot(entries, h, k - 1)].key;
      forall j: nat | j < k - 1 ensures entries[Spot(entries, h, j)].key != key {
        TurnDistinct(h + j, h + k - 1, |entries|);
      }
      ids := fewer + {key.id};
    }
  }

  lemma PathIsShort(s: State, tickets: map<nat, int>, t: nat, h: nat, k: nat)
    requires InvWith(s, tickets) && t < |s.tables| && Path(Entries(s, t), h, k)
    ensures k < s.tables[t].capacity && k <= |Ids(s, t)|
  {
    var entries := Entries(s, t);
    var n := if k <= |entries| then k else |entries|;
    var ids := PathIds(entries, h, n);
    forall i | i in ids ensures i in Ids(s, t) {
      var j: nat :| j < n && entries[Spot(entries, h, j)].key == Of(i);
      assert EntryOk(s, tickets, t, Spot(entries, h, j));
      assert PresentAt(s, t, i);
    }
    SubsetSize(ids, Ids(s, t));
    TablesHaveRoom(s, t);
  }

  /** Every probe, looking up or inserting, ends within one round of its table: it has passed at most as many
      slots as the table holds ids. */
  lemma ProbesEnd(s: State, i: nat)
    requires Inv(s) && i < |s.pcs|
    ensures Shape(s)
    ensures s.pcs[i].Probe? ==> s.pcs[i].k <= |Ids(s, s.pcs[i].table)| < s.tables[s.pcs[i].table].capacity
    ensures s.pcs[i].Put? || s.pcs[i].PutKey? ==>
              s.pcs[i].k <= |Ids(s, s.pcs[i].main)| < s.tables[s.pcs[i].main].capacity
  {
    var tickets :| InvWith(s, tickets);
    assert ThreadOk(s, tickets, i);
    match s.pcs[i]
    case Probe(_, t, k) =>
      PathIsShort(s, tickets, t, s.hash[i], k);
      TablesHaveRoom(s, t);
    case Put(main, k, _) =>
      PathIsShort(s, tickets, main, s.hash[i], k);
      TablesHaveRoom(s, main);
    case PutKey(main, k, _) =>
      PathIsShort(s, tickets, main, s.hash[i], k);
      TablesHaveRoom(s, main);
    case _ =>
  }

  // ---------------------------------------------------------------------------------------------
  // The count and the chain
  // ---------------------------------------------------------------------------------------------

  /** The shared count is the number of threads that have a producer or have counted themselves in for one. */
  lemma CountIsExact(s: State)
    requires Inv(s)
    ensures s.count == |set i: nat | i < |s.pcs| && (i in s.given || InFlight(s.pcs[i]))|
  {
    var tickets :| InvWith(s, tickets);
    assert tickets.Keys == set i: nat | i < |s.pcs| && (i in s.given || InFlight(s.pcs[i]));
  }

  /** Only one thread resizes at a time, so tables form one chain, each at least as large as those before. */
  lemma ChainIsLinear(s: State, t: nat)
    requires Inv(s) && t < |s.tables|
    ensures s.main == |s.tables| - 1
    ensures s.tables[t].prev == if t == 0 then None else Older(t - 1)
    ensures s.tables[t].capacity <= s.tables[s.main].capacity
    ensures forall i, j :: 0 <= i < j < |s.pcs| && Locks(s.pcs[i]) ==> !Locks(s.pcs[j])
    ensures s.resizing <==> exists i :: 0 <= i < |s.pcs| && Locks(s.pcs[i])
  {
    var tickets :| InvWith(s, tickets);
  }

  /** A thread that has just looked at, or made, the current table under the lock will find room in it. */
  lemma RoomAfterResize(s: State, i: nat, ok: bool)
    requires Inv(s) && i < |s.pcs| && (s.pcs[i].Reload? || s.pcs[i].Allocate?)
    ensures var t := After(s, i, ok);
            t.pcs[i].Clear? ==>
              t.pcs[i].main < |t.tables| && t.pcs[i].n < ThreeQuarters(t.tables[t.pcs[i].main].capacity)
  {
  }
}
