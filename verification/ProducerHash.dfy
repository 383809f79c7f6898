/** The hash table that gives each thread its own implicit producer: linear probing, with older tables
    chained behind the current one and copied from lazily, as a step machine.  Each load, store, exchange or
    addition of something shared is one step of the thread that takes it. */
module ProducerHash {

  datatype Key = Free | Of(id: nat)

  datatype Value = Unset | Is(producer: nat)

  datatype Entry = Entry(key: Key, value: Value)

  datatype Previous = None | Older(table: nat)

  datatype Table = Table(capacity: nat, entries: seq<Entry>, prev: Previous)

  /** `k` counts the slots probed so far, starting from the thread's hash; `n` is the count the thread got. */
  datatype PC =
    | Idle
    | Probe(main: nat, table: nat, k: nat)
    | Bump(main: nat)
    | Check(main: nat, n: int)
    | Reload(n: int)
    | Allocate(main: nat, n: int)
    | Refuse
    | Unlock
    | Clear(main: nat, n: int)
    | Room(main: nat, n: int)
    | Create(main: nat, n: int)
    | GiveUp
    | Put(main: nat, k: nat, value: nat)
    | PutKey(main: nat, k: nat, value: nat)
    | PutValue(main: nat, k: nat, value: nat)
    | Return(value: nat)

  /** Thread `i` has id `i` and the arbitrary hash `hash[i]`.  `created` numbers the producers made so far.
      `given` records which one was made for which thread. */
  datatype State = State(
    hash: seq<nat>,
    tables: seq<Table>,
    main: nat,
    count: int,
    resizing: bool,
    created: nat,
    pcs: seq<PC>,
    given: map<nat, nat>)

  predicate PCShape(s: State, pc: PC) {
    match pc
    case Probe(main, t, _) => main < |s.tables| && t < |s.tables|
    case Bump(main) => main < |s.tables|
    case Check(main, _) => main < |s.tables|
    case Allocate(main, _) => main < |s.tables|
    case Clear(main, _) => main < |s.tables|
    case Room(main, _) => main < |s.tables|
    case Create(main, _) => main < |s.tables|
    case Put(main, _, _) => main < |s.tables|
    case PutKey(main, _, _) => main < |s.tables|
    case PutValue(main, _, _) => main < |s.tables|
    case _ => true
  }

  predicate Shape(s: State) {
    && |s.hash| == |s.pcs|
    && s.main < |s.tables|
    && (forall t :: 0 <= t < |s.tables| ==>
          && |s.tables[t].entries| == s.tables[t].capacity > 0
          && (s.tables[t].prev.Older? ==> s.tables[t].prev.table < |s.tables|))
    && (forall i :: 0 <= i < |s.pcs| ==> PCShape(s, s.pcs[i]))
  }

  function Goto(s: State, i: nat, pc: PC): State
    requires i < |s.pcs|
  {
    s.(pcs := s.pcs[i := pc])
  }

  /** The `k`-th slot thread `i` probes in table `t`. */
  function SlotAt(s: State, i: nat, t: nat, k: nat): (p: nat)
    requires Shape(s) && i < |s.pcs| && t < |s.tables|
    ensures p < |s.tables[t].entries|
  {
    (s.hash[i] + k) % s.tables[t].capacity
  }

  function SetEntry(s: State, t: nat, p: nat, e: Entry): State
    requires t < |s.tables| && p < |s.tables[t].entries|
  {
    s.(tables := s.tables[t := s.tables[t].(entries := s.tables[t].entries[p := e])])
  }

  /** Doubled at least once, and until `n` is less than half of it. */
  function Enough(capacity: nat, n: int): (c: nat)
    requires capacity > 0
    ensures c >= 2 * capacity && n < c / 2
    ensures c == 2 * capacity || n >= c / 2 / 2
    decreases n - capacity
  {
    if n >= 2 * capacity / 2 then Enough(2 * capacity, n) else 2 * capacity
  }

  function EmptyTable(capacity: nat, prev: Previous): Table {
    Table(capacity, seq(capacity, _ => Entry(Free, Unset)), prev)
  }

  /** How many ids may go into a table before the next one must be there. */
  function ThreeQuarters(capacity: nat): nat {
    capacity / 2 + capacity / 4
  }

  /** One step of thread `i`; `ok` tells whether memory is to be had. */
  function After(s: State, i: nat, ok: bool): State
    requires Shape(s) && i < |s.pcs|
  {
    match s.pcs[i]
    case Idle => Goto(s, i, Probe(s.main, s.main, 0))
    case Probe(main, t, k) =>
      var e := s.tables[t].entries[SlotAt(s, i, t, k)];
      if e.key == Of(i) then
        var v := if e.value.Is? then e.value.producer else 0;
        Goto(s, i, if t == main then Return(v) else Put(main, 0, v))
      else if e.key == Free then
        match s.tables[t].prev
        case None => Goto(s, i, Bump(main))
        case Older(u) => Goto(s, i, Probe(main, u, 0))
      else Goto(s, i, Probe(main, t, k + 1))
    case Bump(main) => Goto(s, i, Check(main, s.count + 1)).(count := s.count + 1)
    case Check(main, n) =>
      if n >= s.tables[main].capacity / 2 && !s.resizing then Goto(s, i, Reload(n)).(resizing := true)
      else Goto(s, i, Room(main, n))
    case Reload(n) =>
      Goto(s, i, if n >= s.tables[s.main].capacity / 2 then Allocate(s.main, n) else Clear(s.main, n))
    case Allocate(main, n) =>
      if ok then
        var larger := EmptyTable(Enough(s.tables[main].capacity, n), Older(main));
        Goto(s, i, Clear(|s.tables|, n)).(tables := s.tables + [larger], main := |s.tables|)
      else Goto(s, i, Refuse)
    case Refuse => Goto(s, i, Unlock).(count := s.count - 1)
    case Unlock => Goto(s, i, Idle).(resizing := false)
    case Clear(main, n) => Goto(s, i, Room(main, n)).(resizing := false)
    case Room(main, n) =>
      Goto(s, i, if n < ThreeQuarters(s.tables[main].capacity) then Create(main, n) else Check(s.main, n))
    case Create(main, n) =>
      if ok then Goto(s, i, Put(main, 0, s.created)).(created := s.created + 1, given := s.given[i := s.created])
      else Goto(s, i, GiveUp)
    case GiveUp => Goto(s, i, Idle).(count := s.count - 1)
    case Put(main, k, v) =>
      var e := s.tables[main].entries[SlotAt(s, i, main, k)];
      Goto(s, i, if e.key == Free then PutKey(main, k, v) else Put(main, k + 1, v))
    case PutKey(main, k, v) =>
      var p := SlotAt(s, i, main, k);
      var e := s.tables[main].entries[p];
      if e.key == Free then Goto(SetEntry(s, main, p, e.(key := Of(i))), i, PutValue(main, k, v))
      else Goto(s, i, Put(main, k + 1, v))
    case PutValue(main, k, v) =>
      var p := SlotAt(s, i, main, k);
      Goto(SetEntry(s, main, p, s.tables[main].entries[p].(value := Is(v))), i, Return(v))
    case Return(_) => Goto(s, i, Idle)
  }

  ghost predicate Init(s: State) {
    && Shape(s)
    && |s.tables| == 1 && s.tables[0] == EmptyTable(s.tables[0].capacity, None)
    && s.count == 0 && !s.resizing && s.created == 0
    && s.given == map[]
    && (forall i :: 0 <= i < |s.pcs| ==> s.pcs[i] == Idle)
  }

  ghost predicate Step(s: State, i: nat, ok: bool, t: State) {
    Shape(s) && i < |s.pcs| && t == After(s, i, ok)
  }

  datatype Action = Action(i: nat, ok: bool)

  ghost predicate Run(r: seq<State>, acts: seq<Action>) {
    && |r| == |acts| + 1
    && Init(r[0])
    && (forall k {:trigger acts[k]} :: 0 <= k < |acts| ==> Step(r[k], acts[k].i, acts[k].ok, r[k + 1]))
  }
}
