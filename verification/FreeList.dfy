/** Blocks are numbered; a pointer is null or the number of a block. */
module Pointers {
  type Node = nat

  datatype Ptr = Null | At(node: Node)
}

/** The lock-free free list of blocks, together with the block requisition that calls it.

    Any number of threads run `add` (on a block the caller owns) and `requisition_block` (initial
    pool, then `try_get`, then allocation).  Every atomic load, store, compare-exchange and
    fetch-add is one step, and steps of different threads interleave arbitrarily. */
module FreeList {
  import opened Pointers

  // The 32-bit reference word: low 31 bits count references, the top bit is "should be on free list".
  const WORD: nat := 0x1_0000_0000
  const FLAG: nat := 0x8000_0000

  function FetchAdd(word: nat, k: int): nat {
    (word + k) % WORD
  }

  /** Where `add_knowing_refcount_is_zero` goes back to: out of `add`, or into the loop of `try_get`
      with the head that its failed compare-exchange reported. */
  datatype Return = ToCaller | ToTryGet(head: Ptr)

  datatype PC =
    | Idle
    // requisition_block: the initial pool
    | PoolLoad
    | PoolTake
    // try_get
    | GetHead
    | GetRefs(node: Node)
    | GetHold(node: Node, refs: nat)
    | GetNext(node: Node)
    | GetSwing(node: Node, next: Ptr)
    | GetCheck(node: Node)
    | GetKeep(node: Node)
    | GetDrop(node: Node, head: Ptr)
    // requisition_block: allocation
    | Allocate
    // add, and add_knowing_refcount_is_zero
    | AddFlag(node: Node)
    | LinkHead(node: Node, ret: Return)
    | LinkNext(node: Node, head: Ptr, ret: Return)
    | LinkRefs(node: Node, head: Ptr, ret: Return)
    | LinkSwing(node: Node, head: Ptr, ret: Return)
    | LinkUndo(node: Node, head: Ptr, ret: Return)

  /** `owned` records which blocks are in the hands of callers: it is the client's side of the
      contract (only an owner calls `add`), not a field of the program. */
  datatype State = State(
    head: Ptr,
    next: seq<Ptr>,
    refs: seq<nat>,
    poolSize: nat,
    poolIndex: nat,
    owned: set<Node>,
    pcs: seq<PC>)

  /** What is left open at a step: which operation an idle thread starts, and whether allocation works. */
  datatype Choice = Requisition | Add(node: Node) | Succeed | Fail

  predicate InRange(s: State, p: Ptr) {
    p.At? ==> p.node < |s.refs|
  }

  predicate PcInRange(s: State, pc: PC) {
    match pc
    case GetRefs(n) => n < |s.refs|
    case GetHold(n, _) => n < |s.refs|
    case GetNext(n) => n < |s.refs|
    case GetSwing(n, p) => n < |s.refs| && InRange(s, p)
    case GetCheck(n) => n < |s.refs|
    case GetKeep(n) => n < |s.refs|
    case GetDrop(n, p) => n < |s.refs| && InRange(s, p)
    case AddFlag(n) => n < |s.refs|
    case LinkHead(n, r) => n < |s.refs| && (r.ToTryGet? ==> InRange(s, r.head))
    case LinkNext(n, p, r) => n < |s.refs| && InRange(s, p) && (r.ToTryGet? ==> InRange(s, r.head))
    case LinkRefs(n, p, r) => n < |s.refs| && InRange(s, p) && (r.ToTryGet? ==> InRange(s, r.head))
    case LinkSwing(n, p, r) => n < |s.refs| && InRange(s, p) && (r.ToTryGet? ==> InRange(s, r.head))
    case LinkUndo(n, p, r) => n < |s.refs| && InRange(s, p) && (r.ToTryGet? ==> InRange(s, r.head))
    case _ => true
  }

  /** Every pointer in memory or in a thread's registers denotes an existing block. */
  predicate Shape(s: State) {
    && |s.next| == |s.refs|
    && s.poolSize <= |s.refs|
    && InRange(s, s.head)
    && (forall n :: 0 <= n < |s.next| ==> InRange(s, s.next[n]))
    && (forall i :: 0 <= i < |s.pcs| ==> PcInRange(s, s.pcs[i]))
  }

  // ---------------------------------------------------------------------------------------------
  // The program
  // ---------------------------------------------------------------------------------------------

  /** The test of the `while (head != nullptr)` loop of `try_get`; a null head falls through to allocation. */
  function Loop(head: Ptr): PC {
    match head
    case Null => Allocate
    case At(n) => GetRefs(n)
  }

  function Leave(ret: Return): PC {
    match ret
    case ToCaller => Idle
    case ToTryGet(h) => Loop(h)
  }

  function Goto(s: State, i: nat, pc: PC): State
    requires i < |s.pcs|
  {
    s.(pcs := s.pcs[i := pc])
  }

  function SetRefs(s: State, n: Node, w: nat): State
    requires n < |s.refs|
  {
    s.(refs := s.refs[n := w])
  }

  function Give(s: State, n: Node): State {
    s.(owned := s.owned + {n})
  }

  predicate Enabled(s: State, i: nat, c: Choice) {
    && i < |s.pcs|
    && Shape(s)
    && (s.pcs[i].Idle? ==> c.Requisition? || (c.Add? && c.node in s.owned && c.node < |s.refs|))
    && (s.pcs[i].Allocate? ==> c.Succeed? || c.Fail?)
  }

  function After(s: State, i: nat, c: Choice): State
    requires Enabled(s, i, c)
  {
    match s.pcs[i]
    case Idle =>
      if c.Requisition? then Goto(s, i, PoolLoad)
      else Goto(s, i, AddFlag(c.node)).(owned := s.owned - {c.node})
    case PoolLoad =>
      Goto(s, i, if s.poolIndex >= s.poolSize then GetHead else PoolTake)
    case PoolTake =>
      var t := s.(poolIndex := s.poolIndex + 1);
      if s.poolIndex < s.poolSize then Give(Goto(t, i, Idle), s.poolIndex)
      else Goto(t, i, GetHead)
    case GetHead =>
      Goto(s, i, Loop(s.head))
    case GetRefs(n) =>
      Goto(s, i, if s.refs[n] % FLAG == 0 then GetHead else GetHold(n, s.refs[n]))
    case GetHold(n, w) =>
      if s.refs[n] == w then Goto(SetRefs(s, n, FetchAdd(w, 1)), i, GetNext(n))
      else Goto(s, i, GetHead)
    case GetNext(n) =>
      Goto(s, i, GetSwing(n, s.next[n]))
    case GetSwing(n, p) =>
      if s.head == At(n) then Goto(s.(head := p), i, GetCheck(n))
      else Goto(s, i, GetDrop(n, s.head))
    case GetCheck(n) =>
      Goto(s, i, GetKeep(n))
    case GetKeep(n) =>
      Give(Goto(SetRefs(s, n, FetchAdd(s.refs[n], -2)), i, Idle), n)
    case GetDrop(n, h) =>
      Goto(SetRefs(s, n, FetchAdd(s.refs[n], -1)), i,
           if s.refs[n] == FLAG + 1 then LinkHead(n, ToTryGet(h)) else Loop(h))
    case Allocate =>
      if c.Fail? then Goto(s, i, Idle)
      else Give(Goto(s, i, Idle), |s.refs|).(refs := s.refs + [0], next := s.next + [Null])
    case AddFlag(n) =>
      Goto(SetRefs(s, n, FetchAdd(s.refs[n], FLAG)), i,
           if s.refs[n] == 0 then LinkHead(n, ToCaller) else Idle)
    case LinkHead(n, r) =>
      Goto(s, i, LinkNext(n, s.head, r))
    case LinkNext(n, h, r) =>
      Goto(s.(next := s.next[n := h]), i, LinkRefs(n, h, r))
    case LinkRefs(n, h, r) =>
      Goto(SetRefs(s, n, 1), i, LinkSwing(n, h, r))
    case LinkSwing(n, h, r) =>
      if s.head == h then Goto(s.(head := At(n)), i, Leave(r))
      else Goto(s, i, LinkUndo(n, s.head, r))
    case LinkUndo(n, h, r) =>
      Goto(SetRefs(s, n, FetchAdd(s.refs[n], FLAG - 1)), i,
           if s.refs[n] == 1 then LinkNext(n, h, r) else Leave(r))
  }

  predicate Init(s: State) {
    && s.head == Null
    && |s.refs| == |s.next| == s.poolSize
    && (forall n :: 0 <= n < |s.refs| ==> s.refs[n] == 0 && s.next[n] == Null)
    && s.poolIndex == 0
    && s.owned == {}
    && |s.pcs| < FLAG - 1
    && (forall i :: 0 <= i < |s.pcs| ==> s.pcs[i] == Idle)
  }

  datatype Action = Action(i: nat, c: Choice)

  /** A run: the states, and the action that leads from each to the next. */
  ghost predicate Run(r: seq<State>, acts: seq<Action>) {
    && |r| == |acts| + 1
    && Init(r[0])
    && (forall k :: 0 <= k < |acts| ==>
          Enabled(r[k], acts[k].i, acts[k].c) && r[k + 1] == After(r[k], acts[k].i, acts[k].c))
  }

  /** The block that a step returns from `requisition_block` to its caller. */
  function Returned(s: State, i: nat, c: Choice): Ptr
    requires Enabled(s, i, c)
  {
    match s.pcs[i]
    case PoolTake => if s.poolIndex < s.poolSize then At(s.poolIndex) else Null
    case GetKeep(n) => At(n)
    case Allocate => if c.Succeed? then At(|s.refs|) else Null
    case _ => Null
  }

  /** The block that a step gives up by starting `add`. */
  function Given(s: State, i: nat, c: Choice): Ptr
    requires Enabled(s, i, c)
  {
    if s.pcs[i].Idle? && c.Add? then At(c.node) else Null
  }
}
