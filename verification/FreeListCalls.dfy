/** What a call of the free list comes to: when a requisition returns a block, which, and when it asks for memory. */
module FreeListCalls {
  import opened Pointers
  import opened Threads
  import opened FreeList
  import opened FreeListProof

  // ---------------------------------------------------------------------------------------------
  // Any interleaving
  // ---------------------------------------------------------------------------------------------

  /** The thread is inside `requisition_block`, perhaps helping a block onto the list from there. */
  predicate Requisitions(pc: PC) {
    match pc
    case Idle => false
    case AddFlag(_) => false
    case LinkHead(_, ret) => ret.ToTryGet?
    case LinkNext(_, _, ret) => ret.ToTryGet?
    case LinkRefs(_, _, ret) => ret.ToTryGet?
    case LinkSwing(_, _, ret) => ret.ToTryGet?
    case LinkUndo(_, _, ret) => ret.ToTryGet?
    case _ => true
  }

  /** A requisition ends with a block, or with an allocation refused, and in no other way. */
  lemma RequisitionEnds(s: State, i: nat, c: Choice)
    requires Enabled(s, i, c) && Requisitions(s.pcs[i])
    ensures Returned(s, i, c).At? || (s.pcs[i].Allocate? && c.Fail?) <==> After(s, i, c).pcs[i].Idle?
    ensures After(s, i, c).pcs[i].Idle? || Requisitions(After(s, i, c).pcs[i])
  {
  }

  /** The thread has read a null head, and is going to ask for memory. */
  predicate SawNull(pc: PC) {
    match pc
    case Allocate => true
    case GetDrop(_, head) => head == Null
    case LinkHead(_, ret) => ret == ToTryGet(Null)
    case LinkNext(_, _, ret) => ret == ToTryGet(Null)
    case LinkRefs(_, _, ret) => ret == ToTryGet(Null)
    case LinkSwing(_, _, ret) => ret == ToTryGet(Null)
    case LinkUndo(_, _, ret) => ret == ToTryGet(Null)
    case _ => false
  }

  predicate PastPool(pc: PC) {
    Requisitions(pc) && !pc.PoolLoad? && !pc.PoolTake?
  }

  lemma SeesNull(s: State, t: State, j: nat, c: Choice, i: nat)
    requires Enabled(s, j, c) && t == After(s, j, c) && i < |t.pcs| && SawNull(t.pcs[i])
    ensures i < |s.pcs| && (SawNull(s.pcs[i]) || (s.head == Null && PastPool(s.pcs[i])))
  {
    if i != j { assert t.pcs[i] == s.pcs[i]; }
  }

  lemma SawNullIsPastPool(pc: PC)
    requires SawNull(pc)
    ensures PastPool(pc)
  {
  }

  /** Thread `i` is in the same requisition in all states from `j` to `k`, and past the pool. */
  ghost predicate SameCall(r: seq<State>, i: nat, j: nat, k: nat) {
    j <= k < |r| && forall m :: j <= m <= k ==> i < |r[m].pcs| && PastPool(r[m].pcs[i])
  }

  ghost predicate EmptyMeanwhile(r: seq<State>, i: nat, k: nat) {
    exists j: nat :: SameCall(r, i, j, k) && r[j].head == Null
  }

  lemma SeesNullAt(r: seq<State>, acts: seq<Action>, i: nat, k: nat)
    requires Run(r, acts) && 0 < k < |r| && i < |r[k].pcs| && SawNull(r[k].pcs[i])
    ensures i < |r[k - 1].pcs| && (SawNull(r[k - 1].pcs[i]) || (r[k - 1].head == Null && PastPool(r[k - 1].pcs[i])))
  {
    SeesNull(r[k - 1], r[k], acts[k - 1].i, acts[k - 1].c, i);
  }

  lemma EmptyJustNow(r: seq<State>, i: nat, k: nat)
    requires 0 < k < |r| && i < |r[k - 1].pcs| && i < |r[k].pcs| && PastPool(r[k - 1].pcs[i]) && PastPool(r[k].pcs[i])
    requires EmptyMeanwhile(r, i, k - 1) || r[k - 1].head == Null
    ensures EmptyMeanwhile(r, i, k)
  {
    if r[k - 1].head == Null {
      assert SameCall(r, i, k - 1, k);
    } else {
      var j: nat :| SameCall(r, i, j, k - 1) && r[j].head == Null;
      assert SameCall(r, i, j, k);
    }
  }

  lemma {:induction false} SawItEmpty(r: seq<State>, acts: seq<Action>, i: nat, k: nat)
    requires Run(r, acts) && k < |r| && i < |r[k].pcs| && SawNull(r[k].pcs[i])
    ensures EmptyMeanwhile(r, i, k)
  {
    SawNullIsPastPool(r[k].pcs[i]);
    if k > 0 {
      SeesNullAt(r, acts, i, k);
      if SawNull(r[k - 1].pcs[i]) {
        SawNullIsPastPool(r[k - 1].pcs[i]);
        SawItEmpty(r, acts, i, k - 1);
      }
      EmptyJustNow(r, i, k);
    }
  }

  ghost predicate PoolUsed(s: State) {
    forall i :: 0 <= i < |s.pcs| && PastPool(s.pcs[i]) ==> s.poolIndex >= s.poolSize
  }

  lemma PoolStaysUsed(s: State, i: nat, c: Choice)
    requires Enabled(s, i, c) && PoolUsed(s)
    ensures PoolUsed(After(s, i, c))
  {
    var t := After(s, i, c);
    assert t.poolIndex >= s.poolIndex && t.poolSize == s.poolSize;
    assert PastPool(t.pcs[i]) ==> t.poolIndex >= t.poolSize;
    assert forall j :: 0 <= j < |s.pcs| && j != i ==> t.pcs[j] == s.pcs[j];
  }

  lemma {:induction false} PoolIsUsed(r: seq<State>, acts: seq<Action>, k: nat)
    requires Run(r, acts) && k < |r|
    ensures PoolUsed(r[k])
  {
    if k > 0 {
      PoolIsUsed(r, acts, k - 1);
      PoolStaysUsed(r[k - 1], acts[k - 1].i, acts[k - 1].c);
    }
  }

  /** Over any run, a requisition asks for memory only if the pool is used up and the list was empty at some moment
      of its own call: so it fails only then, and never passes over a list that has blocks all the time. */
  lemma AllocatesOnlyIfEmpty(r: seq<State>, acts: seq<Action>, i: nat, k: nat)
    requires Run(r, acts) && k < |r| && i < |r[k].pcs| && r[k].pcs[i].Allocate?
    ensures r[k].poolIndex >= r[k].poolSize
    ensures EmptyMeanwhile(r, i, k)
  {
    PoolIsUsed(r, acts, k);
    SawItEmpty(r, acts, i, k);
  }

  // ---------------------------------------------------------------------------------------------
  // Alone
  // ---------------------------------------------------------------------------------------------

  /** `n` consecutive steps of thread `i`, with nobody else moving; it stops where memory is asked for. */
  function Alone(s: State, i: nat, c: Choice, n: nat): State {
    if n == 0 then s
    else
      var t := Alone(s, i, c, n - 1);
      if Enabled(t, i, c) then After(t, i, c) else t
  }

  lemma OneMore(s: State, i: nat, c: Choice, n: nat, t: State, u: State)
    requires Alone(s, i, c, n) == t && Enabled(t, i, c) && u == After(t, i, c)
    ensures Alone(s, i, c, n + 1) == u
  {
  }

  predicate AllIdle(s: State) {
    forall i :: 0 <= i < |s.pcs| ==> s.pcs[i].Idle?
  }

  lemma BackToIdle(s: State, i: nat, pc: PC)
    requires AllIdle(s) && i < |s.pcs|
    ensures s.pcs[i := pc][i := Idle] == s.pcs
  {
  }

  lemma IdleShape(s: State)
    requires Inv(s)
    ensures Shape(s)
  {
    var list: seq<Node>, place: seq<Place> :| InvWith(s, list, place);
  }

  /** While the pool has blocks, a requisition returns the next of them. */
  lemma PoolFirst(s: State, i: nat)
    requires Inv(s) && AllIdle(s) && i < |s.pcs| && s.poolIndex < s.poolSize
    ensures Alone(s, i, Requisition, 3) == s.(poolIndex := s.poolIndex + 1, owned := s.owned + {s.poolIndex})
  {
    IdleShape(s);
    var t1, t2 := Goto(s, i, PoolLoad), Goto(s, i, PoolTake);
    OneMore(s, i, Requisition, 0, s, t1);
    OneMore(s, i, Requisition, 1, t1, t2);
    BackToIdle(s, i, PoolTake);
    OneMore(s, i, Requisition, 2, t2, s.(poolIndex := s.poolIndex + 1, owned := s.owned + {s.poolIndex}));
  }

  lemma ComesToList(s: State, i: nat)
    requires Shape(s) && AllIdle(s) && i < |s.pcs| && s.poolIndex >= s.poolSize
    ensures Alone(s, i, Requisition, 3) == Goto(s, i, Loop(s.head))
  {
    var t1, t2 := Goto(s, i, PoolLoad), Goto(s, i, GetHead);
    OneMore(s, i, Requisition, 0, s, t1);
    OneMore(s, i, Requisition, 1, t1, t2);
    OneMore(s, i, Requisition, 2, t2, Goto(s, i, Loop(s.head)));
  }

  lemma HoldsHead(s: State, i: nat, n: Node)
    requires Shape(s) && AllIdle(s) && i < |s.pcs| && s.poolIndex >= s.poolSize
    requires s.head == At(n) && s.refs[n] == 1
    ensures Alone(s, i, Requisition, 6) == Goto(SetRefs(s, n, 2), i, GetSwing(n, s.next[n]))
  {
    ComesToList(s, i);
    var t3, t4 := Goto(s, i, GetRefs(n)), Goto(s, i, GetHold(n, 1));
    var t5 := Goto(SetRefs(s, n, 2), i, GetNext(n));
    OneMore(s, i, Requisition, 3, t3, t4);
    OneMore(s, i, Requisition, 4, t4, t5);
    OneMore(s, i, Requisition, 5, t5, Goto(SetRefs(s, n, 2), i, GetSwing(n, s.next[n])));
  }

  lemma TakesHead(s: State, i: nat, n: Node)
    requires Shape(s) && AllIdle(s) && i < |s.pcs| && s.poolIndex >= s.poolSize
    requires s.head == At(n) && s.refs[n] == 1
    ensures Alone(s, i, Requisition, 9) == s.(head := s.next[n], refs := s.refs[n := 0], owned := s.owned + {n})
  {
    HoldsHead(s, i, n);
    var u := SetRefs(s, n, 2);
    var t6, t7, t8 := Goto(u, i, GetSwing(n, s.next[n])), Goto(u.(head := s.next[n]), i, GetCheck(n)),
                      Goto(u.(head := s.next[n]), i, GetKeep(n));
    OneMore(s, i, Requisition, 6, t6, t7);
    OneMore(s, i, Requisition, 7, t7, t8);
    BackToIdle(s, i, GetKeep(n));
    assert s.refs[n := 2][n := 0] == s.refs[n := 0];
    OneMore(s, i, Requisition, 8, t8, s.(head := s.next[n], refs := s.refs[n := 0], owned := s.owned + {n}));
  }

  /** A requisition running alone returns the next block of the pool; once that is used up, the first block of the
      list, and leaves the rest of it; and it asks for memory exactly if there is neither. */
  lemma AloneTakes(s: State, i: nat)
    requires Inv(s) && AllIdle(s) && i < |s.pcs|
    ensures s.poolIndex < s.poolSize ==>
              Alone(s, i, Requisition, 3) == s.(poolIndex := s.poolIndex + 1, owned := s.owned + {s.poolIndex})
    ensures s.poolIndex >= s.poolSize && s.head.At? ==>
              var n := s.head.node;
              && n < |s.next| && n < |s.refs|
              && var t := Alone(s, i, Requisition, 9);
              && t == s.(head := s.next[n], refs := s.refs[n := 0], owned := s.owned + {n})
              && exists rest :: Chain(s.head, s.next, [n] + rest) && Chain(t.head, t.next, rest)
    ensures s.poolIndex >= s.poolSize && s.head.Null? ==> Alone(s, i, Requisition, 3) == Goto(s, i, Allocate)
  {
    IdleShape(s);
    if s.poolIndex < s.poolSize {
      PoolFirst(s, i);
    } else if s.head.Null? {
      ComesToList(s, i);
    } else {
      HeadIsCountedOnce(s);
      TakesHead(s, i, s.head.node);
    }
  }

  lemma HeadIsCountedOnce(s: State)
    requires Inv(s) && AllIdle(s) && s.head.At?
    ensures s.head.node < |s.next| == |s.refs| && s.refs[s.head.node] == 1
    ensures exists rest :: Chain(s.head, s.next, [s.head.node] + rest) && Chain(s.next[s.head.node], s.next, rest)
  {
    QuiescentListIsTheFreeBlocks(s);
    var list :| Chain(s.head, s.next, list) && Distinct(list)
                && (forall n: nat :: n in list <==> n < |s.refs| && n !in s.owned && !InPool(s, n));
    assert list == [s.head.node] + list[1..];
    assert s.head.node in list;
    IdleShape(s);
  }

  /** The state after an `add` of `n` has written `word` to its count, and, if `linked`, the old head behind it. */
  function Adding(s: State, n: Node, word: nat, linked: bool): State
    requires n < |s.next| && n < |s.refs|
  {
    s.(owned := s.owned - {n}, refs := s.refs[n := word], next := if linked then s.next[n := s.head] else s.next)
  }

  lemma FlagsAlone(s: State, i: nat, n: Node)
    requires Shape(s) && AllIdle(s) && i < |s.pcs| && n in s.owned && n < |s.refs| && s.refs[n] == 0
    ensures Alone(s, i, Add(n), 3) == Goto(Adding(s, n, FLAG, false), i, LinkNext(n, s.head, ToCaller))
  {
    var u, flagged := s.(owned := s.owned - {n}), Adding(s, n, FLAG, false);
    OneMore(s, i, Add(n), 0, s, Goto(u, i, AddFlag(n)));
    OneMore(s, i, Add(n), 1, Goto(u, i, AddFlag(n)), Goto(flagged, i, LinkHead(n, ToCaller)));
    OneMore(s, i, Add(n), 2, Goto(flagged, i, LinkHead(n, ToCaller)), Goto(flagged, i, LinkNext(n, s.head, ToCaller)));
  }

  lemma LinksAlone(s: State, i: nat, n: Node)
    requires Shape(s) && AllIdle(s) && i < |s.pcs| && n < |s.refs|
    requires Alone(s, i, Add(n), 3) == Goto(Adding(s, n, FLAG, false), i, LinkNext(n, s.head, ToCaller))
    ensures Alone(s, i, Add(n), 5) == Goto(Adding(s, n, 1, true), i, LinkSwing(n, s.head, ToCaller))
  {
    var t3 := Goto(Adding(s, n, FLAG, false), i, LinkNext(n, s.head, ToCaller));
    var t4 := Goto(Adding(s, n, FLAG, true), i, LinkRefs(n, s.head, ToCaller));
    OneMore(s, i, Add(n), 3, t3, t4);
    assert s.refs[n := FLAG][n := 1] == s.refs[n := 1];
    OneMore(s, i, Add(n), 4, t4, Goto(Adding(s, n, 1, true), i, LinkSwing(n, s.head, ToCaller)));
  }

  lemma SwingsAlone(s: State, i: nat, n: Node)
    requires Shape(s) && AllIdle(s) && i < |s.pcs| && n < |s.refs|
    requires Alone(s, i, Add(n), 5) == Goto(Adding(s, n, 1, true), i, LinkSwing(n, s.head, ToCaller))
    ensures Alone(s, i, Add(n), 6) == Adding(s, n, 1, true).(head := At(n))
  {
    BackToIdle(s, i, LinkSwing(n, s.head, ToCaller));
    OneMore(s, i, Add(n), 5, Goto(Adding(s, n, 1, true), i, LinkSwing(n, s.head, ToCaller)), Adding(s, n, 1, true).(head := At(n)));
  }

  /** An `add` running alone puts its block in front of the list. */
  lemma AloneAdds(s: State, i: nat, n: Node)
    requires Inv(s) && AllIdle(s) && i < |s.pcs| && n in s.owned
    ensures n < |s.next| && n < |s.refs|
    ensures Alone(s, i, Add(n), 6)
         == s.(head := At(n), next := s.next[n := s.head], refs := s.refs[n := 1], owned := s.owned - {n})
  {
    IdleShape(s);
    OwnedIsUncounted(s, n);
    FlagsAlone(s, i, n);
    LinksAlone(s, i, n);
    SwingsAlone(s, i, n);
  }

  lemma OwnedIsUncounted(s: State, n: Node)
    requires Inv(s) && AllIdle(s) && n in s.owned
    ensures n < |s.refs| == |s.next| && s.refs[n] == 0
  {
    var list: seq<Node>, place: seq<Place> :| InvWith(s, list, place);
    QuiescentListIsTheFreeBlocks(s);
  }

  // ---------------------------------------------------------------------------------------------
  // Every call ends
  // ---------------------------------------------------------------------------------------------

  /** How stale the block is that a thread goes for: the head itself, another block, or one that waits for its last
      holder and that the thread may have to put on the list first. */
  function Staleness(s: State, n: Node): nat {
    if s.head == At(n) then 0 else if n < |s.refs| && s.refs[n] >= FLAG then 2 else 1
  }

  /** The same after the thread itself has put block `first` on the list. */
  function StalenessBehind(s: State, first: Node, p: Ptr): nat {
    match p
    case Null => 0
    case At(n) => if n == first || (n < |s.refs| && s.refs[n] >= FLAG) then 2 else 1
  }

  function LoopRank(s: State, head: Ptr): nat {
    match head
    case Null => 1
    case At(n) => 40 * Staleness(s, n) + 8
  }

  function LeaveRank(s: State, n: Node, ret: Return): nat {
    match ret
    case ToCaller => 0
    case ToTryGet(h) => 40 * StalenessBehind(s, n, h)
  }

  /** A bound on the steps thread `i` can still take in this call, if nobody else moves. */
  function Rank(s: State, pc: PC): nat {
    match pc
    case Idle => 0
    case PoolLoad => 300
    case PoolTake => 299
    case GetHead => 9
    case GetRefs(n) => 40 * Staleness(s, n) + 8
    case GetHold(n, w) => 40 * Staleness(s, n) + (if n < |s.refs| && s.refs[n] == w then 7 else 10)
    case GetNext(n) => 40 * Staleness(s, n) + 6
    case GetSwing(n, _) => 40 * Staleness(s, n) + 5
    case GetCheck(_) => 4
    case GetKeep(_) => 3
    case GetDrop(n, h) =>
      if n < |s.refs| && s.refs[n] == FLAG + 1 then 40 * StalenessBehind(s, n, h) + 20 else LoopRank(s, h) + 1
    case Allocate => 1
    case AddFlag(_) => 40
    case LinkHead(n, ret) => LeaveRank(s, n, ret) + 19
    case LinkNext(n, p, ret) => LeaveRank(s, n, ret) + (if p == s.head then 18 else 27)
    case LinkRefs(n, p, ret) => LeaveRank(s, n, ret) + (if p == s.head then 17 else 26)
    case LinkSwing(n, p, ret) => LeaveRank(s, n, ret) + (if p == s.head then 16 else 25)
    case LinkUndo(n, p, ret) => LeaveRank(s, n, ret) + (if p == s.head then 24 else 28)
  }

  /** The head is on the list, so its count is neither zero nor flagged. */
  lemma HeadIsCounted(s: State)
    requires Inv(s) && s.head.At?
    ensures s.head.node < |s.refs| && 0 < s.refs[s.head.node] < FLAG
  {
    var list: seq<Node>, place: seq<Place> :| InvWith(s, list, place);
    var n := s.head.node;
    assert n == list[0] && n in list;
    assert NodeOk(s, place, n);
    if |s.pcs| > 0 { HoldersBounds(s.pcs, 0, n); }
    if s.pcs == [] { assert Holders(s.pcs, n) == 0; }
  }

  /** A count stays on its side of the flag while a thread that does not hold the block takes hold of it. */
  lemma CountHasRoom(s: State, i: nat, n: Node)
    requires Inv(s) && i < |s.pcs| && n < |s.refs|
    ensures s.refs[n] < WORD
    ensures Held(s.pcs[i]) != At(n) ==> s.refs[n] % FLAG + 1 < FLAG
    ensures Held(s.pcs[i]) == At(n) ==> s.refs[n] % FLAG >= 1
  {
    CountIsReferences(s, n);
    HoldersBounds(s.pcs, i, n);
    FewThreads(s);
  }

  lemma FewThreads(s: State)
    requires Inv(s)
    ensures Shape(s) && |s.pcs| < FLAG - 1
  {
    var list: seq<Node>, place: seq<Place> :| InvWith(s, list, place);
  }

  lemma GetAdvances(s: State, i: nat, c: Choice, t: State)
    requires Inv(s) && Enabled(s, i, c) && t == After(s, i, c)
    requires s.pcs[i].GetRefs? || s.pcs[i].GetHold? || s.pcs[i].GetNext? || s.pcs[i].GetSwing?
    ensures Rank(t, t.pcs[i]) < Rank(s, s.pcs[i])
  {
    CountHasRoom(s, i, s.pcs[i].node);
    if s.head.At? { HeadIsCounted(s); }
  }

  lemma DropAdvances(s: State, i: nat, c: Choice, t: State)
    requires Inv(s) && Enabled(s, i, c) && t == After(s, i, c) && s.pcs[i].GetDrop?
    ensures Rank(t, t.pcs[i]) < Rank(s, s.pcs[i])
  {
    CountHasRoom(s, i, s.pcs[i].node);
  }

  lemma LinkAdvances(s: State, i: nat, c: Choice, t: State)
    requires Enabled(s, i, c) && t == After(s, i, c)
    requires s.pcs[i].LinkHead? || s.pcs[i].LinkNext? || s.pcs[i].LinkRefs? || s.pcs[i].LinkSwing? || s.pcs[i].LinkUndo?
    ensures Rank(t, t.pcs[i]) < Rank(s, s.pcs[i])
  {
  }

  lemma PlainAdvances(s: State, i: nat, c: Choice, t: State)
    requires Enabled(s, i, c) && t == After(s, i, c)
    requires s.pcs[i].PoolLoad? || s.pcs[i].PoolTake? || s.pcs[i].GetHead? || s.pcs[i].GetCheck? || s.pcs[i].GetKeep?
             || s.pcs[i].Allocate? || s.pcs[i].AddFlag?
    ensures Rank(t, t.pcs[i]) < Rank(s, s.pcs[i])
  {
  }

  /** From any reachable state, wherever the other threads have stopped, each step of a thread that moves alone brings
      its call nearer to its end, at most three hundred steps away: the list is lock-free. */
  lemma CallAdvances(s: State, i: nat, c: Choice, t: State)
    requires Inv(s) && Enabled(s, i, c) && t == After(s, i, c) && !s.pcs[i].Idle?
    ensures Rank(t, t.pcs[i]) < Rank(s, s.pcs[i]) <= 300
  {
    match s.pcs[i]
    case GetRefs(_) => GetAdvances(s, i, c, t);
    case GetHold(_, _) => GetAdvances(s, i, c, t);
    case GetNext(_) => GetAdvances(s, i, c, t);
    case GetSwing(_, _) => GetAdvances(s, i, c, t);
    case GetDrop(_, _) => DropAdvances(s, i, c, t);
    case LinkHead(_, _) => LinkAdvances(s, i, c, t);
    case LinkNext(_, _, _) => LinkAdvances(s, i, c, t);
    case LinkRefs(_, _, _) => LinkAdvances(s, i, c, t);
    case LinkSwing(_, _, _) => LinkAdvances(s, i, c, t);
    case LinkUndo(_, _, _) => LinkAdvances(s, i, c, t);
    case _ => PlainAdvances(s, i, c, t);
  }
}
