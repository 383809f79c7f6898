/** No interleaving of the free list loses a block, hands one to two callers, or is fooled by ABA. */
module FreeListProof {
  import opened Pointers
  import opened Threads
  import opened FreeList

  // ---------------------------------------------------------------------------------------------
  // The invariant
  // ---------------------------------------------------------------------------------------------

  /** The block whose count the thread has incremented and not yet given back. */
  function Held(pc: PC): Ptr {
    match pc
    case GetNext(n) => At(n)
    case GetSwing(n, _) => At(n)
    case GetCheck(n) => At(n)
    case GetKeep(n) => At(n)
    case GetDrop(n, _) => At(n)
    case _ => Null
  }

  /** The block that the thread alone is moving on or off the list. */
  function Charge(pc: PC): Ptr {
    match pc
    case AddFlag(n) => At(n)
    case LinkHead(n, _) => At(n)
    case LinkNext(n, _, _) => At(n)
    case LinkRefs(n, _, _) => At(n)
    case LinkSwing(n, _, _) => At(n)
    case LinkUndo(n, _, _) => At(n)
    case GetCheck(n) => At(n)
    case GetKeep(n) => At(n)
    case _ => Null
  }

  /** What a thread in charge is doing: about to raise the flag, preparing to link the block (flag up,
      count zero), or standing in for the list (whose own reference is counted). */
  datatype Role = Raising | Preparing | Standing

  function RoleOf(pc: PC): Role
    requires Charge(pc).At?
  {
    if pc.AddFlag? then Raising
    else if pc.LinkHead? || pc.LinkNext? || pc.LinkRefs? then Preparing
    else Standing
  }

  function HoldWeight(n: Node): PC -> nat {
    pc => if Held(pc) == At(n) then 1 else 0
  }

  function Holders(pcs: seq<PC>, n: Node): nat {
    Sum(pcs, HoldWeight(n))
  }

  /** Where a block is: not yet given out of the initial pool, with a caller, on the list, in the hands
      of thread `i` on its way on or off the list, or flagged and waiting for its last holder. */
  datatype Place = Pooled | Owned | Linked | InHand(i: nat) | Waiting

  /** The list of blocks from `p` along `next` is exactly `list`, and ends. */
  ghost predicate Chain(p: Ptr, next: seq<Ptr>, list: seq<Node>)
    decreases |list|
  {
    if list == [] then p == Null
    else p == At(list[0]) && list[0] < |next| && Chain(next[list[0]], next, list[1..])
  }

  ghost predicate Distinct(list: seq<Node>) {
    forall a, b :: 0 <= a < b < |list| ==> list[a] != list[b]
  }

  /** What a block's reference word holds beside the references of threads. */
  function Extra(place: Place, pcs: seq<PC>): nat {
    match place
    case Pooled => 0
    case Owned => 0
    case Linked => 1
    case Waiting => FLAG
    case InHand(i) =>
      if i < |pcs| && Charge(pcs[i]).At? then
        match RoleOf(pcs[i])
        case Raising => 0
        case Preparing => FLAG
        case Standing => 1
      else 0
  }

  /** Blocks that nobody holds: those never given out, and those being prepared for the list. */
  predicate Unheld(place: Place, pcs: seq<PC>) {
    place.Pooled? ||
    (place.InHand? && place.i < |pcs| && Charge(pcs[place.i]).At? && RoleOf(pcs[place.i]).Preparing?)
  }

  ghost predicate NodeOk(s: State, place: seq<Place>, n: Node)
    requires n < |s.refs| == |place|
  {
    && s.refs[n] == Holders(s.pcs, n) + Extra(place[n], s.pcs)
    && (Unheld(place[n], s.pcs) ==> Holders(s.pcs, n) == 0)
    && (place[n].Waiting? ==> Holders(s.pcs, n) >= 1)
    && (place[n].InHand? ==> place[n].i < |s.pcs| && Charge(s.pcs[place[n].i]) == At(n))
  }

  /** What a thread has loaded and still relies on. */
  predicate LocalOk(s: State, pc: PC) {
    match pc
    case GetHold(_, w) => w % FLAG != 0
    case GetSwing(n, p) => n < |s.next| && s.next[n] == p
    case LinkRefs(n, p, _) => n < |s.next| && s.next[n] == p
    case LinkSwing(n, p, _) => n < |s.next| && s.next[n] == p
    case _ => true
  }

  ghost predicate ThreadOk(s: State, place: seq<Place>, i: nat)
    requires i < |s.pcs| && |s.next| == |s.refs| == |place|
  {
    && (match Charge(s.pcs[i])
        case Null => true
        case At(n) => n < |place| && place[n] == InHand(i))
    && LocalOk(s, s.pcs[i])
  }

  ghost predicate PlacesOk(s: State, list: seq<Node>, place: seq<Place>) {
    && |place| == |s.refs|
    && (forall n :: 0 <= n < |place| ==> (place[n].Pooled? <==> s.poolIndex <= n < s.poolSize))
    && (forall n :: 0 <= n < |place| ==> (place[n].Owned? <==> n in s.owned))
    && (forall n :: 0 <= n < |place| ==> (place[n].Linked? <==> n in list))
    && (forall n :: n in s.owned ==> n < |place|)
    && (forall n :: n in list ==> n < |place|)
    && Distinct(list)
    && Chain(s.head, s.next, list)
  }

  ghost predicate InvWith(s: State, list: seq<Node>, place: seq<Place>) {
    && Shape(s)
    && |s.pcs| < FLAG - 1
    && PlacesOk(s, list, place)
    && (forall n :: 0 <= n < |place| ==> NodeOk(s, place, n))
    && (forall i :: 0 <= i < |s.pcs| ==> ThreadOk(s, place, i))
  }

  /** The list contents and the places are functions of the history; the program has neither. */
  ghost predicate Inv(s: State) {
    exists list, place :: InvWith(s, list, place)
  }

  // ---------------------------------------------------------------------------------------------
  // Helper lemmas
  // ---------------------------------------------------------------------------------------------

  lemma HoldersUpdate(pcs: seq<PC>, i: nat, pc: PC, n: Node)
    requires i < |pcs|
    ensures Holders(pcs[i := pc], n) ==
            Holders(pcs, n) - (if Held(pcs[i]) == At(n) then 1 else 0) + (if Held(pc) == At(n) then 1 else 0)
  {
    SumUpdate(pcs, HoldWeight(n), i, pc);
  }

  lemma HoldersBounds(pcs: seq<PC>, i: nat, n: Node)
    requires i < |pcs|
    ensures Holders(pcs, n) <= |pcs|
    ensures Held(pcs[i]) == At(n) ==> 1 <= Holders(pcs, n)
    ensures Held(pcs[i]) != At(n) ==> Holders(pcs, n) < |pcs|
  {
    SumAtLeast(pcs, HoldWeight(n), i);
    SumAtMost(pcs, HoldWeight(n));
    if Held(pcs[i]) != At(n) {
      var qs := pcs[i := GetCheck(n)];
      HoldersUpdate(pcs, i, GetCheck(n), n);
      SumAtMost(qs, HoldWeight(n));
    }
  }

  lemma {:induction false} ChainFrame(p: Ptr, next: seq<Ptr>, next': seq<Ptr>, list: seq<Node>)
    requires Chain(p, next, list)
    requires forall n :: n in list ==> n < |next'| && (n < |next| ==> next'[n] == next[n])
    ensures Chain(p, next', list)
    decreases |list|
  {
    if list != [] {
      assert list[0] in list;
      forall n | n in list[1..] ensures n in list {}
      ChainFrame(next[list[0]], next, next', list[1..]);
    }
  }

  // ---------------------------------------------------------------------------------------------
  // Two shapes of step
  // ---------------------------------------------------------------------------------------------

  /** A step that only moves thread `i`, keeping its references and its role. */
  lemma MoveKeeps(s: State, list: seq<Node>, place: seq<Place>, i: nat, pc: PC)
    requires InvWith(s, list, place)
    requires i < |s.pcs| && PcInRange(s, pc)
    requires Held(pc) == Held(s.pcs[i]) && Charge(pc) == Charge(s.pcs[i])
    requires Charge(pc).At? ==> RoleOf(pc) == RoleOf(s.pcs[i])
    requires ThreadOk(Goto(s, i, pc), place, i)
    ensures InvWith(Goto(s, i, pc), list, place)
  {
    var t := Goto(s, i, pc);
    forall n | 0 <= n < |place| ensures NodeOk(t, place, n) {
      HoldersUpdate(s.pcs, i, pc, n);
      assert NodeOk(s, place, n);
    }
    forall j | 0 <= j < |t.pcs| ensures ThreadOk(t, place, j) {
      if j != i { assert ThreadOk(s, place, j); }
    }
  }

  /** The thread is involved with no block other than `m`. */
  predicate Concerns(pc: PC, m: Node) {
    (Held(pc).At? ==> Held(pc).node == m) && (Charge(pc).At? ==> Charge(pc).node == m)
  }

  /** `t` differs from `s` only in thread `i` and block `m`. */
  ghost predicate Touches(s: State, t: State, place: seq<Place>, place': seq<Place>, i: nat, m: Node) {
    && Shape(s) && Shape(t)
    && |place| == |place'| == |s.refs| == |t.refs|
    && m < |s.refs| && i < |s.pcs| && |t.pcs| == |s.pcs|
    && t.pcs == s.pcs[i := t.pcs[i]]
    && (forall n :: 0 <= n < |s.refs| && n != m ==>
          t.refs[n] == s.refs[n] && t.next[n] == s.next[n] && place'[n] == place[n])
    && Concerns(s.pcs[i], m) && Concerns(t.pcs[i], m)
  }

  lemma TouchKeeps(s: State, t: State, list: seq<Node>, place: seq<Place>, place': seq<Place>, i: nat, m: Node)
    requires InvWith(s, list, place)
    requires Touches(s, t, place, place', i, m)
    requires place'[m] == place[m] || (forall j :: place[m] == InHand(j) ==> j == i)
    requires t.next == s.next || (Holders(s.pcs, m) == 0 && place[m] == InHand(i))
    requires NodeOk(t, place', m)
    requires ThreadOk(t, place', i)
    ensures forall n :: 0 <= n < |place'| ==> NodeOk(t, place', n)
    ensures forall j :: 0 <= j < |t.pcs| ==> ThreadOk(t, place', j)
  {
    forall n | 0 <= n < |place'| && n != m ensures NodeOk(t, place', n) {
      HoldersUpdate(s.pcs, i, t.pcs[i], n);
      assert NodeOk(s, place, n);
    }
    forall j | 0 <= j < |t.pcs| && j != i ensures ThreadOk(t, place', j) {
      assert ThreadOk(s, place, j);
      HoldersBounds(s.pcs, j, m);
      assert t.pcs[j] == s.pcs[j];
    }
  }

  /** Thread `i` writes a new word for block `n`, which may change hands between threads on the way. */
  lemma CountKeeps(s: State, t: State, list: seq<Node>, place: seq<Place>, i: nat, n: Node, q: Place)
    requires InvWith(s, list, place)
    requires i < |s.pcs| == |t.pcs| && n < |s.refs| == |t.refs|
    requires t == Goto(SetRefs(s, n, t.refs[n]), i, t.pcs[i])
    requires PcInRange(s, t.pcs[i]) && LocalOk(s, t.pcs[i])
    requires Concerns(s.pcs[i], n) && Concerns(t.pcs[i], n)
    requires place[n] == q || ((place[n] == InHand(i) || place[n] == Waiting) && (q == InHand(i) || q == Waiting))
    requires NodeOk(t, place[n := q], n)
    requires Charge(t.pcs[i]).At? ==> q == InHand(i)
    ensures Inv(t)
  {
    TouchKeeps(s, t, list, place, place[n := q], i, n);
    assert InvWith(t, list, place[n := q]);
  }

  // ---------------------------------------------------------------------------------------------
  // Every step keeps the invariant
  // ---------------------------------------------------------------------------------------------

  lemma StartAddKeeps(s: State, list: seq<Node>, place: seq<Place>, i: nat, c: Choice)
    requires InvWith(s, list, place) && Enabled(s, i, c) && s.pcs[i].Idle? && c.Add?
    ensures Inv(After(s, i, c))
  {
    var t := After(s, i, c);
    var n := c.node;
    HoldersUpdate(s.pcs, i, t.pcs[i], n);
    assert NodeOk(s, place, n);
    TouchKeeps(s, t, list, place, place[n := InHand(i)], i, n);
    assert InvWith(t, list, place[n := InHand(i)]);
  }

  lemma PoolTakeKeeps(s: State, list: seq<Node>, place: seq<Place>, i: nat, c: Choice)
    requires InvWith(s, list, place) && Enabled(s, i, c) && s.pcs[i].PoolTake?
    ensures Inv(After(s, i, c))
  {
    var t := After(s, i, c);
    if s.poolIndex < s.poolSize {
      var n := s.poolIndex;
      var place' := place[n := Owned];
      HoldersUpdate(s.pcs, i, t.pcs[i], n);
      assert NodeOk(s, place, n);
      TouchKeeps(s, t, list, place, place', i, n);
      assert InvWith(t, list, place');
    } else {
      var u := Goto(s, i, GetHead);
      MoveKeeps(s, list, place, i, GetHead);
      forall n | 0 <= n < |place| ensures NodeOk(t, place, n) { assert NodeOk(u, place, n); }
      forall j | 0 <= j < |t.pcs| ensures ThreadOk(t, place, j) { assert ThreadOk(u, place, j); }
      assert InvWith(t, list, place);
    }
  }

  lemma HoldKeeps(s: State, list: seq<Node>, place: seq<Place>, i: nat, c: Choice)
    requires InvWith(s, list, place) && Enabled(s, i, c) && s.pcs[i].GetHold?
    ensures Inv(After(s, i, c))
  {
    var t := After(s, i, c);
    var n := s.pcs[i].node;
    assert ThreadOk(s, place, i);
    if s.refs[n] == s.pcs[i].refs {
      HoldersUpdate(s.pcs, i, t.pcs[i], n);
      HoldersBounds(s.pcs, i, n);
      assert NodeOk(s, place, n);
      CountKeeps(s, t, list, place, i, n, place[n]);
    } else {
      MoveKeeps(s, list, place, i, GetHead);
    }
  }

  /** A successful head exchange in `try_get` takes exactly the first block and leaves exactly the rest. */
  lemma SwingKeeps(s: State, list: seq<Node>, place: seq<Place>, i: nat, c: Choice)
    requires InvWith(s, list, place) && Enabled(s, i, c) && s.pcs[i].GetSwing?
    ensures s.head == At(s.pcs[i].node) ==>
              && list != [] && list[0] == s.pcs[i].node
              && InvWith(After(s, i, c), list[1..], place[list[0] := InHand(i)])
    ensures s.head != At(s.pcs[i].node) ==> InvWith(After(s, i, c), list, place)
  {
    var t := After(s, i, c);
    var n := s.pcs[i].node;
    assert ThreadOk(s, place, i);
    HoldersUpdate(s.pcs, i, t.pcs[i], n);
    assert NodeOk(s, place, n);
    if s.head == At(n) {
      var place' := place[n := InHand(i)];
      assert list[0] in list;
      TouchKeeps(s, t, list, place, place', i, n);
      forall m | 0 <= m < |place'| ensures place'[m].Linked? <==> m in list[1..] {
        assert m in list <==> m == list[0] || m in list[1..];
        if m in list[1..] {
          var k :| 0 <= k < |list[1..]| && list[1..][k] == m;
          assert list[k + 1] == m;
        }
      }
      forall m | m in list[1..] ensures m in list {}
      assert PlacesOk(t, list[1..], place');
    } else {
      MoveKeeps(s, list, place, i, t.pcs[i]);
    }
  }

  lemma KeepKeeps(s: State, list: seq<Node>, place: seq<Place>, i: nat, c: Choice)
    requires InvWith(s, list, place) && Enabled(s, i, c) && s.pcs[i].GetKeep?
    ensures Inv(After(s, i, c))
  {
    var t := After(s, i, c);
    var n := s.pcs[i].node;
    assert ThreadOk(s, place, i);
    assert RoleOf(s.pcs[i]) == Standing;
    HoldersUpdate(s.pcs, i, t.pcs[i], n);
    HoldersBounds(s.pcs, i, n);
    assert NodeOk(s, place, n);
    TouchKeeps(s, t, list, place, place[n := Owned], i, n);
    assert InvWith(t, list, place[n := Owned]);
  }

  lemma DropKeeps(s: State, list: seq<Node>, place: seq<Place>, i: nat, c: Choice)
    requires InvWith(s, list, place) && Enabled(s, i, c) && s.pcs[i].GetDrop?
    ensures Inv(After(s, i, c))
  {
    var t := After(s, i, c);
    var n := s.pcs[i].node;
    HoldersUpdate(s.pcs, i, t.pcs[i], n);
    HoldersBounds(s.pcs, i, n);
    assert NodeOk(s, place, n);
    if place[n].InHand? {
      assert ThreadOk(s, place, place[n].i);
      assert t.pcs[place[n].i] == s.pcs[place[n].i];
    }
    var q := if s.refs[n] == FLAG + 1 then InHand(i) else place[n];
    CountKeeps(s, t, list, place, i, n, q);
  }

  lemma AllocateKeeps(s: State, list: seq<Node>, place: seq<Place>, i: nat, c: Choice)
    requires InvWith(s, list, place) && Enabled(s, i, c) && s.pcs[i].Allocate?
    ensures Inv(After(s, i, c))
  {
    var t := After(s, i, c);
    var u := Goto(s, i, Idle);
    MoveKeeps(s, list, place, i, Idle);
    if c.Fail? {
      assert InvWith(t, list, place);
    } else {
      var place' := place + [Owned];
      var n := |s.refs|;
      assert forall j :: 0 <= j < |u.pcs| ==> PcInRange(u, u.pcs[j]);
      SumZero(t.pcs, HoldWeight(n));
      forall m | 0 <= m < |place'| ensures NodeOk(t, place', m) {
        if m < |place| { assert NodeOk(u, place, m); }
      }
      forall j | 0 <= j < |t.pcs| ensures ThreadOk(t, place', j) { assert ThreadOk(u, place, j); }
      ChainFrame(s.head, s.next, t.next, list);
      assert InvWith(t, list, place');
    }
  }

  lemma AddFlagKeeps(s: State, list: seq<Node>, place: seq<Place>, i: nat, c: Choice)
    requires InvWith(s, list, place) && Enabled(s, i, c) && s.pcs[i].AddFlag?
    ensures Inv(After(s, i, c))
  {
    var t := After(s, i, c);
    var n := s.pcs[i].node;
    HoldersUpdate(s.pcs, i, t.pcs[i], n);
    HoldersBounds(s.pcs, i, n);
    assert ThreadOk(s, place, i);
    assert RoleOf(s.pcs[i]) == Raising;
    assert NodeOk(s, place, n);
    if s.refs[n] == 0 {
      CountKeeps(s, t, list, place, i, n, InHand(i));
    } else {
      CountKeeps(s, t, list, place, i, n, Waiting);
    }
  }

  lemma LinkNextKeeps(s: State, list: seq<Node>, place: seq<Place>, i: nat, c: Choice)
    requires InvWith(s, list, place) && Enabled(s, i, c) && s.pcs[i].LinkNext?
    ensures Inv(After(s, i, c))
  {
    var t := After(s, i, c);
    var n := s.pcs[i].node;
    assert ThreadOk(s, place, i);
    HoldersUpdate(s.pcs, i, t.pcs[i], n);
    assert NodeOk(s, place, n);
    TouchKeeps(s, t, list, place, place, i, n);
    ChainFrame(s.head, s.next, t.next, list);
    assert InvWith(t, list, place);
  }

  lemma LinkRefsKeeps(s: State, list: seq<Node>, place: seq<Place>, i: nat, c: Choice)
    requires InvWith(s, list, place) && Enabled(s, i, c) && s.pcs[i].LinkRefs?
    ensures Inv(After(s, i, c))
  {
    var t := After(s, i, c);
    var n := s.pcs[i].node;
    assert ThreadOk(s, place, i);
    HoldersUpdate(s.pcs, i, t.pcs[i], n);
    assert NodeOk(s, place, n);
    CountKeeps(s, t, list, place, i, n, InHand(i));
  }

  /** A successful exchange in `add_knowing_refcount_is_zero` puts the block in front of the list. */
  lemma PushKeeps(s: State, list: seq<Node>, place: seq<Place>, i: nat, pc: PC)
    requires InvWith(s, list, place)
    requires i < |s.pcs| && s.pcs[i].LinkSwing? && s.head == s.pcs[i].head
    requires PcInRange(s, pc) && LocalOk(s, pc) && Held(pc) == Null && Charge(pc) == Null
    ensures Inv(Goto(s.(head := At(s.pcs[i].node)), i, pc))
  {
    var n := s.pcs[i].node;
    var t := Goto(s.(head := At(n)), i, pc);
    var place' := place[n := Linked];
    var list' := [n] + list;
    assert ThreadOk(s, place, i);
    HoldersUpdate(s.pcs, i, pc, n);
    assert NodeOk(s, place, n);
    TouchKeeps(s, t, list, place, place', i, n);
    assert list'[1..] == list;
    assert InvWith(t, list', place');
  }

  lemma LinkSwingKeeps(s: State, list: seq<Node>, place: seq<Place>, i: nat, c: Choice)
    requires InvWith(s, list, place) && Enabled(s, i, c) && s.pcs[i].LinkSwing?
    ensures Inv(After(s, i, c))
  {
    var t := After(s, i, c);
    assert ThreadOk(s, place, i);
    if s.head == s.pcs[i].head {
      PushKeeps(s, list, place, i, t.pcs[i]);
    } else {
      MoveKeeps(s, list, place, i, t.pcs[i]);
    }
  }

  lemma LinkUndoKeeps(s: State, list: seq<Node>, place: seq<Place>, i: nat, c: Choice)
    requires InvWith(s, list, place) && Enabled(s, i, c) && s.pcs[i].LinkUndo?
    ensures Inv(After(s, i, c))
  {
    var t := After(s, i, c);
    var n := s.pcs[i].node;
    assert ThreadOk(s, place, i);
    assert RoleOf(s.pcs[i]) == Standing;
    HoldersUpdate(s.pcs, i, t.pcs[i], n);
    HoldersBounds(s.pcs, i, n);
    assert NodeOk(s, place, n);
    if s.refs[n] == 1 {
      CountKeeps(s, t, list, place, i, n, InHand(i));
    } else {
      CountKeeps(s, t, list, place, i, n, Waiting);
    }
  }

  /** The remaining steps load shared memory, or do nothing, without touching a count. */
  lemma LoadKeeps(s: State, list: seq<Node>, place: seq<Place>, i: nat, c: Choice)
    requires InvWith(s, list, place) && Enabled(s, i, c)
    requires (s.pcs[i].Idle? && c.Requisition?) || s.pcs[i].PoolLoad? || s.pcs[i].GetHead? || s.pcs[i].GetRefs?
             || s.pcs[i].GetNext? || s.pcs[i].GetCheck? || s.pcs[i].LinkHead?
    ensures Inv(After(s, i, c))
  {
    assert ThreadOk(s, place, i);
    MoveKeeps(s, list, place, i, After(s, i, c).pcs[i]);
  }

  lemma StepKeeps(s: State, i: nat, c: Choice)
    requires Inv(s) && Enabled(s, i, c)
    ensures Inv(After(s, i, c))
  {
    var list: seq<Node>, place: seq<Place> :| InvWith(s, list, place);
    match s.pcs[i]
    case Idle => if c.Add? { StartAddKeeps(s, list, place, i, c); } else { LoadKeeps(s, list, place, i, c); }
    case PoolTake => PoolTakeKeeps(s, list, place, i, c);
    case GetHold(_, _) => HoldKeeps(s, list, place, i, c);
    case GetSwing(_, _) => SwingKeeps(s, list, place, i, c);
    case GetKeep(_) => KeepKeeps(s, list, place, i, c);
    case GetDrop(_, _) => DropKeeps(s, list, place, i, c);
    case Allocate => AllocateKeeps(s, list, place, i, c);
    case AddFlag(_) => AddFlagKeeps(s, list, place, i, c);
    case LinkNext(_, _, _) => LinkNextKeeps(s, list, place, i, c);
    case LinkRefs(_, _, _) => LinkRefsKeeps(s, list, place, i, c);
    case LinkSwing(_, _, _) => LinkSwingKeeps(s, list, place, i, c);
    case LinkUndo(_, _, _) => LinkUndoKeeps(s, list, place, i, c);
    case _ => LoadKeeps(s, list, place, i, c);
  }

  // ---------------------------------------------------------------------------------------------
  // What holds in every reachable state
  // ---------------------------------------------------------------------------------------------

  lemma InitHolds(s: State)
    requires Init(s)
    ensures Inv(s)
  {
    var place := seq(|s.refs|, _ => Pooled);
    forall n | 0 <= n < |place| ensures NodeOk(s, place, n) {
      SumZero(s.pcs, HoldWeight(n));
    }
    assert InvWith(s, [], place);
  }

  lemma {:induction false} RunHolds(r: seq<State>, acts: seq<Action>, k: nat)
    requires Run(r, acts) && k < |r|
    ensures Inv(r[k])
  {
    if k == 0 {
      InitHolds(r[0]);
    } else {
      RunHolds(r, acts, k - 1);
      StepKeeps(r[k - 1], acts[k - 1].i, acts[k - 1].c);
    }
  }

  ghost predicate InPool(s: State, n: Node) {
    s.poolIndex <= n < s.poolSize
  }

  ghost predicate OnList(s: State, n: Node) {
    exists list :: Chain(s.head, s.next, list) && n in list
  }

  ghost predicate Handled(s: State, n: Node) {
    exists i :: 0 <= i < |s.pcs| && Charge(s.pcs[i]) == At(n)
  }

  /** Flagged for the list while some thread still holds a reference that it must give back. */
  ghost predicate Waits(s: State, n: Node)
    requires n < |s.refs|
  {
    s.refs[n] > FLAG && exists i :: 0 <= i < |s.pcs| && Held(s.pcs[i]) == At(n)
  }

  ghost function Tally(s: State, n: Node): nat
    requires n < |s.refs|
  {
    (if InPool(s, n) then 1 else 0) + (if n in s.owned then 1 else 0) + (if OnList(s, n) then 1 else 0)
    + (if Handled(s, n) then 1 else 0) + (if Waits(s, n) then 1 else 0)
  }

  lemma {:induction false} ChainUnique(p: Ptr, next: seq<Ptr>, a: seq<Node>, b: seq<Node>)
    requires Chain(p, next, a) && Chain(p, next, b)
    ensures a == b
    decreases |a|
  {
    if a != [] && b != [] {
      ChainUnique(next[a[0]], next, a[1..], b[1..]);
      assert a == [a[0]] + a[1..] && b == [b[0]] + b[1..];
    }
  }

  lemma OnListIff(s: State, list: seq<Node>, n: Node)
    requires Chain(s.head, s.next, list)
    ensures OnList(s, n) <==> n in list
  {
    if OnList(s, n) {
      var other :| Chain(s.head, s.next, other) && n in other;
      ChainUnique(s.head, s.next, list, other);
    }
  }

  lemma {:induction false} HolderExists(pcs: seq<PC>, n: Node) returns (i: nat)
    requires Holders(pcs, n) > 0
    ensures i < |pcs| && Held(pcs[i]) == At(n)
  {
    if Held(pcs[0]) == At(n) {
      i := 0;
    } else {
      i := HolderExists(pcs[1..], n);
      i := i + 1;
    }
  }

  /** Nothing is lost and nothing is in two places: a block is in the pool, or owned by a caller, or on
      the list, or in the charge of one thread, or waiting for a holder - and in exactly one of these. */
  lemma ExactlyOnePlace(s: State, n: Node)
    requires Inv(s) && n < |s.refs|
    ensures Tally(s, n) == 1
    ensures forall i, j :: 0 <= i < j < |s.pcs| ==> Charge(s.pcs[i]) != At(n) || Charge(s.pcs[j]) != At(n)
  {
    var list: seq<Node>, place: seq<Place> :| InvWith(s, list, place);
    OnListIff(s, list, n);
    assert NodeOk(s, place, n);
    forall i | 0 <= i < |s.pcs| && Charge(s.pcs[i]) == At(n) ensures place[n] == InHand(i) {
      assert ThreadOk(s, place, i);
    }
    if place[n].Waiting? {
      var i := HolderExists(s.pcs, n);
    }
    if |s.pcs| > 0 {
      HoldersBounds(s.pcs, 0, n);
    }
  }

  /** The count of a block is the references threads hold, plus one while the list (or the thread
      standing in for it) refers to it; the flag is up exactly while the block waits or is prepared. */
  lemma CountIsReferences(s: State, n: Node)
    requires Inv(s) && n < |s.refs|
    ensures s.refs[n] < WORD
    ensures s.refs[n] % FLAG == Holders(s.pcs, n)
              + (if OnList(s, n) || exists i :: 0 <= i < |s.pcs| && Charge(s.pcs[i]) == At(n) && RoleOf(s.pcs[i]) == Standing then 1 else 0)
    ensures s.refs[n] >= FLAG <==>
              Waits(s, n) || exists i :: 0 <= i < |s.pcs| && Charge(s.pcs[i]) == At(n) && RoleOf(s.pcs[i]) == Preparing
  {
    var list: seq<Node>, place: seq<Place> :| InvWith(s, list, place);
    OnListIff(s, list, n);
    assert NodeOk(s, place, n);
    forall i | 0 <= i < |s.pcs| && Charge(s.pcs[i]) == At(n) ensures place[n] == InHand(i) {
      assert ThreadOk(s, place, i);
    }
    if |s.pcs| > 0 {
      HoldersBounds(s.pcs, 0, n);
    }
    if Holders(s.pcs, n) > 0 {
      var i := HolderExists(s.pcs, n);
    }
  }

  /** No ABA: when the exchange in `try_get` succeeds, the `next` it installs is the block's current
      one, so the list loses its first block and nothing else. */
  lemma NoAba(s: State, i: nat, c: Choice)
    requires Inv(s) && Enabled(s, i, c) && s.pcs[i].GetSwing? && s.head == At(s.pcs[i].node)
    ensures var n := s.pcs[i].node;
            && After(s, i, c).head == s.next[n]
            && (exists rest :: Chain(s.head, s.next, [n] + rest) && Distinct([n] + rest)
                  && Chain(After(s, i, c).head, After(s, i, c).next, rest))
  {
    var list: seq<Node>, place: seq<Place> :| InvWith(s, list, place);
    SwingKeeps(s, list, place, i, c);
    assert ThreadOk(s, place, i);
    assert [list[0]] + list[1..] == list;
  }

  /** The assertion after that exchange: a block just taken off the list does not carry the flag. */
  lemma TakenIsNotFlagged(s: State, i: nat)
    requires Inv(s) && i < |s.pcs| && s.pcs[i].GetCheck?
    ensures s.pcs[i].node < |s.refs| && s.refs[s.pcs[i].node] < FLAG
  {
    var list: seq<Node>, place: seq<Place> :| InvWith(s, list, place);
    assert ThreadOk(s, place, i);
    assert PcInRange(s, s.pcs[i]);
    assert RoleOf(s.pcs[i]) == Standing;
    assert NodeOk(s, place, s.pcs[i].node);
    HoldersBounds(s.pcs, i, s.pcs[i].node);
  }

  /** A block's `next` is written only while no thread holds a reference to it, no other thread is in
      charge of it, no caller owns it and it is not on the list. */
  lemma RelinkedAlone(s: State, i: nat)
    requires Inv(s) && i < |s.pcs| && s.pcs[i].LinkNext?
    ensures var n := s.pcs[i].node;
            && n !in s.owned && !OnList(s, n)
            && (forall j :: 0 <= j < |s.pcs| ==> Held(s.pcs[j]) != At(n))
            && (forall j :: 0 <= j < |s.pcs| && j != i ==> Charge(s.pcs[j]) != At(n))
  {
    var list: seq<Node>, place: seq<Place> :| InvWith(s, list, place);
    var n := s.pcs[i].node;
    assert ThreadOk(s, place, i);
    assert PcInRange(s, s.pcs[i]);
    assert RoleOf(s.pcs[i]) == Preparing;
    assert NodeOk(s, place, n);
    OnListIff(s, list, n);
    forall j | 0 <= j < |s.pcs| ensures Held(s.pcs[j]) != At(n) && (j != i ==> Charge(s.pcs[j]) != At(n)) {
      HoldersBounds(s.pcs, j, n);
      assert ThreadOk(s, place, j);
    }
  }

  /** A block returned to a caller belonged to no caller before. */
  lemma ReturnedWasFree(s: State, i: nat, c: Choice)
    requires Inv(s) && Enabled(s, i, c) && Returned(s, i, c).At?
    ensures Returned(s, i, c).node !in s.owned && !OnList(s, Returned(s, i, c).node)
    ensures After(s, i, c).owned == s.owned + {Returned(s, i, c).node}
  {
    var list: seq<Node>, place: seq<Place> :| InvWith(s, list, place);
    var n := Returned(s, i, c).node;
    OnListIff(s, list, n);
    if s.pcs[i].GetKeep? {
      assert ThreadOk(s, place, i);
      assert RoleOf(s.pcs[i]) == Standing;
    }
  }

  lemma {:induction false} OwnedUntilGiven(r: seq<State>, acts: seq<Action>, a: nat, b: nat, n: Node)
    requires Run(r, acts) && a <= b < |r| && n in r[a].owned
    requires forall k :: a <= k < b ==> Given(r[k], acts[k].i, acts[k].c) != At(n)
    ensures n in r[b].owned
    decreases b - a
  {
    if a < b {
      assert n in r[a + 1].owned;
      OwnedUntilGiven(r, acts, a + 1, b, n);
    }
  }

  /** No block is given to two owners: between two steps of a run that return the same block, whatever
      the threads involved, its owner gave it up with `add`. */
  lemma NeverTwoOwners(r: seq<State>, acts: seq<Action>, a: nat, b: nat, n: Node)
    requires Run(r, acts) && a < b < |acts|
    requires Returned(r[a], acts[a].i, acts[a].c) == At(n)
    requires Returned(r[b], acts[b].i, acts[b].c) == At(n)
    ensures exists k :: a < k < b && Given(r[k], acts[k].i, acts[k].c) == At(n)
  {
    RunHolds(r, acts, a);
    RunHolds(r, acts, b);
    ReturnedWasFree(r[a], acts[a].i, acts[a].c);
    ReturnedWasFree(r[b], acts[b].i, acts[b].c);
    if forall k :: a + 1 <= k < b ==> Given(r[k], acts[k].i, acts[k].c) != At(n) {
      OwnedUntilGiven(r, acts, a + 1, b, n);
    }
  }

  /** When every thread is idle, the list holds each block that is neither owned nor still in the pool,
      once, with count one; owned blocks have count zero. */
  lemma QuiescentListIsTheFreeBlocks(s: State)
    requires Inv(s) && forall i :: 0 <= i < |s.pcs| ==> s.pcs[i].Idle?
    ensures exists list :: Chain(s.head, s.next, list) && Distinct(list)
              && (forall n: nat :: n in list <==> n < |s.refs| && n !in s.owned && !InPool(s, n))
    ensures forall n :: 0 <= n < |s.refs| ==> s.refs[n] == (if n in s.owned || InPool(s, n) then 0 else 1)
  {
    var list: seq<Node>, place: seq<Place> :| InvWith(s, list, place);
    forall n | 0 <= n < |s.refs|
      ensures (place[n].Linked? || place[n].Owned? || place[n].Pooled?) && Holders(s.pcs, n) == 0
    {
      SumZero(s.pcs, HoldWeight(n));
      assert NodeOk(s, place, n);
    }
    forall n | 0 <= n < |s.refs|
      ensures s.refs[n] == (if n in s.owned || InPool(s, n) then 0 else 1)
    {
      assert NodeOk(s, place, n);
    }
  }
}
