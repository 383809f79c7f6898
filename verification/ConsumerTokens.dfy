/** Consumer tokens: where a token is placed among the producers, how it rotates, and the circular walk that
    looks for a producer with items.  Run sequentially, on a list of producers that does not change meanwhile. */
module ConsumerTokens {
  import opened Pointers
  import opened Modular

  const WORD: nat := 0x1_0000_0000

  // ---------------------------------------------------------------------------------------------
  // The list of producers
  // ---------------------------------------------------------------------------------------------

  /** `list` are the producers from the tail of the list on, linked one to the next. */
  ghost predicate ListOk(list: seq<Node>, next: map<Node, Ptr>, tail: Ptr) {
    && (tail == if list == [] then Null else At(list[0]))
    && (forall p, q :: 0 <= p < q < |list| ==> list[p] != list[q])
    && (forall p :: 0 <= p < |list| ==> LeadsOn(list, next, p))
  }

  ghost predicate LeadsOn(list: seq<Node>, next: map<Node, Ptr>, p: nat)
    requires p < |list|
  {
    list[p] in next && next[list[p]] == if p + 1 < |list| then At(list[p + 1]) else Null
  }

  /** Going round: behind the last producer comes the tail of the list again. */
  lemma RoundTheList(list: seq<Node>, next: map<Node, Ptr>, tail: Ptr, x: int)
    requires ListOk(list, next, tail) && list != []
    ensures var n := list[Turn(x, |list|)];
            && n in next
            && (next[n].At? ==> next[n] == At(list[Turn(x + 1, |list|)]))
            && (next[n].Null? ==> tail == At(list[Turn(x + 1, |list|)]))
  {
    var size := |list|;
    assert LeadsOn(list, next, Turn(x, size));
    TurnAgain(x, 1, size);
    if Turn(x, size) + 1 == size { TurnShift(size, size); }
  }

  /** The producer `j` places on from position `c`, round the list. */
  ghost function Nth(list: seq<Node>, c: nat, j: nat): Node
    requires list != []
  {
    list[Turn(c + j, |list|)]
  }

  // ---------------------------------------------------------------------------------------------
  // Places
  // ---------------------------------------------------------------------------------------------

  /** The position from which a token that has seen `last` moves on when the global offset is `offset`. */
  ghost function Place(n: nat, start: int, last: nat, offset: nat): (p: nat)
    requires n > 0
    ensures p < n
  {
    Turn(start + (offset - last) % WORD, n)
  }

  /** Where a new token starts: offsets count from the far end of the list. */
  ghost function FirstPosition(n: nat, initialOffset: nat): int
    requires n > 0
  {
    n - 1 - Turn(initialOffset, n)
  }

  /** It is as far from the tail as the program counts. */
  lemma FirstOffset(n: nat, initialOffset: nat)
    requires n > 0
    ensures FirstPosition(n, initialOffset) == n - 1 - initialOffset % n
    ensures 0 <= FirstPosition(n, initialOffset) < n
  {
    TurnIsMod(initialOffset, n);
  }

  /** Moving on by whole rounds makes no difference. */
  lemma SkipRounds(start: int, d: nat, n: nat)
    requires n > 0
    ensures Turn(start + d % n, n) == Turn(start + d, n)
  {
    TurnIsMod(d, n);
    TurnAgain(d, start, n);
  }

  /** Tokens that see the same global offset for the first time are on the same producer exactly when their
      initial offsets agree modulo the number of producers: otherwise they are spread over different ones. */
  lemma FirstPlacesDiffer(n: nat, i: nat, j: nat, last: nat, offset: nat)
    requires n > 0
    ensures Place(n, FirstPosition(n, i), last, offset) == Place(n, FirstPosition(n, j), last, offset)
      <==> i % n == j % n
  {
    TurnIsMod(i, n);
    TurnIsMod(j, n);
    SameTurn(n, FirstPosition(n, i), FirstPosition(n, j), (offset - last) % WORD);
  }

  /** A rotation moves all tokens alike: different places stay different. */
  lemma RotationKeepsApart(n: nat, p: nat, q: nat, last: nat, offset: nat)
    requires p < n && q < n
    ensures Place(n, p, last, offset) == Place(n, q, last, offset) <==> p == q
  {
    SameTurn(n, p, q, (offset - last) % WORD);
  }

  /** A token that has missed no rotation stays where it is, and each one more moves it on by one producer, round the
      list; only if the global offset comes round to the one it has seen, does it take that for none. */
  lemma EachRotationMovesOn(n: nat, start: nat, last: nat, offset: nat)
    requires start < n && last < WORD && offset < WORD
    ensures Place(n, start, last, last) == start
    ensures var next := (offset + 1) % WORD;
            Place(n, start, last, next) == if next == last then start else (Place(n, start, last, offset) + 1) % n
  {
    MissedRotations(last, offset);
    OneProducerOn(n, start, (offset - last) % WORD);
    StandsStill(n, start);
  }

  /** How many rotations a token takes itself to have missed, before and after one more. */
  lemma MissedRotations(last: nat, offset: nat)
    requires last < WORD && offset < WORD
    ensures var next := (offset + 1) % WORD;
            (next - last) % WORD == if next == last then 0 else (offset - last) % WORD + 1
  {
  }

  lemma OneProducerOn(n: nat, start: int, d: int)
    requires n > 0
    ensures Turn(start + (d + 1), n) == (Turn(start + d, n) + 1) % n
  {
    TurnStep(start + d, 1, n);
    assert start + d + 1 == start + (d + 1);
  }

  lemma StandsStill(n: nat, start: nat)
    requires start < n
    ensures Turn(start + 0, n) == start
  {
    TurnIsMod(start, n);
    ModSmall(start, n);
  }

  /** A new token's initial offset counts the producers from its first place on to the last one of the list, round it. */
  lemma FirstPlaceCountsBack(n: nat, initialOffset: nat)
    requires n > 0
    ensures (FirstPosition(n, initialOffset) + initialOffset) % n == n - 1
  {
    FirstOffset(n, initialOffset);
    ModInner(initialOffset, n - 1 - initialOffset % n, n);
    ModSmall(n - 1, n);
  }

  lemma SameTurn(n: nat, p: nat, q: nat, d: int)
    requires p < n && q < n
    ensures Turn(p + d, n) == Turn(q + d, n) <==> p == q
  {
    if p < q { TurnDistinct(p + d, q + d, n); }
    if q < p { TurnDistinct(q + d, p + d, n); }
  }

  class Token {
    var initialOffset: nat
    var lastKnownGlobalOffset: nat
    var itemsConsumedFromCurrent: nat
    var currentProducer: Ptr
    var desiredProducer: Ptr
  }

  /** The queue as a consumer with a token sees it; `items` are the contents of the producers' sub-queues. */
  class Queue<T> {
    const quota: nat
    var producerListTail: Ptr
    var producerCount: nat
    var next: map<Node, Ptr>
    var items: map<Node, seq<T>>
    var globalOffset: nat

    ghost predicate Valid(list: seq<Node>)
      reads this
    {
      && ListOk(list, next, producerListTail) && producerCount == |list|
      && (forall n :: n in list ==> n in items)
    }

    /** A token is either new or on some producer, `at` places from the tail. */
    ghost predicate Placed(list: seq<Node>, token: Token, at: nat)
      reads token
    {
      if token.desiredProducer.Null? then token.currentProducer.Null?
      else at < |list| && token.desiredProducer == At(list[at]) && token.currentProducer.At? && token.currentProducer.node in list
    }

    /** The next producer, round the list. */
    method Next(n: Node, ghost list: seq<Node>, ghost x: int) returns (m: Node)
      requires Valid(list) && list != [] && n == list[Turn(x, |list|)]
      ensures m == list[Turn(x + 1, |list|)]
    {
      RoundTheList(list, next, producerListTail, x);
      m := if next[n].At? then next[n].node else producerListTail.node;
    }

    method Walk(n: Node, steps: nat, ghost list: seq<Node>, ghost x: int) returns (m: Node)
      requires Valid(list) && list != [] && n == list[Turn(x, |list|)]
      ensures m == list[Turn(x + steps, |list|)]
    {
      m := n;
      for i := 0 to steps
        invariant m == list[Turn(x + i, |list|)]
      {
        m := Next(m, list, x + i);
      }
    }

    /** The position rotations count from: the token's own, or where it starts. */
    ghost function StartOf(list: seq<Node>, token: Token, at: nat): int
      requires list != []
      reads token
    {
      if token.desiredProducer.Null? then FirstPosition(|list|, token.initialOffset) else at
    }

    /** A new token is placed, and a token that has missed rotations moves on, by one producer for each. */
    method UpdateAfterRotation(token: Token, ghost list: seq<Node>, ghost at: nat) returns (ok: bool)
      requires Valid(list) && Placed(list, token, at)
      modifies token
      ensures ok <==> list != []
      ensures !ok ==> token.desiredProducer == Null == token.currentProducer
      ensures token.initialOffset == old(token.initialOffset)
      ensures ok ==>
                && token.desiredProducer == token.currentProducer
                     == At(list[Place(|list|, old(StartOf(list, token, at)), old(token.lastKnownGlobalOffset), globalOffset)])
                && token.lastKnownGlobalOffset == globalOffset && token.itemsConsumedFromCurrent == 0
    {
      if token.desiredProducer.Null? && producerListTail.Null? {
        return false;
      }
      ghost var n := |list|;
      ghost var start: int := StartOf(list, token, at);
      var desired;
      if token.desiredProducer.Null? {
        FirstOffset(n, token.initialOffset);
        var offset := producerCount - 1 - token.initialOffset % producerCount;
        desired := Walk(producerListTail.node, offset, list, 0);
      } else {
        desired := token.desiredProducer.node;
      }
      assert desired == list[Turn(start, n)];
      var delta := (globalOffset - token.lastKnownGlobalOffset) % WORD;
      SkipRounds(start, delta, n);
      if delta >= producerCount {
        delta := delta % producerCount;
      }
      desired := Walk(desired, delta, list, start);
      token.desiredProducer := At(desired);
      token.lastKnownGlobalOffset := globalOffset;
      token.currentProducer := token.desiredProducer;
      token.itemsConsumedFromCurrent := 0;
      return true;
    }

    /** A dequeue from one sub-queue, run alone: it fails exactly when the sub-queue is empty. */
    method Dequeue(n: Node) returns (r: Result<T>)
      requires n in items
      modifies this`items
      ensures r == if old(items)[n] == [] then Nothing else Got(old(items)[n][0])
      ensures items == if old(items)[n] == [] then old(items) else old(items)[n := old(items)[n][1..]]
    {
      if items[n] == [] {
        return Nothing;
      }
      r := Got(items[n][0]);
      items := items[n := items[n][1..]];
    }

    /** Tries the producers once round the list, from behind position `c` on, and stops there again. */
    method Circle(token: Token, ghost list: seq<Node>, ghost c: nat) returns (r: Result<T>, ghost k: nat)
      requires Valid(list) && c < |list| && token.currentProducer == At(list[c])
      modifies this`items, token`currentProducer, token`itemsConsumedFromCurrent
      ensures 1 <= k <= |list|
      ensures forall j :: 1 <= j < k ==> old(items)[Nth(list, c, j)] == []
      ensures r.Nothing? ==>
                k == |list| && items == old(items) && token.currentProducer == old(token.currentProducer)
      ensures r.Got? ==>
                var n := Nth(list, c, k);
                && k < |list| && token.currentProducer == At(n) && token.itemsConsumedFromCurrent == 1 && old(items)[n] != []
                && r == Got(old(items)[n][0]) && items == old(items)[n := old(items)[n][1..]]
    {
      var start := token.currentProducer.node;
      k := 1;
      var n := Next(start, list, c);
      while n != start
        invariant 1 <= k <= |list| && n == Nth(list, c, k)
        invariant forall j :: 1 <= j < k ==> old(items)[Nth(list, c, j)] == []
        invariant items == old(items) && token.currentProducer == old(token.currentProducer)
        decreases |list| - k
      {
        if k == |list| { TurnShift(c + k, k); }
        assert k < |list|;
        r := Dequeue(n);
        if r.Got? {
          token.currentProducer := At(n);
          token.itemsConsumedFromCurrent := 1;
          return;
        }
        n := Next(n, list, c + k);
        k := k + 1;
      }
      if k < |list| { TurnDistinct(c, c + k, |list|); }
      return Nothing, k;
    }

    /** The token is new, or has missed rotations. */
    predicate MustMove(token: Token)
      reads this, token
    {
      token.desiredProducer.Null? || token.lastKnownGlobalOffset != globalOffset
    }

    /** The token looks for items at position `c` first: where rotations take it, or else where it is. */
    ghost predicate LooksFirst(list: seq<Node>, token: Token, at: nat, c: nat)
      requires list != []
      reads this, token
    {
      && c < |list|
      && if MustMove(token) then c == Place(|list|, StartOf(list, token, at), token.lastKnownGlobalOffset, globalOffset)
         else token.currentProducer == At(list[c])
    }

    /** A token that has missed rotations takes part in them; it ends up where it is to look first. */
    method Move(token: Token, ghost list: seq<Node>, ghost at: nat) returns (ok: bool, ghost place: nat, ghost c: nat)
      requires Valid(list) && Placed(list, token, at)
      modifies token
      ensures ok <==> list != []
      ensures Placed(list, token, place)
      ensures ok ==> token.currentProducer.At? && token.lastKnownGlobalOffset == globalOffset
      ensures ok ==> old(LooksFirst(list, token, at, c)) && c < |list| && token.currentProducer == At(list[c])
      ensures ok ==> token.itemsConsumedFromCurrent == if old(MustMove(token)) then 0 else old(token.itemsConsumedFromCurrent)
    {
      place, c := at, 0;
      if token.desiredProducer.Null? || token.lastKnownGlobalOffset != globalOffset {
        ok := UpdateAfterRotation(token, list, at);
        if ok {
          c := Place(|list|, old(StartOf(list, token, at)), old(token.lastKnownGlobalOffset), globalOffset);
          place := c;
        }
      } else {
        c :| 0 <= c < |list| && token.currentProducer == At(list[c]);
        ok := true;
      }
    }

    /** The token takes the first item of the first producer, in circular order from where it is to look first, that
        has one; it fails exactly when every sub-queue is empty.  It counts the items it took from one producer, and
        with the `quota`-th makes all tokens rotate. */
    method TryDequeue(token: Token, ghost list: seq<Node>, ghost at: nat)
      returns (r: Result<T>, ghost c: nat, ghost k: nat)
      requires Valid(list) && Placed(list, token, at)
      modifies this`items, this`globalOffset, token
      ensures Valid(list)
      ensures r.Nothing? <==> forall n :: n in list ==> old(items)[n] == []
      ensures r.Nothing? ==> items == old(items)
      ensures list != [] ==> old(LooksFirst(list, token, at, c)) && token.lastKnownGlobalOffset == old(globalOffset)
      ensures r.Got? ==>
                && list != [] && k < |list| && FirstWithItems(list, old(items), c, k)
                && token.currentProducer == At(Nth(list, c, k))
                && r == Got(old(items)[Nth(list, c, k)][0])
                && items == Removed(old(items), Nth(list, c, k))
      ensures r.Got? ==>
                var before := if old(MustMove(token)) then 0 else old(token.itemsConsumedFromCurrent);
                token.itemsConsumedFromCurrent == if k == 0 then before + 1 else 1
      ensures globalOffset == if r.Got? && k == 0 && token.itemsConsumedFromCurrent == quota
                              then (old(globalOffset) + 1) % WORD else old(globalOffset)
      ensures exists place: nat :: Placed(list, token, place)
    {
      var ok;
      ghost var place;
      ok, place, c := Move(token, list, at);
      k := 0;
      if !ok {
        assert Placed(list, token, place);
        return Nothing, c, k;
      }
      assert Nth(list, c, 0) == list[c];
      r := Dequeue(token.currentProducer.node);
      if r.Got? {
        token.itemsConsumedFromCurrent := token.itemsConsumedFromCurrent + 1;
        if token.itemsConsumedFromCurrent == quota {
          globalOffset := (globalOffset + 1) % WORD;
        }
        assert Placed(list, token, place);
        return;
      }
      r, k := Circle(token, list, c);
      assert Placed(list, token, place);
      if r.Got? {
        FirstFound(list, old(items), c, k);
      } else {
        AllTried(list, old(items), c);
      }
    }
  }

  datatype Result<T> = Got(item: T) | Nothing

  function Removed<T>(items: map<Node, seq<T>>, n: Node): map<Node, seq<T>>
    requires n in items && items[n] != []
  {
    items[n := items[n][1..]]
  }

  /** Counting from position `c`, the `k`-th producer is the first that has items. */
  ghost predicate FirstWithItems<T>(list: seq<Node>, items: map<Node, seq<T>>, c: nat, k: nat)
    requires list != []
  {
    && (forall n :: n in list ==> n in items)
    && items[Nth(list, c, k)] != []
    && forall j :: 0 <= j < k ==> items[Nth(list, c, j)] == []
  }

  lemma FirstFound<T>(list: seq<Node>, items: map<Node, seq<T>>, c: nat, k: nat)
    requires c < |list| && (forall n :: n in list ==> n in items) && items[list[c]] == [] && k > 0
    requires forall j :: 1 <= j < k ==> items[Nth(list, c, j)] == []
    requires items[Nth(list, c, k)] != []
    ensures FirstWithItems(list, items, c, k)
  {
    assert Nth(list, c, 0) == list[c];
  }

  /** A full round misses nobody. */
  lemma AllTried<T>(list: seq<Node>, items: map<Node, seq<T>>, c: nat)
    requires c < |list| && (forall n :: n in list ==> n in items) && items[list[c]] == []
    requires forall j :: 1 <= j < |list| ==> items[Nth(list, c, j)] == []
    ensures forall n :: n in list ==> items[n] == []
  {
    forall p | 0 <= p < |list| ensures items[list[p]] == [] {
      var j := if p >= c then p - c else p - c + |list|;
      if p < c { TurnShift(p + |list|, |list|); }
      assert Nth(list, c, j) == list[p];
    }
  }
}
