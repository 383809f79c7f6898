/** The Internet checksum (RFC 1071), and the echo request whose checksum is computed in two passes. */
module Checksum {

  type Byte = x: int | 0 <= x < 0x100
  type Word = x: int | 0 <= x < 0x1_0000
  type Int32 = x: int | -0x8000_0000 <= x < 0x8000_0000
  type Word32 = x: int | 0 <= x < 0x1_0000_0000

  const ICMP_ECHO: Byte := 8
  const ICMP_TOTAL_LEN: nat := 64

  /** How the host stores a 16-bit word. */
  datatype Order = Little | Big

  function Load(first: Byte, second: Byte, order: Order): Word {
    if order.Little? then first + 0x100 * second else 0x100 * first + second
  }

  function Swap(w: Word): Word {
    w % 0x100 * 0x100 + w / 0x100
  }

  function Stored(w: Word, order: Order): (bytes: seq<Byte>)
    ensures |bytes| == 2 && Load(bytes[0], bytes[1], order) == w
  {
    if order.Little? then [w % 0x100, w / 0x100] else [w / 0x100, w % 0x100]
  }

  function Complement(w: Word): Word {
    0xFFFF - w
  }

  /** The machine's 32-bit addition. */
  function Wrapped(x: nat): Word32 {
    if x < 0x1_0000_0000 then x else Wrapped(x - 0x1_0000_0000)
  }

  // ---------------------------------------------------------------------------------------------
  // The reference: section 1 of RFC 1071
  // ---------------------------------------------------------------------------------------------

  /** One's-complement addition: the carry out of the high end comes back in at the low end. */
  function OnesAdd(a: Word, b: Word): Word {
    if a + b > 0xFFFF then a + b - 0xFFFF else a + b
  }

  /** The one's-complement sum of all 16-bit words in network order; an odd last byte is padded with zero. */
  function RfcSum(bytes: seq<Byte>): Word {
    if bytes == [] then 0
    else if |bytes| == 1 then Load(bytes[0], 0, Big)
    else OnesAdd(Load(bytes[0], bytes[1], Big), RfcSum(bytes[2..]))
  }

  // ---------------------------------------------------------------------------------------------
  // The sum the program takes
  // ---------------------------------------------------------------------------------------------

  /** The sum of the words as the host loads them, and of a byte left over. */
  function Total(bytes: seq<Byte>, order: Order): nat {
    if bytes == [] then 0
    else if |bytes| == 1 then bytes[0]
    else Load(bytes[0], bytes[1], order) + Total(bytes[2..], order)
  }

  /** The 16-bit number that folding all carries back in ends with. */
  function Folded(x: nat): Word {
    if x == 0 then 0 else (x - 1) % 0xFFFF + 1
  }

  /** The bytes `CheckSum` reads; its length is a signed number. */
  function Prefix(bytes: seq<Byte>, len: int): seq<Byte>
    requires len <= |bytes|
  {
    if len < 0 then [] else bytes[..len]
  }

  /** Wrapping around early does not change the wrapped sum. */
  lemma {:induction false} SumStep(x: nat, word: nat)
    ensures Wrapped(Wrapped(x) + word) == Wrapped(x + word)
  {
    if x >= 0x1_0000_0000 { SumStep(x - 0x1_0000_0000, word); }
  }

  lemma Advance(bytes: seq<Byte>, next: nat, done: nat, csum: nat, order: Order)
    requires next + 1 < |bytes| && done + Total(bytes[next..], order) == Total(bytes, order)
    ensures var word := Load(bytes[next], bytes[next + 1], order);
            && done + word + Total(bytes[next + 2..], order) == Total(bytes, order)
            && Wrapped(Wrapped(csum + done) + word) == Wrapped(csum + (done + word))
  {
    assert bytes[next..][2..] == bytes[next + 2..];
    SumStep(csum + done, Load(bytes[next], bytes[next + 1], order));
  }

  lemma LastByte(bytes: seq<Byte>, next: nat, done: nat, csum: nat, order: Order)
    requires next <= |bytes| <= next + 1 && done + Total(bytes[next..], order) == Total(bytes, order)
    ensures Wrapped(csum + Total(bytes, order))
         == if next < |bytes| then Wrapped(Wrapped(csum + done) + bytes[next]) else Wrapped(csum + done)
  {
    if next < |bytes| { SumStep(csum + done, bytes[next]); }
  }

  /** The last part of `CheckSum`: the carries are folded in until none is left. */
  method FoldCarries(total: Word32) returns (w: Word)
    ensures w == Folded(total)
  {
    var sum: Word32 := total;
    while sum / 0x1_0000 != 0
      invariant Folded(sum) == Folded(total)
      decreases sum
    {
      FoldOnce(sum);
      sum := sum % 0x1_0000 + sum / 0x1_0000;
    }
    FoldedSmall(sum);
    w := sum;
  }

  /** The sum is kept in 32 bits and its carries are folded in at the end only. */
  method CheckSum(buffer: array<Byte>, len: Int32, csum: Word, order: Order) returns (answer: Word)
    requires len <= buffer.Length
    ensures answer == Complement(Folded(Wrapped(csum + Total(Prefix(buffer[..], len), order))))
    ensures answer == Complement(OnesAdd(csum, OnesSum(Prefix(buffer[..], len), order)))
      <==> csum + Total(Prefix(buffer[..], len), order) < 0x1_0000_0000
  {
    var count: int := len;
    var sum: Word32 := csum;
    var next := 0;
    ghost var all, done := Prefix(buffer[..], len), 0;
    assert all[0..] == all;
    while count > 1
      invariant 0 <= next <= |all| && count == (if len < 0 then len else |all| - next)
      invariant done >= 0 && done + Total(all[next..], order) == Total(all, order)
      invariant sum == Wrapped(csum + done)
    {
      var word := Load(buffer[next], buffer[next + 1], order);
      Advance(all, next, done, csum, order);
      sum := Wrapped(sum + word);
      done := done + word;
      next := next + 2;
      count := count - 2;
    }
    LastByte(all, next, done, csum, order);
    if count > 0 {
      sum := Wrapped(sum + buffer[next]);
    }
    assert sum == Wrapped(csum + Total(all, order));
    CheckSumIsExact(all, csum, order);
    sum := FoldCarries(sum);
    answer := Complement(sum);
  }

  lemma FoldedSmall(w: Word)
    ensures Folded(w) == w
  {
  }

  lemma FoldOnce(sum: Word32)
    ensures Folded(sum % 0x1_0000 + sum / 0x1_0000) == Folded(sum)
    ensures sum / 0x1_0000 != 0 ==> sum % 0x1_0000 + sum / 0x1_0000 < sum
  {
    var high := sum / 0x1_0000;
    FoldTurns(sum % 0x1_0000 + high, high);
  }

  lemma {:induction false} FoldTurns(x: nat, k: nat)
    requires x > 0 || k == 0
    ensures Folded(x + k * 0xFFFF) == Folded(x)
  {
    if k > 0 { FoldTurns(x, k - 1); }
  }

  // ---------------------------------------------------------------------------------------------
  // The sum taken is the reference sum
  // ---------------------------------------------------------------------------------------------

  /** The sum of the words, with the end-around carry at every addition, and in host order. */
  function OnesSum(bytes: seq<Byte>, order: Order): Word {
    if bytes == [] then 0
    else if |bytes| == 1 then bytes[0]
    else OnesAdd(Load(bytes[0], bytes[1], order), OnesSum(bytes[2..], order))
  }

  lemma FoldedSum(w: Word, x: nat)
    ensures Folded(w + x) == OnesAdd(w, Folded(x))
  {
    if x > 0 {
      var k := (x - 1) / 0xFFFF;
      assert x == Folded(x) + k * 0xFFFF;
      FoldTurns(w + Folded(x), k);
      assert w + x == w + Folded(x) + k * 0xFFFF;
    }
  }

  /** Folding the carries once at the end, or at every addition, gives the same. */
  lemma {:induction false} FoldedTotal(bytes: seq<Byte>, order: Order)
    ensures Folded(Total(bytes, order)) == OnesSum(bytes, order)
  {
    if |bytes| > 1 {
      FoldedTotal(bytes[2..], order);
      FoldedSum(Load(bytes[0], bytes[1], order), Total(bytes[2..], order));
    }
  }

  lemma SwapAdd(a: Word, b: Word)
    ensures Swap(OnesAdd(a, b)) == OnesAdd(Swap(a), Swap(b))
  {
    var high, low := a / 0x100 + b / 0x100, a % 0x100 + b % 0x100;
    SwapOf(a / 0x100, a % 0x100);
    SwapOf(b / 0x100, b % 0x100);
    assert a + b == high * 0x100 + low;
    SwapDigits(high, low);
  }

  lemma SwapOf(high: Byte, low: Byte)
    ensures Swap(high * 0x100 + low) == low * 0x100 + high
  {
  }

  /** Carries go round the same circle whichever end one starts at. */
  lemma SwapDigits(high: nat, low: nat)
    requires high <= 0x1FE && low <= 0x1FE
    ensures var x, y := high * 0x100 + low, low * 0x100 + high;
            && (x > 0xFFFF ==> x - 0xFFFF <= 0xFFFF) && (y > 0xFFFF ==> y - 0xFFFF <= 0xFFFF)
            && Swap(if x > 0xFFFF then x - 0xFFFF else x) == if y > 0xFFFF then y - 0xFFFF else y
  {
    if low <= 0xFF && high <= 0xFF {
      SwapOf(high, low);
    } else if low <= 0xFF {
      if low == 0xFF { SwapOf(high - 0xFF, 0); } else { SwapOf(high - 0x100, low + 1); }
    } else if high <= 0xFF {
      if high == 0xFF { SwapOf(0, low - 0xFF); } else { SwapOf(high + 1, low - 0x100); }
    } else {
      SwapOf(high - 0xFF, low - 0xFF);
    }
  }

  /** Section 1 (B) of RFC 1071: the sum does not depend on the byte order it is taken in. */
  lemma {:induction false} SumInHostOrder(bytes: seq<Byte>, order: Order)
    requires order.Little? || |bytes| % 2 == 0
    ensures OnesSum(bytes, order) == if order.Little? then Swap(RfcSum(bytes)) else RfcSum(bytes)
  {
    if |bytes| == 1 {
      SwapOf(bytes[0], 0);
    } else if |bytes| > 1 {
      SumInHostOrder(bytes[2..], order);
      SwapOf(bytes[0], bytes[1]);
      SwapAdd(Load(bytes[0], bytes[1], Big), RfcSum(bytes[2..]));
    }
  }

  /** On a big-endian host an odd last byte is added at the wrong end: the sum is right only if it is zero. */
  lemma {:induction false} OddSumOnBigEndian(bytes: seq<Byte>)
    requires |bytes| % 2 == 1
    ensures OnesSum(bytes, Big) == RfcSum(bytes) <==> bytes[|bytes| - 1] == 0
    ensures bytes[|bytes| - 1] != 0 ==> OnesSum(bytes, Big) != 0 && RfcSum(bytes) != 0
  {
    if |bytes| > 1 {
      OddSumOnBigEndian(bytes[2..]);
    }
  }

  lemma {:induction false} WholeTurns(x: nat) returns (m: nat)
    ensures x == Wrapped(x) + m * 0x1_0000_0000
  {
    if x < 0x1_0000_0000 {
      m := 0;
    } else {
      m := WholeTurns(x - 0x1_0000_0000);
      m := m + 1;
    }
  }

  /** Sums that do not overflow 32 bits, and those that do. */
  lemma WrappedFold(x: nat)
    requires x < 0x8000_0000_0000
    ensures Folded(Wrapped(x)) == Folded(x) <==> x < 0x1_0000_0000
  {
    if x >= 0x1_0000_0000 {
      var m := WholeTurns(x);
      FoldedMod(Wrapped(x));
      FoldedMod(x);
      TurnsShow(Wrapped(x), m, x);
    }
  }

  /** Each turn lost by wrapping takes one from the one's-complement sum. */
  lemma TurnsShow(w: Word32, m: nat, x: nat)
    requires x == w + m * 0x1_0000_0000 && 0 < m < 0x8000
    ensures w % 0xFFFF != x % 0xFFFF
  {
    assert x == w + m + (m * 65537) * 0xFFFF;
    assert x % 0xFFFF == (w + m) % 0xFFFF;
  }

  lemma FoldedMod(x: nat)
    ensures Folded(x) % 0xFFFF == x % 0xFFFF
  {
  }

  lemma {:induction false} TotalBound(bytes: seq<Byte>, order: Order)
    ensures Total(bytes, order) <= (|bytes| / 2) * 0xFFFF + (|bytes| % 2) * 0xFF
  {
    if |bytes| > 1 { TotalBound(bytes[2..], order); }
  }

  /** `CheckSum` gives the one's-complement sum of the seed and the words exactly when its 32-bit accumulator
      does not overflow, for every length an int can hold. */
  lemma CheckSumIsExact(bytes: seq<Byte>, csum: Word, order: Order)
    requires |bytes| < 0x8000_0000
    ensures Complement(Folded(Wrapped(csum + Total(bytes, order)))) == Complement(OnesAdd(csum, OnesSum(bytes, order)))
      <==> csum + Total(bytes, order) < 0x1_0000_0000
  {
    TotalBound(bytes, order);
    FoldedTotal(bytes, order);
    FoldedSum(csum, Total(bytes, order));
    WrappedFold(csum + Total(bytes, order));
  }

  /** It cannot overflow up to 65536 words. */
  lemma NoOverflow(bytes: seq<Byte>, csum: Word, order: Order)
    requires |bytes| <= 2 * 65536
    ensures csum + Total(bytes, order) < 0x1_0000_0000
  {
    TotalBound(bytes, order);
  }

  /** One more byte can. */
  lemma OverflowBeyond(bytes: seq<Byte>, order: Order)
    requires |bytes| == 2 * 65536 + 1 && forall i :: 0 <= i < |bytes| ==> bytes[i] == 0xFF
    ensures 0xFFFF + Total(bytes, order) >= 0x1_0000_0000
  {
    AllOnes(bytes, order);
  }

  lemma {:induction false} AllOnes(bytes: seq<Byte>, order: Order)
    requires forall i :: 0 <= i < |bytes| ==> bytes[i] == 0xFF
    ensures Total(bytes, order) == (|bytes| / 2) * 0xFFFF + (|bytes| % 2) * 0xFF
  {
    if |bytes| > 1 { AllOnes(bytes[2..], order); }
  }

  // ---------------------------------------------------------------------------------------------
  // The echo request
  // ---------------------------------------------------------------------------------------------

  /** The bytes with the checksum field replaced. */
  function WithField(packet: seq<Byte>, field: seq<Byte>): (p: seq<Byte>)
    requires |packet| >= 4 && |field| == 2
    ensures |p| == |packet|
  {
    packet[..2] + field + packet[4..]
  }

  /** The checksum a packet should carry, in network order. */
  function RfcChecksum(packet: seq<Byte>): Word
    requires |packet| >= 4
  {
    Complement(RfcSum(WithField(packet, [0, 0])))
  }

  lemma TotalWithField(packet: seq<Byte>, field: Word, order: Order)
    requires |packet| >= 4
    ensures Total(WithField(packet, Stored(field, order)), order)
         == field + Total(WithField(packet, [0, 0]), order)
    ensures Total(WithField(packet, [0, 0]), order) >= Load(packet[0], packet[1], order)
  {
    var p, z := WithField(packet, Stored(field, order)), WithField(packet, [0, 0]);
    assert p[2..][2..] == packet[4..] == z[2..][2..];
    assert p[2..][..2] == Stored(field, order) && z[2..][..2] == [0, 0];
  }

  function InHostOrder(w: Word, order: Order): Word {
    if order.Little? then Swap(w) else w
  }

  /** The complement of the field and the field itself add up to all ones, which is as good as nothing. */
  lemma SeededTotal(packet: seq<Byte>, field: Word, order: Order)
    requires 4 <= |packet| <= 0x1_0000 && packet[0] != 0
    ensures var sum := Complement(field) + Total(WithField(packet, Stored(field, order)), order);
            && sum < 0x1_0000_0000
            && Folded(Wrapped(sum)) == Folded(Total(WithField(packet, [0, 0]), order))
  {
    var rest := Total(WithField(packet, [0, 0]), order);
    NoOverflow(WithField(packet, Stored(field, order)), Complement(field), order);
    TotalWithField(packet, field, order);
    assert Complement(field) + Total(WithField(packet, Stored(field, order)), order) == rest + 1 * 0xFFFF;
    FoldTurns(rest, 1);
  }

  /** The sum of the packet with a zero field, complemented, is its checksum as the host stores it. */
  lemma HostChecksum(packet: seq<Byte>, order: Order)
    requires |packet| >= 4 && |packet| % 2 == 0
    ensures Complement(Folded(Total(WithField(packet, [0, 0]), order))) == InHostOrder(RfcChecksum(packet), order)
  {
    var zero := WithField(packet, [0, 0]);
    FoldedTotal(zero, order);
    SumInHostOrder(zero, order);
    SwapComplement(RfcSum(zero));
  }

  /** Seeding the sum with the complement of what the field holds cancels the field, whatever it holds: the
      result is the checksum of the packet with a zero field, as the host stores it. */
  lemma SeedCancelsField(packet: seq<Byte>, field: Word, order: Order)
    requires 4 <= |packet| <= 0x1_0000 && |packet| % 2 == 0 && packet[0] != 0
    ensures var sum := Complement(field) + Total(WithField(packet, Stored(field, order)), order);
            && sum < 0x1_0000_0000
            && Complement(Folded(Wrapped(sum))) == InHostOrder(RfcChecksum(packet), order)
  {
    SeededTotal(packet, field, order);
    HostChecksum(packet, order);
  }

  /** A packet that carries its checksum sums to all ones, by which a receiver verifies it. */
  lemma ChecksumVerifies(packet: seq<Byte>)
    requires |packet| >= 4 && packet[0] != 0
    ensures RfcSum(WithField(packet, Stored(RfcChecksum(packet), Big))) == 0xFFFF
  {
    var zero := WithField(packet, [0, 0]);
    var done := WithField(packet, Stored(RfcChecksum(packet), Big));
    assert done[2..][2..] == packet[4..] == zero[2..][2..];
    assert done[2..][..2] == Stored(RfcChecksum(packet), Big) && zero[2..][..2] == [0, 0];
    var first, rest := Load(packet[0], packet[1], Big), RfcSum(packet[4..]);
    assert RfcSum(zero) == OnesAdd(first, rest) by { assert RfcSum(zero[2..]) == OnesAdd(0, rest); }
    assert RfcSum(done) == OnesAdd(first, OnesAdd(RfcChecksum(packet), rest)) by {
      assert RfcSum(done[2..]) == OnesAdd(RfcChecksum(packet), rest);
    }
  }

  lemma SwapComplement(w: Word)
    ensures Complement(Swap(w)) == Swap(Complement(w))
  {
    SwapOf(w / 0x100, w % 0x100);
    SwapOf(0xFF - w / 0x100, 0xFF - w % 0x100);
  }

  lemma SwappedStore(w: Word, order: Order)
    ensures Stored(InHostOrder(w, order), order) == Stored(w, Big)
  {
  }

  /** An echo request before its checksum is known: `stale` is what the caller's buffer held behind it. */
  function Request(id: Word, seq_num: Word, now: seq<Byte>, task: seq<Byte>, stale: seq<Byte>, order: Order): seq<Byte> {
    [ICMP_ECHO, 0, 0, 0] + Behind(id, seq_num, now, task, stale, order)
  }

  function Behind(id: Word, seq_num: Word, now: seq<Byte>, task: seq<Byte>, stale: seq<Byte>, order: Order): seq<Byte> {
    Stored(id, order) + Stored(seq_num, Big) + now + task + stale
  }

  method Put(buffer: array<Byte>, at: nat, bytes: seq<Byte>)
    requires at + |bytes| <= buffer.Length
    modifies buffer
    ensures StandsAt(buffer[..], at, bytes)
    ensures forall k :: 0 <= k < buffer.Length ==>
              buffer[k] == if at <= k < at + |bytes| then bytes[k - at] else old(buffer[k])
  {
    for i := 0 to |bytes|
      invariant forall k :: 0 <= k < buffer.Length ==>
                  buffer[k] == if at <= k < at + i then bytes[k - at] else old(buffer[k])
    {
      buffer[at + i] := bytes[i];
    }
  }

  /** `part` stands in `whole` from position `at` on. */
  predicate StandsAt(whole: seq<Byte>, at: nat, part: seq<Byte>) {
    at + |part| <= |whole| && forall k :: at <= k < at + |part| ==> whole[k] == part[k - at]
  }

  /** What the fields written one by one add up to. */
  lemma PartsMakeRequest(written: seq<Byte>, before: seq<Byte>,
                         id: Word, seq_num: Word, now: seq<Byte>, task: seq<Byte>, field: seq<Byte>, order: Order)
    requires |written| == |before| >= ICMP_TOTAL_LEN && |now| == 16 && |task| == 8 && |field| == 2
    requires StandsAt(written, 0, [ICMP_ECHO, 0]) && StandsAt(written, 2, field)
    requires StandsAt(written, 4, Stored(id, order)) && StandsAt(written, 6, Stored(seq_num, Big))
    requires StandsAt(written, 8, now) && StandsAt(written, 24, task) && StandsAt(written, 32, before[32..])
    ensures written == WithField(Request(id, seq_num, now, task, before[32..ICMP_TOTAL_LEN], order), field)
                       + before[ICMP_TOTAL_LEN..]
  {
    Cut(written, 0, [ICMP_ECHO, 0]);
    Cut(written, 2, field);
    Cut(written, 4, Stored(id, order));
    Cut(written, 6, Stored(seq_num, Big));
    Cut(written, 8, now);
    Cut(written, 24, task);
    Cut(written, 32, before[32..]);
    assert written == written[..2] + written[2..4] + written[4..6] + written[6..8] + written[8..24] + written[24..32]
                      + written[32..];
    var packet := Request(id, seq_num, now, task, before[32..ICMP_TOTAL_LEN], order);
    assert packet[4..] == Behind(id, seq_num, now, task, before[32..ICMP_TOTAL_LEN], order);
    assert before[32..] == before[32..ICMP_TOTAL_LEN] + before[ICMP_TOTAL_LEN..];
  }

  lemma Cut(whole: seq<Byte>, at: nat, part: seq<Byte>)
    requires StandsAt(whole, at, part)
    ensures whole[at..at + |part|] == part
  {
  }

  /** The second pass, seeded with the complement of what the first left in the checksum field. */
  method SecondPass(buffer: array<Byte>, ghost packet: seq<Byte>, first: Word, order: Order)
    requires |packet| == ICMP_TOTAL_LEN <= buffer.Length && packet[0] != 0
    requires buffer[..ICMP_TOTAL_LEN] == WithField(packet, Stored(first, order))
    modifies buffer
    ensures buffer[..ICMP_TOTAL_LEN] == WithField(packet, Stored(RfcChecksum(packet), Big))
    ensures RfcSum(buffer[..ICMP_TOTAL_LEN]) == 0xFFFF
    ensures buffer[ICMP_TOTAL_LEN..] == old(buffer[ICMP_TOTAL_LEN..])
  {
    assert Prefix(buffer[..], ICMP_TOTAL_LEN) == buffer[..ICMP_TOTAL_LEN];
    var second := CheckSum(buffer, ICMP_TOTAL_LEN, Complement(first), order);
    SeedCancelsField(packet, first, order);
    SwappedStore(RfcChecksum(packet), order);
    ChecksumVerifies(packet);
    assert Stored(second, order) == Stored(RfcChecksum(packet), Big);
    Put(buffer, 2, Stored(second, order));
  }

  /** Fills in an echo request.  `now` are the bytes of the time stamp, `task` those of the task id; the
      first pass over the buffer sums up bytes that are overwritten afterwards. */
  method PackIcmpPacket(id: Word, seq_num: Word, now: seq<Byte>, task: seq<Byte>, buffer: array<Byte>, order: Order)
    returns (ok: bool)
    requires |now| == 16 && |task| == 8
    modifies buffer
    ensures ok <==> buffer.Length >= ICMP_TOTAL_LEN
    ensures !ok ==> buffer[..] == old(buffer[..])
    ensures ok ==>
              var packet := Request(id, seq_num, now, task, old(buffer[..])[32..ICMP_TOTAL_LEN], order);
              && |packet| == ICMP_TOTAL_LEN
              && buffer[..ICMP_TOTAL_LEN] == WithField(packet, Stored(RfcChecksum(packet), Big))
              && RfcSum(buffer[..ICMP_TOTAL_LEN]) == 0xFFFF
              && buffer[ICMP_TOTAL_LEN..] == old(buffer[..])[ICMP_TOTAL_LEN..]
  {
    if buffer.Length < ICMP_TOTAL_LEN {
      return false;
    }
    ghost var before := buffer[..];
    Put(buffer, 0, [ICMP_ECHO, 0]);
    Put(buffer, 4, Stored(id, order));
    Put(buffer, 6, Stored(seq_num, Big));
    Put(buffer, 2, [0, 0]);
    Put(buffer, 8, seq(16, _ => 0));
    var first := CheckSum(buffer, ICMP_TOTAL_LEN, 0, order);
    Put(buffer, 2, Stored(first, order));
    Put(buffer, 8, now);
    Put(buffer, 24, task);
    ghost var packet := Request(id, seq_num, now, task, before[32..ICMP_TOTAL_LEN], order);
    PartsMakeRequest(buffer[..], before, id, seq_num, now, task, Stored(first, order), order);
    SecondPass(buffer, packet, first, order);
    return true;
  }
}
