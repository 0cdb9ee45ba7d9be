/** The byte stream between the driver and the agent: DrainEvents concatenates
    variable-size records, DriverEventThread splits them again by their EventSize field. */
module Wire {
  import opened Bytes

  // Layout of EDR_EVENT_HEADER (x64): EventType at 0, an 8-byte timestamp at 8,
  // ProcessId at 16, ThreadId at 20, EventSize at 24, SequenceNumber at 28.
  const HEADER_SIZE := 32
  const TYPE_AT := 0
  const SIZE_AT := 24
  const SEQUENCE_AT := 28

  /** sizeof(EDR_PROCESS_EVENT): the header, two ULONGs, a LUID and three WCHAR arrays. */
  const MAX_EVENT_SIZE := HEADER_SIZE + 4 + 4 + 8 + 2 * 520 + 2 * 520 + 2 * 1024

  const MAX_EVENTS_IN_QUEUE := 2048

  const READ_BUFFER_SIZE := 1024 * 256

  function EventType(r: bytes): nat
    requires |r| >= TYPE_AT + 4
  {
    U32At(r, TYPE_AT)
  }

  function EventSize(r: bytes): nat
    requires |r| >= HEADER_SIZE
  {
    U32At(r, SIZE_AT)
  }

  function SequenceNumber(r: bytes): nat
    requires |r| >= HEADER_SIZE
  {
    U32At(r, SEQUENCE_AT)
  }

  /** Where the three fields lie in the 32 bytes of a header, low byte first. */
  lemma HeaderLayout(r: bytes)
    requires |r| >= 32
    ensures EventType(r) == U32At(r[..4], 0) && EventSize(r) == U32At(r[24..28], 0)
    ensures SequenceNumber(r) == U32At(r[28..32], 0)
  {
  }

  /** What all five driver callbacks push: a header and body whose EventSize is the pushed size. */
  predicate WellFormed(r: bytes) {
    HEADER_SIZE <= |r| <= MAX_EVENT_SIZE && EventSize(r) == |r|
  }

  ghost predicate AllWellFormed(rs: seq<bytes>) {
    forall r | r in rs :: WellFormed(r)
  }

  function Concat(rs: seq<bytes>): bytes {
    if rs == [] then [] else rs[0] + Concat(rs[1..])
  }

  lemma {:induction false} ConcatAppend(a: seq<bytes>, b: seq<bytes>)
    ensures Concat(a + b) == Concat(a) + Concat(b)
  {
    if a == [] {
      assert a + b == b;
    } else {
      assert (a + b)[0] == a[0] && (a + b)[1..] == a[1..] + b;
      ConcatAppend(a[1..], b);
    }
  }

  lemma ConcatSnoc(a: seq<bytes>, r: bytes)
    ensures Concat(a + [r]) == Concat(a) + r
  {
    ConcatAppend(a, [r]);
    assert Concat([r]) == r + Concat([]);
  }

  // ---------------------------------------------------------------- splitting

  /** The records that the agent dispatches for the byte string b. */
  function Parse(b: bytes): seq<bytes>
    decreases |b|
  {
    if |b| < HEADER_SIZE then []
    else
      var n := EventSize(b);
      if n == 0 || n > |b| then [] else [b[..n]] + Parse(b[n..])
  }

  /** The size the agent's loop reads at an offset, or 0 where the loop ends: the bounds test is a 32-bit sum. */
  function SizeAt(b: bytes, offset: nat): nat {
    if offset + HEADER_SIZE > |b| || AddU32(offset, U32At(b, offset + SIZE_AT)) > |b| then 0
    else U32At(b, offset + SIZE_AT)
  }

  /** What the loop passes to DispatchEvent: an offset into the buffer and a size. */
  datatype Chunk = Chunk(offset: nat, size: nat) {
    predicate InBounds(b: bytes) {
      offset + size <= |b|
    }
  }

  /** The chunks that the loop dispatches in its first turns from an offset, for any bytes. */
  function Split(b: bytes, offset: nat, turns: nat): seq<Chunk>
    decreases turns
  {
    var n := SizeAt(b, offset);
    if turns == 0 || n == 0 then [] else [Chunk(offset, n)] + Split(b, AddU32(offset, n), turns - 1)
  }

  /** No header that the loop gets to has a size whose 32-bit sum with the offset wraps and passes the bounds test. */
  predicate Advances(b: bytes, offset: nat)
    requires offset <= |b|
    decreases |b| - offset
  {
    var n := SizeAt(b, offset);
    n == 0 || (offset + n < U32_MOD && Advances(b, offset + n))
  }

  lemma ParseAt(b: bytes, offset: nat)
    requires offset + HEADER_SIZE <= |b|
    ensures EventSize(b[offset..offset + HEADER_SIZE]) == U32At(b, offset + SIZE_AT)
    ensures var n := U32At(b, offset + SIZE_AT);
            Parse(b[offset..]) ==
            if n == 0 || offset + n > |b| then [] else [b[offset..offset + n]] + Parse(b[offset + n..])
  {
    var rest := b[offset..];
    var n := U32At(b, offset + SIZE_AT);
    assert EventSize(rest) == n;
    if 0 < n <= |rest| {
      assert rest[..n] == b[offset..offset + n] && rest[n..] == b[offset + n..];
    }
  }

  /** One turn of the splitting loop, seen from the start of the buffer. */
  lemma Turn(b: bytes, offset: nat, dispatched: seq<bytes>)
    requires offset <= |b| < U32_MOD && Advances(b, offset)
    requires Parse(b) == dispatched + Parse(b[offset..])
    ensures var n := SizeAt(b, offset);
      if n == 0 then Parse(b) == dispatched
      else
        && AddU32(offset, n) == offset + n <= |b|
        && Advances(b, offset + n)
        && Parse(b) == dispatched + [b[offset..offset + n]] + Parse(b[offset + n..])
  {
    hide SizeAt, Parse, Advances;
    RecordAtOffset(b, offset);
  }

  /** Where the loop goes on, the chunk is the next record; where it ends, there is none. */
  lemma RecordAtOffset(b: bytes, offset: nat)
    requires offset <= |b| < U32_MOD && Advances(b, offset)
    ensures var n := SizeAt(b, offset);
      if n == 0 then Parse(b[offset..]) == []
      else
        && AddU32(offset, n) == offset + n <= |b|
        && Advances(b, offset + n)
        && Parse(b[offset..]) == [b[offset..offset + n]] + Parse(b[offset + n..])
  {
    hide Parse;
    if offset + HEADER_SIZE <= |b| {
      ParseAt(b, offset);
    } else {
      ParseShort(b[offset..]);
    }
  }

  lemma ParseShort(b: bytes)
    requires |b| < HEADER_SIZE
    ensures Parse(b) == []
  {
  }

  lemma PrefixSlice<T>(s: seq<T>, n: nat, from: nat, to: nat)
    requires from <= to <= n <= |s|
    ensures s[..n][from..to] == s[from..to]
  {
  }

  method ReadSlice(buffer: array<byte>, n: nat, from: nat, to: nat) returns (slice: bytes)
    requires from <= to <= n <= buffer.Length
    ensures slice == buffer[..n][from..to]
  {
    slice := buffer[from..to];
    PrefixSlice(buffer[..], n, from, to);
  }

  lemma SizeAtIs(b: bytes, offset: nat)
    requires offset + HEADER_SIZE <= |b|
    ensures var n := EventSize(b[offset..offset + HEADER_SIZE]);
      SizeAt(b, offset) == if AddU32(offset, n) > |b| then 0 else n
  {
  }

  lemma NoHeader(b: bytes, offset: nat)
    requires offset + HEADER_SIZE > |b|
    ensures SizeAt(b, offset) == 0
  {
  }

  /** The splitting loop of DriverEventThread over the first bytesReturned bytes of its buffer. */
  method SplitBuffer(buffer: array<byte>, bytesReturned: nat) returns (dispatched: seq<bytes>)
    requires bytesReturned <= buffer.Length < U32_MOD
    requires Advances(buffer[..bytesReturned], 0)
    ensures dispatched == Parse(buffer[..bytesReturned])
  {
    hide Parse, Advances, SizeAt, EventSize, AddU32;
    dispatched := [];
    ghost var b := buffer[..bytesReturned];
    var offset := 0;
    assert b[0..] == b;
    while offset < bytesReturned
      invariant offset <= bytesReturned && Advances(b, offset)
      invariant Parse(b) == dispatched + Parse(b[offset..])
    {
      if offset + HEADER_SIZE > bytesReturned {
        break;
      }
      var header := ReadSlice(buffer, bytesReturned, offset, offset + HEADER_SIZE);
      var size := EventSize(header);
      SizeAtIs(b, offset);
      Turn(b, offset, dispatched);
      if size == 0 || AddU32(offset, size) > bytesReturned {
        return;
      }
      var record := ReadSlice(buffer, bytesReturned, offset, offset + size);
      dispatched := dispatched + [record];
      offset := AddU32(offset, size);
    }
    NoHeader(b, offset);
    Turn(b, offset, dispatched);
  }

  // ------------------------------------------------- the loop on arbitrary bytes

  lemma SplitMore(b: bytes, offset: nat, turns: nat)
    ensures var n := SizeAt(b, offset);
      Split(b, offset, turns) ==
      if turns == 0 || n == 0 then [] else [Chunk(offset, n)] + Split(b, AddU32(offset, n), turns - 1)
  {
  }

  ghost predicate AllInBounds(b: bytes, chunks: seq<Chunk>) {
    forall i :: 0 <= i < |chunks| ==> chunks[i].InBounds(b)
  }

  /** Every chunk that the loop ever dispatches is in the buffer. */
  ghost predicate StaysInBounds(b: bytes, offset: nat) {
    forall turns: nat :: AllInBounds(b, Split(b, offset, turns))
  }

  lemma InBoundsOneMore(b: bytes, offset: nat, turns: nat)
    requires SizeAt(b, offset) != 0
    ensures var first := Chunk(offset, SizeAt(b, offset));
      AllInBounds(b, Split(b, offset, turns + 1)) <==>
      first.InBounds(b) && AllInBounds(b, Split(b, AddU32(offset, first.size), turns))
  {
    hide SizeAt, Split, AddU32, Chunk.InBounds;
    SplitMore(b, offset, turns + 1);
    var first := Chunk(offset, SizeAt(b, offset));
    var rest := Split(b, AddU32(offset, first.size), turns);
    assert ([first] + rest)[0] == first;
    assert forall i :: 0 <= i < |rest| ==> ([first] + rest)[i + 1] == rest[i];
  }

  lemma StaysOneMore(b: bytes, offset: nat)
    requires SizeAt(b, offset) != 0
    ensures var first := Chunk(offset, SizeAt(b, offset));
      StaysInBounds(b, offset) <==> first.InBounds(b) && StaysInBounds(b, AddU32(offset, first.size))
  {
    hide SizeAt, Split, AllInBounds, AddU32, Chunk.InBounds;
    var first := Chunk(offset, SizeAt(b, offset));
    var next := AddU32(offset, first.size);
    if StaysInBounds(b, offset) {
      InBoundsOneMore(b, offset, 0);
      assert AllInBounds(b, Split(b, offset, 1));
      forall turns: nat
        ensures AllInBounds(b, Split(b, next, turns))
      {
        InBoundsOneMore(b, offset, turns);
        assert AllInBounds(b, Split(b, offset, turns + 1));
      }
    } else if first.InBounds(b) && StaysInBounds(b, next) {
      forall turns: nat
        ensures AllInBounds(b, Split(b, offset, turns))
      {
        if turns == 0 {
          NoTurns(b, offset);
        } else {
          InBoundsOneMore(b, offset, turns - 1);
        }
      }
    }
  }

  /** For arbitrary bytes: no chunk ever dispatched leaves the buffer if and only if no header that the loop gets to
      wraps the 32-bit sum and passes the bounds test all the same. */
  lemma {:induction false} InBoundsIffAdvances(b: bytes, offset: nat)
    requires offset <= |b| < U32_MOD
    ensures StaysInBounds(b, offset) <==> Advances(b, offset)
    decreases |b| - offset
  {
    hide SizeAt, AddU32, StaysInBounds;
    SizeFits(b, offset);
    if SizeAt(b, offset) == 0 {
      StaysAtEnd(b, offset);
    } else {
      StaysOneMore(b, offset);
      if offset + SizeAt(b, offset) < U32_MOD {
        InBoundsIffAdvances(b, offset + SizeAt(b, offset));
      }
    }
  }

  lemma StaysAtEnd(b: bytes, offset: nat)
    requires SizeAt(b, offset) == 0
    ensures StaysInBounds(b, offset)
  {
  }

  lemma NoTurns(b: bytes, offset: nat)
    ensures AllInBounds(b, Split(b, offset, 0)) && AllInBounds(b, [])
  {
  }

  lemma SizeFits(b: bytes, offset: nat)
    requires offset <= |b| < U32_MOD
    ensures var n := SizeAt(b, offset);
      n != 0 && offset + n < U32_MOD ==> AddU32(offset, n) == offset + n <= |b|
  {
  }

  /** The bytes of chunks that are in bounds. */
  ghost function Cut(b: bytes, chunks: seq<Chunk>): seq<bytes>
    requires AllInBounds(b, chunks)
  {
    seq(|chunks|, i requires 0 <= i < |chunks| => b[chunks[i].offset..chunks[i].offset + chunks[i].size])
  }

  /** And then the loop ends, after at most one turn a byte, and has dispatched the records of Parse. */
  lemma {:induction false} SplitIsParse(b: bytes, offset: nat, turns: nat)
    requires offset <= |b| < U32_MOD && Advances(b, offset) && turns >= |b| - offset
    ensures AllInBounds(b, Split(b, offset, turns))
    ensures Cut(b, Split(b, offset, turns)) == Parse(b[offset..])
    decreases |b| - offset
  {
    hide SizeAt, Split, Parse, Advances;
    SplitMore(b, offset, turns);
    RecordAtOffset(b, offset);
    var n := SizeAt(b, offset);
    if n == 0 {
      assert Cut(b, []) == [];
    } else {
      SplitIsParse(b, offset + n, turns - 1);
      var rest := Split(b, offset + n, turns - 1);
      assert Cut(b, [Chunk(offset, n)] + rest) == [b[offset..offset + n]] + Cut(b, rest);
    }
  }

  lemma {:induction false} AlternatesForever(b: bytes, turns: nat)
    requires SizeAt(b, 0) == 32 && SizeAt(b, 32) == 0xFFFF_FFE0
    ensures |Split(b, 0, turns)| == turns && |Split(b, 32, turns)| == turns
    decreases turns
  {
    hide SizeAt;
    if turns > 0 {
      AlternatesForever(b, turns - 1);
      SplitMore(b, 0, turns);
      SplitMore(b, 32, turns);
    }
  }

  /** Two headers, the second with a size that takes the 32-bit sum back to 0. */
  function WrappingBytes(): (b: bytes)
    ensures |b| == 64 && U32At(b, SIZE_AT) == 32 && U32At(b, 32 + SIZE_AT) == 0xFFFF_FFE0
  {
    var first := seq(24, _ => 0) + U32Bytes(32) + seq(4, _ => 0);
    var second := seq(24, _ => 0) + U32Bytes(0xFFFF_FFE0) + seq(4, _ => 0);
    assert first[24..28] == U32Bytes(32) && second[24..28] == U32Bytes(0xFFFF_FFE0);
    var b := first + second;
    assert b[24..28] == U32Bytes(32) && b[56..60] == U32Bytes(0xFFFF_FFE0);
    b
  }

  /** On these bytes the loop dispatches a chunk far past the buffer, starts again at offset 0 and never ends,
      where only the first record is in the buffer. */
  lemma WrapLeavesTheBuffer(turns: nat)
    ensures var b := WrappingBytes();
      && |Split(b, 0, turns)| == turns
      && Chunk(32, 0xFFFF_FFE0) in Split(b, 0, 2) && !Chunk(32, 0xFFFF_FFE0).InBounds(b)
      && Parse(b) == [b[..32]] && !Advances(b, 0)
  {
    var b := WrappingBytes();
    WrappingSizes(b);
    AlternatesForever(b, turns);
    SplitMore(b, 0, 2);
    SplitMore(b, 32, 1);
    InBoundsIffAdvances(b, 0);
    ParseAt(b, 0);
    ParseAt(b, 32);
    assert b[0..] == b && b[0..32] == b[..32];
  }

  lemma WrappingSizes(b: bytes)
    requires |b| == 64 && U32At(b, SIZE_AT) == 32 && U32At(b, 32 + SIZE_AT) == 0xFFFF_FFE0
    ensures SizeAt(b, 0) == 32 && SizeAt(b, 32) == 0xFFFF_FFE0 && AddU32(32, 0xFFFF_FFE0) == 0
  {
  }

  /** A header whose size passes the wrapped bounds test moves the offset forward exactly when the
      32-bit sum did not wrap: with a wrap the next offset is not ahead of the current one. */
  lemma ForwardIffNoWrap(offset: nat, size: nat, returned: nat)
    requires offset < returned < U32_MOD && 0 < size < U32_MOD
    requires AddU32(offset, size) <= returned
    ensures offset < AddU32(offset, size) <==> offset + size < U32_MOD
    ensures offset < AddU32(offset, size) <==> offset + size <= returned
  {
  }

  /** Parse, whose sums do not wrap, gives a contiguous run of non-empty slices from the start of any bytes. */
  lemma {:induction false} ParseStaysInBounds(b: bytes)
    ensures Concat(Parse(b)) <= b
    ensures forall r | r in Parse(b) :: r != []
    decreases |b|
  {
    if |b| >= HEADER_SIZE {
      var n := EventSize(b);
      if 0 < n <= |b| {
        ParseStaysInBounds(b[n..]);
        assert Parse(b) == [b[..n]] + Parse(b[n..]);
        assert Parse(b)[0] == b[..n] && Parse(b)[1..] == Parse(b[n..]);
        assert b == b[..n] + b[n..];
      }
    }
  }

  lemma ParseHead(r: bytes, tail: bytes)
    requires WellFormed(r)
    ensures Parse(r + tail) == [r] + Parse(tail)
  {
  }

  /** Splitting undoes draining: the dispatched records are the drained ones, in order, each once,
      also when fewer than a header's worth of stray bytes follow them. */
  lemma {:induction false} RoundTrip(rs: seq<bytes>, stray: bytes)
    requires AllWellFormed(rs) && |stray| < HEADER_SIZE
    ensures Parse(Concat(rs) + stray) == rs
  {
    if rs == [] {
      assert Concat(rs) + stray == stray;
    } else {
      var tail := Concat(rs[1..]) + stray;
      assert Concat(rs) + stray == rs[0] + tail;
      assert rs[0] in rs;
      ParseHead(rs[0], tail);
      RoundTrip(rs[1..], stray);
      assert rs == [rs[0]] + rs[1..];
    }
  }

  /** A drained buffer is always safe to split: the offset never wraps. */
  lemma {:induction false} DrainedAdvances(done: bytes, rs: seq<bytes>)
    requires AllWellFormed(rs) && |done| + |Concat(rs)| < U32_MOD
    ensures Advances(done + Concat(rs), |done|)
    decreases |rs|
  {
    var b := done + Concat(rs);
    if rs != [] && |b| - |done| >= HEADER_SIZE {
      assert b == (done + rs[0]) + Concat(rs[1..]);
      assert rs[0] in rs;
      assert forall k | 0 <= k < HEADER_SIZE :: b[|done| + k] == rs[0][k];
      assert U32At(b, |done| + SIZE_AT) == |rs[0]|;
      DrainedAdvances(done + rs[0], rs[1..]);
    }
  }

  /** Different lists of records never share a byte string. */
  lemma ConcatInjective(rs: seq<bytes>, ts: seq<bytes>)
    requires AllWellFormed(rs) && AllWellFormed(ts) && Concat(rs) == Concat(ts)
    ensures rs == ts
  {
    RoundTrip(rs, []);
    RoundTrip(ts, []);
    assert Concat(rs) + [] == Concat(rs) && Concat(ts) + [] == Concat(ts);
  }

  // ----------------------------------------------------------------- draining

  /** How many records from the front phase 1 of DrainEvents detaches, with its 32-bit size sum. */
  function FitU32(rs: seq<bytes>, used: nat, capacity: nat): (k: nat)
    ensures k <= |rs|
  {
    if rs == [] || AddU32(used, |rs[0]|) > capacity then 0
    else 1 + FitU32(rs[1..], AddU32(used, |rs[0]|), capacity)
  }

  ghost predicate AtMost(rs: seq<bytes>, m: nat) {
    forall r | r in rs :: |r| <= m
  }

  lemma FitOne(rs: seq<bytes>, used: nat, capacity: nat)
    requires rs != []
    ensures FitU32(rs, used, capacity) ==
      if AddU32(used, |rs[0]|) > capacity then 0 else 1 + FitU32(rs[1..], AddU32(used, |rs[0]|), capacity)
  {
  }

  lemma ConcatOne(rs: seq<bytes>, k: nat)
    requires 0 < k <= |rs|
    ensures |Concat(rs[..k])| == |rs[0]| + |Concat(rs[1..][..k - 1])|
  {
    assert rs[..k][1..] == rs[1..][..k - 1];
  }

  lemma FirstSum(rs: seq<bytes>, used: nat, capacity: nat, m: nat)
    requires rs != [] && AtMost(rs, m) && used <= capacity < U32_MOD
    requires capacity + m < U32_MOD || used + |Concat(rs)| < U32_MOD
    ensures AddU32(used, |rs[0]|) == used + |rs[0]| && AtMost(rs[1..], m)
    ensures |Concat(rs)| == |rs[0]| + |Concat(rs[1..])|
  {
    assert rs[0] in rs;
  }

  lemma ConcatNone(rs: seq<bytes>)
    ensures |Concat(rs[..0])| == 0
  {
  }

  /** The size sum does not wrap when the buffer leaves room for one more record below 2^32,
      and not either when the whole queue holds less than 2^32 bytes. Then the drained records
      fit, and the drain stopped only at an empty queue or at a head that does not fit. */
  lemma {:induction false} DrainIsMaximal(rs: seq<bytes>, used: nat, capacity: nat, m: nat)
    requires AtMost(rs, m) && used <= capacity < U32_MOD
    requires capacity + m < U32_MOD || used + |Concat(rs)| < U32_MOD
    ensures var k := FitU32(rs, used, capacity);
            && used + |Concat(rs[..k])| <= capacity
            && (k < |rs| ==> used + |Concat(rs[..k + 1])| > capacity)
  {
    hide AddU32, FitU32, Concat, AtMost;
    var k := FitU32(rs, used, capacity);
    ConcatNone(rs);
    if rs != [] {
      FitOne(rs, used, capacity);
      FirstSum(rs, used, capacity, m);
      if used + |rs[0]| <= capacity {
        DrainIsMaximal(rs[1..], used + |rs[0]|, capacity, m);
        ConcatOne(rs, k);
      } else {
        ConcatNone(rs[1..]);
      }
      if k < |rs| {
        ConcatOne(rs, k + 1);
      }
    }
  }

  lemma Distribute(n: nat, q: nat)
    requires 0 < n
    ensures n * q == (n - 1) * q + q
  {
  }

  lemma {:induction false} ConcatBound(rs: seq<bytes>, m: nat)
    requires AtMost(rs, m)
    ensures |Concat(rs)| <= |rs| * m
  {
    if rs != [] {
      assert rs[0] in rs && AtMost(rs[1..], m);
      ConcatBound(rs[1..], m);
      Distribute(|rs|, m);
    }
  }

  /** One drain removes at least min(queue length, capacity / m) records of at most m bytes. */
  lemma DrainMakesProgress(rs: seq<bytes>, capacity: nat, m: nat)
    requires AtMost(rs, m) && 0 < m && capacity + m < U32_MOD
    ensures FitU32(rs, 0, capacity) == |rs| || FitU32(rs, 0, capacity) >= capacity / m
  {
    var k := FitU32(rs, 0, capacity);
    DrainIsMaximal(rs, 0, capacity, m);
    if k < |rs| {
      ConcatBound(rs[..k + 1], m);
      QuotientBound(capacity, m, k + 1);
    }
  }

  lemma QuotientBound(capacity: nat, m: nat, k: nat)
    requires 0 < m && capacity < k * m
    ensures capacity / m < k
  {
  }

  /** What is left in the queue after the given number of drains with no push in between. */
  function AfterDrains(rs: seq<bytes>, capacity: nat, calls: nat): seq<bytes>
    decreases calls
  {
    if calls == 0 then rs else AfterDrains(rs[FitU32(rs, 0, capacity)..], capacity, calls - 1)
  }

  /** Enough drains empty the queue, and "enough" is a computed number of calls. */
  lemma {:induction false} DrainsEmptyTheQueue(rs: seq<bytes>, capacity: nat, m: nat, perCall: nat, calls: nat)
    requires AtMost(rs, m) && 0 < m && capacity + m < U32_MOD
    requires perCall <= capacity / m && |rs| <= calls * perCall
    ensures AfterDrains(rs, capacity, calls) == []
    decreases calls
  {
    if calls > 0 {
      var k := FitU32(rs, 0, capacity);
      DrainMakesProgress(rs, capacity, m);
      Distribute(calls, perCall);
      assert AtMost(rs[k..], m);
      DrainsEmptyTheQueue(rs[k..], capacity, m, perCall, calls - 1);
    }
  }

  /** With the agent's 256 KiB buffer a read takes at least 62 events, so 34 reads are enough
      for a full queue of 2048 events. */
  lemma FullQueueTakes34Reads(rs: seq<bytes>, calls: nat)
    requires AtMost(rs, MAX_EVENT_SIZE) && |rs| <= MAX_EVENTS_IN_QUEUE && calls >= 34
    ensures AfterDrains(rs, READ_BUFFER_SIZE, calls) == []
  {
    DrainsEmptyTheQueue(rs, READ_BUFFER_SIZE, MAX_EVENT_SIZE, 62, calls);
  }
}
