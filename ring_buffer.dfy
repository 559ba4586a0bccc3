/**
 * The single-producer / single-consumer byte ring of `utils/ring_buffer.cpp`.
 *
 * The read index `start` and the write index `end` both run over the doubled
 * range [0, 2·len): a full ring has `start ≡ end (mod len)` with the two
 * indices in different halves, an empty one has `start == end`. The bytes
 * waiting to be read are the `calculate_avail_read` bytes that follow
 * `start % len`, wrapping round the end of the storage.
 *
 * Each operation is one atomic step: the atomics and their memory orders are
 * not modelled.
 */
module RingBuffer {
  import opened Wrappers

  // ---------------------------------------------------------------------
  // Arithmetic on the doubled indices
  // ---------------------------------------------------------------------

  lemma MulAtLeast(n: int, k: int)
    requires n > 0 && k >= 1
    ensures n * k >= n
  {
  }

  /** Euclidean division is unique: `x = n·q + r` with `0 <= r < n` fixes `x % n`. */
  lemma ModUnique(x: int, n: int, q: int, r: int)
    requires n > 0 && x == n * q + r && 0 <= r < n
    ensures x % n == r
  {
    var q', r' := x / n, x % n;
    if q' < q {
      assert n * q - n * q' == n * (q - q');
      MulAtLeast(n, q - q');
    } else if q' > q {
      assert n * q' - n * q == n * (q' - q);
      MulAtLeast(n, q' - q);
    }
  }

  /** `x % n` for `x` in [0, 4n): subtract the right multiple of `n`. */
  lemma ModSmall(x: int, n: int)
    requires n > 0 && 0 <= x < 4 * n
    ensures x % n == (if x < n then x else if x < 2 * n then x - n
                      else if x < 3 * n then x - 2 * n else x - 3 * n)
  {
    if x < n {
      ModUnique(x, n, 0, x);
    } else if x < 2 * n {
      ModUnique(x, n, 1, x - n);
    } else if x < 3 * n {
      ModUnique(x, n, 2, x - 2 * n);
    } else {
      ModUnique(x, n, 3, x - 3 * n);
    }
  }

  /** `x % (2n)` for `x` in [0, 4n). */
  lemma ModDoubled(x: int, n: int)
    requires n > 0 && 0 <= x < 4 * n
    ensures x % (2 * n) == (if x < 2 * n then x else x - 2 * n)
  {
    if x < 2 * n {
      ModUnique(x, 2 * n, 0, x);
    } else {
      ModUnique(x, 2 * n, 1, x - 2 * n);
    }
  }

  /** The storage slot of a doubled index: `index % len`. */
  function Slot(x: int, len: int): (r: int)
    requires len > 0 && 0 <= x < 2 * len
    ensures 0 <= r < len
    ensures r == (if x < len then x else x - len)
  {
    ModSmall(x, len);
    x % len
  }

  /** How far `end` is ahead of `start` on the doubled circle. */
  function Distance(start: int, end: int, len: int): (r: int)
    requires len > 0 && 0 <= start < 2 * len && 0 <= end < 2 * len
    ensures 0 <= r < 2 * len
    ensures r == (end - start) % (2 * len)
  {
    if end >= start then
      (ModUnique(end - start, 2 * len, 0, end - start); end - start)
    else
      (ModUnique(end - start, 2 * len, -1, end - start + 2 * len); end - start + 2 * len)
  }

  /**
   * `calculate_avail_read`: the bytes waiting to be read. Up to `len` it is
   * the distance from `start` to `end`; beyond that (after an overflow) the
   * source reports the distance less `len`.
   */
  function AvailRead(start: int, end: int, len: int): (r: int)
    requires len > 0 && 0 <= start < 2 * len && 0 <= end < 2 * len
    ensures 0 <= r <= len
    ensures r == (if Distance(start, end, len) <= len then Distance(start, end, len)
                  else Distance(start, end, len) - len)
    ensures r == len <==> (Slot(start, len) == Slot(end, len) && (end >= len) != (start >= len))
  {
    ModSmall(end - start + 2 * len, len);
    var avail := (end - start + 2 * len) % len;
    if avail == 0 && (end >= len) != (start >= len) then avail + len else avail
  }

  /** `calculate_avail_write`: the free space, the complement of the waiting bytes. */
  function AvailWrite(start: int, end: int, len: int): (r: int)
    requires len > 0 && 0 <= start < 2 * len && 0 <= end < 2 * len
    ensures 0 <= r <= len
    ensures r + AvailRead(start, end, len) == len
    ensures r == 0 <==> (Slot(start, len) == Slot(end, len) && (end >= len) != (start >= len))
  {
    len - AvailRead(start, end, len)
  }

  /** The writer has not run past the reader: `end` is at most `len` ahead of `start`. */
  predicate NotOverrun(start: int, end: int, len: int)
    requires len > 0 && 0 <= start < 2 * len && 0 <= end < 2 * len
  {
    Distance(start, end, len) <= len
  }

  /** The bytes waiting in storage `d`: `AvailRead` bytes from `start % len` on, wrapping. */
  ghost function View(d: seq<Byte>, start: int, end: int, len: int): (r: seq<Byte>)
    requires len > 0 && |d| == len && 0 <= start < 2 * len && 0 <= end < 2 * len
    ensures |r| == AvailRead(start, end, len)
  {
    seq(AvailRead(start, end, len), i requires 0 <= i < AvailRead(start, end, len) =>
      d[Slot(Slot(start, len) + i, len)])
  }

  /** How many slots slot `k` lies after slot `at`, going round the ring: `(k - at) mod len`. */
  function Offset(k: int, at: int, len: int): (r: int)
    requires 0 <= k < len && 0 <= at < len
    ensures 0 <= r < len && r == (k - at) % len
  {
    if k >= at then ModUnique(k - at, len, 0, k - at); k - at
    else ModUnique(k - at, len, -1, k - at + len); k - at + len
  }

  /** Storage `d` after `input` is stored from slot `at` on, wrapping round the end. */
  ghost function Stored(d: seq<Byte>, at: int, input: seq<Byte>): (r: seq<Byte>)
    requires 0 <= at < |d| && |input| <= |d|
    ensures |r| == |d|
  {
    seq(|d|, k requires 0 <= k < |d| =>
      if Offset(k, at, |d|) < |input| then input[Offset(k, at, |d|)] else d[k])
  }

  /** `memset`'s byte: `c` converted to `unsigned char`. */
  function FillByte(c: int): (b: Byte)
    ensures b as int == c % 256
  {
    (c % 256) as Byte
  }

  // ---------------------------------------------------------------------
  // What reading and writing do to the waiting bytes
  // ---------------------------------------------------------------------

  /** Where the slot of the `i`-th waiting byte lies relative to the write slot. */
  lemma OffsetFromWriteSlot(start: int, end: int, len: int, i: int)
    requires len > 0 && 0 <= start < 2 * len && 0 <= end < 2 * len
    requires NotOverrun(start, end, len) && 0 <= i < len
    ensures var a := AvailRead(start, end, len);
      Offset(Slot(Slot(start, len) + i, len), Slot(end, len), len) == (if i < a then i - a + len else i - a)
  {
  }

  /** Moving the write index over `n` free bytes adds `n` to the waiting count. */
  lemma GrowsBy(start: int, end: int, len: int, n: int)
    requires len > 0 && 0 <= start < 2 * len && 0 <= end < 2 * len
    requires NotOverrun(start, end, len) && 0 <= n <= AvailWrite(start, end, len)
    ensures 0 <= (end + n) % (2 * len) < 2 * len
    ensures NotOverrun(start, (end + n) % (2 * len), len)
    ensures AvailRead(start, (end + n) % (2 * len), len) == AvailRead(start, end, len) + n
  {
    ModDoubled(end + n, len);
  }

  /** Moving the read index over `m` waiting bytes takes `m` from the waiting count. */
  lemma ShrinksBy(start: int, end: int, len: int, m: int)
    requires len > 0 && 0 <= start < 2 * len && 0 <= end < 2 * len
    requires NotOverrun(start, end, len) && 0 <= m <= AvailRead(start, end, len)
    ensures 0 <= (start + m) % (2 * len) < 2 * len
    ensures NotOverrun((start + m) % (2 * len), end, len)
    ensures AvailRead((start + m) % (2 * len), end, len) == AvailRead(start, end, len) - m
  {
    ModDoubled(start + m, len);
  }

  /** Storing bytes at the write index of a ring that is not overrun appends them to the waiting bytes. */
  lemma {:induction false} StoreAppends(d: seq<Byte>, start: int, end: int, len: int, input: seq<Byte>)
    requires len > 0 && |d| == len && 0 <= start < 2 * len && 0 <= end < 2 * len
    requires NotOverrun(start, end, len)
    requires |input| <= AvailWrite(start, end, len)
    ensures 0 <= (end + |input|) % (2 * len) < 2 * len
    ensures NotOverrun(start, (end + |input|) % (2 * len), len)
    ensures AvailRead(start, (end + |input|) % (2 * len), len) == AvailRead(start, end, len) + |input|
    ensures View(Stored(d, Slot(end, len), input), start, (end + |input|) % (2 * len), len)
         == View(d, start, end, len) + input
  {
    var n := |input|;
    GrowsBy(start, end, len, n);
    var a := AvailRead(start, end, len);
    var end' := (end + n) % (2 * len);
    var d' := Stored(d, Slot(end, len), input);
    var lhs := View(d', start, end', len);
    var waiting := View(d, start, end, len);
    var rhs := waiting + input;
    assert |lhs| == |rhs|;
    forall i | 0 <= i < |lhs|
      ensures lhs[i] == rhs[i]
    {
      var k := Slot(Slot(start, len) + i, len);
      OffsetFromWriteSlot(start, end, len, i);
      assert lhs[i] == d'[k];
      if i < a {
        assert rhs[i] == waiting[i] == d[k];
      } else {
        assert rhs[i] == input[i - a];
      }
    }
  }

  /** The slot of an index moved on by `m <= len`, round the doubled circle. */
  lemma SlotOfAdvanced(x: int, m: int, len: int)
    requires len > 0 && 0 <= x < 2 * len && 0 <= m <= len
    ensures 0 <= (x + m) % (2 * len) < 2 * len && Slot(x, len) + m < 2 * len
    ensures Slot((x + m) % (2 * len), len) == Slot(Slot(x, len) + m, len)
  {
    ModDoubled(x + m, len);
  }

  /** Moving `i` slots on from slot `Slot(x)` lands on the slot of `x + i`. */
  lemma SlotOfSum(x: int, i: int, len: int)
    requires len > 0 && 0 <= x < 2 * len && 0 <= i && x + i < 2 * len && Slot(x, len) + i < 2 * len
    ensures Slot(Slot(x, len) + i, len) == Slot(x + i, len)
  {
  }

  /** Moving the read index over `m` waiting bytes drops them from the front. */
  lemma {:induction false} AdvanceDrops(d: seq<Byte>, start: int, end: int, len: int, m: int)
    requires len > 0 && |d| == len && 0 <= start < 2 * len && 0 <= end < 2 * len
    requires NotOverrun(start, end, len)
    requires 0 <= m <= AvailRead(start, end, len)
    ensures 0 <= (start + m) % (2 * len) < 2 * len
    ensures NotOverrun((start + m) % (2 * len), end, len)
    ensures AvailRead((start + m) % (2 * len), end, len) == AvailRead(start, end, len) - m
    ensures View(d, (start + m) % (2 * len), end, len) == View(d, start, end, len)[m..]
  {
    ShrinksBy(start, end, len, m);
    var start' := (start + m) % (2 * len);
    var s := Slot(start, len);
    var s' := Slot(start', len);
    SlotOfAdvanced(start, m, len);
    var lhs := View(d, start', end, len);
    var rhs := View(d, start, end, len)[m..];
    assert |lhs| == |rhs|;
    forall i | 0 <= i < |lhs|
      ensures lhs[i] == rhs[i]
    {
      SlotOfSum(s + m, i, len);
    }
  }

  // ---------------------------------------------------------------------
  // The ring
  // ---------------------------------------------------------------------

  /**
   * The two pieces of storage an access uses, as slot offsets: `first` and
   * `second` are `None` where the source returns a null pointer; `total` is
   * the function's return value.
   */
  datatype Regions = Regions(total: nat, first: Option<nat>, size1: nat, second: Option<nat>, size2: nat)

  /** The outcome of a write, as the warnings the source prints. */
  datatype WriteOutcome =
    | TooLong     // "too long write request": nothing is written
    | Overflowed  // "ring buffer overflow": written, but over bytes not yet read
    | Written

  class Ring {
    const data: array<Byte>
    const len: nat
    var start: int
    var end: int

    ghost predicate Valid()
      reads this
    {
      len > 0 && data.Length == len && 0 <= start < 2 * len && 0 <= end < 2 * len
    }

    /** The bytes waiting to be read, oldest first. */
    ghost function Contents(): seq<Byte>
      reads this, data
      requires Valid()
    {
      View(data[..], start, end, len)
    }

    /** `ring_buffer_init`: zeroed storage of `size` bytes, empty. */
    constructor (size: nat)
      requires size > 0
      ensures Valid() && fresh(data) && len == size
      ensures start == 0 && end == 0 && NotOverrun(start, end, len)
      ensures data[..] == seq(size, _ => 0 as Byte) && Contents() == []
    {
      data := new Byte[size](_ => 0 as Byte);
      len := size;
      start := 0;
      end := 0;
    }

    /** `ring_get_size`. */
    function GetSize(): (r: nat)
      ensures r == len
    {
      len
    }

    /** `ring_get_current_size`: the number of bytes waiting. */
    function GetCurrentSize(): (r: int)
      reads this, data
      requires Valid()
      ensures 0 <= r <= len
      ensures r == |Contents()|
      ensures NotOverrun(start, end, len) ==> r == Distance(start, end, len)
    {
      AvailRead(start, end, len)
    }

    /** `ring_get_available_write_size`: the space a write can fill without overflow. */
    function GetAvailableWriteSize(): (r: int)
      reads this, data
      requires Valid()
      ensures 0 <= r <= len
      ensures r + |Contents()| == len
    {
      AvailWrite(start, end, len)
    }

    /**
     * `ring_get_read_regions`: where the next `min(available, maxLen)` waiting
     * bytes lie; the second region, at the start of the storage, is used
     * only when they run past the end.
     */
    function GetReadRegions(maxLen: nat): (r: Regions)
      reads this
      requires Valid()
      ensures r.total == Min(AvailRead(start, end, len), maxLen)
      ensures r.first == Some(Slot(start, len)) && r.size1 + r.size2 == r.total
      ensures r.first.value + r.size1 <= len && r.size2 <= r.first.value
      ensures r.second.Some? <==> r.total > len - Slot(start, len)
      ensures r.second.Some? ==> r.second == Some(0) && r.size1 == len - Slot(start, len)
      ensures r.second.None? ==> r.size2 == 0
    {
      var readLen := Min(AvailRead(start, end, len), maxLen);
      var startIdx := Slot(start, len);
      var toEnd := len - startIdx;
      if readLen <= toEnd then Regions(readLen, Some(startIdx), readLen, None, 0)
      else Regions(readLen, Some(startIdx), toEnd, Some(0), readLen - toEnd)
    }

    /** The read regions hold exactly the first `total` waiting bytes, in order. */
    lemma ReadRegionsHoldContents(maxLen: nat)
      requires Valid()
      ensures var r := GetReadRegions(maxLen);
        data[r.first.value..r.first.value + r.size1] + data[..r.size2] == Contents()[..r.total]
    {
      var r := GetReadRegions(maxLen);
      var lhs := data[r.first.value..r.first.value + r.size1] + data[..r.size2];
      var rhs := Contents()[..r.total];
      assert |lhs| == |rhs|;
      forall i | 0 <= i < |lhs|
        ensures lhs[i] == rhs[i]
      {
        assert rhs[i] == data[Slot(r.first.value + i, len)];
        if i < r.size1 {
          assert lhs[i] == data[r.first.value + i];
        } else {
          assert Slot(r.first.value + i, len) == i - r.size1;
          assert lhs[i] == data[i - r.size1];
        }
      }
    }

    /**
     * `ring_get_write_regions`: nothing (return 0, null pointers) for a
     * request longer than the storage; otherwise the `requested` slots that
     * follow the write index, the second region starting at slot 0 when
     * they run past the end.
     */
    function GetWriteRegions(requested: nat): (r: Regions)
      reads this
      requires Valid()
      ensures requested > len ==> r == Regions(0, None, 0, None, 0)
      ensures requested <= len ==> r.total == requested && r.size1 + r.size2 == requested
      ensures requested <= len ==> r.first == Some(Slot(end, len))
      ensures requested <= len ==> r.size1 == Min(requested, len - Slot(end, len))
      ensures r.second.Some? <==> r.size2 > 0
      ensures r.second.Some? ==> r.second == Some(0)
      ensures r.first.Some? ==> r.first.value + r.size1 <= len
      ensures r.second.Some? ==> r.first.value + r.size1 == len
    {
      if requested > len then Regions(0, None, 0, None, 0)
      else
        var endIdx := Slot(end, len);
        var toEnd := len - endIdx;
        var size1 := if requested < toEnd then requested else toEnd;
        if size1 < requested then Regions(size1 + (requested - size1), Some(endIdx), size1, Some(0), requested - size1)
        else Regions(size1, Some(endIdx), size1, None, 0)
    }

    /** `ring_advance_read_idx`. */
    method AdvanceReadIdx(amount: nat)
      requires Valid()
      modifies this
      ensures Valid() && end == old(end)
      ensures start == (old(start) + amount) % (2 * len)
      ensures old(NotOverrun(start, end, len)) && amount <= old(AvailRead(start, end, len)) ==>
        NotOverrun(start, end, len) && Contents() == old(Contents())[amount..]
    {
      if NotOverrun(start, end, len) && amount <= AvailRead(start, end, len) {
        AdvanceDrops(data[..], start, end, len, amount);
      }
      start := (start + amount) % (2 * len);
    }

    /**
     * `ring_advance_write_idx`: the write index moves on in every case; the
     * result reports an overflow, a move past the free space the ring had.
     */
    method AdvanceWriteIdx(amount: nat) returns (overflow: bool)
      requires Valid()
      modifies this
      ensures Valid() && start == old(start)
      ensures end == (old(end) + amount) % (2 * len)
      ensures overflow <==> amount > old(AvailWrite(start, end, len))
    {
      var oldEnd := end;
      end := (end + amount) % (2 * len);
      overflow := amount > AvailWrite(start, oldEnd, len);
    }

    /** `ring_buffer_read`: copies up to `maxLen` waiting bytes into `out` and consumes them. */
    method Read(out: array<Byte>, maxLen: nat) returns (readLen: nat)
      requires Valid() && out != data && maxLen <= out.Length
      modifies this, out
      ensures Valid() && end == old(end) && data[..] == old(data[..])
      ensures readLen == Min(old(GetCurrentSize()), maxLen)
      ensures start == (old(start) + readLen) % (2 * len)
      ensures out[..readLen] == old(Contents())[..readLen]
      ensures out[readLen..] == old(out[readLen..])
      ensures old(NotOverrun(start, end, len)) ==>
        NotOverrun(start, end, len) && Contents() == old(Contents())[readLen..]
    {
      var r := GetReadRegions(maxLen);
      ReadRegionsHoldContents(maxLen);
      CopyOut(r, out);
      AdvanceReadIdx(r.total);
      readLen := r.total;
    }

    /** Copies the read regions `r` to the front of `out` (the `memcpy` calls). */
    method CopyOut(r: Regions, out: array<Byte>)
      requires Valid() && out != data && r.first.Some? && r.total == r.size1 + r.size2 && r.total <= out.Length
      requires r.first.value + r.size1 <= len && r.size2 <= len && (r.second.None? ==> r.size2 == 0)
      modifies out
      ensures out[..r.total] == data[r.first.value..r.first.value + r.size1] + data[..r.size2]
      ensures out[r.total..] == old(out[r.total..])
    {
      forall k | 0 <= k < r.size1 {
        out[k] := data[r.first.value + k];
      }
      if r.second.Some? {
        forall k | 0 <= k < r.size2 {
          out[r.size1 + k] := data[k];
        }
      }
    }

    /** Copies `input` into the write regions (the `memcpy`/`memset` calls). */
    method StoreRegions(r: Regions, input: seq<Byte>)
      requires Valid() && r == GetWriteRegions(|input|) && r.first.Some?
      modifies data
      ensures data[..] == Stored(old(data[..]), Slot(end, len), input)
    {
      forall k | 0 <= k < r.size1 {
        data[r.first.value + k] := input[k];
      }
      if r.second.Some? {
        forall k | 0 <= k < r.size2 {
          data[k] := input[r.size1 + k];
        }
      }
      forall k | 0 <= k < len
        ensures data[k] == Stored(old(data[..]), Slot(end, len), input)[k]
      {
        var o := Offset(k, Slot(end, len), len);
        if o < |input| {
          assert Slot(r.first.value + o, len) == k;
        }
      }
    }

    /**
     * `ring_buffer_write`: stores `input` after the waiting bytes. A request
     * the write regions reject (empty, or longer than the storage) changes
     * nothing; otherwise the bytes are stored and the write index moves on,
     * overflow or not.
     */
    method Write(input: seq<Byte>) returns (outcome: WriteOutcome)
      requires Valid()
      modifies this, data
      ensures Valid() && start == old(start)
      ensures outcome == TooLong <==> (|input| == 0 || |input| > len)
      ensures outcome == TooLong ==> end == old(end) && data[..] == old(data[..])
      ensures outcome != TooLong ==>
        end == (old(end) + |input|) % (2 * len) &&
        data[..] == Stored(old(data[..]), Slot(old(end), len), input)
      ensures outcome == Overflowed <==> (outcome != TooLong && |input| > old(AvailWrite(start, end, len)))
      ensures outcome == Written && old(NotOverrun(start, end, len)) ==>
        NotOverrun(start, end, len) && Contents() == old(Contents()) + input
    {
      var r := GetWriteRegions(|input|);
      if r.total == 0 {
        return TooLong;
      }
      ghost var before := data[..];
      ghost var oldEnd := end;
      StoreRegions(r, input);
      if NotOverrun(start, end, len) && |input| <= AvailWrite(start, end, len) {
        StoreAppends(before, start, end, len, input);
      }
      var overflow := AdvanceWriteIdx(|input|);
      outcome := if overflow then Overflowed else Written;
    }

    /** `ring_fill`: as `Write`, with `size` copies of `c` converted to a byte. */
    method Fill(c: int, size: nat) returns (outcome: WriteOutcome)
      requires Valid()
      modifies this, data
      ensures Valid() && start == old(start)
      ensures outcome == TooLong <==> (size == 0 || size > len)
      ensures outcome == TooLong ==> end == old(end) && data[..] == old(data[..])
      ensures outcome != TooLong ==>
        end == (old(end) + size) % (2 * len) &&
        data[..] == Stored(old(data[..]), Slot(old(end), len), seq(size, _ => FillByte(c)))
      ensures outcome == Overflowed <==> (outcome != TooLong && size > old(AvailWrite(start, end, len)))
      ensures outcome == Written && old(NotOverrun(start, end, len)) ==>
        NotOverrun(start, end, len) && Contents() == old(Contents()) + seq(size, _ => FillByte(c))
    {
      var bytes := seq(size, _ => FillByte(c));
      var r := GetWriteRegions(size);
      if r.total == 0 {
        return TooLong;
      }
      ghost var before := data[..];
      StoreRegions(r, bytes);
      if NotOverrun(start, end, len) && size <= AvailWrite(start, end, len) {
        StoreAppends(before, start, end, len, bytes);
      }
      var overflow := AdvanceWriteIdx(size);
      outcome := if overflow then Overflowed else Written;
    }

    /** `ring_buffer_flush`: forgets every waiting byte. */
    method Flush()
      requires Valid()
      modifies this
      ensures Valid() && start == 0 && end == 0 && data[..] == old(data[..])
      ensures NotOverrun(start, end, len) && Contents() == [] && GetCurrentSize() == 0
    {
      start := 0;
      end := 0;
    }
  }

  /** Bytes written to an empty ring come back out of a read, in order, and leave it empty. */
  method WriteThenRead(ring: Ring, input: seq<Byte>, out: array<Byte>) returns (readLen: nat)
    requires ring.Valid() && out != ring.data && ring.Contents() == []
    requires 0 < |input| <= ring.len && |input| <= out.Length
    modifies ring, ring.data, out
    ensures readLen == |input| && out[..|input|] == input
    ensures ring.Valid() && ring.Contents() == []
  {
    assert NotOverrun(ring.start, ring.end, ring.len);
    var outcome := ring.Write(input);
    readLen := ring.Read(out, |input|);
  }

  /**
   * The write index moves on even when a write overflows: on a 4-byte ring,
   * writing 3 bytes and then 3 more reports an overflow and leaves 2 bytes
   * waiting, although 6 were written and none read.
   */
  method OverflowScenario() returns (outcome: WriteOutcome, size: int)
    ensures outcome == Overflowed && size == 2
  {
    var ring := new Ring(4);
    var first := ring.Write([1, 2, 3]);
    assert ring.start == 0 && ring.end == 3;
    assert AvailWrite(0, 3, 4) == 1;
    outcome := ring.Write([4, 5, 6]);
    assert ring.start == 0 && ring.end == 6;
    size := ring.GetCurrentSize();
    assert size == AvailRead(0, 6, 4);
  }
}
