/** The sample path of mma8451.py: `DataProcessor.reg2num` (integer path),
    `prepare_data` and the batching loop of `DataProcessor.run`, and the
    per-interrupt arithmetic of `ThreadedDataReader.run`. */
module Samples {
  import opened Wrappers
  import opened Registers
  import opened Bus
  import opened Iic
  import opened ByteMath

  /** One row of the data array: the x, y and z readings. */
  datatype Sample = Sample(x: int, y: int, z: int)

  function Pow2(k: nat): (p: nat)
    ensures p >= 1
  {
    if k == 0 then 1 else 2 * Pow2(k - 1)
  }

  /** The powers the 8- and 14-bit decodings use. */
  lemma Pow2Values()
    ensures Pow2(7) == 128 && Pow2(8) == 256 && Pow2(13) == 8192 && Pow2(14) == 16384
  {
    assert Pow2(4) == 16;
    assert Pow2(7) == 128;
    assert Pow2(10) == 1024;
  }

  /** The 14-bit word of a byte pair: the upper eight bits from the first
      byte, the lower six from the top of the second. */
  function RawWord(msb: Byte, lsb: Byte): (w: int)
    ensures 0 <= w < 16384
  {
    (msb as int * 256 + lsb as int) / 4
  }

  /** `((msb << 8) | lsb) >> 2`, the shift-and-or `reg2num` writes, is the
      raw word. */
  lemma RawWordBits(msb: Byte, lsb: Byte)
    ensures ((((msb as bv16) << 8) | (lsb as bv16)) >> 2) as int == RawWord(msb, lsb)
  {
  }

  /** `reg2num` without float conversion: the 14-bit word of a byte pair,
      read as two's complement of width `bitDepth` (`maxn` is
      2**(bitDepth-1)-1 and `signed_maxn` is 2**bitDepth). */
  function Reg2Num(msb: Byte, lsb: Byte, bitDepth: nat): (r: int)
    requires 1 <= bitDepth
    ensures bitDepth == 14 ==> -8192 <= r <= 8191
  {
    Pow2Values();
    var num := RawWord(msb, lsb);
    if num > Pow2(bitDepth - 1) - 1 then num - Pow2(bitDepth) else num
  }

  /** At bit depth 14 the result is the raw word when it is at most 8191 and
      the raw word minus 16384 otherwise, so it lies in [-8192, 8191] and is
      congruent to the raw word. */
  lemma Reg2Num14(msb: Byte, lsb: Byte)
    ensures var raw := RawWord(msb, lsb);
            && -8192 <= Reg2Num(msb, lsb, 14) <= 8191
            && (raw <= 8191 ==> Reg2Num(msb, lsb, 14) == raw)
            && (raw > 8191 ==> Reg2Num(msb, lsb, 14) == raw - 16384)
  {
    Pow2Values();
  }

  /** The byte pair the sensor sends for a 14-bit value: the value's two's
      complement, left-aligned in 16 bits. */
  function Encode14(v: int): (pair: (Byte, Byte))
    requires -8192 <= v <= 8191
  {
    var u := if v < 0 then v + 16384 else v;
    (ToByte(u / 64), ToByte(u % 64 * 4))
  }

  /** Decoding undoes encoding for every 14-bit value. */
  lemma Reg2Num14Decodes(v: int)
    requires -8192 <= v <= 8191
    ensures Reg2Num(Encode14(v).0, Encode14(v).1, 14) == v
  {
    var u := if v < 0 then v + 16384 else v;
    var (msb, lsb) := Encode14(v);
    RawWordOf(msb, lsb, u);
    Reg2Num14(msb, lsb);
  }

  /** A pair holding the upper eight and lower six bits of a 14-bit word `u`
      (the latter shifted up by two) has `u` as its raw word. */
  lemma RawWordOf(msb: Byte, lsb: Byte, u: int)
    requires 0 <= u < 16384
    requires msb as int == u / 64 && lsb as int == u % 64 * 4
    ensures RawWord(msb, lsb) == u
  {
    assert msb as int * 256 + lsb as int == 4 * u;
  }

  /** Encoding a decoded pair gives back the pair with the two unused low
      bits of the second byte cleared. */
  lemma Reg2Num14Encodes(msb: Byte, lsb: Byte)
    ensures Encode14(Reg2Num(msb, lsb, 14)) == (msb, lsb & 0xFC)
  {
    var v := Reg2Num(msb, lsb, 14);
    RawParts(msb, lsb);
    assert (if v < 0 then v + 16384 else v) == RawWord(msb, lsb) by { Reg2Num14(msb, lsb); }
    ClearLow2(lsb);
    EncodeParts(v, msb, lsb & 0xFC);
  }

  /** The raw word's high and low parts: the first byte, and the second
      byte's upper six bits. */
  lemma RawParts(msb: Byte, lsb: Byte)
    ensures RawWord(msb, lsb) / 64 == msb as int
    ensures RawWord(msb, lsb) % 64 * 4 == lsb as int / 4 * 4
  {
    var m, l := msb as int, lsb as int;
    var raw := RawWord(msb, lsb);
    assert raw == 64 * m + l / 4 by {
      assert m * 256 + l == 4 * (64 * m + l / 4) + l % 4;
    }
    assert 0 <= l / 4 < 64;
  }

  lemma EncodeParts(v: int, msb: Byte, lsb: Byte)
    requires -8192 <= v <= 8191
    requires var u := if v < 0 then v + 16384 else v;
             u / 64 == msb as int && u % 64 * 4 == lsb as int
    ensures Encode14(v) == (msb, lsb)
  {
    var u := if v < 0 then v + 16384 else v;
    SameByte(ToByte(u / 64), msb);
    SameByte(ToByte(u % 64 * 4), lsb);
  }

  // ------------------------------------------------------------ prepare_data

  /** Row `k` of `prepare_data`: the three pairs at bytes 6k .. 6k+5. */
  function RowAt(bitvec: seq<Byte>, k: nat, bitDepth: nat): Sample
    requires 1 <= bitDepth && 6 * k + 6 <= |bitvec|
  {
    var i := 6 * k;
    Sample(Reg2Num(bitvec[i], bitvec[i + 1], bitDepth),
           Reg2Num(bitvec[i + 2], bitvec[i + 3], bitDepth),
           Reg2Num(bitvec[i + 4], bitvec[i + 5], bitDepth))
  }

  /** A row depends only on its own six bytes. */
  lemma RowAtSlice(bitvec: seq<Byte>, k: nat, bitDepth: nat)
    requires 1 <= bitDepth && 6 * k + 6 <= |bitvec|
    ensures RowAt(bitvec, k, bitDepth) == RowAt(bitvec[6 * k..6 * k + 6], 0, bitDepth)
  {
  }

  /** What `prepare_data` returns or raises: a length that is not a multiple
      of six runs the loop past the end of the input. */
  function Decoded(bitvec: seq<Byte>, bitDepth: nat): Result<seq<Sample>>
    requires 1 <= bitDepth
  {
    if |bitvec| % 6 != 0 then Err(IndexError)
    else Ok(seq(|bitvec| / 6, k requires 0 <= k < |bitvec| / 6 => RowAt(bitvec, k, bitDepth)))
  }

  /** `prepare_data`: fills the rows one six-byte group at a time. */
  method PrepareData(bitvec: seq<Byte>, bitDepth: nat) returns (r: Result<seq<Sample>>)
    requires 1 <= bitDepth
    ensures r.Err? <==> |bitvec| % 6 != 0
    ensures r.Err? ==> r.error == IndexError
    ensures r.Ok? ==> |r.value| == |bitvec| / 6
                      && forall k :: 0 <= k < |r.value| ==> r.value[k] == RowAt(bitvec, k, bitDepth)
    ensures r == Decoded(bitvec, bitDepth)
  {
    var data := new Sample[|bitvec| / 6](_ => Sample(0, 0, 0));
    var i, row := 0, 0;
    while i < |bitvec|
      invariant 0 <= i <= |bitvec| && i == 6 * row
      invariant 6 * data.Length <= |bitvec| < 6 * data.Length + 6
      invariant forall k :: 0 <= k < row ==> data[k] == RowAt(bitvec, k, bitDepth)
    {
      if i + 6 > |bitvec| {
        assert |bitvec| == 6 * row + (|bitvec| - i) && 0 < |bitvec| - i < 6;
        return Err(IndexError);
      }
      data[row] := RowAt(bitvec, row, bitDepth);
      i, row := i + 6, row + 1;
    }
    assert |bitvec| == 6 * row && row == data.Length;
    r := Ok(data[..]);
    assert data[..] == Decoded(bitvec, bitDepth).value;
  }

  /** Appending two whole blocks and decoding is decoding each and appending
      the rows, which is what `np.append` of two decoded blocks produces. */
  lemma DecodedAppend(a: seq<Byte>, b: seq<Byte>, bitDepth: nat)
    requires 1 <= bitDepth && |a| % 6 == 0 && |b| % 6 == 0
    ensures Decoded(a + b, bitDepth) == Ok(Decoded(a, bitDepth).value + Decoded(b, bitDepth).value)
  {
    var ab := a + b;
    var p, q := |a| / 6, |b| / 6;
    assert |ab| == 6 * (p + q);
    assert |ab| % 6 == 0 && |ab| / 6 == p + q;
    var rows := Decoded(ab, bitDepth).value;
    var wanted := Decoded(a, bitDepth).value + Decoded(b, bitDepth).value;
    forall k | 0 <= k < p + q ensures rows[k] == wanted[k] {
      RowAtSlice(ab, k, bitDepth);
      if k < p {
        RowAtSlice(a, k, bitDepth);
        assert ab[6 * k..6 * k + 6] == a[6 * k..6 * k + 6];
      } else {
        var m := k - p;
        RowAtSlice(b, m, bitDepth);
        assert ab[6 * k..6 * k + 6] == b[6 * m..6 * m + 6];
      }
    }
    assert |wanted| == p + q;
    assert rows == wanted;
  }

  /** The bytes of a run of 14-bit rows, x, y, z pair by pair. */
  function EncodeRows(rows: seq<Sample>): (bytes: seq<Byte>)
    requires forall k :: 0 <= k < |rows| ==> In14(rows[k])
    ensures |bytes| == 6 * |rows|
    decreases |rows|
  {
    if rows == [] then []
    else
      assert In14(rows[0]);
      EncodeRow(rows[0]) + EncodeRows(rows[1..])
  }

  /** The six bytes of one row: x, y, z, most significant byte first. */
  function EncodeRow(r: Sample): (bytes: seq<Byte>)
    requires In14(r)
    ensures |bytes| == 6
  {
    [Encode14(r.x).0, Encode14(r.x).1, Encode14(r.y).0, Encode14(r.y).1,
     Encode14(r.z).0, Encode14(r.z).1]
  }

  predicate In14(s: Sample) {
    -8192 <= s.x <= 8191 && -8192 <= s.y <= 8191 && -8192 <= s.z <= 8191
  }

  /** `prepare_data` at bit depth 14 recovers every row the sensor sent. */
  lemma {:induction false} PrepareDataRoundTrip(rows: seq<Sample>)
    requires forall k :: 0 <= k < |rows| ==> In14(rows[k])
    ensures Decoded(EncodeRows(rows), 14) == Ok(rows)
    decreases |rows|
  {
    if rows == [] {
      assert Decoded([], 14).value == [];
    } else {
      var later := rows[1..];
      EncodeRowsCons(rows);
      var head, tail := EncodeRow(rows[0]), EncodeRows(later);
      PrepareDataRoundTrip(later);
      RowRoundTrip(rows[0]);
      DecodedAppend(head, tail, 14);
      assert [rows[0]] + later == rows;
    }
  }

  /** The bytes of a non-empty run are its first row's six bytes followed
      by the bytes of the rest. */
  lemma EncodeRowsCons(rows: seq<Sample>)
    requires rows != [] && forall k :: 0 <= k < |rows| ==> In14(rows[k])
    ensures forall k :: 0 <= k < |rows| - 1 ==> In14(rows[1..][k])
    ensures EncodeRows(rows) == EncodeRow(rows[0]) + EncodeRows(rows[1..])
  {
    assert forall k :: 0 <= k < |rows| - 1 ==> rows[1..][k] == rows[k + 1];
  }

  /** One row's six bytes decode to that row. */
  lemma RowRoundTrip(r: Sample)
    requires In14(r)
    ensures Decoded(EncodeRow(r), 14) == Ok([r])
  {
    var block := EncodeRow(r);
    OneRow(block);
    EncodedRow(r);
  }

  /** Six bytes are one row. */
  lemma OneRow(block: seq<Byte>)
    requires |block| == 6
    ensures Decoded(block, 14) == Ok([RowAt(block, 0, 14)])
  {
    var d := Decoded(block, 14).value;
    assert |d| == 1 && d[0] == RowAt(block, 0, 14);
    assert d == [RowAt(block, 0, 14)];
  }

  /** Each of the three pairs of an encoded row decodes to its reading. */
  lemma EncodedRow(r: Sample)
    requires In14(r)
    ensures RowAt(EncodeRow(r), 0, 14) == r
  {
    var block := EncodeRow(r);
    assert (block[0], block[1]) == Encode14(r.x);
    assert (block[2], block[3]) == Encode14(r.y);
    assert (block[4], block[5]) == Encode14(r.z);
    Reg2Num14Decodes(r.x);
    Reg2Num14Decodes(r.y);
    Reg2Num14Decodes(r.z);
  }

  // ---------------------------------------------------------------- the fold

  /** What `DataProcessor.run` has done when its queue runs dry or a block
      fails to decode: the batches handed to the callback, in order; the
      partial batch it was holding (dropped on exit); and the exception that
      ended it, if any. */
  datatype RunOutcome = RunOutcome(batches: seq<seq<Sample>>, pending: Option<seq<Sample>>,
                                   failure: Option<PyError>)

  /** The loop of `run` from accumulator `data` over the remaining decoded
      blocks: the first block after an empty accumulator only starts one;
      every later block is appended, and once the rows number at least `n`
      (`len(data) > n - 1`) they go to the callback and the accumulator
      empties. */
  function RunFrom(data: Option<seq<Sample>>, decoded: seq<Result<seq<Sample>>>, n: int): RunOutcome
    decreases |decoded|
  {
    if decoded == [] then RunOutcome([], data, None)
    else match decoded[0]
      case Err(e) => RunOutcome([], data, Some(e))
      case Ok(rows) =>
        if data.None? then RunFrom(Some(rows), decoded[1..], n)
        else
          var acc := data.value + rows;
          if |acc| > n - 1 then
            var rest := RunFrom(None, decoded[1..], n);
            RunOutcome([acc] + rest.batches, rest.pending, rest.failure)
          else RunFrom(Some(acc), decoded[1..], n)
  }

  function DecodeAll(blocks: seq<seq<Byte>>, bitDepth: nat): (d: seq<Result<seq<Sample>>>)
    requires 1 <= bitDepth
  {
    seq(|blocks|, i requires 0 <= i < |blocks| => Decoded(blocks[i], bitDepth))
  }

  /** `DataProcessor.run` over the blocks the queue delivers before it times
      out; returns the batches passed to the callback, in order, and the
      exception that stopped it, if one did. */
  method Run(blocks: seq<seq<Byte>>, bitDepth: nat, n: int)
    returns (batches: seq<seq<Sample>>, failure: Option<PyError>)
    requires 1 <= bitDepth
    ensures var out := RunFrom(None, DecodeAll(blocks, bitDepth), n);
            batches == out.batches && failure == out.failure
  {
    ghost var decoded := DecodeAll(blocks, bitDepth);
    ghost var whole := RunFrom(None, decoded, n);
    var data: Option<seq<Sample>> := None;
    batches := [];
    var k := 0;
    while k < |blocks|
      invariant 0 <= k <= |blocks|
      invariant var rest := RunFrom(data, decoded[k..], n);
                whole == RunOutcome(batches + rest.batches, rest.pending, rest.failure)
    {
      assert decoded[k..][0] == Decoded(blocks[k], bitDepth);
      assert decoded[k..][1..] == decoded[k + 1..];
      var rows := PrepareData(blocks[k], bitDepth);
      if rows.Err? {
        return batches, Some(rows.error);
      }
      if data.None? {
        data := Some(rows.value);
      } else {
        var acc := data.value + rows.value;
        if |acc| > n - 1 {
          batches := batches + [acc];
          data := None;
        } else {
          data := Some(acc);
        }
      }
      k := k + 1;
    }
    assert decoded[k..] == [];
    failure := None;
  }

  // ------------------------------------------------------- facts about the fold

  /** Every batch handed to the callback holds at least `n` rows. */
  lemma {:induction false} BatchesAreFull(data: Option<seq<Sample>>, decoded: seq<Result<seq<Sample>>>, n: int)
    ensures forall b :: b in RunFrom(data, decoded, n).batches ==> |b| >= n
    decreases |decoded|
  {
    if decoded != [] && decoded[0].Ok? {
      var rows := decoded[0].value;
      if data.None? {
        BatchesAreFull(Some(rows), decoded[1..], n);
      } else if |data.value + rows| > n - 1 {
        BatchesAreFull(None, decoded[1..], n);
      } else {
        BatchesAreFull(Some(data.value + rows), decoded[1..], n);
      }
    }
  }

  function Flatten(rows: seq<seq<Sample>>): seq<Sample>
    decreases |rows|
  {
    if rows == [] then [] else rows[0] + Flatten(rows[1..])
  }

  /** The rows of the blocks before the first one that fails to decode. */
  function OkPrefix(decoded: seq<Result<seq<Sample>>>): seq<seq<Sample>>
    decreases |decoded|
  {
    if decoded == [] || decoded[0].Err? then [] else [decoded[0].value] + OkPrefix(decoded[1..])
  }

  function Held(data: Option<seq<Sample>>): seq<Sample> {
    if data.Some? then data.value else []
  }

  /** No row is lost, duplicated or reordered before the run ends: the
      batches followed by the dropped partial batch are exactly the rows held
      at the start followed by the rows of every block decoded. */
  lemma {:induction false} RunKeepsRows(data: Option<seq<Sample>>, decoded: seq<Result<seq<Sample>>>, n: int)
    ensures var out := RunFrom(data, decoded, n);
            Flatten(out.batches) + Held(out.pending) == Held(data) + Flatten(OkPrefix(decoded))
    decreases |decoded|
  {
    if decoded != [] && decoded[0].Ok? {
      var rows := decoded[0].value;
      var tail := Flatten(OkPrefix(decoded[1..]));
      assert Flatten(OkPrefix(decoded)) == rows + tail;
      if data.None? {
        RunKeepsRows(Some(rows), decoded[1..], n);
      } else if |data.value + rows| > n - 1 {
        RunKeepsRows(None, decoded[1..], n);
        var acc := data.value + rows;
        var rest := RunFrom(None, decoded[1..], n);
        assert RunFrom(data, decoded, n) == RunOutcome([acc] + rest.batches, rest.pending, rest.failure);
        FlushKeepsRows(data.value, rows, rest.batches, Held(rest.pending), tail);
      } else {
        RunKeepsRows(Some(data.value + rows), decoded[1..], n);
      }
    }
  }

  /** Emitting the accumulated rows as a batch in front of the later
      batches keeps every row in order. */
  lemma FlushKeepsRows(held: seq<Sample>, rows: seq<Sample>, batches: seq<seq<Sample>>,
                       pending: seq<Sample>, tail: seq<Sample>)
    requires Flatten(batches) + pending == tail
    ensures Flatten([held + rows] + batches) + pending == held + (rows + tail)
  {
    var acc := held + rows;
    assert ([acc] + batches)[1..] == batches;
    assert Flatten([acc] + batches) == acc + Flatten(batches);
  }

  /** A batch needs a block that starts it and at least one more that
      completes it, so the callback runs at most half as many times as there
      are blocks (counting a block already held as one). */
  lemma {:induction false} BatchesAtMostHalf(data: Option<seq<Sample>>, decoded: seq<Result<seq<Sample>>>, n: int)
    ensures 2 * |RunFrom(data, decoded, n).batches| <= |decoded| + (if data.Some? then 1 else 0)
    decreases |decoded|
  {
    if decoded != [] && decoded[0].Ok? {
      var rows := decoded[0].value;
      if data.None? {
        BatchesAtMostHalf(Some(rows), decoded[1..], n);
      } else if |data.value + rows| > n - 1 {
        BatchesAtMostHalf(None, decoded[1..], n);
      } else {
        BatchesAtMostHalf(Some(data.value + rows), decoded[1..], n);
      }
    }
  }

  /** In particular a single block never reaches the callback, whatever `n`. */
  lemma FirstBlockOnlyStarts(block: Result<seq<Sample>>, n: int)
    ensures RunFrom(None, [block], n).batches == []
  {
    BatchesAtMostHalf(None, [block], n);
  }

  // ------------------------------------------------------------ the drain step

  /** `status & F_STATUS.F_CNT`: the number of samples in the FIFO. */
  function FifoCount(status: Byte): (c: int)
    ensures 0 <= c <= 63
    ensures c == (status as int) % 64
  {
    Low6(status);
    (status & F_STATUS_F_CNT.mask) as int
  }

  /** The overflow warning fires exactly on a count of 32; the F_OVF bit is
      not looked at, so a status with F_OVF and a count of 0 is silent. */
  lemma OverflowWarning(status: Byte)
    ensures FifoCount(status) == 32 <==> status & 0x3F == 0x20
    ensures FifoCount(0x80) != 32 && FifoCount(0xA0) == 32 && FifoCount(0x20) == 32
  {
  }

  /** Python's `round(p / q)`: the nearest integer, ties to the even one. */
  function RoundHalfEven(p: int, q: int): (r: int)
    requires q > 0
    ensures 2 * (r * q - p) <= q && 2 * (p - r * q) <= q
    ensures 2 * (r * q - p) == q || 2 * (p - r * q) == q ==> r % 2 == 0
  {
    var fl := p / q;
    var rem := p % q;
    assert fl * q - p == -rem && (fl + 1) * q - p == q - rem;
    if 2 * rem > q then fl + 1
    else if 2 * rem < q then fl
    else if fl % 2 == 0 then fl else fl + 1
  }

  /** The number of bytes one drain asks for: `f_cnt * 3 * round(bit_depth / 8)`. */
  function DrainLength(status: Byte, bitDepth: int): int {
    FifoCount(status) * 3 * RoundHalfEven(bitDepth, 8)
  }

  /** Six bytes per sample at bit depth 14, three at bit depth 8. */
  lemma DrainLengths(status: Byte)
    ensures DrainLength(status, 14) == 6 * FifoCount(status)
    ensures DrainLength(status, 8) == 3 * FifoCount(status)
  {
    assert RoundHalfEven(14, 8) == 2;
    assert RoundHalfEven(8, 8) == 1;
  }

  /** One pass of `ThreadedDataReader.run`: read F_STATUS, warn on a count of
      32, block-read from OUT_X_MSB the computed length (`data_size` and
      `data` are what the bus reports), read F_STATUS again. The block is
      queued even when the count is 0. Nothing is written to the device. */
  method Drain(iic: Iic, bitDepth: int, dataSize: int, data: seq<Byte>)
    returns (warn: bool, length: int, block: Result<seq<Byte>>)
    ensures var status := Get(iic.dev.regs, 0x00);
            && (warn <==> status & 0x3F == 0x20)
            && length == DrainLength(status, bitDepth)
            && (bitDepth == 14 ==> length == 6 * (status & 0x3F) as int)
            && (bitDepth == 8 ==> length == 3 * (status & 0x3F) as int)
    ensures block.Err? <==> dataSize < 0
    ensures block.Ok? ==> block.value == data
  {
    var status := iic.ReadRegister(0x00);
    var fCnt := FifoCount(status);
    warn := fCnt == 32;
    OverflowWarning(status);
    DrainLengths(status);
    length := fCnt * 3 * RoundHalfEven(bitDepth, 8);
    block := BlockRead(dataSize, data);
    var _ := iic.ReadRegister(0x00);
  }

  // ------------------------------------------------------ eight-bit samples

  /** As written, eight-bit mode asks for three bytes per sample but decodes
      six bytes per row: a drain of one sample cannot be decoded at all. */
  lemma EightBitOddCountFails(status: Byte, block: seq<Byte>)
    requires FifoCount(status) % 2 == 1 && |block| == DrainLength(status, 8)
    ensures Decoded(block, 8) == Err(IndexError)
  {
    DrainLengths(status);
  }

  /** ... and two samples (1, 0, 0) and (0, 0, 0), sent as their three
      most significant bytes each, come out as one row (64, 0, 0). */
  lemma EightBitPairsSamples()
    ensures Decoded([1, 0, 0, 0, 0, 0], 8) == Ok([Sample(64, 0, 0)])
  {
    var block: seq<Byte> := [1, 0, 0, 0, 0, 0];
    assert RowAt(block, 0, 8) == Sample(64, 0, 0) by {
      assert RawWord(1, 0) == 64 && RawWord(0, 0) == 0;
      Pow2Values();
    }
    var d := Decoded(block, 8).value;
    assert |d| == 1 && d[0] == RowAt(block, 0, 8);
    assert d == [Sample(64, 0, 0)];
  }

  /** An eight-bit reading: the most significant byte as two's complement. */
  function Signed8(b: Byte): (v: int)
    ensures -128 <= v <= 127
    ensures (v + 256) % 256 == b as int
  {
    if b as int > 127 then b as int - 256 else b as int
  }

  /** The decoding the eight-bit drain calls for: three bytes per sample,
      one per axis. */
  function Decoded8(bitvec: seq<Byte>): Result<seq<Sample>> {
    if |bitvec| % 3 != 0 then Err(IndexError)
    else Ok(seq(|bitvec| / 3, k requires 0 <= k < |bitvec| / 3 =>
                 Sample(Signed8(bitvec[3 * k]), Signed8(bitvec[3 * k + 1]), Signed8(bitvec[3 * k + 2]))))
  }

  /** Every eight-bit drain decodes, into exactly as many rows as the FIFO
      count, and each reading is the signed value of its own byte. */
  lemma EightBitDrainDecodes(status: Byte, block: seq<Byte>)
    requires |block| == DrainLength(status, 8)
    ensures Decoded8(block).Ok?
    ensures |Decoded8(block).value| == FifoCount(status)
    ensures forall k :: 0 <= k < FifoCount(status) ==>
              Decoded8(block).value[k].x == Signed8(block[3 * k])
              && Decoded8(block).value[k].y == Signed8(block[3 * k + 1])
              && Decoded8(block).value[k].z == Signed8(block[3 * k + 2])
  {
    DrainLengths(status);
  }

  /** The eight-bit decoding recovers every reading in [-128, 127] from its
      byte. */
  lemma Signed8RoundTrip(v: int)
    requires -128 <= v <= 127
    ensures Signed8(ToByte((v + 256) % 256)) == v
  {
    var u := if v < 0 then v + 256 else v;
    assert (v + 256) % 256 == u;
    assert ToByte(u) as int == u;
  }
}
