/**
 * Worked runs of the assembler on a two-pool batch: the records it builds,
 * the epoch fallback for an unknown block, and the whole run failing when
 * one pool is missing from the results.
 */
module Scenarios {
  import opened Wrappers
  import opened Codec
  import opened Assembler

  const POOL_A: string := "0xA"
  const POOL_B: string := "0xB"

  /** Shares 0x64 / balance 0x3e8 for A, 0xc8 / 0x7d0 for B, read at block 100. */
  const BATCH: BatchResult := BatchResult(
    map[
      POOL_A := ContextResult([CallReturn(["0x64"]), CallReturn(["0x3e8"])]),
      POOL_B := ContextResult([CallReturn(["0xc8"]), CallReturn(["0x7d0"])])
    ],
    100)

  /** Short digit strings unfolded by Horner's rule. */
  lemma ShortValues(a: nat, b: nat, c: nat, d: nat, base: nat)
    ensures Numerals.Value([a, b], base) == a * base + b
    ensures Numerals.Value([a, b, c], base) == (a * base + b) * base + c
    ensures Numerals.Value([a, b, c, d], base) == ((a * base + b) * base + c) * base + d
  {
    assert [a] == [] + [a];
    Numerals.ValueSnoc([], a, base);
    assert [a, b] == [a] + [b];
    Numerals.ValueSnoc([a], b, base);
    assert [a, b, c] == [a, b] + [c];
    Numerals.ValueSnoc([a, b], c, base);
    assert [a, b, c, d] == [a, b, c] + [d];
    Numerals.ValueSnoc([a, b, c], d, base);
  }

  /** `dec` is what `hex` decodes to when both digit strings read back as the same `n`. */
  lemma DecodeOf(hex: string, n: nat, dec: string)
    requires IsHexLiteral(hex) && Numerals.Value(DigitValues(hex[2..]), 16) == n
    requires IsCanonicalDecimal(dec) && Numerals.Value(DigitValues(dec), 10) == n
    ensures DecodeHex(hex) == dec
  {
    DecimalRoundTrip(dec);
  }

  lemma Decode64()
    ensures DecodeHex("0x64") == "100"
  {
    assert "0x64"[2..] == "64" && DigitValues("64") == [6, 4];
    assert DigitValues("100") == [1, 0, 0];
    ShortValues(6, 4, 0, 0, 16);
    ShortValues(1, 0, 0, 0, 10);
    DecodeOf("0x64", 100, "100");
  }

  lemma Decode3e8()
    ensures DecodeHex("0x3e8") == "1000"
  {
    assert "0x3e8"[2..] == "3e8" && DigitValues("3e8") == [3, 14, 8];
    assert DigitValues("1000") == [1, 0, 0, 0];
    ShortValues(3, 14, 8, 0, 16);
    ShortValues(1, 0, 0, 0, 10);
    DecodeOf("0x3e8", 1000, "1000");
  }

  lemma DecodeC8()
    ensures DecodeHex("0xc8") == "200"
  {
    assert "0xc8"[2..] == "c8" && DigitValues("c8") == [12, 8];
    assert DigitValues("200") == [2, 0, 0];
    ShortValues(12, 8, 0, 0, 16);
    ShortValues(2, 0, 0, 0, 10);
    DecodeOf("0xc8", 200, "200");
  }

  lemma Decode7d0()
    ensures DecodeHex("0x7d0") == "2000"
  {
    assert "0x7d0"[2..] == "7d0" && DigitValues("7d0") == [7, 13, 0];
    assert DigitValues("2000") == [2, 0, 0, 0];
    ShortValues(7, 13, 0, 0, 16);
    ShortValues(2, 0, 0, 0, 10);
    DecodeOf("0x7d0", 2000, "2000");
  }

  /** A node that knows every block and stamps it 1700000000 seconds. */
  function StampedBlock(n: nat): BlockLookup {
    Found(1700000000)
  }

  /** A node that knows no block. */
  function UnknownBlock(n: nat): BlockLookup {
    NotFound
  }

  /** The record of a pool whose two calls each returned one value. */
  lemma RecordOf(address: string, batch: BatchResult, getBlock: nat -> BlockLookup, shares: string, balance: string)
    requires address in batch.results
    requires batch.results[address].callsReturnContext == [CallReturn([shares]), CallReturn([balance])]
    requires !getBlock(batch.blockNumber).LookupFailed?
    ensures SnapshotFor(address, batch, getBlock) == Ok(Snapshot(
      address, batch.blockNumber, BlockTimeMillis(getBlock(batch.blockNumber)), DecodeHex(shares), DecodeHex(balance)))
  {
  }

  /** Two pools assembled from their two records. */
  lemma TwoRecords(x: string, y: string, batch: BatchResult, getBlock: nat -> BlockLookup, a: Snapshot, b: Snapshot)
    requires SnapshotFor(x, batch, getBlock) == Ok(a)
    requires SnapshotFor(y, batch, getBlock) == Ok(b)
    ensures Assemble([x, y], batch, getBlock) == Ok([a, b])
  {
    var pools := [x, y];
    var first := [x];
    assert first[..0] == [] && pools[..1] == first;
    assert Assemble(first[..0], batch, getBlock) == Ok([]);
    assert [] + [a] == [a] && [a] + [b] == [a, b];
    assert Assemble(first, batch, getBlock) == Ok([a]);
  }

  lemma BatchEntries()
    ensures POOL_A in BATCH.results && POOL_B in BATCH.results && BATCH.blockNumber == 100
    ensures BATCH.results[POOL_A].callsReturnContext == [CallReturn(["0x64"]), CallReturn(["0x3e8"])]
    ensures BATCH.results[POOL_B].callsReturnContext == [CallReturn(["0xc8"]), CallReturn(["0x7d0"])]
  {
    assert POOL_A != POOL_B;
  }

  /** Block 100 found with timestamp 1700000000: both records carry 1700000000000 ms. */
  lemma TwoPoolRun()
    ensures Assemble([POOL_A, POOL_B], BATCH, StampedBlock) == Ok([
      Snapshot(POOL_A, 100, 1700000000000, "100", "1000"),
      Snapshot(POOL_B, 100, 1700000000000, "200", "2000")])
  {
    Decode64();
    Decode3e8();
    DecodeC8();
    Decode7d0();
    BatchEntries();
    RecordOf(POOL_A, BATCH, StampedBlock, "0x64", "0x3e8");
    RecordOf(POOL_B, BATCH, StampedBlock, "0xc8", "0x7d0");
    TwoRecords(POOL_A, POOL_B, BATCH, StampedBlock, Snapshot(POOL_A, 100, 1700000000000, "100", "1000"), Snapshot(POOL_B, 100, 1700000000000, "200", "2000"));
  }

  /** Block 100 unknown to the node: the records are still produced, stamped at the epoch. */
  lemma UnknownBlockRun()
    ensures Assemble([POOL_A, POOL_B], BATCH, UnknownBlock) == Ok([
      Snapshot(POOL_A, 100, 0, "100", "1000"),
      Snapshot(POOL_B, 100, 0, "200", "2000")])
  {
    Decode64();
    Decode3e8();
    DecodeC8();
    Decode7d0();
    BatchEntries();
    RecordOf(POOL_A, BATCH, UnknownBlock, "0x64", "0x3e8");
    RecordOf(POOL_B, BATCH, UnknownBlock, "0xc8", "0x7d0");
    TwoRecords(POOL_A, POOL_B, BATCH, UnknownBlock, Snapshot(POOL_A, 100, 0, "100", "1000"), Snapshot(POOL_B, 100, 0, "200", "2000"));
  }

  /** B absent from the results: the run throws on B, so A's record is not produced either. */
  lemma MissingPoolRun()
    ensures Assemble([POOL_A, POOL_B], BatchResult(map[POOL_A := BATCH.results[POOL_A]], 100), StampedBlock)
      == Err(MissingResult(POOL_B))
  {
    assert POOL_A != POOL_B;
    var batch := BatchResult(map[POOL_A := BATCH.results[POOL_A]], 100);
    assert POOL_B !in batch.results;
    assert SnapshotFor(POOL_B, batch, StampedBlock) == Err(MissingResult(POOL_B));
    var pools := [POOL_A, POOL_B];
    assert pools[..1] == [POOL_A] && pools[..1][..0] == [];
    AssembleOkIff([POOL_A], batch, StampedBlock);
    assert Resolvable(batch, POOL_A);
  }
}
