// The file checksum of section 2.2.2: records taken in four-byte sections, combined by exclusive or.
module Checksum {
  import opened Wrappers

  type Byte = b: int | 0 <= b < 0x100
  type Bytes = seq<Byte>

  const LF: Byte := 0x0A
  const WORD: nat := 0x1_0000_0000

  // --- exclusive or -------------------------------------------------------------

  function Xor(a: nat, b: nat): nat
    decreases a + b
  {
    if a == 0 && b == 0 then 0
    else 2 * Xor(a / 2, b / 2) + (if a % 2 != b % 2 then 1 else 0)
  }

  lemma XorZero(a: nat)
    ensures Xor(a, 0) == a && Xor(0, a) == a
  {
  }

  lemma {:induction a, b} XorCommutes(a: nat, b: nat)
    ensures Xor(a, b) == Xor(b, a)
    decreases a + b
  {
  }

  lemma {:induction false} XorAssociates(a: nat, b: nat, c: nat)
    ensures Xor(Xor(a, b), c) == Xor(a, Xor(b, c))
    decreases a + b + c
  {
    if a + b + c > 0 {
      XorAssociates(a / 2, b / 2, c / 2);
    }
  }

  lemma {:induction false} XorSelf(a: nat)
    ensures Xor(a, a) == 0
  {
    if a > 0 {
      XorSelf(a / 2);
    }
  }

  // Exclusive or with one number can be undone, so it keeps different numbers different.
  lemma XorCancels(a: nat, b: nat, c: nat)
    ensures Xor(a, c) == Xor(b, c) <==> a == b
    ensures Xor(c, a) == Xor(c, b) <==> a == b
  {
    XorAssociates(a, c, c);
    XorAssociates(b, c, c);
    XorSelf(c);
    XorZero(a);
    XorZero(b);
    XorCommutes(a, c);
    XorCommutes(b, c);
  }

  function Pow2(k: nat): (p: nat)
    ensures p >= 1
  {
    if k == 0 then 1 else 2 * Pow2(k - 1)
  }

  lemma {:induction false} XorBound(a: nat, b: nat, k: nat)
    requires a < Pow2(k) && b < Pow2(k)
    ensures Xor(a, b) < Pow2(k)
  {
    if k > 0 {
      XorBound(a / 2, b / 2, k - 1);
    }
  }

  lemma XorIsWord(a: nat, b: nat)
    requires a < WORD && b < WORD
    ensures Xor(a, b) < WORD
  {
    assert Pow2(4) == 0x10;
    assert Pow2(8) == 0x100;
    assert Pow2(12) == 0x1000;
    assert Pow2(16) == 0x1_0000;
    assert Pow2(20) == 0x10_0000;
    assert Pow2(24) == 0x100_0000;
    assert Pow2(28) == 0x1000_0000;
    assert Pow2(32) == WORD;
    XorBound(a, b, 32);
  }

  // --- the checksum ---------------------------------------------------------------

  function ByteAt(record: Bytes, i: nat): Byte {
    if i < |record| then record[i] else 0
  }

  // The first four bytes of the record, big-endian, as if NULs followed the record.
  function Section(record: Bytes): (w: nat)
    ensures w < WORD
  {
    0x100_0000 * ByteAt(record, 0) + 0x1_0000 * ByteAt(record, 1) + 0x100 * ByteAt(record, 2) + ByteAt(record, 3)
  }

  function Rest(record: Bytes): Bytes {
    if |record| <= 4 then [] else record[4..]
  }

  function RecordChecksum(record: Bytes): (c: nat)
    ensures c < WORD
    decreases |record|
  {
    if record == [] then 0
    else
      XorIsWord(Section(record), RecordChecksum(Rest(record)));
      Xor(Section(record), RecordChecksum(Rest(record)))
  }

  function FileChecksum(records: seq<Bytes>): (c: nat)
    ensures c < WORD
  {
    if records == [] then 0
    else
      XorIsWord(RecordChecksum(records[0]), FileChecksum(records[1..]));
      Xor(RecordChecksum(records[0]), FileChecksum(records[1..]))
  }

  // What the original refuses with ChecksumError.
  predicate ValidRecord(record: Bytes) {
    LF !in record && forall i :: 0 <= i < |record| ==> record[i] <= 0x7F
  }

  method ComputeRecordChecksum(record: Bytes) returns (acc: nat)
    ensures acc == RecordChecksum(record)
  {
    acc := 0;
    var i := 0;
    XorZero(RecordChecksum(record));
    while i < |record|
      invariant 0 <= i
      invariant acc < WORD
      invariant Xor(acc, RecordChecksum(if i < |record| then record[i..] else [])) == RecordChecksum(record)
    {
      var section := record[i..];
      XorAssociates(acc, Section(section), RecordChecksum(Rest(section)));
      XorIsWord(acc, Section(section));
      assert i + 4 < |record| ==> Rest(section) == record[i + 4..];
      acc := Xor(acc, Section(section));
      i := i + 4;
    }
    XorZero(acc);
    acc := acc % WORD;
  }

  // The pseudocode of section 2.2.2: each section is shifted in byte by byte and padded by shifting.
  method ShiftAndPad(record: Bytes) returns (checksum: nat)
    ensures checksum == RecordChecksum(record)
  {
    checksum := 0;
    var i := 0;
    XorZero(RecordChecksum(record));
    while i < |record|
      invariant 0 <= i
      invariant Xor(checksum, RecordChecksum(if i < |record| then record[i..] else [])) == RecordChecksum(record)
    {
      var section, start := record[i..], i;
      var value: nat := 0;
      var j := 0;
      while j < 4
        invariant 0 <= j <= 4 && i == start + j
        invariant value == (if j == 0 then 0
                            else if j == 1 then ByteAt(section, 0)
                            else if j == 2 then 0x100 * ByteAt(section, 0) + ByteAt(section, 1)
                            else if j == 3 then 0x1_0000 * ByteAt(section, 0) + 0x100 * ByteAt(section, 1) + ByteAt(section, 2)
                            else Section(section))
      {
        value := if i < |record| then 0x100 * value + record[i] as nat else 0x100 * value;
        i, j := i + 1, j + 1;
      }
      XorAssociates(checksum, Section(section), RecordChecksum(Rest(section)));
      assert i < |record| ==> Rest(section) == record[i..];
      checksum := Xor(checksum, value);
    }
    XorZero(checksum);
  }

  lemma FirstRecord(records: seq<Bytes>, i: nat)
    requires i < |records|
    ensures FileChecksum(records[i..]) == Xor(RecordChecksum(records[i]), FileChecksum(records[i + 1..]))
  {
    assert records[i..][1..] == records[i + 1..];
  }

  method ComputeFileChecksum(records: seq<Bytes>) returns (r: Option<nat>)
    ensures r == if forall k :: 0 <= k < |records| ==> ValidRecord(records[k]) then Some(FileChecksum(records)) else None
  {
    var acc: nat := 0;
    XorZero(FileChecksum(records));
    assert records[0..] == records;
    for i := 0 to |records|
      invariant acc < WORD
      invariant forall k :: 0 <= k < i ==> ValidRecord(records[k])
      invariant Xor(acc, FileChecksum(records[i..])) == FileChecksum(records)
    {
      if !ValidRecord(records[i]) {
        return None;
      }
      var c := ComputeRecordChecksum(records[i]);
      FirstRecord(records, i);
      XorAssociates(acc, c, FileChecksum(records[i + 1..]));
      XorIsWord(acc, c);
      acc := Xor(acc, c);
    }
    XorZero(acc);
    r := Some(acc % WORD);
  }

  // --- what it notices, and what it does not ------------------------------------------

  // Changing one byte of a record changes its checksum.
  lemma {:induction false} RecordNoticesChange(record: Bytes, i: nat, b: Byte)
    requires i < |record| && b != record[i]
    ensures RecordChecksum(record[i := b]) != RecordChecksum(record)
  {
    var changed := record[i := b];
    if i < 4 {
      assert Rest(changed) == Rest(record);
      assert Section(changed) != Section(record);
    } else {
      assert Section(changed) == Section(record);
      assert Rest(changed) == Rest(record)[i - 4 := b];
      RecordNoticesChange(Rest(record), i - 4, b);
    }
    XorCancels(Section(changed), Section(record), RecordChecksum(Rest(record)));
    XorCancels(RecordChecksum(Rest(changed)), RecordChecksum(Rest(record)), Section(record));
  }

  // Changing one byte anywhere in a file changes the file's checksum.
  lemma {:induction false} FileNoticesChange(records: seq<Bytes>, k: nat, i: nat, changed: Bytes)
    requires k < |records| && i < |records[k]| == |changed|
    requires changed[i] != records[k][i] && changed == records[k][i := changed[i]]
    ensures FileChecksum(records[k := changed]) != FileChecksum(records)
  {
    var all := records[k := changed];
    if k == 0 {
      assert all[1..] == records[1..];
      RecordNoticesChange(records[0], i, changed[i]);
      XorCancels(RecordChecksum(changed), RecordChecksum(records[0]), FileChecksum(records[1..]));
    } else {
      assert all[1..] == records[1..][k - 1 := changed];
      FileNoticesChange(records[1..], k - 1, i, changed);
      XorCancels(FileChecksum(all[1..]), FileChecksum(records[1..]), RecordChecksum(records[0]));
    }
  }

  // A record sent twice leaves no trace in the checksum; only the record count shows it.
  lemma {:induction false} RepeatedRecordCancels(before: seq<Bytes>, record: Bytes, after: seq<Bytes>)
    ensures FileChecksum(before + [record, record] + after) == FileChecksum(before + after)
  {
    if before == [] {
      var c, rest := RecordChecksum(record), FileChecksum(after);
      assert before + after == after;
      assert (before + [record, record] + after)[1..] == [record] + after;
      assert ([record] + after)[1..] == after;
      XorAssociates(c, c, rest);
      XorSelf(c);
      XorZero(rest);
    } else {
      RepeatedRecordCancels(before[1..], record, after);
      assert (before + [record, record] + after)[1..] == before[1..] + [record, record] + after;
      assert (before + after)[1..] == before[1..] + after;
    }
  }
}
