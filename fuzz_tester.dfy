/** Model of fuzz_test/fuzz_tester.cpp: a libFuzzer entry point that sums the
    input bytes, each scaled by 1000, into a signed 32-bit `int`. Signed
    overflow is undefined in C++, so the model stops at the first step whose
    exact sum leaves the `int` range and reports where that happened. */
module FuzzTester {

  type byte = x: int | 0 <= x < 256

  const Scale: int := 1000
  const IntMax: int := 0x7FFF_FFFF

  /** Exact (unbounded) sum of the bytes. */
  function Sum(data: seq<byte>): nat
  {
    if |data| == 0 then 0 else Sum(data[..|data| - 1]) + data[|data| - 1]
  }

  /** What the loop produces: the scaled sum, or the offset of the byte whose
      addition overflowed the accumulator. */
  datatype SumOutcome = Value(v: int) | Overflow(offset: nat)

  /** Every byte contributes at most 255. */
  lemma {:induction false} SumBound(data: seq<byte>)
    ensures Sum(data) <= 255 * |data|
  {
    if |data| > 0 {
      SumBound(data[..|data| - 1]);
    }
  }

  /** Adding a byte never decreases the sum, so the sum of a prefix is at most
      the sum of the whole. */
  lemma {:induction false} SumPrefixMonotone(data: seq<byte>, k: nat)
    requires k <= |data|
    ensures Sum(data[..k]) <= Sum(data)
    decreases |data| - k
  {
    if k < |data| {
      SumPrefixMonotone(data, k + 1);
      assert data[..k + 1][..k] == data[..k];
    } else {
      assert data[..k] == data;
    }
  }

  /** `SumValues`: `Value` starts at 0 and each iteration adds
      `data[offset] * 1000`. */
  method SumValues(data: seq<byte>) returns (r: SumOutcome)
    ensures r.Value? <==> Scale * Sum(data) <= IntMax
    ensures r.Value? ==> r.v == Scale * Sum(data)
    ensures r.Overflow? ==>
      r.offset < |data|
      && Scale * Sum(data[..r.offset]) <= IntMax < Scale * Sum(data[..r.offset + 1])
  {
    var value := 0;
    var offset := 0;
    while offset < |data|
      invariant 0 <= offset <= |data|
      invariant value == Scale * Sum(data[..offset]) <= IntMax
    {
      assert data[..offset + 1][..offset] == data[..offset];
      if value + data[offset] * Scale > IntMax {
        SumPrefixMonotone(data, offset + 1);
        return Overflow(offset);
      }
      value := value + data[offset] * Scale;
      offset := offset + 1;
    }
    assert data[..offset] == data;
    r := Value(value);
  }

  /** An empty input sums to 0. */
  lemma EmptyInputIsZero()
    ensures Sum([]) == 0
  {
  }

  /** Fewer than 8422 bytes can never overflow: 8421 * 255 * 1000 is
      2147355000, just below 2^31 - 1. */
  lemma {:induction false} NoOverflowBelow8422(data: seq<byte>)
    requires |data| < 8422
    ensures Scale * Sum(data) <= IntMax
  {
    SumBound(data);
  }

  /** A buffer of all 0xFF bytes. */
  function AllFF(n: nat): (s: seq<byte>)
    ensures |s| == n
    ensures forall i :: 0 <= i < n ==> s[i] == 0xFF
  {
    if n == 0 then [] else AllFF(n - 1) + [0xFF]
  }

  lemma {:induction false} SumAllFF(n: nat)
    ensures Sum(AllFF(n)) == 255 * n
  {
    if n > 0 {
      var s := AllFF(n);
      assert s[..n - 1] == AllFF(n - 1);
      SumAllFF(n - 1);
    }
  }

  /** 8422 bytes of 0xFF do overflow (8422 * 255 * 1000 = 2147610000), so
      8422 is the exact length from which the harness can reach undefined
      behaviour. */
  lemma OverflowAt8422()
    ensures Scale * Sum(AllFF(8422)) > IntMax
  {
    SumAllFF(8422);
  }

  /** What `LLVMFuzzerTestOneInput` reports on its one line of output. */
  datatype Report = Report(sum: SumOutcome, len: nat)

  /** `LLVMFuzzerTestOneInput`: sums the input, reports the sum and the
      length, and returns 0 whatever the input. */
  method LLVMFuzzerTestOneInput(data: seq<byte>) returns (status: int, report: Report)
    ensures status == 0
    ensures report.len == |data|
    ensures report.sum.Value? <==> Scale * Sum(data) <= IntMax
    ensures report.sum.Value? ==> report.sum.v == Scale * Sum(data)
  {
    var sum := SumValues(data);
    report := Report(sum, |data|);
    status := 0;
  }
}
